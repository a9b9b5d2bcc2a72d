/** The text side of src/train/enhanced_generator.py: expanding command
    templates over rooms and parameter values, assigning a command to its
    category, capping and recording the generated samples, counting them per
    category, and splitting them into training and validation sets. Audio
    synthesis and file output are not modelled; a synthesis failure is given
    as the set of attempts that fail. */
module EnhancedGenerator {
  import opened Strings

  const RoomPlaceholder: string := "{room}"

  /** The placeholders `_replace_other_params` tests for before expanding. */
  const ParamPlaceholders: seq<string> := ["{temp}", "{level}", "{channel}", "{content}", "{song}", "{artist}"]

  const OtherCategory: string := "其他"

  function Rooms(): seq<string> {
    ["客厅", "卧室", "厨房", "书房", "餐厅", "主卧", "次卧", "儿童房"]
  }

  /** `replacements`, in dict order. */
  function Replacements(): seq<(string, seq<string>)> {
    [ ("temp", ["20", "22", "24", "26", "28"]),
      ("level", ["50%", "80%", "最亮", "最暗", "中等"]),
      ("channel", ["新闻频道", "电影频道", "综艺频道", "体育频道"]),
      ("content", ["电影", "新闻", "综艺", "音乐"]),
      ("song", ["周杰伦的歌", "流行歌曲", "轻音乐", "古典音乐"]),
      ("artist", ["周杰伦", "邓紫棋", "林俊杰", "王菲"]) ]
  }

  /** `command_categories`, in dict order. */
  function CommandCategories(): seq<(string, seq<string>)> {
    [ ("灯光控制", ["打开{room}的灯", "关闭{room}的灯", "调亮{room}的灯", "调暗{room}的灯",
                "设置{room}灯光亮度为{level}", "切换{room}的灯", "开启{room}夜灯模式",
                "关闭所有灯光", "打开全部灯", "灯光场景切换", "开启阅读模式"]),
      ("空调控制", ["打开空调", "关闭空调", "调高温度", "调低温度", "设置温度为{temp}度",
                "空调制冷模式", "空调制热模式", "空调除湿模式", "空调风速调节",
                "打开{room}空调", "关闭{room}空调", "空调定时开启", "空调定时关闭"]),
      ("电视控制", ["打开电视", "关闭电视", "切换频道", "调高音量", "调低音量",
                "电视静音", "取消静音", "播放{channel}", "搜索{content}",
                "回到主页", "打开应用", "电视待机"]),
      ("音乐控制", ["播放音乐", "暂停音乐", "停止播放", "下一首", "上一首",
                "调节音量", "播放{song}", "播放{artist}的歌",
                "播放古典音乐", "播放流行音乐", "音乐循环播放", "随机播放"]),
      ("窗帘控制", ["打开窗帘", "关闭窗帘", "拉开{room}窗帘", "拉上{room}窗帘",
                "窗帘半开", "窗帘全开", "窗帘全关", "自动窗帘模式"]),
      ("风扇控制", ["打开风扇", "关闭风扇", "风扇调速", "风扇摆头",
                "风扇定时", "打开{room}风扇", "关闭{room}风扇",
                "风扇一档", "风扇二档", "风扇三档"]),
      ("安全控制", ["开启安防模式", "关闭安防模式", "查看监控", "锁门", "开门",
                "安防布防", "安防撤防", "报警器开启", "报警器关闭"]),
      ("环境控制", ["查看温度", "查看湿度", "空气净化器开启", "空气净化器关闭",
                "加湿器开启", "加湿器关闭", "检测空气质量", "开启新风系统"]) ]
  }

  /** `"{" + key + "}"`. */
  function Placeholder(key: string): (p: string)
    ensures |p| == |key| + 2 && p != ""
  {
    "{" + key + "}"
  }

  /** The first replacement key, from index `i` on, whose placeholder occurs
      in the command. */
  function FirstParamFrom(repls: seq<(string, seq<string>)>, command: string, i: nat): (r: Option<nat>)
    requires i <= |repls|
    ensures r.Some? ==> i <= r.value < |repls| && Contains(command, Placeholder(repls[r.value].0))
    ensures r.Some? ==> forall k :: i <= k < r.value ==> !Contains(command, Placeholder(repls[k].0))
    ensures r.None? ==> forall k :: i <= k < |repls| ==> !Contains(command, Placeholder(repls[k].0))
    decreases |repls| - i
  {
    if i == |repls| then None
    else if Contains(command, Placeholder(repls[i].0)) then Some(i)
    else FirstParamFrom(repls, command, i + 1)
  }

  /** Every occurrence of a placeholder replaced by each value in turn. */
  function Substitutions(command: string, placeholder: string, values: seq<string>): (r: seq<string>)
    requires placeholder != ""
    ensures |r| == |values|
    ensures forall m :: 0 <= m < |values| ==> r[m] == Replace(command, placeholder, values[m])
  {
    seq(|values|, m requires 0 <= m < |values| => Replace(command, placeholder, values[m]))
  }

  /** What `_replace_other_params` returns: the command alone when it holds
      none of the six parameter placeholders (or none of the table's keys);
      otherwise one command per value of the FIRST key present, in table
      order, with that placeholder replaced. */
  function Expand(repls: seq<(string, seq<string>)>, command: string): (r: seq<string>)
    ensures !ContainsAny(command, ParamPlaceholders) ==> r == [command]
    ensures FirstParamFrom(repls, command, 0).None? ==> r == [command]
    ensures ContainsAny(command, ParamPlaceholders) && FirstParamFrom(repls, command, 0).Some? ==>
      var k := FirstParamFrom(repls, command, 0).value;
      r == Substitutions(command, Placeholder(repls[k].0), repls[k].1)
  {
    if !ContainsAny(command, ParamPlaceholders) then [command]
    else
      match FirstParamFrom(repls, command, 0)
      case None => [command]
      case Some(k) => Substitutions(command, Placeholder(repls[k].0), repls[k].1)
  }

  /** The commands of one `{room}` template, room by room. */
  function RoomExpansions(repls: seq<(string, seq<string>)>, template: string, rooms: seq<string>): seq<string>
    decreases |rooms|
  {
    if rooms == [] then []
    else RoomExpansions(repls, template, rooms[..|rooms| - 1]) +
         Expand(repls, Replace(template, RoomPlaceholder, rooms[|rooms| - 1]))
  }

  /** The commands of one template. */
  function TemplateExpansions(repls: seq<(string, seq<string>)>, rooms: seq<string>, template: string): seq<string> {
    if Contains(template, RoomPlaceholder) then RoomExpansions(repls, template, rooms)
    else Expand(repls, template)
  }

  /** The commands of a list of templates, in order. */
  function TemplatesExpansions(repls: seq<(string, seq<string>)>, rooms: seq<string>, templates: seq<string>): seq<string>
    decreases |templates|
  {
    if templates == [] then []
    else TemplatesExpansions(repls, rooms, templates[..|templates| - 1]) +
         TemplateExpansions(repls, rooms, templates[|templates| - 1])
  }

  /** The list `generate_all_commands` builds before removing duplicates. */
  function AllExpansions(repls: seq<(string, seq<string>)>, rooms: seq<string>, cats: seq<(string, seq<string>)>): seq<string>
    decreases |cats|
  {
    if cats == [] then []
    else AllExpansions(repls, rooms, cats[..|cats| - 1]) +
         TemplatesExpansions(repls, rooms, cats[|cats| - 1].1)
  }

  /** `list(set(xs))`: the same members, each once. Python leaves the order
      unspecified; this keeps first occurrences. */
  function Dedup(xs: seq<string>): (r: seq<string>)
    ensures NoDuplicates(r)
    ensures forall x :: x in r <==> x in xs
    decreases |xs|
  {
    if xs == [] then []
    else
      var d := Dedup(xs[..|xs| - 1]);
      assert xs == xs[..|xs| - 1] + [xs[|xs| - 1]];
      if xs[|xs| - 1] in d then d else d + [xs[|xs| - 1]]
  }

  lemma {:induction false} RoomExpansionsContain(repls: seq<(string, seq<string>)>, template: string, rooms: seq<string>, k: nat)
    requires k < |rooms|
    ensures forall c :: c in Expand(repls, Replace(template, RoomPlaceholder, rooms[k])) ==>
      c in RoomExpansions(repls, template, rooms)
    decreases |rooms|
  {
    if k < |rooms| - 1 {
      RoomExpansionsContain(repls, template, rooms[..|rooms| - 1], k);
    }
  }

  lemma {:induction false} TemplatesExpansionsContain(repls: seq<(string, seq<string>)>, rooms: seq<string>, templates: seq<string>, j: nat)
    requires j < |templates|
    ensures forall c :: c in TemplateExpansions(repls, rooms, templates[j]) ==>
      c in TemplatesExpansions(repls, rooms, templates)
    decreases |templates|
  {
    if j < |templates| - 1 {
      TemplatesExpansionsContain(repls, rooms, templates[..|templates| - 1], j);
    }
  }

  lemma {:induction false} AllExpansionsContain(repls: seq<(string, seq<string>)>, rooms: seq<string>, cats: seq<(string, seq<string>)>, i: nat)
    requires i < |cats|
    ensures forall c :: c in TemplatesExpansions(repls, rooms, cats[i].1) ==>
      c in AllExpansions(repls, rooms, cats)
    decreases |cats|
  {
    if i < |cats| - 1 {
      AllExpansionsContain(repls, rooms, cats[..|cats| - 1], i);
    }
  }

  lemma RoomStep(repls: seq<(string, seq<string>)>, template: string, rooms: seq<string>, k: nat)
    requires k < |rooms|
    ensures RoomExpansions(repls, template, rooms[..k + 1]) ==
      RoomExpansions(repls, template, rooms[..k]) + Expand(repls, Replace(template, RoomPlaceholder, rooms[k]))
  {
    assert rooms[..k + 1][..k] == rooms[..k];
  }

  lemma TemplatesStep(repls: seq<(string, seq<string>)>, rooms: seq<string>, templates: seq<string>, j: nat)
    requires j < |templates|
    ensures TemplatesExpansions(repls, rooms, templates[..j + 1]) ==
      TemplatesExpansions(repls, rooms, templates[..j]) + TemplateExpansions(repls, rooms, templates[j])
  {
    assert templates[..j + 1][..j] == templates[..j];
  }

  lemma AllStep(repls: seq<(string, seq<string>)>, rooms: seq<string>, cats: seq<(string, seq<string>)>, i: nat)
    requires i < |cats|
    ensures AllExpansions(repls, rooms, cats[..i + 1]) ==
      AllExpansions(repls, rooms, cats[..i]) + TemplatesExpansions(repls, rooms, cats[i].1)
  {
    assert cats[..i + 1][..i] == cats[..i];
  }

  /** Every room is substituted into every `{room}` template: each command
      that the expansion of any room gives appears among all the commands. */
  lemma EveryRoomCovered(repls: seq<(string, seq<string>)>, rooms: seq<string>, cats: seq<(string, seq<string>)>,
                         i: nat, j: nat, k: nat)
    requires i < |cats| && j < |cats[i].1| && k < |rooms|
    requires Contains(cats[i].1[j], RoomPlaceholder)
    ensures forall c :: c in Expand(repls, Replace(cats[i].1[j], RoomPlaceholder, rooms[k])) ==>
      c in Dedup(AllExpansions(repls, rooms, cats))
  {
    RoomExpansionsContain(repls, cats[i].1[j], rooms, k);
    TemplatesExpansionsContain(repls, rooms, cats[i].1, j);
    AllExpansionsContain(repls, rooms, cats, i);
  }

  /** A template without placeholders appears as itself among all the commands. */
  lemma PlainTemplateCovered(repls: seq<(string, seq<string>)>, rooms: seq<string>, cats: seq<(string, seq<string>)>,
                             i: nat, j: nat)
    requires i < |cats| && j < |cats[i].1|
    requires !Contains(cats[i].1[j], RoomPlaceholder) && !ContainsAny(cats[i].1[j], ParamPlaceholders)
    ensures cats[i].1[j] in Dedup(AllExpansions(repls, rooms, cats))
  {
    TemplatesExpansionsContain(repls, rooms, cats[i].1, j);
    AllExpansionsContain(repls, rooms, cats, i);
  }

  /** The placeholders `_get_command_category` removes from a template, in
      the order it removes them. */
  const StripOrder: seq<string> := ["{room}", "{temp}", "{level}", "{channel}", "{content}", "{song}", "{artist}"]

  /** A text with each placeholder of `strip` removed in turn. */
  function StripAll(text: string, strip: seq<string>): string
    decreases |strip|
  {
    if strip == [] then text
    else if strip[0] == "" then StripAll(text, strip[1..])
    else StripAll(Replace(text, strip[0], ""), strip[1..])
  }

  predicate WordsMatch(words: seq<string>, command: string) {
    forall w :: w in words && |w| > 1 ==> Contains(command, w)
  }

  /** Every word of the stripped template longer than one character occurs
      in the command. */
  predicate TemplateMatches(strip: seq<string>, template: string, command: string) {
    WordsMatch(Words(StripAll(template, strip)), command)
  }

  predicate CategoryMatches(strip: seq<string>, templates: seq<string>, command: string) {
    exists j :: 0 <= j < |templates| && TemplateMatches(strip, templates[j], command)
  }

  /** The first category, from index `i` on, one of whose templates matches. */
  function FirstCategoryFrom(strip: seq<string>, cats: seq<(string, seq<string>)>, command: string, i: nat): (r: Option<nat>)
    requires i <= |cats|
    ensures r.Some? ==> i <= r.value < |cats| && CategoryMatches(strip, cats[r.value].1, command)
    ensures r.Some? ==> forall k :: i <= k < r.value ==> !CategoryMatches(strip, cats[k].1, command)
    ensures r.None? ==> forall k :: i <= k < |cats| ==> !CategoryMatches(strip, cats[k].1, command)
    decreases |cats| - i
  {
    if i == |cats| then None
    else if CategoryMatches(strip, cats[i].1, command) then Some(i)
    else FirstCategoryFrom(strip, cats, command, i + 1)
  }

  /** The inner loop of `_get_command_category`: whether one of the
      category's templates matches. */
  method AnyTemplateMatches(strip: seq<string>, templates: seq<string>, command: string) returns (found: bool)
    ensures found <==> CategoryMatches(strip, templates, command)
  {
    for j := 0 to |templates|
      invariant forall j' :: 0 <= j' < j ==> !TemplateMatches(strip, templates[j'], command)
    {
      if TemplateMatches(strip, templates[j], command) {
        return true;
      }
    }
    return false;
  }

  /** What `_get_command_category` returns: the first category, in table
      order, with a matching template, else 其他. */
  function CategoryOf(strip: seq<string>, cats: seq<(string, seq<string>)>, command: string): (r: string)
    ensures (forall k :: 0 <= k < |cats| ==> !CategoryMatches(strip, cats[k].1, command)) ==> r == OtherCategory
    ensures FirstCategoryFrom(strip, cats, command, 0).Some? ==> r == cats[FirstCategoryFrom(strip, cats, command, 0).value].0
  {
    match FirstCategoryFrom(strip, cats, command, 0)
    case None => OtherCategory
    case Some(k) => cats[k].0
  }

  /** `int(x)`: truncation toward zero. */
  function Truncate(x: real): (r: int)
    ensures x >= 0.0 ==> r == x.Floor
    ensures x < 0.0 ==> r == -((-x).Floor)
  {
    if x >= 0.0 then x.Floor else -((-x).Floor)
  }

  /** The size of the training set: `int(n * ratio)` as a slice end of a
      list of n samples. */
  function TrainSize(n: nat, ratio: real): (r: nat)
    ensures r <= n
  {
    PySliceEnd(Truncate(n as real * ratio), n)
  }

  /** The per-command sample count after the cap, or None where the source
      divides by zero (no commands and a negative maximum). */
  function SamplesPerCommand(n: nat, perCommand: int, maxTotal: int): (r: Option<int>)
    ensures r.None? <==> n == 0 && maxTotal < 0
    ensures r.Some? && n * perCommand <= maxTotal ==> r.value == perCommand
    ensures r.Some? && n * perCommand > maxTotal ==> r.value >= 1
    ensures r.Some? && n * perCommand > maxTotal && maxTotal >= n ==> n * r.value <= maxTotal
  {
    if n * perCommand > maxTotal then
      if n == 0 then None
      else
        var q := maxTotal / n;
        Some(if q > 1 then q else 1)
    else Some(perCommand)
  }

  /** One recorded sample: its position (which names its audio file), its
      text and its category. The random voice profile is not modelled. */
  datatype Sample = Sample(index: nat, text: string, category: string)

  /** The texts of the attempts `0..upTo-1` of command number `i` that do not
      fail. */
  function CommandSuccesses(text: string, i: nat, upTo: nat, fails: set<(nat, nat)>): (r: seq<string>)
    ensures |r| <= upTo
    ensures forall m :: 0 <= m < |r| ==> r[m] == text
    decreases upTo
  {
    if upTo == 0 then []
    else CommandSuccesses(text, i, upTo - 1, fails) + (if (i, upTo - 1) in fails then [] else [text])
  }

  /** The texts of the attempts of the given commands that do not fail, in
      generation order. */
  function Successes(commands: seq<string>, perCommand: nat, fails: set<(nat, nat)>): (r: seq<string>)
    ensures |r| <= |commands| * perCommand
    decreases |commands|
  {
    if commands == [] then []
    else
      var init := commands[..|commands| - 1];
      var r := Successes(init, perCommand, fails) +
               CommandSuccesses(commands[|commands| - 1], |commands| - 1, perCommand, fails);
      assert |commands| * perCommand == |init| * perCommand + perCommand;
      r
  }

  predicate Prefix(a: seq<string>, b: seq<string>) {
    |a| <= |b| && b[..|a|] == a
  }

  lemma SuccessesStep(commands: seq<string>, perCommand: nat, fails: set<(nat, nat)>, i: nat)
    requires i < |commands|
    ensures Successes(commands[..i + 1], perCommand, fails) ==
      Successes(commands[..i], perCommand, fails) + CommandSuccesses(commands[i], i, perCommand, fails)
  {
    assert commands[..i + 1][..i] == commands[..i];
  }

  lemma {:induction false} CommandSuccessesPrefix(text: string, i: nat, s: nat, upTo: nat, fails: set<(nat, nat)>)
    requires s <= upTo
    ensures Prefix(CommandSuccesses(text, i, s, fails), CommandSuccesses(text, i, upTo, fails))
    decreases upTo
  {
    if s < upTo {
      CommandSuccessesPrefix(text, i, s, upTo - 1, fails);
    }
  }

  lemma {:induction false} SuccessesPrefix(commands: seq<string>, perCommand: nat, fails: set<(nat, nat)>, i: nat)
    requires i <= |commands|
    ensures Prefix(Successes(commands[..i], perCommand, fails), Successes(commands, perCommand, fails))
    decreases |commands|
  {
    if i < |commands| {
      var init := commands[..|commands| - 1];
      SuccessesPrefix(init, perCommand, fails, i);
      assert init[..i] == commands[..i];
    } else {
      assert commands[..i] == commands;
    }
  }

  /** The texts recorded part way through command `i` are a prefix of all
      the successful attempts. */
  lemma TargetPrefix(commands: seq<string>, perCommand: nat, fails: set<(nat, nat)>, i: nat, s: nat)
    requires i < |commands| && s <= perCommand
    ensures Prefix(Successes(commands[..i], perCommand, fails) + CommandSuccesses(commands[i], i, s, fails),
                   Successes(commands, perCommand, fails))
  {
    var before := Successes(commands[..i], perCommand, fails);
    var part := CommandSuccesses(commands[i], i, s, fails);
    var whole := CommandSuccesses(commands[i], i, perCommand, fails);
    var all := Successes(commands, perCommand, fails);
    SuccessesStep(commands, perCommand, fails, i);
    SuccessesPrefix(commands, perCommand, fails, i + 1);
    CommandSuccessesPrefix(commands[i], i, s, perCommand, fails);
    assert all[..|before + whole|] == before + whole;
    assert (before + whole)[..|before + part|] == before + part;
    assert all[..|before + part|] == (all[..|before + whole|])[..|before + part|];
  }

  /** A successful attempt s of command i is the next text of all the
      successful attempts. */
  lemma AttemptRecorded(commands: seq<string>, perCommand: nat, fails: set<(nat, nat)>, i: nat, s: nat)
    requires i < |commands| && s < perCommand && (i, s) !in fails
    ensures var before := Successes(commands[..i], perCommand, fails);
      var n := |before + CommandSuccesses(commands[i], i, s, fails)|;
      n < |Successes(commands, perCommand, fails)| &&
      Successes(commands, perCommand, fails)[n] == commands[i] &&
      |before + CommandSuccesses(commands[i], i, s + 1, fails)| == n + 1
  {
    var before := Successes(commands[..i], perCommand, fails);
    var part := CommandSuccesses(commands[i], i, s, fails);
    var next := CommandSuccesses(commands[i], i, s + 1, fails);
    TargetPrefix(commands, perCommand, fails, i, s + 1);
    assert next == part + [commands[i]];
    assert (before + next)[|before + part|] == commands[i];
  }

  lemma NumberedExtend(recorded: seq<Sample>, all: seq<string>, strip: seq<string>, cats: seq<(string, seq<string>)>)
    requires |recorded| < |all| && Numbered(recorded, all[..|recorded|], strip, cats)
    ensures Numbered(recorded + [Sample(|recorded|, all[|recorded|], CategoryOf(strip, cats, all[|recorded|]))],
                     all[..|recorded| + 1], strip, cats)
  {
    assert all[..|recorded| + 1] == all[..|recorded|] + [all[|recorded|]];
  }

  /** Without failures every attempt yields a sample. */
  lemma {:induction false} SuccessesWithoutFailures(commands: seq<string>, perCommand: nat)
    ensures |Successes(commands, perCommand, {})| == |commands| * perCommand
    decreases |commands|
  {
    if commands != [] {
      SuccessesWithoutFailures(commands[..|commands| - 1], perCommand);
      CommandSuccessesWithoutFailures(commands[|commands| - 1], |commands| - 1, perCommand);
    }
  }

  lemma {:induction false} CommandSuccessesWithoutFailures(text: string, i: nat, upTo: nat)
    ensures |CommandSuccesses(text, i, upTo, {})| == upTo
    decreases upTo
  {
    if upTo > 0 {
      CommandSuccessesWithoutFailures(text, i, upTo - 1);
    }
  }

  /** The samples of texts `ts`, numbered from 0. */
  predicate Numbered(samples: seq<Sample>, ts: seq<string>, strip: seq<string>, cats: seq<(string, seq<string>)>) {
    |samples| == |ts| &&
    forall m :: 0 <= m < |samples| ==> samples[m] == Sample(m, ts[m], CategoryOf(strip, cats, ts[m]))
  }

  /** How many of the samples have the category. */
  function Occurrences(samples: seq<Sample>, category: string): (r: nat)
    ensures r <= |samples|
    decreases |samples|
  {
    if samples == [] then 0
    else Occurrences(samples[..|samples| - 1], category) + (if samples[|samples| - 1].category == category then 1 else 0)
  }

  /** The sum of the counts. */
  function Total(counts: seq<(string, nat)>): nat
    decreases |counts|
  {
    if counts == [] then 0 else Total(counts[..|counts| - 1]) + counts[|counts| - 1].1
  }

  lemma {:induction false} TotalAppend(counts: seq<(string, nat)>, entry: (string, nat))
    ensures Total(counts + [entry]) == Total(counts) + entry.1
  {
    assert (counts + [entry])[..|counts|] == counts;
  }

  lemma {:induction false} TotalIncrement(counts: seq<(string, nat)>, k: nat)
    requires k < |counts|
    ensures Total(counts[k := (counts[k].0, counts[k].1 + 1)]) == Total(counts) + 1
    decreases |counts|
  {
    var updated := counts[k := (counts[k].0, counts[k].1 + 1)];
    assert updated[..|updated| - 1] == if k < |counts| - 1 then counts[..|counts| - 1][k := (counts[k].0, counts[k].1 + 1)]
                                       else counts[..|counts| - 1];
    if k < |counts| - 1 {
      TotalIncrement(counts[..|counts| - 1], k);
    }
  }

  /** The categories of `samples`, each once, in order of first appearance:
      the key order of a dict filled sample by sample. */
  function FirstAppearances(samples: seq<Sample>): seq<string>
    decreases |samples|
  {
    if samples == [] then []
    else
      var earlier := FirstAppearances(samples[..|samples| - 1]);
      var category := samples[|samples| - 1].category;
      if category in earlier then earlier else earlier + [category]
  }

  /** FirstAppearances lists exactly the categories that occur, without repeats. */
  lemma {:induction false} FirstAppearancesMembers(samples: seq<Sample>)
    ensures forall c :: c in FirstAppearances(samples) <==> exists m :: 0 <= m < |samples| && samples[m].category == c
    ensures forall a, b :: 0 <= a < b < |FirstAppearances(samples)| ==>
      FirstAppearances(samples)[a] != FirstAppearances(samples)[b]
    decreases |samples|
  {
    if samples != [] {
      var init := samples[..|samples| - 1];
      FirstAppearancesMembers(init);
      assert forall m :: 0 <= m < |init| ==> samples[m] == init[m];
    }
  }

  /** An earlier entry of FirstAppearances occurs before any sample of a later one. */
  lemma {:induction false} FirstAppearancesOrder(samples: seq<Sample>, a: nat, b: nat, m: nat)
    requires a < b < |FirstAppearances(samples)|
    requires m < |samples| && samples[m].category == FirstAppearances(samples)[b]
    ensures exists m' :: 0 <= m' < m && samples[m'].category == FirstAppearances(samples)[a]
    decreases |samples|
  {
    var init := samples[..|samples| - 1];
    var earlier := FirstAppearances(init);
    var category := samples[|samples| - 1].category;
    FirstAppearancesMembers(init);
    assert forall j :: 0 <= j < |init| ==> samples[j] == init[j];
    if category in earlier {
      if m < |init| {
        FirstAppearancesOrder(init, a, b, m);
      } else {
        var j :| 0 <= j < |init| && init[j].category == earlier[b];
        FirstAppearancesOrder(init, a, b, j);
      }
    } else if b < |earlier| {
      assert m < |init|;
      FirstAppearancesOrder(init, a, b, m);
    } else {
      assert m == |init|;
      assert earlier[a] in earlier;
      var j :| 0 <= j < |init| && init[j].category == earlier[a];
      assert samples[j].category == FirstAppearances(samples)[a];
    }
  }

  /** The category of each entry, in order. */
  function EntryNames(counts: seq<(string, nat)>): (r: seq<string>)
    ensures |r| == |counts| && forall k :: 0 <= k < |counts| ==> r[k] == counts[k].0
  {
    seq(|counts|, k requires 0 <= k < |counts| => counts[k].0)
  }

  /** The `categories` dict: one positive entry per category present, in
      order of first appearance, each holding its number of samples. */
  predicate CountsOf(counts: seq<(string, nat)>, samples: seq<Sample>) {
    (forall a, b :: 0 <= a < b < |counts| ==> counts[a].0 != counts[b].0) &&
    (forall k :: 0 <= k < |counts| ==> counts[k].1 == Occurrences(samples, counts[k].0)) &&
    Covers(counts, samples) &&
    EntryNames(counts) == FirstAppearances(samples) &&
    (forall k :: 0 <= k < |counts| ==> counts[k].1 > 0)
  }

  /** Every sample's category has an entry. */
  predicate Covers(counts: seq<(string, nat)>, samples: seq<Sample>) {
    forall m :: 0 <= m < |samples| ==> exists k :: 0 <= k < |counts| && counts[k].0 == samples[m].category
  }

  /** The counts after one more sample of `category`, whose entry is at
      index `k` (or new, when `k` is past the end). */
  function Bump(counts: seq<(string, nat)>, k: nat, category: string): (r: seq<(string, nat)>)
    requires k <= |counts|
  {
    if k == |counts| then counts + [(category, 1)] else counts[k := (category, counts[k].1 + 1)]
  }

  lemma OccurrencesAppend(samples: seq<Sample>, x: Sample, category: string)
    ensures Occurrences(samples + [x], category) == Occurrences(samples, category) + (if x.category == category then 1 else 0)
  {
    assert (samples + [x])[..|samples|] == samples;
  }

  lemma {:induction false} OccurrencesAbsent(samples: seq<Sample>, category: string)
    requires forall m :: 0 <= m < |samples| ==> samples[m].category != category
    ensures Occurrences(samples, category) == 0
    decreases |samples|
  {
    if samples != [] {
      OccurrencesAbsent(samples[..|samples| - 1], category);
    }
  }

  lemma CountsExtend(counts: seq<(string, nat)>, samples: seq<Sample>, x: Sample, k: nat)
    requires CountsOf(counts, samples) && k <= |counts|
    requires forall k' :: 0 <= k' < k ==> counts[k'].0 != x.category
    requires k < |counts| ==> counts[k].0 == x.category
    ensures CountsOf(Bump(counts, k, x.category), samples + [x])
  {
    BumpDistinct(counts, samples, x, k);
    BumpCounts(counts, samples, x, k);
    BumpCovers(counts, samples, x, k);
    BumpOrder(counts, samples, x, k);
  }

  /** A new entry goes last, for a category seen for the first time. */
  lemma BumpOrder(counts: seq<(string, nat)>, samples: seq<Sample>, x: Sample, k: nat)
    requires CountsOf(counts, samples) && k <= |counts|
    requires forall k' :: 0 <= k' < k ==> counts[k'].0 != x.category
    requires k < |counts| ==> counts[k].0 == x.category
    ensures EntryNames(Bump(counts, k, x.category)) == FirstAppearances(samples + [x])
    ensures var next := Bump(counts, k, x.category); forall k' :: 0 <= k' < |next| ==> next[k'].1 > 0
  {
    var all := samples + [x];
    assert all[..|all| - 1] == samples;
    var names := EntryNames(counts);
    if k < |counts| {
      assert names[k] == x.category;
      assert EntryNames(Bump(counts, k, x.category)) == names;
    } else {
      assert x.category !in names;
      assert EntryNames(Bump(counts, k, x.category)) == names + [x.category];
    }
  }

  /** A new entry is added only for a category not yet counted. */
  lemma BumpDistinct(counts: seq<(string, nat)>, samples: seq<Sample>, x: Sample, k: nat)
    requires CountsOf(counts, samples) && k <= |counts|
    requires forall k' :: 0 <= k' < k ==> counts[k'].0 != x.category
    requires k < |counts| ==> counts[k].0 == x.category
    ensures var next := Bump(counts, k, x.category);
      forall a, b :: 0 <= a < b < |next| ==> next[a].0 != next[b].0
  {
  }

  /** Every entry still holds the number of samples of its category. */
  lemma BumpCounts(counts: seq<(string, nat)>, samples: seq<Sample>, x: Sample, k: nat)
    requires CountsOf(counts, samples) && k <= |counts|
    requires forall k' :: 0 <= k' < k ==> counts[k'].0 != x.category
    requires k < |counts| ==> counts[k].0 == x.category
    ensures var next := Bump(counts, k, x.category);
      forall k' :: 0 <= k' < |next| ==> next[k'].1 == Occurrences(samples + [x], next[k'].0)
  {
    var next := Bump(counts, k, x.category);
    var all := samples + [x];
    assert |next| == if k == |counts| then |counts| + 1 else |counts|;
    forall k' | 0 <= k' < |next| ensures next[k'].1 == Occurrences(all, next[k'].0) {
      OccurrencesAppend(samples, x, next[k'].0);
      if k' == k && k == |counts| {
        forall m | 0 <= m < |samples| ensures samples[m].category != x.category {
          var j :| 0 <= j < |counts| && counts[j].0 == samples[m].category;
        }
        OccurrencesAbsent(samples, x.category);
      } else if k' != k {
        assert next[k'] == counts[k'];
      }
    }
  }

  /** Every sample's category, the new one included, has an entry. */
  lemma BumpCovers(counts: seq<(string, nat)>, samples: seq<Sample>, x: Sample, k: nat)
    requires CountsOf(counts, samples) && k <= |counts|
    requires k < |counts| ==> counts[k].0 == x.category
    ensures Covers(Bump(counts, k, x.category), samples + [x])
  {
    var next := Bump(counts, k, x.category);
    var all := samples + [x];
    assert |next| == if k == |counts| then |counts| + 1 else |counts|;
    assert forall j :: 0 <= j < |counts| ==> next[j].0 == counts[j].0;
    forall m | 0 <= m < |all| ensures exists k' :: 0 <= k' < |next| && next[k'].0 == all[m].category {
      if m == |samples| {
        assert next[k].0 == all[m].category;
      } else {
        var k' :| 0 <= k' < |counts| && counts[k'].0 == samples[m].category;
        assert next[k'].0 == all[m].category;
      }
    }
  }

  /** `dataset_info` as `generate_enhanced_dataset` returns it (the voice
      profiles, sample rate and duration are constants of the generator). */
  datatype DatasetInfo = DatasetInfo(totalSamples: nat, samples: seq<Sample>, categories: seq<(string, nat)>)

  /** `create_training_splits`' result. */
  datatype Splits = Splits(train: seq<Sample>, validation: seq<Sample>, trainCount: nat, valCount: nat, trainRatio: real)

  /** The object of class EnhancedDatasetGenerator (its tables). */
  class EnhancedDatasetGenerator {
    const categories: seq<(string, seq<string>)>
    const rooms: seq<string>
    const replacements: seq<(string, seq<string>)>
    /** The placeholders `_get_command_category` strips, held as a field so
        that the generator's proofs treat them as given. */
    const stripOrder: seq<string>

    constructor ()
      ensures categories == CommandCategories() && rooms == Rooms() && replacements == Replacements()
      ensures stripOrder == StripOrder
    {
      stripOrder := StripOrder;
      categories := CommandCategories();
      rooms := Rooms();
      replacements := Replacements();
    }

    /** `_replace_other_params`. */
    method ReplaceOtherParams(command: string) returns (results: seq<string>)
      ensures results == Expand(replacements, command)
    {
      if !ContainsAny(command, ParamPlaceholders) {
        return [command];
      }
      var i := 0;
      while i < |replacements|
        invariant 0 <= i <= |replacements|
        invariant FirstParamFrom(replacements, command, 0) == FirstParamFrom(replacements, command, i)
      {
        var placeholder := Placeholder(replacements[i].0);
        if Contains(command, placeholder) {
          var values := replacements[i].1;
          results := [];
          for m := 0 to |values|
            invariant results == Substitutions(command, placeholder, values[..m])
          {
            results := results + [Replace(command, placeholder, values[m])];
          }
          assert values[..|values|] == values;
          return;
        }
        i := i + 1;
      }
      return [command];
    }

    /** `generate_all_commands`. */
    method GenerateAllCommands() returns (all: seq<string>)
      ensures all == Dedup(AllExpansions(replacements, rooms, categories))
    {
      var raw: seq<string> := [];
      for i := 0 to |categories|
        invariant raw == AllExpansions(replacements, rooms, categories[..i])
      {
        var expanded := ExpandTemplates(categories[i].1);
        AllStep(replacements, rooms, categories, i);
        raw := raw + expanded;
      }
      assert categories[..|categories|] == categories;
      all := Dedup(raw);
    }

    /** The commands of one category's templates, in order. */
    method ExpandTemplates(templates: seq<string>) returns (raw: seq<string>)
      ensures raw == TemplatesExpansions(replacements, rooms, templates)
    {
      raw := [];
      for j := 0 to |templates|
        invariant raw == TemplatesExpansions(replacements, rooms, templates[..j])
      {
        var expanded := ExpandTemplate(templates[j]);
        TemplatesStep(replacements, rooms, templates, j);
        raw := raw + expanded;
      }
      assert templates[..|templates|] == templates;
    }

    /** The commands of one template: room by room for a `{room}` template. */
    method ExpandTemplate(template: string) returns (raw: seq<string>)
      ensures raw == TemplateExpansions(replacements, rooms, template)
    {
      if Contains(template, RoomPlaceholder) {
        raw := [];
        for k := 0 to |rooms|
          invariant raw == RoomExpansions(replacements, template, rooms[..k])
        {
          var expanded := ReplaceOtherParams(Replace(template, RoomPlaceholder, rooms[k]));
          RoomStep(replacements, template, rooms, k);
          raw := raw + expanded;
        }
        assert rooms[..|rooms|] == rooms;
      } else {
        raw := ReplaceOtherParams(template);
      }
    }

    /** `_get_command_category`. */
    method GetCommandCategory(command: string) returns (category: string)
      ensures category == CategoryOf(stripOrder, categories, command)
    {
      for i := 0 to |categories|
        invariant FirstCategoryFrom(stripOrder, categories, command, 0) == FirstCategoryFrom(stripOrder, categories, command, i)
      {
        var found := AnyTemplateMatches(stripOrder, categories[i].1, command);
        if found {
          return categories[i].0;
        }
      }
      return OtherCategory;
    }

    /** The sampling loop and the category count of
        `generate_enhanced_dataset`, on the command list `commands` (the
        output of `generate_all_commands`). The attempt (i, s) of command i
        fails to synthesise exactly when it is in `fails`. None where the cap
        divides by zero. Otherwise the samples are the first successful
        attempts, at most `maxTotal` of them, numbered from 0. */
    method GenerateEnhancedDataset(commands: seq<string>, perCommand: int, maxTotal: int, fails: set<(nat, nat)>)
      returns (info: Option<DatasetInfo>)
      ensures info.None? <==> SamplesPerCommand(|commands|, perCommand, maxTotal).None?
      ensures info.Some? ==>
        var per := SamplesPerCommand(|commands|, perCommand, maxTotal).value;
        var all := Successes(commands, if per > 0 then per else 0, fails);
        var n := if maxTotal <= 0 then 0 else if |all| < maxTotal then |all| else maxTotal;
        info.value.totalSamples == |info.value.samples| &&
        Numbered(info.value.samples, all[..n], stripOrder, categories) &&
        CountsOf(info.value.categories, info.value.samples) &&
        Total(info.value.categories) == info.value.totalSamples
    {
      var cap := SamplesPerCommand(|commands|, perCommand, maxTotal);
      if cap.None? {
        return None;
      }
      var per: nat := if cap.value > 0 then cap.value else 0;
      ghost var all := Successes(commands, per, fails);
      ghost var limit := if maxTotal <= 0 then 0 else maxTotal;
      var recorded: seq<Sample> := [];
      var sampleIndex := 0;
      var i := 0;
      while i < |commands|
        invariant 0 <= i <= |commands|
        invariant sampleIndex == |recorded| <= limit
        invariant |recorded| <= |all| && Numbered(recorded, all[..|recorded|], stripOrder, categories)
        invariant |recorded| == |Successes(commands[..i], per, fails)| || |recorded| >= maxTotal
      {
        if sampleIndex >= maxTotal {
          break;
        }
        recorded := SampleCommand(commands, i, per, maxTotal, fails, recorded);
        sampleIndex := |recorded|;
        i := i + 1;
      }
      SuccessesPrefix(commands, per, fails, |commands|);
      assert commands[..|commands|] == commands;
      var counts := CountCategories(recorded);
      info := Some(DatasetInfo(|recorded|, recorded, counts));
    }

    /** The inner loop of `generate_enhanced_dataset` for command number
        `i`, entered with fewer than `maxTotal` samples: its successful
        attempts are recorded, numbered on from `recorded`, until the cap. */
    method SampleCommand(commands: seq<string>, i: nat, per: nat, maxTotal: int, fails: set<(nat, nat)>,
                         recorded: seq<Sample>) returns (result: seq<Sample>)
      requires i < |commands|
      requires |recorded| == |Successes(commands[..i], per, fails)| < maxTotal
      requires |recorded| <= |Successes(commands, per, fails)|
      requires Numbered(recorded, Successes(commands, per, fails)[..|recorded|], stripOrder, categories)
      ensures |recorded| <= |result| <= maxTotal
      ensures |result| <= |Successes(commands, per, fails)|
      ensures Numbered(result, Successes(commands, per, fails)[..|result|], stripOrder, categories)
      ensures |result| == |Successes(commands[..i + 1], per, fails)| || |result| == maxTotal
    {
      ghost var all := Successes(commands, per, fails);
      ghost var before := Successes(commands[..i], per, fails);
      SuccessesPrefix(commands, per, fails, i);
      result := recorded;
      var sampleIndex := |recorded|;
      var s := 0;
      while s < per
        invariant 0 <= s <= per
        invariant sampleIndex == |result| <= maxTotal
        invariant |result| <= |all| && Numbered(result, all[..|result|], stripOrder, categories)
        invariant |result| == |before + CommandSuccesses(commands[i], i, s, fails)|
      {
        if sampleIndex >= maxTotal {
          break;
        }
        if (i, s) !in fails {
          AttemptRecorded(commands, per, fails, i, s);
          var category := GetCommandCategory(commands[i]);
          NumberedExtend(result, all, stripOrder, categories);
          result := result + [Sample(sampleIndex, commands[i], category)];
          sampleIndex := sampleIndex + 1;
        }
        s := s + 1;
      }
      SuccessesStep(commands, per, fails, i);
    }

    /** The category count of `generate_enhanced_dataset`. */
    static method CountCategories(samples: seq<Sample>) returns (counts: seq<(string, nat)>)
      ensures CountsOf(counts, samples)
      ensures Total(counts) == |samples|
    {
      counts := [];
      for m := 0 to |samples|
        invariant CountsOf(counts, samples[..m])
        invariant Total(counts) == m
      {
        var category := samples[m].category;
        var k := 0;
        while k < |counts| && counts[k].0 != category
          invariant 0 <= k <= |counts|
          invariant forall k' :: 0 <= k' < k ==> counts[k'].0 != category
        {
          k := k + 1;
        }
        assert samples[..m + 1] == samples[..m] + [samples[m]];
        CountsExtend(counts, samples[..m], samples[m], k);
        if k == |counts| {
          TotalAppend(counts, (category, 1));
        } else {
          TotalIncrement(counts, k);
        }
        counts := Bump(counts, k, category);
      }
      assert samples[..|samples|] == samples;
    }

    /** `create_training_splits` on the recorded samples after shuffling
        (`shuffled`; None when the information file is missing): the first
        `int(n * ratio)` samples, as a Python slice, train and the rest
        validate. */
    static method CreateTrainingSplits(shuffled: Option<seq<Sample>>, trainRatio: real) returns (splits: Option<Splits>)
      ensures splits.None? <==> shuffled.None?
      ensures splits.Some? ==>
        var all := shuffled.value;
        splits.value.train + splits.value.validation == all &&
        splits.value.trainCount == |splits.value.train| && splits.value.valCount == |splits.value.validation| &&
        splits.value.trainCount + splits.value.valCount == |all| &&
        |splits.value.train| == TrainSize(|all|, trainRatio) &&
        splits.value.trainRatio == trainRatio
    {
      if shuffled.None? {
        return None;
      }
      var commands := shuffled.value;
      var splitIndex := TrainSize(|commands|, trainRatio);
      var train := commands[..splitIndex];
      var validation := commands[splitIndex..];
      assert |train| == splitIndex && |validation| == |commands| - splitIndex;
      assert train + validation == commands;
      var result := Splits(train, validation, |train|, |validation|, trainRatio);
      assert result.train + result.validation == commands;
      assert result.trainCount + result.valCount == |commands|;
      assert |result.train| == splitIndex;
      splits := Some(result);
    }
  }

  /** For a ratio between 0 and 1 the training set has `floor(n * ratio)`
      samples. */
  lemma SplitSizeInRange(n: nat, ratio: real)
    requires 0.0 <= ratio <= 1.0
    ensures TrainSize(n, ratio) == (n as real * ratio).Floor
  {
    var x := n as real * ratio;
    ProductWithin(n, ratio);
    assert x.Floor <= n;
  }

  /** A count times a ratio between 0 and 1 lies between 0 and the count. */
  lemma {:induction false} ProductWithin(n: nat, ratio: real)
    requires 0.0 <= ratio <= 1.0
    ensures 0.0 <= n as real * ratio <= n as real
  {
    if n > 0 {
      ProductWithin(n - 1, ratio);
      assert n as real * ratio == (n - 1) as real * ratio + ratio;
    }
  }

  /** Without failures there are exactly `n * per` successful attempts for the
      adjusted `per`. When `max_total` is at least the number of commands they
      all fit under `max_total`, so the dataset holds every one of them; below
      that, the minimum of one sample per command overshoots and only the
      stop at `max_total` keeps the dataset within it. */
  lemma CappedSampleCount(commands: seq<string>, perCommand: int, maxTotal: int)
    requires |commands| > 0 && perCommand >= 0
    ensures var per := SamplesPerCommand(|commands|, perCommand, maxTotal).value;
            |Successes(commands, if per > 0 then per else 0, {})| == |commands| * (if per > 0 then per else 0)
    ensures var per := SamplesPerCommand(|commands|, perCommand, maxTotal).value;
            maxTotal >= |commands| ==> |commands| * (if per > 0 then per else 0) <= maxTotal
    ensures var per := SamplesPerCommand(|commands|, perCommand, maxTotal).value;
            maxTotal < |commands| && |commands| * perCommand > maxTotal ==> per == 1 && |commands| * per > maxTotal
  {
    var n := |commands|;
    var per := SamplesPerCommand(n, perCommand, maxTotal).value;
    SuccessesWithoutFailures(commands, if per > 0 then per else 0);
    if n * perCommand > maxTotal && maxTotal < n {
      QuotientBelowOne(maxTotal, n);
    }
  }

  /** A dividend below the divisor has a quotient below one. */
  lemma QuotientBelowOne(a: int, n: nat)
    requires 0 < n && a < n
    ensures a / n < 1
  {
    assert a == n * (a / n) + a % n;
  }
}
