/** Intent recognition of src/intent_recognition.py: keyword search for a
    device, an action and a room in a recognized sentence, a confidence score,
    and the lookup of the MQTT topic and command for the intent. */
module IntentRecognition {
  import opened Strings
  import Config

  /** A compiled pattern `(kw1|kw2|...)` with IGNORECASE, under its name. */
  datatype Pattern = Pattern(name: string, keywords: seq<string>)

  /** The dict built by `recognize_intent`. */
  datatype Intent = Intent(
    device: Option<string>,
    action: Option<string>,
    room: Option<string>,
    confidence: real,
    originalText: string)

  /** The dict built by `analyze_speech_text`. */
  datatype Analysis = Analysis(
    intent: Intent,
    isValid: bool,
    deviceTopic: Option<string>,
    command: Option<string>,
    description: string)

  /** `_build_device_patterns`: one pattern per DEVICE_COMMANDS entry, in dict order. */
  function DevicePatterns(): seq<Pattern> {
    seq(|Config.DeviceCommands|, i requires 0 <= i < |Config.DeviceCommands| =>
      Pattern(Config.DeviceCommands[i].name, Config.DeviceCommands[i].keywords))
  }

  /** `_build_action_patterns`: "on" before "off". */
  function ActionPatterns(): seq<Pattern> {
    seq(|Config.ActionKeywords|, i requires 0 <= i < |Config.ActionKeywords| =>
      Pattern(Config.ActionKeywords[i].0, Config.ActionKeywords[i].1))
  }

  /** The fixed room table of `_recognize_room`, in dict order. */
  const RoomKeywords: seq<Pattern> := [
    Pattern("living_room", ["客厅", "大厅", "起居室"]),
    Pattern("bedroom", ["卧室", "睡房", "房间"]),
    Pattern("kitchen", ["厨房"]),
    Pattern("bathroom", ["浴室", "卫生间", "厕所"]),
    Pattern("study", ["书房", "工作室"])
  ]

  /** `pattern.search(text)`: some keyword occurs, ignoring case. */
  predicate Search(p: Pattern, text: string) {
    exists k :: 0 <= k < |p.keywords| && Contains(Lower(text), Lower(p.keywords[k]))
  }

  /** `name` is the name of the first pattern, in order, that the text matches. */
  predicate IsFirstMatch(pats: seq<Pattern>, text: string, name: string) {
    exists k :: 0 <= k < |pats| && pats[k].name == name && Search(pats[k], text) &&
      forall j :: 0 <= j < k ==> !Search(pats[j], text)
  }

  predicate AnyMatch(pats: seq<Pattern>, text: string) {
    exists k :: 0 <= k < |pats| && Search(pats[k], text)
  }

  /** The names of the matching patterns, in pattern order (the list
      `device_matches` or `action_matches`). */
  function Matching(pats: seq<Pattern>, text: string): (r: seq<string>)
    ensures |r| <= |pats|
    ensures r == [] <==> !AnyMatch(pats, text)
    decreases |pats|
  {
    if pats == [] then []
    else
      var init := pats[..|pats| - 1];
      var last := pats[|pats| - 1];
      var r := Matching(init, text) + (if Search(last, text) then [last.name] else []);
      assert AnyMatch(pats, text) <==> AnyMatch(init, text) || Search(last, text) by {
        if AnyMatch(pats, text) {
          var k :| 0 <= k < |pats| && Search(pats[k], text);
          if k < |pats| - 1 {
            assert init[k] == pats[k];
          }
        }
        if AnyMatch(init, text) {
          var k :| 0 <= k < |init| && Search(init[k], text);
          assert pats[k] == init[k];
        }
      }
      r
  }

  /** The first name in the match list is the first matching pattern's. */
  lemma {:induction false} MatchingHead(pats: seq<Pattern>, text: string)
    requires Matching(pats, text) != []
    ensures IsFirstMatch(pats, text, Matching(pats, text)[0])
    decreases |pats|
  {
    var init := pats[..|pats| - 1];
    var last := pats[|pats| - 1];
    if Matching(init, text) != [] {
      MatchingHead(init, text);
      var k :| 0 <= k < |init| && init[k].name == Matching(init, text)[0] && Search(init[k], text) &&
        forall j :: 0 <= j < k ==> !Search(init[j], text);
      assert pats[k] == init[k];
      assert forall j :: 0 <= j < k ==> pats[j] == init[j];
    } else {
      assert forall j :: 0 <= j < |pats| - 1 ==> pats[j] == init[j] && !Search(init[j], text);
    }
  }

  /** `_calculate_confidence`. */
  function CalculateConfidence(text: string, deviceMatches: seq<string>, actionMatches: seq<string>, room: Option<string>): (c: real)
    ensures 0.5 <= c <= 1.0
    ensures deviceMatches != [] && actionMatches != [] ==> c == 0.8 || c == 0.9 || c == 1.0
    ensures c == 1.0 <==> deviceMatches != [] && actionMatches != [] && Truthy(room) && 3 <= |text| <= 20
    ensures deviceMatches != [] && actionMatches != [] && !Truthy(room) && !(3 <= |text| <= 20) ==> c == 0.8
    // Each bonus is added on its own, and the cap at 1.0 never cuts a sum short.
    ensures c == (if deviceMatches != [] && actionMatches != [] then 0.8 else 0.5)
                 + (if Truthy(room) then 0.1 else 0.0) + (if 3 <= |text| <= 20 then 0.1 else 0.0)
  {
    var base := 0.5
      + (if deviceMatches != [] && actionMatches != [] then 0.3 else 0.0)
      + (if Truthy(room) then 0.1 else 0.0)
      + (if 3 <= |text| <= 20 then 0.1 else 0.0);
    if base < 1.0 then base else 1.0
  }

  /** `keyword in text` for keyword `j` of room `k` (case-sensitive). */
  predicate RoomHit(k: int, text: string)
    requires 0 <= k < |RoomKeywords|
  {
    exists j :: 0 <= j < |RoomKeywords[k].keywords| && Contains(text, RoomKeywords[k].keywords[j])
  }

  function RoomFrom(text: string, i: nat): (r: Option<string>)
    requires i <= |RoomKeywords|
    ensures r.Some? ==> exists k :: (i <= k < |RoomKeywords| && RoomKeywords[k].name == r.value && RoomHit(k, text) &&
                                     forall j :: i <= j < k ==> !RoomHit(j, text))
    ensures r.None? ==> forall k :: i <= k < |RoomKeywords| ==> !RoomHit(k, text)
    decreases |RoomKeywords| - i
  {
    if i == |RoomKeywords| then None
    else if RoomHit(i, text) then Some(RoomKeywords[i].name)
    else RoomFrom(text, i + 1)
  }

  /** The room `_recognize_room` reports: the first room of the table that
      has a keyword in the text, or None. */
  function RoomOf(text: string): (r: Option<string>)
    ensures r.Some? ==> exists k :: (0 <= k < |RoomKeywords| && RoomKeywords[k].name == r.value && RoomHit(k, text) &&
                                     forall j :: 0 <= j < k ==> !RoomHit(j, text))
    ensures r.None? ==> forall k :: 0 <= k < |RoomKeywords| ==> !RoomHit(k, text)
  {
    RoomFrom(text, 0)
  }

  /** `_recognize_room`: the room table scanned room by room, keyword by
      keyword, returning on the first hit. */
  method RecognizeRoom(text: string) returns (r: Option<string>)
    ensures r == RoomOf(text)
  {
    var i := 0;
    while i < |RoomKeywords|
      invariant 0 <= i <= |RoomKeywords|
      invariant RoomFrom(text, i) == RoomOf(text)
    {
      var keywords := RoomKeywords[i].keywords;
      var j := 0;
      while j < |keywords|
        invariant 0 <= j <= |keywords|
        invariant forall m :: 0 <= m < j ==> !Contains(text, keywords[m])
      {
        if Contains(text, keywords[j]) {
          assert RoomHit(i, text);
          return Some(RoomKeywords[i].name);
        }
        j := j + 1;
      }
      i := i + 1;
    }
    return None;
  }

  /** The intent `recognize_intent` returns for a text. */
  function IntentOf(text: string): (r: Intent)
    ensures r.originalText == text
    ensures r.device.Some? <==> r.action.Some?
    ensures r.device.Some? <==> AnyMatch(DevicePatterns(), text) && AnyMatch(ActionPatterns(), text)
    ensures r.device.None? ==> r.room.None? && r.confidence == 0.0
    ensures r.device.Some? ==>
      IsFirstMatch(DevicePatterns(), text, r.device.value) &&
      IsFirstMatch(ActionPatterns(), text, r.action.value) &&
      r.room == RoomOf(text) &&
      (r.confidence == 0.8 || r.confidence == 0.9 || r.confidence == 1.0)
    // A found room and a text of 3 to 20 characters each add 0.1 to 0.8.
    ensures r.device.Some? ==>
      r.confidence == 0.8 + (if Truthy(RoomOf(text)) then 0.1 else 0.0) + (if 3 <= |text| <= 20 then 0.1 else 0.0)
  {
    var devices := Matching(DevicePatterns(), text);
    var actions := Matching(ActionPatterns(), text);
    var room := RoomOf(text);
    if devices != [] && actions != [] then
      MatchingHead(DevicePatterns(), text);
      MatchingHead(ActionPatterns(), text);
      Intent(Some(devices[0]), Some(actions[0]), room, CalculateConfidence(text, devices, actions, room), text)
    else
      Intent(None, None, None, 0.0, text)
  }

  /** The names the matcher collects, pattern by pattern. */
  method MatchAll(pats: seq<Pattern>, text: string) returns (matches: seq<string>)
    ensures matches == Matching(pats, text)
  {
    matches := [];
    var i := 0;
    while i < |pats|
      invariant 0 <= i <= |pats|
      invariant matches == Matching(pats[..i], text)
    {
      assert pats[..i + 1][..i] == pats[..i];
      if Search(pats[i], text) {
        matches := matches + [pats[i].name];
      }
      i := i + 1;
    }
    assert pats[..|pats|] == pats;
  }

  /** `recognize_intent`. */
  method RecognizeIntent(text: string) returns (r: Intent)
    ensures r == IntentOf(text)
  {
    r := Intent(None, None, None, 0.0, text);
    var deviceMatches := MatchAll(DevicePatterns(), text);
    var actionMatches := MatchAll(ActionPatterns(), text);
    var room := RecognizeRoom(text);
    if deviceMatches != [] && actionMatches != [] {
      r := r.(device := Some(deviceMatches[0]), action := Some(actionMatches[0]), room := room,
              confidence := CalculateConfidence(text, deviceMatches, actionMatches, room));
    }
  }

  /** `get_device_command`: the first topic and the first on- or off-command of
      a known device; (None, None) for an unknown device or action. */
  function GetDeviceCommand(device: string, action: string): (r: (Option<string>, Option<string>))
    ensures r.0.Some? <==> r.1.Some?
    ensures r.0.Some? <==> Config.DeviceIndex(device) >= 0 && (action == "on" || action == "off")
    ensures r.0.Some? ==>
      var entry := Config.DeviceCommands[Config.DeviceIndex(device)];
      r.0.value == entry.topics[0] &&
      r.1.value == (if action == "on" then entry.onCommands[0] else entry.offCommands[0])
  {
    var i := Config.DeviceIndex(device);
    if i < 0 then (None, None)
    else
      var entry := Config.DeviceCommands[i];
      var commands := if action == "on" then entry.onCommands else if action == "off" then entry.offCommands else [];
      if action != "on" && action != "off" then (None, None)
      else if |entry.topics| > 0 && |commands| > 0 then (Some(entry.topics[0]), Some(commands[0]))
      else (None, None)
  }

  const Unrecognized: string := "无法识别有效的控制指令"

  /** "打开" exactly when the action is "on"; every other action reads "关闭". */
  function ActionWord(action: string): string {
    if action == "on" then "打开" else "关闭"
  }

  /** `_generate_description`. */
  function GenerateDescription(intent: Intent): (d: string)
    ensures !Truthy(intent.device) || !Truthy(intent.action) ==> d == Unrecognized
    ensures Truthy(intent.device) && Truthy(intent.action) ==>
      d == ActionWord(intent.action.value) + (if Truthy(intent.room) then intent.room.value + "的" else "") + intent.device.value
  {
    if !Truthy(intent.device) || !Truthy(intent.action) then Unrecognized
    else
      var roomDesc := if Truthy(intent.room) then intent.room.value else "";
      if roomDesc != "" then ActionWord(intent.action.value) + roomDesc + "的" + intent.device.value
      else ActionWord(intent.action.value) + intent.device.value
  }

  /** A valid description names the action first and the device last, and is
      never the failure text. */
  lemma DescriptionShape(intent: Intent)
    requires Truthy(intent.device) && Truthy(intent.action)
    ensures var d := GenerateDescription(intent);
      d[..2] == ActionWord(intent.action.value) &&
      d[|d| - |intent.device.value|..] == intent.device.value &&
      d != Unrecognized
  {
    var d := GenerateDescription(intent);
    var mid := if Truthy(intent.room) then intent.room.value + "的" else "";
    assert d == ActionWord(intent.action.value) + (mid + intent.device.value);
    assert d[..2] == ActionWord(intent.action.value);
    assert Unrecognized[..2] == "无法" != d[..2];
  }

  /** Every device name the matcher can report has a topic and both commands. */
  lemma MatchedDeviceHasCommands(text: string, device: string, action: string)
    requires IsFirstMatch(DevicePatterns(), text, device)
    requires IsFirstMatch(ActionPatterns(), text, action)
    ensures GetDeviceCommand(device, action).0.Some?
  {
    var k :| 0 <= k < |DevicePatterns()| && DevicePatterns()[k].name == device && Search(DevicePatterns()[k], text) &&
      forall j :: 0 <= j < k ==> !Search(DevicePatterns()[j], text);
    assert Config.DeviceCommands[k].name == device;
    var m :| 0 <= m < |ActionPatterns()| && ActionPatterns()[m].name == action && Search(ActionPatterns()[m], text) &&
      forall j :: 0 <= j < m ==> !Search(ActionPatterns()[j], text);
    assert action == Config.ActionKeywords[m].0;
  }

  /** `analyze_speech_text`. */
  method AnalyzeSpeechText(text: string) returns (r: Analysis)
    ensures r.intent == IntentOf(text) && r.intent.originalText == text
    ensures r.isValid <==> r.intent.device.Some? && r.intent.action.Some?
    ensures !r.isValid ==> r.deviceTopic.None? && r.command.None? && r.description == Unrecognized
    ensures r.isValid ==>
      (r.deviceTopic, r.command) == GetDeviceCommand(r.intent.device.value, r.intent.action.value) &&
      r.deviceTopic.Some? && r.command.Some?
    ensures r.description == GenerateDescription(r.intent)
  {
    var intent := RecognizeIntent(text);
    var valid := intent.device.Some? && intent.action.Some?;
    r := Analysis(intent, valid, None, None, GenerateDescription(intent));
    if valid {
      MatchedDeviceHasCommands(text, intent.device.value, intent.action.value);
      var pair := GetDeviceCommand(intent.device.value, intent.action.value);
      r := r.(deviceTopic := pair.0, command := pair.1);
    }
  }
}
