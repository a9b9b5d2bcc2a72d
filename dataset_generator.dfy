/** The text side of src/train/dataset_generator.py: expanding the command
    templates over rooms and temperatures, and numbering intents as class
    labels while samples are drawn. The random choice of each sample is given
    as the list of chosen variation indices; speech synthesis, the voice
    choice and the duration are not modelled. */
module DatasetGenerator {
  import opened Strings

  /** One command template or variation: text, intent and word tokens. */
  datatype Variation = Variation(text: string, intent: string, tokens: seq<string>)

  const RoomPlaceholder: string := "{room}"
  const TempPlaceholder: string := "{temp}"

  function CommandTemplates(): seq<Variation> {
    [ Variation("打开{room}的灯", "light_on", ["打开", "{room}", "的", "灯"]),
      Variation("关闭{room}的灯", "light_off", ["关闭", "{room}", "的", "灯"]),
      Variation("调亮{room}的灯", "light_bright", ["调亮", "{room}", "的", "灯"]),
      Variation("调暗{room}的灯", "light_dim", ["调暗", "{room}", "的", "灯"]),
      Variation("打开空调", "ac_on", ["打开", "空调"]),
      Variation("关闭空调", "ac_off", ["关闭", "空调"]),
      Variation("调高温度", "ac_temp_up", ["调高", "温度"]),
      Variation("调低温度", "ac_temp_down", ["调低", "温度"]),
      Variation("设置温度为{temp}度", "ac_temp_set", ["设置", "温度", "为", "{temp}", "度"]),
      Variation("打开电视", "tv_on", ["打开", "电视"]),
      Variation("关闭电视", "tv_off", ["关闭", "电视"]),
      Variation("调高音量", "tv_volume_up", ["调高", "音量"]),
      Variation("调低音量", "tv_volume_down", ["调低", "音量"]),
      Variation("打开窗帘", "curtain_open", ["打开", "窗帘"]),
      Variation("关闭窗帘", "curtain_close", ["关闭", "窗帘"]),
      Variation("拉开{room}的窗帘", "curtain_open_room", ["拉开", "{room}", "的", "窗帘"]),
      Variation("打开风扇", "fan_on", ["打开", "风扇"]),
      Variation("关闭风扇", "fan_off", ["关闭", "风扇"]),
      Variation("调节风扇速度", "fan_speed", ["调节", "风扇", "速度"]) ]
  }

  function Rooms(): seq<string> {
    ["客厅", "卧室", "厨房", "书房", "主卧", "次卧"]
  }

  function Temperatures(): seq<string> {
    ["18", "20", "22", "24", "26", "28"]
  }

  /** The token list with every token equal to the placeholder replaced by
      the value; other tokens, even ones that merely contain it, stay. */
  function SubstituteTokens(tokens: seq<string>, placeholder: string, value: string): (r: seq<string>)
    ensures |r| == |tokens|
    ensures forall i :: 0 <= i < |tokens| ==> r[i] == if tokens[i] == placeholder then value else tokens[i]
  {
    seq(|tokens|, i requires 0 <= i < |tokens| => if tokens[i] == placeholder then value else tokens[i])
  }

  /** The variations of a template for each value of one placeholder. */
  function Fill(template: Variation, placeholder: string, values: seq<string>): (r: seq<Variation>)
    requires placeholder != ""
    ensures |r| == |values|
    ensures forall k :: 0 <= k < |values| ==>
      r[k] == Variation(Replace(template.text, placeholder, values[k]), template.intent,
                        SubstituteTokens(template.tokens, placeholder, values[k]))
  {
    seq(|values|, k requires 0 <= k < |values| =>
      Variation(Replace(template.text, placeholder, values[k]), template.intent,
                SubstituteTokens(template.tokens, placeholder, values[k])))
  }

  /** The variations of one template: one per room for a `{room}` template,
      else one per temperature for a `{temp}` template, else the template
      itself. The room test comes first. */
  function TemplateVariations(template: Variation, rooms: seq<string>, temps: seq<string>): seq<Variation> {
    if Contains(template.text, RoomPlaceholder) then Fill(template, RoomPlaceholder, rooms)
    else if Contains(template.text, TempPlaceholder) then Fill(template, TempPlaceholder, temps)
    else [template]
  }

  /** What `generate_command_variations` returns: the variations of each
      template, in template order. */
  function Variations(templates: seq<Variation>, rooms: seq<string>, temps: seq<string>): seq<Variation>
    decreases |templates|
  {
    if templates == [] then []
    else Variations(templates[..|templates| - 1], rooms, temps) +
         TemplateVariations(templates[|templates| - 1], rooms, temps)
  }

  /** Each template gives as many variations as it has rooms, temperatures
      or one; every variation keeps its template's intent and token count. */
  lemma TemplateVariationsShape(template: Variation, rooms: seq<string>, temps: seq<string>)
    ensures |TemplateVariations(template, rooms, temps)| ==
      if Contains(template.text, RoomPlaceholder) then |rooms|
      else if Contains(template.text, TempPlaceholder) then |temps|
      else 1
    ensures forall v :: v in TemplateVariations(template, rooms, temps) ==>
      v.intent == template.intent && |v.tokens| == |template.tokens|
  {
  }

  /** The number of variations is the sum of the per-template counts. */
  function VariationCount(templates: seq<Variation>, rooms: seq<string>, temps: seq<string>): nat
    decreases |templates|
  {
    if templates == [] then 0
    else
      var t := templates[|templates| - 1];
      VariationCount(templates[..|templates| - 1], rooms, temps) +
      (if Contains(t.text, RoomPlaceholder) then |rooms| else if Contains(t.text, TempPlaceholder) then |temps| else 1)
  }

  lemma {:induction false} VariationsCount(templates: seq<Variation>, rooms: seq<string>, temps: seq<string>)
    ensures |Variations(templates, rooms, temps)| == VariationCount(templates, rooms, temps)
    decreases |templates|
  {
    if templates != [] {
      VariationsCount(templates[..|templates| - 1], rooms, temps);
      TemplateVariationsShape(templates[|templates| - 1], rooms, temps);
    }
  }

  /** Every variation carries the intent of some template and as many
      tokens as it. */
  lemma {:induction false} VariationsFromTemplates(templates: seq<Variation>, rooms: seq<string>, temps: seq<string>)
    ensures forall v :: v in Variations(templates, rooms, temps) ==>
      exists t :: t in templates && v.intent == t.intent && |v.tokens| == |t.tokens|
    decreases |templates|
  {
    if templates != [] {
      var init := templates[..|templates| - 1];
      var last := templates[|templates| - 1];
      VariationsFromTemplates(init, rooms, temps);
      TemplateVariationsShape(last, rooms, temps);
      forall v | v in Variations(templates, rooms, temps)
        ensures exists t :: t in templates && v.intent == t.intent && |v.tokens| == |t.tokens|
      {
        if v in Variations(init, rooms, temps) {
          var t :| t in init && v.intent == t.intent && |v.tokens| == |t.tokens|;
          assert t in templates;
        } else {
          assert last in templates;
        }
      }
    }
  }

  /** `intent_to_label` after the given intents, in order: a new intent gets
      the next label, a repeated one keeps its own. */
  function Labels(intents: seq<string>): (r: map<string, nat>)
    ensures forall i :: 0 <= i < |intents| ==> intents[i] in r
    decreases |intents|
  {
    if intents == [] then map[]
    else
      var m := Labels(intents[..|intents| - 1]);
      var x := intents[|intents| - 1];
      if x in m then m else m[x := |m|]
  }

  /** Exactly the intents seen have a label. */
  lemma {:induction false} LabelsKeys(intents: seq<string>)
    ensures forall x :: x in Labels(intents) <==> x in intents
    decreases |intents|
  {
    if intents != [] {
      var init := intents[..|intents| - 1];
      LabelsKeys(init);
      assert intents == init + [intents[|intents| - 1]];
    }
  }

  /** The labels 0..k-1. */
  function NatsBelow(k: nat): (r: set<nat>)
    ensures forall n: nat :: n in r <==> n < k
  {
    if k == 0 then {} else NatsBelow(k - 1) + {k - 1}
  }

  /** One more intent: a new one is given the next label, a known one
      changes nothing. */
  lemma LabelsSnoc(intents: seq<string>, x: string)
    ensures Labels(intents + [x]) ==
      if x in Labels(intents) then Labels(intents) else Labels(intents)[x := |Labels(intents)|]
  {
    assert (intents + [x])[..|intents|] == intents;
  }

  /** The labels are exactly 0..k-1 for the k distinct intents. */
  lemma {:induction false} LabelsDense(intents: seq<string>)
    ensures Labels(intents).Values == NatsBelow(|Labels(intents)|)
    decreases |intents|
  {
    if intents != [] {
      var init := intents[..|intents| - 1];
      var x := intents[|intents| - 1];
      assert intents == init + [x];
      LabelsSnoc(init, x);
      LabelsDense(init);
      var m := Labels(init);
      if x !in m {
        var m' := m[x := |m|];
        assert |m'| == |m| + 1;
        assert m'.Values == m.Values + {|m|} by {
          forall v | v in m'.Values ensures v in m.Values + {|m|} {
            var y :| y in m' && m'[y] == v;
            if y != x { assert m[y] == v; }
          }
          forall v | v in m.Values + {|m|} ensures v in m'.Values {
            if v == |m| {
              assert m'[x] == v;
            } else {
              var y :| y in m && m[y] == v;
              assert y != x && m'[y] == v;
            }
          }
        }
      }
    }
  }

  /** No two intents share a label. */
  lemma {:induction false} LabelsInjective(intents: seq<string>)
    ensures forall x, y :: x in Labels(intents) && y in Labels(intents) && x != y ==> Labels(intents)[x] != Labels(intents)[y]
    decreases |intents|
  {
    if intents != [] {
      var init := intents[..|intents| - 1];
      var x := intents[|intents| - 1];
      assert intents == init + [x];
      LabelsSnoc(init, x);
      LabelsInjective(init);
      LabelsDense(init);
      var m := Labels(init);
      forall y | y in m ensures m[y] < |m| {
        assert m[y] in m.Values;
      }
    }
  }

  /** One generated sample: its text, its token ids and its class label
      (audio, duration and sample rate are not modelled). */
  datatype DataSample = DataSample(text: string, tokenIds: seq<int>, classLabel: nat)

  /** `list(range(n))`. */
  function Range(n: nat): (r: seq<int>)
    ensures |r| == n && forall i :: 0 <= i < n ==> r[i] == i
  {
    seq(n, i requires 0 <= i < n => i)
  }

  /** The intents of the chosen variations, in order. */
  function Intents(chosen: seq<Variation>): (r: seq<string>)
    ensures |r| == |chosen| && forall i :: 0 <= i < |chosen| ==> r[i] == chosen[i].intent
  {
    seq(|chosen|, i requires 0 <= i < |chosen| => chosen[i].intent)
  }

  /** The samples `create_dataset` builds from the chosen variations, one per
      choice, each labelled as `intent_to_label` stands after it. */
  function Dataset(chosen: seq<Variation>): seq<DataSample>
    decreases |chosen|
  {
    if chosen == [] then []
    else
      var x := chosen[|chosen| - 1];
      Dataset(chosen[..|chosen| - 1]) +
      [DataSample(x.text, Range(|x.tokens|), Labels(Intents(chosen))[x.intent])]
  }

  /** A label once given is never changed by later samples. */
  lemma {:induction false} LabelsStable(intents: seq<string>, i: nat)
    requires i <= |intents|
    ensures forall x :: x in Labels(intents[..i]) ==> x in Labels(intents) && Labels(intents)[x] == Labels(intents[..i])[x]
    decreases |intents|
  {
    if i < |intents| {
      var init := intents[..|intents| - 1];
      LabelsStable(init, i);
      assert init[..i] == intents[..i];
      assert intents == init + [intents[|intents| - 1]];
      LabelsSnoc(init, intents[|intents| - 1]);
    } else {
      assert intents[..i] == intents;
    }
  }

  /** Sample i has the text of choice i, the token ids 0..len(tokens)-1, and
      the final label of its intent. */
  lemma {:induction false} DatasetSamples(chosen: seq<Variation>)
    ensures |Dataset(chosen)| == |chosen|
    ensures forall i :: 0 <= i < |chosen| ==>
      Dataset(chosen)[i] == DataSample(chosen[i].text, Range(|chosen[i].tokens|), Labels(Intents(chosen))[chosen[i].intent])
    decreases |chosen|
  {
    if chosen != [] {
      var init := chosen[..|chosen| - 1];
      DatasetSamples(init);
      assert Intents(chosen)[..|init|] == Intents(init);
      LabelsStable(Intents(chosen), |init|);
      forall i | 0 <= i < |init|
        ensures Dataset(chosen)[i] == DataSample(chosen[i].text, Range(|chosen[i].tokens|), Labels(Intents(chosen))[chosen[i].intent])
      {
        assert Intents(init)[i] == chosen[i].intent;
      }
    }
  }

  /** The object of class SmartHomeSpeechSynthesizer (its tables). */
  class SmartHomeSpeechSynthesizer {
    const commandTemplates: seq<Variation>
    const rooms: seq<string>
    const temperatures: seq<string>

    constructor ()
      ensures commandTemplates == CommandTemplates() && rooms == Rooms() && temperatures == Temperatures()
    {
      commandTemplates := CommandTemplates();
      rooms := Rooms();
      temperatures := Temperatures();
    }

    /** `generate_command_variations`. */
    method GenerateCommandVariations() returns (variations: seq<Variation>)
      ensures variations == Variations(commandTemplates, rooms, temperatures)
    {
      variations := [];
      for i := 0 to |commandTemplates|
        invariant variations == Variations(commandTemplates[..i], rooms, temperatures)
      {
        var template := commandTemplates[i];
        var more: seq<Variation>;
        if Contains(template.text, RoomPlaceholder) {
          more := FillEach(template, RoomPlaceholder, rooms);
        } else if Contains(template.text, TempPlaceholder) {
          more := FillEach(template, TempPlaceholder, temperatures);
        } else {
          more := [template];
        }
        VariationsSnoc(commandTemplates, i, rooms, temperatures);
        variations := variations + more;
      }
      assert commandTemplates[..|commandTemplates|] == commandTemplates;
    }

    /** The sample loop of `create_dataset`: `picks[i]` is the index of the
        variation `random.choice` returns for sample i. The samples are the
        dataset of the chosen variations and the label mapping is the one
        their intents build in order. A count below one gives an empty
        `range`, hence no samples. */
    method CreateDataset(numSamples: int, picks: seq<nat>) returns (samples: seq<DataSample>, labelMapping: map<string, nat>)
      requires |picks| == if numSamples > 0 then numSamples else 0
      requires forall i :: 0 <= i < |picks| ==> picks[i] < |Variations(commandTemplates, rooms, temperatures)|
      ensures var variations := Variations(commandTemplates, rooms, temperatures);
              var chosen := seq(|picks|, i requires 0 <= i < |picks| => variations[picks[i]]);
              samples == Dataset(chosen) && labelMapping == Labels(Intents(chosen))
      ensures numSamples <= 0 ==> samples == [] && labelMapping == map[]
    {
      var variations := GenerateCommandVariations();
      var count := |picks|;
      ghost var chosen := seq(count, i requires 0 <= i < count => variations[picks[i]]);
      samples := [];
      var intentToLabel: map<string, nat> := map[];
      var currentLabel: nat := 0;
      for i := 0 to count
        invariant intentToLabel == Labels(Intents(chosen[..i])) && currentLabel == |intentToLabel|
        invariant samples == Dataset(chosen[..i])
      {
        var choice := variations[picks[i]];
        assert choice == chosen[i];
        DatasetSnoc(chosen, i);
        if choice.intent !in intentToLabel {
          intentToLabel := intentToLabel[choice.intent := currentLabel];
          currentLabel := currentLabel + 1;
        }
        var classLabel := intentToLabel[choice.intent];
        var tokenIds := Range(|choice.tokens|);
        samples := samples + [DataSample(choice.text, tokenIds, classLabel)];
      }
      assert chosen[..count] == chosen;
      labelMapping := intentToLabel;
    }
  }

  /** The inner loop over rooms or temperatures: one variation per value. */
  method FillEach(template: Variation, placeholder: string, values: seq<string>) returns (r: seq<Variation>)
    requires placeholder != ""
    ensures r == Fill(template, placeholder, values)
  {
    r := [];
    for k := 0 to |values|
      invariant |r| == k
      invariant forall j :: 0 <= j < k ==> r[j] == Fill(template, placeholder, values)[j]
    {
      var text := Replace(template.text, placeholder, values[k]);
      r := r + [Variation(text, template.intent, SubstituteTokens(template.tokens, placeholder, values[k]))];
    }
  }

  /** One more template adds its own variations at the end. */
  lemma VariationsSnoc(templates: seq<Variation>, i: nat, rooms: seq<string>, temps: seq<string>)
    requires i < |templates|
    ensures Variations(templates[..i + 1], rooms, temps) ==
      Variations(templates[..i], rooms, temps) + TemplateVariations(templates[i], rooms, temps)
  {
    assert templates[..i + 1][..i] == templates[..i];
  }

  /** One more choice: its intent is labelled as `create_dataset` labels it
      and its sample is appended. */
  lemma DatasetSnoc(chosen: seq<Variation>, i: nat)
    requires i < |chosen|
    ensures var m := Labels(Intents(chosen[..i]));
      var x := chosen[i];
      Labels(Intents(chosen[..i + 1])) == (if x.intent in m then m else m[x.intent := |m|]) &&
      Dataset(chosen[..i + 1]) ==
        Dataset(chosen[..i]) + [DataSample(x.text, Range(|x.tokens|), Labels(Intents(chosen[..i + 1]))[x.intent])]
  {
    assert chosen[..i + 1][..i] == chosen[..i];
    assert Intents(chosen[..i + 1]) == Intents(chosen[..i]) + [chosen[i].intent];
    LabelsSnoc(Intents(chosen[..i]), chosen[i].intent);
  }

  /** Two samples share a label exactly when they share an intent. */
  lemma SameLabelIffSameIntent(intents: seq<string>, i: nat, j: nat)
    requires i < |intents| && j < |intents|
    ensures intents[i] in Labels(intents) && intents[j] in Labels(intents)
    ensures Labels(intents)[intents[i]] == Labels(intents)[intents[j]] <==> intents[i] == intents[j]
  {
    LabelsInjective(intents);
  }
}
