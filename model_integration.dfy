/** The light-ASR integration of src/train/model_integration.py: the engine
    that maps the neural model's (class, confidence) prediction to one of
    fifty command texts, and the strategy router of the enhanced recognizer
    that chooses between this light engine and the standard recognizer. The
    model's inference is replaced by its prediction, given as a parameter. */
module ModelIntegration {
  import opened Strings
  import SpeechRecognition

  /** What `predict_from_file` yields: a class and its confidence, or an
      exception (which `recognize` catches). */
  datatype Prediction = Predicted(classPred: int, confidence: real) | PredictRaised

  /** Which model files exist and whether building the inference object raises. */
  datatype ModelFiles = ModelFiles(givenExists: bool, defaultExists: bool, loadRaises: bool)

  /** `get_model_info` (the torch device string is not modelled). */
  datatype ModelInfo = NotLoaded | Info(status: string, modelPath: Option<string>, commands: seq<string>)

  /** `command_mapping[c]` for a class c of 0..49 (the last class is the
      default branch). */
  function CommandText(c: nat): (t: string)
    requires c < 50
    ensures |t| >= 2
  {
    match c
    case 0 => "打开灯"
    case 1 => "关闭灯"
    case 2 => "调亮灯"
    case 3 => "调暗灯"
    case 4 => "打开客厅灯"
    case 5 => "关闭客厅灯"
    case 6 => "打开卧室灯"
    case 7 => "关闭卧室灯"
    case 8 => "打开厨房灯"
    case 9 => "关闭厨房灯"
    case 10 => "打开台灯"
    case 11 => "关闭台灯"
    case 12 => "打开空调"
    case 13 => "关闭空调"
    case 14 => "调高温度"
    case 15 => "调低温度"
    case 16 => "打开制冷"
    case 17 => "打开制热"
    case 18 => "调节风速"
    case 19 => "设置温度"
    case 20 => "打开电视"
    case 21 => "关闭电视"
    case 22 => "调高音量"
    case 23 => "调低音量"
    case 24 => "换频道"
    case 25 => "静音"
    case 26 => "取消静音"
    case 27 => "播放"
    case 28 => "打开窗帘"
    case 29 => "关闭窗帘"
    case 30 => "拉上窗帘"
    case 31 => "拉开窗帘"
    case 32 => "打开风扇"
    case 33 => "关闭风扇"
    case 34 => "调节风扇"
    case 35 => "风扇加速"
    case 36 => "播放音乐"
    case 37 => "停止音乐"
    case 38 => "暂停音乐"
    case 39 => "下一首"
    case 40 => "上一首"
    case 41 => "随机播放"
    case 42 => "循环播放"
    case 43 => "关闭音乐"
    case 44 => "打开加湿器"
    case 45 => "关闭加湿器"
    case 46 => "打开净化器"
    case 47 => "关闭净化器"
    case 48 => "打开热水器"
    case _ => "关闭热水器"
  }

  /** The values of `command_mapping`, in key order 0..49. */
  function CommandTexts(): (texts: seq<string>)
    ensures |texts| == 50
    ensures forall c :: 0 <= c < 50 ==> texts[c] == CommandText(c)
  {
    seq(50, c requires 0 <= c < 50 => CommandText(c))
  }

  /** The confidence a prediction must exceed to be reported. */
  const ConfidenceFloor: real := 0.02

  /** The mapping step of `recognize` and `recognize_file`: the command text
      of the class exactly when the class is a key of the mapping and the
      confidence exceeds 0.02; a raised prediction gives None. */
  function MapPrediction(p: Prediction): (r: Option<string>)
    ensures r.Some? <==> p.Predicted? && 0 <= p.classPred < 50 && p.confidence > ConfidenceFloor
    ensures r.Some? ==> r.value == CommandTexts()[p.classPred] && r.value != ""
  {
    if p.Predicted? && 0 <= p.classPred < |CommandTexts()| && p.confidence > ConfidenceFloor then
      Some(CommandTexts()[p.classPred])
    else None
  }

  /** `recognize`: None without an inference object, else the mapped prediction. */
  function EngineRecognize(hasInference: bool, p: Prediction): (r: Option<string>)
    ensures r.Some? ==> hasInference && r == MapPrediction(p)
    ensures hasInference ==> r == MapPrediction(p)
  {
    if !hasInference then None else MapPrediction(p)
  }

  /** `recognize_file`: also None when the file does not exist. */
  function EngineRecognizeFile(hasInference: bool, fileExists: bool, p: Prediction): (r: Option<string>)
    ensures r.Some? <==> hasInference && fileExists && MapPrediction(p).Some?
    ensures r.Some? ==> r == EngineRecognize(hasInference, p)
  {
    if !hasInference || !fileExists then None else MapPrediction(p)
  }

  /** The object of class LightASREngine. `inference` is reduced to whether
      it is present. */
  class LightAsrEngine {
    const modelPath: Option<string>
    var hasInference: bool
    var isLoaded: bool

    constructor (modelPath: Option<string>, files: ModelFiles)
      ensures this.modelPath == modelPath
      ensures hasInference <==> !files.loadRaises
      ensures isLoaded <==> !files.loadRaises && ((Truthy(modelPath) && files.givenExists) || files.defaultExists)
    {
      this.modelPath := modelPath;
      hasInference := false;
      isLoaded := false;
      new;
      LoadModel(files);
    }

    /** `_load_model`: a given existing path, else the default model file,
        is loaded; with neither an untrained model is built and `is_loaded`
        stays False; an exception leaves no inference object. */
    method LoadModel(files: ModelFiles)
      modifies this`hasInference, this`isLoaded
      ensures hasInference <==> !files.loadRaises
      ensures isLoaded <==> !files.loadRaises && ((Truthy(modelPath) && files.givenExists) || files.defaultExists)
    {
      if files.loadRaises {
        hasInference, isLoaded := false, false;
      } else if Truthy(modelPath) && files.givenExists {
        hasInference, isLoaded := true, true;
      } else if files.defaultExists {
        hasInference, isLoaded := true, true;
      } else {
        hasInference, isLoaded := true, false;
      }
    }

    /** `recognize` (the temporary WAV file is not modelled). */
    method Recognize(p: Prediction) returns (r: Option<string>)
      ensures r == EngineRecognize(hasInference, p)
    {
      if !hasInference {
        return None;
      }
      match p
      case PredictRaised =>
        r := None;
      case Predicted(classPred, confidence) =>
        if 0 <= classPred < |CommandTexts()| && confidence > ConfidenceFloor {
          r := Some(CommandTexts()[classPred]);
        } else {
          r := None;
        }
    }

    /** `recognize_file`. */
    method RecognizeFile(fileExists: bool, p: Prediction) returns (r: Option<string>)
      ensures r == EngineRecognizeFile(hasInference, fileExists, p)
    {
      if !hasInference || !fileExists {
        return None;
      }
      r := MapPrediction(p);
    }

    /** `is_available`. */
    method IsAvailable() returns (available: bool)
      ensures available <==> hasInference
    {
      available := hasInference;
    }

    /** `get_model_info`: `not_loaded` without inference, otherwise `loaded`
        or `default` by `is_loaded`, with the path and the fifty commands. */
    method GetModelInfo() returns (info: ModelInfo)
      ensures !hasInference <==> info == NotLoaded
      ensures hasInference ==> info.status == (if isLoaded then "loaded" else "default")
      ensures hasInference ==> info.modelPath == modelPath && info.commands == CommandTexts()
    {
      if !hasInference {
        return NotLoaded;
      }
      info := Info(if isLoaded then "loaded" else "default", modelPath, CommandTexts());
    }
  }

  /** `_recognize_with_light_asr`: nothing is asked of an absent or
      unavailable engine; an empty answer becomes None. */
  function LightPath(present: bool, hasInference: bool, p: Prediction): (r: Option<string>)
    ensures !present || !hasInference ==> r.None?
    ensures r.Some? <==> present && Truthy(EngineRecognize(hasInference, p))
    ensures r.Some? ==> r == EngineRecognize(hasInference, p)
  {
    if !present || !hasInference then None
    else
      var result := EngineRecognize(hasInference, p);
      if Truthy(result) then result else None
  }

  /** `_recognize_with_standard_asr`: the base recognizer's answer when it is
      not empty, else None. */
  function StandardPath(answer: Option<string>): (r: Option<string>)
    ensures r.Some? <==> Truthy(answer)
    ensures r.Some? ==> r == answer
  {
    if Truthy(answer) then answer else None
  }

  datatype Backend = LightBackend | StandardBackend

  /** What `recognize_with_strategy` returns, with the backends it invoked in
      order. */
  datatype Routed = Routed(result: Option<string>, calls: seq<Backend>)

  const DefaultStrategy: string := "hybrid"

  /** The texts the hybrid strategy accepts from the light engine directly. */
  const HybridKeywords: seq<string> := ["灯", "空调", "电视", "窗帘", "风扇", "打开", "关闭"]

  /** `AI_SPEECH_CONFIG.get('strategy', 'hybrid')`. */
  function StrategyOf(configured: Option<string>): (s: string)
    ensures configured.None? ==> s == DefaultStrategy
    ensures configured.Some? ==> s == configured.value
  {
    configured.GetOr(DefaultStrategy)
  }

  /** `recognize_with_strategy`, given what each backend path would answer.
      Every strategy invokes each backend at most once; a result is always
      the answer of an invoked backend; a None result means every invoked
      backend answered nothing usable; an unknown strategy is `standard_only`. */
  function Route(strategy: string, light: Option<string>, standard: Option<string>): (r: Routed)
    ensures 1 <= |r.calls| <= 2 && NoDuplicates(r.calls)
    ensures r.result.Some? ==>
      (LightBackend in r.calls && r.result == light) || (StandardBackend in r.calls && r.result == standard)
    ensures r.result.None? ==>
      (LightBackend in r.calls ==> !Truthy(light)) && (StandardBackend in r.calls ==> !Truthy(standard))
    ensures strategy == "light_only" ==> r == Routed(light, [LightBackend])
    ensures strategy !in {"light_only", "light_first", "standard_first", "hybrid"} ==>
      r == Routed(standard, [StandardBackend])
    ensures (strategy == "light_first" && Truthy(light)) ==> r == Routed(light, [LightBackend])
    ensures (strategy == "light_first" && !Truthy(light)) ==> r == Routed(standard, [LightBackend, StandardBackend])
    ensures (strategy == "standard_first" && Truthy(standard)) ==> r == Routed(standard, [StandardBackend])
    ensures (strategy == "standard_first" && !Truthy(standard)) ==> r == Routed(light, [StandardBackend, LightBackend])
    ensures (strategy == "hybrid" && Truthy(light) && ContainsAny(light.value, HybridKeywords)) ==>
      r == Routed(light, [LightBackend])
    ensures (strategy == "hybrid" && !(Truthy(light) && ContainsAny(light.value, HybridKeywords))) ==>
      r == Routed(if Truthy(standard) then standard else light, [LightBackend, StandardBackend])
  {
    if strategy == "light_only" then
      Routed(light, [LightBackend])
    else if strategy == "standard_only" then
      Routed(standard, [StandardBackend])
    else if strategy == "light_first" then
      if Truthy(light) then Routed(light, [LightBackend])
      else Routed(standard, [LightBackend, StandardBackend])
    else if strategy == "standard_first" then
      if Truthy(standard) then Routed(standard, [StandardBackend])
      else Routed(light, [StandardBackend, LightBackend])
    else if strategy == "hybrid" then
      if Truthy(light) && ContainsAny(light.value, HybridKeywords) then Routed(light, [LightBackend])
      else if Truthy(standard) then Routed(standard, [LightBackend, StandardBackend])
      else Routed(light, [LightBackend, StandardBackend])
    else
      Routed(standard, [StandardBackend])
  }

  /** Of the fifty command texts, the lamp, air-conditioner and on/off
      commands take the hybrid fast path, while music commands such as
      播放音乐 and the bare 静音 go on to the standard recognizer. */
  lemma HybridKeywordExamples()
    ensures ContainsAny(CommandTexts()[0], HybridKeywords)
    ensures ContainsAny(CommandTexts()[13], HybridKeywords)
    ensures !ContainsAny(CommandTexts()[36], HybridKeywords)
    ensures !ContainsAny(CommandTexts()[25], HybridKeywords)
  {
    var lamp := CommandTexts()[0];
    var aircon := CommandTexts()[13];
    assert lamp == CommandText(0) == "打开灯";
    assert aircon == CommandText(13) == "关闭空调";
    assert OccursAt(lamp, HybridKeywords[0], 2);
    assert OccursAt(aircon, HybridKeywords[1], 2);
    assert CommandTexts()[36] == CommandText(36) == "播放音乐";
    assert CommandTexts()[25] == CommandText(25) == "静音";
    NoKeyword(CommandTexts()[36]);
    NoKeyword(CommandTexts()[25]);
  }

  /** A text none of whose characters is a first character of a hybrid
      keyword contains none of them. */
  lemma NoKeyword(s: string)
    requires forall i :: 0 <= i < |s| ==> s[i] !in {'灯', '空', '电', '窗', '风', '打', '关'}
    ensures !ContainsAny(s, HybridKeywords)
  {
    forall k | 0 <= k < |HybridKeywords| ensures !Contains(s, HybridKeywords[k]) {
      var w := HybridKeywords[k];
      forall i | 0 <= i <= |s| - |w| ensures !OccursAt(s, w, i) {
        assert s[i..i + |w|][0] == s[i];
      }
    }
  }

  /** The object of class EnhancedAISpeechRecognizer. */
  class EnhancedRecognizer {
    const base: SpeechRecognition.Recognizer
    const lightAsr: LightAsrEngine?
    const recognitionStrategy: string

    /** `EnhancedAISpeechRecognizer(...)`: a light engine only when asked for,
        and the configured strategy or `hybrid`. */
    constructor (base: SpeechRecognition.Recognizer, useLightAsr: bool, files: ModelFiles, strategy: Option<string>)
      ensures this.base == base
      ensures useLightAsr <==> lightAsr != null
      ensures lightAsr != null ==>
        (fresh(lightAsr) && lightAsr.modelPath.None? && (lightAsr.hasInference <==> !files.loadRaises))
      ensures recognitionStrategy == StrategyOf(strategy)
    {
      this.base := base;
      if useLightAsr {
        lightAsr := new LightAsrEngine(None, files);
      } else {
        lightAsr := null;
      }
      recognitionStrategy := StrategyOf(strategy);
    }

    /** `recognize_with_strategy`: the light path asks the engine for its
        prediction `p`; the standard path asks the base recognizer's
        `_recognize_with_ai` with the backend replies. `calls` records the
        backends invoked, in order. */
    method RecognizeWithStrategy(p: Prediction, replies: SpeechRecognition.AiReplies)
      returns (r: Option<string>, ghost calls: seq<Backend>)
      ensures var routed := Route(recognitionStrategy,
                                  LightPath(lightAsr != null, lightAsr != null && lightAsr.hasInference, p),
                                  StandardPath(SpeechRecognition.RecognizeWithAi(base.engine, base.hasBaiduKeys, base.hasWhisperModel, replies)));
              r == routed.result && calls == routed.calls
    {
      var light: Option<string> := None;
      var standard: Option<string> := None;
      if recognitionStrategy == "light_only" {
        r := RecognizeWithLightAsr(p);
        calls := [LightBackend];
      } else if recognitionStrategy == "standard_only" {
        r := RecognizeWithStandardAsr(replies);
        calls := [StandardBackend];
      } else if recognitionStrategy == "light_first" {
        r := RecognizeWithLightAsr(p);
        calls := [LightBackend];
        if !Truthy(r) {
          r := RecognizeWithStandardAsr(replies);
          calls := calls + [StandardBackend];
        }
      } else if recognitionStrategy == "standard_first" {
        r := RecognizeWithStandardAsr(replies);
        calls := [StandardBackend];
        if !Truthy(r) {
          r := RecognizeWithLightAsr(p);
          calls := calls + [LightBackend];
        }
      } else if recognitionStrategy == "hybrid" {
        light := RecognizeWithLightAsr(p);
        calls := [LightBackend];
        if Truthy(light) && ContainsAny(light.value, HybridKeywords) {
          return light, calls;
        }
        standard := RecognizeWithStandardAsr(replies);
        calls := calls + [StandardBackend];
        r := if Truthy(standard) then standard else light;
      } else {
        r := RecognizeWithStandardAsr(replies);
        calls := [StandardBackend];
      }
    }

    /** `_recognize_with_light_asr`. */
    method RecognizeWithLightAsr(p: Prediction) returns (r: Option<string>)
      ensures r == LightPath(lightAsr != null, lightAsr != null && lightAsr.hasInference, p)
    {
      if lightAsr == null {
        return None;
      }
      var available := lightAsr.IsAvailable();
      if !available {
        return None;
      }
      var result := lightAsr.Recognize(p);
      r := if Truthy(result) then result else None;
    }

    /** `_recognize_with_standard_asr`. */
    method RecognizeWithStandardAsr(replies: SpeechRecognition.AiReplies) returns (r: Option<string>)
      ensures r == StandardPath(SpeechRecognition.RecognizeWithAi(base.engine, base.hasBaiduKeys, base.hasWhisperModel, replies))
    {
      var result := SpeechRecognition.RecognizeWithAi(base.engine, base.hasBaiduKeys, base.hasWhisperModel, replies);
      r := if Truthy(result) then result else None;
    }
  }
}
