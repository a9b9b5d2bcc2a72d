/** The wake-gated recognizer of src/ai_speech_recognition.py: a recognizer
    object that listens for a wake word, counts detections and false
    positives, adapts its energy threshold, and then captures and recognizes
    a command through the configured engine (Baidu, Whisper or Google).

    The microphone and the recognition services are replaced by the outcome
    each call produces, passed in as a value. */
module SpeechRecognition {
  import opened Strings
  import Config

  /** Outcome of one blocking capture (`recognizer.listen`): a clip, the
      no-speech timeout (`WaitTimeoutError`), or any other failure. */
  datatype Capture = Clip(audio: nat) | CaptureTimeout | DeviceError

  /** Outcome of `recognize_google`: a transcript, `UnknownValueError`,
      `RequestError` (network), or any other exception. */
  datatype GoogleReply = Transcript(text: string) | Unintelligible | RequestFailed | OtherFailure

  /** The Baidu speech API's JSON reply (`err_no`, `result`), or an exception
      raised by the request. */
  datatype BaiduApiReply = ApiJson(errNo: Option<int>, result: Option<seq<string>>) | ApiRaised

  /** The token request (`access_token`, `None` when missing or when the request
      raised) and the recognition request. */
  datatype BaiduReply = BaiduReply(token: Option<string>, api: BaiduApiReply)

  datatype WhisperReply = WhisperText(text: string) | WhisperRaised

  /** What each service would answer for the clip handed to `_recognize_with_ai`. */
  datatype AiReplies = AiReplies(baidu: BaiduReply, whisper: WhisperReply, google: GoogleReply)

  /** The arguments of one capture request: `timeout` and `phrase_time_limit`. */
  datatype CaptureRequest = CaptureRequest(timeout: int, phraseLimit: int)

  /** The outcomes available to one `listen_with_wake_word` call: the wake clip
      and its Google transcript, then the command clip and the services' replies
      to it. With wake-gating off only the command part is used. */
  datatype CycleOracle = CycleOracle(
    wakeCapture: Capture,
    wakeReply: GoogleReply,
    commandCapture: Capture,
    commandReplies: AiReplies)

  /** The dict returned by `get_wake_word_stats`. */
  datatype WakeStats = WakeStats(detections: nat, falsePositives: nat, currentThreshold: real, detectionRate: real)

  /** The configuration the constructor reads (AI_SPEECH_CONFIG and WAKE_WORD_CONFIG). */
  datatype RecognizerConfig = RecognizerConfig(
    engine: string,
    baiduAppId: string,
    baiduApiKey: string,
    baiduSecretKey: string,
    wakeEnabled: bool,
    wakeWords: seq<string>,
    wakeTimeout: int,
    wakePhraseTimeout: int,
    commandTimeout: int,
    energyThreshold: real,
    adaptiveThreshold: bool)

  /** The shipped configuration: engine 'baidu' with empty credentials and the
      wake settings of src/config.py. */
  function ShippedConfig(): RecognizerConfig {
    RecognizerConfig("baidu", "", "", "", Config.WakeEnabled, Config.WakeKeywords,
      Config.WakeTimeout, Config.WakePhraseTimeout, Config.CommandTimeout,
      Config.EnergyThreshold, Config.AdaptiveThreshold)
  }

  /** Phrase limit of the command capture (`phrase_time_limit=8`). */
  const CommandPhraseLimit: int := 8

  /** The engine left in place by `_init_ai_engine`. 'baidu' survives only with
      all three credentials; 'whisper' always falls back to 'google', because
      the `whisper` module is never imported and loading raises. */
  function InitialEngine(cfg: RecognizerConfig): (engine: string)
    ensures engine == "baidu" <==>
      cfg.engine == "baidu" && cfg.baiduAppId != "" && cfg.baiduApiKey != "" && cfg.baiduSecretKey != ""
    ensures engine != "whisper"
    ensures cfg.engine != "baidu" && cfg.engine != "whisper" ==> engine == cfg.engine
  {
    if cfg.engine == "baidu" then
      (if cfg.baiduAppId != "" && cfg.baiduApiKey != "" && cfg.baiduSecretKey != "" then "baidu" else "google")
    else if cfg.engine == "whisper" then "google"
    else cfg.engine
  }

  /** `_recognize_with_google`: the transcript, or None on any error. */
  function GoogleText(reply: GoogleReply): (r: Option<string>)
    ensures r.Some? <==> reply.Transcript?
    ensures r.Some? ==> r.value == reply.text
  {
    match reply
    case Transcript(t) => Some(t)
    case _ => None
  }

  /** `_recognize_with_baidu`: the first API result when the token is obtained
      and `err_no` is 0; every other outcome falls back to Google. */
  function BaiduText(b: BaiduReply, google: GoogleReply): (r: Option<string>)
    ensures !Truthy(b.token) || b.api.ApiRaised? || b.api.errNo != Some(0) ==> r == GoogleText(google)
    ensures r.None? ==> GoogleText(google).None?
    // With a token and `err_no == 0`: the first item of `result`, "" when the
    // key is missing, and Google when indexing an empty list raises.
    ensures Truthy(b.token) && b.api.ApiJson? && b.api.errNo == Some(0) && b.api.result.None? ==> r == Some("")
    ensures Truthy(b.token) && b.api.ApiJson? && b.api.errNo == Some(0) && b.api.result.Some? ==>
      r == (if b.api.result.value == [] then GoogleText(google) else Some(b.api.result.value[0]))
  {
    if !Truthy(b.token) then GoogleText(google)
    else
      match b.api
      case ApiRaised => GoogleText(google)
      case ApiJson(errNo, result) =>
        if errNo != Some(0) then GoogleText(google)
        else
          match result
          case None => Some("")
          case Some(items) => if |items| == 0 then GoogleText(google) else Some(items[0])
  }

  /** `_recognize_with_whisper`: the stripped transcript, or Google on any exception. */
  function WhisperTextOf(w: WhisperReply, google: GoogleReply): (r: Option<string>)
    ensures w.WhisperRaised? ==> r == GoogleText(google)
    ensures w.WhisperText? ==> r == Some(Strip(w.text))
  {
    match w
    case WhisperText(t) => Some(Strip(t))
    case WhisperRaised => GoogleText(google)
  }

  /** `_recognize_with_ai`: dispatch on the engine; anything but a usable Baidu
      or Whisper engine goes to Google. It never raises, and it answers None
      only after Google too has failed. */
  function RecognizeWithAi(engine: string, hasBaiduKeys: bool, hasWhisperModel: bool, replies: AiReplies): (r: Option<string>)
    ensures !(engine == "baidu" && hasBaiduKeys) && !(engine == "whisper" && hasWhisperModel) ==>
      r == GoogleText(replies.google)
    ensures engine == "baidu" && hasBaiduKeys ==> r == BaiduText(replies.baidu, replies.google)
    ensures engine == "whisper" && hasWhisperModel ==> r == WhisperTextOf(replies.whisper, replies.google)
    ensures r.None? ==> !replies.google.Transcript?
  {
    if engine == "baidu" && hasBaiduKeys then BaiduText(replies.baidu, replies.google)
    else if engine == "whisper" && hasWhisperModel then WhisperTextOf(replies.whisper, replies.google)
    else GoogleText(replies.google)
  }

  /** `if text and text.strip(): return text else None`. */
  function NonBlank(text: Option<string>): (r: Option<string>)
    ensures r.Some? <==> text.Some? && !AllSpace(text.value)
    ensures r.Some? ==> r == text
  {
    StripEmptyIffAllSpace(if text.Some? then text.value else "");
    if text.Some? && Strip(text.value) != "" then text else None
  }

  /** The text a capture-then-recognize step returns (`listen_continuous`,
      `recognize_once`, `_listen_for_command`): a timeout, a capture failure or
      a blank transcript all give None. */
  function CapturedText(capture: Capture, engine: string, hasBaiduKeys: bool, hasWhisperModel: bool, replies: AiReplies): (r: Option<string>)
    ensures r.Some? ==> capture.Clip? && Strip(r.value) != "" && r == RecognizeWithAi(engine, hasBaiduKeys, hasWhisperModel, replies)
    ensures (capture.Clip? && Truthy(RecognizeWithAi(engine, hasBaiduKeys, hasWhisperModel, replies)) &&
             Strip(RecognizeWithAi(engine, hasBaiduKeys, hasWhisperModel, replies).value) != "") ==> r.Some?
  {
    if capture.Clip? then
      var text := RecognizeWithAi(engine, hasBaiduKeys, hasWhisperModel, replies);
      StripEmptyIffAllSpace(if text.Some? then text.value else "");
      NonBlank(text)
    else None
  }

  /** `_adaptive_threshold_adjustment` on the value: the bound is tested before
      multiplying, so one step may cross 200 or 500. */
  function AdjustThreshold(t: real, detected: bool): real {
    if detected then (if t > 200.0 then t * 0.95 else t)
    else (if t < 500.0 then t * 1.05 else t)
  }

  /** The threshold after a sequence of adjustments, oldest first. */
  function AdjustAll(t: real, feedback: seq<bool>): real
    decreases |feedback|
  {
    if feedback == [] then t else AdjustAll(AdjustThreshold(t, feedback[0]), feedback[1..])
  }

  /** The band [190, 525] that the threshold cannot leave once inside. */
  predicate InBand(t: real) {
    190.0 <= t <= 525.0
  }

  /** One adjustment keeps the threshold in the band; a detection never raises
      it and a false positive never lowers it (thresholds are non-negative). */
  lemma AdjustKeepsBand(t: real, detected: bool)
    ensures InBand(t) ==> InBand(AdjustThreshold(t, detected))
    ensures t >= 0.0 && detected ==> AdjustThreshold(t, detected) <= t
    ensures t >= 0.0 && !detected ==> AdjustThreshold(t, detected) >= t
  {
  }

  /** Any sequence of adjustments keeps the threshold in the band. */
  lemma {:induction false} AdjustAllKeepsBand(t: real, feedback: seq<bool>)
    requires InBand(t)
    ensures InBand(AdjustAll(t, feedback))
    decreases |feedback|
  {
    if feedback != [] {
      AdjustKeepsBand(t, feedback[0]);
      AdjustAllKeepsBand(AdjustThreshold(t, feedback[0]), feedback[1..]);
    }
  }

  /** From 300 a detection gives 285 and a false positive 315; because the
      bound is checked before multiplying, 210 drops to 199.5, below the 200
      floor, and 490 rises to 514.5, above the 500 ceiling. */
  lemma AdjustExamples()
    ensures AdjustThreshold(300.0, true) == 285.0
    ensures AdjustThreshold(300.0, false) == 315.0
    ensures AdjustThreshold(210.0, true) == 199.5 < 200.0
    ensures AdjustThreshold(490.0, false) == 514.5 > 500.0
    ensures AdjustThreshold(200.0, true) == 200.0 && AdjustThreshold(500.0, false) == 500.0
  {
  }

  /** `detections / max(1, detections + false_positives)`. */
  function DetectionRate(detections: nat, falsePositives: nat): (r: real)
    ensures 0.0 <= r <= 1.0
    ensures detections + falsePositives == 0 ==> r == 0.0
    ensures detections + falsePositives > 0 ==> r * (detections + falsePositives) as real == detections as real
  {
    var total := if detections + falsePositives > 1 then detections + falsePositives else 1;
    detections as real / total as real
  }

  /** `wake_word.lower() in text.lower()` for the keyword at position `j`. */
  predicate WakeHit(words: seq<string>, text: string, j: int)
    requires 0 <= j < |words|
  {
    Contains(Lower(text), Lower(words[j]))
  }

  /** The first keyword, in configured order, found in the text. */
  function FirstWakeWordFrom(words: seq<string>, text: string, i: nat): (r: Option<nat>)
    requires i <= |words|
    ensures r.Some? ==> (i <= r.value < |words| && WakeHit(words, text, r.value) &&
                         forall j :: i <= j < r.value ==> !WakeHit(words, text, j))
    ensures r.None? ==> forall j :: i <= j < |words| ==> !WakeHit(words, text, j)
    decreases |words| - i
  {
    if i == |words| then None
    else if WakeHit(words, text, i) then Some(i)
    else FirstWakeWordFrom(words, text, i + 1)
  }

  function FirstWakeWord(words: seq<string>, text: string): (r: Option<nat>)
    ensures r.Some? ==> (r.value < |words| && WakeHit(words, text, r.value) &&
                         forall j :: 0 <= j < r.value ==> !WakeHit(words, text, j))
    ensures r.None? ==> forall j :: 0 <= j < |words| ==> !WakeHit(words, text, j)
  {
    FirstWakeWordFrom(words, text, 0)
  }

  /** How a transcript feeds the statistics: a keyword hit, a non-empty
      transcript without one, or nothing. */
  datatype WakeOutcome = Matched | FalsePositive | Neutral

  function TranscriptOutcome(words: seq<string>, text: string): (o: WakeOutcome)
    ensures o == Matched <==> FirstWakeWord(words, text).Some?
    ensures o == Neutral <==> FirstWakeWord(words, text).None? && text == ""
  {
    if FirstWakeWord(words, text).Some? then Matched
    else if |Lower(text)| > 0 then FalsePositive
    else Neutral
  }

  /** The outcome of `_detect_wake_word`: only a captured clip with a non-empty
      Google transcript reaches the keyword match; a timeout, unintelligible
      audio, a network error or any other failure is neutral. */
  function WakeCycleOutcome(words: seq<string>, capture: Capture, reply: GoogleReply): (o: WakeOutcome)
    ensures o != Neutral ==> capture.Clip? && reply.Transcript? && reply.text != ""
    ensures capture.Clip? && reply.Transcript? && reply.text != "" ==> o == TranscriptOutcome(words, reply.text)
  {
    if capture.Clip? && reply.Transcript? && reply.text != "" then TranscriptOutcome(words, reply.text)
    else Neutral
  }

  /** The object of class AISpeechRecognizer. */
  class Recognizer {
    const wakeEnabled: bool
    const wakeWords: seq<string>
    const wakeTimeout: int
    const wakePhraseTimeout: int
    const commandTimeout: int
    /** WAKE_WORD_CONFIG['energy_threshold'], the value `reset` restores. */
    const configuredThreshold: real
    const adaptive: bool
    /** `hasattr(self, 'baidu_api_key')`: set only when the configured engine was 'baidu'. */
    const hasBaiduKeys: bool
    /** `hasattr(self, 'whisper_model')`: never set, the model load always raises. */
    const hasWhisperModel: bool

    var engine: string
    var wakeWordDetections: nat
    var falsePositives: nat
    var dynamicEnergyThreshold: real
    /** `recognizer.energy_threshold`, the value the microphone capture uses. */
    var energyThreshold: real
    /** Every capture requested so far, oldest first. */
    var captures: seq<CaptureRequest>

    constructor (cfg: RecognizerConfig)
      ensures wakeEnabled == cfg.wakeEnabled && wakeWords == cfg.wakeWords
      ensures wakeTimeout == cfg.wakeTimeout && wakePhraseTimeout == cfg.wakePhraseTimeout
      ensures commandTimeout == cfg.commandTimeout && adaptive == cfg.adaptiveThreshold
      ensures configuredThreshold == cfg.energyThreshold
      ensures engine == InitialEngine(cfg)
      ensures hasBaiduKeys == (cfg.engine == "baidu") && !hasWhisperModel
      ensures wakeWordDetections == 0 && falsePositives == 0
      ensures dynamicEnergyThreshold == cfg.energyThreshold && energyThreshold == cfg.energyThreshold
      ensures captures == []
    {
      wakeEnabled := cfg.wakeEnabled;
      wakeWords := cfg.wakeWords;
      wakeTimeout := cfg.wakeTimeout;
      wakePhraseTimeout := cfg.wakePhraseTimeout;
      commandTimeout := cfg.commandTimeout;
      configuredThreshold := cfg.energyThreshold;
      adaptive := cfg.adaptiveThreshold;
      hasBaiduKeys := cfg.engine == "baidu";
      hasWhisperModel := false;
      engine := InitialEngine(cfg);
      wakeWordDetections := 0;
      falsePositives := 0;
      dynamicEnergyThreshold := cfg.energyThreshold;
      energyThreshold := cfg.energyThreshold;
      captures := [];
    }

    /** `_adaptive_threshold_adjustment`. */
    method AdaptiveThresholdAdjustment(detected: bool)
      modifies this`dynamicEnergyThreshold, this`energyThreshold
      ensures adaptive ==> dynamicEnergyThreshold == AdjustThreshold(old(dynamicEnergyThreshold), detected)
      ensures adaptive ==> energyThreshold == dynamicEnergyThreshold
      ensures !adaptive ==> dynamicEnergyThreshold == old(dynamicEnergyThreshold) && energyThreshold == old(energyThreshold)
    {
      if !adaptive {
        return;
      }
      if detected {
        if dynamicEnergyThreshold > 200.0 {
          dynamicEnergyThreshold := dynamicEnergyThreshold * 0.95;
        }
      } else {
        if dynamicEnergyThreshold < 500.0 {
          dynamicEnergyThreshold := dynamicEnergyThreshold * 1.05;
        }
      }
      energyThreshold := dynamicEnergyThreshold;
    }

    /** Records one wake outcome in the counters and the threshold. */
    twostate predicate Recorded(outcome: WakeOutcome)
      reads this
    {
      wakeWordDetections == old(wakeWordDetections) + (if outcome == Matched then 1 else 0) &&
      falsePositives == old(falsePositives) + (if outcome == FalsePositive then 1 else 0) &&
      (if outcome == Neutral || !adaptive then
         dynamicEnergyThreshold == old(dynamicEnergyThreshold) && energyThreshold == old(energyThreshold)
       else
         dynamicEnergyThreshold == AdjustThreshold(old(dynamicEnergyThreshold), outcome == Matched) &&
         energyThreshold == dynamicEnergyThreshold)
    }

    /** `_check_wake_word_match`: the keywords are tried in order and the first
        hit is announced (`word`); a hit counts a detection, a non-empty miss a
        false positive, an empty text nothing. */
    method CheckWakeWordMatch(text: string) returns (matched: bool, word: Option<string>)
      modifies this`wakeWordDetections, this`falsePositives, this`dynamicEnergyThreshold, this`energyThreshold
      ensures matched <==> FirstWakeWord(wakeWords, text).Some?
      ensures matched ==> word == Some(wakeWords[FirstWakeWord(wakeWords, text).value])
      ensures !matched ==> word == None
      ensures Recorded(TranscriptOutcome(wakeWords, text))
    {
      var lowered := Lower(text);
      var i := 0;
      while i < |wakeWords|
        invariant 0 <= i <= |wakeWords|
        invariant forall j :: 0 <= j < i ==> !WakeHit(wakeWords, text, j)
      {
        if Contains(lowered, Lower(wakeWords[i])) {
          assert WakeHit(wakeWords, text, i);
          ghost var first := FirstWakeWord(wakeWords, text);
          assert first.Some? && first.value == i;
          wakeWordDetections := wakeWordDetections + 1;
          AdaptiveThresholdAdjustment(true);
          return true, Some(wakeWords[i]);
        }
        i := i + 1;
      }
      if |lowered| > 0 {
        falsePositives := falsePositives + 1;
        AdaptiveThresholdAdjustment(false);
      }
      return false, None;
    }

    /** `_detect_wake_word`: capture with the wake timeout, transcribe with
        Google, and match. Every failure, including the network error whose
        fallback calls a method that does not exist, ends in false. */
    method DetectWakeWord(capture: Capture, reply: GoogleReply) returns (detected: bool)
      modifies this`wakeWordDetections, this`falsePositives, this`dynamicEnergyThreshold, this`energyThreshold, this`captures
      ensures captures == old(captures) + [CaptureRequest(wakeTimeout, wakePhraseTimeout)]
      ensures detected <==> WakeCycleOutcome(wakeWords, capture, reply) == Matched
      ensures Recorded(WakeCycleOutcome(wakeWords, capture, reply))
    {
      captures := captures + [CaptureRequest(wakeTimeout, wakePhraseTimeout)];
      match capture
      case CaptureTimeout =>
        return false;
      case DeviceError =>
        return false;
      case Clip(_) =>
        match reply
        case Transcript(text) =>
          if text != "" {
            var word;
            detected, word := CheckWakeWordMatch(text);
          } else {
            detected := false;
          }
        case Unintelligible =>
          return false;
        case RequestFailed =>
          // `_simple_wake_word_check` does not exist: the AttributeError is
          // caught by the outer handler, which answers False.
          return false;
        case OtherFailure =>
          return false;
    }

    /** One capture followed by recognition with the current engine. */
    method CaptureAndRecognize(request: CaptureRequest, capture: Capture, replies: AiReplies) returns (r: Option<string>)
      modifies this`captures
      ensures captures == old(captures) + [request]
      ensures r == CapturedText(capture, engine, hasBaiduKeys, hasWhisperModel, replies)
    {
      captures := captures + [request];
      if !capture.Clip? {
        return None;
      }
      var text := RecognizeWithAi(engine, hasBaiduKeys, hasWhisperModel, replies);
      if text.Some? && Strip(text.value) != "" {
        r := text;
      } else {
        r := None;
      }
    }

    /** `listen_continuous`: one capture with SPEECH_CONFIG's timeouts. */
    method ListenContinuous(capture: Capture, replies: AiReplies) returns (r: Option<string>)
      modifies this`captures
      ensures captures == old(captures) + [CaptureRequest(Config.SpeechTimeout, Config.SpeechPhraseTimeout)]
      ensures r == CapturedText(capture, engine, hasBaiduKeys, hasWhisperModel, replies)
    {
      r := CaptureAndRecognize(CaptureRequest(Config.SpeechTimeout, Config.SpeechPhraseTimeout), capture, replies);
    }

    /** `recognize_once(timeout)`: one capture with a phrase limit of 5. */
    method RecognizeOnce(timeout: int, capture: Capture, replies: AiReplies) returns (r: Option<string>)
      modifies this`captures
      ensures captures == old(captures) + [CaptureRequest(timeout, 5)]
      ensures r == CapturedText(capture, engine, hasBaiduKeys, hasWhisperModel, replies)
    {
      r := CaptureAndRecognize(CaptureRequest(timeout, 5), capture, replies);
    }

    /** `_listen_for_command`: one capture with the command timeout and a
        phrase limit of 8. */
    method ListenForCommand(capture: Capture, replies: AiReplies) returns (r: Option<string>)
      modifies this`captures
      ensures captures == old(captures) + [CaptureRequest(commandTimeout, CommandPhraseLimit)]
      ensures r == CapturedText(capture, engine, hasBaiduKeys, hasWhisperModel, replies)
    {
      r := CaptureAndRecognize(CaptureRequest(commandTimeout, CommandPhraseLimit), capture, replies);
    }

    /** `listen_with_wake_word`: without wake-gating, a plain `listen_continuous`;
        with it, the command is captured only after the wake word was detected. */
    method ListenWithWakeWord(o: CycleOracle) returns (r: Option<string>)
      modifies this`wakeWordDetections, this`falsePositives, this`dynamicEnergyThreshold, this`energyThreshold, this`captures
      ensures !wakeEnabled ==>
        captures == old(captures) + [CaptureRequest(Config.SpeechTimeout, Config.SpeechPhraseTimeout)] &&
        r == CapturedText(o.commandCapture, engine, hasBaiduKeys, hasWhisperModel, o.commandReplies) &&
        Recorded(Neutral)
      ensures wakeEnabled ==> Recorded(WakeCycleOutcome(wakeWords, o.wakeCapture, o.wakeReply))
      ensures wakeEnabled && WakeCycleOutcome(wakeWords, o.wakeCapture, o.wakeReply) != Matched ==>
        captures == old(captures) + [CaptureRequest(wakeTimeout, wakePhraseTimeout)] && r == None
      ensures wakeEnabled && WakeCycleOutcome(wakeWords, o.wakeCapture, o.wakeReply) == Matched ==>
        captures == old(captures) + [CaptureRequest(wakeTimeout, wakePhraseTimeout), CaptureRequest(commandTimeout, CommandPhraseLimit)] &&
        r == CapturedText(o.commandCapture, engine, hasBaiduKeys, hasWhisperModel, o.commandReplies)
      ensures r.Some? ==> Strip(r.value) != ""
    {
      if !wakeEnabled {
        r := ListenContinuous(o.commandCapture, o.commandReplies);
        return;
      }
      var detected := DetectWakeWord(o.wakeCapture, o.wakeReply);
      if !detected {
        return None;
      }
      r := ListenForCommand(o.commandCapture, o.commandReplies);
    }

    /** `get_wake_word_stats`. */
    method GetWakeWordStats() returns (stats: WakeStats)
      ensures stats.detections == wakeWordDetections && stats.falsePositives == falsePositives
      ensures stats.currentThreshold == dynamicEnergyThreshold
      ensures 0.0 <= stats.detectionRate <= 1.0
      ensures wakeWordDetections + falsePositives == 0 ==> stats.detectionRate == 0.0
      ensures wakeWordDetections + falsePositives > 0 ==>
        stats.detectionRate * (wakeWordDetections + falsePositives) as real == wakeWordDetections as real
    {
      stats := WakeStats(wakeWordDetections, falsePositives, dynamicEnergyThreshold,
        DetectionRate(wakeWordDetections, falsePositives));
    }

    /** `reset_wake_word_stats`: counters to zero and the threshold back to the
        configured value; `energyThreshold` (the recognizer's) is not touched. */
    method ResetWakeWordStats()
      modifies this`wakeWordDetections, this`falsePositives, this`dynamicEnergyThreshold
      ensures wakeWordDetections == 0 && falsePositives == 0
      ensures dynamicEnergyThreshold == configuredThreshold
      ensures energyThreshold == old(energyThreshold)
    {
      wakeWordDetections := 0;
      falsePositives := 0;
      dynamicEnergyThreshold := configuredThreshold;
    }
  }

  /** A text none of whose characters starts `sub` does not contain it. */
  lemma AbsentFirstChar(s: string, sub: string)
    requires |sub| > 0 && forall i :: 0 <= i < |s| ==> s[i] != sub[0]
    ensures !Contains(s, sub)
  {
    forall i | 0 <= i <= |s| - |sub| ensures !OccursAt(s, sub, i) {
      assert s[i..i + |sub|][0] == s[i];
    }
  }

  /** With the shipped configuration, "你好小智帮我开灯" wakes the recognizer on
      its first keyword; "小智" is also found in lower-cased mixed text. */
  lemma WakeMatchExamples()
    ensures FirstWakeWord(Config.WakeKeywords, "你好小智帮我开灯") == Some(0)
    ensures TranscriptOutcome(Config.WakeKeywords, "打开电视") == FalsePositive
    ensures TranscriptOutcome(Config.WakeKeywords, "") == Neutral
  {
    assert OccursAt(Lower("你好小智帮我开灯"), Lower("小智"), 2);
    var t := "打开电视";
    forall j | 0 <= j < |Config.WakeKeywords| ensures !WakeHit(Config.WakeKeywords, t, j) {
      var w := Lower(Config.WakeKeywords[j]);
      assert w[0] in {'小', '智', '你'};
      AbsentFirstChar(Lower(t), w);
    }
  }
}
