/** wake_word_tuning.py: the performance monitor that records the
    recognizer's status messages while monitoring, counts them by kind and
    derives tuning recommendations. The messages the recognizer reports are
    given as a list; timestamps and the console are left out. */
module WakeWordTuning {
  import opened Strings
  import SpeechRecognition

  /** The kinds `_classify_message` tells apart. */
  datatype EventType = Waiting | WakeDetected | CommandRecognized | Error | Timeout | Other

  /** `_classify_message`: the first of the markers the message contains
      decides, in the order waiting, wake word, command, error, timeout. */
  function ClassifyMessage(message: string): (r: EventType)
    ensures r == Waiting <==> Contains(message, "等待唤醒词")
    ensures r == WakeDetected <==> !Contains(message, "等待唤醒词") && Contains(message, "检测到唤醒词")
    ensures r == CommandRecognized <==>
      !Contains(message, "等待唤醒词") && !Contains(message, "检测到唤醒词") && Contains(message, "识别到指令")
    ensures r == Error <==>
      !Contains(message, "等待唤醒词") && !Contains(message, "检测到唤醒词") && !Contains(message, "识别到指令") &&
      (Contains(message, "错误") || Contains(message, "❌"))
    ensures r == Timeout <==>
      !Contains(message, "等待唤醒词") && !Contains(message, "检测到唤醒词") && !Contains(message, "识别到指令") &&
      !Contains(message, "错误") && !Contains(message, "❌") && Contains(message, "超时")
  {
    if Contains(message, "等待唤醒词") then Waiting
    else if Contains(message, "检测到唤醒词") then WakeDetected
    else if Contains(message, "识别到指令") then CommandRecognized
    else if Contains(message, "错误") || Contains(message, "❌") then Error
    else if Contains(message, "超时") then Timeout
    else Other
  }

  /** One recorded entry of `performance_data` (its timestamp left out). */
  datatype Entry = Entry(message: string, kind: EventType)

  /** The entries recording the given messages, in order. */
  function Entries(messages: seq<string>): (r: seq<Entry>)
    ensures |r| == |messages|
    ensures forall i :: 0 <= i < |messages| ==> r[i] == Entry(messages[i], ClassifyMessage(messages[i]))
  {
    seq(|messages|, i requires 0 <= i < |messages| => Entry(messages[i], ClassifyMessage(messages[i])))
  }

  /** How many entries are of the given kind. */
  function CountOf(data: seq<Entry>, t: EventType): (r: nat)
    ensures r <= |data|
  {
    if data == [] then 0
    else CountOf(data[..|data| - 1], t) + (if data[|data| - 1].kind == t then 1 else 0)
  }

  /** `event_counts.get(t, 0)`. */
  function Get(counts: map<EventType, nat>, t: EventType): nat {
    if t in counts then counts[t] else 0
  }

  /** `sum(event_counts.values())`, summed kind by kind. */
  function Total(counts: map<EventType, nat>): nat {
    Get(counts, Waiting) + Get(counts, WakeDetected) + Get(counts, CommandRecognized) +
    Get(counts, Error) + Get(counts, Timeout) + Get(counts, Other)
  }

  /** The counts of all kinds add up to the number of entries. */
  lemma {:induction false} CountsSum(data: seq<Entry>)
    ensures CountOf(data, Waiting) + CountOf(data, WakeDetected) + CountOf(data, CommandRecognized) +
            CountOf(data, Error) + CountOf(data, Timeout) + CountOf(data, Other) == |data|
    decreases |data|
  {
    if data != [] {
      CountsSum(data[..|data| - 1]);
    }
  }

  /** What `_analyze_performance` computes from the data: the counts and,
      when there were waiting events, the wake success rate in percent. */
  datatype Analysis = Analysis(eventCounts: map<EventType, nat>, successRate: Option<real>)

  const ErrorAdvice: string := "错误率较高，建议检查麦克风设备和网络连接"
  const TimeoutAdvice: string := "超时次数较多，建议增加超时时间或改善语音环境"
  const DetectionAdvice: string := "检测率较低，建议调整麦克风位置或降低环境噪音"
  const HighThresholdAdvice: string := "能量阈值较高，可能影响敏感度，建议在安静环境中重新校准"
  const LowThresholdAdvice: string := "能量阈值较低，可能导致误检，建议增加背景噪音过滤"

  /** The recommendations for the counts and the recognizer's statistics
      (None when there is no recognizer, so every statistic reads 0), in
      the order they are appended. */
  function Recommendations(counts: map<EventType, nat>, stats: Option<SpeechRecognition.WakeStats>): (r: seq<string>)
    ensures ErrorAdvice in r <==> Total(counts) > 0 && Get(counts, Error) as real / Total(counts) as real > 0.1
    ensures TimeoutAdvice in r <==> Get(counts, Timeout) > 5
    ensures DetectionAdvice in r <==> (if stats.Some? then stats.value.detectionRate else 0.0) < 0.7
    ensures HighThresholdAdvice in r <==> (if stats.Some? then stats.value.currentThreshold else 0.0) > 400.0
    ensures LowThresholdAdvice in r <==> (if stats.Some? then stats.value.currentThreshold else 0.0) < 200.0
  {
    AdviceDistinct();
    ErrorPart(counts) + TimeoutPart(counts) + DetectionPart(stats) + ThresholdPart(stats)
  }

  /** No advice is given twice, and the threshold is never called both too
      high and too low. */
  lemma RecommendationsDistinct(counts: map<EventType, nat>, stats: Option<SpeechRecognition.WakeStats>)
    ensures var r := Recommendations(counts, stats);
      NoDuplicates(r) && !(HighThresholdAdvice in r && LowThresholdAdvice in r)
  {
    AdviceDistinct();
    var e := ErrorPart(counts);
    var t := TimeoutPart(counts);
    var d := DetectionPart(stats);
    var h := ThresholdPart(stats);
    NoDuplicatesAppend(e, t);
    NoDuplicatesAppend(e + t, d);
    NoDuplicatesAppend(e + t + d, h);
    assert HighThresholdAdvice !in e + t + d && LowThresholdAdvice !in e + t + d;
  }

  lemma NoDuplicatesAppend(a: seq<string>, b: seq<string>)
    requires NoDuplicates(a) && NoDuplicates(b)
    requires forall x :: x in a ==> x !in b
    ensures NoDuplicates(a + b)
  {
    forall i, j | 0 <= i < j < |a + b|
      ensures (a + b)[i] != (a + b)[j]
    {
      if j >= |a| && i < |a| {
        assert (a + b)[i] in a && (a + b)[j] in b;
      }
    }
  }

  /** The five pieces of advice are different texts. */
  lemma AdviceDistinct()
    ensures ErrorAdvice != TimeoutAdvice && ErrorAdvice != DetectionAdvice &&
      ErrorAdvice != HighThresholdAdvice && ErrorAdvice != LowThresholdAdvice
    ensures TimeoutAdvice != DetectionAdvice && TimeoutAdvice != HighThresholdAdvice && TimeoutAdvice != LowThresholdAdvice
    ensures DetectionAdvice != HighThresholdAdvice && DetectionAdvice != LowThresholdAdvice
    ensures HighThresholdAdvice != LowThresholdAdvice
  {
    assert ErrorAdvice[0] == '错' && TimeoutAdvice[0] == '超' && DetectionAdvice[0] == '检';
    assert HighThresholdAdvice[0] == '能' && LowThresholdAdvice[0] == '能';
    assert HighThresholdAdvice[5] == '高' && LowThresholdAdvice[5] == '低';
  }

  function ErrorPart(counts: map<EventType, nat>): (r: seq<string>)
    ensures |r| <= 1 && forall x :: x in r ==> x == ErrorAdvice
  {
    if Total(counts) > 0 && Get(counts, Error) as real / Total(counts) as real > 0.1 then [ErrorAdvice] else []
  }

  function TimeoutPart(counts: map<EventType, nat>): (r: seq<string>)
    ensures |r| <= 1 && forall x :: x in r ==> x == TimeoutAdvice
  {
    if Get(counts, Timeout) > 5 then [TimeoutAdvice] else []
  }

  function DetectionPart(stats: Option<SpeechRecognition.WakeStats>): (r: seq<string>)
    ensures |r| <= 1 && forall x :: x in r ==> x == DetectionAdvice
  {
    if (if stats.Some? then stats.value.detectionRate else 0.0) < 0.7 then [DetectionAdvice] else []
  }

  function ThresholdPart(stats: Option<SpeechRecognition.WakeStats>): (r: seq<string>)
    ensures |r| <= 1 && forall x :: x in r ==> x == HighThresholdAdvice || x == LowThresholdAdvice
  {
    var threshold := if stats.Some? then stats.value.currentThreshold else 0.0;
    if threshold > 400.0 then [HighThresholdAdvice] else if threshold < 200.0 then [LowThresholdAdvice] else []
  }

  /** The object of class WakeWordPerformanceMonitor. */
  class PerformanceMonitor {
    var monitoring: bool
    var performanceData: seq<Entry>
    var recommendations: seq<string>

    constructor ()
      ensures !monitoring && performanceData == [] && recommendations == []
    {
      monitoring := false;
      performanceData := [];
      recommendations := [];
    }

    /** `_status_callback`: the message is recorded, classified, only while
        monitoring. */
    method StatusCallback(message: string)
      modifies this
      ensures monitoring == old(monitoring) && recommendations == old(recommendations)
      ensures performanceData ==
        if monitoring then old(performanceData) + [Entry(message, ClassifyMessage(message))] else old(performanceData)
    {
      if monitoring {
        performanceData := performanceData + [Entry(message, ClassifyMessage(message))];
      }
    }

    /** `start_monitoring`: `messages` are the status messages the
        recognizer reports while the monitor listens. The data is reset,
        every message is recorded, monitoring ends and the data is analysed. */
    method StartMonitoring(messages: seq<string>, stats: Option<SpeechRecognition.WakeStats>) returns (a: Option<Analysis>)
      modifies this
      ensures !monitoring
      ensures performanceData == Entries(messages)
      ensures messages == [] <==> a.None?
      ensures messages == [] ==> recommendations == old(recommendations)
      ensures a.Some? ==> recommendations == Recommendations(a.value.eventCounts, stats)
      ensures a.Some? ==>
        (forall t :: t in a.value.eventCounts <==> CountOf(Entries(messages), t) > 0) &&
        (forall t :: Get(a.value.eventCounts, t) == CountOf(Entries(messages), t)) &&
        Total(a.value.eventCounts) == |messages| &&
        (a.value.successRate.Some? <==> CountOf(Entries(messages), Waiting) > 0) &&
        (a.value.successRate.Some? ==>
          a.value.successRate.value ==
            CountOf(Entries(messages), WakeDetected) as real / CountOf(Entries(messages), Waiting) as real * 100.0)
    {
      monitoring := true;
      performanceData := [];
      for i := 0 to |messages|
        invariant monitoring && performanceData == Entries(messages[..i]) && recommendations == old(recommendations)
      {
        StatusCallback(messages[i]);
        assert messages[..i + 1] == messages[..i] + [messages[i]];
      }
      assert messages[..|messages|] == messages;
      monitoring := false;
      a := AnalyzePerformance(stats);
    }

    /** `_analyze_performance`: with no data nothing happens; otherwise the
        entries are counted by kind, the success rate is wake detections per
        waiting event in percent, and the recommendations are regenerated. */
    method AnalyzePerformance(stats: Option<SpeechRecognition.WakeStats>) returns (a: Option<Analysis>)
      modifies this
      ensures monitoring == old(monitoring) && performanceData == old(performanceData)
      ensures performanceData == [] <==> a.None?
      ensures a.None? ==> recommendations == old(recommendations)
      ensures a.Some? ==>
        (forall t :: t in a.value.eventCounts <==> CountOf(performanceData, t) > 0) &&
        (forall t :: Get(a.value.eventCounts, t) == CountOf(performanceData, t)) &&
        Total(a.value.eventCounts) == |performanceData| &&
        (a.value.successRate.Some? <==> CountOf(performanceData, Waiting) > 0) &&
        (a.value.successRate.Some? ==>
          a.value.successRate.value ==
            CountOf(performanceData, WakeDetected) as real / CountOf(performanceData, Waiting) as real * 100.0) &&
        recommendations == Recommendations(a.value.eventCounts, stats)
    {
      if performanceData == [] {
        return None;
      }
      var eventCounts := CountEvents(performanceData);
      CountsSum(performanceData);
      var wakeDetected := Get(eventCounts, WakeDetected);
      var waitingEvents := Get(eventCounts, Waiting);
      var successRate := None;
      if waitingEvents > 0 {
        successRate := Some(wakeDetected as real / waitingEvents as real * 100.0);
      }
      GenerateRecommendations(eventCounts, stats);
      a := Some(Analysis(eventCounts, successRate));
    }

    /** `_generate_recommendations`: the list is reset, then filled. */
    method GenerateRecommendations(eventCounts: map<EventType, nat>, stats: Option<SpeechRecognition.WakeStats>)
      modifies this
      ensures monitoring == old(monitoring) && performanceData == old(performanceData)
      ensures recommendations == Recommendations(eventCounts, stats)
    {
      recommendations := [];
      var errors := Get(eventCounts, Error);
      var totalEvents := Total(eventCounts);
      if totalEvents > 0 {
        var errorRate := errors as real / totalEvents as real;
        if errorRate > 0.1 {
          recommendations := recommendations + [ErrorAdvice];
        }
      }
      assert recommendations == ErrorPart(eventCounts);
      var timeouts := Get(eventCounts, Timeout);
      if timeouts > 5 {
        recommendations := recommendations + [TimeoutAdvice];
      }
      assert recommendations == ErrorPart(eventCounts) + TimeoutPart(eventCounts);
      var detectionRate := if stats.Some? then stats.value.detectionRate else 0.0;
      if detectionRate < 0.7 {
        recommendations := recommendations + [DetectionAdvice];
      }
      assert recommendations == ErrorPart(eventCounts) + TimeoutPart(eventCounts) + DetectionPart(stats);
      var currentThreshold := if stats.Some? then stats.value.currentThreshold else 0.0;
      if currentThreshold > 400.0 {
        recommendations := recommendations + [HighThresholdAdvice];
      } else if currentThreshold < 200.0 {
        recommendations := recommendations + [LowThresholdAdvice];
      }
    }
  }

  /** The counting loop of `_analyze_performance`: a kind is a key exactly
      when it occurs, with its number of occurrences. */
  method CountEvents(data: seq<Entry>) returns (counts: map<EventType, nat>)
    ensures forall t :: t in counts <==> CountOf(data, t) > 0
    ensures forall t :: Get(counts, t) == CountOf(data, t)
  {
    counts := map[];
    for i := 0 to |data|
      invariant forall t :: t in counts <==> CountOf(data[..i], t) > 0
      invariant forall t :: Get(counts, t) == CountOf(data[..i], t)
    {
      var eventType := data[i].kind;
      assert data[..i + 1][..i] == data[..i];
      counts := counts[eventType := Get(counts, eventType) + 1];
    }
    assert data[..|data|] == data;
  }
}
