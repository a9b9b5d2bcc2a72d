/** The constants of src/config.py that the voice-control logic reads:
    the wake-word configuration, the device command table and the action
    keywords. Python dicts keep insertion order, so the tables are sequences. */
module Config {

  // WAKE_WORD_CONFIG (src/config.py:41-62), the entries the recognizer reads
  const WakeEnabled: bool := true
  const WakeKeywords: seq<string> := ["小智", "智能助手", "你好小智"]
  const WakeTimeout: int := 5
  const WakePhraseTimeout: int := 2
  const CommandTimeout: int := 10
  const EnergyThreshold: real := 300.0
  const AdaptiveThreshold: bool := true
  const FallbackDetection: bool := true

  // SPEECH_CONFIG (src/config.py:34-38): the plain listening timeouts
  const SpeechTimeout: int := 1
  const SpeechPhraseTimeout: int := 1

  /** One entry of DEVICE_COMMANDS. */
  datatype Device = Device(
    name: string,
    topics: seq<string>,
    onCommands: seq<string>,
    offCommands: seq<string>,
    keywords: seq<string>)

  /** DEVICE_COMMANDS (src/config.py:86-117), in dict order. */
  const DeviceCommands: seq<Device> := [
    Device("灯", ["light001", "light002"], ["on", "1"], ["off", "0"], ["灯", "灯光", "照明"]),
    Device("空调", ["aircon001"], ["on", "1"], ["off", "0"], ["空调", "制冷", "制热"]),
    Device("电视", ["tv001"], ["on", "1"], ["off", "0"], ["电视", "TV", "电视机"]),
    Device("窗帘", ["curtain001"], ["open", "1"], ["close", "0"], ["窗帘", "拉开窗帘", "关闭窗帘"]),
    Device("风扇", ["fan001"], ["on", "1"], ["off", "0"], ["风扇", "电扇"])
  ]

  /** ACTION_KEYWORDS (src/config.py:120-123), in dict order: "on" before "off". */
  const ActionKeywords: seq<(string, seq<string>)> := [
    ("on", ["打开", "开启", "启动", "开", "亮"]),
    ("off", ["关闭", "关", "熄灭", "停止", "灭"])
  ]

  /** `name in DEVICE_COMMANDS`: the position of the entry, if any. */
  function DeviceIndex(name: string): (r: int)
    ensures -1 <= r < |DeviceCommands|
    ensures r >= 0 ==> DeviceCommands[r].name == name
    ensures r == -1 ==> forall i :: 0 <= i < |DeviceCommands| ==> DeviceCommands[i].name != name
  {
    if name == "灯" then 0
    else if name == "空调" then 1
    else if name == "电视" then 2
    else if name == "窗帘" then 3
    else if name == "风扇" then 4
    else -1
  }
}
