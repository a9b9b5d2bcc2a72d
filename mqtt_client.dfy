/** The MQTT side of src/mqtt_client.py: configuration checks, the client's
    connected flag and message log, and `control_device`'s choice of topic and
    payload. The broker connection itself is replaced by the callbacks' and
    the publish call's outcomes. */
module Mqtt {
  import opened Strings
  import Config

  /** MQTT_CONFIG; a key absent from the dict is None. */
  datatype MqttConfig = MqttConfig(
    clientId: Option<string>,
    broker: Option<string>,
    port: Option<int>,
    usePrivateKey: Option<bool>,
    username: Option<string>,
    password: Option<string>)

  const Placeholder: string := "your_"

  /** `MQTT_CONFIG.get('use_private_key', True) == False`. */
  predicate TraditionalLogin(cfg: MqttConfig) {
    !cfg.usePrivateKey.GetOr(true)
  }

  /** `_validate_config`. */
  predicate ValidateConfig(cfg: MqttConfig) {
    cfg.clientId.Some? && cfg.broker.Some? && cfg.port.Some? &&
    !StartsWith(cfg.clientId.value, Placeholder) &&
    !(TraditionalLogin(cfg) &&
      (StartsWith(cfg.username.GetOr(""), Placeholder) || StartsWith(cfg.password.GetOr(""), Placeholder)))
  }

  /** The three ways `_validate_config` rejects a configuration, and nothing else. */
  lemma ValidateConfigCases(cfg: MqttConfig)
    ensures !ValidateConfig(cfg) <==>
      (cfg.clientId.None? || cfg.broker.None? || cfg.port.None?) ||
      StartsWith(cfg.clientId.value, "your_") ||
      (cfg.usePrivateKey == Some(false) &&
       (StartsWith(cfg.username.GetOr(""), "your_") || StartsWith(cfg.password.GetOr(""), "your_")))
  {
  }

  /** A credential that counts as set: non-empty and not a placeholder. */
  predicate RealCredential(s: string) {
    s != "" && !StartsWith(s, Placeholder)
  }

  /** `_should_use_credentials`. */
  function ShouldUseCredentials(cfg: MqttConfig): (b: bool)
    ensures b <==> (cfg.usePrivateKey == Some(false) ||
                    (RealCredential(cfg.username.GetOr("")) && RealCredential(cfg.password.GetOr(""))))
  {
    if TraditionalLogin(cfg) then true
    else
      var username := cfg.username.GetOr("");
      var password := cfg.password.GetOr("");
      username != "" && !StartsWith(username, Placeholder) && password != "" && !StartsWith(password, Placeholder)
  }

  datatype Direction = Sent | Received

  /** One entry of `message_log` (the timestamp is not modelled). */
  datatype LogEntry = LogEntry(topic: string, payload: string, direction: Direction)

  /** What `client.publish` does: return a result with code `rc`, or raise. */
  datatype PublishOutcome = Rc(code: int) | Raised

  /** The object of class MQTTClient. */
  class Client {
    /** Whether `username_pw_set` was called at construction. */
    const credentialsSet: bool
    var isConnected: bool
    var messageLog: seq<LogEntry>

    constructor (credentials: bool)
      ensures credentialsSet == credentials && !isConnected && messageLog == []
    {
      credentialsSet := credentials;
      isConnected := false;
      messageLog := [];
    }

    /** `MQTTClient(...)`: a configuration that fails validation raises
        ValueError (here: null); otherwise the client starts disconnected with
        an empty log, and `username_pw_set` is called exactly when
        `_should_use_credentials` answers False. */
    static method Create(cfg: MqttConfig) returns (c: Client?)
      ensures c == null <==> !ValidateConfig(cfg)
      ensures c != null ==> (fresh(c) && !c.isConnected && c.messageLog == [] &&
                             c.credentialsSet == !ShouldUseCredentials(cfg))
    {
      if !ValidateConfig(cfg) {
        return null;
      }
      c := new Client(!ShouldUseCredentials(cfg));
    }

    /** `on_connect`: connected exactly when the return code is 0. */
    method OnConnect(rc: int)
      modifies this`isConnected
      ensures isConnected <==> rc == 0
    {
      isConnected := rc == 0;
    }

    /** `on_disconnect`. */
    method OnDisconnect()
      modifies this`isConnected
      ensures !isConnected
    {
      isConnected := false;
    }

    /** `on_message`: a payload that decodes as UTF-8 (Some) is logged as
        received; a decoding error is caught and nothing is logged. */
    method OnMessage(topic: string, payload: Option<string>)
      modifies this`messageLog
      ensures payload.Some? ==> messageLog == old(messageLog) + [LogEntry(topic, payload.value, Received)]
      ensures payload.None? ==> messageLog == old(messageLog)
    {
      if payload.Some? {
        messageLog := messageLog + [LogEntry(topic, payload.value, Received)];
      }
    }

    /** `publish_message`: refused while disconnected; otherwise one `sent`
        entry is logged whatever the return code, and the answer is `rc == 0`.
        A publish that raises logs nothing and answers False. */
    method PublishMessage(topic: string, message: string, outcome: PublishOutcome) returns (ok: bool)
      modifies this`messageLog
      ensures ok <==> isConnected && outcome == Rc(0)
      ensures isConnected && outcome.Rc? ==> messageLog == old(messageLog) + [LogEntry(topic, message, Sent)]
      ensures !isConnected || outcome.Raised? ==> messageLog == old(messageLog)
    {
      if !isConnected {
        return false;
      }
      match outcome
      case Raised =>
        return false;
      case Rc(code) =>
        messageLog := messageLog + [LogEntry(topic, message, Sent)];
        ok := code == 0;
    }

    /** `get_message_log`: a copy of the log; a Dafny sequence is a value, so
        changing the copy cannot change the log. */
    method GetMessageLog() returns (log: seq<LogEntry>)
      ensures log == messageLog
    {
      log := messageLog;
    }

    /** `clear_message_log`. */
    method ClearMessageLog()
      modifies this`messageLog
      ensures messageLog == []
    {
      messageLog := [];
    }
  }

  /** The Chinese-to-English name table of `control_device`. */
  function EnglishName(device: string): string {
    if device == "灯" then "light"
    else if device == "空调" then "aircon"
    else if device == "电视" then "tv"
    else if device == "窗帘" then "curtain"
    else if device == "风扇" then "fan"
    else device
  }

  /** The fallback `topic_map`: the room's topic when the room is listed for
      the device, else the device's default topic; None for an unknown device. */
  function FallbackTopic(english: string, room: Option<string>): (t: Option<string>)
    ensures t.Some? <==> english in {"light", "aircon", "tv", "curtain", "fan"}
    ensures english == "light" && room == Some("bedroom") ==> t == Some("light002")
    ensures english == "light" && room != Some("bedroom") ==> t == Some("light001")
  {
    if english == "light" then
      (if Truthy(room) && room.value == "living_room" then Some("light001")
       else if Truthy(room) && room.value == "bedroom" then Some("light002")
       else Some("light001"))
    else if english == "aircon" then Some("aircon001")
    else if english == "tv" then Some("tv001")
    else if english == "curtain" then Some("curtain001")
    else if english == "fan" then Some("fan001")
    else None
  }

  /** The (topic, payload) `control_device` publishes, or None when it
      answers False without publishing. */
  function ControlDecision(deviceType: string, action: string, room: Option<string>): (r: Option<(string, string)>)
    ensures Config.DeviceIndex(deviceType) >= 0 && action != "on" && action != "off" ==> r.None?
    ensures Config.DeviceIndex(deviceType) >= 0 && (action == "on" || action == "off") ==>
      var entry := Config.DeviceCommands[Config.DeviceIndex(deviceType)];
      r == Some((entry.topics[0], if action == "on" then entry.onCommands[0] else entry.offCommands[0]))
    ensures Config.DeviceIndex(deviceType) < 0 ==>
      (r.Some? <==> FallbackTopic(deviceType, room).Some?) &&
      (r.Some? ==> r.value.0 == FallbackTopic(deviceType, room).value && (r.value.1 == "1" <==> action == "on") &&
                   (r.value.1 == "0" <==> action != "on"))
  {
    var english := EnglishName(deviceType);
    var i := Config.DeviceIndex(deviceType);
    if i >= 0 && action != "on" && action != "off" then None
    else if i >= 0 && |Config.DeviceCommands[i].topics| > 0 &&
            |(if action == "on" then Config.DeviceCommands[i].onCommands else Config.DeviceCommands[i].offCommands)| > 0 then
      var commands := if action == "on" then Config.DeviceCommands[i].onCommands else Config.DeviceCommands[i].offCommands;
      Some((Config.DeviceCommands[i].topics[0], commands[0]))
    else
      match FallbackTopic(english, room)
      case None => None
      case Some(topic) => Some((topic, if action == "on" then "1" else "0"))
  }

  /** `control_device`: nothing is published while disconnected or when the
      decision is None; otherwise exactly one publish of the decided pair. */
  method ControlDevice(client: Client, deviceType: string, action: string, room: Option<string>, outcome: PublishOutcome)
    returns (ok: bool)
    modifies client`messageLog
    ensures !client.isConnected || ControlDecision(deviceType, action, room).None? ==>
      !ok && client.messageLog == old(client.messageLog)
    ensures client.isConnected && ControlDecision(deviceType, action, room).Some? ==>
      var (topic, payload) := ControlDecision(deviceType, action, room).value;
      (ok <==> outcome == Rc(0)) &&
      client.messageLog == old(client.messageLog) + (if outcome.Rc? then [LogEntry(topic, payload, Sent)] else [])
  {
    if !client.isConnected {
      return false;
    }
    var decision := ControlDecision(deviceType, action, room);
    if decision.None? {
      return false;
    }
    ok := client.PublishMessage(decision.value.0, decision.value.1, outcome);
  }

  /** Each of the five configured devices, switched on and off, publishes its
      first topic with its first command: ten publishes in all. */
  lemma ConfiguredDevicesPublish()
    ensures ControlDecision("灯", "on", None) == Some(("light001", "on"))
    ensures ControlDecision("灯", "off", None) == Some(("light001", "off"))
    ensures ControlDecision("空调", "on", None) == Some(("aircon001", "on"))
    ensures ControlDecision("空调", "off", None) == Some(("aircon001", "off"))
    ensures ControlDecision("电视", "on", None) == Some(("tv001", "on"))
    ensures ControlDecision("电视", "off", None) == Some(("tv001", "off"))
    ensures ControlDecision("窗帘", "on", None) == Some(("curtain001", "open"))
    ensures ControlDecision("窗帘", "off", None) == Some(("curtain001", "close"))
    ensures ControlDecision("风扇", "on", None) == Some(("fan001", "on"))
    ensures ControlDecision("风扇", "off", None) == Some(("fan001", "off"))
  {
  }

  /** English names go through the room table; a Chinese name never does. */
  lemma EnglishNamesUseRooms()
    ensures ControlDecision("light", "on", Some("bedroom")) == Some(("light002", "1"))
    ensures ControlDecision("light", "off", Some("kitchen")) == Some(("light001", "0"))
    ensures ControlDecision("tv", "toggle", None) == Some(("tv001", "0"))
    ensures ControlDecision("灯", "toggle", None) == None
    ensures ControlDecision("heater", "on", None) == None
  {
  }
}
