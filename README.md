# SHCH-GP voice-controlled smart home, modelled in Dafny

This project models the decision logic of a voice-controlled smart home and proves properties about it. The home listens for a wake word, turns the next spoken command into an intent (device, action, room), and publishes the matching MQTT message. Alongside it sit a light on-device recognizer, dataset generators for training that recognizer, tuning tools for the wake word, and two command-line helpers that rewrite the configuration file.

The microphone, the speech services, the neural network, the MQTT broker, the clock, the console and the file system are all replaced by their outcomes, passed in as values:

- a capture is a clip, a timeout or a device error;
- each speech service's reply is a transcript or one of its failures;
- the model's prediction is a (class, confidence) pair or an exception;
- `publish` returns a code or raises;
- a file is its content, or None when it does not exist;
- a random choice is the index it picks.

One module per source file:

- `SpeechRecognition` (src/ai_speech_recognition.py). The `AISpeechRecognizer` object is a class. It keeps the detection and false-positive counters, the adaptive energy threshold, the selected engine and a log of the capture requests it makes. Wake-word matching, threshold adaptation, statistics, the wake-then-command cycle and the Baidu/Whisper/Google fallback chain are proved against specification functions.
- `ModelIntegration` (src/train/model_integration.py). Covers the light engine's mapping from prediction to command text, its load and availability flags, and the strategy router of the enhanced recognizer. The router also records which backends it called, in order.
- `IntentRecognition` (src/intent_recognition.py). Covers keyword matching for device, action and room, the confidence score, topic and command lookup, and the description text.
- `Mqtt` (src/mqtt_client.py). The client's connected flag and message log form a class. Config validation, the credential decision and `control_device`'s choice of topic and payload are functions.
- `VocabTable` and `Vocab` (src/train/model.py). `VocabTable` is the token table of `SmartHomeVocab`. `Vocab` is its character-level `encode`/`decode` and the round trip between them.
- `EnhancedGenerator` (src/train/enhanced_generator.py). Covers template expansion, deduplication, category lookup, the sample cap, sample numbering, category counts and the train/validation split.
- `DatasetGenerator` (src/train/dataset_generator.py). Covers command variations, dense label numbering and the samples' token ids.
- `WakeWordOptimizer` (wake_word_optimizer.py). Covers the configuration grid, the score, the rates of one test, best-score tracking and the exported summary.
- `WakeWordTuning` (wake_word_tuning.py). Covers message classification, recording while monitoring, event counting and the recommendation rules.
- `AiConfigWizard` (ai_config_wizard.py). Covers input checks and the brace-matching splice of the `AI_SPEECH_CONFIG` block.
- `ConfigHelper` (config_helper.py). Covers login input checks and the line rewrite of the `MQTT_CONFIG` block.
- `Config` (src/config.py). Holds the constants these modules read.
- `Strings`. Python's string operations as the model uses them: substring search, `find`, ASCII `lower`, `strip`, `replace`, `split`/`join`, and slice ends.

## Behaviour as written

The model follows the code, including where it departs from what its comments and design describe:

- Threshold overshoot. `_adaptive_threshold_adjustment` tests the bound before it multiplies, so one step can cross the 200 floor or the 500 ceiling. For example, 210 becomes 199.5 (`SpeechRecognition.AdjustExamples`). The threshold is only kept inside [190, 525].
- `fallback_detection` is never read. On a network error, wake detection calls a method that does not exist, so the outer handler answers False (src/ai_speech_recognition.py:341-350).
- `reset_wake_word_stats` restores the configured threshold but does not pass it on to the microphone's `energy_threshold`.
- Whisper never loads. The `whisper` import is commented out, so choosing Whisper always falls back to Google at start-up.
- The hybrid strategy's keyword list is fixed in the code (src/train/model_integration.py:318); it is not read from the configuration.
- The MQTT constructor calls `username_pw_set` when `_should_use_credentials` answers False, which is the opposite of what the method's name suggests.
- The vocabulary's dict literal lists '关闭' twice, and the later id 3 wins. The id 1 used by the built-in command patterns therefore decodes to "<UNK>".
- `list(set(...))` has no defined order. `Dedup` keeps first occurrences, and the generated dataset takes the command list as given. Its contract speaks only of membership and the absence of duplicates.
- `str.format` on a template with one named field is modelled as replacing that placeholder.

## Model

| member | source | states |
|---|---|---|
| SpeechRecognition.InitialEngine | src/ai_speech_recognition.py:82-115 | 'baidu' survives exactly when all three Baidu credentials are set; the engine is never left at 'whisper' (the model load always fails); any other configured engine is kept |
| SpeechRecognition.GoogleText | src/ai_speech_recognition.py:280-286 | a transcript exactly for a successful Google reply, and it is that reply's text; every error gives None |
| SpeechRecognition.BaiduText | src/ai_speech_recognition.py:204-258 | with a token and `err_no` 0 the answer is the first item of `result`, "" when the key is missing; a missing token, a raised request, a non-zero `err_no` or an empty `result` list all fall back to Google; None only when Google fails too |
| SpeechRecognition.WhisperTextOf | src/ai_speech_recognition.py:260-278 | an exception falls back to Google; a transcript is returned stripped |
| SpeechRecognition.RecognizeWithAi | src/ai_speech_recognition.py:194-202 | a 'baidu' engine with its keys answers as BaiduText, a 'whisper' engine with a loaded model as WhisperTextOf, and anything else as Google; None only when Google gave no transcript |
| SpeechRecognition.NonBlank | src/ai_speech_recognition.py:140-145 | keeps the text exactly when it is present and not all whitespace, unchanged |
| SpeechRecognition.CapturedText | src/ai_speech_recognition.py:123-192 | a returned text comes from a captured clip, is not blank and is what the engine recognised; a clip with a non-blank recognition is returned |
| SpeechRecognition.AdjustKeepsBand | src/ai_speech_recognition.py:374-393 | one threshold step stays in [190, 525]; a detection never raises the threshold and a false positive never lowers it |
| SpeechRecognition.AdjustAllKeepsBand | src/ai_speech_recognition.py:374-393 | any sequence of steps keeps the threshold in [190, 525] |
| SpeechRecognition.AdjustExamples | src/ai_speech_recognition.py:380-391 | 300 goes to 285 or 315; the bound is tested before multiplying, so 210 drops to 199.5 and 490 rises to 514.5 |
| SpeechRecognition.DetectionRate | src/ai_speech_recognition.py:409-416 | the rate lies in [0, 1], is 0 with no events, and times the event count gives the detections |
| SpeechRecognition.FirstWakeWordFrom | src/ai_speech_recognition.py:352-372 | the index returned is a keyword found in the lower-cased text with no earlier one found; None means none is found |
| SpeechRecognition.FirstWakeWord | src/ai_speech_recognition.py:352-372 | the first keyword, in configured order, that the text contains; None exactly when none does |
| SpeechRecognition.TranscriptOutcome | src/ai_speech_recognition.py:352-372 | a hit exactly when some keyword matches; neutral exactly when nothing matches and the text is empty; otherwise a false positive |
| SpeechRecognition.WakeCycleOutcome | src/ai_speech_recognition.py:319-350 | only a captured clip with a non-empty Google transcript can count either way, and then it counts as its transcript does |
| SpeechRecognition.Recognizer.constructor | src/ai_speech_recognition.py:18-80 | the wake settings and threshold come from the configuration, counters start at 0, the engine is `InitialEngine` and no capture has happened |
| SpeechRecognition.Recognizer.AdaptiveThresholdAdjustment | src/ai_speech_recognition.py:374-393 | with adaptation on, the threshold takes one `AdjustThreshold` step and is pushed to the recogniser; otherwise nothing changes |
| SpeechRecognition.Recognizer.CheckWakeWordMatch | src/ai_speech_recognition.py:352-372 | matched exactly when some keyword is found, naming the first; the counters record a hit, a false positive or nothing |
| SpeechRecognition.Recognizer.DetectWakeWord | src/ai_speech_recognition.py:319-350 | one capture with the wake timeouts is requested; detected exactly when the cycle's outcome is a hit, which is recorded |
| SpeechRecognition.Recognizer.CaptureAndRecognize | src/ai_speech_recognition.py:123-192 | the request is logged and the result is `CapturedText` of the capture |
| SpeechRecognition.Recognizer.ListenContinuous | src/ai_speech_recognition.py:123-159 | one capture with the SPEECH_CONFIG timeouts, and its captured text |
| SpeechRecognition.Recognizer.RecognizeOnce | src/ai_speech_recognition.py:161-192 | one capture with the given timeout and a 5-second phrase limit, and its captured text |
| SpeechRecognition.Recognizer.ListenForCommand | src/ai_speech_recognition.py:424-453 | one capture with the command timeout and an 8-second phrase limit, and its captured text |
| SpeechRecognition.Recognizer.ListenWithWakeWord | src/ai_speech_recognition.py:298-317 | without wake-gating it is one plain capture; with it the command is captured only after a detected wake word, and otherwise the result is None |
| SpeechRecognition.Recognizer.GetWakeWordStats | src/ai_speech_recognition.py:409-416 | reports the counters and the current threshold, with a rate in [0, 1] that times the event count gives the detections |
| SpeechRecognition.Recognizer.ResetWakeWordStats | src/ai_speech_recognition.py:418-422 | the counters are zero and the threshold is the configured one again; the recogniser's own threshold is not touched |
| SpeechRecognition.WakeMatchExamples | src/ai_speech_recognition.py:352-372 | with the shipped keywords, "你好小智帮我开灯" matches the first keyword, "打开电视" is a false positive and "" is neutral |
| Config.DeviceIndex | src/config.py:86-117 | the position of the device table entry with that name, and -1 exactly when no entry has it |
| IntentRecognition.Matching | src/intent_recognition.py:51-61 | the list of matching pattern names is empty exactly when no pattern matches, and never longer than the pattern table |
| IntentRecognition.MatchingHead | src/intent_recognition.py:66-69 | the first name of the match list belongs to the first pattern, in table order, that matches the text |
| IntentRecognition.MatchAll | src/intent_recognition.py:51-61 | the pattern-by-pattern loop collects exactly the names `Matching` describes |
| IntentRecognition.CalculateConfidence | src/intent_recognition.py:91-107 | the confidence is 0.5, plus 0.3 when device and action matched, 0.1 for a room and 0.1 for a text of 3 to 20 characters; the cap at 1.0 never takes effect, so it lies in [0.5, 1.0] and is 1.0 exactly when all three bonuses apply |
| IntentRecognition.RoomFrom | src/intent_recognition.py:75-89 | a reported room is the first room from position i whose keyword occurs in the text; None means no room from there on has a keyword in the text |
| IntentRecognition.RoomOf | src/intent_recognition.py:75-89 | the reported room is the first room of the table with a keyword in the text; None exactly when no room keyword occurs |
| IntentRecognition.RecognizeRoom | src/intent_recognition.py:75-89 | the room-by-room, keyword-by-keyword scan returns `RoomOf` of the text |
| IntentRecognition.IntentOf | src/intent_recognition.py:32-73 | a device is reported exactly when an action is, and exactly when some device pattern and some action pattern both match; both are then the first matches, the room is `RoomOf` and the confidence is 0.8 plus 0.1 for a found room plus 0.1 for a text of 3 to 20 characters; otherwise room is None and confidence 0 |
| IntentRecognition.RecognizeIntent | src/intent_recognition.py:32-73 | the recognised intent is `IntentOf` of the text |
| IntentRecognition.GetDeviceCommand | src/intent_recognition.py:109-131 | a topic is returned exactly when a command is, exactly for a configured device with action on or off; they are the first topic and the first on- or off-command of that device |
| IntentRecognition.GenerateDescription | src/intent_recognition.py:153-166 | the failure text when device or action is missing; otherwise the action word, the room followed by 的 when there is one, and the device |
| IntentRecognition.DescriptionShape | src/intent_recognition.py:153-166 | a valid intent's description starts with its action word, ends with its device name and is never the failure text |
| IntentRecognition.MatchedDeviceHasCommands | src/intent_recognition.py:15-30 | every device the matcher can report, with any action it can report, has a topic and a command in the device table |
| IntentRecognition.AnalyzeSpeechText | src/intent_recognition.py:133-151 | the result is valid exactly when a device and action were recognised; a valid result carries a topic and a command from `GetDeviceCommand`, an invalid one carries none and the failure text |
| Mqtt.ValidateConfigCases | src/mqtt_client.py:35-58 | validation fails exactly when client id, broker or port is missing, the client id is a `your_` placeholder, or traditional login uses a placeholder user name or password |
| Mqtt.ShouldUseCredentials | src/mqtt_client.py:60-75 | true exactly under traditional login, or when user name and password are both non-empty and not placeholders |
| Mqtt.Client.constructor | src/mqtt_client.py:12-33 | a new client is disconnected with an empty message log |
| Mqtt.Client.Create | src/mqtt_client.py:12-33 | construction fails exactly when validation fails; a new client is disconnected with an empty log, and `username_pw_set` is called exactly when `_should_use_credentials` answers False |
| Mqtt.Client.OnConnect | src/mqtt_client.py:77-88 | connected exactly when the return code is 0 |
| Mqtt.Client.OnDisconnect | src/mqtt_client.py:114-117 | the client is disconnected |
| Mqtt.Client.OnMessage | src/mqtt_client.py:90-112 | a payload that decodes is appended to the log as received; a decoding failure leaves the log unchanged |
| Mqtt.Client.PublishMessage | src/mqtt_client.py:135-163 | success exactly when connected and the return code is 0; a publish that returns any code logs one sent entry; a disconnected client or a raised publish logs nothing |
| Mqtt.Client.GetMessageLog | src/mqtt_client.py:165-167 | returns the whole log |
| Mqtt.Client.ClearMessageLog | src/mqtt_client.py:169-171 | the log is empty afterwards |
| Mqtt.FallbackTopic | src/mqtt_client.py:224-241 | a fallback topic exists exactly for the five English device names; a light in the bedroom goes to light002, any other light to light001 |
| Mqtt.ControlDecision | src/mqtt_client.py:174-245 | a configured device with an action other than on/off publishes nothing; with on/off it publishes its first topic with its first on- or off-command; an unconfigured name publishes on the fallback topic when there is one, with payload "1" exactly for "on" and "0" otherwise |
| Mqtt.ControlDevice | src/mqtt_client.py:174-245 | nothing is published or logged while disconnected or when no topic is decided; otherwise exactly the decided publish happens, and success means return code 0 |
| Mqtt.ConfiguredDevicesPublish | src/mqtt_client.py:174-222 | each of the five configured devices, switched on and off, publishes its own first topic and command |
| Mqtt.EnglishNamesUseRooms | src/mqtt_client.py:188-245 | English names take the room topic table and a 1/0 payload; a Chinese name with an unknown action and an unknown device publish nothing |
| VocabTable.Invert | src/train/model.py:242 | for a table with distinct ids the inverse maps every id back to its key and holds nothing else |
| VocabTable.IdToToken | src/train/model.py:242 | `id_to_token` of the shipped table: every key's id maps back to the key, and every id in it belongs to a key |
| VocabTable.JoinTables | src/train/model.py:217-240 | two groups of the table with disjoint keys and separated id ranges join into one with distinct ids and as many keys as both |
| VocabTable.CommandsWellFormed | src/train/model.py:217-243 | the shipped table has distinct ids, all in [0, 399], and 43 keys (`vocab_size`), the repeated '关闭' counted once |
| VocabTable.CommandsFacts | src/train/model.py:216-242 | '关闭' keeps its later id 3, `<UNK>` is 301 and no key has id 1 |
| VocabTable.ClosingRebound | src/train/model.py:219 | the second '关闭' entry of the dict literal wins |
| VocabTable.NoIdOne | src/train/model.py:216-242 | id 1 has no token once '关闭' is rebound |
| VocabTable.CharKeys | src/train/model.py:217-240 | 打 and 开 are not keys; 灯 is a key with id 10 |
| Vocab.CharId | src/train/model.py:260-263 | a character that is a key gives its id, any other gives `<UNK>`'s id |
| Vocab.EncodeText | src/train/model.py:256-264 | one id per character, in order, each the id `CharId` gives |
| Vocab.IdText | src/train/model.py:270-273 | a known id gives its token, an unknown id gives "<UNK>" |
| Vocab.DecodeAppend | src/train/model.py:266-274 | decoding distributes over concatenation of id lists |
| Vocab.DecodeEncode | src/train/model.py:256-274 | decode(encode(s)) == s whenever every character of s is a key of a table with distinct ids |
| Vocab.UnknownCharDecodesToUnk | src/train/model.py:256-274 | a character that is not a key comes back from the round trip as the five characters "<UNK>" |
| Vocab.EncodeNeverMultiChar | src/train/model.py:256-264 | the id of a key longer than one character (such as 打开) never appears in an encoding |
| Vocab.LampRoundTrip | src/train/model.py:256-274 | in any table where 开 is unknown and 灯 known, 开灯 round-trips to "<UNK>灯" |
| Vocab.RoundTripLosses | src/train/model.py:216-274 | with the shipped table 打 round-trips to "<UNK>" and 开灯 to "<UNK>灯" |
| Vocab.ClosingIdLost | src/train/model.py:216-254 | the id 1 that the built-in command patterns use for '关闭' decodes to "<UNK>" |
| Vocab.SmartHomeVocab.constructor | src/train/model.py:216-243 | the object holds the shipped table and its inverse, `vocab_size` is 43, and the table is well formed |
| Vocab.SmartHomeVocab.Encode | src/train/model.py:256-264 | the character loop returns `EncodeText` of the text |
| Vocab.SmartHomeVocab.Decode | src/train/model.py:266-274 | the id loop returns `DecodeIds` of the ids |
| ModelIntegration.CommandText | src/train/model_integration.py:50-77 | the command text of each class 0..49 is non-empty (at least two characters) |
| ModelIntegration.CommandTexts | src/train/model_integration.py:50-77 | the fifty values of the mapping, the text of class c at position c |
| ModelIntegration.MapPrediction | src/train/model_integration.py:134-181 | a text exactly when the prediction did not raise, its class is a key 0..49 and its confidence exceeds 0.02; the text is that class's mapping entry |
| ModelIntegration.EngineRecognize | src/train/model_integration.py:107-149 | nothing without an inference object; otherwise the mapped prediction |
| ModelIntegration.EngineRecognizeFile | src/train/model_integration.py:151-185 | a text exactly when there is an inference object, the file exists and the prediction maps; it is then what `recognize` would give |
| ModelIntegration.LightAsrEngine.constructor | src/train/model_integration.py:29-105 | an inference object exists exactly when loading does not raise; `is_loaded` exactly when loading succeeds from an existing given path or the default model file |
| ModelIntegration.LightAsrEngine.LoadModel | src/train/model_integration.py:82-105 | as the constructor: without a model file an untrained model is built and `is_loaded` stays False; an exception leaves no inference object |
| ModelIntegration.LightAsrEngine.Recognize | src/train/model_integration.py:107-149 | the answer is `EngineRecognize` of the inference flag and the prediction |
| ModelIntegration.LightAsrEngine.RecognizeFile | src/train/model_integration.py:151-185 | the answer is `EngineRecognizeFile` of the inference flag, the file's existence and the prediction |
| ModelIntegration.LightAsrEngine.IsAvailable | src/train/model_integration.py:187-189 | available exactly when the inference object exists |
| ModelIntegration.LightAsrEngine.GetModelInfo | src/train/model_integration.py:191-201 | `not_loaded` exactly without inference; otherwise `loaded` or `default` by `is_loaded`, with the model path and the fifty commands |
| ModelIntegration.LightPath | src/train/model_integration.py:247-263 | nothing, and no engine call, when the engine is absent or unavailable; a result exactly when the engine's answer is non-empty, and it is that answer |
| ModelIntegration.StandardPath | src/train/model_integration.py:265-278 | the base recognizer's answer exactly when it is non-empty |
| ModelIntegration.StrategyOf | src/train/model_integration.py:238 | the configured strategy, or `hybrid` when none is configured |
| ModelIntegration.Route | src/train/model_integration.py:280-333 | one or two distinct backends are invoked; a result is always the answer of an invoked backend, and None means no invoked backend answered; `light_only`/`standard_only` (and any unknown strategy) call one backend and return its answer; `light_first` never calls standard after a truthy light answer, `standard_first` mirrors it; `hybrid` stops at a light answer with a smart-home keyword, else returns standard's truthy answer or the light answer |
| ModelIntegration.HybridKeywordExamples | src/train/model_integration.py:312-321 | 打开灯 and 关闭空调 take the hybrid fast path; 播放音乐 and 静音 do not |
| ModelIntegration.EnhancedRecognizer.constructor | src/train/model_integration.py:209-239 | a light engine exists exactly when asked for, built with the default path; the strategy is the configured one or `hybrid` |
| ModelIntegration.EnhancedRecognizer.RecognizeWithStrategy | src/train/model_integration.py:280-333 | the answer and the backends invoked, in order, are those `Route` gives for the light and standard paths |
| ModelIntegration.EnhancedRecognizer.RecognizeWithLightAsr | src/train/model_integration.py:247-263 | the answer is `LightPath` of the engine's presence, availability and prediction |
| ModelIntegration.EnhancedRecognizer.RecognizeWithStandardAsr | src/train/model_integration.py:265-278 | the answer is `StandardPath` of the base recognizer's `_recognize_with_ai` |
| EnhancedGenerator.Placeholder | src/train/enhanced_generator.py:131 | the placeholder of a key is the key in braces, two characters longer and never empty |
| EnhancedGenerator.FirstParamFrom | src/train/enhanced_generator.py:129-135 | the first replacement key from position i, in table order, whose placeholder occurs in the command; None when no later key's placeholder occurs |
| EnhancedGenerator.Substitutions | src/train/enhanced_generator.py:133-134 | one command per value, in order, each with every occurrence of the placeholder replaced by that value |
| EnhancedGenerator.Expand | src/train/enhanced_generator.py:124-139 | the command alone when none of the six parameter placeholders occurs (or no table key's does); otherwise one command per value of the first key present, that placeholder replaced |
| EnhancedGenerator.Dedup | src/train/enhanced_generator.py:122 | the same members as the list, each exactly once |
| EnhancedGenerator.EveryRoomCovered | src/train/enhanced_generator.py:109-122 | for every `{room}` template and every room, every command expanded from the template with that room is among the generated commands |
| EnhancedGenerator.PlainTemplateCovered | src/train/enhanced_generator.py:109-122 | a template without placeholders is itself among the generated commands |
| EnhancedGenerator.FirstCategoryFrom | src/train/enhanced_generator.py:291-299 | the first category from position i whose templates match the command, with no earlier matching one; None when no later category matches |
| EnhancedGenerator.AnyTemplateMatches | src/train/enhanced_generator.py:293-298 | the template loop answers true exactly when some template of the category matches the command |
| EnhancedGenerator.CategoryOf | src/train/enhanced_generator.py:291-299 | the name of the first category, in table order, with a template whose stripped words longer than one character all occur in the command; 其他 when no category matches |
| EnhancedGenerator.Truncate | src/train/enhanced_generator.py:341 | Python's `int()` of a real: the floor for non-negative values, rounding toward zero for negative ones |
| EnhancedGenerator.TrainSize | src/train/enhanced_generator.py:341-342 | the training slice of n samples never holds more than n |
| EnhancedGenerator.SamplesPerCommand | src/train/enhanced_generator.py:214-215 | undefined (a division by zero) exactly with no commands and a negative maximum; uncapped counts are kept; a capped count is at least 1 and, when the maximum allows one sample per command, keeps the total within the maximum |
| EnhancedGenerator.CommandSuccesses | src/train/enhanced_generator.py:235-270 | at most one text per attempt, all of them the command's text |
| EnhancedGenerator.Successes | src/train/enhanced_generator.py:231-270 | at most commands × per-command successful attempts |
| EnhancedGenerator.TargetPrefix | src/train/enhanced_generator.py:231-270 | what is recorded part way through a command is a prefix of all the successful attempts |
| EnhancedGenerator.AttemptRecorded | src/train/enhanced_generator.py:244-262 | a successful attempt of a command is the next text of the successful attempts, after those of the earlier attempts |
| EnhancedGenerator.SuccessesWithoutFailures | src/train/enhanced_generator.py:231-262 | without failures every attempt yields a sample: commands × per-command of them |
| EnhancedGenerator.Occurrences | src/train/enhanced_generator.py:272-276 | the number of samples of a category never exceeds the number of samples |
| EnhancedGenerator.TotalIncrement | src/train/enhanced_generator.py:276 | incrementing one category's count increments the total by one |
| EnhancedGenerator.CountsExtend | src/train/enhanced_generator.py:272-276 | counting one more sample keeps the counts exact: distinct positive entries in order of first appearance, each with its number of samples, every sample's category present |
| EnhancedGenerator.FirstAppearancesMembers | src/train/enhanced_generator.py:272-276 | the dict's key order lists exactly the categories that occur, each once |
| EnhancedGenerator.FirstAppearancesOrder | src/train/enhanced_generator.py:272-276 | a key listed earlier occurs in the samples before any sample of a key listed later |
| EnhancedGenerator.EnhancedDatasetGenerator.constructor | src/train/enhanced_generator.py:35-107 | the generator holds the eight categories, the eight rooms and the six replacement lists |
| EnhancedGenerator.EnhancedDatasetGenerator.ReplaceOtherParams | src/train/enhanced_generator.py:124-139 | the loop returns `Expand` of the command |
| EnhancedGenerator.EnhancedDatasetGenerator.GenerateAllCommands | src/train/enhanced_generator.py:109-122 | the nested loops return the deduplicated expansions of every template of every category, room by room |
| EnhancedGenerator.EnhancedDatasetGenerator.ExpandTemplates | src/train/enhanced_generator.py:112-120 | the commands of a category's templates, in order |
| EnhancedGenerator.EnhancedDatasetGenerator.ExpandTemplate | src/train/enhanced_generator.py:113-120 | a `{room}` template expanded room by room, any other template expanded alone |
| EnhancedGenerator.EnhancedDatasetGenerator.GetCommandCategory | src/train/enhanced_generator.py:291-299 | the loops return `CategoryOf` of the command |
| EnhancedGenerator.EnhancedDatasetGenerator.GenerateEnhancedDataset | src/train/enhanced_generator.py:203-288 | fails only where the cap divides by zero; otherwise the samples are the first min(max, successes) successful attempts, numbered from 0 with their categories; the category counts hold exactly the categories present, in order of first appearance, each with its positive number of samples, and sum to `total_samples`, which is the number of samples |
| EnhancedGenerator.EnhancedDatasetGenerator.SampleCommand | src/train/enhanced_generator.py:235-270 | one command's attempts are recorded in order and numbered on until the command is done or the maximum is reached, never beyond it |
| EnhancedGenerator.EnhancedDatasetGenerator.CountCategories | src/train/enhanced_generator.py:272-276 | one entry per category present, in order of first appearance, each holding its positive number of samples; the counts sum to the number of samples |
| EnhancedGenerator.EnhancedDatasetGenerator.CreateTrainingSplits | src/train/enhanced_generator.py:327-362 | nothing without the information file; otherwise train followed by validation is the shuffled list, train has `int(n * ratio)` samples as a slice end, and the two counts sum to n |
| EnhancedGenerator.SplitSizeInRange | src/train/enhanced_generator.py:341 | for a ratio in [0, 1] the training set has floor(n × ratio) samples |
| EnhancedGenerator.ProductWithin | src/train/enhanced_generator.py:341 | n × ratio lies in [0, n] for a ratio in [0, 1] |
| EnhancedGenerator.CappedSampleCount | src/train/enhanced_generator.py:214-237 | without failures there are exactly commands × adjusted-per attempts to record; with `max_total` at least the number of commands they all fit under it; below that the adjusted count is 1 and overshoots, so only the stop at `max_total` bounds the dataset |
| DatasetGenerator.SubstituteTokens | src/train/dataset_generator.py:100-105 | the token list keeps its length; exactly the tokens equal to the placeholder become the value |
| DatasetGenerator.Fill | src/train/dataset_generator.py:97-106 | one variation per value, in order, each with the placeholder replaced in the text and in the tokens and the template's intent |
| DatasetGenerator.TemplateVariationsShape | src/train/dataset_generator.py:96-108 | a `{room}` template gives one variation per room, otherwise a `{temp}` template one per temperature, otherwise the template alone; each keeps its template's intent and token count |
| DatasetGenerator.VariationsCount | src/train/dataset_generator.py:92-110 | the number of variations is the sum of the per-template counts |
| DatasetGenerator.VariationsFromTemplates | src/train/dataset_generator.py:92-110 | every variation carries the intent and the token count of some template |
| DatasetGenerator.Labels | src/train/dataset_generator.py:217-229 | every intent seen has a label |
| DatasetGenerator.LabelsKeys | src/train/dataset_generator.py:217-229 | exactly the intents seen have a label |
| DatasetGenerator.NatsBelow | src/train/dataset_generator.py:218-227 | the set of labels 0..k-1 |
| DatasetGenerator.LabelsSnoc | src/train/dataset_generator.py:225-229 | a new intent gets the next label, the number of intents labelled so far; a known intent keeps its label |
| DatasetGenerator.LabelsDense | src/train/dataset_generator.py:217-261 | the labels given are exactly 0..k-1 for the k distinct intents |
| DatasetGenerator.LabelsInjective | src/train/dataset_generator.py:217-229 | no two intents share a label |
| DatasetGenerator.LabelsStable | src/train/dataset_generator.py:225-229 | a label once given is never changed by later samples |
| DatasetGenerator.SameLabelIffSameIntent | src/train/dataset_generator.py:225-229 | two samples share a label exactly when they share an intent |
| DatasetGenerator.Range | src/train/dataset_generator.py:242 | `list(range(n))`: n ids, id i at position i |
| DatasetGenerator.Intents | src/train/dataset_generator.py:222 | the intents of the chosen variations, in order |
| DatasetGenerator.DatasetSamples | src/train/dataset_generator.py:220-253 | one sample per choice; sample i has the text of choice i, the token ids 0..len(tokens)-1 and its intent's label |
| DatasetGenerator.SmartHomeSpeechSynthesizer.constructor | src/train/dataset_generator.py:32-71 | the synthesizer holds the command templates, the six rooms and the six temperatures |
| DatasetGenerator.SmartHomeSpeechSynthesizer.GenerateCommandVariations | src/train/dataset_generator.py:92-110 | the loops return `Variations` of the templates, rooms and temperatures |
| DatasetGenerator.SmartHomeSpeechSynthesizer.CreateDataset | src/train/dataset_generator.py:195-263 | the samples are the dataset of the chosen variations and the label mapping is the one their intents build in order; a count below one gives no samples and an empty mapping, as `range` does |
| DatasetGenerator.FillEach | src/train/dataset_generator.py:98-106 | the value loop returns `Fill` of the template |
| WakeWordOptimizer.GenerateTestConfigs | wake_word_optimizer.py:28-47 | 4 × 4 × 4 = 64 configs |
| WakeWordOptimizer.ProductOrder | wake_word_optimizer.py:36-45 | the configs come in product order, energy threshold outermost: threshold e, timeout t and sensitivity s sit at position 16e + 4t + s with those three values |
| WakeWordOptimizer.OtherKeysUnchanged | wake_word_optimizer.py:39-44 | every generated config keeps every other key of the wake configuration, with its value |
| WakeWordOptimizer.ResponseTimeScore | wake_word_optimizer.py:129 | the response-time part is non-negative, 0 for a response time of 5 seconds or more, and at most 30 for a non-negative time |
| WakeWordOptimizer.CalculateScore | wake_word_optimizer.py:123-132 | the score always lies in [0, 100] |
| WakeWordOptimizer.ScoreMonotone | wake_word_optimizer.py:123-132 | a higher detection rate or a lower false-positive rate never lowers the score |
| WakeWordOptimizer.ScoreUnclamped | wake_word_optimizer.py:127-132 | when the weighted sum lies in [0, 100] the score is that sum |
| WakeWordOptimizer.Detections | wake_word_optimizer.py:80-85 | the detections never outnumber the attempts |
| WakeWordOptimizer.FalsePositives | wake_word_optimizer.py:80-87 | the false positives never outnumber the attempts |
| WakeWordOptimizer.CountsWithinAttempts | wake_word_optimizer.py:75-87 | detections plus false positives never exceed the attempts |
| WakeWordOptimizer.Rate | wake_word_optimizer.py:93-94 | the rate divides by max(1, n), so it is defined for n = 0 (where it is x itself) and lies in [0, 1] when x ≤ n |
| WakeWordOptimizer.TestConfig | wake_word_optimizer.py:49-121 | None exactly when the recognizer cannot be built; otherwise the counts of the attempt loop, detections plus false positives within the attempts, both rates in [0, 1], the average time over max(1, attempts) and the score of those |
| WakeWordOptimizer.Best | wake_word_optimizer.py:155-165 | the best score never decreases and bounds every result's score; it changes only to the score of a result that holds it, and the best result then is that result |
| WakeWordOptimizer.Optimizer.constructor | wake_word_optimizer.py:23-26 | no results, no best result, best score 0 |
| WakeWordOptimizer.Optimizer.RunOptimization | wake_word_optimizer.py:134-168 | an answer other than y, yes, 是 or empty (after lower and strip) changes nothing; otherwise the results of the first `configs_per_batch` configs that did not fail are appended and the best is tracked as `Best`; every appended result, and any new best, was run with one of those configs; the best score never decreases |
| WakeWordOptimizer.KeptFrom | wake_word_optimizer.py:155-160 | a kept result was run with a config of the batch, since `test_config` returns the config it tested |
| WakeWordOptimizer.Optimizer.RecordBatch | wake_word_optimizer.py:155-165 | the loop appends the results that did not fail and replaces the best only on a strictly greater score; every appended result and any new best carries a config of the batch |
| WakeWordOptimizer.ExportSummary | wake_word_optimizer.py:215-220 | the summary counts the results, carries the best score, and has average 0 when there are no results |
| WakeWordOptimizer.SumScoresBounds | wake_word_optimizer.py:219 | with scores in [0, 100] the sum of n scores lies in [0, 100 n] |
| WakeWordOptimizer.AverageInRange | wake_word_optimizer.py:215-220 | with scores in [0, 100] the average score lies in [0, 100] |
| WakeWordTuning.ClassifyMessage | wake_word_tuning.py:56-69 | the kind is decided in priority order: waiting exactly when 等待唤醒词 occurs; wake detected exactly when 检测到唤醒词 occurs and no earlier text does; likewise command recognised (识别到指令), error (错误 or ❌), timeout (超时), and other for the rest |
| WakeWordTuning.Entries | wake_word_tuning.py:49-54 | one entry per message, in order, with its message and its kind |
| WakeWordTuning.CountOf | wake_word_tuning.py:107-110 | the number of entries of a kind never exceeds the number of entries |
| WakeWordTuning.CountsSum | wake_word_tuning.py:107-110 | the counts of the six kinds add up to the number of entries |
| WakeWordTuning.Recommendations | wake_word_tuning.py:143-181 | the error advice exactly when there are events and errors exceed a tenth of them; the timeout advice exactly with more than 5 timeouts; the detection advice exactly when the detection rate (0 when missing) is below 0.7; the high- and low-threshold advice exactly above 400 and below 200 (0 when missing) |
| WakeWordTuning.RecommendationsDistinct | wake_word_tuning.py:143-181 | no advice appears twice and the threshold is never called both too high and too low |
| WakeWordTuning.AdviceDistinct | wake_word_tuning.py:151-181 | the five advice texts are pairwise different |
| WakeWordTuning.ErrorPart | wake_word_tuning.py:146-155 | at most the error advice |
| WakeWordTuning.TimeoutPart | wake_word_tuning.py:157-162 | at most the timeout advice |
| WakeWordTuning.DetectionPart | wake_word_tuning.py:164-169 | at most the detection advice |
| WakeWordTuning.ThresholdPart | wake_word_tuning.py:171-181 | at most one of the two threshold advices |
| WakeWordTuning.PerformanceMonitor.constructor | wake_word_tuning.py:23-28 | not monitoring, with no data and no recommendations |
| WakeWordTuning.PerformanceMonitor.StatusCallback | wake_word_tuning.py:43-54 | while monitoring the message is appended with its kind; otherwise nothing changes |
| WakeWordTuning.PerformanceMonitor.StartMonitoring | wake_word_tuning.py:71-95 | the data is reset and then holds every reported message in order with its kind; monitoring ends; without messages there is no analysis and the recommendations are unchanged, otherwise the analysis counts exactly the messages of each kind, its counts sum to the number of messages, its success rate is wake detections over waiting messages times 100 (absent without waiting messages), and the recommendations are regenerated from those counts |
| WakeWordTuning.PerformanceMonitor.AnalyzePerformance | wake_word_tuning.py:97-141 | nothing without data; otherwise exact counts per kind that sum to the number of entries, a success rate (detections per waiting event, in percent) exactly when there were waiting events, and the recommendations for those counts |
| WakeWordTuning.PerformanceMonitor.GenerateRecommendations | wake_word_tuning.py:143-181 | the list is reset and then holds `Recommendations` of the counts and statistics; nothing else changes |
| WakeWordTuning.CountEvents | wake_word_tuning.py:107-110 | a kind is counted exactly when it occurs, with its number of occurrences |
| AiConfigWizard.ConfigureBaidu | ai_config_wizard.py:47-90 | a configuration exactly when the three stripped fields are non-empty and the API test accepts them; it holds the stripped values |
| AiConfigWizard.ModelSize | ai_config_wizard.py:123-124 | always one of the five sizes; any choice other than 1-5 gives `base` |
| AiConfigWizard.ModelSizesDistinct | ai_config_wizard.py:123 | the five menu choices give five different sizes |
| AiConfigWizard.ConfigureWhisper | ai_config_wizard.py:92-140 | a configuration exactly when Whisper is installed, or the user answers y and the install works, and the model loads; its size is the menu's for the stripped choice |
| AiConfigWizard.ConfigureGoogle | ai_config_wizard.py:142-151 | the Google configuration |
| AiConfigWizard.ScanStep | ai_config_wizard.py:178-184 | reading one more character updates the brace balance and the seen-`{` flag |
| AiConfigWizard.FirstCloseFrom | ai_config_wizard.py:176-188 | the scan's stopping point from a position is the start itself or lies after that position, within the text |
| AiConfigWizard.BlockEndOf | ai_config_wizard.py:172-188 | the block end lies between the marker and the end of the text |
| AiConfigWizard.FirstCloseFromIsBlockEnd | ai_config_wizard.py:176-188 | scanning on from a position before which nothing closes stops at the block end |
| AiConfigWizard.BlockEndOfIsBlockEnd | ai_config_wizard.py:172-188 | the scan stops one past the first `}` at which the depth, counted from the marker's `{`, returns to 0, and stays at the marker when no `}` does |
| AiConfigWizard.BlockEnd | ai_config_wizard.py:172-188 | the brace-counting loop returns `BlockEndOf` |
| AiConfigWizard.UpdateConfigFile | ai_config_wizard.py:153-211 | nothing is written and the answer is False when the file is missing or has no `AI_SPEECH_CONFIG = {`; otherwise the original is written to the backup first, then the text with the block from the marker to its closing brace replaced by the new config |
| AiConfigWizard.SplicePreserves | ai_config_wizard.py:190-194 | the text before the marker and after the block is kept unchanged and the new config sits between them |
| AiConfigWizard.UnclosedBlockKept | ai_config_wizard.py:174-194 | with no closing brace the old block remains after the new config |
| AiConfigWizard.BlockEndUnique | ai_config_wizard.py:176-188 | the stopping point is unique, so the rewrite is determined |
| AiConfigWizard.CutBlockBalanced | ai_config_wizard.py:176-188 | the block that is cut out has as many `{` as `}` |
| ConfigHelper.ConfigurePrivateKeyLogin | config_helper.py:31-58 | a login exactly when the stripped key is non-empty and not a `your_` placeholder; the key becomes the client id, with empty user name and password and private-key login on |
| ConfigHelper.ConfigureTraditionalLogin | config_helper.py:60-87 | a login exactly when all three stripped fields are non-empty and none is a `your_` placeholder; it holds them with private-key login off |
| ConfigHelper.LoginKinds | config_helper.py:49-82 | a private-key login never carries a user name; a traditional one always does |
| ConfigHelper.Generated | config_helper.py:108-116 | exactly seven lines follow the header |
| ConfigHelper.StateAfterAppend | config_helper.py:105-120 | the block state after two runs of lines is the state after the second, started where the first left off |
| ConfigHelper.RewriteAppend | config_helper.py:105-120 | the one-pass rewrite goes line by line: two runs of lines rewrite to the first's output followed by the second's, from the state the first leaves |
| ConfigHelper.CopiedOutside | config_helper.py:121-122 | outside the block, lines without the header text are copied unchanged and in order |
| ConfigHelper.DroppedInside | config_helper.py:105-122 | inside the block, lines that neither open nor close it are dropped |
| ConfigHelper.UpToHeader | config_helper.py:107-116 | the lines before the header are copied, then come the header and the seven generated lines, and the block is open |
| ConfigHelper.BodyAndClose | config_helper.py:117-120 | of the old body and the closing `}` line only the closing line is written, and the block is closed |
| ConfigHelper.BlockReplaced | config_helper.py:105-122 | in a file with one block the header is kept, the generated lines replace the old body, the closing line is kept, and the lines before and after are copied |
| ConfigHelper.UnclosedBlockDropsRest | config_helper.py:117-122 | when no line closes the block, every line after the header is dropped |
| ConfigHelper.UpdateConfigFile | config_helper.py:89-133 | False and nothing written when the file is missing; otherwise True and the file's lines, rewritten in one pass, joined back with newlines |
| ConfigHelper.NoBlockUnchanged | config_helper.py:100-126 | a file without the block is written back unchanged |

## Left out

- Microphone and audio. The microphone, `adjust_for_ambient_noise`, `is_microphone_available` and the wake feedback sound (`_play_wake_word_feedback`, winsound) are I/O. Each capture is a parameter instead.
- Status messages. `_update_status`, status callbacks and `print` have no effect the model observes. The tuning monitor's recording is modelled on the message strings it receives.
- Speech services. The Baidu token request (`_get_baidu_token`), the Baidu, Google and Whisper calls and engine initialisation over the network are replaced by their replies.
- Neural networks. `LightASRModel`, `AudioFeatureExtractor`, `LightASRTrainer` and `LightASRInference` are floating-point tensor code. Inference is a (class, confidence) prediction or an exception.
- Audio synthesis. `create_synthetic_audio` and `synthesize_speech` are numpy signal code. Each sample's audio is left out and only its metadata is kept.
- MQTT networking. paho's `connect` and `disconnect` are network calls. The callbacks' effect on the connected flag and the log is modelled.
- Timestamps. The timestamps in the MQTT message log and in performance records, and the timestamped file names of exports and backups, depend on the clock.
- Optimizer timing. `test_config`'s timed loop is given its outcome counts and response times.
- User interaction. `input()` prompts are given as strings. `random.choice`/`shuffle` are given as picks or as a given order. `test_baidu_api` is a network call.
- Files and JSON. File reads and writes, JSON serialisation and exceptions raised while writing are I/O. File contents are given as optional strings, and writes are returned as new text.
- `EnhancedAISpeechRecognizer` wrappers. `recognize_once`, `listen_continuous`, `listen_with_wake_word`, `is_microphone_available`, `get_engine_status` and `integrate_light_asr` only wrap the microphone or the standard recognizer; their logic is in `SpeechRecognition`.
- Interactive and reporting tools. `_show_results`, `apply_best_config`, `export_performance_data`, the interactive tuning menu (wake_word_tuning.py:217-335), `analyze_dataset`, `save_dataset` and `create_smart_home_dataset` are console or file reporting.
- GUIs, benchmarks and the legacy listener. The tkinter GUIs, the benchmark and test scripts and src/speech_recognition_module.py are UI, threads and timing harnesses.
- Strings.LowerChar: lower-cases ASCII letters only, whereas Python's `str.lower()` also lowers other cased letters. Wake-word matching, the optimizer's y/yes answer and the Whisper install answer therefore differ from Python for inputs with non-ASCII cased letters (for example a full-width 'Ｙ'). The shipped keywords and answers are Chinese or ASCII, where the two agree.
- Floating point. Thresholds, scores, rates and confidences are Dafny `real`, so Python's float rounding is not captured.
- Python's `list(set(...))` order. It is unspecified, so the model's order of deduplicated commands is one permitted order.
