# MySensors topic detector: a Dafny model

This project models the topic classifier of `mysensors-handlers`, which sits
between MySensors-over-MQTT traffic and a controller. It covers two parts.

- **The protocol registry** (`src/lib/common.js`):
  - the MQTT topic grammar `+prefixedDevEui/+nodeId/+sensorId/+method/+ack/+type`;
  - the valid command codes `[0, 1, 2, 3, 4]`;
  - the four code tables of the MySensors Serial API 2.0: commands, presentation (sensor) types, set/req variable types and internal message types.

  The tables are constant sequences of records. Lemmas prove the facts they satisfy:
  - codes are contiguous and unique;
  - `Type` names are distinct;
  - every `sensorTypes` entry names a presentation type;
  - units agree with OMA resource 5701.
- **The detector** (`src/lib/detector.js`, `mySensorsPatternDetector`). It takes a packet and returns one of three shapes:
  - `MySensors(params)` when the topic matches the grammar, the `method` level is a valid command and the `type` level is a code of the table that method selects;
  - `Empty` for every other packet;
  - `Fault(error)` for the value the `catch` branch returns.

Modules:

- `Wrappers`: `Option`, used for `undefined` and `NaN`.
- `Topic`: the structural matcher the detector takes from the `mqtt-pattern` package, which is not part of this model. It is defined with the behaviour the detector relies on:
  - split on `/`;
  - a `+name` segment matches one non-empty level and binds it. Naming the wildcard and rejecting an empty level are `mqtt-pattern`'s rules: in MQTT 3.1.1 (section 4.7.1.3) a `+` fills a whole level, carries no name, and also matches an empty level (`sport/+` matches `sport/`);
  - any other segment must equal its level;
  - the number of levels must be equal.
- `Common`: the registry and its lemmas. Tables of more than twenty rows are concatenations of blocks of at most twenty rows, named by code range. The `description` fields, the `omaObject` IDs and the JSDoc comments of src/lib/common.js are not carried; every other field, including the annotated `ressources` strings of S_LIGHT_LEVEL, is carried verbatim.
- `Numbers`: `Number(text)` on integer text. The text is an optional sign and then decimal digits. Any other text is read as `NaN` in this model, written `None`; see "Left out" for the text on which JavaScript gives a number instead.
- `Detector`: the detector, a closed-form reference (`Recognized`, `KnownPair`) and the lemmas connecting the two.

The detector default-imports the module object of `src/lib/common.js` and reads `protocolRef.pattern` and `protocolRef.validators.methods` from it. Those fields do not exist on that object. `Detector.Detect` models the evident intent: the grammar of `src/lib/common.js:28` and the methods of `src/lib/common.js:34`. `Detector.DetectAsWritten` models the code as written (see Findings).

## Model

| member | source | states |
|---|---|---|
| `Topic.Split` | src/lib/detector.js:16 | Splitting a topic on `/` gives at least one level, and no level contains `/`. |
| `Topic.JoinSplit` | src/lib/detector.js:16-21 | Joining the levels of a split with `/` gives back the split text. |
| `Topic.SplitJoin` | src/lib/detector.js:16-21 | Splitting a join of `/`-free levels gives back the levels. |
| `Topic.Matches` | src/lib/detector.js:16 | A topic matches a pattern exactly when it has as many levels as the pattern has segments and each level is matched by its segment. |
| `Topic.Extract` | src/lib/detector.js:18-21 | The extracted parameters are exactly the names of the named wildcards. Each is bound to the level under its last occurrence. |
| `Topic.ExtractDistinct` | src/lib/detector.js:18-21 | A named wildcard that no other segment repeats is bound to the level at its own position. |
| `Common.PatternSplitsIntoLevels` | src/lib/common.js:28 | The grammar string splits into the six levels `+prefixedDevEui` … `+type`. |
| `Common.GrammarIsSixNamedWildcards` | src/lib/common.js:28 | The grammar has exactly six segments. Each is a `+` wildcard, named prefixedDevEui, nodeId, sensorId, method, ack, type in order, and the names are distinct. |
| `Common.CommandCodesAreMethods` | src/lib/common.js:34-77 | The command codes are 0 to 4 in order. They are exactly the valid methods. |
| `Common.MethodRange` | src/lib/common.js:34 | A code is a valid method exactly when 0 ≤ code ≤ 4. |
| `Common.PresentationCodesAreIndices` | src/lib/common.js:89-386 | There are 40 presentation rows, and the row at index i has code i. So codes are contiguous and unique. |
| `Common.PresentationCodeRange` | src/lib/common.js:89-386 | Looking up a presentation code succeeds exactly for 0 ≤ code ≤ 39. |
| `Common.SetCodesAreIndices` | src/lib/common.js:399-906 | There are 57 set/req rows, and the row at index i has code i. |
| `Common.SetCodeRange` | src/lib/common.js:399-906 | Looking up a set/req code succeeds exactly for 0 ≤ code ≤ 56. |
| `Common.InternalCodesAreIndices` | src/lib/common.js:916-1071 | There are 29 internal rows, and the row at index i has code i. |
| `Common.InternalCodeRange` | src/lib/common.js:916-1071 | Looking up an internal code succeeds exactly for 0 ≤ code ≤ 28. |
| `Common.CommandTypeNamesDistinct` | src/lib/common.js:47-77 | No two command rows share a `Type` name. |
| `Common.PresentationTypeNamesDistinct` | src/lib/common.js:89-386 | No two presentation rows share a `Type` name. |
| `Common.SetTypeNamesDistinct` | src/lib/common.js:399-906 | No two set/req rows share a `Type` name. |
| `Common.InternalTypeNamesDistinct` | src/lib/common.js:916-1071 | No two internal rows share a `Type` name. |
| `Common.SensorTypesArePresentationTypes` | src/lib/common.js:397-906 | Every `sensorTypes` entry of every set/req row is `*` or the `Type` of some presentation row. |
| `Common.UnitsMatchOmaResources` | src/lib/common.js:399-906 | When a set/req row has a `Unit`, its `omaResources` has key `5701`, holding that same unit text. |
| `Numbers.ParseNumber` | src/lib/detector.js:24-41 | Coercion yields a number exactly for an optional sign followed by one or more digits. |
| `Numbers.DigitsValueOfDecimalText` | src/lib/detector.js:25 | Reading back the decimal text of a natural number gives the number. |
| `Numbers.ParseShowInt` | src/lib/detector.js:25 | Coercing the decimal text of any integer gives that integer. |
| `Numbers.LeadingZeroIgnored` | src/lib/detector.js:25 | A leading `0` before digit text leaves its digit value unchanged, so `Number` reads `007` as 7. |
| `Numbers.NonNumeralIsNaN` | src/lib/detector.js:24-41 | Text with a non-digit anywhere except a leading sign coerces to `NaN`. |
| `Topic.Exec` | src/lib/detector.js:16-21 | `matches` then `exec`: the bindings exactly when the topic matches; on the grammar this is stated by `Detector.PatternBindsLevels`. |
| `Detector.Coerce` | src/lib/detector.js:25-40 | `Number(params[key])` is a number exactly when the key is bound and its level is integer text. |
| `Detector.MethodExists` | src/lib/detector.js:24-26 | `methodExists`; its range is stated by `Detector.MethodExistsRange`. |
| `Detector.TypeExists` | src/lib/detector.js:27-42 | `typeExists`, dispatching on the method to one table; its closed form is stated by `Detector.TypeExistsIffKnownPair`. |
| `Detector.Classify` | src/lib/detector.js:16-53 | The detector on a non-empty string topic never faults; which topics it accepts, and with which parameters, is stated by `Detector.ClassifyIffRecognized`. |
| `Detector.Detect` | src/lib/detector.js:13-63 | The detector itself, `mySensorsPatternDetector`; its faults are stated by `Detector.DetectFaults`, its empty results by `Detector.FalsyTopicIsEmpty`, and its classification by `Detector.ClassifyIffRecognized`. |
| `Detector.Catch` | src/lib/detector.js:55-61 | The returned value is never falsy. A truthy thrown value (an error, or any other truthy value) is returned unchanged, and a falsy thrown value becomes the "invalid packet" error. |
| `Detector.PatternBindsLevels` | src/lib/detector.js:16-21 | The grammar matches exactly the topics of six non-empty levels. It then binds the six names, and nothing else, to the six levels in order. |
| `Detector.MethodExistsRange` | src/lib/detector.js:24-26 | `methodExists` holds exactly when the method coerces to 0 to 4. |
| `Detector.TypeExistsIffKnownPair` | src/lib/detector.js:27-42 | The dispatch selects presentation for method 0, set/req for 1 and 2, internal for 3, and no table for any other method. A type exists exactly for a code of the selected table. |
| `Detector.ClassifyIffRecognized` | src/lib/detector.js:16-53 | A non-empty topic is `MySensors` exactly when it has six non-empty levels, a numeric method and a numeric type forming a known pair. The parameters are then the six levels under the six names. Every other topic is `Empty`. |
| `Detector.ParamsJoinToTopic` | src/lib/detector.js:18-50 | On success, the parameters are the topic's levels, and joining them with `/` in grammar order reproduces the topic. |
| `Detector.WrongShapeIsEmpty` | src/lib/detector.js:16-54 | A topic without exactly six non-empty levels is `Empty`. |
| `Detector.UntabledMethodIsEmpty` | src/lib/detector.js:23-52 | A method that coerces to 4 (stream), or to any number outside 0 to 3, gives `Empty`. |
| `Detector.NonNumericIsEmpty` | src/lib/detector.js:24-42 | A non-numeric `method` or `type` level gives `Empty`. |
| `Detector.FalsyTopicIsEmpty` | src/lib/detector.js:15-16 | An absent, empty or otherwise falsy topic gives `Empty`. |
| `Detector.DetectFaults` | src/lib/detector.js:13-63 | The result is a fault exactly when one of these holds: the packet is missing; reading its topic throws; the topic is a truthy non-string. The fault is never falsy: it is the thrown value itself when that is truthy, or the "invalid packet" error for a falsy throw. Every other packet with a non-empty string topic is classified by its topic. |
| `Detector.KnownPairTopicIsMySensors` | src/lib/detector.js:16-50 | Any non-empty device, node, sensor and ack levels, with the decimal text of a known (method, type) pair, form a topic the detector accepts, binding exactly those levels. |
| `Detector.DetectAsWritten` | src/lib/detector.js:3-16 | Read literally, the detector never returns `MySensors`. |
| `Detector.AsWrittenFaultsOnRecognizedTopics` | src/lib/detector.js:3-16 | On every recognized topic, the detector as written returns the `TypeError` value, where the intended one returns the parameters. |
| `Detector.AsWrittenRejectsSetTemperature` | src/lib/detector.js:3-16 | On the topic `gw/0/1/1/0/0`, the detector as written faults, while the intended one returns the six levels. |

## Left out

- The `logger` calls (src/lib/detector.js:17, 22, 43, 60) are diagnostic output that does not affect the result.
- `mqtt-pattern` itself is not part of this model. `Topic` defines the matching the detector relies on. The multi-level wildcard `#` is left out because the grammar does not use it.
- `Numbers.ParseNumber` does not model JavaScript's `Number()` beyond integer text; every other text is read as `NaN`. JavaScript gives a number for some of that text, and the detector's result then differs from the model's:
  - blank text (spaces only) reads as 0, so on the topic `gw/0/1/ /0/ ` the source returns `mySensors` (method 0, type 0, `S_DOOR`) while `Detector.Classify` returns `Empty`;
  - surrounding whitespace is trimmed, so ` 1` reads as 1;
  - a fraction with a zero fractional part reads as an integer, so on the topic `gw/0/1/1.0/0/0` the source returns `mySensors` while the model returns `Empty`;
  - hexadecimal, binary and octal prefixes (`0x1`), exponents (`1e0`) and `Infinity` are read as numbers too.
  A fraction such as `1.5` does not change the result, because it equals no method or code.
- The `description` fields, the `omaObject` IDs and the `omaResources` default values beyond key `5701` are opaque data with no behaviour. Only the `5701` unit check reads them.
- The unused validators `userId`, `nodeId`, `sensorId`, `type` and `directions` (src/lib/common.js:30-35) are not modelled, because nothing reads them.
- The reverse cross-reference is not asserted, because it does not hold. That reference would say that every `ressources` name of a presentation row lists the row back in its `sensorTypes`. Two rows break it:
  - S_MOISTURE lists V_LEVEL, but V_LEVEL's `sensorTypes` omits S_MOISTURE;
  - S_LIGHT_LEVEL lists annotated strings rather than names.
- The exact text of an engine-raised `TypeError` is engine-specific. The model uses the stand-in message `TypeError`.
- JavaScript values are reduced to what the detector distinguishes:
  - a packet that is `undefined`/`null`, or an object;
  - a topic that is absent, a string, or another value that is truthy or falsy;
  - a read of `topic` that throws;
  - a thrown value that is falsy, or truthy; a truthy one (an `Error` or, say, a bare string) is `ErrorValue`, whose `message` stands for the value.

## Findings

| source | as written | input that shows it | evidently intended | confidence | as-written member | corrected member |
|---|---|---|---|---|---|---|
| src/lib/detector.js:3 | `import protocolRef from './common'` binds the whole module object. `protocolRef.pattern` is therefore `undefined`, and `mqtt-pattern` throws a `TypeError` when it splits it. The detector then returns that error for every non-empty string topic. | a packet with topic `gw/0/1/1/0/0` | import the `protocolRef` field, so the grammar of src/lib/common.js:28 and the methods of src/lib/common.js:34 are used | not executed; relies on `mqtt-pattern` calling `split` on the pattern | `Detector.DetectAsWritten`, `Detector.AsWrittenRejectsSetTemperature` | `Detector.Detect`, `Detector.ClassifyIffRecognized` |
