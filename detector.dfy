/**
 * `mySensorsPatternDetector` (src/lib/detector.js:13-63): classifies an MQTT
 * packet as a MySensors message, as a packet of no interest (`empty`), or as
 * a fault, and never throws.
 *
 * The detector default-imports the module object of src/lib/common.js, whose
 * fields are the four tables and `protocolRef`, and then reads
 * `protocolRef.pattern` and `protocolRef.validators.methods` from that object.
 * Read literally those names miss the fields defined at src/lib/common.js:28
 * and src/lib/common.js:34, and every packet with a topic would land in the
 * `catch` branch. The model follows the evident intent: the grammar is
 * `Common.Pattern`, the valid methods are `Common.Methods`, and the tables are
 * the exported ones.
 */
module Detector {
  import opened Wrappers
  import opened Topic
  import opened Common
  import opened Numbers

  /**
   * A value a `throw` carries: a falsy value (`undefined`, `null`, `0`, `''`,
   * `false`), or any truthy value, which the `catch` returns as it is. A truthy
   * value is usually an `Error` with its message, but a getter may also throw a
   * bare truthy value such as the string `'x'`; `message` then stands for that
   * value, so `ErrorValue` means "not falsy" rather than "an `Error` object".
   */
  datatype Thrown = Falsy | ErrorValue(message: string)

  /** What `packet.topic` holds. */
  datatype TopicValue =
    | NoTopic                   // `undefined`
    | TopicString(text: string)
    | TopicOther(truthy: bool)  // a value that is not a string, e.g. a number, a buffer, `null`

  /** Reading `packet.topic`: a value, or a throw (a getter that fails). */
  datatype TopicRead = Value(value: TopicValue) | Throws(thrown: Thrown)

  /** The argument of the detector: `undefined`/`null`, or an object with a `topic`. */
  datatype Packet = NoPacket | Packet(topic: TopicRead)

  /**
   * The detector's result: `{name: 'mySensors', params}`, `{name: 'empty',
   * params: {}}`, or the error value the `catch` returns.
   */
  datatype Detection =
    | MySensors(params: map<string, string>)
    | Empty
    | Fault(error: Thrown)

  /** The message of the error put in place of a falsy thrown value. */
  const InvalidPacketMessage: string := "Error: invalid packet"

  /**
   * The message of the `TypeError` the engine raises for a property read on
   * `undefined`/`null` or a call of a missing `split`; its exact text is
   * engine-specific.
   */
  const TypeErrorMessage: string := "TypeError"

  /** The `catch` branch: a falsy thrown value becomes an "invalid packet" error; any other is returned as is. */
  function Catch(thrown: Thrown): (error: Thrown)
    ensures error.ErrorValue?
    ensures thrown.ErrorValue? ==> error == thrown
    ensures thrown == Falsy ==> error == ErrorValue(InvalidPacketMessage)
  {
    match thrown
    case Falsy => ErrorValue(InvalidPacketMessage)
    case ErrorValue(_) => thrown
  }

  /** `Number(params[key])`, with `NaN` (and an absent key, read as `undefined`) as `None`. */
  function Coerce(params: map<string, string>, key: string): (n: Option<int>)
    ensures n.Some? <==> key in params && IsNumeral(params[key])
  {
    if key in params then ParseNumber(params[key]) else None
  }

  /** `methodExists`: the coerced method is one of `validators.methods`. */
  predicate MethodExists(methodCode: Option<int>) {
    methodCode.Some? && IsMethod(methodCode.value)
  }

  /**
   * `typeExists`: the coerced type is a code of the table the coerced method
   * selects (0: presentation; 1 and 2: set/req; 3: internal); it stays false
   * for any other method.
   */
  predicate TypeExists(methodCode: Option<int>, code: Option<int>) {
    if methodCode == Some(0) then code.Some? && IsPresentationCode(code.value)
    else if methodCode.Some? && methodCode.value > 0 && methodCode.value < 3 then code.Some? && IsSetCode(code.value)
    else if methodCode == Some(3) then code.Some? && IsInternalCode(code.value)
    else false
  }

  /** The detector on a topic string that is not empty (src/lib/detector.js:16-53). */
  function Classify(topic: string): (d: Detection)
    ensures !d.Fault?
  {
    match Exec(Pattern, topic)
    case None => Empty
    case Some(params) =>
      var methodCode, code := Coerce(params, "method"), Coerce(params, "type");
      if MethodExists(methodCode) && TypeExists(methodCode, code) then MySensors(params) else Empty
  }

  /** `mySensorsPatternDetector(packet)`. */
  function Detect(packet: Packet): Detection {
    match packet
    case NoPacket => Fault(Catch(ErrorValue(TypeErrorMessage)))
    case Packet(Throws(thrown)) => Fault(Catch(thrown))
    case Packet(Value(NoTopic)) => Empty
    case Packet(Value(TopicOther(truthy))) =>
      if truthy then Fault(Catch(ErrorValue(TypeErrorMessage))) else Empty
    case Packet(Value(TopicString(text))) =>
      if text == "" then Empty else Classify(text)
  }

  // ----- Reference definitions -----

  /** The (method, type) pairs the MySensors Serial API 2.0 tables define, in closed form. */
  predicate KnownPair(methodCode: int, code: int) {
    || (methodCode == 0 && 0 <= code < 40)
    || ((methodCode == 1 || methodCode == 2) && 0 <= code < 57)
    || (methodCode == 3 && 0 <= code < 29)
  }

  /** Six levels, none empty: the topics the grammar matches. */
  predicate SixLevels(levels: seq<string>) {
    |levels| == 6 && forall i :: 0 <= i < 6 ==> levels[i] != ""
  }

  /** The topics the detector accepts, stated on the levels of the topic. */
  predicate Recognized(topic: string) {
    var levels := Split(topic);
    && SixLevels(levels)
    && ParseNumber(levels[3]).Some?
    && ParseNumber(levels[5]).Some?
    && KnownPair(ParseNumber(levels[3]).value, ParseNumber(levels[5]).value)
  }

  /** The six levels of a topic under the six parameter names of the grammar. */
  function Bindings(levels: seq<string>): map<string, string>
    requires |levels| == 6
  {
    map[
      "prefixedDevEui" := levels[0], "nodeId" := levels[1], "sensorId" := levels[2],
      "method" := levels[3], "ack" := levels[4], "type" := levels[5]]
  }

  // ----- Properties -----

  /**
   * The grammar matches exactly the topics of six non-empty levels, and then
   * binds the six parameter names, and nothing else, to the levels in order.
   */
  lemma PatternBindsLevels(topic: string)
    ensures Exec(Pattern, topic) ==
      if SixLevels(Split(topic)) then Some(Bindings(Split(topic))) else None
  {
    GrammarIsSixNamedWildcards();
    var template, levels := Template(Pattern), Split(topic);
    if Matches(template, levels) {
      var params := Extract(template, levels);
      forall key
        ensures key in params <==> key in ParamNames
      {
        if key in params {
          var i :| 0 <= i < |template| && Binds(template[i], key);
          assert key == ParamNames[i];
        }
        if key in ParamNames {
          var i :| 0 <= i < 6 && ParamNames[i] == key;
          assert Binds(template[i], key);
        }
      }
      forall i | 0 <= i < 6
        ensures ParamNames[i] in params && params[ParamNames[i]] == levels[i]
      {
        ExtractDistinct(template, levels, i);
      }
      BindingsOfParams(params, levels);
    }
  }

  /** A map whose keys are the parameter names, each bound to its level, is the bindings of the levels. */
  lemma BindingsOfParams(params: map<string, string>, levels: seq<string>)
    requires |levels| == 6
    requires forall key :: key in params <==> key in ParamNames
    requires forall i :: 0 <= i < 6 ==> ParamNames[i] in params && params[ParamNames[i]] == levels[i]
    ensures params == Bindings(levels)
  {
    var expected := Bindings(levels);
    assert forall key :: key in expected <==> key in ParamNames;
    forall key | key in params
      ensures params[key] == expected[key]
    {
      var i :| 0 <= i < 6 && ParamNames[i] == key;
    }
  }

  /** A method code passes `validators.methods` exactly when it is 0 to 4. */
  lemma MethodExistsRange(methodCode: Option<int>)
    ensures MethodExists(methodCode) <==> methodCode.Some? && 0 <= methodCode.value <= 4
  {
    if methodCode.Some? {
      MethodRange(methodCode.value);
    }
  }

  /**
   * The table dispatch agrees with the closed form: a type exists exactly for
   * the codes of the table its method selects, and for no code at all when
   * the method is not 0 to 3.
   */
  lemma TypeExistsIffKnownPair(methodCode: Option<int>, code: Option<int>)
    ensures TypeExists(methodCode, code) <==> methodCode.Some? && code.Some? && KnownPair(methodCode.value, code.value)
  {
    if code.Some? {
      PresentationCodeRange(code.value);
      SetCodeRange(code.value);
      InternalCodeRange(code.value);
    }
  }

  /**
   * A non-empty topic is classified as MySensors exactly when it is
   * recognized, with the six levels under the six names as parameters;
   * every other topic is `empty`.
   */
  lemma ClassifyIffRecognized(topic: string)
    ensures Classify(topic) ==
      if Recognized(topic) then MySensors(Bindings(Split(topic))) else Empty
  {
    PatternBindsLevels(topic);
    match Exec(Pattern, topic)
    case None =>
    case Some(params) =>
      var methodCode, code := Coerce(params, "method"), Coerce(params, "type");
      assert methodCode == ParseNumber(Split(topic)[3]);
      assert code == ParseNumber(Split(topic)[5]);
      MethodExistsRange(methodCode);
      TypeExistsIffKnownPair(methodCode, code);
  }

  /**
   * On success the parameters are the levels of a recognized topic, and
   * joined with `/` in grammar order they give back the topic.
   */
  lemma ParamsJoinToTopic(topic: string)
    requires Classify(topic).MySensors?
    ensures Recognized(topic)
    ensures var p := Bindings(Split(topic));
      && Classify(topic).params == p
      && Join([p["prefixedDevEui"], p["nodeId"], p["sensorId"], p["method"], p["ack"], p["type"]]) == topic
  {
    ClassifyIffRecognized(topic);
    BindingsInOrder(Split(topic));
    JoinSplit(topic);
  }

  /** Reading the bindings back in grammar order gives the levels. */
  lemma BindingsInOrder(levels: seq<string>)
    requires |levels| == 6
    ensures var p := Bindings(levels);
      [p["prefixedDevEui"], p["nodeId"], p["sensorId"], p["method"], p["ack"], p["type"]] == levels
  {
  }

  /** A topic whose level count is not six, or that has an empty level, is `empty`. */
  lemma WrongShapeIsEmpty(topic: string)
    requires !SixLevels(Split(topic))
    ensures Classify(topic) == Empty
  {
    PatternBindsLevels(topic);
  }

  /** A method that coerces to 4 (stream), or to any number outside 0 to 3, gives `empty`. */
  lemma UntabledMethodIsEmpty(topic: string)
    requires |Split(topic)| == 6
    requires ParseNumber(Split(topic)[3]).Some?
    requires !(0 <= ParseNumber(Split(topic)[3]).value <= 3)
    ensures Classify(topic) == Empty
  {
    ClassifyIffRecognized(topic);
  }

  /** A `method` or `type` level that is not a numeral coerces to `NaN`, and the topic is `empty`. */
  lemma NonNumericIsEmpty(topic: string)
    requires |Split(topic)| == 6
    requires !IsNumeral(Split(topic)[3]) || !IsNumeral(Split(topic)[5])
    ensures Classify(topic) == Empty
  {
    ClassifyIffRecognized(topic);
  }

  /** A packet without a topic, or with an empty or otherwise falsy one, is `empty`. */
  lemma FalsyTopicIsEmpty(value: TopicValue)
    requires value == NoTopic || value == TopicString("") || value == TopicOther(false)
    ensures Detect(Packet(Value(value))) == Empty
  {
  }

  /**
   * The detector faults exactly when the packet is missing, reading its topic
   * throws, or the topic is a truthy non-string; the fault is never falsy: it
   * is the thrown value itself when a truthy one was thrown, and the "invalid
   * packet" error for a falsy throw. Otherwise the result is the
   * classification of the topic.
   */
  lemma DetectFaults(packet: Packet)
    ensures Detect(packet).Fault? <==>
      packet.NoPacket? || packet.topic.Throws? || packet.topic.value == TopicOther(true)
    ensures Detect(packet).Fault? ==> Detect(packet).error.ErrorValue?
    ensures packet.Packet? && packet.topic == Throws(Falsy) ==>
      Detect(packet) == Fault(ErrorValue(InvalidPacketMessage))
    ensures packet.Packet? && packet.topic.Throws? && packet.topic.thrown.ErrorValue? ==>
      Detect(packet) == Fault(packet.topic.thrown)
    ensures (packet.Packet? && packet.topic.Value? && packet.topic.value.TopicString? &&
             packet.topic.value.text != "") ==> Detect(packet) == Classify(packet.topic.value.text)
  {
  }

  /**
   * Any device, node, sensor and ack levels, with the decimal text of a known
   * (method, type) pair, form a topic the detector accepts, binding each
   * level to its name.
   */
  lemma KnownPairTopicIsMySensors(device: string, node: string, sensor: string, ack: string, methodCode: int, code: int)
    requires device != "" && node != "" && sensor != "" && ack != ""
    requires IsLevel(device) && IsLevel(node) && IsLevel(sensor) && IsLevel(ack)
    requires KnownPair(methodCode, code)
    ensures var levels := [device, node, sensor, ShowInt(methodCode), ack, ShowInt(code)];
      Classify(Join(levels)) == MySensors(Bindings(levels))
  {
    var levels := [device, node, sensor, ShowInt(methodCode), ack, ShowInt(code)];
    ShowIntIsLevel(methodCode);
    ShowIntIsLevel(code);
    SplitJoin(levels);
    ParseShowInt(methodCode);
    ParseShowInt(code);
    var topic := Join(levels);
    ClassifyIffRecognized(topic);
  }

  /** The decimal text of an integer is a non-empty topic level. */
  lemma ShowIntIsLevel(n: int)
    ensures ShowInt(n) != "" && IsLevel(ShowInt(n))
  {
    var s := ShowInt(n);
    assert forall i :: 0 <= i < |s| ==> s[i] == '-' || IsDigit(s[i]);
  }

  // ----- The import as written -----

  /**
   * The detector with src/lib/detector.js:3 read literally: the default
   * import is the module object, which has no `pattern` field, so `matches`
   * receives `undefined` as the grammar and throws a `TypeError` when it
   * splits it. Every packet whose topic is a non-empty string then ends in the
   * `catch` branch; the other packets behave as in `Detect`.
   */
  function DetectAsWritten(packet: Packet): (d: Detection)
    ensures !d.MySensors?
  {
    match packet
    case Packet(Value(TopicString(text))) =>
      if text == "" then Empty else Fault(Catch(ErrorValue(TypeErrorMessage)))
    case _ => Detect(packet)
  }

  /**
   * On every recognized topic the detector as written returns the error
   * value where the intended detector returns the MySensors parameters.
   */
  lemma AsWrittenFaultsOnRecognizedTopics(topic: string)
    requires Recognized(topic)
    ensures DetectAsWritten(Packet(Value(TopicString(topic)))) == Fault(ErrorValue(TypeErrorMessage))
    ensures Detect(Packet(Value(TopicString(topic)))) == MySensors(Bindings(Split(topic)))
  {
    ClassifyIffRecognized(topic);
    JoinSplit(topic);
  }

  /** The levels of a `set` of `V_TEMP` (code 0) from node 0, sensor 1 of gateway `gw`. */
  function SetTemperatureLevels(): seq<string> {
    ["gw", "0", "1", "1", "0", "0"]
  }

  lemma SetTemperatureTopic()
    ensures Join(SetTemperatureLevels()) == "gw/0/1/1/0/0"
  {
    JoinSix("gw", "0", "1", "1", "0", "0");
  }

  /** A concrete packet on which the two differ: topic `gw/0/1/1/0/0`. */
  lemma AsWrittenRejectsSetTemperature()
    ensures var packet := Packet(Value(TopicString(Join(SetTemperatureLevels()))));
      && DetectAsWritten(packet).Fault?
      && Detect(packet) == MySensors(Bindings(SetTemperatureLevels()))
  {
    assert ShowInt(1) == [DigitChar(1)] == "1";
    assert ShowInt(0) == [DigitChar(0)] == "0";
    KnownPairTopicIsMySensors("gw", "0", "1", "0", 1, 0);
  }
}
