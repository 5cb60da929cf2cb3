/**
 * The MySensors protocol registry (src/lib/common.js): the topic grammar, the
 * valid command codes and the four code tables of the MySensors Serial API
 * 2.0, as constant sequences of records, with the facts the tables satisfy.
 *
 * The free-text `description` of every row and the `omaObject` ID of the
 * presentation rows carry no behaviour and are not modelled.
 *
 * Each table of more than twenty rows is written as a concatenation of blocks
 * of at most twenty rows, named by their code range; the concatenation is the
 * table in source order. Facts about single rows and pairs of rows are proved
 * block by block and then combined.
 */
module Common {
  import opened Wrappers
  import opened Topic

  /**
   * `protocolRef.pattern`: the topic grammar of MySensors MQTT devices
   * (src/lib/common.js:28), `+prefixedDevEui/+nodeId/+sensorId/+method/+ack/+type`,
   * written level by level.
   */
  const Pattern: string :=
    "+prefixedDevEui" + "/" + "+nodeId" + "/" + "+sensorId" + "/" + "+method" + "/" + "+ack" + "/" + "+type"

  /** The parameter names the grammar binds, in order. */
  const ParamNames: seq<string> := ["prefixedDevEui", "nodeId", "sensorId", "method", "ack", "type"]

  /** `protocolRef.validators.methods`: the valid command codes (src/lib/common.js:34). */
  const Methods: seq<int> := [0, 1, 2, 3, 4]

  /** A row of `labelsCommand`: the `Type` name and code of a command. */
  datatype CommandLabel = CommandLabel(typeName: string, value: int)

  /** A row of `labelsPresentation`: a sensor type, its code, and the variable types it uses (`ressources`). */
  datatype PresentationLabel = PresentationLabel(typeName: string, value: int, resources: seq<string>)

  /** A default value in `omaResources`: a number or a text. */
  datatype ResourceDefault = Numeric(number: int) | Text(text: string)

  /**
   * A row of `labelsSet`: a variable type, its code, its OMA resources with
   * their defaults, its `Unit` (`None` for `null`), and the sensor types that
   * use it (`sensorTypes`, where `*` stands for any).
   */
  datatype SetLabel = SetLabel(
    typeName: string,
    value: int,
    omaResources: map<string, ResourceDefault>,
    unit: Option<string>,
    sensorTypes: seq<string>)

  /** A row of `labelsInternal`: the `Type` name and code of an internal message. */
  datatype InternalLabel = InternalLabel(typeName: string, value: int)

  /** `labelsCommand` (src/lib/common.js:47-77). */
  const LabelsCommand: seq<CommandLabel> := [
    CommandLabel("presentation", 0),
    CommandLabel("set", 1),
    CommandLabel("req", 2),
    CommandLabel("internal", 3),
    CommandLabel("stream", 4)
  ]

  /** `labelsPresentation` (src/lib/common.js:89-386). */
  const LabelsPresentation: seq<PresentationLabel> := PresentationCodes0To19 + PresentationCodes20To39

  const PresentationCodes0To19: seq<PresentationLabel> := [
    PresentationLabel("S_DOOR", 0, ["V_TRIPPED", "V_ARMED"]),
    PresentationLabel("S_MOTION", 1, ["V_TRIPPED", "V_ARMED"]),
    PresentationLabel("S_SMOKE", 2, ["V_TRIPPED", "V_ARMED"]),
    PresentationLabel("S_BINARY", 3, ["V_STATUS", "V_WATT"]),
    PresentationLabel("S_DIMMER", 4, ["V_STATUS", "V_PERCENTAGE", "V_WATT"]),
    PresentationLabel("S_COVER", 5, ["V_UP", "V_DOWN", "V_STOP", "V_PERCENTAGE"]),
    PresentationLabel("S_TEMP", 6, ["V_TEMP", "V_ID"]),
    PresentationLabel("S_HUM", 7, ["V_HUM"]),
    PresentationLabel("S_BARO", 8, ["V_PRESSURE", "V_FORECAST"]),
    PresentationLabel("S_WIND", 9, ["V_WIND", "V_GUST", "V_DIRECTION"]),
    PresentationLabel("S_RAIN", 10, ["V_RAIN", "V_RAINRATE"]),
    PresentationLabel("S_UV", 11, ["V_UV"]),
    PresentationLabel("S_WEIGHT", 12, ["V_WEIGHT", "V_IMPEDANCE"]),
    PresentationLabel("S_POWER", 13, ["V_WATT", "V_KWH", "V_VAR", "V_VA", "V_POWER_FACTOR"]),
    PresentationLabel("S_HEATER", 14, ["V_HVAC_SETPOINT_HEAT", "V_HVAC_FLOW_STATE", "V_TEMP", "V_STATUS"]),
    PresentationLabel("S_DISTANCE", 15, ["V_DISTANCE", "V_UNIT_PREFIX"]),
    PresentationLabel("S_LIGHT_LEVEL", 16, ["V_LIGHT_LEVEL (uncalibrated percentage)", "V_LEVEL (light level in lux)"]),
    PresentationLabel("S_ARDUINO_NODE", 17, []),
    PresentationLabel("S_ARDUINO_REPEATER_NODE", 18, []),
    PresentationLabel("S_LOCK", 19, ["V_LOCK_STATUS"])
  ]

  const PresentationCodes20To39: seq<PresentationLabel> := [
    PresentationLabel("S_IR", 20, ["V_IR_SEND", "V_IR_RECEIVE", "V_IR_RECORD"]),
    PresentationLabel("S_WATER", 21, ["V_FLOW", "V_VOLUME"]),
    PresentationLabel("S_AIR_QUALITY", 22, ["V_LEVEL", "V_UNIT_PREFIX"]),
    PresentationLabel("S_CUSTOM", 23, []),
    PresentationLabel("S_DUST", 24, ["V_LEVEL", "V_UNIT_PREFIX"]),
    PresentationLabel("S_SCENE_CONTROLLER", 25, ["V_SCENE_ON", "V_SCENE_OFF"]),
    PresentationLabel("S_RGB_LIGHT", 26, ["V_RGB", "V_WATT"]),
    PresentationLabel("S_RGBW_LIGHT", 27, ["V_RGBW", "V_WATT"]),
    PresentationLabel("S_COLOR_SENSOR", 28, ["V_RGB"]),
    PresentationLabel("S_HVAC", 29, ["V_STATUS", "V_TEMP", "V_HVAC_SETPOINT_HEAT", "V_HVAC_SETPOINT_COOL", "V_HVAC_FLOW_STATE", "V_HVAC_FLOW_MODE", "V_HVAC_SPEED"]),
    PresentationLabel("S_MULTIMETER", 30, ["V_VOLTAGE", "V_CURRENT", "V_IMPEDANCE"]),
    PresentationLabel("S_SPRINKLER", 31, ["V_STATUS", "V_TRIPPED"]),
    PresentationLabel("S_WATER_LEAK", 32, ["V_TRIPPED", "V_ARMED"]),
    PresentationLabel("S_SOUND", 33, ["V_LEVEL", "V_TRIPPED", "V_ARMED"]),
    PresentationLabel("S_VIBRATION", 34, ["V_LEVEL", "V_TRIPPED", "V_ARMED"]),
    PresentationLabel("S_MOISTURE", 35, ["V_LEVEL", "V_TRIPPED", "V_ARMED"]),
    PresentationLabel("S_INFO", 36, ["V_TEXT"]),
    PresentationLabel("S_GAS", 37, ["V_FLOW", "V_VOLUME"]),
    PresentationLabel("S_GPS", 38, ["V_POSITION"]),
    PresentationLabel("S_WATER_QUALITY", 39, ["V_TEMP", "V_PH", "V_ORP", "V_EC", "V_STATUS"])
  ]

  /** `labelsSet` (src/lib/common.js:399-906). */
  const LabelsSet: seq<SetLabel> := SetCodes0To19 + SetCodes20To39 + SetCodes40To56

  const SetCodes0To19: seq<SetLabel> := [
    SetLabel("V_TEMP", 0, map["5700" := Numeric(0), "5701" := Text("\U{B0}C")], Some("\U{B0}C"), ["S_TEMP", "S_HEATER", "S_HVAC", "S_WATER_QUALITY"]),
    SetLabel("V_HUM", 1, map["5700" := Numeric(0), "5701" := Text("%")], Some("%"), ["S_HUM"]),
    SetLabel("V_STATUS", 2, map["5701" := Text("%"), "5850" := Numeric(0)], None, ["S_BINARY", "S_DIMMER", "S_SPRINKLER", "S_HVAC", "S_HEATER", "S_WATER_QUALITY"]),
    SetLabel("V_PERCENTAGE", 3, map["5701" := Text("%"), "5851" := Numeric(0)], Some("%"), ["S_DIMMER", "S_COVER"]),
    SetLabel("V_PRESSURE", 4, map["5700" := Numeric(0), "5701" := Text("Pa")], Some("Pa"), ["S_BARO"]),
    SetLabel("V_FORECAST", 5, map["5700" := Numeric(0), "5701" := Text("%")], None, ["S_BARO"]),
    SetLabel("V_RAIN", 6, map["5700" := Numeric(0), "5701" := Text("mm")], Some("mm"), ["S_RAIN"]),
    SetLabel("V_RAINRATE", 7, map["5700" := Numeric(0), "5701" := Text("mm/d")], Some("mm/d"), ["S_RAIN"]),
    SetLabel("V_WIND", 8, map["5517" := Numeric(0)], None, ["S_WIND"]),
    SetLabel("V_GUST", 9, map["5705" := Numeric(0)], None, ["S_WIND"]),
    SetLabel("V_DIRECTION", 10, map["5705" := Numeric(0)], None, ["S_WIND"]),
    SetLabel("V_UV", 11, map["5700" := Numeric(0), "5701" := Text("%")], None, ["S_UV"]),
    SetLabel("V_WEIGHT", 12, map["5700" := Numeric(0), "5701" := Text("kg")], Some("kg"), ["S_WEIGHT"]),
    SetLabel("V_DISTANCE", 13, map["5700" := Numeric(0), "5701" := Text("m")], Some("m"), ["S_DISTANCE"]),
    SetLabel("V_IMPEDANCE", 14, map["5700" := Numeric(0), "5701" := Text("%")], None, ["S_MULTIMETER", "S_WEIGHT"]),
    SetLabel("V_ARMED", 15, map["5500" := Numeric(0)], None, ["S_DOOR", "S_MOTION", "S_SMOKE", "S_SPRINKLER", "S_WATER_LEAK", "S_SOUND", "S_VIBRATION", "S_MOISTURE"]),
    SetLabel("V_TRIPPED", 16, map["5500" := Numeric(0)], None, ["S_DOOR", "S_MOTION", "S_SMOKE", "S_SPRINKLER", "S_WATER_LEAK", "S_SOUND", "S_VIBRATION", "S_MOISTURE"]),
    SetLabel("V_WATT", 17, map["5700" := Numeric(0), "5701" := Text("W")], Some("W"), ["S_POWER", "S_BINARY", "S_DIMMER", "S_RGB_LIGHT", "S_RGBW_LIGHT"]),
    SetLabel("V_KWH", 18, map["5700" := Numeric(0), "5701" := Text("kWh")], Some("kWh"), ["S_POWER"]),
    SetLabel("V_SCENE_ON", 19, map["5532" := Text("up")], None, ["S_SCENE_CONTROLLER"])
  ]

  const SetCodes20To39: seq<SetLabel> := [
    SetLabel("V_SCENE_OFF", 20, map["5533" := Text("down")], None, ["S_SCENE_CONTROLLER"]),
    SetLabel("V_HVAC_FLOW_STATE", 21, map["5900" := Text("Off")], None, ["S_HVAC", "S_HEATER"]),
    SetLabel("V_HVAC_SPEED", 22, map["5900" := Text("Min")], None, ["S_HVAC", "S_HEATER"]),
    SetLabel("V_LIGHT_LEVEL", 23, map["5700" := Numeric(0), "5701" := Text("%")], None, ["S_LIGHT_LEVEL"]),
    SetLabel("V_VAR1", 24, map["5700" := Numeric(0), "5701" := Text("%")], None, ["*"]),
    SetLabel("V_VAR2", 25, map["5700" := Numeric(0), "5701" := Text("%")], None, ["*"]),
    SetLabel("V_VAR3", 26, map["5700" := Numeric(0), "5701" := Text("%")], None, ["*"]),
    SetLabel("V_VAR4", 27, map["5700" := Numeric(0), "5701" := Text("%")], None, ["*"]),
    SetLabel("V_VAR5", 28, map["5700" := Numeric(0), "5701" := Text("%")], None, ["*"]),
    SetLabel("V_UP", 29, map["5532" := Text("up")], None, ["S_COVER"]),
    SetLabel("V_DOWN", 30, map["5533" := Text("down")], None, ["S_COVER"]),
    SetLabel("V_STOP", 31, map["5823" := Text("stop")], None, ["S_COVER"]),
    SetLabel("V_IR_SEND", 32, map["5910" := Numeric(0)], None, ["S_IR"]),
    SetLabel("V_IR_RECEIVE", 33, map["5910" := Numeric(0)], None, ["S_IR"]),
    SetLabel("V_FLOW", 34, map["5700" := Numeric(0), "5701" := Text("m")], Some("m"), ["S_WATER"]),
    SetLabel("V_VOLUME", 35, map["5700" := Numeric(0), "5701" := Text("%")], None, ["S_WATER"]),
    SetLabel("V_LOCK_STATUS", 36, map["5500" := Numeric(0)], None, ["S_LOCK"]),
    SetLabel("V_LEVEL", 37, map["5700" := Numeric(0), "5701" := Text("%")], None, ["S_DUST", "S_AIR_QUALITY", "S_SOUND", "S_VIBRATION", "S_LIGHT_LEVEL"]),
    SetLabel("V_VOLTAGE", 38, map["5700" := Numeric(0), "5701" := Text("V")], Some("V"), ["S_MULTIMETER"]),
    SetLabel("V_CURRENT", 39, map["5700" := Numeric(0), "5701" := Text("mA")], None, ["S_MULTIMETER"])
  ]

  const SetCodes40To56: seq<SetLabel> := [
    SetLabel("V_RGB", 40, map["5706" := Text("\"ff0000\"")], None, ["S_RGB_LIGHT", "S_COLOR_SENSOR"]),
    SetLabel("V_RGBW", 41, map["5706" := Text("\"ff0000\"")], None, ["S_RGBW_LIGHT"]),
    SetLabel("V_ID", 42, map["5700" := Numeric(0)], None, ["S_TEMP"]),
    SetLabel("V_UNIT_PREFIX", 43, map["5701" := Text("")], None, ["S_DISTANCE", "S_DUST", "S_AIR_QUALITY"]),
    SetLabel("V_HVAC_SETPOINT_COOL", 44, map["5900" := Text("Off")], None, ["S_HVAC"]),
    SetLabel("V_HVAC_SETPOINT_HEAT", 45, map["5900" := Text("Off")], None, ["S_HVAC", "S_HEATER"]),
    SetLabel("V_HVAC_FLOW_MODE", 46, map["5900" := Text("Auto")], None, ["S_HVAC"]),
    SetLabel("V_TEXT", 47, map["5527" := Text("Auto")], None, ["S_INFO"]),
    SetLabel("V_CUSTOM", 48, map["5700" := Numeric(0), "5701" := Text("")], None, ["S_CUSTOM"]),
    SetLabel("V_POSITION", 49, map["5514" := Text("55.722526"), "5515" := Text("13.017972;18"), "5700" := Numeric(0)], None, ["S_GPS"]),
    SetLabel("V_IR_RECORD", 50, map["5910" := Numeric(0)], None, ["S_IR"]),
    SetLabel("V_PH", 51, map["5700" := Numeric(0), "5701" := Text("%")], None, ["S_WATER_QUALITY"]),
    SetLabel("V_ORP", 52, map["5700" := Numeric(0), "5701" := Text("mV")], Some("mV"), ["S_WATER_QUALITY"]),
    SetLabel("V_EC", 53, map["5700" := Numeric(0), "5701" := Text("ms/cm")], Some("ms/cm"), ["S_WATER_QUALITY"]),
    SetLabel("V_VAR", 54, map["5700" := Numeric(0), "5701" := Text("VAR")], None, ["S_POWER"]),
    SetLabel("V_VA", 55, map["5700" := Numeric(0), "5701" := Text("VA")], Some("VA"), ["S_POWER"]),
    SetLabel("V_POWER_FACTOR", 56, map["5700" := Numeric(0)], None, ["S_POWER"])
  ]

  /** `labelsInternal` (src/lib/common.js:916-1071). */
  const LabelsInternal: seq<InternalLabel> := InternalCodes0To19 + InternalCodes20To28

  const InternalCodes0To19: seq<InternalLabel> := [
    InternalLabel("I_BATTERY_LEVEL", 0),
    InternalLabel("I_TIME", 1),
    InternalLabel("I_VERSION", 2),
    InternalLabel("I_ID_REQUEST", 3),
    InternalLabel("I_ID_RESPONSE", 4),
    InternalLabel("I_INCLUSION_MODE", 5),
    InternalLabel("I_CONFIG", 6),
    InternalLabel("I_FIND_PARENT", 7),
    InternalLabel("I_FIND_PARENT_RESPONSE", 8),
    InternalLabel("I_LOG_MESSAGE", 9),
    InternalLabel("I_CHILDREN", 10),
    InternalLabel("I_SKETCH_NAME", 11),
    InternalLabel("I_SKETCH_VERSION", 12),
    InternalLabel("I_REBOOT", 13),
    InternalLabel("I_GATEWAY_READY", 14),
    InternalLabel("I_SIGNING_PRESENTATION", 15),
    InternalLabel("I_NONCE_REQUEST", 16),
    InternalLabel("I_NONCE_RESPONSE", 17),
    InternalLabel("I_HEARTBEAT_REQUEST", 18),
    InternalLabel("I_PRESENTATION", 19)
  ]

  const InternalCodes20To28: seq<InternalLabel> := [
    InternalLabel("I_DISCOVER_REQUEST", 20),
    InternalLabel("I_DISCOVER_RESPONSE", 21),
    InternalLabel("I_HEARTBEAT_RESPONSE", 22),
    InternalLabel("I_LOCKED", 23),
    InternalLabel("I_PING", 24),
    InternalLabel("I_PONG", 25),
    InternalLabel("I_REGISTRATION_REQUEST", 26),
    InternalLabel("I_REGISTRATION_RESPONSE", 27),
    InternalLabel("I_DEBUG", 28)
  ]

  /** `validators.methods.some(meth => meth === code)`. */
  predicate IsMethod(code: int) {
    exists i :: 0 <= i < |Methods| && Methods[i] == code
  }

  /** `labelsPresentation.some(label => label.value === code)`. */
  predicate IsPresentationCode(code: int) {
    exists i :: 0 <= i < |LabelsPresentation| && LabelsPresentation[i].value == code
  }

  /** `labelsSet.some(label => label.value === code)`. */
  predicate IsSetCode(code: int) {
    exists i :: 0 <= i < |LabelsSet| && LabelsSet[i].value == code
  }

  /** `labelsInternal.some(label => label.value === code)`. */
  predicate IsInternalCode(code: int) {
    exists i :: 0 <= i < |LabelsInternal| && LabelsInternal[i].value == code
  }

  /** Some presentation row has the `Type` name `name`. */
  predicate IsPresentationType(name: string) {
    exists p :: 0 <= p < |LabelsPresentation| && LabelsPresentation[p].typeName == name
  }

  /** The levels of the grammar: `+` followed by a parameter name, each. */
  function PatternLevels(): seq<string> {
    ["+prefixedDevEui", "+nodeId", "+sensorId", "+method", "+ack", "+type"]
  }

  lemma PatternJoinsLevels()
    ensures Join(PatternLevels()) == Pattern
  {
    JoinSix("+prefixedDevEui", "+nodeId", "+sensorId", "+method", "+ack", "+type");
  }

  lemma PatternSplitsIntoLevels()
    ensures Split(Pattern) == PatternLevels()
  {
    PatternJoinsLevels();
    SplitJoin(PatternLevels());
  }

  /**
   * The grammar is six `+` wildcards, one per level, binding the six
   * parameter names in order; the names are distinct.
   */
  lemma GrammarIsSixNamedWildcards()
    ensures |Template(Pattern)| == |ParamNames| == 6
    ensures forall i :: 0 <= i < 6 ==> Template(Pattern)[i] == Variable(ParamNames[i])
    ensures forall i, j :: 0 <= i < j < 6 ==> ParamNames[i] != ParamNames[j]
  {
    PatternSplitsIntoLevels();
  }

  /** The command codes are 0 to 4 in order: exactly the valid methods. */
  lemma CommandCodesAreMethods()
    ensures |LabelsCommand| == |Methods| == 5
    ensures forall i :: 0 <= i < |Methods| ==> LabelsCommand[i].value == Methods[i] == i
  {
  }

  /** A code is a valid method exactly when it lies between 0 and 4. */
  lemma MethodRange(code: int)
    ensures IsMethod(code) <==> 0 <= code <= 4
  {
    if 0 <= code <= 4 {
      assert Methods[code] == code;
    }
  }

  /** The presentation codes are 0 to 39, each at its own index, so no code repeats. */
  lemma PresentationCodesAreIndices()
    ensures |LabelsPresentation| == 40
    ensures forall i :: 0 <= i < |LabelsPresentation| ==> LabelsPresentation[i].value == i
  {
  }

  /** Looking up a presentation code succeeds exactly for 0 to 39. */
  lemma PresentationCodeRange(code: int)
    ensures IsPresentationCode(code) <==> 0 <= code < 40
  {
    PresentationCodesAreIndices();
    if 0 <= code < 40 {
      assert LabelsPresentation[code].value == code;
    }
  }

  /** The set/req codes are 0 to 56, each at its own index, so no code repeats. */
  lemma SetCodesAreIndices()
    ensures |LabelsSet| == 57
    ensures forall i :: 0 <= i < |LabelsSet| ==> LabelsSet[i].value == i
  {
  }

  /** Looking up a set/req code succeeds exactly for 0 to 56. */
  lemma SetCodeRange(code: int)
    ensures IsSetCode(code) <==> 0 <= code < 57
  {
    SetCodesAreIndices();
    if 0 <= code < 57 {
      assert LabelsSet[code].value == code;
    }
  }

  /** The internal codes are 0 to 28, each at its own index, so no code repeats. */
  lemma InternalCodesAreIndices()
    ensures |LabelsInternal| == 29
    ensures forall i :: 0 <= i < |LabelsInternal| ==> LabelsInternal[i].value == i
  {
  }

  /** Looking up an internal code succeeds exactly for 0 to 28. */
  lemma InternalCodeRange(code: int)
    ensures IsInternalCode(code) <==> 0 <= code < 29
  {
    InternalCodesAreIndices();
    if 0 <= code < 29 {
      assert LabelsInternal[code].value == code;
    }
  }

  /** The `Type` names of a table's rows, in order, read by `typeName`. */
  function TypeNames<L>(rows: seq<L>, typeName: L -> string): (names: seq<string>)
    ensures |names| == |rows|
  {
    seq(|rows|, i requires 0 <= i < |rows| => typeName(rows[i]))
  }

  /** The `Type` field of each table's rows. */
  const PresentationName := (row: PresentationLabel) => row.typeName
  const SetName := (row: SetLabel) => row.typeName
  const InternalName := (row: InternalLabel) => row.typeName

  /** No name occurs twice. */
  ghost predicate Distinct(names: seq<string>) {
    forall i, j :: 0 <= i < j < |names| ==> names[i] != names[j]
  }

  /** No name occurs in both. */
  ghost predicate Disjoint(a: seq<string>, b: seq<string>) {
    forall i, j :: 0 <= i < |a| && 0 <= j < |b| ==> a[i] != b[j]
  }

  lemma DistinctConcat(a: seq<string>, b: seq<string>)
    requires Distinct(a) && Distinct(b) && Disjoint(a, b)
    ensures Distinct(a + b)
  {
  }

  lemma DisjointConcat(a: seq<string>, b: seq<string>, c: seq<string>)
    requires Disjoint(a, c) && Disjoint(b, c)
    ensures Disjoint(a + b, c)
  {
  }

  lemma TypeNamesAppend<L>(a: seq<L>, b: seq<L>, typeName: L -> string)
    ensures TypeNames(a + b, typeName) == TypeNames(a, typeName) + TypeNames(b, typeName)
  {
  }

  /** The `Type` names of presentation codes 0 to 19, in order. */
  function PresentationNames0To19(): seq<string> {
    [
      "S_DOOR", "S_MOTION", "S_SMOKE", "S_BINARY", "S_DIMMER", "S_COVER", "S_TEMP", "S_HUM",
      "S_BARO", "S_WIND", "S_RAIN", "S_UV", "S_WEIGHT", "S_POWER", "S_HEATER", "S_DISTANCE",
      "S_LIGHT_LEVEL", "S_ARDUINO_NODE", "S_ARDUINO_REPEATER_NODE", "S_LOCK"
    ]
  }

  lemma PresentationColumn0To19()
    ensures TypeNames(PresentationCodes0To19, PresentationName) == PresentationNames0To19()
  {
  }

  lemma PresentationNames0To19Distinct()
    ensures Distinct(PresentationNames0To19())
  {
  }

  /** The `Type` names of presentation codes 20 to 39, in order. */
  function PresentationNames20To39(): seq<string> {
    [
      "S_IR", "S_WATER", "S_AIR_QUALITY", "S_CUSTOM", "S_DUST", "S_SCENE_CONTROLLER",
      "S_RGB_LIGHT", "S_RGBW_LIGHT", "S_COLOR_SENSOR", "S_HVAC", "S_MULTIMETER",
      "S_SPRINKLER", "S_WATER_LEAK", "S_SOUND", "S_VIBRATION", "S_MOISTURE", "S_INFO",
      "S_GAS", "S_GPS", "S_WATER_QUALITY"
    ]
  }

  lemma PresentationColumn20To39()
    ensures TypeNames(PresentationCodes20To39, PresentationName) == PresentationNames20To39()
  {
  }

  lemma PresentationNames20To39Distinct()
    ensures Distinct(PresentationNames20To39())
  {
  }

  lemma PresentationNames0To19Disjoint20To39()
    ensures Disjoint(PresentationNames0To19(), PresentationNames20To39())
  {
  }

  /** The `Type` names of set/req codes 0 to 19, in order. */
  function SetNames0To19(): seq<string> {
    [
      "V_TEMP", "V_HUM", "V_STATUS", "V_PERCENTAGE", "V_PRESSURE", "V_FORECAST", "V_RAIN",
      "V_RAINRATE", "V_WIND", "V_GUST", "V_DIRECTION", "V_UV", "V_WEIGHT", "V_DISTANCE",
      "V_IMPEDANCE", "V_ARMED", "V_TRIPPED", "V_WATT", "V_KWH", "V_SCENE_ON"
    ]
  }

  lemma SetColumn0To19()
    ensures TypeNames(SetCodes0To19, SetName) == SetNames0To19()
  {
  }

  lemma SetNames0To19Distinct()
    ensures Distinct(SetNames0To19())
  {
  }

  /** The `Type` names of set/req codes 20 to 39, in order. */
  function SetNames20To39(): seq<string> {
    [
      "V_SCENE_OFF", "V_HVAC_FLOW_STATE", "V_HVAC_SPEED", "V_LIGHT_LEVEL", "V_VAR1", "V_VAR2",
      "V_VAR3", "V_VAR4", "V_VAR5", "V_UP", "V_DOWN", "V_STOP", "V_IR_SEND", "V_IR_RECEIVE",
      "V_FLOW", "V_VOLUME", "V_LOCK_STATUS", "V_LEVEL", "V_VOLTAGE", "V_CURRENT"
    ]
  }

  lemma SetColumn20To39()
    ensures TypeNames(SetCodes20To39, SetName) == SetNames20To39()
  {
  }

  lemma SetNames20To39Distinct()
    ensures Distinct(SetNames20To39())
  {
  }

  /** The `Type` names of set/req codes 40 to 56, in order. */
  function SetNames40To56(): seq<string> {
    [
      "V_RGB", "V_RGBW", "V_ID", "V_UNIT_PREFIX", "V_HVAC_SETPOINT_COOL",
      "V_HVAC_SETPOINT_HEAT", "V_HVAC_FLOW_MODE", "V_TEXT", "V_CUSTOM", "V_POSITION",
      "V_IR_RECORD", "V_PH", "V_ORP", "V_EC", "V_VAR", "V_VA", "V_POWER_FACTOR"
    ]
  }

  lemma SetColumn40To56()
    ensures TypeNames(SetCodes40To56, SetName) == SetNames40To56()
  {
  }

  lemma SetNames40To56Distinct()
    ensures Distinct(SetNames40To56())
  {
  }

  lemma SetNames0To19Disjoint20To39()
    ensures Disjoint(SetNames0To19(), SetNames20To39())
  {
  }

  lemma SetNames0To19Disjoint40To56()
    ensures Disjoint(SetNames0To19(), SetNames40To56())
  {
  }

  lemma SetNames20To39Disjoint40To56()
    ensures Disjoint(SetNames20To39(), SetNames40To56())
  {
  }

  /** The `Type` names of internal codes 0 to 19, in order. */
  function InternalNames0To19(): seq<string> {
    [
      "I_BATTERY_LEVEL", "I_TIME", "I_VERSION", "I_ID_REQUEST", "I_ID_RESPONSE",
      "I_INCLUSION_MODE", "I_CONFIG", "I_FIND_PARENT", "I_FIND_PARENT_RESPONSE",
      "I_LOG_MESSAGE", "I_CHILDREN", "I_SKETCH_NAME", "I_SKETCH_VERSION", "I_REBOOT",
      "I_GATEWAY_READY", "I_SIGNING_PRESENTATION", "I_NONCE_REQUEST", "I_NONCE_RESPONSE",
      "I_HEARTBEAT_REQUEST", "I_PRESENTATION"
    ]
  }

  lemma InternalColumn0To19()
    ensures TypeNames(InternalCodes0To19, InternalName) == InternalNames0To19()
  {
  }

  lemma InternalNames0To19Distinct()
    ensures Distinct(InternalNames0To19())
  {
  }

  /** The `Type` names of internal codes 20 to 28, in order. */
  function InternalNames20To28(): seq<string> {
    [
      "I_DISCOVER_REQUEST", "I_DISCOVER_RESPONSE", "I_HEARTBEAT_RESPONSE", "I_LOCKED",
      "I_PING", "I_PONG", "I_REGISTRATION_REQUEST", "I_REGISTRATION_RESPONSE", "I_DEBUG"
    ]
  }

  lemma InternalColumn20To28()
    ensures TypeNames(InternalCodes20To28, InternalName) == InternalNames20To28()
  {
  }

  lemma InternalNames20To28Distinct()
    ensures Distinct(InternalNames20To28())
  {
  }

  lemma InternalNames0To19Disjoint20To28()
    ensures Disjoint(InternalNames0To19(), InternalNames20To28())
  {
  }

  /** No two commands share a `Type` name. */
  lemma CommandTypeNamesDistinct()
    ensures forall i, j :: 0 <= i < j < |LabelsCommand| ==> LabelsCommand[i].typeName != LabelsCommand[j].typeName
  {
  }

  /** No two presentation rows share a `Type` name. */
  lemma PresentationTypeNamesDistinct()
    ensures forall i, j :: 0 <= i < j < |LabelsPresentation| ==>
      LabelsPresentation[i].typeName != LabelsPresentation[j].typeName
  {
    PresentationColumn0To19();
    PresentationColumn20To39();
    PresentationNames0To19Distinct();
    PresentationNames20To39Distinct();
    PresentationNames0To19Disjoint20To39();
    TypeNamesAppend(PresentationCodes0To19, PresentationCodes20To39, PresentationName);
    DistinctConcat(PresentationNames0To19(), PresentationNames20To39());
    var names := TypeNames(LabelsPresentation, PresentationName);
    assert forall i :: 0 <= i < |LabelsPresentation| ==> names[i] == LabelsPresentation[i].typeName;
  }

  /** No two set/req rows share a `Type` name. */
  lemma SetTypeNamesDistinct()
    ensures forall i, j :: 0 <= i < j < |LabelsSet| ==> LabelsSet[i].typeName != LabelsSet[j].typeName
  {
    var a, b, c := SetNames0To19(), SetNames20To39(), SetNames40To56();
    SetColumn0To19();
    SetColumn20To39();
    SetColumn40To56();
    SetNames0To19Distinct();
    SetNames20To39Distinct();
    SetNames40To56Distinct();
    SetNames0To19Disjoint20To39();
    SetNames0To19Disjoint40To56();
    SetNames20To39Disjoint40To56();
    DistinctConcat(a, b);
    DisjointConcat(a, b, c);
    DistinctConcat(a + b, c);
    TypeNamesAppend(SetCodes0To19, SetCodes20To39, SetName);
    TypeNamesAppend(SetCodes0To19 + SetCodes20To39, SetCodes40To56, SetName);
    var names := TypeNames(LabelsSet, SetName);
    assert forall i :: 0 <= i < |LabelsSet| ==> names[i] == LabelsSet[i].typeName;
  }

  /** No two internal rows share a `Type` name. */
  lemma InternalTypeNamesDistinct()
    ensures forall i, j :: 0 <= i < j < |LabelsInternal| ==>
      LabelsInternal[i].typeName != LabelsInternal[j].typeName
  {
    InternalColumn0To19();
    InternalColumn20To28();
    InternalNames0To19Distinct();
    InternalNames20To28Distinct();
    InternalNames0To19Disjoint20To28();
    TypeNamesAppend(InternalCodes0To19, InternalCodes20To28, InternalName);
    DistinctConcat(InternalNames0To19(), InternalNames20To28());
    var names := TypeNames(LabelsInternal, InternalName);
    assert forall i :: 0 <= i < |LabelsInternal| ==> names[i] == LabelsInternal[i].typeName;
  }

  /** Every sensor type a set/req row names is `*` or a presentation `Type`. */
  ghost predicate UsesKnownSensors(row: SetLabel) {
    forall k :: 0 <= k < |row.sensorTypes| ==>
      row.sensorTypes[k] == "*" || row.sensorTypes[k] in TypeNames(LabelsPresentation, PresentationName)
  }

  /** A set/req row with a unit records the same text as its OMA resource 5701. */
  predicate UnitAgrees(row: SetLabel) {
    row.unit.Some? ==> "5701" in row.omaResources && row.omaResources["5701"] == Text(row.unit.value)
  }

  lemma SetSensorTypes0To19()
    ensures forall i :: 0 <= i < |SetCodes0To19| ==> UsesKnownSensors(SetCodes0To19[i])
  {
    PresentationColumn0To19();
    PresentationColumn20To39();
    TypeNamesAppend(PresentationCodes0To19, PresentationCodes20To39, PresentationName);
  }

  lemma SetSensorTypes20To39()
    ensures forall i :: 0 <= i < |SetCodes20To39| ==> UsesKnownSensors(SetCodes20To39[i])
  {
    PresentationColumn0To19();
    PresentationColumn20To39();
    TypeNamesAppend(PresentationCodes0To19, PresentationCodes20To39, PresentationName);
  }

  lemma SetSensorTypes40To56()
    ensures forall i :: 0 <= i < |SetCodes40To56| ==> UsesKnownSensors(SetCodes40To56[i])
  {
    PresentationColumn0To19();
    PresentationColumn20To39();
    TypeNamesAppend(PresentationCodes0To19, PresentationCodes20To39, PresentationName);
  }

  /**
   * Every entry of a set/req row's `sensorTypes` is `*` or the `Type` of a
   * presentation row: the variables are used by sensor types that exist.
   */
  lemma SensorTypesArePresentationTypes()
    ensures forall i, k :: 0 <= i < |LabelsSet| && 0 <= k < |LabelsSet[i].sensorTypes| ==>
      LabelsSet[i].sensorTypes[k] == "*" || IsPresentationType(LabelsSet[i].sensorTypes[k])
  {
    SetSensorTypes0To19();
    SetSensorTypes20To39();
    SetSensorTypes40To56();
    forall i, k | 0 <= i < |LabelsSet| && 0 <= k < |LabelsSet[i].sensorTypes|
      ensures LabelsSet[i].sensorTypes[k] == "*" || IsPresentationType(LabelsSet[i].sensorTypes[k])
    {
      if i < 20 {
        assert LabelsSet[i] == SetCodes0To19[i];
      } else if i < 40 {
        assert LabelsSet[i] == SetCodes20To39[i - 20];
      } else {
        assert LabelsSet[i] == SetCodes40To56[i - 40];
      }
      var name := LabelsSet[i].sensorTypes[k];
      if name != "*" {
        var names := TypeNames(LabelsPresentation, PresentationName);
        var p :| 0 <= p < |names| && names[p] == name;
        assert LabelsPresentation[p].typeName == name;
      }
    }
  }

  lemma SetUnits0To19()
    ensures forall i :: 0 <= i < |SetCodes0To19| ==> UnitAgrees(SetCodes0To19[i])
  {
  }

  lemma SetUnits20To39()
    ensures forall i :: 0 <= i < |SetCodes20To39| ==> UnitAgrees(SetCodes20To39[i])
  {
  }

  lemma SetUnits40To56()
    ensures forall i :: 0 <= i < |SetCodes40To56| ==> UnitAgrees(SetCodes40To56[i])
  {
  }

  /** Whenever a set/req row has a `Unit`, its OMA resource 5701 holds that same unit text. */
  lemma UnitsMatchOmaResources()
    ensures forall i :: 0 <= i < |LabelsSet| && LabelsSet[i].unit.Some? ==>
      "5701" in LabelsSet[i].omaResources && LabelsSet[i].omaResources["5701"] == Text(LabelsSet[i].unit.value)
  {
    SetUnits0To19();
    SetUnits20To39();
    SetUnits40To56();
    forall i | 0 <= i < |LabelsSet|
      ensures UnitAgrees(LabelsSet[i])
    {
      if i < 20 {
        assert LabelsSet[i] == SetCodes0To19[i];
      } else if i < 40 {
        assert LabelsSet[i] == SetCodes20To39[i - 20];
      } else {
        assert LabelsSet[i] == SetCodes40To56[i - 40];
      }
    }
  }
}
