/**
 The configuration schema of the Satel Integra integration: the checks of each
 field of the integration's mapping, then the cross-field check that a device
 code is configured whenever switchable outputs are.
 */
module Configuration {
  import opened Options
  import opened OrderedDict
  import opened RawValues

  /** The key names and defaults that the integration's constants supply and
      the TCP port range of the host's port check; their values are not part
      of this model. */
  datatype Constants = Constants(
    hostKey: string,
    portKey: string,
    deviceCodeKey: string,
    partitionsKey: string,
    zonesKey: string,
    outputsKey: string,
    switchableOutputsKey: string,
    integrationKeyKey: string,
    tempSensorsKey: string,
    zoneNameKey: string,
    zoneTypeKey: string,
    armHomeModeKey: string,
    tempSensorNameKey: string,
    defaultPort: Raw,
    defaultZoneType: Raw,
    defaultArmHomeMode: Raw,
    minPort: int,
    maxPort: int)

  /** The keys leading from the integration's mapping to an offending value. */
  type Path = seq<Raw>

  datatype ErrorKind =
    | ExpectedDict
    | RequiredKeyMissing
    | ExtraKeyNotAllowed
    | StringIsNone
    | ExpectedString
    | NotAnInteger
    | PortOutOfRange
    | NotAnArmHomeMode
    | AlarmCodeRequired

  datatype Invalid = Invalid(path: Path, kind: ErrorKind)

  /** A failed validation reports at least one error. */
  type Errors = errs: seq<Invalid> | |errs| > 0 witness [Invalid([], ExpectedDict)]

  datatype Checked<+T> = Ok(value: T) | Err(errors: Errors)

  function ErrorsOf<T>(r: Checked<T>): (errs: seq<Invalid>)
    ensures |errs| == 0 <==> r.Ok?
  {
    if r.Ok? then [] else r.errors
  }

  datatype ZoneConfig = ZoneConfig(name: string, zoneType: string)
  datatype EditableOutputConfig = EditableOutputConfig(name: string)
  datatype PartitionConfig = PartitionConfig(name: string, armHomeMode: int)
  datatype TempSensorConfig = TempSensorConfig(name: string)

  /** The key of an id map: the integer a key converts to, or the key itself
      when it does not convert. */
  datatype IdKey = Id(n: int) | Kept(key: Raw)

  /** The value of an id map: the entry schema's result, or the value as given
      beside a kept key. */
  datatype IdEntry<+T> = Validated(config: T) | Unchecked(value: Raw)

  /** An id map as an ordered dictionary. */
  type IdMap<T> = seq<(IdKey, IdEntry<T>)>

  /** The validated configuration; `extra` holds the entries under keys the
      schema does not name, which the open mapping keeps. */
  datatype SatelConfig = SatelConfig(
    host: string,
    port: int,
    deviceCode: Option<string>,
    partitions: IdMap<PartitionConfig>,
    zones: IdMap<ZoneConfig>,
    outputs: IdMap<ZoneConfig>,
    switchableOutputs: IdMap<EditableOutputConfig>,
    integrationKey: string,
    tempSensors: IdMap<TempSensorConfig>,
    extra: seq<(Raw, Raw)>)

  /** The value under `key` in a raw mapping. */
  function Field(raw: Raw, key: string): Option<Raw> {
    if raw.RDict? then Get(raw.entries, RStr(key)) else None
  }

  // ---------------------------------------------------------------------------
  // Value checks

  /** The host's string check: `None`, lists and dictionaries are refused;
      any other value is converted with `str`. */
  function CvString(path: Path, v: Raw): (r: Checked<string>)
    ensures r.Ok? <==> !(v.RNone? || v.RList? || v.RDict?)
    ensures v.RStr? ==> r == Ok(v.s)
  {
    match v
    case RNone => Err([Invalid(path, StringIsNone)])
    case RList(_) => Err([Invalid(path, ExpectedString)])
    case RDict(_) => Err([Invalid(path, ExpectedString)])
    case RStr(s) => Ok(s)
    case RInt(i) => Ok(IntToString(i))
    case RBool(b) => Ok(if b then "True" else "False")
  }

  /** The host's port check: an integer conversion, then the TCP port range. */
  function CvPort(c: Constants, path: Path, v: Raw): (r: Checked<int>)
    ensures r.Ok? <==> CoerceInt(v).Some? && c.minPort <= CoerceInt(v).value <= c.maxPort
    ensures r.Ok? ==> Some(r.value) == CoerceInt(v)
  {
    match CoerceInt(v)
    case None => Err([Invalid(path, NotAnInteger)])
    case Some(p) => if c.minPort <= p <= c.maxPort then Ok(p) else Err([Invalid(path, PortOutOfRange)])
  }

  /** Membership in `[1, 2, 3]`, by Python equality: `True` equals 1. */
  function ArmHomeModeIn(path: Path, v: Raw): (r: Checked<int>)
    ensures r.Ok? ==> r.value in {1, 2, 3}
    ensures v.RInt? ==> (r.Ok? <==> v.i in {1, 2, 3}) && (r.Ok? ==> r.value == v.i)
    ensures v.RStr? || v.RNone? || v.RList? || v.RDict? ==> r.Err?
  {
    match v
    case RInt(i) => if i == 1 || i == 2 || i == 3 then Ok(i) else Err([Invalid(path, NotAnArmHomeMode)])
    case RBool(b) => if b then Ok(1) else Err([Invalid(path, NotAnArmHomeMode)])
    case _ => Err([Invalid(path, NotAnArmHomeMode)])
  }

  // ---------------------------------------------------------------------------
  // Keys of a mapping

  /** A key that must be present. */
  function Required<T>(path: Path, d: seq<(Raw, Raw)>, key: string, check: (Path, Raw) -> Checked<T>): Checked<T> {
    match Get(d, RStr(key))
    case None => Err([Invalid(path + [RStr(key)], RequiredKeyMissing)])
    case Some(v) => check(path + [RStr(key)], v)
  }

  /** An optional key with a default: a missing key takes the default, which
      is then checked like a given value. */
  function Defaulted<T>(path: Path, d: seq<(Raw, Raw)>, key: string, default: Raw, check: (Path, Raw) -> Checked<T>): Checked<T> {
    check(path + [RStr(key)], GivenOr(d, key, default))
  }

  /** The value under `key`, or `default` when the key is missing. */
  function GivenOr(d: seq<(Raw, Raw)>, key: string, default: Raw): Raw {
    match Get(d, RStr(key)) case Some(v) => v case None => default
  }

  /** An optional key without a default: a missing key stays missing. */
  function Optional<T>(path: Path, d: seq<(Raw, Raw)>, key: string, check: (Path, Raw) -> Checked<T>): Checked<Option<T>> {
    match Get(d, RStr(key))
    case None => Ok(None)
    case Some(v) =>
      match check(path + [RStr(key)], v)
      case Ok(x) => Ok(Some(x))
      case Err(errs) => Err(errs)
  }

  /** One error for each key of a closed mapping that the schema does not name. */
  function ExtraKeyErrors(path: Path, d: seq<(Raw, Raw)>, allowed: set<Raw>): (errs: seq<Invalid>)
    ensures errs == [] <==> forall i :: 0 <= i < |d| ==> d[i].0 in allowed
    ensures forall e :: e in errs ==> e.kind == ExtraKeyNotAllowed
  {
    if d == [] then []
    else
      (if d[0].0 in allowed then [] else [Invalid(path + [d[0].0], ExtraKeyNotAllowed)])
      + ExtraKeyErrors(path, d[1..], allowed)
  }

  // ---------------------------------------------------------------------------
  // Entry schemas: closed mappings

  /** The zone schema, used for zones and plain outputs. */
  function ValidateZone(c: Constants, path: Path, v: Raw): (r: Checked<ZoneConfig>)
    ensures !v.RDict? ==> r == Err([Invalid(path, ExpectedDict)])
    ensures r.Ok? ==> v.RDict? && forall i :: 0 <= i < |v.entries| ==> v.entries[i].0 in {RStr(c.zoneNameKey), RStr(c.zoneTypeKey)}
    ensures r.Ok? ==> Field(v, c.zoneNameKey).Some? && CvString([], Field(v, c.zoneNameKey).value) == Ok(r.value.name)
  {
    if !v.RDict? then Err([Invalid(path, ExpectedDict)])
    else
      var extra := ExtraKeyErrors(path, v.entries, {RStr(c.zoneNameKey), RStr(c.zoneTypeKey)});
      var name := Required(path, v.entries, c.zoneNameKey, CvString);
      var zoneType := Defaulted(path, v.entries, c.zoneTypeKey, c.defaultZoneType, CvString);
      var errs := extra + ErrorsOf(name) + ErrorsOf(zoneType);
      if errs == [] then Ok(ZoneConfig(name.value, zoneType.value)) else Err(errs)
  }

  /** The switchable-output schema. */
  function ValidateEditableOutput(c: Constants, path: Path, v: Raw): (r: Checked<EditableOutputConfig>)
    ensures !v.RDict? ==> r == Err([Invalid(path, ExpectedDict)])
    ensures r.Ok? ==> v.RDict? && forall i :: 0 <= i < |v.entries| ==> v.entries[i].0 == RStr(c.zoneNameKey)
    ensures r.Ok? ==> Field(v, c.zoneNameKey).Some? && CvString([], Field(v, c.zoneNameKey).value) == Ok(r.value.name)
  {
    if !v.RDict? then Err([Invalid(path, ExpectedDict)])
    else
      var extra := ExtraKeyErrors(path, v.entries, {RStr(c.zoneNameKey)});
      var name := Required(path, v.entries, c.zoneNameKey, CvString);
      var errs := extra + ErrorsOf(name);
      if errs == [] then Ok(EditableOutputConfig(name.value)) else Err(errs)
  }

  /** The partition schema. */
  function ValidatePartition(c: Constants, path: Path, v: Raw): (r: Checked<PartitionConfig>)
    ensures !v.RDict? ==> r == Err([Invalid(path, ExpectedDict)])
    ensures r.Ok? ==> v.RDict? && forall i :: 0 <= i < |v.entries| ==> v.entries[i].0 in {RStr(c.zoneNameKey), RStr(c.armHomeModeKey)}
    ensures r.Ok? ==> Field(v, c.zoneNameKey).Some? && CvString([], Field(v, c.zoneNameKey).value) == Ok(r.value.name)
    ensures r.Ok? ==> r.value.armHomeMode in {1, 2, 3}
  {
    if !v.RDict? then Err([Invalid(path, ExpectedDict)])
    else
      var extra := ExtraKeyErrors(path, v.entries, {RStr(c.zoneNameKey), RStr(c.armHomeModeKey)});
      var name := Required(path, v.entries, c.zoneNameKey, CvString);
      var mode := Defaulted(path, v.entries, c.armHomeModeKey, c.defaultArmHomeMode, ArmHomeModeIn);
      var errs := extra + ErrorsOf(name) + ErrorsOf(mode);
      if errs == [] then Ok(PartitionConfig(name.value, mode.value)) else Err(errs)
  }

  /** The temperature-sensor schema. */
  function ValidateTempSensor(c: Constants, path: Path, v: Raw): (r: Checked<TempSensorConfig>)
    ensures !v.RDict? ==> r == Err([Invalid(path, ExpectedDict)])
    ensures r.Ok? ==> v.RDict? && forall i :: 0 <= i < |v.entries| ==> v.entries[i].0 == RStr(c.tempSensorNameKey)
    ensures r.Ok? ==> Field(v, c.tempSensorNameKey).Some? && CvString([], Field(v, c.tempSensorNameKey).value) == Ok(r.value.name)
  {
    if !v.RDict? then Err([Invalid(path, ExpectedDict)])
    else
      var extra := ExtraKeyErrors(path, v.entries, {RStr(c.tempSensorNameKey)});
      var name := Required(path, v.entries, c.tempSensorNameKey, CvString);
      var errs := extra + ErrorsOf(name);
      if errs == [] then Ok(TempSensorConfig(name.value)) else Err(errs)
  }

  // ---------------------------------------------------------------------------
  // Id maps: `{integer-coerced key: entry schema}`

  /** One entry of an id map: a key that converts to an integer has its value
      checked by `item`; a key that does not convert matches no key of the
      schema, and the open mapping keeps it with its value unchecked. */
  function CheckEntry<T>(path: Path, e: (Raw, Raw), item: (Path, Raw) -> Checked<T>): (r: Checked<(IdKey, IdEntry<T>)>)
    ensures CoerceInt(e.0).None? ==> r == Ok((Kept(e.0), Unchecked(e.1)))
    ensures CoerceInt(e.0).Some? ==> (r.Ok? <==> item(path + [e.0], e.1).Ok?)
    ensures CoerceInt(e.0).Some? && r.Ok? ==> r.value == (Id(CoerceInt(e.0).value), Validated(item(path + [e.0], e.1).value))
  {
    match CoerceInt(e.0)
    case None => Ok((Kept(e.0), Unchecked(e.1)))
    case Some(k) =>
      match item(path + [e.0], e.1)
      case Ok(x) => Ok((Id(k), Validated(x)))
      case Err(errs) => Err(errs)
  }

  /** Every entry checked, in order, with the errors of all of them collected. */
  function CheckEntries<T>(path: Path, es: seq<(Raw, Raw)>, item: (Path, Raw) -> Checked<T>): (r: Checked<seq<(IdKey, IdEntry<T>)>>)
    ensures r.Ok? <==> forall i :: 0 <= i < |es| ==> CheckEntry(path, es[i], item).Ok?
    ensures r.Ok? ==> |r.value| == |es|
    ensures r.Ok? ==> forall i :: 0 <= i < |es| ==> CheckEntry(path, es[i], item) == Ok(r.value[i])
  {
    if es == [] then Ok([])
    else
      var head := CheckEntry(path, es[0], item);
      var tail := CheckEntries(path, es[1..], item);
      if head.Ok? && tail.Ok? then
        Ok([head.value] + tail.value)
      else
        Err(ErrorsOf(head) + ErrorsOf(tail))
  }

  /** An id map: the checked entries are stored in a fresh dictionary in input
      order, so two keys that convert to the same integer ("1" and 1) leave one
      entry, at the first one's position, holding the last one's value. The
      mapping is open, so keys that do not convert are kept. */
  function ValidateIds<T>(path: Path, v: Raw, item: (Path, Raw) -> Checked<T>): (r: Checked<seq<(IdKey, IdEntry<T>)>>)
    ensures !v.RDict? ==> r == Err([Invalid(path, ExpectedDict)])
    ensures r.Ok? <==> v.RDict? && CheckEntries(path, v.entries, item).Ok?
    ensures r.Ok? ==> UniqueKeys(r.value)
    ensures r.Ok? ==> Keys(r.value) == FirstOccurrences(Keys(CheckEntries(path, v.entries, item).value))
  {
    if !v.RDict? then Err([Invalid(path, ExpectedDict)])
    else
      match CheckEntries(path, v.entries, item)
      case Err(errs) => Err(errs)
      case Ok(pairs) => FromPairsUnique(pairs); FromPairsKeys(pairs); Ok(FromPairs(pairs))
  }

  /** The entry check of each id map. */
  function PartitionItem(c: Constants): (Path, Raw) -> Checked<PartitionConfig> {
    (p, e) => ValidatePartition(c, p, e)
  }

  function ZoneItem(c: Constants): (Path, Raw) -> Checked<ZoneConfig> {
    (p, e) => ValidateZone(c, p, e)
  }

  function EditableOutputItem(c: Constants): (Path, Raw) -> Checked<EditableOutputConfig> {
    (p, e) => ValidateEditableOutput(c, p, e)
  }

  function TempSensorItem(c: Constants): (Path, Raw) -> Checked<TempSensorConfig> {
    (p, e) => ValidateTempSensor(c, p, e)
  }

  // ---------------------------------------------------------------------------
  // The integration's mapping, field by field

  function HostField(c: Constants, d: seq<(Raw, Raw)>): (r: Checked<string>)
    ensures Get(d, RStr(c.hostKey)).None? ==> r == Err([Invalid([RStr(c.hostKey)], RequiredKeyMissing)])
    ensures Get(d, RStr(c.hostKey)).Some? ==> (r.Ok? <==> CvString([], Get(d, RStr(c.hostKey)).value).Ok?)
    ensures r.Ok? ==> Get(d, RStr(c.hostKey)).Some? && CvString([], Get(d, RStr(c.hostKey)).value) == Ok(r.value)
  {
    assert [] + [RStr(c.hostKey)] == [RStr(c.hostKey)];
    Required([], d, c.hostKey, CvString)
  }

  function PortField(c: Constants, d: seq<(Raw, Raw)>): (r: Checked<int>)
    ensures r.Ok? <==>
      && CoerceInt(GivenOr(d, c.portKey, c.defaultPort)).Some?
      && c.minPort <= CoerceInt(GivenOr(d, c.portKey, c.defaultPort)).value <= c.maxPort
    ensures r.Ok? ==> c.minPort <= r.value <= c.maxPort
  {
    CvPort(c, [RStr(c.portKey)], GivenOr(d, c.portKey, c.defaultPort))
  }

  function DeviceCodeField(c: Constants, d: seq<(Raw, Raw)>): (r: Checked<Option<string>>)
    ensures r.Ok? ==> (r.value.Some? <==> RStr(c.deviceCodeKey) in Keys(d))
    ensures Get(d, RStr(c.deviceCodeKey)).None? ==> r == Ok(None)
    ensures Get(d, RStr(c.deviceCodeKey)).Some? ==> (r.Ok? <==> CvString([], Get(d, RStr(c.deviceCodeKey)).value).Ok?)
    ensures r.Ok? && r.value.Some? ==> CvString([], Get(d, RStr(c.deviceCodeKey)).value) == Ok(r.value.value)
  {
    Optional([], d, c.deviceCodeKey, CvString)
  }

  function PartitionsField(c: Constants, d: seq<(Raw, Raw)>): (r: Checked<IdMap<PartitionConfig>>)
    ensures r.Ok? ==> UniqueKeys(r.value)
    ensures Get(d, RStr(c.partitionsKey)).None? ==> r == Ok([])
    ensures Get(d, RStr(c.partitionsKey)).Some? && !Get(d, RStr(c.partitionsKey)).value.RDict? ==> r.Err?
    ensures Get(d, RStr(c.partitionsKey)).Some? && Get(d, RStr(c.partitionsKey)).value.RDict? ==>
      (r.Ok? <==> CheckEntries([RStr(c.partitionsKey)], Get(d, RStr(c.partitionsKey)).value.entries, PartitionItem(c)).Ok?)
  {
    ValidateIds([RStr(c.partitionsKey)], GivenOr(d, c.partitionsKey, RDict([])), PartitionItem(c))
  }

  function ZonesField(c: Constants, d: seq<(Raw, Raw)>): (r: Checked<IdMap<ZoneConfig>>)
    ensures r.Ok? ==> UniqueKeys(r.value)
    ensures Get(d, RStr(c.zonesKey)).None? ==> r == Ok([])
    ensures Get(d, RStr(c.zonesKey)).Some? && !Get(d, RStr(c.zonesKey)).value.RDict? ==> r.Err?
    ensures Get(d, RStr(c.zonesKey)).Some? && Get(d, RStr(c.zonesKey)).value.RDict? ==>
      (r.Ok? <==> CheckEntries([RStr(c.zonesKey)], Get(d, RStr(c.zonesKey)).value.entries, ZoneItem(c)).Ok?)
  {
    ValidateIds([RStr(c.zonesKey)], GivenOr(d, c.zonesKey, RDict([])), ZoneItem(c))
  }

  function OutputsField(c: Constants, d: seq<(Raw, Raw)>): (r: Checked<IdMap<ZoneConfig>>)
    ensures r.Ok? ==> UniqueKeys(r.value)
    ensures Get(d, RStr(c.outputsKey)).None? ==> r == Ok([])
    ensures Get(d, RStr(c.outputsKey)).Some? && !Get(d, RStr(c.outputsKey)).value.RDict? ==> r.Err?
    ensures Get(d, RStr(c.outputsKey)).Some? && Get(d, RStr(c.outputsKey)).value.RDict? ==>
      (r.Ok? <==> CheckEntries([RStr(c.outputsKey)], Get(d, RStr(c.outputsKey)).value.entries, ZoneItem(c)).Ok?)
  {
    ValidateIds([RStr(c.outputsKey)], GivenOr(d, c.outputsKey, RDict([])), ZoneItem(c))
  }

  function SwitchableOutputsField(c: Constants, d: seq<(Raw, Raw)>): (r: Checked<IdMap<EditableOutputConfig>>)
    ensures r.Ok? ==> UniqueKeys(r.value)
    ensures Get(d, RStr(c.switchableOutputsKey)).None? ==> r == Ok([])
    ensures Get(d, RStr(c.switchableOutputsKey)).Some? && !Get(d, RStr(c.switchableOutputsKey)).value.RDict? ==> r.Err?
    ensures Get(d, RStr(c.switchableOutputsKey)).Some? && Get(d, RStr(c.switchableOutputsKey)).value.RDict? ==>
      (r.Ok? <==> CheckEntries([RStr(c.switchableOutputsKey)], Get(d, RStr(c.switchableOutputsKey)).value.entries, EditableOutputItem(c)).Ok?)
  {
    ValidateIds([RStr(c.switchableOutputsKey)], GivenOr(d, c.switchableOutputsKey, RDict([])), EditableOutputItem(c))
  }

  function IntegrationKeyField(c: Constants, d: seq<(Raw, Raw)>): (r: Checked<string>)
    ensures Get(d, RStr(c.integrationKeyKey)).None? ==> r == Ok("")
    ensures Get(d, RStr(c.integrationKeyKey)).Some? ==> (r.Ok? <==> CvString([], Get(d, RStr(c.integrationKeyKey)).value).Ok?)
    ensures r.Ok? && Get(d, RStr(c.integrationKeyKey)).Some? ==> CvString([], Get(d, RStr(c.integrationKeyKey)).value) == Ok(r.value)
  {
    CvString([RStr(c.integrationKeyKey)], GivenOr(d, c.integrationKeyKey, RStr("")))
  }

  function TempSensorsField(c: Constants, d: seq<(Raw, Raw)>): (r: Checked<IdMap<TempSensorConfig>>)
    ensures r.Ok? ==> UniqueKeys(r.value)
    ensures Get(d, RStr(c.tempSensorsKey)).None? ==> r == Ok([])
    ensures Get(d, RStr(c.tempSensorsKey)).Some? && !Get(d, RStr(c.tempSensorsKey)).value.RDict? ==> r.Err?
    ensures Get(d, RStr(c.tempSensorsKey)).Some? && Get(d, RStr(c.tempSensorsKey)).value.RDict? ==>
      (r.Ok? <==> CheckEntries([RStr(c.tempSensorsKey)], Get(d, RStr(c.tempSensorsKey)).value.entries, TempSensorItem(c)).Ok?)
  {
    ValidateIds([RStr(c.tempSensorsKey)], GivenOr(d, c.tempSensorsKey, RDict([])), TempSensorItem(c))
  }

  /** The keys the schema of the integration's mapping names. */
  function SchemaKeys(c: Constants): set<Raw> {
    {RStr(c.hostKey), RStr(c.portKey), RStr(c.deviceCodeKey), RStr(c.partitionsKey), RStr(c.zonesKey),
     RStr(c.outputsKey), RStr(c.switchableOutputsKey), RStr(c.integrationKeyKey), RStr(c.tempSensorsKey)}
  }

  /** The entries of an open mapping under keys its schema does not name, in
      order: they are let through as given. */
  function ExtraEntries(d: seq<(Raw, Raw)>, known: set<Raw>): (r: seq<(Raw, Raw)>)
    ensures forall e :: e in r <==> e in d && e.0 !in known
    ensures r == [] <==> forall i :: 0 <= i < |d| ==> d[i].0 in known
  {
    if d == [] then []
    else (if d[0].0 in known then [] else [d[0]]) + ExtraEntries(d[1..], known)
  }

  /** The errors of all fields of the integration's mapping, in schema order. */
  function FieldErrors(c: Constants, d: seq<(Raw, Raw)>): (errs: seq<Invalid>)
    ensures |errs| == 0 <==>
      && HostField(c, d).Ok? && PortField(c, d).Ok? && DeviceCodeField(c, d).Ok?
      && PartitionsField(c, d).Ok? && ZonesField(c, d).Ok? && OutputsField(c, d).Ok?
      && SwitchableOutputsField(c, d).Ok? && IntegrationKeyField(c, d).Ok? && TempSensorsField(c, d).Ok?
  {
    ErrorsOf(HostField(c, d)) + ErrorsOf(PortField(c, d)) + ErrorsOf(DeviceCodeField(c, d))
    + ErrorsOf(PartitionsField(c, d)) + ErrorsOf(ZonesField(c, d)) + ErrorsOf(OutputsField(c, d))
    + ErrorsOf(SwitchableOutputsField(c, d)) + ErrorsOf(IntegrationKeyField(c, d))
    + ErrorsOf(TempSensorsField(c, d))
  }

  /** The per-field checks of the integration's mapping, which is open: keys
      the schema does not name are let through. The errors of all fields are
      reported together. */
  function ValidateFields(c: Constants, raw: Raw): (r: Checked<SatelConfig>)
    ensures !raw.RDict? ==> r == Err([Invalid([], ExpectedDict)])
    ensures r.Ok? <==> raw.RDict? && FieldErrors(c, raw.entries) == []
    ensures raw.RDict? && r.Err? ==> r.errors == FieldErrors(c, raw.entries)
    ensures r.Ok? ==> c.minPort <= r.value.port <= c.maxPort
    ensures r.Ok? ==> UniqueKeys(r.value.partitions) && UniqueKeys(r.value.zones) && UniqueKeys(r.value.outputs)
    ensures r.Ok? ==> UniqueKeys(r.value.switchableOutputs) && UniqueKeys(r.value.tempSensors)
    ensures r.Ok? ==> raw.RDict? && (r.value.deviceCode.Some? <==> RStr(c.deviceCodeKey) in Keys(raw.entries))
  {
    if !raw.RDict? then Err([Invalid([], ExpectedDict)])
    else
      var d := raw.entries;
      var errs := FieldErrors(c, d);
      if errs == [] then
        Ok(SatelConfig(
          HostField(c, d).value, PortField(c, d).value, DeviceCodeField(c, d).value,
          PartitionsField(c, d).value, ZonesField(c, d).value, OutputsField(c, d).value,
          SwitchableOutputsField(c, d).value, IntegrationKeyField(c, d).value,
          TempSensorsField(c, d).value, ExtraEntries(d, SchemaKeys(c))))
      else
        Err(errs)
  }

  /** The cross-field check: switchable outputs cannot be used without the
      device code. When it does not fail it returns its input unchanged. */
  function IsAlarmCodeNecessary(cfg: SatelConfig): (r: Checked<SatelConfig>)
    ensures r.Ok? ==> r.value == cfg
  {
    if |cfg.switchableOutputs| > 0 && cfg.deviceCode.None? then
      Err([Invalid([], AlarmCodeRequired)])
    else
      Ok(cfg)
  }

  /** The whole schema of the integration's mapping: the per-field checks
      first, the cross-field check only on what they accept. */
  function Validate(c: Constants, raw: Raw): (r: Checked<SatelConfig>)
    ensures ValidateFields(c, raw).Err? ==> r == ValidateFields(c, raw)
    ensures r.Ok? ==> r == ValidateFields(c, raw)
    ensures r.Ok? && r.value.switchableOutputs != [] ==> r.value.deviceCode.Some?
  {
    match ValidateFields(c, raw)
    case Err(errs) => Err(errs)
    case Ok(cfg) => IsAlarmCodeNecessary(cfg)
  }
}
