/**
 What the configuration schema promises about the configurations it accepts
 and the ones it refuses.
 */
module ConfigurationProperties {
  import opened Options
  import opened OrderedDict
  import opened RawValues
  import opened Configuration

  /** The raw value of an id map, or no entries when it is absent. */
  function RawEntries(raw: Raw, key: string): seq<(Raw, Raw)> {
    if raw.RDict? && GivenOr(raw.entries, key, RDict([])).RDict? then GivenOr(raw.entries, key, RDict([])).entries else []
  }

  /** Switchable outputs are configured, in Python's sense of truth: a
      non-empty mapping. */
  predicate SwitchableOutputsGiven(c: Constants, raw: Raw) {
    RawEntries(raw, c.switchableOutputsKey) != []
  }

  predicate DeviceCodeGiven(c: Constants, raw: Raw) {
    Field(raw, c.deviceCodeKey).Some?
  }

  /** The pair `(k, x)` of an accepted id map stems from the input entry `e`:
      either `e`'s key converts to the integer `k` and the entry schema turns
      `e`'s value into `x`, or `e`'s key does not convert and `e` is kept as
      given. */
  ghost predicate FromEntry<T>(path: Path, e: (Raw, Raw), item: (Path, Raw) -> Checked<T>, k: IdKey, x: IdEntry<T>) {
    match CoerceInt(e.0)
    case Some(n) => k == Id(n) && x.Validated? && item(path + [e.0], e.1) == Ok(x.config)
    case None => k == Kept(e.0) && x == Unchecked(e.1)
  }

  ghost predicate EntryFrom<T>(path: Path, es: seq<(Raw, Raw)>, item: (Path, Raw) -> Checked<T>, k: IdKey, x: IdEntry<T>) {
    exists i :: 0 <= i < |es| && FromEntry(path, es[i], item, k, x)
  }

  // ---------------------------------------------------------------------------
  // Id maps

  lemma IdsSize<T>(path: Path, v: Raw, item: (Path, Raw) -> Checked<T>)
    requires ValidateIds(path, v, item).Ok?
    ensures v.RDict?
    ensures |ValidateIds(path, v, item).value| == 0 <==> v.entries == []
  {
  }

  /** An accepted entry stems from the input entry it was checked from. */
  lemma CheckedEntryFrom<T>(path: Path, e: (Raw, Raw), item: (Path, Raw) -> Checked<T>)
    requires CheckEntry(path, e, item).Ok?
    ensures FromEntry(path, e, item, CheckEntry(path, e, item).value.0, CheckEntry(path, e, item).value.1)
  {
  }

  /** Every entry of an accepted id map comes from an entry of the input. */
  lemma AcceptedEntriesFromInput<T>(path: Path, v: Raw, item: (Path, Raw) -> Checked<T>)
    requires ValidateIds(path, v, item).Ok?
    ensures v.RDict?
    ensures forall j :: 0 <= j < |ValidateIds(path, v, item).value| ==>
      EntryFrom(path, v.entries, item, ValidateIds(path, v, item).value[j].0, ValidateIds(path, v, item).value[j].1)
  {
    var pairs := CheckEntries(path, v.entries, item).value;
    var m := FromPairs(pairs);
    assert ValidateIds(path, v, item).value == m;
    forall j | 0 <= j < |m| ensures EntryFrom(path, v.entries, item, m[j].0, m[j].1) {
      assert m[j] in m;
      var i :| 0 <= i < |pairs| && pairs[i] == m[j];
      assert CheckEntry(path, v.entries[i], item) == Ok(pairs[i]);
      CheckedEntryFrom(path, v.entries[i], item);
    }
  }

  /** Each key of an accepted id map holds the value of the last input entry
      whose key converts to it: `{"1": a, 1: b}` leaves `b` under 1. */
  lemma ValidateIdsGet<T>(path: Path, v: Raw, item: (Path, Raw) -> Checked<T>, k: IdKey)
    requires ValidateIds(path, v, item).Ok?
    ensures v.RDict? && CheckEntries(path, v.entries, item).Ok?
    ensures Get(ValidateIds(path, v, item).value, k) == LastValue(CheckEntries(path, v.entries, item).value, k)
  {
    FromPairsGet(CheckEntries(path, v.entries, item).value, k);
  }

  /** No entry of the input is lost: an entry whose key converts to the
      integer `n` is present under `Id(n)`, any other under its own key. */
  lemma ValidateIdsComplete<T>(path: Path, v: Raw, item: (Path, Raw) -> Checked<T>, i: int)
    requires ValidateIds(path, v, item).Ok?
    requires v.RDict? && 0 <= i < |v.entries|
    ensures CoerceInt(v.entries[i].0).Some? ==> Id(CoerceInt(v.entries[i].0).value) in Keys(ValidateIds(path, v, item).value)
    ensures CoerceInt(v.entries[i].0).None? ==> Kept(v.entries[i].0) in Keys(ValidateIds(path, v, item).value)
  {
    var pairs := CheckEntries(path, v.entries, item).value;
    assert CheckEntry(path, v.entries[i], item) == Ok(pairs[i]);
    assert Keys(pairs)[i] == pairs[i].0;
    FirstOccurrencesMembers(Keys(pairs), pairs[i].0);
  }

  /** A zone under a key that is not a number passes the open id map as
      given: its value, not even a mapping here, is not checked. */
  lemma KeptKeyExample(c: Constants)
    ensures ValidateIds([RStr(c.zonesKey)], RDict([(RStr("garage"), RInt(5))]), ZoneItem(c))
         == Ok([(Kept(RStr("garage")), Unchecked(RInt(5)))])
  {
    var es := [(RStr("garage"), RInt(5))];
    assert !IsDigit('g');
    assert CheckEntry([RStr(c.zonesKey)], es[0], ZoneItem(c)) == Ok((Kept(RStr("garage")), Unchecked(RInt(5))));
    assert CheckEntries([RStr(c.zonesKey)], es[1..], ZoneItem(c)) == Ok([]);
  }

  // ---------------------------------------------------------------------------
  // Entries

  /** An accepted zone or plain output has a name, and its type is the given
      string, or the default type when the key is omitted; it has no other key. */
  lemma ZoneEntry(c: Constants, path: Path, v: Raw, z: ZoneConfig)
    requires ValidateZone(c, path, v) == Ok(z)
    ensures v.RDict? && Field(v, c.zoneNameKey).Some?
    ensures CvString([], Field(v, c.zoneNameKey).value) == Ok(z.name)
    ensures Field(v, c.zoneTypeKey).Some? && Field(v, c.zoneTypeKey).value.RStr? ==>
      z.zoneType == Field(v, c.zoneTypeKey).value.s
    ensures Field(v, c.zoneTypeKey).None? ==> CvString([], c.defaultZoneType) == Ok(z.zoneType)
    ensures forall i :: 0 <= i < |v.entries| ==> v.entries[i].0 in {RStr(c.zoneNameKey), RStr(c.zoneTypeKey)}
  {
  }

  /** An accepted switchable output has a name and no other key. */
  lemma EditableOutputEntry(c: Constants, path: Path, v: Raw, o: EditableOutputConfig)
    requires ValidateEditableOutput(c, path, v) == Ok(o)
    ensures v.RDict? && Field(v, c.zoneNameKey).Some?
    ensures CvString([], Field(v, c.zoneNameKey).value) == Ok(o.name)
    ensures forall i :: 0 <= i < |v.entries| ==> v.entries[i].0 == RStr(c.zoneNameKey)
  {
  }

  /** An accepted partition's arm-home mode is 1, 2 or 3: the given one, or
      the default when the key is omitted. */
  lemma PartitionEntry(c: Constants, path: Path, v: Raw, p: PartitionConfig)
    requires ValidatePartition(c, path, v) == Ok(p)
    ensures p.armHomeMode in {1, 2, 3}
    ensures v.RDict? && Field(v, c.zoneNameKey).Some?
    ensures Field(v, c.armHomeModeKey).Some? && Field(v, c.armHomeModeKey).value.RInt? ==>
      p.armHomeMode == Field(v, c.armHomeModeKey).value.i
    ensures Field(v, c.armHomeModeKey).None? && c.defaultArmHomeMode.RInt? ==>
      p.armHomeMode == c.defaultArmHomeMode.i
  {
  }

  /** The zone schema accepts exactly a mapping with no key but the name and
      the type, a name that converts to a string, and a type, given or
      default, that does too. */
  lemma ZoneAcceptedExactly(c: Constants, path: Path, v: Raw)
    ensures ValidateZone(c, path, v).Ok? <==>
      && v.RDict?
      && (forall i :: 0 <= i < |v.entries| ==> v.entries[i].0 in {RStr(c.zoneNameKey), RStr(c.zoneTypeKey)})
      && Field(v, c.zoneNameKey).Some? && CvString([], Field(v, c.zoneNameKey).value).Ok?
      && CvString([], GivenOr(v.entries, c.zoneTypeKey, c.defaultZoneType)).Ok?
  {
  }

  /** The switchable-output schema accepts exactly a mapping with a name that
      converts to a string and no other key. */
  lemma EditableOutputAcceptedExactly(c: Constants, path: Path, v: Raw)
    ensures ValidateEditableOutput(c, path, v).Ok? <==>
      && v.RDict?
      && (forall i :: 0 <= i < |v.entries| ==> v.entries[i].0 == RStr(c.zoneNameKey))
      && Field(v, c.zoneNameKey).Some? && CvString([], Field(v, c.zoneNameKey).value).Ok?
  {
  }

  /** The partition schema accepts exactly a mapping with no key but the name
      and the arm-home mode, a name that converts to a string, and a mode,
      given or default, that is 1, 2 or 3. */
  lemma PartitionAcceptedExactly(c: Constants, path: Path, v: Raw)
    ensures ValidatePartition(c, path, v).Ok? <==>
      && v.RDict?
      && (forall i :: 0 <= i < |v.entries| ==> v.entries[i].0 in {RStr(c.zoneNameKey), RStr(c.armHomeModeKey)})
      && Field(v, c.zoneNameKey).Some? && CvString([], Field(v, c.zoneNameKey).value).Ok?
      && ArmHomeModeIn([], GivenOr(v.entries, c.armHomeModeKey, c.defaultArmHomeMode)).Ok?
  {
  }

  /** The temperature-sensor schema accepts exactly a mapping with a name that
      converts to a string and no other key. */
  lemma TempSensorAcceptedExactly(c: Constants, path: Path, v: Raw)
    ensures ValidateTempSensor(c, path, v).Ok? <==>
      && v.RDict?
      && (forall i :: 0 <= i < |v.entries| ==> v.entries[i].0 == RStr(c.tempSensorNameKey))
      && Field(v, c.tempSensorNameKey).Some? && CvString([], Field(v, c.tempSensorNameKey).value).Ok?
  {
  }

  // ---------------------------------------------------------------------------
  // The integration's mapping

  /** An accepted mapping is assembled from its accepted fields. */
  lemma AcceptedParts(c: Constants, raw: Raw, cfg: SatelConfig)
    requires ValidateFields(c, raw) == Ok(cfg)
    ensures raw.RDict?
    ensures cfg.extra == ExtraEntries(raw.entries, SchemaKeys(c))
    ensures HostField(c, raw.entries) == Ok(cfg.host)
    ensures PortField(c, raw.entries) == Ok(cfg.port)
    ensures DeviceCodeField(c, raw.entries) == Ok(cfg.deviceCode)
    ensures PartitionsField(c, raw.entries) == Ok(cfg.partitions)
    ensures ZonesField(c, raw.entries) == Ok(cfg.zones)
    ensures OutputsField(c, raw.entries) == Ok(cfg.outputs)
    ensures SwitchableOutputsField(c, raw.entries) == Ok(cfg.switchableOutputs)
    ensures IntegrationKeyField(c, raw.entries) == Ok(cfg.integrationKey)
    ensures TempSensorsField(c, raw.entries) == Ok(cfg.tempSensors)
  {
  }

  /** An omitted id map defaults to an empty mapping, which is accepted as empty. */
  lemma EmptyIds<T>(path: Path, item: (Path, Raw) -> Checked<T>)
    ensures ValidateIds(path, RDict([]), item) == Ok([])
  {
  }

  /** The port comes from the input, or from the default when omitted. */
  lemma PortFieldSource(c: Constants, d: seq<(Raw, Raw)>)
    requires PortField(c, d).Ok?
    ensures Get(d, RStr(c.portKey)).Some? ==> CoerceInt(Get(d, RStr(c.portKey)).value) == Some(PortField(c, d).value)
    ensures Get(d, RStr(c.portKey)).None? ==> CoerceInt(c.defaultPort) == Some(PortField(c, d).value)
  {
  }

  /** The fields whose key is omitted take their defaults. */
  lemma OmittedFields(c: Constants, d: seq<(Raw, Raw)>)
    ensures Get(d, RStr(c.partitionsKey)).None? ==> PartitionsField(c, d) == Ok([])
    ensures Get(d, RStr(c.zonesKey)).None? ==> ZonesField(c, d) == Ok([])
    ensures Get(d, RStr(c.outputsKey)).None? ==> OutputsField(c, d) == Ok([])
    ensures Get(d, RStr(c.switchableOutputsKey)).None? ==> SwitchableOutputsField(c, d) == Ok([])
    ensures Get(d, RStr(c.tempSensorsKey)).None? ==> TempSensorsField(c, d) == Ok([])
    ensures Get(d, RStr(c.integrationKeyKey)).None? ==> IntegrationKeyField(c, d) == Ok("")
  {
    EmptyIds([RStr(c.partitionsKey)], PartitionItem(c));
    EmptyIds([RStr(c.zonesKey)], ZoneItem(c));
    EmptyIds([RStr(c.outputsKey)], ZoneItem(c));
    EmptyIds([RStr(c.switchableOutputsKey)], EditableOutputItem(c));
    EmptyIds([RStr(c.tempSensorsKey)], TempSensorItem(c));
  }

  /** The switchable outputs of an accepted mapping are non-empty exactly when
      the input gives a non-empty mapping for them. */
  lemma SwitchableOutputsSize(c: Constants, raw: Raw)
    requires raw.RDict? && SwitchableOutputsField(c, raw.entries).Ok?
    ensures |SwitchableOutputsField(c, raw.entries).value| > 0 <==> SwitchableOutputsGiven(c, raw)
  {
    IdsSize([RStr(c.switchableOutputsKey)], GivenOr(raw.entries, c.switchableOutputsKey, RDict([])), EditableOutputItem(c));
  }

  /** The cross-field check refuses a mapping that passes every field check
      exactly when switchable outputs are configured and the device code is
      not; a device code that is present passes, whatever its text. */
  lemma AlarmCodeRequiredExactly(c: Constants, raw: Raw)
    requires ValidateFields(c, raw).Ok?
    ensures Validate(c, raw).Err? <==> SwitchableOutputsGiven(c, raw) && !DeviceCodeGiven(c, raw)
    ensures Validate(c, raw).Err? ==> Validate(c, raw).errors == [Invalid([], AlarmCodeRequired)]
  {
    var cfg := ValidateFields(c, raw).value;
    AcceptedParts(c, raw, cfg);
    SwitchableOutputsSize(c, raw);
    assert cfg.deviceCode.None? <==> !DeviceCodeGiven(c, raw);
    assert Validate(c, raw) == IsAlarmCodeNecessary(cfg);
  }

  /** The whole schema accepts exactly a mapping whose nine fields pass and
      that does not configure switchable outputs without a device code. */
  lemma ValidateExactly(c: Constants, raw: Raw)
    ensures Validate(c, raw).Ok? <==>
      && raw.RDict?
      && HostField(c, raw.entries).Ok? && PortField(c, raw.entries).Ok? && DeviceCodeField(c, raw.entries).Ok?
      && PartitionsField(c, raw.entries).Ok? && ZonesField(c, raw.entries).Ok? && OutputsField(c, raw.entries).Ok?
      && SwitchableOutputsField(c, raw.entries).Ok? && IntegrationKeyField(c, raw.entries).Ok?
      && TempSensorsField(c, raw.entries).Ok?
      && !(SwitchableOutputsGiven(c, raw) && !DeviceCodeGiven(c, raw))
  {
    if raw.RDict? && FieldErrors(c, raw.entries) == [] {
      assert ValidateFields(c, raw).Ok?;
      AlarmCodeRequiredExactly(c, raw);
    }
  }

  /** Without switchable outputs, or with an empty mapping of them, no device
      code is needed: the omitted mapping defaults to an empty one before the
      cross-field check runs. */
  lemma NoSwitchableOutputsNoCodeNeeded(c: Constants, raw: Raw)
    requires ValidateFields(c, raw).Ok?
    requires Field(raw, c.switchableOutputsKey).None? || Field(raw, c.switchableOutputsKey) == Some(RDict([]))
    ensures Validate(c, raw) == ValidateFields(c, raw)
  {
    AlarmCodeRequiredExactly(c, raw);
  }

  /** What an accepted configuration holds: the host as given, converted to a
      string; the port in range, taken from the input or the default; the
      device code exactly when given, converted to a string; the given
      integration key, converted to a string; every omitted
      id map empty and an omitted integration key the empty string; the
      entries under keys the schema does not name, as given. */
  lemma AcceptedFields(c: Constants, raw: Raw, cfg: SatelConfig)
    requires Validate(c, raw) == Ok(cfg)
    ensures c.minPort <= cfg.port <= c.maxPort
    ensures Field(raw, c.portKey).Some? ==> CoerceInt(Field(raw, c.portKey).value) == Some(cfg.port)
    ensures Field(raw, c.portKey).None? ==> CoerceInt(c.defaultPort) == Some(cfg.port)
    ensures cfg.deviceCode.Some? <==> DeviceCodeGiven(c, raw)
    ensures Field(raw, c.partitionsKey).None? ==> cfg.partitions == []
    ensures Field(raw, c.zonesKey).None? ==> cfg.zones == []
    ensures Field(raw, c.outputsKey).None? ==> cfg.outputs == []
    ensures Field(raw, c.switchableOutputsKey).None? ==> cfg.switchableOutputs == []
    ensures Field(raw, c.tempSensorsKey).None? ==> cfg.tempSensors == []
    ensures Field(raw, c.integrationKeyKey).None? ==> cfg.integrationKey == ""
    ensures Field(raw, c.hostKey).Some? && CvString([], Field(raw, c.hostKey).value) == Ok(cfg.host)
    ensures Field(raw, c.integrationKeyKey).Some? ==> CvString([], Field(raw, c.integrationKeyKey).value) == Ok(cfg.integrationKey)
    ensures DeviceCodeGiven(c, raw) ==> cfg.deviceCode == Some(CvString([], Field(raw, c.deviceCodeKey).value).value)
    ensures forall e :: e in cfg.extra <==> e in raw.entries && e.0 !in SchemaKeys(c)
  {
    AcceptedParts(c, raw, cfg);
    PortFieldSource(c, raw.entries);
    OmittedFields(c, raw.entries);
  }

  /** A partition checked from an input entry has arm-home mode 1, 2 or 3. */
  lemma PartitionFromEntry(c: Constants, path: Path, e: (Raw, Raw), k: IdKey, p: IdEntry<PartitionConfig>)
    requires FromEntry(path, e, PartitionItem(c), k, p)
    ensures k.Id? <==> p.Validated?
    ensures p.Validated? ==> p.config.armHomeMode in {1, 2, 3}
  {
    if p.Validated? {
      PartitionEntry(c, path + [e.0], e.1, p.config);
    }
  }

  /** Every checked partition of an accepted configuration has arm-home mode
      1, 2 or 3; a partition is checked exactly when its key is an integer. */
  lemma AcceptedArmHomeModes(c: Constants, raw: Raw, cfg: SatelConfig)
    requires Validate(c, raw) == Ok(cfg)
    ensures forall j :: 0 <= j < |cfg.partitions| ==> (cfg.partitions[j].0.Id? <==> cfg.partitions[j].1.Validated?)
    ensures forall j :: 0 <= j < |cfg.partitions| && cfg.partitions[j].1.Validated? ==>
      cfg.partitions[j].1.config.armHomeMode in {1, 2, 3}
  {
    AcceptedParts(c, raw, cfg);
    var path := [RStr(c.partitionsKey)];
    var v := GivenOr(raw.entries, c.partitionsKey, RDict([]));
    AcceptedEntriesFromInput(path, v, PartitionItem(c));
    forall j | 0 <= j < |cfg.partitions|
      ensures cfg.partitions[j].0.Id? <==> cfg.partitions[j].1.Validated?
      ensures cfg.partitions[j].1.Validated? ==> cfg.partitions[j].1.config.armHomeMode in {1, 2, 3}
    {
      var (k, p) := cfg.partitions[j];
      assert EntryFrom(path, v.entries, PartitionItem(c), k, p);
      var i :| 0 <= i < |v.entries| && FromEntry(path, v.entries[i], PartitionItem(c), k, p);
      PartitionFromEntry(c, path, v.entries[i], k, p);
    }
  }

  /** Every zone of an accepted configuration comes from an entry of the
      input that the zone schema accepts. */
  lemma AcceptedZonesFromInput(c: Constants, raw: Raw, cfg: SatelConfig)
    requires Validate(c, raw) == Ok(cfg)
    ensures forall j :: 0 <= j < |cfg.zones| ==>
      EntryFrom([RStr(c.zonesKey)], RawEntries(raw, c.zonesKey), ZoneItem(c), cfg.zones[j].0, cfg.zones[j].1)
  {
    AcceptedParts(c, raw, cfg);
    AcceptedEntriesFromInput([RStr(c.zonesKey)], GivenOr(raw.entries, c.zonesKey, RDict([])), ZoneItem(c));
  }

  /** Every plain output of an accepted configuration comes from an entry of
      the input that the zone schema accepts. */
  lemma AcceptedOutputsFromInput(c: Constants, raw: Raw, cfg: SatelConfig)
    requires Validate(c, raw) == Ok(cfg)
    ensures forall j :: 0 <= j < |cfg.outputs| ==>
      EntryFrom([RStr(c.outputsKey)], RawEntries(raw, c.outputsKey), ZoneItem(c), cfg.outputs[j].0, cfg.outputs[j].1)
  {
    AcceptedParts(c, raw, cfg);
    AcceptedEntriesFromInput([RStr(c.outputsKey)], GivenOr(raw.entries, c.outputsKey, RDict([])), ZoneItem(c));
  }

  // ---------------------------------------------------------------------------
  // Refusals

  /** A mapping without a host is refused, and the error names the host key. */
  lemma HostRequired(c: Constants, raw: Raw)
    requires raw.RDict? && Field(raw, c.hostKey).None?
    ensures Validate(c, raw).Err?
    ensures Invalid([RStr(c.hostKey)], RequiredKeyMissing) in Validate(c, raw).errors
  {
    var d := raw.entries;
    assert [] + [RStr(c.hostKey)] == [RStr(c.hostKey)];
    assert HostField(c, d) == Err([Invalid([RStr(c.hostKey)], RequiredKeyMissing)]);
    assert FieldErrors(c, d)[0] == Invalid([RStr(c.hostKey)], RequiredKeyMissing);
  }

  /** A port outside the TCP range is refused, and the error names the port key. */
  lemma PortOutOfRangeRefused(c: Constants, raw: Raw, port: int)
    requires raw.RDict? && Field(raw, c.portKey) == Some(RInt(port))
    requires !(c.minPort <= port <= c.maxPort)
    ensures Validate(c, raw).Err?
    ensures Invalid([RStr(c.portKey)], PortOutOfRange) in Validate(c, raw).errors
  {
    var d := raw.entries;
    assert PortField(c, d) == Err([Invalid([RStr(c.portKey)], PortOutOfRange)]);
    assert FieldErrors(c, d)[|ErrorsOf(HostField(c, d))|] == Invalid([RStr(c.portKey)], PortOutOfRange);
  }

  /** A device code written as a number becomes its decimal text, which reads
      back as the same number. */
  lemma NumericDeviceCode(path: Path, n: int)
    ensures CvString(path, RInt(n)).Ok?
    ensures CoerceInt(RStr(CvString(path, RInt(n)).value)) == Some(n)
  {
    ParseIntRoundTrip(n);
  }

  // ---------------------------------------------------------------------------
  // A worked example

  /** The key names of the integration's mapping are nine different strings. */
  ghost predicate KeyNamesDistinct(c: Constants) {
    Distinct([c.hostKey, c.portKey, c.deviceCodeKey, c.partitionsKey, c.zonesKey,
              c.outputsKey, c.switchableOutputsKey, c.integrationKeyKey, c.tempSensorsKey])
  }

  /** One switchable output, number 1, named "Lamp". */
  function LampOutputs(c: Constants): Raw {
    RDict([(RInt(1), RDict([(RStr(c.zoneNameKey), RStr("Lamp"))]))])
  }

  /** A host, a port, the lamp and, when given, a device code. */
  function ExampleMapping(c: Constants, code: Option<string>): seq<(Raw, Raw)> {
    [(RStr(c.hostKey), RStr("10.0.0.5")), (RStr(c.portKey), RInt(7094)),
     (RStr(c.switchableOutputsKey), LampOutputs(c))]
    + (if code.Some? then [(RStr(c.deviceCodeKey), RStr(code.value))] else [])
  }

  lemma LampAccepted(c: Constants)
    ensures ValidateIds([RStr(c.switchableOutputsKey)], LampOutputs(c), EditableOutputItem(c))
         == Ok([(Id(1), Validated(EditableOutputConfig("Lamp")))])
  {
    var path := [RStr(c.switchableOutputsKey)];
    var es := LampOutputs(c).entries;
    assert ValidateEditableOutput(c, path + [RInt(1)], es[0].1) == Ok(EditableOutputConfig("Lamp"));
    assert CheckEntry(path, es[0], EditableOutputItem(c)) == Ok((Id(1), Validated(EditableOutputConfig("Lamp"))));
    assert CheckEntries(path, es[1..], EditableOutputItem(c)) == Ok([]);
  }

  /** The key names of the example's lookups differ from each other. */
  lemma ExampleKeyNames(c: Constants)
    requires KeyNamesDistinct(c)
    ensures c.hostKey != c.portKey && c.hostKey != c.switchableOutputsKey && c.portKey != c.switchableOutputsKey
    ensures c.deviceCodeKey !in [c.hostKey, c.portKey, c.switchableOutputsKey]
    ensures c.partitionsKey !in [c.hostKey, c.portKey, c.switchableOutputsKey, c.deviceCodeKey]
    ensures c.zonesKey !in [c.hostKey, c.portKey, c.switchableOutputsKey, c.deviceCodeKey]
    ensures c.outputsKey !in [c.hostKey, c.portKey, c.switchableOutputsKey, c.deviceCodeKey]
    ensures c.integrationKeyKey !in [c.hostKey, c.portKey, c.switchableOutputsKey, c.deviceCodeKey]
    ensures c.tempSensorsKey !in [c.hostKey, c.portKey, c.switchableOutputsKey, c.deviceCodeKey]
  {
    var ks := [c.hostKey, c.portKey, c.deviceCodeKey, c.partitionsKey, c.zonesKey,
               c.outputsKey, c.switchableOutputsKey, c.integrationKeyKey, c.tempSensorsKey];
    assert ks[0] != ks[1] && ks[0] != ks[6] && ks[1] != ks[6];
    assert ks[2] != ks[0] && ks[2] != ks[1] && ks[2] != ks[6];
    assert ks[3] != ks[0] && ks[3] != ks[1] && ks[3] != ks[6] && ks[3] != ks[2];
    assert ks[4] != ks[0] && ks[4] != ks[1] && ks[4] != ks[6] && ks[4] != ks[2];
    assert ks[5] != ks[0] && ks[5] != ks[1] && ks[5] != ks[6] && ks[5] != ks[2];
    assert ks[7] != ks[0] && ks[7] != ks[1] && ks[7] != ks[6] && ks[7] != ks[2];
    assert ks[8] != ks[0] && ks[8] != ks[1] && ks[8] != ks[6] && ks[8] != ks[2];
  }

  /** The lookups every example mapping answers alike. */
  predicate CommonLookups(c: Constants, d: seq<(Raw, Raw)>) {
    && Get(d, RStr(c.hostKey)) == Some(RStr("10.0.0.5"))
    && Get(d, RStr(c.portKey)) == Some(RInt(7094))
    && Get(d, RStr(c.switchableOutputsKey)) == Some(LampOutputs(c))
    && Get(d, RStr(c.partitionsKey)) == None && Get(d, RStr(c.zonesKey)) == None
    && Get(d, RStr(c.outputsKey)) == None && Get(d, RStr(c.integrationKeyKey)) == None
    && Get(d, RStr(c.tempSensorsKey)) == None
  }

  /** What the lookups of the example mapping without a device code find. */
  lemma ExampleLookupsWithoutCode(c: Constants)
    requires KeyNamesDistinct(c)
    ensures CommonLookups(c, ExampleMapping(c, None))
    ensures Get(ExampleMapping(c, None), RStr(c.deviceCodeKey)) == None
  {
    ExampleKeyNames(c);
    var d := ExampleMapping(c, None);
    assert d[1..][1..] == d[2..];
    assert Keys(d) == [RStr(c.hostKey), RStr(c.portKey), RStr(c.switchableOutputsKey)];
  }

  /** What the lookups of the example mapping with a device code find. */
  lemma ExampleLookupsWithCode(c: Constants, code: string)
    requires KeyNamesDistinct(c)
    ensures CommonLookups(c, ExampleMapping(c, Some(code)))
    ensures Get(ExampleMapping(c, Some(code)), RStr(c.deviceCodeKey)) == Some(RStr(code))
  {
    ExampleKeyNames(c);
    var d := ExampleMapping(c, Some(code));
    assert d[1..][1..] == d[2..];
    assert d[2..][1..] == [(RStr(c.deviceCodeKey), RStr(code))];
    assert Keys(d) == [RStr(c.hostKey), RStr(c.portKey), RStr(c.switchableOutputsKey), RStr(c.deviceCodeKey)];
  }

  /** The fields of the example mapping, each checked on its own. */
  lemma ExampleFields(c: Constants, code: Option<string>)
    requires KeyNamesDistinct(c)
    requires c.minPort <= 7094 <= c.maxPort
    ensures var d := ExampleMapping(c, code);
      && HostField(c, d) == Ok("10.0.0.5") && PortField(c, d) == Ok(7094)
      && DeviceCodeField(c, d) == Ok(code)
      && PartitionsField(c, d) == Ok([]) && ZonesField(c, d) == Ok([]) && OutputsField(c, d) == Ok([])
      && SwitchableOutputsField(c, d) == Ok([(Id(1), Validated(EditableOutputConfig("Lamp")))])
      && IntegrationKeyField(c, d) == Ok("") && TempSensorsField(c, d) == Ok([])
  {
    var d := ExampleMapping(c, code);
    if code.Some? {
      ExampleLookupsWithCode(c, code.value);
    } else {
      ExampleLookupsWithoutCode(c);
    }
    OmittedFields(c, d);
    LampAccepted(c);
  }

  /** The example mapping has no key the schema does not name. */
  lemma ExampleHasNoExtra(c: Constants, code: Option<string>)
    ensures ExtraEntries(ExampleMapping(c, code), SchemaKeys(c)) == []
  {
  }

  /** Host, port and one switchable output without a device code are refused
      by the cross-field check alone; adding a device code makes the same
      mapping valid. */
  lemma SwitchableOutputExample(c: Constants)
    requires KeyNamesDistinct(c)
    requires c.minPort <= 7094 <= c.maxPort
    ensures ValidateFields(c, RDict(ExampleMapping(c, None))).Ok?
    ensures Validate(c, RDict(ExampleMapping(c, None))) == Err([Invalid([], AlarmCodeRequired)])
    ensures Validate(c, RDict(ExampleMapping(c, Some("1234"))))
         == Ok(SatelConfig("10.0.0.5", 7094, Some("1234"), [], [], [], [(Id(1), Validated(EditableOutputConfig("Lamp")))], "", [], []))
  {
    ExampleFields(c, None);
    ExampleFields(c, Some("1234"));
    ExampleHasNoExtra(c, None);
    ExampleHasNoExtra(c, Some("1234"));
  }
}
