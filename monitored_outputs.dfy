/**
 The outputs the alarm panel is asked to monitor: the plain outputs and the
 switchable outputs of the configuration, merged into one insertion-ordered
 dictionary (`OrderedDict(list(outputs.items()) + list(switchable.items()))`).
 */
module MonitoredOutputs {
  import opened Options
  import opened OrderedDict
  import opened RawValues
  import opened Configuration

  /** A monitored output keeps the configuration it came from. */
  datatype MonitoredOutput =
    | Plain(zone: IdEntry<ZoneConfig>)
    | Switchable(editable: IdEntry<EditableOutputConfig>)

  function PlainOutput(): IdEntry<ZoneConfig> -> MonitoredOutput {
    z => Plain(z)
  }

  function SwitchableOutput(): IdEntry<EditableOutputConfig> -> MonitoredOutput {
    o => Switchable(o)
  }

  /** The pairs of both dictionaries, the plain outputs first. */
  function MergedPairs(outputs: IdMap<ZoneConfig>, switchable: IdMap<EditableOutputConfig>): seq<(IdKey, MonitoredOutput)> {
    MapValues(outputs, PlainOutput()) + MapValues(switchable, SwitchableOutput())
  }

  /** The merged dictionary, built by storing the pairs in order. */
  function Merge(outputs: IdMap<ZoneConfig>, switchable: IdMap<EditableOutputConfig>): (r: seq<(IdKey, MonitoredOutput)>)
    ensures UniqueKeys(r)
    ensures |r| == 0 <==> |outputs| == 0 && |switchable| == 0
  {
    FromPairsUnique(MergedPairs(outputs, switchable));
    FromPairs(MergedPairs(outputs, switchable))
  }

  /** The outputs monitored for a validated configuration. */
  function MonitoredOutputsOf(cfg: SatelConfig): (r: seq<(IdKey, MonitoredOutput)>)
    ensures UniqueKeys(r)
    ensures forall k :: k in Keys(r) <==> k in Keys(cfg.outputs) || k in Keys(cfg.switchableOutputs)
  {
    assert forall k :: k in Keys(Merge(cfg.outputs, cfg.switchableOutputs)) <==> k in Keys(cfg.outputs) || k in Keys(cfg.switchableOutputs) by {
      forall k {
        MergeMembers(cfg.outputs, cfg.switchableOutputs, k);
      }
    }
    Merge(cfg.outputs, cfg.switchableOutputs)
  }

  lemma MergedPairsKeys(outputs: IdMap<ZoneConfig>, switchable: IdMap<EditableOutputConfig>)
    ensures Keys(MergedPairs(outputs, switchable)) == Keys(outputs) + Keys(switchable)
  {
    var a := MapValues(outputs, PlainOutput());
    var b := MapValues(switchable, SwitchableOutput());
    assert Keys(a + b) == Keys(a) + Keys(b);
  }

  /** An id is monitored exactly when it is a plain or a switchable output. */
  lemma MergeMembers(outputs: IdMap<ZoneConfig>, switchable: IdMap<EditableOutputConfig>, k: IdKey)
    ensures k in Keys(Merge(outputs, switchable)) <==> k in Keys(outputs) || k in Keys(switchable)
  {
    var ps := MergedPairs(outputs, switchable);
    FromPairsKeys(ps);
    MergedPairsKeys(outputs, switchable);
    FirstOccurrencesMembers(Keys(ps), k);
  }

  /** The merged dictionary lists the plain outputs in their order, then the
      switchable outputs that are not also plain outputs, in theirs: an id in
      both keeps the position it has among the plain outputs. */
  lemma MergeKeys(outputs: IdMap<ZoneConfig>, switchable: IdMap<EditableOutputConfig>)
    requires UniqueKeys(outputs) && UniqueKeys(switchable)
    ensures Keys(Merge(outputs, switchable)) == Keys(outputs) + Without(Keys(switchable), Keys(outputs))
  {
    var ps := MergedPairs(outputs, switchable);
    FromPairsKeys(ps);
    MergedPairsKeys(outputs, switchable);
    FirstOccurrencesAppend(Keys(outputs), Keys(switchable));
  }

  /** The value under an id is the switchable output when there is one (the
      later write wins), else the plain output. */
  lemma MergeGet(outputs: IdMap<ZoneConfig>, switchable: IdMap<EditableOutputConfig>, k: IdKey)
    requires UniqueKeys(outputs) && UniqueKeys(switchable)
    ensures Get(Merge(outputs, switchable), k) ==
      if Get(switchable, k).Some? then Some(Switchable(Get(switchable, k).value))
      else if Get(outputs, k).Some? then Some(Plain(Get(outputs, k).value))
      else None
  {
    var a := MapValues(outputs, PlainOutput());
    var b := MapValues(switchable, SwitchableOutput());
    FromPairsGet(a + b, k);
    LastValueAppend(a, b, k);
    LastValueOfDictionary(a, k);
    LastValueOfDictionary(b, k);
    GetMapValues(outputs, PlainOutput(), k);
    GetMapValues(switchable, SwitchableOutput(), k);
  }

  /** For a validated configuration: every plain and every switchable output
      is monitored, switchable ones win on a shared id, and the order is the
      plain outputs', then the remaining switchable outputs'. */
  lemma AcceptedMonitoredOutputs(c: Constants, raw: Raw, cfg: SatelConfig)
    requires Validate(c, raw) == Ok(cfg)
    ensures Keys(MonitoredOutputsOf(cfg)) == Keys(cfg.outputs) + Without(Keys(cfg.switchableOutputs), Keys(cfg.outputs))
    ensures forall k :: Get(cfg.switchableOutputs, k).Some? ==>
      Get(MonitoredOutputsOf(cfg), k) == Some(Switchable(Get(cfg.switchableOutputs, k).value))
    ensures forall k :: Get(cfg.switchableOutputs, k).None? && Get(cfg.outputs, k).Some? ==>
      Get(MonitoredOutputsOf(cfg), k) == Some(Plain(Get(cfg.outputs, k).value))
  {
    MergeKeys(cfg.outputs, cfg.switchableOutputs);
    forall k {
      MergeGet(cfg.outputs, cfg.switchableOutputs, k);
    }
  }
}
