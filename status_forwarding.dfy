/**
 The callbacks the panel connection calls with status notifications: each
 sends one dispatcher signal, forwarding one entry of the status mapping.
 */
module StatusForwarding {
  import opened Options
  import opened OrderedDict
  import opened RawValues

  /** The dispatcher signals the integration sends. */
  datatype Signal = PanelMessage | ZonesUpdated | OutputsUpdated

  /** One `async_dispatcher_send(hass, signal, *args)`. */
  datatype Dispatch = Dispatch(signal: Signal, args: seq<Raw>)

  /** What a callback does: it sends a signal, or it fails with a `KeyError`
      because the status lacks the key it forwards. */
  datatype Outcome = Sent(message: Dispatch) | KeyError(key: Raw)

  /** The key under which the panel's outputs are reported. */
  const OutputsKey: string := "outputs"

  /** The panel's state changed: the signal carries no payload. */
  function AlarmStatusUpdate(): (d: Dispatch)
    ensures d.signal == PanelMessage && d.args == []
  {
    Dispatch(PanelMessage, [])
  }

  /** `status[key]` sent with `signal`; a missing key is a `KeyError`. */
  function Forward(signal: Signal, key: Raw, status: seq<(Raw, Raw)>): (r: Outcome)
    ensures r.Sent? <==> key in Keys(status)
    ensures r.Sent? ==> r.message.signal == signal && |r.message.args| == 1 && (key, r.message.args[0]) in status
    ensures r.KeyError? ==> r.key == key
  {
    match Get(status, key)
    case Some(v) => Sent(Dispatch(signal, [v]))
    case None => KeyError(key)
  }

  /** The zones changed: their statuses are forwarded under the zones key of
      the panel library. */
  function ZonesUpdate(zonesKey: string, status: seq<(Raw, Raw)>): (r: Outcome)
    ensures r.Sent? <==> RStr(zonesKey) in Keys(status)
    ensures r.Sent? ==> r.message.signal == ZonesUpdated && |r.message.args| == 1 && (RStr(zonesKey), r.message.args[0]) in status
    ensures r.KeyError? ==> r.key == RStr(zonesKey)
  {
    Forward(ZonesUpdated, RStr(zonesKey), status)
  }

  /** The outputs changed: their statuses are forwarded. */
  function OutputsUpdate(status: seq<(Raw, Raw)>): (r: Outcome)
    ensures r.Sent? <==> RStr(OutputsKey) in Keys(status)
    ensures r.Sent? ==> r.message.signal == OutputsUpdated && |r.message.args| == 1 && (RStr(OutputsKey), r.message.args[0]) in status
    ensures r.KeyError? ==> r.key == RStr(OutputsKey)
  {
    Forward(OutputsUpdated, RStr(OutputsKey), status)
  }

  /** In a status mapping, the payload is exactly the value stored under the
      forwarded key, and nothing else of the mapping is sent. */
  lemma ForwardPayload(signal: Signal, key: Raw, status: seq<(Raw, Raw)>, v: Raw)
    requires UniqueKeys(status) && (key, v) in status
    ensures Forward(signal, key, status) == Sent(Dispatch(signal, [v]))
  {
    GetEntry(status, key, v);
  }

  /** The zones callback sends exactly the zone statuses, with the zones signal. */
  lemma ZonesUpdateForwards(zonesKey: string, status: seq<(Raw, Raw)>, v: Raw)
    requires UniqueKeys(status) && (RStr(zonesKey), v) in status
    ensures ZonesUpdate(zonesKey, status) == Sent(Dispatch(ZonesUpdated, [v]))
  {
    ForwardPayload(ZonesUpdated, RStr(zonesKey), status, v);
  }

  /** The outputs callback sends exactly the output statuses, with the outputs signal. */
  lemma OutputsUpdateForwards(status: seq<(Raw, Raw)>, v: Raw)
    requires UniqueKeys(status) && (RStr(OutputsKey), v) in status
    ensures OutputsUpdate(status) == Sent(Dispatch(OutputsUpdated, [v]))
  {
    ForwardPayload(OutputsUpdated, RStr(OutputsKey), status, v);
  }

  /** A zones notification `{zones: {3: "violated"}}` is forwarded whole by
      the zones callback, while the outputs callback, given the same mapping,
      fails on the missing outputs key. */
  lemma ZonesNotificationExample(zonesKey: string)
    requires zonesKey != OutputsKey
    ensures var zones := RDict([(RInt(3), RStr("violated"))]);
      && ZonesUpdate(zonesKey, [(RStr(zonesKey), zones)]) == Sent(Dispatch(ZonesUpdated, [zones]))
      && OutputsUpdate([(RStr(zonesKey), zones)]) == KeyError(RStr(OutputsKey))
  {
    var zones := RDict([(RInt(3), RStr("violated"))]);
    var status := [(RStr(zonesKey), zones)];
    assert Keys(status) == [RStr(zonesKey)];
  }
}
