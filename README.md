# Satel Integra configuration core, in Dafny

This project models the pure side of the Home Assistant integration for Satel
Integra alarm panels (`custom_components/satel_integra_ext/__init__.py`):

- **The configuration schema.** This is `CONFIG_SCHEMA` with its entry schemas for zones, outputs, switchable outputs, partitions and temperature sensors.
  - Each field of the integration's mapping is checked.
  - Defaults are filled in and checked like given values.
  - Id maps convert their keys with `int()`.
  - The entry schemas are closed: they reject keys they do not name.
  - The integration's mapping and its id maps are open. They inherit `extra=vol.ALLOW_EXTRA` from the root schema, so:
    - an id key that does not convert to an integer is kept, with its value unchecked;
    - a key the schema does not name is kept as given.
  - All field errors are reported together.
  - The cross-field check `is_alarm_code_necessary` then refuses switchable outputs without a device code.
- **The merge of plain and switchable outputs** into the insertion-ordered dictionary `monitored_outputs` that is handed to the panel connection.
- **The three status callbacks.** Each sends one dispatcher signal. The panel callback sends its signal with no payload. The zones and outputs callbacks forward `status[key]`, and a missing key is a `KeyError`.

Python values before validation are the datatype `RawValues.Raw`. A Python
dictionary is a sequence of pairs in insertion order. `OrderedDict.Insert` is
`d[k] = v`, and `OrderedDict.FromPairs` is `OrderedDict(pairs)`. The values
of the integration's constants live outside the modelled file, so they are
parameters:
- the key names, defaults and port range of the schema are the parameter `Configuration.Constants`;
- the panel library's `ZONES` key is the parameter `zonesKey` of `StatusForwarding.ZonesUpdate`;
- the three `SIGNAL_*` names are the datatype `StatusForwarding.Signal`.

Modules:
- `Options`
- `OrderedDict`: dictionaries and their reference definitions.
- `RawValues`: raw values, `int()` and `str()`.
- `Configuration`: the schema.
- `ConfigurationProperties`: what the schema promises.
- `MonitoredOutputs`
- `StatusForwarding`

Three behaviours of the code that are easy to misread:
- An id key that `int()` cannot convert is not refused: the id maps inherit `ALLOW_EXTRA`, so such a key is kept with its value unchecked.
- The errors of every field are collected before validation fails, and the cross-field check runs only when all fields pass.
- The callbacks index `status[...]` directly, so a missing key raises `KeyError`. This model returns `KeyError`.

## Model

| member | source | states |
|---|---|---|
| OrderedDict.Get | custom_components/satel_integra_ext/__init__.py:46 | `d.get(k)`: absent exactly when `k` is not a key; otherwise the value stored under `k` |
| OrderedDict.GetEntry | custom_components/satel_integra_ext/__init__.py:46 | in a dictionary without repeated keys, a stored pair determines what `get` returns |
| OrderedDict.Insert | custom_components/satel_integra_ext/__init__.py:87-89 | `d[k] = v` keeps an existing key's position and appends a new key; the pair is stored and nothing else is added |
| OrderedDict.InsertProperties | custom_components/satel_integra_ext/__init__.py:87-89 | after `d[k] = v` the keys stay distinct, `k` maps to `v` and every other key keeps its value |
| OrderedDict.FromPairs | custom_components/satel_integra_ext/__init__.py:87-89 | `OrderedDict(pairs)` is empty exactly when the pairs are, and holds only given pairs |
| OrderedDict.FromPairsUnique | custom_components/satel_integra_ext/__init__.py:87-89 | a dictionary built from pairs has no repeated key |
| OrderedDict.FromPairsKeys | custom_components/satel_integra_ext/__init__.py:87-89 | its keys are the first occurrences of the pairs' keys, in order |
| OrderedDict.FromPairsGet | custom_components/satel_integra_ext/__init__.py:87-89 | its value under a key is the last value given for that key |
| OrderedDict.LastValueAppend | custom_components/satel_integra_ext/__init__.py:87-89 | on concatenated pairs, the later part's value for a key wins |
| OrderedDict.LastValueOfDictionary | custom_components/satel_integra_ext/__init__.py:87-89 | for a dictionary's own items, the last value for a key is its stored value |
| OrderedDict.FirstOccurrencesAppend | custom_components/satel_integra_ext/__init__.py:87-89 | the distinct keys of `a + b` are `a`, then the keys of `b` not in `a` |
| OrderedDict.FirstOccurrencesMembers | custom_components/satel_integra_ext/__init__.py:87-89 | first occurrences keep exactly the keys given |
| OrderedDict.WithoutMembers | custom_components/satel_integra_ext/__init__.py:87-89 | removing keys keeps exactly the others |
| OrderedDict.MapValues | custom_components/satel_integra_ext/__init__.py:87-89 | rewrapping the values keeps the keys and their order |
| OrderedDict.GetMapValues | custom_components/satel_integra_ext/__init__.py:87-89 | the rewrapped value under a key is the rewrapped original value |
| RawValues.CoerceInt | custom_components/satel_integra_ext/__init__.py:59 | `vol.Coerce(int)`: an integer converts to itself, a boolean to 1 or 0, a string as `int()` reads it (`ParseInt`); `None`, lists and dictionaries do not convert |
| RawValues.IntToString | custom_components/satel_integra_ext/__init__.py:57 | `str(n)` is non-empty, starts with `-` exactly when `n` is negative, and is otherwise decimal digits; `ParseIntRoundTrip` reads it back |
| RawValues.ParseInt | custom_components/satel_integra_ext/__init__.py:59 | `int(s)` succeeds exactly on one or more ASCII digits with an optional leading sign; a `-` gives a non-positive number, otherwise a non-negative one |
| RawValues.NatToDigits | custom_components/satel_integra_ext/__init__.py:57 | `str(n)` is non-empty decimal digits without a leading zero |
| RawValues.DigitsRoundTrip | custom_components/satel_integra_ext/__init__.py:57 | reading the decimal digits of `n` gives `n` |
| RawValues.ParseIntRoundTrip | custom_components/satel_integra_ext/__init__.py:57 | `int(str(n)) == n` for every integer |
| Configuration.ErrorsOf | custom_components/satel_integra_ext/__init__.py:51-73 | a check reports no error exactly when it succeeds |
| Configuration.CvString | custom_components/satel_integra_ext/__init__.py:55 | `cv.string` accepts exactly values that are not `None`, a list or a dictionary; a string is kept as is |
| Configuration.CvPort | custom_components/satel_integra_ext/__init__.py:56 | `cv.port` accepts exactly values that convert to an integer in the port range, and yields that integer |
| Configuration.ArmHomeModeIn | custom_components/satel_integra_ext/__init__.py:33-35 | `vol.In([1, 2, 3])`: an accepted mode is 1, 2 or 3; an integer is accepted exactly when it is one of them; strings, `None`, lists and dictionaries are refused |
| Configuration.ExtraKeyErrors | custom_components/satel_integra_ext/__init__.py:23-42 | a closed entry schema reports no extra-key error exactly when every key is one it names |
| Configuration.ValidateZone | custom_components/satel_integra_ext/__init__.py:23-28 | a non-mapping is refused with an expected-mapping error; an accepted zone has no key but the name and the type, and its name is the given name converted to a string |
| Configuration.ValidateEditableOutput | custom_components/satel_integra_ext/__init__.py:29 | a non-mapping is refused; an accepted switchable output has no key but the name, and its name is the given name converted to a string |
| Configuration.ValidatePartition | custom_components/satel_integra_ext/__init__.py:30-37 | a non-mapping is refused; an accepted partition has no key but the name and the arm-home mode, its name is the given name converted, and its mode is 1, 2 or 3 |
| Configuration.ValidateTempSensor | custom_components/satel_integra_ext/__init__.py:38-42 | a non-mapping is refused; an accepted temperature sensor has no key but the name, and its name is the given name converted to a string |
| Configuration.CheckEntry | custom_components/satel_integra_ext/__init__.py:58-67 | a key that does not convert to an integer is kept with its value as given; a key that converts to `n` is accepted exactly when the entry schema accepts the value, and then stores the checked value under `Id(n)` |
| Configuration.CheckEntries | custom_components/satel_integra_ext/__init__.py:58-67 | an id map's entries pass exactly when each entry passes; the accepted pairs correspond one to one, in order, to the input entries |
| Configuration.ValidateIds | custom_components/satel_integra_ext/__init__.py:58-67 | a non-mapping is refused; the id map is accepted exactly when every entry passes; its keys are distinct and are the checked keys at their first occurrence, in input order |
| ConfigurationProperties.ValidateIdsGet | custom_components/satel_integra_ext/__init__.py:58-67 | each key of an accepted id map holds the value of the last input entry whose key converts to it |
| ConfigurationProperties.ValidateIdsComplete | custom_components/satel_integra_ext/__init__.py:58-67 | no input entry is lost: one whose key converts to `n` is present under `Id(n)`, any other under its own key |
| Configuration.HostField | custom_components/satel_integra_ext/__init__.py:55 | a missing host is refused with a missing-key error on the host; a given host is accepted exactly when it converts to a string, and the result is that string |
| Configuration.PortField | custom_components/satel_integra_ext/__init__.py:56 | the port, given or default, is accepted exactly when it converts to an integer in the port range; an accepted port lies in that range |
| Configuration.DeviceCodeField | custom_components/satel_integra_ext/__init__.py:57 | an omitted device code is accepted as absent; the code is present exactly when its key is; a given code is accepted exactly when it converts to a string, and the result is that string |
| Configuration.PartitionsField | custom_components/satel_integra_ext/__init__.py:58-60 | omitted partitions are accepted as an empty id map; a given value that is not a mapping is refused; a given mapping is accepted exactly when every entry passes; accepted ids are distinct |
| Configuration.ZonesField | custom_components/satel_integra_ext/__init__.py:61 | the same for zones |
| Configuration.OutputsField | custom_components/satel_integra_ext/__init__.py:62 | the same for plain outputs |
| Configuration.SwitchableOutputsField | custom_components/satel_integra_ext/__init__.py:63-65 | the same for switchable outputs |
| Configuration.IntegrationKeyField | custom_components/satel_integra_ext/__init__.py:66 | an omitted integration key is `''`; a given one is accepted exactly when it converts to a string, and the result is that string |
| Configuration.TempSensorsField | custom_components/satel_integra_ext/__init__.py:67 | the same as the id maps above, for temperature sensors |
| Configuration.ExtraEntries | custom_components/satel_integra_ext/__init__.py:51-73 | the kept entries are exactly the input entries under keys the schema does not name |
| Configuration.FieldErrors | custom_components/satel_integra_ext/__init__.py:54-68 | no error is collected exactly when all nine fields pass |
| Configuration.ValidateFields | custom_components/satel_integra_ext/__init__.py:53-68 | a non-mapping is refused; a mapping is accepted exactly when no field reports an error, and otherwise fails with all the fields' errors; an accepted port is in range, its id maps have no repeated key, and the device code is present exactly when given |
| Configuration.IsAlarmCodeNecessary | custom_components/satel_integra_ext/__init__.py:44-49 | when the cross-field check passes, it returns its input unchanged |
| Configuration.Validate | custom_components/satel_integra_ext/__init__.py:53-70 | field errors are returned as they are; an accepted configuration is the one the field checks produced, and has a device code whenever it has switchable outputs |
| ConfigurationProperties.IdsSize | custom_components/satel_integra_ext/__init__.py:58-67 | an accepted id map is empty exactly when the given mapping is |
| ConfigurationProperties.AcceptedEntriesFromInput | custom_components/satel_integra_ext/__init__.py:58-67 | every pair of an accepted id map comes from an input entry in one of those two ways |
| ConfigurationProperties.KeptKeyExample | custom_components/satel_integra_ext/__init__.py:61-72 | the zone key "garage" passes the open id map, with its value unchecked |
| ConfigurationProperties.ZoneEntry | custom_components/satel_integra_ext/__init__.py:23-28 | an accepted zone has a name and no other key than the name and the type; its type is the given string, or the default when the key is omitted |
| ConfigurationProperties.ZoneAcceptedExactly | custom_components/satel_integra_ext/__init__.py:23-28 | the zone schema accepts exactly: a mapping, only the name and type keys, a string-convertible name, and a string-convertible type (given or default) |
| ConfigurationProperties.EditableOutputEntry | custom_components/satel_integra_ext/__init__.py:29 | an accepted switchable output has a name and no other key |
| ConfigurationProperties.EditableOutputAcceptedExactly | custom_components/satel_integra_ext/__init__.py:29 | the switchable-output schema accepts exactly a mapping with a string-convertible name and no other key |
| ConfigurationProperties.PartitionEntry | custom_components/satel_integra_ext/__init__.py:30-37 | an accepted partition has a name; its arm-home mode is 1, 2 or 3; the mode is the given integer, or the default when the key is omitted |
| ConfigurationProperties.PartitionAcceptedExactly | custom_components/satel_integra_ext/__init__.py:30-37 | the partition schema accepts exactly: a mapping, only the name and mode keys, a string-convertible name, and a mode (given or default) in `[1, 2, 3]` |
| ConfigurationProperties.TempSensorAcceptedExactly | custom_components/satel_integra_ext/__init__.py:38-42 | the temperature-sensor schema accepts exactly a mapping with a string-convertible name and no other key |
| ConfigurationProperties.EmptyIds | custom_components/satel_integra_ext/__init__.py:58-67 | the default empty mapping is accepted as an empty id map |
| ConfigurationProperties.PortFieldSource | custom_components/satel_integra_ext/__init__.py:56 | the port is the given value converted, or the default converted when the key is omitted |
| ConfigurationProperties.OmittedFields | custom_components/satel_integra_ext/__init__.py:58-67 | an omitted id map is empty, and an omitted integration key is `''` |
| ConfigurationProperties.SwitchableOutputsSize | custom_components/satel_integra_ext/__init__.py:63-65 | accepted switchable outputs are non-empty exactly when the input gives a non-empty mapping for them |
| ConfigurationProperties.ValidateExactly | custom_components/satel_integra_ext/__init__.py:51-73 | the whole schema accepts exactly a mapping whose nine fields pass and that does not configure switchable outputs without a device code |
| ConfigurationProperties.AlarmCodeRequiredExactly | custom_components/satel_integra_ext/__init__.py:44-49 | a mapping whose fields pass is refused exactly when switchable outputs are configured and the device code is absent; the one error is the alarm-code error |
| ConfigurationProperties.NoSwitchableOutputsNoCodeNeeded | custom_components/satel_integra_ext/__init__.py:44-49 | with switchable outputs omitted or empty, the cross-field check changes nothing |
| ConfigurationProperties.AcceptedFields | custom_components/satel_integra_ext/__init__.py:53-72 | see the list below the table |
| ConfigurationProperties.PartitionFromEntry | custom_components/satel_integra_ext/__init__.py:58-60 | a partition taken from an input entry is checked exactly when its key is an integer, and then has mode 1, 2 or 3 |
| ConfigurationProperties.AcceptedArmHomeModes | custom_components/satel_integra_ext/__init__.py:58-60 | in an accepted configuration, each partition is checked exactly when its id is an integer, and every checked partition has mode 1, 2 or 3 |
| ConfigurationProperties.AcceptedZonesFromInput | custom_components/satel_integra_ext/__init__.py:61 | every accepted zone comes from an input entry, as the zone schema turns it, or kept as given |
| ConfigurationProperties.AcceptedOutputsFromInput | custom_components/satel_integra_ext/__init__.py:62 | every accepted plain output comes from an input entry in the same way |
| ConfigurationProperties.HostRequired | custom_components/satel_integra_ext/__init__.py:55 | a mapping without the host is refused with a missing-key error on the host |
| ConfigurationProperties.PortOutOfRangeRefused | custom_components/satel_integra_ext/__init__.py:56 | an integer port outside the range is refused with a range error on the port |
| ConfigurationProperties.NumericDeviceCode | custom_components/satel_integra_ext/__init__.py:57 | a device code given as a number is accepted as its decimal text, which reads back as the number |
| ConfigurationProperties.LampAccepted | custom_components/satel_integra_ext/__init__.py:63-65 | `{1: {name: "Lamp"}}` is accepted as the switchable output 1 named "Lamp" |
| ConfigurationProperties.ExampleFields | custom_components/satel_integra_ext/__init__.py:53-68 | each field of the example mapping passes, with the expected value |
| ConfigurationProperties.SwitchableOutputExample | custom_components/satel_integra_ext/__init__.py:44-49 | see the list below the table |
| MonitoredOutputs.Merge | custom_components/satel_integra_ext/__init__.py:87-89 | the merged dictionary has no repeated id; it is empty exactly when both inputs are |
| MonitoredOutputs.MonitoredOutputsOf | custom_components/satel_integra_ext/__init__.py:87-89 | the monitored outputs of a configuration have distinct ids, and an id is monitored exactly when it is a plain or a switchable output |
| MonitoredOutputs.MergedPairsKeys | custom_components/satel_integra_ext/__init__.py:87-89 | the merged items are the plain outputs' keys, then the switchable outputs' keys |
| MonitoredOutputs.MergeMembers | custom_components/satel_integra_ext/__init__.py:87-89 | an id is monitored exactly when it is a plain or a switchable output |
| MonitoredOutputs.MergeKeys | custom_components/satel_integra_ext/__init__.py:87-89 | the order is the plain outputs', then the switchable outputs that are not plain ones; a shared id keeps its plain position |
| MonitoredOutputs.MergeGet | custom_components/satel_integra_ext/__init__.py:87-89 | a shared id holds the switchable output (the last write wins); otherwise the id holds whichever output it has |
| MonitoredOutputs.AcceptedMonitoredOutputs | custom_components/satel_integra_ext/__init__.py:87-89 | the key order and value rule hold for the outputs of every accepted configuration |
| StatusForwarding.AlarmStatusUpdate | custom_components/satel_integra_ext/__init__.py:148-151 | the panel callback sends the panel signal with no payload |
| StatusForwarding.Forward | custom_components/satel_integra_ext/__init__.py:153-163 | `status[key]` is sent exactly when the key is present, with the given signal and a single payload taken from the status under that key; otherwise `KeyError` on that key |
| StatusForwarding.ZonesUpdate | custom_components/satel_integra_ext/__init__.py:154-157 | the zones callback sends the zones signal with the value under the zones key, and raises `KeyError` exactly when the key is missing |
| StatusForwarding.OutputsUpdate | custom_components/satel_integra_ext/__init__.py:160-163 | the outputs callback does the same with `"outputs"` |
| StatusForwarding.ForwardPayload | custom_components/satel_integra_ext/__init__.py:153-163 | in a status mapping, the payload is exactly the value stored under the key |
| StatusForwarding.ZonesUpdateForwards | custom_components/satel_integra_ext/__init__.py:154-157 | the zones callback forwards exactly the zone statuses |
| StatusForwarding.OutputsUpdateForwards | custom_components/satel_integra_ext/__init__.py:160-163 | the outputs callback forwards exactly the output statuses |
| StatusForwarding.ZonesNotificationExample | custom_components/satel_integra_ext/__init__.py:153-163 | `{zones: {3: "violated"}}` is forwarded whole by the zones callback; the outputs callback fails on it with `KeyError` |

Two rows state more than fits in the table.

`ConfigurationProperties.AcceptedFields` states that in an accepted configuration:
- the host is the given host, converted to a string;
- the port is in range;
- the port is the given one, or the default when omitted;
- the device code is present exactly when given, and is then the given code converted to a string;
- a given integration key is kept, converted to a string;
- omitted id maps are empty;
- an omitted integration key is `''`;
- the kept extra entries are exactly the input entries under keys the schema does not name.

`ConfigurationProperties.SwitchableOutputExample` uses a mapping with host "10.0.0.5", port 7094 and one switchable output named "Lamp":
- Without a device code, it passes every field check and is refused with the alarm-code error alone.
- With device code "1234", it is accepted, with the expected values.

## Left out

- The rest of `async_setup`:
  - creating and connecting `AsyncSatel`;
  - the stop listener;
  - loading the platforms;
  - the keep-alive and monitoring tasks;
  - logging.

  These are I/O and calls into the Home Assistant runtime and the panel library.
- The dispatcher itself: a callback's result is the signal and payload it would send.
- The values of the integration's constants and of Home Assistant's port range. The schema's constants are the parameter `Constants`, the `ZONES` key is the parameter `zonesKey`, and the signal names are the datatype `Signal`.
- The root level of `CONFIG_SCHEMA`: the `DOMAIN` key and the other integrations' keys. The model starts at the integration's own mapping.
- The order in which voluptuous reports several errors: the model lists them in schema field order.
- The order of the top-level keys of the validated mapping. It is a record, with the kept extra entries in input order.
- `RawValues.CoerceInt`: Python's `int()` is modelled for integers, booleans and strings made of an optional sign and ASCII digits. It does not accept surrounding whitespace, `_` separators or non-ASCII digits. There are no floats in the model.
- `Configuration.ArmHomeModeIn`: `vol.In` returns `True` unchanged. The model stores it as 1, the integer it equals in Python.
- `Configuration.CvString`: Home Assistant's template results are not modelled. Booleans give "True" and "False", and integers give their decimal text.
