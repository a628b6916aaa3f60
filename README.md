# CISS to ThingsPro: a verified model of the sensor node and equipment builder

This project models, in Dafny, the core of a small gateway application. The
application reads a Bosch CISS sensor node over a USB serial port, keeps the
readings of its eight sensors, and publishes them as the tags of a ThingsPro
equipment. The model covers three source files:

- `lib/cissUsbSensor.py`:
  - the frame protocol of the USB stream: `0xFE` marker, a length byte, the body, and an XOR checksum that also covers the length byte;
  - the field walk of `parse_payload` and the record layout of `save_to_dict`;
  - the per-channel sensors: `CissSensor`, with its running min/max seeded at 0 and its bounded history, and `CissXyzSensor`, with its three axes and the `|x| + |y| + |z|` composite;
  - the node (`AppCissNode`): its sensors, its bounded record queue, and the drain loop `process_stream_data`;
  - the node registration of `AppCissContext.init_context`.
- `lib/chgrcodebase.py`:
  - the error codes and log levels;
  - the error state of `AppBase`;
  - the stopwatch `AppTimer`, with its process-wide table of named totals;
  - the exit-code choice of `AppContext.exit_context`.
- `lib/tpg_create_vtags.py`:
  - the checks of the `TpgEquipmentApp` constructor;
  - the tag names `node-sensor-stat`;
  - the ordered tag list `tpg_build_new_equipment` builds;
  - the first-match search for an existing equipment;
  - the choice between adding and updating an equipment.

Each source class whose fields are updated in place is a Dafny `class`. This
covers `CissSensor`, `CissXyzSensor`, `AppCissNode`, `AppCissContext`,
`AppBase`, `AppTimer` and its shared table, and `AppContext`. Each of these
methods is proved against a specification function on values: `SensorUpdate`,
`XyzUpdate`, `NodeStep`, `ProcessQueue`, `Walk`, `ScanFrame`,
`RegisterNodes`, `TimerStart`/`TimerStop`/`TimerCheck`. The lemmas next to
each function prove what the source promises. The loops that build the tag
list are methods proved against `TagsFor`, `SensorTags`, `NodeTags` and
`EquipmentTags`.

Modules, one file each:

| file | module | models |
|---|---|---|
| `values.dfy` | `Values` | `None`/int/str values, exceptions, `dict.get`, the bounded `deque` |
| `chgrcodebase.dfy` | `ChgrCodeBase` | `lib/chgrcodebase.py` |
| `ciss_sensor.dfy` | `CissSensors` | `CissSensor`, `CissXyzSensor` |
| `ciss_frame.dfy` | `CissFrame` | checksum, frame sync, field walk, `save_to_dict`, the serial port |
| `ciss_node_state.dfy` | `CissNodeState` | the eight sensors of a node, record application, the queue drain |
| `ciss_payload.dfy` | `CissPayload` | the walk of `parse_payload` with its effects |
| `ciss_node.dfy` | `CissNode` | `AppCissNode` |
| `ciss_context.dfy` | `CissContext` | `AppCissContext.init_context` |
| `tpg_vtags.dfy` | `TpgVtags` | `lib/tpg_create_vtags.py` |

The model stands in for several things the code does not control:

- **The serial port** is a `SerialPort` object. It holds the bytes that will arrive, a read cursor, and an open flag.
- **The clock** (`time.time()`, `AppTimer.timer()`) is a parameter: `now`, or `clock(k)` for the reading at the `k`-th timeout check.
- **`CISSNode`** supplies `get_type`, `sensorlist[t].data_length` and `sensorlist[t].parse`. Its source is not part of this model, so these three are the fields of a `TypeTable` parameter.
- **HTTP answers** of the ThingsPro REST API are parameters: the status code and the decoded body.

## Model

| member | source | states |
|---|---|---|
| Values.BoundedAppend | lib/cissUsbSensor.py:106 | appending to a `deque(maxlen=cap)` gives `min(len + 1, cap)` elements with the new value last |
| Values.BoundedAppendRecent | lib/cissUsbSensor.py:80-81 | a bounded append to the newest `cap` values of a history gives the newest `cap` values of the extended history |
| Values.RecentIsNewest | lib/cissUsbSensor.py:80-81 | the window holds `min(n, cap)` values, exactly the newest ones of the history in order |
| ChgrCodeBase.AppErrorCode.Value | lib/chgrcodebase.py:33-37 | every error code is one of 0..3 (its body gives OK 0, ERROR 1, EXCEPTION 2, TIMEOUT 3) |
| ChgrCodeBase.AppLogLevel.Value | lib/chgrcodebase.py:41-47 | every level is a multiple of 10 from 0 to 50 (its body gives NOTSET 0 up to CRITICAL 50) |
| ChgrCodeBase.VLevelToLogLevel | lib/chgrcodebase.py:229-236 | DEBUG exactly for verbosity >= 3, INFO exactly for 2, ERROR exactly below 2 |
| ChgrCodeBase.VLevelAntitone | lib/chgrcodebase.py:229-236 | more verbosity never gives a higher (stricter) level |
| ChgrCodeBase.AppBase.constructor | lib/chgrcodebase.py:114-129 | a new component has code OK, an empty error string, and no error |
| ChgrCodeBase.AppBase.SetErrorStr | lib/chgrcodebase.py:138-142 | stores code and string, returns True; afterwards `has_error(e)` holds, and `has_error()` holds iff `e` is not OK |
| ChgrCodeBase.AppBase.HasError | lib/chgrcodebase.py:160-167 | with an argument: true iff the code equals it; without one: true iff the code is not OK |
| ChgrCodeBase.AppBase.ClearError | lib/chgrcodebase.py:169-171 | code OK and empty string again, so `has_error()` is false and `has_error(OK)` is true |
| ChgrCodeBase.TimerStart | lib/chgrcodebase.py:69-75 | raises `AppTimerError` iff the timer runs; otherwise it runs from `now` with end and elapsed cleared |
| ChgrCodeBase.TimerStop | lib/chgrcodebase.py:78-84 | raises iff the timer is idle; otherwise it is idle, with end `now` and elapsed `now - start` |
| ChgrCodeBase.TimerCheck | lib/chgrcodebase.py:89-96 | raises iff idle; otherwise it keeps start and end, stores the elapsed time, and says true iff elapsed >= timeout |
| ChgrCodeBase.RegisterTimer | lib/chgrcodebase.py:55-62 | a truthy name gets total 0 unless it has one; every existing total is kept; no other name is added |
| ChgrCodeBase.Accumulate | lib/chgrcodebase.py:85-86 | a `KeyError` iff a truthy name is missing; otherwise that name's total grows by the elapsed time; an untruthy name changes nothing |
| ChgrCodeBase.RunTimerAccumulates | lib/chgrcodebase.py:52-87 | any start/stop runs of an idle registered timer never raise and end idle; the name's total grows by the summed run lengths and every other total is unchanged |
| ChgrCodeBase.TimerTable.constructor | lib/chgrcodebase.py:53 | the class-wide `timers` table starts empty |
| ChgrCodeBase.AppTimer.constructor | lib/chgrcodebase.py:55-63 | a new timer is idle, and the shared table is `setdefault(name, 0)` of the old one |
| ChgrCodeBase.AppTimer.Start | lib/chgrcodebase.py:69-75 | the state becomes `TimerStart` of the old one, or is unchanged with `AppTimerError` |
| ChgrCodeBase.AppTimer.Stop | lib/chgrcodebase.py:78-87 | the state becomes `TimerStop` of the old one; the shared table is `Accumulate`d; the result is the elapsed time, `AppTimerError` (idle timer) or `KeyError` |
| ChgrCodeBase.AppTimer.IsElapsed | lib/chgrcodebase.py:89-96 | result and new state are those of `TimerCheck`; an idle timer raises and is unchanged |
| ChgrCodeBase.AppTimer.GetElapsed | lib/chgrcodebase.py:98-107 | with a name: that name's total, or `AppTimerError` if unknown; without one: the stored elapsed time, measured first (`is_elapsed(0)`) when there is none, which raises on an idle timer |
| ChgrCodeBase.StartStopElapsed | lib/chgrcodebase.py:69-87 | start at `t0`, stop at `t1` reports `t1 - t0`; a second stop raises |
| ChgrCodeBase.ExitCodeAsWritten | lib/chgrcodebase.py:345-349 | an `Exception` gives code 2, an integer reason gives itself (the interrupt case is the finding below) |
| ChgrCodeBase.ExitCodeAsWrittenRaisesOnInterrupt | lib/chgrcodebase.py:483-486 | the `KeyboardInterrupt` that `main` hands to `exit_context` makes `int(reason)` raise `TypeError` |
| ChgrCodeBase.ExitCode | lib/chgrcodebase.py:345-349 | EXCEPTION (2) for any exception, the integer code itself otherwise |
| ChgrCodeBase.ExitCodeAgrees | lib/chgrcodebase.py:345-349 | the intended code equals the written one wherever that does not raise, and it raises exactly for an interrupt |
| ChgrCodeBase.AppContext.constructor | lib/chgrcodebase.py:241-245 | a new context is not running |
| ChgrCodeBase.AppContext.RunContext | lib/chgrcodebase.py:337-340 | sets the run flag and returns True |
| ChgrCodeBase.AppContext.ExitContextAsWritten | lib/chgrcodebase.py:345-357 | the code is `ExitCodeAsWritten(reason)`; the run flag is cleared when that is a code, and left as it was when `int(reason)` raises |
| ChgrCodeBase.AppContext.ExitContext | lib/chgrcodebase.py:345-357 | with the corrected code from the finding below, every reason, the interrupt included, clears the run flag and returns `ExitCode(reason)` |
| ChgrCodeBase.AppContext.StopRunContext | lib/chgrcodebase.py:359-362 | clears the run flag and returns True |
| CissSensors.RunningMin | lib/cissUsbSensor.py:100 | the running minimum seeded with 0 is never positive |
| CissSensors.RunningMax | lib/cissUsbSensor.py:101 | the running maximum seeded with 0 is never negative |
| CissSensors.RunningExtremes | lib/cissUsbSensor.py:71-101 | min <= every accepted value <= max; each extreme is the seed 0 or an accepted value |
| CissSensors.RunningStep | lib/cissUsbSensor.py:100-101 | one more value is folded into both running extremes with `min`/`max` |
| CissSensors.SensorUpdate | lib/cissUsbSensor.py:91-106 | `None` and `""` change nothing; an integer becomes current, is stamped with the timestamp (or the clock when `None`), is folded into min/max, and is appended to the bounded window; id, capacity, mean and std are kept |
| CissSensors.Replay | lib/cissUsbSensor.py:91-106 | feeding values keeps the id, the capacity and the window bound |
| CissSensors.ReplayFromNew | lib/cissUsbSensor.py:66-106 | from a new sensor, any value history leaves: the window = its newest `max_data_size` values; min/max = the running extremes seeded at 0; current = the last value |
| CissSensors.ValueTable | lib/cissUsbSensor.py:71-78 | the `_value` table has exactly the keys timestamp, current, min, max, mean, std |
| CissSensors.GetStateValue | lib/cissUsbSensor.py:109-113 | without a key: the whole table, with the six keys; with one: `KeyError` iff it is not one of the six, else the table's entry for it; current, min, max and timestamp are read from the state |
| CissSensors.TableAgreesWithEntries | lib/cissUsbSensor.py:109-113 | each key's entry read alone equals that key's entry in the whole table |
| CissSensors.CissSensor.constructor | lib/cissUsbSensor.py:66-81 | a new sensor has everything 0, no timestamp, an empty window of capacity `max_data_size` |
| CissSensors.CissSensor.UpdateValue | lib/cissUsbSensor.py:91-107 | the new state is `SensorUpdate` of the old one; returns the value, or `None` when it was skipped |
| CissSensors.CissSensor.UpdateValueExt | lib/cissUsbSensor.py:85-89 | the record's entry under the sensor id is applied with the record's timestamp |
| CissSensors.CissSensor.GetValue | lib/cissUsbSensor.py:109-113 | `get_value(what=None)` on the `_value` table of the current state (`GetStateValue`): the whole table without a key |
| CissSensors.XyzUpdate | lib/cissUsbSensor.py:128-143 | the update keeps all four window bounds, ids and capacities |
| CissSensors.XyzMissingAxis | lib/cissUsbSensor.py:129-133 | a record missing any axis key leaves all four channels unchanged and returns `None` |
| CissSensors.XyzFullSample | lib/cissUsbSensor.py:135-143 | integer axis values x, y, z become the axes' current values; the composite becomes `|x|+|y|+|z|` (returned); a record with a timestamp stamps all four channels with it |
| CissSensors.XyzEmptyAxisIsPartial | lib/cissUsbSensor.py:136-141 | an empty-string y axis passes the presence check, but only x is updated; y, z and the composite are unchanged |
| CissSensors.CissXyzSensor.constructor | lib/cissUsbSensor.py:122-126 | axis sensors named `<id>_x`, `<id>_y`, `<id>_z`, all with the composite's capacity |
| CissSensors.CissXyzSensor.UpdateValueExt | lib/cissUsbSensor.py:128-143 | new states and the result are those of `XyzUpdate` |
| CissSensors.CissXyzSensor.GetSensor | lib/cissUsbSensor.py:152-160 | an axis sensor (named `<id>_<axis>`) exactly for "x", "y", "z"; `ValueError` otherwise |
| CissSensors.CissXyzSensor.GetValue | lib/cissUsbSensor.py:145-150 | `GetStateValue` of the composite without a type, of the `x`, `y` or `z` axis sensor with one, for a key or (`None`) the whole table; `ValueError` for an unknown type |
| CissFrame.XorFoldAppend | lib/cissUsbSensor.py:363-365 | the running XOR of a concatenation is the XOR of the two parts' folds |
| CissFrame.CheckPayload | lib/cissUsbSensor.py:361-370 | 1 iff the XOR of all bytes but the last equals the last, else 0; `IndexError` exactly for an empty payload |
| CissFrame.SingleByteCorruptionDetected | lib/cissUsbSensor.py:361-370 | changing any single byte of an accepted payload, the length and the checksum bytes included, makes it rejected |
| CissFrame.ConvData | lib/cissUsbSensor.py:354-359 | the converted list holds the bytes read, in order |
| CissFrame.SeekMarker | lib/cissUsbSensor.py:336-337 | the position just after the first `0xFE` at or after the cursor, no marker before it; `None` iff no marker remains |
| CissFrame.BodyEnd | lib/cissUsbSensor.py:339-344 | the body read after the length byte ends at most `L + 1` bytes on, at the end of the input if sooner |
| CissFrame.FramePayload | lib/cissUsbSensor.py:344-346 | the payload is the length byte followed by the body, one byte longer than the body |
| CissFrame.ScanFrame | lib/cissUsbSensor.py:332-350 | a found frame is non-empty and accepted, lies past the cursor, and is at most `L + 2` bytes long |
| CissFrame.SeekSkipsJunk | lib/cissUsbSensor.py:336-337 | the marker search passes over every byte that is not a marker |
| CissFrame.FrameLayout | lib/cissUsbSensor.py:336-346 | behind non-marker bytes, a sent frame's marker is found, its body ends after the checksum, and its payload is length, data and checksum |
| CissFrame.FrameIsFound | lib/cissUsbSensor.py:332-350 | any framed data block behind non-marker bytes is accepted whatever follows; reading stops right after its checksum |
| CissFrame.RejectedBodyIsSkipped | lib/cissUsbSensor.py:339-350 | an example: in `FE 02 FE 00 00` the frame read from the first marker is rejected, the search resumes behind its body and finds nothing, though scanning from the inner marker would find the frame `00 00` |
| CissNode.ScanUnfold | lib/cissUsbSensor.py:332-350 | one round of the search: no marker left, or a marker that is the last byte, ends it; otherwise the frame read from the marker is taken when accepted, and else the search resumes behind its body, so nothing inside a rejected body is looked at |
| CissFrame.DecodeMasks | lib/cissUsbSensor.py:376-388 | the walk yields only non-empty blocks, at most one per byte, and ends normally or with `IndexError` |
| CissFrame.DecodeEncode | lib/cissUsbSensor.py:376-388 | a body of fields with known tags and full-width blocks decodes to exactly their readings, in order, with no error |
| CissFrame.DecodeStopsAtUnknownTag | lib/cissUsbSensor.py:377-388 | an unknown tag ends the walk and whatever follows it is ignored |
| CissFrame.SaveToDict | lib/cissUsbSensor.py:390-416 | fewer than 14 readings give `{}`; otherwise `id` and `timestamp` are set and every other entry is an integer |
| CissFrame.SerialPort.constructor | lib/cissUsbSensor.py:185-188 | a port over the given input, cursor at the start |
| CissFrame.SerialPort.Read | lib/cissUsbSensor.py:339-344 | `read(n)` returns the next up to `n` bytes and advances the cursor past them |
| CissNodeState.SavedRecordConvertible | lib/cissUsbSensor.py:390-416 | every channel of a `save_to_dict` record can be handed to `int()` |
| CissNodeState.Records | lib/cissUsbSensor.py:382-384 | one record per reading block |
| CissNodeState.AppendAll | lib/cissUsbSensor.py:384 | the record queue never exceeds its `maxlen` |
| CissNodeState.AppendAllRecent | lib/cissUsbSensor.py:174 | the queue always holds exactly the newest `maxlen` records ever appended |
| CissNodeState.NewNodeState | lib/cissUsbSensor.py:175-184 | the eight sensors of a new node (Accl/Gyro/Magn with `_x/_y/_z` children; Temp, Humi, Pres, Ligh, Nois) are well formed |
| CissNodeState.EmptyRecordChangesNothing | lib/cissUsbSensor.py:214-216 | applying the empty record of a short block changes no sensor |
| CissNodeState.SampleDrivesNode | lib/cissUsbSensor.py:390-416 | a full block reaches the sensors in `save_to_dict`'s layout: the x, y, z axes of Accl from readings 0-2, Gyro 3-5 and Magn 6-8, each composite the sum of its three magnitudes; Temp 9, Humi 10, Pres 11, Ligh 12, Nois 13; every channel of every sensor is stamped with the record time |
| CissNodeState.SampleAxisReadings | lib/cissUsbSensor.py:397-408 | readings 0-8 sit under Accl_x..Magn_z |
| CissNodeState.SampleScalarReadings | lib/cissUsbSensor.py:395-413 | readings 9-13 sit under Temp, Humi, Pres, Ligh, Nois, and the timestamp under `timestamp` |
| CissNodeState.IsIntegerNum | lib/cissUsbSensor.py:306-309 | true exactly for integers (the model has no floats) |
| CissNodeState.GetSensorValue | lib/cissUsbSensor.py:314-321 | the entry (or the default), 0 when not an integer, its magnitude when `absolute`, so never negative then |
| CissNodeState.CompositeMatchesGetter | lib/cissUsbSensor.py:128-143 | the composite equals the sum of the static getter's absolute axis values |
| CissNodeState.DrainFromBounds | lib/cissUsbSensor.py:231-244 | from any loop point: applied <= removed <= applied + 1, and at most `number` applied |
| CissNodeState.DrainBounds | lib/cissUsbSensor.py:219-244 | at most `number` records applied, at most one more taken off, and some taken off iff the queue was not empty |
| CissNodeState.DrainFromCount | lib/cissUsbSensor.py:231-244 | without a timeout, the loop from any point applies `min(number, n)` |
| CissNodeState.DrainWithoutTimeout | lib/cissUsbSensor.py:219-244 | without a timeout, exactly `min(number, n)` records are applied; when the count stops the loop early, one more is taken off and lost |
| CissNodeState.ProcessFromDrains | lib/cissUsbSensor.py:231-244 | from any loop point, the records applied are the queue's next ones in FIFO order, as `DrainFrom` counts them |
| CissNodeState.ProcessQueueDrains | lib/cissUsbSensor.py:219-244 | the call applies the first `applied` queued records in order and leaves the queue without its first `removed` |
| CissNodeState.PayloadParse | lib/cissUsbSensor.py:374-375 | a payload of fewer than 2 bytes raises `IndexError` at the `pop`s |
| CissNodeState.ChannelsReachSensors | lib/cissUsbSensor.py:214-216 | every sensor of a node can take such a record |
| CissNodeState.GetSensor | lib/cissUsbSensor.py:272-276 | a sensor, carrying that name, exactly for the eight names; `ValueError` otherwise |
| CissPayload.Walk | lib/cissUsbSensor.py:376-388 | the queue stays within its `maxlen` during the walk |
| CissPayload.WalkDecodes | lib/cissUsbSensor.py:376-388 | queueing and applying each record as it is parsed ends as parsing all blocks first, then queueing and applying their records in order |
| CissNode.AppCissNode.constructor | lib/cissUsbSensor.py:166-190 | new well-formed sensors, an empty queue of the given `maxlen`, a port over the input |
| CissNode.AppCissNode.UpdateSensorValues | lib/cissUsbSensor.py:214-217 | every sensor takes the record (`NodeStep`); returns True |
| CissNode.AppCissNode.ProcessStreamData | lib/cissUsbSensor.py:219-244 | queue and sensors end as `ProcessQueue` says (so, with `ProcessQueueDrains`, FIFO and at most `number` applied); returns True |
| CissNode.AppCissNode.SaveAndApply | lib/cissUsbSensor.py:382-385 | the block's record is appended to the bounded queue and applied to the sensors |
| CissNode.AppCissNode.ParsePayload | lib/cissUsbSensor.py:372-388 | the outcome is `PayloadParse`'s; the queue gets the records of its blocks in order, and the sensors take them in order |
| CissNode.AppCissNode.SkipToSof | lib/cissUsbSensor.py:336-337 | true iff a marker remains, with the cursor right after it |
| CissNode.AppCissNode.ReadFrame | lib/cissUsbSensor.py:339-346 | no payload iff no length byte arrives; otherwise the length byte and body read, the cursor after them |
| CissNode.AppCissNode.ReadCissSensorStream | lib/cissUsbSensor.py:323-352 | a closed port: False, nothing read; otherwise the first accepted frame of `ScanFrame` is parsed and the cursor ends right after it; no accepted frame in the input: nothing changes |
| CissContext.RegisterNodes | lib/cissUsbSensor.py:445-453 | registration only adds entries and never changes a registered one |
| CissContext.RegisterNodesIff | lib/cissUsbSensor.py:442-453 | registration succeeds iff every node has an `id`, the ids are distinct, and none is registered already |
| CissContext.RegisterNodesContents | lib/cissUsbSensor.py:445-453 | a successful registration adds exactly the nodes' ids, each holding its node |
| CissContext.AppCissContext.constructor | lib/cissUsbSensor.py:430-436 | the node table starts empty |
| CissContext.AppCissContext.InitContext | lib/cissUsbSensor.py:439-453 | a missing `ciss_nodes` gives False with nothing registered; otherwise table and result are `RegisterNodes`' |
| TpgVtags.NewTpgEquipmentApp | lib/tpg_create_vtags.py:66-79 | succeeds iff token, equipment name and nodes are truthy; otherwise the `AppBaseError` of the first one missing, in that order |
| TpgVtags.TagNameRoundTrip | lib/tpg_create_vtags.py:232-235 | a tag name splits back into its node, sensor and statistic when the node and sensor names have no dash |
| TpgVtags.TagNameInjective | lib/tpg_create_vtags.py:232-235 | for dash-free node and sensor names, distinct triples give distinct tag names |
| TpgVtags.TagNameAmbiguous | lib/tpg_create_vtags.py:232-235 | a dash in a name lets two different nodes publish the same tag name |
| TpgVtags.TagsForMembership | lib/tpg_create_vtags.py:141-160 | a tag is appended iff it is named `node-sensor-stat` for one of the statistics and that name is not excluded; every tag is uint32, rw, size 4 |
| TpgVtags.TagsForAll | lib/tpg_create_vtags.py:141-160 | with nothing excluded, one tag per statistic, in the order current, min, max, mean, std (or current alone) |
| TpgVtags.AxisSensorTags | lib/tpg_create_vtags.py:127-135 | an enabled Accl/Gyro/Magn sensor publishes its own tags, then those of `_x`, `_y`, `_z` |
| TpgVtags.SensorTagsSplit | lib/tpg_create_vtags.py:127-135 | an enabled sensor's tags are its own name's, followed by its axes' tags for an axis sensor |
| TpgVtags.EquipmentTagsMembership | lib/tpg_create_vtags.py:119-139 | a tag is in the equipment iff some enabled sensor of some node publishes it under one of its names |
| TpgVtags.NoExcludedTag | lib/tpg_create_vtags.py:146-159 | no excluded name is ever published, and every tag has the fixed type, access and size |
| TpgVtags.BuildNewEquTag | lib/tpg_create_vtags.py:141-160 | appends exactly `TagsFor` the sensor's statistics and changes nothing else; returns True |
| TpgVtags.BuildSensorTags | lib/tpg_create_vtags.py:132-135 | appends exactly the enabled sensor's `SensorTags` |
| TpgVtags.BuildNodeTags | lib/tpg_create_vtags.py:128-135 | appends exactly the node's `NodeTags`, disabled sensors contributing none |
| TpgVtags.BuildNewEquipment | lib/tpg_create_vtags.py:119-139 | the name given; an `id` iff `equid` is not `None`; the tags `EquipmentTags` of the nodes in order |
| TpgVtags.TpgEquipmentExists | lib/tpg_create_vtags.py:110-117 | the first entry carrying the name; `None` iff the input is not a list or no entry carries it |
| TpgVtags.WriteCall | lib/tpg_create_vtags.py:182-192 | an update of the `id` iff the data has an `id` that is not `None`, otherwise an add; the data is sent unchanged |
| TpgVtags.TpgCreateEquipment | lib/tpg_create_vtags.py:162-180 | writes the rebuilt equipment (all tags, nothing excluded), as an update of the found entry's id iff it has one that is not `None`; succeeds iff the answer is 200 |
| TpgVtags.TpgCheckEquipment | lib/tpg_create_vtags.py:88-108 | nothing on a status other than 200; on 200, nothing iff the answer is not a list or no entry carries the app's equipment name, else the first entry of the answer that carries it |

## Left out

- Serial I/O is a byte sequence with a cursor:
  - opening the port and its settings (`serial.Serial`, baud rate, timeout), `connect`, `do_exit` and `get_ini_config`;
  - the retry loop `collect_sensor_stream_until` with its sleeps.
- When the input ends without an accepted frame, the source polls the port forever. `CissNode.AppCissNode.ReadCissSensorStream` returns `InputExhausted` instead.
- CissNode.AppCissNode.ReadCissSensorStream: in the `InputExhausted` case, the contract does not say where the cursor ends.
- `CISSNode` (`get_type`, `sensorlist`, `parse`, `sensorid`, `disconnect`) is not part of this model. It is the abstract `TypeTable` and the node's `sensorId`.
- The Python 2 string bytes (`sof = "\xFE"`, `ord`) are byte values (`bv8`). For this reason `conv_data` is the identity.
- Mean and standard deviation are computed only when `check_for_module('statistics')` is true. The model assumes it is false, so `mean` and `std` stay at their initial 0. The module is never imported, so a true result would make `update_value` raise `NameError` after setting current, min and max and before the append. The values would also be floating point.
- CissSensors.SensorUpdate: requires `Convertible`, which admits integers, `None` and `""`. The model does not cover `int()` on a numeric string or on a float, nor the `ValueError` on other text. The model assumes `CISSNode`'s `parse` yields integers (its `TypeTable.parse` returns `seq<int>`), so the records `save_to_dict` builds hold only integers.
- CissSensors.CissSensor.UpdateValue: the same restriction to integers, `None` and `""`.
- CissSensors.XyzUpdate: the same restriction on the three axis values.
- The CISS history table: `SensorState` carries the window, but `Replay`/`ReplayFromNew` state its contents over value histories. They do not track a separate log.
- The clock is a parameter. `parse_payload` reads `time.time()` once per record; the model stamps all records of one payload with one `now`.
- CissSensors.XyzUpdate: for a record without a timestamp, the source reads `time.time()` once per axis and once for the composite. The model uses one `now` for all four, so their stamps agree where the source's may differ.
- CissSensors.XyzFullSample: states the shared timestamp only for a record that carries one, for the same reason.
- ChgrCodeBase.AppContext.ExitContext: follows the corrected exit code. For a `KeyboardInterrupt` it returns 2 and clears the run flag, where the source raises `TypeError` before clearing it. `ExitContextAsWritten` models the source as written.
- CissNodeState.IsIntegerNum: float entries are not modelled. In the source, `is_integer_num` is also true of an integral float such as `3.0`.
- CissNodeState.GetSensorValue: float entries are not modelled. In the source, an integral float is returned as it is (or its magnitude), and a non-integral float gives 0.
- CissSensors.GetStateValue: `get_value()` without a key returns the sensor's own `_value` dictionary, which the caller could then change. The model returns a copy of the table.
- The node's `get_sensor` returns a sensor by value (`SensorView`), not the shared object.
- `update_sensor_values` walks the dictionary in its own order. Each sensor reads only its own keys and changes only itself, so the model applies them in a fixed order.
- `get_sensors`, `print_values` and `print_sensor_values` are left out: they are printing and accessors.
- The instance `get_sensor_value` is left out. It calls a missing `_get_sensor`, and the static method of the same name shadows it.
- `is` in `CissXyzSensor.get_sensor` is modelled as string equality.
- `AppCissContext.run_context` and `do_exit` are left out: unbounded loops and sleeps.
- `init_context` loads the configuration file. The model takes the `ciss_nodes` list (`None` when the key is missing) and stores each node's configuration record in place of the `AppCissNode` built from it.
- Logging and printing are left out: `log_*`, `print_msg`, `initLogger`, `set_logger`, `get_logger`.
- The file and directory helpers, argparse, signal handlers, `debug_print_classes` and `check_for_module` are left out.
- `get_base_id`/`set_base_id` and `AppBase.get_error2str` are left out. The latter passes a string to `isinstance`, which raises `TypeError`.
- The wall clock of `AppTimer.timer()` is a parameter.
- `AppTpgContext` (`init_context`, `run_context`, `tpg_get_mx_api_token`) is left out: configuration and token file I/O.
- `tpg_build_rest_header`, the URLs, and the `requests` calls of `tpg_get_vtag_info`, `tpg_add_equipment` and `tpg_update_equipment` are left out. Their HTTP status and decoded body are parameters.
- TpgVtags.TpgEquipmentExists: entries of the answer are assumed to be dictionaries. An answer that is not a list is `None`.
- TpgVtags.BuildNewEquipment: `ciss_nodes` and each node's `sensors` are sequences in dictionary order. The node ids the source iterates over are unused there, so they are not modelled.
- TpgVtags.BuildNewEquTag: `vtags` is a value. The builder methods return the extended equipment, where the source appends to the dictionary it was given.

## Findings

| source | as written | input that shows it | evidently intended | confidence | as-written member | corrected member |
|---|---|---|---|---|---|---|
| lib/chgrcodebase.py:345-349 | `exit_context` computes `int(reason)` for every reason that is not an `Exception` | `main` passes the caught `KeyboardInterrupt` (a `BaseException`, not an `Exception`), so `int()` raises `TypeError` instead of returning an exit code | return the EXCEPTION code (2) for an interrupt as for any exception | not executed | ChgrCodeBase.ExitCodeAsWrittenRaisesOnInterrupt | ChgrCodeBase.ExitCode |
