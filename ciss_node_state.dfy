/** The values a CISS node of `lib/cissUsbSensor.py` works with: the sample
    records it queues, the states of its eight sensors (three with axes, five
    scalar), how records drive them, and how `process_stream_data` drains
    the queue. */
module CissNodeState {
  import opened Values
  import opened CissSensors
  import opened CissFrame

  // ---------------------------------------------------------------------
  // Records

  /** Every entry but the node id can be handed to `int()`: what the sensors
      need of a record. */
  predicate ChannelsConvertible(rec: Record)
  {
    forall k :: k in rec && k != "id" ==> Convertible(rec[k])
  }

  /** A record the sensors can take: what the queue holds. */
  type Sample = rec: Record | ChannelsConvertible(rec) witness map[]

  /** The records `save_to_dict` builds hold integer readings only. */
  lemma SavedRecordConvertible(id: Value, buff: seq<int>, tstamp: int)
    ensures ChannelsConvertible(SaveToDict(id, buff, tstamp))
  {
  }

  /** The records of a list of reading blocks, one per block, in order. */
  function Records(masks: seq<seq<int>>, id: Value, now: int): (r: seq<Sample>)
    ensures |r| == |masks|
    decreases |masks|
  {
    if masks == [] then []
    else
      var m := masks[|masks| - 1];
      SavedRecordConvertible(id, m, now);
      Records(masks[..|masks| - 1], id, now) + [SaveToDict(id, m, now)]
  }

  /** A bounded queue after appending records one by one. */
  function AppendAll(q: seq<Sample>, recs: seq<Sample>, cap: nat): (r: seq<Sample>)
    requires |q| <= cap
    ensures |r| <= cap
    decreases |recs|
  {
    if recs == [] then q
    else BoundedAppend(AppendAll(q, recs[..|recs| - 1], cap), recs[|recs| - 1], cap)
  }

  /** Appending to the recent window of a history gives the recent window
      of the longer history: the queue always holds exactly the newest
      `cap` records. */
  lemma {:induction false} AppendAllRecent(h: seq<Sample>, recs: seq<Sample>, cap: nat)
    ensures |Recent(h, cap)| <= cap
    ensures AppendAll(Recent(h, cap), recs, cap) == Recent(h + recs, cap)
    decreases |recs|
  {
    if recs == [] {
      assert h + recs == h;
    } else {
      var init, last := recs[..|recs| - 1], recs[|recs| - 1];
      AppendAllRecent(h, init, cap);
      BoundedAppendRecent(h + init, last, cap);
      assert h + init + [last] == h + recs;
    }
  }

  // ---------------------------------------------------------------------
  // The sensors of a node

  /** An axis sensor named `id` whose children carry the names `x`, `y`,
      `z` (`<id>_x`, `<id>_y`, `<id>_z` on a node). */
  predicate XyzNamed(s: XyzState, id: string, x: string, y: string, z: string)
  {
    && s.Bounded()
    && s.own.id == id && s.x.id == x && s.y.id == y && s.z.id == z
  }

  /** The eight sensors of `_sensors`. */
  datatype NodeState = NodeState(
    accl: XyzState, gyro: XyzState, magn: XyzState,
    temp: SensorState, humi: SensorState, pres: SensorState, ligh: SensorState, nois: SensorState)
  {
    predicate WellFormed()
    {
      && XyzNamed(accl, "Accl", "Accl_x", "Accl_y", "Accl_z")
      && XyzNamed(gyro, "Gyro", "Gyro_x", "Gyro_y", "Gyro_z")
      && XyzNamed(magn, "Magn", "Magn_x", "Magn_y", "Magn_z")
      && temp.id == "Temp" && humi.id == "Humi" && pres.id == "Pres" && ligh.id == "Ligh" && nois.id == "Nois"
      && temp.Bounded() && humi.Bounded() && pres.Bounded() && ligh.Bounded() && nois.Bounded()
    }
  }

  /** The node's sensors as the node keeps them. */
  type WfNodeState = s: NodeState | s.WellFormed() witness NewNodeState()

  /** The sensors of a new node: each keeps a window of 10 values (the
      default, since the node does not pass a size on). */
  function NewNodeState(): (s: NodeState)
    ensures s.WellFormed()
  {
    assert "Accl" + "_x" == "Accl_x" && "Accl" + "_y" == "Accl_y" && "Accl" + "_z" == "Accl_z";
    assert "Gyro" + "_x" == "Gyro_x" && "Gyro" + "_y" == "Gyro_y" && "Gyro" + "_z" == "Gyro_z";
    assert "Magn" + "_x" == "Magn_x" && "Magn" + "_y" == "Magn_y" && "Magn" + "_z" == "Magn_z";
    NodeState(NewXyzState("Accl", 10), NewXyzState("Gyro", 10), NewXyzState("Magn", 10),
              NewSensorState("Temp", 10), NewSensorState("Humi", 10), NewSensorState("Pres", 10),
              NewSensorState("Ligh", 10), NewSensorState("Nois", 10))
  }

  /** `update_sensor_values(rec)`: every sensor takes what the record holds
      for it. Each sensor reads its own keys and changes only itself, so the
      order of the dictionary walk does not matter. */
  function NodeStep(s: WfNodeState, rec: Sample, now: int): WfNodeState
  {
    var ts := Get(rec, "timestamp");
    NodeState(
      XyzUpdate(s.accl, rec, now).0, XyzUpdate(s.gyro, rec, now).0, XyzUpdate(s.magn, rec, now).0,
      SensorUpdate(s.temp, Get(rec, s.temp.id), ts, now),
      SensorUpdate(s.humi, Get(rec, s.humi.id), ts, now),
      SensorUpdate(s.pres, Get(rec, s.pres.id), ts, now),
      SensorUpdate(s.ligh, Get(rec, s.ligh.id), ts, now),
      SensorUpdate(s.nois, Get(rec, s.nois.id), ts, now))
  }

  /** `update_sensor_values` at clock reading `now`, as a step function. */
  function Stepper(now: int): (WfNodeState, Sample) -> WfNodeState
  {
    (s: WfNodeState, rec: Sample) => NodeStep(s, rec, now)
  }

  /** Applying records in order. */
  function FoldNode(s: WfNodeState, recs: seq<Sample>, now: int): WfNodeState
  {
    Fold(Stepper(now), s, recs)
  }

  /** The empty record `save_to_dict` gives for a short block changes no
      sensor. */
  lemma EmptyRecordChangesNothing(s: WfNodeState, now: int)
    ensures NodeStep(s, map[], now) == s
  {
    XyzMissingAxis(s.accl, map[], now);
    XyzMissingAxis(s.gyro, map[], now);
    XyzMissingAxis(s.magn, map[], now);
  }

  /** A full block of readings reaches the sensors as `save_to_dict` lays
      it out: the axes of Accl from readings 0-2, Gyro 3-5, Magn 6-8, each
      composite the sum of the magnitudes of its three readings, then
      temperature 9, humidity 10, pressure 11, light 12 and noise 13; every
      sensor is stamped with the record's time. */
  lemma SampleDrivesNode(s: WfNodeState, id: Value, buff: seq<int>, now: int)
    requires |buff| >= 14
    ensures ChannelsConvertible(SaveToDict(id, buff, now))
    ensures var r := NodeStep(s, SaveToDict(id, buff, now), now);
      && XyzDriven(r.accl, buff[0], buff[1], buff[2], now)
      && XyzDriven(r.gyro, buff[3], buff[4], buff[5], now)
      && XyzDriven(r.magn, buff[6], buff[7], buff[8], now)
    ensures var r := NodeStep(s, SaveToDict(id, buff, now), now);
      && r.temp.current == buff[9] && r.humi.current == buff[10] && r.pres.current == buff[11]
      && r.ligh.current == buff[12] && r.nois.current == buff[13]
      && r.temp.timestamp == Num(now) && r.humi.timestamp == Num(now) && r.pres.timestamp == Num(now)
      && r.ligh.timestamp == Num(now) && r.nois.timestamp == Num(now)
  {
    SavedRecordConvertible(id, buff, now);
    var rec: Sample := SaveToDict(id, buff, now);
    SampleAxisReadings(id, buff, now);
    SampleScalarReadings(id, buff, now);
    XyzFullSample(s.accl, rec, now, buff[0], buff[1], buff[2]);
    XyzFullSample(s.gyro, rec, now, buff[3], buff[4], buff[5]);
    XyzFullSample(s.magn, rec, now, buff[6], buff[7], buff[8]);
  }

  /** An axis sensor that took the readings `a`, `b`, `c` at time `now`. */
  predicate XyzDriven(s: XyzState, a: int, b: int, c: int, now: int)
  {
    && s.x.current == a && s.y.current == b && s.z.current == c
    && s.own.current == Abs(a) + Abs(b) + Abs(c)
    && s.own.timestamp == Num(now) && s.x.timestamp == Num(now)
    && s.y.timestamp == Num(now) && s.z.timestamp == Num(now)
  }

  /** Where `save_to_dict` puts the axis readings of a full block. */
  lemma SampleAxisReadings(id: Value, buff: seq<int>, now: int)
    requires |buff| >= 14
    ensures var rec := SaveToDict(id, buff, now);
      && Get(rec, "Accl_x") == Num(buff[0]) && Get(rec, "Accl_y") == Num(buff[1]) && Get(rec, "Accl_z") == Num(buff[2])
      && Get(rec, "Gyro_x") == Num(buff[3]) && Get(rec, "Gyro_y") == Num(buff[4]) && Get(rec, "Gyro_z") == Num(buff[5])
      && Get(rec, "Magn_x") == Num(buff[6]) && Get(rec, "Magn_y") == Num(buff[7]) && Get(rec, "Magn_z") == Num(buff[8])
  {
  }

  /** Where `save_to_dict` puts the scalar readings and the timestamp of a
      full block. */
  lemma SampleScalarReadings(id: Value, buff: seq<int>, now: int)
    requires |buff| >= 14
    ensures var rec := SaveToDict(id, buff, now);
      && Get(rec, "Temp") == Num(buff[9]) && Get(rec, "Humi") == Num(buff[10]) && Get(rec, "Pres") == Num(buff[11])
      && Get(rec, "Ligh") == Num(buff[12]) && Get(rec, "Nois") == Num(buff[13])
      && Get(rec, "timestamp") == Num(now)
  {
  }

  /** `is_integer_num(n)` on the values this model has: only integers. */
  function IsIntegerNum(v: Value): (r: bool)
    ensures r <==> v.Num?
  {
    match v
    case Num(_) => true
    case _ => false
  }

  /** The static `get_sensor_value(stream_data, sensor, default, absolute)`:
      the record's entry (or the default), 0 when that is not an integer,
      its magnitude when `absolute` is set. */
  function GetSensorValue(rec: Record, sensor: string, default: Value, absolute: bool): (r: int)
    ensures var v := if sensor in rec then rec[sensor] else default;
      && (!v.Num? ==> r == 0)
      && (v.Num? ==> r == if absolute then Abs(v.n) else v.n)
    ensures absolute ==> r >= 0
  {
    var tmp := if sensor in rec then rec[sensor] else default;
    var n := if IsIntegerNum(tmp) then tmp.n else 0;
    if absolute then Abs(n) else n
  }

  /** The composite an axis sensor computes from a record with integer axis
      readings agrees with the static getter's magnitudes. */
  lemma CompositeMatchesGetter(s: XyzState, rec: Record, now: int)
    requires s.Bounded()
    requires Get(rec, s.x.id).Num? && Get(rec, s.y.id).Num? && Get(rec, s.z.id).Num?
    ensures XyzUpdate(s, rec, now).1 == Some(Num(
      GetSensorValue(rec, s.x.id, Null, true) + GetSensorValue(rec, s.y.id, Null, true) + GetSensorValue(rec, s.z.id, Null, true)))
  {
    XyzFullSample(s, rec, now, Get(rec, s.x.id).n, Get(rec, s.y.id).n, Get(rec, s.z.id).n);
  }

  // ---------------------------------------------------------------------
  // Draining the record queue

  /** `process_stream_data(number, timeout)` on a queue of `n` records, from
      the point where `ix` records were applied and record `ix` was just
      taken off the queue: how many records end up applied and how many
      taken off. `clock(k)` is the clock at the `k`-th timeout check,
      `clock(0)` the start of the timer. */
  function DrainFrom(n: nat, number: int, timeout: Option<int>, clock: nat -> int, ix: nat): (r: (nat, nat))
    requires ix < n
    decreases n - ix
  {
    if !(ix < number) then (ix, ix + 1)
    else if timeout.Some? && clock(ix + 1) - clock(0) >= timeout.value then (ix + 1, ix + 1)
    else if ix + 1 == n then (n, n)
    else DrainFrom(n, number, timeout, clock, ix + 1)
  }

  /** The whole call: nothing happens on an empty queue. */
  function Drain(n: nat, number: int, timeout: Option<int>, clock: nat -> int): (nat, nat)
  {
    if n == 0 then (0, 0) else DrainFrom(n, number, timeout, clock, 0)
  }

  /** At most `number` records are applied, in queue order; at most one
      more is taken off without being applied. */
  lemma {:induction false} DrainFromBounds(n: nat, number: int, timeout: Option<int>, clock: nat -> int, ix: nat)
    requires ix < n && ix <= Max(number, 0)
    ensures var (applied, removed) := DrainFrom(n, number, timeout, clock, ix);
      ix <= applied <= removed <= applied + 1 && ix < removed <= n && applied <= Max(number, 0)
    decreases n - ix
  {
    if ix < number && !(timeout.Some? && clock(ix + 1) - clock(0) >= timeout.value) && ix + 1 < n {
      DrainFromBounds(n, number, timeout, clock, ix + 1);
    }
  }

  lemma DrainBounds(n: nat, number: int, timeout: Option<int>, clock: nat -> int)
    ensures var (applied, removed) := Drain(n, number, timeout, clock);
      applied <= removed <= applied + 1 && removed <= n && applied <= Max(number, 0)
      && (n > 0 <==> removed > 0)
  {
    if n > 0 {
      DrainFromBounds(n, number, timeout, clock, 0);
    }
  }

  lemma {:induction false} DrainFromCount(n: nat, number: int, clock: nat -> int, ix: nat)
    requires ix < n && ix <= Max(number, 0)
    ensures var (applied, removed) := DrainFrom(n, number, None, clock, ix);
      applied == Min(Max(number, 0), n) && removed == (if applied < n then applied + 1 else n)
    decreases n - ix
  {
    if ix < number && ix + 1 < n {
      DrainFromCount(n, number, clock, ix + 1);
    }
  }

  /** Without a timeout exactly `min(number, n)` records are applied (none
      for `number <= 0`); when the count stops the loop before the queue is
      empty, one more record has been taken off and is lost. */
  lemma DrainWithoutTimeout(n: nat, number: int, clock: nat -> int)
    ensures var (applied, removed) := Drain(n, number, None, clock);
      && applied == (if n == 0 then 0 else Min(Max(number, 0), n))
      && removed == (if n == 0 then 0 else if applied < n then applied + 1 else n)
  {
    if n > 0 {
      DrainFromCount(n, number, clock, 0);
    }
  }

  /** The loop of `process_stream_data` from the point where `ix` records
      were applied and `data` was just taken off the queue, leaving `q`:
      the queue and the state it ends with, `step` being how a record
      changes the state. */
  function ProcessFrom<S>(step: (S, Sample) -> S, q: seq<Sample>, data: Sample, s: S, number: int,
                          timeout: Option<int>, clock: nat -> int, ix: nat): (seq<Sample>, S)
    decreases |q|
  {
    if !(ix < number) then (q, s)
    else
      var s' := step(s, data);
      if timeout.Some? && clock(ix + 1) - clock(0) >= timeout.value then (q, s')
      else if q == [] then ([], s')
      else ProcessFrom(step, q[1..], q[0], s', number, timeout, clock, ix + 1)
  }

  /** The loop applies exactly the records `DrainFrom` counts as applied,
      in queue order, and leaves the queue without the ones it counts as
      removed. */
  lemma {:induction false} ProcessFromDrains<S>(step: (S, Sample) -> S, q0: seq<Sample>, s0: S, number: int,
                                                timeout: Option<int>, clock: nat -> int, ix: nat)
    requires ix < |q0| && ix <= Max(number, 0)
    ensures var (applied, removed) := DrainFrom(|q0|, number, timeout, clock, ix);
      && applied <= removed <= |q0|
      && ProcessFrom(step, q0[ix + 1..], q0[ix], Fold(step, s0, q0[..ix]), number, timeout, clock, ix)
           == (q0[removed..], Fold(step, s0, q0[..applied]))
    decreases |q0| - ix
  {
    DrainFromBounds(|q0|, number, timeout, clock, ix);
    if ix < number {
      assert q0[..ix + 1] == q0[..ix] + [q0[ix]];
      FoldSnoc(step, s0, q0[..ix], q0[ix]);
      if !(timeout.Some? && clock(ix + 1) - clock(0) >= timeout.value) {
        if ix + 1 == |q0| {
          assert q0[..ix + 1] == q0;
        } else {
          assert q0[ix + 1..][1..] == q0[ix + 2..];
          ProcessFromDrains(step, q0, s0, number, timeout, clock, ix + 1);
        }
      }
    }
  }

  /** The whole of `process_stream_data`: an empty queue ends the call,
      otherwise the oldest record is taken off and the loop runs. */
  function ProcessQueue<S>(step: (S, Sample) -> S, q: seq<Sample>, s: S, number: int,
                           timeout: Option<int>, clock: nat -> int): (seq<Sample>, S)
  {
    if q == [] then (q, s) else ProcessFrom(step, q[1..], q[0], s, number, timeout, clock, 0)
  }

  /** The call applies the first `applied` records of the queue in order and
      leaves it without its first `removed` ones, as `Drain` counts them. */
  lemma ProcessQueueDrains<S>(step: (S, Sample) -> S, q: seq<Sample>, s: S, number: int,
                              timeout: Option<int>, clock: nat -> int)
    ensures var (applied, removed) := Drain(|q|, number, timeout, clock);
      && applied <= removed <= |q|
      && ProcessQueue(step, q, s, number, timeout, clock) == (q[removed..], Fold(step, s, q[..applied]))
  {
    assert q[..0] == [];
    if q != [] {
      ProcessFromDrains(step, q, s, number, timeout, clock, 0);
    }
  }

  /** What `parse_payload` does with a payload: drop the length and the
      checksum bytes (either `pop` raises `IndexError` when the list is
      already empty) and walk the fields. */
  function PayloadParse(payload: seq<bv8>, table: TypeTable): (r: Parsed)
    ensures |payload| < 2 ==> r == Parsed([], Fail(IndexError))
  {
    if |payload| < 2 then Parsed([], Fail(IndexError))
    else DecodeMasks(payload[1..|payload| - 1], table)
  }

  /** A record every channel of which converts gives each sensor of a
      well-formed node a value it can take. */
  lemma ChannelsReachSensors(s: WfNodeState, rec: Sample)
    ensures AxesConvertible(s.accl, rec) && AxesConvertible(s.gyro, rec) && AxesConvertible(s.magn, rec)
    ensures Convertible(Get(rec, s.temp.id)) && Convertible(Get(rec, s.humi.id)) && Convertible(Get(rec, s.pres.id))
    ensures Convertible(Get(rec, s.ligh.id)) && Convertible(Get(rec, s.nois.id))
  {
  }

  /** What `get_sensor` hands out: an axis sensor or a scalar one. */
  datatype SensorView = XyzView(xyz: XyzState) | ScalarView(scalar: SensorState)

  /** The keys of `_sensors`. */
  const SensorNames: seq<string> := ["Accl", "Gyro", "Magn", "Temp", "Humi", "Pres", "Ligh", "Nois"]

  /** `get_sensor(short_name)`: the sensor of that name; `ValueError` for
      any other. The sensor handed out carries that name. */
  function GetSensor(s: NodeState, shortName: string): (r: Result<SensorView>)
    ensures r.Ok? <==> shortName in SensorNames
    ensures r.Err? ==> r.error == ValueError
    ensures s.WellFormed() && r.Ok? && r.value.XyzView? ==> r.value.xyz.own.id == shortName
    ensures s.WellFormed() && r.Ok? && r.value.ScalarView? ==> r.value.scalar.id == shortName
  {
    if shortName == "Accl" then Ok(XyzView(s.accl))
    else if shortName == "Gyro" then Ok(XyzView(s.gyro))
    else if shortName == "Magn" then Ok(XyzView(s.magn))
    else if shortName == "Temp" then Ok(ScalarView(s.temp))
    else if shortName == "Humi" then Ok(ScalarView(s.humi))
    else if shortName == "Pres" then Ok(ScalarView(s.pres))
    else if shortName == "Ligh" then Ok(ScalarView(s.ligh))
    else if shortName == "Nois" then Ok(ScalarView(s.nois))
    else Err(ValueError)
  }
}
