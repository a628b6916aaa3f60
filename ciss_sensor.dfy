/** Per-channel sensor state of `lib/cissUsbSensor.py`: `CissSensor` keeps the
    current value, its timestamp, a running min/max seeded at 0 and a bounded
    history window; `CissXyzSensor` owns three axis sensors and keeps the sum
    of their absolute values as its own channel. */
module CissSensors {
  import opened Values

  /** The running minimum over the accepted values, seeded with the initial
      `min` entry 0. */
  function RunningMin(vs: seq<int>): (m: int)
    ensures m <= 0
    decreases |vs|
  {
    if vs == [] then 0 else Min(RunningMin(vs[..|vs| - 1]), vs[|vs| - 1])
  }

  /** The running maximum over the accepted values, seeded with 0. */
  function RunningMax(vs: seq<int>): (m: int)
    ensures m >= 0
    decreases |vs|
  {
    if vs == [] then 0 else Max(RunningMax(vs[..|vs| - 1]), vs[|vs| - 1])
  }

  /** The running extremes bound every accepted value, and each is either
      the seed 0 or one of the accepted values. */
  lemma {:induction false} RunningExtremes(vs: seq<int>)
    ensures forall i :: 0 <= i < |vs| ==> RunningMin(vs) <= vs[i] <= RunningMax(vs)
    ensures RunningMin(vs) == 0 || RunningMin(vs) in vs
    ensures RunningMax(vs) == 0 || RunningMax(vs) in vs
    decreases |vs|
  {
    if vs != [] {
      var init := vs[..|vs| - 1];
      RunningExtremes(init);
      assert forall i :: 0 <= i < |init| ==> vs[i] == init[i];
      assert forall x :: x in init ==> x in vs;
    }
  }

  /** Accepting one more value folds it into both running extremes. */
  lemma RunningStep(vs: seq<int>, v: int)
    ensures RunningMin(vs + [v]) == Min(RunningMin(vs), v)
    ensures RunningMax(vs + [v]) == Max(RunningMax(vs), v)
  {
    assert (vs + [v])[..|vs|] == vs;
  }

  /** Everything a `CissSensor` holds: its base id, the window capacity
      (`max_data_size`), `value_timestamp`, `value` (the `current` entry),
      the `min`/`max`/`mean`/`std` entries of `_value`, and the window. */
  datatype SensorState = SensorState(
    id: string,
    capacity: nat,
    timestamp: Value,
    current: int,
    minValue: int,
    maxValue: int,
    mean: int,
    std: int,
    data: seq<int>)
  {
    predicate Bounded() { |data| <= capacity }
  }

  function NewSensorState(id: string, capacity: nat): SensorState
  {
    SensorState(id, capacity, Null, 0, 0, 0, 0, 0, [])
  }

  /** `update_value(value, timestamp)`: `None` and `""` change nothing; an
      integer becomes the current value, stamped with the given timestamp or
      the clock, folded into min/max and appended to the window. */
  function SensorUpdate(s: SensorState, value: Value, timestamp: Value, now: int): (r: SensorState)
    requires s.Bounded() && Convertible(value)
    ensures r.Bounded() && r.id == s.id && r.capacity == s.capacity
    ensures !value.Num? ==> r == s
    ensures value.Num? ==> r.current == value.n && r.minValue <= value.n <= r.maxValue
    ensures value.Num? ==> r.timestamp == (if timestamp == Null then Num(now) else timestamp)
    ensures value.Num? ==> r.minValue == Min(s.minValue, value.n) && r.maxValue == Max(s.maxValue, value.n)
    ensures value.Num? ==> r.data == BoundedAppend(s.data, value.n, s.capacity)
    ensures r.mean == s.mean && r.std == s.std
  {
    if !value.Num? then s
    else
      var v := value.n;
      s.(timestamp := if timestamp == Null then Num(now) else timestamp,
         current := v,
         minValue := Min(s.minValue, v),
         maxValue := Max(s.maxValue, v),
         data := BoundedAppend(s.data, v, s.capacity))
  }

  /** Feeding integer values one by one into a state. */
  function Replay(s: SensorState, vs: seq<int>, now: int): (r: SensorState)
    requires s.Bounded()
    ensures r.Bounded() && r.id == s.id && r.capacity == s.capacity
    decreases |vs|
  {
    if vs == [] then s
    else SensorUpdate(Replay(s, vs[..|vs| - 1], now), Num(vs[|vs| - 1]), Null, now)
  }

  /** From a fresh sensor, any history of accepted values leaves the window
      holding exactly the newest `capacity` of them, min and max the running
      extremes seeded at 0 (so `min <= 0 <= max`), and the last value
      current. */
  lemma {:induction false} ReplayFromNew(id: string, cap: nat, vs: seq<int>, now: int)
    ensures Replay(NewSensorState(id, cap), vs, now).data == Recent(vs, cap)
    ensures Replay(NewSensorState(id, cap), vs, now).minValue == RunningMin(vs)
    ensures Replay(NewSensorState(id, cap), vs, now).maxValue == RunningMax(vs)
    ensures Replay(NewSensorState(id, cap), vs, now).current == (if vs == [] then 0 else vs[|vs| - 1])
    decreases |vs|
  {
    if vs != [] {
      var init, v := vs[..|vs| - 1], vs[|vs| - 1];
      assert init + [v] == vs;
      ReplayFromNew(id, cap, init, now);
      var prev := Replay(NewSensorState(id, cap), init, now);
      assert Replay(NewSensorState(id, cap), vs, now) == SensorUpdate(prev, Num(v), Null, now);
      BoundedAppendRecent(init, v, cap);
      RunningStep(init, v);
    }
  }

  /** The keys of the `_value` table. */
  const StatKeys: seq<string> := ["timestamp", "current", "min", "max", "mean", "std"]

  /** The `_value` table of a sensor state. */
  function ValueTable(s: SensorState): (t: map<string, Value>)
    ensures t.Keys == set k | k in StatKeys
  {
    map["timestamp" := s.timestamp, "current" := Num(s.current), "min" := Num(s.minValue),
        "max" := Num(s.maxValue), "mean" := Num(s.mean), "std" := Num(s.std)]
  }

  /** What `get_value` returns: one entry of the table, or the whole table
      when no key is given. */
  datatype Reading = Entry(value: Value) | Table(entries: map<string, Value>)

  /** `get_value(what=None)`: the whole `_value` table without a key, one of
      its entries with one, `KeyError` for any other key. */
  function GetStateValue(s: SensorState, what: Option<string>): (r: Result<Reading>)
    ensures what.None? ==> r.Ok? && r.value.Table? && r.value.entries.Keys == set k | k in StatKeys
    ensures what.Some? ==> (r.Ok? <==> what.value in StatKeys)
    ensures r.Err? ==> r.error == KeyError
    ensures what.Some? && r.Ok? ==> r.value == Entry(ValueTable(s)[what.value])
    ensures what == Some("current") ==> r == Ok(Entry(Num(s.current)))
    ensures what == Some("min") ==> r == Ok(Entry(Num(s.minValue)))
    ensures what == Some("max") ==> r == Ok(Entry(Num(s.maxValue)))
    ensures what == Some("timestamp") ==> r == Ok(Entry(s.timestamp))
  {
    var t := ValueTable(s);
    if what.None? then Ok(Table(t))
    else if what.value in t then Ok(Entry(t[what.value]))
    else Err(KeyError)
  }

  /** Every key the table lists reads back, through `get_value(key)`, as the
      entry the whole table holds for it. */
  lemma TableAgreesWithEntries(s: SensorState, k: string)
    requires k in StatKeys
    ensures GetStateValue(s, None).Ok? && k in GetStateValue(s, None).value.entries
    ensures GetStateValue(s, Some(k)) == Ok(Entry(GetStateValue(s, None).value.entries[k]))
  {
  }

  class CissSensor {
    const baseId: string
    const maxDataSize: nat
    var valueTimestamp: Value
    var value: int
    var minValue: int
    var maxValue: int
    var mean: int
    var std: int
    var data: seq<int>

    function State(): SensorState
      reads this
    {
      SensorState(baseId, maxDataSize, valueTimestamp, value, minValue, maxValue, mean, std, data)
    }

    ghost predicate Valid()
      reads this
    {
      |data| <= maxDataSize
    }

    constructor (id: string, maxDataSize: nat)
      ensures Valid()
      ensures State() == NewSensorState(id, maxDataSize)
    {
      baseId := id;
      this.maxDataSize := maxDataSize;
      valueTimestamp := Null;
      value, minValue, maxValue, mean, std := 0, 0, 0, 0, 0;
      data := [];
    }

    /** `update_value`: returns the value it was given, or `None` when it
        skipped it. */
    method UpdateValue(v: Value, timestamp: Value, now: int) returns (r: Option<Value>)
      requires Valid() && Convertible(v)
      modifies this
      ensures Valid()
      ensures State() == SensorUpdate(old(State()), v, timestamp, now)
      ensures r == (if v.Num? then Some(v) else None)
    {
      if v == Null || v == Text("") {
        return None;
      }
      ghost var s0 := State();
      var ts := timestamp;
      if ts == Null {
        ts := Num(now);
      }
      var n := v.n;
      valueTimestamp := ts;
      value := n;
      minValue := Min(minValue, n);
      maxValue := Max(maxValue, n);
      data := BoundedAppend(data, n, maxDataSize);
      ghost var su := SensorUpdate(s0, v, timestamp, now);
      assert su.timestamp == valueTimestamp && su.current == value;
      assert su.minValue == minValue && su.maxValue == maxValue;
      assert su.data == data;
      assert su.id == baseId && su.capacity == maxDataSize && su.mean == mean && su.std == std;
      r := Some(v);
    }

    /** `update_value_ext`: the record's entry under this sensor's id, stamped
        with the record's timestamp. */
    method UpdateValueExt(rec: Record, now: int) returns (r: Option<Value>)
      requires Valid() && Convertible(Get(rec, baseId))
      modifies this
      ensures Valid()
      ensures State() == SensorUpdate(old(State()), Get(rec, baseId), Get(rec, "timestamp"), now)
      ensures r == (if Get(rec, baseId).Num? then Some(Get(rec, baseId)) else None)
    {
      var v := Get(rec, baseId);
      if v == Null {
        assert Valid() && |data| <= maxDataSize;
        return None;
      }
      r := UpdateValue(v, Get(rec, "timestamp"), now);
    }

    /** `get_value(what=None)` on this sensor's table. */
    function GetValue(what: Option<string>): (r: Result<Reading>)
      reads this
      ensures r == GetStateValue(State(), what)
    {
      GetStateValue(State(), what)
    }
  }

  // ---------------------------------------------------------------------
  // CissXyzSensor

  /** The composite channel and its three axis channels. */
  datatype XyzState = XyzState(own: SensorState, x: SensorState, y: SensorState, z: SensorState)
  {
    predicate Bounded() { own.Bounded() && x.Bounded() && y.Bounded() && z.Bounded() }
  }

  function NewXyzState(id: string, capacity: nat): XyzState
  {
    XyzState(NewSensorState(id, capacity), NewSensorState(id + "_x", capacity),
             NewSensorState(id + "_y", capacity), NewSensorState(id + "_z", capacity))
  }

  /** The axis values of a record can be handed to `int()`. */
  predicate AxesConvertible(s: XyzState, rec: Record)
  {
    Convertible(Get(rec, s.x.id)) && Convertible(Get(rec, s.y.id)) && Convertible(Get(rec, s.z.id))
  }

  /** `CissXyzSensor.update_value_ext`: nothing happens unless all three axis
      keys are present; then the axes are updated in turn with the record's
      timestamp (stopping at the first one that skips its value), and when all
      three accepted, the composite takes `|x| + |y| + |z|`. */
  function XyzUpdate(s: XyzState, rec: Record, now: int): (r: (XyzState, Option<Value>))
    requires s.Bounded() && AxesConvertible(s, rec)
    ensures r.0.Bounded()
    ensures r.0.own.id == s.own.id && r.0.x.id == s.x.id && r.0.y.id == s.y.id && r.0.z.id == s.z.id
    ensures r.0.own.capacity == s.own.capacity && r.0.x.capacity == s.x.capacity
    ensures r.0.y.capacity == s.y.capacity && r.0.z.capacity == s.z.capacity
  {
    var vx, vy, vz := Get(rec, s.x.id), Get(rec, s.y.id), Get(rec, s.z.id);
    if vx == Null || vy == Null || vz == Null then (s, None)
    else
      var ts := Get(rec, "timestamp");
      if !vx.Num? then (s, None)
      else
        var x := SensorUpdate(s.x, vx, ts, now);
        if !vy.Num? then (s.(x := x), None)
        else
          var y := SensorUpdate(s.y, vy, ts, now);
          if !vz.Num? then (s.(x := x, y := y), None)
          else
            var z := SensorUpdate(s.z, vz, ts, now);
            var sum := Abs(vx.n) + Abs(vy.n) + Abs(vz.n);
            (XyzState(SensorUpdate(s.own, Num(sum), ts, now), x, y, z), Some(Num(sum)))
  }

  /** A record missing any axis key leaves all four channels unchanged. */
  lemma XyzMissingAxis(s: XyzState, rec: Record, now: int)
    requires s.Bounded() && AxesConvertible(s, rec)
    requires s.x.id !in rec || s.y.id !in rec || s.z.id !in rec
    ensures XyzUpdate(s, rec, now) == (s, None)
  {
  }

  /** With three integer axis values, every axis takes its value and the
      composite becomes `|x| + |y| + |z|`; a record that carries a timestamp
      stamps all four channels with it. */
  lemma XyzFullSample(s: XyzState, rec: Record, now: int, a: int, b: int, c: int)
    requires s.Bounded()
    requires Get(rec, s.x.id) == Num(a) && Get(rec, s.y.id) == Num(b) && Get(rec, s.z.id) == Num(c)
    ensures XyzUpdate(s, rec, now).1 == Some(Num(Abs(a) + Abs(b) + Abs(c)))
    ensures XyzUpdate(s, rec, now).0.x.current == a
    ensures XyzUpdate(s, rec, now).0.y.current == b
    ensures XyzUpdate(s, rec, now).0.z.current == c
    ensures XyzUpdate(s, rec, now).0.own.current == Abs(a) + Abs(b) + Abs(c) >= 0
    ensures Get(rec, "timestamp") != Null ==> var r := XyzUpdate(s, rec, now).0;
      && r.own.timestamp == Get(rec, "timestamp") && r.x.timestamp == Get(rec, "timestamp")
      && r.y.timestamp == Get(rec, "timestamp") && r.z.timestamp == Get(rec, "timestamp")
  {
  }

  /** An empty-string axis value is present, so it passes the presence check,
      but `update_value` skips it: the axes before it are already updated and
      the rest, like the composite, are not. */
  lemma XyzEmptyAxisIsPartial(s: XyzState, rec: Record, now: int, a: int)
    requires s.Bounded()
    requires Get(rec, s.x.id) == Num(a) && Get(rec, s.y.id) == Text("") && Get(rec, s.z.id) != Null
    requires Convertible(Get(rec, s.z.id))
    ensures XyzUpdate(s, rec, now).1 == None
    ensures XyzUpdate(s, rec, now).0.x.current == a
    ensures XyzUpdate(s, rec, now).0.y == s.y && XyzUpdate(s, rec, now).0.z == s.z
    ensures XyzUpdate(s, rec, now).0.own == s.own
  {
  }

  class CissXyzSensor {
    /** The composite channel (what `CissSensor.__init__` sets up on
        `self`). */
    const own: CissSensor
    const x: CissSensor
    const y: CissSensor
    const z: CissSensor

    function Repr(): set<object>
    {
      {own, x, y, z}
    }

    ghost predicate Valid()
      reads Repr()
    {
      && own != x && own != y && own != z && x != y && x != z && y != z
      && own.Valid() && x.Valid() && y.Valid() && z.Valid()
      && x.baseId == own.baseId + "_x" && y.baseId == own.baseId + "_y" && z.baseId == own.baseId + "_z"
      && x.maxDataSize == own.maxDataSize && y.maxDataSize == own.maxDataSize && z.maxDataSize == own.maxDataSize
    }

    function State(): XyzState
      reads Repr()
    {
      XyzState(own.State(), x.State(), y.State(), z.State())
    }

    /** The axis sensors are named `<id>_x`, `<id>_y`, `<id>_z` and get the
        composite's window capacity. */
    constructor (id: string, maxDataSize: nat)
      ensures Valid() && fresh(Repr())
      ensures State() == NewXyzState(id, maxDataSize)
    {
      own := new CissSensor(id, maxDataSize);
      x := new CissSensor(id + "_x", maxDataSize);
      y := new CissSensor(id + "_y", maxDataSize);
      z := new CissSensor(id + "_z", maxDataSize);
    }

    method UpdateValueExt(rec: Record, now: int) returns (r: Option<Value>)
      requires Valid() && AxesConvertible(State(), rec)
      modifies Repr()
      ensures Valid()
      ensures (State(), r) == XyzUpdate(old(State()), rec, now)
    {
      assert own.State().Bounded() && x.State().Bounded() && y.State().Bounded() && z.State().Bounded();
      var vx := Get(rec, x.baseId);
      var vy := Get(rec, y.baseId);
      var vz := Get(rec, z.baseId);
      if vx == Null || vy == Null || vz == Null {
        return None;
      }
      var timestamp := Get(rec, "timestamp");
      var rx := x.UpdateValue(vx, timestamp, now);
      if rx == None {
        return None;
      }
      var ry := y.UpdateValue(vy, timestamp, now);
      if ry == None {
        return None;
      }
      var rz := z.UpdateValue(vz, timestamp, now);
      if rz == None {
        return None;
      }
      r := own.UpdateValue(Num(Abs(vx.n) + Abs(vy.n) + Abs(vz.n)), timestamp, now);
    }

    /** `get_sensor(type)`: the axis sensor for "x", "y" or "z",
        `ValueError` for anything else. */
    function GetSensor(axis: string): (r: Result<CissSensor>)
      reads Repr()
      requires Valid()
      ensures r.Ok? <==> axis == "x" || axis == "y" || axis == "z"
      ensures r.Err? ==> r.error == ValueError
      ensures r.Ok? ==> r.value in Repr() && r.value != own && r.value.baseId == own.baseId + "_" + axis
    {
      if axis == "x" then Ok(x)
      else if axis == "y" then Ok(y)
      else if axis == "z" then Ok(z)
      else Err(ValueError)
    }

    /** `get_value(what, type)`: the composite's entry, or an axis sensor's
        when `type` is given. */
    function GetValue(what: Option<string>, axis: Option<string>): (r: Result<Reading>)
      reads Repr()
      requires Valid()
      ensures axis.None? ==> r == GetStateValue(own.State(), what)
      ensures axis.Some? && GetSensor(axis.value).Err? ==> r == Err(ValueError)
      ensures axis == Some("x") ==> r == GetStateValue(x.State(), what)
      ensures axis == Some("y") ==> r == GetStateValue(y.State(), what)
      ensures axis == Some("z") ==> r == GetStateValue(z.State(), what)
    {
      if axis.None? then own.GetValue(what)
      else
        match GetSensor(axis.value)
        case Err(e) => Err(e)
        case Ok(s) => s.GetValue(what)
    }
  }
}
