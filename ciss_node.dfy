/** One CISS node of `lib/cissUsbSensor.py` (`AppCissNode`): its sensors, the
    bounded queue of sample records it collects, and the frame reader over
    its serial port. */
module CissNode {
  import opened Values
  import opened ChgrCodeBase
  import opened CissSensors
  import opened CissFrame
  import opened CissNodeState
  import opened CissPayload

  /** `out == sof` on the at most one byte `read()` returns. */
  predicate IsSof(out: seq<bv8>)
  {
    |out| == 1 && out[0] == Sof
  }

  /** One byte of the marker search, unfolded. */
  lemma SeekUnfold(input: seq<bv8>, pos: nat)
    requires pos < |input|
    ensures SeekMarker(input, pos) == if input[pos] == Sof then Some(pos + 1) else SeekMarker(input, pos + 1)
  {
  }

  /** One round of the frame search, unfolded. */
  lemma ScanUnfold(input: seq<bv8>, pos: nat)
    requires pos <= |input|
    ensures SeekMarker(input, pos).None? ==> ScanFrame(input, pos) == Exhausted
    ensures SeekMarker(input, pos) == Some(|input|) ==> ScanFrame(input, pos) == Exhausted
    ensures SeekMarker(input, pos).Some? && SeekMarker(input, pos).value < |input| ==>
      var p := SeekMarker(input, pos).value;
      ScanFrame(input, pos) ==
        if Accepts(FramePayload(input, p)) then Found(FramePayload(input, p), BodyEnd(input, p))
        else ScanFrame(input, BodyEnd(input, p))
  {
  }

  /** The outcome of one `read_ciss_sensor_stream` call: `True` after an
      accepted frame, `False` on a closed port, an exception out of the
      frame parser, or the end of the modelled input. */
  datatype ReadResult = FrameAccepted | PortClosed | ParseRaised(error: ErrorKind) | InputExhausted

  class AppCissNode {
    /** `ser`, the serial port the frames come from. */
    const ser: SerialPort
    /** `sensorid`, the node id `CISSNode` puts into every record. */
    const sensorId: Value
    /** `maxlen` of `_stream_data`. */
    const streamCap: nat
    /** `_sensors`: the states of the eight sensors. */
    var sensors: WfNodeState
    /** `_stream_data`, oldest record first. */
    var streamData: seq<Sample>

    ghost predicate Valid()
      reads this, ser
    {
      && ser.Valid()
      && |streamData| <= streamCap
    }

    /** A node with fresh sensors, an empty queue of capacity `streamCap`
        (100 unless configured), and a port that will deliver `input`. */
    constructor (sensorId: Value, streamCap: nat, input: seq<bv8>, portOpen: bool)
      ensures Valid() && fresh(ser)
      ensures sensors == NewNodeState() && streamData == []
      ensures this.sensorId == sensorId && this.streamCap == streamCap
      ensures ser.input == input && ser.pos == 0 && ser.isOpen == portOpen
    {
      sensors := NewNodeState();
      ser := new SerialPort(input, portOpen);
      this.sensorId := sensorId;
      this.streamCap := streamCap;
      streamData := [];
    }

    /** `update_sensor_values(stream_data)`: every sensor takes the record,
        each through its own `update_value_ext`. */
    method UpdateSensorValues(rec: Record, now: int) returns (r: bool)
      requires Valid() && ChannelsConvertible(rec)
      modifies this`sensors
      ensures Valid() && r
      ensures sensors == NodeStep(old(sensors), rec, now)
    {
      ChannelsReachSensors(sensors, rec);
      var s := sensors;
      var ts := Get(rec, "timestamp");
      s := s.(accl := XyzUpdate(s.accl, rec, now).0);
      s := s.(gyro := XyzUpdate(s.gyro, rec, now).0);
      s := s.(magn := XyzUpdate(s.magn, rec, now).0);
      s := s.(temp := SensorUpdate(s.temp, Get(rec, s.temp.id), ts, now));
      s := s.(humi := SensorUpdate(s.humi, Get(rec, s.humi.id), ts, now));
      s := s.(pres := SensorUpdate(s.pres, Get(rec, s.pres.id), ts, now));
      s := s.(ligh := SensorUpdate(s.ligh, Get(rec, s.ligh.id), ts, now));
      s := s.(nois := SensorUpdate(s.nois, Get(rec, s.nois.id), ts, now));
      sensors := s;
      r := true;
    }

    /** `process_stream_data(number, timeout)`: take the oldest record off
        the queue (an empty queue ends the call), then while fewer than
        `number` were applied: apply it, stop if the timer ran out, and
        take the next one (an empty queue ends the call). */
    method ProcessStreamData(number: int, timeout: Option<int>, clock: nat -> int, now: int) returns (r: bool)
      requires Valid()
      modifies this`sensors, this`streamData
      ensures Valid() && r
      ensures (streamData, sensors) == ProcessQueue(Stepper(now), old(streamData), old(sensors), number, timeout, clock)
    {
      ghost var whole := ProcessQueue(Stepper(now), streamData, sensors, number, timeout, clock);
      if streamData == [] {
        return true;
      }
      var data := streamData[0];
      streamData := streamData[1..];
      var timer := IdleTimer;
      if timeout.Some? {
        timer := TimerStart(IdleTimer, clock(0)).value;
      }
      var ix := 0;
      // `data is not None` always holds: records are dictionaries.
      while ix < number
        invariant Valid()
        invariant timeout.Some? ==> timer.startTime == Some(clock(0))
        invariant ProcessFrom(Stepper(now), streamData, data, sensors, number, timeout, clock, ix) == whole
        decreases number - ix
      {
        ix := ix + 1;
        var _ := UpdateSensorValues(data, now);
        if timeout.Some? {
          var c := TimerCheck(timer, timeout.value, clock(ix));
          timer := c.value.0;
          if c.value.1 {
            assert whole == (streamData, sensors);
            break;
          }
        }
        if streamData == [] {
          assert whole == (streamData, sensors);
          return true;
        }
        data := streamData[0];
        streamData := streamData[1..];
      }
      r := true;
    }

    /** The record of one non-empty reading block: queued, then applied to
        the sensors. */
    method SaveAndApply(mask: seq<int>, now: int)
      requires Valid()
      modifies this`sensors, this`streamData
      ensures Valid()
      ensures var rec := SaveToDict(sensorId, mask, now);
        && streamData == BoundedAppend(old(streamData), rec, streamCap)
        && sensors == NodeStep(old(sensors), rec, now)
    {
      SavedRecordConvertible(sensorId, mask, now);
      var rec := SaveToDict(sensorId, mask, now);
      streamData := BoundedAppend(streamData, rec, streamCap);
      var _ := UpdateSensorValues(rec, now);
    }

    /** `parse_payload(payload)`: each non-empty reading block becomes a
        record that is queued and applied to the sensors at once. The walk
        keeps the queue and the sensors in locals and stores them when it
        ends, normally or by raising: nothing observes the node in between. */
    method ParsePayload(payload: seq<bv8>, table: TypeTable, now: int) returns (o: Outcome)
      requires Valid()
      modifies this
      ensures Valid()
      ensures var p := PayloadParse(payload, table);
        var recs := Records(p.masks, sensorId, now);
        && o == p.outcome
        && streamData == AppendAll(old(streamData), recs, streamCap)
        && sensors == FoldNode(old(sensors), recs, now)
    {
      if |payload| < 2 {
        assert Records([], sensorId, now) == [];
        return Fail(IndexError);
      }
      var body := payload[1..];
      body := body[..|body| - 1];
      assert body == payload[1..|payload| - 1];
      WalkDecodes(body, table, sensorId, streamCap, now, streamData, sensors);
      ghost var whole := Walk(body, table, sensorId, streamCap, now, streamData, sensors);
      while |body| != 0
        invariant Valid()
        invariant Walk(body, table, sensorId, streamCap, now, streamData, sensors) == whole
        decreases |body|
      {
        var t := table.typeOf(body[0]);
        body := body[1..];
        if t >= 0 {
          if t >= |table.widths| {
            return Fail(IndexError);
          }
          var dl := Min(table.widths[t], |body|);
          var mask := table.parse(t, body[..dl]);
          if |mask| > 0 {
            SaveAndApply(mask, now);
          }
          body := body[dl..];
        } else {
          break;
        }
      }
      o := Pass;
    }

    /** The marker search of `read_ciss_sensor_stream`
        (`while not out == sof: out = self.ser.read()`): true with the
        cursor just after the next marker, false when the input ends first. */
    method SkipToSof() returns (found: bool)
      requires ser.Valid()
      modifies ser`pos
      ensures ser.Valid() && old(ser.pos) <= ser.pos
      ensures found <==> SeekMarker(ser.input, old(ser.pos)).Some?
      ensures found ==> SeekMarker(ser.input, old(ser.pos)) == Some(ser.pos)
    {
      ghost var start := ser.pos;
      var out: seq<bv8> := [];
      while !IsSof(out)
        invariant ser.Valid() && start <= ser.pos
        invariant IsSof(out) ==> SeekMarker(ser.input, start) == Some(ser.pos)
        invariant !IsSof(out) ==> SeekMarker(ser.input, ser.pos) == SeekMarker(ser.input, start)
        decreases |ser.input| - ser.pos, if out == [] then 1 else 0
      {
        ghost var here := ser.pos;
        out := ser.Read(1);
        if out == [] {
          return false;
        }
        SeekUnfold(ser.input, here);
      }
      found := true;
    }

    /** The frame read after a marker: the length byte `L`, then `L + 1`
        more bytes (fewer at the end of the input), as the payload list
        with the length in front; `None` when no length byte comes. */
    method ReadFrame() returns (payload: Option<seq<bv8>>)
      requires ser.Valid()
      modifies ser`pos
      ensures ser.Valid()
      ensures payload.None? <==> old(ser.pos) == |ser.input|
      ensures payload.None? ==> ser.pos == old(ser.pos)
      ensures payload.Some? ==>
        payload.value == FramePayload(ser.input, old(ser.pos)) && ser.pos == BodyEnd(ser.input, old(ser.pos))
    {
      var length := ser.Read(1);
      if length == [] {
        return None;
      }
      var l := length[0];
      var buffer := ser.Read(l as int + 1);
      var data := ConvData(buffer);
      payload := Some([l] + data);
    }

    /** `read_ciss_sensor_stream()`: on an open port, skip to a marker,
        read the length byte and `L + 1` more bytes; a payload that passes
        `check_payload` is parsed and ends the call, any other is dropped
        and the search goes on after it. The source polls the port without
        end when no data comes; here the input ends and the call says so. */
    method ReadCissSensorStream(table: TypeTable, now: int) returns (r: ReadResult)
      requires Valid()
      modifies this, ser`pos
      ensures Valid() && ser.isOpen == old(ser.isOpen)
      ensures !old(ser.isOpen) ==>
        r == PortClosed && ser.pos == old(ser.pos) && sensors == old(sensors) && streamData == old(streamData)
      ensures old(ser.isOpen) && ScanFrame(ser.input, old(ser.pos)).Exhausted? ==>
        r == InputExhausted && sensors == old(sensors) && streamData == old(streamData)
      ensures old(ser.isOpen) && ScanFrame(ser.input, old(ser.pos)).Found? ==>
        var f := ScanFrame(ser.input, old(ser.pos));
        var p := PayloadParse(f.payload, table);
        var recs := Records(p.masks, sensorId, now);
        && ser.pos == f.next
        && r == (if p.outcome.Pass? then FrameAccepted else ParseRaised(p.outcome.error))
        && streamData == AppendAll(old(streamData), recs, streamCap)
        && sensors == FoldNode(old(sensors), recs, now)
    {
      ghost var scan := ScanFrame(ser.input, ser.pos);
      while true
        invariant Valid() && ser.isOpen == old(ser.isOpen)
        invariant !old(ser.isOpen) ==> ser.pos == old(ser.pos)
        invariant ScanFrame(ser.input, ser.pos) == scan
        invariant sensors == old(sensors) && streamData == old(streamData)
        decreases |ser.input| - ser.pos
      {
        if !ser.isOpen {
          return PortClosed;
        }
        ghost var start := ser.pos;
        ScanUnfold(ser.input, start);
        var found := SkipToSof();
        if !found {
          return InputExhausted;
        }
        var frame := ReadFrame();
        if frame.None? {
          // `continue` with the marker still in `out`: the length byte is
          // asked for again and again, but the input has ended.
          return InputExhausted;
        }
        var payload := frame.value;
        var ok := CheckPayload(payload);
        if ok == Ok(1) {
          var o := ParsePayload(payload, table, now);
          return if o.Pass? then FrameAccepted else ParseRaised(o.error);
        }
      }
    }
  }
}
