/** The byte-level protocol of the CISS USB stream as `AppCissNode` in
    `lib/cissUsbSensor.py` reads it: a `0xFE` start marker, a length byte `L`,
    then `L + 1` bytes whose last one is the XOR of the length byte and the
    `L` bytes before it. Inside an accepted frame, fields follow one another
    as a type tag plus a fixed-width block; a block of sensor readings becomes
    one sample record. */
module CissFrame {
  import opened Values

  // ---------------------------------------------------------------------
  // XOR checksum

  /** The running XOR of `check_payload`, taken left to right from 0. */
  function XorFold(s: seq<bv8>): bv8
    decreases |s|
  {
    if s == [] then 0 else XorFold(s[..|s| - 1]) ^ s[|s| - 1]
  }

  /** The fold distributes over concatenation. */
  lemma {:induction false} XorFoldAppend(a: seq<bv8>, b: seq<bv8>)
    ensures XorFold(a + b) == XorFold(a) ^ XorFold(b)
    decreases |b|
  {
    if b == [] {
      assert a + b == a;
    } else {
      var b' := b[..|b| - 1];
      assert (a + b)[..|a + b| - 1] == a + b';
      XorFoldAppend(a, b');
    }
  }

  /** The fold around one byte in the middle. */
  lemma XorFoldSplit(pre: seq<bv8>, x: bv8, post: seq<bv8>)
    ensures XorFold(pre + [x] + post) == XorFold(pre) ^ x ^ XorFold(post)
  {
    XorFoldAppend(pre + [x], post);
    assert (pre + [x])[..|pre|] == pre;
  }

  /** Replacing one byte changes the fold by exactly the XOR of the old and
      the new byte. */
  lemma XorFoldUpdate(s: seq<bv8>, i: nat, v: bv8)
    requires i < |s|
    ensures XorFold(s[i := v]) == XorFold(s) ^ s[i] ^ v
  {
    var pre, post := s[..i], s[i + 1..];
    assert s == pre + [s[i]] + post;
    assert s[i := v] == pre + [v] + post;
    XorFoldSplit(pre, s[i], post);
    XorFoldSplit(pre, v, post);
  }

  /** What `check_payload` returns 1 for: the XOR of every byte but the last
      equals the last. */
  predicate Accepts(payload: seq<bv8>)
    requires |payload| > 0
  {
    XorFold(payload[..|payload| - 1]) == payload[|payload| - 1]
  }

  /** `check_payload`: 1 for an accepted payload, 0 otherwise; an empty list
      raises `IndexError` when its last element is read. */
  method CheckPayload(payload: seq<bv8>) returns (r: Result<int>)
    ensures |payload| == 0 <==> r == Err(IndexError)
    ensures |payload| > 0 ==> r == Ok(if Accepts(payload) then 1 else 0)
  {
    var eval: bv8 := 0;
    var ind := 0;
    while ind < |payload| - 1
      invariant 0 <= ind <= Max(|payload| - 1, 0)
      invariant eval == XorFold(payload[..ind])
    {
      assert payload[..ind + 1][..ind] == payload[..ind];
      eval := eval ^ payload[ind];
      ind := ind + 1;
    }
    if |payload| == 0 {
      return Err(IndexError);
    }
    r := Ok(if eval == payload[|payload| - 1] then 1 else 0);
  }

  /** The checksum detects every single-byte corruption: changing any one
      byte of an accepted payload, the checksum byte or the length byte
      included, makes it rejected. */
  lemma SingleByteCorruptionDetected(payload: seq<bv8>, i: nat, v: bv8)
    requires |payload| > 0 && Accepts(payload)
    requires i < |payload| && v != payload[i]
    ensures !Accepts(payload[i := v])
  {
    var n := |payload| - 1;
    var p' := payload[i := v];
    if i == n {
      assert p'[..n] == payload[..n];
    } else {
      assert p'[..n] == payload[..n][i := v];
      XorFoldUpdate(payload[..n], i, v);
    }
  }

  // ---------------------------------------------------------------------
  // Bytes read from the port

  /** `conv_data`: the `ord` of every character of the string read, in
      order; on the byte values this model reads, the identity. */
  method ConvData(data: seq<bv8>) returns (a: seq<bv8>)
    ensures a == data
  {
    a := [];
    var ind := 0;
    while ind < |data|
      invariant 0 <= ind <= |data|
      invariant a == data[..ind]
    {
      assert data[..ind + 1] == data[..ind] + [data[ind]];
      a := a + [data[ind]];
      ind := ind + 1;
    }
    assert data[..|data|] == data;
  }

  // ---------------------------------------------------------------------
  // Frame synchronisation

  /** The start-of-frame marker `sof`. */
  const Sof: bv8 := 0xFE

  /** The marker search (`while not out == sof: out = self.ser.read()`):
      the position just after the first marker at or after `pos`, or `None`
      when the input ends first. */
  function SeekMarker(input: seq<bv8>, pos: nat): (r: Option<nat>)
    requires pos <= |input|
    ensures r.Some? ==> pos < r.value <= |input| && input[r.value - 1] == Sof
    ensures r.Some? ==> forall j :: pos <= j < r.value - 1 ==> input[j] != Sof
    ensures r.None? ==> forall j :: pos <= j < |input| ==> input[j] != Sof
    decreases |input| - pos
  {
    if pos == |input| then None
    else if input[pos] == Sof then Some(pos + 1)
    else SeekMarker(input, pos + 1)
  }

  /** What one call of `read_ciss_sensor_stream` consumes from an open
      port: the payload (the length byte followed by the body read after
      it) of the first accepted frame and the position after it, or
      `Exhausted` when the input ends first. */
  datatype Scan = Found(payload: seq<bv8>, next: nat) | Exhausted

  /** Where the body of the frame whose length byte is at `p` ends: `L + 1`
      bytes are asked for, fewer are returned at the end of the input. */
  function BodyEnd(input: seq<bv8>, p: nat): (e: nat)
    requires p < |input|
    ensures p < e <= |input|
  {
    Min(p + 1 + (input[p] as int + 1), |input|)
  }

  /** The payload `check_payload` is handed: the length byte inserted in
      front of the body. */
  function FramePayload(input: seq<bv8>, p: nat): (payload: seq<bv8>)
    requires p < |input|
    ensures |payload| == BodyEnd(input, p) - p && payload[0] == input[p]
  {
    [input[p]] + input[p + 1..BodyEnd(input, p)]
  }

  /** Frame synchronisation: find a marker, take the length byte and the
      body; an accepted frame ends the search, a rejected one is dropped and
      the search resumes right after its body, without looking back into
      it. */
  function ScanFrame(input: seq<bv8>, pos: nat): (r: Scan)
    requires pos <= |input|
    ensures r.Found? ==> pos < r.next <= |input| && |r.payload| > 0 && Accepts(r.payload)
    ensures r.Found? ==> r.payload[0] as int + 2 >= |r.payload|
    decreases |input| - pos
  {
    match SeekMarker(input, pos)
    case None => Exhausted
    case Some(p) =>
      if p == |input| then Exhausted
      else if Accepts(FramePayload(input, p)) then Found(FramePayload(input, p), BodyEnd(input, p))
      else ScanFrame(input, BodyEnd(input, p))
  }

  /** A sender's frame: marker, length, the data bytes and their checksum
      (which covers the length byte). */
  function Frame(len: bv8, data: seq<bv8>): (f: seq<bv8>)
    requires |data| == len as int
    ensures |f| == |data| + 3 && f[0] == Sof
  {
    [Sof, len] + data + [XorFold([len] + data)]
  }

  /** Marker search passes over bytes that are not a marker. */
  lemma {:induction false} SeekSkipsJunk(junk: seq<bv8>, tail: seq<bv8>, pos: nat)
    requires pos <= |junk|
    requires forall j :: 0 <= j < |junk| ==> junk[j] != Sof
    requires |tail| > 0 && tail[0] == Sof
    ensures SeekMarker(junk + tail, pos) == Some(|junk| + 1)
    decreases |junk| - pos
  {
    if pos < |junk| {
      SeekSkipsJunk(junk, tail, pos + 1);
    }
  }

  /** Where a frame sits in the input it was sent in. */
  lemma FrameLayout(junk: seq<bv8>, len: bv8, data: seq<bv8>, rest: seq<bv8>)
    requires |data| == len as int
    requires forall j :: 0 <= j < |junk| ==> junk[j] != Sof
    ensures var input := junk + Frame(len, data) + rest;
      && SeekMarker(input, 0) == Some(|junk| + 1)
      && |junk| + 1 < |input|
      && BodyEnd(input, |junk| + 1) == |junk| + |data| + 3
      && FramePayload(input, |junk| + 1) == [len] + data + [XorFold([len] + data)]
  {
    var c := XorFold([len] + data);
    var input := junk + Frame(len, data) + rest;
    Layout(junk, Sof, len, data, c, rest);
    SeekSkipsJunk(junk, Frame(len, data) + rest, 0);
    var p := |junk| + 1;
    assert BodyEnd(input, p) == p + 1 + |data| + 1;
    AppendAssoc([len], data, [c]);
  }

  lemma SnocParts<T>(a: seq<T>, x: T)
    ensures (a + [x])[..|a|] == a && (a + [x])[|a|] == x && |a + [x]| == |a| + 1
  {
  }

  /** The parts of an input holding a frame, indexed and sliced back out. */
  lemma Layout<T>(junk: seq<T>, m: T, l: T, data: seq<T>, c: T, rest: seq<T>)
    ensures var f := [m, l] + data + [c];
      var input := junk + f + rest;
      && input == junk + (f + rest) && (f + rest)[0] == m
      && |input| == |junk| + |data| + 3 + |rest|
      && input[|junk| + 1] == l
      && input[|junk| + 2..|junk| + 3 + |data|] == data + [c]
  {
    var f := [m, l] + data + [c];
    var input := junk + f + rest;
    assert input[|junk| + 2..|junk| + 3 + |data|] == f[2..];
  }

  /** Any data block (at most 255 bytes, as its length must fit the length
      byte), framed and preceded by bytes that are not a marker, is found
      whatever follows it: the payload is its length byte, the data and the
      checksum, and reading stops right after the checksum. */
  lemma FrameIsFound(junk: seq<bv8>, len: bv8, data: seq<bv8>, rest: seq<bv8>)
    requires |data| == len as int
    requires forall j :: 0 <= j < |junk| ==> junk[j] != Sof
    ensures var input := junk + Frame(len, data) + rest;
      ScanFrame(input, 0) == Found([len] + data + [XorFold([len] + data)], |junk| + |data| + 3)
  {
    var input := junk + Frame(len, data) + rest;
    var p := |junk| + 1;
    FrameLayout(junk, len, data, rest);
    var head, c := [len] + data, XorFold([len] + data);
    var payload := FramePayload(input, p);
    assert payload == head + [c];
    SnocParts(head, c);
    assert Accepts(payload);
    assert ScanFrame(input, 0) == Found(payload, BodyEnd(input, p));
  }

  /** The search never backtracks into a rejected frame: in the input
      below, the bytes after the first length byte form a valid frame of
      their own, yet a scan from the start swallows them as the body of the
      rejected first frame and finds nothing. */
  lemma RejectedBodyIsSkipped()
    ensures ScanFrame([0xFE, 0x02, 0xFE, 0x00, 0x00], 0) == Exhausted
    ensures ScanFrame([0xFE, 0x02, 0xFE, 0x00, 0x00], 2) == Found([0, 0], 5)
  {
    var input: seq<bv8> := [0xFE, 0x02, 0xFE, 0x00, 0x00];
    assert SeekMarker(input, 0) == Some(1);
    assert BodyEnd(input, 1) == 5;
    assert input[2..5] == [0xFE, 0x00, 0x00];
    var p := FramePayload(input, 1);
    assert p == [2, 0xFE, 0, 0];
    assert p[..3] == [2, 0xFE, 0];
    var p3: seq<bv8> := [2, 0xFE, 0];
    assert XorFold(p3) == 0xFC by {
      var p2: seq<bv8> := [2, 0xFE];
      var p1: seq<bv8> := [2];
      assert p3[..2] == p2 && p2[..1] == p1 && p1[..0] == [];
    }
    assert SeekMarker(input, 5) == None;
    assert SeekMarker(input, 2) == Some(3);
    assert BodyEnd(input, 3) == 5;
    assert input[4..5][0] == input[4] == 0x00;
    assert input[4..5] == [0x00];
    var q := FramePayload(input, 3);
    assert q == [0, 0];
    assert q[..1] == [0];
    var z: seq<bv8> := [0];
    assert XorFold(z) == 0 by { assert z[..0] == []; }
  }

  // ---------------------------------------------------------------------
  // Payload fields

  /** What `CISSNode` supplies and this model does not see: `get_type` from
      a tag byte to an index into `sensorlist` (negative for an unknown tag),
      each entry's `data_length`, and its `parse` of a field block into
      readings. */
  datatype TypeTable = TypeTable(typeOf: bv8 -> int, widths: seq<nat>, parse: (nat, seq<bv8>) -> seq<int>)

  /** The non-empty reading blocks a body yields, in order, and whether the
      walk ended normally or raised. */
  datatype Parsed = Parsed(masks: seq<seq<int>>, outcome: Outcome)

  /** The walk of `parse_payload` over the body (the payload without its
      length and checksum bytes): take a tag; stop at an unknown one; else
      parse the next `data_length` bytes (fewer at the end), keep a
      non-empty result, and go on after the block. An index past
      `sensorlist` raises `IndexError`. */
  function DecodeMasks(body: seq<bv8>, table: TypeTable): (r: Parsed)
    ensures r.outcome.Pass? || r.outcome == Fail(IndexError)
    ensures forall i :: 0 <= i < |r.masks| ==> |r.masks[i]| > 0
    ensures |r.masks| <= |body|
    decreases |body|
  {
    if body == [] then Parsed([], Pass)
    else
      var t := table.typeOf(body[0]);
      var rest := body[1..];
      if t < 0 then Parsed([], Pass)
      else if t >= |table.widths| then Parsed([], Fail(IndexError))
      else
        var n := Min(table.widths[t], |rest|);
        var mask := table.parse(t, rest[..n]);
        var tail := DecodeMasks(rest[n..], table);
        Parsed((if |mask| > 0 then [mask] else []) + tail.masks, tail.outcome)
  }

  /** A sender's body: each field as its tag followed by its block. */
  function EncodeFields(fs: seq<(bv8, seq<bv8>)>): seq<bv8>
    decreases |fs|
  {
    if fs == [] then [] else [fs[0].0] + fs[0].1 + EncodeFields(fs[1..])
  }

  /** Every field has a known tag, a block of exactly its type's width, and
      parses to at least one reading. */
  predicate Conforms(fs: seq<(bv8, seq<bv8>)>, table: TypeTable)
  {
    forall i :: 0 <= i < |fs| ==>
      var t := table.typeOf(fs[i].0);
      0 <= t < |table.widths| && table.widths[t] == |fs[i].1| && |table.parse(t, fs[i].1)| > 0
  }

  function MasksOf(fs: seq<(bv8, seq<bv8>)>, table: TypeTable): seq<seq<int>>
    requires Conforms(fs, table)
    decreases |fs|
  {
    if fs == [] then [] else [table.parse(table.typeOf(fs[0].0), fs[0].1)] + MasksOf(fs[1..], table)
  }

  /** A conforming field at the front of a body contributes its readings
      and the walk goes on right after its block. */
  lemma DecodeField(tag: bv8, block: seq<bv8>, rest: seq<bv8>, table: TypeTable)
    requires var t := table.typeOf(tag); 0 <= t < |table.widths| && table.widths[t] == |block| && |table.parse(t, block)| > 0
    ensures DecodeMasks([tag] + (block + rest), table) ==
      var tail := DecodeMasks(rest, table);
      Parsed([table.parse(table.typeOf(tag), block)] + tail.masks, tail.outcome)
  {
    var body := [tag] + (block + rest);
    assert body[0] == tag && body[1..] == block + rest;
    assert (block + rest)[..|block|] == block && (block + rest)[|block|..] == rest;
  }

  lemma ConformsSplit(fs: seq<(bv8, seq<bv8>)>, table: TypeTable)
    requires fs != [] && Conforms(fs, table)
    ensures var t := table.typeOf(fs[0].0);
      0 <= t < |table.widths| && table.widths[t] == |fs[0].1| && |table.parse(t, fs[0].1)| > 0
    ensures Conforms(fs[1..], table)
  {
    forall i | 0 <= i < |fs[1..]|
      ensures var t := table.typeOf(fs[1..][i].0);
        0 <= t < |table.widths| && table.widths[t] == |fs[1..][i].1| && |table.parse(t, fs[1..][i].1)| > 0
    {
      assert fs[1..][i] == fs[i + 1];
    }
  }

  /** Decoding inverts encoding: a body of conforming fields yields one
      reading block per field, in order, and no error. */
  lemma {:induction false} DecodeEncode(fs: seq<(bv8, seq<bv8>)>, table: TypeTable)
    requires Conforms(fs, table)
    ensures DecodeMasks(EncodeFields(fs), table) == Parsed(MasksOf(fs, table), Pass)
    decreases |fs|
  {
    if fs != [] {
      ConformsSplit(fs, table);
      var tail := EncodeFields(fs[1..]);
      calc {
        EncodeFields(fs);
        [fs[0].0] + fs[0].1 + tail;
        { assert [fs[0].0] + fs[0].1 + tail == [fs[0].0] + (fs[0].1 + tail); }
        [fs[0].0] + (fs[0].1 + tail);
      }
      DecodeField(fs[0].0, fs[0].1, tail, table);
      DecodeEncode(fs[1..], table);
    }
  }

  /** An unknown tag ends the walk: whatever follows it is ignored. */
  lemma {:induction false} DecodeStopsAtUnknownTag(fs: seq<(bv8, seq<bv8>)>, tag: bv8, junk: seq<bv8>, table: TypeTable)
    requires Conforms(fs, table) && table.typeOf(tag) < 0
    ensures DecodeMasks(EncodeFields(fs) + [tag] + junk, table) == Parsed(MasksOf(fs, table), Pass)
    decreases |fs|
  {
    if fs == [] {
      assert EncodeFields(fs) + [tag] + junk == [tag] + junk;
    } else {
      ConformsSplit(fs, table);
      var tail := EncodeFields(fs[1..]) + [tag] + junk;
      calc {
        EncodeFields(fs) + [tag] + junk;
        [fs[0].0] + fs[0].1 + EncodeFields(fs[1..]) + [tag] + junk;
        { assert [fs[0].0] + fs[0].1 + EncodeFields(fs[1..]) + [tag] + junk == [fs[0].0] + (fs[0].1 + tail); }
        [fs[0].0] + (fs[0].1 + tail);
      }
      DecodeField(fs[0].0, fs[0].1, tail, table);
      DecodeStopsAtUnknownTag(fs[1..], tag, junk, table);
    }
  }

  // ---------------------------------------------------------------------
  // Sample records

  /** `save_to_dict(id, buff, tstamp)`: an empty record for fewer than 14
      readings; otherwise the node id, the timestamp and the first 14
      readings under the channel names, in block order. */
  function SaveToDict(id: Value, buff: seq<int>, tstamp: int): (r: Record)
    ensures |buff| < 14 ==> r == map[]
    ensures |buff| >= 14 ==> "id" in r && r["id"] == id && "timestamp" in r && r["timestamp"] == Num(tstamp)
    ensures forall k :: k in r && k != "id" ==> r[k].Num?
  {
    if |buff| < 14 then map[]
    else
      map["id" := id, "timestamp" := Num(tstamp),
          "Accl_x" := Num(buff[0]), "Accl_y" := Num(buff[1]), "Accl_z" := Num(buff[2]),
          "Gyro_x" := Num(buff[3]), "Gyro_y" := Num(buff[4]), "Gyro_z" := Num(buff[5]),
          "Magn_x" := Num(buff[6]), "Magn_y" := Num(buff[7]), "Magn_z" := Num(buff[8]),
          "Temp" := Num(buff[9]), "Humi" := Num(buff[10]), "Pres" := Num(buff[11]),
          "Ligh" := Num(buff[12]), "Nois" := Num(buff[13])]
  }

  // ---------------------------------------------------------------------
  // The serial port

  /** The port as the reader sees it: the bytes that will arrive, a read
      cursor, and whether it is open. */
  class SerialPort {
    const input: seq<bv8>
    var pos: nat
    var isOpen: bool

    ghost predicate Valid()
      reads this
    {
      pos <= |input|
    }

    constructor (input: seq<bv8>, isOpen: bool)
      ensures Valid() && this.input == input && pos == 0 && this.isOpen == isOpen
    {
      this.input := input;
      pos := 0;
      this.isOpen := isOpen;
    }

    /** `read(n)`: up to `n` bytes, fewer when the input ends. */
    method Read(n: nat) returns (bytes: seq<bv8>)
      requires Valid()
      modifies this`pos
      ensures Valid()
      ensures pos == Min(old(pos) + n, |input|)
      ensures bytes == input[old(pos)..pos]
    {
      var e := Min(pos + n, |input|);
      bytes := input[pos..e];
      pos := e;
    }
  }
}
