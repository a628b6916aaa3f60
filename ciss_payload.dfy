/** The field walk of `parse_payload` in `lib/cissUsbSensor.py`, over a
    node's record queue and sensors. */
module CissPayload {
  import opened Values
  import opened CissFrame
  import opened CissNodeState

  /** The walk of `parse_payload` over a body together with its effects:
      the outcome, and the queue `q` (capacity `cap`) and sensors `s` after
      the record of every non-empty block was queued and applied as soon as
      it was parsed. */
  function Walk(body: seq<bv8>, table: TypeTable, id: Value, cap: nat, now: int, q: seq<Sample>, s: WfNodeState)
    : (r: (Outcome, seq<Sample>, WfNodeState))
    requires |q| <= cap
    ensures |r.1| <= cap
    decreases |body|
  {
    if body == [] then (Pass, q, s)
    else
      var t := table.typeOf(body[0]);
      var rest := body[1..];
      if t < 0 then (Pass, q, s)
      else if t >= |table.widths| then (Fail(IndexError), q, s)
      else
        var n := Min(table.widths[t], |rest|);
        var mask := table.parse(t, rest[..n]);
        if |mask| > 0 then
          SavedRecordConvertible(id, mask, now);
          var rec: Sample := SaveToDict(id, mask, now);
          Walk(rest[n..], table, id, cap, now, BoundedAppend(q, rec, cap), NodeStep(s, rec, now))
        else Walk(rest[n..], table, id, cap, now, q, s)
  }

  lemma {:induction false} RecordsCons(m: seq<int>, ms: seq<seq<int>>, id: Value, now: int)
    ensures Records([m] + ms, id, now) == Records([m], id, now) + Records(ms, id, now)
    decreases |ms|
  {
    if ms != [] {
      var init := ms[..|ms| - 1];
      RecordsCons(m, init, id, now);
      assert ([m] + ms)[..|ms|] == [m] + init;
    } else {
      assert [m] + ms == [m];
    }
  }

  lemma {:induction false} AppendAllCons(q: seq<Sample>, r: Sample, rs: seq<Sample>, cap: nat)
    requires |q| <= cap
    ensures AppendAll(q, [r] + rs, cap) == AppendAll(BoundedAppend(q, r, cap), rs, cap)
    decreases |rs|
  {
    var all := [r] + rs;
    if rs == [] {
      assert all[..0] == [] && all[0] == r;
    } else {
      var init, last := rs[..|rs| - 1], rs[|rs| - 1];
      assert all[..|all| - 1] == [r] + init && all[|all| - 1] == last;
      calc {
        AppendAll(q, all, cap);
        BoundedAppend(AppendAll(q, [r] + init, cap), last, cap);
        { AppendAllCons(q, r, init, cap); }
        BoundedAppend(AppendAll(BoundedAppend(q, r, cap), init, cap), last, cap);
        AppendAll(BoundedAppend(q, r, cap), rs, cap);
      }
    }
  }

  /** Queueing and applying each record as its block is parsed ends where
      parsing all blocks first and then queueing and applying their records
      in order ends: the walk's effects are exactly the records of
      `DecodeMasks`. */
  lemma {:induction false} WalkDecodes(body: seq<bv8>, table: TypeTable, id: Value, cap: nat, now: int, q: seq<Sample>, s: WfNodeState)
    requires |q| <= cap
    ensures var p := DecodeMasks(body, table);
      var recs := Records(p.masks, id, now);
      Walk(body, table, id, cap, now, q, s) == (p.outcome, AppendAll(q, recs, cap), FoldNode(s, recs, now))
    decreases |body|
  {
    if body != [] {
      var t := table.typeOf(body[0]);
      var rest := body[1..];
      if 0 <= t < |table.widths| {
        var n := Min(table.widths[t], |rest|);
        var mask := table.parse(t, rest[..n]);
        var tail := DecodeMasks(rest[n..], table);
        var trecs := Records(tail.masks, id, now);
        if |mask| > 0 {
          SavedRecordConvertible(id, mask, now);
          var rec: Sample := SaveToDict(id, mask, now);
          WalkDecodes(rest[n..], table, id, cap, now, BoundedAppend(q, rec, cap), NodeStep(s, rec, now));
          RecordsCons(mask, tail.masks, id, now);
          assert Records([mask], id, now) == [rec] by {
            assert [mask][..0] == [];
          }
          AppendAllCons(q, rec, trecs, cap);
          FoldCons(Stepper(now), s, rec, trecs);
        } else {
          WalkDecodes(rest[n..], table, id, cap, now, q, s);
          assert DecodeMasks(body, table).masks == tail.masks;
        }
      }
    }
  }
}
