/** Shared vocabulary of the model: optional values, the exceptions the source
    raises, the dynamically typed scalars its dictionaries hold, and the
    bounded `deque(maxlen=...)` it keeps histories and record queues in. */
module Values {

  datatype Option<+T> = None | Some(value: T)

  /** The exception classes the modelled code raises. */
  datatype ErrorKind =
    | AppTimerError
    | AppBaseError(msg: string)
    | ValueError
    | KeyError
    | IndexError
    | TypeError

  datatype Result<+T> = Ok(value: T) | Err(error: ErrorKind)

  /** Outcome of an operation that returns nothing useful or raises. */
  datatype Outcome = Pass | Fail(error: ErrorKind)

  /** A scalar as the configuration and sample dictionaries hold it:
      Python `None`, an integer, or a string. */
  datatype Value = Null | Num(n: int) | Text(s: string)

  /** A sample record: channel key to value, plus `id` and `timestamp`. */
  type Record = map<string, Value>

  /** `d.get(key, None)` */
  function Get(d: Record, key: string): Value
  {
    if key in d then d[key] else Null
  }

  /** The values `int(v)` converts without raising, and the two the
      sensors skip (`None` and `""`). */
  predicate Convertible(v: Value)
  {
    !v.Text? || v.s == ""
  }

  function Min(a: int, b: int): int { if a <= b then a else b }
  function Max(a: int, b: int): int { if a <= b then b else a }
  function Abs(a: int): int { if a < 0 then -a else a }

  /** `d.append(v)` on a `deque(maxlen=cap)` that holds `d`: the value
      goes to the right end and, when the deque is full, the leftmost
      (oldest) value is evicted. */
  function BoundedAppend<T>(d: seq<T>, v: T, cap: nat): (r: seq<T>)
    requires |d| <= cap
    ensures |r| == Min(|d| + 1, cap)
    ensures cap > 0 ==> r[|r| - 1] == v
  {
    var w := d + [v];
    if |w| > cap then w[|w| - cap..] else w
  }

  /** The last `cap` elements of `vs`, oldest first: what a
      `deque(maxlen=cap)` holds after `vs` was appended to it in order. */
  function Recent<T>(vs: seq<T>, cap: nat): (r: seq<T>)
    ensures |r| == Min(|vs|, cap)
  {
    if |vs| <= cap then vs else vs[|vs| - cap..]
  }

  /** Appending one value to the recent window of a history gives the
      recent window of the extended history. */
  lemma {:induction false} BoundedAppendRecent<T>(vs: seq<T>, v: T, cap: nat)
    ensures |Recent(vs, cap)| <= cap
    ensures BoundedAppend(Recent(vs, cap), v, cap) == Recent(vs + [v], cap)
  {
    if |vs| >= cap {
      var k := |vs| - cap;
      var w := vs[k..];
      assert Recent(vs, cap) == w;
      if cap > 0 {
        calc {
          BoundedAppend(w, v, cap);
          (w + [v])[1..];
          { assert (w + [v])[1..] == vs[k + 1..] + [v]; }
          vs[k + 1..] + [v];
          { assert (vs + [v])[k + 1..] == vs[k + 1..] + [v]; }
          Recent(vs + [v], cap);
        }
      }
    }
  }

  /** The recent window never exceeds its capacity and is a suffix of the
      history: exactly its newest `Min(|vs|, cap)` elements. */
  lemma RecentIsNewest<T>(vs: seq<T>, cap: nat)
    ensures |Recent(vs, cap)| == Min(|vs|, cap)
    ensures forall i :: 0 <= i < |Recent(vs, cap)| ==>
      Recent(vs, cap)[i] == vs[|vs| - |Recent(vs, cap)| + i]
  {
  }

  lemma AppendAssoc<T>(a: seq<T>, b: seq<T>, c: seq<T>)
    ensures a + b + c == a + (b + c)
  {
  }

  /** Applying `step` to the elements of `xs` in order. */
  function Fold<S, T>(step: (S, T) -> S, s: S, xs: seq<T>): S
    decreases |xs|
  {
    if xs == [] then s else step(Fold(step, s, xs[..|xs| - 1]), xs[|xs| - 1])
  }

  lemma FoldSnoc<S, T>(step: (S, T) -> S, s: S, xs: seq<T>, x: T)
    ensures Fold(step, s, xs + [x]) == step(Fold(step, s, xs), x)
  {
    assert (xs + [x])[..|xs|] == xs;
  }

  /** Folding from the front: the first element is applied first. */
  lemma {:induction false} FoldCons<S, T>(step: (S, T) -> S, s: S, x: T, xs: seq<T>)
    ensures Fold(step, s, [x] + xs) == Fold(step, step(s, x), xs)
    decreases |xs|
  {
    var all := [x] + xs;
    if xs == [] {
      assert all[..0] == [] && all[0] == x;
    } else {
      var init, last := xs[..|xs| - 1], xs[|xs| - 1];
      assert all[..|all| - 1] == [x] + init && all[|all| - 1] == last;
      calc {
        Fold(step, s, all);
        step(Fold(step, s, [x] + init), last);
        { FoldCons(step, s, x, init); }
        step(Fold(step, step(s, x), init), last);
        Fold(step, step(s, x), xs);
      }
    }
  }
}
