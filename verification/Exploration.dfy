/** The search space of `checkSingle` (src/porcupine/checker.go:174-248), without
    pointers: which operation may be linearized next, what a memoised
    configuration promises, and why pruning and backtracking lose nothing. */
module Exploration {
  import opened Collections
  import opened Linearizability

  /** Operation x may be linearized next when exactly those in `done` already
      are: its call stands before every outstanding return. */
  ghost predicate Enabled<V>(h: seq<Entry<V>>, done: set<nat>, x: nat) {
    && x < Ops(h)
    && x !in done
    && forall y: nat :: y < Ops(h) && y !in done ==> CallAt(h, x) < ReturnAt(h, y)
  }

  ghost function After<S, V>(m: Model<S, V>, h: seq<Entry<V>>, s: S, x: nat): S
    requires WellFormed(h) && x < Ops(h)
  {
    m.step(s, Input(h, x), Output(h, x)).1
  }

  ghost predicate StepOk<S, V>(m: Model<S, V>, h: seq<Entry<V>>, s: S, x: nat)
    requires WellFormed(h) && x < Ops(h)
  {
    m.step(s, Input(h, x), Output(h, x)).0
  }

  /** q continues the configuration (done, s) by legal moves. */
  ghost predicate Extends<S, V>(m: Model<S, V>, h: seq<Entry<V>>, done: set<nat>, s: S, q: seq<nat>)
    requires WellFormed(h)
    decreases |q|
  {
    q == [] ||
    (Enabled(h, done, q[0]) && StepOk(m, h, s, q[0]) &&
     Extends(m, h, done + {q[0]}, After(m, h, s, q[0]), q[1..]))
  }

  ghost function StateAfter<S, V>(m: Model<S, V>, h: seq<Entry<V>>, s: S, q: seq<nat>): S
    requires WellFormed(h)
    requires forall i :: 0 <= i < |q| ==> q[i] < Ops(h)
    decreases |q|
  {
    if q == [] then s else After(m, h, StateAfter(m, h, s, q[..|q| - 1]), q[|q| - 1])
  }

  // ---- moves and partial linearizations -----------------------------------

  ghost predicate DoneClosed<V>(h: seq<Entry<V>>, done: set<nat>, q: seq<nat>) {
    forall i, y: nat :: 0 <= i < |q| && y < Ops(h) && Precedes(h, y, q[i]) ==> y in done || y in q
  }

  /** Legal continuations, declaratively. */
  lemma {:induction false} ExtendsMeaning<S, V>(m: Model<S, V>, h: seq<Entry<V>>, done: set<nat>, s: S, q: seq<nat>)
    requires WellFormed(h)
    ensures Extends(m, h, done, s, q) <==>
              ValidIds(h, q) && Elements(q) !! done && RespectsRealTime(h, q) &&
              DoneClosed(h, done, q) && Accepts(m, h, s, q)
    decreases |q|
  {
    if q != [] {
      var x, r := q[0], q[1..];
      ElementsCons(q);
      if x < Ops(h) {
        var t := After(m, h, s, x);
        ExtendsMeaning(m, h, done + {x}, t, r);
        if Extends(m, h, done, s, q) {
          MovesToOrder(h, done, q);
        }
        if ValidIds(h, q) && Elements(q) !! done && RespectsRealTime(h, q) &&
           DoneClosed(h, done, q) && Accepts(m, h, s, q) {
          OrderToMoves(h, done, q);
        }
      }
    }
  }

  lemma {:induction false} MovesToOrder<V>(h: seq<Entry<V>>, done: set<nat>, q: seq<nat>)
    requires WellFormed(h)
    requires q != [] && Enabled(h, done, q[0])
    requires ValidIds(h, q[1..]) && Elements(q[1..]) !! done + {q[0]}
    requires RespectsRealTime(h, q[1..]) && DoneClosed(h, done + {q[0]}, q[1..])
    ensures ValidIds(h, q) && Elements(q) !! done
    ensures RespectsRealTime(h, q) && DoneClosed(h, done, q)
  {
    hide WellFormed, CallAt, ReturnAt;
    var x, r := q[0], q[1..];
    assert forall i :: 0 < i < |q| ==> q[i] == r[i - 1];
    forall i | 0 < i < |q|
      ensures q[i] != x && q[i] !in done && !Precedes(h, q[i], x) && q[i] < Ops(h)
    {
      assert r[i - 1] in Elements(r);
    }
    forall i, y: nat | 0 <= i < |q| && y < Ops(h) && Precedes(h, y, q[i])
      ensures y in done || y in q
    {
      if i > 0 {
        assert Precedes(h, y, r[i - 1]);
        if y in r {
          var k :| 0 <= k < |r| && r[k] == y;
          assert q[k + 1] == y;
        }
      }
    }
  }

  lemma {:induction false} OrderToMoves<V>(h: seq<Entry<V>>, done: set<nat>, q: seq<nat>)
    requires WellFormed(h)
    requires q != [] && ValidIds(h, q) && Elements(q) !! done
    requires RespectsRealTime(h, q) && DoneClosed(h, done, q)
    ensures Enabled(h, done, q[0])
    ensures ValidIds(h, q[1..]) && Elements(q[1..]) !! done + {q[0]}
    ensures RespectsRealTime(h, q[1..]) && DoneClosed(h, done + {q[0]}, q[1..])
  {
    var x, r := q[0], q[1..];
    assert x in Elements(q);
    forall y: nat | y < Ops(h) && y !in done
      ensures CallAt(h, x) < ReturnAt(h, y)
    {
      if y in q {
        var k :| 0 <= k < |q| && q[k] == y;
        if k == 0 {
          assert OpOk(h, x);
        } else {
          assert !Precedes(h, q[k], q[0]);
          DistinctPositions(h, x, y);
        }
      } else {
        assert !Precedes(h, y, q[0]);
        DistinctPositions(h, x, y);
      }
    }
    forall i | 0 <= i < |r|
      ensures r[i] !in done + {x}
    {
      assert r[i] == q[i + 1] && q[i + 1] in Elements(q);
    }
    forall i, y: nat | 0 <= i < |r| && y < Ops(h) && Precedes(h, y, r[i])
      ensures y in done + {x} || y in r
    {
      assert Precedes(h, y, q[i + 1]);
      if y in q && y != x {
        var k :| 0 <= k < |q| && q[k] == y;
        assert r[k - 1] == y;
      }
    }
  }

  /** A call and a return never share a position. */
  lemma {:induction false} DistinctPositions<V>(h: seq<Entry<V>>, x: nat, y: nat)
    requires WellFormed(h) && x < Ops(h) && y < Ops(h)
    ensures CallAt(h, x) != ReturnAt(h, y)
  {
    assert OpOk(h, x) && OpOk(h, y);
  }

  /** Partial linearizations are the move sequences from the start. */
  lemma {:induction false} PartialIsExtension<S, V>(m: Model<S, V>, h: seq<Entry<V>>, p: seq<nat>)
    requires WellFormed(h)
    ensures PartialLinearization(m, h, p) <==> Extends(m, h, {}, m.init, p)
  {
    ExtendsMeaning(m, h, {}, m.init, p);
    if ValidIds(h, p) {
      assert DownClosed(h, p) <==> DoneClosed(h, {}, p);
    }
  }

  lemma {:induction false} ExtendsSnoc<S, V>(m: Model<S, V>, h: seq<Entry<V>>, done: set<nat>, s: S, q: seq<nat>, x: nat)
    requires WellFormed(h)
    requires Extends(m, h, done, s, q)
    requires forall i :: 0 <= i < |q| ==> q[i] < Ops(h)
    requires Enabled(h, done + Elements(q), x) && StepOk(m, h, StateAfter(m, h, s, q), x)
    ensures Extends(m, h, done, s, q + [x])
    decreases |q|
  {
    if q == [] {
      assert done + Elements(q) == done;
      ExtendsCons(m, h, done, s, x, []);
      assert q + [x] == [x] + [];
    } else {
      var y, r := q[0], q[1..];
      var t := After(m, h, s, y);
      ElementsCons(q);
      StateAfterCons(m, h, s, q);
      assert done + Elements(q) == (done + {y}) + Elements(r);
      ExtendsSnoc(m, h, done + {y}, t, r, x);
      ExtendsCons(m, h, done, s, y, r + [x]);
      ConsSnoc(q, x);
    }
  }

  lemma {:induction false} ConsSnoc(q: seq<nat>, x: nat)
    requires q != []
    ensures q + [x] == [q[0]] + (q[1..] + [x])
  {
  }

  lemma {:induction false} ExtendsCons<S, V>(m: Model<S, V>, h: seq<Entry<V>>, done: set<nat>, s: S, y: nat, r: seq<nat>)
    requires WellFormed(h)
    requires Enabled(h, done, y) && StepOk(m, h, s, y)
    requires Extends(m, h, done + {y}, After(m, h, s, y), r)
    ensures Extends(m, h, done, s, [y] + r)
  {
    assert ([y] + r)[1..] == r;
  }

  lemma {:induction false} ElementsSnoc(q: seq<nat>, x: nat)
    ensures Elements(q + [x]) == Elements(q) + {x}
  {
  }

  lemma {:induction false} ElementsCons(q: seq<nat>)
    requires q != []
    ensures Elements(q) == {q[0]} + Elements(q[1..])
  {
    assert q == [q[0]] + q[1..];
  }

  lemma {:induction false} StateAfterCons<S, V>(m: Model<S, V>, h: seq<Entry<V>>, s: S, q: seq<nat>)
    requires WellFormed(h)
    requires q != [] && forall i :: 0 <= i < |q| ==> q[i] < Ops(h)
    ensures StateAfter(m, h, s, q) == StateAfter(m, h, After(m, h, s, q[0]), q[1..])
    decreases |q|
  {
    hide WellFormed, StateAfter, After;
    StateAfterSnoc(m, h, s, q);
    if |q| > 1 {
      var front, tail := q[..|q| - 1], q[1..];
      StateAfterCons(m, h, s, front);
      assert front[1..] == tail[..|tail| - 1];
      StateAfterSnoc(m, h, After(m, h, s, q[0]), tail);
    } else {
      StateAfterNone(m, h, s);
      StateAfterNone(m, h, After(m, h, s, q[0]));
      assert q[..0] == [] && q[1..] == [];
    }
  }

  lemma {:induction false} StateAfterNone<S, V>(m: Model<S, V>, h: seq<Entry<V>>, s: S)
    requires WellFormed(h)
    ensures StateAfter(m, h, s, []) == s
  {
  }

  lemma {:induction false} StateAfterSnoc<S, V>(m: Model<S, V>, h: seq<Entry<V>>, s: S, q: seq<nat>)
    requires WellFormed(h)
    requires q != [] && forall i :: 0 <= i < |q| ==> q[i] < Ops(h)
    ensures StateAfter(m, h, s, q) == After(m, h, StateAfter(m, h, s, q[..|q| - 1]), q[|q| - 1])
  {
  }

  lemma {:induction false} ExtendsPrefix<S, V>(m: Model<S, V>, h: seq<Entry<V>>, done: set<nat>, s: S, q: seq<nat>, k: nat)
    requires WellFormed(h)
    requires Extends(m, h, done, s, q) && k <= |q|
    ensures Extends(m, h, done, s, q[..k])
    decreases |q|
  {
    if k > 0 {
      ExtendsPrefix(m, h, done + {q[0]}, After(m, h, s, q[0]), q[1..], k - 1);
      assert q[..k][1..] == q[1..][..k - 1];
    }
  }

  // ---- exhausted configurations -------------------------------------------

  /** How long a recorded partial linearization is; absent ones count as 0. */
  function Length(o: Option<seq<nat>>): nat {
    if o.Some? then |o.value| else 0
  }

  /** No continuation of (done, s) is complete, and for each operation of each
      continuation a partial linearization at least as long is on record. */
  ghost predicate Exhausted<S, V>(m: Model<S, V>, h: seq<Entry<V>>, partial: bool,
                                  longest: seq<Option<seq<nat>>>, done: set<nat>, s: S)
    requires WellFormed(h) && |longest| == Ops(h)
  {
    forall q: seq<nat> :: Extends(m, h, done, s, q) ==> Covered(h, partial, longest, done, q)
  }

  ghost predicate Covered<V>(h: seq<Entry<V>>, partial: bool, longest: seq<Option<seq<nat>>>,
                             done: set<nat>, q: seq<nat>)
    requires |longest| == Ops(h)
  {
    && |done| + |q| < Ops(h)
    && (partial ==> Recorded(longest, done, |done| + |q|) && Recorded(longest, Elements(q), |done| + |q|))
  }

  ghost predicate Recorded(longest: seq<Option<seq<nat>>>, ids: set<nat>, len: nat) {
    forall id :: id in ids && id < |longest| ==> Length(longest[id]) >= len
  }

  /** Records only get longer, and then nothing exhausted becomes open again. */
  ghost predicate NoShorter(before: seq<Option<seq<nat>>>, later: seq<Option<seq<nat>>>) {
    |before| == |later| && forall id :: 0 <= id < |before| ==> Length(before[id]) <= Length(later[id])
  }

  lemma {:induction false} ExhaustedMonotone<S, V>(m: Model<S, V>, h: seq<Entry<V>>, partial: bool,
                                before: seq<Option<seq<nat>>>, later: seq<Option<seq<nat>>>, done: set<nat>, s: S)
    requires WellFormed(h) && |before| == Ops(h) && NoShorter(before, later)
    requires Exhausted(m, h, partial, before, done, s)
    ensures Exhausted(m, h, partial, later, done, s)
  {
    forall q: seq<nat> | Extends(m, h, done, s, q)
      ensures Covered(h, partial, later, done, q)
    {
      assert Covered(h, partial, before, done, q);
    }
  }

  /** Replacing a state by one that is Equal keeps all continuations, so a
      memoised configuration answers for every Equal one. */
  lemma {:induction false} EqualKeepsExtensions<S(!new), V(!new)>(m: Model<S, V>, h: seq<Entry<V>>, done: set<nat>, s: S, t: S, q: seq<nat>)
    requires WellFormed(h) && EqualSimulates(m)
    requires m.equal(s, t)
    requires Extends(m, h, done, s, q)
    ensures Extends(m, h, done, t, q)
    decreases |q|
  {
    if q != [] {
      EqualKeepsExtensions(m, h, done + {q[0]}, After(m, h, s, q[0]), After(m, h, t, q[0]), q[1..]);
    }
  }

  lemma {:induction false} EqualKeepsExhausted<S(!new), V(!new)>(m: Model<S, V>, h: seq<Entry<V>>, partial: bool,
                                  longest: seq<Option<seq<nat>>>, done: set<nat>, s: S, t: S)
    requires WellFormed(h) && |longest| == Ops(h) && EqualSimulates(m)
    requires m.equal(s, t) && Exhausted(m, h, partial, longest, done, t)
    ensures Exhausted(m, h, partial, longest, done, s)
  {
    forall q: seq<nat> | Extends(m, h, done, s, q)
      ensures Covered(h, partial, longest, done, q)
    {
      EqualKeepsExtensions(m, h, done, s, t, q);
    }
  }

  /** Operation x offers nothing new at configuration (done, s). */
  ghost predicate Tried<S, V>(m: Model<S, V>, h: seq<Entry<V>>, partial: bool,
                              longest: seq<Option<seq<nat>>>, done: set<nat>, s: S, x: nat)
    requires WellFormed(h) && |longest| == Ops(h) && x < Ops(h)
  {
    x !in done && StepOk(m, h, s, x) ==>
      Exhausted(m, h, partial, longest, done + {x}, After(m, h, s, x))
  }

  /** When an outstanding return is reached and every outstanding call before it
      has been tried, the configuration is exhausted: this is what justifies
      backtracking at checker.go:209-236. */
  lemma {:induction false} ReturnExhausts<S, V>(m: Model<S, V>, h: seq<Entry<V>>, partial: bool,
                             longest: seq<Option<seq<nat>>>, done: set<nat>, s: S, y: nat)
    requires WellFormed(h) && |longest| == Ops(h)
    requires y < Ops(h) && y !in done && done <= Below(Ops(h))
    requires forall x: nat :: x < Ops(h) && CallAt(h, x) < ReturnAt(h, y) ==> Tried(m, h, partial, longest, done, s, x)
    requires partial ==> Recorded(longest, done, |done|)
    ensures Exhausted(m, h, partial, longest, done, s)
  {
    forall q: seq<nat> | Extends(m, h, done, s, q)
      ensures Covered(h, partial, longest, done, q)
    {
      if q == [] {
        BelowSize(Ops(h));
        SubsetSize(done, Below(Ops(h)));
        assert y in Below(Ops(h));
      } else {
        assert Tried(m, h, partial, longest, done, s, q[0]);
        assert Covered(h, partial, longest, done + {q[0]}, q[1..]);
        CoveredCons(h, partial, longest, done, q);
      }
    }
  }

  lemma {:induction false} CoveredCons<V>(h: seq<Entry<V>>, partial: bool, longest: seq<Option<seq<nat>>>,
                       done: set<nat>, q: seq<nat>)
    requires |longest| == Ops(h)
    requires q != [] && q[0] !in done
    requires Covered(h, partial, longest, done + {q[0]}, q[1..])
    ensures Covered(h, partial, longest, done, q)
  {
    assert |done + {q[0]}| == |done| + 1;
    ElementsCons(q);
  }

  /** An exhausted start means: not linearizable, and every record is maximal. */
  lemma {:induction false} ExhaustedStart<S, V>(m: Model<S, V>, h: seq<Entry<V>>, partial: bool, longest: seq<Option<seq<nat>>>)
    requires WellFormed(h) && |longest| == Ops(h)
    requires Exhausted(m, h, partial, longest, {}, m.init)
    ensures !Linearizable(m, h)
    ensures partial ==> forall p: seq<nat>, id :: PartialLinearization(m, h, p) && id in p ==> id < |longest| && Length(longest[id]) >= |p|
  {
    forall p: seq<nat> | PartialLinearization(m, h, p)
      ensures |p| < Ops(h)
      ensures partial ==> forall id :: id in p ==> id < |longest| && Length(longest[id]) >= |p|
    {
      PartialIsExtension(m, h, p);
      assert Covered(h, partial, longest, {}, p);
      forall id | partial && id in p
        ensures id < |longest| && Length(longest[id]) >= |p|
      {
        assert id in Elements(p);
      }
    }
    forall p
      ensures !IsLinearization(m, h, p)
    {
      CompleteIsLinearization(m, h, p);
    }
  }

  // ---- termination --------------------------------------------------------

  function Pow(b: nat, e: nat): (p: nat)
    requires b > 0
    ensures p > 0
  {
    if e == 0 then 1 else b * Pow(b, e - 1)
  }

  /** What is left to explore: a number that drops at every turn of the search.
      `at` lists one more than the scan position of every level of the stack. */
  function Rank(b: nat, width: nat, at: seq<nat>): (r: nat)
    requires |at| <= width && b > 0
    requires forall i :: 0 <= i < |at| ==> at[i] < b
    ensures r > 0
    decreases |at|
  {
    if at == [] then Pow(b, width)
    else
      MulLe(0, b - 1 - at[0], Pow(b, width - 1));
      (b - 1 - at[0]) * Pow(b, width - 1) + Rank(b, width - 1, at[1..])
  }

  ghost predicate Digits(b: nat, width: nat, at: seq<nat>) {
    0 < |at| <= width && b > 0 && forall i :: 0 <= i < |at| ==> 0 < at[i] < b
  }

  lemma {:induction false} RankBound(b: nat, width: nat, at: seq<nat>)
    requires Digits(b, width, at)
    ensures Rank(b, width, at) <= (b - at[0]) * Pow(b, width - 1)
    decreases |at|
  {
    if |at| > 1 {
      RankBound(b, width - 1, at[1..]);
      MulLe(b - at[1], b, Pow(b, width - 2));
    }
    assert (b - 1 - at[0]) * Pow(b, width - 1) + Pow(b, width - 1) == (b - at[0]) * Pow(b, width - 1);
  }

  lemma {:induction false} MulLe(x: nat, y: nat, k: nat)
    requires x <= y
    ensures x * k <= y * k
  {
  }

  /** The last scan moves on. */
  lemma {:induction false} RankAdvances(b: nat, width: nat, before: seq<nat>, later: seq<nat>)
    requires Digits(b, width, before) && Digits(b, width, later)
    requires |later| <= |before|
    requires forall i :: 0 <= i < |later| - 1 ==> before[i] == later[i]
    requires before[|later| - 1] < later[|later| - 1]
    ensures Rank(b, width, later) < Rank(b, width, before)
    decreases |before|
  {
    if |later| == 1 {
      RankBound(b, width, later);
      MulLe(b - later[0], b - 1 - before[0], Pow(b, width - 1));
    } else {
      RankAdvances(b, width - 1, before[1..], later[1..]);
    }
  }

  /** A scan starts one level deeper. */
  lemma {:induction false} RankDeepens(b: nat, width: nat, at: seq<nat>, x: nat)
    requires Digits(b, width, at) && |at| < width && 0 < x < b
    ensures Rank(b, width, at + [x]) < Rank(b, width, at)
    decreases |at|
  {
    var w := at + [x];
    assert w[1..] == at[1..] + [x];
    if |at| == 1 {
      assert at[1..] == [] && w[1..] == [x];
      RankBound(b, width - 1, [x]);
      MulLt(b - x, b, Pow(b, width - 2));
    } else {
      RankDeepens(b, width - 1, at[1..], x);
    }
  }

  lemma {:induction false} MulLt(x: nat, y: nat, k: nat)
    requires x < y && k > 0
    ensures x * k < y * k
  {
  }
}
