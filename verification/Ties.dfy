/** Calls and returns at the same time.  src/porcupine/checker.go:53 sorts entries by time
    with a sort that is not stable, so a return may come to stand before a call of the same
    time.  Which histories that can turn from accepted into refused is decided here. */
module Ties {
  import opened Collections
  import opened Linearizability
  import opened Histories

  // ---- orders that no tie can spoil ------------------------------------------------

  /** Nothing stands before an operation that returned before its call or at its call. */
  ghost predicate StrictOrder<V>(order: seq<Operation<V>>) {
    forall i, j :: 0 <= i < j < |order| ==> order[i].call < order[j].ret
  }

  ghost predicate StrictlyLinearizes<S, V>(m: Model<S, V>, ops: seq<Operation<V>>, order: seq<Operation<V>>) {
    multiset(order) == multiset(ops) && StrictOrder(order) && Legal(m, m.init, order)
  }

  ghost predicate StrictlyLinearizable<S, V(!new)>(m: Model<S, V>, ops: seq<Operation<V>>) {
    exists order :: StrictlyLinearizes(m, ops, order)
  }

  lemma {:induction false} StrictIsStronger<S, V(!new)>(m: Model<S, V>, ops: seq<Operation<V>>)
    ensures StrictlyLinearizable(m, ops) ==> LinearizableOps(m, ops)
    ensures NoTies(ops) ==> (StrictlyLinearizable(m, ops) <==> LinearizableOps(m, ops))
  {
    if StrictlyLinearizable(m, ops) {
      var order: seq<Operation<V>> :| StrictlyLinearizes(m, ops, order);
      assert Linearizes(m, ops, order);
    }
    if LinearizableOps(m, ops) && NoTies(ops) {
      var order: seq<Operation<V>> :| Linearizes(m, ops, order);
      forall i, j | 0 <= i < j < |order|
        ensures order[i].call < order[j].ret
      {
        assert order[i] in multiset(ops) && order[j] in multiset(ops);
      }
      assert StrictlyLinearizes(m, ops, order);
    }
  }

  // ---- tightened operations ----------------------------------------------------------

  /** The operation with its return half a tick earlier, in half ticks. */
  function Tight<V>(op: Operation<V>): Operation<V> {
    op.(call := 2 * op.call, ret := 2 * op.ret - 1)
  }

  function Tightened<V>(ops: seq<Operation<V>>): (r: seq<Operation<V>>)
    ensures |r| == |ops| && forall i :: 0 <= i < |ops| ==> r[i] == Tight(ops[i])
  {
    seq(|ops|, i requires 0 <= i < |ops| => Tight(ops[i]))
  }

  lemma {:induction false} TightLegal<S, V>(m: Model<S, V>, s: S, order: seq<Operation<V>>)
    ensures Legal(m, s, Tightened(order)) <==> Legal(m, s, order)
    decreases |order|
  {
    if order != [] {
      assert Tightened(order)[1..] == Tightened(order[1..]);
      TightLegal(m, m.step(s, order[0].input, order[0].output).1, order[1..]);
    }
  }

  lemma {:induction false} TightOrder<V>(order: seq<Operation<V>>)
    ensures RealTimeOrder(Tightened(order)) <==> StrictOrder(order)
  {
    var tight := Tightened(order);
    if RealTimeOrder(tight) {
      forall i, j | 0 <= i < j < |order|
        ensures order[i].call < order[j].ret
      {
        assert tight[i].call <= tight[j].ret;
      }
    }
    if StrictOrder(order) {
      forall i, j | 0 <= i < j < |order|
        ensures tight[i].call <= tight[j].ret
      {
        assert order[i].call < order[j].ret;
      }
    }
  }

  /** Strict linearizability is plain linearizability of the tightened operations. */
  lemma {:induction false} TightLinearizable<S, V(!new)>(m: Model<S, V>, ops: seq<Operation<V>>)
    ensures LinearizableOps(m, Tightened(ops)) <==> StrictlyLinearizable(m, ops)
  {
    var tight := Tightened(ops);
    if StrictlyLinearizable(m, ops) {
      var order: seq<Operation<V>> :| StrictlyLinearizes(m, ops, order);
      var p := PermutationOf(ops, order);
      PickTight(m, ops, p);
      assert Linearizes(m, tight, Pick(tight, p));
    }
    if LinearizableOps(m, tight) {
      var order :| Linearizes(m, tight, order);
      var p := PermutationOf(tight, order);
      PickTight(m, ops, p);
      assert StrictlyLinearizes(m, ops, Pick(ops, p));
    }
  }

  lemma {:induction false} PickTight<S, V>(m: Model<S, V>, ops: seq<Operation<V>>, p: seq<nat>)
    requires |p| == |ops| && Distinct(p)
    requires forall i :: 0 <= i < |p| ==> p[i] < |ops|
    ensures var a, b := Pick(ops, p), Pick(Tightened(ops), p);
            && multiset(a) == multiset(ops) && multiset(b) == multiset(Tightened(ops))
            && (RealTimeOrder(b) <==> StrictOrder(a)) && (Legal(m, m.init, b) <==> Legal(m, m.init, a))
  {
    PickIsPermutation(ops, p);
    PickIsPermutation(Tightened(ops), p);
    assert Pick(Tightened(ops), p) == Tightened(Pick(ops, p));
    TightOrder(Pick(ops, p));
    TightLegal(m, m.init, Pick(ops, p));
  }

  // ---- an outcome of the sort with returns first ---------------------------------------

  /** The entries in the order of the operations. */
  ghost function Unsorted<V>(ops: seq<Operation<V>>): (es: seq<Entry<V>>)
    ensures |es| == 2 * |ops|
  {
    seq(2 * |ops|, i requires 0 <= i < 2 * |ops| => if i % 2 == 0 then CallEntry(ops, i / 2) else ReturnEntry(ops, i / 2))
  }

  lemma {:induction false} Sorted<V>(es: seq<Entry<V>>) returns (r: seq<Entry<V>>)
    requires Distinct(es)
    ensures SortedByTime(r) && |r| == |es| && Distinct(r)
    ensures forall e :: e in r <==> e in es
  {
    r := [];
    if es != [] {
      var n := |es| - 1;
      var before := Sorted(es[..n]);
      var e := es[n];
      var k := |before|;
      while k > 0 && e.time < before[k - 1].time
        invariant 0 <= k <= |before|
        invariant forall j :: k <= j < |before| ==> e.time < before[j].time
      {
        k := k - 1;
      }
      r := before[..k] + [e] + before[k..];
      assert e !in es[..n];
      InsertSorted(before, e, k);
      InsertKeeps(before, e, k);
      assert es == es[..n] + [e];
    }
  }

  /** Every list of operations has sorted entries. */
  lemma {:induction false} SomeEntries<V>(ops: seq<Operation<V>>) returns (es: seq<Entry<V>>)
    ensures EntriesOf(ops, es)
  {
    var un := Unsorted(ops);
    forall i, j | 0 <= i < j < |un|
      ensures un[i] != un[j]
    {
      assert un[i].id == i / 2 && un[j].id == j / 2;
    }
    es := Sorted(un);
    forall id: nat | id < |ops|
      ensures CallEntry(ops, id) in es && ReturnEntry(ops, id) in es
    {
      assert un[2 * id] == CallEntry(ops, id) && un[2 * id + 1] == ReturnEntry(ops, id);
    }
    forall k | 0 <= k < |es|
      ensures IsEntryOf(ops, es[k])
    {
      assert es[k] in un;
    }
  }

  /** The entry of an operation from the entry of the tightened one. */
  ghost function Relax<V>(e: Entry<V>): Entry<V> {
    e.(time := if e.kind == Call then e.time / 2 else (e.time + 1) / 2)
  }

  ghost function Relaxed<V>(es: seq<Entry<V>>): (r: seq<Entry<V>>)
    ensures |r| == |es| && forall k :: 0 <= k < |es| ==> r[k] == Relax(es[k])
  {
    seq(|es|, k requires 0 <= k < |es| => Relax(es[k]))
  }

  lemma {:induction false} RelaxedEntries<V>(ops: seq<Operation<V>>, es: seq<Entry<V>>)
    requires EntriesOf(Tightened(ops), es)
    ensures EntriesOf(ops, Relaxed(es))
  {
    var tight, r := Tightened(ops), Relaxed(es);
    forall k | 0 <= k < |r|
      ensures IsEntryOf(ops, r[k])
    {
      assert IsEntryOf(tight, es[k]);
    }
    forall id: nat | id < |ops|
      ensures CallEntry(ops, id) in r && ReturnEntry(ops, id) in r
    {
      var c :| 0 <= c < |es| && es[c] == CallEntry(tight, id);
      var d :| 0 <= d < |es| && es[d] == ReturnEntry(tight, id);
      assert r[c] == CallEntry(ops, id) && r[d] == ReturnEntry(ops, id);
    }
    forall i, j | 0 <= i < j < |r|
      ensures r[i].time <= r[j].time && r[i] != r[j]
    {
      assert es[i].time <= es[j].time && es[i] != es[j];
      assert IsEntryOf(tight, es[i]) && IsEntryOf(tight, es[j]);
    }
  }

  /** Among the outcomes of the sort is one in which every return stands before the calls
      of its time. */
  lemma {:induction false} ReturnsFirst<V>(ops: seq<Operation<V>>) returns (es: seq<Entry<V>>)
    ensures EntriesOf(ops, es)
    ensures forall x: nat, y: nat :: x < |ops| && y < |ops| && ops[x].ret <= ops[y].call ==> Precedes(es, x, y)
  {
    var tight := Tightened(ops);
    var et := SomeEntries(tight);
    RelaxedEntries(ops, et);
    es := Relaxed(et);
    forall x: nat, y: nat | x < |ops| && y < |ops| && ops[x].ret <= ops[y].call
      ensures Precedes(es, x, y)
    {
      TightPrecedes(ops, et, x, y);
    }
  }

  lemma {:induction false} TightPrecedes<V>(ops: seq<Operation<V>>, et: seq<Entry<V>>, x: nat, y: nat)
    requires EntriesOf(Tightened(ops), et) && EntriesOf(ops, Relaxed(et))
    requires x < |ops| && y < |ops| && ops[x].ret <= ops[y].call
    ensures Precedes(Relaxed(et), x, y)
  {
    var es, tight := Relaxed(et), Tightened(ops);
    EntriesAt(ops, es, x);
    EntriesAt(ops, es, y);
    hide CallAt, ReturnAt, Distinct;
    var r, c := ReturnAt(es, x), CallAt(es, y);
    assert es[r] == Relax(et[r]) && es[c] == Relax(et[c]);
    assert IsEntryOf(tight, et[r]) && IsEntryOf(tight, et[c]);
    assert et[r].time == tight[x].ret && et[c].time == tight[y].call;
  }

  // ---- the exact condition ---------------------------------------------------------------

  /** A strict order is a linearization of the entries, however ties were sorted. */
  lemma {:induction false} StrictSurvives<S, V(!new)>(m: Model<S, V>, ops: seq<Operation<V>>, es: seq<Entry<V>>)
    requires EntriesOf(ops, es) && Lasting(ops) && StrictlyLinearizable(m, ops)
    ensures WellFormed(es) && Linearizable(m, es)
  {
    EntriesWellFormed(ops, es);
    var order: seq<Operation<V>> :| StrictlyLinearizes(m, ops, order);
    var p := PermutationOf(ops, order);
    AcceptsPicked(m, ops, es, m.init, p);
    forall i, j | 0 <= i < j < |p|
      ensures !Precedes(es, p[j], p[i])
    {
      EntriesAt(ops, es, p[i]);
      EntriesAt(ops, es, p[j]);
      assert order[i].call < order[j].ret;
    }
    assert IsLinearization(m, es, p);
  }

  /** With returns first, only strict orders remain. */
  lemma {:induction false} OnlyStrict<S, V(!new)>(m: Model<S, V>, ops: seq<Operation<V>>, es: seq<Entry<V>>)
    requires EntriesOf(ops, es) && Lasting(ops) && WellFormed(es) && Linearizable(m, es)
    requires forall x: nat, y: nat :: x < |ops| && y < |ops| && ops[x].ret <= ops[y].call ==> Precedes(es, x, y)
    ensures StrictlyLinearizable(m, ops)
  {
    var p :| IsLinearization(m, es, p);
    PickIsPermutation(ops, p);
    AcceptsPicked(m, ops, es, m.init, p);
    var order := Pick(ops, p);
    forall i, j | 0 <= i < j < |order|
      ensures order[i].call < order[j].ret
    {
      assert !Precedes(es, p[j], p[i]);
    }
    assert StrictlyLinearizes(m, ops, order);
  }

  ghost predicate AlwaysAccepted<S, V(!new)>(m: Model<S, V>, ops: seq<Operation<V>>) {
    forall es :: EntriesOf(ops, es) ==> WellFormed(es) && Linearizable(m, es)
  }

  /** The verdict on the entries is that on the operations, however ties are sorted. */
  ghost predicate AlwaysRight<S, V(!new)>(m: Model<S, V>, ops: seq<Operation<V>>) {
    forall es :: EntriesOf(ops, es) ==> WellFormed(es) && (Linearizable(m, es) <==> LinearizableOps(m, ops))
  }

  /** Every outcome of the sort is accepted exactly when the operations are strictly
      linearizable; no outcome turns the verdict exactly when the operations are strictly
      linearizable if they are linearizable at all. */
  lemma {:induction false} TiesExact<S, V(!new)>(m: Model<S, V>, ops: seq<Operation<V>>)
    requires Lasting(ops)
    ensures AlwaysAccepted(m, ops) <==> StrictlyLinearizable(m, ops)
    ensures AlwaysRight(m, ops) <==> (LinearizableOps(m, ops) ==> StrictlyLinearizable(m, ops))
  {
    var first := ReturnsFirst(ops);
    EntriesWellFormed(ops, first);
    if Linearizable(m, first) {
      OnlyStrict(m, ops, first);
    }
    forall es | EntriesOf(ops, es)
      ensures WellFormed(es)
      ensures StrictlyLinearizable(m, ops) ==> Linearizable(m, es)
      ensures Linearizable(m, es) ==> LinearizableOps(m, ops)
    {
      EntriesFaithful(m, ops, es);
      if StrictlyLinearizable(m, ops) {
        StrictSurvives(m, ops, es);
      }
    }
  }

  // ---- a tie can turn the verdict --------------------------------------------------

  /** A flag that is raised by 1 and read as still down by 0. */
  const FLAG: Model<bool, int> :=
    Model(false, (up: bool, input: int, _: int) => if input == 1 then (true, true) else (!up, up), (a, b) => a == b)

  /** The flag is raised during [0, 5] and read as down during [5, 9]. */
  const TIED: seq<Operation<int>> := [Operation(0, 1, 0, 0, 5), Operation(1, 0, 5, 0, 9)]

  const TIED_ENTRIES: seq<Entry<int>> :=
    [CallEntry(TIED, 0), ReturnEntry(TIED, 0), CallEntry(TIED, 1), ReturnEntry(TIED, 1)]

  lemma {:induction false} TiedEntries()
    ensures Lasting(TIED) && EntriesOf(TIED, TIED_ENTRIES) && WellFormed(TIED_ENTRIES) && Ops(TIED_ENTRIES) == 2
  {
    var es := TIED_ENTRIES;
    assert es[0] == CallEntry(TIED, 0) && es[1] == ReturnEntry(TIED, 0);
    assert es[2] == CallEntry(TIED, 1) && es[3] == ReturnEntry(TIED, 1);
    EntriesWellFormed(TIED, es);
  }

  lemma {:induction false} TiedOperations()
    ensures LinearizableOps(FLAG, TIED)
  {
    var order := [TIED[1], TIED[0]];
    assert TIED == [TIED[0], TIED[1]];
    assert order[1..] == [TIED[0]] && order[1..][1..] == [];
    assert Linearizes(FLAG, TIED, order);
  }

  lemma {:induction false} TiedOrder(p: seq<nat>)
    requires WellFormed(TIED_ENTRIES) && EntriesOf(TIED, TIED_ENTRIES) && Ops(TIED_ENTRIES) == 2
    ensures !IsLinearization(FLAG, TIED_ENTRIES, p)
  {
    var es := TIED_ENTRIES;
    if |p| == 2 && ValidIds(es, p) && RespectsRealTime(es, p) {
      hide EntriesOf, WellFormed;
      WhereIs(TIED, es, 1);
      WhereIs(TIED, es, 2);
      assert Precedes(es, 0, 1);
      assert !Precedes(es, p[1], p[0]);
      assert p == [0, 1];
      AcceptsPicked(FLAG, TIED, es, FLAG.init, p);
      assert Pick(TIED, p) == [TIED[0], TIED[1]];
      assert [TIED[0], TIED[1]][1..] == [TIED[1]];
    }
  }

  /** The operations are linearizable, yet an outcome that the sort allows is
      not: the return of the first stands before the call of the second. */
  lemma {:induction false} TieTurnsVerdict()
    ensures Lasting(TIED) && EntriesOf(TIED, TIED_ENTRIES) && WellFormed(TIED_ENTRIES)
    ensures LinearizableOps(FLAG, TIED) && !Linearizable(FLAG, TIED_ENTRIES)
  {
    TiedEntries();
    TiedOperations();
    hide EntriesOf, WellFormed, LinearizableOps, IsLinearization, Lasting;
    forall p: seq<nat>
      ensures !IsLinearization(FLAG, TIED_ENTRIES, p)
    {
      TiedOrder(p);
    }
  }
}
