/** From operations with timestamps to the checker's entries
    (src/porcupine/model.go:5-11, src/porcupine/checker.go:29-55), and what it
    means for a list of operations to be linearizable. */
module Histories {
  import opened Linearizability
  import opened Collections

  datatype Operation<V> = Operation(clientId: int, input: V, call: int, output: V, ret: int)

  // ---- linearizability of operations -------------------------------------------

  /** No operation stands before one that returned before its call. */
  ghost predicate RealTimeOrder<V>(order: seq<Operation<V>>) {
    forall i, j :: 0 <= i < j < |order| ==> order[i].call <= order[j].ret
  }

  ghost predicate Legal<S, V>(m: Model<S, V>, s: S, order: seq<Operation<V>>) {
    order == [] ||
    var (ok, t) := m.step(s, order[0].input, order[0].output);
    ok && Legal(m, t, order[1..])
  }

  ghost predicate Linearizes<S, V>(m: Model<S, V>, ops: seq<Operation<V>>, order: seq<Operation<V>>) {
    multiset(order) == multiset(ops) && RealTimeOrder(order) && Legal(m, m.init, order)
  }

  ghost predicate LinearizableOps<S, V(!new)>(m: Model<S, V>, ops: seq<Operation<V>>) {
    exists order :: Linearizes(m, ops, order)
  }

  /** No operation returns before its call. */
  ghost predicate Forward<V>(ops: seq<Operation<V>>) {
    forall x :: 0 <= x < |ops| ==> ops[x].call <= ops[x].ret
  }

  /** Every operation takes time. */
  ghost predicate Lasting<V>(ops: seq<Operation<V>>) {
    forall x :: 0 <= x < |ops| ==> ops[x].call < ops[x].ret
  }

  /** No operation returns at the very moment another one is called. */
  ghost predicate NoTies<V>(ops: seq<Operation<V>>) {
    forall x, y :: 0 <= x < |ops| && 0 <= y < |ops| ==> ops[x].call != ops[y].ret
  }

  // ---- makeEntries ---------------------------------------------------------------

  function CallEntry<V>(ops: seq<Operation<V>>, id: nat): Entry<V>
    requires id < |ops|
  {
    Entry(Call, ops[id].input, id, ops[id].call, ops[id].clientId)
  }

  function ReturnEntry<V>(ops: seq<Operation<V>>, id: nat): Entry<V>
    requires id < |ops|
  {
    Entry(Return, ops[id].output, id, ops[id].ret, ops[id].clientId)
  }

  ghost predicate SortedByTime<V>(es: seq<Entry<V>>) {
    forall i, j :: 0 <= i < j < |es| ==> es[i].time <= es[j].time
  }

  /** es holds, ordered by time, one call and one return entry per operation. */
  ghost predicate EntriesOf<V>(ops: seq<Operation<V>>, es: seq<Entry<V>>) {
    && |es| == 2 * |ops|
    && SortedByTime(es)
    && Distinct(es)
    && (forall id: nat :: id < |ops| ==> CallEntry(ops, id) in es && ReturnEntry(ops, id) in es)
    && (forall k :: 0 <= k < |es| ==> IsEntryOf(ops, es[k]))
  }

  ghost predicate IsEntryOf<V>(ops: seq<Operation<V>>, e: Entry<V>) {
    e.id < |ops| && e == if e.kind == Call then CallEntry(ops, e.id) else ReturnEntry(ops, e.id)
  }

  /** Inserting behind everything that is not later. */
  method InsertByTime<V>(es: seq<Entry<V>>, e: Entry<V>) returns (r: seq<Entry<V>>)
    requires SortedByTime(es)
    ensures SortedByTime(r) && |r| == |es| + 1
    ensures exists k :: 0 <= k <= |es| && r == es[..k] + [e] + es[k..]
  {
    var k := |es|;
    while k > 0 && e.time < es[k - 1].time
      invariant 0 <= k <= |es|
      invariant forall j :: k <= j < |es| ==> e.time < es[j].time
    {
      k := k - 1;
    }
    r := es[..k] + [e] + es[k..];
    InsertSorted(es, e, k);
  }

  lemma {:induction false} InsertSorted<V>(es: seq<Entry<V>>, e: Entry<V>, k: nat)
    requires SortedByTime(es) && k <= |es|
    requires k == 0 || es[k - 1].time <= e.time
    requires k == |es| || e.time <= es[k].time
    ensures SortedByTime(es[..k] + [e] + es[k..])
  {
    var r := es[..k] + [e] + es[k..];
    forall i, j | 0 <= i < j < |r|
      ensures r[i].time <= r[j].time
    {
      assert i < k ==> r[i] == es[i];
      assert i > k ==> r[i] == es[i - 1];
      assert j < k ==> r[j] == es[j];
      assert j > k ==> r[j] == es[j - 1];
    }
  }

  /** The library sort of checker.go:53, which promises no more than this: the
      same entries, ordered by time.  Ties may come out in any order. */
  method SortByTime<V>(es: seq<Entry<V>>) returns (r: seq<Entry<V>>)
    requires Distinct(es)
    ensures SortedByTime(r) && |r| == |es| && Distinct(r)
    ensures forall e :: e in r <==> e in es
  {
    r := [];
    for i := 0 to |es|
      invariant SortedByTime(r) && |r| == i && Distinct(r)
      invariant forall e :: e in r <==> e in es[..i]
    {
      ghost var before := r;
      r := InsertByTime(r, es[i]);
      ghost var k :| 0 <= k <= |before| && r == before[..k] + [es[i]] + before[k..];
      assert es[i] !in es[..i];
      InsertKeeps(before, es[i], k);
      assert es[..i + 1] == es[..i] + [es[i]];
    }
    assert es[..|es|] == es;
  }

  lemma {:induction false} InsertKeeps<T>(s: seq<T>, x: T, k: nat)
    requires Distinct(s) && x !in s && k <= |s|
    ensures Distinct(s[..k] + [x] + s[k..])
    ensures forall y :: y in s[..k] + [x] + s[k..] <==> y == x || y in s
  {
    InsertMembers(s, x, k);
    InsertDistinct(s, x, k);
  }

  lemma {:induction false} InsertMembers<T>(s: seq<T>, x: T, k: nat)
    requires k <= |s|
    ensures forall y :: y in s[..k] + [x] + s[k..] <==> y == x || y in s
  {
    var r := s[..k] + [x] + s[k..];
    assert s == s[..k] + s[k..];
    assert multiset(r) == multiset(s) + multiset{x};
    forall y
      ensures y in r <==> y == x || y in s
    {
      assert y in r <==> y in multiset(r);
      assert y in s <==> y in multiset(s);
    }
  }

  lemma {:induction false} InsertDistinct<T>(s: seq<T>, x: T, k: nat)
    requires Distinct(s) && x !in s && k <= |s|
    ensures Distinct(s[..k] + [x] + s[k..])
  {
    var r := s[..k] + [x] + s[k..];
    forall i, j | 0 <= i < j < |r|
      ensures r[i] != r[j]
    {
      assert i != k ==> r[i] == s[if i < k then i else i - 1];
      assert j != k ==> r[j] == s[if j < k then j else j - 1];
    }
  }

  method MakeEntries<V>(history: seq<Operation<V>>) returns (entries: seq<Entry<V>>)
    ensures EntriesOf(history, entries)
  {
    entries := [];
    for id := 0 to |history|
      invariant |entries| == 2 * id && Distinct(entries)
      invariant forall x: nat :: x < id ==> CallEntry(history, x) in entries && ReturnEntry(history, x) in entries
      invariant forall k :: 0 <= k < |entries| ==> IsEntryOf(history, entries[k]) && entries[k].id < id
    {
      var elem := history[id];
      var more := [Entry(Call, elem.input, id, elem.call, elem.clientId), Entry(Return, elem.output, id, elem.ret, elem.clientId)];
      assert more == [CallEntry(history, id), ReturnEntry(history, id)];
      ghost var before := entries;
      entries := entries + more;
      assert forall k :: 0 <= k < |before| ==> entries[k] == before[k];
      assert entries[2 * id] == more[0] && entries[2 * id + 1] == more[1];
    }
    ghost var unsorted := entries;
    entries := SortByTime(entries);
    forall k | 0 <= k < |entries|
      ensures IsEntryOf(history, entries[k])
    {
      assert entries[k] in unsorted;
    }
  }

  // ---- entries stand for their operations ---------------------------------------

  lemma {:induction false} WhereIs<V>(ops: seq<Operation<V>>, es: seq<Entry<V>>, k: nat)
    requires EntriesOf(ops, es) && k < |es|
    ensures Find(es, es[k].kind, es[k].id) == k
  {
    var j := Find(es, es[k].kind, es[k].id);
    assert IsEntryOf(ops, es[k]) && j <= k;
    assert IsEntryOf(ops, es[j]);
  }

  lemma {:induction false} EntriesAt<V>(ops: seq<Operation<V>>, es: seq<Entry<V>>, id: nat)
    requires EntriesOf(ops, es) && id < |ops|
    ensures CallAt(es, id) < |es| && es[CallAt(es, id)] == CallEntry(ops, id)
    ensures ReturnAt(es, id) < |es| && es[ReturnAt(es, id)] == ReturnEntry(ops, id)
  {
    var k: nat :| k < |es| && es[k] == CallEntry(ops, id);
    WhereIs(ops, es, k);
    var r: nat :| r < |es| && es[r] == ReturnEntry(ops, id);
    WhereIs(ops, es, r);
  }

  lemma {:induction false} EntriesWellFormed<V>(ops: seq<Operation<V>>, es: seq<Entry<V>>)
    requires EntriesOf(ops, es) && Lasting(ops)
    ensures WellFormed(es) && Ops(es) == |ops|
  {
    forall k | 0 <= k < |es|
      ensures EntryOk(es, k)
    {
      assert IsEntryOf(ops, es[k]);
      WhereIs(ops, es, k);
    }
    forall id: nat | id < Ops(es)
      ensures OpOk(es, id)
    {
      EntriesAt(ops, es, id);
    }
  }

  /** Entries of equal time come calls first; the sort does not promise it. */
  ghost predicate CallsFirst<V>(es: seq<Entry<V>>) {
    forall i, j :: 0 <= i < j < |es| && es[i].kind == Return && es[j].kind == Call ==> es[i].time != es[j].time
  }

  lemma {:induction false} NoTiesCallsFirst<V>(ops: seq<Operation<V>>, es: seq<Entry<V>>)
    requires EntriesOf(ops, es) && NoTies(ops)
    ensures CallsFirst(es)
  {
    forall i, j | 0 <= i < j < |es| && es[i].kind == Return && es[j].kind == Call
      ensures es[i].time != es[j].time
    {
      assert IsEntryOf(ops, es[i]) && IsEntryOf(ops, es[j]);
    }
  }

  /** The order of entries against the order of time. */
  lemma {:induction false} PrecedesMeaning<V>(ops: seq<Operation<V>>, es: seq<Entry<V>>, x: nat, y: nat)
    requires EntriesOf(ops, es) && x < |ops| && y < |ops|
    ensures ops[x].ret < ops[y].call ==> Precedes(es, x, y)
    ensures CallsFirst(es) ==> (Precedes(es, x, y) <==> ops[x].ret < ops[y].call)
  {
    EntriesAt(ops, es, x);
    EntriesAt(ops, es, y);
  }

  function Pick<V>(ops: seq<Operation<V>>, p: seq<nat>): (r: seq<Operation<V>>)
    requires forall i :: 0 <= i < |p| ==> p[i] < |ops|
    ensures |r| == |p|
  {
    seq(|p|, i requires 0 <= i < |p| => ops[p[i]])
  }

  lemma {:induction false} AcceptsPicked<S, V>(m: Model<S, V>, ops: seq<Operation<V>>, es: seq<Entry<V>>, s: S, p: seq<nat>)
    requires EntriesOf(ops, es) && WellFormed(es) && Ops(es) == |ops|
    requires forall i :: 0 <= i < |p| ==> p[i] < |ops|
    ensures Accepts(m, es, s, p) <==> Legal(m, s, Pick(ops, p))
    decreases |p|
  {
    if p != [] {
      EntriesAt(ops, es, p[0]);
      assert Pick(ops, p)[1..] == Pick(ops, p[1..]);
      AcceptsPicked(m, ops, es, m.step(s, ops[p[0]].input, ops[p[0]].output).1, p[1..]);
    }
  }

  // ---- permutations ---------------------------------------------------------------

  lemma {:induction false} PickIsPermutation<V>(ops: seq<Operation<V>>, p: seq<nat>)
    requires |p| == |ops| && Distinct(p)
    requires forall i :: 0 <= i < |p| ==> p[i] < |ops|
    ensures multiset(Pick(ops, p)) == multiset(ops)
    decreases |ops|
  {
    if ops != [] {
      var n := |ops| - 1;
      var k := PositionOf(p, n);
      var p' := p[..k] + p[k + 1..];
      RemoveKeepsDistinct(p, k);
      assert forall i :: 0 <= i < n ==> p'[i] in p && p'[i] != n;
      PickIsPermutation(ops[..n], p');
      var r := Pick(ops, p);
      assert r[..k] + r[k + 1..] == Pick(ops[..n], p');
      RemoveOne(r, k);
      RemoveOne(ops, n);
      assert ops[..n] + ops[n + 1..] == ops[..n];
    }
  }

  lemma {:induction false} PositionOf(p: seq<nat>, x: nat) returns (k: nat)
    requires x < |p| && Distinct(p)
    requires forall i :: 0 <= i < |p| ==> p[i] < |p|
    ensures k < |p| && p[k] == x
  {
    DistinctSize(p);
    BelowSize(|p|);
    SubsetSize(Elements(p), Below(|p|));
    assert x in Elements(p);
    k :| k < |p| && p[k] == x;
  }

  lemma {:induction false} RemoveKeepsDistinct(p: seq<nat>, k: nat)
    requires Distinct(p) && k < |p|
    ensures var q := p[..k] + p[k + 1..]; Distinct(q) && forall i :: 0 <= i < |q| ==> q[i] in p && q[i] != p[k]
  {
  }

  ghost function Shift(p: seq<nat>, k: nat): seq<nat> {
    seq(|p|, i requires 0 <= i < |p| => if p[i] < k then p[i] else p[i] + 1)
  }

  lemma {:induction false} ShiftedPick<V>(ops: seq<Operation<V>>, k: nat, q: seq<nat>)
    requires k < |ops| == |q| + 1 && Distinct(q)
    requires forall i :: 0 <= i < |q| ==> q[i] < |q|
    ensures var p := Shift(q, k) + [k];
            && Distinct(p)
            && (forall i :: 0 <= i < |p| ==> p[i] < |ops|)
            && Pick(ops, p) == Pick(ops[..k] + ops[k + 1..], q) + [ops[k]]
  {
    var p, rest := Shift(q, k) + [k], ops[..k] + ops[k + 1..];
    assert forall i :: 0 <= i < |q| ==> p[i] == Shift(q, k)[i] && ops[p[i]] == rest[q[i]];
  }

  /** A rearrangement of the operations comes from a permutation of their ids. */
  lemma {:induction false} PermutationOf<V>(ops: seq<Operation<V>>, order: seq<Operation<V>>) returns (p: seq<nat>)
    requires multiset(order) == multiset(ops)
    ensures |p| == |ops| && Distinct(p)
    ensures forall i :: 0 <= i < |p| ==> p[i] < |ops|
    ensures order == Pick(ops, p)
    decreases |order|
  {
    if order == [] {
      assert |multiset(ops)| == |ops|;
      p := [];
    } else {
      var k := MatchLast(ops, order);
      var n := |order| - 1;
      var q := PermutationOf(ops[..k] + ops[k + 1..], order[..n]);
      p := Shift(q, k) + [k];
      ShiftedPick(ops, k, q);
      assert order == order[..n] + [order[n]];
    }
  }

  lemma {:induction false} MatchLast<V>(ops: seq<Operation<V>>, order: seq<Operation<V>>) returns (k: nat)
    requires multiset(order) == multiset(ops) && order != []
    ensures k < |ops| == |order| && ops[k] == order[|order| - 1]
    ensures multiset(order[..|order| - 1]) == multiset(ops[..k] + ops[k + 1..])
  {
    assert |multiset(order)| == |order| && |multiset(ops)| == |ops|;
    var n := |order| - 1;
    RemoveOne(order, n);
    assert order[..n] + order[n + 1..] == order[..n];
    assert order[n] in multiset(ops);
    k :| k < |ops| && ops[k] == order[n];
    RemoveOne(ops, k);
    assert multiset(order[..n]) == multiset(order) - multiset{order[n]};
  }

  // ---- the two notions agree --------------------------------------------------------

  /** Linearizable entries always come from linearizable operations.  The
      converse holds when, at equal times, calls come before returns. */
  lemma {:induction false} EntriesFaithful<S, V(!new)>(m: Model<S, V>, ops: seq<Operation<V>>, es: seq<Entry<V>>)
    requires EntriesOf(ops, es) && Lasting(ops)
    ensures WellFormed(es)
    ensures Linearizable(m, es) ==> LinearizableOps(m, ops)
    ensures CallsFirst(es) ==> (Linearizable(m, es) <==> LinearizableOps(m, ops))
  {
    EntriesWellFormed(ops, es);
    if Linearizable(m, es) {
      var p :| IsLinearization(m, es, p);
      PickIsPermutation(ops, p);
      AcceptsPicked(m, ops, es, m.init, p);
      OrderPicked(ops, es, p);
      assert Linearizes(m, ops, Pick(ops, p));
    }
    if LinearizableOps(m, ops) && CallsFirst(es) {
      var order :| Linearizes(m, ops, order);
      var p := PermutationOf(ops, order);
      AcceptsPicked(m, ops, es, m.init, p);
      OrderPicked(ops, es, p);
      assert IsLinearization(m, es, p);
    }
  }

  lemma {:induction false} OrderPicked<V>(ops: seq<Operation<V>>, es: seq<Entry<V>>, p: seq<nat>)
    requires EntriesOf(ops, es)
    requires forall i :: 0 <= i < |p| ==> p[i] < |ops|
    ensures RespectsRealTime(es, p) ==> RealTimeOrder(Pick(ops, p))
    ensures CallsFirst(es) && RealTimeOrder(Pick(ops, p)) ==> RespectsRealTime(es, p)
  {
    var r := Pick(ops, p);
    forall i, j | 0 <= i < j < |p|
      ensures r[j].ret < r[i].call ==> Precedes(es, p[j], p[i])
      ensures CallsFirst(es) && Precedes(es, p[j], p[i]) ==> r[j].ret < r[i].call
    {
      PrecedesMeaning(ops, es, p[j], p[i]);
    }
    if RespectsRealTime(es, p) {
      forall i, j | 0 <= i < j < |r|
        ensures r[i].call <= r[j].ret
      {
        assert !Precedes(es, p[j], p[i]);
      }
    }
    if RealTimeOrder(r) && CallsFirst(es) {
      forall i, j | 0 <= i < j < |p|
        ensures !Precedes(es, p[j], p[i])
      {
        assert r[i].call <= r[j].ret;
      }
    }
  }
}
