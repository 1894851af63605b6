/** The specification side of the linearizability checker: models of a
    sequential object (src/porcupine/model.go), histories of call and return
    entries (src/porcupine/checker.go:9-22), and what it means for a history to
    be linearizable.  Nothing in this module mentions how the search works. */
module Linearizability {
  import opened Collections

  /** `interface{}` values are the type parameter V, states are S. */
  datatype Model<!S, !V> = Model(
    init: S,
    step: (S, V, V) -> (bool, S),
    equal: (S, S) -> bool)

  /** All that the checker needs of `Equal`: a state may replace one that is
      Equal to it, since it accepts at least the same steps and the results are
      Equal again.  An equivalence that `Step` respects is a special case. */
  ghost predicate EqualSimulates<S(!new), V(!new)>(m: Model<S, V>) {
    forall s, t, input, output ::
      m.equal(s, t) && m.step(s, input, output).0 ==>
        m.step(t, input, output).0 &&
        m.equal(m.step(s, input, output).1, m.step(t, input, output).1)
  }

  datatype Kind = Call | Return

  datatype Entry<V> = Entry(kind: Kind, value: V, id: nat, time: int, clientId: int)

  /** Position of the first entry of the given kind and id, or |h|. */
  function Find<V>(h: seq<Entry<V>>, kind: Kind, id: nat): (k: nat)
    ensures k <= |h|
    ensures k < |h| ==> h[k].kind == kind && h[k].id == id
    ensures forall j :: 0 <= j < k ==> !(h[j].kind == kind && h[j].id == id)
  {
    if h == [] then 0
    else if h[0].kind == kind && h[0].id == id then 0
    else
      var k := Find(h[1..], kind, id);
      assert forall j :: 1 <= j < k + 1 ==> h[j] == h[1..][j - 1];
      k + 1
  }

  function CallAt<V>(h: seq<Entry<V>>, id: nat): nat { Find(h, Call, id) }

  function ReturnAt<V>(h: seq<Entry<V>>, id: nat): nat { Find(h, Return, id) }

  /** The number of operations of a history. */
  function Ops<V>(h: seq<Entry<V>>): nat { |h| / 2 }

  /** Entry k is the only one of its kind for its operation. */
  ghost predicate EntryOk<V>(h: seq<Entry<V>>, k: nat)
    requires k < |h|
  {
    h[k].id < Ops(h) && Find(h, h[k].kind, h[k].id) == k
  }

  /** Operation id is called and returns later. */
  ghost predicate OpOk<V>(h: seq<Entry<V>>, id: nat) {
    CallAt(h, id) < ReturnAt(h, id) < |h|
  }

  /** Each id below the number of operations has exactly one call entry and,
      later, exactly one return entry; there are no other entries. */
  ghost predicate WellFormed<V>(h: seq<Entry<V>>) {
    && |h| % 2 == 0
    && (forall k :: 0 <= k < |h| ==> EntryOk(h, k))
    && (forall id: nat :: id < Ops(h) ==> OpOk(h, id))
  }

  function Input<V>(h: seq<Entry<V>>, id: nat): V
    requires WellFormed(h) && id < Ops(h)
  {
    assert OpOk(h, id);
    h[CallAt(h, id)].value
  }

  function Output<V>(h: seq<Entry<V>>, id: nat): V
    requires WellFormed(h) && id < Ops(h)
  {
    assert OpOk(h, id);
    h[ReturnAt(h, id)].value
  }

  /** Operation x returned before operation y was called. */
  ghost predicate Precedes<V>(h: seq<Entry<V>>, x: nat, y: nat) {
    ReturnAt(h, x) < CallAt(h, y)
  }

  ghost function Elements(s: seq<nat>): set<nat> {
    set x | x in s
  }

  ghost predicate ValidIds<V>(h: seq<Entry<V>>, p: seq<nat>) {
    Distinct(p) && forall i :: 0 <= i < |p| ==> p[i] < Ops(h)
  }

  /** The operations of p, applied in order from s, are all accepted. */
  ghost predicate Accepts<S, V>(m: Model<S, V>, h: seq<Entry<V>>, s: S, p: seq<nat>)
    requires WellFormed(h)
    requires forall i :: 0 <= i < |p| ==> p[i] < Ops(h)
  {
    p == [] ||
    var (ok, t) := m.step(s, Input(h, p[0]), Output(h, p[0]));
    ok && Accepts(m, h, t, p[1..])
  }

  /** No operation stands before one that returned before its call. */
  ghost predicate RespectsRealTime<V>(h: seq<Entry<V>>, p: seq<nat>) {
    forall i, j :: 0 <= i < j < |p| ==> !Precedes(h, p[j], p[i])
  }

  /** Everything that finished before an operation of p is itself in p. */
  ghost predicate DownClosed<V>(h: seq<Entry<V>>, p: seq<nat>) {
    forall i, y: nat :: 0 <= i < |p| && y < Ops(h) && Precedes(h, y, p[i]) ==> y in p
  }

  ghost predicate PartialLinearization<S, V>(m: Model<S, V>, h: seq<Entry<V>>, p: seq<nat>)
    requires WellFormed(h)
  {
    ValidIds(h, p) && RespectsRealTime(h, p) && DownClosed(h, p) && Accepts(m, h, m.init, p)
  }

  /** A linearization orders all operations. */
  ghost predicate IsLinearization<S, V>(m: Model<S, V>, h: seq<Entry<V>>, p: seq<nat>)
    requires WellFormed(h)
  {
    |p| == Ops(h) && ValidIds(h, p) && RespectsRealTime(h, p) && Accepts(m, h, m.init, p)
  }

  ghost predicate Linearizable<S, V>(m: Model<S, V>, h: seq<Entry<V>>)
    requires WellFormed(h)
  {
    exists p :: IsLinearization(m, h, p)
  }

  // ---- counting ids --------------------------------------------------------

  ghost function Below(n: nat): (b: set<nat>)
    ensures forall i :: i in b <==> 0 <= i < n
  {
    if n == 0 then {} else Below(n - 1) + {n - 1}
  }

  lemma {:induction false} BelowSize(n: nat)
    ensures |Below(n)| == n
  {
    if n > 0 {
      BelowSize(n - 1);
    }
  }

  lemma {:induction false} DistinctSize(s: seq<nat>)
    requires Distinct(s)
    ensures |Elements(s)| == |s|
  {
    if s != [] {
      var r := s[..|s| - 1];
      DistinctSize(r);
      assert Elements(s) == Elements(r) + {s[|s| - 1]};
    }
  }

  /** Distinct ids of full length are all the ids. */
  lemma {:induction false} FullIds<V>(h: seq<Entry<V>>, p: seq<nat>)
    requires ValidIds(h, p)
    ensures |p| <= Ops(h)
    ensures |p| == Ops(h) ==> Elements(p) == Below(Ops(h))
    ensures Elements(p) == Below(Ops(h)) ==> |p| == Ops(h)
  {
    DistinctSize(p);
    BelowSize(Ops(h));
    SubsetSize(Elements(p), Below(Ops(h)));
  }

  /** The complete partial linearizations are exactly the linearizations. */
  lemma {:induction false} CompleteIsLinearization<S, V>(m: Model<S, V>, h: seq<Entry<V>>, p: seq<nat>)
    requires WellFormed(h)
    ensures IsLinearization(m, h, p) <==> PartialLinearization(m, h, p) && |p| == Ops(h)
  {
    if IsLinearization(m, h, p) {
      FullIds(h, p);
      forall i, y: nat | 0 <= i < |p| && y < Ops(h) && Precedes(h, y, p[i])
        ensures y in p
      {
        assert y in Below(Ops(h));
      }
    }
  }
}
