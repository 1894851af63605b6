/** The doubly linked entry list of src/porcupine/checker.go:57-172, with its
    in-place unlinking and relinking.

    `nodes` lists the nodes in history order behind the sentinel `nodes[0]`.
    `Links` gives, by position, every pointer of every node, unlinked nodes
    included; `Dances` fixes all of them from the order of the removals. */
module DancingList {
  import opened Collections
  import opened Linearizability

  class Node<V(0)> {
    const value: V
    const pair: Node?<V>   // `match` in the source: the return node of a call
    const id: int
    var next: Node?<V>
    var prev: Node?<V>

    constructor (value: V, pair: Node?<V>, id: int)
      ensures this.value == value && this.pair == pair && this.id == id
      ensures next == null && prev == null
    {
      this.value, this.pair, this.id := value, pair, id;
      next, prev := null, null;
    }

    /** The sentinel carries no value. */
    constructor Sentinel()
      ensures pair == null && id == -1 && next == null && prev == null
    {
      pair, id := null, -1;
      next, prev := null, null;
    }
  }

  /** The position after k that is not in `gone`; n if there is none. */
  ghost function Next(k: nat, gone: set<nat>, n: nat): (r: nat)
    requires k < n
    ensures k < r <= n
    ensures r == n || r !in gone
    ensures forall j :: k < j < r ==> j in gone
    decreases n - k
  {
    if k + 1 == n || k + 1 !in gone then k + 1 else Next(k + 1, gone, n)
  }

  /** The position before k that is not in `gone`; 0 if there is none. */
  ghost function Prev(k: nat, gone: set<nat>): (r: nat)
    requires k > 0
    ensures r < k
    ensures r == 0 || r !in gone
    ensures forall j :: r < j < k ==> j in gone
  {
    if k == 1 || k - 1 !in gone then k - 1 else Prev(k - 1, gone)
  }

  lemma {:induction false} NextAfterRemoval(k: nat, x: nat, gone: set<nat>, n: nat)
    requires k < n && x < n && x !in gone
    ensures Next(k, gone + {x}, n) == if Next(k, gone, n) == x then Next(x, gone, n) else Next(k, gone, n)
  {
  }

  lemma {:induction false} PrevAfterRemoval(k: nat, x: nat, gone: set<nat>)
    requires 0 < k && 0 < x && x !in gone
    ensures Prev(k, gone + {x}) == if Prev(k, gone) == x then Prev(x, gone) else Prev(k, gone)
  {
  }

  lemma {:induction false} NextPrev(k: nat, x: nat, gone: set<nat>, n: nat)
    requires k < n && 0 < x < n && k !in gone && x !in gone
    ensures Next(k, gone, n) == x <==> Prev(x, gone) == k
  {
  }

  /** Successor and predecessor of every position; n stands for nil. */
  datatype Links = Links(next: seq<nat>, prev: seq<nat>)

  ghost predicate LinkedPast(l: Links, k: nat, gone: set<nat>)
    requires k < |l.next| == |l.prev|
  {
    l.next[k] == Next(k, gone, |l.next|) && (k > 0 ==> l.prev[k] == Prev(k, gone))
  }

  /** Live nodes are linked past everything removed; a removed node keeps the
      links it had when it was taken out. */
  ghost predicate Dances(l: Links, removed: seq<nat>) {
    && 0 < |l.next| == |l.prev|
    && Distinct(removed)
    && (forall i :: 0 <= i < |removed| ==> 0 < removed[i] < |l.next|)
    && (forall k: nat {:trigger LinkedPast(l, k, Elements(removed))} ::
          k < |l.next| && k !in removed ==> LinkedPast(l, k, Elements(removed)))
    && (forall i :: 0 <= i < |removed| ==> LinkedPast(l, removed[i], Elements(removed[..i])))
  }

  ghost predicate Inside(l: Links, k: nat) {
    k < |l.next| == |l.prev| && l.prev[k] < |l.next|
  }

  ghost function UnlinkAt(l: Links, k: nat): (l': Links)
    requires Inside(l, k)
    ensures |l'.next| == |l.next| && |l'.prev| == |l.prev|
  {
    Links(l.next[l.prev[k] := l.next[k]],
          if l.next[k] < |l.prev| then l.prev[l.next[k] := l.prev[k]] else l.prev)
  }

  ghost function RelinkAt(l: Links, k: nat): (l': Links)
    requires Inside(l, k)
    ensures |l'.next| == |l.next| && |l'.prev| == |l.prev|
  {
    Links(l.next[l.prev[k] := k],
          if l.next[k] < |l.prev| then l.prev[l.next[k] := k] else l.prev)
  }

  lemma {:induction false} LiveNeighbours(l: Links, removed: seq<nat>, k: nat)
    requires Dances(l, removed) && 0 < k < |l.next| && k !in removed
    ensures Inside(l, k)
    ensures l.prev[k] !in removed && l.next[l.prev[k]] == k
    ensures l.next[k] < |l.next| ==> l.next[k] !in removed && l.prev[l.next[k]] == k
  {
    var gone, n := Elements(removed), |l.next|;
    assert LinkedPast(l, k, gone);
    var p, q := l.prev[k], l.next[k];
    assert LinkedPast(l, p, gone);
    NextPrev(p, k, gone, n);
    if q < n {
      assert LinkedPast(l, q, gone);
      NextPrev(k, q, gone, n);
    }
  }

  lemma {:induction false} UnlinkDances(l: Links, removed: seq<nat>, k: nat)
    requires Dances(l, removed) && 0 < k < |l.next| && k !in removed
    ensures Inside(l, k) && Dances(UnlinkAt(l, k), removed + [k])
  {
    hide LinkedPast, UnlinkAt, Next, Prev, Elements, Distinct, Inside;
    LiveNeighbours(l, removed, k);
    var l', removed' := UnlinkAt(l, k), removed + [k];
    OneMore(removed, k);
    assert forall i :: 0 <= i < |removed'| ==> 0 < removed'[i] < |l.next|;
    forall j: nat | j < |l.next| && j !in removed'
      ensures LinkedPast(l', j, Elements(removed'))
    {
      UnlinkOther(l, removed, k, j);
    }
    forall i | 0 <= i < |removed'|
      ensures LinkedPast(l', removed'[i], Elements(removed'[..i]))
    {
      UnlinkRemoved(l, removed, k, i);
    }
  }

  lemma {:induction false} OneMore(s: seq<nat>, k: nat)
    requires Distinct(s) && k !in s
    ensures Distinct(s + [k]) && Elements(s + [k]) == Elements(s) + {k}
  {
  }

  lemma {:induction false} UnlinkRemoved(l: Links, removed: seq<nat>, k: nat, i: nat)
    requires Dances(l, removed) && 0 < k < |l.next| && k !in removed && i <= |removed|
    ensures Inside(l, k)
    ensures var removed' := removed + [k]; LinkedPast(UnlinkAt(l, k), removed'[i], Elements(removed'[..i]))
  {
    LiveNeighbours(l, removed, k);
    var removed' := removed + [k];
    assert removed'[..i] == removed[..i];
    if i < |removed| {
      assert LinkedPast(l, removed[i], Elements(removed[..i]));
      assert removed[i] in removed;
    } else {
      assert removed[..i] == removed;
      assert LinkedPast(l, k, Elements(removed));
    }
  }

  lemma {:induction false} UnlinkOther(l: Links, removed: seq<nat>, k: nat, j: nat)
    requires Dances(l, removed) && 0 < k < |l.next| && k !in removed
    requires j < |l.next| && j !in removed && j != k
    ensures Inside(l, k) && LinkedPast(UnlinkAt(l, k), j, Elements(removed) + {k})
  {
    LiveNeighbours(l, removed, k);
    var gone, n := Elements(removed), |l.next|;
    assert LinkedPast(l, j, gone) && LinkedPast(l, k, gone);
    NextAfterRemoval(j, k, gone, n);
    NextPrev(j, k, gone, n);
    if j > 0 {
      PrevAfterRemoval(j, k, gone);
      NextPrev(k, j, gone, n);
    }
  }

  /** What unlinking k did, relinking k undoes. */
  lemma {:induction false} RelinkUndoes(l: Links, removed: seq<nat>, k: nat)
    requires Dances(l, removed) && 0 < k < |l.next| && k !in removed
    ensures Inside(l, k) && Inside(UnlinkAt(l, k), k) && RelinkAt(UnlinkAt(l, k), k) == l
  {
    LiveNeighbours(l, removed, k);
  }

  lemma {:induction false} LastRemoved(l: Links, removed: seq<nat>, k: nat)
    requires Dances(l, removed + [k])
    ensures 0 < k < |l.next| && k !in removed
    ensures LinkedPast(l, k, Elements(removed)) && Inside(l, k)
    ensures l.prev[k] !in removed && l.next[k] !in removed
  {
    var removed' := removed + [k];
    assert removed'[|removed|] == k && removed'[..|removed|] == removed;
    assert LinkedPast(l, k, Elements(removed));
    assert forall i :: 0 <= i < |removed| ==> removed'[i] == removed[i] && 0 < removed[i] < |l.next|;
  }

  lemma {:induction false} RelinkDances(l: Links, removed: seq<nat>, k: nat)
    requires Dances(l, removed + [k])
    ensures Inside(l, k) && Dances(RelinkAt(l, k), removed)
  {
    LastRemoved(l, removed, k);
    var removed' := removed + [k];
    assert forall i :: 0 <= i < |removed| ==> removed'[i] == removed[i];
    var l' := RelinkAt(l, k);
    forall j: nat | j < |l.next| && j !in removed
      ensures LinkedPast(l', j, Elements(removed))
    {
      RelinkLive(l, removed, k, j);
    }
    forall i | 0 <= i < |removed|
      ensures LinkedPast(l', removed[i], Elements(removed[..i]))
    {
      RelinkRemoved(l, removed, k, i);
    }
  }

  lemma {:induction false} RelinkLive(l: Links, removed: seq<nat>, k: nat, j: nat)
    requires Dances(l, removed + [k]) && j < |l.next| && j !in removed
    ensures Inside(l, k) && LinkedPast(RelinkAt(l, k), j, Elements(removed))
  {
    LastRemoved(l, removed, k);
    var gone, n := Elements(removed), |l.next|;
    assert Elements(removed + [k]) == gone + {k};
    NextAfterRemoval(j, k, gone, n);
    NextPrev(j, k, gone, n);
    if j > 0 {
      PrevAfterRemoval(j, k, gone);
      NextPrev(k, j, gone, n);
    }
    assert j != k ==> LinkedPast(l, j, gone + {k});
  }

  lemma {:induction false} RelinkRemoved(l: Links, removed: seq<nat>, k: nat, i: nat)
    requires Dances(l, removed + [k]) && i < |removed|
    ensures Inside(l, k) && removed[i] < |l.next|
    ensures LinkedPast(RelinkAt(l, k), removed[i], Elements(removed[..i]))
  {
    LastRemoved(l, removed, k);
    var removed' := removed + [k];
    assert removed'[..i] == removed[..i] && removed'[i] == removed[i];
    assert LinkedPast(l, removed'[i], Elements(removed'[..i]));
    assert removed[i] in removed && removed[i] != k;
  }

  /** All pointers are determined by the order of removals, so whatever takes
      the removals back restores every pointer of every node. */
  lemma {:induction false} DancesUnique(l: Links, l': Links, removed: seq<nat>)
    requires Dances(l, removed) && Dances(l', removed)
    requires |l.next| == |l'.next| && l.prev[0] == l'.prev[0]
    ensures l == l'
  {
    hide Next, Prev, Elements, Distinct;
    forall k | 0 <= k < |l.next|
      ensures l.next[k] == l'.next[k] && l.prev[k] == l'.prev[k]
    {
      if k in removed {
        var i: nat :| i < |removed| && removed[i] == k;
        assert LinkedPast(l, removed[i], Elements(removed[..i]));
        assert LinkedPast(l', removed[i], Elements(removed[..i]));
      } else {
        assert LinkedPast(l, k, Elements(removed)) && LinkedPast(l', k, Elements(removed));
      }
    }
  }

  /** `unlift` after `lift` is the identity on all pointers, also when the call
      and its return are neighbours. */
  lemma {:induction false} UnliftUndoesLift(l: Links, removed: seq<nat>, c: nat, r: nat)
    requires Dances(l, removed) && 0 < c < r < |l.next| && c !in removed && r !in removed
    ensures Inside(l, c) && Inside(UnlinkAt(l, c), r)
    ensures var lifted := UnlinkAt(UnlinkAt(l, c), r);
            Inside(lifted, r) && Inside(RelinkAt(lifted, r), c) && RelinkAt(RelinkAt(lifted, r), c) == l
  {
    UnlinkDances(l, removed, c);
    RelinkUndoes(l, removed, c);
    RelinkUndoes(UnlinkAt(l, c), removed + [c], r);
  }

  // ---- the heap -------------------------------------------------------------

  function At<V(0)>(nodes: seq<Node<V>>, k: nat): Node?<V> {
    if k < |nodes| then nodes[k] else null
  }

  /** The pointers of the nodes are those of l. */
  ghost predicate Shape<V(0)>(nodes: seq<Node<V>>, l: Links)
    reads nodes
  {
    && |l.next| == |l.prev| == |nodes|
    && Distinct(nodes)
    && forall k: nat :: k < |nodes| ==> Placed(nodes, l, k)
  }

  ghost predicate Placed<V(0)>(nodes: seq<Node<V>>, l: Links, k: nat)
    requires k < |l.next| == |l.prev| == |nodes|
    reads nodes
  {
    nodes[k].next == At(nodes, l.next[k]) && nodes[k].prev == At(nodes, l.prev[k])
  }

  /** checker.go:155-156 and 158-161; only the second of these needs the test. */
  method Unlink<V(0)>(x: Node<V>, ghost nodes: seq<Node<V>>, ghost l: Links, ghost k: nat)
    requires Shape(nodes, l)
    requires k < |nodes| && nodes[k] == x && Inside(l, k)
    modifies nodes
    ensures Shape(nodes, UnlinkAt(l, k))
  {
    assert Placed(nodes, l, k);
    x.prev.next := x.next;
    if x.next != null {
      x.next.prev := x.prev;
    }
    forall j: nat | j < |nodes|
      ensures Placed(nodes, UnlinkAt(l, k), j)
    {
      assert old(Placed(nodes, l, j));
    }
  }

  /** checker.go:166-169 and 170-171. */
  method Relink<V(0)>(x: Node<V>, ghost nodes: seq<Node<V>>, ghost l: Links, ghost k: nat)
    requires Shape(nodes, l)
    requires k < |nodes| && nodes[k] == x && Inside(l, k) && l.prev[k] != k
    modifies nodes
    ensures Shape(nodes, RelinkAt(l, k))
  {
    assert Placed(nodes, l, k);
    x.prev.next := x;
    if x.next != null {
      x.next.prev := x;
    }
    forall j: nat | j < |nodes|
      ensures Placed(nodes, RelinkAt(l, k), j)
    {
      assert old(Placed(nodes, l, j));
    }
  }

  /** Takes a call and its return out of the list. */
  method Lift<V(0)>(entry: Node<V>, ghost nodes: seq<Node<V>>, ghost l: Links, ghost removed: seq<nat>,
                    ghost c: nat, ghost r: nat) returns (ghost l': Links)
    requires Shape(nodes, l) && Dances(l, removed)
    requires 0 < c < r < |nodes| && c !in removed && r !in removed
    requires nodes[c] == entry && entry.pair == nodes[r]
    modifies nodes
    ensures Shape(nodes, l') && Dances(l', removed + [c, r])
  {
    UnlinkDances(l, removed, c);
    UnlinkDances(UnlinkAt(l, c), removed + [c], r);
    assert removed + [c, r] == (removed + [c]) + [r];
    l' := UnlinkAt(UnlinkAt(l, c), r);
    Unlink(entry, nodes, l, c);
    Unlink(entry.pair, nodes, UnlinkAt(l, c), r);
  }

  /** Puts them back; every pointer is then what it was before `Lift`, since
      `DancesUnique` leaves only one possibility. */
  method Unlift<V(0)>(entry: Node<V>, ghost nodes: seq<Node<V>>, ghost l: Links, ghost removed: seq<nat>,
                      ghost c: nat, ghost r: nat) returns (ghost l': Links)
    requires Shape(nodes, l) && Dances(l, removed + [c, r])
    requires c < |nodes| && r < |nodes| && nodes[c] == entry && entry.pair == nodes[r]
    modifies nodes
    ensures Shape(nodes, l') && Dances(l', removed)
  {
    assert removed + [c, r] == (removed + [c]) + [r];
    RelinkDances(l, removed + [c], r);
    LastRemoved(l, removed + [c], r);
    LastRemoved(RelinkAt(l, r), removed, c);
    RelinkDances(RelinkAt(l, r), removed, c);
    l' := RelinkAt(RelinkAt(l, r), c);
    Relink(entry.pair, nodes, l, r);
    Relink(entry, nodes, RelinkAt(l, r), c);
  }
}
