/** `checkSingle` of src/porcupine/checker.go:174-248. */
module Search {
  import opened Collections
  import opened Linearizability
  import opened Exploration
  import opened SearchInvariant
  import opened DancingList
  import opened Bitset
  import opened Checker

  // ---- positions of the list --------------------------------------------------

  /** Positions taken out by the operations of `path`, in order. */
  ghost function Removed<V>(h: seq<Entry<V>>, path: seq<nat>): seq<nat> {
    if path == [] then []
    else
      var x := path[|path| - 1];
      Removed(h, path[..|path| - 1]) + [CallAt(h, x) + 1, ReturnAt(h, x) + 1]
  }

  lemma {:induction false} RemovedSnoc<V>(h: seq<Entry<V>>, path: seq<nat>, x: nat)
    ensures Removed(h, path + [x]) == Removed(h, path) + [CallAt(h, x) + 1, ReturnAt(h, x) + 1]
  {
    assert (path + [x])[..|path|] == path;
  }

  ghost predicate Live<V>(h: seq<Entry<V>>, path: seq<nat>, k: nat) {
    0 < k <= |h| && h[k - 1].id !in path
  }

  lemma {:induction false} RemovedMeaning<V>(h: seq<Entry<V>>, path: seq<nat>, k: nat)
    requires WellFormed(h) && ValidIds(h, path)
    ensures k in Removed(h, path) <==> 0 < k <= |h| && !Live(h, path, k)
    decreases |path|
  {
    hide WellFormed, CallAt, ReturnAt;
    if path != [] {
      var p, x := path[..|path| - 1], path[|path| - 1];
      RemovedMeaning(h, p, k);
      assert path == p + [x];
      OwnPositions(h, x, k);
    }
  }

  /** An operation owns the positions of its call and its return, no other. */
  lemma {:induction false} OwnPositions<V>(h: seq<Entry<V>>, x: nat, k: nat)
    requires WellFormed(h) && x < Ops(h)
    ensures 0 < k <= |h| && h[k - 1].id == x <==> k == CallAt(h, x) + 1 || k == ReturnAt(h, x) + 1
  {
    assert OpOk(h, x);
    if 0 < k <= |h| && h[k - 1].id == x {
      assert EntryOk(h, k - 1);
    }
  }

  lemma {:induction false} LivePositions<V>(h: seq<Entry<V>>, path: seq<nat>, x: nat)
    requires WellFormed(h) && ValidIds(h, path) && x < Ops(h) && x !in path
    ensures CallAt(h, x) + 1 !in Removed(h, path) && ReturnAt(h, x) + 1 !in Removed(h, path)
  {
    assert OpOk(h, x);
    RemovedMeaning(h, path, CallAt(h, x) + 1);
    RemovedMeaning(h, path, ReturnAt(h, x) + 1);
  }

  /** No outstanding return stands before the scan position. */
  ghost predicate NoReturnBefore<V>(h: seq<Entry<V>>, path: seq<nat>, cur: nat) {
    forall y: nat :: y < Ops(h) && y !in path ==> cur <= ReturnAt(h, y) + 1
  }

  ghost function Successor<V>(h: seq<Entry<V>>, path: seq<nat>, k: nat): nat
    requires k <= |h|
  {
    Next(k, Elements(Removed(h, path)), |h| + 1)
  }

  lemma {:induction false} SuccessorSkips<V>(h: seq<Entry<V>>, path: seq<nat>, k: nat)
    requires WellFormed(h) && ValidIds(h, path) && k <= |h|
    ensures Skips(h, path, k, Successor(h, path, k))
    ensures forall y: nat :: y < Ops(h) && k < ReturnAt(h, y) + 1 < Successor(h, path, k) ==> y in path
    ensures k < Successor(h, path, k) <= |h| + 1
    ensures Successor(h, path, k) <= |h| ==> Live(h, path, Successor(h, path, k))
  {
    var to := Successor(h, path, k);
    forall x: nat | x < Ops(h) && k < CallAt(h, x) + 1 < to
      ensures x in path
    {
      OwnPositions(h, x, CallAt(h, x) + 1);
      assert CallAt(h, x) + 1 in Elements(Removed(h, path));
      RemovedMeaning(h, path, CallAt(h, x) + 1);
    }
    forall x: nat | x < Ops(h) && k < ReturnAt(h, x) + 1 < to
      ensures x in path
    {
      OwnPositions(h, x, ReturnAt(h, x) + 1);
      assert ReturnAt(h, x) + 1 in Elements(Removed(h, path));
      RemovedMeaning(h, path, ReturnAt(h, x) + 1);
    }
    if to <= |h| {
      RemovedMeaning(h, path, to);
    }
  }

  /** While something is outstanding, the list goes on after an outstanding call. */
  lemma {:induction false} SuccessorExists<V>(h: seq<Entry<V>>, path: seq<nat>, k: nat, x: nat)
    requires WellFormed(h) && ValidIds(h, path) && x < Ops(h) && x !in path && k < ReturnAt(h, x) + 1
    ensures Successor(h, path, k) <= ReturnAt(h, x) + 1 <= |h|
  {
    LivePositions(h, path, x);
    OwnPositions(h, x, ReturnAt(h, x) + 1);
    assert ReturnAt(h, x) + 1 !in Elements(Removed(h, path));
  }

  lemma {:induction false} CallIsEnabled<V>(h: seq<Entry<V>>, path: seq<nat>, x: nat)
    requires WellFormed(h) && x < Ops(h) && x !in path
    requires NoReturnBefore(h, path, CallAt(h, x) + 1)
    ensures Enabled(h, Elements(path), x)
  {
    forall y: nat | y < Ops(h) && y !in Elements(path)
      ensures CallAt(h, x) < ReturnAt(h, y)
    {
      DistinctPositions(h, x, y);
    }
  }

  lemma {:induction false} LastEnabled<S, V>(m: Model<S, V>, h: seq<Entry<V>>, done: set<nat>, s: S, q: seq<nat>)
    requires WellFormed(h) && q != [] && Extends(m, h, done, s, q)
    ensures Enabled(h, done + Elements(q[..|q| - 1]), q[|q| - 1])
    decreases |q|
  {
    if |q| > 1 {
      var r := q[1..];
      LastEnabled(m, h, done + {q[0]}, After(m, h, s, q[0]), r);
      assert q[..|q| - 1][1..] == r[..|r| - 1];
      ElementsCons(q[..|q| - 1]);
      assert done + Elements(q[..|q| - 1]) == done + {q[0]} + Elements(r[..|r| - 1]);
    } else {
      assert done + Elements(q[..0]) == done;
    }
  }

  /** Scan positions of all levels of the stack, for the termination measure. */
  ghost function Scans<V>(h: seq<Entry<V>>, path: seq<nat>, cur: nat): seq<nat> {
    seq(|path|, i requires 0 <= i < |path| => CallAt(h, path[i]) + 1) + [cur]
  }

  lemma {:induction false} ScansAreDigits<V>(h: seq<Entry<V>>, path: seq<nat>, cur: nat)
    requires WellFormed(h) && ValidIds(h, path) && 0 < cur <= |h| + 1
    ensures Digits(|h| + 2, Ops(h) + 1, Scans(h, path, cur))
  {
    FullIds(h, path);
    forall i | 0 <= i < |path|
      ensures CallAt(h, path[i]) < |h|
    {
      assert OpOk(h, path[i]);
    }
  }

  ghost function Work<V>(h: seq<Entry<V>>, path: seq<nat>, cur: nat): nat
    requires WellFormed(h) && ValidIds(h, path) && 0 < cur <= |h| + 1
  {
    ScansAreDigits(h, path, cur);
    Rank(|h| + 2, Ops(h) + 1, Scans(h, path, cur))
  }

  lemma {:induction false} WorkAdvances<V>(h: seq<Entry<V>>, path: seq<nat>, cur: nat, to: nat)
    requires WellFormed(h) && ValidIds(h, path) && 0 < cur < to <= |h| + 1
    ensures Work(h, path, to) < Work(h, path, cur)
  {
    ScansAreDigits(h, path, cur);
    ScansAreDigits(h, path, to);
    RankAdvances(|h| + 2, Ops(h) + 1, Scans(h, path, cur), Scans(h, path, to));
  }

  lemma {:induction false} WorkDeepens<V>(h: seq<Entry<V>>, path: seq<nat>, x: nat, to: nat)
    requires WellFormed(h) && ValidIds(h, path + [x]) && ValidIds(h, path) && 0 < to <= |h| + 1
    requires x < Ops(h) && CallAt(h, x) < |h|
    ensures Work(h, path + [x], to) < Work(h, path, CallAt(h, x) + 1)
  {
    var cur := CallAt(h, x) + 1;
    ScansAreDigits(h, path, cur);
    ScansAreDigits(h, path + [x], to);
    assert Scans(h, path + [x], to) == Scans(h, path, cur) + [to];
    RankDeepens(|h| + 2, Ops(h) + 1, Scans(h, path, cur), to);
  }

  lemma {:induction false} WorkReturns<V>(h: seq<Entry<V>>, path: seq<nat>, cur: nat, to: nat)
    requires WellFormed(h) && ValidIds(h, path) && path != [] && 0 < cur <= |h| + 1
    requires ValidIds(h, path[..|path| - 1])
    requires CallAt(h, path[|path| - 1]) + 1 < to <= |h| + 1
    ensures Work(h, path[..|path| - 1], to) < Work(h, path, cur)
  {
    var p := path[..|path| - 1];
    ScansAreDigits(h, path, cur);
    ScansAreDigits(h, p, to);
    RankAdvances(|h| + 2, Ops(h) + 1, Scans(h, path, cur), Scans(h, p, to));
  }

  // ---- the initial list ------------------------------------------------------

  /** Position k + 1 of the list is entry k of the history. */
  ghost predicate Represents<V(0)>(h: seq<Entry<V>>, nodes: seq<Node<V>>)
    requires WellFormed(h)
  {
    && |nodes| == |h| + 1
    && nodes[0].pair == null
    && forall k :: 0 < k <= |h| ==> RepresentsAt(h, nodes, k)
  }

  ghost predicate RepresentsAt<V(0)>(h: seq<Entry<V>>, nodes: seq<Node<V>>, k: nat)
    requires WellFormed(h) && 0 < k <= |h| && |nodes| == |h| + 1
  {
    var e := h[k - 1];
    && nodes[k].value == e.value
    && nodes[k].id == e.id
    && (e.kind == Return ==> nodes[k].pair == null)
    && (e.kind == Call ==> ReturnAt(h, e.id) < |h| && nodes[k].pair == nodes[ReturnAt(h, e.id) + 1])
  }

  ghost function InitialLinks(n: nat): Links {
    Links(seq(n, k => k + 1), seq(n, k => if k == 0 then n else k - 1))
  }

  lemma {:induction false} InitialDances(n: nat)
    requires n > 0
    ensures Dances(InitialLinks(n), [])
  {
  }

  /** checker.go:175-176 and 184. */
  method Setup<V(0)>(history: seq<Entry<V>>) returns (head: Node<V>, entry: Node?<V>, n: nat, ghost nodes: seq<Node<V>>)
    requires WellFormed(history)
    ensures n == Ops(history) && Represents(history, nodes) && Shape(nodes, InitialLinks(|nodes|))
    ensures head == nodes[0] && entry == At(nodes, 1) && fresh(nodes)
  {
    ghost var ns;
    entry, ns := MakeLinkedEntries(history);
    var len := ListLength(entry, ns);
    n := len / 2;
    var sentinel := new Node<V>.Sentinel();
    nodes := Behind(sentinel, ns);
    head := InsertBefore(sentinel, entry);
    BehindRepresents(history, sentinel, ns);
    forall k: nat | k < |nodes|
      ensures Placed(nodes, InitialLinks(|nodes|), k)
    {
    }
  }

  /** The nodes in history order, behind the sentinel. */
  ghost function Behind<V(0)>(sentinel: Node<V>, ns: seq<Node<V>>): (nodes: seq<Node<V>>)
    ensures |nodes| == |ns| + 1 && nodes[0] == sentinel
    ensures forall k :: 0 < k <= |ns| ==> nodes[k] == ns[|ns| - k]
  {
    seq(|ns| + 1, k requires 0 <= k <= |ns| => if k == 0 then sentinel else ns[|ns| - k])
  }

  lemma {:induction false} BehindRepresents<V(0)>(h: seq<Entry<V>>, sentinel: Node<V>, ns: seq<Node<V>>)
    requires WellFormed(h) && |ns| == |h| && Suffix(h, ns) && sentinel !in ns && sentinel.pair == null
    ensures Represents(h, Behind(sentinel, ns)) && Distinct(Behind(sentinel, ns))
  {
    var nodes := Behind(sentinel, ns);
    forall k | 0 < k <= |h|
      ensures RepresentsAt(h, nodes, k)
    {
      assert IsNodeOf(h, ns, |h| - k);
    }
  }

  // ---- the search --------------------------------------------------------------

  datatype CallsEntry<V(0), S> = CallsEntry(entry: Node<V>, state: S)

  ghost predicate Stack<S, V(0)>(m: Model<S, V>, h: seq<Entry<V>>, nodes: seq<Node<V>>,
                                 calls: seq<CallsEntry<V, S>>, path: seq<nat>)
    requires WellFormed(h) && ValidIds(h, path)
  {
    && |nodes| == |h| + 1
    && |calls| == |path|
    && forall i :: 0 <= i < |path| ==> StackAt(m, h, nodes, calls, path, i)
  }

  ghost predicate StackAt<S, V(0)>(m: Model<S, V>, h: seq<Entry<V>>, nodes: seq<Node<V>>,
                                   calls: seq<CallsEntry<V, S>>, path: seq<nat>, i: nat)
    requires WellFormed(h) && ValidIds(h, path) && |nodes| == |h| + 1 && i < |calls| == |path|
  {
    && calls[i].entry == At(nodes, CallAt(h, path[i]) + 1)
    && calls[i].entry.id == path[i]
    && calls[i].state == StateAfter(m, h, m.init, path[..i])
  }

  /** checker.go:214-229. */
  method RecordStack<S, V(0)>(longest: seq<Option<seq<nat>>>, calls: seq<CallsEntry<V, S>>, ghost path: seq<nat>)
    returns (longest': seq<Option<seq<nat>>>)
    requires |calls| == |path| && Distinct(path)
    requires forall i :: 0 <= i < |path| ==> calls[i].entry.id == path[i] < |longest|
    ensures |longest'| == |longest|
    ensures forall id :: 0 <= id < |longest| ==>
              longest'[id] == if id in path && Exploration.Length(longest[id]) < |path| then Some(path) else longest[id]
  {
    var ids := seq(|calls|, i requires 0 <= i < |calls| && calls[i].entry.id >= 0 => calls[i].entry.id);
    assert ids == path;
    longest' := longest;
    for i := 0 to |calls|
      invariant |longest'| == |longest|
      invariant forall id :: 0 <= id < |longest| ==>
                  longest'[id] == if id in path[..i] && Exploration.Length(longest[id]) < |path| then Some(path) else longest[id]
    {
      assert path[..i + 1] == path[..i] + [path[i]];
      var id := calls[i].entry.id;
      if longest'[id].None? || |calls| > |longest'[id].value| {
        longest' := longest'[id := Some(ids)];
      }
    }
    assert path[..|path|] == path;
  }

  lemma {:induction false} RecordedStack<S, V>(m: Model<S, V>, h: seq<Entry<V>>, longest: seq<Option<seq<nat>>>,
                            longest': seq<Option<seq<nat>>>, path: seq<nat>)
    requires WellFormed(h) && Records(m, h, longest) && |longest| == |longest'|
    requires ValidIds(h, path) && Extends(m, h, {}, m.init, path)
    requires forall id :: 0 <= id < |longest| ==>
               longest'[id] == longest[id] || (longest'[id] == Some(path) && id in path)
    ensures Records(m, h, longest')
  {
    PartialIsExtension(m, h, path);
  }

  /** The answer of `CheckSingle`: the verdict, and what is on record. */
  ghost predicate Answers<S, V>(m: Model<S, V>, h: seq<Entry<V>>, partial: bool, ok: bool,
                                longest: seq<Option<seq<nat>>>)
    requires WellFormed(h)
  {
    && (ok <==> Linearizable(m, h))
    && (ok ==> forall id :: 0 <= id < |longest| ==> longest[id].Some? && IsLinearization(m, h, longest[id].value))
    && (ok ==> forall i, j :: 0 <= i < |longest| && 0 <= j < |longest| ==> longest[i] == longest[j])
    && (!ok && partial ==> forall p: seq<nat>, id :: PartialLinearization(m, h, p) && id in p ==>
          id < |longest| && Exploration.Length(longest[id]) >= |p|)
  }

  /** What the local variables of the search hold, next to `SearchInv`. */
  ghost predicate Locals<S(!new), V(0)>(m: Model<S, V>, h: seq<Entry<V>>, nodes: seq<Node<V>>, calls: seq<CallsEntry<V, S>>,
                                        state: S, linearized: Words, cache: Cache<S>, seen: set<Config<S>>, path: seq<nat>)
    requires WellFormed(h) && ValidIds(h, path)
  {
    && Stack(m, h, nodes, calls, path)
    && state == StateAfter(m, h, m.init, path)
    && Members(linearized) == Elements(path)
    && Holds(cache, seen, |linearized|)
  }

  ghost predicate RoomFor(n: nat, chunks: nat) {
    forall pos: nat :: pos < n ==> pos / 64 < chunks
  }

  /** The list holds exactly the outstanding entries, and the scan is at `cur`. */
  ghost predicate Listed<V(0)>(h: seq<Entry<V>>, nodes: seq<Node<V>>, l: Links, path: seq<nat>, cur: nat, entry: Node?<V>)
    requires WellFormed(h)
    reads nodes
  {
    && Represents(h, nodes)
    && Shape(nodes, l)
    && Dances(l, Removed(h, path))
    && entry == At(nodes, cur)
    && (nodes[0].next != null ==> cur < |nodes|)
  }

  ghost predicate Scanning<V>(h: seq<Entry<V>>, path: seq<nat>, cur: nat) {
    0 < cur <= |h| + 1 && (cur <= |h| ==> Live(h, path, cur)) && NoReturnBefore(h, path, cur)
  }

  /** checker.go:190-208: try to linearize the call at the scan position. */
  /** The configuration behind operation x. */
  ghost function Pushed<S, V>(m: Model<S, V>, h: seq<Entry<V>>, path: seq<nat>, x: nat): Config<S>
    requires WellFormed(h) && ValidIds(h, path) && x < Ops(h)
  {
    Config(Elements(path) + {x}, After(m, h, StateAfter(m, h, m.init, path), x))
  }

  /** Operation x is taken next: the model accepts it and what is behind it is new. */
  ghost predicate Pushes<S(!new), V(!new)>(m: Model<S, V>, h: seq<Entry<V>>, seen: set<Config<S>>, path: seq<nat>, x: nat)
    requires WellFormed(h) && ValidIds(h, path) && x < Ops(h)
  {
    StepOk(m, h, StateAfter(m, h, m.init, path), x) && !Known(m, seen, Pushed(m, h, path, x))
  }

  method TryCall<S(!new), V(!new, 0)>(
    model: Model<S, V>, ghost h: seq<Entry<V>>, ghost partial: bool, ghost longest: seq<Option<seq<nat>>>,
    headEntry: Node<V>, entry: Node<V>, calls: seq<CallsEntry<V, S>>, state: S, linearized: array<Word>, cache: Cache<S>,
    ghost nodes: seq<Node<V>>, ghost l: Links, ghost seen: set<Config<S>>, ghost path: seq<nat>, ghost cur: nat)
    returns (entry': Node?<V>, calls': seq<CallsEntry<V, S>>, state': S, cache': Cache<S>,
             ghost l': Links, ghost seen': set<Config<S>>, ghost path': seq<nat>, ghost cur': nat)
    requires WellFormed(h) && EqualSimulates(model)
    requires SearchInv(model, h, partial, longest, seen, path, cur) && Scanning(h, path, cur)
    requires Locals(model, h, nodes, calls, state, linearized[..], cache, seen, path)
    requires RoomFor(Ops(h), linearized.Length)
    requires Listed(h, nodes, l, path, cur, entry) && headEntry == nodes[0] && entry.pair != null
    modifies nodes, linearized
    ensures SearchInv(model, h, partial, longest, seen', path', cur') && Scanning(h, path', cur')
    ensures Locals(model, h, nodes, calls', state', linearized[..], cache', seen', path')
    ensures Listed(h, nodes, l', path', cur', entry')
    ensures Work(h, path', cur') < Work(h, path, cur)
    ensures 0 < cur <= |h| && ValidIds(h, path) && h[cur - 1].id < Ops(h)
    ensures var x := h[cur - 1].id;
            if Pushes(model, h, seen, path, x)
            then path' == path + [x] && seen' == seen + {Pushed(model, h, path, x)} && |calls'| == |calls| + 1
            else path' == path && seen' == seen && calls' == calls && cache' == cache && state' == state
  {
    hide WellFormed, EqualSimulates, SeenOk, LevelsOk, ScanOk, Records, Extends, ValidIds, Holds, Members, HashOf;
    hide Dances, Shape, Stack, NoReturnBefore, Live, Elements, Work, Removed, Enabled, Successor;
    hide StateAfter, Precedes, TriedFrom, OpOk, EntryOk;
    ghost var x := CallHere(h, nodes, path, cur);
    calls', state', cache', l', seen', path' := calls, state, cache, l, seen, path;
    var matching := entry.pair;
    var (ok, newState) := model.step(state, entry.value, matching.value);
    if ok {
      var newLinearized := Clone(linearized);
      Set(newLinearized, entry.id);
      ghost var c := Config(Elements(path) + {x}, newState);
      var hit := CacheContains(model, cache, newLinearized, newState, seen);
      if !hit {
        cache' := CacheInsert(cache, newLinearized, newState, seen);
        calls' := calls + [CallsEntry(entry, state)];
        state' := newState;
        Set(linearized, entry.id);
        PushFacts(model, h, partial, longest, seen, path, x);
        l' := Lift(entry, nodes, l, Removed(h, path), cur, ReturnAt(h, x) + 1);
        PushStack(model, h, nodes, calls, path, x, state);
        path', seen', cur' := path + [x], seen + {c}, Successor(h, path + [x], 0);
        NextNode(h, nodes, l', path', 0);
        entry' := headEntry.next;
      } else {
        KnownIsTried(model, h, partial, longest, seen, path, x, c);
        AdvanceFacts(model, h, partial, longest, seen, path, x);
        cur' := Successor(h, path, cur);
        NextNode(h, nodes, l, path, cur);
        entry' := entry.next;
      }
    } else {
      RefusedIsTried(model, h, partial, longest, Here(model, h, path), x);
      AdvanceFacts(model, h, partial, longest, seen, path, x);
      cur' := Successor(h, path, cur);
      NextNode(h, nodes, l, path, cur);
      entry' := entry.next;
    }
  }

  /** The scan stands at the call of an operation that may come next. */
  lemma {:induction false} CallHere<V(0)>(h: seq<Entry<V>>, nodes: seq<Node<V>>, path: seq<nat>, cur: nat) returns (x: nat)
    requires WellFormed(h) && Represents(h, nodes) && Scanning(h, path, cur) && cur <= |h| && nodes[cur].pair != null
    ensures x < Ops(h) && x !in path && cur == CallAt(h, x) + 1 && OpOk(h, x) && Enabled(h, Elements(path), x)
    ensures nodes[cur].id == x && nodes[cur].pair == nodes[ReturnAt(h, x) + 1]
    ensures nodes[cur].value == Input(h, x) && nodes[cur].pair.value == Output(h, x)
  {
    x := h[cur - 1].id;
    assert RepresentsAt(h, nodes, cur) && EntryOk(h, cur - 1) && OpOk(h, x);
    assert RepresentsAt(h, nodes, ReturnAt(h, x) + 1);
    CallIsEnabled(h, path, x);
  }

  lemma {:induction false} KnownIsTried<S(!new), V(!new)>(m: Model<S, V>, h: seq<Entry<V>>, partial: bool, longest: seq<Option<seq<nat>>>,
                                       seen: set<Config<S>>, path: seq<nat>, x: nat, c: Config<S>)
    requires WellFormed(h) && x < Ops(h) && x !in path && |longest| == Ops(h) && ValidIds(h, path)
    requires SeenOk(m, h, partial, longest, seen, path) && EqualSimulates(m)
    requires c == Config(Elements(path) + {x}, After(m, h, StateAfter(m, h, m.init, path), x)) && Known(m, seen, c)
    ensures TriedFrom(m, h, partial, longest, Here(m, h, path), x)
  {
    var d :| d in seen && Same(m, c, d);
    HitIsTried(m, h, partial, longest, seen, path, x, d);
  }

  lemma {:induction false} NextNode<V(0)>(h: seq<Entry<V>>, nodes: seq<Node<V>>, l: Links, path: seq<nat>, k: nat)
    requires WellFormed(h) && ValidIds(h, path) && |nodes| == |h| + 1 && Shape(nodes, l) && Dances(l, Removed(h, path))
    requires k == 0 || (k <= |h| && Live(h, path, k))
    ensures nodes[k].next == At(nodes, Successor(h, path, k))
  {
    hide WellFormed, ValidIds, Removed, Dances, Live, Elements;
    assert k !in Removed(h, path) by {
      RemovedMeaning(h, path, k);
    }
    assert Placed(nodes, l, k);
    LiveIsLinked(l, Removed(h, path), k);
  }

  lemma {:induction false} LiveIsLinked(l: Links, removed: seq<nat>, k: nat)
    requires Dances(l, removed) && k < |l.next| && k !in removed
    ensures l.next[k] == Next(k, Elements(removed), |l.next|)
  {
    assert LinkedPast(l, k, Elements(removed));
  }

  /** checker.go:213-236: the scan met an outstanding return. */
  method Backtrack<S(!new), V(!new, 0)>(
    model: Model<S, V>, ghost h: seq<Entry<V>>, computePartial: bool, longest: seq<Option<seq<nat>>>,
    ghost entry: Node<V>, calls: seq<CallsEntry<V, S>>, ghost state: S, linearized: array<Word>, ghost cache: Cache<S>,
    ghost nodes: seq<Node<V>>, ghost l: Links, ghost seen: set<Config<S>>, ghost path: seq<nat>, ghost cur: nat)
    returns (longest': seq<Option<seq<nat>>>, entry': Node?<V>, calls': seq<CallsEntry<V, S>>, state': S,
             ghost l': Links, ghost path': seq<nat>, ghost cur': nat)
    requires WellFormed(h)
    requires SearchInv(model, h, computePartial, longest, seen, path, cur) && Scanning(h, path, cur)
    requires Locals(model, h, nodes, calls, state, linearized[..], cache, seen, path)
    requires RoomFor(Ops(h), linearized.Length)
    requires Listed(h, nodes, l, path, cur, entry) && entry.pair == null && calls != []
    modifies nodes, linearized
    ensures SearchInv(model, h, computePartial, longest', seen, path', cur') && Scanning(h, path', cur')
    ensures Locals(model, h, nodes, calls', state', linearized[..], cache, seen, path')
    ensures Listed(h, nodes, l', path', cur', entry')
    ensures Work(h, path', cur') < Work(h, path, cur)
    ensures path != [] && path' == path[..|path| - 1] && |calls'| == |calls| - 1
    ensures !computePartial ==> longest' == longest
  {
    hide WellFormed, SeenOk, LevelsOk, ScanOk, Extends, Holds, Members, ValidIds;
    hide Dances, Shape, NoReturnBefore, Live, Elements, Work, Removed, Successor;
    ghost var x := ReturnHere(h, nodes, path, cur);
    longest' := longest;
    if computePartial {
      longest' := RecordCalls(model, h, nodes, longest, calls, path);
    }
    PopFacts(model, h, computePartial, longest, longest', seen, path, x, cur);
    ghost var y := path[|path| - 1];
    path' := path[..|path| - 1];
    PopStack(model, h, nodes, calls, path);
    var callsTop := calls[|calls| - 1];
    entry' := callsTop.entry;
    state' := callsTop.state;
    Clear(linearized, entry'.id);
    calls' := calls[..|calls| - 1];
    l' := Unlift(entry', nodes, l, Removed(h, path'), CallAt(h, y) + 1, ReturnAt(h, y) + 1);
    cur' := Successor(h, path', CallAt(h, y) + 1);
    NextNode(h, nodes, l', path', CallAt(h, y) + 1);
    entry' := entry'.next;
  }

  /** The scan stands at the return of an outstanding operation. */
  lemma {:induction false} ReturnHere<V(0)>(h: seq<Entry<V>>, nodes: seq<Node<V>>, path: seq<nat>, cur: nat) returns (x: nat)
    requires WellFormed(h) && Represents(h, nodes) && Scanning(h, path, cur) && cur <= |h| && nodes[cur].pair == null
    ensures x < Ops(h) && x !in path && cur == ReturnAt(h, x) + 1
  {
    x := h[cur - 1].id;
    assert RepresentsAt(h, nodes, cur) && EntryOk(h, cur - 1);
  }

  method RecordCalls<S, V(0)>(ghost m: Model<S, V>, ghost h: seq<Entry<V>>, ghost nodes: seq<Node<V>>,
                              longest: seq<Option<seq<nat>>>, calls: seq<CallsEntry<V, S>>, ghost path: seq<nat>)
    returns (longest': seq<Option<seq<nat>>>)
    requires WellFormed(h) && ValidIds(h, path) && Stack(m, h, nodes, calls, path) && |longest| == Ops(h)
    requires Records(m, h, longest) && Extends(m, h, {}, m.init, path)
    ensures Updated(m, h, true, longest, longest', path)
  {
    forall i | 0 <= i < |path|
      ensures calls[i].entry.id == path[i] < |longest|
    {
      assert StackAt(m, h, nodes, calls, path, i);
    }
    longest' := RecordStack(longest, calls, path);
    RecordedStack(m, h, longest, longest', path);
  }

  ghost predicate NoRecords(longest: seq<Option<seq<nat>>>) {
    forall id :: 0 <= id < |longest| ==> longest[id].None?
  }

  /** A linearization is the record of every operation. */
  lemma {:induction false} Accepted<S, V>(m: Model<S, V>, h: seq<Entry<V>>, partial: bool, longest: seq<Option<seq<nat>>>, path: seq<nat>)
    requires WellFormed(h) && IsLinearization(m, h, path) && forall id :: 0 <= id < Ops(h) ==> id in path
    requires |longest| == Ops(h) && forall id :: 0 <= id < |longest| ==> longest[id] == Some(path)
    ensures Answers(m, h, partial, true, longest) && Records(m, h, longest) && |path| == Ops(h)
  {
    CompleteIsLinearization(m, h, path);
  }

  lemma {:induction false} SomeOperation<V>(h: seq<Entry<V>>)
    requires WellFormed(h) && h != []
    ensures Ops(h) > 0
  {
  }

  /** `kill(t)` is what the t-th look at the kill flag sees, and `turns` the number of
      looks that saw it down; every turn of the loop begins with a look. */
  method CheckSingle<S(!new), V(!new, 0)>(model: Model<S, V>, history: seq<Entry<V>>, computePartial: bool,
                                          kill: nat -> bool)
    returns (ok: bool, longest: seq<Option<seq<nat>>>, ghost killed: bool, ghost turns: nat)
    requires WellFormed(history) && EqualSimulates(model)
    ensures |longest| == Ops(history) && Records(model, history, longest)
    ensures forall t: nat :: t < turns ==> !kill(t)
    ensures killed ==> !ok && kill(turns)
    ensures !killed ==> turns >= if ok then Ops(history) else 1
    ensures history != [] && kill(0) ==> killed
    ensures !computePartial && !ok ==> NoRecords(longest)
    ensures !killed ==> Answers(model, history, computePartial, ok, longest)
  {
    hide WellFormed, EqualSimulates, SeenOk, LevelsOk, ScanOk, Extends, ValidIds, Holds, Members;
    hide Dances, Shape, Work, Removed, Successor, NoReturnBefore, Live, Elements, IsLinearization, Known, StepOk, StateAfter;
    ghost var nodes: seq<Node<V>>;
    ghost var path: seq<nat>, seen: set<Config<S>>, cur: nat := [], {}, 1;
    ghost var l := InitialLinks(|history| + 1);
    var headEntry, entry, n;
    headEntry, entry, n, nodes := Setup(history);
    var linearized := NewBitset(n);
    var cache: Cache<S> := map[];
    var calls: seq<CallsEntry<V, S>> := [];
    longest := seq(n, _ => None);
    var state := model.init;
    var looks := 0;
    turns := 0;
    if history != [] {
      SomeOperation(history);
    }
    Started(model, history, computePartial, longest, nodes, linearized[..], entry);
    while headEntry.next != null
      invariant fresh(nodes) && fresh(linearized) && nodes != [] && headEntry == nodes[0]
      invariant RoomFor(n, linearized.Length)
      invariant SearchInv(model, history, computePartial, longest, seen, path, cur) && Scanning(history, path, cur)
      invariant Locals(model, history, nodes, calls, state, linearized[..], cache, seen, path)
      invariant Listed(history, nodes, l, path, cur, entry)
      invariant |path| <= looks == turns && forall t: nat :: t < turns ==> !kill(t)
      invariant !computePartial ==> NoRecords(longest)
      decreases Work(history, path, cur)
    {
      if kill(looks) {
        return false, longest, true, turns;
      }
      looks, turns := looks + 1, turns + 1;
      if entry.pair != null {
        entry, calls, state, cache, l, seen, path, cur :=
          TryCall(model, history, computePartial, longest, headEntry, entry, calls, state, linearized, cache,
                  nodes, l, seen, path, cur);
      } else {
        if |calls| == 0 {
          StartExhausted(model, history, computePartial, longest, seen, path, cur, nodes);
          return false, longest, false, turns;
        }
        longest, entry, calls, state, l, path, cur :=
          Backtrack(model, history, computePartial, longest, entry, calls, state, linearized, cache,
                    nodes, l, seen, path, cur);
      }
    }
    ListEmpty(history, nodes, l, path, cur, entry);
    Completed(model, history, computePartial, longest, seen, path, cur);
    var ids := StackIds(model, history, nodes, calls, path);
    longest := seq(n, _ => Some(ids));
    Accepted(model, history, computePartial, longest, path);
    ok, killed := true, false;
  }

  method StackIds<S, V(0)>(ghost m: Model<S, V>, ghost h: seq<Entry<V>>, ghost nodes: seq<Node<V>>,
                           calls: seq<CallsEntry<V, S>>, ghost path: seq<nat>)
    returns (ids: seq<nat>)
    requires WellFormed(h) && ValidIds(h, path) && Stack(m, h, nodes, calls, path)
    ensures ids == path
  {
    forall i | 0 <= i < |path|
      ensures calls[i].entry.id == path[i]
    {
      assert StackAt(m, h, nodes, calls, path, i);
    }
    ids := seq(|calls|, i requires 0 <= i < |calls| && calls[i].entry.id >= 0 => calls[i].entry.id);
  }

  lemma {:induction false} Started<S(!new), V(0)>(m: Model<S, V>, h: seq<Entry<V>>, partial: bool, longest: seq<Option<seq<nat>>>,
                               nodes: seq<Node<V>>, linearized: Words, entry: Node?<V>)
    requires WellFormed(h) && |longest| == Ops(h)
    requires forall id :: 0 <= id < |longest| ==> longest[id].None?
    requires Represents(h, nodes) && Shape(nodes, InitialLinks(|nodes|)) && entry == At(nodes, 1)
    requires Members(linearized) == {}
    ensures SearchInv(m, h, partial, longest, {}, [], 1) && Scanning(h, [], 1)
    ensures Locals(m, h, nodes, [], m.init, linearized, map[], {}, [])
    ensures Listed(h, nodes, InitialLinks(|nodes|), [], 1, entry)
  {
    SearchStarts(m, h, partial, longest);
    InitialDances(|nodes|);
    assert Placed(nodes, InitialLinks(|nodes|), 0);
  }

  lemma {:induction false} ListEmpty<V(0)>(h: seq<Entry<V>>, nodes: seq<Node<V>>, l: Links, path: seq<nat>, cur: nat, entry: Node?<V>)
    requires WellFormed(h) && Listed(h, nodes, l, path, cur, entry) && nodes[0].next == null
    ensures Successor(h, path, 0) == |h| + 1
  {
    assert Placed(nodes, l, 0);
    assert LinkedPast(l, 0, Elements(Removed(h, path)));
  }

  lemma {:induction false} StartExhausted<S, V(0)>(m: Model<S, V>, h: seq<Entry<V>>, partial: bool, longest: seq<Option<seq<nat>>>,
                                seen: set<Config<S>>, path: seq<nat>, cur: nat, nodes: seq<Node<V>>)
    requires WellFormed(h) && path == [] && cur <= |h| && Live(h, path, cur)
    requires Represents(h, nodes) && nodes[cur].pair == null
    requires SearchInv(m, h, partial, longest, seen, path, cur)
    ensures Answers(m, h, partial, false, longest)
  {
    var x := h[cur - 1].id;
    assert RepresentsAt(h, nodes, cur) && EntryOk(h, cur - 1);
    assert cur == ReturnAt(h, x) + 1;
    StackExhausted(m, h, partial, longest, longest, seen, path, x);
    ExhaustedStart(m, h, partial, longest);
  }

  // ---- one lemma per branch of the loop --------------------------------------------

  lemma {:induction false} AdvanceFacts<S, V>(m: Model<S, V>, h: seq<Entry<V>>, partial: bool, longest: seq<Option<seq<nat>>>,
                           seen: set<Config<S>>, path: seq<nat>, x: nat)
    requires WellFormed(h) && x < Ops(h) && x !in path
    requires SearchInv(m, h, partial, longest, seen, path, CallAt(h, x) + 1)
    requires TriedFrom(m, h, partial, longest, Here(m, h, path), x)
    requires NoReturnBefore(h, path, CallAt(h, x) + 1)
    ensures CallAt(h, x) < |h|
    ensures var to := Successor(h, path, CallAt(h, x) + 1);
            && SearchInv(m, h, partial, longest, seen, path, to)
            && to <= |h| && Live(h, path, to) && NoReturnBefore(h, path, to)
            && 0 < CallAt(h, x) + 1 < to
            && Work(h, path, to) < Work(h, path, CallAt(h, x) + 1)
  {
    assert OpOk(h, x);
    var cur := CallAt(h, x) + 1;
    var to := Successor(h, path, cur);
    SuccessorSkips(h, path, cur);
    SuccessorExists(h, path, cur, x);
    Advance(m, h, partial, longest, seen, path, x, to);
    forall y: nat | y < Ops(h) && y !in path
      ensures to <= ReturnAt(h, y) + 1
    {
      DistinctPositions(h, x, y);
    }
    WorkAdvances(h, path, cur, to);
  }

  lemma {:induction false} PushFacts<S, V>(m: Model<S, V>, h: seq<Entry<V>>, partial: bool, longest: seq<Option<seq<nat>>>,
                        seen: set<Config<S>>, path: seq<nat>, x: nat)
    requires WellFormed(h) && Enabled(h, Elements(path), x)
    requires SearchInv(m, h, partial, longest, seen, path, CallAt(h, x) + 1)
    requires StepOk(m, h, StateAfter(m, h, m.init, path), x)
    ensures CallAt(h, x) < ReturnAt(h, x) < |h|
    ensures CallAt(h, x) + 1 !in Removed(h, path) && ReturnAt(h, x) + 1 !in Removed(h, path)
    ensures Removed(h, path + [x]) == Removed(h, path) + [CallAt(h, x) + 1, ReturnAt(h, x) + 1]
    ensures Elements(path + [x]) == Elements(path) + {x}
    ensures ValidIds(h, path + [x])
    ensures var to, c := Successor(h, path + [x], 0), Config(Elements(path) + {x}, After(m, h, StateAfter(m, h, m.init, path), x));
            && SearchInv(m, h, partial, longest, seen + {c}, path + [x], to)
            && StateAfter(m, h, m.init, path + [x]) == c.state
            && (to <= |h| ==> Live(h, path + [x], to)) && NoReturnBefore(h, path + [x], to)
            && 0 < to <= |h| + 1
            && Work(h, path + [x], to) < Work(h, path, CallAt(h, x) + 1)
  {
    hide SeenOk, LevelsOk, ScanOk, Records, Extends, Work, EntryOk;
    var px := path + [x];
    assert x !in path by {
      assert x !in Elements(path);
    }
    RemovedSnoc(h, path, x);
    LivePositions(h, path, x);
    assert OpOk(h, x);
    ElementsSnoc(path, x);
    assert ValidIds(h, px);
    HereSnoc(m, h, path, x);
    SuccessorSkips(h, px, 0);
    Push(m, h, partial, longest, seen, path, x, Successor(h, px, 0));
    WorkDeepens(h, path, x, Successor(h, px, 0));
  }

  lemma {:induction false} PushStack<S, V(0)>(m: Model<S, V>, h: seq<Entry<V>>, nodes: seq<Node<V>>,
                           calls: seq<CallsEntry<V, S>>, path: seq<nat>, x: nat, state: S)
    requires WellFormed(h) && ValidIds(h, path) && ValidIds(h, path + [x])
    requires Stack(m, h, nodes, calls, path) && state == StateAfter(m, h, m.init, path)
    requires CallAt(h, x) < |h| && nodes[CallAt(h, x) + 1].id == x
    ensures Stack(m, h, nodes, calls + [CallsEntry(nodes[CallAt(h, x) + 1], state)], path + [x])
  {
    var top := CallsEntry(nodes[CallAt(h, x) + 1], state);
    assert (path + [x])[..|path|] == path;
    assert StackAt(m, h, nodes, calls + [top], path + [x], |path|);
    forall i | 0 <= i < |path|
      ensures StackAt(m, h, nodes, calls + [top], path + [x], i)
    {
      assert StackAt(m, h, nodes, calls, path, i);
      assert (path + [x])[..i] == path[..i];
    }
  }

  lemma {:induction false} PopStack<S, V(0)>(m: Model<S, V>, h: seq<Entry<V>>, nodes: seq<Node<V>>,
                          calls: seq<CallsEntry<V, S>>, path: seq<nat>)
    requires WellFormed(h) && ValidIds(h, path) && path != [] && ValidIds(h, path[..|path| - 1])
    requires Stack(m, h, nodes, calls, path) && Represents(h, nodes)
    ensures Stack(m, h, nodes, calls[..|calls| - 1], path[..|path| - 1])
    ensures var y, top := path[|path| - 1], calls[|calls| - 1];
            && CallAt(h, y) < ReturnAt(h, y) < |h|
            && top.entry == nodes[CallAt(h, y) + 1] && top.entry.id == y
            && top.entry.pair == nodes[ReturnAt(h, y) + 1]
            && top.state == StateAfter(m, h, m.init, path[..|path| - 1])
  {
    var y := path[|path| - 1];
    assert OpOk(h, y) && RepresentsAt(h, nodes, CallAt(h, y) + 1);
    assert StackAt(m, h, nodes, calls, path, |path| - 1);
    var p, rest := path[..|path| - 1], calls[..|calls| - 1];
    forall i | 0 <= i < |p|
      ensures StackAt(m, h, nodes, rest, p, i)
    {
      assert StackAt(m, h, nodes, calls, path, i);
      assert p[..i] == path[..i];
    }
  }

  lemma {:induction false} PopFacts<S, V>(m: Model<S, V>, h: seq<Entry<V>>, partial: bool, longest: seq<Option<seq<nat>>>,
                       longest': seq<Option<seq<nat>>>, seen: set<Config<S>>, path: seq<nat>, x: nat, cur: nat)
    requires WellFormed(h) && x < Ops(h) && x !in path && path != [] && cur == ReturnAt(h, x) + 1
    requires SearchInv(m, h, partial, longest, seen, path, cur)
    requires Updated(m, h, partial, longest, longest', path)
    ensures var p, y := path[..|path| - 1], path[|path| - 1];
            && ValidIds(h, p) && y < Ops(h) && CallAt(h, y) < ReturnAt(h, y) < |h|
            && Removed(h, path) == Removed(h, p) + [CallAt(h, y) + 1, ReturnAt(h, y) + 1]
            && Elements(p) == Elements(path) - {y}
            && Live(h, p, CallAt(h, y) + 1)
            && var to := Successor(h, p, CallAt(h, y) + 1);
            && SearchInv(m, h, partial, longest', seen, p, to)
            && to <= |h| && Live(h, p, to) && NoReturnBefore(h, p, to)
            && 0 < CallAt(h, y) + 1 < to
            && 0 < cur <= |h| + 1
            && Work(h, p, to) < Work(h, path, cur)
  {
    hide SeenOk, LevelsOk, ScanOk, Records, Extends, Work, Updated, RespectsRealTime, Accepts, EntryOk;
    hide StepOk, Removed, After, StateAfter;
    var p, y := path[..|path| - 1], path[|path| - 1];
    assert path == p + [y];
    RemovedSnoc(h, p, y);
    assert OpOk(h, x);
    assert OpOk(h, y);
    var c := CallAt(h, y) + 1;
    var to := Successor(h, p, c);
    ElementsSnoc(p, y);
    assert y !in p;
    ValidPrefix(h, p, y);
    SuccessorSkips(h, p, c);
    SuccessorExists(h, p, c, y);
    Pop(m, h, partial, longest, longest', seen, path, x, to);
    LastEnabled(m, h, {}, m.init, path);
    assert {} + Elements(p) == Elements(p);
    WorkReturns(h, path, cur, to);
  }

  lemma {:induction false} ValidPrefix<V>(h: seq<Entry<V>>, p: seq<nat>, y: nat)
    requires ValidIds(h, p + [y])
    ensures ValidIds(h, p)
  {
    assert forall i :: 0 <= i < |p| ==> p[i] == (p + [y])[i];
  }

  lemma {:induction false} Completed<S, V>(m: Model<S, V>, h: seq<Entry<V>>, partial: bool, longest: seq<Option<seq<nat>>>,
                        seen: set<Config<S>>, path: seq<nat>, cur: nat)
    requires WellFormed(h)
    requires SearchInv(m, h, partial, longest, seen, path, cur)
    requires Successor(h, path, 0) == |h| + 1
    ensures IsLinearization(m, h, path)
    ensures forall id :: 0 <= id < Ops(h) ==> id in path
  {
    SuccessorSkips(h, path, 0);
    forall id: nat | id < Ops(h)
      ensures id in path
    {
      assert OpOk(h, id);
    }
    assert Elements(path) == Below(Ops(h));
    FullIds(h, path);
    PartialIsExtension(m, h, path);
    CompleteIsLinearization(m, h, path);
  }
}
