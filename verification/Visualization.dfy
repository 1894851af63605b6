/** Collecting the partial linearizations (src/porcupine/checker.go:314-333) and
    replaying them for the report (src/porcupine/visualization.go:33-79). */
module Visualization {
  import opened Collections
  import opened Linearizability
  import opened Exploration
  import opened SearchInvariant
  import Search

  ghost predicate LongestFirst(ps: seq<seq<nat>>) {
    forall i, j :: 0 <= i < j < |ps| ==> |ps[i]| >= |ps[j]|
  }

  /** The distinct recorded linearizations; the source walks a hash set, so the
      order is arbitrary. */
  method Collect(longest: seq<Option<seq<nat>>>) returns (partials: seq<seq<nat>>)
    ensures forall p :: p in partials <==> exists id :: 0 <= id < |longest| && longest[id] == Some(p)
  {
    partials := [];
    for i := 0 to |longest|
      invariant forall p :: p in partials <==> exists id :: 0 <= id < i && longest[id] == Some(p)
    {
      ghost var before := partials;
      if longest[i].Some? && longest[i].value !in partials {
        partials := partials + [longest[i].value];
      }
      forall p: seq<nat>
        ensures p in partials <==> exists id :: 0 <= id < i + 1 && longest[id] == Some(p)
      {
        assert p in partials <==> p in before || longest[i] == Some(p);
      }
    }
  }

  method SortByLength(ps: seq<seq<nat>>) returns (r: seq<seq<nat>>)
    ensures LongestFirst(r) && multiset(r) == multiset(ps)
  {
    r := [];
    assert LongestFirst(r);
    hide LongestFirst;
    for i := 0 to |ps|
      invariant LongestFirst(r) && multiset(r) == multiset(ps[..i])
    {
      var k := 0;
      while k < |r| && |r[k]| >= |ps[i]|
        invariant 0 <= k <= |r|
        invariant forall j :: 0 <= j < k ==> |r[j]| >= |ps[i]|
      {
        k := k + 1;
      }
      InsertLongest(r, ps[i], k);
      assert ps[..i + 1] == ps[..i] + [ps[i]];
      r := r[..k] + [ps[i]] + r[k..];
    }
    assert ps[..|ps|] == ps;
  }

  lemma {:induction false} InsertLongest(r: seq<seq<nat>>, p: seq<nat>, k: nat)
    requires LongestFirst(r) && k <= |r|
    requires forall j :: 0 <= j < k ==> |r[j]| >= |p|
    requires k < |r| ==> |r[k]| <= |p|
    ensures LongestFirst(r[..k] + [p] + r[k..]) && multiset(r[..k] + [p] + r[k..]) == multiset(r) + multiset{p}
  {
    InsertOne(r, p, k);
    hide *;
    InsertedLongest(r, p, k);
  }

  lemma {:induction false} InsertOne(r: seq<seq<nat>>, p: seq<nat>, k: nat)
    requires k <= |r|
    ensures multiset(r[..k] + [p] + r[k..]) == multiset(r) + multiset{p}
  {
    assert r == r[..k] + r[k..];
  }

  lemma {:induction false} InsertedLongest(r: seq<seq<nat>>, p: seq<nat>, k: nat)
    requires LongestFirst(r) && k <= |r|
    requires forall j :: 0 <= j < k ==> |r[j]| >= |p|
    requires k < |r| ==> |r[k]| <= |p|
    ensures LongestFirst(r[..k] + [p] + r[k..])
  {
    var s := r[..k] + [p] + r[k..];
    forall i, j | 0 <= i < j < |s|
      ensures |s[i]| >= |s[j]|
    {
      assert i != k ==> s[i] == r[if i < k then i else i - 1];
      assert j != k ==> s[j] == r[if j < k then j else j - 1];
    }
  }

  /** `largest[id]` is the first position of a longest partial linearization with id. */
  ghost predicate LargestOk(ps: seq<seq<nat>>, n: nat, largest: map<nat, nat>) {
    && n <= |ps|
    && (forall id :: id in largest ==> largest[id] < n && id in ps[largest[id]])
    && (forall id, i :: 0 <= i < n && id in ps[i] ==> id in largest && |ps[largest[id]]| >= |ps[i]|)
    && (forall id, i :: id in largest && 0 <= i < largest[id] && id in ps[i] ==> |ps[i]| < |ps[largest[id]]|)
  }

  /** The states a replay shows: the model's state after each operation. */
  ghost predicate StatesOf<S, V>(m: Model<S, V>, h: seq<Entry<V>>, p: seq<nat>, states: seq<S>)
    requires WellFormed(h)
  {
    && |states| == |p|
    && (forall i :: 0 <= i < |p| ==> p[i] < Ops(h))
    && forall k :: 0 <= k < |p| ==> StateAt(m, h, p, k, states[k])
  }

  ghost predicate StateAt<S, V>(m: Model<S, V>, h: seq<Entry<V>>, p: seq<nat>, k: nat, state: S)
    requires WellFormed(h) && k < |p| && forall i :: 0 <= i < |p| ==> p[i] < Ops(h)
  {
    state == StateAfter(m, h, m.init, p[..k + 1])
  }

  lemma {:induction false} StartState<S, V>(m: Model<S, V>, h: seq<Entry<V>>)
    requires WellFormed(h)
    ensures StateAfter(m, h, m.init, []) == m.init
  {
  }

  lemma {:induction false} NextState<S, V>(m: Model<S, V>, h: seq<Entry<V>>, p: seq<nat>, k: nat)
    requires WellFormed(h) && k < |p| && forall i :: 0 <= i < |p| ==> p[i] < Ops(h)
    ensures StateAfter(m, h, m.init, p[..k + 1]) == m.step(StateAfter(m, h, m.init, p[..k]), Input(h, p[k]), Output(h, p[k])).1
  {
    assert p[..k + 1][..k] == p[..k];
  }

  /** Replays every partial linearization; `panics` is the panic of
      visualization.go:68-70. */
  method Replay<S, V>(model: Model<S, V>, history: seq<Entry<V>>, partials: seq<seq<nat>>)
    returns (panics: bool, sorted: seq<seq<nat>>, states: seq<seq<S>>, largest: map<nat, nat>)
    requires WellFormed(history)
    requires forall p, i :: p in partials && 0 <= i < |p| ==> p[i] < Ops(history)
    ensures LongestFirst(sorted) && multiset(sorted) == multiset(partials)
    ensures panics <==> exists p :: p in partials && !Accepts(model, history, model.init, p)
    ensures !panics ==> LargestOk(sorted, |sorted|, largest)
    ensures !panics ==> forall id, i :: id in largest && 0 <= i < largest[id] ==> id !in sorted[i]
    ensures !panics ==> |states| == |sorted| && forall i :: 0 <= i < |sorted| ==> StatesOf(model, history, sorted[i], states[i])
  {
    hide Accepts, WellFormed, Ops, LargestOk, StatesOf;
    sorted := SortByLength(partials);
    EmptyReport(sorted);
    panics, states, largest := false, [], map[];
    forall p
      ensures p in sorted <==> p in partials
    {
      assert p in sorted <==> p in multiset(sorted);
      assert p in partials <==> p in multiset(partials);
    }
    for i := 0 to |sorted|
      invariant LargestOk(sorted, i, largest)
      invariant |states| == i && forall k :: 0 <= k < i ==> StatesOf(model, history, sorted[k], states[k])
      invariant forall k :: 0 <= k < i ==> Accepts(model, history, model.init, sorted[k])
    {
      assert sorted[i] in partials;
      var ok, replay := ReplayOne(model, history, sorted[i]);
      if !ok {
        return true, sorted, states, largest;
      }
      states := states + [replay];
      largest := Enter(sorted, i, largest);
    }
    FirstOfAll(sorted, largest);
  }

  /** In a list with longer ones first, the first longest is the first of all. */
  lemma {:induction false} FirstOfAll(ps: seq<seq<nat>>, largest: map<nat, nat>)
    requires LongestFirst(ps) && LargestOk(ps, |ps|, largest)
    ensures forall id, i :: id in largest && 0 <= i < largest[id] ==> id !in ps[i]
  {
  }

  lemma {:induction false} EmptyReport(ps: seq<seq<nat>>)
    ensures LargestOk(ps, 0, map[])
  {
  }

  method ReplayOne<S, V>(model: Model<S, V>, history: seq<Entry<V>>, partial: seq<nat>) returns (ok: bool, states: seq<S>)
    requires WellFormed(history)
    requires forall i :: 0 <= i < |partial| ==> partial[i] < Ops(history)
    ensures ok <==> Accepts(model, history, model.init, partial)
    ensures ok ==> StatesOf(model, history, partial, states)
  {
    hide WellFormed, StateAfter;
    StartState(model, history);
    var state := model.init;
    states := [];
    for j := 0 to |partial|
      invariant |states| == j && state == StateAfter(model, history, model.init, partial[..j])
      invariant forall k :: 0 <= k < j ==> StateAt(model, history, partial, k, states[k])
      invariant Accepts(model, history, model.init, partial) <==> Accepts(model, history, state, partial[j..])
    {
      var histId := partial[j];
      var (accepted, next) := model.step(state, Input(history, histId), Output(history, histId));
      assert partial[j..][1..] == partial[j + 1..];
      NextState(model, history, partial, j);
      if !accepted {
        return false, states;
      }
      state := next;
      states := states + [state];
    }
    ok := true;
  }

  /** visualization.go:73-76; sizes are those of the recorded positions. */
  method Enter(ps: seq<seq<nat>>, i: nat, largest: map<nat, nat>) returns (r: map<nat, nat>)
    requires i < |ps| && LargestOk(ps, i, largest)
    ensures LargestOk(ps, i + 1, r)
  {
    r := largest;
    EnterNone(ps, i, largest);
    hide Entering, LargestOk;
    for j := 0 to |ps[i]|
      invariant Entering(ps, i, j, r)
    {
      var histId := ps[i][j];
      EnterOne(ps, i, j, r);
      var size := if histId in r then |ps[r[histId]]| else 0;
      if size < |ps[i]| {
        r := r[histId := i];
      }
    }
    Entered(ps, i, r);
  }

  /** Where r points for id: at the first of the longest up to i that hold it. */
  ghost predicate Best(ps: seq<seq<nat>>, i: nat, r: map<nat, nat>, id: nat)
    requires i < |ps|
  {
    && (id in r ==> r[id] <= i && id in ps[r[id]] && forall q :: 0 <= q < r[id] && id in ps[q] ==> |ps[q]| < |ps[r[id]]|)
    && (forall q :: 0 <= q < i && id in ps[q] ==> id in r && |ps[r[id]]| >= |ps[q]|)
  }

  predicate EnteredAt(ps: seq<seq<nat>>, i: nat, r: map<nat, nat>, id: nat)
    requires i < |ps|
  {
    id in r && r[id] <= i && |ps[r[id]]| >= |ps[i]|
  }

  /** The first j operations of ps[i] are entered. */
  ghost predicate Entering(ps: seq<seq<nat>>, i: nat, j: nat, r: map<nat, nat>)
    requires i < |ps| && j <= |ps[i]|
  {
    && (forall id :: Best(ps, i, r, id))
    && (forall k :: 0 <= k < j ==> EnteredAt(ps, i, r, ps[i][k]))
  }

  lemma {:induction false} EnterNone(ps: seq<seq<nat>>, i: nat, largest: map<nat, nat>)
    requires i < |ps| && LargestOk(ps, i, largest)
    ensures Entering(ps, i, 0, largest)
  {
  }

  lemma {:induction false} EnterOne(ps: seq<seq<nat>>, i: nat, j: nat, r: map<nat, nat>)
    requires i < |ps| && j < |ps[i]| && Entering(ps, i, j, r)
    ensures ps[i][j] in r ==> r[ps[i][j]] < |ps|
    ensures var histId := ps[i][j];
            Entering(ps, i, j + 1, if histId in r && |ps[r[histId]]| >= |ps[i]| then r else r[histId := i])
  {
    var histId := ps[i][j];
    assert Best(ps, i, r, histId);
    if !EnteredAt(ps, i, r, histId) {
      BestNew(ps, i, r, histId);
      var r' := r[histId := i];
      forall id
        ensures Best(ps, i, r', id)
      {
        assert Best(ps, i, r, id);
      }
      forall k | 0 <= k < j + 1
        ensures EnteredAt(ps, i, r', ps[i][k])
      {
        assert k < j ==> EnteredAt(ps, i, r, ps[i][k]);
      }
    }
  }

  lemma {:induction false} BestNew(ps: seq<seq<nat>>, i: nat, r: map<nat, nat>, id: nat)
    requires i < |ps| && id in ps[i] && Best(ps, i, r, id) && !EnteredAt(ps, i, r, id)
    ensures Best(ps, i, r[id := i], id)
  {
  }

  lemma {:induction false} Entered(ps: seq<seq<nat>>, i: nat, r: map<nat, nat>)
    requires i < |ps| && Entering(ps, i, |ps[i]|, r)
    ensures LargestOk(ps, i + 1, r)
  {
    forall id | id in r
      ensures r[id] < i + 1 && id in ps[r[id]] && forall q :: 0 <= q < r[id] && id in ps[q] ==> |ps[q]| < |ps[r[id]]|
    {
      assert Best(ps, i, r, id);
    }
    forall id, k | 0 <= k < i + 1 && id in ps[k]
      ensures id in r && |ps[r[id]]| >= |ps[k]|
    {
      assert Best(ps, i, r, id);
      if k == i {
        var j :| 0 <= j < |ps[i]| && ps[i][j] == id;
        assert EnteredAt(ps, i, r, ps[i][j]);
      }
    }
  }

  /** All that a search records is a partial linearization, so it can be replayed. */
  lemma {:induction false} RecordsReplay<S, V>(m: Model<S, V>, h: seq<Entry<V>>, longest: seq<Option<seq<nat>>>, partials: seq<seq<nat>>)
    requires WellFormed(h) && |longest| == Ops(h) && Records(m, h, longest)
    requires forall p :: p in partials <==> exists id :: 0 <= id < |longest| && longest[id] == Some(p)
    ensures forall p :: p in partials ==> PartialLinearization(m, h, p)
    ensures forall p, i :: p in partials && 0 <= i < |p| ==> p[i] < Ops(h)
    ensures forall p :: p in partials ==> Accepts(m, h, m.init, p)
  {
  }

  /** After a refusal the report points, for every operation that appears in any partial
      linearization at all, at one of maximal length. */
  lemma {:induction false} LargestIsMaximal<S, V>(m: Model<S, V>, h: seq<Entry<V>>, longest: seq<Option<seq<nat>>>,
                            partials: seq<seq<nat>>, sorted: seq<seq<nat>>, largest: map<nat, nat>)
    requires WellFormed(h) && |longest| == Ops(h) && Records(m, h, longest)
    requires forall p :: p in partials <==> exists id :: 0 <= id < |longest| && longest[id] == Some(p)
    requires multiset(sorted) == multiset(partials) && LargestOk(sorted, |sorted|, largest)
    requires forall p: seq<nat>, id :: PartialLinearization(m, h, p) && id in p ==> id < |longest| && Length(longest[id]) >= |p|
    ensures Maximal(m, h, sorted, largest)
  {
    forall p: seq<nat>, id | PartialLinearization(m, h, p) && id in p
      ensures id in largest && largest[id] < |sorted| && id in sorted[largest[id]] && |sorted[largest[id]]| >= |p|
    {
      assert |p| > 0 && longest[id].Some?;
      var q := longest[id].value;
      assert q in partials && id in q;
      assert q in multiset(sorted);
      var i :| 0 <= i < |sorted| && sorted[i] == q;
      assert id in sorted[i];
    }
  }

  ghost predicate Maximal<S, V>(m: Model<S, V>, h: seq<Entry<V>>, sorted: seq<seq<nat>>, largest: map<nat, nat>)
    requires WellFormed(h)
  {
    forall p: seq<nat>, id :: PartialLinearization(m, h, p) && id in p ==>
      id in largest && largest[id] < |sorted| && id in sorted[largest[id]] && |sorted[largest[id]]| >= |p|
  }

  /** After an acceptance it points at a linearization for every operation. */
  ghost predicate Complete<S, V>(m: Model<S, V>, h: seq<Entry<V>>, sorted: seq<seq<nat>>, largest: map<nat, nat>)
    requires WellFormed(h)
  {
    forall id: nat :: id < Ops(h) ==> id in largest && largest[id] < |sorted| && IsLinearization(m, h, sorted[largest[id]])
  }

  lemma {:induction false} LargestIsComplete<S, V>(m: Model<S, V>, h: seq<Entry<V>>, longest: seq<Option<seq<nat>>>,
                            partials: seq<seq<nat>>, sorted: seq<seq<nat>>, largest: map<nat, nat>)
    requires WellFormed(h) && |longest| == Ops(h)
    requires forall p :: p in partials <==> exists id :: 0 <= id < |longest| && longest[id] == Some(p)
    requires multiset(sorted) == multiset(partials) && LargestOk(sorted, |sorted|, largest)
    requires forall id :: 0 <= id < |longest| ==> longest[id].Some? && IsLinearization(m, h, longest[id].value)
    ensures Complete(m, h, sorted, largest)
  {
    forall id: nat | id < Ops(h)
      ensures id in largest && largest[id] < |sorted| && IsLinearization(m, h, sorted[largest[id]])
    {
      var q := longest[id].value;
      assert IsLinearization(m, h, q);
      FullIds(h, q);
      assert id in Below(Ops(h)) && id in q;
      assert q in multiset(partials);
      var i :| 0 <= i < |sorted| && sorted[i] == q;
      assert id in sorted[i];
      var r := sorted[largest[id]];
      assert r in multiset(sorted) && r in partials;
      var other :| 0 <= other < |longest| && longest[other] == Some(r);
      assert IsLinearization(m, h, longest[other].value);
    }
  }

  /** Search, record and replay (checker.go:277, 314-333, visualization.go:54-79): the
      replay never panics, whether the search accepted, refused or was killed, and the
      report is complete after an acceptance and maximal after a refusal. */
  method CheckAndReport<S(!new), V(!new, 0)>(model: Model<S, V>, history: seq<Entry<V>>, computePartial: bool, kill: nat -> bool)
    returns (ok: bool, panics: bool, sorted: seq<seq<nat>>, states: seq<seq<S>>, largest: map<nat, nat>, ghost killed: bool, ghost turns: nat)
    requires WellFormed(history) && EqualSimulates(model)
    ensures !panics
    ensures forall p :: p in sorted ==> PartialLinearization(model, history, p)
    ensures forall t: nat :: t < turns ==> !kill(t)
    ensures killed ==> !ok && kill(turns)
    ensures !killed ==> turns >= if ok then Ops(history) else 1
    ensures history != [] && kill(0) ==> killed
    ensures !killed ==> (ok <==> Linearizable(model, history))
    ensures !ok && !computePartial ==> sorted == []
    ensures !killed && ok ==> Complete(model, history, sorted, largest)
    ensures !killed && !ok && computePartial ==> Maximal(model, history, sorted, largest)
  {
    hide Accepts, LargestOk, StatesOf, WellFormed, EqualSimulates, Linearizable, IsLinearization, PartialLinearization, Ops;
    var longest;
    ok, longest, killed, turns := Search.CheckSingle(model, history, computePartial, kill);
    var partials := Collect(longest);
    RecordsReplay(model, history, longest, partials);
    panics, sorted, states, largest := Replay(model, history, partials);
    if sorted != [] {
      assert sorted[0] in multiset(sorted);
      assert sorted[0] in partials;
    }
    forall p | p in sorted
      ensures p in partials
    {
      assert p in multiset(sorted);
    }
    if !killed && ok {
      LargestIsComplete(model, history, longest, partials, sorted, largest);
    }
    if !killed && !ok && computePartial {
      LargestIsMaximal(model, history, longest, partials, sorted, largest);
    }
  }
}
