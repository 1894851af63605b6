/** From events to entries (src/porcupine/model.go:13-25,
    src/porcupine/checker.go:87-114): ids are renumbered in order of first
    appearance, positions serve as times. */
module Events {
  import opened Linearizability

  datatype Event<V> = Event(clientId: int, kind: Kind, value: V, id: int)

  /** Every id has exactly one call and, later, exactly one return. */
  ghost predicate Paired<V>(events: seq<Event<V>>) {
    && (forall i, j :: 0 <= i < j < |events| && events[i].id == events[j].id ==>
          events[i].kind == Call && events[j].kind == Return)
    && (forall i :: 0 <= i < |events| ==> HasPartner(events, i))
  }

  ghost predicate HasPartner<V>(events: seq<Event<V>>, i: nat)
    requires i < |events|
  {
    exists j :: 0 <= j < |events| && j != i && events[j].id == events[i].id
  }

  /** e is events with its ids renamed one to one onto 0 .. n-1. */
  ghost predicate Renamed<V>(events: seq<Event<V>>, e: seq<Event<V>>, n: nat) {
    && |e| == |events|
    && (forall i :: 0 <= i < |e| ==>
          e[i].clientId == events[i].clientId && e[i].kind == events[i].kind && e[i].value == events[i].value)
    && (forall i, j :: 0 <= i < |e| && 0 <= j < |e| ==> (e[i].id == e[j].id <==> events[i].id == events[j].id))
    && (forall i :: 0 <= i < |e| ==> 0 <= e[i].id < n)
    && (forall id: nat :: id < n ==> Occurs(e, id))
  }

  ghost predicate Occurs<V>(e: seq<Event<V>>, id: nat) {
    exists i :: 0 <= i < |e| && e[i].id == id
  }

  /** Ids are given in the order in which they first occur: every smaller id has
      occurred before. */
  ghost predicate InOrder<V>(e: seq<Event<V>>) {
    forall i, id: nat :: 0 <= i < |e| && id < e[i].id ==> Occurs(e[..i], id)
  }

  method Renumber<V>(events: seq<Event<V>>) returns (e: seq<Event<V>>)
    ensures exists n: nat :: Renamed(events, e, n)
    ensures InOrder(e)
  {
    e := [];
    var m: map<int, int> := map[];
    var id: nat := 0;
    for i := 0 to |events|
      invariant |e| == i
      invariant forall k :: 0 <= k < i ==>
                  e[k].clientId == events[k].clientId && e[k].kind == events[k].kind && e[k].value == events[k].value
      invariant forall k :: 0 <= k < i ==> events[k].id in m && m[events[k].id] == e[k].id
      invariant forall x :: x in m ==> 0 <= m[x] < id
      invariant forall x, y :: x in m && y in m && m[x] == m[y] ==> x == y
      invariant forall r: nat :: r < id ==> Occurs(e, r)
      invariant InOrder(e)
    {
      var v := events[i];
      ghost var e0, id0 := e, id;
      if v.id in m {
        e := e + [Event(v.clientId, v.kind, v.value, m[v.id])];
      } else {
        e := e + [Event(v.clientId, v.kind, v.value, id)];
        m := m[v.id := id];
        id := id + 1;
      }
      forall r: nat | r < id
        ensures Occurs(e, r)
      {
        if r < id0 {
          assert Occurs(e0, r);
          var k :| 0 <= k < i && e0[k].id == r;
          assert e[k].id == r;
        } else {
          assert e[i].id == r;
        }
      }
      InOrderSnoc(e0, e);
    }
    assert Renamed(events, e, id);
  }

  lemma {:induction false} InOrderSnoc<V>(before: seq<Event<V>>, e: seq<Event<V>>)
    requires InOrder(before) && |e| == |before| + 1 && e[..|before|] == before
    requires forall id: nat :: id < e[|before|].id ==> Occurs(before, id)
    ensures InOrder(e)
  {
    forall i, id: nat | 0 <= i < |e| && id < e[i].id
      ensures Occurs(e[..i], id)
    {
      if i < |before| {
        assert e[i] == before[i] && e[..i] == before[..i];
      }
    }
  }

  method ConvertEntries<V>(events: seq<Event<V>>) returns (entries: seq<Entry<V>>)
    requires forall i :: 0 <= i < |events| ==> events[i].id >= 0
    ensures EntriesFrom(events, entries)
  {
    entries := [];
    for i := 0 to |events|
      invariant |entries| == i
      invariant forall k :: 0 <= k < i ==> entries[k] == EntryOf(events, k)
    {
      var elem := events[i];
      entries := entries + [Entry(if elem.kind == Return then Return else Call, elem.value, elem.id, i, elem.clientId)];
    }
  }

  function EntryOf<V>(events: seq<Event<V>>, k: nat): Entry<V>
    requires k < |events| && events[k].id >= 0
  {
    Entry(events[k].kind, events[k].value, events[k].id, k, events[k].clientId)
  }

  ghost predicate EntriesFrom<V>(events: seq<Event<V>>, entries: seq<Entry<V>>) {
    && |entries| == |events|
    && forall k :: 0 <= k < |events| ==> events[k].id >= 0 && entries[k] == EntryOf(events, k)
  }

  // ---- the result is what the search needs ------------------------------------------

  lemma {:induction false} RenamedPaired<V>(events: seq<Event<V>>, e: seq<Event<V>>, n: nat)
    requires Renamed(events, e, n) && Paired(events)
    ensures Paired(e)
  {
    forall i | 0 <= i < |e|
      ensures HasPartner(e, i)
    {
      assert HasPartner(events, i);
      var j :| 0 <= j < |events| && j != i && events[j].id == events[i].id;
      assert e[j].id == e[i].id;
    }
  }

  lemma {:induction false} EntryUnique<V>(e: seq<Event<V>>, es: seq<Entry<V>>, k: nat)
    requires Paired(e) && EntriesFrom(e, es) && k < |es|
    ensures Find(es, es[k].kind, es[k].id) == k
  {
    var j := Find(es, es[k].kind, es[k].id);
    assert es[j] == EntryOf(e, j) && es[k] == EntryOf(e, k);
  }

  lemma {:induction false} OpPaired<V>(e: seq<Event<V>>, es: seq<Entry<V>>, id: nat, i: nat)
    requires Paired(e) && EntriesFrom(e, es) && i < |e| && e[i].id == id
    ensures OpOk(es, id)
  {
    assert HasPartner(e, i);
    var j :| 0 <= j < |e| && j != i && e[j].id == e[i].id;
    EntryUnique(e, es, i);
    EntryUnique(e, es, j);
    assert es[i] == EntryOf(e, i) && es[j] == EntryOf(e, j);
  }

  /** A number for each entry: its id and its kind. */
  ghost function Code<V>(e: Event<V>): int {
    2 * e.id + if e.kind == Call then 0 else 1
  }

  ghost function Codes<V>(e: seq<Event<V>>): (c: seq<nat>)
    requires forall i :: 0 <= i < |e| ==> e[i].id >= 0
    ensures |c| == |e| && forall i :: 0 <= i < |e| ==> c[i] == Code(e[i])
  {
    seq(|e|, i requires 0 <= i < |e| => Code(e[i]))
  }

  lemma {:induction false} CodeOccurs<V>(e: seq<Event<V>>, n: nat, c: nat)
    requires Paired(e) && c < 2 * n
    requires forall id: nat :: id < n ==> Occurs(e, id)
    ensures exists i :: 0 <= i < |e| && Code(e[i]) == c
  {
    assert Occurs(e, c / 2);
    var i: nat :| i < |e| && e[i].id == c / 2;
    assert HasPartner(e, i);
    var j :| 0 <= j < |e| && j != i && e[j].id == e[i].id;
    assert Code(e[i]) == c || Code(e[j]) == c;
  }

  /** n ids, each with two events, make 2n events. */
  lemma {:induction false} CountEvents<V>(e: seq<Event<V>>, n: nat)
    requires Paired(e)
    requires forall i :: 0 <= i < |e| ==> 0 <= e[i].id < n
    requires forall id: nat :: id < n ==> Occurs(e, id)
    ensures |e| == 2 * n
  {
    var codes := Codes(e);
    forall c | c in Below(2 * n)
      ensures c in Elements(codes)
    {
      CodeOccurs(e, n, c);
      var i :| 0 <= i < |e| && Code(e[i]) == c;
      assert codes[i] == c;
    }
    forall i, j | 0 <= i < j < |codes|
      ensures codes[i] != codes[j]
    {
      assert codes[i] == Code(e[i]) && codes[j] == Code(e[j]);
    }
    assert Elements(codes) == Below(2 * n);
    DistinctSize(codes);
    BelowSize(2 * n);
  }

  /** The entries of a paired event history are a well-formed history. */
  lemma {:induction false} EventsWellFormed<V>(events: seq<Event<V>>, e: seq<Event<V>>, n: nat, es: seq<Entry<V>>)
    requires Paired(events) && Renamed(events, e, n) && EntriesFrom(e, es)
    ensures WellFormed(es) && Ops(es) == n
  {
    RenamedPaired(events, e, n);
    CountEvents(e, n);
    forall id: nat | id < n
      ensures OpOk(es, id)
    {
      assert Occurs(e, id);
      var i: nat :| i < |e| && e[i].id == id;
      OpPaired(e, es, id, i);
    }
    forall k | 0 <= k < |es|
      ensures EntryOk(es, k)
    {
      assert es[k] == EntryOf(e, k);
      EntryUnique(e, es, k);
    }
  }
}
