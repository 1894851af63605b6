/** Reducing bucket by bucket gives the same lines as reducing everything at once:
    the heart of the claim that src/mr does what src/main/mrsequential.go does. */
module MrOutput {
  import opened KeyOrder
  import opened MrGroups
  import opened Collections

  // ---- the values of a key ------------------------------------------------------------

  function ValuesFor(s: seq<KeyValue>, k: string): seq<string> {
    if s == [] then []
    else
      var n := |s| - 1;
      ValuesFor(s[..n], k) + if s[n].key == k then [s[n].value] else []
  }

  lemma {:induction false} ValuesForAppend(a: seq<KeyValue>, b: seq<KeyValue>, k: string)
    ensures ValuesFor(a + b, k) == ValuesFor(a, k) + ValuesFor(b, k)
    decreases |b|
  {
    if b == [] {
      assert a + b == a;
    } else {
      var n := |b| - 1;
      ValuesForAppend(a, b[..n], k);
      assert (a + b)[..|a| + n] == a + b[..n];
    }
  }

  lemma {:induction false} ValuesForCount(s: seq<KeyValue>, k: string, v: string)
    ensures multiset(ValuesFor(s, k))[v] == multiset(s)[KeyValue(k, v)]
  {
    if s != [] {
      var n := |s| - 1;
      ValuesForCount(s[..n], k, v);
      CountSnoc(s, KeyValue(k, v));
      CountAppend(ValuesFor(s[..n], k), if s[n].key == k then [s[n].value] else [], v);
    }
  }

  /** The values of a key depend, up to order, on the records up to order. */
  lemma {:induction false} ValuesForMultiset(a: seq<KeyValue>, b: seq<KeyValue>, k: string)
    requires multiset(a) == multiset(b)
    ensures multiset(ValuesFor(a, k)) == multiset(ValuesFor(b, k))
  {
    var p, q := multiset(ValuesFor(a, k)), multiset(ValuesFor(b, k));
    forall v: string
      ensures p[v] == q[v]
    {
      ValuesForCount(a, k, v);
      ValuesForCount(b, k, v);
    }
    assert p == q;
  }

  ghost predicate HasKey(s: seq<KeyValue>, k: string) {
    exists i :: 0 <= i < |s| && s[i].key == k
  }

  lemma {:induction false} ValuesOfRun(s: seq<KeyValue>, k: string)
    requires forall i :: 0 <= i < |s| ==> s[i].key == k
    ensures ValuesFor(s, k) == Values(s)
  {
    if s != [] {
      ValuesOfRun(s[..|s| - 1], k);
    }
  }

  lemma {:induction false} ValuesOfAbsent(s: seq<KeyValue>, k: string)
    requires !HasKey(s, k)
    ensures ValuesFor(s, k) == []
  {
    if s != [] {
      var n := |s| - 1;
      assert s[n].key != k;
      assert forall i :: 0 <= i < n ==> s[..n][i] == s[i];
      ValuesOfAbsent(s[..n], k);
    }
  }

  // ---- groups of a sorted list ------------------------------------------------------------

  function KeysOf(gs: seq<Group>): (ks: seq<string>)
    ensures |ks| == |gs| && forall i :: 0 <= i < |gs| ==> ks[i] == gs[i].key
  {
    seq(|gs|, i requires 0 <= i < |gs| => gs[i].key)
  }

  /** One group per key that occurs, in key order, with all values of the key. */
  ghost predicate GroupsOf(s: seq<KeyValue>, gs: seq<Group>) {
    && Ascending(KeysOf(gs))
    && (forall i :: 0 <= i < |gs| ==> gs[i].values == ValuesFor(s, gs[i].key) && HasKey(s, gs[i].key))
    && (forall i :: 0 <= i < |s| ==> s[i].key in KeysOf(gs))
  }

  lemma {:induction false} SortedGroups(s: seq<KeyValue>)
    requires SortedByKey(s)
    ensures GroupsOf(s, Groups(s))
    decreases |s|
  {
    if s != [] {
      var n := RunLength(s);
      var rest := s[n..];
      SortedRest(s, n);
      SortedGroups(rest);
      RestAbove(s, n);
      PrependGroup(s, n, Groups(rest));
      hide GroupsOf, SortedByKey, RunLength, Values;
    }
  }

  lemma {:induction false} SortedRest(s: seq<KeyValue>, n: nat)
    requires SortedByKey(s) && n <= |s|
    ensures SortedByKey(s[n..])
  {
    var rest := s[n..];
    forall i, j | 0 <= i < j < |rest|
      ensures AtMost(rest[i].key, rest[j].key)
    {
      assert rest[i] == s[i + n] && rest[j] == s[j + n];
    }
  }

  /** Behind the first run all keys are greater. */
  lemma {:induction false} RestAbove(s: seq<KeyValue>, n: nat)
    requires s != [] && SortedByKey(s) && n == RunLength(s)
    ensures forall i :: n <= i < |s| ==> Less(s[0].key, s[i].key)
  {
    forall i | n <= i < |s|
      ensures Less(s[0].key, s[i].key)
    {
      assert AtMost(s[0].key, s[n].key);
      LessTotal(s[0].key, s[n].key);
      if i > n {
        assert AtMost(s[n].key, s[i].key);
        if s[n].key != s[i].key {
          LessTotal(s[n].key, s[i].key);
          LessTransitive(s[0].key, s[n].key, s[i].key);
        }
      }
    }
  }

  lemma {:induction false} PrependGroup(s: seq<KeyValue>, n: nat, gs: seq<Group>)
    requires s != [] && n == RunLength(s) && GroupsOf(s[n..], gs)
    requires forall i :: n <= i < |s| ==> Less(s[0].key, s[i].key)
    ensures GroupsOf(s, [Group(s[0].key, Values(s[..n]))] + gs)
  {
    hide Values, ValuesFor, HasKey, RunLength, Less;
    var all := [Group(s[0].key, Values(s[..n]))] + gs;
    FirstGroup(s, n);
    forall i | 0 <= i < |all|
      ensures all[i].values == ValuesFor(s, all[i].key) && HasKey(s, all[i].key)
      ensures i > 0 ==> Less(s[0].key, all[i].key)
    {
      if i > 0 {
        LaterGroup(s, n, gs, i - 1);
      }
    }
    PrependKeys(s, n, gs, all);
  }

  lemma {:induction false} FirstGroup(s: seq<KeyValue>, n: nat)
    requires s != [] && n == RunLength(s)
    requires forall i :: n <= i < |s| ==> Less(s[0].key, s[i].key)
    ensures Values(s[..n]) == ValuesFor(s, s[0].key) && HasKey(s, s[0].key)
  {
    var first, rest, k := s[..n], s[n..], s[0].key;
    assert s == first + rest;
    assert !HasKey(rest, k) by {
      LessIrreflexive(k);
    }
    ValuesForAppend(first, rest, k);
    ValuesOfRun(first, k);
    ValuesOfAbsent(rest, k);
  }

  lemma {:induction false} PrependKeys(s: seq<KeyValue>, n: nat, gs: seq<Group>, all: seq<Group>)
    requires s != [] && n == RunLength(s) && |all| == |gs| + 1 && all[0].key == s[0].key && all[1..] == gs
    requires Ascending(KeysOf(gs)) && forall i :: 0 <= i < |s[n..]| ==> s[n..][i].key in KeysOf(gs)
    requires forall i :: 0 < i < |all| ==> Less(s[0].key, all[i].key)
    ensures Ascending(KeysOf(all)) && forall i :: 0 <= i < |s| ==> s[i].key in KeysOf(all)
  {
    assert KeysOf(all) == [s[0].key] + KeysOf(gs);
    forall i | 0 <= i < |s|
      ensures s[i].key in KeysOf(all)
    {
      if i >= n {
        assert s[n..][i - n].key in KeysOf(gs);
      }
    }
  }

  lemma {:induction false} LaterGroup(s: seq<KeyValue>, n: nat, gs: seq<Group>, i: nat)
    requires s != [] && n == RunLength(s) && GroupsOf(s[n..], gs) && i < |gs|
    requires forall j :: n <= j < |s| ==> Less(s[0].key, s[j].key)
    ensures gs[i].values == ValuesFor(s, gs[i].key) && HasKey(s, gs[i].key) && Less(s[0].key, gs[i].key)
  {
    var first, rest, k := s[..n], s[n..], gs[i].key;
    assert s == first + rest;
    assert HasKey(rest, k);
    var j :| 0 <= j < |rest| && rest[j].key == k;
    assert s[j + n].key == k;
    LessIrreflexive(k);
    assert !HasKey(first, k);
    ValuesForAppend(first, rest, k);
    ValuesOfAbsent(first, k);
  }

  // ---- lists of distinct keys -------------------------------------------------------------

  lemma {:induction false} AscendingDistinct(ks: seq<string>)
    requires Ascending(ks)
    ensures Distinct(ks)
  {
    forall i, j | 0 <= i < j < |ks|
      ensures ks[i] != ks[j]
    {
      LessIrreflexive(ks[i]);
    }
  }

  function Apply(f: string -> string, ks: seq<string>): (r: seq<string>)
    ensures |r| == |ks| && forall i :: 0 <= i < |ks| ==> r[i] == f(ks[i])
  {
    seq(|ks|, i requires 0 <= i < |ks| => f(ks[i]))
  }

  lemma {:induction false} ApplyMultiset(f: string -> string, a: seq<string>, b: seq<string>)
    requires multiset(a) == multiset(b)
    ensures multiset(Apply(f, a)) == multiset(Apply(f, b))
    decreases |a|
  {
    assert |multiset(a)| == |a| && |multiset(b)| == |b|;
    if a != [] {
      var n := |a| - 1;
      assert a[n] in multiset(b);
      var k: nat :| k < |b| && b[k] == a[n];
      var b' := b[..k] + b[k + 1..];
      RemoveOne(a, n);
      RemoveOne(b, k);
      assert a[..n] + a[n + 1..] == a[..n];
      assert multiset(a[..n]) == multiset(a) - multiset{a[n]};
      ApplyMultiset(f, a[..n], b');
      ApplyDrop(f, a, n);
      ApplyDrop(f, b, k);
    }
  }

  lemma {:induction false} ApplyDrop(f: string -> string, s: seq<string>, k: nat)
    requires k < |s|
    ensures multiset(Apply(f, s)) == multiset(Apply(f, s[..k] + s[k + 1..])) + multiset{f(s[k])}
  {
    RemoveOne(Apply(f, s), k);
    assert Apply(f, s[..k] + s[k + 1..]) == Apply(f, s)[..k] + Apply(f, s)[k + 1..];
  }
}
