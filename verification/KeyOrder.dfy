/** The order of Go strings, and the sorting of keys by it. */
module KeyOrder {

  /** a < b: the first difference decides, a proper prefix comes first. */
  predicate Less(a: string, b: string) {
    if b == [] then false
    else if a == [] then true
    else if a[0] != b[0] then a[0] < b[0]
    else Less(a[1..], b[1..])
  }

  predicate AtMost(a: string, b: string) {
    !Less(b, a)
  }

  /** Position k is the first at which the strings differ, and a has the smaller character. */
  predicate FirstSmaller(a: string, b: string, k: nat) {
    k < |a| && k < |b| && a[..k] == b[..k] && a[k] < b[k]
  }

  lemma {:induction false} FirstSmallerTail(a: string, b: string, k: nat)
    requires a != [] && b != [] && a[0] == b[0]
    ensures FirstSmaller(a, b, k + 1) <==> FirstSmaller(a[1..], b[1..], k)
    ensures !FirstSmaller(a, b, 0)
  {
    var c, d := a[1..], b[1..];
    if k < |c| && k < |d| {
      assert a[..k + 1] == [a[0]] + c[..k];
      assert b[..k + 1] == [b[0]] + d[..k];
      assert c[..k] == a[..k + 1][1..] && d[..k] == b[..k + 1][1..];
    }
  }

  lemma {:induction false} PrefixTail(a: string, b: string)
    requires a != [] && b != [] && a[0] == b[0]
    ensures a < b <==> a[1..] < b[1..]
  {
    assert a == [a[0]] + a[1..] && b == [b[0]] + b[1..];
  }

  lemma {:induction false} FirstSmallerHead(a: string, b: string, k: nat)
    requires FirstSmaller(a, b, k) && k > 0
    ensures a[0] == b[0]
  {
    assert a[..k][0] == b[..k][0];
  }

  /** The order of strings, said without recursion: a proper prefix, or the smaller
      character at the first difference. */
  lemma {:induction false} LessMeaning(a: string, b: string)
    ensures Less(a, b) <==> a < b || exists k: nat :: FirstSmaller(a, b, k)
  {
    if a != [] && b != [] && a[0] == b[0] {
      hide FirstSmaller;
      LessMeaning(a[1..], b[1..]);
      PrefixTail(a, b);
      if k: nat :| FirstSmaller(a, b, k) {
        FirstSmallerTail(a, b, if k == 0 then 0 else k - 1);
        assert FirstSmaller(a[1..], b[1..], k - 1);
      }
      if k: nat :| FirstSmaller(a[1..], b[1..], k) {
        FirstSmallerTail(a, b, k);
        assert FirstSmaller(a, b, k + 1);
      }
    } else if a != [] && b != [] {
      if a[0] < b[0] {
        assert FirstSmaller(a, b, 0);
      }
      forall k: nat | FirstSmaller(a, b, k)
        ensures a[0] < b[0]
      {
        if k > 0 {
          FirstSmallerHead(a, b, k);
        }
      }
    }
  }

  lemma {:induction false} LessIrreflexive(a: string)
    ensures !Less(a, a)
  {
    if a != [] {
      LessIrreflexive(a[1..]);
    }
  }

  lemma {:induction false} LessTransitive(a: string, b: string, c: string)
    requires Less(a, b) && Less(b, c)
    ensures Less(a, c)
  {
    if a != [] && a[0] == b[0] == c[0] {
      LessTransitive(a[1..], b[1..], c[1..]);
    }
  }

  lemma {:induction false} LessTotal(a: string, b: string)
    requires a != b
    ensures Less(a, b) || Less(b, a)
  {
    if a != [] && b != [] && a[0] == b[0] {
      assert a == [a[0]] + a[1..] && b == [b[0]] + b[1..];
      LessTotal(a[1..], b[1..]);
    }
  }

  lemma {:induction false} AtMostTransitive(a: string, b: string, c: string)
    requires AtMost(a, b) && AtMost(b, c)
    ensures AtMost(a, c)
  {
    if Less(c, a) {
      if a == b || b == c {
      } else {
        LessTotal(a, b);
        LessTotal(b, c);
        LessTransitive(a, b, c);
        LessTransitive(a, c, a);
        LessIrreflexive(a);
      }
    }
  }

  ghost predicate Ascending(keys: seq<string>) {
    forall i, j :: 0 <= i < j < |keys| ==> Less(keys[i], keys[j])
  }

  /** Distinct keys in ascending order, as `sort.Strings` gives them. */
  method SortKeys(keys: set<string>) returns (r: seq<string>)
    ensures Ascending(r)
    ensures forall k :: k in r <==> k in keys
  {
    r := [];
    var left := keys;
    while left != {}
      invariant left <= keys && Ascending(r)
      invariant forall k :: k in r <==> k in keys - left
      decreases left
    {
      var k :| k in left;
      left := left - {k};
      r := InsertKey(r, k);
    }
  }

  method InsertKey(keys: seq<string>, k: string) returns (r: seq<string>)
    requires Ascending(keys) && k !in keys
    ensures Ascending(r)
    ensures forall x :: x in r <==> x == k || x in keys
  {
    var i := 0;
    while i < |keys| && Less(keys[i], k)
      invariant 0 <= i <= |keys|
      invariant forall j :: 0 <= j < i ==> Less(keys[j], k)
    {
      i := i + 1;
    }
    r := keys[..i] + [k] + keys[i..];
    InsertedMembers(keys, k, i);
    InsertedAscending(keys, k, i);
  }

  lemma {:induction false} InsertedMembers(keys: seq<string>, k: string, i: nat)
    requires i <= |keys|
    ensures forall x :: x in keys[..i] + [k] + keys[i..] <==> x == k || x in keys
  {
    assert keys == keys[..i] + keys[i..];
  }

  lemma {:induction false} InsertedAscending(keys: seq<string>, k: string, i: nat)
    requires Ascending(keys) && k !in keys && i <= |keys|
    requires forall j :: 0 <= j < i ==> Less(keys[j], k)
    requires i < |keys| ==> !Less(keys[i], k)
    ensures Ascending(keys[..i] + [k] + keys[i..])
  {
    var r := keys[..i] + [k] + keys[i..];
    forall a, b | 0 <= a < b < |r|
      ensures Less(r[a], r[b])
    {
      assert a != i ==> r[a] == keys[if a < i then a else a - 1];
      assert b != i ==> r[b] == keys[if b < i then b else b - 1];
      if a == i {
        LessTotal(k, keys[i]);
        if b > i + 1 {
          LessTransitive(k, keys[i], keys[b - 1]);
        }
      } 
    }
  }
}
