/** Grouping key-sorted records: the one-pass loop of src/mr/worker.go:119-143 and
    the nested scan of src/main/mrsequential.go:68-84. */
module MrGroups {
  import opened KeyOrder

  datatype KeyValue = KeyValue(key: string, value: string)

  datatype Group = Group(key: string, values: seq<string>)

  ghost predicate SortedByKey(s: seq<KeyValue>) {
    forall i, j :: 0 <= i < j < |s| ==> AtMost(s[i].key, s[j].key)
  }

  function Values(s: seq<KeyValue>): seq<string> {
    if s == [] then [] else Values(s[..|s| - 1]) + [s[|s| - 1].value]
  }

  /** Length of the run of equal keys at the front. */
  function RunLength(s: seq<KeyValue>): (n: nat)
    requires s != []
    ensures 0 < n <= |s|
    ensures forall i :: 0 <= i < n ==> s[i].key == s[0].key
    ensures n < |s| ==> s[n].key != s[0].key
  {
    if |s| == 1 || s[1].key != s[0].key then 1
    else
      var n := RunLength(s[1..]);
      assert forall i :: 0 < i < n + 1 ==> s[i] == s[1..][i - 1];
      n + 1
  }

  /** One group per run of equal keys. */
  function Groups(s: seq<KeyValue>): seq<Group>
    decreases |s|
  {
    if s == [] then []
    else
      var n := RunLength(s);
      [Group(s[0].key, Values(s[..n]))] + Groups(s[n..])
  }

  // ---- output ------------------------------------------------------------------------

  type Reducer = (string, seq<string>) -> string

  function Line(key: string, output: string): string {
    key + " " + output + "\n"
  }

  function Lines(reducef: Reducer, gs: seq<Group>): (r: seq<string>)
    ensures |r| == |gs|
  {
    seq(|gs|, i requires 0 <= i < |gs| => Line(gs[i].key, reducef(gs[i].key, gs[i].values)))
  }

  lemma {:induction false} LinesConcat(reducef: Reducer, a: seq<Group>, b: seq<Group>)
    ensures Lines(reducef, a + b) == Lines(reducef, a) + Lines(reducef, b)
  {
  }

  lemma {:induction false} GroupsNone()
    ensures Groups([]) == []
  {
  }

  lemma {:induction false} GroupsFirst(s: seq<KeyValue>)
    requires s != []
    ensures Groups(s) == [Group(s[0].key, Values(s[..RunLength(s)]))] + Groups(s[RunLength(s)..])
  {
  }

  // ---- splitting off a run --------------------------------------------------------------

  /** What a scan has emitted before position k, if a group begins at k. */
  lemma {:induction false} GroupsSplit(s: seq<KeyValue>, k: nat)
    requires k <= |s| && (0 < k < |s| ==> s[k - 1].key != s[k].key)
    ensures Groups(s) == Groups(s[..k]) + Groups(s[k..])
    decreases |s|
  {
    hide Groups, Values, RunLength;
    GroupsNone();
    if k == 0 {
      assert s[..0] == [] && s[0..] == s;
    } else if k == |s| {
      assert s[..k] == s && s[k..] == [];
    } else {
      var n := RunLength(s);
      RunInside(s, k, n);
      GroupsSplit(s[n..], k - n);
      GroupsFirst(s);
      assert s[n..][k - n..] == s[k..];
      FrontRun(s, k, n);
      Reassociate([Group(s[0].key, Values(s[..n]))], Groups(s[n..][..k - n]), Groups(s[k..]));
    }
  }

  lemma {:induction false} Reassociate(a: seq<Group>, b: seq<Group>, c: seq<Group>)
    ensures a + (b + c) == (a + b) + c
  {
  }

  /** The first run of a beginning that ends between two runs. */
  lemma {:induction false} FrontRun(s: seq<KeyValue>, k: nat, n: nat)
    requires s != [] && n == RunLength(s) && n <= k <= |s|
    ensures Groups(s[..k]) == [Group(s[0].key, Values(s[..n]))] + Groups(s[n..][..k - n])
  {
    hide Groups, Values, RunLength;
    var front := s[..k];
    RunUnique(front, n);
    GroupsFirst(front);
    assert front[..n] == s[..n];
    assert front[n..] == s[n..][..k - n];
  }

  lemma {:induction false} RunInside(s: seq<KeyValue>, k: nat, n: nat)
    requires s != [] && 0 < k < |s| && s[k - 1].key != s[k].key && n == RunLength(s)
    ensures n <= k
  {
  }

  lemma {:induction false} RunUnique(s: seq<KeyValue>, n: nat)
    requires s != [] && 0 < n <= |s|
    requires forall i :: 0 <= i < n ==> s[i].key == s[0].key
    requires n < |s| ==> s[n].key != s[0].key
    ensures RunLength(s) == n
  {
  }

  /** A single run is a single group. */
  lemma {:induction false} OneRun(s: seq<KeyValue>)
    requires s != [] && forall i :: 0 <= i < |s| ==> s[i].key == s[0].key
    ensures Groups(s) == [Group(s[0].key, Values(s))]
  {
    RunUnique(s, |s|);
    assert s[..|s|] == s && s[|s|..] == [];
  }

  /** The records of a list of groups, one per value. */
  function Ungroup(gs: seq<Group>): seq<KeyValue> {
    if gs == [] then [] else UngroupOne(gs[0]) + Ungroup(gs[1..])
  }

  function UngroupOne(g: Group): seq<KeyValue> {
    seq(|g.values|, i requires 0 <= i < |g.values| => KeyValue(g.key, g.values[i]))
  }

  lemma {:induction false} ValuesAt(s: seq<KeyValue>)
    ensures |Values(s)| == |s| && forall i :: 0 <= i < |s| ==> Values(s)[i] == s[i].value
  {
    if s != [] {
      ValuesAt(s[..|s| - 1]);
    }
  }

  lemma {:induction false} UngroupRun(s: seq<KeyValue>, n: nat)
    requires s != [] && n == RunLength(s)
    ensures UngroupOne(Group(s[0].key, Values(s[..n]))) == s[..n]
  {
    ValuesAt(s[..n]);
  }

  lemma {:induction false} UngroupFirst(g: Group, gs: seq<Group>)
    ensures Ungroup([g] + gs) == UngroupOne(g) + Ungroup(gs)
  {
    assert ([g] + gs)[1..] == gs;
  }

  /** Grouping loses and reorders nothing. */
  lemma {:induction false} UngroupGroups(s: seq<KeyValue>)
    ensures Ungroup(Groups(s)) == s
    decreases |s|
  {
    if s != [] {
      UngroupGroups(s[RunLength(s)..]);
      UngroupStep(s);
    }
  }

  lemma {:induction false} UngroupStep(s: seq<KeyValue>)
    requires s != [] && Ungroup(Groups(s[RunLength(s)..])) == s[RunLength(s)..]
    ensures Ungroup(Groups(s)) == s
  {
    hide Groups, Ungroup, UngroupOne, Values;
    var n := RunLength(s);
    GroupsFirst(s);
    UngroupRun(s, n);
    UngroupFirst(Group(s[0].key, Values(s[..n])), Groups(s[n..]));
    assert s == s[..n] + s[n..];
  }

  // ---- the loops -------------------------------------------------------------------------

  method CollectValues(kvs: seq<KeyValue>, from: nat, to: nat) returns (values: seq<string>)
    requires from <= to <= |kvs|
    ensures values == Values(kvs[from..to])
  {
    values := [];
    for j := from to to
      invariant values == Values(kvs[from..j])
    {
      values := values + [kvs[j].value];
      assert kvs[from..j + 1][..j - from] == kvs[from..j];
    }
  }

  /** worker.go:119-143 on the sorted, non-empty box. */
  method ReduceOnePass(reducef: Reducer, kvbox: seq<KeyValue>) returns (out: seq<string>)
    requires kvbox != []
    ensures out == Lines(reducef, Groups(kvbox))
  {
    hide Groups, Values, Line;
    GroupsNone();
    out := [];
    var k := 0;
    for i := 0 to |kvbox|
      invariant 0 <= k <= i && (i > 0 ==> k < i)
      invariant 0 < k ==> kvbox[k - 1].key != kvbox[k].key
      invariant forall j :: k <= j < i ==> kvbox[j].key == kvbox[k].key
      invariant out == Lines(reducef, Groups(kvbox[..k]))
    {
      if kvbox[i].key != kvbox[k].key {
        var values := CollectValues(kvbox, k, i);
        var output := reducef(kvbox[k].key, values);
        out := out + [Line(kvbox[k].key, output)];
        EmitRun(reducef, kvbox, k, i);
        k := i;
      }
    }
    var values := CollectValues(kvbox, k, |kvbox|);
    var output := reducef(kvbox[k].key, values);
    out := out + [Line(kvbox[k].key, output)];
    EmitRun(reducef, kvbox, k, |kvbox|);
    assert kvbox[..|kvbox|] == kvbox;
  }

  lemma {:induction false} EmitRun(reducef: Reducer, kvs: seq<KeyValue>, k: nat, i: nat)
    requires k < i <= |kvs| && (0 < k ==> kvs[k - 1].key != kvs[k].key)
    requires forall j :: k <= j < i ==> kvs[j].key == kvs[k].key
    ensures Lines(reducef, Groups(kvs[..i])) ==
            Lines(reducef, Groups(kvs[..k])) + [Line(kvs[k].key, reducef(kvs[k].key, Values(kvs[k..i])))]
  {
    hide Groups, Values, Lines, Line, RunLength;
    var front := kvs[..i];
    GroupsSplit(front, k);
    assert front[..k] == kvs[..k] && front[k..] == kvs[k..i];
    OneRun(kvs[k..i]);
    LinesConcat(reducef, Groups(kvs[..k]), Groups(kvs[k..i]));
    LinesOfOne(reducef, Group(kvs[k].key, Values(kvs[k..i])));
  }

  lemma {:induction false} LinesOfOne(reducef: Reducer, g: Group)
    ensures Lines(reducef, [g]) == [Line(g.key, reducef(g.key, g.values))]
  {
  }

  /** mrsequential.go:68-84. */
  method ReduceNested(reducef: Reducer, intermediate: seq<KeyValue>) returns (out: seq<string>)
    ensures out == Lines(reducef, Groups(intermediate))
  {
    hide Groups, Values, Line;
    GroupsNone();
    out := [];
    var i := 0;
    while i < |intermediate|
      invariant 0 <= i <= |intermediate|
      invariant 0 < i < |intermediate| ==> intermediate[i - 1].key != intermediate[i].key
      invariant out == Lines(reducef, Groups(intermediate[..i]))
    {
      var j := i + 1;
      while j < |intermediate| && intermediate[j].key == intermediate[i].key
        invariant i < j <= |intermediate|
        invariant forall k :: i <= k < j ==> intermediate[k].key == intermediate[i].key
      {
        j := j + 1;
      }
      var values := CollectValues(intermediate, i, j);
      var output := reducef(intermediate[i].key, values);
      out := out + [Line(intermediate[i].key, output)];
      EmitRun(reducef, intermediate, i, j);
      i := j;
    }
    assert intermediate[..|intermediate|] == intermediate;
  }
}
