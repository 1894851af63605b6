/** The invariant of the backtracking search, on values: `path` is the sequence
    of operations on the undo stack, `cur` the scan position (one more than the
    index into the history, so that 0 is the sentinel), `seen` the memoised
    configurations.  Every lemma here is one branch of the loop at
    src/porcupine/checker.go:185-238. */
module SearchInvariant {
  import opened Collections
  import opened Linearizability
  import opened Exploration

  datatype Config<S> = Config(done: set<nat>, state: S)

  ghost function ConfigAt<S, V>(m: Model<S, V>, h: seq<Entry<V>>, path: seq<nat>, k: nat): Config<S>
    requires WellFormed(h) && ValidIds(h, path) && k <= |path|
  {
    Config(Elements(path[..k]), StateAfter(m, h, m.init, path[..k]))
  }

  ghost function Here<S, V>(m: Model<S, V>, h: seq<Entry<V>>, path: seq<nat>): Config<S>
    requires WellFormed(h) && ValidIds(h, path)
  {
    Config(Elements(path), StateAfter(m, h, m.init, path))
  }

  ghost predicate OnStack<S, V>(m: Model<S, V>, h: seq<Entry<V>>, path: seq<nat>, c: Config<S>)
    requires WellFormed(h) && ValidIds(h, path)
  {
    exists k :: 0 < k <= |path| && c == ConfigAt(m, h, path, k)
  }

  ghost predicate Closed<S, V>(m: Model<S, V>, h: seq<Entry<V>>, partial: bool,
                               longest: seq<Option<seq<nat>>>, c: Config<S>)
    requires WellFormed(h) && |longest| == Ops(h)
  {
    Exhausted(m, h, partial, longest, c.done, c.state)
  }

  ghost predicate TriedFrom<S, V>(m: Model<S, V>, h: seq<Entry<V>>, partial: bool,
                                  longest: seq<Option<seq<nat>>>, c: Config<S>, x: nat)
    requires WellFormed(h) && |longest| == Ops(h) && x < Ops(h)
  {
    Tried(m, h, partial, longest, c.done, c.state, x)
  }

  /** Each record is a partial linearization that contains its operation. */
  ghost predicate Records<S, V>(m: Model<S, V>, h: seq<Entry<V>>, longest: seq<Option<seq<nat>>>)
    requires WellFormed(h)
  {
    forall id: nat :: id < |longest| && longest[id].Some? ==>
      PartialLinearization(m, h, longest[id].value) && id in longest[id].value
  }

  ghost predicate SeenOk<S, V>(m: Model<S, V>, h: seq<Entry<V>>, partial: bool,
                               longest: seq<Option<seq<nat>>>, seen: set<Config<S>>, path: seq<nat>)
    requires WellFormed(h) && |longest| == Ops(h) && ValidIds(h, path)
  {
    forall c :: c in seen ==> OnStack(m, h, path, c) || Closed(m, h, partial, longest, c)
  }

  ghost predicate LevelsOk<S, V>(m: Model<S, V>, h: seq<Entry<V>>, partial: bool,
                                 longest: seq<Option<seq<nat>>>, path: seq<nat>)
    requires WellFormed(h) && |longest| == Ops(h) && ValidIds(h, path)
  {
    forall k, x: nat :: 0 <= k < |path| && x < Ops(h) && CallAt(h, x) < CallAt(h, path[k]) ==>
      TriedFrom(m, h, partial, longest, ConfigAt(m, h, path, k), x)
  }

  ghost predicate ScanOk<S, V>(m: Model<S, V>, h: seq<Entry<V>>, partial: bool,
                               longest: seq<Option<seq<nat>>>, path: seq<nat>, cur: nat)
    requires WellFormed(h) && |longest| == Ops(h) && ValidIds(h, path)
  {
    forall x: nat :: x < Ops(h) && CallAt(h, x) + 1 < cur ==>
      TriedFrom(m, h, partial, longest, Here(m, h, path), x)
  }

  ghost predicate SearchInv<S, V>(m: Model<S, V>, h: seq<Entry<V>>, partial: bool,
                                  longest: seq<Option<seq<nat>>>, seen: set<Config<S>>, path: seq<nat>, cur: nat)
    requires WellFormed(h)
  {
    && |longest| == Ops(h)
    && ValidIds(h, path)
    && Extends(m, h, {}, m.init, path)
    && Records(m, h, longest)
    && SeenOk(m, h, partial, longest, seen, path)
    && LevelsOk(m, h, partial, longest, path)
    && ScanOk(m, h, partial, longest, path, cur)
  }

  lemma {:induction false} SearchStarts<S, V>(m: Model<S, V>, h: seq<Entry<V>>, partial: bool, longest: seq<Option<seq<nat>>>)
    requires WellFormed(h) && |longest| == Ops(h)
    requires forall id :: 0 <= id < |longest| ==> longest[id].None?
    ensures SearchInv(m, h, partial, longest, {}, [], 1)
  {
  }

  /** Everything strictly between two neighbours of the current list is gone. */
  ghost predicate Skips<V>(h: seq<Entry<V>>, path: seq<nat>, from: nat, to: nat) {
    forall x: nat :: x < Ops(h) && from < CallAt(h, x) + 1 < to ==> x in path
  }

  // ---- moving on -----------------------------------------------------------

  lemma {:induction false} Advance<S, V>(m: Model<S, V>, h: seq<Entry<V>>, partial: bool, longest: seq<Option<seq<nat>>>,
                      seen: set<Config<S>>, path: seq<nat>, x: nat, to: nat)
    requires WellFormed(h) && x < Ops(h)
    requires SearchInv(m, h, partial, longest, seen, path, CallAt(h, x) + 1)
    requires TriedFrom(m, h, partial, longest, Here(m, h, path), x)
    requires Skips(h, path, CallAt(h, x) + 1, to)
    ensures SearchInv(m, h, partial, longest, seen, path, to)
  {
    forall z: nat | z < Ops(h) && CallAt(h, z) + 1 < to
      ensures TriedFrom(m, h, partial, longest, Here(m, h, path), z)
    {
      if CallAt(h, z) == CallAt(h, x) {
        SameCall(h, x, z);
      } else if CallAt(h, x) < CallAt(h, z) {
        assert z in path;
      }
    }
  }

  lemma {:induction false} SameCall<V>(h: seq<Entry<V>>, x: nat, y: nat)
    requires WellFormed(h) && x < Ops(h) && y < Ops(h)
    requires CallAt(h, x) == CallAt(h, y)
    ensures x == y
  {
    assert OpOk(h, x) && OpOk(h, y);
  }

  /** A refused step counts as tried. */
  lemma {:induction false} RefusedIsTried<S, V>(m: Model<S, V>, h: seq<Entry<V>>, partial: bool, longest: seq<Option<seq<nat>>>,
                             c: Config<S>, x: nat)
    requires WellFormed(h) && |longest| == Ops(h) && x < Ops(h)
    requires !StepOk(m, h, c.state, x)
    ensures TriedFrom(m, h, partial, longest, c, x)
  {
  }

  /** A memo hit is never one of the configurations still being explored, since
      those have fewer operations; so it is exhausted and nothing is lost. */
  lemma {:induction false} HitIsTried<S(!new), V(!new)>(m: Model<S, V>, h: seq<Entry<V>>, partial: bool, longest: seq<Option<seq<nat>>>,
                                     seen: set<Config<S>>, path: seq<nat>, x: nat, c: Config<S>)
    requires WellFormed(h) && x < Ops(h) && x !in path && |longest| == Ops(h) && ValidIds(h, path)
    requires SeenOk(m, h, partial, longest, seen, path) && EqualSimulates(m)
    requires c in seen && c.done == Elements(path) + {x}
    requires m.equal(After(m, h, StateAfter(m, h, m.init, path), x), c.state)
    ensures TriedFrom(m, h, partial, longest, Here(m, h, path), x)
  {
    forall k: nat | 0 < k <= |path|
      ensures c != ConfigAt(m, h, path, k)
    {
      PrefixMisses(path, k, x);
    }
    EqualKeepsExhausted(m, h, partial, longest, c.done, After(m, h, StateAfter(m, h, m.init, path), x), c.state);
  }

  lemma {:induction false} PrefixMisses(path: seq<nat>, k: nat, x: nat)
    requires k <= |path| && x !in path
    ensures x !in Elements(path[..k])
  {
  }

  // ---- one level deeper ----------------------------------------------------

  lemma {:induction false} ConfigAtSnoc<S, V>(m: Model<S, V>, h: seq<Entry<V>>, path: seq<nat>, x: nat, k: nat)
    requires WellFormed(h) && ValidIds(h, path) && ValidIds(h, path + [x]) && k <= |path|
    ensures ConfigAt(m, h, path + [x], k) == ConfigAt(m, h, path, k)
    ensures ConfigAt(m, h, path, |path|) == Here(m, h, path)
  {
    assert (path + [x])[..k] == path[..k];
    assert path[..|path|] == path;
  }

  lemma {:induction false} HereSnoc<S, V>(m: Model<S, V>, h: seq<Entry<V>>, path: seq<nat>, x: nat)
    requires WellFormed(h) && ValidIds(h, path) && ValidIds(h, path + [x])
    ensures Here(m, h, path + [x]) == Config(Elements(path) + {x}, After(m, h, StateAfter(m, h, m.init, path), x))
    ensures ConfigAt(m, h, path + [x], |path| + 1) == Here(m, h, path + [x])
  {
    var px := path + [x];
    assert px[..|path|] == path && px[..|path| + 1] == px;
    ElementsSnoc(path, x);
  }

  /** What is seen stays on the stack or exhausted, and the new configuration is on it. */
  lemma {:induction false} PushSeen<S, V>(m: Model<S, V>, h: seq<Entry<V>>, partial: bool, longest: seq<Option<seq<nat>>>,
                   seen: set<Config<S>>, path: seq<nat>, x: nat)
    requires WellFormed(h) && |longest| == Ops(h) && ValidIds(h, path) && ValidIds(h, path + [x])
    requires SeenOk(m, h, partial, longest, seen, path)
    ensures SeenOk(m, h, partial, longest, seen + {Here(m, h, path + [x])}, path + [x])
  {
    hide WellFormed, Here, ConfigAt, Closed, ValidIds;
    var px := path + [x];
    HereSnoc(m, h, path, x);
    forall c | c in seen + {Here(m, h, px)}
      ensures OnStack(m, h, px, c) || Closed(m, h, partial, longest, c)
    {
      if c in seen && OnStack(m, h, path, c) {
        var k :| 0 < k <= |path| && c == ConfigAt(m, h, path, k);
        ConfigAtSnoc(m, h, path, x, k);
      } else if c !in seen {
        assert c == ConfigAt(m, h, px, |px|);
      }
    }
  }

  lemma {:induction false} PushLevels<S, V>(m: Model<S, V>, h: seq<Entry<V>>, partial: bool, longest: seq<Option<seq<nat>>>,
                   path: seq<nat>, x: nat)
    requires WellFormed(h) && |longest| == Ops(h) && ValidIds(h, path) && ValidIds(h, path + [x])
    requires LevelsOk(m, h, partial, longest, path) && ScanOk(m, h, partial, longest, path, CallAt(h, x) + 1)
    ensures LevelsOk(m, h, partial, longest, path + [x])
  {
    hide WellFormed, Here, ConfigAt, TriedFrom, ValidIds;
    var px := path + [x];
    forall k, z: nat | 0 <= k < |px| && z < Ops(h) && CallAt(h, z) < CallAt(h, px[k])
      ensures TriedFrom(m, h, partial, longest, ConfigAt(m, h, px, k), z)
    {
      ConfigAtSnoc(m, h, path, x, k);
      if k < |path| {
        assert px[k] == path[k];
      }
    }
  }

  lemma {:induction false} PushScan<S, V>(m: Model<S, V>, h: seq<Entry<V>>, partial: bool, longest: seq<Option<seq<nat>>>,
                   path: seq<nat>, to: nat)
    requires WellFormed(h) && |longest| == Ops(h) && ValidIds(h, path) && Skips(h, path, 0, to)
    ensures ScanOk(m, h, partial, longest, path, to)
  {
    forall z: nat | z < Ops(h) && CallAt(h, z) + 1 < to
      ensures TriedFrom(m, h, partial, longest, Here(m, h, path), z)
    {
      assert z in path;
    }
  }

  lemma {:induction false} Push<S, V>(m: Model<S, V>, h: seq<Entry<V>>, partial: bool, longest: seq<Option<seq<nat>>>,
                   seen: set<Config<S>>, path: seq<nat>, x: nat, to: nat)
    requires WellFormed(h)
    requires Enabled(h, Elements(path), x)
    requires SearchInv(m, h, partial, longest, seen, path, CallAt(h, x) + 1)
    requires StepOk(m, h, StateAfter(m, h, m.init, path), x)
    requires Skips(h, path + [x], 0, to)
    ensures ValidIds(h, path + [x])
    ensures SearchInv(m, h, partial, longest, seen + {Here(m, h, path + [x])}, path + [x], to)
  {
    hide SeenOk, LevelsOk, ScanOk, Records, Skips, Here;
    var px := path + [x];
    assert ValidIds(h, px) by {
      assert x !in path;
    }
    assert {} + Elements(path) == Elements(path);
    ExtendsSnoc(m, h, {}, m.init, path, x);
    PushSeen(m, h, partial, longest, seen, path, x);
    PushLevels(m, h, partial, longest, path, x);
    PushScan(m, h, partial, longest, px, to);
  }

  // ---- backtracking --------------------------------------------------------

  /** The stack is recorded for each of its operations unless something at
      least as long already was (checker.go:214-229). */
  ghost predicate Updated<S, V>(m: Model<S, V>, h: seq<Entry<V>>, partial: bool, longest: seq<Option<seq<nat>>>,
                                longest': seq<Option<seq<nat>>>, path: seq<nat>)
    requires WellFormed(h)
  {
    && NoShorter(longest, longest')
    && (partial ==> Recorded(longest', Elements(path), |path|))
    && Records(m, h, longest')
  }

  lemma {:induction false} StackExhausted<S, V>(m: Model<S, V>, h: seq<Entry<V>>, partial: bool, longest: seq<Option<seq<nat>>>,
                             longest': seq<Option<seq<nat>>>, seen: set<Config<S>>, path: seq<nat>, y: nat)
    requires WellFormed(h) && y < Ops(h) && y !in path
    requires SearchInv(m, h, partial, longest, seen, path, ReturnAt(h, y) + 1)
    requires Updated(m, h, partial, longest, longest', path)
    ensures Closed(m, h, partial, longest', Here(m, h, path))
  {
    var c := Here(m, h, path);
    DistinctSize(path);
    forall x: nat | x < Ops(h) && CallAt(h, x) < ReturnAt(h, y)
      ensures Tried(m, h, partial, longest', c.done, c.state, x)
    {
      assert TriedFrom(m, h, partial, longest, c, x);
      TriedMonotone(m, h, partial, longest, longest', c, x);
    }
    ReturnExhausts(m, h, partial, longest', c.done, c.state, y);
  }

  lemma {:induction false} TriedMonotone<S, V>(m: Model<S, V>, h: seq<Entry<V>>, partial: bool, longest: seq<Option<seq<nat>>>,
                            longest': seq<Option<seq<nat>>>, c: Config<S>, x: nat)
    requires WellFormed(h) && x < Ops(h) && |longest| == Ops(h) && NoShorter(longest, longest')
    requires TriedFrom(m, h, partial, longest, c, x)
    ensures TriedFrom(m, h, partial, longest', c, x)
  {
    if x !in c.done && StepOk(m, h, c.state, x) {
      ExhaustedMonotone(m, h, partial, longest, longest', c.done + {x}, After(m, h, c.state, x));
    }
  }

  lemma {:induction false} Pop<S, V>(m: Model<S, V>, h: seq<Entry<V>>, partial: bool, longest: seq<Option<seq<nat>>>,
                  longest': seq<Option<seq<nat>>>, seen: set<Config<S>>, path: seq<nat>, y: nat, to: nat)
    requires WellFormed(h) && y < Ops(h) && y !in path && path != []
    requires SearchInv(m, h, partial, longest, seen, path, ReturnAt(h, y) + 1)
    requires Updated(m, h, partial, longest, longest', path)
    requires Skips(h, path[..|path| - 1], CallAt(h, path[|path| - 1]) + 1, to)
    ensures SearchInv(m, h, partial, longest', seen, path[..|path| - 1], to)
  {
    var p, x := path[..|path| - 1], path[|path| - 1];
    assert path == p + [x];
    StackExhausted(m, h, partial, longest, longest', seen, path, y);
    HereSnoc(m, h, p, x);
    ExtendsPrefix(m, h, {}, m.init, path, |p|);
    PopSeen(m, h, partial, longest, longest', seen, p, x);
    PopLevels(m, h, partial, longest, longest', p, x);
    PopScan(m, h, partial, longest, longest', p, x, to);
  }

  lemma {:induction false} PopScan<S, V>(m: Model<S, V>, h: seq<Entry<V>>, partial: bool, longest: seq<Option<seq<nat>>>,
                      longest': seq<Option<seq<nat>>>, p: seq<nat>, x: nat, to: nat)
    requires WellFormed(h) && |longest| == Ops(h) && ValidIds(h, p + [x]) && ValidIds(h, p) && x < Ops(h)
    requires LevelsOk(m, h, partial, longest, p + [x]) && NoShorter(longest, longest')
    requires Closed(m, h, partial, longest', Here(m, h, p + [x]))
    requires Skips(h, p, CallAt(h, x) + 1, to)
    ensures ScanOk(m, h, partial, longest', p, to)
  {
    HereSnoc(m, h, p, x);
    ConfigAtSnoc(m, h, p, x, |p|);
    forall z: nat | z < Ops(h) && CallAt(h, z) + 1 < to
      ensures TriedFrom(m, h, partial, longest', Here(m, h, p), z)
    {
      if CallAt(h, z) < CallAt(h, x) {
        assert x == (p + [x])[|p|];
        TriedMonotone(m, h, partial, longest, longest', Here(m, h, p), z);
      } else if CallAt(h, z) == CallAt(h, x) {
        SameCall(h, x, z);
      } else {
        assert z in p;
      }
    }
  }

  lemma {:induction false} PopSeen<S, V>(m: Model<S, V>, h: seq<Entry<V>>, partial: bool, longest: seq<Option<seq<nat>>>,
                      longest': seq<Option<seq<nat>>>, seen: set<Config<S>>, p: seq<nat>, x: nat)
    requires WellFormed(h) && |longest| == Ops(h) && ValidIds(h, p + [x]) && ValidIds(h, p)
    requires SeenOk(m, h, partial, longest, seen, p + [x]) && NoShorter(longest, longest')
    requires Closed(m, h, partial, longest', Here(m, h, p + [x]))
    ensures SeenOk(m, h, partial, longest', seen, p)
  {
    var path := p + [x];
    forall c | c in seen
      ensures OnStack(m, h, p, c) || Closed(m, h, partial, longest', c)
    {
      if OnStack(m, h, path, c) {
        var k :| 0 < k <= |path| && c == ConfigAt(m, h, path, k);
        if k == |path| {
          HereSnoc(m, h, p, x);
        } else {
          ConfigAtSnoc(m, h, p, x, k);
        }
      } else {
        ExhaustedMonotone(m, h, partial, longest, longest', c.done, c.state);
      }
    }
  }

  lemma {:induction false} PopLevels<S, V>(m: Model<S, V>, h: seq<Entry<V>>, partial: bool, longest: seq<Option<seq<nat>>>,
                        longest': seq<Option<seq<nat>>>, p: seq<nat>, x: nat)
    requires WellFormed(h) && |longest| == Ops(h) && ValidIds(h, p + [x]) && ValidIds(h, p)
    requires LevelsOk(m, h, partial, longest, p + [x]) && NoShorter(longest, longest')
    ensures LevelsOk(m, h, partial, longest', p)
  {
    var path := p + [x];
    forall k, z: nat | 0 <= k < |p| && z < Ops(h) && CallAt(h, z) < CallAt(h, p[k])
      ensures TriedFrom(m, h, partial, longest', ConfigAt(m, h, p, k), z)
    {
      assert path[k] == p[k];
      ConfigAtSnoc(m, h, p, x, k);
      TriedMonotone(m, h, partial, longest, longest', ConfigAt(m, h, p, k), z);
    }
  }
}
