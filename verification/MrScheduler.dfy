/** Safety of the master over all runs of its handlers, for arbitrary callers and an
    arbitrary clock (src/mr/master.go:37-192). */
module MrScheduler {
  import opened MrMaster

  datatype Task = MapTask(name: string) | ReduceTask(r: nat)

  /** A call of a handler; `pick` is what ranging over mmap comes to. */
  datatype Call = Finished(args: MrArgs) | Asked(args: MrArgs, now: int, pick: string)

  predicate Shaped(s: MasterState) {
    |s.rstart| == |s.rtask|
  }

  ghost predicate Enabled(s: MasterState, c: Call) {
    Shaped(s) && (c.Asked? ==> MayPick(s, c.pick))
  }

  function After(s: MasterState, c: Call): MasterState
    requires Shaped(s)
  {
    match c
    case Finished(args) => Finish(s, args)
    case Asked(args, now, pick) => Give(s, args, now, pick).0
  }

  /** A run of the master from MakeMaster: states[i + 1] follows states[i] by calls[i]. */
  ghost predicate Run(files: seq<string>, nReduce: nat, states: seq<MasterState>, calls: seq<Call>) {
    && |states| == |calls| + 1
    && states[0] == Initial(files, nReduce)
    && forall i :: 0 <= i < |calls| ==> Enabled(states[i], calls[i]) && states[i + 1] == After(states[i], calls[i])
  }

  predicate IsTask(files: seq<string>, nReduce: nat, t: Task) {
    match t
    case MapTask(name) => name in files
    case ReduceTask(r) => r < nReduce
  }

  /** The status of a task; 0 when the master has no such task. */
  function Status(s: MasterState, t: Task): int {
    match t
    case MapTask(name) => if name in s.mmap then s.mmap[name] else 0
    case ReduceTask(r) => if r < |s.rtask| then s.rtask[r] else 0
  }

  function Started(s: MasterState, t: Task): Time {
    match t
    case MapTask(name) => if name in s.mstart then s.mstart[name] else Zero
    case ReduceTask(r) => if r < |s.rstart| then s.rstart[r] else Zero
  }

  /** The call reports the task. */
  predicate Reports(c: Call, t: Task) {
    c.Finished? &&
    match t
    case MapTask(name) => c.args.taskType == MAP && c.args.taskName == name
    case ReduceTask(r) => c.args.taskType == REDUCE && c.args.taskId == r
  }

  /** The reply to the call hands out the task. */
  predicate HandsOut(s: MasterState, c: Call, t: Task)
    requires Shaped(s)
  {
    c.Asked? &&
    var reply := Give(s, c.args, c.now, c.pick).1;
    match t
    case MapTask(name) => reply.taskType == MAP && reply.taskName == name
    case ReduceTask(r) => reply.taskType == REDUCE && reply.taskId == r
  }

  ghost predicate ReportedBefore(calls: seq<Call>, n: nat, t: Task) {
    exists i :: 0 <= i < n && i < |calls| && Reports(calls[i], t)
  }

  // ---- one call ---------------------------------------------------------------------------

  /** What one call may do to one task: a report finishes it; handing it out makes a
      fresh task run; a running task becomes fresh again only when it is too old. */
  predicate Moves(s: MasterState, c: Call, handed: bool, s': MasterState, t: Task) {
    && (Status(s, t) == FINISHED ==> Status(s', t) == FINISHED)
    && (Reports(c, t) ==> Status(s', t) == FINISHED || Status(s, t) == 0)
    && (handed ==> c.Asked? && Status(s, t) == FRESH && Status(s', t) == RUNNING && Started(s', t) == At(c.now))
    && (!handed && !Reports(c, t) && Status(s, t) != RUNNING ==> Status(s', t) == Status(s, t))
    && (Status(s, t) == RUNNING && !Reports(c, t) ==>
          || (Status(s', t) == RUNNING && Started(s', t) == Started(s, t))
          || (Status(s', t) == FRESH && c.Asked? && TooOld(Started(s, t), c.now)))
  }

  lemma {:induction false} FinishMoves(s: MasterState, args: MrArgs, t: Task)
    ensures Moves(s, Finished(args), false, Finish(s, args), t)
  {
  }

  lemma {:induction false} CheckMoves(s: MasterState, c: Call, t: Task)
    requires Shaped(s) && c.Asked?
    ensures Moves(s, c, false, CheckMaps(s, c.now, c.pick), t)
    ensures Moves(s, c, false, CheckReduces(s, c.now), t)
  {
    if t.MapTask? {
      MapCheckMoves(s, c, t);
    } else {
      ReduceCheckMoves(s, c, t);
    }
  }

  lemma {:induction false} MapCheckMoves(s: MasterState, c: Call, t: Task)
    requires Shaped(s) && c.Asked? && t.MapTask?
    ensures Moves(s, c, false, CheckMaps(s, c.now, c.pick), t)
    ensures Moves(s, c, false, CheckReduces(s, c.now), t)
  {
    assert CheckReduces(s, c.now).mmap == s.mmap && CheckReduces(s, c.now).mstart == s.mstart;
  }

  lemma {:induction false} ReduceCheckMoves(s: MasterState, c: Call, t: Task)
    requires Shaped(s) && c.Asked? && t.ReduceTask?
    ensures Moves(s, c, false, CheckMaps(s, c.now, c.pick), t)
    ensures Moves(s, c, false, CheckReduces(s, c.now), t)
  {
    assert CheckMaps(s, c.now, c.pick).rtask == s.rtask && CheckMaps(s, c.now, c.pick).rstart == s.rstart;
  }

  /** The counter of worker ids is no part of any task. */
  function Counted(s: MasterState, args: MrArgs): MasterState {
    if args.workerId == 0 then s.(nextId := s.nextId + 1) else s
  }

  function Greeting(s: MasterState, args: MrArgs): MrReply {
    if args.workerId == 0 then BLANK.(workerId := s.nextId) else BLANK
  }

  lemma {:induction false} CountedMoves(s: MasterState, c: Call, handed: bool, s': MasterState, t: Task)
    requires Moves(Counted(s, c.args), c, handed, s', t)
    ensures Moves(s, c, handed, s', t)
  {
  }

  lemma {:induction false} GiveMapMoves(s: MasterState, c: Call, t: Task)
    requires Enabled(s, c) && c.Asked? && !s.mdone
    ensures Moves(s, c, HandsOut(s, c, t), After(s, c), t)
  {
    hide CheckMaps, CheckReduces, MayPick, Moves;
    var s1, reply := Counted(s, c.args), Greeting(s, c.args);
    assert Give(s, c.args, c.now, c.pick) == GiveMap(s1, reply, c.now, c.pick);
    if HasStatus(s1, c.pick, FRESH) {
      MapHandedOut(s1, c, reply, t);
      assert HandsOut(s, c, t) <==> t == MapTask(c.pick);
    } else {
      CheckMoves(s1, c, t);
      assert !HandsOut(s, c, t);
    }
    CountedMoves(s, c, HandsOut(s, c, t), After(s, c), t);
  }

  lemma {:induction false} MapHandedOut(s: MasterState, c: Call, reply: MrReply, t: Task)
    requires c.Asked? && HasStatus(s, c.pick, FRESH)
    ensures Moves(s, c, t == MapTask(c.pick), GiveMap(s, reply, c.now, c.pick).0, t)
  {
  }

  lemma {:induction false} GiveReduceMoves(s: MasterState, c: Call, t: Task)
    requires Enabled(s, c) && c.Asked? && s.mdone
    ensures Moves(s, c, HandsOut(s, c, t), After(s, c), t)
  {
    hide CheckMaps, CheckReduces, MayPick, Moves;
    var s1, reply := Counted(s, c.args), Greeting(s, c.args);
    if s.rdone {
      assert Give(s, c.args, c.now, c.pick) == (s1, reply);
      StaysMoves(s1, c, t);
    } else {
      assert Give(s, c.args, c.now, c.pick) == GiveReduce(s1, reply, c.now);
      if FirstFresh(s.rtask) < |s.rtask| {
        ReduceHandedOut(s1, c, reply, t);
        assert HandsOut(s, c, t) <==> t == ReduceTask(FirstFresh(s.rtask));
      } else {
        CheckMoves(s1, c, t);
        assert !HandsOut(s, c, t);
      }
    }
    CountedMoves(s, c, HandsOut(s, c, t), After(s, c), t);
  }

  lemma {:induction false} StaysMoves(s: MasterState, c: Call, t: Task)
    requires c.Asked?
    ensures Moves(s, c, false, s, t)
  {
  }

  lemma {:induction false} ReduceHandedOut(s: MasterState, c: Call, reply: MrReply, t: Task)
    requires Shaped(s) && c.Asked? && FirstFresh(s.rtask) < |s.rtask|
    ensures Moves(s, c, t == ReduceTask(FirstFresh(s.rtask)), GiveReduce(s, reply, c.now).0, t)
  {
  }

  lemma {:induction false} TaskStep(s: MasterState, c: Call, t: Task)
    requires Enabled(s, c)
    ensures Moves(s, c, HandsOut(s, c, t), After(s, c), t)
  {
    hide Moves;
    if c.Finished? {
      FinishMoves(s, c.args, t);
    } else if s.mdone {
      GiveReduceMoves(s, c, t);
    } else {
      GiveMapMoves(s, c, t);
    }
  }

  // ---- what an ask does, exactly ------------------------------------------------------------

  /** Handed out too long before `now`, and not reported. */
  predicate Overdue(s: MasterState, t: Task, now: int) {
    Status(s, t) == RUNNING && TooOld(Started(s, t), now)
  }

  /** Only t changes its status, and no stage is closed. */
  ghost predicate OnlyMoves(s: MasterState, s': MasterState, t: Task) {
    && s'.mdone == s.mdone && s'.rdone == s.rdone
    && forall u :: u != t ==> Status(s', u) == Status(s, u)
  }

  /** An ask in the map stage: a fresh task is handed out if there is one; with every task
      finished the stage is closed; otherwise one unfinished task is looked at, and becomes
      fresh exactly when it is overdue. */
  lemma {:induction false} MapAskRule(s: MasterState, c: Call)
    requires Enabled(s, c) && c.Asked? && !s.mdone
    ensures (exists f :: HasStatus(s, f, FRESH)) ==>
              HandsOut(s, c, MapTask(c.pick)) && HasStatus(s, c.pick, FRESH) && OnlyMoves(s, After(s, c), MapTask(c.pick))
    ensures AllMapsFinished(s) <==> After(s, c).mdone
    ensures (forall f :: !HasStatus(s, f, FRESH)) && !AllMapsFinished(s) ==>
              && c.pick in s.mmap && !HasStatus(s, c.pick, FINISHED) && OnlyMoves(s, After(s, c), MapTask(c.pick))
              && (Status(After(s, c), MapTask(c.pick)) == FRESH <==> Overdue(s, MapTask(c.pick), c.now))
  {
    hide CheckMaps;
    if !HasStatus(s, c.pick, FRESH) {
      MapCheckRule(Counted(s, c.args), c.now, c.pick);
    }
  }

  lemma {:induction false} MapCheckRule(s: MasterState, now: int, pick: string)
    requires !s.mdone && !HasStatus(s, pick, FRESH)
    ensures var s' := CheckMaps(s, now, pick);
            && (AllMapsFinished(s) <==> s'.mdone)
            && (!AllMapsFinished(s) ==> OnlyMoves(s, s', MapTask(pick)))
            && (!AllMapsFinished(s) ==> (Status(s', MapTask(pick)) == FRESH <==> Overdue(s, MapTask(pick), now)))
  {
  }

  /** When no map task is fresh and every unfinished one is overdue, an ask takes one back. */
  lemma {:induction false} OverdueMapReturns(s: MasterState, c: Call) returns (f: string)
    requires Enabled(s, c) && c.Asked? && !s.mdone && !AllMapsFinished(s)
    requires forall g :: g in s.mmap && s.mmap[g] != FINISHED ==> Overdue(s, MapTask(g), c.now)
    ensures f in s.mmap && s.mmap[f] == RUNNING && Status(After(s, c), MapTask(f)) == FRESH
  {
    hide After, TooOld;
    MapAskRule(s, c);
    f := c.pick;
  }

  /** An ask in the reduce stage: the first fresh task is handed out; with every task
      finished the stage is closed; otherwise the first unfinished task becomes fresh
      exactly when it is overdue. */
  lemma {:induction false} ReduceAskRule(s: MasterState, c: Call, r: nat)
    requires Enabled(s, c) && c.Asked? && s.mdone && !s.rdone && r < |s.rtask|
    ensures HandsOut(s, c, ReduceTask(r)) <==> s.rtask[r] == FRESH && FRESH !in s.rtask[..r]
    ensures HandsOut(s, c, ReduceTask(r)) ==> OnlyMoves(s, After(s, c), ReduceTask(r))
    ensures After(s, c).rdone <==> forall q :: 0 <= q < |s.rtask| ==> s.rtask[q] == FINISHED
    ensures FRESH !in s.rtask && s.rtask[r] != FINISHED && (forall q :: 0 <= q < r ==> s.rtask[q] == FINISHED) ==>
              && OnlyMoves(s, After(s, c), ReduceTask(r))
              && (Status(After(s, c), ReduceTask(r)) == FRESH <==> Overdue(s, ReduceTask(r), c.now))
  {
    hide CheckReduces, FirstFresh, MayPick, Overdue;
    FirstFreshMeaning(s.rtask, r);
    ReduceCheckRule(Counted(s, c.args), c.now, r);
    assert Overdue(s, ReduceTask(r), c.now) == Overdue(Counted(s, c.args), ReduceTask(r), c.now) by {
      SameOverdue(s, c, r);
    }
  }

  lemma {:induction false} SameOverdue(s: MasterState, c: Call, r: nat)
    requires c.Asked?
    ensures Overdue(s, ReduceTask(r), c.now) == Overdue(Counted(s, c.args), ReduceTask(r), c.now)
  {
  }

  lemma {:induction false} FirstFreshMeaning(rtask: seq<int>, r: nat)
    requires r < |rtask|
    ensures FirstFresh(rtask) == r <==> rtask[r] == FRESH && FRESH !in rtask[..r]
    ensures FirstFresh(rtask) < |rtask| <==> FRESH in rtask
    ensures FirstFresh(rtask) < |rtask| ==> rtask[FirstFresh(rtask)] == FRESH
  {
    var i := FirstFresh(rtask);
    assert i < |rtask| ==> rtask[i] in rtask;
    assert i < r ==> rtask[..r][i] == FRESH;
  }

  lemma {:induction false} ReduceCheckRule(s: MasterState, now: int, r: nat)
    requires Shaped(s) && s.mdone && !s.rdone && r < |s.rtask|
    ensures var s' := CheckReduces(s, now);
            && (s'.rdone <==> forall q :: 0 <= q < |s.rtask| ==> s.rtask[q] == FINISHED)
            && (s.rtask[r] != FRESH && s.rtask[r] != FINISHED && (forall q :: 0 <= q < r ==> s.rtask[q] == FINISHED) ==>
                  OnlyMoves(s, s', ReduceTask(r)) && (Status(s', ReduceTask(r)) == FRESH <==> Overdue(s, ReduceTask(r), now)))
  {
  }

  /** The stage flags are raised only when the stage is complete, and stay. */
  ghost predicate FlagsMove(s: MasterState, s': MasterState) {
    && (s'.mdone ==> s.mdone || AllMapsFinished(s))
    && (s'.rdone ==> s.rdone || (s.mdone && forall r :: 0 <= r < |s.rtask| ==> s.rtask[r] == FINISHED))
    && (s.mdone ==> s'.mdone)
    && (s.rdone ==> s'.rdone)
    && s'.nReduce == s.nReduce && s'.f2id == s.f2id
    && |s'.rtask| == |s.rtask| && |s'.rstart| == |s.rstart|
    && s.mmap.Keys <= s'.mmap.Keys
  }

  lemma {:induction false} FlagStep(s: MasterState, c: Call)
    requires Enabled(s, c)
    ensures FlagsMove(s, After(s, c))
    ensures forall r :: HandsOut(s, c, ReduceTask(r)) ==> s.mdone
  {
    hide MayPick, GiveMap, GiveReduce;
    if c.Asked? {
      var s1, reply := Counted(s, c.args), Greeting(s, c.args);
      if !s.mdone {
        assert Give(s, c.args, c.now, c.pick) == GiveMap(s1, reply, c.now, c.pick);
        GiveMapFlags(s1, c, reply);
      } else if !s.rdone {
        GiveReduceFlags(s1, c, reply);
      }
    }
  }

  lemma {:induction false} GiveMapFlags(s: MasterState, c: Call, reply: MrReply)
    requires Shaped(s) && c.Asked? && reply.taskType == 0
    ensures var (s', reply') := GiveMap(s, reply, c.now, c.pick); FlagsMove(s, s') && reply'.taskType != REDUCE
  {
    hide CheckMaps, CheckReduces;
    CheckFlags(s, c);
  }

  lemma {:induction false} GiveReduceFlags(s: MasterState, c: Call, reply: MrReply)
    requires Shaped(s) && c.Asked? && s.mdone
    ensures FlagsMove(s, GiveReduce(s, reply, c.now).0)
  {
    hide CheckMaps, CheckReduces;
    CheckFlags(s, c);
  }

  lemma {:induction false} CheckFlags(s: MasterState, c: Call)
    requires Shaped(s) && c.Asked?
    ensures FlagsMove(s, CheckMaps(s, c.now, c.pick))
    ensures s.mdone ==> FlagsMove(s, CheckReduces(s, c.now))
  {
  }

  // ---- the invariant ----------------------------------------------------------------------

  ghost predicate MasterInv(files: seq<string>, nReduce: nat, calls: seq<Call>, n: nat, s: MasterState) {
    && Shaped(s) && |s.rtask| == nReduce && s.nReduce == nReduce
    && s.f2id == Initial(files, nReduce).f2id
    && (forall t :: IsTask(files, nReduce, t) ==> Status(s, t) in {FRESH, RUNNING, FINISHED})
    && (forall t :: Status(s, t) == FINISHED ==> ReportedBefore(calls, n, t))
    && (s.mdone ==> forall f :: f in files ==> Status(s, MapTask(f)) == FINISHED)
    && (s.rdone ==> s.mdone && forall r :: 0 <= r < nReduce ==> Status(s, ReduceTask(r)) == FINISHED)
  }

  lemma {:induction false} InvStep(files: seq<string>, nReduce: nat, calls: seq<Call>, n: nat, s: MasterState)
    requires n < |calls| && MasterInv(files, nReduce, calls, n, s) && Enabled(s, calls[n])
    ensures MasterInv(files, nReduce, calls, n + 1, After(s, calls[n]))
  {
    hide MayPick, After, Initial;
    var c, s' := calls[n], After(s, calls[n]);
    FlagStep(s, c);
    forall t
      ensures Status(s', t) == FINISHED ==> ReportedBefore(calls, n + 1, t)
      ensures IsTask(files, nReduce, t) ==> Status(s', t) in {FRESH, RUNNING, FINISHED}
      ensures Status(s, t) == FINISHED ==> Status(s', t) == FINISHED
    {
      TaskStep(s, c, t);
      if Status(s, t) == FINISHED {
        assert ReportedBefore(calls, n, t);
      }
    }
    forall f | f in files && s'.mdone
      ensures Status(s', MapTask(f)) == FINISHED
    {
      assert IsTask(files, nReduce, MapTask(f));
      assert Status(s, MapTask(f)) == FINISHED;
    }
    forall r | 0 <= r < nReduce && s'.rdone
      ensures Status(s', ReduceTask(r)) == FINISHED
    {
      assert Status(s, ReduceTask(r)) == FINISHED;
    }
  }

  lemma {:induction false} InvRun(files: seq<string>, nReduce: nat, states: seq<MasterState>, calls: seq<Call>, n: nat)
    requires Run(files, nReduce, states, calls) && n < |states|
    ensures MasterInv(files, nReduce, calls, n, states[n])
  {
    if n > 0 {
      hide MasterInv, MayPick, After, Initial;
      InvRun(files, nReduce, states, calls, n - 1);
      InvStep(files, nReduce, calls, n - 1, states[n - 1]);
    }
  }

  // ---- theorems ---------------------------------------------------------------------------

  /** Finished is absorbing. */
  lemma {:induction false} FinishedForever(files: seq<string>, nReduce: nat, states: seq<MasterState>, calls: seq<Call>,
                                           t: Task, i: nat, j: nat)
    requires Run(files, nReduce, states, calls) && i <= j < |states| && Status(states[i], t) == FINISHED
    ensures Status(states[j], t) == FINISHED
  {
    hide After, MayPick, HandsOut, Status, Started;
    if i < j {
      FinishedForever(files, nReduce, states, calls, t, i, j - 1);
      TaskStep(states[j - 1], calls[j - 1], t);
    }
  }

  /** A task of the master that was reported is never handed out again. */
  lemma {:induction false} ReportedNeverAgain(files: seq<string>, nReduce: nat, states: seq<MasterState>, calls: seq<Call>,
                                              t: Task, i: nat, j: nat)
    requires Run(files, nReduce, states, calls) && i < j < |calls| && IsTask(files, nReduce, t) && Reports(calls[i], t)
    ensures Shaped(states[j]) && !HandsOut(states[j], calls[j], t)
  {
    hide After, MayPick, HandsOut;
    InvRun(files, nReduce, states, calls, i);
    TaskStep(states[i], calls[i], t);
    FinishedForever(files, nReduce, states, calls, t, i + 1, j);
    TaskStep(states[j], calls[j], t);
  }

  /** No reduce task is handed out before every map task has been reported. */
  lemma {:induction false} ReduceAfterMaps(files: seq<string>, nReduce: nat, states: seq<MasterState>, calls: seq<Call>,
                                           i: nat, r: nat, f: string)
    requires Run(files, nReduce, states, calls) && i < |calls| && Shaped(states[i])
    requires HandsOut(states[i], calls[i], ReduceTask(r)) && f in files
    ensures ReportedBefore(calls, i, MapTask(f))
  {
    FlagStep(states[i], calls[i]);
    InvRun(files, nReduce, states, calls, i);
    assert Status(states[i], MapTask(f)) == FINISHED;
  }

  /** A task is handed out a second time only after it was taken back, which happens
      more than five seconds after the first time. */
  lemma {:induction false} HandedOutAgain(files: seq<string>, nReduce: nat, states: seq<MasterState>, calls: seq<Call>,
                                          t: Task, i: nat, j: nat)
    returns (k: nat)
    requires Run(files, nReduce, states, calls) && i < j < |calls|
    requires Shaped(states[i]) && Shaped(states[j])
    requires HandsOut(states[i], calls[i], t) && HandsOut(states[j], calls[j], t)
    ensures i < k < j && calls[k].Asked? && calls[k].now - calls[i].now > PATIENCE
    ensures Status(states[k], t) == RUNNING && Status(states[k + 1], t) == FRESH
  {
    hide After, MayPick, HandsOut, Status, Started;
    TaskStep(states[i], calls[i], t);
    TaskStep(states[j], calls[j], t);
    k := i + 1;
    while Status(states[k + 1], t) == RUNNING
      invariant i < k < j
      invariant Status(states[k], t) == RUNNING && Started(states[k], t) == At(calls[i].now)
      decreases j - k
    {
      TaskStep(states[k], calls[k], t);
      k := k + 1;
    }
    TaskStep(states[k], calls[k], t);
    if Status(states[k + 1], t) == FINISHED {
      FinishedForever(files, nReduce, states, calls, t, k + 1, j);
    }
  }

  /** When Done answers true every task has been reported. */
  lemma {:induction false} DoneMeansReported(files: seq<string>, nReduce: nat, states: seq<MasterState>, calls: seq<Call>,
                                             i: nat, t: Task)
    requires Run(files, nReduce, states, calls) && i < |states| && IsTask(files, nReduce, t)
    ensures states[i].rdone ==> states[i].mdone
    ensures states[i].mdone && t.MapTask? ==> ReportedBefore(calls, i, t)
    ensures states[i].mdone && states[i].rdone ==> ReportedBefore(calls, i, t)
  {
    InvRun(files, nReduce, states, calls, i);
    if states[i].mdone && t.MapTask? {
      assert Status(states[i], MapTask(t.name)) == FINISHED;
    }
    if states[i].mdone && states[i].rdone && t.ReduceTask? {
      assert Status(states[i], ReduceTask(t.r)) == FINISHED;
    }
  }

  // ---- worker ids ---------------------------------------------------------------------------

  lemma {:induction false} NextIdStep(s: MasterState, c: Call)
    requires Enabled(s, c)
    ensures After(s, c).nextId == if c.Asked? && c.args.workerId == 0 then s.nextId + 1 else s.nextId
    ensures c.Asked? ==> Give(s, c.args, c.now, c.pick).1.workerId == if c.args.workerId == 0 then s.nextId else 0
  {
    hide MayPick, GiveMap, GiveReduce;
    if c.Asked? {
      var s1, reply := Counted(s, c.args), Greeting(s, c.args);
      GiveMapIds(s1, reply, c.now, c.pick);
      GiveReduceIds(s1, reply, c.now);
    }
  }

  lemma {:induction false} GiveMapIds(s: MasterState, reply: MrReply, now: int, pick: string)
    ensures var (s', reply') := GiveMap(s, reply, now, pick); s'.nextId == s.nextId && reply'.workerId == reply.workerId
  {
  }

  lemma {:induction false} GiveReduceIds(s: MasterState, reply: MrReply, now: int)
    requires Shaped(s)
    ensures var (s', reply') := GiveReduce(s, reply, now); s'.nextId == s.nextId && reply'.workerId == reply.workerId
  {
  }

  lemma {:induction false} NextIdGrows(files: seq<string>, nReduce: nat, states: seq<MasterState>, calls: seq<Call>, i: nat, j: nat)
    requires Run(files, nReduce, states, calls) && i <= j < |states|
    ensures 1 <= states[i].nextId <= states[j].nextId
    decreases j
  {
    hide After, MayPick;
    if i < j {
      NextIdGrows(files, nReduce, states, calls, i, j - 1);
      NextIdStep(states[j - 1], calls[j - 1]);
    } else if i > 0 {
      NextIdGrows(files, nReduce, states, calls, i - 1, i - 1);
      NextIdStep(states[i - 1], calls[i - 1]);
    }
  }

  /** Workers that ask without an id get different ids, none of them 0. */
  lemma {:induction false} WorkerIdsDistinct(files: seq<string>, nReduce: nat, states: seq<MasterState>, calls: seq<Call>, i: nat, j: nat)
    requires Run(files, nReduce, states, calls) && i < j < |calls| && Shaped(states[i]) && Shaped(states[j])
    requires calls[i].Asked? && calls[i].args.workerId == 0 && calls[j].Asked? && calls[j].args.workerId == 0
    ensures var a := Give(states[i], calls[i].args, calls[i].now, calls[i].pick).1.workerId;
            var b := Give(states[j], calls[j].args, calls[j].now, calls[j].pick).1.workerId;
            0 < a < b
  {
    hide After, MayPick, Give;
    NextIdStep(states[i], calls[i]);
    NextIdStep(states[j], calls[j]);
    NextIdGrows(files, nReduce, states, calls, i, i);
    NextIdGrows(files, nReduce, states, calls, i + 1, j);
  }
}
