/** What holds in every run of the code, with no condition at all. */
module RaftBounds {
  import opened RaftServer
  import opened RaftSystem

  // ---- what needs no hypothesis ----------------------------------------------------------------

  /** Commit indices stay inside the log and the applier has sent exactly the
      commands 1 .. lastApplied. */
  ghost predicate BoundsOk(sv: Server, ap: seq<Command>) {
    && |sv.log| > 0
    && 0 <= sv.commitIndex < |sv.log|
    && sv.lastApplied == |ap|
  }

  ghost predicate CodeInv(n: nat, s: System) {
    && Sized(n, s)
    && (forall id :: 0 <= id < n ==> BoundsOk(s.servers[id], s.applied[id]))
    && forall r :: r in s.requests ==> 0 <= r.args.leaderCommit <= r.args.prevLogIndex + |r.args.entries|
  }

  /** One step of one server, as far as bounds and terms go. */
  ghost predicate SoundStep(sv: Server, sv': Server) {
    && |sv'.log| > 0
    && 0 <= sv'.commitIndex < |sv'.log|
    && sv'.lastApplied == sv.lastApplied
    && sv.currentTerm <= sv'.currentTerm
  }

  lemma {:induction false} AppendSound(sv: Server, args: AppendArgs)
    requires |sv.log| > 0 && 0 <= sv.commitIndex < |sv.log| && args.leaderCommit >= 0 && OnAppend(sv, args).Some?
    ensures SoundStep(sv, OnAppend(sv, args).value.0)
  {
    if args.term >= sv.currentTerm && args.entries != [] && OnAppend(sv, args).value.1.success {
      MergeMeaning(sv.log, args.prevLogIndex + 1, args.entries);
    }
  }

  lemma {:induction false} AckSound(sv: Server, me: nat, from: nat, args: AppendArgs, reply: AppendReply, n: nat)
    requires |sv.log| > 0 && 0 <= sv.commitIndex < |sv.log| && OnAppendReply(sv, me, from, args, reply, n).Some?
    ensures SoundStep(sv, OnAppendReply(sv, me, from, args, reply, n).value)
  {
    hide Holders;
  }

  lemma {:induction false} VoteSound(sv: Server, args: VoteArgs, reply: VoteReply, voteNum: nat, n: nat)
    requires |sv.log| > 0 && 0 <= sv.commitIndex < |sv.log|
    ensures SoundStep(sv, OnVote(sv, args).0) && SoundStep(sv, OnVoteReply(sv, args, reply, voteNum, n).0)
  {
  }

  /** Every request carries the sender's log to its end. */
  lemma {:induction false} SendSound(sv: Server, id: nat, to: nat)
    requires MakeAppendArgs(sv, id, to).Some? && 0 <= sv.commitIndex < |sv.log|
    ensures var args := MakeAppendArgs(sv, id, to).value;
            args.leaderCommit == sv.commitIndex <= |sv.log| - 1 <= args.prevLogIndex + |args.entries|
  {
  }

  /** One server moves soundly, nothing is applied, and requests are as before. */
  lemma {:induction false} CodeUpdate(n: nat, s: System, s': System, id: nat)
    requires CodeInv(n, s) && id < n && |s'.servers| == n && s'.applied == s.applied && s'.requests == s.requests
    requires SoundStep(s.servers[id], s'.servers[id])
    requires forall j :: 0 <= j < n && j != id ==> s'.servers[j] == s.servers[j]
    ensures CodeInv(n, s')
    ensures forall j :: 0 <= j < n ==> s.servers[j].currentTerm <= s'.servers[j].currentTerm
  {
    assert BoundsOk(s.servers[id], s.applied[id]);
    forall j | 0 <= j < n
      ensures BoundsOk(s'.servers[j], s'.applied[j])
    {
      assert BoundsOk(s.servers[j], s.applied[j]);
    }
  }

  lemma {:induction false} ElectionStep(n: nat, s: System, a: Action, s': System)
    requires CodeInv(n, s) && Next(n, s, a, s') && (a.StartElection? || a.HandleVote? || a.HandleAnswer?)
    ensures CodeInv(n, s')
    ensures forall id :: 0 <= id < n ==> s.servers[id].currentTerm <= s'.servers[id].currentTerm
  {
    hide OnVote, OnVoteReply, Vote, Elect;
    assert forall id :: 0 <= id < n ==> BoundsOk(s.servers[id], s.applied[id]);
    match a
    case StartElection(id) =>
      CodeUpdate(n, s, s', id);
    case HandleVote(id, e) =>
      VoteSound(s.servers[id], s.elections[e].args, VoteReply(0, false), 0, n);
      CodeUpdate(n, s, s', id);
    case HandleAnswer(ans) =>
      var e := s.elections[ans.election];
      VoteSound(s.servers[e.args.candidateId], e.args, ans.reply, e.voteNum, n);
      CodeUpdate(n, s, s', e.args.candidateId);
  }

  lemma {:induction false} ReplicationStep(n: nat, s: System, a: Action, s': System)
    requires CodeInv(n, s) && Next(n, s, a, s') && (a.HandleAppend? || a.HandleAck? || a.AppendCommand?)
    ensures CodeInv(n, s')
    ensures forall id :: 0 <= id < n ==> s.servers[id].currentTerm <= s'.servers[id].currentTerm
  {
    hide OnAppend, OnAppendReply, Confirm, Extend;
    assert forall id :: 0 <= id < n ==> BoundsOk(s.servers[id], s.applied[id]);
    match a
    case HandleAppend(r) =>
      AppendSound(s.servers[r.to], r.args);
      CodeUpdate(n, s, s', r.to);
    case HandleAck(ack) =>
      var id := ack.args.leaderId;
      AckSound(s.servers[id], id, ack.from, ack.args, ack.reply, n);
      CodeUpdate(n, s, s', id);
    case AppendCommand(id, term, command) =>
      CodeUpdate(n, s, s', id);
  }

  lemma {:induction false} CodeStep(n: nat, s: System, a: Action, s': System)
    requires CodeInv(n, s) && Next(n, s, a, s')
    ensures CodeInv(n, s')
    ensures NoRestart(a) ==> forall id :: 0 <= id < n ==> s.servers[id].currentTerm <= s'.servers[id].currentTerm
  {
    if a.StartElection? || a.HandleVote? || a.HandleAnswer? {
      ElectionStep(n, s, a, s');
    } else if a.HandleAppend? || a.HandleAck? || a.AppendCommand? {
      ReplicationStep(n, s, a, s');
    } else {
      QuietCodeStep(n, s, a, s');
    }
  }

  lemma {:induction false} QuietCodeStep(n: nat, s: System, a: Action, s': System)
    requires CodeInv(n, s) && Next(n, s, a, s')
    requires a.AskVotes? || a.SendAppend? || a.ReadState? || a.ApplyOne? || a.Restart?
    ensures CodeInv(n, s')
    ensures NoRestart(a) ==> forall id :: 0 <= id < n ==> s.servers[id].currentTerm <= s'.servers[id].currentTerm
  {
    hide MakeAppendArgs;
    assert forall id :: 0 <= id < n ==> BoundsOk(s.servers[id], s.applied[id]);
    if a.SendAppend? {
      SendSound(s.servers[a.id], a.id, a.to);
    }
  }

  lemma {:induction false} CodeRunInv(n: nat, states: seq<System>, actions: seq<Action>, k: nat)
    requires CodeRun(n, states, actions) && k < |states|
    ensures CodeInv(n, states[k])
  {
    if k > 0 {
      CodeRunInv(n, states, actions, k - 1);
      assert Next(n, states[k - 1], actions[k - 1], states[k]);
      CodeStep(n, states[k - 1], actions[k - 1], states[k]);
    }
  }

  /** On every server, in every run of the code, whatever E1 to E5 say: the
      commit index lies inside the log although logs are cut and commit indices
      move back, and the applier never reads outside the log. */
  lemma {:induction false} BoundsTheorem(n: nat, states: seq<System>, actions: seq<Action>, k: nat, id: nat)
    requires CodeRun(n, states, actions) && k < |states| && id < n
    ensures 0 <= states[k].servers[id].commitIndex <= |states[k].servers[id].log| - 1
    ensures Apply(states[k].servers[id]).Some?
  {
    CodeRunInv(n, states, actions, k);
    assert BoundsOk(states[k].servers[id], states[k].applied[id]);
  }

  /** One step of a server that does not restart in it: the list of sent commands stays
      or gets the entry at the next index. */
  lemma {:induction false} ApplierStep(n: nat, states: seq<System>, actions: seq<Action>, k: nat, id: nat)
    requires CodeRun(n, states, actions) && k < |actions| && id < n && actions[k] != Restart(id)
    ensures states[k].servers[id].currentTerm <= states[k + 1].servers[id].currentTerm
    ensures states[k + 1].applied[id] == states[k].applied[id] ||
            (|states[k].applied[id]| + 1 < |states[k].servers[id].log| &&
             states[k + 1].applied[id] == states[k].applied[id] + [states[k].servers[id].log[|states[k].applied[id]| + 1].entry])
  {
    CodeRunInv(n, states, actions, k);
    assert BoundsOk(states[k].servers[id], states[k].applied[id]);
    assert Next(n, states[k], actions[k], states[k + 1]);
    CodeStep(n, states[k], actions[k], states[k + 1]);
    hide OnVote, OnVoteReply, OnAppend, OnAppendReply, MakeAppendArgs;
  }

  /** The i-th command sent was entry i + 1 of the server's log in some state from j to k. */
  ghost predicate SentFrom(states: seq<System>, id: nat, j: nat, k: nat, i: nat, command: Command)
    requires j <= k < |states| && forall t :: j <= t <= k ==> id < |states[t].servers|
  {
    exists t :: j <= t < k && InLog(states[t].servers[id].log, i + 1, command)
  }

  predicate InLog(log: Log, i: nat, command: Command) {
    i < |log| && log[i].entry == command
  }

  /** Over any stretch of a run in which the server does not restart its term never falls,
      and the applier sends the commands 1, 2, 3, ... exactly once each: what was sent
      stays, and each further command is the log entry of its index when it is sent. */
  lemma {:induction false} ApplierTheorem(n: nat, states: seq<System>, actions: seq<Action>, j: nat, k: nat, id: nat)
    requires CodeRun(n, states, actions) && j <= k < |states| && id < n
    requires forall t :: j <= t < k ==> actions[t] != Restart(id)
    ensures states[j].servers[id].currentTerm <= states[k].servers[id].currentTerm
    ensures states[k].servers[id].lastApplied == |states[k].applied[id]|
    ensures states[j].applied[id] <= states[k].applied[id]
    ensures forall i :: |states[j].applied[id]| <= i < |states[k].applied[id]| ==>
              SentFrom(states, id, j, k, i, states[k].applied[id][i])
  {
    hide Next;
    CodeRunInv(n, states, actions, k);
    assert BoundsOk(states[k].servers[id], states[k].applied[id]);
    if j < k {
      var t := k - 1;
      ApplierTheorem(n, states, actions, j, t, id);
      ApplierStep(n, states, actions, t, id);
      var before, after := states[t].applied[id], states[k].applied[id];
      forall i | |states[j].applied[id]| <= i < |after|
        ensures SentFrom(states, id, j, k, i, after[i])
      {
        if i < |before| {
          assert SentFrom(states, id, j, t, i, before[i]);
          var u :| j <= u < t && InLog(states[u].servers[id].log, i + 1, before[i]);
        } else {
          assert InLog(states[t].servers[id].log, i + 1, after[i]);
        }
      }
    }
  }

  /** Full suffix: no request in flight commits more than it carries, so a receiver that
      clamps to the length of its own log never commits beyond the entries sent. */
  lemma {:induction false} FullSuffixTheorem(n: nat, states: seq<System>, actions: seq<Action>, k: nat, r: Request)
    requires CodeRun(n, states, actions) && k < |states| && r in states[k].requests
    ensures 0 <= r.args.leaderCommit <= r.args.prevLogIndex + |r.args.entries|
  {
    CodeRunInv(n, states, actions, k);
  }
}
