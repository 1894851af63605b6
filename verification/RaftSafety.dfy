/** The theorems about whole runs. */
module RaftSafety {
  import opened RaftServer
  import opened RaftSystem
  import opened RaftInvariant
  import opened RaftFrame
  import opened RaftElections
  import opened RaftReplication
  import opened RaftVotes
  import opened RaftLogs
  import opened RaftBounds
  import RaftRules

  lemma {:induction false} InitInv(n: nat)
    ensures Inv(n, Init(n))
  {
    var s := Init(n);
    forall id: nat | id < n
      ensures ServerOk(n, s.hist, id, s.servers[id]) && AppliedOk(n, s.hist, s.servers[id], s.applied[id])
    {
      assert s.servers[id] == Make(n);
    }
  }

  /** Every step that keeps E1 to E5 keeps the invariant. */
  lemma {:induction false} NextKeepsInv(n: nat, s: System, a: Action, s': System)
    requires Inv(n, s) && Next(n, s, a, s') && Relied(n, s, a)
    ensures Inv(n, s')
  {
    hide Inv;
    Sizes(n, s);
    match a
    case StartElection(id) => StartElectionKeeps(n, s, id);
    case AskVotes(id) => AskVotesKeeps(n, s, id);
    case HandleVote(id, e) => HandleVoteKeeps(n, s, id, e);
    case HandleAnswer(ans) => HandleAnswerKeeps(n, s, ans);
    case SendAppend(id, to) => SendAppendKeeps(n, s, id, to);
    case HandleAppend(r) => HandleAppendKeeps(n, s, r);
    case HandleAck(ack) => HandleAckKeeps(n, s, ack);
    case ReadState(id) => ReadStateKeeps(n, s, id);
    case AppendCommand(id, term, command) => AppendCommandKeeps(n, s, id, term, command);
    case ApplyOne(id) => ApplyOneKeeps(n, s, id);
    case Restart(id) =>
  }

  lemma {:induction false} Sizes(n: nat, s: System)
    requires Inv(n, s)
    ensures |s.servers| == n && |s.applied| == n
  {
  }

  lemma {:induction false} InvRun(n: nat, states: seq<System>, actions: seq<Action>, k: nat)
    requires GoodRun(n, states, actions) && k < |states|
    ensures Inv(n, states[k])
  {
    hide Inv, Next, Relied;
    if k == 0 {
      InitInv(n);
    } else {
      InvRun(n, states, actions, k - 1);
      assert Next(n, states[k - 1], actions[k - 1], states[k]) && Relied(n, states[k - 1], actions[k - 1]);
      NextKeepsInv(n, states[k - 1], actions[k - 1], states[k]);
    }
  }

  // ---- what never changes ----------------------------------------------------------------

  /** Leaders on record stay; what was sent on an apply channel stays sent. */
  ghost predicate Lasting(s: System, s': System) {
    && (forall t :: t in s.hist.elected ==> t in s'.hist.elected && s'.hist.elected[t] == s.hist.elected[t])
    && |s.applied| == |s'.applied|
    && forall id :: 0 <= id < |s.applied| ==> s.applied[id] <= s'.applied[id]
  }

  lemma {:induction false} NextLasts(n: nat, s: System, a: Action, s': System)
    requires Sized(n, s) && Sized(n, s') && Next(n, s, a, s') && NoRestart(a)
    ensures Lasting(s, s')
  {
    hide OnVote, OnVoteReply, OnAppend, OnAppendReply, MakeAppendArgs, Vote, Confirm, Extend, LastTerm;
    VoteLasts(s, a);
  }

  lemma {:induction false} VoteLasts(s: System, a: Action)
    ensures forall v, t, c, log, lt, li :: Vote(s.hist, v, t, c, log, lt, li).elected == s.hist.elected
    ensures forall v, t, i :: Confirm(s.hist, v, t, i).elected == s.hist.elected
    ensures forall t, v, log :: Extend(s.hist, t, v, log).elected == s.hist.elected
  {
  }

  lemma {:induction false} RunLasts(n: nat, states: seq<System>, actions: seq<Action>, j: nat, k: nat)
    requires VoteRun(n, states, actions) && j <= k < |states|
    ensures Lasting(states[j], states[k])
  {
    hide Next, SenderLeads, Init;
    if j < k {
      RunLasts(n, states, actions, j, k - 1);
      assert Next(n, states[k - 1], actions[k - 1], states[k]) && NoRestart(actions[k - 1]);
      NextLasts(n, states[k - 1], actions[k - 1], states[k]);
    }
  }

  // ---- the theorems ---------------------------------------------------------------------------

  lemma {:induction false} VotesRun(n: nat, states: seq<System>, actions: seq<Action>, k: nat)
    requires VoteRun(n, states, actions) && k < |states|
    ensures VotesInv(n, states[k])
  {
    hide VotesInv, Next, SenderLeads;
    if k == 0 {
      InitVotes(n);
    } else {
      VotesRun(n, states, actions, k - 1);
      CodeRunInv(n, states, actions, k - 1);
      LogsPresent(n, states[k - 1]);
      assert Next(n, states[k - 1], actions[k - 1], states[k]) && SenderLeads(states[k - 1], actions[k - 1]);
      NextKeepsVotes(n, states[k - 1], actions[k - 1], states[k]);
    }
  }

  lemma {:induction false} InitVotes(n: nat)
    ensures VotesInv(n, Init(n)) && LogsInv(n, Init(n))
  {
    var s := Init(n);
    forall id: nat | id < n
      ensures VoterOk(s.hist, id, s.servers[id]) && LogHolderOk(s.hist, s.servers[id])
    {
      assert s.servers[id] == Make(n);
    }
  }

  lemma {:induction false} LogsPresent(n: nat, s: System)
    requires CodeInv(n, s)
    ensures forall id :: 0 <= id < n ==> s.servers[id].log != []
  {
    forall id | 0 <= id < n
      ensures s.servers[id].log != []
    {
      assert BoundsOk(s.servers[id], s.applied[id]);
    }
  }

  /** Election safety: over the whole run, a term has at most one leader. */
  lemma {:induction false} ElectionSafetyTheorem(n: nat, states: seq<System>, actions: seq<Action>, j: nat, k: nat, a: nat, b: nat)
    requires VoteRun(n, states, actions) && j <= k < |states| && a < n && b < n
    requires states[j].servers[a].role == Leader && states[k].servers[b].role == Leader
    requires states[j].servers[a].currentTerm == states[k].servers[b].currentTerm
    ensures a == b
  {
    VotesRun(n, states, actions, j);
    VotesRun(n, states, actions, k);
    RunLasts(n, states, actions, j, k);
    assert VoterOk(states[j].hist, a, states[j].servers[a]) && VoterOk(states[k].hist, b, states[k].servers[b]);
  }

  lemma {:induction false} LogsRun(n: nat, states: seq<System>, actions: seq<Action>, k: nat)
    requires LogRun(n, states, actions) && k < |states|
    ensures LogsInv(n, states[k])
  {
    hide LogsInv, VotesInv, Next, SenderLeads, StartAtomic, NextPositive;
    if k == 0 {
      InitVotes(n);
    } else {
      LogsRun(n, states, actions, k - 1);
      VotesRun(n, states, actions, k - 1);
      assert Next(n, states[k - 1], actions[k - 1], states[k]) && SenderLeads(states[k - 1], actions[k - 1]);
      assert StartAtomic(states[k - 1], actions[k - 1]);
      NextKeepsLogs(n, states[k - 1], actions[k - 1], states[k]);
    }
  }

  /** Log matching: two logs with the same term at an index agree up to it. */
  lemma {:induction false} LogMatchingTheorem(n: nat, states: seq<System>, actions: seq<Action>, k: nat, a: nat, b: nat, i: nat)
    requires LogRun(n, states, actions) && k < |states| && a < n && b < n
    requires i < |states[k].servers[a].log| && i < |states[k].servers[b].log|
    requires states[k].servers[a].log[i].term == states[k].servers[b].log[i].term
    ensures states[k].servers[a].log[..i + 1] == states[k].servers[b].log[..i + 1]
  {
    LogsRun(n, states, actions, k);
    var s := states[k];
    assert LogHolderOk(s.hist, s.servers[a]) && LogHolderOk(s.hist, s.servers[b]);
    LogMatching(s.hist, s.servers[a].log, s.servers[b].log, i);
  }

  /** A request that a receiver accepts leaves it with its old log, if that holds all
      that was sent, and else with the sender's log up to the last entry sent; the commit
      index it then takes lies within the entries sent. */
  lemma {:induction false} AcceptTheorem(n: nat, states: seq<System>, actions: seq<Action>, k: nat, r: Request)
    requires LogRun(n, states, actions) && k < |states| && r in states[k].requests && r.to < n
    requires r.args.entries != [] && r.args.term >= states[k].servers[r.to].currentTerm
    requires OnAppend(states[k].servers[r.to], r.args).Some? && OnAppend(states[k].servers[r.to], r.args).value.1.success
    ensures r.args.term in states[k].hist.leaderLog
    ensures var sv, sv' := states[k].servers[r.to], OnAppend(states[k].servers[r.to], r.args).value.0;
            var m, leader := r.args.prevLogIndex + |r.args.entries|, states[k].hist.leaderLog[r.args.term];
            && 0 <= m < |leader|
            && leader[..m + 1] <= sv'.log && (sv'.log == sv.log || sv'.log == leader[..m + 1])
            && sv'.commitIndex == r.args.leaderCommit && 0 <= sv'.commitIndex <= m
  {
    LogsRun(n, states, actions, k);
    FullSuffixTheorem(n, states, actions, k, r);
    var s := states[k];
    assert LogHolderOk(s.hist, s.servers[r.to]) && PieceOk(s.hist, r.args) && LogOk(s.hist, s.hist.leaderLog[r.args.term]);
    hide LogOk, PieceOk, CodeRun, LogRun, LogsInv, Clash, MergeAt;
    AcceptedRange(s.hist, s.servers[r.to], r.args);
    PrevAgrees(s.hist, s.servers[r.to].log, r.args);
    MergeAgrees(s.hist, s.servers[r.to].log, r.args);
  }

  /** A heartbeat that a receiver accepts leaves its log alone; the log agrees with the
      sender's up to the entry before the heartbeat, and a new commit index lies within. */
  lemma {:induction false} HeartbeatTheorem(n: nat, states: seq<System>, actions: seq<Action>, k: nat, r: Request)
    requires LogRun(n, states, actions) && k < |states| && r in states[k].requests && r.to < n
    requires r.args.entries == [] && r.args.term >= states[k].servers[r.to].currentTerm
    requires OnAppend(states[k].servers[r.to], r.args).Some? && OnAppend(states[k].servers[r.to], r.args).value.1.success
    ensures r.args.term in states[k].hist.leaderLog
    ensures var sv, sv' := states[k].servers[r.to], OnAppend(states[k].servers[r.to], r.args).value.0;
            var m, leader := r.args.prevLogIndex, states[k].hist.leaderLog[r.args.term];
            && sv'.log == sv.log && 0 <= m < |sv.log| && m < |leader| && sv.log[..m + 1] == leader[..m + 1]
            && sv'.commitIndex == (if r.args.leaderCommit > sv.commitIndex then r.args.leaderCommit else sv.commitIndex)
            && (sv'.commitIndex != sv.commitIndex ==> 0 <= sv'.commitIndex <= m)
  {
    LogsRun(n, states, actions, k);
    FullSuffixTheorem(n, states, actions, k, r);
    var s := states[k];
    assert LogHolderOk(s.hist, s.servers[r.to]) && PieceOk(s.hist, r.args) && LogOk(s.hist, s.hist.leaderLog[r.args.term]);
    hide LogOk, CodeRun, LogRun, LogsInv;
    PrevAgrees(s.hist, s.servers[r.to].log, r.args);
  }

  /** A request that is not older than its receiver is accepted exactly if the receiver's
      log agrees with the sender's up to the entry before the ones sent; the commit index
      is then the sender's, except that a heartbeat does not lower it. */
  lemma {:induction false} AcceptsExactly(n: nat, states: seq<System>, actions: seq<Action>, k: nat, r: Request)
    requires LogRun(n, states, actions) && k < |states| && r in states[k].requests && r.to < n
    requires r.args.term >= states[k].servers[r.to].currentTerm
    ensures r.args.term in states[k].hist.leaderLog && OnAppend(states[k].servers[r.to], r.args).Some?
    ensures var sv, m, leader := states[k].servers[r.to], r.args.prevLogIndex, states[k].hist.leaderLog[r.args.term];
            var (sv', reply) := OnAppend(sv, r.args).value;
            && 0 <= m < |leader|
            && (reply.success <==> m < |sv.log| && sv.log[..m + 1] == leader[..m + 1])
            && (reply.success ==>
                  sv'.commitIndex == (if r.args.entries == [] && sv.commitIndex > r.args.leaderCommit then sv.commitIndex else r.args.leaderCommit))
  {
    LogsRun(n, states, actions, k);
    var s, sv := states[k], states[k].servers[r.to];
    var m, leader := r.args.prevLogIndex, s.hist.leaderLog[r.args.term];
    assert LogHolderOk(s.hist, sv) && PieceOk(s.hist, r.args) && LogOk(s.hist, s.hist.leaderLog[r.args.term]);
    NotEmpty(s.hist, sv.log);
    RaftRules.AppendRule(sv, r.args);
    hide LogOk, CodeRun, LogRun, LogsInv, OnAppend;
    if OnAppend(sv, r.args).value.1.success {
      PrevAgrees(s.hist, sv.log, r.args);
      if r.args.entries == [] {
        HeartbeatTheorem(n, states, actions, k, r);
      } else {
        AcceptTheorem(n, states, actions, k, r);
      }
    }
    if m < |sv.log| && sv.log[..m + 1] == leader[..m + 1] {
      assert sv.log[m] == sv.log[..m + 1][m] == leader[..m + 1][m] == leader[m];
    }
  }

  lemma {:induction false} AcceptedRange(h: History, sv: Server, args: AppendArgs)
    requires PieceOk(h, args) && args.entries != [] && args.term >= sv.currentTerm
    requires OnAppend(sv, args).Some? && OnAppend(sv, args).value.1.success
    ensures args.term in h.leaderLog && 0 <= args.prevLogIndex && args.prevLogIndex + |args.entries| < |h.leaderLog[args.term]|
    ensures args.prevLogIndex == 0 || (args.prevLogIndex < |sv.log| && sv.log[args.prevLogIndex].term == args.prevLogTerm)
    ensures var log' := MergeAt(sv.log, args.prevLogIndex + 1, args.entries);
            OnAppend(sv, args).value.0.log == log' && OnAppend(sv, args).value.0.commitIndex == Clamp(args.leaderCommit, log')
  {
    hide MergeAt;
  }

  /** State machine safety: whatever two servers send on their apply channels for
      the same index, at whatever moments of the run, is the same command. */
  lemma {:induction false} StateMachineSafety(n: nat, states: seq<System>, actions: seq<Action>, j: nat, k: nat, a: nat, b: nat, i: nat)
    requires GoodRun(n, states, actions) && j < |states| && k < |states| && a < n && b < n
    requires i < |states[j].applied[a]| && i < |states[k].applied[b]|
    ensures states[j].applied[a][i] == states[k].applied[b][i]
  {
    var m := if j < k then k else j;
    InvRun(n, states, actions, m);
    RunLasts(n, states, actions, j, m);
    RunLasts(n, states, actions, k, m);
    AppliedAgree(n, states[m], a, b, i);
  }

  /** Two servers' logs agree as far as both have committed. */
  lemma {:induction false} CommittedPrefixesAgree(n: nat, states: seq<System>, actions: seq<Action>, k: nat, a: nat, b: nat, i: nat)
    requires GoodRun(n, states, actions) && k < |states| && a < n && b < n
    requires i <= states[k].servers[a].commitIndex && i <= states[k].servers[b].commitIndex
    ensures i < |states[k].servers[a].log| && i < |states[k].servers[b].log|
    ensures states[k].servers[a].log[i] == states[k].servers[b].log[i]
  {
    hide Inv, ServerOk;
    InvRun(n, states, actions, k);
    var s := states[k];
    CommitsOf(n, s, a);
    CommitsOf(n, s, b);
    CommitsAgree(n, s.hist, s.servers[a], s.servers[b], i);
  }

  lemma {:induction false} CommitsOf(n: nat, s: System, id: nat)
    requires Inv(n, s) && id < n
    ensures HistOk(n, s.hist) && LogOk(s.hist, s.servers[id].log)
    ensures CommitOk(n, s.hist, s.servers[id].commitIndex, s.servers[id].log, s.servers[id].currentTerm)
  {
    assert ServerOk(n, s.hist, id, s.servers[id]);
  }

  lemma {:induction false} CommitsAgree(n: nat, h: History, x: Server, y: Server, i: nat)
    requires HistOk(n, h) && LogOk(h, x.log) && LogOk(h, y.log)
    requires CommitOk(n, h, x.commitIndex, x.log, x.currentTerm) && i <= x.commitIndex
    requires CommitOk(n, h, y.commitIndex, y.log, y.currentTerm) && i <= y.commitIndex
    ensures x.log[i] == y.log[i]
  {
    hide HistOk, LogOk;
    if i > 0 {
      var t1, i1 :| CommitWitness(n, h, x.commitIndex, x.log, x.currentTerm, t1, i1);
      var t2, i2 :| CommitWitness(n, h, y.commitIndex, y.log, y.currentTerm, t2, i2);
      CommittedAgree(n, h, t1, i1, t2, i2, i);
      assert x.log[i] == x.log[..x.commitIndex + 1][i] == h.leaderLog[t1][i];
      assert y.log[i] == y.log[..y.commitIndex + 1][i] == h.leaderLog[t2][i];
    } else {
      RootsEqual(h, x.log, y.log);
    }
  }

  lemma {:induction false} RootsEqual(h: History, a: Log, b: Log)
    requires LogOk(h, a) && LogOk(h, b)
    ensures a[0] == b[0]
  {
  }
}
