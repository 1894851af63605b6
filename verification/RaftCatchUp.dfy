/** A follower that has fallen behind or diverged: each refusal lowers nextIndex until the
    leader's whole log is taken over (src/raft/raft.go:201-259 and 266-388). */
module RaftCatchUp {
  import opened Collections
  import opened RaftServer
  import opened RaftSystem
  import opened RaftInvariant
  import opened RaftReplication
  import opened RaftRules
  import opened RaftSafety

  /** Equal terms at an index mean equal logs up to it. */
  ghost predicate Matched(a: Log, b: Log) {
    forall i :: 0 <= i < |a| && i < |b| && a[i].term == b[i].term ==> a[..i + 1] == b[..i + 1]
  }

  /** A leader, and a receiver that is in no later term. */
  ghost predicate Ready(n: nat, to: nat, leader: Server, follower: Server) {
    && to < n && |leader.nextIndex| == |leader.matchIndex| == n
    && 1 <= leader.nextIndex[to] <= |leader.log|
    && follower.currentTerm <= leader.currentTerm
    && |follower.log| > 0 && leader.log[0] == follower.log[0]
    && Matched(leader.log, follower.log)
  }

  /** One request, its handling, and the handling of the reply. */
  ghost predicate Exchange(n: nat, me: nat, to: nat, leader: Server, follower: Server,
                           leader': Server, follower': Server, accepted: bool) {
    var sent := MakeAppendArgs(leader, me, to);
    && sent.Some?
    && var handled := OnAppend(follower, sent.value);
       && handled.Some? && follower' == handled.value.0 && accepted == handled.value.1.success
       && OnAppendReply(leader, me, to, sent.value, handled.value.1, n) == Some(leader')
  }

  /** How many leading entries of the two logs agree. */
  ghost function Agreed(leader: Server, follower: Server): nat {
    Common(follower.log, 0, leader.log)
  }

  /** Entry i is the same in both logs. */
  predicate SameAt(a: Log, b: Log, i: nat) {
    i < |a| && i < |b| && a[i] == b[i]
  }

  lemma {:induction false} SameBelow(a: Log, b: Log, i: nat)
    requires Matched(a, b) && i < |a| && i < |b| && a[i].term == b[i].term
    ensures a[..i + 1] == b[..i + 1]
    ensures forall j: nat :: j <= i ==> SameAt(a, b, j)
  {
    forall j: nat | j <= i
      ensures SameAt(a, b, j)
    {
      assert a[j] == a[..i + 1][j] == b[..i + 1][j] == b[j];
    }
  }

  lemma {:induction false} AgreedBelow(leader: Log, log: Log, i: nat)
    requires Matched(leader, log) && |log| > 0 && |leader| > 0 && leader[0] == log[0] && i < |leader|
    ensures i < Common(log, 0, leader) <==> i < |log| && log[i].term == leader[i].term
    ensures Common(log, 0, leader) >= 1
  {
    var a := Common(log, 0, leader);
    assert a < |leader| && a < |log| ==> log[0 + a].term != leader[a].term;
    assert forall j :: 0 <= j < a ==> log[0 + j].term == leader[j].term;
    if i < |log| && log[i].term == leader[i].term {
      SameBelow(leader, log, i);
      assert a <= i ==> SameAt(leader, log, a);
    }
  }

  /** The log that the follower should end with: the leader's, unless it extends that. */
  function Caught(leader: Log, log: Log): Log {
    if leader <= log then log else leader
  }

  /** Merging the leader's log from an agreed place on. */
  lemma {:induction false} MergesAll(leader: Log, log: Log, at: nat)
    requires Matched(leader, log) && 1 <= at < |leader| && at <= |log| && leader[..at] == log[..at]
    ensures MergeAt(log, at, leader[at..]) == Caught(leader, log)
  {
    var entries := leader[at..];
    MergeForm(log, at, entries);
    var k := Common(log, at, entries);
    KeptPiece(leader, log, at, k);
    hide Common, MergeAt, Matched;
    assert entries[k..] == leader[at + k..];
    assert leader == leader[..at + k] + leader[at + k..];
  }

  lemma {:induction false} PrefixSame(a: Log, b: Log)
    ensures a <= b <==> |a| <= |b| && forall j: nat :: j < |a| ==> SameAt(a, b, j)
  {
    if |a| <= |b| && forall j: nat :: j < |a| ==> SameAt(a, b, j) {
      forall j | 0 <= j < |a|
        ensures a[j] == b[j]
      {
        assert SameAt(a, b, j);
      }
    }
  }

  lemma {:induction false} KeptPiece(leader: Log, log: Log, at: nat, k: nat)
    requires Matched(leader, log) && 1 <= at < |leader| && at <= |log| && leader[..at] == log[..at]
    requires k == Common(log, at, leader[at..])
    ensures at + k <= |leader| && at + k <= |log| && leader[..at + k] == log[..at + k]
    ensures at + k == |leader| <==> leader <= log
  {
    var entries := leader[at..];
    PrefixSame(leader, log);
    assert leader <= log && at + k < |leader| ==> SameAt(leader, log, at + k);
    if k > 0 {
      assert log[at + (k - 1)].term == entries[k - 1].term == leader[at + k - 1].term;
      SameBelow(leader, log, at + k - 1);
    }
    assert k < |entries| && at + k < |log| ==> log[at + k].term != entries[k].term == leader[at + k].term;
  }

  /** One exchange: accepted exactly if the logs agree up to the entry before nextIndex;
      then the follower has caught up, and otherwise nextIndex is one lower. */
  lemma {:induction false} OneExchange(n: nat, me: nat, to: nat, leader: Server, follower: Server)
    returns (leader': Server, follower': Server, accepted: bool)
    requires Ready(n, to, leader, follower) && me < n
    ensures Exchange(n, me, to, leader, follower, leader', follower', accepted)
    ensures accepted <==> leader.nextIndex[to] <= Agreed(leader, follower)
    ensures leader'.log == leader.log && leader'.currentTerm == leader.currentTerm && leader'.role == leader.role
    ensures accepted ==> follower'.log == Caught(leader.log, follower.log) && NextIs(leader', to, |leader.log|)
    ensures accepted && leader.commitIndex < |leader.log| ==> follower'.commitIndex >= leader.commitIndex
    ensures !accepted ==> leader'.commitIndex == leader.commitIndex
    ensures !accepted ==>
              && follower'.log == follower.log && Ready(n, to, leader', follower')
              && leader'.nextIndex[to] == leader.nextIndex[to] - 1
  {
    hide OnAppend, OnAppendReply, MakeAppendArgs, Matched, Caught, Common;
    SendRule(leader, me, to);
    var args := MakeAppendArgs(leader, me, to).value;
    Handles(n, to, leader, follower, args);
    var handled := OnAppend(follower, args).value;
    follower', accepted := handled.0, handled.1.success;
    leader' := LearnsReply(n, me, to, leader, args, handled.1);
  }

  /** What the follower does with the request. */
  lemma {:induction false} Handles(n: nat, to: nat, leader: Server, follower: Server, args: AppendArgs)
    requires Ready(n, to, leader, follower) && args.term == leader.currentTerm && args.leaderCommit == leader.commitIndex
    requires args.prevLogIndex == leader.nextIndex[to] - 1 && args.entries == leader.log[leader.nextIndex[to]..]
    requires args.prevLogIndex > 0 || args.entries == [] ==> RaftRules.HasEntry(leader.log, args.prevLogIndex, args.prevLogTerm)
    ensures OnAppend(follower, args).Some?
    ensures var (follower', reply) := OnAppend(follower, args).value;
            && (reply.success <==> leader.nextIndex[to] <= Agreed(leader, follower))
            && reply.term == leader.currentTerm == follower'.currentTerm
            && (!reply.success ==> follower'.log == follower.log)
            && (reply.success ==> follower'.log == Caught(leader.log, follower.log))
            && (reply.success && leader.commitIndex < |leader.log| ==> follower'.commitIndex >= leader.commitIndex)
  {
    hide OnAppend, MergeAt, Matched, Common;
    var next := leader.nextIndex[to];
    AgreedBelow(leader.log, follower.log, next - 1);
    AppendRule(follower, args);
    if next <= Agreed(leader, follower) {
      AcceptedRule(follower, args);
      SameBelow(leader.log, follower.log, next - 1);
      if next < |leader.log| {
        MergesAll(leader.log, follower.log, next);
      }
    }
  }

  /** What the leader does with the reply. */
  lemma {:induction false} LearnsReply(n: nat, me: nat, to: nat, leader: Server, args: AppendArgs, reply: AppendReply)
    returns (leader': Server)
    requires to < n && me < n && |leader.nextIndex| == |leader.matchIndex| == n && 1 <= leader.nextIndex[to] <= |leader.log|
    requires args.term == reply.term == leader.currentTerm
    requires args.prevLogIndex == leader.nextIndex[to] - 1 && args.entries == leader.log[leader.nextIndex[to]..]
    ensures OnAppendReply(leader, me, to, args, reply, n) == Some(leader')
    ensures leader'.log == leader.log && leader'.currentTerm == leader.currentTerm && leader'.role == leader.role
    ensures |leader'.nextIndex| == |leader'.matchIndex| == n
    ensures leader'.nextIndex[to] == if reply.success then |leader.log| else leader.nextIndex[to] - 1
    ensures !reply.success ==> leader'.commitIndex == leader.commitIndex
  {
    hide OnAppendReply, Holders;
    if !reply.success || args.entries == [] {
      RefusalRule(leader, me, to, args, reply, n);
    } else {
      CommitRule(leader, me, to, args, reply, n);
    }
    AppendReplyRule(leader, me, to, args, reply, n);
    leader' := OnAppendReply(leader, me, to, args, reply, n).value;
  }

  predicate NextIs(leader: Server, to: nat, next: int) {
    to < |leader.nextIndex| && leader.nextIndex[to] == next
  }

  /** How many exchanges it takes. */
  ghost function Needed(to: nat, leader: Server, follower: Server): nat
    requires to < |leader.nextIndex|
  {
    if leader.nextIndex[to] <= Agreed(leader, follower) then 1 else leader.nextIndex[to] - Agreed(leader, follower) + 1
  }

  /** However far a follower's log has diverged, it catches up: in exactly as many exchanges
      as nextIndex lies above the agreed part, and one more; all but the last are refused. */
  lemma {:induction false} CatchesUp(n: nat, me: nat, to: nat, leader: Server, follower: Server)
    returns (leaders: seq<Server>, followers: seq<Server>)
    requires Ready(n, to, leader, follower) && me < n
    ensures |leaders| == |followers| == Needed(to, leader, follower) + 1
    ensures leaders[0] == leader && followers[0] == follower
    ensures forall k :: 0 <= k < |leaders| - 1 ==>
              Exchange(n, me, to, leaders[k], followers[k], leaders[k + 1], followers[k + 1], k == |leaders| - 2)
    ensures followers[|followers| - 1].log == Caught(leader.log, follower.log)
    ensures leader.commitIndex < |leader.log| ==> followers[|followers| - 1].commitIndex >= leader.commitIndex
    ensures leaders[|leaders| - 1].log == leader.log && NextIs(leaders[|leaders| - 1], to, |leader.log|)
    decreases leader.nextIndex[to]
  {
    hide Exchange, Matched, Common, NextIs;
    var leader', follower', accepted := OneExchange(n, me, to, leader, follower);
    if accepted {
      leaders, followers := [leader, leader'], [follower, follower'];
    } else {
      assert Agreed(leader', follower') == Agreed(leader, follower);
      var ls, fs := CatchesUp(n, me, to, leader', follower');
      leaders, followers := [leader] + ls, [follower] + fs;
    }
  }

  // ---- in a run ---------------------------------------------------------------------------

  /** In a run under E1 to E5 a leader and a server in no later term are ready, unless
      nextIndex has fallen below 1. */
  lemma {:induction false} ReadyInRun(n: nat, states: seq<System>, actions: seq<Action>, k: nat, id: nat, to: nat)
    requires GoodRun(n, states, actions) && k < |states| && id < n && to < n
    requires states[k].servers[id].role == Leader && states[k].servers[to].currentTerm <= states[k].servers[id].currentTerm
    requires to < |states[k].servers[id].nextIndex| && states[k].servers[id].nextIndex[to] >= 1
    ensures Ready(n, to, states[k].servers[id], states[k].servers[to])
    ensures states[k].servers[id].commitIndex < |states[k].servers[id].log|
  {
    var s := states[k];
    InvRun(n, states, actions, k);
    LogFacts(n, s, id);
    LogFacts(n, s, to);
    assert ServerOk(n, s.hist, id, s.servers[id]);
    LeaderFacts(n, s.hist, id, s.servers[id]);
    LogsMatched(s.hist, s.servers[id].log, s.servers[to].log);
  }

  lemma {:induction false} LogFacts(n: nat, s: System, id: nat)
    requires Inv(n, s) && id < n
    ensures HistOk(n, s.hist) && RaftInvariant.LogOk(s.hist, s.servers[id].log)
    ensures |s.servers[id].log| > 0 && s.servers[id].log[0] == ROOT
  {
    assert ServerOk(n, s.hist, id, s.servers[id]);
  }

  lemma {:induction false} LogsMatched(h: History, a: Log, b: Log)
    requires RaftInvariant.LogOk(h, a) && RaftInvariant.LogOk(h, b)
    ensures Matched(a, b)
  {
    forall i | 0 <= i < |a| && i < |b| && a[i].term == b[i].term
      ensures a[..i + 1] == b[..i + 1]
    {
      RaftInvariant.LogMatching(h, a, b, i);
    }
  }

  lemma {:induction false} RunSnoc(n: nat, states: seq<System>, actions: seq<Action>, a: Action, s': System)
    requires GoodRun(n, states, actions) && Sized(n, s')
    requires Next(n, states[|actions|], a, s') && Relied(n, states[|actions|], a)
    ensures GoodRun(n, states + [s'], actions + [a])
  {
    hide Next, Relied;
  }

  lemma {:induction false} RunSized(n: nat, states: seq<System>, actions: seq<Action>)
    requires GoodRun(n, states, actions)
    ensures |states| == |actions| + 1 && Sized(n, states[|actions|])
  {
  }

  /** An exchange is three steps of the cluster: send, handle, handle the reply. */
  lemma {:induction false} ThreeSteps(n: nat, s: System, id: nat, to: nat, leader': Server, follower': Server, accepted: bool)
    returns (r: Request, ack: Ack, s1: System, s2: System, s3: System)
    requires Sized(n, s) && id < n && to < n && id != to && s.servers[id].role == Leader
    requires to < |s.servers[id].nextIndex| && s.servers[id].nextIndex[to] >= 1
    requires Exchange(n, id, to, s.servers[id], s.servers[to], leader', follower', accepted)
    ensures Sized(n, s1) && Next(n, s, SendAppend(id, to), s1) && Relied(n, s, SendAppend(id, to))
    ensures Sized(n, s2) && Next(n, s1, HandleAppend(r), s2) && Relied(n, s1, HandleAppend(r))
    ensures Sized(n, s3) && Next(n, s2, HandleAck(ack), s3) && Relied(n, s2, HandleAck(ack))
    ensures s3.servers == s.servers[to := follower'][id := leader']
  {
    hide OnAppend, OnAppendReply, MakeAppendArgs;
    var args := MakeAppendArgs(s.servers[id], id, to).value;
    AppendFrom(s.servers[id], id, to);
    r := Request(to, args);
    s1 := DoSendAppend(s, id, to);
    s2 := DoHandleAppend(s1, r);
    ack := Ack(to, args, OnAppend(s.servers[to], args).value.1);
    s3 := DoHandleAck(n, s2, ack);
  }

  lemma {:induction false} ExchangeRun(n: nat, states: seq<System>, actions: seq<Action>, id: nat, to: nat,
                                       leader': Server, follower': Server, accepted: bool)
    returns (states': seq<System>, actions': seq<Action>)
    requires GoodRun(n, states, actions) && id < n && to < n && id != to
    requires states[|actions|].servers[id].role == Leader
    requires to < |states[|actions|].servers[id].nextIndex| && states[|actions|].servers[id].nextIndex[to] >= 1
    requires Exchange(n, id, to, states[|actions|].servers[id], states[|actions|].servers[to], leader', follower', accepted)
    ensures GoodRun(n, states', actions') && states <= states' && actions <= actions' && |actions'| == |actions| + 3
    ensures states'[|actions'|].servers == states[|actions|].servers[to := follower'][id := leader']
  {
    RunSized(n, states, actions);
    hide GoodRun, Next, Relied, Exchange;
    var r, ack, s1, s2, s3 := ThreeSteps(n, states[|actions|], id, to, leader', follower', accepted);
    RunSnoc(n, states, actions, SendAppend(id, to), s1);
    RunSnoc(n, states + [s1], actions + [SendAppend(id, to)], HandleAppend(r), s2);
    RunSnoc(n, states + [s1] + [s2], actions + [SendAppend(id, to)] + [HandleAppend(r)], HandleAck(ack), s3);
    states', actions' := states + [s1] + [s2] + [s3], actions + [SendAppend(id, to)] + [HandleAppend(r)] + [HandleAck(ack)];
  }

  /** Every run under E1 to E5 can be continued so that a server in no later term than a
      leader holds the leader's log and has committed what the leader had. */
  lemma {:induction false} CatchUpRun(n: nat, states: seq<System>, actions: seq<Action>, id: nat, to: nat)
    returns (states': seq<System>, actions': seq<Action>)
    requires GoodRun(n, states, actions) && id < n && to < n && id != to
    requires states[|actions|].servers[id].role == Leader
    requires states[|actions|].servers[to].currentTerm <= states[|actions|].servers[id].currentTerm
    requires to < |states[|actions|].servers[id].nextIndex| && states[|actions|].servers[id].nextIndex[to] >= 1
    ensures GoodRun(n, states', actions') && states <= states' && actions <= actions'
    ensures states'[|actions'|].servers[id].log == states[|actions|].servers[id].log
    ensures states'[|actions'|].servers[to].log == Caught(states[|actions|].servers[id].log, states[|actions|].servers[to].log)
    ensures states'[|actions'|].servers[to].commitIndex >= states[|actions|].servers[id].commitIndex
    decreases states[|actions|].servers[id].nextIndex[to]
  {
    hide Exchange, Matched, Common, NextIs, Caught, Next, Relied;
    var s := states[|actions|];
    ReadyInRun(n, states, actions, |actions|, id, to);
    var leader', follower', accepted := OneExchange(n, id, to, s.servers[id], s.servers[to]);
    states', actions' := ExchangeRun(n, states, actions, id, to, leader', follower', accepted);
    if !accepted {
      states', actions' := CatchUpRun(n, states', actions', id, to);
    }
  }
}
