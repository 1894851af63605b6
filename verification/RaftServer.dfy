/** One Raft server (src/raft/raft.go).  The lock regions of the source are
    functions from server states to server states; `Raft` is the object that
    performs them in place and is proved equal to them.  An index out of range,
    a panic in the source, is a missing result. */
module RaftServer {
  import opened Collections

  /** `interface{}` commands; the placeholder at index 0 of a log holds none. */
  datatype Command = Nil | Command(payload: string)

  datatype LogEntry = LogEntry(entry: Command, term: int)

  type Log = seq<LogEntry>

  datatype Role = Leader | Candidate | Follower

  datatype Server = Server(
    currentTerm: int,
    voteFor: int,          // -1 for nobody
    log: Log,
    commitIndex: int,
    lastApplied: int,
    nextIndex: seq<int>,
    matchIndex: seq<int>,
    role: Role)

  datatype AppendArgs = AppendArgs(term: int, leaderId: int, prevLogIndex: int, prevLogTerm: int, entries: Log, leaderCommit: int)
  datatype AppendReply = AppendReply(term: int, success: bool)
  datatype VoteArgs = VoteArgs(term: int, candidateId: int, lastLogIndex: int, lastLogTerm: int)
  datatype VoteReply = VoteReply(term: int, voteGranted: bool)

  const ROOT: LogEntry := LogEntry(Nil, 0)

  /** A fresh server (raft.go:691-704). */
  function Make(n: nat): Server {
    Server(0, -1, [ROOT], 0, 0, Fill(n, 1), Fill(n, 0), Follower)
  }

  // ---- elections ------------------------------------------------------------------

  /** raft.go:805-817. */
  function Campaign(s: Server, me: nat): Server {
    if s.role == Leader then s
    else s.(role := Candidate, currentTerm := s.currentTerm + 1, voteFor := me)
  }

  /** Term of the last entry, -1 for an empty log (raft.go:432-436, 543-547). */
  function LastTerm(log: Log): int {
    if |log| > 1 then log[|log| - 1].term else -1
  }

  /** raft.go:424-437. */
  function MakeVoteArgs(s: Server, me: nat): VoteArgs {
    VoteArgs(s.currentTerm, me, |s.log| - 1, LastTerm(s.log))
  }

  /** The candidate's log is at least as up to date as ours (raft.go:555). */
  predicate UpToDate(lastTerm: int, lastIndex: int, log: Log) {
    |log| == 1 || lastTerm > LastTerm(log) || (lastTerm == LastTerm(log) && lastIndex >= |log| - 1)
  }

  function Advance(s: Server, term: int): Server {
    if term > s.currentTerm then s.(currentTerm := term, voteFor := -1, role := Follower) else s
  }

  /** RequestVoteReply (raft.go:538-576). */
  function OnVote(s: Server, args: VoteArgs): (Server, VoteReply) {
    var t := Advance(s, args.term);
    if args.term >= t.currentTerm && UpToDate(args.lastLogTerm, args.lastLogIndex, s.log) &&
       (t.voteFor == -1 || t.voteFor == args.candidateId) then
      (t.(voteFor := args.candidateId), VoteReply(t.currentTerm, true))
    else
      (t, VoteReply(t.currentTerm, false))
  }

  function Fill(n: nat, value: int): seq<int> {
    seq(n, _ => value)
  }

  /** The reply handler of RequestVote (raft.go:473-509), with its vote count. */
  function OnVoteReply(s: Server, args: VoteArgs, reply: VoteReply, voteNum: nat, n: nat): (Server, nat) {
    if s.currentTerm != args.term || s.role != Candidate then (s, voteNum)
    else if reply.voteGranted then
      if voteNum + 1 > n / 2 then (s.(role := Leader, nextIndex := Fill(|s.nextIndex|, |s.log|)), voteNum + 1)
      else (s, voteNum + 1)
    else if s.currentTerm < reply.term then
      (s.(currentTerm := reply.term, voteFor := -1, role := Follower), voteNum)
    else (s, voteNum)
  }

  // ---- replication: the sender ------------------------------------------------------

  /** The arguments that RequestHeartBeat sends (raft.go:201-220). */
  function MakeAppendArgs(s: Server, me: nat, to: nat): Option<AppendArgs> {
    if to >= |s.nextIndex| then None
    else
      var next := s.nextIndex[to];
      if |s.log| - 1 < next then
        if 0 <= next - 1 < |s.log| then Some(AppendArgs(s.currentTerm, me, next - 1, s.log[next - 1].term, [], s.commitIndex))
        else None
      else if next > 1 then
        Some(AppendArgs(s.currentTerm, me, next - 1, s.log[next - 1].term, s.log[next..], s.commitIndex))
      else if next >= 0 then
        Some(AppendArgs(s.currentTerm, me, 0, -1, s.log[next..], s.commitIndex))
      else None
  }

  /** How many servers, the leader included, are known to hold index cmt. */
  function Holders(matchIndex: seq<int>, me: nat, cmt: int): nat {
    if matchIndex == [] then 1
    else
      var n := |matchIndex| - 1;
      Holders(matchIndex[..n], me, cmt) + if n != me && matchIndex[n] >= cmt then 1 else 0
  }

  /** The reply handler of RequestHeartBeat (raft.go:222-259). */
  function OnAppendReply(s: Server, me: nat, from: nat, args: AppendArgs, reply: AppendReply, n: nat): Option<Server> {
    if args.term != s.currentTerm then Some(s)
    else if reply.term > s.currentTerm then Some(s.(currentTerm := reply.term, voteFor := -1, role := Follower))
    else if from >= |s.nextIndex| || from >= |s.matchIndex| then None
    else if !reply.success then Some(s.(nextIndex := s.nextIndex[from := s.nextIndex[from] - 1]))
    else if args.entries == [] then Some(s)
    else
      var cmt := args.prevLogIndex + |args.entries|;
      var t := s.(nextIndex := s.nextIndex[from := cmt + 1], matchIndex := s.matchIndex[from := cmt]);
      if s.commitIndex < cmt && Holders(t.matchIndex, me, cmt) > n / 2 then
        if 0 <= cmt < |s.log| then
          Some(if s.log[cmt].term == s.currentTerm then t.(commitIndex := cmt) else t)
        else None
      else Some(t)
  }

  /** The append of Start (raft.go:640-643); `term` was read in an earlier lock
      region. */
  function Append(s: Server, term: int, command: Command): Server {
    s.(log := s.log + [LogEntry(command, term)])
  }

  // ---- replication: the receiver ------------------------------------------------------

  /** The two-pointer merge (raft.go:342-362): keep what agrees, cut at the first
      conflict, append the rest. */
  function MergeAt(log: Log, at: nat, entries: Log): Log
    decreases |entries|
  {
    if entries == [] then log
    else if at >= |log| then log + entries
    else if entries[0].term == log[at].term then MergeAt(log, at + 1, entries[1..])
    else log[..at] + entries
  }

  function Clamp(leaderCommit: int, log: Log): int {
    if |log| - 1 >= leaderCommit then leaderCommit else |log| - 1
  }

  /** What both branches of the handler do before looking at the log. */
  function Follow(s: Server, args: AppendArgs): Server {
    s.(currentTerm := args.term, voteFor := args.leaderId, role := Follower)
  }

  /** RequestAppendEntriesReply (raft.go:266-388). */
  function OnAppend(s: Server, args: AppendArgs): Option<(Server, AppendReply)> {
    if args.term < s.currentTerm then Some((s, AppendReply(s.currentTerm, false)))
    else
      var t := Follow(s, args);
      var refuse := Some((t, AppendReply(args.term, false)));
      if args.entries == [] then
        if |s.log| - 1 < args.prevLogIndex then refuse
        else if args.prevLogIndex < 0 then None
        else if s.log[args.prevLogIndex].term != args.prevLogTerm then refuse
        else
          var commit := if args.leaderCommit > s.commitIndex then Clamp(args.leaderCommit, s.log) else s.commitIndex;
          Some((t.(commitIndex := commit), AppendReply(args.term, true)))
      else if args.prevLogIndex != 0 && |s.log| < args.prevLogIndex + 1 then refuse
      else if args.prevLogIndex < 0 then None
      else if args.prevLogIndex != 0 && s.log[args.prevLogIndex].term != args.prevLogTerm then refuse
      else
        var log := MergeAt(s.log, args.prevLogIndex + 1, args.entries);
        Some((t.(log := log, commitIndex := Clamp(args.leaderCommit, log)), AppendReply(args.term, true)))
  }

  // ---- applying -------------------------------------------------------------------------

  /** One turn of the applier (raft.go:772-781): the command sent, if any. */
  function Apply(s: Server): Option<(Server, Option<Command>)> {
    if s.commitIndex > s.lastApplied then
      var i := s.lastApplied + 1;
      if 0 <= i < |s.log| then Some((s.(lastApplied := i), Some(s.log[i].entry))) else None
    else Some((s, None))
  }

  // ---- what the merge does ----------------------------------------------------------------

  /** How many of the entries agree in term with the log from `at` on. */
  ghost function Common(log: Log, at: nat, entries: Log): (k: nat)
    requires at <= |log|
    ensures k <= |entries| && at + k <= |log|
    ensures forall j :: 0 <= j < k ==> log[at + j].term == entries[j].term
    ensures k < |entries| && at + k < |log| ==> log[at + k].term != entries[k].term
    decreases |entries|
  {
    if entries == [] || at == |log| || entries[0].term != log[at].term then 0
    else
      var k := Common(log, at + 1, entries[1..]);
      CommonCons(log, at, entries, k);
      k + 1
  }

  lemma {:induction false} CommonCons(log: Log, at: nat, entries: Log, k: nat)
    requires entries != [] && k < |entries| && at + k < |log| && log[at].term == entries[0].term
    requires forall j :: 0 <= j < k ==> log[at + 1 + j].term == entries[1..][j].term
    ensures forall j :: 0 <= j < k + 1 ==> log[at + j].term == entries[j].term
  {
    forall j | 0 <= j < k + 1
      ensures log[at + j].term == entries[j].term
    {
      if j > 0 {
        assert log[at + 1 + (j - 1)].term == entries[1..][j - 1].term;
      }
    }
  }

  /** The merge in one line. */
  lemma {:induction false} MergeForm(log: Log, at: nat, entries: Log)
    requires at <= |log|
    ensures var k := Common(log, at, entries);
            MergeAt(log, at, entries) == if k == |entries| then log else log[..at + k] + entries[k..]
    decreases |entries|
  {
    if entries != [] && at < |log| && entries[0].term == log[at].term {
      MergeForm(log, at + 1, entries[1..]);
      var k := Common(log, at, entries);
      if k < |entries| {
        assert entries[1..][k - 1..] == entries[k..];
      }
    }
  }

  /** Below the insertion point nothing changes, index 0 in particular; all sent
      terms are there afterwards; and the log is cut only at a conflict. */
  lemma {:induction false} MergeMeaning(log: Log, at: nat, entries: Log)
    requires at <= |log|
    ensures var r := MergeAt(log, at, entries);
            && |r| >= at + |entries|
            && r[..at] == log[..at]
            && (forall j :: 0 <= j < |entries| ==> r[at + j].term == entries[j].term)
            && (log <= r || exists j :: 0 <= j < |entries| && at + j < |log| && log[at + j].term != entries[j].term)
  {
    MergeForm(log, at, entries);
    var k := Common(log, at, entries);
    if k < |entries| && at + k == |log| {
      assert log[..at + k] == log;
    }
  }

  /** Merging the same entries again changes nothing. */
  lemma {:induction false} MergeIdempotent(log: Log, at: nat, entries: Log)
    requires at <= |log|
    ensures MergeAt(MergeAt(log, at, entries), at, entries) == MergeAt(log, at, entries)
  {
    MergeMeaning(log, at, entries);
    var r := MergeAt(log, at, entries);
    MergeForm(r, at, entries);
    assert Common(r, at, entries) == |entries|;
  }

  // ---- the server object ---------------------------------------------------------------------

  class Raft {
    const me: nat
    const peers: nat
    var currentTerm: int
    var voteFor: int
    var log: Log
    var commitIndex: int
    var lastApplied: int
    var nextIndex: seq<int>
    var matchIndex: seq<int>
    var role: Role

    ghost function View(): Server
      reads this
    {
      Server(currentTerm, voteFor, log, commitIndex, lastApplied, nextIndex, matchIndex, role)
    }

    constructor (peers: nat, me: nat)
      ensures View() == Make(peers) && this.me == me && this.peers == peers
    {
      this.me, this.peers := me, peers;
      role, voteFor, currentTerm := Follower, -1, 0;
      log := [ROOT];
      lastApplied, commitIndex := 0, 0;
      nextIndex := seq(peers, _ => 1);
      matchIndex := seq(peers, _ => 0);
    }

    method StartElection()
      modifies this
      ensures View() == Campaign(old(View()), me)
    {
      if role == Leader {
        return;
      }
      role := Candidate;
      currentTerm := currentTerm + 1;
      voteFor := me;
    }

    /** RequestVoteReply. */
    method HandleVote(args: VoteArgs) returns (reply: VoteReply)
      modifies this
      ensures (View(), reply) == OnVote(old(View()), args)
    {
      var lastLogTerm := if |log| > 1 then log[|log| - 1].term else -1;
      var lastLogIndex := |log| - 1;
      if args.term > currentTerm {
        currentTerm := args.term;
        voteFor := -1;
        role := Follower;
      }
      if args.term >= currentTerm &&
         (|log| == 1 || args.lastLogTerm > lastLogTerm ||
          (args.lastLogTerm == lastLogTerm && args.lastLogIndex >= lastLogIndex)) {
        if voteFor == -1 || voteFor == args.candidateId {
          reply := VoteReply(currentTerm, true);
          voteFor := args.candidateId;
        } else {
          reply := VoteReply(currentTerm, false);
        }
      } else {
        reply := VoteReply(currentTerm, false);
      }
    }

    method HandleVoteReply(args: VoteArgs, reply: VoteReply, voteNum: nat) returns (voteNum': nat)
      modifies this
      ensures (View(), voteNum') == OnVoteReply(old(View()), args, reply, voteNum, peers)
    {
      voteNum' := voteNum;
      if currentTerm != args.term || role != Candidate {
        return;
      }
      if reply.voteGranted {
        voteNum' := voteNum + 1;
        if voteNum' > peers / 2 {
          role := Leader;
          for i := 0 to |nextIndex|
            invariant |nextIndex| == |old(nextIndex)| && nextIndex[..i] == Fill(i, |log|)
            invariant role == Leader && currentTerm == old(currentTerm) && voteFor == old(voteFor) && log == old(log)
            invariant commitIndex == old(commitIndex) && lastApplied == old(lastApplied) && matchIndex == old(matchIndex)
          {
            nextIndex := nextIndex[i := |log|];
          }
          assert nextIndex[..|nextIndex|] == nextIndex;
        }
      } else if currentTerm < reply.term {
        currentTerm := reply.term;
        voteFor := -1;
        role := Follower;
      }
    }

    /** RequestAppendEntriesReply; `ok` is false where the source panics. */
    method HandleAppend(args: AppendArgs) returns (ok: bool, reply: AppendReply)
      modifies this
      ensures ok <==> OnAppend(old(View()), args).Some?
      ensures ok ==> (View(), reply) == OnAppend(old(View()), args).value
    {
      reply := AppendReply(currentTerm, false);
      if args.entries == [] && args.term >= currentTerm {
        currentTerm := args.term;
        voteFor := args.leaderId;
        role := Follower;
        if |log| - 1 < args.prevLogIndex {
          return true, AppendReply(currentTerm, false);
        }
        if args.prevLogIndex < 0 {
          return false, reply;
        }
        if log[args.prevLogIndex].term != args.prevLogTerm {
          return true, AppendReply(currentTerm, false);
        }
        if args.leaderCommit > commitIndex {
          commitIndex := if |log| - 1 >= args.leaderCommit then args.leaderCommit else |log| - 1;
        }
        return true, AppendReply(currentTerm, true);
      } else if args.term >= currentTerm {
        currentTerm := args.term;
        voteFor := args.leaderId;
        role := Follower;
        if args.prevLogIndex != 0 && |log| < args.prevLogIndex + 1 {
          return true, AppendReply(currentTerm, false);
        }
        if args.prevLogIndex < 0 {
          return false, reply;
        }
        if args.prevLogIndex != 0 && log[args.prevLogIndex].term != args.prevLogTerm {
          return true, AppendReply(currentTerm, false);
        }
        MergeEntries(args.prevLogIndex + 1, args.entries);
        commitIndex := if |log| - 1 >= args.leaderCommit then args.leaderCommit else |log| - 1;
        return true, AppendReply(currentTerm, true);
      }
      return true, AppendReply(currentTerm, false);
    }

    /** raft.go:342-362. */
    method MergeEntries(at: nat, entries: Log)
      modifies this`log
      ensures log == MergeAt(old(log), at, entries)
    {
      var entriesIdx, logIdx := 0, at;
      while entriesIdx < |entries| && logIdx < |log| && entries[entriesIdx].term == log[logIdx].term
        invariant 0 <= entriesIdx <= |entries| && logIdx == at + entriesIdx
        invariant log == old(log)
        invariant MergeAt(log, at, entries) == MergeAt(log, logIdx, entries[entriesIdx..])
      {
        assert entries[entriesIdx..][1..] == entries[entriesIdx + 1..];
        entriesIdx := entriesIdx + 1;
        logIdx := logIdx + 1;
      }
      if logIdx <= |log| - 1 && entriesIdx <= |entries| - 1 {
        log := log[..logIdx] + entries[entriesIdx..];
      } else if logIdx >= |log| && entriesIdx < |entries| {
        log := log + entries[entriesIdx..];
      }
    }

    /** The reply handler of RequestHeartBeat. */
    method HandleAppendReply(from: nat, args: AppendArgs, reply: AppendReply) returns (ok: bool)
      modifies this
      ensures ok <==> OnAppendReply(old(View()), me, from, args, reply, peers).Some?
      ensures ok ==> View() == OnAppendReply(old(View()), me, from, args, reply, peers).value
    {
      if args.term != currentTerm {
        return true;
      }
      if reply.term > currentTerm {
        currentTerm := reply.term;
        voteFor := -1;
        role := Follower;
        return true;
      }
      if from >= |nextIndex| || from >= |matchIndex| {
        return false;
      }
      if args.entries != [] && reply.success {
        nextIndex := nextIndex[from := args.prevLogIndex + |args.entries| + 1];
        matchIndex := matchIndex[from := args.prevLogIndex + |args.entries|];
        var cmt := matchIndex[from];
        if commitIndex < cmt {
          var cnt := CountHolders(cmt);
          if cnt > peers / 2 {
            if !(0 <= cmt < |log|) {
              return false;
            }
            if log[cmt].term == currentTerm {
              commitIndex := cmt;
            }
          }
        }
      } else if !reply.success {
        nextIndex := nextIndex[from := nextIndex[from] - 1];
      }
      return true;
    }

    /** The counting loop of raft.go:237-251.  The source stops as soon as the
        count suffices and the term is right; the outcome is the same. */
    method CountHolders(cmt: int) returns (cnt: nat)
      ensures cnt == Holders(matchIndex, me, cmt)
    {
      cnt := 1;
      for i := 0 to |matchIndex|
        invariant cnt == Holders(matchIndex[..i], me, cmt)
      {
        assert matchIndex[..i + 1][..i] == matchIndex[..i];
        if i != me && matchIndex[i] >= cmt {
          cnt := cnt + 1;
        }
      }
      assert matchIndex[..|matchIndex|] == matchIndex;
    }

    /** One turn of the applier; the command to send on the apply channel. */
    method ApplyNext() returns (ok: bool, msg: Option<Command>)
      modifies this`lastApplied
      ensures ok <==> Apply(old(View())).Some?
      ensures ok ==> (View(), msg) == Apply(old(View())).value
    {
      if commitIndex > lastApplied {
        if !(0 <= lastApplied + 1 < |log|) {
          return false, None;
        }
        lastApplied := lastApplied + 1;
        return true, Some(log[lastApplied].entry);
      }
      return true, None;
    }
  }
}
