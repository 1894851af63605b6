/** What every run that keeps E1 to E5 maintains, and what follows from it:
    log matching, leader completeness, and agreement on committed entries
    (sections 5.2 to 5.4 of the extended Raft paper, for the code's own rules). */
module RaftInvariant {
  import opened Collections
  import opened RaftServer
  import opened RaftSystem

  // ---- logs --------------------------------------------------------------------------

  /** Up to entry i, the log is that of the leader of entry i's term. */
  ghost predicate EntryOk(h: History, log: Log, i: nat)
    requires 0 < i < |log|
  {
    var t := log[i].term;
    t in h.leaderLog && i < |h.leaderLog[t]| && log[..i + 1] == h.leaderLog[t][..i + 1]
  }

  ghost predicate LogOk(h: History, log: Log) {
    && |log| > 0
    && log[0] == ROOT
    && forall i :: 0 < i < |log| ==> EntryOk(h, log, i)
  }

  ghost predicate TermsBelow(log: Log, bound: int) {
    forall i :: 0 <= i < |log| ==> log[i].term <= bound
  }

  ghost predicate TermsSorted(log: Log) {
    forall i, j :: 0 <= i <= j < |log| ==> log[i].term <= log[j].term
  }

  // ---- votes --------------------------------------------------------------------------

  ghost predicate VotedFor(h: History, voter: nat, term: int, cand: int) {
    || ((voter, term) in h.ballots && h.ballots[(voter, term)].cand == cand)
    || (term in h.elected && h.elected[term] == cand)
  }

  ghost predicate EarlyVote(h: History, voter: nat, term: int, cand: int) {
    (voter, term) in h.ballots && h.ballots[(voter, term)].early && h.ballots[(voter, term)].cand == cand
  }

  ghost function EarlyVoters(n: nat, h: History, term: int, cand: int): set<nat> {
    set v | v in Servers(n) && EarlyVote(h, v, term, cand)
  }

  ghost function Servers(n: nat): (r: set<nat>)
    ensures forall i :: i in r <==> 0 <= i < n
    ensures |r| == n
  {
    if n == 0 then {} else Servers(n - 1) + {n - 1}
  }

  /** Two majorities meet. */
  lemma {:induction false} Quorums(n: nat, a: set<nat>, b: set<nat>) returns (v: nat)
    requires a <= Servers(n) && b <= Servers(n) && 2 * |a| > n && 2 * |b| > n
    ensures v in a && v in b
  {
    if a * b == {} {
      assert |a + b| == |a| + |b|;
      SubsetSize(a + b, Servers(n));
      assert false;
    }
    v :| v in a * b;
  }

  // ---- commitment ------------------------------------------------------------------------

  ghost function Holding(n: nat, h: History, term: int, i: int): set<nat> {
    set v | v in Servers(n) && (v, term) in h.acked && h.acked[(v, term)] >= i
  }

  /** Entry i of the leader of `term` is from that term and a majority has it. */
  ghost predicate Committed(n: nat, h: History, term: int, i: int) {
    && term in h.leaderLog
    && 0 < i < |h.leaderLog[term]|
    && h.leaderLog[term][i].term == term
    && 2 * |Holding(n, h, term, i)| > n
  }

  ghost predicate CommitWitness(n: nat, h: History, k: int, log: Log, bound: int, term: int, i: int) {
    Committed(n, h, term, i) && 0 <= k <= i && k < |log| && term <= bound && log[..k + 1] == h.leaderLog[term][..k + 1]
  }

  /** The log up to k is committed, by a leader of a term up to `bound`. */
  ghost predicate CommitOk(n: nat, h: History, k: int, log: Log, bound: int) {
    0 <= k < |log| && (k == 0 || exists term, i :: CommitWitness(n, h, k, log, bound, term, i))
  }

  /** If all leaders after `term` up to `bound` have the first i entries of the
      log of `term`, then so does this log. */
  ghost predicate Retains(h: History, log: Log, term: int, i: nat, bound: int)
    requires term in h.leaderLog && i < |h.leaderLog[term]|
  {
    LaterHave(h, term, i, bound) ==> h.leaderLog[term][..i + 1] <= log
  }

  ghost predicate LaterHave(h: History, term: int, i: nat, bound: int)
    requires term in h.leaderLog && i < |h.leaderLog[term]|
  {
    forall t :: t in h.leaderLog && term < t <= bound ==> h.leaderLog[term][..i + 1] <= h.leaderLog[t]
  }

  ghost predicate RetainsAll(h: History, voter: nat, log: Log, below: int, bound: int) {
    forall term, i: nat :: (voter, term) in h.acked && term < below && i <= h.acked[(voter, term)] ==>
      RetainsAt(h, log, term, i, bound)
  }

  ghost predicate RetainsAt(h: History, log: Log, term: int, i: nat, bound: int) {
    term in h.leaderLog && i < |h.leaderLog[term]| && Retains(h, log, term, i, bound)
  }

  // ---- the history ---------------------------------------------------------------------------

  ghost predicate TermOk(n: nat, h: History, term: int)
    requires term in h.elected && term in h.electLog && term in h.leaderLog
  {
    && term >= 1
    && h.elected[term] < n
    && LogOk(h, h.leaderLog[term])
    && h.electLog[term] <= h.leaderLog[term]
    && |h.electLog[term]| > 0
    && TermsBelow(h.electLog[term], term - 1)
    && (forall i :: |h.electLog[term]| <= i < |h.leaderLog[term]| ==> h.leaderLog[term][i].term == term)
    && TermsSorted(h.leaderLog[term])
    && 2 * |EarlyVoters(n, h, term, h.elected[term])| > n
  }

  ghost predicate BallotOk(n: nat, h: History, voter: nat, term: int)
    requires (voter, term) in h.ballots
  {
    var b := h.ballots[(voter, term)];
    && voter < n
    && 0 <= b.cand < n
    && LogOk(h, b.voterLog)
    && UpToDate(b.lastTerm, b.lastIndex, b.voterLog)
    && (term !in h.elected ==> b.early)
    && (b.early ==> RetainsAll(h, voter, b.voterLog, term, term - 1))
    && (b.early && term in h.elected && term in h.electLog && h.elected[term] == b.cand ==>
          b.lastTerm == LastTerm(h.electLog[term]) && b.lastIndex == |h.electLog[term]| - 1)
  }

  ghost predicate AckedOk(h: History, voter: nat, term: int)
    requires (voter, term) in h.acked
  {
    term in h.leaderLog && h.acked[(voter, term)] < |h.leaderLog[term]|
  }

  ghost predicate HistOk(n: nat, h: History) {
    && h.elected.Keys == h.electLog.Keys == h.leaderLog.Keys
    && (forall term :: term in h.elected ==> TermOk(n, h, term))
    && (forall voter, term :: (voter, term) in h.ballots ==> BallotOk(n, h, voter, term))
    && (forall voter, term :: (voter, term) in h.acked ==> AckedOk(h, voter, term))
  }

  // ---- servers ----------------------------------------------------------------------------------

  ghost predicate Shaped(n: nat, h: History, sv: Server) {
    && sv.currentTerm >= 0
    && LogOk(h, sv.log)
    && TermsBelow(sv.log, sv.currentTerm)
    && |sv.nextIndex| == n && |sv.matchIndex| == n
    && (forall j :: 0 <= j < n ==> sv.matchIndex[j] >= 0)
    && CommitOk(n, h, sv.commitIndex, sv.log, sv.currentTerm)
  }

  /** Whatever is on record about a server happened in a term it has reached. */
  ghost predicate Dated(h: History, id: nat, term: int) {
    && (forall t :: (id, t) in h.ballots ==> t <= term)
    && (forall t :: (id, t) in h.acked ==> t <= term)
    && (forall t :: t in h.elected && h.elected[t] == id ==> t <= term)
  }

  ghost predicate VoteOk(h: History, id: nat, sv: Server) {
    && sv.voteFor >= -1
    && (sv.voteFor != -1 ==> VotedFor(h, id, sv.currentTerm, sv.voteFor))
    && ((id, sv.currentTerm) in h.ballots ==> sv.voteFor != -1)
  }

  ghost predicate Leads(h: History, id: int, term: int) {
    term in h.elected && h.elected[term] == id
  }

  ghost predicate RoleOk(n: nat, h: History, id: nat, sv: Server) {
    && |sv.nextIndex| == n && |sv.matchIndex| == n
    && (sv.role == Leader <==> Leads(h, id, sv.currentTerm))
    && (sv.role == Leader ==>
          && sv.currentTerm in h.leaderLog && sv.log == h.leaderLog[sv.currentTerm]
          && (id, sv.currentTerm) in h.acked && h.acked[(id, sv.currentTerm)] == |sv.log| - 1
          && (forall j :: 0 <= j < n ==> sv.nextIndex[j] <= |sv.log|)
          && (forall j :: 0 <= j < n && j != id ==> sv.matchIndex[j] <= Acked(h, j, sv.currentTerm)))
    && (sv.role == Candidate ==> sv.currentTerm >= 1 && sv.voteFor == id && (id, sv.currentTerm) in h.ballots && h.ballots[(id, sv.currentTerm)].cand == id)
  }

  ghost predicate ServerOk(n: nat, h: History, id: nat, sv: Server) {
    && Shaped(n, h, sv)
    && Dated(h, id, sv.currentTerm)
    && VoteOk(h, id, sv)
    && RoleOk(n, h, id, sv)
    && RetainsAll(h, id, sv.log, sv.currentTerm + 1, sv.currentTerm)
  }

  // ---- messages -------------------------------------------------------------------------------------

  /** The claim made for a candidate is true as long as it is a candidate. */
  ghost predicate ClaimOk(cand: Server, term: int, lastTerm: int, lastIndex: int) {
    && term <= cand.currentTerm
    && (term == cand.currentTerm && cand.role == Candidate ==> lastTerm == LastTerm(cand.log) && lastIndex == |cand.log| - 1)
  }

  ghost predicate ElectionOk(n: nat, h: History, servers: seq<Server>, e: Election)
    requires |servers| == n
  {
    && 0 <= e.args.candidateId < n
    && ClaimOk(servers[e.args.candidateId], e.args.term, e.args.lastLogTerm, e.args.lastLogIndex)
    && e.voteNum == 1 + |e.counted|
    && (forall v :: v in e.counted ==> v < n && v != e.args.candidateId && VotedFor(h, v, e.args.term, e.args.candidateId))
  }

  /** The elections of s' are those of s, with the same arguments, and maybe more. */
  ghost predicate SameElections(s: System, s': System) {
    |s.elections| <= |s'.elections| && forall k :: 0 <= k < |s.elections| ==> s'.elections[k].args == s.elections[k].args
  }

  ghost predicate AnswerOk(n: nat, s: System, a: Answer) {
    && a.election < |s.elections|
    && a.voter < n && a.voter != s.elections[a.election].args.candidateId
    && (a.reply.voteGranted ==>
          VotedFor(s.hist, a.voter, s.elections[a.election].args.term, s.elections[a.election].args.candidateId))
  }

  /** Entries in flight are a piece of the log of their term's leader that
      reaches at least as far as the commit index sent along. */
  ghost predicate AppendOk(n: nat, h: History, args: AppendArgs) {
    && PieceOk(h, args)
    && 0 <= args.leaderId < n
    && 0 <= args.leaderCommit <= args.prevLogIndex + |args.entries|
    && CommitOk(n, h, args.leaderCommit, h.leaderLog[args.term], args.term)
  }

  ghost predicate PieceOk(h: History, args: AppendArgs) {
    && Leads(h, args.leaderId, args.term) && args.term in h.leaderLog
    && 0 <= args.prevLogIndex
    && var log := h.leaderLog[args.term];
    && args.prevLogIndex + |args.entries| < |log|
    && args.entries == log[args.prevLogIndex + 1..args.prevLogIndex + 1 + |args.entries|]
    && (args.prevLogIndex > 0 || args.entries == [] ==> args.prevLogTerm == log[args.prevLogIndex].term)
  }

  ghost predicate RequestOk(n: nat, h: History, r: Request) {
    AppendOk(n, h, r.args) && r.to < n && r.to != r.args.leaderId
  }

  ghost predicate AckOk(n: nat, h: History, a: Ack) {
    && AppendOk(n, h, a.args) && a.from < n && a.from != a.args.leaderId
    && (a.reply.success && a.args.entries != [] ==>
          (a.from, a.args.term) in h.acked && h.acked[(a.from, a.args.term)] >= a.args.prevLogIndex + |a.args.entries|)
  }

  /** What was applied at position k is entry k of a committed log. */
  ghost predicate AppliedAt(n: nat, h: History, command: Command, k: int, term: int, i: int) {
    Committed(n, h, term, i) && 0 < k <= i && h.leaderLog[term][k].entry == command
  }

  ghost predicate AppliedOk(n: nat, h: History, sv: Server, ap: seq<Command>) {
    && sv.lastApplied == |ap|
    && forall k :: 0 <= k < |ap| ==> AppliedWell(n, h, ap[k], k + 1)
  }

  ghost predicate AppliedWell(n: nat, h: History, command: Command, k: int) {
    exists term, i :: AppliedAt(n, h, command, k, term, i)
  }

  ghost predicate Inv(n: nat, s: System) {
    && |s.servers| == n && |s.applied| == n
    && HistOk(n, s.hist)
    && (forall id: nat :: id < n ==> ServerOk(n, s.hist, id, s.servers[id]))
    && (forall voter, term :: (voter, term) in s.hist.ballots ==> BallotClaim(n, s.hist, s.servers, voter, term))
    && (forall k :: 0 <= k < |s.elections| ==> ElectionOk(n, s.hist, s.servers, s.elections[k]))
    && (forall a :: a in s.answers ==> AnswerOk(n, s, a))
    && (forall r :: r in s.requests ==> RequestOk(n, s.hist, r))
    && (forall a :: a in s.acks ==> AckOk(n, s.hist, a))
    && (forall id: nat :: id < n ==> AppliedOk(n, s.hist, s.servers[id], s.applied[id]))
  }

  ghost predicate BallotClaim(n: nat, h: History, servers: seq<Server>, voter: nat, term: int)
    requires (voter, term) in h.ballots && |servers| == n
  {
    var b := h.ballots[(voter, term)];
    0 <= b.cand < n && ClaimOk(servers[b.cand], term, b.lastTerm, b.lastIndex)
  }

  // ---- logs: consequences ---------------------------------------------------------------------------

  lemma {:induction false} NotEmpty(h: History, log: Log)
    requires LogOk(h, log)
    ensures log != []
  {
  }

  /** Leaders' logs are only added or extended. */
  ghost predicate LogsGrow(h: History, h': History) {
    forall t :: t in h.leaderLog ==> t in h'.leaderLog && h.leaderLog[t] <= h'.leaderLog[t]
  }

  lemma {:induction false} LogOkKept(h: History, h': History, log: Log)
    requires LogsGrow(h, h') && LogOk(h, log)
    ensures LogOk(h', log)
  {
    forall i | 0 < i < |log|
      ensures EntryOk(h', log, i)
    {
      assert EntryOk(h, log, i);
    }
  }

  /** Log matching: equal terms at an index mean equal logs up to there. */
  lemma {:induction false} LogMatching(h: History, a: Log, b: Log, i: nat)
    requires LogOk(h, a) && LogOk(h, b) && i < |a| && i < |b| && a[i].term == b[i].term
    ensures a[..i + 1] == b[..i + 1]
  {
    if i > 0 {
      assert EntryOk(h, a, i) && EntryOk(h, b, i);
    } else {
      assert a[..1] == [ROOT] && b[..1] == [ROOT];
    }
  }

  /** A log is the beginning of the log of the leader of its last term. */
  lemma {:induction false} LogIsPrefix(h: History, log: Log)
    requires LogOk(h, log) && |log| > 1
    ensures var t := log[|log| - 1].term; t in h.leaderLog && log <= h.leaderLog[t]
  {
    var i := |log| - 1;
    assert EntryOk(h, log, i);
    assert log[..i + 1] == log;
  }

  lemma {:induction false} LogPrefixOk(h: History, log: Log, k: nat)
    requires LogOk(h, log) && 0 < k <= |log|
    ensures LogOk(h, log[..k])
  {
    forall i | 0 < i < k
      ensures EntryOk(h, log[..k], i)
    {
      assert EntryOk(h, log, i);
      assert log[..k][..i + 1] == log[..i + 1];
    }
  }

  // ---- leader completeness ------------------------------------------------------------------------------

  /** What is committed in a term is in the log of every later leader. */
  lemma {:induction false} LeaderCompleteness(n: nat, h: History, term: int, i: nat, later: int)
    requires HistOk(n, h) && Committed(n, h, term, i) && later in h.elected && term < later
    ensures h.leaderLog[term][..i + 1] <= h.leaderLog[later]
    decreases later - term
  {
    assert TermOk(n, h, later) && TermOk(n, h, term);
    var c := h.elected[later];
    var v := Quorums(n, Holding(n, h, term, i), EarlyVoters(n, h, later, c));
    assert BallotOk(n, h, v, later);
    var b := h.ballots[(v, later)];
    forall t | t in h.leaderLog && term < t <= later - 1
      ensures h.leaderLog[term][..i + 1] <= h.leaderLog[t]
    {
      LeaderCompleteness(n, h, term, i, t);
    }
    assert RetainsAt(h, b.voterLog, term, i, later - 1);
    UpToDateHas(n, h, term, i, later, b.voterLog);
  }

  /** A log that is at least as up to date as one with the committed prefix has
      the prefix too. */
  lemma {:induction false} UpToDateHas(n: nat, h: History, term: int, i: nat, later: int, log: Log)
    requires HistOk(n, h) && term in h.elected && later in h.elected && term < later && 0 < i < |h.leaderLog[term]|
    requires h.leaderLog[term][i].term == term
    requires LogOk(h, log) && h.leaderLog[term][..i + 1] <= log
    requires UpToDate(LastTerm(h.electLog[later]), |h.electLog[later]| - 1, log)
    requires LaterHave(h, term, i, later - 1)
    ensures h.leaderLog[term][..i + 1] <= h.leaderLog[later]
  {
    assert TermOk(n, h, later) && TermOk(n, h, term);
    var p, e := h.leaderLog[term][..i + 1], h.electLog[later];
    ElectLogOk(n, h, later);
    LogIsPrefix(h, log);
    var last := log[|log| - 1].term;
    assert p[i].term == term && log[i] == p[i];
    SortedLog(n, h, log);
    assert last >= term;
    assert |e| > 1;
    LogIsPrefix(h, e);
    var t := e[|e| - 1].term;
    if t == last {
      assert log <= e;
    } else {
      assert term < t <= later - 1;
      assert p <= h.leaderLog[t];
      // an entry of term t cannot stand among the first i entries, whose terms are lower
      assert |e| > i;
      assert p <= e;
    }
  }

  lemma {:induction false} ElectLogOk(n: nat, h: History, term: int)
    requires HistOk(n, h) && term in h.elected
    ensures LogOk(h, h.electLog[term]) && TermsBelow(h.electLog[term], term - 1) && h.electLog[term] <= h.leaderLog[term]
  {
    assert TermOk(n, h, term);
    assert h.electLog[term] == h.leaderLog[term][..|h.electLog[term]|];
    LogPrefixOk(h, h.leaderLog[term], |h.electLog[term]|);
  }

  lemma {:induction false} SortedLog(n: nat, h: History, log: Log)
    requires HistOk(n, h) && LogOk(h, log)
    ensures TermsSorted(log)
  {
    if |log| > 1 {
      LogIsPrefix(h, log);
      var t := log[|log| - 1].term;
      assert TermOk(n, h, t);
      assert forall i :: 0 <= i < |log| ==> log[i] == h.leaderLog[t][i];
    }
  }

  /** Committed logs agree wherever both reach. */
  lemma {:induction false} CommittedAgree(n: nat, h: History, term: int, i: nat, term': int, i': nat, k: nat)
    requires HistOk(n, h) && Committed(n, h, term, i) && Committed(n, h, term', i') && k <= i && k <= i'
    ensures h.leaderLog[term][k] == h.leaderLog[term'][k]
  {
    if term < term' {
      LeaderCompleteness(n, h, term, i, term');
      assert h.leaderLog[term][k] == h.leaderLog[term][..i + 1][k];
    } else if term' < term {
      LeaderCompleteness(n, h, term', i', term);
      assert h.leaderLog[term'][k] == h.leaderLog[term'][..i' + 1][k];
    }
  }

  /** State machine safety: no two servers apply different commands at an index. */
  lemma {:induction false} AppliedAgree(n: nat, s: System, a: nat, b: nat, k: nat)
    requires Inv(n, s) && a < n && b < n && k < |s.applied[a]| && k < |s.applied[b]|
    ensures s.applied[a][k] == s.applied[b][k]
  {
    assert AppliedOk(n, s.hist, s.servers[a], s.applied[a]) && AppliedOk(n, s.hist, s.servers[b], s.applied[b]);
    assert AppliedWell(n, s.hist, s.applied[a][k], k + 1) && AppliedWell(n, s.hist, s.applied[b][k], k + 1);
    var t1, i1 :| AppliedAt(n, s.hist, s.applied[a][k], k + 1, t1, i1);
    var t2, i2 :| AppliedAt(n, s.hist, s.applied[b][k], k + 1, t2, i2);
    CommittedAgree(n, s.hist, t1, i1, t2, i2, k + 1);
  }
}
