/** What stays true when a server acts: the history only grows, and what is on
    record about the other servers, their logs and the messages in flight keeps
    its meaning. */
module RaftFrame {
  import opened Collections
  import opened RaftServer
  import opened RaftSystem
  import opened RaftInvariant

  /** Leaders extend their logs by entries of their own term; nothing recorded is
      ever taken back. */
  ghost predicate Grows(h: History, h': History) {
    && (forall t :: t in h.elected ==> t in h'.elected && h'.elected[t] == h.elected[t])
    && (forall t :: t in h.electLog ==> t in h'.electLog && h'.electLog[t] == h.electLog[t])
    && (forall t :: t in h.leaderLog ==> t in h'.leaderLog && LogGrows(h.leaderLog[t], h'.leaderLog[t], t))
    && (forall v, t :: (v, t) in h.ballots ==> (v, t) in h'.ballots && h'.ballots[(v, t)] == h.ballots[(v, t)])
    && (forall v, t :: (v, t) in h.acked ==> (v, t) in h'.acked && h.acked[(v, t)] <= h'.acked[(v, t)])
  }

  ghost predicate LogGrows(log: Log, log': Log, term: int) {
    log <= log' && forall i :: |log| <= i < |log'| ==> log'[i].term == term
  }

  /** All that is new concerns server x. */
  ghost predicate OnlyBy(h: History, h': History, x: nat) {
    && (forall v, t :: (v, t) in h'.ballots && v != x ==> (v, t) in h.ballots)
    && (forall v, t :: (v, t) in h'.acked && v != x ==> (v, t) in h.acked && h.acked[(v, t)] == h'.acked[(v, t)])
    && (forall t :: t in h'.elected && t !in h.elected ==> h'.elected[t] == x)
    && (forall t :: t in h.leaderLog && t in h'.leaderLog && h'.leaderLog[t] != h.leaderLog[t] ==> Leads(h, x, t))
  }

  // ---- single facts ------------------------------------------------------------------

  lemma {:induction false} GrowsSame(h: History)
    ensures Grows(h, h) && forall x: nat :: OnlyBy(h, h, x)
  {
  }

  lemma {:induction false} GrowsLogs(h: History, h': History)
    requires Grows(h, h')
    ensures LogsGrow(h, h')
  {
    forall t | t in h.leaderLog
      ensures t in h'.leaderLog && h.leaderLog[t] <= h'.leaderLog[t]
    {
      assert LogGrows(h.leaderLog[t], h'.leaderLog[t], t);
    }
  }

  lemma {:induction false} LogOkGrows(h: History, h': History, log: Log)
    requires Grows(h, h') && LogOk(h, log)
    ensures LogOk(h', log)
  {
    LogOkKept(h, h', log);
  }

  lemma {:induction false} CommittedGrows(n: nat, h: History, h': History, term: int, i: int)
    requires Grows(h, h') && Committed(n, h, term, i)
    ensures Committed(n, h', term, i)
    ensures h.leaderLog[term][..i + 1] == h'.leaderLog[term][..i + 1]
  {
    assert LogGrows(h.leaderLog[term], h'.leaderLog[term], term);
    SubsetSize(Holding(n, h, term, i), Holding(n, h', term, i));
  }

  lemma {:induction false} CommitOkGrows(n: nat, h: History, h': History, k: int, log: Log, log': Log, bound: int, bound': int)
    requires Grows(h, h') && CommitOk(n, h, k, log, bound) && bound <= bound'
    requires k < |log'| && log[..k + 1] == log'[..k + 1]
    ensures CommitOk(n, h', k, log', bound')
  {
    if k > 0 {
      var term, i :| CommitWitness(n, h, k, log, bound, term, i);
      CommittedGrows(n, h, h', term, i);
      assert h.leaderLog[term][..k + 1] == h.leaderLog[term][..i + 1][..k + 1];
      assert h'.leaderLog[term][..k + 1] == h'.leaderLog[term][..i + 1][..k + 1];
      assert CommitWitness(n, h', k, log', bound', term, i);
    }
  }

  lemma {:induction false} VotedForGrows(h: History, h': History, voter: nat, term: int, cand: int)
    requires Grows(h, h') && VotedFor(h, voter, term, cand)
    ensures VotedFor(h', voter, term, cand)
  {
  }

  lemma {:induction false} AppendOkGrows(n: nat, h: History, h': History, args: AppendArgs)
    requires Grows(h, h') && AppendOk(n, h, args)
    ensures AppendOk(n, h', args)
  {
    var log, log' := h.leaderLog[args.term], h'.leaderLog[args.term];
    assert LogGrows(log, log', args.term);
    assert log == log'[..|log|];
    CommitOkGrows(n, h, h', args.leaderCommit, log, log', args.term, args.term);
  }

  lemma {:induction false} AppliedOkGrows(n: nat, h: History, h': History, sv: Server, ap: seq<Command>)
    requires Grows(h, h') && AppliedOk(n, h, sv, ap)
    ensures AppliedOk(n, h', sv, ap)
  {
    forall k | 0 <= k < |ap|
      ensures AppliedWell(n, h', ap[k], k + 1)
    {
      assert AppliedWell(n, h, ap[k], k + 1);
      var term, i :| AppliedAt(n, h, ap[k], k + 1, term, i);
      CommittedGrows(n, h, h', term, i);
      assert h.leaderLog[term][k + 1] == h.leaderLog[term][..i + 1][k + 1];
      assert AppliedAt(n, h', ap[k], k + 1, term, i);
    }
  }

  /** A later leader cannot come to have the prefix by extending its log: the new
      entries are of its own term. */
  lemma {:induction false} RetainsGrows(n: nat, h: History, h': History, log: Log, term: int, i: nat, bound: int)
    requires HistOk(n, h) && Grows(h, h') && term in h.leaderLog && i < |h.leaderLog[term]|
    requires Retains(h, log, term, i, bound)
    ensures term in h'.leaderLog && i < |h'.leaderLog[term]| && Retains(h', log, term, i, bound)
  {
    assert LogGrows(h.leaderLog[term], h'.leaderLog[term], term);
    var p := h.leaderLog[term][..i + 1];
    assert h'.leaderLog[term][..i + 1] == p;
    if LaterHave(h', term, i, bound) {
      forall t | t in h.leaderLog && term < t <= bound
        ensures p <= h.leaderLog[t]
      {
        assert LogGrows(h.leaderLog[t], h'.leaderLog[t], t) && TermOk(n, h, term);
        LeaderTerms(n, h, term);
        PrefixBack(p, h.leaderLog[t], h'.leaderLog[t], t);
      }
    }
  }

  lemma {:induction false} PrefixBack(p: Log, log: Log, log': Log, t: int)
    requires LogGrows(log, log', t) && p <= log'
    requires forall i :: 0 <= i < |p| ==> p[i].term < t
    ensures p <= log
  {
    if p != [] {
      var i := |p| - 1;
      assert p[i] == log'[i];
      assert i < |log|;
    }
  }

  lemma {:induction false} LeaderTerms(n: nat, h: History, term: int)
    requires HistOk(n, h) && term in h.elected
    ensures TermsBelow(h.leaderLog[term], term)
  {
    assert TermOk(n, h, term);
    forall i | 0 <= i < |h.leaderLog[term]|
      ensures h.leaderLog[term][i].term <= term
    {
      if i < |h.electLog[term]| {
        assert h.leaderLog[term][i] == h.electLog[term][i];
      }
    }
  }

  lemma {:induction false} RetainsBound(h: History, log: Log, term: int, i: nat, bound: int, bound': int)
    requires term in h.leaderLog && i < |h.leaderLog[term]| && bound <= bound'
    requires Retains(h, log, term, i, bound)
    ensures Retains(h, log, term, i, bound')
  {
    if LaterHave(h, term, i, bound') {
      assert LaterHave(h, term, i, bound);
    }
  }

  /** What a server confirmed is unchanged for terms below `below`. */
  ghost predicate SameAcks(h: History, h': History, voter: nat, below: int) {
    forall t :: (voter, t) in h'.acked && t < below ==> (voter, t) in h.acked && h.acked[(voter, t)] == h'.acked[(voter, t)]
  }

  lemma {:induction false} RetainsAllGrows(n: nat, h: History, h': History, voter: nat, log: Log, below: int, bound: int, bound': int)
    requires HistOk(n, h) && Grows(h, h') && SameAcks(h, h', voter, below) && bound <= bound'
    requires RetainsAll(h, voter, log, below, bound)
    ensures RetainsAll(h', voter, log, below, bound')
  {
    forall term, i: nat | (voter, term) in h'.acked && term < below && i <= h'.acked[(voter, term)]
      ensures RetainsAt(h', log, term, i, bound')
    {
      assert RetainsAt(h, log, term, i, bound);
      RetainsGrows(n, h, h', log, term, i, bound);
      RetainsBound(h', log, term, i, bound, bound');
    }
  }

  // ---- the history ----------------------------------------------------------------------

  lemma {:induction false} OldTermOk(n: nat, h: History, h': History, term: int)
    requires HistOk(n, h) && Grows(h, h') && term in h.elected && term in h'.leaderLog
    requires h'.leaderLog[term] == h.leaderLog[term]
    ensures term in h'.electLog && TermOk(n, h', term)
  {
    assert TermOk(n, h, term);
    LogOkGrows(h, h', h.leaderLog[term]);
    SubsetSize(EarlyVoters(n, h, term, h.elected[term]), EarlyVoters(n, h', term, h.elected[term]));
  }

  lemma {:induction false} BallotStays(h: History, h': History, voter: nat, term: int)
    requires Grows(h, h') && (voter, term) in h.ballots
    ensures (voter, term) in h'.ballots && h'.ballots[(voter, term)] == h.ballots[(voter, term)]
    ensures term in h.elected ==> term in h'.elected && h'.elected[term] == h.elected[term]
    ensures term in h.electLog ==> term in h'.electLog && h'.electLog[term] == h.electLog[term]
  {
  }

  lemma {:induction false} OldBallotOk(n: nat, h: History, h': History, voter: nat, term: int)
    requires HistOk(n, h) && Grows(h, h') && (voter, term) in h.ballots && SameAcks(h, h', voter, term)
    requires term in h'.elected && term !in h.elected && h'.elected[term] == h.ballots[(voter, term)].cand ==>
               term in h'.electLog &&
               h.ballots[(voter, term)].lastTerm == LastTerm(h'.electLog[term]) &&
               h.ballots[(voter, term)].lastIndex == |h'.electLog[term]| - 1
    ensures BallotOk(n, h', voter, term)
  {
    assert BallotOk(n, h, voter, term);
    hide HistOk, LogOk, RetainsAll, Grows, UpToDate;
    BallotStays(h, h', voter, term);
    var b := h.ballots[(voter, term)];
    LogOkGrows(h, h', b.voterLog);
    if b.early {
      RetainsAllGrows(n, h, h', voter, b.voterLog, term, term - 1, term - 1);
    }
  }

  // ---- servers -----------------------------------------------------------------------------

  lemma {:induction false} OtherServerOk(n: nat, h: History, h': History, x: nat, id: nat, sv: Server)
    requires HistOk(n, h) && Grows(h, h') && OnlyBy(h, h', x) && id != x
    requires h'.elected.Keys == h'.leaderLog.Keys
    requires ServerOk(n, h, id, sv)
    ensures ServerOk(n, h', id, sv)
  {
    LogOkGrows(h, h', sv.log);
    CommitOkGrows(n, h, h', sv.commitIndex, sv.log, sv.log, sv.currentTerm, sv.currentTerm);
    RetainsAllGrows(n, h, h', id, sv.log, sv.currentTerm + 1, sv.currentTerm, sv.currentTerm);
    assert Dated(h', id, sv.currentTerm);
    assert VoteOk(h', id, sv);
    OtherRoleOk(n, h, h', x, id, sv);
  }

  lemma {:induction false} OtherRoleOk(n: nat, h: History, h': History, x: nat, id: nat, sv: Server)
    requires HistOk(n, h) && Grows(h, h') && OnlyBy(h, h', x) && id != x
    requires RoleOk(n, h, id, sv)
    ensures RoleOk(n, h', id, sv)
  {
    if sv.role == Leader {
      assert Leads(h, id, sv.currentTerm);
      assert h'.leaderLog[sv.currentTerm] == h.leaderLog[sv.currentTerm];
      forall j | 0 <= j < n && j != id
        ensures sv.matchIndex[j] <= Acked(h', j, sv.currentTerm)
      {
        assert Acked(h, j, sv.currentTerm) <= Acked(h', j, sv.currentTerm);
      }
    }
  }

  // ---- the system ----------------------------------------------------------------------------

  /** Claims about a server's log survive its step: its term never falls, and it
      does not become a candidate again within a term. */
  ghost predicate ClaimsKept(sv: Server, sv': Server) {
    && sv.currentTerm <= sv'.currentTerm
    && (sv'.currentTerm == sv.currentTerm && sv'.role == Candidate ==> sv.role == Candidate && sv'.log == sv.log)
  }

  lemma {:induction false} ClaimKept(sv: Server, sv': Server, term: int, lastTerm: int, lastIndex: int)
    requires ClaimsKept(sv, sv') && ClaimOk(sv, term, lastTerm, lastIndex)
    ensures ClaimOk(sv', term, lastTerm, lastIndex)
  {
  }

  /** What a step by server x has to show. */
  ghost predicate StepBy(n: nat, s: System, s': System, x: nat)
    requires |s.servers| == n && |s.applied| == n
  {
    && x < n && |s'.servers| == n && |s'.applied| == n
    && (forall j :: 0 <= j < n && j != x ==> s'.servers[j] == s.servers[j] && s'.applied[j] == s.applied[j])
    && Grows(s.hist, s'.hist) && OnlyBy(s.hist, s'.hist, x)
    && HistOk(n, s'.hist)
    && ServerOk(n, s'.hist, x, s'.servers[x])
    && ClaimsKept(s.servers[x], s'.servers[x])
    && SameElections(s, s')
    && (forall v, t :: (v, t) in s'.hist.ballots && (v, t) !in s.hist.ballots ==> BallotClaim(n, s'.hist, s'.servers, v, t))
    && (forall k :: 0 <= k < |s'.elections| ==>
          (k < |s.elections| && s'.elections[k] == s.elections[k]) || ElectionOk(n, s'.hist, s'.servers, s'.elections[k]))
    && (forall a :: a in s'.answers && a !in s.answers ==> AnswerOk(n, s', a))
    && (forall r :: r in s'.requests && r !in s.requests ==> RequestOk(n, s'.hist, r))
    && (forall a :: a in s'.acks && a !in s.acks ==> AckOk(n, s'.hist, a))
    && AppliedOk(n, s'.hist, s'.servers[x], s'.applied[x])
  }

  lemma {:induction false} StepKeepsInv(n: nat, s: System, s': System, x: nat)
    requires Inv(n, s) && StepBy(n, s, s', x)
    ensures Inv(n, s')
  {
    hide HistOk, Grows, OnlyBy, ServerOk, ClaimsKept, ElectionOk, AnswerOk, RequestOk, AckOk, AppliedOk, BallotClaim;
    forall id: nat | id < n
      ensures ServerOk(n, s'.hist, id, s'.servers[id])
      ensures AppliedOk(n, s'.hist, s'.servers[id], s'.applied[id])
    {
      if id != x {
        KeepServer(n, s.hist, s'.hist, x, id, s.servers[id], s.applied[id]);
      }
    }
    forall voter, term | (voter, term) in s'.hist.ballots
      ensures BallotClaim(n, s'.hist, s'.servers, voter, term)
    {
      if (voter, term) in s.hist.ballots {
        KeepClaim(n, s, s', x, voter, term);
      }
    }
    forall k | 0 <= k < |s'.elections|
      ensures ElectionOk(n, s'.hist, s'.servers, s'.elections[k])
    {
      if k < |s.elections| && s'.elections[k] == s.elections[k] {
        KeepElection(n, s, s', x, s.elections[k]);
      }
    }
    forall a | a in s'.answers
      ensures AnswerOk(n, s', a)
    {
      if a in s.answers {
        KeepAnswer(n, s, s', a);
      }
    }
    forall r | r in s'.requests
      ensures RequestOk(n, s'.hist, r)
    {
      if r in s.requests {
        KeepRequest(n, s.hist, s'.hist, r);
      }
    }
    forall a | a in s'.acks
      ensures AckOk(n, s'.hist, a)
    {
      if a in s.acks {
        KeepAck(n, s.hist, s'.hist, a);
      }
    }
  }

  lemma {:induction false} KeepServer(n: nat, h: History, h': History, x: nat, id: nat, sv: Server, ap: seq<Command>)
    requires HistOk(n, h) && HistOk(n, h') && Grows(h, h') && OnlyBy(h, h', x) && id != x
    requires ServerOk(n, h, id, sv) && AppliedOk(n, h, sv, ap)
    ensures ServerOk(n, h', id, sv) && AppliedOk(n, h', sv, ap)
  {
    OtherServerOk(n, h, h', x, id, sv);
    AppliedOkGrows(n, h, h', sv, ap);
  }

  lemma {:induction false} KeepClaim(n: nat, s: System, s': System, x: nat, voter: nat, term: int)
    requires |s.servers| == n && |s'.servers| == n && x < n && Grows(s.hist, s'.hist)
    requires forall j :: 0 <= j < n && j != x ==> s'.servers[j] == s.servers[j]
    requires ClaimsKept(s.servers[x], s'.servers[x])
    requires (voter, term) in s.hist.ballots && BallotClaim(n, s.hist, s.servers, voter, term)
    ensures (voter, term) in s'.hist.ballots && BallotClaim(n, s'.hist, s'.servers, voter, term)
  {
  }

  lemma {:induction false} KeepElection(n: nat, s: System, s': System, x: nat, e: Election)
    requires |s.servers| == n && |s'.servers| == n && x < n && Grows(s.hist, s'.hist)
    requires forall j :: 0 <= j < n && j != x ==> s'.servers[j] == s.servers[j]
    requires ClaimsKept(s.servers[x], s'.servers[x])
    requires ElectionOk(n, s.hist, s.servers, e)
    ensures ElectionOk(n, s'.hist, s'.servers, e)
  {
  }

  lemma {:induction false} KeepAnswer(n: nat, s: System, s': System, a: Answer)
    requires AnswerOk(n, s, a) && Grows(s.hist, s'.hist) && SameElections(s, s')
    ensures AnswerOk(n, s', a)
  {
  }

  lemma {:induction false} KeepRequest(n: nat, h: History, h': History, r: Request)
    requires RequestOk(n, h, r) && Grows(h, h')
    ensures RequestOk(n, h', r)
  {
    AppendOkGrows(n, h, h', r.args);
  }

  lemma {:induction false} KeepAck(n: nat, h: History, h': History, a: Ack)
    requires AckOk(n, h, a) && Grows(h, h')
    ensures AckOk(n, h', a)
  {
    AppendOkGrows(n, h, h', a.args);
  }
}
