/** The conditions E1, E2, E3 and E5 cannot be dropped: for each a run of three servers
    in which the others hold and a safety property fails. */
module RaftLimits {
  import opened Collections
  import opened RaftServer
  import opened RaftSystem
  import opened RaftRuns

  /** A server that has committed nothing and had no entry confirmed. */
  function Sv(term: int, voteFor: int, role: Role, log: Log, next: seq<int>): Server {
    Server(term, voteFor, log, 0, 0, next, Fill(3, 0), role)
  }

  function Blank(term: int, voteFor: int, role: Role): Server {
    Sv(term, voteFor, role, [ROOT], Fill(3, 1))
  }

  lemma {:induction false} BlankVotes(term: int, cand: nat, was: int, vote: int, role: Role)
    requires was < term || (was == term && vote == cand && role == Follower)
    ensures var args := VoteArgs(term, cand, 0, -1);
            && OnVote(Blank(was, vote, role), args) == (Blank(term, cand, Follower), VoteReply(term, true))
            && OnVoteReply(Blank(term, cand, Candidate), args, VoteReply(term, true), 1, 3).0 == Blank(term, cand, Leader)
  {
    assert Fill(|Make(3).nextIndex|, |[ROOT]|) == Fill(3, 1);
  }

  lemma {:induction false} Starts(x: Lapse) returns (s: System, l: Ledger)
    requires x != E4
    ensures Live(x, s, l) && Sized(3, s) && s.elections == [] && l == NOTHING
    ensures s.servers == [Blank(0, -1, Follower), Blank(0, -1, Follower), Blank(0, -1, Follower)]
  {
    s, l := Boots(x);
  }

  /** Server 0 leads term 1; server 1 moves it to term 2; both are candidates in term 3. */
  lemma {:induction false} Rivals() returns (s: System, l: Ledger)
    ensures Live(E1, s, l) && Sized(3, s) && |s.elections| == 4 && 0 in l.led && forall v :: (2, v) !in l.asked && (3, v) !in l.asked
    ensures s.elections[2] == Election(VoteArgs(3, 0, 0, -1), 1, {}) && s.elections[3] == Election(VoteArgs(3, 1, 0, -1), 1, {})
    ensures s.servers == [Blank(3, 0, Candidate), Blank(3, 1, Candidate), Blank(0, -1, Follower)]
  {
    hide Live, OnVote, OnVoteReply;
    var s0, l0 := Starts(E1);
    var s1, l1 := Campaigns(E1, s0, l0, 0);
    BlankVotes(1, 0, 0, -1, Follower);
    var s2, l2 := Votes(E1, s1, l1, 1, 0);
    assert s2.servers == [Blank(1, 0, Leader), Blank(1, 0, Follower), Blank(0, -1, Follower)];
    var s3, l3 := Campaigns(E1, s2, l2, 1);
    BlankVotes(2, 1, 1, 0, Leader);
    var s4, l4 := Replies(E1, s3, l3, 0, 1);
    assert s4.servers == [Blank(2, 1, Follower), Blank(2, 1, Candidate), Blank(0, -1, Follower)];
    var s5, l5 := Campaigns(E1, s4, l4, 0);
    s, l := Campaigns(E1, s5, l5, 1);
  }

  // ---- E5: losing memory ------------------------------------------------------------------

  lemma {:induction false} Forgets(s: System, l: Ledger, id: nat) returns (s': System, l': Ledger)
    requires Live(E5, s, l) && Sized(3, s) && id < 3
    ensures Live(E5, s', l') && Sized(3, s') && l' == l && s'.elections == s.elections && s'.servers == s.servers[id := Make(3)]
  {
    hide Reaches;
    s', l' := DoRestart(3, s, id), l;
    StepTo(E5, s, l, Restart(id), s', l');
  }

  /** Server 0 wins term 1 with the vote of server 1; server 1 loses its memory
      and votes again in term 1, for server 2: the term has two leaders. */
  lemma {:induction false} RestartBreaksElectionSafety() returns (s: System, l: Ledger)
    ensures Live(E5, s, l) && Sized(3, s)
    ensures s.servers[0].role == Leader && s.servers[2].role == Leader
    ensures s.servers[0].currentTerm == s.servers[2].currentTerm == 1
  {
    hide Live, OnVote, OnVoteReply;
    var s0, l0 := Starts(E5);
    var s1, l1 := Campaigns(E5, s0, l0, 0);
    BlankVotes(1, 0, 0, -1, Follower);
    var s2, l2 := Votes(E5, s1, l1, 1, 0);
    var s3, l3 := Forgets(s2, l2, 1);
    assert s3.servers == [Blank(1, 0, Leader), Blank(0, -1, Follower), Blank(0, -1, Follower)];
    var s4, l4 := Campaigns(E5, s3, l3, 2);
    BlankVotes(1, 2, 0, -1, Follower);
    s, l := Votes(E5, s4, l4, 1, 1);
  }

  // ---- E1: a stale sender --------------------------------------------------------------------

  /** A server that led term 1 sends a heartbeat as a candidate of term 3: its receiver,
      which has helped elect server 1, takes it for the leader it voted for, and elects
      it too.  Term 3 has two leaders although E2 to E5 hold. */
  lemma {:induction false} StaleSenderBreaksElectionSafety() returns (s: System, l: Ledger)
    ensures Live(E1, s, l) && Sized(3, s)
    ensures s.servers[0].role == Leader && s.servers[1].role == Leader
    ensures s.servers[0].currentTerm == s.servers[1].currentTerm == 3
  {
    hide Live, OnVote, OnVoteReply;
    var s1, l1 := Rivals();
    BlankVotes(3, 1, 0, -1, Follower);
    var s2, l2 := Votes(E1, s1, l1, 2, 3);
    var s3, l3 := Beats(E1, s2, l2, 0, 2, AppendArgs(3, 0, 0, 0, [], 0), Blank(3, 0, Follower));
    BlankVotes(3, 0, 3, 0, Follower);
    s, l := Votes(E1, s3, l3, 2, 2);
  }

  // ---- E3: nextIndex below 1 -----------------------------------------------------------------

  /** The sender indexes outside its log exactly when nextIndex is negative or beyond
      its end.  With nextIndex 0 the placeholder travels as entry 1: whatever log the
      receiver has, it ends with the sender's terms shifted by one. */
  lemma {:induction false} NextIndexFloor(sv: Server, me: nat, to: nat, log: Log)
    requires to < |sv.nextIndex| && |sv.log| > 0 && |log| > 0
    ensures MakeAppendArgs(sv, me, to).None? <==> sv.nextIndex[to] < 0 || sv.nextIndex[to] > |sv.log|
    ensures sv.nextIndex[to] == 0 ==>
              var args := MakeAppendArgs(sv, me, to).value;
              var log' := MergeAt(log, args.prevLogIndex + 1, args.entries);
              |log'| > |sv.log| && forall j :: 0 <= j < |sv.log| ==> log'[j + 1].term == sv.log[j].term
  {
    if sv.nextIndex[to] == 0 {
      MergeMeaning(log, 1, sv.log);
    }
  }

  const X := LogEntry(Command("x"), 1)
  const Y := LogEntry(Command("y"), 1)

  /** A server holding two entries of term 1. */
  function Holder(term: int, voteFor: int, role: Role, next: seq<int>): Server {
    Sv(term, voteFor, role, [ROOT, X, Y], next)
  }

  /** Server 0 leads term 1, takes two commands, and leads again in term 3. */
  lemma {:induction false} LeadsAgain() returns (s: System, l: Ledger)
    ensures Live(E3, s, l) && Sized(3, s) && 0 in l.led
    ensures s.servers == [Holder(3, 0, Leader, [3, 3, 3]), Blank(3, 0, Follower), Blank(0, -1, Follower)]
  {
    hide Live, OnVote, OnVoteReply;
    var s0, l0 := Starts(E3);
    var s1, l1 := Campaigns(E3, s0, l0, 0);
    BlankVotes(1, 0, 0, -1, Follower);
    var s2, l2 := Votes(E3, s1, l1, 1, 0);
    assert s2.servers == [Blank(1, 0, Leader), Blank(1, 0, Follower), Blank(0, -1, Follower)];
    var s3, l3 := Takes(E3, s2, l2, 0, Command("x"));
    var s4, l4 := Takes(E3, s3, l3, 0, Command("y"));
    assert s4.servers[0].log == [ROOT, X, Y] && Fill(3, 1) == [1, 1, 1];
    assert s4.servers[0] == Holder(1, 0, Leader, [1, 1, 1]);
    s, l := Deposed(s4, l4);
  }

  lemma {:induction false} HolderVotes()
    ensures OnVote(Holder(1, 0, Leader, [1, 1, 1]), VoteArgs(2, 1, 0, -1)).0 == Holder(2, -1, Follower, [1, 1, 1])
    ensures OnVote(Blank(2, 1, Candidate), VoteArgs(3, 0, 2, 1)) == (Blank(3, 0, Follower), VoteReply(3, true))
    ensures OnVoteReply(Holder(3, 0, Candidate, [1, 1, 1]), VoteArgs(3, 0, 2, 1), VoteReply(3, true), 1, 3).0 ==
            Holder(3, 0, Leader, [3, 3, 3])
  {
    assert Fill(3, 3) == [3, 3, 3];
  }

  lemma {:induction false} Deposed(s: System, l: Ledger) returns (s': System, l': Ledger)
    requires Live(E3, s, l) && Sized(3, s) && |s.elections| == 1 && 0 in l.led
    requires s.servers == [Holder(1, 0, Leader, [1, 1, 1]), Blank(1, 0, Follower), Blank(0, -1, Follower)]
    ensures Live(E3, s', l') && Sized(3, s') && 0 in l'.led
    ensures s'.servers == [Holder(3, 0, Leader, [3, 3, 3]), Blank(3, 0, Follower), Blank(0, -1, Follower)]
  {
    hide Live, OnVote, OnVoteReply;
    HolderVotes();
    var s1, l1 := Campaigns(E3, s, l, 1);
    var s2, l2 := Replies(E3, s1, l1, 0, 1);
    assert s2.servers == [Holder(2, -1, Follower, [1, 1, 1]), Blank(2, 1, Candidate), Blank(0, -1, Follower)];
    var s3, l3 := Campaigns(E3, s2, l2, 0);
    assert s3.elections[2] == Election(VoteArgs(3, 0, 2, 1), 1, {});
    s', l' := Votes(E3, s3, l3, 1, 2);
  }

  lemma {:induction false} Lowers(next: int)
    ensures var beat, no := AppendArgs(3, 0, 2, 1, [], 0), AppendReply(3, false);
            && MakeAppendArgs(Holder(3, 0, Leader, [3, 3, 3]), 0, 1) == Some(beat)
            && OnAppend(Blank(3, 0, Follower), beat) == Some((Blank(3, 0, Follower), no))
            && OnAppendReply(Holder(3, 0, Leader, [3, next, 3]), 0, 1, beat, no, 3) == Some(Holder(3, 0, Leader, [3, next - 1, 3]))
  {
    assert [3, next, 3][1 := next - 1] == [3, next - 1, 3];
  }

  lemma {:induction false} SendsRoot()
    ensures var args := AppendArgs(3, 0, 0, -1, [ROOT, X, Y], 0);
            && MakeAppendArgs(Holder(3, 0, Leader, [3, 0, 3]), 0, 1) == Some(args)
            && OnAppend(Blank(3, 0, Follower), args) ==
               Some((Blank(3, 0, Follower).(log := [ROOT, ROOT, X, Y]), AppendReply(3, true)))
  {
    assert [ROOT, X, Y][0..] == [ROOT, X, Y];
    assert MergeAt([ROOT], 1, [ROOT, X, Y]) == [ROOT] + [ROOT, X, Y] == [ROOT, ROOT, X, Y];
  }

  /** Server 1 refuses three heartbeats. */
  lemma {:induction false} RefusesThrice() returns (s: System, l: Ledger)
    ensures Live(E3, s, l) && Sized(3, s) && 0 in l.led
    ensures l.acks[Ack(1, AppendArgs(3, 0, 2, 1, [], 0), AppendReply(3, false))] >= 3
    ensures s.servers == [Holder(3, 0, Leader, [3, 3, 3]), Blank(3, 0, Follower), Blank(0, -1, Follower)]
  {
    hide Live, OnAppend, MakeAppendArgs;
    var s1, l1 := LeadsAgain();
    var beat := AppendArgs(3, 0, 2, 1, [], 0);
    Lowers(3);
    var s2, l2 := Beats(E3, s1, l1, 0, 1, beat, Blank(3, 0, Follower));
    var s3, l3 := Beats(E3, s2, l2, 0, 1, beat, Blank(3, 0, Follower));
    s, l := Beats(E3, s3, l3, 0, 1, beat, Blank(3, 0, Follower));
  }

  /** Three heartbeats are refused and take nextIndex to 0; the placeholder then
      travels as an entry, and two logs hold different commands with the same index and
      term although the other conditions hold. */
  lemma {:induction false} LowNextBreaksLogMatching() returns (s: System, l: Ledger)
    ensures Live(E3, s, l) && Sized(3, s)
    ensures |s.servers[0].log| > 2 && |s.servers[1].log| > 2
    ensures s.servers[0].log[2].term == s.servers[1].log[2].term && s.servers[0].log[2] != s.servers[1].log[2]
  {
    hide Live, OnAppend, MakeAppendArgs, OnAppendReply;
    var s4, l4 := RefusesThrice();
    var ack := Ack(1, AppendArgs(3, 0, 2, 1, [], 0), AppendReply(3, false));
    Lowers(3);
    Lowers(2);
    Lowers(1);
    SendsRoot();
    var s5, l5 := Hears(E3, s4, l4, ack, Holder(3, 0, Leader, [3, 2, 3]));
    var s6, l6 := Hears(E3, s5, l5, ack, Holder(3, 0, Leader, [3, 1, 3]));
    var s7, l7 := Hears(E3, s6, l6, ack, Holder(3, 0, Leader, [3, 0, 3]));
    s, l := Beats(E3, s7, l7, 0, 1, AppendArgs(3, 0, 0, -1, [ROOT, X, Y], 0), Blank(3, 0, Follower).(log := [ROOT, ROOT, X, Y]));
  }

  // ---- E2: Start in two parts -----------------------------------------------------------------

  const Z := LogEntry(Command("z"), 2)
  const W := LogEntry(Command("w"), 4)
  const U := LogEntry(Command("u"), 1)
  const V := LogEntry(Command("v"), 1)

  /** The second half of a Start that read its leadership long ago. */
  lemma {:induction false} TakesLate(s: System, l: Ledger, id: nat, term: int, e: LogEntry, log: Log) returns (s': System, l': Ledger)
    requires Live(E2, s, l) && Sized(3, s) && id < 3 && (id, term) in l.leads && e.term == term
    requires log == s.servers[id].log + [e]
    ensures Live(E2, s', l') && Sized(3, s') && s'.elections == s.elections && l' == l.(leads := l.leads - multiset{(id, term)})
    ensures s'.servers == s.servers[id := s.servers[id].(log := log)]
  {
    hide Live;
    s', l' := Ends(E2, s, l, id, term, e.entry);
  }

  /** Server 0 leads term 1 and begins to take three commands; server 1 leads term 2. */
  lemma {:induction false} BeginsStart() returns (s: System, l: Ledger)
    ensures Live(E2, s, l) && Sized(3, s) && |s.elections| == 2 && l.leads[(0, 1)] == 3 && {0, 1} <= l.led
    ensures s.servers == [Blank(2, 1, Follower), Blank(2, 1, Leader), Blank(0, -1, Follower)]
  {
    hide Live, OnVote, OnVoteReply;
    var s0, l0 := Starts(E2);
    var s1, l1 := Campaigns(E2, s0, l0, 0);
    BlankVotes(1, 0, 0, -1, Follower);
    var s2, l2 := Votes(E2, s1, l1, 1, 0);
    assert s2.servers == [Blank(1, 0, Leader), Blank(1, 0, Follower), Blank(0, -1, Follower)];
    var t1, k1 := Begins(E2, s2, l2, 0);
    var t2, k2 := Begins(E2, t1, k1, 0);
    var s3, l3 := Begins(E2, t2, k2, 0);
    var s4, l4 := Campaigns(E2, s3, l3, 1);
    BlankVotes(2, 1, 1, 0, Leader);
    s, l := Votes(E2, s4, l4, 0, 1);
  }

  lemma {:induction false} SendsZ()
    ensures var args := AppendArgs(2, 1, 0, -1, [Z], 0);
            && MakeAppendArgs(Sv(2, 1, Leader, [ROOT, Z], [1, 1, 1]), 1, 0) == Some(args)
            && OnAppend(Sv(2, 1, Follower, [ROOT], [1, 1, 1]), args) ==
               Some((Sv(2, 1, Follower, [ROOT, Z], [1, 1, 1]), AppendReply(2, true)))
  {
    assert [ROOT, Z][1..] == [Z];
    assert MergeAt([ROOT], 1, [Z]) == [ROOT] + [Z] == [ROOT, Z];
  }

  /** Server 0 takes over the entry of term 2. */
  lemma {:induction false} TakesOver() returns (s: System, l: Ledger)
    ensures Live(E2, s, l) && Sized(3, s) && |s.elections| == 2 && l.leads[(0, 1)] == 3 && {0, 1} <= l.led
    ensures s.servers == [Sv(2, 1, Follower, [ROOT, Z], [1, 1, 1]), Sv(2, 1, Leader, [ROOT, Z], [1, 1, 1]),
                          Sv(0, -1, Follower, [ROOT], [1, 1, 1])]
  {
    hide Live, OnAppend, MakeAppendArgs, MergeAt;
    assert Fill(3, 1) == [1, 1, 1];
    SendsZ();
    var s1, l1 := BeginsStart();
    var s2, l2 := Takes(E2, s1, l1, 1, Command("z"));
    assert s2.servers[1].log == [ROOT, Z];
    s, l := Beats(E2, s2, l2, 1, 0, AppendArgs(2, 1, 0, -1, [Z], 0), Sv(2, 1, Follower, [ROOT, Z], [1, 1, 1]));
  }

  /** It adds two entries of term 1. */
  lemma {:induction false} AddsLate() returns (s: System, l: Ledger)
    ensures Live(E2, s, l) && Sized(3, s) && |s.elections| == 2 && l.leads[(0, 1)] == 1 && {0, 1} <= l.led
    ensures s.servers == [Sv(2, 1, Follower, [ROOT, Z, Y, U], [1, 1, 1]), Sv(2, 1, Leader, [ROOT, Z], [1, 1, 1]),
                          Sv(0, -1, Follower, [ROOT], [1, 1, 1])]
  {
    hide Live;
    var s1, l1 := TakesOver();
    var s2, l2 := TakesLate(s1, l1, 0, 1, Y, [ROOT, Z, Y]);
    s, l := TakesLate(s2, l2, 0, 1, U, [ROOT, Z, Y, U]);
  }

  /** It leads term 3 with the vote of server 2, and deposes server 1. */
  lemma {:induction false} LeadsThree() returns (s: System, l: Ledger)
    ensures Live(E2, s, l) && Sized(3, s) && |s.elections| == 3 && l.leads[(0, 1)] == 1 && {0, 1} <= l.led
    ensures s.servers == [Sv(3, 0, Leader, [ROOT, Z, Y, U], [4, 4, 4]), Sv(3, -1, Follower, [ROOT, Z], [1, 1, 1]),
                          Sv(3, 0, Follower, [ROOT], [1, 1, 1])]
  {
    hide Live;
    var s1, l1 := AddsLate();
    var s2, l2 := Campaigns(E2, s1, l1, 0);
    assert s2.elections[2] == Election(VoteArgs(3, 0, 3, 1), 1, {});
    var s3, l3 := Replies(E2, s2, l2, 1, 2);
    assert s3.servers[1] == Sv(3, -1, Follower, [ROOT, Z], [1, 1, 1]);
    s, l := Votes(E2, s3, l3, 2, 2);
    assert Fill(3, 4) == [4, 4, 4];
  }

  function Late(next: int): Server {
    Sv(3, 0, Leader, [ROOT, Z, Y, U], [4, 4, next])
  }

  lemma {:induction false} Refuses(next: int)
    ensures var beat, no, sv := AppendArgs(3, 0, 3, 1, [], 0), AppendReply(3, false), Sv(3, 0, Follower, [ROOT], [1, 1, 1]);
            && MakeAppendArgs(Late(4), 0, 2) == Some(beat)
            && OnAppend(sv, beat) == Some((sv, no))
            && OnAppendReply(Late(next), 0, 2, beat, no, 3) == Some(Late(next - 1))
  {
    assert [4, 4, next][2 := next - 1] == [4, 4, next - 1];
  }

  lemma {:induction false} SendsAll()
    ensures var args := AppendArgs(3, 0, 0, -1, [Z, Y, U], 0);
            && MakeAppendArgs(Late(1), 0, 2) == Some(args)
            && OnAppend(Sv(3, 0, Follower, [ROOT], [1, 1, 1]), args) ==
               Some((Sv(3, 0, Follower, [ROOT, Z, Y, U], [1, 1, 1]), AppendReply(3, true)))
  {
    assert [ROOT, Z, Y, U][1..] == [Z, Y, U];
    assert MergeAt([ROOT], 1, [Z, Y, U]) == [ROOT] + [Z, Y, U] == [ROOT, Z, Y, U];
  }

  /** Three heartbeats to server 2 are refused. */
  lemma {:induction false} Refused() returns (s: System, l: Ledger)
    ensures Live(E2, s, l) && Sized(3, s) && |s.elections| == 3 && l.leads[(0, 1)] == 1 && {0, 1} <= l.led
    ensures s.servers == [Late(1), Sv(3, -1, Follower, [ROOT, Z], [1, 1, 1]), Sv(3, 0, Follower, [ROOT], [1, 1, 1])]
  {
    hide Live, OnAppend, MakeAppendArgs, OnAppendReply;
    var s1, l1 := LeadsThree();
    var beat, ack := AppendArgs(3, 0, 3, 1, [], 0), Ack(2, AppendArgs(3, 0, 3, 1, [], 0), AppendReply(3, false));
    var sv := Sv(3, 0, Follower, [ROOT], [1, 1, 1]);
    Refuses(4);
    Refuses(3);
    Refuses(2);
    var s2, l2 := Beats(E2, s1, l1, 0, 2, beat, sv);
    var s3, l3 := Beats(E2, s2, l2, 0, 2, beat, sv);
    var s4, l4 := Beats(E2, s3, l3, 0, 2, beat, sv);
    var s5, l5 := Hears(E2, s4, l4, ack, Late(3));
    var s6, l6 := Hears(E2, s5, l5, ack, Late(2));
    s, l := Hears(E2, s6, l6, ack, Late(1));
  }

  /** Then it sends its whole log. */
  lemma {:induction false} Spreads() returns (s: System, l: Ledger)
    ensures Live(E2, s, l) && Sized(3, s) && |s.elections| == 3 && l.leads[(0, 1)] == 1 && {0, 1} <= l.led
    ensures s.servers == [Late(1), Sv(3, -1, Follower, [ROOT, Z], [1, 1, 1]), Sv(3, 0, Follower, [ROOT, Z, Y, U], [1, 1, 1])]
  {
    hide Live, OnAppend, MakeAppendArgs;
    var s1, l1 := Refused();
    SendsAll();
    s, l := Beats(E2, s1, l1, 0, 2, AppendArgs(3, 0, 0, -1, [Z, Y, U], 0), Sv(3, 0, Follower, [ROOT, Z, Y, U], [1, 1, 1]));
  }

  lemma {:induction false} SendsW()
    ensures var args := AppendArgs(4, 1, 1, 2, [W], 0);
            && MakeAppendArgs(Sv(4, 1, Leader, [ROOT, Z, W], [2, 2, 2]), 1, 0) == Some(args)
            && OnAppend(Sv(4, 1, Follower, [ROOT, Z, Y, U], [4, 4, 1]), args) ==
               Some((Sv(4, 1, Follower, [ROOT, Z, W], [4, 4, 1]), AppendReply(4, true)))
  {
    assert [ROOT, Z, W][2..] == [W];
    assert MergeAt([ROOT, Z, Y, U], 2, [W]) == [ROOT, Z] + [W] == [ROOT, Z, W];
  }

  /** Server 1 leads term 4 and replaces the late entries of server 0. */
  lemma {:induction false} Replaces() returns (s: System, l: Ledger)
    ensures Live(E2, s, l) && Sized(3, s) && l.leads[(0, 1)] == 1
    ensures s.servers[0] == Sv(4, 1, Follower, [ROOT, Z, W], [4, 4, 1]) && s.servers[2].log == [ROOT, Z, Y, U]
  {
    hide Live, OnAppend, MakeAppendArgs;
    var s1, l1 := Spreads();
    var s2, l2 := Campaigns(E2, s1, l1, 1);
    assert s2.elections[3] == Election(VoteArgs(4, 1, 1, 2), 1, {});
    var s3, l3 := Votes(E2, s2, l2, 0, 3);
    assert Fill(3, 2) == [2, 2, 2];
    assert s3.servers[1] == Sv(4, 1, Leader, [ROOT, Z], [2, 2, 2]) && s3.servers[0] == Sv(4, 1, Follower, [ROOT, Z, Y, U], [4, 4, 1]);
    hide OnVote, OnVoteReply;
    var s4, l4 := Takes(E2, s3, l3, 1, Command("w"));
    assert s4.servers[1].log == [ROOT, Z, W];
    SendsW();
    s, l := Beats(E2, s4, l4, 1, 0, AppendArgs(4, 1, 1, 2, [W], 0), Sv(4, 1, Follower, [ROOT, Z, W], [4, 4, 1]));
  }

  /** Server 0 then adds a third late entry: servers 0 and 2 hold different commands with
      the same index and term although the other conditions hold. */
  lemma {:induction false} LateStartBreaksLogMatching() returns (s: System, l: Ledger)
    ensures Live(E2, s, l) && Sized(3, s)
    ensures |s.servers[0].log| > 3 && |s.servers[2].log| > 3
    ensures s.servers[0].log[3].term == s.servers[2].log[3].term && s.servers[0].log[3] != s.servers[2].log[3]
  {
    hide Live;
    var s1, l1 := Replaces();
    s, l := TakesLate(s1, l1, 0, 1, V, [ROOT, Z, W, V]);
  }

  // ---- a run that keeps all conditions ------------------------------------------------------------

  /** A server of the run: what it has committed, applied, and knows of server 1. */
  function Good(role: Role, log: Log, commit: int, applied: int, next: int, matched: int): Server {
    Server(1, 0, log, commit, applied, [1, next, 1], [0, matched, 0], role)
  }

  lemma {:induction false} ConfirmFacts()
    ensures var log, args, beat := [ROOT, X], AppendArgs(1, 0, 0, -1, [X], 0), AppendArgs(1, 0, 1, 1, [], 1);
            && MakeAppendArgs(Good(Leader, log, 0, 0, 1, 0), 0, 1) == Some(args)
            && OnAppend(Good(Follower, [ROOT], 0, 0, 1, 0), args) == Some((Good(Follower, log, 0, 0, 1, 0), AppendReply(1, true)))
            && OnAppendReply(Good(Leader, log, 0, 0, 1, 0), 0, 1, args, AppendReply(1, true), 3) == Some(Good(Leader, log, 1, 0, 2, 1))
            && MakeAppendArgs(Good(Leader, log, 1, 1, 2, 1), 0, 1) == Some(beat)
            && OnAppend(Good(Follower, log, 0, 0, 1, 0), beat) == Some((Good(Follower, log, 1, 0, 1, 0), AppendReply(1, true)))
  {
    assert [ROOT, X][1..] == [X];
    assert MergeAt([ROOT], 1, [X]) == [ROOT] + [X] == [ROOT, X];
    assert [1, 1, 1][1 := 2] == [1, 2, 1] && [0, 0, 0][1 := 1] == [0, 1, 0];
    assert [0, 1, 0][..2][..1] == [0] && [0, 1, 0][..2] == [0, 1] && [0][..0] == [];
    assert Holders([0, 1, 0], 0, 1) == 2;
  }

  lemma {:induction false} Elected() returns (s: System, l: Ledger)
    ensures Live(NoLapse, s, l) && Sized(3, s) && 0 in l.led && s.applied == [[], [], []]
    ensures s.servers[0] == Good(Leader, [ROOT, X], 0, 0, 1, 0) && s.servers[1] == Good(Follower, [ROOT], 0, 0, 1, 0)
  {
    hide Live, OnVote, OnVoteReply;
    assert Fill(3, 1) == [1, 1, 1] && Fill(3, 0) == [0, 0, 0];
    var s0, l0 := Boots(NoLapse);
    assert s0.servers == [Blank(0, -1, Follower), Blank(0, -1, Follower), Blank(0, -1, Follower)];
    assert s0.applied == [[], [], []];
    var s1, l1 := Campaigns(NoLapse, s0, l0, 0);
    BlankVotes(1, 0, 0, -1, Follower);
    var s2, l2 := Votes(NoLapse, s1, l1, 1, 0);
    s, l := Takes(NoLapse, s2, l2, 0, Command("x"));
    assert s.servers[0].log == [ROOT, X];
  }

  /** All conditions can hold while the cluster works: a leader is elected, takes a command,
      commits it, and two servers apply it. */
  lemma {:induction false} GoodRunApplies() returns (s: System)
    ensures exists states, actions :: GoodRun(3, states, actions) && states[|actions|] == s
    ensures |s.applied| == 3 && s.applied[0] == [X.entry] && s.applied[1] == [X.entry]
  {
    hide Live, OnAppend, MakeAppendArgs, OnAppendReply;
    ConfirmFacts();
    var log, args, beat := [ROOT, X], AppendArgs(1, 0, 0, -1, [X], 0), AppendArgs(1, 0, 1, 1, [], 1);
    var s0, l0 := Elected();
    var s1, l1 := Beats(NoLapse, s0, l0, 0, 1, args, Good(Follower, log, 0, 0, 1, 0));
    var s2, l2 := Hears(NoLapse, s1, l1, Ack(1, args, AppendReply(1, true)), Good(Leader, log, 1, 0, 2, 1));
    var s3, l3 := Applies(NoLapse, s2, l2, 0, X.entry);
    var s4, l4 := Beats(NoLapse, s3, l3, 0, 1, beat, Good(Follower, log, 1, 0, 1, 0));
    var l5;
    s, l5 := Applies(NoLapse, s4, l4, 1, X.entry);
    IsReached(s, l5);
    NoLapseIsGood(s, l5);
  }

  lemma {:induction false} IsReached(s: System, l: Ledger)
    requires Live(NoLapse, s, l)
    ensures Reaches(NoLapse, s, l)
  {
  }
}
