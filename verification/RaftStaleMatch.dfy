/** The condition E4 cannot be dropped: a run of five servers in which the others hold
    and two servers apply different commands at the same index.  A leader that was
    elected before still believes the confirmations of its first term
    (src/raft/raft.go:497-499 resets nextIndex only). */
module RaftStaleMatch {
  import opened Collections
  import opened RaftServer
  import opened RaftSystem
  import opened RaftRuns

  const ONES := [1, 1, 1, 1, 1]
  const TWOS := [2, 2, 2, 2, 2]
  const ZEROS := [0, 0, 0, 0, 0]

  /** What server 0 remembers of server 1 from term 1. */
  const STALE := [0, 2, 0, 0, 0]

  const X := LogEntry(Command("x"), 1)
  const Y := LogEntry(Command("y"), 1)
  const Z := LogEntry(Command("z"), 2)
  const W := LogEntry(Command("w"), 3)
  const V := LogEntry(Command("v"), 4)

  function S(term: int, voteFor: int, role: Role, log: Log, next: seq<int>, matched: seq<int>): Server {
    Server(term, voteFor, log, 0, 0, next, matched, role)
  }

  /** A server that has never led. */
  function F(term: int, voteFor: int, log: Log): Server {
    S(term, voteFor, Follower, log, ONES, ZEROS)
  }

  lemma {:induction false} HoldersOfFive(m: seq<int>, me: nat, cmt: int)
    requires |m| == 5
    ensures Holders(m, me, cmt) ==
            1 + Counts(m, me, cmt, 0) + Counts(m, me, cmt, 1) + Counts(m, me, cmt, 2) + Counts(m, me, cmt, 3) + Counts(m, me, cmt, 4)
  {
    assert m[..4][..3] == m[..3] && m[..3][..2] == m[..2] && m[..2][..1] == m[..1] && m[..1][..0] == [];
    assert Holders(m[..1], me, cmt) == 1 + Counts(m, me, cmt, 0);
    assert Holders(m[..2], me, cmt) == Holders(m[..1], me, cmt) + Counts(m, me, cmt, 1);
    assert Holders(m[..3], me, cmt) == Holders(m[..2], me, cmt) + Counts(m, me, cmt, 2);
    assert Holders(m[..4], me, cmt) == Holders(m[..3], me, cmt) + Counts(m, me, cmt, 3);
  }

  function Counts(m: seq<int>, me: nat, cmt: int, i: nat): int
    requires i < |m|
  {
    if i != me && m[i] >= cmt then 1 else 0
  }

  lemma {:induction false} FiveBlank() returns (s: System, l: Ledger)
    ensures Live(E4, s, l) && Sized(5, s) && s.elections == []
    ensures s.servers == [F(0, -1, [ROOT]), F(0, -1, [ROOT]), F(0, -1, [ROOT]), F(0, -1, [ROOT]), F(0, -1, [ROOT])]
    ensures s.applied == [[], [], [], [], []]
  {
    s, l := Boots(E4);
    assert Fill(5, 1) == ONES && Fill(5, 0) == ZEROS;
  }

  /** A candidate wins with two votes. */
  lemma {:induction false} Wins(s: System, l: Ledger, cand: nat, v: nat, w: nat, sv: Server, sw: Server, next: seq<int>) returns (s': System, l': Ledger)
    requires Live(E4, s, l) && Sized(5, s) && cand < 5 && v < 5 && w < 5 && cand != v && cand != w && v != w
    requires s.servers[cand].role != Leader
    requires var c := Campaign(s.servers[cand], cand);
             && OnVote(s.servers[v], MakeVoteArgs(c, cand)) == (sv, VoteReply(c.currentTerm, true))
             && OnVote(s.servers[w], MakeVoteArgs(c, cand)) == (sw, VoteReply(c.currentTerm, true))
             && next == Fill(|c.nextIndex|, |c.log|)
    ensures Live(E4, s', l') && Sized(5, s') && s'.applied == s.applied && |s'.elections| == |s.elections| + 1 && l'.led == l.led + {cand}
    ensures s'.servers == s.servers[v := sv][w := sw][cand := Campaign(s.servers[cand], cand).(role := Leader, nextIndex := next)]
  {
    hide Live, OnVote;
    var e := |s.elections|;
    var s1, l1 := Campaigns(E4, s, l, cand);
    assert s1.elections[e] == Election(MakeVoteArgs(Campaign(s.servers[cand], cand), cand), 1, {});
    var s2, l2 := Votes(E4, s1, l1, v, e);
    assert s2.servers == s.servers[v := sv][cand := Campaign(s.servers[cand], cand)];
    assert s2.elections[e] == Election(MakeVoteArgs(Campaign(s.servers[cand], cand), cand), 2, {v});
    s', l' := Votes(E4, s2, l2, w, e);
  }

  lemma {:induction false} FirstFacts()
    ensures var args, log := AppendArgs(1, 0, 0, -1, [X, Y], 0), [ROOT, X, Y];
            && MakeAppendArgs(S(1, 0, Leader, log, ONES, ZEROS), 0, 1) == Some(args)
            && OnAppend(F(1, 0, [ROOT]), args) == Some((F(1, 0, log), AppendReply(1, true)))
            && OnAppendReply(S(1, 0, Leader, log, ONES, ZEROS), 0, 1, args, AppendReply(1, true), 5) ==
               Some(S(1, 0, Leader, log, [1, 3, 1, 1, 1], STALE))
  {
    assert [ROOT, X, Y][1..] == [X, Y];
    assert MergeAt([ROOT], 1, [X, Y]) == [ROOT] + [X, Y] == [ROOT, X, Y];
    HoldersOfFive(STALE, 0, 2);
    assert ONES[1 := 3] == [1, 3, 1, 1, 1] && ZEROS[1 := 2] == STALE;
  }

  /** Term 1: server 1 confirms two entries of server 0. */
  lemma {:induction false} TermOne() returns (s: System, l: Ledger)
    ensures Live(E4, s, l) && Sized(5, s) && s.applied == [[], [], [], [], []]
    ensures 0 in l.led
    ensures s.servers == [S(1, 0, Leader, [ROOT, X, Y], [1, 3, 1, 1, 1], STALE), F(1, 0, [ROOT, X, Y]), F(1, 0, [ROOT]),
                          F(0, -1, [ROOT]), F(0, -1, [ROOT])]
  {
    hide Live, OnAppend, MakeAppendArgs, OnAppendReply, Holders;
    var s0, l0 := FiveBlank();
    assert Fill(5, 1) == ONES;
    FirstFacts();
    var s1, l1 := Wins(s0, l0, 0, 1, 2, F(1, 0, [ROOT]), F(1, 0, [ROOT]), ONES);
    var s2, l2 := Takes(E4, s1, l1, 0, Command("x"));
    var s3, l3 := Takes(E4, s2, l2, 0, Command("y"));
    assert s3.servers[0].log == [ROOT, X, Y];
    var args := AppendArgs(1, 0, 0, -1, [X, Y], 0);
    var s4, l4 := Beats(E4, s3, l3, 0, 1, args, F(1, 0, [ROOT, X, Y]));
    s, l := Hears(E4, s4, l4, Ack(1, args, AppendReply(1, true)), S(1, 0, Leader, [ROOT, X, Y], [1, 3, 1, 1, 1], STALE));
  }

  /** Term 2: server 4 leads and replaces both entries. */
  lemma {:induction false} TermTwo() returns (s: System, l: Ledger)
    ensures Live(E4, s, l) && Sized(5, s) && s.applied == [[], [], [], [], []]
    ensures 0 in l.led
    ensures s.servers == [S(2, 4, Follower, [ROOT, Z], [1, 3, 1, 1, 1], STALE), F(2, 4, [ROOT, Z]), F(2, 4, [ROOT]),
                          F(2, 4, [ROOT]), S(2, 4, Leader, [ROOT, Z], ONES, ZEROS)]
  {
    hide Live;
    var s0, l0 := TermOne();
    var s1, l1 := Campaigns(E4, s0, l0, 4);
    assert Fill(5, 1) == ONES;
    var s2, l2 := Wins(s1, l1, 4, 2, 3, F(2, 4, [ROOT]), F(2, 4, [ROOT]), ONES);
    var s3, l3 := Takes(E4, s2, l2, 4, Command("z"));
    assert s3.servers[4].log == [ROOT, Z] && [ROOT, Z][1..] == [Z];
    var args := AppendArgs(2, 4, 0, -1, [Z], 0);
    assert MergeAt([ROOT, X, Y], 1, [Z]) == [ROOT] + [Z] == [ROOT, Z];
    var s4, l4 := Beats(E4, s3, l3, 4, 1, args, F(2, 4, [ROOT, Z]));
    s, l := Beats(E4, s4, l4, 4, 0, args, S(2, 4, Follower, [ROOT, Z], [1, 3, 1, 1, 1], STALE));
  }

  /** Term 3: server 0 leads again and adds an entry. */
  lemma {:induction false} TermThree() returns (s: System, l: Ledger)
    ensures Live(E4, s, l) && Sized(5, s) && s.applied == [[], [], [], [], []]
    ensures 0 in l.led
    ensures s.servers == [S(3, 0, Leader, [ROOT, Z, W], TWOS, STALE), F(3, 0, [ROOT, Z]), F(3, 0, [ROOT]),
                          F(2, 4, [ROOT]), S(2, 4, Leader, [ROOT, Z], ONES, ZEROS)]
  {
    hide Live;
    var s0, l0 := TermTwo();
    assert Fill(5, 2) == TWOS;
    var s1, l1 := Wins(s0, l0, 0, 1, 2, F(3, 0, [ROOT, Z]), F(3, 0, [ROOT]), TWOS);
    s, l := Takes(E4, s1, l1, 0, Command("w"));
    assert s.servers[0].log == [ROOT, Z, W];
  }

  lemma {:induction false} EarlyFacts()
    ensures var log, short, full := [ROOT, Z, W], AppendArgs(3, 0, 1, 2, [W], 0), AppendArgs(3, 0, 0, -1, [Z, W], 0);
            var sv := S(3, 0, Leader, log, [2, 2, 2, 1, 2], STALE);
            && MakeAppendArgs(S(3, 0, Leader, log, TWOS, STALE), 0, 3) == Some(short)
            && OnAppend(F(2, 4, [ROOT]), short) == Some((F(3, 0, [ROOT]), AppendReply(3, false)))
            && OnAppendReply(S(3, 0, Leader, log, TWOS, STALE), 0, 3, short, AppendReply(3, false), 5) == Some(sv)
            && MakeAppendArgs(sv, 0, 3) == Some(full)
            && OnAppend(F(3, 0, [ROOT]), full) == Some((F(3, 0, log), AppendReply(3, true)))
            && OnAppendReply(sv, 0, 3, full, AppendReply(3, true), 5) ==
               Some(S(3, 0, Leader, log, [2, 2, 2, 3, 2], [0, 2, 0, 2, 0]).(commitIndex := 2))
  {
    assert [ROOT, Z, W][2..] == [W] && [ROOT, Z, W][1..] == [Z, W];
    assert MergeAt([ROOT], 1, [Z, W]) == [ROOT] + [Z, W] == [ROOT, Z, W];
    HoldersOfFive([0, 2, 0, 2, 0], 0, 2);
    assert TWOS[3 := 1] == [2, 2, 2, 1, 2];
    assert [2, 2, 2, 1, 2][3 := 3] == [2, 2, 2, 3, 2] && STALE[3 := 2] == [0, 2, 0, 2, 0];
  }

  /** Server 3 confirms the entry; with the stale confirmation of server 1 that looks
      like a majority. */
  lemma {:induction false} CommitsEarly() returns (s: System, l: Ledger)
    ensures Live(E4, s, l) && Sized(5, s) && s.applied == [[], [], [], [], []]
    ensures s.servers == [S(3, 0, Leader, [ROOT, Z, W], [2, 2, 2, 3, 2], [0, 2, 0, 2, 0]).(commitIndex := 2), F(3, 0, [ROOT, Z]),
                          F(3, 0, [ROOT]), F(3, 0, [ROOT, Z, W]), S(2, 4, Leader, [ROOT, Z], ONES, ZEROS)]
  {
    hide Live, OnAppend, MakeAppendArgs, OnAppendReply, Holders;
    var s0, l0 := TermThree();
    var log := [ROOT, Z, W];
    EarlyFacts();
    var short, full := AppendArgs(3, 0, 1, 2, [W], 0), AppendArgs(3, 0, 0, -1, [Z, W], 0);
    var s1, l1 := Beats(E4, s0, l0, 0, 3, short, F(3, 0, [ROOT]));
    var s2, l2 := Hears(E4, s1, l1, Ack(3, short, AppendReply(3, false)), S(3, 0, Leader, log, [2, 2, 2, 1, 2], STALE));
    var s3, l3 := Beats(E4, s2, l2, 0, 3, full, F(3, 0, log));
    s, l := Hears(E4, s3, l3, Ack(3, full, AppendReply(3, true)),
               S(3, 0, Leader, log, [2, 2, 2, 3, 2], [0, 2, 0, 2, 0]).(commitIndex := 2));
  }

  /** Server 0 applies two commands, and server 1 leads term 4. */
  lemma {:induction false} TermFour() returns (s: System, l: Ledger)
    ensures Live(E4, s, l) && Sized(5, s) && s.applied == [[Z.entry, W.entry], [], [], [], []]
    ensures 1 in l.led
    ensures s.servers[1] == S(4, 1, Leader, [ROOT, Z, V], TWOS, ZEROS)
    ensures s.servers[2] == F(4, 1, [ROOT]) && s.servers[4] == S(4, 1, Follower, [ROOT, Z], ONES, ZEROS)
  {
    hide Live;
    var s0, l0 := CommitsEarly();
    var s1, l1 := Applies(E4, s0, l0, 0, Z.entry);
    var s2, l2 := Applies(E4, s1, l1, 0, W.entry);
    assert s2.applied[0] == ([] + [Z.entry]) + [W.entry] == [Z.entry, W.entry];
    assert s2.applied == [[Z.entry, W.entry], [], [], [], []];
    assert Fill(5, 2) == TWOS;
    var s3, l3 := Wins(s2, l2, 1, 2, 4, F(4, 1, [ROOT]), S(4, 1, Follower, [ROOT, Z], ONES, ZEROS), TWOS);
    s, l := Takes(E4, s3, l3, 1, Command("v"));
    assert s.servers[1].log == [ROOT, Z, V];
  }

  lemma {:induction false} FirstConfirmed()
    ensures var log, args := [ROOT, Z, V], AppendArgs(4, 1, 1, 2, [V], 0);
            && MakeAppendArgs(S(4, 1, Leader, log, TWOS, ZEROS), 1, 4) == Some(args)
            && OnAppend(S(4, 1, Follower, [ROOT, Z], ONES, ZEROS), args) ==
               Some((S(4, 1, Follower, log, ONES, ZEROS), AppendReply(4, true)))
            && OnAppendReply(S(4, 1, Leader, log, TWOS, ZEROS), 1, 4, args, AppendReply(4, true), 5) ==
               Some(S(4, 1, Leader, log, [2, 2, 2, 2, 3], [0, 0, 0, 0, 2]))
  {
    assert [ROOT, Z, V][2..] == [V];
    assert MergeAt([ROOT, Z], 2, [V]) == [ROOT, Z] + [V] == [ROOT, Z, V];
    HoldersOfFive([0, 0, 0, 0, 2], 1, 2);
    assert TWOS[4 := 3] == [2, 2, 2, 2, 3] && ZEROS[4 := 2] == [0, 0, 0, 0, 2];
  }

  lemma {:induction false} SecondConfirmed()
    ensures var log, short, full := [ROOT, Z, V], AppendArgs(4, 1, 1, 2, [V], 0), AppendArgs(4, 1, 0, -1, [Z, V], 0);
            var sv, sv' := S(4, 1, Leader, log, [2, 2, 2, 2, 3], [0, 0, 0, 0, 2]), S(4, 1, Leader, log, [2, 2, 1, 2, 3], [0, 0, 0, 0, 2]);
            && MakeAppendArgs(sv, 1, 2) == Some(short)
            && OnAppend(F(4, 1, [ROOT]), short) == Some((F(4, 1, [ROOT]), AppendReply(4, false)))
            && OnAppendReply(sv, 1, 2, short, AppendReply(4, false), 5) == Some(sv')
            && MakeAppendArgs(sv', 1, 2) == Some(full)
            && OnAppend(F(4, 1, [ROOT]), full) == Some((F(4, 1, log), AppendReply(4, true)))
            && OnAppendReply(sv', 1, 2, full, AppendReply(4, true), 5) ==
               Some(S(4, 1, Leader, log, [2, 2, 3, 2, 3], [0, 0, 2, 0, 2]).(commitIndex := 2))
  {
    assert [ROOT, Z, V][2..] == [V] && [ROOT, Z, V][1..] == [Z, V];
    assert MergeAt([ROOT], 1, [Z, V]) == [ROOT] + [Z, V] == [ROOT, Z, V];
    HoldersOfFive([0, 0, 2, 0, 2], 1, 2);
    assert [2, 2, 2, 2, 3][2 := 1] == [2, 2, 1, 2, 3];
    assert [2, 2, 1, 2, 3][2 := 3] == [2, 2, 3, 2, 3] && [0, 0, 0, 0, 2][2 := 2] == [0, 0, 2, 0, 2];
  }

  /** Server 4 confirms the entry of term 4. */
  lemma {:induction false} FirstConfirmation() returns (s: System, l: Ledger)
    ensures Live(E4, s, l) && Sized(5, s) && s.applied == [[Z.entry, W.entry], [], [], [], []]
    ensures 1 in l.led
    ensures s.servers[1] == S(4, 1, Leader, [ROOT, Z, V], [2, 2, 2, 2, 3], [0, 0, 0, 0, 2]) && s.servers[2] == F(4, 1, [ROOT])
  {
    hide Live, OnAppend, MakeAppendArgs, OnAppendReply, Holders;
    var s0, l0 := TermFour();
    var log := [ROOT, Z, V];
    FirstConfirmed();
    var args := AppendArgs(4, 1, 1, 2, [V], 0);
    var s1, l1 := Beats(E4, s0, l0, 1, 4, args, S(4, 1, Follower, log, ONES, ZEROS));
    s, l := Hears(E4, s1, l1, Ack(4, args, AppendReply(4, true)), S(4, 1, Leader, log, [2, 2, 2, 2, 3], [0, 0, 0, 0, 2]));
  }

  /** So does server 2, after a refusal: server 1 commits. */
  lemma {:induction false} SecondConfirmation() returns (s: System, l: Ledger)
    ensures Live(E4, s, l) && Sized(5, s) && s.applied == [[Z.entry, W.entry], [], [], [], []]
    ensures s.servers[1] == S(4, 1, Leader, [ROOT, Z, V], [2, 2, 3, 2, 3], [0, 0, 2, 0, 2]).(commitIndex := 2)
  {
    hide Live, OnAppend, MakeAppendArgs, OnAppendReply, Holders;
    var s0, l0 := FirstConfirmation();
    var log := [ROOT, Z, V];
    SecondConfirmed();
    var short, full := AppendArgs(4, 1, 1, 2, [V], 0), AppendArgs(4, 1, 0, -1, [Z, V], 0);
    var s1, l1 := Beats(E4, s0, l0, 1, 2, short, F(4, 1, [ROOT]));
    var s2, l2 := Hears(E4, s1, l1, Ack(2, short, AppendReply(4, false)), S(4, 1, Leader, log, [2, 2, 1, 2, 3], [0, 0, 0, 0, 2]));
    var s3, l3 := Beats(E4, s2, l2, 1, 2, full, F(4, 1, log));
    s, l := Hears(E4, s3, l3, Ack(2, full, AppendReply(4, true)),
               S(4, 1, Leader, log, [2, 2, 3, 2, 3], [0, 0, 2, 0, 2]).(commitIndex := 2));
  }

  /** Servers 0 and 1 apply different commands at index 2. */
  lemma {:induction false} StaleMatchBreaksStateMachineSafety() returns (s: System, l: Ledger)
    ensures Live(E4, s, l) && Sized(5, s)
    ensures |s.applied[0]| == 2 && |s.applied[1]| == 2 && s.applied[0][1] != s.applied[1][1]
  {
    hide Live;
    var s0, l0 := SecondConfirmation();
    var s1, l1 := Applies(E4, s0, l0, 1, Z.entry);
    s, l := Applies(E4, s1, l1, 1, V.entry);
    assert s.applied[1] == [Z.entry, V.entry];
  }
}
