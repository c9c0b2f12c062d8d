/** An execution of three nodes in which a committed entry is lost. A, which compacts its log,
    leads term 1, is deposed and leads term 3 while a goroutine of its first leadership is still
    waiting for a reply from C. That goroutine's end lets A call C twice at once in term 3. */
module LostEntry {
  import opened RaftTypes
  import opened Logs
  import opened NodeSpec
  import opened Cluster
  import opened Workers
  import opened Scenario
  import opened Stage
  import opened WorkStage

  // ---------------------------------------------------------------- the states of the nodes

  const X3 := Entry(3, PUT, None)
  const Y3 := Entry(3, OTHER, None)
  const N4 := NoOp(4)
  const M3: Log := [DUMMY, N1, N3]
  const MX: Log := [DUMMY, N1, N3, X3]
  const MY: Log := [DUMMY, N1, N3, X3, Y3]
  const MN: Log := [DUMMY, N1, N3, X3, N4]

  /** A in its second leadership. */
  function Leads3(log: Log, commit: nat, next: map<Id, nat>, matched: map<Id, nat>): Node {
    Tight(At("A", Leader, 3, "A", log, commit, {"A", "B"}, next, matched, "A"), 3)
  }

  /** B, which campaigned in term 2. */
  function BWith(term: nat, vote: Id, log: Log, commit: nat, leader: Id): Node {
    At("B", Follower, term, vote, log, commit, {"B"}, map[], map[], leader)
  }

  /** The node with a snapshot of the first three entries. */
  function Cut(n: Node, kv: Store): Node { n.(snap := 3, image := KX, kv := kv) }

  function CLeads(log: Log, commit: nat, next: map<Id, nat>, matched: map<Id, nat>): Node {
    Cut(At("C", Leader, 4, "C", log, commit, {"C", "B"}, next, matched, "C"), KX)
  }

  const P2 := Tight(A2, 3)
  const P3 := Tight(A3, 3)
  const P4 := Tight(At("A", Follower, 2, "B", L1, 1, {"A", "B"}, Per(2, 2, 1), Per(1, 1, 0), ""), 3)
  const P5 := Tight(At("A", Candidate, 3, "A", L1, 1, {"A"}, Per(2, 2, 1), Per(1, 1, 0), ""), 3)
  const P6 := Leads3(M3, 1, Per(3, 2, 2), Per(2, 0, 0))
  const P7 := Leads3(MX, 1, Per(4, 2, 2), Per(3, 0, 0))
  const P8 := Leads3(MY, 1, Per(5, 2, 2), Per(4, 0, 0))
  const P9 := Cut(Leads3(MY, 3, Per(5, 4, 2), Per(4, 3, 0)), KX)
  const P10 := Cut(Leads3(MY, 4, Per(5, 4, 5), Per(4, 3, 4)), KY)
  const Q4 := BWith(3, "A", L1, 0, "")
  const Q5 := BWith(3, "A", MX, 1, "A")
  const Q6 := BWith(4, "C", MX, 1, "")
  const Q7 := BWith(4, "C", MN, 3, "C").(kv := KX)
  const S1 := Follows("C", 1, "", L1, 0, "A")
  const S2 := Follows("C", 3, "", MY, 1, "A")
  const S3 := Cut(Follows("C", 3, "", MX, 3, "A"), KX)
  const S4 := Cut(At("C", Candidate, 4, "C", MX, 3, {"C"}, map[], map[], ""), KX)
  const S5 := CLeads(MN, 3, Per(4, 4, 5), Per(0, 0, 4))
  const S6 := CLeads(MN, 4, Per(4, 5, 5), Per(0, 4, 4))

  const TO_B := AppendRequest(3, "A", 1, 1, [N3, X3], 1)
  const TO_C := AppendRequest(3, "A", 1, 1, [N3, X3, Y3], 1)
  const IMAGE := SnapshotRequest(3, "A", 3, 3, KX, CFG)
  const OVER := AppendRequest(4, "C", 3, 3, [N4], 3)

  // ---------------------------------------------------------------- what they do

  lemma Folds(log: Log, lo: nat, hi: nat)
    requires log == L1 || log == MX || log == MY || log == MN
    requires lo <= hi < |log|
    ensures FoldConfig(CFG, log, lo, hi) == CFG
    decreases hi
  {
    if lo < hi {
      Folds(log, lo, hi - 1);
    }
  }

  lemma Replays()
    ensures ReplayFrom(map[], MX, 0, 1) == map[] && ReplayFrom(map[], MY, 0, 1) == map[]
    ensures ReplayFrom(map[], MY, 1, 3) == KX && ReplayFrom(KX, MY, 3, 4) == KY
    ensures ReplayFrom(map[], MN, 1, 3) == KX && ReplayFrom(KX, MN, 3, 4) == KX
  {
    assert ReplayFrom(map[], MY, 1, 2) == map[] && ReplayFrom(map[], MN, 1, 2) == map[];
  }

  lemma FirstTerm()
    ensures StartElection(Tight(A0, 3)) == Tight(A1, 3) == Campaigner(Tight(A0, 3))
    ensures OnVoteRequest(B0, VoteRequestOf(Tight(A1, 3))) == (B1, VoteResponse(1, true))
  {
    Campaigns(Tight(A0, 3));
  }

  lemma FirstSends()
    ensures MakeAppend(P2, "B") == (P2, Some(R1)) && MakeAppend(P2, "C") == (P2, Some(R1))
  {
    assert L1[1..] == [N1];
  }

  lemma FirstTaken()
    ensures OnAppend(C0, R1) == (S1, AppendResponse(1, true))
  {
    Merges();
    NoChanges(L1);
    TakesQuietly(C0, R1, L1);
  }

  lemma FirstVictory()
    ensures OnVoteResponse(Tight(A1, 3), "B", 1, VoteResponse(1, true)) == P2
  {
    Victory(Tight(A1, 3), "B", L1, Per(2, 1, 1), Per(1, 0, 0));
  }

  lemma FirstReply()
    ensures OnAppendResponse(P2, "B", R1, AppendResponse(1, true)) == P3
  {
    Three();
    assert Per(1, 0, 0)["B" := 1] == Per(1, 1, 0) && Per(2, 1, 1)["B" := 2] == Per(2, 2, 1);
    HeldByTwo(P2.(matchIndex := Per(1, 1, 0)), 1, "A", "B");
    CommitsAll(P2, "B");
  }

  lemma Deposed()
    ensures OnVoteRequest(P3, VoteRequestOf(B3)) == (P4, VoteResponse(2, true))
  {
  }

  lemma ThirdTerm()
    ensures StartElection(P4) == P5 == Campaigner(P4)
    ensures OnVoteRequest(B3, VoteRequestOf(P5)) == (Q4, VoteResponse(3, true))
  {
    Campaigns(P4);
  }

  lemma SecondVictory()
    ensures OnVoteResponse(P5, "B", 3, VoteResponse(3, true)) == P6
  {
    Victory(P5, "B", M3, Per(3, 2, 2), Per(2, 0, 0));
  }

  lemma PutsFirst()
    ensures Propose(P6, PUT) == (P7, Some(3))
  {
    Proposal(P6, PUT, MX, Per(4, 2, 2), Per(3, 0, 0));
  }

  lemma PutsSecond()
    ensures Propose(P7, OTHER) == (P8, Some(4))
  {
    Proposal(P7, OTHER, MY, Per(5, 2, 2), Per(4, 0, 0));
  }

  lemma SendsBoth()
    ensures MakeAppend(P7, "B") == (P7, Some(TO_B)) && MakeAppend(P8, "C") == (P8, Some(TO_C))
    ensures MakeSnapshot(P9) == IMAGE && P9.log[..P9.snap + 1] == MX
  {
    assert MX[2..] == [N3, X3] && MY[2..] == [N3, X3, Y3];
  }

  /** A follower takes entries on and learns that the first entry is committed. */
  lemma TakesAndCommits(n: Node, req: AppendRequest, log: Log)
    requires n.log == L1 && n.commit == 0 == n.applied && n.kv == map[] && n.snap == 0 && n.threshold == 0 && n.base == CFG == n.peers
    requires (req == TO_B && log == MX) || (req == TO_C && log == MY)
    requires n.term <= 3
    ensures OnAppend(n, req) == (Heard(n, 3, "A").(log := log, commit := 1, applied := 1), AppendResponse(3, true))
  {
    assert L1[..2] + [N3, X3] == MX && L1[..2] + [N3, X3, Y3] == MY;
    Folds(log, 0, LastIndex(log));
    Replays();
    var m := Heard(n, 3, "A").(log := log);
    assert TakeEntries(Heard(n, 3, "A"), req) == m;
    assert ApplyCommitted(m.(commit := 1)) == m.(commit := 1, applied := 1);
  }

  lemma BTakes()
    ensures OnAppend(Q4, TO_B) == (Q5, AppendResponse(3, true))
  {
    TakesAndCommits(Q4, TO_B, MX);
  }

  lemma CTakes()
    ensures OnAppend(S1, TO_C) == (S2, AppendResponse(3, true))
  {
    TakesAndCommits(S1, TO_C, MY);
  }

  /** A commits three entries, applies them and compacts. */
  lemma Compacts3()
    ensures OnAppendResponse(P8, "B", TO_B, AppendResponse(3, true)) == P9
  {
    Three();
    var m := P8.(matchIndex := Per(4, 3, 0), nextIndex := Per(5, 4, 2));
    assert Per(4, 0, 0)["B" := 3] == Per(4, 3, 0) && Per(5, 2, 2)["B" := 4] == Per(5, 4, 2);
    assert Holders(m, 4) == {"A"};
    HeldByTwo(m, 3, "A", "B");
    assert BestCommit(m, 3) == 3;
    assert BestCommit(m, 4) == 3;
    Replays();
    Folds(MY, 0, 3);
    Folds(MY, 3, 4);
    assert Catchup(AdvanceCommit(m)) == m.(commit := 3, applied := 3, kv := KX);
  }

  lemma CountsBoth()
    ensures OnAppendResponse(P9, "C", TO_C, AppendResponse(3, true)) == P10
  {
    Three();
    var m := P9.(matchIndex := Per(4, 3, 4), nextIndex := Per(5, 4, 5));
    assert Per(4, 3, 0)["C" := 4] == Per(4, 3, 4) && Per(5, 4, 2)["C" := 5] == Per(5, 4, 5);
    HeldByTwo(m, 4, "A", "C");
    assert AdvanceCommit(m) == m.(commit := 4);
    Replays();
  }

  lemma LosesOne()
    ensures OnSnapshot(S2, IMAGE, MX).0 == S3
  {
  }

  lemma FourthTerm()
    ensures StartElection(S3) == S4 == Campaigner(S3)
    ensures OnVoteRequest(Q5, VoteRequestOf(S4)) == (Q6, VoteResponse(4, true))
    ensures MakeAppend(S5, "B") == (S5, Some(OVER))
  {
    Campaigns(S3);
    assert MN[4..] == [N4];
  }

  lemma ThirdVictory()
    ensures OnVoteResponse(S4, "B", 4, VoteResponse(4, true)) == S5
  {
    Victory(S4, "B", MN, Per(4, 4, 5), Per(0, 0, 4));
  }

  lemma TakesOver()
    ensures OnAppend(Q6, OVER) == (Q7, AppendResponse(4, true))
  {
    assert MX[..4] + [N4] == MN;
    Folds(MN, 0, 4);
    Replays();
    var n := Heard(Q6, 4, "C").(log := MN);
    assert TakeEntries(Heard(Q6, 4, "C"), OVER) == n;
    assert ApplyCommitted(n.(commit := 3)) == Q7;
  }

  lemma CountsOver()
    ensures OnAppendResponse(S5, "B", OVER, AppendResponse(4, true)) == S6
  {
    Three();
    var m := S5.(matchIndex := Per(0, 4, 4), nextIndex := Per(4, 5, 5));
    assert Per(0, 0, 4)["B" := 4] == Per(0, 4, 4) && Per(4, 4, 5)["B" := 5] == Per(4, 5, 5);
    HeldByTwo(m, 4, "B", "C");
    assert AdvanceCommit(m) == m.(commit := 4);
    Replays();
  }

  // ---------------------------------------------------------------- the execution

  const JB1 := Job("A", "B", 1, 0)
  const JC1 := Job("A", "C", 1, 0)
  const JB3 := Job("A", "B", 3, 1)
  const JC3 := Job("A", "C", 3, 1)
  const AGAIN := Job("A", "C", 3, 4)
  const JB4 := Job("C", "B", 4, 5)
  const AB := ("A", "B")
  const AC := ("A", "C")

  ghost predicate Frame(sh: Show, moves: nat, a: Node, b: Node, c: Node, issued: nat, flags: set<(Id, Id)>, clock: nat) {
    && Shown(sh) && |sh.ms| == moves
    && Last(sh.pl).nodes == Trio(a, b, c) && Last(sh.pl).issued == issued
    && Now(sh).replicating == flags && Now(sh).clock == clock
  }

  ghost predicate Extends(sh: Show, sh': Show) { sh.ws <= sh'.ws && sh.ms <= sh'.ms }

  ghost predicate Doing(sh: Show, j: Job, x: Activity)
    requires Shown(sh)
  {
    j in Now(sh).jobs && Now(sh).jobs[j] == x
  }

  /** The request is on its way and its caller, a goroutine, is waiting. */
  ghost predicate Out(sh: Show, j: Job, id: nat, req: AppendRequest)
    requires Shown(sh)
  {
    && Doing(sh, j, Calling(id)) && AppendReq(id, j.peer, req) in Last(sh.pl).net
    && id in Last(sh.pl).calls && Last(sh.pl).calls[id] == AppendCall(j.node, j.peer, req)
  }

  /** A is elected in term 1 with B's vote. */
  lemma ActOne() returns (sh: Show)
    ensures Frame(sh, 3, P2, B1, C0, 0, {AB, AC}, 1) && Doing(sh, JB1, Looking) && Doing(sh, JC1, Looking)
  {
    FirstTerm();
    FirstVictory();
    var pl := Opening(false, true, 3);
    var s0 := FirstMoment(pl);
    sh := Wins(s0, "A", "B", Tight(A1, 3), B1, P2);
    Recast(Tight(A0, 3), B0, C0, P2);
    Recast(P2, B0, C0, B1);
    FirstJobs(Now(s0), Now(sh));
  }

  lemma FirstJobs(w: World, w': World)
    requires w.replicating == {} && w.clock == 0 && w.jobs == map[]
    requires "A" in w'.c.nodes && w'.c.nodes["A"] == P2 && w' == Broadcast(Cleared(w.(c := w'.c), "A"), "A")
    ensures w'.replicating == {AB, AC} && w'.clock == 1
    ensures JB1 in w'.jobs && w'.jobs[JB1] == Looking && JC1 in w'.jobs && w'.jobs[JC1] == Looking
  {
    Three();
    StartsTwo(Cleared(w.(c := w'.c), "A"), "A", "B", "C");
  }

  /** A calls both peers. */
  lemma ActTwo(sh: Show) returns (sh': Show)
    requires Frame(sh, 3, P2, B1, C0, 0, {AB, AC}, 1) && Doing(sh, JB1, Looking) && Doing(sh, JC1, Looking)
    ensures Frame(sh', 5, P2, B1, C0, 2, {AB, AC}, 1) && Out(sh', JB1, 0, R1) && Out(sh', JC1, 1, R1)
  {
    FirstSends();
    var s1 := WorkStage.Sends(sh, JB1, R1);
    sh' := WorkStage.Sends(s1, JC1, R1);
  }

  /** B takes the entry and A hears so. */
  lemma ActThree(sh: Show) returns (sh': Show)
    requires Frame(sh, 5, P2, B1, C0, 2, {AB, AC}, 1) && Out(sh, JB1, 0, R1) && Out(sh, JC1, 1, R1)
    ensures Frame(sh', 7, P3, B2, C0, 2, {AB, AC}, 1) && Doing(sh', JB1, Ending) && Out(sh', JC1, 1, R1)
  {
    FollowersTake();
    FirstReply();
    sh' := Serves(sh, JB1, R1, 0, B2, P3, Ending);
    Recast(P2, B1, C0, B2);
    Recast(P2, B2, C0, P3);
  }

  /** A's goroutine for B ends, and C takes the entry too. A does not hear so. */
  lemma ActFour(sh: Show) returns (sh': Show)
    requires Frame(sh, 7, P3, B2, C0, 2, {AB, AC}, 1) && Doing(sh, JB1, Ending) && Out(sh, JC1, 1, R1)
    ensures Frame(sh', 9, P3, B2, S1, 2, {AC}, 1) && Out(sh', JC1, 1, R1)
  {
    FirstTaken();
    var s1 := Meanwhile(sh, Ends(JB1));
    assert {AB, AC} - {AB} == {AC};
    sh' := Takes(s1, AppendReq(1, "C", R1), S1);
    Recast(P3, B2, C0, S1);
  }

  /** B campaigns in term 2 and deposes A. */
  lemma ActFive(sh: Show) returns (sh': Show)
    requires Frame(sh, 9, P3, B2, S1, 2, {AC}, 1) && Out(sh, JC1, 1, R1)
    ensures Frame(sh', 11, P4, B3, S1, 2, {AC}, 1) && Out(sh', JC1, 1, R1)
  {
    SecondCampaign();
    Deposed();
    var p1 := TimesOut(sh.pl, "B");
    assert VoteReq("A", VoteRequestOf(B3)) in Last(p1).net;
    var s1 := Quietly(sh, Timeout("B"), p1);
    Recast(P3, B2, S1, B3);
    sh' := Takes(s1, VoteReq("A", VoteRequestOf(B3)), P4);
    Recast(P3, B3, S1, P4);
  }

  /** A is elected again, in term 3. Its old goroutine for C is still waiting. */
  lemma ActSix(sh: Show) returns (sh': Show)
    requires Frame(sh, 11, P4, B3, S1, 2, {AC}, 1) && Out(sh, JC1, 1, R1)
    ensures Frame(sh', 14, P6, Q4, S1, 2, {AB, AC}, 2) && Out(sh', JC1, 1, R1) && Doing(sh', JB3, Looking) && Doing(sh', JC3, Looking)
    ensures Elected(sh'.ws[13].c, sh'.ws[14].c, "A") && JC1 in sh'.ws[13].jobs && sh'.ws[13].jobs[JC1] == Calling(1)
    ensures 1 in sh'.ws[13].c.calls && sh'.ws[13].c.calls[1] == AppendCall("A", "C", R1)
  {
    ThirdTerm();
    SecondVictory();
    sh' := Wins(sh, "A", "B", P5, Q4, P6);
    Recast(P4, B3, S1, P6);
    Recast(P6, B3, S1, Q4);
    SixthJobs(Now(sh), Now(sh'));
  }

  lemma SixthJobs(w: World, w': World)
    requires w.replicating == {AC} && w.clock == 1 && JC1 in w.jobs && w.jobs[JC1] == Calling(1)
    requires "A" in w'.c.nodes && w'.c.nodes["A"] == P6 && w' == Broadcast(Cleared(w.(c := w'.c), "A"), "A")
    ensures w'.replicating == {AB, AC} && w'.clock == 2 && JC1 in w'.jobs && w'.jobs[JC1] == Calling(1)
    ensures JB3 in w'.jobs && w'.jobs[JB3] == Looking && JC3 in w'.jobs && w'.jobs[JC3] == Looking
  {
    Three();
    var w1 := Cleared(w.(c := w'.c), "A");
    assert w1.replicating == {};
    StartsTwo(w1, "A", "B", "C");
  }

  /** A takes a write. */
  lemma ActSeven(sh: Show) returns (sh': Show)
    requires Frame(sh, 14, P6, Q4, S1, 2, {AB, AC}, 2) && Out(sh, JC1, 1, R1) && Doing(sh, JB3, Looking) && Doing(sh, JC3, Looking)
    ensures Frame(sh', 15, P7, Q4, S1, 2, {AB, AC}, 3) && Out(sh', JC1, 1, R1) && Doing(sh', JB3, Looking) && Doing(sh', JC3, Looking)
    ensures Extends(sh, sh')
  {
    PutsFirst();
    sh' := Appends(sh, "A", PUT, P7);
    Recast(P6, Q4, S1, P7);
  }

  /** A sends it to B. */
  lemma ActEight(sh: Show) returns (sh': Show)
    requires Frame(sh, 15, P7, Q4, S1, 2, {AB, AC}, 3) && Out(sh, JC1, 1, R1) && Doing(sh, JB3, Looking) && Doing(sh, JC3, Looking)
    ensures Frame(sh', 16, P7, Q4, S1, 3, {AB, AC}, 3) && Out(sh', JC1, 1, R1) && Out(sh', JB3, 2, TO_B) && Doing(sh', JC3, Looking)
    ensures Extends(sh, sh')
  {
    SendsBoth();
    sh' := WorkStage.Sends(sh, JB3, TO_B);
  }

  /** A takes another write. */
  lemma ActNine(sh: Show) returns (sh': Show)
    requires Frame(sh, 16, P7, Q4, S1, 3, {AB, AC}, 3) && Out(sh, JC1, 1, R1) && Out(sh, JB3, 2, TO_B) && Doing(sh, JC3, Looking)
    ensures Frame(sh', 17, P8, Q4, S1, 3, {AB, AC}, 4) && Out(sh', JC1, 1, R1) && Out(sh', JB3, 2, TO_B) && Doing(sh', JC3, Looking)
    ensures Extends(sh, sh')
  {
    PutsSecond();
    sh' := Appends(sh, "A", OTHER, P8);
    Recast(P7, Q4, S1, P8);
  }

  /** A sends both to C: its first call of this term to C. */
  lemma ActTen(sh: Show) returns (sh': Show)
    requires Frame(sh, 17, P8, Q4, S1, 3, {AB, AC}, 4) && Out(sh, JC1, 1, R1) && Out(sh, JB3, 2, TO_B) && Doing(sh, JC3, Looking)
    ensures Frame(sh', 18, P8, Q4, S1, 4, {AB, AC}, 4) && Out(sh', JC1, 1, R1) && Out(sh', JB3, 2, TO_B) && Out(sh', JC3, 3, TO_C)
    ensures Extends(sh, sh') && sh'.ms[17] == Looks(JC3)
  {
    SendsBoth();
    sh' := WorkStage.Sends(sh, JC3, TO_C);
  }

  /** The call of term 1 fails, and its goroutine clears the flag for C. */
  lemma ActEleven(sh: Show) returns (sh': Show)
    requires Frame(sh, 18, P8, Q4, S1, 4, {AB, AC}, 4) && Out(sh, JC1, 1, R1) && Out(sh, JB3, 2, TO_B) && Out(sh, JC3, 3, TO_C)
    ensures Frame(sh', 20, P8, Q4, S1, 4, {AB}, 4) && Out(sh', JB3, 2, TO_B) && Out(sh', JC3, 3, TO_C)
    ensures Extends(sh, sh') && sh'.ms[18] == Fails(JC1) && sh'.ms[19] == Ends(JC1)
  {
    var p1 := Drops(sh.pl, 1);
    var s1 := Along(sh, Fails(JC1), p1);
    sh' := Meanwhile(s1, Ends(JC1));
    assert {AB, AC} - {AC} == {AB};
  }

  /** B takes one write; A commits it and compacts. */
  lemma ActTwelve(sh: Show) returns (sh': Show)
    requires Frame(sh, 20, P8, Q4, S1, 4, {AB}, 4) && Out(sh, JB3, 2, TO_B) && Out(sh, JC3, 3, TO_C)
    ensures Frame(sh', 22, P9, Q5, S1, 4, {AB}, 4) && Out(sh', JC3, 3, TO_C) && Extends(sh, sh')
  {
    BTakes();
    Compacts3();
    sh' := Serves(sh, JB3, TO_B, 2, Q5, P9, Looking);
    Recast(P8, Q4, S1, Q5);
    Recast(P8, Q5, S1, P9);
  }

  /** At its next broadcast A starts another goroutine for C. */
  lemma ActThirteen(sh: Show) returns (sh': Show)
    requires Frame(sh, 22, P9, Q5, S1, 4, {AB}, 4) && Out(sh, JC3, 3, TO_C)
    ensures Frame(sh', 23, P9, Q5, S1, 4, {AB, AC}, 5) && Out(sh', JC3, 3, TO_C) && Doing(sh', AGAIN, Looking)
    ensures Extends(sh, sh') && sh'.ms[22] == Broadcasts("A")
  {
    sh' := Meanwhile(sh, Broadcasts("A"));
    StartsOne(Now(sh), "A", "C");
    assert {AB} + {AC} == {AB, AC};
  }

  /** The new goroutine sends the snapshot: the second call of this term to C. */
  lemma ActFourteen(sh: Show) returns (sh': Show)
    requires Frame(sh, 23, P9, Q5, S1, 4, {AB, AC}, 5) && Out(sh, JC3, 3, TO_C) && Doing(sh, AGAIN, Looking)
    ensures Frame(sh', 24, P9, Q5, S1, 5, {AB, AC}, 5) && Out(sh', JC3, 3, TO_C) && SnapReq(4, "C", IMAGE, MX) in Last(sh'.pl).net
    ensures Extends(sh, sh') && sh'.ms[23] == Looks(AGAIN)
    ensures CanCall(sh'.ws[23].c, "A", "C") && !MayCall(sh'.ws[23].c, "A", "C")
  {
    SendsBoth();
    assert Pending(Last(sh.pl).calls, 3, "A", "C", 3);
    sh' := WorkStage.SendsImage(sh, AGAIN);
  }

  /** C takes both writes and A commits the second with it. */
  lemma ActFifteen(sh: Show) returns (sh': Show)
    requires Frame(sh, 24, P9, Q5, S1, 5, {AB, AC}, 5) && Out(sh, JC3, 3, TO_C) && SnapReq(4, "C", IMAGE, MX) in Last(sh.pl).net
    ensures Frame(sh', 26, P10, Q5, S2, 5, {AB, AC}, 5) && SnapReq(4, "C", IMAGE, MX) in Last(sh'.pl).net && Extends(sh, sh')
  {
    CTakes();
    CountsBoth();
    sh' := Serves(sh, JC3, TO_C, 3, S2, P10, Ending);
    Recast(P9, Q5, S1, S2);
    Recast(P9, Q5, S2, P10);
  }

  /** The snapshot takes that write from C again. */
  lemma ActSixteen(sh: Show) returns (sh': Show)
    requires Frame(sh, 26, P10, Q5, S2, 5, {AB, AC}, 5) && SnapReq(4, "C", IMAGE, MX) in Last(sh.pl).net
    ensures Frame(sh', 27, P10, Q5, S3, 5, {AB, AC}, 5) && Extends(sh, sh')
  {
    LosesOne();
    sh' := Takes(sh, SnapReq(4, "C", IMAGE, MX), S3);
    Recast(P10, Q5, S2, S3);
  }

  /** C is elected in term 4 by B. */
  lemma ActSeventeen(sh: Show) returns (sh': Show)
    requires Frame(sh, 27, P10, Q5, S3, 5, {AB, AC}, 5)
    ensures Shown(sh') && |sh'.ms| == 30 && Last(sh'.pl).nodes == Trio(P10, Q6, S5) && Last(sh'.pl).issued == 5
    ensures Doing(sh', JB4, Looking) && Extends(sh, sh')
  {
    FourthTerm();
    ThirdVictory();
    sh' := Wins(sh, "C", "B", S4, Q6, S5);
    Recast(P10, Q5, S3, S5);
    Recast(P10, Q5, S5, Q6);
    LastJobs(Now(sh), Now(sh'));
  }

  lemma LastJobs(w: World, w': World)
    requires w.replicating == {AB, AC} && w.clock == 5
    requires "C" in w'.c.nodes && w'.c.nodes["C"] == S5 && w' == Broadcast(Cleared(w.(c := w'.c), "C"), "C")
    ensures JB4 in w'.jobs && w'.jobs[JB4] == Looking
  {
    Three();
    var w1 := Cleared(w.(c := w'.c), "C");
    assert {"A", "B", "C"} == {"C", "A", "B"};
    Unflagged(w1.replicating);
    StartsTwo(w1, "C", "A", "B");
  }

  lemma Unflagged(flags: set<(Id, Id)>)
    requires flags <= {AB, AC}
    ensures ("C", "A") !in flags && ("C", "B") !in flags
  {
    assert "A" != "C";
  }

  /** C sends B its own entry at the lost one's index. */
  lemma ActEighteen(sh: Show) returns (sh': Show)
    requires Shown(sh) && |sh.ms| == 30 && Last(sh.pl).nodes == Trio(P10, Q6, S5) && Last(sh.pl).issued == 5
    requires Doing(sh, JB4, Looking)
    ensures Shown(sh') && |sh'.ms| == 31 && Last(sh'.pl).nodes == Trio(P10, Q6, S5) && Out(sh', JB4, 5, OVER) && Extends(sh, sh')
  {
    FourthTerm();
    sh' := WorkStage.Sends(sh, JB4, OVER);
  }

  /** B takes it, and C commits it. */
  lemma ActNineteen(sh: Show) returns (sh': Show)
    requires Shown(sh) && |sh.ms| == 31 && Last(sh.pl).nodes == Trio(P10, Q6, S5) && Out(sh, JB4, 5, OVER)
    ensures Shown(sh') && |sh'.ms| == 33 && Last(sh'.pl).nodes == Trio(P10, Q7, S6) && Extends(sh, sh')
  {
    TakesOver();
    CountsOver();
    sh' := Serves(sh, JB4, OVER, 5, Q7, S6, Ending);
    Recast(P10, Q6, S5, Q7);
    Recast(P10, Q7, S5, S6);
  }

  lemma FirstHalf() returns (sh: Show)
    ensures Frame(sh, 18, P8, Q4, S1, 4, {AB, AC}, 4) && Out(sh, JC1, 1, R1) && Out(sh, JB3, 2, TO_B) && Out(sh, JC3, 3, TO_C)
    ensures Elected(sh.ws[13].c, sh.ws[14].c, "A") && JC1 in sh.ws[13].jobs && sh.ws[13].jobs[JC1] == Calling(1)
    ensures 1 in sh.ws[13].c.calls && sh.ws[13].c.calls[1] == AppendCall("A", "C", R1)
    ensures sh.ws[14].c.nodes == Trio(P6, Q4, S1) && sh.ms[17] == Looks(JC3)
  {
    var s1 := ActOne();
    var s2 := ActTwo(s1);
    var s3 := ActThree(s2);
    var s4 := ActFour(s3);
    var s5 := ActFive(s4);
    var s6 := ActSix(s5);
    var s7 := ActSeven(s6);
    var s8 := ActEight(s7);
    var s9 := ActNine(s8);
    sh := ActTen(s9);
  }

  lemma SecondHalf(s10: Show) returns (sh: Show)
    requires Frame(s10, 18, P8, Q4, S1, 4, {AB, AC}, 4) && Out(s10, JC1, 1, R1) && Out(s10, JB3, 2, TO_B) && Out(s10, JC3, 3, TO_C)
    ensures Shown(sh) && Extends(s10, sh) && |sh.ms| == 33 && sh.ws[33].c.nodes == Trio(P10, Q7, S6)
    ensures sh.ms[18] == Fails(JC1) && sh.ms[19] == Ends(JC1) && sh.ms[23] == Looks(AGAIN)
    ensures CanCall(sh.ws[23].c, "A", "C") && !MayCall(sh.ws[23].c, "A", "C") && sh.ws[24].c.nodes == Trio(P9, Q5, S1)
  {
    var s11 := ActEleven(s10);
    var s12 := ActTwelve(s11);
    var s13 := ActThirteen(s12);
    var s14 := ActFourteen(s13);
    var s15 := ActFifteen(s14);
    var s16 := ActSixteen(s15);
    var s17 := ActSeventeen(s16);
    var s18 := ActEighteen(s17);
    sh := ActNineteen(s18);
  }

  /** A goroutine `j` of node `j.node` is waiting for a call of an earlier term when the node is
      elected in state `e`; it ends in state `f`, after one call of the new term to `j.peer` and
      before the next. */
  ghost predicate Overlap(ws: seq<World>, ms: seq<Move>, j: Job, e: nat, k: nat, f: nat, l: nat)
    requires |ws| == |ms| + 1
  {
    && e < k < f < l < |ms|
    && Elected(ws[e].c, ws[e + 1].c, j.node) && j in ws[e].jobs && ws[e].jobs[j].Calling?
    && ws[e].jobs[j].id in ws[e].c.calls && ws[e].c.calls[ws[e].jobs[j].id].Term() < ws[e + 1].c.nodes[j.node].term
    && ms[k].Looks? && For(ms[k].job, j.node, j.peer)
    && ms[f] == Ends(j)
    && ms[l].Looks? && For(ms[l].job, j.node, j.peer) && !MayCall(ws[l].c, j.node, j.peer)
  }

  lemma WholeShow() returns (sh: Show)
    ensures Shown(sh) && |sh.ms| == 33 && sh.ws[33].c.nodes == Trio(P10, Q7, S6) && Overlap(sh.ws, sh.ms, JC1, 13, 17, 19, 23)
  {
    var first := FirstHalf();
    sh := SecondHalf(first);
  }

  /** A goroutine left over from an earlier leadership can cost a committed entry: after two
      overlapping calls of one term to one peer, an entry that its leader has committed and applied
      is overwritten and another is committed in its place. */
  lemma CommittedMayBeLost() returns (ws: seq<World>, ms: seq<Move>, j: Job, e: nat, k: nat, f: nat, l: nat, v: Id, w: Id, idx: nat)
    ensures Execution(ws, ms) && Overlap(ws, ms, j, e, k, f, l)
    ensures
      var c := ws[|ms|].c;
      && v in c.nodes && w in c.nodes
      && idx <= c.nodes[v].applied && idx <= c.nodes[w].applied
      && idx < |c.nodes[v].log| && idx < |c.nodes[w].log| && c.nodes[v].log[idx] != c.nodes[w].log[idx]
      && c.nodes[v].kv != c.nodes[w].kv
  {
    var sh := WholeShow();
    assert Watched(sh, true);
    ws, ms, j, e, k, f, l, v, w, idx := sh.ws, sh.ms, JC1, 13, 17, 19, 23, "A", "C", 4;
    Differ();
  }

  lemma Differ()
    ensures P10.applied == 4 == S6.applied && |P10.log| == 5 == |S6.log| && P10.log[4] != S6.log[4] && P10.kv != S6.kv
  {
    assert "k" in KX && "k" in KY && KX["k"] != KY["k"];
  }
}
