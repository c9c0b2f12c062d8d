/** A run of three nodes in which a linearizable read misses a committed entry, and a `Put`
    reports success although its command was overwritten. */
module Scenario {
  import opened RaftTypes
  import opened Quorums
  import opened Logs
  import opened NodeSpec

  // ---------------------------------------------------------------- quiet actions

  /** Nothing to apply and nothing to compact. */
  predicate Idle(n: Node) {
    && |n.log| > 0 && n.applied == n.commit && n.commit < |n.log|
    && (n.threshold == 0 || n.applied - n.snap < n.threshold)
  }

  lemma IdleApplies(n: Node)
    requires Idle(n)
    ensures ApplyCommitted(n) == n
  {
  }

  lemma {:induction false} NothingToCommit(n: Node, top: nat)
    requires top < |n.log| && forall i :: n.commit < i <= top ==> !Committable(n, i)
    ensures BestCommit(n, top) == n.commit
    decreases top
  {
    if top > n.commit {
      NothingToCommit(n, top - 1);
    }
  }

  /** A new leader of several members commits nothing at once. */
  lemma NewLeaderWaits(n: Node)
    requires Idle(n) && n.id in n.peers && MajoritySize(n.peers.Keys) >= 2
    requires forall i {:trigger n.log[i]} :: 0 <= i < |n.log| ==> n.log[i].term < n.term
    ensures BecomeLeader(n) == Crowned(n)
  {
    var m := Crowned(n);
    forall i | m.commit < i < |m.log|
      ensures !Committable(m, i)
    {
      if i < |n.log| {
        assert m.log[i] == n.log[i];
      } else {
        OnlyOwn(n, i);
      }
    }
    NothingToCommit(m, LastIndex(m.log));
    assert AdvanceCommit(m) == m;
    IdleApplies(m);
  }

  lemma OnlyOwn(n: Node, i: nat)
    requires i == |n.log| > 0 && n.id in n.peers
    ensures |Holders(Crowned(n), i)| == 1
  {
    assert Holders(Crowned(n), i) == {n.id};
  }

  /** A leader that alone holds what it has not committed. */
  predicate Alone(n: Node) {
    n.id in n.peers && forall p :: p in n.peers && p != n.id ==> Lookup(n.matchIndex, p) <= n.commit
  }

  lemma OwnEntryWaits(n: Node, e: Entry)
    requires Idle(n) && Alone(n) && MajoritySize(n.peers.Keys) >= 2
    ensures ApplyCommitted(AdvanceCommit(LeaderAppend(n, e))) == LeaderAppend(n, e)
  {
    var m := LeaderAppend(n, e);
    forall i | m.commit < i < |m.log|
      ensures !Committable(m, i)
    {
      SubsetSize(Holders(m, i), {n.id});
    }
    NothingToCommit(m, LastIndex(m.log));
    assert AdvanceCommit(m) == m;
    IdleApplies(m);
  }

  lemma ProposalWaits(n: Node, cmd: Command)
    requires Idle(n) && Alone(n) && n.role == Leader && n.peers == CFG
    ensures Propose(n, cmd) == (LeaderAppend(n, Entry(n.term, cmd, None)), Some(|n.log|))
  {
    Three();
    OwnEntryWaits(n, Entry(n.term, cmd, None));
  }

  /** The leader with its new entry, spelled out. */
  lemma Proposal(n: Node, cmd: Command, log: Log, next: map<Id, nat>, matched: map<Id, nat>)
    requires Idle(n) && Alone(n) && n.role == Leader && n.peers == CFG
    requires log == n.log + [Entry(n.term, cmd, None)]
    requires next == n.nextIndex[n.id := |n.log| + 1] && matched == n.matchIndex[n.id := |n.log|]
    ensures Propose(n, cmd) == (n.(log := log, nextIndex := next, matchIndex := matched), Some(|n.log|))
  {
    ProposalWaits(n, cmd);
  }

  lemma {:induction false} ReplayNoOps(kv: Store, log: Log, lo: nat, hi: nat)
    requires lo <= hi < |log| && forall i {:trigger log[i]} :: lo < i <= hi ==> log[i].command == Empty
    ensures ReplayFrom(kv, log, lo, hi) == kv
    decreases hi
  {
    if lo < hi {
      ReplayNoOps(kv, log, lo, hi - 1);
    }
  }

  /** A leader that learns that its last entry, and only no-ops before it, is held widely. */
  lemma CommitsAll(n: Node, p: Id)
    requires Idle(n) && n.commit < LastIndex(n.log) && n.snap < |n.log|
    requires n.threshold == 0 || LastIndex(n.log) - n.snap < n.threshold
    requires forall i {:trigger n.log[i]} :: n.commit < i < |n.log| ==> n.log[i].command == Empty
    requires n.log[LastIndex(n.log)].term == n.term
    requires |Holders(n.(matchIndex := n.matchIndex[p := LastIndex(n.log)]), LastIndex(n.log))| >= MajoritySize(n.peers.Keys)
    ensures CountMatch(n, p, LastIndex(n.log)) ==
            n.(matchIndex := n.matchIndex[p := LastIndex(n.log)], nextIndex := n.nextIndex[p := |n.log|],
               commit := LastIndex(n.log), applied := LastIndex(n.log))
  {
    var last := LastIndex(n.log);
    var m := n.(matchIndex := n.matchIndex[p := last], nextIndex := n.nextIndex[p := |n.log|]);
    assert Holders(m, last) == Holders(n.(matchIndex := n.matchIndex[p := last]), last);
    assert AdvanceCommit(m) == m.(commit := last);
    ReplayNoOps(n.kv, n.log, n.applied, last);
  }

  // ---------------------------------------------------------------- the states of the three nodes

  const CFG: Config := map["A" := "a", "B" := "b", "C" := "c"]

  const N1 := NoOp(1)
  const N2 := NoOp(2)
  const N3 := NoOp(3)
  const PUT := Operation("Put", "k", "v")
  const OTHER := Operation("Put", "k", "w")
  const X := Entry(1, PUT, None)

  /** What the two writes leave behind. */
  const KX: Store := map["k" := "v"]
  const KY: Store := map["k" := "w"]

  const L0: Log := [DUMMY]
  const L1: Log := [DUMMY, N1]
  const LX: Log := [DUMMY, N1, X]
  const L2: Log := [DUMMY, N1, N2]
  const L3: Log := [DUMMY, N1, N2, N3]

  function Per(a: nat, b: nat, c: nat): map<Id, nat> { map["A" := a, "B" := b, "C" := c] }

  /** A node that has applied all it has committed. Only no-ops are, so its map is empty. */
  function At(id: Id, role: Role, term: nat, vote: Id, log: Log, commit: nat,
              votes: set<Id>, next: map<Id, nat>, matched: map<Id, nat>, leader: Id): Node
  {
    Node(id, 0, role, term, vote, log, 0, map[], CFG, CFG, commit, commit, map[], votes, next, matched, leader, false)
  }

  function Follows(id: Id, term: nat, vote: Id, log: Log, commit: nat, leader: Id): Node {
    At(id, Follower, term, vote, log, commit, {}, map[], map[], leader)
  }

  /** The node with a snapshot threshold. */
  function Tight(n: Node, k: nat): Node { n.(threshold := k) }

  const A0 := Follows("A", 0, "", L0, 0, "")
  const B0 := Follows("B", 0, "", L0, 0, "")
  const C0 := Follows("C", 0, "", L0, 0, "")

  const A1 := At("A", Candidate, 1, "A", L0, 0, {"A"}, map[], map[], "")
  const B1 := Follows("B", 1, "A", L0, 0, "")
  const A2 := At("A", Leader, 1, "A", L1, 0, {"A", "B"}, Per(2, 1, 1), Per(1, 0, 0), "A")
  const B2 := Follows("B", 1, "A", L1, 0, "A")
  const A3 := At("A", Leader, 1, "A", L1, 1, {"A", "B"}, Per(2, 2, 1), Per(1, 1, 0), "A")
  const C1 := Follows("C", 1, "", L1, 1, "A")
  const A4 := At("A", Leader, 1, "A", LX, 1, {"A", "B"}, Per(3, 2, 1), Per(2, 1, 0), "A")
  const B3 := At("B", Candidate, 2, "B", L1, 0, {"B"}, map[], map[], "")
  const C2 := Follows("C", 2, "B", L1, 1, "")
  const B4 := At("B", Leader, 2, "B", L2, 0, {"B", "C"}, Per(2, 3, 2), Per(0, 2, 0), "B")
  const C3 := Follows("C", 2, "B", L2, 1, "B")
  const B5 := At("B", Leader, 2, "B", L2, 2, {"B", "C"}, Per(2, 3, 3), Per(0, 2, 2), "B")
  const A5 := At("A", Follower, 2, "", L2, 1, {"A", "B"}, Per(3, 2, 1), Per(2, 1, 0), "B")
  const A6 := At("A", Candidate, 3, "A", L2, 1, {"A"}, Per(3, 2, 1), Per(2, 1, 0), "")
  const C4 := Follows("C", 3, "A", L2, 1, "")
  const A7 := At("A", Leader, 3, "A", L3, 1, {"A", "C"}, Per(4, 3, 3), Per(3, 0, 0), "A")
  const C5 := Follows("C", 3, "A", L2, 1, "A")
  const C6 := Follows("C", 3, "A", L3, 1, "A")
  const A8 := At("A", Leader, 3, "A", L3, 3, {"A", "C"}, Per(4, 3, 4), Per(3, 0, 3), "A")

  const R1 := AppendRequest(1, "A", 0, 0, [N1], 0)
  const R2 := AppendRequest(1, "A", 0, 0, [N1], 1)
  const R3 := AppendRequest(2, "B", 1, 1, [N2], 0)
  const R4 := AppendRequest(3, "A", 2, 2, [N3], 1)
  const PROBE := AppendRequest(3, "A", 3, 3, [], 1)

  lemma Three()
    ensures CFG.Keys == {"A", "B", "C"} && MajoritySize(CFG.Keys) == 2
  {
    assert CFG.Keys == {"A", "B", "C"};
    assert {"A", "B", "C"} == {"A", "B"} + {"C"} && {"A", "B"} == {"A"} + {"B"};
  }

  lemma Everyone(k: nat)
    ensures Uniform(CFG.Keys, k) == Per(k, k, k)
  {
  }

  lemma NoChanges(log: Log)
    requires log == L0 || log == L1 || log == LX || log == L2 || log == L3
    ensures FoldConfig(CFG, log, 0, LastIndex(log)) == CFG
  {
    if log == L3 {
      assert FoldConfig(CFG, L3, 0, 1) == CFG;
    }
  }

  // ---------------------------------------------------------------- elections

  lemma Campaigns(n: Node)
    requires n.peers == CFG && n.id in CFG && !n.joining && |n.log| > 0
    ensures StartElection(n) == Campaigner(n)
  {
    Three();
  }

  lemma WonBy(n: Node, from: Id)
    requires Idle(n) && n.role == Candidate && n.peers == CFG && n.id in CFG && n.votes == {n.id} && from != n.id
    requires forall i {:trigger n.log[i]} :: 0 <= i < |n.log| ==> n.log[i].term < n.term
    ensures OnVoteResponse(n, from, n.term, VoteResponse(n.term, true)) == Crowned(n.(votes := {n.id, from}))
  {
    Three();
    TwoVotes(n.id, from);
    var m := n.(votes := {n.id, from});
    assert n.votes + {from} == {n.id, from};
    NewLeaderWaits(m);
    assert TallyVotes(m) == BecomeLeader(m);
  }

  lemma TwoVotes(p: Id, q: Id)
    requires p != q
    ensures |{p, q}| == 2
  {
    assert {p, q} == {p} + {q};
  }

  /** The winner, spelled out. */
  lemma Victory(n: Node, from: Id, log: Log, next: map<Id, nat>, matched: map<Id, nat>)
    requires Idle(n) && n.role == Candidate && n.peers == CFG && n.id in CFG && n.votes == {n.id} && from != n.id
    requires forall i {:trigger n.log[i]} :: 0 <= i < |n.log| ==> n.log[i].term < n.term
    requires log == n.log + [NoOp(n.term)]
    requires next == Per(|n.log|, |n.log|, |n.log|)[n.id := |n.log| + 1] && matched == Per(0, 0, 0)[n.id := |n.log|]
    ensures OnVoteResponse(n, from, n.term, VoteResponse(n.term, true)) ==
            n.(role := Leader, leader := n.id, log := log, votes := {n.id, from}, nextIndex := next, matchIndex := matched)
  {
    WonBy(n, from);
    Everyone(|n.log|);
    Everyone(0);
  }

  lemma FirstCampaign()
    ensures StartElection(A0) == A1 && VoteRequestOf(A1) == VoteRequest(1, "A", 0, 0)
    ensures OnVoteRequest(B0, VoteRequestOf(A1)) == (B1, VoteResponse(1, true))
  {
    Campaigns(A0);
  }

  lemma FirstWin()
    ensures OnVoteResponse(A1, "B", 1, VoteResponse(1, true)) == A2
  {
    Victory(A1, "B", L1, Per(2, 1, 1), Per(1, 0, 0));
  }

  lemma SecondCampaign()
    ensures StartElection(B2) == B3 && VoteRequestOf(B3) == VoteRequest(2, "B", 1, 1)
    ensures OnVoteRequest(C1, VoteRequestOf(B3)) == (C2, VoteResponse(2, true))
  {
    Campaigns(B2);
  }

  lemma SecondWin()
    ensures OnVoteResponse(B3, "C", 2, VoteResponse(2, true)) == B4
  {
    Victory(B3, "C", L2, Per(2, 3, 2), Per(0, 2, 0));
  }

  lemma ThirdCampaign()
    ensures StartElection(A5) == A6 && VoteRequestOf(A6) == VoteRequest(3, "A", 2, 2)
    ensures OnVoteRequest(C3, VoteRequestOf(A6)) == (C4, VoteResponse(3, true))
  {
    Campaigns(A5);
  }

  lemma ThirdWin()
    ensures OnVoteResponse(A6, "C", 3, VoteResponse(3, true)) == A7
  {
    Victory(A6, "C", L3, Per(4, 3, 3), Per(3, 0, 0));
  }

  // ---------------------------------------------------------------- replication

  /** A follower that takes entries on and learns of no commit. */
  lemma TakesQuietly(n: Node, req: AppendRequest, log: Log)
    requires |n.log| > 0 && n.term <= req.term && PrevMatches(n, req) && req.commit <= n.commit
    requires Merge(n.log, req.prevIndex + 1, req.entries) == log && |log| > 0
    requires n.base == CFG && n.peers == CFG && n.snap == 0 && FoldConfig(CFG, log, 0, LastIndex(log)) == CFG
    ensures OnAppend(n, req) == (Heard(n, req.term, req.leader).(log := log), AppendResponse(req.term, true))
  {
  }

  lemma Merges()
    ensures Merge(L0, 1, [N1]) == L1 && Merge(L1, 2, [N2]) == L2 && Merge(LX, 2, [N2]) == L2 && Merge(L2, 3, [N3]) == L3
  {
    assert L0[..1] + [N1] == L1;
    assert L1[..2] + [N2] == L2;
    assert LX[..2] + [N2] == L2;
    assert L2[..3] + [N3] == L3;
  }

  lemma FollowersTake()
    ensures OnAppend(B1, R1) == (B2, AppendResponse(1, true))
    ensures OnAppend(C2, R3) == (C3, AppendResponse(2, true))
    ensures OnAppend(A4, R3) == (A5, AppendResponse(2, true))
    ensures OnAppend(C5, R4) == (C6, AppendResponse(3, true))
  {
    Merges();
    NoChanges(L1);
    NoChanges(L2);
    NoChanges(L3);
    TakesQuietly(B1, R1, L1);
    TakesQuietly(C2, R3, L2);
    TakesQuietly(A4, R3, L2);
    TakesQuietly(C5, R4, L3);
  }

  /** C also learns that the first entry is committed. */
  lemma FollowerCommits()
    ensures OnAppend(C0, R2) == (C1, AppendResponse(1, true))
  {
    Merges();
    NoChanges(L1);
    var n := Heard(C0, 1, "A").(log := L1, commit := 1);
    assert TakeEntries(Heard(C0, 1, "A"), R2) == Heard(C0, 1, "A").(log := L1);
    ReplayNoOps(map[], L1, 0, 1);
    assert ApplyCommitted(n) == C1;
  }

  lemma Refuses()
    ensures OnAppend(C4, PROBE) == (C5, AppendResponse(3, false))
  {
  }

  lemma LeadersSend()
    ensures MakeAppend(A2, "B") == (A2, Some(R1)) && MakeAppend(A3, "C") == (A3, Some(R2))
    ensures MakeAppend(B4, "A") == (B4, Some(R3)) && MakeAppend(B4, "C") == (B4, Some(R3))
    ensures MakeAppend(A7, "C") == (A7, Some(R4)) && ProbeOf(A7) == PROBE
  {
    assert L1[1..] == [N1] && L2[2..] == [N2] && L3[3..] == [N3];
  }

  lemma FirstCount()
    ensures OnAppendResponse(A2, "B", R1, AppendResponse(1, true)) == A3
  {
    Three();
    assert Per(1, 0, 0)["B" := 1] == Per(1, 1, 0) && Per(2, 1, 1)["B" := 2] == Per(2, 2, 1);
    HeldByTwo(A2.(matchIndex := Per(1, 1, 0)), 1, "A", "B");
    CommitsAll(A2, "B");
  }

  lemma SecondCount()
    ensures OnAppendResponse(B4, "C", R3, AppendResponse(2, true)) == B5
  {
    Three();
    assert Per(0, 2, 0)["C" := 2] == Per(0, 2, 2) && Per(2, 3, 2)["C" := 3] == Per(2, 3, 3);
    HeldByTwo(B4.(matchIndex := Per(0, 2, 2)), 2, "B", "C");
    CommitsAll(B4, "C");
  }

  lemma ThirdCount()
    ensures OnAppendResponse(A7, "C", R4, AppendResponse(3, true)) == A8
  {
    Three();
    assert Per(3, 0, 0)["C" := 3] == Per(3, 0, 3) && Per(4, 3, 3)["C" := 4] == Per(4, 3, 4);
    HeldByTwo(A7.(matchIndex := Per(3, 0, 3)), 3, "A", "C");
    CommitsAll(A7, "C");
  }

  lemma HeldByTwo(n: Node, i: nat, p: Id, q: Id)
    requires n.peers == CFG && p in CFG && q in CFG && p != q
    requires Holders(n, i) == {p, q} || (Lookup(n.matchIndex, p) >= i && Lookup(n.matchIndex, q) >= i)
    ensures |Holders(n, i)| >= 2
  {
    assert {p, q} <= Holders(n, i);
    SubsetSize({p, q}, Holders(n, i));
  }

  lemma LeaderPuts()
    ensures Propose(A3, PUT) == (A4, Some(2))
  {
    Proposal(A3, PUT, LX, Per(3, 2, 1), Per(2, 1, 0));
  }
}
