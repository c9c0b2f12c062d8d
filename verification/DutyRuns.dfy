/** The duties over whole runs: what nodes never leave undone. */
module DutyRuns {
  import opened RaftTypes
  import opened Quorums
  import opened Logs
  import opened NodeSpec
  import opened NodeFacts
  import opened Cluster
  import opened ClusterInv
  import opened ElectionSteps
  import opened Safety
  import opened Commits
  import opened Loose
  import opened Elections
  import opened Duties

  // ---------------------------------------------------------------- stepping down

  /** The term a reply carries, and whether its receiver still looks at it. */
  predicate Heeds(n: Node, pkt: Packet) {
    match pkt
    case VoteRsp(_, _, _, _) => true
    case ProbeRsp(_, _, _, _) => true
    case AppendRsp(_, _, _, req, _) => n.role == Leader && n.term == req.term
    case SnapRsp(_, _, _, req, _) => n.role == Leader && n.term == req.term
    case _ => false
  }

  function ReplyTerm(pkt: Packet): nat {
    match pkt
    case VoteRsp(_, _, _, resp) => resp.term
    case ProbeRsp(_, _, _, resp) => resp.term
    case AppendRsp(_, _, _, _, resp) => resp.term
    case SnapRsp(_, _, _, _, resp) => resp.term
    case _ => 0
  }

  lemma ReplyDeposes(n: Node, pkt: Packet)
    requires |n.log| > 0 && Heeds(n, pkt)
    ensures ReplyTerm(pkt) > n.term ==> SteppedDown(n, Handled(n, pkt), ReplyTerm(pkt))
    ensures ReplyTerm(pkt) <= n.term ==> Handled(n, pkt).term == n.term
  {
    match pkt
    case VoteRsp(from, _, asked, resp) => VoteReplyDeposes(n, from, asked, resp);
    case ProbeRsp(_, _, _, _) =>
    case AppendRsp(_, from, _, req, resp) => AppendReplyDeposes(n, from, req, resp);
    case SnapRsp(_, from, _, req, resp) => SnapReplyDeposes(n, from, req, resp);
  }

  lemma VoteReplyDeposes(n: Node, from: Id, asked: nat, resp: VoteResponse)
    requires |n.log| > 0
    ensures resp.term > n.term ==> SteppedDown(n, OnVoteResponse(n, from, asked, resp), resp.term)
    ensures resp.term <= n.term ==> OnVoteResponse(n, from, asked, resp).term == n.term
  {
    FinishKeepsFrame(Crowned(n.(votes := n.votes + {from})));
  }

  lemma AppendReplyDeposes(n: Node, from: Id, req: AppendRequest, resp: AppendResponse)
    requires |n.log| > 0 && n.role == Leader && n.term == req.term
    ensures resp.term > n.term ==> SteppedDown(n, OnAppendResponse(n, from, req, resp), resp.term)
    ensures resp.term <= n.term ==> OnAppendResponse(n, from, req, resp).term == n.term
  {
    CountTeaches(n, from, req.prevIndex + |req.entries|);
  }

  lemma SnapReplyDeposes(n: Node, from: Id, req: SnapshotRequest, resp: SnapshotResponse)
    requires |n.log| > 0 && n.role == Leader && n.term == req.term
    ensures resp.term > n.term ==> SteppedDown(n, OnSnapshotResponse(n, from, req, resp), resp.term)
    ensures resp.term <= n.term ==> OnSnapshotResponse(n, from, req, resp).term == n.term
  {
    CountTeaches(n, from, req.lastIndex);
  }

  /** In every run, whoever heeds a reply is afterwards in a term at least the reply's; if that is
      a later term than its own, it is a follower of nobody there, with no vote and its log as it
      was. */
  lemma LateLeadersStepDown(cs: seq<Cluster>, ss: seq<Step>, i: nat, pkt: Packet)
    requires LooseRun(cs, ss) && i < |ss| && ss[i] == Deliver(pkt) && pkt.to in cs[i].nodes && Heeds(cs[i].nodes[pkt.to], pkt)
    ensures pkt.to in cs[i + 1].nodes
    ensures
      var n, n' := cs[i].nodes[pkt.to], cs[i + 1].nodes[pkt.to];
      && n'.term == Max(n.term, ReplyTerm(pkt))
      && (n'.term > n.term ==> n'.role == Follower && n'.vote == "" && n'.leader == "" && n'.log == n.log && n'.commit == n.commit)
  {
    SaneHolds(cs, ss, i);
    assert LooseStepAt(cs, ss, i);
    DeliverIsHandled(cs[i], pkt);
    ReplyDeposes(cs[i].nodes[pkt.to], pkt);
  }

  // ---------------------------------------------------------------- elections and commits

  /** No entry of the leader's term that more than half hold is left uncommitted. */
  ghost predicate NothingLeft(n: Node) {
    forall i {:trigger Holders(n, i)} ::
      n.commit < i < |n.log| && n.snap <= i && n.log[i].term == n.term ==> 2 * |Holders(n, i)| <= |n.peers|
  }

  ghost predicate Tracks(n: Node) { forall p :: p in n.peers ==> Lookup(n.nextIndex, p) > 0 }

  ghost predicate DiligentParts(n: Node) {
    && (n.role == Leader ==> NothingLeft(n) && Tracks(n))
    && (n.role == Candidate ==> 2 * |n.votes| <= |n.peers|)
  }

  /** Proofs look inside by mentioning `Keen`. */
  ghost predicate Diligent(n: Node) {
    forall k {:trigger Keen(n, k)} :: Keen(n, k) ==> DiligentParts(n)
  }

  ghost predicate Keen(n: Node, k: bool) { true }

  ghost predicate Ordinary(n: Node) { Sane(n) && Plain(n.log) && n.peers == n.base }

  lemma FinishDiligent(n: Node)
    requires Ordinary(n) && n.role == Leader && Tracks(n)
    ensures Diligent(ApplyCommitted(AdvanceCommit(n)))
  {
    var n' := ApplyCommitted(AdvanceCommit(n));
    FinishKeepsFrame(n);
    FinishKeepsSeat(n);
    BestCommitIsGreatest(n, LastIndex(n.log));
    forall i | n'.commit < i < |n'.log| && n'.snap <= i && n'.log[i].term == n'.term
      ensures 2 * |Holders(n', i)| <= |n'.peers|
    {
      assert Holders(n', i) == Holders(n, i);
      assert !Committable(n, i);
    }
  }

  lemma TallyDiligent(n: Node)
    requires Ordinary(n) && n.role == Candidate
    ensures Diligent(TallyVotes(n))
  {
    if |n.votes| >= MajoritySize(n.peers.Keys) {
      FinishDiligent(Crowned(n));
    }
  }

  lemma CountDiligent(n: Node, p: Id, m: nat)
    requires Ordinary(n) && n.role == Leader && Tracks(n)
    ensures Diligent(CountMatch(n, p, m))
  {
    FinishDiligent(n.(matchIndex := n.matchIndex[p := m], nextIndex := n.nextIndex[p := m + 1]));
  }

  /** Only what `Diligent` looks at. */
  lemma StaysDiligent(n: Node, n': Node)
    requires Diligent(n) && (n'.role == Follower || n'.role == n.role)
    requires n'.role != Follower ==> n'.term == n.term && n'.log == n.log && n'.peers == n.peers && n'.votes == n.votes
    requires n'.role != Follower ==> n'.matchIndex == n.matchIndex && n'.commit == n.commit && n.snap <= n'.snap
    requires n'.role == Leader ==> Tracks(n')
    ensures Diligent(n')
  {
    assert Keen(n, true);
    if n'.role == Leader {
      forall i | n'.commit < i < |n'.log| && n'.snap <= i && n'.log[i].term == n'.term
        ensures 2 * |Holders(n', i)| <= |n'.peers|
      {
        assert Holders(n', i) == Holders(n, i);
      }
    }
  }

  lemma VoteRequestDiligent(n: Node, req: VoteRequest)
    requires Ordinary(n) && Diligent(n)
    ensures Diligent(OnVoteRequest(n, req).0)
  {
    assert Keen(n, true);
    VoteGrantedIff(n, req);
    StaysDiligent(n, OnVoteRequest(n, req).0);
  }

  lemma VoteResponseDiligent(n: Node, from: Id, asked: nat, resp: VoteResponse)
    requires Ordinary(n) && Diligent(n)
    ensures Diligent(OnVoteResponse(n, from, asked, resp))
  {
    if resp.term > n.term {
      assert OnVoteResponse(n, from, asked, resp).role == Follower;
    } else if n.role != Candidate || n.term != asked || !resp.granted {
      assert OnVoteResponse(n, from, asked, resp) == n;
    } else {
      TallyDiligent(n.(votes := n.votes + {from}));
    }
  }

  lemma AppendResponseDiligent(n: Node, p: Id, req: AppendRequest, resp: AppendResponse)
    requires Ordinary(n) && Diligent(n)
    ensures Diligent(OnAppendResponse(n, p, req, resp))
  {
    assert Keen(n, true);
    if n.role == Leader && n.term == req.term && resp.term <= n.term && resp.success {
      SuccessDiligent(n, p, req, resp);
    } else {
      NoSuccessDiligent(n, p, req, resp);
    }
  }

  lemma SuccessDiligent(n: Node, p: Id, req: AppendRequest, resp: AppendResponse)
    requires Ordinary(n) && Tracks(n) && n.role == Leader && n.term == req.term && resp.term <= n.term && resp.success
    ensures Diligent(OnAppendResponse(n, p, req, resp))
  {
    CountDiligent(n, p, req.prevIndex + |req.entries|);
  }

  lemma NoSuccessDiligent(n: Node, p: Id, req: AppendRequest, resp: AppendResponse)
    requires Ordinary(n) && Diligent(n) && !(n.role == Leader && n.term == req.term && resp.term <= n.term && resp.success)
    ensures Diligent(OnAppendResponse(n, p, req, resp))
  {
    assert Keen(n, true);
    NoSuccessKeeps(n, p, req, resp);
    StaysDiligent(n, OnAppendResponse(n, p, req, resp));
  }

  lemma NoSuccessKeeps(n: Node, p: Id, req: AppendRequest, resp: AppendResponse)
    requires |n.log| > 0 && !(n.role == Leader && n.term == req.term && resp.term <= n.term && resp.success)
    ensures
      var n' := OnAppendResponse(n, p, req, resp);
      && (n'.role == Follower || (n'.role == n.role && n'.term == n.term)) && n'.log == n.log && n'.peers == n.peers && n'.votes == n.votes
      && n'.matchIndex == n.matchIndex && n'.commit == n.commit && n'.snap == n.snap
      && n'.applied == n.applied && n'.threshold == n.threshold
      && forall q :: Lookup(n.nextIndex, q) > 0 ==> Lookup(n'.nextIndex, q) > 0
  {
  }

  lemma SnapResponseDiligent(n: Node, p: Id, req: SnapshotRequest, resp: SnapshotResponse)
    requires Ordinary(n) && Diligent(n)
    ensures Diligent(OnSnapshotResponse(n, p, req, resp))
  {
    if n.role == Leader && n.term == req.term && resp.term <= n.term {
      assert Keen(n, true);
      CountDiligent(n, p, req.lastIndex);
    }
  }

  lemma HandledDiligent(n: Node, pkt: Packet)
    requires Ordinary(n) && Diligent(n) && (pkt.SnapReq? ==> |pkt.prefix| == pkt.snapshot.lastIndex + 1)
    ensures Diligent(Handled(n, pkt))
  {
    match pkt
    case VoteReq(_, req) => VoteRequestDiligent(n, req);
    case VoteRsp(from, _, asked, resp) => VoteResponseDiligent(n, from, asked, resp);
    case AppendReq(_, _, req) => LeadersAreFollowed(n, req);
    case ProbeReq(_, _, req) => LeadersAreFollowed(n, req);
    case AppendRsp(_, from, _, req, resp) => AppendResponseDiligent(n, from, req, resp);
    case SnapReq(_, _, req, prefix) => SnapshotsAreInstalled(n, req, prefix);
    case SnapRsp(_, from, _, req, resp) =>
      SnapResponseDiligent(n, from, req, resp);
    case ProbeRsp(_, _, _, _) =>
  }

  /** Proofs look inside by mentioning `Among`. */
  ghost predicate AllDiligent(c: Cluster) {
    forall k {:trigger Among(c, k)} :: Among(c, k) ==> forall v :: v in c.nodes ==> Diligent(c.nodes[v])
  }

  ghost predicate Among(c: Cluster, k: bool) { true }

  lemma DiligentNode(c: Cluster, v: Id)
    requires AllDiligent(c) && v in c.nodes
    ensures Diligent(c.nodes[v])
  {
    assert Among(c, true);
  }

  lemma OneDiligent(c: Cluster, c': Cluster, v: Id)
    requires AllDiligent(c) && v in c.nodes && v in c'.nodes && c'.nodes == c.nodes[v := c'.nodes[v]] && Diligent(c'.nodes[v])
    ensures AllDiligent(c')
  {
    assert Among(c, true);
  }

  lemma SameDiligent(c: Cluster, c': Cluster)
    requires AllDiligent(c) && c'.nodes == c.nodes
    ensures AllDiligent(c')
  {
    assert Among(c, true);
  }

  lemma StandDiligent(c: Cluster, v: Id)
    requires Lawful(c) && AllDiligent(c) && v in c.nodes && Sane(c.nodes[v]) && c.nodes[v].role != Leader
    ensures AllDiligent(DoTimeout(c, v))
  {
    LawfulNode(c, v);
    TimeoutNodes(c, v);
    DiligentNode(c, v);
    ElectionDiligent(c.nodes[v]);
    OneDiligent(c, DoTimeout(c, v), v);
  }

  lemma ElectionDiligent(n: Node)
    requires Ordinary(n) && Diligent(n)
    ensures Diligent(StartElection(n))
  {
    TallyDiligent(Campaigner(n));
  }

  lemma PutDiligent(c: Cluster, v: Id, cmd: Command)
    requires Lawful(c) && AllDiligent(c) && v in c.nodes && Sane(c.nodes[v])
    ensures AllDiligent(DoPut(c, v, cmd))
  {
    var n := c.nodes[v];
    LawfulNode(c, v);
    PutNodes(c, v, cmd);
    DiligentNode(c, v);
    ProposeDiligent(n, cmd);
    OneDiligent(c, DoPut(c, v, cmd), v);
  }

  lemma ProposeDiligent(n: Node, cmd: Command)
    requires Ordinary(n) && Diligent(n)
    ensures Diligent(Propose(n, cmd).0)
  {
    if n.role == Leader {
      assert Keen(n, true);
      FinishDiligent(LeaderAppend(n, Entry(n.term, cmd, None)));
    }
  }

  lemma TickDiligent(c: Cluster, v: Id)
    requires Lawful(c) && AllSane(c) && AllDiligent(c) && v in c.nodes
    ensures AllDiligent(After(c, Tick(v)))
  {
    LawfulNode(c, v);
    DiligentNode(c, v);
    ApplyDiligent(c.nodes[v]);
    OneDiligent(c, After(c, Tick(v)), v);
  }

  lemma ApplyDiligent(n: Node)
    requires Ordinary(n) && Diligent(n)
    ensures Diligent(ApplyCommitted(n))
  {
    assert Keen(n, true);
    ApplyKeepsSeat(n);
    ApplyDuty(n);
    StaysDiligent(n, ApplyCommitted(n));
  }

  lemma CallDiligent(c: Cluster, v: Id, p: Id)
    requires Lawful(c) && AllSane(c) && AllDiligent(c) && Able(c, CallAppend(v, p))
    ensures AllDiligent(After(c, CallAppend(v, p)))
  {
    var n' := MakeAppend(c.nodes[v], p).0;
    DiligentNode(c, v);
    assert Keen(c.nodes[v], true);
    PeerIsServed(c.nodes[v], p);
    StaysDiligent(c.nodes[v], n');
    OneDiligent(c, After(c, CallAppend(v, p)), v);
  }

  lemma StepDiligent(c: Cluster, s: Step)
    requires Lawful(c) && AllSane(c) && AllDiligent(c) && Able(c, s)
    ensures AllDiligent(After(c, s))
  {
    if s.Deliver? {
      DeliverDiligent(c, s.packet);
    } else if s.Timeout? || s.ClientPut? || s.Tick? || s.CallAppend? {
      ActiveDiligent(c, s);
    } else {
      RestDiligent(c, s);
    }
  }

  lemma ActiveDiligent(c: Cluster, s: Step)
    requires Lawful(c) && AllSane(c) && AllDiligent(c) && Able(c, s) && (s.Timeout? || s.ClientPut? || s.Tick? || s.CallAppend?)
    ensures AllDiligent(After(c, s))
  {
    match s
    case Timeout(v) => StandDiligent(c, v);
    case ClientPut(v, cmd) => PutDiligent(c, v, cmd);
    case Tick(v) => TickDiligent(c, v);
    case CallAppend(v, p) => CallDiligent(c, v, p);
  }

  lemma DeliverDiligent(c: Cluster, pkt: Packet)
    requires Lawful(c) && AllSane(c) && AllDiligent(c) && Able(c, Deliver(pkt))
    ensures AllDiligent(DoDeliver(c, pkt))
  {
    LawfulNode(c, pkt.to);
    DiligentNode(c, pkt.to);
    DeliverIsHandled(c, pkt);
    HandledDiligent(c.nodes[pkt.to], pkt);
    OneDiligent(c, DoDeliver(c, pkt), pkt.to);
  }

  lemma RestDiligent(c: Cluster, s: Step)
    requires AllSane(c) && AllDiligent(c) && Able(c, s)
    requires !s.Deliver? && !s.Timeout? && !s.ClientPut? && !s.Tick? && !s.CallAppend?
    ensures AllDiligent(After(c, s))
  {
    if s.Crash? {
      OneDiligent(c, After(c, s), s.node);
    } else {
      SameDiligent(c, After(c, s));
    }
  }

  lemma InitialDiligent(c: Cluster)
    requires Initial(c)
    ensures AllDiligent(c)
  {
    var cfg: Config :| cfg.Keys == c.members && Booted(c, cfg);
    forall v | v in c.nodes
      ensures Diligent(c.nodes[v])
    {
      assert c.nodes[v] == Boot(v, c.nodes[v].threshold, false, cfg);
    }
  }

  lemma {:induction false} DiligentHolds(cs: seq<Cluster>, ss: seq<Step>, i: nat)
    requires LooseRun(cs, ss) && i < |cs|
    ensures AllDiligent(cs[i])
    decreases i
  {
    if i == 0 {
      InitialDiligent(cs[0]);
    } else {
      DiligentHolds(cs, ss, i - 1);
      DiligentNext(cs, ss, i);
    }
  }

  lemma DiligentNext(cs: seq<Cluster>, ss: seq<Step>, i: nat)
    requires LooseRun(cs, ss) && 0 < i < |cs| && AllDiligent(cs[i - 1])
    ensures AllDiligent(cs[i])
  {
    LawfulHolds(cs, ss, i - 1);
    assert LooseStepAt(cs, ss, i - 1);
    StepDiligent(cs[i - 1], ss[i - 1]);
  }

  /** In every run, an entry of the leader's term that more than half the members are known to
      hold is committed, unless the leader has compacted it. */
  lemma HeldEntriesAreCommitted(cs: seq<Cluster>, ss: seq<Step>, i: nat, v: Id, k: nat)
    requires LooseRun(cs, ss) && i < |cs| && v in cs[i].nodes && cs[i].nodes[v].role == Leader
    requires cs[i].nodes[v].snap <= k < |cs[i].nodes[v].log| && cs[i].nodes[v].log[k].term == cs[i].nodes[v].term
    requires 2 * |set p | p in cs[i].members && Lookup(cs[i].nodes[v].matchIndex, p) >= k| > |cs[i].members|
    ensures k <= cs[i].nodes[v].commit
  {
    DiligentHolds(cs, ss, i);
    LawfulHolds(cs, ss, i);
    LawfulNode(cs[i], v);
    DiligentNode(cs[i], v);
    DiligentCommits(cs[i].nodes[v], cs[i].members, k);
  }

  lemma DiligentCommits(n: Node, members: set<Id>, k: nat)
    requires Diligent(n) && n.role == Leader && n.peers.Keys == members && n.snap <= k < |n.log| && n.log[k].term == n.term
    requires 2 * |set p | p in members && Lookup(n.matchIndex, p) >= k| > |members|
    ensures k <= n.commit
  {
    assert Keen(n, true);
    assert Holders(n, k) == set p | p in members && Lookup(n.matchIndex, p) >= k;
  }

  /** In every run, no candidate has the votes of more than half the members: it is leader by
      then. */
  lemma CandidatesLackVotes(cs: seq<Cluster>, ss: seq<Step>, i: nat, v: Id)
    requires LooseRun(cs, ss) && i < |cs| && v in cs[i].nodes && cs[i].nodes[v].role == Candidate
    ensures 2 * |cs[i].nodes[v].votes| <= |cs[i].members|
  {
    DiligentHolds(cs, ss, i);
    LawfulHolds(cs, ss, i);
    LawfulNode(cs[i], v);
    DiligentNode(cs[i], v);
    assert Keen(cs[i].nodes[v], true);
    assert cs[i].nodes[v].peers.Keys == cs[i].members;
  }

  /** In every run, a leader has for every member either its snapshot or entries to send. */
  lemma EveryPeerIsServed(cs: seq<Cluster>, ss: seq<Step>, i: nat, v: Id, p: Id)
    requires LooseRun(cs, ss) && i < |cs| && v in cs[i].nodes && cs[i].nodes[v].role == Leader && p in cs[i].members
    ensures Sane(cs[i].nodes[v])
    ensures ShouldInstall(cs[i].nodes[v], p) <==> MakeAppend(cs[i].nodes[v], p).1.None?
  {
    DiligentHolds(cs, ss, i);
    LawfulHolds(cs, ss, i);
    LawfulNode(cs[i], v);
    DiligentNode(cs[i], v);
    assert Keen(cs[i].nodes[v], true);
    PeerIsServed(cs[i].nodes[v], p);
  }

  // ---------------------------------------------------------------- compaction

  lemma ApplyTrim(n: Node)
    requires Sane(n) && ApplyCommitted(n).applied <= LastIndex(n.log)
    ensures Trim(ApplyCommitted(n))
  {
    ApplyDuty(n);
  }

  /** A node that holds what it has applied. */
  ghost predicate Holding(n: Node) { Sane(n) && Trim(n) && n.applied <= LastIndex(n.log) }

  lemma FinishTrim(n: Node)
    requires Sane(n) && n.applied <= LastIndex(n.log)
    ensures Trim(ApplyCommitted(AdvanceCommit(n)))
  {
    ApplyDuty(AdvanceCommit(n));
  }

  lemma CountTrim(n: Node, p: Id, m: nat)
    requires Holding(n)
    ensures Trim(CountMatch(n, p, m))
  {
    FinishTrim(n.(matchIndex := n.matchIndex[p := m], nextIndex := n.nextIndex[p := m + 1]));
  }

  lemma TallyTrim(n: Node)
    requires Holding(n)
    ensures Trim(TallyVotes(n))
  {
    if |n.votes| >= MajoritySize(n.peers.Keys) {
      FinishTrim(Crowned(n));
    }
  }

  lemma ProposeTrim(n: Node, cmd: Command)
    requires Holding(n)
    ensures Trim(Propose(n, cmd).0)
  {
    FinishTrim(LeaderAppend(n, Entry(n.term, cmd, None)));
  }

  lemma AppendTrim(n: Node, req: AppendRequest)
    requires Holding(n) && OnAppend(n, req).0.applied < |OnAppend(n, req).0.log|
    ensures Trim(OnAppend(n, req).0)
  {
    if req.term >= n.term && PrevMatches(n, req) {
      MergeKeepsPrefix(n.log, req.prevIndex + 1, req.entries);
      var m := TakeEntries(Heard(n, req.term, req.leader), req);
      assert Trim(m) && SaneAs(m, n.id);
      if req.commit > m.commit {
        var m1 := m.(commit := Min(req.commit, LastIndex(m.log)));
        ApplyDuty(m1);
        ApplyTrim(m1);
      }
    }
  }

  lemma VoteReplyTrim(n: Node, from: Id, asked: nat, resp: VoteResponse)
    requires Holding(n)
    ensures Trim(OnVoteResponse(n, from, asked, resp))
  {
    if resp.term <= n.term && n.role == Candidate && n.term == asked && resp.granted {
      TallyTrim(n.(votes := n.votes + {from}));
    }
  }

  lemma AppendReplyTrim(n: Node, p: Id, req: AppendRequest, resp: AppendResponse)
    requires Holding(n)
    ensures Trim(OnAppendResponse(n, p, req, resp))
  {
    if n.role == Leader && n.term == req.term && resp.term <= n.term && resp.success {
      SuccessTrim(n, p, req, resp);
    } else {
      NoSuccessKeeps(n, p, req, resp);
    }
  }

  lemma SuccessTrim(n: Node, p: Id, req: AppendRequest, resp: AppendResponse)
    requires Holding(n) && n.role == Leader && n.term == req.term && resp.term <= n.term && resp.success
    ensures Trim(OnAppendResponse(n, p, req, resp))
  {
    CountTrim(n, p, req.prevIndex + |req.entries|);
  }

  lemma SnapReplyTrim(n: Node, p: Id, req: SnapshotRequest, resp: SnapshotResponse)
    requires Holding(n)
    ensures Trim(OnSnapshotResponse(n, p, req, resp))
  {
    if n.role == Leader && n.term == req.term && resp.term <= n.term {
      CountTrim(n, p, req.lastIndex);
    }
  }

  lemma HandledTrim(n: Node, pkt: Packet)
    requires Holding(n) && (pkt.SnapReq? ==> |pkt.prefix| == pkt.snapshot.lastIndex + 1)
    requires pkt.AppendReq? || pkt.ProbeReq? ==> Handled(n, pkt).applied < |Handled(n, pkt).log|
    ensures Trim(Handled(n, pkt))
  {
    match pkt
    case VoteReq(_, req) => VoteGrantedIff(n, req);
    case VoteRsp(from, _, asked, resp) => VoteReplyTrim(n, from, asked, resp);
    case AppendReq(_, _, req) => AppendTrim(n, req);
    case ProbeReq(_, _, req) => AppendTrim(n, req);
    case AppendRsp(_, from, _, req, resp) => AppendReplyTrim(n, from, req, resp);
    case SnapReq(_, _, req, prefix) => SnapshotsAreInstalled(n, req, prefix);
    case SnapRsp(_, from, _, req, resp) => SnapReplyTrim(n, from, req, resp);
    case ProbeRsp(_, _, _, _) =>
  }

  ghost predicate AllTrim(c: Cluster) {
    forall v {:trigger c.nodes[v]} :: v in c.nodes ==> Trim(c.nodes[v])
  }

  /** One node changed, and is trim unless it has applied more than it holds. */
  lemma OneTrim(c: Cluster, c': Cluster, v: Id)
    requires AllTrim(c) && v in c.nodes && v in c'.nodes && c'.nodes == c.nodes[v := c'.nodes[v]] && Trim(c'.nodes[v])
    ensures AllTrim(c')
  {
  }

  lemma TimeoutTrim(c: Cluster, v: Id)
    requires AllTrim(c) && v in c.nodes && Holding(c.nodes[v])
    ensures AllTrim(DoTimeout(c, v))
  {
    TimeoutNodes(c, v);
    TallyTrim(Campaigner(c.nodes[v]));
    OneTrim(c, DoTimeout(c, v), v);
  }

  lemma PutTrim(c: Cluster, v: Id, cmd: Command)
    requires AllTrim(c) && v in c.nodes && Holding(c.nodes[v])
    ensures AllTrim(DoPut(c, v, cmd))
  {
    PutNodes(c, v, cmd);
    ProposeTrim(c.nodes[v], cmd);
    OneTrim(c, DoPut(c, v, cmd), v);
  }

  lemma TickTrim(c: Cluster, v: Id)
    requires AllSane(c) && AllTrim(c) && v in c.nodes && Holding(c.nodes[v])
    ensures AllTrim(After(c, Tick(v)))
  {
    ApplyDuty(c.nodes[v]);
    OneTrim(c, After(c, Tick(v)), v);
  }

  lemma DeliverTrim(c: Cluster, pkt: Packet)
    requires AllSane(c) && AllTrim(c) && Able(c, Deliver(pkt)) && Holding(c.nodes[pkt.to]) && HoldsApplied(DoDeliver(c, pkt))
    ensures AllTrim(DoDeliver(c, pkt))
  {
    DeliverIsHandled(c, pkt);
    assert DoDeliver(c, pkt).nodes[pkt.to] == Handled(c.nodes[pkt.to], pkt);
    HandledTrim(c.nodes[pkt.to], pkt);
    OneTrim(c, DoDeliver(c, pkt), pkt.to);
  }

  lemma RestTrim(c: Cluster, s: Step)
    requires AllSane(c) && AllTrim(c) && Able(c, s) && !s.Deliver? && !s.Timeout? && !s.ClientPut? && !s.Tick?
    ensures AllTrim(After(c, s))
  {
    if s.CallAppend? || s.Crash? {
      OneTrim(c, After(c, s), s.node);
    } else {
      assert After(c, s).nodes == c.nodes;
    }
  }

  ghost predicate HoldsApplied(c: Cluster) {
    forall v {:trigger c.nodes[v]} :: v in c.nodes ==> c.nodes[v].applied < |c.nodes[v].log|
  }

  lemma StepTrim(c: Cluster, s: Step)
    requires AllSane(c) && AllTrim(c) && Able(c, s) && HoldsApplied(c) && HoldsApplied(After(c, s))
    ensures AllTrim(After(c, s))
  {
    match s
    case Deliver(pkt) => DeliverTrim(c, pkt);
    case Timeout(v) => TimeoutTrim(c, v);
    case ClientPut(v, cmd) => PutTrim(c, v, cmd);
    case Tick(v) => TickTrim(c, v);
    case _ => RestTrim(c, s);
  }

  lemma InitialTrim(c: Cluster)
    requires Initial(c)
    ensures AllTrim(c)
  {
    var cfg: Config :| cfg.Keys == c.members && Booted(c, cfg);
    forall v | v in c.nodes
      ensures Trim(c.nodes[v])
    {
      assert c.nodes[v] == Boot(v, c.nodes[v].threshold, false, cfg);
    }
  }

  lemma AppliedIsHeld(c: Cluster)
    requires Base(c)
    ensures HoldsApplied(c)
  {
    forall v | v in c.nodes
      ensures c.nodes[v].applied < |c.nodes[v].log|
    {
      BaseNode(c, v);
    }
  }

  lemma {:induction false} TrimHolds(cs: seq<Cluster>, ss: seq<Step>, i: nat)
    requires Run(cs, ss) && i < |cs|
    ensures AllTrim(cs[i])
    decreases i
  {
    if i == 0 {
      InitialTrim(cs[0]);
    } else {
      TrimHolds(cs, ss, i - 1);
      TrimNext(cs, ss, i);
    }
  }

  lemma TrimNext(cs: seq<Cluster>, ss: seq<Step>, i: nat)
    requires Run(cs, ss) && 0 < i < |cs| && AllTrim(cs[i - 1])
    ensures AllTrim(cs[i])
  {
    InvariantHolds(cs, ss, i - 1);
    InvariantHolds(cs, ss, i);
    assert StepAt(cs, ss, i - 1);
    AppliedIsHeld(cs[i - 1]);
    AppliedIsHeld(cs[i]);
    StepTrim(cs[i - 1], ss[i - 1]);
  }

  /** In every run, whatever the node's role, the entries it has applied beyond its snapshot never
      reach its threshold. */
  lemma CompactionKeepsUp(cs: seq<Cluster>, ss: seq<Step>, i: nat, v: Id)
    requires Run(cs, ss) && i < |cs| && v in cs[i].nodes && cs[i].nodes[v].threshold > 0
    ensures cs[i].nodes[v].applied < cs[i].nodes[v].snap + cs[i].nodes[v].threshold
  {
    TrimHolds(cs, ss, i);
  }

  /** In every run, some member would get the vote of every other, campaigning in any term later
      than theirs. */
  lemma SomeoneCanBeElected(cs: seq<Cluster>, ss: seq<Step>, i: nat) returns (v: Id)
    requires LooseRun(cs, ss) && i < |cs|
    ensures v in cs[i].members && cs[i].nodes.Keys == cs[i].members
    ensures forall w :: w in cs[i].nodes ==> |cs[i].nodes[w].log| > 0
    ensures Electable(cs[i].nodes, cs[i].members, v)
  {
    LawfulHolds(cs, ss, i);
    SaneHolds(cs, ss, i);
    assert Within(cs[i], true);
    v := SomeoneIsElectable(cs[i].nodes, cs[i].members);
  }
}
