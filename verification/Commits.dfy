/** Commit indexes and client writes over whole runs. */
module Commits {
  import opened RaftTypes
  import opened Logs
  import opened History
  import opened NodeSpec
  import opened NodeFacts
  import opened Protocol
  import opened Cluster
  import opened ClusterInv
  import opened ElectionSteps
  import opened Discipline
  import opened DisciplineSteps
  import opened Backoff
  import opened Safety
  import opened Theorems

  // ---------------------------------------------------------------- requests and their commit index

  /** Every request reaches from its previous index exactly to the sender's last index. */
  lemma RequestReachesEnd(n: Node, p: Id, req: AppendRequest)
    requires Sane(n) && MakeAppend(n, p).1 == Some(req)
    ensures req.prevIndex + |req.entries| == LastIndex(n.log)
    ensures [n.log[req.prevIndex]] + req.entries == n.log[req.prevIndex..]
    ensures ProbeOf(n).prevIndex + |ProbeOf(n).entries| == LastIndex(n.log)
  {
  }

  /** In every run, the commit index of a request lies within what the request vouches for, so
      the receiver's clamp to its own last index never decides. */
  lemma ClampNeverDecides(cs: seq<Cluster>, ss: seq<Step>, i: nat, pkt: Packet)
    requires Run(cs, ss) && i < |cs| && pkt in cs[i].net && (pkt.AppendReq? || pkt.ProbeReq?) && pkt.to in cs[i].nodes
    ensures pkt.append.commit <= pkt.append.prevIndex + |pkt.append.entries|
    ensures |cs[i].nodes[pkt.to].log| > 0
    ensures var n := cs[i].nodes[pkt.to];
            var (n', resp) := OnAppend(n, pkt.append);
            n'.commit == if resp.success then Max(n.commit, pkt.append.commit) else n.commit
  {
    InvariantHolds(cs, ss, i);
    BasePacket(cs[i], pkt);
    OnAppendCommit(cs[i].nodes[pkt.to], pkt.append);
  }

  lemma ApplyKeepsCommit(n: Node)
    requires |n.log| > 0
    ensures ApplyCommitted(n).commit == n.commit
  {
  }

  lemma OnAppendCommit(n: Node, req: AppendRequest)
    requires |n.log| > 0 && req.commit <= req.prevIndex + |req.entries|
    ensures OnAppend(n, req).0.commit == if OnAppend(n, req).1.success then Max(n.commit, req.commit) else n.commit
  {
    var n1 := Heard(n, req.term, req.leader);
    if req.term >= n.term && PrevMatches(n, req) {
      var n2 := TakeEntries(n1, req);
      assert LastIndex(n2.log) >= req.commit;
      if req.commit > n2.commit {
        ApplyKeepsCommit(n2.(commit := Min(req.commit, LastIndex(n2.log))));
      }
    }
  }

  // ---------------------------------------------------------------- the commit index never goes back

  lemma FinishRaises(n: Node)
    requires |n.log| > 0
    ensures ApplyCommitted(AdvanceCommit(n)).commit >= n.commit
  {
    BestCommitIsGreatest(n, LastIndex(n.log));
    ApplyKeepsCommit(AdvanceCommit(n));
  }

  lemma TallyRaises(n: Node)
    requires |n.log| > 0
    ensures TallyVotes(n).commit >= n.commit
  {
    FinishRaises(Crowned(n));
  }

  lemma CountRaises(n: Node, p: Id, m: nat)
    requires |n.log| > 0
    ensures CountMatch(n, p, m).commit >= n.commit
  {
    FinishRaises(n.(matchIndex := n.matchIndex[p := m], nextIndex := n.nextIndex[p := m + 1]));
  }

  lemma VoteResponseRaises(n: Node, from: Id, asked: nat, resp: VoteResponse)
    requires |n.log| > 0
    ensures OnVoteResponse(n, from, asked, resp).commit >= n.commit
  {
    TallyRaises(n.(votes := n.votes + {from}));
  }

  lemma AppendResponseRaises(n: Node, from: Id, req: AppendRequest, resp: AppendResponse)
    requires |n.log| > 0
    ensures OnAppendResponse(n, from, req, resp).commit >= n.commit
  {
    CountRaises(n, from, req.prevIndex + |req.entries|);
  }

  /** What the receiver of a packet becomes. */
  function Handled(n: Node, pkt: Packet): Node
    requires |n.log| > 0 && (pkt.SnapReq? ==> |pkt.prefix| == pkt.snapshot.lastIndex + 1)
  {
    match pkt
    case VoteReq(_, req) => OnVoteRequest(n, req).0
    case VoteRsp(from, _, asked, resp) => OnVoteResponse(n, from, asked, resp)
    case AppendReq(_, _, req) => OnAppend(n, req).0
    case AppendRsp(_, from, _, req, resp) => OnAppendResponse(n, from, req, resp)
    case SnapReq(_, _, req, prefix) => OnSnapshot(n, req, prefix).0
    case SnapRsp(_, from, _, req, resp) => OnSnapshotResponse(n, from, req, resp)
    case ProbeReq(_, _, req) => OnAppend(n, req).0
    case ProbeRsp(_, _, _, resp) => OnProbeResponse(n, resp)
  }

  lemma DeliverIsHandled(c: Cluster, pkt: Packet)
    requires pkt.to in c.nodes && |c.nodes[pkt.to].log| > 0
    requires pkt.SnapReq? ==> |pkt.prefix| == pkt.snapshot.lastIndex + 1
    ensures DoDeliver(c, pkt).nodes == c.nodes[pkt.to := Handled(c.nodes[pkt.to], pkt)]
  {
  }

  lemma HandledRaises(n: Node, pkt: Packet)
    requires |n.log| > 0 && (pkt.SnapReq? ==> |pkt.prefix| == pkt.snapshot.lastIndex + 1)
    requires pkt.AppendReq? || pkt.ProbeReq? ==> pkt.append.commit <= pkt.append.prevIndex + |pkt.append.entries|
    ensures Handled(n, pkt).commit >= n.commit
  {
    match pkt
    case VoteRsp(from, _, asked, resp) => VoteResponseRaises(n, from, asked, resp);
    case AppendReq(_, _, req) => OnAppendCommit(n, req);
    case ProbeReq(_, _, req) => OnAppendCommit(n, req);
    case AppendRsp(_, from, _, req, resp) => AppendResponseRaises(n, from, req, resp);
    case SnapRsp(_, from, _, req, resp) => CountRaises(n, from, req.lastIndex);
    case _ =>
  }

  lemma DeliverRaises(c: Cluster, pkt: Packet, v: Id)
    requires Base(c) && pkt in c.net && pkt.to in c.nodes && |c.nodes[pkt.to].log| > 0 && v in c.nodes
    requires pkt.SnapReq? ==> |pkt.prefix| == pkt.snapshot.lastIndex + 1
    ensures v in DoDeliver(c, pkt).nodes && DoDeliver(c, pkt).nodes[v].commit >= c.nodes[v].commit
  {
    BasePacket(c, pkt);
    DeliverIsHandled(c, pkt);
    HandledRaises(c.nodes[pkt.to], pkt);
  }

  lemma ElectionRaises(n: Node)
    requires |n.log| > 0
    ensures StartElection(n).commit >= n.commit
  {
    TallyRaises(Campaigner(n));
  }

  lemma TimeoutNodes(c: Cluster, w: Id)
    requires w in c.nodes && |c.nodes[w].log| > 0
    ensures DoTimeout(c, w).nodes == c.nodes[w := StartElection(c.nodes[w])]
  {
  }

  lemma TimeoutRaises(c: Cluster, v: Id, w: Id)
    requires v in c.nodes && w in c.nodes && |c.nodes[w].log| > 0
    ensures v in DoTimeout(c, w).nodes && DoTimeout(c, w).nodes[v].commit >= c.nodes[v].commit
  {
    TimeoutNodes(c, w);
    ElectionRaises(c.nodes[w]);
  }

  lemma PutNodes(c: Cluster, w: Id, cmd: Command)
    requires w in c.nodes && |c.nodes[w].log| > 0
    ensures DoPut(c, w, cmd).nodes == c.nodes[w := Propose(c.nodes[w], cmd).0]
  {
  }

  lemma ProposeRaises(n: Node, cmd: Command)
    requires |n.log| > 0
    ensures Propose(n, cmd).0.commit >= n.commit
  {
    FinishRaises(LeaderAppend(n, Entry(n.term, cmd, None)));
  }

  lemma PutRaises(c: Cluster, v: Id, w: Id, cmd: Command)
    requires v in c.nodes && w in c.nodes && |c.nodes[w].log| > 0
    ensures v in DoPut(c, w, cmd).nodes && DoPut(c, w, cmd).nodes[v].commit >= c.nodes[v].commit
  {
    PutNodes(c, w, cmd);
    ProposeRaises(c.nodes[w], cmd);
  }

  lemma CallRaises(c: Cluster, v: Id, w: Id, p: Id)
    requires v in c.nodes && w in c.nodes && Sane(c.nodes[w])
    ensures v in DoCallAppend(c, w, p).nodes && DoCallAppend(c, w, p).nodes[v].commit == c.nodes[v].commit
  {
  }

  lemma StepRaises(c: Cluster, s: Step, v: Id)
    requires Base(c) && AllSane(c) && Enabled(c, s) && v in c.nodes && s != Crash(v)
    ensures v in After(c, s).nodes && After(c, s).nodes[v].commit >= c.nodes[v].commit
  {
    if s.Deliver? {
      DeliverRaises(c, s.packet, v);
    } else if s.Timeout? {
      TimeoutRaises(c, v, s.node);
    } else if s.ClientPut? {
      PutRaises(c, v, s.node, s.command);
    } else if s.CallAppend? {
      CallRaises(c, v, s.node, s.peer);
    } else {
      OtherRaises(c, s, v);
    }
  }

  lemma OtherRaises(c: Cluster, s: Step, v: Id)
    requires AllSane(c) && Enabled(c, s) && v in c.nodes && s != Crash(v)
    requires !s.Deliver? && !s.Timeout? && !s.ClientPut? && !s.CallAppend?
    ensures v in After(c, s).nodes && After(c, s).nodes[v].commit >= c.nodes[v].commit
  {
    if s.Tick? {
      ApplyKeepsCommit(c.nodes[s.node]);
    }
  }

  /** A node's commit index falls back only when the node crashes. */
  lemma CommitNeverGoesBack(cs: seq<Cluster>, ss: seq<Step>, i: nat, v: Id)
    requires Run(cs, ss) && i < |ss| && v in cs[i].nodes && ss[i] != Crash(v)
    ensures v in cs[i + 1].nodes && cs[i].nodes[v].commit <= cs[i + 1].nodes[v].commit
  {
    InvariantHolds(cs, ss, i);
    assert StepAt(cs, ss, i);
    StepRaises(cs[i], ss[i], v);
  }

  // ---------------------------------------------------------------- the applied index may go back

  lemma ApplyRaises(n: Node)
    requires |n.log| > 0
    ensures ApplyCommitted(n).applied >= n.applied
  {
  }

  lemma TallyApplies(n: Node)
    requires |n.log| > 0
    ensures TallyVotes(n).applied >= n.applied
  {
    ApplyRaises(AdvanceCommit(Crowned(n)));
  }

  lemma CountApplies(n: Node, p: Id, m: nat)
    requires |n.log| > 0
    ensures CountMatch(n, p, m).applied >= n.applied
  {
    ApplyRaises(AdvanceCommit(n.(matchIndex := n.matchIndex[p := m], nextIndex := n.nextIndex[p := m + 1])));
  }

  lemma AppendApplies(n: Node, req: AppendRequest)
    requires |n.log| > 0
    ensures OnAppend(n, req).0.applied >= n.applied
  {
    if req.term >= n.term && PrevMatches(n, req) {
      var m := TakeEntries(Heard(n, req.term, req.leader), req);
      if req.commit > m.commit {
        ApplyRaises(m.(commit := Min(req.commit, LastIndex(m.log))));
      }
    }
  }

  /** A snapshot request that lies between the node's snapshot and what it has applied. */
  predicate SetsBack(n: Node, pkt: Packet) {
    pkt.SnapReq? && n.term <= pkt.snapshot.term && n.snap < pkt.snapshot.lastIndex < n.applied
  }

  lemma SnapshotSetsBackIff(n: Node, pkt: Packet)
    requires |n.log| > 0 && pkt.SnapReq? && |pkt.prefix| == pkt.snapshot.lastIndex + 1
    ensures OnSnapshot(n, pkt.snapshot, pkt.prefix).0.applied < n.applied <==> SetsBack(n, pkt)
    ensures SetsBack(n, pkt) ==> OnSnapshot(n, pkt.snapshot, pkt.prefix).0.applied == pkt.snapshot.lastIndex
  {
    var req := pkt.snapshot;
    if n.term <= req.term && n.snap < req.lastIndex {
      assert OnSnapshot(n, req, pkt.prefix).0 == Installed(Heard(n, req.term, req.leader), req, pkt.prefix);
    } else {
      assert OnSnapshot(n, req, pkt.prefix).0.applied == n.applied;
    }
  }

  lemma VoteResponseApplies(n: Node, from: Id, asked: nat, resp: VoteResponse)
    requires |n.log| > 0
    ensures OnVoteResponse(n, from, asked, resp).applied >= n.applied
  {
    TallyApplies(n.(votes := n.votes + {from}));
  }

  lemma AppendResponseApplies(n: Node, from: Id, req: AppendRequest, resp: AppendResponse)
    requires |n.log| > 0
    ensures OnAppendResponse(n, from, req, resp).applied >= n.applied
  {
    CountApplies(n, from, req.prevIndex + |req.entries|);
  }

  lemma HandledSetsBackIff(n: Node, pkt: Packet)
    requires |n.log| > 0 && (pkt.SnapReq? ==> |pkt.prefix| == pkt.snapshot.lastIndex + 1)
    ensures Handled(n, pkt).applied < n.applied <==> SetsBack(n, pkt)
    ensures SetsBack(n, pkt) ==> Handled(n, pkt).applied == pkt.snapshot.lastIndex
  {
    match pkt
    case VoteRsp(from, _, asked, resp) => VoteResponseApplies(n, from, asked, resp);
    case AppendReq(_, _, req) => AppendApplies(n, req);
    case ProbeReq(_, _, req) => AppendApplies(n, req);
    case AppendRsp(_, from, _, req, resp) => AppendResponseApplies(n, from, req, resp);
    case SnapReq(_, _, _, _) => SnapshotSetsBackIff(n, pkt);
    case SnapRsp(_, from, _, req, resp) => CountApplies(n, from, req.lastIndex);
    case _ =>
  }

  lemma TimeoutApplies(c: Cluster, v: Id, w: Id)
    requires v in c.nodes && w in c.nodes && |c.nodes[w].log| > 0
    ensures v in DoTimeout(c, w).nodes && DoTimeout(c, w).nodes[v].applied >= c.nodes[v].applied
  {
    TimeoutNodes(c, w);
    TallyApplies(Campaigner(c.nodes[w]));
  }

  lemma ProposeApplies(n: Node, cmd: Command)
    requires |n.log| > 0
    ensures Propose(n, cmd).0.applied >= n.applied
  {
    ApplyRaises(AdvanceCommit(LeaderAppend(n, Entry(n.term, cmd, None))));
  }

  lemma PutApplies(c: Cluster, v: Id, w: Id, cmd: Command)
    requires v in c.nodes && w in c.nodes && |c.nodes[w].log| > 0
    ensures v in DoPut(c, w, cmd).nodes && DoPut(c, w, cmd).nodes[v].applied >= c.nodes[v].applied
  {
    PutNodes(c, w, cmd);
    ProposeApplies(c.nodes[w], cmd);
  }

  lemma OtherApplies(c: Cluster, s: Step, v: Id)
    requires AllSane(c) && Enabled(c, s) && v in c.nodes && s != Crash(v) && !s.Deliver? && !s.Timeout? && !s.ClientPut?
    ensures v in After(c, s).nodes && After(c, s).nodes[v].applied >= c.nodes[v].applied
  {
    if s.Tick? {
      ApplyRaises(c.nodes[s.node]);
    }
  }

  ghost predicate SetsNodeBack(c: Cluster, s: Step, v: Id)
    requires v in c.nodes
  {
    s.Deliver? && s.packet.to == v && SetsBack(c.nodes[v], s.packet)
  }

  lemma StepSetsBackIff(c: Cluster, s: Step, v: Id)
    requires AllSane(c) && Enabled(c, s) && v in c.nodes && s != Crash(v)
    ensures v in After(c, s).nodes
    ensures After(c, s).nodes[v].applied < c.nodes[v].applied <==> SetsNodeBack(c, s, v)
    ensures SetsNodeBack(c, s, v) ==> After(c, s).nodes[v].applied == s.packet.snapshot.lastIndex
  {
    if s.Deliver? {
      DeliverIsHandled(c, s.packet);
      HandledSetsBackIff(c.nodes[s.packet.to], s.packet);
    } else if s.Timeout? {
      TimeoutApplies(c, v, s.node);
    } else if s.ClientPut? {
      PutApplies(c, v, s.node, s.command);
    } else {
      OtherApplies(c, s, v);
    }
  }

  /** Short of a crash, a node's applied index falls exactly when it receives a snapshot, of its
      term or a later one, that lies between its own snapshot and what it has applied; then it
      falls to that snapshot's index. */
  lemma AppliedGoesBackIff(cs: seq<Cluster>, ss: seq<Step>, i: nat, v: Id)
    requires Run(cs, ss) && i < |ss| && v in cs[i].nodes && ss[i] != Crash(v)
    ensures v in cs[i + 1].nodes
    ensures cs[i + 1].nodes[v].applied < cs[i].nodes[v].applied <==> SetsNodeBack(cs[i], ss[i], v)
    ensures SetsNodeBack(cs[i], ss[i], v) ==> cs[i + 1].nodes[v].applied == ss[i].packet.snapshot.lastIndex
  {
    InvariantHolds(cs, ss, i);
    assert StepAt(cs, ss, i);
    StepSetsBackIff(cs[i], ss[i], v);
  }

  // ---------------------------------------------------------------- without compaction

  predicate CommitInLog(n: Node) { |n.log| > 0 && n.commit <= LastIndex(n.log) }

  lemma FinishInLog(n: Node)
    requires CommitInLog(n)
    ensures CommitInLog(ApplyCommitted(AdvanceCommit(n)))
  {
    BestCommitIsGreatest(n, LastIndex(n.log));
    ApplyKeepsCommit(AdvanceCommit(n));
    ApplyKeeps(AdvanceCommit(n));
  }

  lemma TallyInLog(n: Node)
    requires CommitInLog(n)
    ensures CommitInLog(TallyVotes(n))
  {
    FinishInLog(Crowned(n));
  }

  lemma CountInLog(n: Node, p: Id, m: nat)
    requires CommitInLog(n)
    ensures CommitInLog(CountMatch(n, p, m))
  {
    FinishInLog(n.(matchIndex := n.matchIndex[p := m], nextIndex := n.nextIndex[p := m + 1]));
  }

  lemma AppendInLog(n: Node, req: AppendRequest)
    requires CommitInLog(n) && req.commit <= req.prevIndex + |req.entries|
    requires n.commit < |OnAppend(n, req).0.log|
    ensures CommitInLog(OnAppend(n, req).0)
  {
    OnAppendCommit(n, req);
    if OnAppend(n, req).1.success {
      AcceptedLog(n, req);
      MergeReaches(n.log, req.prevIndex + 1, req.entries);
    }
  }

  lemma VoteResponseInLog(n: Node, from: Id, asked: nat, resp: VoteResponse)
    requires CommitInLog(n)
    ensures CommitInLog(OnVoteResponse(n, from, asked, resp))
  {
    TallyInLog(n.(votes := n.votes + {from}));
  }

  lemma AppendResponseInLog(n: Node, from: Id, req: AppendRequest, resp: AppendResponse)
    requires CommitInLog(n)
    ensures CommitInLog(OnAppendResponse(n, from, req, resp))
  {
    if resp.success {
      CountInLog(n, from, req.prevIndex + |req.entries|);
    }
  }

  lemma HandledInLog(c: Cluster, pkt: Packet)
    requires Base(c) && pkt in c.net && pkt.to in c.nodes && CommitInLog(c.nodes[pkt.to]) && !pkt.SnapReq?
    ensures CommitInLog(Handled(c.nodes[pkt.to], pkt))
  {
    var n := c.nodes[pkt.to];
    match pkt
    case VoteRsp(from, _, asked, resp) => VoteResponseInLog(n, from, asked, resp);
    case AppendReq(_, _, req) => RequestInLog(c, pkt);
    case ProbeReq(_, _, req) => RequestInLog(c, pkt);
    case AppendRsp(_, from, _, req, resp) => AppendResponseInLog(n, from, req, resp);
    case SnapRsp(_, from, _, req, resp) => CountInLog(n, from, req.lastIndex);
    case _ =>
  }

  lemma RequestInLog(c: Cluster, pkt: Packet)
    requires Base(c) && pkt in c.net && (pkt.AppendReq? || pkt.ProbeReq?) && pkt.to in c.nodes && CommitInLog(c.nodes[pkt.to])
    ensures CommitInLog(OnAppend(c.nodes[pkt.to], pkt.append).0)
  {
    BasePacket(c, pkt);
    RequestKeepsCommitted(c, pkt);
    AppendInLog(c.nodes[pkt.to], pkt.append);
  }

  lemma TimeoutInLog(c: Cluster, v: Id, w: Id)
    requires v in c.nodes && w in c.nodes && CommitInLog(c.nodes[v]) && CommitInLog(c.nodes[w])
    ensures v in DoTimeout(c, w).nodes && CommitInLog(DoTimeout(c, w).nodes[v])
  {
    TimeoutNodes(c, w);
    TallyInLog(Campaigner(c.nodes[w]));
  }

  lemma ProposeInLog(n: Node, cmd: Command)
    requires CommitInLog(n)
    ensures CommitInLog(Propose(n, cmd).0)
  {
    FinishInLog(LeaderAppend(n, Entry(n.term, cmd, None)));
  }

  lemma PutInLog(c: Cluster, v: Id, w: Id, cmd: Command)
    requires v in c.nodes && w in c.nodes && CommitInLog(c.nodes[v]) && CommitInLog(c.nodes[w])
    ensures v in DoPut(c, w, cmd).nodes && CommitInLog(DoPut(c, w, cmd).nodes[v])
  {
    PutNodes(c, w, cmd);
    ProposeInLog(c.nodes[w], cmd);
  }

  lemma OtherInLog(c: Cluster, s: Step, v: Id)
    requires AllSane(c) && Enabled(c, s) && v in c.nodes && CommitInLog(c.nodes[v]) && !s.Deliver? && !s.Timeout? && !s.ClientPut?
    ensures v in After(c, s).nodes && CommitInLog(After(c, s).nodes[v])
  {
    if s.Tick? {
      ApplyKeepsCommit(c.nodes[s.node]);
      ApplyKeeps(c.nodes[s.node]);
    }
  }

  lemma StepInLog(c: Cluster, s: Step, v: Id)
    requires Base(c) && AllSane(c) && Enabled(c, s) && v in c.nodes && (s.Deliver? ==> !s.packet.SnapReq?)
    requires AllInLog(c)
    ensures v in After(c, s).nodes && CommitInLog(After(c, s).nodes[v])
  {
    assert CommitInLog(c.nodes[v]);
    if s.Deliver? {
      assert CommitInLog(c.nodes[s.packet.to]);
      DeliverIsHandled(c, s.packet);
      HandledInLog(c, s.packet);
    } else if s.Timeout? {
      assert CommitInLog(c.nodes[s.node]);
      TimeoutInLog(c, v, s.node);
    } else if s.ClientPut? {
      assert CommitInLog(c.nodes[s.node]);
      PutInLog(c, v, s.node, s.command);
    } else {
      OtherInLog(c, s, v);
    }
  }

  lemma NoSnapshots(c: Cluster, pkt: Packet)
    requires Disc(c) && !c.compacting && pkt in c.net
    ensures !pkt.SnapReq?
  {
    assert Within(c, true);
    assert Binding(c, pkt);
  }

  ghost predicate AllInLog(c: Cluster) {
    forall w {:trigger CommitInLog(c.nodes[w])} :: w in c.nodes ==> CommitInLog(c.nodes[w])
  }

  lemma RunInLog(cs: seq<Cluster>, ss: seq<Step>, i: nat)
    requires Run(cs, ss) && i < |ss| && !cs[i].compacting && AllInLog(cs[i])
    ensures AllInLog(cs[i + 1])
  {
    var c, s, c' := cs[i], ss[i], cs[i + 1];
    InvariantHolds(cs, ss, i);
    PastStays(cs, ss, i, i + 1);
    SameMembers(c, c');
    assert StepAt(cs, ss, i);
    if s.Deliver? {
      NoSnapshots(c, s.packet);
    }
    forall v | v in c'.nodes
      ensures CommitInLog(c'.nodes[v])
    {
      StepInLog(c, s, v);
    }
  }

  lemma {:induction false} AllAreInLog(cs: seq<Cluster>, ss: seq<Step>, i: nat)
    requires Run(cs, ss) && i < |cs| && !cs[0].compacting
    ensures AllInLog(cs[i])
    decreases i
  {
    if i == 0 {
      InitialInLog(cs[0]);
    } else {
      AllAreInLog(cs, ss, i - 1);
      PastStays(cs, ss, 0, i - 1);
      RunInLog(cs, ss, i - 1);
    }
  }

  lemma InitialInLog(c: Cluster)
    requires Initial(c)
    ensures AllInLog(c)
  {
    var cfg: Config :| cfg.Keys == c.members && Booted(c, cfg);
    forall v | v in c.nodes
      ensures CommitInLog(c.nodes[v])
    {
      assert c.nodes[v] == Boot(v, c.nodes[v].threshold, false, cfg);
    }
  }

  /** Without compaction no commit index ever points past its log. */
  lemma CommitsAreInLog(cs: seq<Cluster>, ss: seq<Step>, i: nat, v: Id)
    requires Run(cs, ss) && i < |cs| && v in cs[i].nodes && !cs[0].compacting
    ensures |cs[i].nodes[v].log| > 0 && cs[i].nodes[v].commit <= LastIndex(cs[i].nodes[v].log)
  {
    AllAreInLog(cs, ss, i);
    assert CommitInLog(cs[i].nodes[v]);
  }

  lemma SameMembers(c: Cluster, c': Cluster)
    requires Base(c) && Base(c') && c'.members == c.members
    ensures c'.nodes.Keys == c.nodes.Keys
  {
    assert Within(c, true) && Within(c', true);
  }

  // ---------------------------------------------------------------- client writes

  /** State `i` of the run is a leader about to take `cmd`, for index `idx`. */
  ghost predicate Puts(cs: seq<Cluster>, ss: seq<Step>, i: nat, cmd: Command, idx: nat) {
    && Run(cs, ss) && i < |ss|
    && ss[i].ClientPut? && ss[i].command == cmd
    && ss[i].node in cs[i].nodes && cs[i].nodes[ss[i].node].role == Leader
    && idx == |cs[i].nodes[ss[i].node].log|
  }

  lemma PutEntersReign(cs: seq<Cluster>, ss: seq<Step>, i: nat, cmd: Command, idx: nat)
    requires Puts(cs, ss, i, cmd, idx)
    ensures var t := cs[i].nodes[ss[i].node].term;
            t in cs[i + 1].h.reigns && idx < |cs[i + 1].h.reigns[t].log|
            && cs[i + 1].h.reigns[t].log[idx] == Entry(t, cmd, None)
  {
    var v := ss[i].node;
    var n := cs[i].nodes[v];
    InvariantHolds(cs, ss, i);
    InvariantHolds(cs, ss, i + 1);
    assert StepAt(cs, ss, i);
    PutAppends(cs[i], v, cmd);
    LeaderOfTerm(cs[i + 1], v);
  }

  lemma PutAppends(c: Cluster, v: Id, cmd: Command)
    requires v in c.nodes && |c.nodes[v].log| > 0 && c.nodes[v].role == Leader
    ensures
      var n, c' := c.nodes[v], DoPut(c, v, cmd);
      && v in c'.nodes && c'.nodes[v].role == Leader && c'.nodes[v].term == n.term
      && c'.nodes[v].log == n.log + [Entry(n.term, cmd, None)]
  {
    FinishKeeps(LeaderAppend(c.nodes[v], Entry(c.nodes[v].term, cmd, None)));
  }

  /** `Put` waits for its index alone. What any node ever holds there is the client's command
      exactly if the entry still has the term that `Propose` returned. */
  lemma PutTookEffectIff(cs: seq<Cluster>, ss: seq<Step>, i: nat, j: nat, w: Id, cmd: Command, idx: nat)
    requires Puts(cs, ss, i, cmd, idx) && i < j < |cs| && w in cs[j].nodes && idx < |cs[j].nodes[w].log|
    ensures var t, e := cs[i].nodes[ss[i].node].term, cs[j].nodes[w].log[idx];
            e.term == t <==> e == Entry(t, cmd, None)
  {
    var t, log := cs[i].nodes[ss[i].node].term, cs[j].nodes[w].log;
    PutEntersReign(cs, ss, i, cmd, idx);
    PastStays(cs, ss, i + 1, j);
    LogIsRooted(cs[j], w);
    assert ReignGrows(cs[i + 1].h.reigns, cs[j].h.reigns, t);
    InvariantHolds(cs, ss, i);
    BaseNode(cs[i], ss[i].node);
    assert RootedAt(cs[j].h.reigns, log, idx);
  }

  /** Once some node has applied the index and the term there is still the client's, the
      command is at that index in the log of every leader from then on whose term is not lower,
      and in every map that has caught up with it. */
  lemma PutIsDurable(cs: seq<Cluster>, ss: seq<Step>, i: nat, j: nat, k: nat, w: Id, l: Id, cmd: Command, idx: nat)
    requires Puts(cs, ss, i, cmd, idx) && i < j <= k < |cs| && w in cs[j].nodes && l in cs[k].nodes
    requires idx <= cs[j].nodes[w].applied && idx < |cs[j].nodes[w].log|
    requires cs[j].nodes[w].log[idx].term == cs[i].nodes[ss[i].node].term
    ensures cs[k].nodes[l].role == Leader && cs[k].nodes[l].term >= cs[j].nodes[w].term ==>
              idx < |cs[k].nodes[l].log| && cs[k].nodes[l].log[idx] == Entry(cs[i].nodes[ss[i].node].term, cmd, None)
    ensures idx <= cs[k].nodes[l].applied ==>
              idx < |cs[k].nodes[l].log| && cs[k].nodes[l].log[idx] == Entry(cs[i].nodes[ss[i].node].term, cmd, None)
  {
    PutTookEffectIff(cs, ss, i, j, w, cmd, idx);
    InvariantHolds(cs, ss, j);
    InvariantHolds(cs, ss, k);
    BaseNode(cs[j], w);
    BaseNode(cs[k], l);
    if cs[k].nodes[l].role == Leader && cs[k].nodes[l].term >= cs[j].nodes[w].term {
      LeadersHoldCommitted(cs, ss, j, k, w, l, idx);
    }
    if idx <= cs[k].nodes[l].applied {
      CommittedLogsAgree(cs, ss, j, k, w, l, idx);
    }
  }
}
