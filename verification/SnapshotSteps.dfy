/** Snapshots sent, installed and answered, crashes, and the steps of a read keep the cluster
    invariant, given that an installation discards nothing its leader has counted. */
module SnapshotSteps {
  import opened RaftTypes
  import opened Logs
  import opened History
  import opened NodeSpec
  import opened NodeFacts
  import opened Protocol
  import opened Effects
  import opened Cluster
  import opened ClusterInv
  import opened LeaderSteps
  import opened ElectionSteps
  import opened ReplicationSteps

  // ---------------------------------------------------------------- sending a snapshot

  lemma AdmissibleLower(rs: Reigns, t: nat, k: nat, j: nat)
    requires Admissible(rs, t, k) && j <= k
    ensures Admissible(rs, t, j)
  {
    if j > 0 {
      var u: nat :| u <= t && CommittedBy(rs, u, k);
      assert CommittedBy(rs, u, k);
      assert CommittedBy(rs, u, j);
    }
  }

  lemma SnapshotIsValid(s: State, compacting: bool, n: Node, to: Id)
    requires Leading(s, compacting, n) && to in s.members && to != n.id
    ensures SnapOk(s.h.reigns, s.members, to, MakeSnapshot(n), n.log[..n.snap + 1])
  {
    BackedAdmissible(s.h.reigns, n.term, n.log, n.commit);
    AdmissibleLower(s.h.reigns, n.term, n.commit, n.snap);
    ReplayAgree(n.log, n.log[..n.snap + 1], n.snap);
    assert Inside(s, true);
    assert LeaderOk(s.ns, s.h.reigns, n.term);
  }

  lemma CallSnapshotBase(c: Cluster, v: Id, p: Id)
    requires Base(c) && MayCall(c, v, p)
    ensures Base(DoCallSnapshot(c, v, p)) && Progress(c, DoCallSnapshot(c, v, p))
  {
    var n := c.nodes[v];
    BaseNode(c, v);
    SnapshotIsValid(ViewOf(c), c.compacting, n, p);
    SendBase(c, DoCallSnapshot(c, v, p), SnapReq(c.issued, p, MakeSnapshot(n), n.log[..n.snap + 1]));
  }

  // ---------------------------------------------------------------- receiving a snapshot

  /** The receiver may discard its log beyond the snapshot. */
  ghost predicate MayInstall(c: Cluster, v: Id, req: SnapshotRequest)
    requires v in c.nodes
  {
    c.nodes[v].term <= req.term && c.nodes[v].snap < req.lastIndex ==>
      && c.compacting
      && Beyond(c.h.counted, req.term, v, req.lastIndex) == {}
      && OldAcksBlocked(c.h.reigns, c.h.acks, v, req.term, req.lastIndex)
  }

  ghost predicate ReceivingSnapshot(s: State, n: Node, req: SnapshotRequest, prefix: Log) {
    && Inv(s) && n.id in s.ns && s.ns[n.id] == PeerOf(n)
    && NodeOk(s.h, s.members, true, n.id, n) && n.role == Follower
    && n.term == req.term && SnapOk(s.h.reigns, s.members, n.id, req, prefix)
    && n.snap < req.lastIndex && s.members != {}
  }

  lemma InstalledNode(s: State, n: Node, req: SnapshotRequest, prefix: Log)
    requires ReceivingSnapshot(s, n, req, prefix) && PlainReigns(s.h.reigns)
    ensures NodeOk(s.h, s.members, true, n.id, Installed(n, req, prefix))
  {
    var n', rs := Installed(n, req, prefix), s.h.reigns;
    assert PlainReign(rs, n.term);
    BackedAdmissible(rs, n.term, n.log, n.commit);
    PrefixBacked(s, n.term, prefix, n'.commit);
    assert |req.peers| > 0 by {
      assert req.peers.Keys != {};
    }
  }

  lemma InstalledInv(s: State, v: Id, last: nat)
    requires Inv(s) && CanInstall(s, v, last)
    ensures Inv(Acknowledge(Install(s, v, last), v, last))
  {
    InstallInv(s, v, last);
    AcknowledgeInv(Install(s, v, last), v, last);
  }

  /** The history after an installation, as the cluster records it. */
  function InstalledHistory(h: History, t: nat, v: Id, last: nat): History {
    RecordAck(h.(acks := set x | x in h.acks && !(x.term == t && x.voter == v && x.upTo > last)), Ack(t, v, last))
  }

  lemma InstalledHistoryIs(s: State, v: Id, last: nat)
    requires CanInstall(s, v, last)
    ensures Acknowledge(Install(s, v, last), v, last).h == InstalledHistory(s.h, s.ns[v].term, v, last)
  {
    var t := s.ns[v].term;
    assert s.h.acks - Beyond(s.h.acks, t, v, last) == set x | x in s.h.acks && !(x.term == t && x.voter == v && x.upTo > last);
  }

  lemma InstallGood(c: Cluster, v: Id, n1: Node, req: SnapshotRequest, prefix: Log)
    requires Base(c) && v in c.nodes && Evolves(c.nodes[v], n1) && n1.applied == c.nodes[v].applied
    requires Inv(State(c.members, Peers(c.nodes)[v := PeerOf(n1)], c.h))
    requires NodeOk(c.h, c.members, c.compacting, v, n1) && n1.role == Follower && n1.term == req.term
    requires SnapOk(c.h.reigns, c.members, v, req, prefix) && n1.snap < req.lastIndex
    requires c.compacting && Beyond(c.h.counted, req.term, v, req.lastIndex) == {}
    requires OldAcksBlocked(c.h.reigns, c.h.acks, v, req.term, req.lastIndex)
    ensures Good(c, v, Installed(n1, req, prefix), InstalledHistory(c.h, req.term, v, req.lastIndex))
  {
    BaseNode(c, v);
    var s1 := State(c.members, Peers(c.nodes)[v := PeerOf(n1)], c.h);
    var n', h' := Installed(n1, req, prefix), InstalledHistory(c.h, req.term, v, req.lastIndex);
    InstalledNode(s1, n1, req, prefix);
    InstalledView(s1, n1, req, prefix);
    InstallRecords(c, v, n1, n', h');
  }

  lemma InstalledView(s: State, n: Node, req: SnapshotRequest, prefix: Log)
    requires Inv(s) && n.id in s.ns && s.ns[n.id] == PeerOf(n) && n.term == req.term && |prefix| == req.lastIndex + 1
    requires CanInstall(s, n.id, req.lastIndex) && prefix == s.h.reigns[req.term].log[..req.lastIndex + 1]
    ensures Inv(State(s.members, s.ns[n.id := PeerOf(Installed(n, req, prefix))],
                      InstalledHistory(s.h, req.term, n.id, req.lastIndex)))
  {
    InstalledInv(s, n.id, req.lastIndex);
    InstalledHistoryIs(s, n.id, req.lastIndex);
    assert Acknowledge(Install(s, n.id, req.lastIndex), n.id, req.lastIndex) ==
           State(s.members, s.ns[n.id := PeerOf(Installed(n, req, prefix))],
                 InstalledHistory(s.h, req.term, n.id, req.lastIndex));
  }

  lemma InstallRecords(c: Cluster, v: Id, n1: Node, n': Node, h': History)
    requires Base(c) && v in c.nodes && Evolves(c.nodes[v], n1) && Evolves(n1, n') && n'.role == Follower
    requires NodeOk(c.h, c.members, c.compacting, v, n')
    requires h' == c.h.(acks := h'.acks)
    requires Inv(State(c.members, Peers(c.nodes)[v := PeerOf(n1)][v := PeerOf(n')], h'))
    ensures Good(c, v, n', h')
  {
    BaseNode(c, v);
    GrowsRefl(c.h.reigns);
    assert Peers(c.nodes)[v := PeerOf(n1)][v := PeerOf(n')] == Peers(c.nodes)[v := PeerOf(n')];
    NodeOkSameHistory(c.h, h', c.members, c.compacting, v, n');
    forall a | a in NewlyApplied(v, c.nodes[v], n')
      ensures AppliedOk(h'.reigns, a)
    {
      AppliedWasCommitted(h'.reigns, v, c.nodes[v], n', a);
    }
  }

  lemma KnownGood(c: Cluster, v: Id, n1: Node, last: nat)
    requires Base(c) && v in c.nodes && Evolves(c.nodes[v], n1) && n1.applied == c.nodes[v].applied
    requires Inv(State(c.members, Peers(c.nodes)[v := PeerOf(n1)], c.h))
    requires NodeOk(c.h, c.members, c.compacting, v, n1) && n1.role == Follower && n1.term in c.h.reigns
    requires last <= n1.snap
    ensures Good(c, v, n1, RecordAck(c.h, Ack(n1.term, v, last)))
  {
    BaseNode(c, v);
    var s1 := State(c.members, Peers(c.nodes)[v := PeerOf(n1)], c.h);
    AppliedIsLeaders(s1, c.compacting, n1);
    AgreeShorter(n1.log, c.h.reigns[n1.term].log, n1.snap, last);
    AcknowledgeInv(s1, v, last);
    RecordAckGrows(c.h, Ack(n1.term, v, last), v);
    NodeOkSameHistory(c.h, RecordAck(c.h, Ack(n1.term, v, last)), c.members, c.compacting, v, n1);
    assert NewlyApplied(v, c.nodes[v], n1) == {};
  }

  lemma SnapReqBase(c: Cluster, pkt: Packet)
    requires Base(c) && pkt in c.net && pkt.SnapReq? && pkt.to in c.nodes && |c.nodes[pkt.to].log| > 0
    requires |pkt.prefix| == pkt.snapshot.lastIndex + 1
    requires MayInstall(c, pkt.to, pkt.snapshot)
    ensures Base(DoSnapReq(c, pkt)) && Progress(c, DoSnapReq(c, pkt))
  {
    var v, req, n := pkt.to, pkt.snapshot, c.nodes[pkt.to];
    BasePacket(c, pkt);
    if req.term < n.term {
      StutterGood(c, v);
    } else {
      HeardNode(c, v, req.term, req.leader);
      var n1 := Heard(n, req.term, req.leader);
      if req.lastIndex <= n1.snap {
        KnownGood(c, v, n1, req.lastIndex);
      } else {
        InstallGood(c, v, n1, req, pkt.prefix);
      }
    }
    GoodStep(c, DoSnapReq(c, pkt), v, OnSnapshot(n, req, pkt.prefix).0);
  }

  lemma SnapRspBase(c: Cluster, pkt: Packet)
    requires Base(c) && pkt.SnapRsp? && pkt.to in c.nodes && |c.nodes[pkt.to].log| > 0
    requires c.nodes[pkt.to].role == Leader && c.nodes[pkt.to].term == pkt.snapshot.term
             && pkt.snapshotResp.term <= pkt.snapshot.term ==>
               Ack(pkt.snapshot.term, pkt.from, pkt.snapshot.lastIndex) in c.h.acks
    ensures Base(DoSnapRsp(c, pkt)) && Progress(c, DoSnapRsp(c, pkt))
  {
    var v, n, req, resp := pkt.to, c.nodes[pkt.to], pkt.snapshot, pkt.snapshotResp;
    var c' := DoSnapRsp(c, pkt);
    if n.role != Leader || n.term != req.term {
      StutterGood(c, v);
      GoodQuietStep(c, c', v, n);
    } else if resp.term > n.term {
      StepDownBase(c, c', v, resp.term, "");
    } else {
      CountGood(c, v, pkt.from, req.lastIndex);
      GoodQuietStep(c, c', v, c'.nodes[v]);
    }
  }

  // ---------------------------------------------------------------- crashes

  lemma BackedLower(rs: Reigns, term: nat, log: Log, k: nat, j: nat)
    requires Backed(rs, term, log, k) && j <= k && j < |log|
    ensures Backed(rs, term, log, j)
  {
    if j > 0 {
      var t: nat :| t <= term && Backs(rs, t, log, k);
      assert Backs(rs, t, log, k);
      assert Backs(rs, t, log, j);
    }
  }

  lemma CrashBase(c: Cluster, v: Id)
    requires Base(c) && v in c.nodes && |c.nodes[v].log| > 0
    ensures Base(DoCrash(c, v)) && Progress(c, DoCrash(c, v))
  {
    var n, n' := c.nodes[v], Restart(c.nodes[v], false);
    BaseNode(c, v);
    FoldPlain(n.base, n.log, n.snap, LastIndex(n.log));
    BackedLower(c.h.reigns, n.term, n.log, n.commit, n.snap);
    GrowsRefl(c.h.reigns);
    assert Peers(c.nodes)[v := PeerOf(n')] == Peers(c.nodes);
    assert NewlyApplied(v, n, n') == {};
    GoodQuietStep(c, DoCrash(c, v), v, n');
  }

  // ---------------------------------------------------------------- reads

  lemma ProbeRspBase(c: Cluster, pkt: Packet)
    requires Base(c) && pkt.ProbeRsp? && pkt.to in c.nodes
    ensures Base(DoProbeRsp(c, pkt)) && Progress(c, DoProbeRsp(c, pkt))
  {
    var v, n, resp := pkt.to, c.nodes[pkt.to], pkt.appendResp;
    var c' := DoProbeRsp(c, pkt);
    if resp.term > n.term {
      StepDownBase(c, c', v, resp.term, "");
    } else {
      StutterGood(c, v);
      GoodQuietStep(c, c', v, n);
    }
  }

  /** Steps that touch neither nodes nor network. */
  lemma AsideBase(c: Cluster, c': Cluster)
    requires Base(c) && c' == c.(calls := c'.calls, issued := c'.issued, queries := c'.queries)
    ensures Base(c') && Progress(c, c')
  {
    assert Within(c, true);
    var v :| v in c.members;
    StutterGood(c, v);
    GoodQuietStep(c, c', v, c.nodes[v]);
  }
}
