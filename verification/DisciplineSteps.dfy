/** Every step keeps the discipline of calls, requests and replies. */
module DisciplineSteps {
  import opened RaftTypes
  import opened Quorums
  import opened Logs
  import opened History
  import opened NodeSpec
  import opened Protocol
  import opened Effects
  import opened Cluster
  import opened ClusterInv
  import opened ElectionSteps
  import opened ReplicationSteps
  import opened SnapshotSteps
  import opened Discipline

  // ---------------------------------------------------------------- nodes

  lemma ApplyKeeps(n: Node)
    requires |n.log| > 0
    ensures ApplyCommitted(n).role == n.role && ApplyCommitted(n).term == n.term && ApplyCommitted(n).id == n.id
    ensures ApplyCommitted(n).log == n.log && ApplyCommitted(n).nextIndex == n.nextIndex
    ensures Compacts(ApplyCommitted(n)) ==> Compacts(n)
  {
  }

  lemma FinishKeeps(n: Node)
    requires |n.log| > 0
    ensures var n' := ApplyCommitted(AdvanceCommit(n));
            && n'.role == n.role && n'.term == n.term && n'.id == n.id && n'.log == n.log && n'.nextIndex == n.nextIndex
            && (Compacts(n') ==> Compacts(n))
  {
    ApplyKeeps(AdvanceCommit(n));
  }

  lemma AllAcksRetained(c: Cluster, c': Cluster)
    requires c.h.acks <= c'.h.acks
    ensures AllRetained(c, c')
  {
  }

  ghost predicate Started(c: Cluster, c': Cluster) {
    Base(c) && Base(c') && Progress(c, c') && Disc(c)
  }

  // ---------------------------------------------------------------- elections

  lemma CrownKeeps(n: Node)
    requires |n.log| > 0
    ensures BecomeLeader(n).role == Leader && BecomeLeader(n).term == n.term
    ensures BecomeLeader(n).log == n.log + [NoOp(n.term)]
    ensures forall p {:trigger Lookup(BecomeLeader(n).nextIndex, p)} ::
              && Lookup(BecomeLeader(n).nextIndex, p) <= |n.log| + 1
              && (p in n.peers && p != n.id ==> Lookup(BecomeLeader(n).nextIndex, p) == |n.log|)
  {
    FinishKeeps(Crowned(n));
  }

  /** A winner's term had no leader before. */
  lemma WinnerIsFirst(c: Cluster, c': Cluster, v: Id, t: nat)
    requires Base(c) && Base(c') && Progress(c, c') && v in c.nodes
    requires t in c'.h.reigns && c'.h.reigns[t].leader == v
    requires c.nodes[v].term < t || (c.nodes[v].term == t && c.nodes[v].role == Candidate)
    ensures t !in c.h.reigns
  {
    if t in c.h.reigns {
      ReignKeepsLeader(c, c', t);
      LeaderReached(c, t);
    }
  }

  lemma ReignKeepsLeader(c: Cluster, c': Cluster, t: nat)
    requires Progress(c, c') && t in c.h.reigns
    ensures t in c'.h.reigns && c'.h.reigns[t].leader == c.h.reigns[t].leader
  {
    assert Within(c', true);
    assert ReignGrows(c.h.reigns, c'.h.reigns, t);
  }

  lemma LeaderReached(c: Cluster, t: nat)
    requires Base(c) && t in c.h.reigns
    ensures c.h.reigns[t].leader in c.nodes && t <= c.nodes[c.h.reigns[t].leader].term
    ensures c.nodes[c.h.reigns[t].leader].term == t ==> c.nodes[c.h.reigns[t].leader].role != Candidate
  {
    var v := c.h.reigns[t].leader;
    assert Within(c, true);
    assert Inside(ViewOf(c), true);
    assert LeaderOk(ViewOf(c).ns, c.h.reigns, t);
    BaseNode(c, v);
  }

  lemma WonIsCalm(c: Cluster, c': Cluster, v: Id, h: History, cand: Node)
    requires Started(c, c') && v in c.nodes && cand.id == v && |cand.log| > 0 && cand.peers.Keys == c.members
    requires c.nodes[v].term < cand.term || (c.nodes[v].term == cand.term && c.nodes[v].role == Candidate)
    requires h.reigns == c.h.reigns && h.acks == c.h.acks && h.counted == c.h.counted
    requires c'.nodes == c.nodes[v := BecomeLeader(cand)]
    requires c'.h == RecordElection(h, cand, BecomeLeader(cand))
    requires c'.calls == c.calls && c'.issued == c.issued
    ensures Calm(c, c', v) && c.h.acks <= c'.h.acks
  {
    CrownKeeps(cand);
    var n', t := BecomeLeader(cand), cand.term;
    assert c'.h.reigns[t].leader == v && c'.h.reigns[t].base == |cand.log|;
    WinnerIsFirst(c, c', v, t);
    assert JustElected(c, c', v, n');
    assert CalmHistory(c.h, c'.h, v, t);
  }

  lemma TimeoutDisc(c: Cluster, v: Id)
    requires v in c.nodes && |c.nodes[v].log| > 0 && c.nodes[v].role != Leader
    requires Started(c, DoTimeout(c, v))
    ensures Disc(DoTimeout(c, v))
  {
    var cand := Campaigner(c.nodes[v]);
    BaseNode(c, v);
    TimeoutShape(c, v);
    var h1 := RecordVote(c.h, cand);
    if |cand.votes| >= MajoritySize(cand.peers.Keys) {
      TimeoutWonDisc(c, DoTimeout(c, v), v, cand, h1);
    } else {
      WaitsDisc(c, DoTimeout(c, v), v, cand, h1);
    }
  }

  lemma TimeoutWonDisc(c: Cluster, c': Cluster, v: Id, cand: Node, h1: History)
    requires Started(c, c') && v in c.nodes && |c.nodes[v].log| > 0
    requires cand == Campaigner(c.nodes[v]) && h1 == RecordVote(c.h, cand) && cand.id == v
    requires c' == Update(c, v, BecomeLeader(cand)).(h := RecordElection(h1, cand, BecomeLeader(cand)), net := c.net + Requests(cand))
    ensures Disc(c')
  {
    BaseNode(c, v);
    WonDisc(c, c', v, h1, cand);
  }

  lemma WaitsDisc(c: Cluster, c': Cluster, v: Id, cand: Node, h1: History)
    requires Started(c, c') && v in c.nodes && |c.nodes[v].log| > 0
    requires cand == Campaigner(c.nodes[v]) && h1 == RecordVote(c.h, cand) && cand.id == v
    requires c' == Update(c, v, cand).(h := h1, net := c.net + Requests(cand))
    ensures Disc(c')
  {
    assert CalmHistory(c.h, c'.h, v, cand.term);
    RequestsBind(c, c', cand);
    AllAcksRetained(c, c');
    CalmDisc(c, c', v);
  }

  lemma WonDisc(c: Cluster, c': Cluster, v: Id, h: History, cand: Node)
    requires Started(c, c') && v in c.nodes && cand.id == v && |cand.log| > 0 && cand.peers.Keys == c.members
    requires c.nodes[v].term < cand.term || (c.nodes[v].term == cand.term && c.nodes[v].role == Candidate)
    requires h.reigns == c.h.reigns && h.acks == c.h.acks && h.counted == c.h.counted
    requires c'.nodes == c.nodes[v := BecomeLeader(cand)]
    requires c'.h == RecordElection(h, cand, BecomeLeader(cand))
    requires c'.calls == c.calls && c'.issued == c.issued && (c'.net == c.net || c'.net == c.net + Requests(cand))
    ensures Disc(c')
  {
    WonIsCalm(c, c', v, h, cand);
    RequestsBind(c, c', cand);
    AllAcksRetained(c, c');
    CalmDisc(c, c', v);
  }

  lemma RequestsBind(c: Cluster, c': Cluster, cand: Node)
    requires |cand.log| > 0 && c'.net <= c.net + Requests(cand)
    ensures NewBinding(c, c')
  {
  }

  lemma VoteReqDisc(c: Cluster, pkt: Packet)
    requires pkt.VoteReq? && pkt.to in c.nodes && |c.nodes[pkt.to].log| > 0
    requires Started(c, DoVoteReq(c, pkt))
    ensures Disc(DoVoteReq(c, pkt))
  {
    var c' := DoVoteReq(c, pkt);
    assert CalmHistory(c.h, c'.h, pkt.to, c'.nodes[pkt.to].term);
    assert Calm(c, c', pkt.to);
    AllAcksRetained(c, c');
    CalmDisc(c, c', pkt.to);
  }

  lemma VoteRspDisc(c: Cluster, pkt: Packet)
    requires pkt.VoteRsp? && pkt.to in c.nodes && |c.nodes[pkt.to].log| > 0
    requires Started(c, DoVoteRsp(c, pkt))
    ensures Disc(DoVoteRsp(c, pkt))
  {
    var v, n, resp := pkt.to, c.nodes[pkt.to], pkt.voteResp;
    var cand := n.(votes := n.votes + {pkt.from});
    BaseNode(c, v);
    if resp.term <= n.term && n.role == Candidate && n.term == pkt.asked && resp.granted
       && |cand.votes| >= MajoritySize(cand.peers.Keys) {
      CrownKeeps(cand);
      WonDisc(c, DoVoteRsp(c, pkt), v, c.h, cand);
    } else {
      LocalDisc(c, DoVoteRsp(c, pkt), v);
    }
  }

  // ---------------------------------------------------------------- local steps

  /** A step that leaves the history alone and keeps a leader's view of its peers. */
  lemma LocalDisc(c: Cluster, c': Cluster, v: Id)
    requires Started(c, c') && v in c.nodes && v in c'.nodes && c'.nodes == c.nodes[v := c'.nodes[v]]
    requires c'.h == c.h && c'.net == c.net && c.issued <= c'.issued
    requires forall id {:trigger KeptCall(c.calls, c'.calls, id)} :: id in c'.calls ==> KeptCall(c.calls, c'.calls, id)
    requires c'.nodes[v].role == Leader ==> StillLeads(c.nodes[v], c'.nodes[v], v)
    ensures Disc(c')
  {
    assert CalmHistory(c.h, c'.h, v, c'.nodes[v].term);
    AllAcksRetained(c, c');
    CalmDisc(c, c', v);
  }

  lemma TickDisc(c: Cluster, v: Id)
    requires v in c.nodes && |c.nodes[v].log| > 0
    requires Started(c, Update(c, v, ApplyCommitted(c.nodes[v])))
    ensures Disc(Update(c, v, ApplyCommitted(c.nodes[v])))
  {
    ApplyKeeps(c.nodes[v]);
    LocalDisc(c, Update(c, v, ApplyCommitted(c.nodes[v])), v);
  }

  lemma CrashDisc(c: Cluster, v: Id)
    requires v in c.nodes && |c.nodes[v].log| > 0
    requires Started(c, DoCrash(c, v))
    ensures Disc(DoCrash(c, v))
  {
    LocalDisc(c, DoCrash(c, v), v);
  }

  lemma DropDisc(c: Cluster, id: nat)
    requires Started(c, c.(calls := c.calls - {id}))
    ensures Disc(c.(calls := c.calls - {id}))
  {
    var c' := c.(calls := c.calls - {id});
    assert Within(c, true);
    var v :| v in c.members;
    assert c'.nodes == c.nodes[v := c'.nodes[v]];
    LocalDisc(c, c', v);
  }

  lemma PutDisc(c: Cluster, v: Id, cmd: Command)
    requires v in c.nodes && |c.nodes[v].log| > 0
    requires Started(c, DoPut(c, v, cmd))
    ensures Disc(DoPut(c, v, cmd))
  {
    var n := c.nodes[v];
    if n.role == Leader {
      BaseNode(c, v);
      PutShape(c, v, cmd);
      FinishKeeps(LeaderAppend(n, Entry(n.term, cmd, None)));
      OwnCopyDisc(c, DoPut(c, v, cmd), v);
    } else {
      LocalDisc(c, DoPut(c, v, cmd), v);
    }
  }

  lemma OwnCopyDisc(c: Cluster, c': Cluster, v: Id)
    requires Started(c, c') && v in c.nodes && v in c'.nodes && c'.nodes == c.nodes[v := c'.nodes[v]]
    requires c.nodes[v].role == Leader && c'.nodes[v].term == c.nodes[v].term && |c.nodes[v].log| < |c'.nodes[v].log|
    requires Compacts(c'.nodes[v]) ==> Compacts(c.nodes[v])
    requires c'.nodes[v].nextIndex == c.nodes[v].nextIndex[v := |c.nodes[v].log| + 1]
    requires c'.net == c.net && c'.calls == c.calls && c'.issued == c.issued
    requires c'.h.acks == c.h.acks + {Ack(c.nodes[v].term, v, |c.nodes[v].log|)}
    requires c'.h.counted == c.h.counted + {Ack(c.nodes[v].term, v, |c.nodes[v].log|)}
    ensures Disc(c')
  {
    OwnCopyHistory(c, c', v);
    assert StillLeads(c.nodes[v], c'.nodes[v], v);
    AllAcksRetained(c, c');
    CalmDisc(c, c', v);
  }

  lemma OwnCopyHistory(c: Cluster, c': Cluster, v: Id)
    requires Base(c) && Progress(c, c') && v in c.nodes && c.nodes[v].role == Leader
    requires c'.h.acks == c.h.acks + {Ack(c.nodes[v].term, v, |c.nodes[v].log|)}
    requires c'.h.counted == c.h.counted + {Ack(c.nodes[v].term, v, |c.nodes[v].log|)}
    ensures CalmHistory(c.h, c'.h, v, c.nodes[v].term)
  {
    BaseNode(c, v);
    ReignKeepsLeader(c, c', c.nodes[v].term);
  }

  lemma AsideDisc(c: Cluster, c': Cluster)
    requires Started(c, c') && c' == c.(issued := c'.issued, queries := c'.queries) && c.issued <= c'.issued
    ensures Disc(c')
  {
    assert Within(c, true);
    var v :| v in c.members;
    assert c'.nodes == c.nodes[v := c'.nodes[v]];
    LocalDisc(c, c', v);
  }

  lemma ProbeDisc(c: Cluster, r: nat, p: Id)
    requires r in c.queries && c.queries[r].node in c.nodes && |c.nodes[c.queries[r].node].log| > 0
    requires Started(c, DoProbe(c, r, p))
    ensures Disc(DoProbe(c, r, p))
  {
    var v, c' := c.queries[r].node, DoProbe(c, r, p);
    assert c'.nodes == c.nodes[v := c'.nodes[v]];
    assert CalmHistory(c.h, c'.h, v, c'.nodes[v].term);
    assert Calm(c, c', v);
    AllAcksRetained(c, c');
    CalmDisc(c, c', v);
  }

  lemma ProbeRspDisc(c: Cluster, pkt: Packet)
    requires pkt.ProbeRsp? && pkt.to in c.nodes
    requires Started(c, DoProbeRsp(c, pkt))
    ensures Disc(DoProbeRsp(c, pkt))
  {
    LocalDisc(c, DoProbeRsp(c, pkt), pkt.to);
  }

  // ---------------------------------------------------------------- receiving entries

  lemma OnAppendShape(n: Node, req: AppendRequest)
    requires |n.log| > 0
    ensures
      var (n', resp) := OnAppend(n, req);
      if req.term < n.term then n' == n && !resp.success && resp.term > req.term
      else && n'.role == Follower && n'.term == req.term && resp.term == req.term
           && (!resp.success ==> n' == Heard(n, req.term, req.leader) && !PrevMatches(n, req))
  {
    if req.term >= n.term && PrevMatches(n, req) {
      var n1 := TakeEntries(Heard(n, req.term, req.leader), req);
      if req.commit > n1.commit {
        ApplyKeeps(n1.(commit := Min(req.commit, LastIndex(n1.log))));
      }
    }
  }

  lemma ReceiveIsCalm(c: Cluster, c': Cluster, v: Id, req: AppendRequest)
    requires v in c.nodes && |c.nodes[v].log| > 0
    requires c'.nodes == c.nodes[v := OnAppend(c.nodes[v], req).0] && c'.calls == c.calls && c'.issued == c.issued
    requires c'.h == if OnAppend(c.nodes[v], req).1.success
                     then RecordAck(c.h, Ack(req.term, v, req.prevIndex + |req.entries|)) else c.h
    ensures Calm(c, c', v) && c.h.acks <= c'.h.acks
  {
    OnAppendShape(c.nodes[v], req);
    assert CalmHistory(c.h, c'.h, v, c'.nodes[v].term);
  }

  /** The reply to a request says what its leader may rely on. */
  lemma ReplyBinds(c: Cluster, c': Cluster, id: nat, v: Id, req: AppendRequest)
    requires Started(c, c') && v in c.nodes && |c.nodes[v].log| > 0
    requires AppendReq(id, v, req) in c.net && AppendReq(id, v, req) in c'.net
    requires c'.nodes == c.nodes[v := OnAppend(c.nodes[v], req).0] && c'.calls == c.calls && c'.issued == c.issued
    requires c'.h == if OnAppend(c.nodes[v], req).1.success
                     then RecordAck(c.h, Ack(req.term, v, req.prevIndex + |req.entries|)) else c.h
    ensures Binding(c', AppendRsp(id, v, req.leader, req, OnAppend(c.nodes[v], req).1))
  {
    var n', resp := c'.nodes[v], OnAppend(c.nodes[v], req).1;
    assert Within(c, true);
    assert Binding(c, AppendReq(id, v, req));
    OnAppendShape(c.nodes[v], req);
    if !resp.success && resp.term <= req.term {
      BasePacket(c', AppendReq(id, v, req));
      BaseNode(c', v);
      RefusalIsSafe(ViewOf(c'), n', req);
    }
  }

  lemma AppendReqDisc(c: Cluster, pkt: Packet)
    requires pkt.AppendReq? && pkt in c.net && pkt.to in c.nodes && |c.nodes[pkt.to].log| > 0
    requires Started(c, DoAppendReq(c, pkt))
    ensures Disc(DoAppendReq(c, pkt))
  {
    var c' := DoAppendReq(c, pkt);
    ReceiveIsCalm(c, c', pkt.to, pkt.append);
    ReplyBinds(c, c', pkt.id, pkt.to, pkt.append);
    AllAcksRetained(c, c');
    CalmDisc(c, c', pkt.to);
  }

  lemma ProbeReqDisc(c: Cluster, pkt: Packet)
    requires pkt.ProbeReq? && pkt.to in c.nodes && |c.nodes[pkt.to].log| > 0
    requires Started(c, DoProbeReq(c, pkt))
    ensures Disc(DoProbeReq(c, pkt))
  {
    var c' := DoProbeReq(c, pkt);
    ReceiveIsCalm(c, c', pkt.to, pkt.append);
    AllAcksRetained(c, c');
    CalmDisc(c, c', pkt.to);
  }

  // ---------------------------------------------------------------- receiving a snapshot

  lemma SnapMayInstall(c: Cluster, pkt: Packet)
    requires Disc(c) && pkt.SnapReq? && pkt in c.net && pkt.to in c.nodes
    ensures MayInstall(c, pkt.to, pkt.snapshot)
  {
    assert Within(c, true);
    assert Binding(c, pkt);
  }

  lemma OnSnapshotShape(n: Node, req: SnapshotRequest, prefix: Log)
    requires |n.log| > 0 && |prefix| == req.lastIndex + 1
    ensures
      var (n', resp) := OnSnapshot(n, req, prefix);
      if req.term < n.term then n' == n && resp.term > req.term
      else n'.role == Follower && n'.term == req.term && n'.snap >= req.lastIndex
  {
  }

  /** Installing discards only acknowledgements that no waiting call relies on. */
  lemma InstallRetains(c: Cluster, c': Cluster, pkt: Packet, q: Packet)
    requires Started(c, c') && pkt.SnapReq? && pkt in c.net && pkt.to in c.nodes && q in c.net
    requires c'.calls == c.calls && pkt.to in c'.nodes && c'.nodes == c.nodes[pkt.to := c'.nodes[pkt.to]]
    requires c.nodes[pkt.to].term <= pkt.snapshot.term && c.nodes[pkt.to].snap < pkt.snapshot.lastIndex
    requires c'.nodes[pkt.to].role == Follower
    requires c.h.acks <= c'.h.acks + Beyond(c.h.acks, pkt.snapshot.term, pkt.to, pkt.snapshot.lastIndex)
    ensures Retained(c, c', q)
  {
    var req, p := pkt.snapshot, pkt.to;
    assert Within(c, true);
    assert Binding(c, pkt) && Binding(c, q);
    BasePacket(c, pkt);
    assert q.AppendRsp? && q.id in c.calls ==> CallOk(c, q.id);
    assert Active(c.nodes, req.leader, req.term) && q.AppendRsp? ==> !Pending(c.calls, q.id, req.leader, p, req.term);
  }

  lemma SnapReqDisc(c: Cluster, c': Cluster, pkt: Packet)
    requires pkt.SnapReq? && pkt in c.net && pkt.to in c.nodes && |c.nodes[pkt.to].log| > 0
    requires |pkt.prefix| == pkt.snapshot.lastIndex + 1
    requires c' == DoSnapReq(c, pkt) && Started(c, c')
    ensures Disc(c')
  {
    var v, n, req := pkt.to, c.nodes[pkt.to], pkt.snapshot;
    OnSnapshotShape(n, req, pkt.prefix);
    assert CalmHistory(c.h, c'.h, v, c'.nodes[v].term);
    assert Calm(c, c', v);
    SnapReplyBinds(c, c', pkt);
    if req.term < n.term || req.lastIndex <= n.snap {
      AllAcksRetained(c, c');
    } else {
      forall q | q in c.net
        ensures Retained(c, c', q)
      {
        InstallRetains(c, c', pkt, q);
      }
    }
    CalmDisc(c, c', v);
  }

  lemma SnapReplyBinds(c: Cluster, c': Cluster, pkt: Packet)
    requires pkt.SnapReq? && pkt in c.net && pkt.to in c.nodes && |c.nodes[pkt.to].log| > 0
    requires |pkt.prefix| == pkt.snapshot.lastIndex + 1
    requires c' == DoSnapReq(c, pkt) && Started(c, c')
    ensures NewBinding(c, c')
  {
    OnSnapshotShape(c.nodes[pkt.to], pkt.snapshot, pkt.prefix);
    assert Within(c, true);
    assert Binding(c, pkt);
  }
}
