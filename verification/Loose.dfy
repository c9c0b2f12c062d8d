/** Runs in which a leader may have several calls to one peer outstanding, as a replication
    goroutine left over from an earlier leadership allows. */
module Loose {
  import opened RaftTypes
  import opened Logs
  import opened NodeSpec
  import opened Cluster
  import opened Safety
  import opened Commits

  ghost predicate LooseStepAt(cs: seq<Cluster>, ss: seq<Step>, i: nat)
    requires |cs| == |ss| + 1
  {
    i < |ss| ==> Able(cs[i], ss[i]) && (AllSane(cs[i]) ==> cs[i + 1] == After(cs[i], ss[i]))
  }

  ghost predicate LooseRun(cs: seq<Cluster>, ss: seq<Step>) {
    && |cs| == |ss| + 1
    && Initial(cs[0])
    && forall i: nat {:trigger LooseStepAt(cs, ss, i)} :: LooseStepAt(cs, ss, i)
  }

  // ---------------------------------------------------------------- nodes stay sane

  ghost predicate SaneAs(n: Node, id: Id) { Sane(n) && n.id == id }

  lemma ApplySane(n: Node)
    requires Sane(n)
    ensures SaneAs(ApplyCommitted(n), n.id)
  {
  }

  lemma FinishSane(n: Node)
    requires Sane(n)
    ensures SaneAs(ApplyCommitted(AdvanceCommit(n)), n.id)
  {
    ApplySane(AdvanceCommit(n));
  }

  lemma TallySane(n: Node)
    requires Sane(n)
    ensures SaneAs(TallyVotes(n), n.id)
  {
    FinishSane(Crowned(n));
  }

  lemma CountSane(n: Node, p: Id, m: nat)
    requires Sane(n)
    ensures SaneAs(CountMatch(n, p, m), n.id)
  {
    FinishSane(n.(matchIndex := n.matchIndex[p := m], nextIndex := n.nextIndex[p := m + 1]));
  }

  lemma VoteResponseSane(n: Node, from: Id, asked: nat, resp: VoteResponse)
    requires Sane(n)
    ensures SaneAs(OnVoteResponse(n, from, asked, resp), n.id)
  {
    TallySane(n.(votes := n.votes + {from}));
  }

  lemma AppendResponseSane(n: Node, from: Id, req: AppendRequest, resp: AppendResponse)
    requires Sane(n)
    ensures SaneAs(OnAppendResponse(n, from, req, resp), n.id)
  {
    if n.role != Leader || n.term != req.term {
      assert OnAppendResponse(n, from, req, resp) == n;
    } else if resp.term > n.term {
      assert OnAppendResponse(n, from, req, resp) == BecomeFollower(n, resp.term, "");
    } else if resp.success {
      CountSane(n, from, req.prevIndex + |req.entries|);
    } else {
      RefusedSane(n, from, req, resp);
    }
  }

  lemma RefusedSane(n: Node, from: Id, req: AppendRequest, resp: AppendResponse)
    requires Sane(n) && n.role == Leader && n.term == req.term && resp.term <= n.term && !resp.success
    ensures SaneAs(OnAppendResponse(n, from, req, resp), n.id)
  {
  }

  lemma SnapResponseSane(n: Node, from: Id, req: SnapshotRequest, resp: SnapshotResponse)
    requires Sane(n)
    ensures SaneAs(OnSnapshotResponse(n, from, req, resp), n.id)
  {
    if n.role == Leader && n.term == req.term && resp.term <= n.term {
      CountSane(n, from, req.lastIndex);
    }
  }

  lemma VoteRequestSane(n: Node, req: VoteRequest)
    requires Sane(n)
    ensures SaneAs(OnVoteRequest(n, req).0, n.id)
  {
  }

  lemma AppendSane(n: Node, req: AppendRequest)
    requires Sane(n)
    ensures SaneAs(OnAppend(n, req).0, n.id)
  {
    if req.term >= n.term && PrevMatches(n, req) {
      MergeKeepsPrefix(n.log, req.prevIndex + 1, req.entries);
      var m := TakeEntries(Heard(n, req.term, req.leader), req);
      assert SaneAs(m, n.id);
      if req.commit > m.commit {
        ApplySane(m.(commit := Min(req.commit, LastIndex(m.log))));
      }
    }
  }

  lemma SnapshotSane(n: Node, req: SnapshotRequest, prefix: Log)
    requires Sane(n) && |prefix| == req.lastIndex + 1
    ensures SaneAs(OnSnapshot(n, req, prefix).0, n.id)
  {
    if req.term >= n.term && req.lastIndex > n.snap {
      assert OnSnapshot(n, req, prefix).0 == Installed(Heard(n, req.term, req.leader), req, prefix);
    }
  }

  lemma HandledSane(n: Node, pkt: Packet)
    requires Sane(n) && (pkt.SnapReq? ==> |pkt.prefix| == pkt.snapshot.lastIndex + 1)
    ensures SaneAs(Handled(n, pkt), n.id)
  {
    match pkt
    case VoteRsp(from, _, asked, resp) => VoteResponseSane(n, from, asked, resp);
    case AppendReq(_, _, req) => AppendSane(n, req);
    case ProbeReq(_, _, req) => AppendSane(n, req);
    case AppendRsp(_, from, _, req, resp) => AppendResponseSane(n, from, req, resp);
    case SnapReq(_, _, req, prefix) => SnapshotSane(n, req, prefix);
    case SnapRsp(_, from, _, req, resp) => SnapResponseSane(n, from, req, resp);
    case VoteReq(_, req) => VoteRequestSane(n, req);
    case ProbeRsp(_, _, _, _) =>
  }

  /** One node changed, and stayed sane. */
  lemma OneSane(c: Cluster, c': Cluster, v: Id)
    requires AllSane(c) && v in c.nodes && v in c'.nodes && c'.nodes == c.nodes[v := c'.nodes[v]] && SaneAs(c'.nodes[v], v)
    ensures AllSane(c')
  {
  }

  lemma TimeoutSane(c: Cluster, v: Id)
    requires AllSane(c) && v in c.nodes
    ensures AllSane(DoTimeout(c, v))
  {
    TimeoutNodes(c, v);
    TallySane(Campaigner(c.nodes[v]));
    OneSane(c, DoTimeout(c, v), v);
  }

  lemma PutSane(c: Cluster, v: Id, cmd: Command)
    requires AllSane(c) && v in c.nodes
    ensures AllSane(DoPut(c, v, cmd))
  {
    var n := c.nodes[v];
    PutNodes(c, v, cmd);
    FinishSane(LeaderAppend(n, Entry(n.term, cmd, None)));
    OneSane(c, DoPut(c, v, cmd), v);
  }

  lemma OtherSane(c: Cluster, s: Step)
    requires AllSane(c) && Able(c, s) && !s.Deliver? && !s.Timeout? && !s.ClientPut?
    ensures AllSane(After(c, s))
  {
    if s.Tick? {
      ApplySane(c.nodes[s.node]);
      OneSane(c, After(c, s), s.node);
    } else if s.CallAppend? || s.Crash? {
      OneSane(c, After(c, s), s.node);
    }
  }

  lemma StepSane(c: Cluster, s: Step)
    requires AllSane(c) && Able(c, s)
    ensures AllSane(After(c, s))
  {
    if s.Deliver? {
      DeliverIsHandled(c, s.packet);
      HandledSane(c.nodes[s.packet.to], s.packet);
      OneSane(c, After(c, s), s.packet.to);
    } else if s.Timeout? {
      TimeoutSane(c, s.node);
    } else if s.ClientPut? {
      PutSane(c, s.node, s.command);
    } else {
      OtherSane(c, s);
    }
  }

  lemma InitialSane(c: Cluster)
    requires Initial(c)
    ensures AllSane(c)
  {
    var cfg: Config :| cfg.Keys == c.members && Booted(c, cfg);
    forall v | v in c.nodes
      ensures Sane(c.nodes[v]) && c.nodes[v].id == v
    {
      assert c.nodes[v] == Boot(v, c.nodes[v].threshold, false, cfg);
    }
  }

  lemma {:induction false} SaneHolds(cs: seq<Cluster>, ss: seq<Step>, i: nat)
    requires LooseRun(cs, ss) && i < |cs|
    ensures AllSane(cs[i])
    decreases i
  {
    if i == 0 {
      InitialSane(cs[0]);
    } else {
      SaneHolds(cs, ss, i - 1);
      assert LooseStepAt(cs, ss, i - 1);
      StepSane(cs[i - 1], ss[i - 1]);
    }
  }

  /** The one-call condition only takes runs away. */
  lemma RunIsLoose(cs: seq<Cluster>, ss: seq<Step>)
    requires Run(cs, ss)
    ensures LooseRun(cs, ss)
  {
    forall i: nat
      ensures LooseStepAt(cs, ss, i)
    {
      assert StepAt(cs, ss, i);
    }
  }

  // ---------------------------------------------------------------- longer runs

  lemma LooseLonger(cs: seq<Cluster>, ss: seq<Step>, s: Step)
    requires LooseRun(cs, ss) && AllSane(cs[|ss|]) && Able(cs[|ss|], s)
    ensures LooseRun(cs + [After(cs[|ss|], s)], ss + [s])
  {
    var cs', ss' := cs + [After(cs[|ss|], s)], ss + [s];
    forall i: nat
      ensures LooseStepAt(cs', ss', i)
    {
      if i < |ss| {
        LooseStepStays(cs, ss, cs', ss', i);
      }
    }
  }

  lemma LooseStepStays(cs: seq<Cluster>, ss: seq<Step>, cs': seq<Cluster>, ss': seq<Step>, i: nat)
    requires LooseRun(cs, ss) && cs <= cs' && ss <= ss' && |cs'| == |ss'| + 1 && i < |ss|
    ensures LooseStepAt(cs', ss', i)
  {
    assert LooseStepAt(cs, ss, i);
  }

  lemma RunLonger(cs: seq<Cluster>, ss: seq<Step>, s: Step)
    requires Run(cs, ss) && AllSane(cs[|ss|]) && Enabled(cs[|ss|], s)
    ensures Run(cs + [After(cs[|ss|], s)], ss + [s])
  {
    var cs', ss' := cs + [After(cs[|ss|], s)], ss + [s];
    forall i: nat
      ensures StepAt(cs', ss', i)
    {
      if i < |ss| {
        RunStepStays(cs, ss, cs', ss', i);
      }
    }
  }

  lemma RunStepStays(cs: seq<Cluster>, ss: seq<Step>, cs': seq<Cluster>, ss': seq<Step>, i: nat)
    requires Run(cs, ss) && cs <= cs' && ss <= ss' && |cs'| == |ss'| + 1 && i < |ss|
    ensures StepAt(cs', ss', i)
  {
    assert StepAt(cs, ss, i);
  }
}
