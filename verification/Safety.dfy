/** The theorems: what holds in every run of the cluster, whatever is lost, delayed, repeated or
    reordered, whoever crashes, and whichever entries are compacted away. */
module Safety {
  import opened RaftTypes
  import opened History
  import opened NodeSpec
  import opened Protocol
  import opened Effects
  import opened Cluster
  import opened ClusterInv
  import opened LeaderSteps
  import opened ElectionSteps
  import opened ReplicationSteps
  import opened SnapshotSteps
  import opened Discipline
  import opened DisciplineSteps
  import opened CallSteps

  // ---------------------------------------------------------------- runs

  /** A node can take any step; `AllSane` always holds, see `InvariantHolds`. */
  ghost predicate StepTo(c: Cluster, s: Step, c': Cluster) {
    Enabled(c, s) && (AllSane(c) ==> c' == After(c, s))
  }

  ghost predicate StepAt(cs: seq<Cluster>, ss: seq<Step>, i: nat)
    requires |cs| == |ss| + 1
  {
    i < |ss| ==> StepTo(cs[i], ss[i], cs[i + 1])
  }

  ghost predicate Run(cs: seq<Cluster>, ss: seq<Step>) {
    && |cs| == |ss| + 1
    && Initial(cs[0])
    && forall i: nat {:trigger StepAt(cs, ss, i)} :: StepAt(cs, ss, i)
  }

  ghost predicate Invariant(c: Cluster) { Base(c) && Disc(c) }

  // ---------------------------------------------------------------- the invariant holds

  lemma InitialPieces(s: State)
    requires s.ns.Keys == s.members && s.h == History(map[], map[], {}, {})
    requires forall v {:trigger s.ns[v]} :: v in s.ns ==> s.ns[v] == Peer(0, "", [DUMMY])
    ensures Inv(s)
  {
    forall v | v in s.ns
      ensures LogOk(s.ns, s.h.reigns, v) && VoteRecorded(s.ns, s.h.ballots, v) && NodeKept(s.ns, s.h.reigns, s.h.acks, v)
    {
      assert s.ns[v] == Peer(0, "", [DUMMY]);
    }
    assert Pieces(s);
  }

  lemma InitialNodes(c: Cluster)
    requires Initial(c)
    ensures NodesOk(c)
    ensures forall v {:trigger c.nodes[v]} :: v in c.nodes ==> c.nodes[v].role == Follower && PeerOf(c.nodes[v]) == Peer(0, "", [DUMMY])
  {
    var cfg: Config :| cfg.Keys == c.members && Booted(c, cfg);
    forall v | v in c.nodes
      ensures NodeOk(c.h, c.members, c.compacting, v, c.nodes[v])
      ensures c.nodes[v].role == Follower && PeerOf(c.nodes[v]) == Peer(0, "", [DUMMY])
    {
      assert c.nodes[v] == Boot(v, c.nodes[v].threshold, false, cfg);
    }
  }

  lemma InitialInvariant(c: Cluster)
    requires Initial(c)
    ensures Invariant(c)
  {
    InitialNodes(c);
    InitialPieces(ViewOf(c));
  }

  lemma InvariantIsSane(c: Cluster)
    requires Base(c)
    ensures AllSane(c)
  {
    forall v | v in c.nodes
      ensures Sane(c.nodes[v]) && c.nodes[v].id == v
    {
      BaseNode(c, v);
    }
  }

  /** Deliveries. */
  lemma DeliverInvariant(c: Cluster, pkt: Packet)
    requires Invariant(c) && Enabled(c, Deliver(pkt)) && |c.nodes[pkt.to].log| > 0
    ensures Invariant(DoDeliver(c, pkt)) && Progress(c, DoDeliver(c, pkt))
  {
    match pkt
    case VoteReq(_, _) => VoteReqBase(c, pkt); VoteReqDisc(c, pkt);
    case VoteRsp(_, _, _, _) => VoteRspBase(c, pkt); VoteRspDisc(c, pkt);
    case AppendReq(_, _, _) => AppendReqBase(c, pkt); AppendReqDisc(c, pkt);
    case AppendRsp(_, _, _, _, _) => DeliverAppendRsp(c, pkt);
    case SnapReq(_, _, _, _) =>
      SnapMayInstall(c, pkt);
      SnapReqBase(c, pkt);
      SnapReqDisc(c, DoSnapReq(c, pkt), pkt);
    case SnapRsp(_, _, _, _, _) => DeliverSnapRsp(c, pkt);
    case ProbeReq(_, _, _) => ProbeReqBase(c, pkt); ProbeReqDisc(c, pkt);
    case ProbeRsp(_, _, _, _) => ProbeRspBase(c, pkt); ProbeRspDisc(c, pkt);
  }

  lemma DeliverAppendRsp(c: Cluster, pkt: Packet)
    requires Invariant(c) && pkt.AppendRsp? && Enabled(c, Deliver(pkt)) && |c.nodes[pkt.to].log| > 0
    ensures Invariant(DoAppendRsp(c, pkt)) && Progress(c, DoAppendRsp(c, pkt))
  {
    if Active(c.nodes, pkt.to, pkt.append.term) && pkt.appendResp.success {
      AckArrived(c, pkt);
    }
    AppendRspBase(c, pkt);
    AppendRspDisc(c, pkt);
  }

  lemma DeliverSnapRsp(c: Cluster, pkt: Packet)
    requires Invariant(c) && pkt.SnapRsp? && Enabled(c, Deliver(pkt)) && |c.nodes[pkt.to].log| > 0
    ensures Invariant(DoSnapRsp(c, pkt)) && Progress(c, DoSnapRsp(c, pkt))
  {
    if pkt.snapshotResp.term <= pkt.snapshot.term {
      SnapAckArrived(c, pkt);
    }
    SnapRspBase(c, pkt);
    SnapRspDisc(c, pkt);
  }

  lemma AsideInvariant(c: Cluster, c': Cluster)
    requires Invariant(c) && c' == c.(issued := c'.issued, queries := c'.queries) && c.issued <= c'.issued
    ensures Invariant(c') && Progress(c, c')
  {
    AsideBase(c, c');
    AsideDisc(c, c');
  }

  /** Reads never touch nodes or logs. */
  lemma ReadStepInvariant(c: Cluster, s: Step)
    requires Invariant(c) && AllSane(c) && Enabled(c, s) && (s.BeginRead? || s.CheckRead? || s.CaptureRead? || s.Probe?)
    ensures Invariant(After(c, s)) && Progress(c, After(c, s))
  {
    if s.Probe? {
      ProbeBase(c, s.read, s.peer);
      ProbeDisc(c, s.read, s.peer);
    } else {
      AsideInvariant(c, After(c, s));
    }
  }

  lemma CallInvariant(c: Cluster, s: Step)
    requires Invariant(c) && AllSane(c) && Enabled(c, s) && (s.CallAppend? || s.CallSnapshot? || s.DropCall?)
    ensures Invariant(After(c, s)) && Progress(c, After(c, s))
  {
    match s
    case CallAppend(v, p) => CallAppendBase(c, v, p); CallAppendDisc(c, v, p);
    case CallSnapshot(v, p) => CallSnapshotBase(c, v, p); CallSnapshotDisc(c, v, p);
    case DropCall(id) => AsideBase(c, After(c, s)); DropDisc(c, id);
  }

  lemma LocalInvariant(c: Cluster, s: Step)
    requires Invariant(c) && AllSane(c) && Enabled(c, s) && (s.Timeout? || s.Tick? || s.Crash? || s.ClientPut?)
    ensures Invariant(After(c, s)) && Progress(c, After(c, s))
  {
    match s
    case Timeout(v) => TimeoutBase(c, v); TimeoutDisc(c, v);
    case Tick(v) => TickBase(c, After(c, s), v); TickDisc(c, v);
    case Crash(v) => CrashBase(c, v); CrashDisc(c, v);
    case ClientPut(v, cmd) => PutBase(c, v, cmd); PutDisc(c, v, cmd);
  }

  lemma StepInvariant(c: Cluster, s: Step)
    requires Invariant(c) && AllSane(c) && Enabled(c, s)
    ensures Invariant(After(c, s)) && Progress(c, After(c, s))
  {
    if s.Timeout? || s.Tick? || s.Crash? || s.ClientPut? {
      LocalInvariant(c, s);
    } else if s.CallAppend? || s.CallSnapshot? || s.DropCall? {
      CallInvariant(c, s);
    } else if s.Deliver? {
      DeliverInvariant(c, s.packet);
    } else {
      ReadStepInvariant(c, s);
    }
  }

  /** The invariant holds in every state of every run. */
  lemma {:induction false} InvariantHolds(cs: seq<Cluster>, ss: seq<Step>, i: nat)
    requires Run(cs, ss) && i < |cs|
    ensures Invariant(cs[i]) && AllSane(cs[i])
    decreases i
  {
    if i == 0 {
      InitialInvariant(cs[0]);
    } else {
      InvariantHolds(cs, ss, i - 1);
      assert StepAt(cs, ss, i - 1);
      StepInvariant(cs[i - 1], ss[i - 1]);
    }
    InvariantIsSane(cs[i]);
  }

  // ---------------------------------------------------------------- the past stays

  /** What a later state keeps of an earlier one. */
  ghost predicate Later(c: Cluster, c': Cluster) {
    && c'.members == c.members && c'.compacting == c.compacting
    && HistoryGrows(c.h, c'.h)
    && c.applied <= c'.applied
    && forall v {:trigger NotBack(c, c', v)} :: v in c.nodes ==> NotBack(c, c', v)
  }

  ghost predicate NotBack(c: Cluster, c': Cluster, v: Id)
    requires v in c.nodes
  {
    v in c'.nodes && c.nodes[v].term <= c'.nodes[v].term && c.nodes[v].snap <= c'.nodes[v].snap
  }

  lemma LaterStep(a: Cluster, b: Cluster, c: Cluster)
    requires Later(a, b) && Progress(b, c)
    ensures Later(a, c)
  {
    assert Within(c, true);
    GrowsTrans(a.h.reigns, b.h.reigns, c.h.reigns);
    forall v | v in a.nodes
      ensures NotBack(a, c, v)
    {
      assert NotBack(a, b, v) && EvolvesAt(b.nodes, c.nodes, v);
    }
  }

  lemma RunProgress(cs: seq<Cluster>, ss: seq<Step>, i: nat)
    requires Run(cs, ss) && i < |ss|
    ensures Progress(cs[i], cs[i + 1])
  {
    InvariantHolds(cs, ss, i);
    assert StepAt(cs, ss, i);
    StepInvariant(cs[i], ss[i]);
  }

  lemma {:induction false} PastStays(cs: seq<Cluster>, ss: seq<Step>, i: nat, j: nat)
    requires Run(cs, ss) && i <= j < |cs|
    ensures Later(cs[i], cs[j]) && Base(cs[i]) && Base(cs[j])
    decreases j
  {
    InvariantHolds(cs, ss, i);
    InvariantHolds(cs, ss, j);
    if i == j {
      GrowsRefl(cs[i].h.reigns);
    } else {
      PastStays(cs, ss, i, j - 1);
      RunProgress(cs, ss, j - 1);
      LaterStep(cs[i], cs[j - 1], cs[j]);
    }
  }
}
