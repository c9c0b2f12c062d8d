/** ReadIndex: a read that returns has seen everything committed before it was called. */
module Reads {
  import opened RaftTypes
  import opened Quorums
  import opened Logs
  import opened History
  import opened NodeSpec
  import opened Protocol
  import opened Effects
  import opened Cluster
  import opened ClusterInv
  import opened LeaderSteps
  import opened ElectionSteps
  import opened DisciplineSteps
  import opened Safety
  import opened Theorems
  import opened Anchors

  // ---------------------------------------------------------------- the invariant of reads

  /** No leader of a later term that existed when the read began was elected with `p`'s vote. */
  ghost predicate Unsupported(before: Reigns, t: nat, p: Id) {
    forall u {:trigger before[u]} :: u in before && u > t ==> p !in before[u].quorum
  }

  ghost predicate CommittedOwn(rs: Reigns, t: nat) { t in rs && rs[t].base <= rs[t].commit }

  ghost predicate CapturedOk(rs: Reigns, members: set<Id>, q: Read) {
    && q.term in rs
    && (q.term in q.before ==> q.before[q.term].commit <= q.index)
    && rs[q.term].leader == q.node
    && (q.checkTerm == q.term ==> rs[q.term].base <= q.index)
    && (rs[q.term].base <= q.index ==> q.index <= rs[q.term].commit)
    && q.acks <= members
    && forall p {:trigger Unsupported(q.before, q.term, p)} :: p in q.acks + {q.node} ==> Unsupported(q.before, q.term, p)
  }

  ghost predicate ReadOk(c: Cluster, r: nat)
    requires r in c.queries
  {
    var q := c.queries[r];
    && r < c.issued && q.node in c.members
    && Grows(q.before, c.h.reigns)
    && (q.phase != Waiting ==> CommittedOwn(c.h.reigns, q.checkTerm))
    && (q.phase != Captured ==> q.acks == {})
    && (q.phase == Captured ==> CapturedOk(c.h.reigns, c.members, q))
  }

  /** Probes are sent after the capture, so whoever answers one was in no later term before it. */
  ghost predicate ProbeOk(c: Cluster, pkt: Packet) {
    match pkt
    case ProbeReq(r, to, req) =>
      r < c.issued && (r in c.queries ==> c.queries[r].phase == Captured && req.term == c.queries[r].term)
    case ProbeRsp(r, from, _, resp) =>
      && r < c.issued
      && (r in c.queries ==> c.queries[r].phase == Captured)
      && (r in c.queries && resp.term <= c.queries[r].term ==>
            from in c.members && Unsupported(c.queries[r].before, c.queries[r].term, from))
    case _ => true
  }

  ghost predicate ReadsOk(c: Cluster) {
    && (forall r {:trigger ReadOk(c, r)} :: r in c.queries ==> ReadOk(c, r))
    && (forall pkt {:trigger ProbeOk(c, pkt)} :: pkt in c.net ==> ProbeOk(c, pkt))
  }

  // ---------------------------------------------------------------- steps that do not concern reads

  ghost predicate KeptRead(c: Cluster, c': Cluster, r: nat)
    requires r in c'.queries
  {
    r in c.queries && c'.queries[r] == c.queries[r]
  }

  ghost predicate NoNewProbe(c: Cluster, pkt: Packet) {
    pkt in c.net || !(pkt.ProbeReq? || pkt.ProbeRsp?)
  }

  lemma ReadGrows(c: Cluster, c': Cluster, r: nat)
    requires Progress(c, c') && c.issued <= c'.issued && r in c.queries && r in c'.queries
    requires c'.queries[r] == c.queries[r] && ReadOk(c, r)
    ensures ReadOk(c', r)
  {
    var q := c.queries[r];
    assert Within(c', true);
    GrowsTrans(q.before, c.h.reigns, c'.h.reigns);
    assert q.checkTerm in c.h.reigns ==> ReignGrows(c.h.reigns, c'.h.reigns, q.checkTerm);
    assert q.term in c.h.reigns ==> ReignGrows(c.h.reigns, c'.h.reigns, q.term);
  }

  /** Reads only disappear and no probe is sent. */
  lemma ReadsKept(c: Cluster, c': Cluster)
    requires Progress(c, c') && ReadsOk(c) && c.issued <= c'.issued && c'.members == c.members
    requires forall r {:trigger KeptRead(c, c', r)} :: r in c'.queries ==> KeptRead(c, c', r)
    requires forall pkt {:trigger NoNewProbe(c, pkt)} :: pkt in c'.net ==> NoNewProbe(c, pkt)
    ensures ReadsOk(c')
  {
    forall r | r in c'.queries
      ensures ReadOk(c', r)
    {
      assert KeptRead(c, c', r) && ReadOk(c, r);
      ReadGrows(c, c', r);
    }
    forall pkt | pkt in c'.net
      ensures ProbeOk(c', pkt)
    {
      assert NoNewProbe(c, pkt);
      assert pkt in c.net ==> ProbeOk(c, pkt);
      assert (pkt.ProbeReq? || pkt.ProbeRsp?) && pkt.read in c'.queries ==> KeptRead(c, c', pkt.read);
    }
  }

  // ---------------------------------------------------------------- the steps of a read

  lemma BeginReads(c: Cluster, v: Id)
    requires Base(c) && ReadsOk(c) && v in c.nodes && Progress(c, DoBeginRead(c, v))
    ensures ReadsOk(DoBeginRead(c, v))
  {
    var c' := DoBeginRead(c, v);
    assert Within(c, true);
    GrowsRefl(c.h.reigns);
    forall r | r in c'.queries
      ensures ReadOk(c', r)
    {
      if r != c.issued {
        assert ReadOk(c, r);
      }
    }
    forall pkt | pkt in c'.net
      ensures ProbeOk(c', pkt)
    {
      assert ProbeOk(c, pkt);
    }
  }

  /** A leader that has committed an entry of its term has committed its own first entry. */
  lemma CheckedLeader(c: Cluster, v: Id)
    requires Base(c) && v in c.nodes && c.nodes[v].role == Leader && |c.nodes[v].log| > 0 && CommittedInTerm(c.nodes[v])
    ensures CommittedOwn(c.h.reigns, c.nodes[v].term)
  {
    var n, rs := c.nodes[v], c.h.reigns;
    LeaderOfTerm(c, v);
    BaseNode(c, v);
    assert Inside(ViewOf(c), true);
    assert ReignOk(rs, n.term) && n.log[n.commit].term == n.term;
    assert n.log[0].term < n.term;
    if n.commit > 0 {
      var t: nat :| t <= n.term && Backs(rs, t, n.log, n.commit);
      assert Backs(rs, t, n.log, n.commit) && ReignOk(rs, t);
      assert rs[t].log[n.commit].term <= t;
    }
  }

  lemma CheckReads(c: Cluster, r: nat)
    requires Base(c) && ReadsOk(c) && Enabled(c, CheckRead(r)) && Progress(c, DoCheckRead(c, r))
    ensures ReadsOk(DoCheckRead(c, r))
  {
    var c' := DoCheckRead(c, r);
    assert ReadOk(c, r);
    CheckedLeader(c, c.queries[r].node);
    forall r' | r' in c'.queries
      ensures ReadOk(c', r')
    {
      assert ReadOk(c, r');
    }
    forall pkt | pkt in c'.net
      ensures ProbeOk(c', pkt)
    {
      assert ProbeOk(c, pkt);
    }
  }

  /** Whoever is in term `t` or before voted for no leader of a later term. */
  lemma VotersAreLater(c: Cluster, before: Reigns, t: nat, p: Id)
    requires Base(c) && p in c.nodes && c.nodes[p].term <= t && Grows(before, c.h.reigns)
    ensures Unsupported(before, t, p)
  {
    assert Within(c, true);
    BaseNode(c, p);
    assert Inside(ViewOf(c), true);
    var rs := c.h.reigns;
    forall u | u in before && u > t
      ensures p !in before[u].quorum
    {
      assert ReignGrows(before, rs, u) && ReignOk(rs, u) && ElectedBy(rs, c.h.ballots, c.members, u);
      assert p in rs[u].quorum ==> Supports(rs, c.h.ballots, u, p) && BallotOk(ViewOf(c).ns, rs, c.h.ballots, u, p);
    }
  }

  /** A leader's commit index, once among its own entries, is the one its reign records. */
  lemma OwnCommit(c: Cluster, v: Id)
    requires Base(c) && v in c.nodes && c.nodes[v].role == Leader
    ensures c.nodes[v].term in c.h.reigns
    ensures c.h.reigns[c.nodes[v].term].base <= c.nodes[v].commit ==> c.nodes[v].commit <= c.h.reigns[c.nodes[v].term].commit
  {
    var n, rs := c.nodes[v], c.h.reigns;
    LeaderOfTerm(c, v);
    BaseNode(c, v);
    assert Inside(ViewOf(c), true);
    if rs[n.term].base <= n.commit {
      assert ReignOk(rs, n.term);
      var t: nat :| t <= n.term && Backs(rs, t, n.log, n.commit);
      assert Backs(rs, t, n.log, n.commit) && ReignOk(rs, t);
      LeaderHasCommitted(ViewOf(c), t, n.term);
      assert rs[t].log[n.commit].term <= t && rs[n.term].log[n.commit].term == n.term;
    }
  }

  lemma CaptureReads(c: Cluster, r: nat)
    requires Base(c) && ReadsOk(c) && Enabled(c, CaptureRead(r)) && Progress(c, DoCaptureRead(c, r))
    ensures ReadsOk(DoCaptureRead(c, r))
  {
    var c' := DoCaptureRead(c, r);
    var q := c.queries[r];
    var n := c.nodes[q.node];
    assert ReadOk(c, r);
    BaseNode(c, q.node);
    VotersAreLater(c, q.before, n.term, q.node);
    OwnCommit(c, q.node);
    assert n.term in q.before ==> ReignGrows(q.before, c.h.reigns, n.term);
    forall r' | r' in c'.queries
      ensures ReadOk(c', r')
    {
      assert ReadOk(c, r');
    }
    forall pkt | pkt in c'.net
      ensures ProbeOk(c', pkt)
    {
      assert ProbeOk(c, pkt);
    }
  }

  lemma ProbeReads(c: Cluster, r: nat, p: Id)
    requires ReadsOk(c) && Enabled(c, Probe(r, p)) && |c.nodes[c.queries[r].node].log| > 0
    requires Progress(c, DoProbe(c, r, p))
    ensures ReadsOk(DoProbe(c, r, p))
  {
    var c' := DoProbe(c, r, p);
    assert ReadOk(c, r);
    forall r' | r' in c'.queries
      ensures ReadOk(c', r')
    {
      assert ReadOk(c, r');
    }
    forall pkt | pkt in c'.net
      ensures ProbeOk(c', pkt)
    {
      assert pkt in c.net ==> ProbeOk(c, pkt);
    }
  }

  lemma ProbeReqReads(c: Cluster, c': Cluster, pkt: Packet)
    requires Base(c) && Base(c') && ReadsOk(c) && Enabled(c, Deliver(pkt)) && pkt.ProbeReq? && |c.nodes[pkt.to].log| > 0
    requires c' == DoProbeReq(c, pkt) && Progress(c, c')
    ensures ReadsOk(c')
  {
    OnAppendShape(c.nodes[pkt.to], pkt.append);
    assert ProbeOk(c, pkt);
    BaseNode(c, pkt.to);
    forall r | r in c'.queries
      ensures ReadOk(c', r)
    {
      assert ReadOk(c, r);
      ReadGrows(c, c', r);
    }
    if pkt.read in c.queries && c.nodes[pkt.to].term <= pkt.append.term {
      assert ReadOk(c, pkt.read);
      VotersAreLater(c, c.queries[pkt.read].before, pkt.append.term, pkt.to);
    }
    forall q | q in c'.net
      ensures ProbeOk(c', q)
    {
      assert q in c.net ==> ProbeOk(c, q);
    }
  }

  lemma ProbeRspReads(c: Cluster, c': Cluster, pkt: Packet)
    requires ReadsOk(c) && Enabled(c, Deliver(pkt)) && pkt.ProbeRsp? && c' == DoProbeRsp(c, pkt) && Progress(c, c')
    ensures ReadsOk(c')
  {
    assert ProbeOk(c, pkt);
    forall r | r in c'.queries
      ensures ReadOk(c', r)
    {
      assert ReadOk(c, r);
    }
    forall q | q in c'.net
      ensures ProbeOk(c', q)
    {
      assert ProbeOk(c, q);
    }
  }

  // ---------------------------------------------------------------- every step

  ghost predicate ReadStep(s: Step) {
    s.BeginRead? || s.CheckRead? || s.CaptureRead? || s.Probe? || (s.Deliver? && (s.packet.ProbeReq? || s.packet.ProbeRsp?))
  }

  /** The other steps leave reads alone, except that a crash forgets the node's own. */
  ghost predicate Unread(c: Cluster, c': Cluster) {
    && c'.issued >= c.issued
    && (forall r {:trigger KeptRead(c, c', r)} :: r in c'.queries ==> KeptRead(c, c', r))
    && (forall pkt {:trigger NoNewProbe(c, pkt)} :: pkt in c'.net ==> NoNewProbe(c, pkt))
  }

  lemma TimeoutUnread(c: Cluster, v: Id)
    requires v in c.nodes && |c.nodes[v].log| > 0
    ensures Unread(c, DoTimeout(c, v))
  {
  }

  lemma DeliverUnread(c: Cluster, pkt: Packet)
    requires pkt in c.net && pkt.to in c.nodes && |c.nodes[pkt.to].log| > 0 && !pkt.ProbeReq? && !pkt.ProbeRsp?
    requires pkt.SnapReq? ==> |pkt.prefix| == pkt.snapshot.lastIndex + 1
    ensures Unread(c, DoDeliver(c, pkt))
  {
  }

  lemma CallUnread(c: Cluster, v: Id, p: Id)
    requires v in c.nodes && Sane(c.nodes[v])
    ensures Unread(c, DoCallAppend(c, v, p)) && Unread(c, DoCallSnapshot(c, v, p))
  {
  }

  lemma PutUnread(c: Cluster, v: Id, cmd: Command)
    requires v in c.nodes && |c.nodes[v].log| > 0
    ensures Unread(c, DoPut(c, v, cmd))
  {
  }

  lemma CrashUnread(c: Cluster, v: Id)
    requires v in c.nodes && |c.nodes[v].log| > 0
    ensures Unread(c, DoCrash(c, v))
  {
  }

  lemma StepUnread(c: Cluster, s: Step)
    requires AllSane(c) && Enabled(c, s) && !ReadStep(s)
    ensures Unread(c, After(c, s))
  {
    match s
    case Timeout(v) => TimeoutUnread(c, v);
    case Deliver(pkt) => DeliverUnread(c, pkt);
    case CallAppend(v, p) => CallUnread(c, v, p);
    case CallSnapshot(v, p) => CallUnread(c, v, p);
    case Crash(v) => CrashUnread(c, v);
    case ClientPut(v, cmd) => PutUnread(c, v, cmd);
    case Tick(v) =>
    case DropCall(id) =>
  }

  lemma LookReads(c: Cluster, s: Step)
    requires Invariant(c) && AllSane(c) && Enabled(c, s) && ReadsOk(c) && (s.BeginRead? || s.CheckRead? || s.CaptureRead?)
    requires Progress(c, After(c, s))
    ensures ReadsOk(After(c, s))
  {
    if s.BeginRead? {
      BeginReads(c, s.node);
    } else if s.CheckRead? {
      CheckReads(c, s.read);
    } else {
      CaptureReads(c, s.read);
    }
  }

  lemma ReadStepReads(c: Cluster, s: Step)
    requires Invariant(c) && AllSane(c) && Enabled(c, s) && ReadsOk(c) && ReadStep(s)
    requires Progress(c, After(c, s)) && Base(After(c, s))
    ensures ReadsOk(After(c, s))
  {
    if s.Probe? {
      ProbeReads(c, s.read, s.peer);
    } else if s.Deliver? {
      if s.packet.ProbeReq? {
        ProbeReqReads(c, After(c, s), s.packet);
      } else {
        ProbeRspReads(c, After(c, s), s.packet);
      }
    } else {
      LookReads(c, s);
    }
  }

  lemma OtherStepReads(c: Cluster, c': Cluster)
    requires Progress(c, c') && ReadsOk(c) && Unread(c, c')
    ensures ReadsOk(c')
  {
    assert Within(c', true);
    ReadsKept(c, c');
  }

  lemma StepReads(c: Cluster, s: Step)
    requires Invariant(c) && AllSane(c) && Enabled(c, s) && ReadsOk(c)
    ensures ReadsOk(After(c, s))
  {
    StepInvariant(c, s);
    if ReadStep(s) {
      ReadStepReads(c, s);
    } else {
      StepUnread(c, s);
      OtherStepReads(c, After(c, s));
    }
  }

  lemma RunReads(cs: seq<Cluster>, ss: seq<Step>, i: nat)
    requires Run(cs, ss) && i < |ss| && ReadsOk(cs[i])
    ensures ReadsOk(cs[i + 1])
  {
    InvariantHolds(cs, ss, i);
    assert StepAt(cs, ss, i);
    StepReads(cs[i], ss[i]);
  }

  lemma {:induction false} ReadsHold(cs: seq<Cluster>, ss: seq<Step>, i: nat)
    requires Run(cs, ss) && i < |cs|
    ensures ReadsOk(cs[i])
    decreases i
  {
    if i > 0 {
      ReadsHold(cs, ss, i - 1);
      RunReads(cs, ss, i - 1);
    }
  }

  // ---------------------------------------------------------------- the read in its run

  /** Nothing rewrites where a read was made or what it found when it began. */
  ghost predicate SameRead(c: Cluster, c': Cluster, r: nat)
    requires r in c'.queries
  {
    r < c.issued ==> r in c.queries && c'.queries[r].node == c.queries[r].node && c'.queries[r].before == c.queries[r].before
  }

  ghost predicate SameReads(c: Cluster, c': Cluster) {
    && c.issued <= c'.issued
    && forall r {:trigger SameRead(c, c', r)} :: r in c'.queries ==> SameRead(c, c', r)
  }

  lemma UnreadKeeps(c: Cluster, c': Cluster)
    requires Unread(c, c')
    ensures SameReads(c, c')
  {
    forall r | r in c'.queries
      ensures SameRead(c, c', r)
    {
      assert KeptRead(c, c', r);
    }
  }

  lemma BeginKeeps(c: Cluster, v: Id)
    ensures SameReads(c, DoBeginRead(c, v))
  {
  }

  /** A step of a read that has begun. */
  lemma PhaseKeeps(c: Cluster, c': Cluster, r: nat)
    requires r in c.queries && r in c'.queries && c'.issued == c.issued && c'.queries == c.queries[r := c'.queries[r]]
    requires c'.queries[r].node == c.queries[r].node && c'.queries[r].before == c.queries[r].before
    ensures SameReads(c, c')
  {
  }

  lemma CheckKeeps(c: Cluster, r: nat)
    requires r in c.queries && c.queries[r].node in c.nodes
    ensures SameReads(c, DoCheckRead(c, r)) && SameReads(c, DoCaptureRead(c, r))
  {
    PhaseKeeps(c, DoCheckRead(c, r), r);
    PhaseKeeps(c, DoCaptureRead(c, r), r);
  }

  lemma LookKeeps(c: Cluster, s: Step)
    requires AllSane(c) && Enabled(c, s) && (s.BeginRead? || s.CheckRead? || s.CaptureRead? || s.Probe?)
    ensures SameReads(c, After(c, s))
  {
    if s.BeginRead? {
      BeginKeeps(c, s.node);
    } else if s.Probe? {
      PhaseKeeps(c, DoProbe(c, s.read, s.peer), s.read);
    } else {
      CheckKeeps(c, s.read);
    }
  }

  lemma ProbeKeeps(c: Cluster, pkt: Packet)
    requires pkt.to in c.nodes && |c.nodes[pkt.to].log| > 0
    ensures pkt.ProbeReq? ==> SameReads(c, DoProbeReq(c, pkt))
    ensures pkt.ProbeRsp? ==> SameReads(c, DoProbeRsp(c, pkt))
  {
  }

  lemma ReadStepKeeps(c: Cluster, s: Step)
    requires AllSane(c) && Enabled(c, s) && ReadStep(s)
    ensures SameReads(c, After(c, s))
  {
    if s.Deliver? {
      ProbeKeeps(c, s.packet);
    } else {
      LookKeeps(c, s);
    }
  }

  lemma StepKeepsReads(c: Cluster, s: Step)
    requires AllSane(c) && Enabled(c, s)
    ensures SameReads(c, After(c, s))
  {
    if ReadStep(s) {
      ReadStepKeeps(c, s);
    } else {
      StepUnread(c, s);
      UnreadKeeps(c, After(c, s));
    }
  }

  lemma RunKeepsReads(cs: seq<Cluster>, ss: seq<Step>, i: nat)
    requires Run(cs, ss) && i < |ss|
    ensures SameReads(cs[i], cs[i + 1])
  {
    InvariantHolds(cs, ss, i);
    assert StepAt(cs, ss, i);
    StepKeepsReads(cs[i], ss[i]);
  }

  lemma ReadBegins(cs: seq<Cluster>, ss: seq<Step>, i: nat)
    requires Run(cs, ss) && i < |ss| && ss[i].BeginRead?
    ensures cs[i + 1].issued == cs[i].issued + 1
    ensures cs[i].issued in cs[i + 1].queries ==>
              cs[i + 1].queries[cs[i].issued].node == ss[i].node && cs[i + 1].queries[cs[i].issued].before == cs[i].h.reigns
  {
    InvariantHolds(cs, ss, i);
    assert StepAt(cs, ss, i);
  }

  lemma {:induction false} ReadIsKept(cs: seq<Cluster>, ss: seq<Step>, i: nat, j: nat)
    requires Run(cs, ss) && i < j < |cs| && ss[i].BeginRead?
    ensures cs[i].issued < cs[j].issued
    ensures cs[i].issued in cs[j].queries ==>
              cs[j].queries[cs[i].issued].node == ss[i].node && cs[j].queries[cs[i].issued].before == cs[i].h.reigns
    decreases j
  {
    if j == i + 1 {
      ReadBegins(cs, ss, i);
    } else {
      ReadIsKept(cs, ss, i, j - 1);
      RunKeepsReads(cs, ss, j - 1);
      assert cs[i].issued in cs[j].queries ==> SameRead(cs[j - 1], cs[j], cs[i].issued);
    }
  }

  // ---------------------------------------------------------------- linearizability

  /** Every leader that had committed something when the read began is at most the reader's. */
  lemma NoLaterLeader(c: Cluster, q: Read, u: nat)
    requires Base(c) && Grows(q.before, c.h.reigns) && CapturedOk(c.h.reigns, c.members, q) && u in q.before
    requires q.node in c.members && |q.acks + {q.node}| >= MajoritySize(c.members)
    ensures u <= q.term
  {
    assert Within(c, true);
    assert Inside(ViewOf(c), true);
    var rs := c.h.reigns;
    assert ReignGrows(q.before, rs, u) && ReignOk(rs, u) && ElectedBy(rs, c.h.ballots, c.members, u);
    var p := QuorumsMeet(c.members, q.acks + {q.node}, rs[u].quorum);
    assert Unsupported(q.before, q.term, p);
  }

  /** The index a read returns covers everything committed when it began. */
  lemma IndexCovers(c: Cluster, q: Read, u: nat)
    requires Base(c) && Grows(q.before, c.h.reigns) && CapturedOk(c.h.reigns, c.members, q) && u in q.before
    requires q.node in c.members && |q.acks + {q.node}| >= MajoritySize(c.members) && c.h.reigns[q.term].base <= q.index
    ensures q.before[u].commit <= q.index
  {
    NoLaterLeader(c, q, u);
    var rs := c.h.reigns;
    assert ReignGrows(q.before, rs, u);
    if u < q.term && rs[u].commit > 0 {
      assert Within(c, true);
      assert Inside(ViewOf(c), true);
      LeaderHasCommitted(ViewOf(c), u, q.term);
      assert ReignOk(rs, u) && ReignOk(rs, q.term);
      assert rs[q.term].log[rs[u].commit].term <= u;
    }
  }

  /** A read began in state `i`, was found confirmed and its index applied in state `a`, and
      `ReadIndex` returned in state `j`, after looking once more whether the node leads. */
  ghost predicate ReadDone(cs: seq<Cluster>, ss: seq<Step>, i: nat, a: nat, j: nat) {
    && Run(cs, ss) && i < a <= j < |cs| && ss[i].BeginRead?
    && Confirmed(cs[a], cs[i].issued) && AppliedRead(cs[a], cs[i].issued) && StillLeader(cs[j], cs[i].issued)
  }

  /** The entry at the read's index has the term the reader captured. */
  ghost predicate InCapturedTerm(cs: seq<Cluster>, ss: seq<Step>, i: nat, a: nat)
    requires i < a < |cs| && AppliedRead(cs[a], cs[i].issued)
  {
    var q := cs[a].queries[cs[i].issued];
    q.index < |cs[a].nodes[q.node].log| && cs[a].nodes[q.node].log[q.index].term == q.term
  }

  lemma ReadFacts(cs: seq<Cluster>, ss: seq<Step>, i: nat, a: nat, j: nat)
    requires ReadDone(cs, ss, i, a, j)
    ensures var q := cs[a].queries[cs[i].issued];
            && q.node == ss[i].node && q.before == cs[i].h.reigns && q.node in cs[a].nodes && Base(cs[a])
            && Grows(q.before, cs[a].h.reigns) && CapturedOk(cs[a].h.reigns, cs[a].members, q)
            && |q.acks + {q.node}| >= MajoritySize(cs[a].members) && q.node in cs[a].members
            && q.index <= cs[a].nodes[q.node].applied < |cs[a].nodes[q.node].log|
  {
    ReadIsKept(cs, ss, i, a);
    ReadsHold(cs, ss, a);
    InvariantHolds(cs, ss, a);
    assert ReadOk(cs[a], cs[i].issued);
    BaseNode(cs[a], cs[a].queries[cs[i].issued].node);
  }

  /** Such an index lies among the captured term's own entries and is committed in that term. */
  lemma ReadIsAnchored(cs: seq<Cluster>, ss: seq<Step>, i: nat, a: nat, j: nat)
    requires ReadDone(cs, ss, i, a, j) && InCapturedTerm(cs, ss, i, a)
    ensures var q := cs[a].queries[cs[i].issued]; Anchored(cs[a].h.reigns, q.term, q.node, q.index)
  {
    ReadFacts(cs, ss, i, a, j);
    EntryIsAnchored(cs[a], cs[a].queries[cs[i].issued]);
  }

  lemma EntryIsAnchored(c: Cluster, q: Read)
    requires Base(c) && q.node in c.nodes && CapturedOk(c.h.reigns, c.members, q)
    requires q.index < |c.nodes[q.node].log| && c.nodes[q.node].log[q.index].term == q.term
    ensures Anchored(c.h.reigns, q.term, q.node, q.index)
  {
    var rs, log := c.h.reigns, c.nodes[q.node].log;
    LogIsRooted(c, q.node);
    BaseNode(c, q.node);
    assert Inside(ViewOf(c), true);
    assert ReignOk(rs, q.term);
    assert q.index > 0 ==> RootedAt(rs, log, q.index);
    assert rs[q.term].log[0] == log[0];
  }

  /** A read whose entry has the captured term covers all that any node had committed before
      it began. */
  lemma ReadCovers(cs: seq<Cluster>, ss: seq<Step>, h: nat, i: nat, a: nat, j: nat, w: Id)
    requires ReadDone(cs, ss, i, a, j) && InCapturedTerm(cs, ss, i, a) && h <= i && w in cs[h].nodes
    ensures cs[h].nodes[w].commit <= cs[a].queries[cs[i].issued].index
  {
    var n := cs[h].nodes[w];
    ReadFacts(cs, ss, i, a, j);
    ReadIsAnchored(cs, ss, i, a, j);
    PastStays(cs, ss, h, i);
    BaseNode(cs[h], w);
    if n.commit > 0 {
      var t: nat :| t <= n.term && Backs(cs[h].h.reigns, t, n.log, n.commit);
      assert Backs(cs[h].h.reigns, t, n.log, n.commit);
      assert ReignGrows(cs[h].h.reigns, cs[i].h.reigns, t);
      IndexCovers(cs[a], cs[a].queries[cs[i].issued], t);
    }
  }

  // ---------------------------------------------------------------- until ReadIndex returns

  /** A read that is still there was there before, at the same node, and that node did not crash. */
  lemma ReadSurvives(cs: seq<Cluster>, ss: seq<Step>, s: nat, r: nat)
    requires Run(cs, ss) && s < |ss| && r < cs[s].issued && r in cs[s + 1].queries
    ensures r in cs[s].queries && cs[s].queries[r].node == cs[s + 1].queries[r].node && ss[s] != Crash(cs[s].queries[r].node)
  {
    RunKeepsReads(cs, ss, s);
    assert SameRead(cs[s], cs[s + 1], r);
    InvariantHolds(cs, ss, s);
    assert StepAt(cs, ss, s);
  }

  lemma {:induction false} NoCrashBetween(cs: seq<Cluster>, ss: seq<Step>, i: nat, a: nat, j: nat)
    requires Run(cs, ss) && i < a <= j < |cs| && ss[i].BeginRead? && cs[i].issued in cs[j].queries
    ensures forall s :: a <= s < j ==> ss[s] != Crash(ss[i].node)
    decreases j
  {
    if a < j {
      ReadWasThere(cs, ss, i, j);
      NoCrashBetween(cs, ss, i, a, j - 1);
    }
  }

  lemma ReadWasThere(cs: seq<Cluster>, ss: seq<Step>, i: nat, j: nat)
    requires Run(cs, ss) && i < j - 1 && j < |cs| && ss[i].BeginRead? && cs[i].issued in cs[j].queries
    ensures cs[i].issued in cs[j - 1].queries && ss[j - 1] != Crash(ss[i].node)
  {
    ReadIsKept(cs, ss, i, j - 1);
    ReadSurvives(cs, ss, j - 1, cs[i].issued);
  }

  /** Linearizability. A read began in state `i`, its index was applied in state `a`, `ReadIndex`
      returned in state `j`, and the map is looked up in any state `k` from then on until the
      reader crashes. If the entry at the read's index has the captured term, the map reflects all
      that any node had committed in any state `h` before the read began: it is the replay of a log
      that holds those entries. */
  lemma ReadIsLinearizable(cs: seq<Cluster>, ss: seq<Step>, h: nat, i: nat, a: nat, j: nat, k: nat, w: Id)
    requires ReadDone(cs, ss, i, a, j) && InCapturedTerm(cs, ss, i, a) && h <= i && w in cs[h].nodes
    requires j <= k < |cs| && forall s :: j <= s < k ==> ss[s] != Crash(ss[i].node)
    ensures ss[i].node in cs[k].nodes
    ensures
      var reader, index := cs[k].nodes[ss[i].node], cs[a].queries[cs[i].issued].index;
      && cs[h].nodes[w].commit <= index <= reader.applied < |reader.log|
      && reader.kv == Replay(reader.log, reader.applied)
      && |cs[h].nodes[w].log| > 0
      && Agree(reader.log, cs[h].nodes[w].log, Min(cs[h].nodes[w].commit, LastIndex(cs[h].nodes[w].log)))
  {
    var n := cs[h].nodes[w];
    ReadCovers(cs, ss, h, i, a, j, w);
    ReadStays(cs, ss, i, a, j, k);
    ReplayEquivalence(cs, ss, h, w);
    ReplayEquivalence(cs, ss, k, ss[i].node);
    CommittedLogsAgree(cs, ss, h, k, w, ss[i].node, Min(n.commit, LastIndex(n.log)));
  }

  /** What the reader had applied for the read it still has when the map is looked up. */
  lemma ReadStays(cs: seq<Cluster>, ss: seq<Step>, i: nat, a: nat, j: nat, k: nat)
    requires ReadDone(cs, ss, i, a, j) && InCapturedTerm(cs, ss, i, a)
    requires j <= k < |cs| && forall s :: j <= s < k ==> ss[s] != Crash(ss[i].node)
    ensures ss[i].node in cs[k].nodes && cs[a].queries[cs[i].issued].index <= cs[k].nodes[ss[i].node].applied
  {
    var q := cs[a].queries[cs[i].issued];
    ReadFacts(cs, ss, i, a, j);
    ReadIsAnchored(cs, ss, i, a, j);
    NoCrashBetween(cs, ss, i, a, j);
    AppliedStays(cs, ss, a, k, q.node, q.term, q.index);
  }

  /** If the term is the same when the node checks and when it captures, the entry at the read's
      index has that term. */
  lemma SameTermIsEnough(cs: seq<Cluster>, ss: seq<Step>, i: nat, a: nat, j: nat)
    requires ReadDone(cs, ss, i, a, j)
    requires cs[a].queries[cs[i].issued].checkTerm == cs[a].queries[cs[i].issued].term
    ensures InCapturedTerm(cs, ss, i, a)
  {
    ReadFacts(cs, ss, i, a, j);
    OwnEntryApplied(cs[a], cs[a].queries[cs[i].issued]);
  }

  lemma OwnEntryApplied(c: Cluster, q: Read)
    requires Base(c) && q.node in c.nodes && CapturedOk(c.h.reigns, c.members, q) && q.checkTerm == q.term
    requires q.index <= c.nodes[q.node].applied < |c.nodes[q.node].log|
    ensures c.nodes[q.node].log[q.index].term == q.term
  {
    var rs := c.h.reigns;
    BaseNode(c, q.node);
    assert Inside(ViewOf(c), true);
    assert ReignOk(rs, q.term);
    var t := CommittedPrefix(c, q.node, q.index);
    CommitsAgree(c, t, q.term, q.index);
  }
}
