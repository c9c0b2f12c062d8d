/** What a leader has committed and applied in its own term it never un-applies, short of a
    crash, even though a snapshot can set a node's applied index back. */
module Anchors {
  import opened RaftTypes
  import opened Logs
  import opened History
  import opened NodeSpec
  import opened Protocol
  import opened Effects
  import opened Cluster
  import opened ClusterInv
  import opened LeaderSteps
  import opened ElectionSteps
  import opened ReplicationSteps
  import opened DisciplineSteps
  import opened Safety
  import opened Theorems
  import opened Commits

  // ---------------------------------------------------------------- leaders count their own copies

  ghost predicate OwnAck(h: History, t: nat)
    requires t in h.reigns
  {
    |h.reigns[t].log| > 0 && Ack(t, h.reigns[t].leader, LastIndex(h.reigns[t].log)) in h.counted
  }

  ghost predicate OwnCounted(h: History) {
    forall t {:trigger OwnAck(h, t)} :: t in h.reigns ==> OwnAck(h, t)
  }

  /** Every reign of `h'` is one of `h`, perhaps with a later commit index, or counts itself. */
  lemma OwnKept(h: History, h': History)
    requires OwnCounted(h) && h.counted <= h'.counted
    requires forall t {:trigger OwnAck(h', t)} :: t in h'.reigns ==>
               OwnAck(h', t) || (t in h.reigns && h'.reigns[t].leader == h.reigns[t].leader && h'.reigns[t].log == h.reigns[t].log)
    ensures OwnCounted(h')
  {
    forall t | t in h'.reigns
      ensures OwnAck(h', t)
    {
      assert t in h.reigns ==> OwnAck(h, t);
    }
  }

  lemma ElectionOwn(h: History, c: Node, n: Node)
    requires OwnCounted(h) && c.term == n.term
    ensures OwnCounted(RecordElection(h, c, n))
  {
    var h' := RecordElection(h, c, n);
    assert OwnAck(h', c.term);
    OwnKept(h, h');
  }

  lemma TimeoutOwn(c: Cluster, v: Id)
    requires Base(c) && v in c.nodes && |c.nodes[v].log| > 0 && OwnCounted(c.h)
    ensures OwnCounted(DoTimeout(c, v).h)
  {
    var cand := Campaigner(c.nodes[v]);
    BaseNode(c, v);
    TimeoutShape(c, v);
    CrownKeeps(cand);
    OwnKept(c.h, RecordVote(c.h, cand));
    ElectionOwn(RecordVote(c.h, cand), cand, BecomeLeader(cand));
  }

  lemma VoteRspOwn(c: Cluster, pkt: Packet)
    requires pkt.VoteRsp? && pkt.to in c.nodes && |c.nodes[pkt.to].log| > 0 && OwnCounted(c.h)
    ensures OwnCounted(DoVoteRsp(c, pkt).h)
  {
    var n := c.nodes[pkt.to];
    var cand := n.(votes := n.votes + {pkt.from});
    CrownKeeps(cand);
    var n' := OnVoteResponse(n, pkt.from, pkt.asked, pkt.voteResp);
    if n.role == Candidate && n'.role == Leader {
      assert n' == BecomeLeader(cand);
      ElectionOwn(c.h, cand, n');
    }
  }

  lemma PutOwn(c: Cluster, v: Id, cmd: Command)
    requires Base(c) && v in c.nodes && |c.nodes[v].log| > 0 && OwnCounted(c.h)
    ensures OwnCounted(DoPut(c, v, cmd).h)
  {
    var n := c.nodes[v];
    if n.role == Leader {
      LeaderOfTerm(c, v);
      BaseNode(c, v);
      PutShape(c, v, cmd);
      var e := Entry(n.term, cmd, None);
      FinishKeeps(LeaderAppend(n, e));
      PutOwnHistory(c.h, n, e, ApplyCommitted(AdvanceCommit(LeaderAppend(n, e))));
    }
  }

  lemma PutOwnHistory(h: History, n: Node, e: Entry, n': Node)
    requires OwnCounted(h) && n.term in h.reigns && h.reigns[n.term].leader == n.id && h.reigns[n.term].log == n.log
    requires n'.term == n.term && |n.log| > 0
    ensures OwnCounted(RecordCommit(AppendedHistory(h, n, e), n.commit, n'))
  {
    PutOwnAck(h, n, e, RecordCommit(AppendedHistory(h, n, e), n.commit, n'));
  }

  lemma PutOwnAck(h: History, n: Node, e: Entry, h': History)
    requires OwnCounted(h) && n.term in h.reigns && h.reigns[n.term].leader == n.id && h.reigns[n.term].log == n.log
    requires h'.counted == h.counted + {Ack(n.term, n.id, |n.log|)} && h'.reigns.Keys == h.reigns.Keys
    requires h'.reigns[n.term].leader == n.id && h'.reigns[n.term].log == n.log + [e]
    requires forall t {:trigger h'.reigns[t]} :: t in h.reigns && t != n.term ==> h'.reigns[t] == h.reigns[t]
    ensures OwnCounted(h')
  {
    assert OwnAck(h', n.term);
    OwnKept(h, h');
  }

  lemma MatchOwn(h: History, n: Node, p: Id, m: nat, n': Node)
    requires OwnCounted(h)
    ensures OwnCounted(RecordMatch(h, n, p, m, n'))
  {
    OwnKept(h, RecordMatch(h, n, p, m, n'));
  }

  lemma DeliverOwn(c: Cluster, pkt: Packet)
    requires pkt.to in c.nodes && |c.nodes[pkt.to].log| > 0 && OwnCounted(c.h)
    requires pkt.SnapReq? ==> |pkt.prefix| == pkt.snapshot.lastIndex + 1
    ensures OwnCounted(DoDeliver(c, pkt).h)
  {
    var n := c.nodes[pkt.to];
    match pkt
    case VoteRsp(_, _, _, _) => VoteRspOwn(c, pkt);
    case AppendRsp(_, from, _, req, resp) =>
      MatchOwn(c.h, n, from, req.prevIndex + |req.entries|, OnAppendResponse(n, from, req, resp));
    case SnapRsp(_, from, _, req, resp) =>
      MatchOwn(c.h, n, from, req.lastIndex, OnSnapshotResponse(n, from, req, resp));
    case _ =>
      QuietHistory(c, pkt);
      OwnKept(c.h, DoDeliver(c, pkt).h);
  }

  lemma QuietHistory(c: Cluster, pkt: Packet)
    requires pkt.to in c.nodes && |c.nodes[pkt.to].log| > 0 && !pkt.VoteRsp? && !pkt.AppendRsp? && !pkt.SnapRsp?
    requires pkt.SnapReq? ==> |pkt.prefix| == pkt.snapshot.lastIndex + 1
    ensures DoDeliver(c, pkt).h.reigns == c.h.reigns && DoDeliver(c, pkt).h.counted == c.h.counted
  {
  }

  lemma StepOwn(c: Cluster, s: Step)
    requires Base(c) && AllSane(c) && Enabled(c, s) && OwnCounted(c.h)
    ensures OwnCounted(After(c, s).h)
  {
    if s.Timeout? {
      TimeoutOwn(c, s.node);
    } else if s.ClientPut? {
      PutOwn(c, s.node, s.command);
    } else if s.Deliver? {
      DeliverOwn(c, s.packet);
    } else {
      assert After(c, s).h == c.h;
    }
  }

  /** In every run each leader has counted its own copy of its whole log. */
  lemma {:induction false} LeadersCountThemselves(cs: seq<Cluster>, ss: seq<Step>, i: nat)
    requires Run(cs, ss) && i < |cs|
    ensures OwnCounted(cs[i].h)
    decreases i
  {
    if i > 0 {
      LeadersCountThemselves(cs, ss, i - 1);
      RunOwn(cs, ss, i - 1);
    }
  }

  lemma RunOwn(cs: seq<Cluster>, ss: seq<Step>, i: nat)
    requires Run(cs, ss) && i < |ss| && OwnCounted(cs[i].h)
    ensures OwnCounted(cs[i + 1].h)
  {
    InvariantHolds(cs, ss, i);
    assert StepAt(cs, ss, i);
    StepOwn(cs[i], ss[i]);
  }

  // ---------------------------------------------------------------- and never un-apply them

  /** Index `x` is an entry of `t`'s own leader `v`, committed in `t`. */
  ghost predicate Anchored(rs: Reigns, t: nat, v: Id, x: nat) {
    t in rs && rs[t].leader == v && rs[t].base <= x <= rs[t].commit
  }

  /** A snapshot that a former leader may install reaches everything it committed in its term. */
  lemma SnapshotsReachAnchors(c: Cluster, pkt: Packet, t: nat, x: nat)
    requires Invariant(c) && OwnCounted(c.h) && pkt in c.net && pkt.SnapReq? && pkt.to in c.nodes
    requires Anchored(c.h.reigns, t, pkt.to, x)
    requires c.nodes[pkt.to].term <= pkt.snapshot.term && c.nodes[pkt.to].snap < pkt.snapshot.lastIndex
    ensures x <= pkt.snapshot.lastIndex
  {
    var v, req, rs := pkt.to, pkt.snapshot, c.h.reigns;
    BaseNode(c, v);
    BasePacket(c, pkt);
    SnapMayInstall(c, pkt);
    assert Inside(ViewOf(c), true);
    assert ReignOk(rs, t) && LeaderOk(ViewOf(c).ns, rs, t) && OwnAck(c.h, t);
    var a := Ack(t, v, LastIndex(rs[t].log));
    assert Claims(rs, a, x);
    if x > req.lastIndex {
      assert OldBlocked(rs, a, req.term, x);
      var s: nat :| t < s <= req.term && Lacks(rs, s, t, x);
      LeaderHasCommitted(ViewOf(c), t, s);
    }
  }

  lemma {:induction false} AppliedStays(cs: seq<Cluster>, ss: seq<Step>, j: nat, k: nat, v: Id, t: nat, x: nat)
    requires Run(cs, ss) && j <= k < |cs| && v in cs[j].nodes && x <= cs[j].nodes[v].applied && Anchored(cs[j].h.reigns, t, v, x)
    requires forall s :: j <= s < k ==> ss[s] != Crash(v)
    ensures v in cs[k].nodes && x <= cs[k].nodes[v].applied
    decreases k
  {
    if j < k {
      AppliedStays(cs, ss, j, k - 1, v, t, x);
      PastStays(cs, ss, j, k - 1);
      assert ReignGrows(cs[j].h.reigns, cs[k - 1].h.reigns, t);
      AppliedStaysOnce(cs, ss, k - 1, v, t, x);
    }
  }

  lemma AppliedStaysOnce(cs: seq<Cluster>, ss: seq<Step>, i: nat, v: Id, t: nat, x: nat)
    requires Run(cs, ss) && i < |ss| && v in cs[i].nodes && x <= cs[i].nodes[v].applied && Anchored(cs[i].h.reigns, t, v, x)
    requires ss[i] != Crash(v)
    ensures v in cs[i + 1].nodes && x <= cs[i + 1].nodes[v].applied
  {
    AppliedGoesBackIff(cs, ss, i, v);
    if SetsNodeBack(cs[i], ss[i], v) {
      InvariantHolds(cs, ss, i);
      LeadersCountThemselves(cs, ss, i);
      assert StepAt(cs, ss, i);
      SnapshotsReachAnchors(cs[i], ss[i].packet, t, x);
    }
  }
}
