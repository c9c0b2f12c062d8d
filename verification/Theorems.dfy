/** What the repository promises, for every run and every pair of moments in it. */
module Theorems {
  import opened RaftTypes
  import opened Logs
  import opened History
  import opened NodeSpec
  import opened NodeFacts
  import opened Protocol
  import opened Cluster
  import opened ClusterInv
  import opened LeaderSteps
  import opened ElectionSteps
  import opened Discipline
  import opened DisciplineSteps
  import opened CallSteps
  import opened Backoff
  import opened Safety

  // ---------------------------------------------------------------- one pair of moments

  lemma LeaderOfTerm(c: Cluster, v: Id)
    requires Base(c) && v in c.nodes && c.nodes[v].role == Leader
    ensures c.nodes[v].term in c.h.reigns && c.h.reigns[c.nodes[v].term].leader == v
    ensures c.nodes[v].log == c.h.reigns[c.nodes[v].term].log
  {
    BaseNode(c, v);
    assert Inside(ViewOf(c), true);
    assert LeaderOk(ViewOf(c).ns, c.h.reigns, c.nodes[v].term);
  }

  lemma LogIsRooted(c: Cluster, v: Id)
    requires Base(c) && v in c.nodes
    ensures WellFormed(c.nodes[v].log) && Rooted(c.h.reigns, c.nodes[v].log)
  {
    BaseNode(c, v);
    assert Inside(ViewOf(c), true);
    assert LogOk(ViewOf(c).ns, c.h.reigns, v);
  }

  /** What a node has committed is what some leader of its term or before committed. */
  lemma CommittedPrefix(c: Cluster, v: Id, k: nat) returns (t: nat)
    requires Base(c) && v in c.nodes && 0 < k <= c.nodes[v].commit && k < |c.nodes[v].log|
    ensures t <= c.nodes[v].term && t in c.h.reigns && k <= c.h.reigns[t].commit
    ensures Agree(c.nodes[v].log, c.h.reigns[t].log, k)
  {
    BaseNode(c, v);
    var n := c.nodes[v];
    t :| t <= n.term && Backs(c.h.reigns, t, n.log, n.commit);
    assert Backs(c.h.reigns, t, n.log, n.commit);
    AgreeShorter(n.log, c.h.reigns[t].log, Min(n.commit, LastIndex(n.log)), k);
  }

  lemma CommitsAgree(c: Cluster, t: nat, u: nat, k: nat)
    requires Base(c) && t in c.h.reigns && u in c.h.reigns && k <= c.h.reigns[t].commit && k <= c.h.reigns[u].commit
    ensures Agree(c.h.reigns[t].log, c.h.reigns[u].log, k)
  {
    assert Within(c, true);
    assert Inside(ViewOf(c), true);
    var rs := c.h.reigns;
    assert ReignOk(rs, t) && ReignOk(rs, u);
    if k > 0 {
      assert CommitOk(rs, c.h.counted, c.members, t) && CommitOk(rs, c.h.counted, c.members, u);
      ChosenAgree(c.h, c.members, t, rs[t].commit, u, rs[u].commit);
    }
  }

  /** An entry of an earlier state's reign, seen from a later one. */
  lemma CommitStays(c: Cluster, c': Cluster, t: nat, k: nat, log: Log)
    requires Later(c, c') && t in c.h.reigns && k <= c.h.reigns[t].commit && Agree(log, c.h.reigns[t].log, k)
    ensures t in c'.h.reigns && k <= c'.h.reigns[t].commit && Agree(log, c'.h.reigns[t].log, k)
  {
    assert ReignGrows(c.h.reigns, c'.h.reigns, t);
  }

  // ---------------------------------------------------------------- theorems

  /** Whatever any node has committed is in the log of every leader of a later term, at any
      moment, and of every leader of the same term from then on. */
  lemma LeadersHoldCommitted(cs: seq<Cluster>, ss: seq<Step>, i: nat, j: nat, v: Id, l: Id, k: nat)
    requires Run(cs, ss) && i < |cs| && j < |cs| && v in cs[i].nodes && l in cs[j].nodes
    requires k <= cs[i].nodes[v].commit && k < |cs[i].nodes[v].log| && cs[j].nodes[l].role == Leader
    requires if i <= j then cs[j].nodes[l].term >= cs[i].nodes[v].term else cs[j].nodes[l].term > cs[i].nodes[v].term
    ensures Agree(cs[j].nodes[l].log, cs[i].nodes[v].log, k)
  {
    InvariantHolds(cs, ss, i);
    InvariantHolds(cs, ss, j);
    LogIsRooted(cs[i], v);
    LogIsRooted(cs[j], l);
    if k > 0 {
      var t := CommittedPrefix(cs[i], v, k);
      LeaderOfTerm(cs[j], l);
      if i <= j {
        PastStays(cs, ss, i, j);
        CommitStays(cs[i], cs[j], t, k, cs[i].nodes[v].log);
        assert Within(cs[j], true);
        LeaderHasCommitted(ViewOf(cs[j]), t, cs[j].nodes[l].term);
      } else {
        PastStays(cs, ss, j, i);
        HeldFromTheStart(cs[j], cs[i], t, cs[j].nodes[l].term, k);
      }
    }
  }

  /** A leader of a later term held the entry already when it was elected. */
  lemma HeldFromTheStart(c: Cluster, c': Cluster, t: nat, u: nat, k: nat)
    requires Base(c) && Base(c') && Later(c, c') && t in c'.h.reigns && u in c.h.reigns && t < u
    requires 0 < k <= c'.h.reigns[t].commit
    ensures k < |c'.h.reigns[t].log| && Agree(c.h.reigns[u].log, c'.h.reigns[t].log, k)
  {
    var rs := c'.h.reigns;
    assert Within(c, true) && Within(c', true);
    assert Inside(ViewOf(c), true) && Inside(ViewOf(c'), true);
    assert ReignGrows(c.h.reigns, rs, u) && ReignOk(c.h.reigns, u) && ReignOk(rs, u) && ReignOk(rs, t);
    LeaderHasCommitted(ViewOf(c'), t, u);
    assert rs[u].log[k].term <= t;
  }

  /** Two nodes, at any two moments, agree on everything both have committed. */
  lemma CommittedLogsAgree(cs: seq<Cluster>, ss: seq<Step>, i: nat, j: nat, v: Id, w: Id, k: nat)
    requires Run(cs, ss) && i <= j < |cs| && v in cs[i].nodes && w in cs[j].nodes
    requires k <= cs[i].nodes[v].commit && k < |cs[i].nodes[v].log|
    requires k <= cs[j].nodes[w].commit && k < |cs[j].nodes[w].log|
    ensures Agree(cs[i].nodes[v].log, cs[j].nodes[w].log, k)
  {
    PastStays(cs, ss, i, j);
    LogIsRooted(cs[i], v);
    LogIsRooted(cs[j], w);
    if k > 0 {
      var t := CommittedPrefix(cs[i], v, k);
      CommitStays(cs[i], cs[j], t, k, cs[i].nodes[v].log);
      var u := CommittedPrefix(cs[j], w, k);
      CommitsAgree(cs[j], t, u, k);
    }
  }

  /** The key-value map of a node is what replaying the log of any node that has applied at
      least as much gives, so nodes that have applied equally much hold equal maps. */
  lemma StoresAgree(cs: seq<Cluster>, ss: seq<Step>, i: nat, j: nat, v: Id, w: Id)
    requires Run(cs, ss) && i < |cs| && j < |cs| && v in cs[i].nodes && w in cs[j].nodes
    requires cs[i].nodes[v].applied <= cs[j].nodes[w].applied
    ensures cs[i].nodes[v].applied < |cs[j].nodes[w].log|
    ensures cs[i].nodes[v].kv == Replay(cs[j].nodes[w].log, cs[i].nodes[v].applied)
    ensures cs[i].nodes[v].applied == cs[j].nodes[w].applied ==> cs[i].nodes[v].kv == cs[j].nodes[w].kv
  {
    var n, m := cs[i].nodes[v], cs[j].nodes[w];
    InvariantHolds(cs, ss, i);
    InvariantHolds(cs, ss, j);
    BaseNode(cs[i], v);
    BaseNode(cs[j], w);
    if i <= j {
      CommittedLogsAgree(cs, ss, i, j, v, w, n.applied);
    } else {
      CommittedLogsAgree(cs, ss, j, i, w, v, n.applied);
    }
    ReplayAgree(n.log, m.log, n.applied);
  }

  /** No two state machines ever apply different entries at one index. */
  lemma StateMachineSafety(cs: seq<Cluster>, ss: seq<Step>, i: nat, a: Applied, b: Applied)
    requires Run(cs, ss) && i < |cs| && a in cs[i].applied && b in cs[i].applied && a.index == b.index
    ensures a.entry == b.entry
  {
    InvariantHolds(cs, ss, i);
    var rs := cs[i].h.reigns;
    assert Within(cs[i], true);
    assert AppliedOk(rs, a) && AppliedOk(rs, b);
    var t: nat :| CommittedBy(rs, t, a.index) && a.index < |rs[t].log| && rs[t].log[a.index] == a.entry;
    var u: nat :| CommittedBy(rs, u, b.index) && b.index < |rs[u].log| && rs[u].log[b.index] == b.entry;
    CommitsAgree(cs[i], t, u, a.index);
  }

  /** The map and the snapshot are replays of the log, in every state, before and after any
      compaction, installation or crash. */
  lemma ReplayEquivalence(cs: seq<Cluster>, ss: seq<Step>, i: nat, v: Id)
    requires Run(cs, ss) && i < |cs| && v in cs[i].nodes
    ensures var n := cs[i].nodes[v];
            && n.snap <= n.applied <= n.commit && n.applied < |n.log|
            && n.kv == Replay(n.log, n.applied) && n.image == Replay(n.log, n.snap)
            && n.peers.Keys == cs[0].members
  {
    PastStays(cs, ss, 0, i);
    BaseNode(cs[i], v);
  }

  /** Whatever a leader has ever counted for a peer in its term, the peer still holds while it
      stays in that term, even if the leader's match index has gone down since. */
  lemma CountedStays(cs: seq<Cluster>, ss: seq<Step>, i: nat, j: nat, l: Id, p: Id)
    requires Run(cs, ss) && i <= j < |cs| && l in cs[i].nodes && l in cs[j].nodes && p in cs[j].nodes
    requires cs[i].nodes[l].role == Leader && cs[j].nodes[l].role == Leader
    requires cs[i].nodes[l].term == cs[j].nodes[l].term == cs[j].nodes[p].term
    ensures Agree(cs[j].nodes[p].log, cs[j].nodes[l].log, Lookup(cs[i].nodes[l].matchIndex, p))
  {
    var c := cs[j];
    PastStays(cs, ss, i, j);
    LogIsRooted(c, l);
    LogIsRooted(c, p);
    LeaderOfTerm(c, l);
    CountedHere(cs[i], l, p);
    BaseNode(c, p);
    assert Inside(ViewOf(c), true);
    var m := Lookup(cs[i].nodes[l].matchIndex, p);
    assert m > 0 ==> AckHeld(ViewOf(c).ns, c.h.reigns, Ack(c.nodes[l].term, p, m));
  }

  lemma CountedHere(c: Cluster, l: Id, p: Id)
    requires Base(c) && l in c.nodes && c.nodes[l].role == Leader
    ensures Lookup(c.nodes[l].matchIndex, p) > 0 ==>
              Ack(c.nodes[l].term, p, Lookup(c.nodes[l].matchIndex, p)) in c.h.counted
  {
    BaseNode(c, l);
  }

  /** What a leader believes of a peer in its own term is true. */
  lemma MatchIndexIsTrue(cs: seq<Cluster>, ss: seq<Step>, i: nat, l: Id, p: Id)
    requires Run(cs, ss) && i < |cs| && l in cs[i].nodes && p in cs[i].nodes
    requires cs[i].nodes[l].role == Leader && cs[i].nodes[p].term == cs[i].nodes[l].term
    ensures Agree(cs[i].nodes[p].log, cs[i].nodes[l].log, Lookup(cs[i].nodes[l].matchIndex, p))
  {
    CountedStays(cs, ss, i, i, l, p);
  }

  /** Installing a snapshot never discards what the leader has counted, now or at any earlier
      moment `h` of its term: afterwards the follower still holds it, however late the request. */
  lemma InstallKeepsCounted(cs: seq<Cluster>, ss: seq<Step>, h: nat, i: nat, l: Id)
    requires Run(cs, ss) && h <= i + 1 < |cs| && ss[i].Deliver? && ss[i].packet.SnapReq? && ss[i].packet.to in cs[i].nodes
    requires l in cs[h].nodes && cs[h].nodes[l].role == Leader && cs[h].nodes[l].term == ss[i].packet.snapshot.term
    requires l in cs[i + 1].nodes && cs[i + 1].nodes[l].role == Leader && cs[i + 1].nodes[l].term == ss[i].packet.snapshot.term
    requires cs[i].nodes[ss[i].packet.to].term <= ss[i].packet.snapshot.term
    ensures ss[i].packet.to in cs[i + 1].nodes
    ensures var p := ss[i].packet.to;
            && cs[i + 1].nodes[p].snap >= ss[i].packet.snapshot.lastIndex
            && Agree(cs[i + 1].nodes[p].log, cs[i + 1].nodes[l].log, Lookup(cs[h].nodes[l].matchIndex, p))
  {
    var pkt := ss[i].packet;
    InvariantHolds(cs, ss, i);
    assert StepAt(cs, ss, i);
    OnSnapshotShape(cs[i].nodes[pkt.to], pkt.snapshot, pkt.prefix);
    CountedStays(cs, ss, h, i + 1, l, pkt.to);
  }

  /** The clamp of a peer's next index to the end of the log never fires. */
  lemma NextIndexNeverClamped(cs: seq<Cluster>, ss: seq<Step>, i: nat, v: Id, p: Id)
    requires Run(cs, ss) && i < |cs| && v in cs[i].nodes && cs[i].nodes[v].role == Leader
    ensures Lookup(cs[i].nodes[v].nextIndex, p) <= |cs[i].nodes[v].log|
    ensures Sane(cs[i].nodes[v]) && MakeAppend(cs[i].nodes[v], p).0 == cs[i].nodes[v]
  {
    InvariantHolds(cs, ss, i);
    assert Within(cs[i], true);
    assert NextBounded(cs[i].nodes[v]);
    NoClamp(cs[i].nodes[v], p);
  }

  /** No request, however stale, removes or changes an entry that its receiver has committed. */
  lemma TruncationKeepsCommitted(cs: seq<Cluster>, ss: seq<Step>, i: nat, pkt: Packet)
    requires Run(cs, ss) && i < |cs| && pkt in cs[i].net && (pkt.AppendReq? || pkt.ProbeReq?) && pkt.to in cs[i].nodes
    ensures var n := cs[i].nodes[pkt.to];
            |n.log| > 0 && Agree(OnAppend(n, pkt.append).0.log, n.log, Min(n.commit, LastIndex(n.log)))
  {
    InvariantHolds(cs, ss, i);
    RequestKeepsCommitted(cs[i], pkt);
  }

  lemma RequestKeepsCommitted(c: Cluster, pkt: Packet)
    requires Base(c) && pkt in c.net && (pkt.AppendReq? || pkt.ProbeReq?) && pkt.to in c.nodes
    ensures var n := c.nodes[pkt.to];
            |n.log| > 0 && Agree(OnAppend(n, pkt.append).0.log, n.log, Min(n.commit, LastIndex(n.log)))
  {
    var n, req, rs := c.nodes[pkt.to], pkt.append, c.h.reigns;
    LogIsRooted(c, pkt.to);
    OnAppendShape(n, req);
    if req.term >= n.term && PrevMatches(n, req) {
      BasePacket(c, pkt);
      var k := Min(n.commit, LastIndex(n.log));
      LeaderAgrees(c, pkt.to, req.term, k);
      ReignMatches(c, pkt.to, req.term);
      AcceptedLog(n, req);
      MergeKeeps(n.log, rs[req.term].log, req, k);
    }
  }

  lemma MergeKeeps(log: Log, ref: Log, req: AppendRequest, k: nat)
    requires req.prevIndex < |log| && req.prevIndex + |req.entries| < |ref| && log[req.prevIndex].term == ref[req.prevIndex].term
    requires req.entries == ref[req.prevIndex + 1..req.prevIndex + 1 + |req.entries|]
    requires Matching(log, ref) && Agree(log, ref, k)
    ensures Agree(Merge(log, req.prevIndex + 1, req.entries), log, k)
  {
    assert Agree(log, ref, req.prevIndex);
    MergeFollows(log, req.prevIndex + 1, req.entries, ref);
  }

  /** What a node has committed is in the reign of every leader of its term or a later one. */
  lemma LeaderAgrees(c: Cluster, v: Id, t: nat, k: nat)
    requires Base(c) && v in c.nodes && t in c.h.reigns && t >= c.nodes[v].term
    requires k <= c.nodes[v].commit && k < |c.nodes[v].log|
    ensures Agree(c.nodes[v].log, c.h.reigns[t].log, k)
  {
    LogIsRooted(c, v);
    assert Within(c, true);
    assert Inside(ViewOf(c), true);
    assert ReignOk(c.h.reigns, t);
    if k > 0 {
      var u := CommittedPrefix(c, v, k);
      LeaderHasCommitted(ViewOf(c), u, t);
    }
  }

  lemma ReignMatches(c: Cluster, v: Id, t: nat)
    requires Base(c) && v in c.nodes && t in c.h.reigns
    ensures Matching(c.nodes[v].log, c.h.reigns[t].log)
  {
    LogIsRooted(c, v);
    assert Within(c, true);
    assert Inside(ViewOf(c), true);
    assert ReignOk(c.h.reigns, t);
    RootedLogsMatch(c.h.reigns, c.nodes[v].log, c.h.reigns[t].log);
  }

}
