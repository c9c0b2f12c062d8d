/** Client writes and AppendEntries, sent, received and answered, keep the cluster invariant. */
module ReplicationSteps {
  import opened RaftTypes
  import opened Logs
  import opened History
  import opened NodeSpec
  import opened NodeFacts
  import opened Protocol
  import opened Effects
  import opened Cluster
  import opened ClusterInv
  import opened LeaderSteps
  import opened ElectionSteps

  // ---------------------------------------------------------------- a client writes

  function AppendedHistory(h: History, n: Node, e: Entry): History
    requires n.term in h.reigns
  {
    var r := h.reigns[n.term];
    RecordOwn(h.(reigns := h.reigns[n.term := r.(log := r.log + [e])]), n, |n.log|)
  }

  ghost predicate Leading(s: State, compacting: bool, n: Node) {
    && Inv(s) && n.id in s.ns && s.ns[n.id] == PeerOf(n)
    && n.role == Leader && NodeOk(s.h, s.members, compacting, n.id, n)
  }

  lemma AppendedInv(s: State, compacting: bool, n: Node, e: Entry)
    requires Leading(s, compacting, n) && e.term == n.term
    ensures Inv(State(s.members, s.ns[n.id := PeerOf(LeaderAppend(n, e))], AppendedHistory(s.h, n, e)))
    ensures Grows(s.h.reigns, AppendedHistory(s.h, n, e).reigns)
  {
    AppendInv(s, n.id, e);
    OwnCopyInv(Append(s, n.id, e), n.id);
  }

  lemma AppendedNode(s: State, compacting: bool, n: Node, e: Entry)
    requires Leading(s, compacting, n) && e.term == n.term && e.change.None?
    requires Inv(State(s.members, s.ns[n.id := PeerOf(LeaderAppend(n, e))], AppendedHistory(s.h, n, e)))
    requires Grows(s.h.reigns, AppendedHistory(s.h, n, e).reigns)
    ensures NodeOk(AppendedHistory(s.h, n, e), s.members, compacting, n.id, LeaderAppend(n, e))
  {
    var n1, h1 := LeaderAppend(n, e), AppendedHistory(s.h, n, e);
    var s1 := State(s.members, s.ns[n.id := PeerOf(n1)], h1);
    AppendLocal(n, e, n1);
    BackedAdmissible(s.h.reigns, n.term, n.log, n.commit);
    AdmissibleGrows(s.h.reigns, h1.reigns, n.term, n.term, n.commit);
    LeaderBacked(s1, n.term, n.commit);
    assert Inside(s1, true);
    assert LeaderOk(s1.ns, h1.reigns, n.term);
    AppendedMatch(s.h.counted, h1.counted, n, e);
  }

  lemma AppendedMatch(counted: set<Ack>, counted': set<Ack>, n: Node, e: Entry)
    requires MatchOk(counted, n) && counted <= counted' && Ack(n.term, n.id, |n.log|) in counted'
    ensures MatchOk(counted', LeaderAppend(n, e))
  {
    var n1 := LeaderAppend(n, e);
    forall p | Lookup(n1.matchIndex, p) > 0
      ensures Ack(n1.term, p, Lookup(n1.matchIndex, p)) in counted'
    {
      assert p != n.id ==> Lookup(n.matchIndex, p) == Lookup(n1.matchIndex, p);
    }
  }

  lemma AppendedRecord(h: History, n: Node, e: Entry)
    requires n.term in h.reigns && h.reigns[n.term].leader == n.id && e.change.None? && e.term == n.term
    ensures HistoryGrows(h, AppendedHistory(h, n, e))
    ensures OthersUntouched(h.reigns, AppendedHistory(h, n, e).reigns, n.id)
    ensures PlainReigns(h.reigns) ==> PlainReigns(AppendedHistory(h, n, e).reigns)
  {
    var rs' := AppendedHistory(h, n, e).reigns;
    assert Grows(h.reigns, rs');
    if PlainReigns(h.reigns) {
      forall t | t in rs'
        ensures PlainReign(rs', t)
      {
        assert PlainReign(h.reigns, t);
      }
    }
  }

  lemma PutBase(c: Cluster, v: Id, cmd: Command)
    requires Base(c) && v in c.nodes && |c.nodes[v].log| > 0
    ensures Base(DoPut(c, v, cmd)) && Progress(c, DoPut(c, v, cmd))
  {
    var n := c.nodes[v];
    BaseNode(c, v);
    if n.role == Leader {
      PutShape(c, v, cmd);
      PutLeads(c, DoPut(c, v, cmd), v, Entry(n.term, cmd, None));
    } else {
      StutterGood(c, v);
      GoodQuietStep(c, DoPut(c, v, cmd), v, n);
    }
  }

  lemma PutShape(c: Cluster, v: Id, cmd: Command)
    requires v in c.nodes && |c.nodes[v].log| > 0 && c.nodes[v].role == Leader && c.nodes[v].term in c.h.reigns
    ensures
      var n := c.nodes[v];
      var e := Entry(n.term, cmd, None);
      var n' := ApplyCommitted(AdvanceCommit(LeaderAppend(n, e)));
      var h1 := AppendedHistory(c.h, n, e);
      DoPut(c, v, cmd) == Update(c, v, n').(h := if n'.term in h1.reigns then RecordCommit(h1, n.commit, n') else h1)
  {
  }

  lemma PutLeads(c: Cluster, c': Cluster, v: Id, e: Entry)
    requires Base(c) && v in c.nodes && |c.nodes[v].log| > 0 && c.nodes[v].role == Leader
    requires e.term == c.nodes[v].term && e.change.None? && c.nodes[v].term in c.h.reigns
    requires
      var n := c.nodes[v];
      var n' := ApplyCommitted(AdvanceCommit(LeaderAppend(n, e)));
      var h1 := AppendedHistory(c.h, n, e);
      c' == Update(c, v, n').(h := if n'.term in h1.reigns then RecordCommit(h1, n.commit, n') else h1)
    ensures Base(c') && Progress(c, c')
  {
    var n := c.nodes[v];
    BaseNode(c, v);
    var s := ViewOf(c);
    AppendedInv(s, c.compacting, n, e);
    AppendedNode(s, c.compacting, n, e);
    AppendedRecord(c.h, n, e);
    var n1, h1 := LeaderAppend(n, e), AppendedHistory(c.h, n, e);
    FinishFrom(c, v, n1, h1);
    GoodQuietStep(c, c', v, c'.nodes[v]);
  }

  /** A leader whose state before the commit rule is `n1`, with history `h1`. */
  lemma FinishFrom(c: Cluster, v: Id, n1: Node, h1: History)
    requires v in c.nodes && c.nodes.Keys == c.members && n1.term in h1.reigns
    requires n1.role == Leader && n1.id == v && |n1.log| > 0 && NodeOk(h1, c.members, c.compacting, v, n1)
    requires Inv(State(c.members, Peers(c.nodes)[v := PeerOf(n1)], h1))
    requires HistoryGrows(c.h, h1) && OthersUntouched(c.h.reigns, h1.reigns, v) && PlainReigns(h1.reigns)
    requires c.nodes[v].id == v && c.nodes[v].term == n1.term && c.nodes[v].snap == n1.snap
    requires c.nodes[v].applied == n1.applied && c.nodes[v].commit == n1.commit && c.nodes[v].role == Leader
    ensures ApplyCommitted(AdvanceCommit(n1)).term == n1.term && ApplyCommitted(AdvanceCommit(n1)).role == Leader
    ensures Good(c, v, ApplyCommitted(AdvanceCommit(n1)), RecordCommit(h1, n1.commit, ApplyCommitted(AdvanceCommit(n1))))
  {
    var s1 := State(c.members, Peers(c.nodes)[v := PeerOf(n1)], h1);
    FinishNode(s1, c.compacting, n1);
    var n' := ApplyCommitted(AdvanceCommit(n1));
    CommitRecord(h1, n1.commit, n');
    HistoryTrans(c.h, h1, RecordCommit(h1, n1.commit, n'), v);
    assert Peers(c.nodes)[v := PeerOf(n1)] == Peers(c.nodes)[v := PeerOf(n')];
    assert NewlyApplied(v, c.nodes[v], n') == NewlyApplied(v, n1, n');
  }

  // ---------------------------------------------------------------- requests

  /** Any slice of a leader's log that runs to its end is a valid request. */
  lemma SliceIsValid(s: State, compacting: bool, n: Node, to: Id, next: nat)
    requires Leading(s, compacting, n) && to in s.members && to != n.id
    requires 1 <= next <= |n.log|
    ensures AppendOk(s.h.reigns, s.members, to,
                     AppendRequest(n.term, n.id, next - 1, n.log[next - 1].term, n.log[next..], n.commit))
  {
    BackedAdmissible(s.h.reigns, n.term, n.log, n.commit);
    LeaderBacked(s, n.term, n.commit);
    assert Inside(s, true);
    assert LeaderOk(s.ns, s.h.reigns, n.term);
  }

  lemma CallAppendBase(c: Cluster, v: Id, p: Id)
    requires Base(c) && MayCall(c, v, p)
    ensures Base(DoCallAppend(c, v, p)) && Progress(c, DoCallAppend(c, v, p))
  {
    var n := c.nodes[v];
    var c' := DoCallAppend(c, v, p);
    BaseNode(c, v);
    if Lookup(n.nextIndex, p) > n.snap {
      var (n', req) := MakeAppend(n, p);
      SliceIsValid(ViewOf(c), c.compacting, n, p, NextFor(n, p));
      NextIndexGood(c, v, n');
      GoodStep(c, c', v, n');
    } else {
      StutterGood(c, v);
      GoodQuietStep(c, c', v, n);
    }
  }

  /** The next index is the leader's own business. */
  lemma NextIndexGood(c: Cluster, v: Id, n': Node)
    requires Base(c) && v in c.nodes && n' == c.nodes[v].(nextIndex := n'.nextIndex)
    ensures Good(c, v, n', c.h)
    ensures NewlyApplied(v, c.nodes[v], n') == {}
  {
    var n := c.nodes[v];
    BaseNode(c, v);
    GrowsRefl(c.h.reigns);
    assert Peers(c.nodes)[v := PeerOf(n')] == Peers(c.nodes);
    if n.role == Leader {
      forall p | Lookup(n'.matchIndex, p) > 0
        ensures Ack(n'.term, p, Lookup(n'.matchIndex, p)) in c.h.counted
      {
        assert Lookup(n.matchIndex, p) > 0;
      }
    } else if n.role == Candidate {
      forall u | u in n'.votes
        ensures VotedFor(c.h.ballots, n'.term, u, n'.id, n'.log)
      {
        assert VotedFor(c.h.ballots, n.term, u, n.id, n.log);
      }
    }
  }

  /** Sending something true changes nothing else. */
  lemma SendBase(c: Cluster, c': Cluster, pkt: Packet)
    requires Base(c) && Truthful(c.h, c.members, c.nodes, pkt)
    requires c' == c.(net := c.net + {pkt}, calls := c'.calls, issued := c'.issued, queries := c'.queries)
    ensures Base(c') && Progress(c, c')
  {
    SameBase(c, c.(net := c.net + {pkt}), pkt);
    SameBase(c.(net := c.net + {pkt}), c', pkt);
  }

  /** `Base` is about the nodes, the history, the network and what was applied. */
  lemma SameBase(c: Cluster, c': Cluster, pkt: Packet)
    requires Base(c) && c'.net <= c.net + {pkt}
    requires c'.members == c.members && c'.compacting == c.compacting && c'.nodes == c.nodes && c'.h == c.h
    requires c'.applied == c.applied && Truthful(c.h, c.members, c.nodes, pkt)
    ensures Base(c') && Progress(c, c')
  {
    SameProgress(c, c');
    assert Within(c, true);
    assert NodesOk(c') by {
      NodesSame(c, c');
    }
    assert NetTruthful(c') by {
      forall q | q in c'.net
        ensures Truthful(c'.h, c'.members, c'.nodes, q)
      {
        assert q in c.net ==> Truthful(c.h, c.members, c.nodes, q);
      }
    }
  }

  lemma NodesSame(c: Cluster, c': Cluster)
    requires NodesOk(c)
    requires c'.members == c.members && c'.compacting == c.compacting && c'.nodes == c.nodes && c'.h == c.h
    ensures NodesOk(c')
  {
    forall v | v in c'.nodes
      ensures NodeOk(c'.h, c'.members, c'.compacting, v, c'.nodes[v])
    {
      assert NodeOk(c.h, c.members, c.compacting, v, c.nodes[v]);
    }
  }

  lemma ProbeBase(c: Cluster, r: nat, p: Id)
    requires Base(c) && Enabled(c, Probe(r, p)) && |c.nodes[c.queries[r].node].log| > 0
    ensures Base(DoProbe(c, r, p)) && Progress(c, DoProbe(c, r, p))
  {
    var v := c.queries[r].node;
    var n := c.nodes[v];
    BaseNode(c, v);
    SliceIsValid(ViewOf(c), c.compacting, n, p, |n.log|);
    assert n.log[|n.log|..] == [];
    SendBase(c, DoProbe(c, r, p), ProbeReq(r, p, ProbeOf(n)));
  }

  // ---------------------------------------------------------------- receiving entries

  /** A follower that agrees with its leader through its commit index is backed by it. */
  lemma FollowerBacked(s: State, t: nat, log: Log, k: nat)
    requires Inv(s) && t in s.h.reigns && Admissible(s.h.reigns, t, k)
    requires Agree(log, s.h.reigns[t].log, k)
    ensures Backed(s.h.reigns, t, log, k)
  {
    if k > 0 {
      var u: nat :| u <= t && CommittedBy(s.h.reigns, u, k);
      assert CommittedBy(s.h.reigns, u, k);
      LeaderHasCommitted(s, u, t);
      assert Backs(s.h.reigns, u, log, k);
    }
  }

  /** A prefix of the leader's log is backed, however far the node has committed. */
  lemma PrefixBacked(s: State, t: nat, log: Log, k: nat)
    requires Inv(s) && t in s.h.reigns && Admissible(s.h.reigns, t, k)
    requires 0 < |log| <= |s.h.reigns[t].log| && log == s.h.reigns[t].log[..|log|]
    ensures Backed(s.h.reigns, t, log, k)
  {
    if k > 0 {
      var u: nat :| u <= t && CommittedBy(s.h.reigns, u, k);
      assert CommittedBy(s.h.reigns, u, k);
      LeaderHasCommitted(s, u, t);
      assert Backs(s.h.reigns, u, log, k);
    }
  }

  /** Whatever a node has applied, the leader of its term has too. */
  lemma AppliedIsLeaders(s: State, compacting: bool, n: Node)
    requires Inv(s) && n.id in s.ns && s.ns[n.id] == PeerOf(n) && n.term in s.h.reigns
    requires NodeOk(s.h, s.members, compacting, n.id, n)
    ensures Agree(n.log, s.h.reigns[n.term].log, n.applied)
    ensures Agree(n.log, s.h.reigns[n.term].log, n.snap)
  {
    var rs := s.h.reigns;
    assert Inside(s, true);
    assert ReignOk(rs, n.term) && LogOk(s.ns, rs, n.id);
    if n.commit > 0 {
      var u: nat :| u <= n.term && Backs(rs, u, n.log, n.commit);
      assert Backs(rs, u, n.log, n.commit);
      LeaderHasCommitted(s, u, n.term);
    }
  }

  ghost predicate Receiving(s: State, compacting: bool, n: Node, req: AppendRequest) {
    && Inv(s) && n.id in s.ns && s.ns[n.id] == PeerOf(n)
    && NodeOk(s.h, s.members, compacting, n.id, n) && n.role == Follower
    && n.term == req.term && AppendOk(s.h.reigns, s.members, n.id, req)
    && PrevMatches(n, req)
  }

  lemma TakeEntriesNode(s: State, compacting: bool, n: Node, req: AppendRequest)
    requires Receiving(s, compacting, n, req) && PlainReigns(s.h.reigns)
    ensures Inv(s.(ns := s.ns[n.id := PeerOf(TakeEntries(n, req))]))
    ensures NodeOk(s.h, s.members, compacting, n.id, TakeEntries(n, req))
    ensures Agree(TakeEntries(n, req).log, s.h.reigns[n.term].log, req.prevIndex + |req.entries|)
  {
    var rs, log' := s.h.reigns, MergeFor(n, req);
    AcceptInv(s, n.id, req.prevIndex, req.entries);
    AppliedIsLeaders(s, compacting, n);
    BackedAdmissible(rs, n.term, n.log, n.commit);
    if log' != n.log {
      PrefixBacked(s, n.term, log', n.commit);
      assert PlainReign(rs, n.term);
    }
    TakeLogLocal(n, log', rs[n.term].log);
  }

  lemma TakeLogLocal(n: Node, log': Log, leader: Log)
    requires Local(n) && |log'| > 0 && Plain(log')
    requires Agree(n.log, leader, n.applied) && Agree(log', leader, n.applied)
    ensures Local(TakeLog(n, log'))
  {
    AgreeTrans(n.log, leader, log', n.applied, n.applied);
    ReplayAgree(n.log, log', n.applied);
    AgreeShorter(n.log, log', n.applied, n.snap);
    ReplayAgree(n.log, log', n.snap);
    FoldPlain(n.base, log', n.snap, LastIndex(log'));
  }

  lemma TakeCommitNode(s: State, compacting: bool, n: Node, req: AppendRequest)
    requires Inv(s) && n.id in s.ns && s.ns[n.id] == PeerOf(n)
    requires NodeOk(s.h, s.members, compacting, n.id, n) && n.role == Follower
    requires n.term == req.term && AppendOk(s.h.reigns, s.members, n.id, req)
    requires Agree(n.log, s.h.reigns[n.term].log, req.prevIndex + |req.entries|)
    ensures NodeOk(s.h, s.members, compacting, n.id, TakeCommit(n, req.commit))
    ensures PeerOf(TakeCommit(n, req.commit)) == PeerOf(n) && TakeCommit(n, req.commit).snap >= n.snap
    ensures TakeCommit(n, req.commit).role == n.role && TakeCommit(n, req.commit).id == n.id
    ensures AllAppliedOk(s.h.reigns, NewlyApplied(n.id, n, TakeCommit(n, req.commit)))
  {
    if req.commit > n.commit {
      var n1 := n.(commit := Min(req.commit, LastIndex(n.log)));
      FollowerBacked(s, n.term, n.log, req.commit);
      SettleNode(s.h, s.members, compacting, n.id, n1);
      assert NewlyApplied(n.id, n, TakeCommit(n, req.commit)) == NewlyApplied(n.id, n1, TakeCommit(n, req.commit));
    } else {
      assert NewlyApplied(n.id, n, n) == {};
    }
  }

  /** Everything an accepted request does to the receiver. */
  lemma FollowAppendNode(s: State, compacting: bool, n: Node, req: AppendRequest)
    requires Receiving(s, compacting, n, req) && PlainReigns(s.h.reigns)
    ensures
      var n' := FollowAppend(n, req);
      && n'.id == n.id && n'.term == n.term && n'.role == Follower && n'.snap >= n.snap && |n'.log| > 0
      && Inv(State(s.members, s.ns[n.id := PeerOf(n')], RecordAck(s.h, Ack(n.term, n.id, req.prevIndex + |req.entries|))))
      && NodeOk(s.h, s.members, compacting, n.id, n')
      && AllAppliedOk(s.h.reigns, NewlyApplied(n.id, n, n'))
  {
    TakeEntriesNode(s, compacting, n, req);
    var n1 := TakeEntries(n, req);
    var s1 := s.(ns := s.ns[n.id := PeerOf(n1)]);
    AcknowledgeInv(s1, n.id, req.prevIndex + |req.entries|);
    TakeCommitNode(s1, compacting, n1, req);
    assert NewlyApplied(n.id, n, FollowAppend(n, req)) == NewlyApplied(n.id, n1, FollowAppend(n, req));
  }

  lemma RecordAckGrows(h: History, a: Ack, v: Id)
    ensures HistoryGrows(h, RecordAck(h, a)) && OthersUntouched(h.reigns, RecordAck(h, a).reigns, v)
  {
    GrowsRefl(h.reigns);
  }

  lemma NodeOkSameHistory(h: History, h': History, members: set<Id>, compacting: bool, v: Id, n: Node)
    requires NodeOk(h, members, compacting, v, n)
    requires h'.reigns == h.reigns && h'.ballots == h.ballots && h'.counted == h.counted
    ensures NodeOk(h', members, compacting, v, n)
  {
    if n.role == Candidate {
      forall u | u in n.votes
        ensures VotedFor(h'.ballots, n.term, u, n.id, n.log)
      {
        assert VotedFor(h.ballots, n.term, u, n.id, n.log);
      }
    }
  }

  /** Receiving AppendEntries leaves a good node. */
  lemma ReceiveGood(c: Cluster, v: Id, req: AppendRequest)
    requires Base(c) && v in c.nodes && |c.nodes[v].log| > 0 && AppendOk(c.h.reigns, c.members, v, req)
    ensures Good(c, v, OnAppend(c.nodes[v], req).0, ReceiveAppend(c, v, req).h)
  {
    if req.term < c.nodes[v].term {
      StutterGood(c, v);
    } else if PrevMatches(c.nodes[v], req) {
      ReceiveTakes(c, v, req);
    } else {
      ReceiveRefuses(c, v, req);
    }
  }

  lemma ReceiveTakes(c: Cluster, v: Id, req: AppendRequest)
    requires Base(c) && v in c.nodes && |c.nodes[v].log| > 0 && AppendOk(c.h.reigns, c.members, v, req)
    requires req.term >= c.nodes[v].term && PrevMatches(c.nodes[v], req)
    ensures Good(c, v, OnAppend(c.nodes[v], req).0, ReceiveAppend(c, v, req).h)
  {
    var n1 := Heard(c.nodes[v], req.term, req.leader);
    HeardNode(c, v, req.term, req.leader);
    ReceiveAccepts(c, v, n1, req);
    ReceivedHistory(c, v, req);
  }

  lemma ReceivedHistory(c: Cluster, v: Id, req: AppendRequest)
    requires v in c.nodes && |c.nodes[v].log| > 0 && req.term >= c.nodes[v].term && PrevMatches(c.nodes[v], req)
    ensures OnAppend(c.nodes[v], req).0 == FollowAppend(Heard(c.nodes[v], req.term, req.leader), req)
    ensures ReceiveAppend(c, v, req).h == RecordAck(c.h, Ack(req.term, v, req.prevIndex + |req.entries|))
  {
  }

  lemma ReceiveRefuses(c: Cluster, v: Id, req: AppendRequest)
    requires Base(c) && v in c.nodes && |c.nodes[v].log| > 0
    requires req.term >= c.nodes[v].term && !PrevMatches(c.nodes[v], req)
    ensures Good(c, v, OnAppend(c.nodes[v], req).0, ReceiveAppend(c, v, req).h)
  {
    var n1 := Heard(c.nodes[v], req.term, req.leader);
    HeardNode(c, v, req.term, req.leader);
    HeardGood(c, v, n1);
    assert OnAppend(c.nodes[v], req).0 == n1;
  }

  lemma HeardNode(c: Cluster, v: Id, t: nat, leader: Id)
    requires Base(c) && v in c.nodes && |c.nodes[v].log| > 0 && t >= c.nodes[v].term
    ensures
      var n1 := Heard(c.nodes[v], t, leader);
      && Evolves(c.nodes[v], n1) && n1.applied == c.nodes[v].applied && n1.role == Follower && n1.term == t
      && Inv(State(c.members, Peers(c.nodes)[v := PeerOf(n1)], c.h))
      && NodeOk(c.h, c.members, c.compacting, v, n1)
  {
    var n := c.nodes[v];
    BaseNode(c, v);
    FollowerNode(ViewOf(c), c.compacting, n, t, leader);
    assert Heard(n, t, leader) == BecomeFollower(n, t, leader);
  }

  lemma StutterGood(c: Cluster, v: Id)
    requires Base(c) && v in c.nodes
    ensures Good(c, v, c.nodes[v], c.h)
  {
    BaseNode(c, v);
    GrowsRefl(c.h.reigns);
    assert Peers(c.nodes)[v := PeerOf(c.nodes[v])] == Peers(c.nodes);
  }

  lemma HeardGood(c: Cluster, v: Id, n1: Node)
    requires Base(c) && v in c.nodes && Evolves(c.nodes[v], n1) && n1.applied == c.nodes[v].applied
    requires Inv(State(c.members, Peers(c.nodes)[v := PeerOf(n1)], c.h))
    requires NodeOk(c.h, c.members, c.compacting, v, n1)
    ensures Good(c, v, n1, c.h)
  {
    BaseNode(c, v);
    GrowsRefl(c.h.reigns);
    assert NewlyApplied(v, c.nodes[v], n1) == {};
  }

  lemma ReceiveAccepts(c: Cluster, v: Id, n1: Node, req: AppendRequest)
    requires Base(c) && v in c.nodes && Evolves(c.nodes[v], n1) && n1.applied == c.nodes[v].applied
    requires Inv(State(c.members, Peers(c.nodes)[v := PeerOf(n1)], c.h))
    requires NodeOk(c.h, c.members, c.compacting, v, n1) && n1.role == Follower && n1.term == req.term
    requires AppendOk(c.h.reigns, c.members, v, req) && PrevMatches(n1, req)
    ensures Good(c, v, FollowAppend(n1, req), RecordAck(c.h, Ack(req.term, v, req.prevIndex + |req.entries|)))
  {
    BaseNode(c, v);
    var s1 := State(c.members, Peers(c.nodes)[v := PeerOf(n1)], c.h);
    FollowAppendNode(s1, c.compacting, n1, req);
    var n' := FollowAppend(n1, req);
    var a := Ack(req.term, v, req.prevIndex + |req.entries|);
    assert Peers(c.nodes)[v := PeerOf(n1)][v := PeerOf(n')] == Peers(c.nodes)[v := PeerOf(n')];
    RecordAckGrows(c.h, a, v);
    NodeOkSameHistory(c.h, RecordAck(c.h, a), c.members, c.compacting, v, n');
    assert NewlyApplied(v, c.nodes[v], n') == NewlyApplied(v, n1, n');
  }

  lemma AppendReqBase(c: Cluster, pkt: Packet)
    requires Base(c) && pkt in c.net && pkt.AppendReq? && pkt.to in c.nodes && |c.nodes[pkt.to].log| > 0
    ensures Base(DoAppendReq(c, pkt)) && Progress(c, DoAppendReq(c, pkt))
  {
    BasePacket(c, pkt);
    ReceiveGood(c, pkt.to, pkt.append);
    GoodStep(c, DoAppendReq(c, pkt), pkt.to, OnAppend(c.nodes[pkt.to], pkt.append).0);
  }

  lemma ProbeReqBase(c: Cluster, pkt: Packet)
    requires Base(c) && pkt in c.net && pkt.ProbeReq? && pkt.to in c.nodes && |c.nodes[pkt.to].log| > 0
    ensures Base(DoProbeReq(c, pkt)) && Progress(c, DoProbeReq(c, pkt))
  {
    BasePacket(c, pkt);
    ReceiveGood(c, pkt.to, pkt.append);
    GoodStep(c, DoProbeReq(c, pkt), pkt.to, OnAppend(c.nodes[pkt.to], pkt.append).0);
  }

  // ---------------------------------------------------------------- replies

  /** The leader counts an acknowledgement the follower is bound by. */
  lemma CountGood(c: Cluster, v: Id, p: Id, m: nat)
    requires Base(c) && v in c.nodes && c.nodes[v].role == Leader && |c.nodes[v].log| > 0
    requires Ack(c.nodes[v].term, p, m) in c.h.acks
    ensures CountMatch(c.nodes[v], p, m).term == c.nodes[v].term && c.nodes[v].term in c.h.reigns
    ensures Good(c, v, CountMatch(c.nodes[v], p, m), RecordMatch(c.h, c.nodes[v], p, m, CountMatch(c.nodes[v], p, m)))
  {
    var n := c.nodes[v];
    BaseNode(c, v);
    var a := Ack(n.term, p, m);
    var n1 := n.(matchIndex := n.matchIndex[p := m], nextIndex := n.nextIndex[p := m + 1]);
    var h1 := RecordCount(c.h, a);
    CountInv(ViewOf(c), a);
    assert Peers(c.nodes)[v := PeerOf(n1)] == Peers(c.nodes);
    GrowsRefl(c.h.reigns);
    forall q | Lookup(n1.matchIndex, q) > 0
      ensures Ack(n1.term, q, Lookup(n1.matchIndex, q)) in h1.counted
    {
      assert q != p ==> Lookup(n.matchIndex, q) == Lookup(n1.matchIndex, q);
    }
    FinishFrom(c, v, n1, h1);
  }

  lemma AppendRspBase(c: Cluster, pkt: Packet)
    requires Base(c) && pkt.AppendRsp? && pkt.to in c.nodes && |c.nodes[pkt.to].log| > 0
    requires c.nodes[pkt.to].role == Leader && c.nodes[pkt.to].term == pkt.append.term && pkt.appendResp.success ==>
               Ack(pkt.append.term, pkt.from, pkt.append.prevIndex + |pkt.append.entries|) in c.h.acks
    ensures Base(DoAppendRsp(c, pkt)) && Progress(c, DoAppendRsp(c, pkt))
  {
    var v, n, req, resp := pkt.to, c.nodes[pkt.to], pkt.append, pkt.appendResp;
    var c' := DoAppendRsp(c, pkt);
    if n.role != Leader || n.term != req.term {
      StutterGood(c, v);
      GoodQuietStep(c, c', v, n);
    } else if resp.term > n.term {
      StepDownBase(c, c', v, resp.term, "");
    } else if resp.success {
      CountGood(c, v, pkt.from, req.prevIndex + |req.entries|);
      GoodQuietStep(c, c', v, c'.nodes[v]);
    } else {
      NextIndexGood(c, v, c'.nodes[v]);
      GoodQuietStep(c, c', v, c'.nodes[v]);
    }
  }
}
