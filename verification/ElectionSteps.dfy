/** Timeouts, votes, client writes and stepping down keep the cluster invariant. */
module ElectionSteps {
  import opened RaftTypes
  import opened Quorums
  import opened Logs
  import opened History
  import opened NodeSpec
  import opened Protocol
  import opened Effects
  import opened Cluster
  import opened ClusterInv
  import opened LeaderSteps

  lemma BaseNode(c: Cluster, v: Id)
    requires Base(c) && v in c.nodes
    ensures NodeOk(c.h, c.members, c.compacting, v, c.nodes[v])
    ensures ViewOf(c).ns[v] == PeerOf(c.nodes[v])
    ensures Inv(ViewOf(c)) && PlainReigns(c.h.reigns) && "" !in c.members && c.nodes.Keys == c.members
  {
    assert Within(c, true);
  }

  lemma BasePacket(c: Cluster, pkt: Packet)
    requires Base(c) && pkt in c.net
    ensures Truthful(c.h, c.members, c.nodes, pkt)
  {
    assert Within(c, true);
  }

  lemma RecordVoteGrows(h: History, n: Node)
    ensures HistoryGrows(h, RecordVote(h, n))
    ensures OthersUntouched(h.reigns, RecordVote(h, n).reigns, n.id)
  {
    GrowsRefl(h.reigns);
  }

  // ---------------------------------------------------------------- campaigning

  lemma CampaignNode(s: State, compacting: bool, n: Node)
    requires Inv(s) && n.id in s.ns && s.ns[n.id] == PeerOf(n) && n.id != ""
    requires NodeOk(s.h, s.members, compacting, n.id, n)
    ensures Inv(State(s.members, s.ns[n.id := PeerOf(Campaigner(n))], RecordVote(s.h, Campaigner(n))))
    ensures NodeOk(RecordVote(s.h, Campaigner(n)), s.members, compacting, n.id, Campaigner(n))
    ensures (n.term + 1, n.id) !in s.h.ballots
  {
    var v, t, cand := n.id, n.term + 1, Campaigner(n);
    assert Inside(s, true);
    RaiseInv(s, v, t);
    var s1 := Raise(s, v, t);
    NotVotedYet(s1, v);
    VoteInv(s1, v, v);
    var s2 := Vote(s1, v, v);
    assert s2.h == RecordVote(s.h, cand);
    assert s2.ns == s.ns[v := PeerOf(cand)];
    BackedGrows(s.h.reigns, s.h.reigns, n.term, t, n.log, n.commit) by {
      GrowsRefl(s.h.reigns);
    }
    assert LogOk(s.ns, s.h.reigns, v);
    assert t in s.h.reigns ==> LeaderOk(s.ns, s.h.reigns, t);
    assert VotedFor(s2.h.ballots, t, v, v, n.log);
  }

  lemma TimeoutBase(c: Cluster, v: Id)
    requires Base(c) && v in c.nodes && |c.nodes[v].log| > 0
    ensures Base(DoTimeout(c, v)) && Progress(c, DoTimeout(c, v))
  {
    var n := c.nodes[v];
    var cand := Campaigner(n);
    BaseNode(c, v);
    TimeoutShape(c, v);
    CampaignNode(ViewOf(c), c.compacting, n);
    var h1 := RecordVote(c.h, cand);
    if |cand.votes| >= MajoritySize(cand.peers.Keys) {
      TimeoutElects(c, DoTimeout(c, v), v, cand, h1);
    } else {
      TimeoutWaits(c, DoTimeout(c, v), v, cand, h1);
    }
  }

  lemma TimeoutShape(c: Cluster, v: Id)
    requires v in c.nodes && |c.nodes[v].log| > 0 && !c.nodes[v].joining && c.nodes[v].id in c.nodes[v].peers
    ensures
      var cand := Campaigner(c.nodes[v]);
      var h1 := RecordVote(c.h, cand);
      if |cand.votes| >= MajoritySize(cand.peers.Keys)
      then BecomeLeader(cand).role == Leader && DoTimeout(c, v) ==
             Update(c, v, BecomeLeader(cand)).(h := RecordElection(h1, cand, BecomeLeader(cand)), net := c.net + Requests(cand))
      else DoTimeout(c, v) == Update(c, v, cand).(h := h1, net := c.net + Requests(cand))
  {
  }

  lemma TimeoutElects(c: Cluster, c': Cluster, v: Id, cand: Node, h1: History)
    requires Base(c) && v in c.nodes && |c.nodes[v].log| > 0
    requires cand == Campaigner(c.nodes[v]) && h1 == RecordVote(c.h, cand) && cand.id == v
    requires |cand.votes| >= MajoritySize(cand.peers.Keys)
    requires Inv(State(c.members, Peers(c.nodes)[v := PeerOf(cand)], h1))
    requires NodeOk(h1, c.members, c.compacting, v, cand)
    requires c' == Update(c, v, BecomeLeader(cand)).(h := RecordElection(h1, cand, BecomeLeader(cand)), net := c.net + Requests(cand))
    ensures Base(c') && Progress(c, c')
  {
    BaseNode(c, v);
    RecordVoteGrows(c.h, cand);
    WinFrom(c, v, cand, h1);
    TimeoutWins(c, c', v, c'.nodes[v]);
  }

  /** A candidate of node `v`, with a majority of votes recorded in `h1`, becomes leader. */
  lemma WinFrom(c: Cluster, v: Id, cand: Node, h1: History)
    requires v in c.nodes && |cand.log| > 0 && |cand.votes| >= MajoritySize(c.members)
    requires PlainReigns(c.h.reigns) && c.nodes.Keys == c.members
    requires HistoryGrows(c.h, h1) && h1.reigns == c.h.reigns
    requires Inv(State(c.members, Peers(c.nodes)[v := PeerOf(cand)], h1))
    requires NodeOk(h1, c.members, c.compacting, v, cand) && cand.role == Candidate
    requires c.nodes[v].id == v && c.nodes[v].term <= cand.term && c.nodes[v].snap == cand.snap
    requires c.nodes[v].applied == cand.applied
    ensures Good(c, v, BecomeLeader(cand), RecordElection(h1, cand, BecomeLeader(cand)))
    ensures RecordElection(h1, cand, BecomeLeader(cand)).ballots == h1.ballots
    ensures BecomeLeader(cand).role == Leader && BecomeLeader(cand).term == cand.term && BecomeLeader(cand).id == v
    ensures |BecomeLeader(cand).log| > 0
  {
    var s1 := State(c.members, Peers(c.nodes)[v := PeerOf(cand)], h1);
    WinNode(s1, c.compacting, cand);
    var n' := BecomeLeader(cand);
    WinFromRecords(c, v, cand, h1, n', RecordElection(h1, cand, n'));
  }

  lemma WinFromRecords(c: Cluster, v: Id, cand: Node, h1: History, n': Node, h': History)
    requires v in c.nodes && c.nodes[v].applied == cand.applied
    requires HistoryGrows(c.h, h1) && h1.reigns == c.h.reigns
    requires HistoryGrows(h1, h') && OthersUntouched(h1.reigns, h'.reigns, v)
    ensures Peers(c.nodes)[v := PeerOf(cand)][v := PeerOf(n')] == Peers(c.nodes)[v := PeerOf(n')]
    ensures NewlyApplied(v, c.nodes[v], n') == NewlyApplied(v, cand, n')
    ensures HistoryGrows(c.h, h') && OthersUntouched(c.h.reigns, h'.reigns, v)
  {
    HistoryTrans(c.h, h1, h', v);
  }

  lemma TimeoutWaits(c: Cluster, c': Cluster, v: Id, cand: Node, h1: History)
    requires Base(c) && v in c.nodes && |c.nodes[v].log| > 0
    requires cand == Campaigner(c.nodes[v]) && h1 == RecordVote(c.h, cand) && cand.id == v
    requires Inv(State(c.members, Peers(c.nodes)[v := PeerOf(cand)], h1))
    requires NodeOk(h1, c.members, c.compacting, v, cand)
    requires c' == Update(c, v, cand).(h := h1, net := c.net + Requests(cand))
    ensures Base(c') && Progress(c, c')
  {
    BaseNode(c, v);
    RecordVoteGrows(c.h, cand);
    assert NewlyApplied(v, c.nodes[v], cand) == {};
    TimeoutRecords(c, c', v, cand);
    GoodStep(c, c', v, cand);
  }

  /** A lone member elects itself at once. */
  lemma TimeoutWins(c: Cluster, c': Cluster, v: Id, n': Node)
    requires Base(c) && v in c.nodes && |c.nodes[v].log| > 0 && Good(c, v, n', c'.h)
    requires n'.id == v && n'.term == c.nodes[v].term + 1 && n'.role == Leader && |n'.log| > 0
    requires c' == Update(c, v, n').(h := c'.h, net := c.net + Requests(Campaigner(c.nodes[v])))
    requires c'.h.ballots == RecordVote(c.h, Campaigner(c.nodes[v])).ballots
    ensures Base(c') && Progress(c, c')
  {
    TimeoutRecords(c, c', v, n');
    GoodStep(c, c', v, n');
  }

  lemma TimeoutRecords(c: Cluster, c': Cluster, v: Id, n': Node)
    requires Base(c) && v in c.nodes && |c.nodes[v].log| > 0
    requires c'.members == c.members && c'.nodes == c.nodes[v := n']
    requires n'.id == v && n'.term == c.nodes[v].term + 1 && |n'.log| > 0
    requires n'.role == Candidate ==> n'.log == c.nodes[v].log
    requires c'.h.ballots == RecordVote(c.h, Campaigner(c.nodes[v])).ballots
    requires c'.net == c.net + Requests(Campaigner(c.nodes[v]))
    ensures NewBallotsFresh(c, c') && NewPacketsTruthful(c, c')
  {
    BaseNode(c, v);
    forall pkt | pkt in c'.net && pkt !in c.net
      ensures Truthful(c'.h, c'.members, c'.nodes, pkt)
    {
      assert pkt in Requests(Campaigner(c.nodes[v]));
    }
  }

  // ---------------------------------------------------------------- stepping down

  lemma FollowerNode(s: State, compacting: bool, n: Node, t: nat, leader: Id)
    requires Inv(s) && n.id in s.ns && s.ns[n.id] == PeerOf(n)
    requires NodeOk(s.h, s.members, compacting, n.id, n)
    ensures Inv(s.(ns := s.ns[n.id := PeerOf(BecomeFollower(n, t, leader))]))
    ensures NodeOk(s.h, s.members, compacting, n.id, BecomeFollower(n, t, leader))
  {
    GrowsRefl(s.h.reigns);
    if t > n.term {
      RaiseInv(s, n.id, t);
      BackedGrows(s.h.reigns, s.h.reigns, n.term, t, n.log, n.commit);
    }
    assert s.ns[n.id := PeerOf(n)] == s.ns;
  }

  lemma StepDownBase(c: Cluster, c': Cluster, v: Id, t: nat, leader: Id)
    requires Base(c) && v in c.nodes
    requires c' == c.(nodes := c.nodes[v := BecomeFollower(c.nodes[v], t, leader)], calls := c'.calls, queries := c'.queries)
    ensures Base(c') && Progress(c, c')
  {
    var n' := BecomeFollower(c.nodes[v], t, leader);
    BaseNode(c, v);
    FollowerNode(ViewOf(c), c.compacting, c.nodes[v], t, leader);
    GrowsRefl(c.h.reigns);
    GoodQuietStep(c, c', v, n');
  }

  // ---------------------------------------------------------------- votes

  lemma VoteReqBase(c: Cluster, pkt: Packet)
    requires Base(c) && pkt in c.net && pkt.VoteReq? && pkt.to in c.nodes && |c.nodes[pkt.to].log| > 0
    ensures Base(DoVoteReq(c, pkt)) && Progress(c, DoVoteReq(c, pkt))
  {
    var v, req, n := pkt.to, pkt.vote, c.nodes[pkt.to];
    var (n', resp) := OnVoteRequest(n, req);
    BaseNode(c, v);
    BasePacket(c, pkt);
    VoteReqNode(ViewOf(c), c.compacting, n, req);
    VoteOutcomeHolds(n, req);
    Voted(c, DoVoteReq(c, pkt), v, req, n', resp);
  }

  /** What a vote request does, as far as the rest of the cluster can tell. */
  ghost predicate VoteOutcome(n: Node, req: VoteRequest, n': Node, resp: VoteResponse) {
    && n'.id == n.id && n'.log == n.log && n'.snap == n.snap && n'.applied == n.applied
    && n'.term >= n.term && |n.log| > 0
    && (n'.term > n.term ==> n'.role == Follower) && (n'.term == n.term ==> n'.role == n.role)
    && (resp.granted ==> n'.term == req.term && n'.vote == req.candidate && AtLeastAsUpToDate(req.lastIndex, req.lastTerm, n.log))
    && (!resp.granted ==> n'.vote == "" || (n'.term == n.term && n'.vote == n.vote))
  }

  lemma VoteOutcomeHolds(n: Node, req: VoteRequest)
    requires |n.log| > 0
    ensures VoteOutcome(n, req, OnVoteRequest(n, req).0, OnVoteRequest(n, req).1)
  {
    var (n', resp) := OnVoteRequest(n, req);
    if req.term < n.term {
      assert n' == n && !resp.granted;
    } else if req.term > n.term {
      var n1 := BecomeFollower(n, req.term, "");
      assert n1.log == n.log && n1.vote == "" && n1.role == Follower;
    }
  }

  lemma VoteReqNode(s: State, compacting: bool, n: Node, req: VoteRequest)
    requires Inv(s) && n.id in s.ns && s.ns[n.id] == PeerOf(n) && |n.log| > 0
    requires NodeOk(s.h, s.members, compacting, n.id, n)
    requires req.candidate != "" && req.term >= 1 && n.id != ""
    ensures
      var n' := OnVoteRequest(n, req).0;
      && Inv(State(s.members, s.ns[n.id := PeerOf(n')], RecordVote(s.h, n')))
      && NodeOk(RecordVote(s.h, n'), s.members, compacting, n.id, n')
  {
    if req.term > n.term {
      var n1 := NoteTerm(n, req.term);
      FollowerNode(s, compacting, n, req.term, "");
      ConsiderNode(s.(ns := s.ns[n.id := PeerOf(n1)]), compacting, n1, req);
      assert s.ns[n.id := PeerOf(n1)][n.id := PeerOf(Consider(n1, req))] == s.ns[n.id := PeerOf(Consider(n1, req))];
    } else if req.term == n.term {
      assert NoteTerm(n, req.term) == n;
      ConsiderNode(s, compacting, n, req);
    } else {
      VotingNode(s, compacting, n, n, req.candidate);
    }
  }

  lemma ConsiderNode(s: State, compacting: bool, n: Node, req: VoteRequest)
    requires Inv(s) && n.id in s.ns && s.ns[n.id] == PeerOf(n) && |n.log| > 0
    requires NodeOk(s.h, s.members, compacting, n.id, n)
    requires req.candidate != "" && n.term >= 1 && n.id != ""
    ensures Inv(State(s.members, s.ns[n.id := PeerOf(Consider(n, req))], RecordVote(s.h, Consider(n, req))))
    ensures NodeOk(RecordVote(s.h, Consider(n, req)), s.members, compacting, n.id, Consider(n, req))
  {
    VotingNode(s, compacting, n, Consider(n, req), req.candidate);
  }

  lemma Voted(c: Cluster, c': Cluster, v: Id, req: VoteRequest, n': Node, resp: VoteResponse)
    requires Base(c) && v in c.nodes && VoteOutcome(c.nodes[v], req, n', resp)
    requires VoteReqOk(c.nodes, req) && req.candidate != ""
    requires Inv(State(c.members, Peers(c.nodes)[v := PeerOf(n')], RecordVote(c.h, n')))
    requires NodeOk(RecordVote(c.h, n'), c.members, c.compacting, v, n')
    requires c' == Update(c, v, n').(h := RecordVote(c.h, n'), net := c.net + {VoteRsp(v, req.candidate, req.term, resp)})
    ensures Base(c') && Progress(c, c')
  {
    BaseNode(c, v);
    RecordVoteGrows(c.h, n');
    assert NewlyApplied(v, c.nodes[v], n') == {};
    VotedRecords(c, c', v, req, n', resp);
    GoodStep(c, c', v, n');
  }

  lemma VotedRecords(c: Cluster, c': Cluster, v: Id, req: VoteRequest, n': Node, resp: VoteResponse)
    requires Base(c) && v in c.nodes && VoteOutcome(c.nodes[v], req, n', resp)
    requires VoteReqOk(c.nodes, req) && req.candidate != ""
    requires Inv(State(c.members, Peers(c.nodes)[v := PeerOf(n')], RecordVote(c.h, n')))
    requires c' == Update(c, v, n').(h := RecordVote(c.h, n'), net := c.net + {VoteRsp(v, req.candidate, req.term, resp)})
    ensures NewBallotsFresh(c, c') && NewPacketsTruthful(c, c')
  {
    var n := c.nodes[v];
    var s' := State(c.members, Peers(c.nodes)[v := PeerOf(n')], RecordVote(c.h, n'));
    BaseNode(c, v);
    assert Inside(ViewOf(c), true) && Inside(s', true);
    assert VoteRecorded(ViewOf(c).ns, c.h.ballots, v) && VoteRecorded(s'.ns, s'.h.ballots, v);
    assert (n'.term, v) in s'.h.ballots ==> BallotOk(s'.ns, s'.h.reigns, s'.h.ballots, n'.term, v);
    assert NewBallotsFresh(c, c');
    assert NewPacketsTruthful(c, c');
  }

  /** A node that keeps its vote or casts a first one. */
  lemma VotingNode(s: State, compacting: bool, n: Node, n': Node, cand: Id)
    requires Inv(s) && n.id in s.ns && s.ns[n.id] == PeerOf(n)
    requires NodeOk(s.h, s.members, compacting, n.id, n)
    requires cand != "" && n.id != "" && (n.vote == "" ==> n.term >= 1 || n' == n)
    requires n' == n || (n' == n.(vote := cand) && (n.vote == "" || n.vote == cand))
    ensures Inv(State(s.members, s.ns[n.id := PeerOf(n')], RecordVote(s.h, n')))
    ensures NodeOk(RecordVote(s.h, n'), s.members, compacting, n.id, n')
  {
    assert Inside(s, true);
    assert VoteRecorded(s.ns, s.h.ballots, n.id);
    if n.vote == "" && n' != n {
      NotVotedYet(s, n.id);
      VoteInv(s, n.id, cand);
      assert Vote(s, n.id, cand) == State(s.members, s.ns[n.id := PeerOf(n')], RecordVote(s.h, n'));
    } else {
      assert n'.vote == n.vote;
      assert s.ns[n.id := PeerOf(n')] == s.ns;
      assert State(s.members, s.ns, s.h) == s;
    }
  }

  lemma VoteRspBase(c: Cluster, pkt: Packet)
    requires Base(c) && pkt in c.net && pkt.VoteRsp? && pkt.to in c.nodes && |c.nodes[pkt.to].log| > 0
    ensures Base(DoVoteRsp(c, pkt)) && Progress(c, DoVoteRsp(c, pkt))
  {
    var v, n, resp := pkt.to, c.nodes[pkt.to], pkt.voteResp;
    var c' := DoVoteRsp(c, pkt);
    if resp.term > n.term {
      StepDownBase(c, c', v, resp.term, "");
    } else if n.role == Candidate && n.term == pkt.asked && resp.granted {
      VoteCounted(c, pkt);
    } else {
      assert c.nodes[v := n] == c.nodes;
      assert c' == c;
      SameProgress(c, c');
    }
  }

  lemma VoteCounted(c: Cluster, pkt: Packet)
    requires Base(c) && pkt in c.net && pkt.VoteRsp? && pkt.to in c.nodes && |c.nodes[pkt.to].log| > 0
    requires c.nodes[pkt.to].role == Candidate && c.nodes[pkt.to].term == pkt.asked
    requires pkt.voteResp.granted && pkt.voteResp.term <= pkt.asked
    ensures Base(DoVoteRsp(c, pkt)) && Progress(c, DoVoteRsp(c, pkt))
  {
    var v, n := pkt.to, c.nodes[pkt.to];
    var n1 := n.(votes := n.votes + {pkt.from});
    BaseNode(c, v);
    VoteCountedNode(c, pkt);
    if |n1.votes| >= MajoritySize(n1.peers.Keys) {
      VoteElects(c, DoVoteRsp(c, pkt), v, n1);
    } else {
      VoteNoted(c, DoVoteRsp(c, pkt), v, n1);
    }
  }

  lemma VoteNoted(c: Cluster, c': Cluster, v: Id, n1: Node)
    requires Base(c) && v in c.nodes && |n1.log| > 0
    requires n1 == c.nodes[v].(votes := n1.votes) && NodeOk(c.h, c.members, c.compacting, v, n1)
    requires c' == Update(c, v, n1)
    ensures Base(c') && Progress(c, c')
  {
    BaseNode(c, v);
    assert Peers(c.nodes)[v := PeerOf(n1)] == Peers(c.nodes);
    GrowsRefl(c.h.reigns);
    GoodQuietStep(c, c', v, n1);
  }

  lemma VoteElects(c: Cluster, c': Cluster, v: Id, n1: Node)
    requires Base(c) && v in c.nodes
    requires n1 == c.nodes[v].(votes := n1.votes) && n1.role == Candidate && |n1.log| > 0
    requires NodeOk(c.h, c.members, c.compacting, v, n1) && |n1.votes| >= MajoritySize(n1.peers.Keys)
    requires c' == Update(c, v, BecomeLeader(n1)).(h := RecordElection(c.h, n1, BecomeLeader(n1)))
    ensures Base(c') && Progress(c, c')
  {
    BaseNode(c, v);
    assert Peers(c.nodes)[v := PeerOf(n1)] == Peers(c.nodes);
    GrowsRefl(c.h.reigns);
    WinFrom(c, v, n1, c.h);
    GoodQuietStep(c, c', v, c'.nodes[v]);
  }

  lemma VoteCountedNode(c: Cluster, pkt: Packet)
    requires Base(c) && pkt in c.net && pkt.VoteRsp? && pkt.to in c.nodes
    requires c.nodes[pkt.to].role == Candidate && c.nodes[pkt.to].term == pkt.asked && pkt.voteResp.granted
    ensures NodeOk(c.h, c.members, c.compacting, pkt.to, c.nodes[pkt.to].(votes := c.nodes[pkt.to].votes + {pkt.from}))
  {
    var v, n := pkt.to, c.nodes[pkt.to];
    var n1 := n.(votes := n.votes + {pkt.from});
    BaseNode(c, v);
    BasePacket(c, pkt);
    assert Within(c, true);
    assert BallotFresh(c.nodes, c.h.ballots, pkt.asked, pkt.from);
    forall u | u in n1.votes
      ensures VotedFor(c.h.ballots, n1.term, u, n1.id, n1.log)
    {
      if u in n.votes {
        assert VotedFor(c.h.ballots, n.term, u, n.id, n.log);
      }
    }
  }
}
