/** What holds however many calls are outstanding: terms, votes, leaders and the shape of logs
    depend on ballots and on the logs of leaders alone, not on who has acknowledged what. */
module Elections {
  import opened RaftTypes
  import opened Quorums
  import opened Logs
  import opened History
  import opened NodeSpec
  import opened NodeFacts
  import opened Protocol
  import opened Effects
  import opened Cluster
  import opened ClusterInv
  import opened LeaderSteps
  import opened ElectionSteps
  import opened ReplicationSteps
  import opened Safety
  import opened Commits
  import opened Loose

  // ---------------------------------------------------------------- the invariant

  /** The history without acknowledgements and commits. */
  function Bare(h: History): History {
    History(map t | t in h.reigns :: h.reigns[t].(commit := 0), h.ballots, {}, {})
  }

  function BareView(c: Cluster): State { State(c.members, Peers(c.nodes), Bare(c.h)) }

  ghost predicate Seated(h: History, members: set<Id>, v: Id, n: Node) {
    && n.id == v
    && Sane(n) && Plain(n.log)
    && n.peers == n.base && n.peers.Keys == members
    && (n.role == Leader ==> n.term in h.reigns && h.reigns[n.term].leader == v)
    && (n.role == Candidate ==> CandidateRole(h, members, n))
  }

  ghost predicate AllSeated(c: Cluster) {
    forall v {:trigger Seated(Bare(c.h), c.members, v, c.nodes[v])} ::
      v in c.nodes ==> Seated(Bare(c.h), c.members, v, c.nodes[v])
  }

  /** The request is a slice of its leader's log. */
  ghost predicate Slice(rs: Reigns, to: Id, req: AppendRequest) {
    && req.term in rs && rs[req.term].leader == req.leader && to != req.leader
    && req.prevIndex + |req.entries| < |rs[req.term].log|
    && req.prevTerm == rs[req.term].log[req.prevIndex].term
    && req.entries == rs[req.term].log[req.prevIndex + 1..req.prevIndex + 1 + |req.entries|]
  }

  /** The request stands for a prefix of its leader's log. */
  ghost predicate Prefix(rs: Reigns, members: set<Id>, to: Id, req: SnapshotRequest, prefix: Log) {
    && req.term in rs && rs[req.term].leader == req.leader && to != req.leader
    && req.lastIndex < |rs[req.term].log|
    && prefix == rs[req.term].log[..req.lastIndex + 1]
    && req.peers.Keys == members
  }

  ghost predicate Honest(h: History, members: set<Id>, nodes: map<Id, Node>, pkt: Packet) {
    match pkt
    case VoteReq(_, req) => VoteReqOk(nodes, req)
    case VoteRsp(from, to, asked, resp) => VoteRspOk(h, members, from, to, asked, resp)
    case AppendReq(_, to, req) => Slice(h.reigns, to, req)
    case ProbeReq(_, to, req) => Slice(h.reigns, to, req)
    case SnapReq(_, to, req, prefix) => Prefix(h.reigns, members, to, req, prefix)
    case _ => true
  }

  ghost predicate NetHonest(c: Cluster) {
    forall pkt {:trigger Honest(Bare(c.h), c.members, c.nodes, pkt)} ::
      pkt in c.net ==> Honest(Bare(c.h), c.members, c.nodes, pkt)
  }

  ghost predicate LawfulPieces(c: Cluster) {
    && c.members != {} && "" !in c.members && c.nodes.Keys == c.members
    && Inv(BareView(c))
    && AllSeated(c)
    && BallotsFresh(c.nodes, c.h.ballots)
    && PlainReigns(Bare(c.h).reigns)
    && NetHonest(c)
  }

  /** As with `Base`, proofs look inside by mentioning `Within`. */
  ghost predicate Lawful(c: Cluster) {
    forall k {:trigger Within(c, k)} :: Within(c, k) ==> LawfulPieces(c)
  }

  lemma LawfulNode(c: Cluster, v: Id)
    requires Lawful(c) && v in c.nodes
    ensures Seated(Bare(c.h), c.members, v, c.nodes[v]) && BareView(c).ns[v] == PeerOf(c.nodes[v])
    ensures Inv(BareView(c)) && PlainReigns(Bare(c.h).reigns) && "" !in c.members && c.nodes.Keys == c.members
  {
    assert Within(c, true);
    assert Seated(Bare(c.h), c.members, v, c.nodes[v]);
  }

  lemma LawfulPacket(c: Cluster, pkt: Packet)
    requires Lawful(c) && pkt in c.net
    ensures Honest(Bare(c.h), c.members, c.nodes, pkt)
  {
    assert Within(c, true);
  }

  /** What every step keeps of the past. */
  ghost predicate Onward(c: Cluster, c': Cluster) {
    forall k {:trigger Within(c', k)} :: Within(c', k) ==>
      c'.members == c.members && AllEvolve(c.nodes, c'.nodes) && HistoryGrows(Bare(c.h), Bare(c'.h))
  }

  // ---------------------------------------------------------------- a step of one node

  lemma HonestGrows(h: History, h': History, members: set<Id>, nodes: map<Id, Node>, nodes': map<Id, Node>, pkt: Packet)
    requires HistoryGrows(h, h') && AllEvolve(nodes, nodes') && Honest(h, members, nodes, pkt)
    ensures Honest(h', members, nodes', pkt)
  {
    match pkt
    case VoteReq(_, req) => assert EvolvesAt(nodes, nodes', req.candidate);
    case VoteRsp(from, _, asked, resp) => assert resp.granted ==> (asked, from) in h'.ballots;
    case AppendReq(_, _, req) => assert ReignGrows(h.reigns, h'.reigns, req.term);
    case ProbeReq(_, _, req) => assert ReignGrows(h.reigns, h'.reigns, req.term);
    case SnapReq(_, _, req, _) => assert ReignGrows(h.reigns, h'.reigns, req.term);
    case _ =>
  }

  lemma SeatedGrows(h: History, h': History, members: set<Id>, v: Id, w: Id, n: Node)
    requires HistoryGrows(h, h') && OthersUntouched(h.reigns, h'.reigns, w) && v != w && Seated(h, members, v, n)
    ensures Seated(h', members, v, n)
  {
    if n.role == Leader {
      assert ReignGrows(h.reigns, h'.reigns, n.term);
    } else if n.role == Candidate {
      assert n.term in h.reigns ==> ReignGrows(h.reigns, h'.reigns, n.term);
      forall u | u in n.votes
        ensures VotedFor(h'.ballots, n.term, u, n.id, n.log)
      {
        assert VotedFor(h.ballots, n.term, u, n.id, n.log);
        assert (n.term, u) in h'.ballots;
      }
    }
  }

  ghost predicate NewHonest(c: Cluster, c': Cluster) {
    forall pkt {:trigger Honest(Bare(c'.h), c'.members, c'.nodes, pkt)} ::
      pkt in c'.net && pkt !in c.net ==> Honest(Bare(c'.h), c'.members, c'.nodes, pkt)
  }

  /** Node `v` becomes `n'`, and the bare history `h'`. */
  ghost predicate Fair(c: Cluster, v: Id, n': Node, h': History)
    requires v in c.nodes
  {
    && Evolves(c.nodes[v], n')
    && HistoryGrows(Bare(c.h), h') && OthersUntouched(Bare(c.h).reigns, h'.reigns, v)
    && Inv(State(c.members, Peers(c.nodes)[v := PeerOf(n')], h'))
    && Seated(h', c.members, v, n')
    && PlainReigns(h'.reigns)
  }

  lemma FairStep(c: Cluster, c': Cluster, v: Id, n': Node)
    requires Lawful(c) && v in c.nodes && Fair(c, v, n', Bare(c'.h))
    requires c'.members == c.members && c'.nodes == c.nodes[v := n']
    requires NewBallotsFresh(c, c') && NewHonest(c, c')
    ensures Lawful(c') && Onward(c, c')
  {
    assert Within(c, true);
    PeersUpdate(c.nodes, v, n');
    FairEvolves(c, c', v, n');
    FairSeats(c, c', v, n');
    FairRecords(c, c');
  }

  lemma FairEvolves(c: Cluster, c': Cluster, v: Id, n': Node)
    requires AllSeated(c) && v in c.nodes && c'.nodes == c.nodes[v := n'] && Evolves(c.nodes[v], n')
    ensures AllEvolve(c.nodes, c'.nodes)
  {
    forall w | w in c.nodes
      ensures EvolvesAt(c.nodes, c'.nodes, w)
    {
      assert Seated(Bare(c.h), c.members, w, c.nodes[w]);
    }
  }

  lemma FairSeats(c: Cluster, c': Cluster, v: Id, n': Node)
    requires AllSeated(c) && v in c.nodes && Fair(c, v, n', Bare(c'.h))
    requires c'.members == c.members && c'.nodes == c.nodes[v := n']
    ensures AllSeated(c')
  {
    forall w | w in c'.nodes
      ensures Seated(Bare(c'.h), c'.members, w, c'.nodes[w])
    {
      if w != v {
        assert Seated(Bare(c.h), c.members, w, c.nodes[w]);
        SeatedGrows(Bare(c.h), Bare(c'.h), c.members, w, v, c.nodes[w]);
      }
    }
  }

  lemma FairRecords(c: Cluster, c': Cluster)
    requires c'.members == c.members && AllEvolve(c.nodes, c'.nodes) && HistoryGrows(Bare(c.h), Bare(c'.h))
    requires BallotsFresh(c.nodes, c.h.ballots) && NetHonest(c) && NewBallotsFresh(c, c') && NewHonest(c, c')
    ensures BallotsFresh(c'.nodes, c'.h.ballots) && NetHonest(c')
  {
    forall t: nat, w | (t, w) in c'.h.ballots
      ensures BallotFresh(c'.nodes, c'.h.ballots, t, w)
    {
      if (t, w) in c.h.ballots {
        assert BallotFresh(c.nodes, c.h.ballots, t, w);
        BallotsFreshGrow(c.nodes, c'.nodes, c.h.ballots, t, w);
        assert (t, w) in Bare(c'.h).ballots;
      }
    }
    forall pkt | pkt in c'.net
      ensures Honest(Bare(c'.h), c'.members, c'.nodes, pkt)
    {
      if pkt in c.net {
        assert Honest(Bare(c.h), c.members, c.nodes, pkt);
        HonestGrows(Bare(c.h), Bare(c'.h), c.members, c.nodes, c'.nodes, pkt);
      }
    }
  }

  // ---------------------------------------------------------------- steps that only keep books

  /** Neither the term, the vote nor the log changes, and the node at most steps down. */
  ghost predicate Keeps(n: Node, n': Node) {
    && n'.id == n.id && PeerOf(n') == PeerOf(n)
    && n'.peers == n.peers && n'.base == n.base && n'.votes == n.votes
    && n.snap <= n'.snap && Sane(n')
    && (n'.role == n.role || n'.role == Follower)
  }

  lemma KeepsFair(c: Cluster, v: Id, n': Node)
    requires Lawful(c) && v in c.nodes && Keeps(c.nodes[v], n')
    ensures Fair(c, v, n', Bare(c.h))
  {
    LawfulNode(c, v);
    GrowsRefl(Bare(c.h).reigns);
    assert Peers(c.nodes)[v := PeerOf(n')] == Peers(c.nodes);
  }

  lemma KeepsLawful(c: Cluster, c': Cluster, v: Id)
    requires Lawful(c) && v in c.nodes && v in c'.nodes && Keeps(c.nodes[v], c'.nodes[v])
    requires c'.members == c.members && c'.nodes == c.nodes[v := c'.nodes[v]] && Bare(c'.h) == Bare(c.h) && NewHonest(c, c')
    ensures Lawful(c') && Onward(c, c')
  {
    KeepsFair(c, v, c'.nodes[v]);
    assert c'.h.ballots == Bare(c'.h).ballots == c.h.ballots;
    FairStep(c, c', v, c'.nodes[v]);
  }

  lemma ApplyKeepsSeat(n: Node)
    requires Sane(n) && Plain(n.log) && n.peers == n.base
    ensures Keeps(n, ApplyCommitted(n)) && ApplyCommitted(n).role == n.role
  {
    var m := Catchup(n);
    if m.applied <= LastIndex(m.log) {
      FoldPlain(m.base, m.log, m.snap, m.applied);
      FoldPlain(m.base, m.log, m.applied, LastIndex(m.log));
    }
  }

  lemma FinishKeepsSeat(n: Node)
    requires Sane(n) && Plain(n.log) && n.peers == n.base
    ensures Keeps(n, ApplyCommitted(AdvanceCommit(n))) && ApplyCommitted(AdvanceCommit(n)).role == n.role
  {
    ApplyKeepsSeat(AdvanceCommit(n));
  }

  lemma CountKeepsSeat(n: Node, p: Id, m: nat)
    requires Sane(n) && Plain(n.log) && n.peers == n.base
    ensures Keeps(n, CountMatch(n, p, m))
  {
    FinishKeepsSeat(n.(matchIndex := n.matchIndex[p := m], nextIndex := n.nextIndex[p := m + 1]));
  }

  /** Acknowledgements, counts and commits leave the bare history as it is. */
  lemma MatchIsBare(h: History, n: Node, p: Id, m: nat, n': Node)
    ensures Bare(RecordMatch(h, n, p, m, n')) == Bare(h)
  {
  }

  lemma CommitIsBare(h: History, was: nat, n: Node)
    requires n.term in h.reigns
    ensures Bare(RecordCommit(h, was, n)) == Bare(h)
  {
  }

  // ---------------------------------------------------------------- stepping down

  /** A node that hears of term `t` or later. */
  lemma DownInv(c: Cluster, v: Id, t: nat, leader: Id)
    requires Lawful(c) && v in c.nodes
    ensures
      var n1 := BecomeFollower(c.nodes[v], t, leader);
      && Evolves(c.nodes[v], n1)
      && Inv(State(c.members, Peers(c.nodes)[v := PeerOf(n1)], Bare(c.h)))
      && Seated(Bare(c.h), c.members, v, n1)
  {
    LawfulNode(c, v);
    var n, s := c.nodes[v], BareView(c);
    var n1 := BecomeFollower(n, t, leader);
    if t > n.term {
      RaiseInv(s, v, t);
      assert Raise(s, v, t) == State(c.members, Peers(c.nodes)[v := PeerOf(n1)], Bare(c.h));
    } else {
      assert Peers(c.nodes)[v := PeerOf(n1)] == Peers(c.nodes);
    }
  }

  lemma DownFair(c: Cluster, v: Id, n1: Node, t: nat, leader: Id)
    requires Lawful(c) && v in c.nodes && n1 == BecomeFollower(c.nodes[v], t, leader).(joining := n1.joining)
    ensures Fair(c, v, n1, Bare(c.h))
  {
    LawfulNode(c, v);
    DownInv(c, v, t, leader);
    GrowsRefl(Bare(c.h).reigns);
    assert PeerOf(n1) == PeerOf(BecomeFollower(c.nodes[v], t, leader));
  }

  lemma DownLawful(c: Cluster, c': Cluster, v: Id, t: nat, leader: Id)
    requires Lawful(c) && v in c.nodes && v in c'.nodes
    requires c'.nodes[v] == BecomeFollower(c.nodes[v], t, leader).(joining := c'.nodes[v].joining)
    requires c'.members == c.members && c'.nodes == c.nodes[v := c'.nodes[v]] && Bare(c'.h) == Bare(c.h) && NewHonest(c, c')
    ensures Lawful(c') && Onward(c, c')
  {
    DownFair(c, v, c'.nodes[v], t, leader);
    assert c'.h.ballots == Bare(c'.h).ballots == c.h.ballots;
    FairStep(c, c', v, c'.nodes[v]);
  }

  // ---------------------------------------------------------------- voting

  lemma VoteIsBare(h: History, n: Node)
    ensures Bare(RecordVote(h, n)) == RecordVote(Bare(h), n)
  {
  }

  /** A node that keeps its vote or casts a first one. */
  lemma VotingInv(s: State, n: Node, n': Node, cand: Id)
    requires Inv(s) && n.id in s.ns && s.ns[n.id] == PeerOf(n)
    requires cand != "" && (n.vote == "" && n' != n ==> n.term >= 1)
    requires n' == n || (n' == n.(vote := cand) && (n.vote == "" || n.vote == cand))
    ensures Inv(State(s.members, s.ns[n.id := PeerOf(n')], RecordVote(s.h, n')))
  {
    assert Inside(s, true);
    assert VoteRecorded(s.ns, s.h.ballots, n.id);
    if n.vote == "" && n' != n {
      NotVotedYet(s, n.id);
      VoteInv(s, n.id, cand);
      assert Vote(s, n.id, cand) == State(s.members, s.ns[n.id := PeerOf(n')], RecordVote(s.h, n'));
    } else {
      assert n'.vote == n.vote;
      assert s.ns[n.id := PeerOf(n')] == s.ns;
      assert State(s.members, s.ns, s.h) == s;
    }
  }

  lemma VotedInv(c: Cluster, v: Id, req: VoteRequest)
    requires Lawful(c) && v in c.nodes && |c.nodes[v].log| > 0 && req.candidate != "" && req.term >= 1
    ensures
      var n' := OnVoteRequest(c.nodes[v], req).0;
      Inv(State(c.members, Peers(c.nodes)[v := PeerOf(n')], RecordVote(Bare(c.h), n')))
  {
    var n, s := c.nodes[v], BareView(c);
    var n1, n' := NoteTerm(n, req.term), OnVoteRequest(n, req).0;
    LawfulNode(c, v);
    if req.term < n.term {
      VotingInv(s, n, n, req.candidate);
    } else if req.term == n.term {
      assert n1 == n;
      VotingInv(s, n, n', req.candidate);
    } else {
      DownInv(c, v, req.term, "");
      var s1 := State(c.members, Peers(c.nodes)[v := PeerOf(n1)], Bare(c.h));
      assert n1 == BecomeFollower(n, req.term, "");
      VotingInv(s1, n1, n', req.candidate);
      assert s1.ns[v := PeerOf(n')] == Peers(c.nodes)[v := PeerOf(n')];
    }
  }

  lemma VotedSeat(c: Cluster, v: Id, n': Node, h': History)
    requires Lawful(c) && v in c.nodes && HistoryGrows(Bare(c.h), h') && h'.reigns == Bare(c.h).reigns
    requires n' == c.nodes[v].(term := n'.term, vote := n'.vote, role := n'.role, leader := n'.leader)
    requires n'.role == Follower || (n'.role == c.nodes[v].role && n'.term == c.nodes[v].term)
    requires n'.role == Candidate ==> n'.vote == c.nodes[v].vote
    ensures Seated(h', c.members, v, n')
  {
    LawfulNode(c, v);
    if n'.role == Candidate {
      forall u | u in n'.votes
        ensures VotedFor(h'.ballots, n'.term, u, n'.id, n'.log)
      {
        assert VotedFor(Bare(c.h).ballots, n'.term, u, n'.id, n'.log);
        assert (n'.term, u) in h'.ballots;
      }
    }
  }

  /** What a vote request may change. A candidate has voted for itself already. */
  lemma VoteChanges(n: Node, req: VoteRequest)
    requires |n.log| > 0
    ensures
      var n' := OnVoteRequest(n, req).0;
      && n' == n.(term := n'.term, vote := n'.vote, role := n'.role, leader := n'.leader)
      && (n'.term == n.term ==> n'.role == n.role && (n'.vote == n.vote || n.vote == ""))
  {
  }

  lemma VoteReqFair(c: Cluster, v: Id, req: VoteRequest)
    requires Lawful(c) && v in c.nodes && |c.nodes[v].log| > 0 && req.candidate != "" && req.term >= 1
    ensures Fair(c, v, OnVoteRequest(c.nodes[v], req).0, RecordVote(Bare(c.h), OnVoteRequest(c.nodes[v], req).0))
  {
    var n, n' := c.nodes[v], OnVoteRequest(c.nodes[v], req).0;
    LawfulNode(c, v);
    VotedInv(c, v, req);
    VoteOutcomeHolds(n, req);
    VoteChanges(n, req);
    RecordVoteGrows(Bare(c.h), n');
    VotedSeat(c, v, n', RecordVote(Bare(c.h), n'));
  }

  lemma VoteReqLawful(c: Cluster, pkt: Packet)
    requires Lawful(c) && pkt in c.net && pkt.VoteReq? && pkt.to in c.nodes && |c.nodes[pkt.to].log| > 0
    ensures Lawful(DoVoteReq(c, pkt)) && Onward(c, DoVoteReq(c, pkt))
  {
    var v, req, c' := pkt.to, pkt.vote, DoVoteReq(c, pkt);
    var (n', resp) := OnVoteRequest(c.nodes[v], req);
    LawfulPacket(c, pkt);
    LawfulNode(c, v);
    VoteReqFair(c, v, req);
    VoteIsBare(c.h, n');
    VoteOutcomeHolds(c.nodes[v], req);
    VoteReqRecords(c, c', v, req, n', resp);
    FairStep(c, c', v, n');
  }

  lemma VoteReqRecords(c: Cluster, c': Cluster, v: Id, req: VoteRequest, n': Node, resp: VoteResponse)
    requires Lawful(c) && v in c.nodes && VoteOutcome(c.nodes[v], req, n', resp) && VoteReqOk(c.nodes, req) && req.candidate != ""
    requires Inv(State(c.members, Peers(c.nodes)[v := PeerOf(n')], RecordVote(Bare(c.h), n')))
    requires c' == Update(c, v, n').(h := RecordVote(c.h, n'), net := c.net + {VoteRsp(v, req.candidate, req.term, resp)})
    ensures NewBallotsFresh(c, c') && NewHonest(c, c')
  {
    var s' := State(c.members, Peers(c.nodes)[v := PeerOf(n')], RecordVote(Bare(c.h), n'));
    LawfulNode(c, v);
    assert Inside(BareView(c), true) && Inside(s', true);
    assert VoteRecorded(BareView(c).ns, c.h.ballots, v) && VoteRecorded(s'.ns, s'.h.ballots, v);
    assert (n'.term, v) in s'.h.ballots ==> BallotOk(s'.ns, s'.h.reigns, s'.h.ballots, n'.term, v);
    VoteIsBare(c.h, n');
    BallotIsFresh(c, c', v, req, n');
  }

  lemma BallotIsFresh(c: Cluster, c': Cluster, v: Id, req: VoteRequest, n': Node)
    requires v in c.nodes && |c.nodes[v].log| > 0 && VoteReqOk(c.nodes, req)
    requires n'.log == c.nodes[v].log && n'.term >= c.nodes[v].term && n'.id == v
    requires (n'.term > c.nodes[v].term ==> n'.role == Follower) && (n'.term == c.nodes[v].term ==> n'.role == c.nodes[v].role)
    requires (n'.term, v) !in c.h.ballots && n'.vote != "" ==>
               n'.term == req.term && n'.vote == req.candidate && AtLeastAsUpToDate(req.lastIndex, req.lastTerm, n'.log)
    requires c'.nodes == c.nodes[v := n'] && c'.h.ballots == RecordVote(c.h, n').ballots
    ensures NewBallotsFresh(c, c')
  {
  }

  // ---------------------------------------------------------------- winning

  lemma CampaignFair(c: Cluster, v: Id)
    requires Lawful(c) && v in c.nodes
    ensures Fair(c, v, Campaigner(c.nodes[v]), RecordVote(Bare(c.h), Campaigner(c.nodes[v])))
  {
    var n, s := c.nodes[v], BareView(c);
    var t, cand := n.term + 1, Campaigner(n);
    LawfulNode(c, v);
    assert Inside(s, true);
    RaiseInv(s, v, t);
    var s1 := Raise(s, v, t);
    NotVotedYet(s1, v);
    VoteInv(s1, v, v);
    var s2 := Vote(s1, v, v);
    assert s2.h == RecordVote(s.h, cand);
    assert s2.ns == s.ns[v := PeerOf(cand)];
    RecordVoteGrows(Bare(c.h), cand);
    CampaignSeat(c, v, s2.h);
  }

  lemma CampaignSeat(c: Cluster, v: Id, h': History)
    requires Lawful(c) && v in c.nodes && h'.reigns == Bare(c.h).reigns
    requires (c.nodes[v].term + 1, v) in h'.ballots && h'.ballots[(c.nodes[v].term + 1, v)] == Ballot(v, c.nodes[v].log)
    ensures Seated(h', c.members, v, Campaigner(c.nodes[v]))
  {
    var n, s, t := c.nodes[v], BareView(c), c.nodes[v].term + 1;
    LawfulNode(c, v);
    assert Inside(s, true);
    assert LogOk(s.ns, s.h.reigns, v);
    assert t in s.h.reigns ==> LeaderOk(s.ns, s.h.reigns, t);
    assert VotedFor(h'.ballots, t, v, v, n.log);
  }

  /** The bare history after an election. */
  function Crown(h: History, cand: Node): History {
    h.(reigns := h.reigns[cand.term := Reign(cand.id, cand.votes, |cand.log|, cand.log + [NoOp(cand.term)], 0)])
  }

  lemma ElectionIsBare(h: History, cand: Node, n': Node)
    requires n'.term == cand.term
    ensures Bare(RecordElection(h, cand, n')) == Crown(Bare(h), cand)
  {
  }

  lemma CrownKeepsSeat(n: Node)
    requires Sane(n) && Plain(n.log) && n.peers == n.base
    ensures BecomeLeader(n).role == Leader && Keeps(Crowned(n), BecomeLeader(n)) && Plain(Crowned(n).log)
    ensures Crowned(n).log == n.log + [NoOp(n.term)] && Sane(Crowned(n))
  {
    FinishKeepsSeat(Crowned(n));
  }

  /** A candidate with a majority of votes wins a term that nobody has won. */
  lemma WonInv(s: State, cand: Node)
    requires Inv(s) && cand.id in s.ns && s.ns[cand.id] == PeerOf(cand)
    requires CandidateRole(s.h, s.members, cand) && |cand.votes| >= MajoritySize(s.members)
    ensures cand.term !in s.h.reigns
    ensures Inv(State(s.members, s.ns[cand.id := PeerOf(cand).(log := cand.log + [NoOp(cand.term)])], Crown(s.h, cand)))
    ensures HistoryGrows(s.h, Crown(s.h, cand))
  {
    TermStillOpen(s, cand);
    ElectInv(s, cand.id, cand.votes);
    assert Elect(s, cand.id, cand.votes) ==
           State(s.members, s.ns[cand.id := PeerOf(cand).(log := cand.log + [NoOp(cand.term)])], Crown(s.h, cand));
  }

  /** `c` with node `v` replaced by the candidate it was when it won. */
  lemma WonFair(c: Cluster, v: Id, cand: Node, h1: History)
    requires Lawful(c) && v in c.nodes && Fair(c, v, cand, h1) && h1.reigns == Bare(c.h).reigns
    requires cand.role == Candidate && |cand.votes| >= MajoritySize(cand.peers.Keys)
    requires cand.term == c.nodes[v].term ==> c.nodes[v].role == Candidate
    ensures Fair(c, v, BecomeLeader(cand), Crown(h1, cand))
  {
    var n', s1 := BecomeLeader(cand), State(c.members, Peers(c.nodes)[v := PeerOf(cand)], h1);
    LawfulNode(c, v);
    CrownKeepsSeat(cand);
    WonInv(s1, cand);
    assert s1.ns[v := PeerOf(n')] == Peers(c.nodes)[v := PeerOf(n')];
    CrownRecords(Bare(c.h), h1, cand, v);
  }

  lemma CrownRecords(h: History, h1: History, cand: Node, v: Id)
    requires HistoryGrows(h, h1) && h1.reigns == h.reigns && HistoryGrows(h1, Crown(h1, cand)) && cand.id == v
    requires PlainReigns(h1.reigns) && Plain(cand.log)
    ensures HistoryGrows(h, Crown(h1, cand)) && OthersUntouched(h.reigns, Crown(h1, cand).reigns, v)
    ensures PlainReigns(Crown(h1, cand).reigns)
  {
    HistoryTrans(h, h1, Crown(h1, cand), v);
    forall t | t in Crown(h1, cand).reigns
      ensures PlainReign(Crown(h1, cand).reigns, t)
    {
      assert t in h1.reigns ==> PlainReign(h1.reigns, t);
    }
  }

  lemma TimeoutLawful(c: Cluster, v: Id)
    requires Lawful(c) && v in c.nodes && |c.nodes[v].log| > 0
    ensures Lawful(DoTimeout(c, v)) && Onward(c, DoTimeout(c, v))
  {
    var n := c.nodes[v];
    LawfulNode(c, v);
    if n.joining {
      assert DoTimeout(c, v) == Update(c, v, n);
      KeepsLawful(c, DoTimeout(c, v), v);
    } else {
      TimeoutShape(c, v);
      if |Campaigner(n).votes| >= MajoritySize(Campaigner(n).peers.Keys) {
        TimeoutWon(c, DoTimeout(c, v), v);
      } else {
        TimeoutStands(c, DoTimeout(c, v), v);
      }
    }
  }

  lemma TimeoutStands(c: Cluster, c': Cluster, v: Id)
    requires Lawful(c) && v in c.nodes && |c.nodes[v].log| > 0
    requires var cand := Campaigner(c.nodes[v]);
             c' == Update(c, v, cand).(h := RecordVote(c.h, cand), net := c.net + Requests(cand))
    ensures Lawful(c') && Onward(c, c')
  {
    var cand := Campaigner(c.nodes[v]);
    CampaignFair(c, v);
    VoteIsBare(c.h, cand);
    StandsRecords(c, c', v, cand);
    FairStep(c, c', v, cand);
  }

  lemma TimeoutWon(c: Cluster, c': Cluster, v: Id)
    requires Lawful(c) && v in c.nodes && |c.nodes[v].log| > 0
    requires |Campaigner(c.nodes[v]).votes| >= MajoritySize(Campaigner(c.nodes[v]).peers.Keys)
    requires var cand := Campaigner(c.nodes[v]);
             c' == Update(c, v, BecomeLeader(cand)).(h := RecordElection(RecordVote(c.h, cand), cand, BecomeLeader(cand)),
                                                     net := c.net + Requests(cand))
    ensures Lawful(c') && Onward(c, c')
  {
    var cand := Campaigner(c.nodes[v]);
    LawfulNode(c, v);
    CampaignFair(c, v);
    VoteIsBare(c.h, cand);
    CrownKeepsSeat(cand);
    ElectionIsBare(RecordVote(c.h, cand), cand, BecomeLeader(cand));
    WonFair(c, v, cand, RecordVote(Bare(c.h), cand));
    StandsRecords(c, c', v, BecomeLeader(cand));
    FairStep(c, c', v, BecomeLeader(cand));
  }

  lemma StandsRecords(c: Cluster, c': Cluster, v: Id, n': Node)
    requires Lawful(c) && v in c.nodes && |c.nodes[v].log| > 0
    requires c'.members == c.members && c'.nodes == c.nodes[v := n']
    requires n'.id == v && n'.term == c.nodes[v].term + 1 && |n'.log| > 0
    requires n'.role == Candidate ==> n'.log == c.nodes[v].log
    requires c'.h.ballots == RecordVote(c.h, Campaigner(c.nodes[v])).ballots
    requires c'.net == c.net + Requests(Campaigner(c.nodes[v]))
    ensures NewBallotsFresh(c, c') && NewHonest(c, c')
  {
    LawfulNode(c, v);
    forall pkt | pkt in c'.net && pkt !in c.net
      ensures Honest(Bare(c'.h), c'.members, c'.nodes, pkt)
    {
      assert pkt in Requests(Campaigner(c.nodes[v]));
    }
  }

  lemma VoteRspLawful(c: Cluster, pkt: Packet)
    requires Lawful(c) && pkt in c.net && pkt.VoteRsp? && pkt.to in c.nodes && |c.nodes[pkt.to].log| > 0
    ensures Lawful(DoVoteRsp(c, pkt)) && Onward(c, DoVoteRsp(c, pkt))
  {
    var v, n, resp, c' := pkt.to, c.nodes[pkt.to], pkt.voteResp, DoVoteRsp(c, pkt);
    LawfulNode(c, v);
    if resp.term > n.term {
      DownLawful(c, c', v, resp.term, "");
    } else if n.role == Candidate && n.term == pkt.asked && resp.granted {
      VoteCountedLawful(c, c', pkt);
    } else {
      KeepsLawful(c, c', v);
    }
  }

  lemma VoteCountedLawful(c: Cluster, c': Cluster, pkt: Packet)
    requires Lawful(c) && pkt in c.net && pkt.VoteRsp? && pkt.to in c.nodes && |c.nodes[pkt.to].log| > 0
    requires c.nodes[pkt.to].role == Candidate && c.nodes[pkt.to].term == pkt.asked
    requires pkt.voteResp.granted && pkt.voteResp.term <= pkt.asked && c' == DoVoteRsp(c, pkt)
    ensures Lawful(c') && Onward(c, c')
  {
    var v, n := pkt.to, c.nodes[pkt.to];
    var n1 := n.(votes := n.votes + {pkt.from});
    LawfulNode(c, v);
    CountedFair(c, pkt);
    if |n1.votes| >= MajoritySize(n1.peers.Keys) {
      CrownKeepsSeat(n1);
      VoteWon(c, c', v, n1);
    } else {
      FairStep(c, c', v, n1);
    }
  }

  lemma CountedFair(c: Cluster, pkt: Packet)
    requires Lawful(c) && pkt in c.net && pkt.VoteRsp? && pkt.to in c.nodes
    requires c.nodes[pkt.to].role == Candidate && c.nodes[pkt.to].term == pkt.asked && pkt.voteResp.granted
    ensures Fair(c, pkt.to, c.nodes[pkt.to].(votes := c.nodes[pkt.to].votes + {pkt.from}), Bare(c.h))
  {
    var v, n := pkt.to, c.nodes[pkt.to];
    var n1 := n.(votes := n.votes + {pkt.from});
    LawfulNode(c, v);
    LawfulPacket(c, pkt);
    assert Within(c, true);
    assert BallotFresh(c.nodes, c.h.ballots, n.term, pkt.from);
    forall u | u in n1.votes
      ensures VotedFor(Bare(c.h).ballots, n1.term, u, n1.id, n1.log)
    {
      assert u in n.votes ==> VotedFor(Bare(c.h).ballots, n.term, u, n.id, n.log);
    }
    GrowsRefl(Bare(c.h).reigns);
    assert Peers(c.nodes)[v := PeerOf(n1)] == Peers(c.nodes);
  }

  lemma VoteWon(c: Cluster, c': Cluster, v: Id, cand: Node)
    requires Lawful(c) && v in c.nodes && Fair(c, v, cand, Bare(c.h)) && |cand.log| > 0
    requires cand == c.nodes[v].(votes := cand.votes) && cand.role == Candidate && |cand.votes| >= MajoritySize(cand.peers.Keys)
    requires c' == Update(c, v, BecomeLeader(cand)).(h := RecordElection(c.h, cand, BecomeLeader(cand)))
    ensures Lawful(c') && Onward(c, c')
  {
    CrownKeepsSeat(cand);
    ElectionIsBare(c.h, cand, BecomeLeader(cand));
    WonFair(c, v, cand, Bare(c.h));
    FairStep(c, c', v, BecomeLeader(cand));
  }

  // ---------------------------------------------------------------- a leader's own entries

  /** The bare history after the leader appends an entry. */
  function Extended(h: History, t: nat, e: Entry): History
    requires t in h.reigns
  {
    h.(reigns := h.reigns[t := h.reigns[t].(log := h.reigns[t].log + [e])])
  }

  lemma PutIsBare(c: Cluster, v: Id, cmd: Command)
    requires v in c.nodes && |c.nodes[v].log| > 0 && c.nodes[v].role == Leader && c.nodes[v].term in c.h.reigns
    ensures Bare(DoPut(c, v, cmd).h) == Extended(Bare(c.h), c.nodes[v].term, Entry(c.nodes[v].term, cmd, None))
  {
    var n, e := c.nodes[v], Entry(c.nodes[v].term, cmd, None);
    var n' := ApplyCommitted(AdvanceCommit(LeaderAppend(n, e)));
    PutShape(c, v, cmd);
    AppendIsBare(c.h, n, e);
    if n'.term in AppendedHistory(c.h, n, e).reigns {
      CommitIsBare(AppendedHistory(c.h, n, e), n.commit, n');
    }
  }

  lemma AppendIsBare(h: History, n: Node, e: Entry)
    requires n.term in h.reigns
    ensures Bare(AppendedHistory(h, n, e)) == Extended(Bare(h), n.term, e)
  {
  }

  lemma ExtendedRecords(h: History, t: nat, e: Entry, v: Id)
    requires t in h.reigns && h.reigns[t].leader == v && e.term == t && e.change.None? && PlainReigns(h.reigns)
    ensures HistoryGrows(h, Extended(h, t, e)) && OthersUntouched(h.reigns, Extended(h, t, e).reigns, v)
    ensures PlainReigns(Extended(h, t, e).reigns)
  {
    forall u | u in Extended(h, t, e).reigns
      ensures PlainReign(Extended(h, t, e).reigns, u)
    {
      assert PlainReign(h.reigns, u);
    }
  }

  lemma OwnFair(c: Cluster, v: Id, cmd: Command)
    requires Lawful(c) && v in c.nodes && |c.nodes[v].log| > 0 && c.nodes[v].role == Leader
    ensures c.nodes[v].term in c.h.reigns
    ensures Fair(c, v, Propose(c.nodes[v], cmd).0, Extended(Bare(c.h), c.nodes[v].term, Entry(c.nodes[v].term, cmd, None)))
  {
    var n, s := c.nodes[v], BareView(c);
    var e, n' := Entry(n.term, cmd, None), Propose(n, cmd).0;
    LawfulNode(c, v);
    AppendInv(s, v, e);
    ExtendedRecords(Bare(c.h), n.term, e, v);
    FinishKeepsSeat(LeaderAppend(n, e));
    assert Append(s, v, e) == State(c.members, Peers(c.nodes)[v := PeerOf(n')], Extended(Bare(c.h), n.term, e));
  }

  lemma PutLawful(c: Cluster, v: Id, cmd: Command)
    requires Lawful(c) && v in c.nodes && |c.nodes[v].log| > 0
    ensures Lawful(DoPut(c, v, cmd)) && Onward(c, DoPut(c, v, cmd))
  {
    var n, c' := c.nodes[v], DoPut(c, v, cmd);
    LawfulNode(c, v);
    PutNodes(c, v, cmd);
    if n.role == Leader {
      OwnFair(c, v, cmd);
      PutIsBare(c, v, cmd);
      FairStep(c, c', v, Propose(n, cmd).0);
    } else {
      KeepsLawful(c, c', v);
    }
  }

  // ---------------------------------------------------------------- receiving entries

  lemma HeardFair(c: Cluster, v: Id, t: nat, leader: Id)
    requires Lawful(c) && v in c.nodes && t >= c.nodes[v].term
    ensures Fair(c, v, Heard(c.nodes[v], t, leader), Bare(c.h))
  {
    DownFair(c, v, Heard(c.nodes[v], t, leader), t, leader);
  }

  lemma TakenSeat(n: Node, req: AppendRequest)
    requires Sane(n) && Plain(n.log) && n.peers == n.base && PrevMatches(n, req) && Plain(MergeFor(n, req))
    ensures
      var n' := FollowAppend(n, req);
      && n'.log == MergeFor(n, req) && n'.term == n.term && n'.vote == n.vote && n'.role == n.role && n'.id == n.id
      && n'.peers == n'.base == n.base && n.snap <= n'.snap && Sane(n')
  {
    var m := TakeEntries(n, req);
    MergeKeepsPrefix(n.log, req.prevIndex + 1, req.entries);
    FoldPlain(n.base, m.log, n.snap, LastIndex(m.log));
    if req.commit > m.commit {
      ApplyKeepsSeat(m.(commit := Min(req.commit, LastIndex(m.log))));
    }
  }

  /** The follower `n1` of a later or equal term takes a slice of its leader's log. */
  lemma AcceptFair(c: Cluster, v: Id, n1: Node, req: AppendRequest)
    requires Lawful(c) && v in c.nodes && Fair(c, v, n1, Bare(c.h)) && n1.role == Follower && n1.term == req.term
    requires Slice(Bare(c.h).reigns, v, req) && PrevMatches(n1, req)
    ensures Fair(c, v, FollowAppend(n1, req), Bare(c.h))
  {
    var h, n' := Bare(c.h), FollowAppend(n1, req);
    var s1 := State(c.members, Peers(c.nodes)[v := PeerOf(n1)], h);
    MergedInv(s1, n1, req);
    TakenSeat(n1, req);
    assert s1.ns[v := PeerOf(n')] == Peers(c.nodes)[v := PeerOf(n')];
  }

  lemma MergedInv(s: State, n: Node, req: AppendRequest)
    requires Inv(s) && n.id in s.ns && s.ns[n.id] == PeerOf(n) && n.term == req.term
    requires Slice(s.h.reigns, n.id, req) && PrevMatches(n, req) && Plain(n.log) && PlainReigns(s.h.reigns)
    ensures Inv(State(s.members, s.ns[n.id := PeerOf(n).(log := MergeFor(n, req))], s.h)) && Plain(MergeFor(n, req))
  {
    AcceptInv(s, n.id, req.prevIndex, req.entries);
    assert PlainReign(s.h.reigns, req.term);
    assert Accept(s, n.id, req.prevIndex, req.entries) ==
           State(s.members, s.ns[n.id := PeerOf(n).(log := MergeFor(n, req))], s.h);
  }

  lemma ReceiveFair(c: Cluster, v: Id, req: AppendRequest)
    requires Lawful(c) && v in c.nodes && |c.nodes[v].log| > 0 && Slice(Bare(c.h).reigns, v, req)
    ensures Fair(c, v, OnAppend(c.nodes[v], req).0, Bare(c.h))
  {
    var n := c.nodes[v];
    LawfulNode(c, v);
    if req.term < n.term {
      KeepsFair(c, v, n);
    } else {
      var n1 := Heard(n, req.term, req.leader);
      HeardFair(c, v, req.term, req.leader);
      if PrevMatches(n, req) {
        AcceptFair(c, v, n1, req);
      }
    }
  }

  lemma ReceiveLawful(c: Cluster, c': Cluster, pkt: Packet)
    requires Lawful(c) && pkt in c.net && (pkt.AppendReq? || pkt.ProbeReq?) && pkt.to in c.nodes && |c.nodes[pkt.to].log| > 0
    requires c'.members == c.members && c'.nodes == c.nodes[pkt.to := OnAppend(c.nodes[pkt.to], pkt.append).0]
    requires Bare(c'.h) == Bare(c.h) && NewHonest(c, c')
    ensures Lawful(c') && Onward(c, c')
  {
    LawfulPacket(c, pkt);
    ReceiveFair(c, pkt.to, pkt.append);
    assert c'.h.ballots == Bare(c'.h).ballots == c.h.ballots;
    FairStep(c, c', pkt.to, OnAppend(c.nodes[pkt.to], pkt.append).0);
  }

  // ---------------------------------------------------------------- receiving a snapshot

  lemma InstallFair(c: Cluster, v: Id, n1: Node, req: SnapshotRequest, prefix: Log)
    requires Lawful(c) && v in c.nodes && Fair(c, v, n1, Bare(c.h)) && n1.role == Follower && n1.term == req.term
    requires Prefix(Bare(c.h).reigns, c.members, v, req, prefix) && n1.snap < req.lastIndex
    ensures |prefix| == req.lastIndex + 1 && Fair(c, v, Installed(n1, req, prefix), Bare(c.h))
  {
    var h, n' := Bare(c.h), Installed(n1, req, prefix);
    var s1 := State(c.members, Peers(c.nodes)[v := PeerOf(n1)], h);
    PrefixInv(s1, n1, req, prefix);
    assert s1.ns[v := PeerOf(n')] == Peers(c.nodes)[v := PeerOf(n')];
    LawfulNode(c, v);
  }

  lemma PrefixInv(s: State, n: Node, req: SnapshotRequest, prefix: Log)
    requires Inv(s) && s.h.acks == {} == s.h.counted && n.id in s.ns && s.ns[n.id] == PeerOf(n) && n.term == req.term
    requires Prefix(s.h.reigns, s.members, n.id, req, prefix) && PlainReigns(s.h.reigns)
    ensures Inv(State(s.members, s.ns[n.id := PeerOf(n).(log := prefix)], s.h)) && Plain(prefix)
  {
    assert PlainReign(s.h.reigns, req.term);
    assert OldAcksBlocked(s.h.reigns, {}, n.id, req.term, req.lastIndex);
    InstallInv(s, n.id, req.lastIndex);
    assert Install(s, n.id, req.lastIndex) == State(s.members, s.ns[n.id := PeerOf(n).(log := prefix)], s.h);
  }

  lemma SnapFair(c: Cluster, v: Id, req: SnapshotRequest, prefix: Log)
    requires Lawful(c) && v in c.nodes && |c.nodes[v].log| > 0 && |prefix| == req.lastIndex + 1
    requires Prefix(Bare(c.h).reigns, c.members, v, req, prefix)
    ensures Fair(c, v, OnSnapshot(c.nodes[v], req, prefix).0, Bare(c.h))
  {
    var n := c.nodes[v];
    LawfulNode(c, v);
    if req.term < n.term {
      KeepsFair(c, v, n);
    } else {
      HeardFair(c, v, req.term, req.leader);
      if req.lastIndex > n.snap {
        InstallFair(c, v, Heard(n, req.term, req.leader), req, prefix);
      }
    }
  }

  lemma SnapReqLawful(c: Cluster, pkt: Packet)
    requires Lawful(c) && pkt in c.net && pkt.SnapReq? && pkt.to in c.nodes && |c.nodes[pkt.to].log| > 0
    requires |pkt.prefix| == pkt.snapshot.lastIndex + 1
    ensures Lawful(DoSnapReq(c, pkt)) && Onward(c, DoSnapReq(c, pkt))
  {
    var c' := DoSnapReq(c, pkt);
    LawfulPacket(c, pkt);
    SnapFair(c, pkt.to, pkt.snapshot, pkt.prefix);
    assert Bare(c'.h) == Bare(c.h);
    FairStep(c, c', pkt.to, OnSnapshot(c.nodes[pkt.to], pkt.snapshot, pkt.prefix).0);
  }

  // ---------------------------------------------------------------- replies

  lemma AppendRspLawful(c: Cluster, pkt: Packet)
    requires Lawful(c) && pkt.AppendRsp? && pkt.to in c.nodes && |c.nodes[pkt.to].log| > 0
    ensures Lawful(DoAppendRsp(c, pkt)) && Onward(c, DoAppendRsp(c, pkt))
  {
    var v, n, resp, c' := pkt.to, c.nodes[pkt.to], pkt.appendResp, DoAppendRsp(c, pkt);
    LawfulNode(c, v);
    MatchIsBare(c.h, n, pkt.from, pkt.append.prevIndex + |pkt.append.entries|, c'.nodes[v]);
    if n.role == Leader && n.term == pkt.append.term && resp.term > n.term {
      DownLawful(c, c', v, resp.term, "");
    } else {
      ReplyKeepsSeat(n, pkt.from, pkt.append, resp);
      KeepsLawful(c, c', v);
    }
  }

  lemma ReplyKeepsSeat(n: Node, p: Id, req: AppendRequest, resp: AppendResponse)
    requires Sane(n) && Plain(n.log) && n.peers == n.base
    requires n.role == Leader && n.term == req.term ==> resp.term <= n.term
    ensures Keeps(n, OnAppendResponse(n, p, req, resp))
  {
    CountKeepsSeat(n, p, req.prevIndex + |req.entries|);
  }

  lemma SnapRspLawful(c: Cluster, pkt: Packet)
    requires Lawful(c) && pkt.SnapRsp? && pkt.to in c.nodes && |c.nodes[pkt.to].log| > 0
    ensures Lawful(DoSnapRsp(c, pkt)) && Onward(c, DoSnapRsp(c, pkt))
  {
    var v, n, resp, c' := pkt.to, c.nodes[pkt.to], pkt.snapshotResp, DoSnapRsp(c, pkt);
    LawfulNode(c, v);
    MatchIsBare(c.h, n, pkt.from, pkt.snapshot.lastIndex, c'.nodes[v]);
    if n.role == Leader && n.term == pkt.snapshot.term && resp.term > n.term {
      DownLawful(c, c', v, resp.term, "");
    } else {
      CountKeepsSeat(n, pkt.from, pkt.snapshot.lastIndex);
      KeepsLawful(c, c', v);
    }
  }

  lemma ProbeRspLawful(c: Cluster, pkt: Packet)
    requires Lawful(c) && pkt.ProbeRsp? && pkt.to in c.nodes
    ensures Lawful(DoProbeRsp(c, pkt)) && Onward(c, DoProbeRsp(c, pkt))
  {
    var v, n, c' := pkt.to, c.nodes[pkt.to], DoProbeRsp(c, pkt);
    LawfulNode(c, v);
    if pkt.appendResp.term > n.term {
      DownLawful(c, c', v, pkt.appendResp.term, "");
    } else {
      KeepsLawful(c, c', v);
    }
  }

  lemma DeliverLawful(c: Cluster, pkt: Packet)
    requires Lawful(c) && Able(c, Deliver(pkt)) && |c.nodes[pkt.to].log| > 0
    ensures Lawful(DoDeliver(c, pkt)) && Onward(c, DoDeliver(c, pkt))
  {
    match pkt
    case VoteReq(_, _) => VoteReqLawful(c, pkt);
    case VoteRsp(_, _, _, _) => VoteRspLawful(c, pkt);
    case AppendReq(_, _, _) => ReceiveLawful(c, DoAppendReq(c, pkt), pkt);
    case AppendRsp(_, _, _, _, _) => AppendRspLawful(c, pkt);
    case SnapReq(_, _, _, _) => SnapReqLawful(c, pkt);
    case SnapRsp(_, _, _, _, _) => SnapRspLawful(c, pkt);
    case ProbeReq(_, _, _) => ReceiveLawful(c, DoProbeReq(c, pkt), pkt);
    case ProbeRsp(_, _, _, _) => ProbeRspLawful(c, pkt);
  }

  // ---------------------------------------------------------------- requests

  /** A leader's log is the log of its reign, so a slice of one is a slice of the other. */
  lemma LeaderLog(c: Cluster, v: Id)
    requires Lawful(c) && v in c.nodes && c.nodes[v].role == Leader
    ensures c.nodes[v].term in c.h.reigns && c.h.reigns[c.nodes[v].term].leader == v
    ensures c.nodes[v].log == c.h.reigns[c.nodes[v].term].log
  {
    LawfulNode(c, v);
    assert Inside(BareView(c), true);
    assert LeaderOk(BareView(c).ns, Bare(c.h).reigns, c.nodes[v].term);
  }

  /** A step that sends at most `pkt`. */
  lemma SendLawful(c: Cluster, c': Cluster, v: Id, pkt: Packet)
    requires Lawful(c) && v in c.nodes && v in c'.nodes && Keeps(c.nodes[v], c'.nodes[v]) && c'.h == c.h
    requires c'.members == c.members && c'.nodes == c.nodes[v := c'.nodes[v]] && c'.net <= c.net + {pkt}
    requires Honest(Bare(c.h), c.members, c.nodes, pkt) && !pkt.VoteReq?
    ensures Lawful(c') && Onward(c, c')
  {
    assert Honest(Bare(c'.h), c'.members, c'.nodes, pkt);
    KeepsLawful(c, c', v);
  }

  lemma CallAppendLawful(c: Cluster, v: Id, p: Id)
    requires Lawful(c) && CanCall(c, v, p)
    ensures Lawful(DoCallAppend(c, v, p)) && Onward(c, DoCallAppend(c, v, p))
  {
    var n, c' := c.nodes[v], DoCallAppend(c, v, p);
    LawfulNode(c, v);
    LeaderLog(c, v);
    match MakeAppend(n, p)
    case (n', Some(req)) => SendLawful(c, c', v, AppendReq(c.issued, p, req));
    case (n', None) => KeepsLawful(c, c', v);
  }

  lemma CallSnapshotLawful(c: Cluster, v: Id, p: Id)
    requires Lawful(c) && CanCall(c, v, p)
    ensures Lawful(DoCallSnapshot(c, v, p)) && Onward(c, DoCallSnapshot(c, v, p))
  {
    var n, c' := c.nodes[v], DoCallSnapshot(c, v, p);
    LawfulNode(c, v);
    LeaderLog(c, v);
    assert c'.nodes == c.nodes[v := n];
    SendLawful(c, c', v, SnapReq(c.issued, p, MakeSnapshot(n), n.log[..n.snap + 1]));
  }

  lemma ProbeLawful(c: Cluster, r: nat, p: Id)
    requires Lawful(c) && Able(c, Probe(r, p)) && |c.nodes[c.queries[r].node].log| > 0
    ensures Lawful(DoProbe(c, r, p)) && Onward(c, DoProbe(c, r, p))
  {
    var v, c' := c.queries[r].node, DoProbe(c, r, p);
    LawfulNode(c, v);
    LeaderLog(c, v);
    assert c'.nodes == c.nodes[v := c.nodes[v]];
    SendLawful(c, c', v, ProbeReq(r, p, ProbeOf(c.nodes[v])));
  }

  lemma AsideLawful(c: Cluster, c': Cluster)
    requires Lawful(c) && c' == c.(calls := c'.calls, issued := c'.issued, queries := c'.queries)
    ensures Lawful(c') && Onward(c, c')
  {
    assert Within(c, true);
    var v :| v in c.members;
    LawfulNode(c, v);
    assert c'.nodes == c.nodes[v := c'.nodes[v]];
    KeepsLawful(c, c', v);
  }

  lemma CrashLawful(c: Cluster, v: Id)
    requires Lawful(c) && v in c.nodes && |c.nodes[v].log| > 0
    ensures Lawful(DoCrash(c, v)) && Onward(c, DoCrash(c, v))
  {
    var n, c' := c.nodes[v], DoCrash(c, v);
    LawfulNode(c, v);
    FoldPlain(n.base, n.log, n.snap, LastIndex(n.log));
    CrashFair(c, v);
    FairStep(c, c', v, c'.nodes[v]);
  }

  lemma CrashFair(c: Cluster, v: Id)
    requires Lawful(c) && v in c.nodes && |c.nodes[v].log| > 0
    ensures Fair(c, v, Restart(c.nodes[v], false), Bare(c.h))
  {
    var n, n' := c.nodes[v], Restart(c.nodes[v], false);
    LawfulNode(c, v);
    FoldPlain(n.base, n.log, n.snap, LastIndex(n.log));
    GrowsRefl(Bare(c.h).reigns);
    assert Peers(c.nodes)[v := PeerOf(n')] == Peers(c.nodes);
  }

  // ---------------------------------------------------------------- every run

  lemma StepLawful(c: Cluster, s: Step)
    requires Lawful(c) && AllSane(c) && Able(c, s)
    ensures Lawful(After(c, s)) && Onward(c, After(c, s))
  {
    if s.Timeout? || s.Tick? || s.Crash? || s.ClientPut? {
      LocalLawful(c, s);
    } else if s.CallAppend? || s.CallSnapshot? || s.Probe? {
      SendingLawful(c, s);
    } else if s.Deliver? {
      DeliverLawful(c, s.packet);
    } else {
      QuietLawful(c, s);
    }
  }

  lemma LocalLawful(c: Cluster, s: Step)
    requires Lawful(c) && AllSane(c) && Able(c, s) && (s.Timeout? || s.Tick? || s.Crash? || s.ClientPut?)
    ensures Lawful(After(c, s)) && Onward(c, After(c, s))
  {
    match s
    case Timeout(v) => TimeoutLawful(c, v);
    case Tick(v) => TickLawful(c, v);
    case Crash(v) => CrashLawful(c, v);
    case ClientPut(v, cmd) => PutLawful(c, v, cmd);
  }

  lemma SendingLawful(c: Cluster, s: Step)
    requires Lawful(c) && AllSane(c) && Able(c, s) && (s.CallAppend? || s.CallSnapshot? || s.Probe?)
    ensures Lawful(After(c, s)) && Onward(c, After(c, s))
  {
    match s
    case CallAppend(v, p) => CallAppendLawful(c, v, p);
    case CallSnapshot(v, p) => CallSnapshotLawful(c, v, p);
    case Probe(r, p) => ProbeLawful(c, r, p);
  }

  lemma QuietLawful(c: Cluster, s: Step)
    requires Lawful(c) && AllSane(c) && Able(c, s) && (s.DropCall? || s.BeginRead? || s.CheckRead? || s.CaptureRead?)
    ensures Lawful(After(c, s)) && Onward(c, After(c, s))
  {
    AsideLawful(c, After(c, s));
  }

  lemma TickLawful(c: Cluster, v: Id)
    requires Lawful(c) && v in c.nodes && |c.nodes[v].log| > 0
    ensures Lawful(Update(c, v, ApplyCommitted(c.nodes[v]))) && Onward(c, Update(c, v, ApplyCommitted(c.nodes[v])))
  {
    LawfulNode(c, v);
    ApplyKeepsSeat(c.nodes[v]);
    KeepsLawful(c, Update(c, v, ApplyCommitted(c.nodes[v])), v);
  }

  lemma InitialLawful(c: Cluster)
    requires Initial(c)
    ensures Lawful(c)
  {
    InitialNodes(c);
    InitialPieces(BareView(c));
    forall v | v in c.nodes
      ensures Seated(Bare(c.h), c.members, v, c.nodes[v])
    {
      assert NodeOk(c.h, c.members, c.compacting, v, c.nodes[v]);
    }
  }

  lemma {:induction false} LawfulHolds(cs: seq<Cluster>, ss: seq<Step>, i: nat)
    requires LooseRun(cs, ss) && i < |cs|
    ensures Lawful(cs[i]) && AllSane(cs[i])
    decreases i
  {
    SaneHolds(cs, ss, i);
    if i == 0 {
      InitialLawful(cs[0]);
    } else {
      LawfulHolds(cs, ss, i - 1);
      assert LooseStepAt(cs, ss, i - 1);
      StepLawful(cs[i - 1], ss[i - 1]);
    }
  }

  /** What a later state keeps of an earlier one. */
  ghost predicate Retains(c: Cluster, c': Cluster) {
    && HistoryGrows(Bare(c.h), Bare(c'.h))
    && forall v {:trigger NotBack(c, c', v)} :: v in c.nodes ==> NotBack(c, c', v)
  }

  lemma {:induction false} PastHolds(cs: seq<Cluster>, ss: seq<Step>, i: nat, j: nat)
    requires LooseRun(cs, ss) && i <= j < |cs|
    ensures Retains(cs[i], cs[j]) && Lawful(cs[i]) && Lawful(cs[j])
    decreases j
  {
    LawfulHolds(cs, ss, i);
    LawfulHolds(cs, ss, j);
    if i == j {
      GrowsRefl(Bare(cs[i].h).reigns);
    } else {
      PastHolds(cs, ss, i, j - 1);
      GoesOn(cs, ss, j - 1);
      PastStep(cs[i], cs[j - 1], cs[j]);
    }
  }

  lemma GoesOn(cs: seq<Cluster>, ss: seq<Step>, i: nat)
    requires LooseRun(cs, ss) && i < |ss|
    ensures Onward(cs[i], cs[i + 1])
  {
    LawfulHolds(cs, ss, i);
    assert LooseStepAt(cs, ss, i);
    StepLawful(cs[i], ss[i]);
  }

  lemma PastStep(a: Cluster, b: Cluster, c: Cluster)
    requires Retains(a, b) && Onward(b, c)
    ensures Retains(a, c)
  {
    assert Within(c, true);
    GrowsTrans(Bare(a.h).reigns, Bare(b.h).reigns, Bare(c.h).reigns);
    forall v | v in a.nodes
      ensures NotBack(a, c, v)
    {
      assert NotBack(a, b, v) && EvolvesAt(b.nodes, c.nodes, v);
    }
  }

  // ---------------------------------------------------------------- theorems

  /** At most one node is ever leader in a term. */
  lemma ElectionSafety(cs: seq<Cluster>, ss: seq<Step>, i: nat, j: nat, v: Id, w: Id)
    requires LooseRun(cs, ss) && i < |cs| && j < |cs| && v in cs[i].nodes && w in cs[j].nodes
    requires cs[i].nodes[v].role == Leader && cs[j].nodes[w].role == Leader
    requires cs[i].nodes[v].term == cs[j].nodes[w].term
    ensures v == w
  {
    var t := cs[i].nodes[v].term;
    if i <= j {
      PastHolds(cs, ss, i, j);
      LeaderLog(cs[i], v);
      LeaderLog(cs[j], w);
      assert ReignGrows(Bare(cs[i].h).reigns, Bare(cs[j].h).reigns, t);
    } else {
      PastHolds(cs, ss, j, i);
      LeaderLog(cs[i], v);
      LeaderLog(cs[j], w);
      assert ReignGrows(Bare(cs[j].h).reigns, Bare(cs[i].h).reigns, t);
    }
  }

  lemma LogIsRooted(c: Cluster, v: Id)
    requires Lawful(c) && v in c.nodes
    ensures WellFormed(c.nodes[v].log) && Rooted(Bare(c.h).reigns, c.nodes[v].log) && LastTerm(c.nodes[v].log) <= c.nodes[v].term
  {
    LawfulNode(c, v);
    assert Inside(BareView(c), true);
    assert LogOk(BareView(c).ns, Bare(c.h).reigns, v);
  }

  /** Any two logs, at any two moments, agree up to the last index where their terms agree. */
  lemma LogMatching(cs: seq<Cluster>, ss: seq<Step>, i: nat, j: nat, v: Id, w: Id)
    requires LooseRun(cs, ss) && i <= j < |cs| && v in cs[i].nodes && w in cs[j].nodes
    ensures Matching(cs[i].nodes[v].log, cs[j].nodes[w].log)
  {
    PastHolds(cs, ss, i, j);
    LogIsRooted(cs[i], v);
    LogIsRooted(cs[j], w);
    RootedGrows(Bare(cs[i].h).reigns, Bare(cs[j].h).reigns, cs[i].nodes[v].log);
    RootedLogsMatch(Bare(cs[j].h).reigns, cs[i].nodes[v].log, cs[j].nodes[w].log);
  }

  /** A leader only ever appends to its log. */
  lemma LeaderAppendOnly(cs: seq<Cluster>, ss: seq<Step>, i: nat, j: nat, v: Id)
    requires LooseRun(cs, ss) && i <= j < |cs| && v in cs[i].nodes && v in cs[j].nodes
    requires cs[i].nodes[v].role == Leader && cs[j].nodes[v].role == Leader
    requires cs[i].nodes[v].term == cs[j].nodes[v].term
    ensures cs[i].nodes[v].log <= cs[j].nodes[v].log
  {
    PastHolds(cs, ss, i, j);
    LeaderLog(cs[i], v);
    LeaderLog(cs[j], v);
    assert ReignGrows(Bare(cs[i].h).reigns, Bare(cs[j].h).reigns, cs[i].nodes[v].term);
  }

  /** Every log starts with the dummy, its terms never decrease, and none exceeds the node's. */
  lemma LogShape(cs: seq<Cluster>, ss: seq<Step>, i: nat, v: Id)
    requires LooseRun(cs, ss) && i < |cs| && v in cs[i].nodes
    ensures WellFormed(cs[i].nodes[v].log) && LastTerm(cs[i].nodes[v].log) <= cs[i].nodes[v].term
  {
    LawfulHolds(cs, ss, i);
    LogIsRooted(cs[i], v);
  }

  /** Terms and snapshots never go back, through any crash. */
  lemma TermsNeverGoBack(cs: seq<Cluster>, ss: seq<Step>, i: nat, j: nat, v: Id)
    requires LooseRun(cs, ss) && i <= j < |cs| && v in cs[i].nodes
    ensures v in cs[j].nodes
    ensures cs[i].nodes[v].term <= cs[j].nodes[v].term
    ensures cs[i].nodes[v].snap <= cs[j].nodes[v].snap
  {
    PastHolds(cs, ss, i, j);
    assert NotBack(cs[i], cs[j], v);
  }

  /** Within a term a vote, once cast, is never changed or forgotten, through any crash. */
  lemma OneVotePerTerm(cs: seq<Cluster>, ss: seq<Step>, i: nat, j: nat, v: Id)
    requires LooseRun(cs, ss) && i <= j < |cs| && v in cs[i].nodes && v in cs[j].nodes
    requires cs[i].nodes[v].term == cs[j].nodes[v].term && cs[i].nodes[v].vote != ""
    ensures cs[j].nodes[v].vote == cs[i].nodes[v].vote
  {
    var t, a, b := cs[i].nodes[v].term, BareView(cs[i]), BareView(cs[j]);
    PastHolds(cs, ss, i, j);
    LawfulNode(cs[i], v);
    LawfulNode(cs[j], v);
    assert Inside(a, true) && Inside(b, true);
    assert VoteRecorded(a.ns, a.h.ballots, v) && BallotOk(a.ns, a.h.reigns, a.h.ballots, t, v);
    assert (t, v) in b.h.ballots;
    assert BallotOk(b.ns, b.h.reigns, b.h.ballots, t, v);
  }
}
