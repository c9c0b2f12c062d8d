/** The invariant of the cluster, apart from what concerns snapshots in flight. */
module ClusterInv {
  import opened RaftTypes
  import opened Logs
  import opened History
  import opened NodeSpec
  import opened NodeFacts
  import opened Protocol
  import opened Effects
  import opened Cluster

  // ---------------------------------------------------------------- the protocol's view

  function PeerOf(n: Node): Peer { Peer(n.term, n.vote, n.log) }

  function Peers(nodes: map<Id, Node>): View { map v | v in nodes :: PeerOf(nodes[v]) }

  function ViewOf(c: Cluster): State { State(c.members, Peers(c.nodes), c.h) }

  lemma PeersUpdate(nodes: map<Id, Node>, v: Id, n: Node)
    ensures Peers(nodes[v := n]) == Peers(nodes)[v := PeerOf(n)]
  {
  }

  // ---------------------------------------------------------------- commits

  /** The leader of `t` has committed index `k`. */
  ghost predicate CommittedBy(rs: Reigns, t: nat, k: nat) { t in rs && k <= rs[t].commit }

  /** Index `k` was committed by the leader of `term` or of an earlier term. */
  ghost predicate Admissible(rs: Reigns, term: nat, k: nat) {
    k == 0 || exists t: nat {:trigger CommittedBy(rs, t, k)} :: t <= term && CommittedBy(rs, t, k)
  }

  /** The committed part of the log is what the leader of `t` committed. */
  ghost predicate Backs(rs: Reigns, t: nat, log: Log, commit: nat) {
    CommittedBy(rs, t, commit) && |log| > 0 && Agree(log, rs[t].log, Min(commit, LastIndex(log)))
  }

  ghost predicate Backed(rs: Reigns, term: nat, log: Log, commit: nat) {
    commit == 0 || exists t: nat {:trigger Backs(rs, t, log, commit)} :: t <= term && Backs(rs, t, log, commit)
  }

  // ---------------------------------------------------------------- nodes

  ghost predicate MatchOk(counted: set<Ack>, n: Node) {
    forall p {:trigger Lookup(n.matchIndex, p)} ::
      Lookup(n.matchIndex, p) > 0 ==> Ack(n.term, p, Lookup(n.matchIndex, p)) in counted
  }

  ghost predicate LeaderRole(h: History, n: Node) {
    && n.term in h.reigns
    && h.reigns[n.term].leader == n.id
    && h.reigns[n.term].commit <= n.commit
    && MatchOk(h.counted, n)
  }

  ghost predicate CandidateRole(h: History, members: set<Id>, n: Node) {
    && n.vote == n.id
    && |n.log| > 0 && LastTerm(n.log) < n.term
    && (n.term in h.reigns ==> h.reigns[n.term].leader != n.id)
    && n.votes <= members
    && forall v {:trigger VotedFor(h.ballots, n.term, v, n.id, n.log)} ::
         v in n.votes ==> VotedFor(h.ballots, n.term, v, n.id, n.log)
  }

  ghost predicate NodeOk(h: History, members: set<Id>, compacting: bool, v: Id, n: Node) {
    && n.id == v
    && Local(n)
    && n.peers.Keys == members
    && !n.joining
    && (!compacting ==> n.threshold == 0 && n.snap == 0)
    && Backed(h.reigns, n.term, n.log, n.commit)
    && (n.role == Leader ==> LeaderRole(h, n))
    && (n.role == Candidate ==> CandidateRole(h, members, n))
  }

  ghost predicate NodesOk(c: Cluster) {
    forall v {:trigger NodeOk(c.h, c.members, c.compacting, v, c.nodes[v])} ::
      v in c.nodes ==> NodeOk(c.h, c.members, c.compacting, v, c.nodes[v])
  }

  /** While a candidate is still campaigning, its log is as up to date as its voters' were. */
  ghost predicate BallotFresh(nodes: map<Id, Node>, ballots: Ballots, t: nat, v: Id)
    requires (t, v) in ballots
  {
    var cand := ballots[(t, v)].candidate;
    && cand in nodes
    && t <= nodes[cand].term
    && |ballots[(t, v)].log| > 0
    && |nodes[cand].log| > 0
    && (t == nodes[cand].term && nodes[cand].role == Candidate ==>
          AtLeastAsUpToDate(LastIndex(nodes[cand].log), LastTerm(nodes[cand].log), ballots[(t, v)].log))
  }

  ghost predicate BallotsFresh(nodes: map<Id, Node>, ballots: Ballots) {
    forall t: nat, v {:trigger BallotFresh(nodes, ballots, t, v)} ::
      (t, v) in ballots ==> BallotFresh(nodes, ballots, t, v)
  }

  ghost predicate PlainReign(rs: Reigns, t: nat)
    requires t in rs
  {
    Plain(rs[t].log)
  }

  ghost predicate PlainReigns(rs: Reigns) {
    forall t {:trigger PlainReign(rs, t)} :: t in rs ==> PlainReign(rs, t)
  }

  /** What was applied was committed, at that index, by some leader. */
  ghost predicate AppliedOk(rs: Reigns, a: Applied) {
    exists t: nat {:trigger CommittedBy(rs, t, a.index)} ::
      CommittedBy(rs, t, a.index) && a.index < |rs[t].log| && rs[t].log[a.index] == a.entry
  }

  ghost predicate AllAppliedOk(rs: Reigns, applied: set<Applied>) {
    forall a {:trigger AppliedOk(rs, a)} :: a in applied ==> AppliedOk(rs, a)
  }

  // ---------------------------------------------------------------- packets

  ghost predicate VoteReqOk(nodes: map<Id, Node>, req: VoteRequest) {
    && req.candidate in nodes
    && 1 <= req.term <= nodes[req.candidate].term
    && |nodes[req.candidate].log| > 0
    && (req.term == nodes[req.candidate].term && nodes[req.candidate].role == Candidate ==>
          req == VoteRequestOf(nodes[req.candidate]))
  }

  ghost predicate VoteRspOk(h: History, members: set<Id>, from: Id, to: Id, asked: nat, resp: VoteResponse) {
    resp.granted ==> from in members && (asked, from) in h.ballots && h.ballots[(asked, from)].candidate == to
  }

  /** The request is a slice of its leader's log that reaches at least its commit index. */
  ghost predicate AppendOk(rs: Reigns, members: set<Id>, to: Id, req: AppendRequest) {
    && req.term in rs
    && rs[req.term].leader == req.leader
    && to in members && to != req.leader
    && req.prevIndex + |req.entries| < |rs[req.term].log|
    && req.prevTerm == rs[req.term].log[req.prevIndex].term
    && req.entries == rs[req.term].log[req.prevIndex + 1..req.prevIndex + 1 + |req.entries|]
    && req.commit <= req.prevIndex + |req.entries|
    && Admissible(rs, req.term, req.commit)
  }

  /** The request is a committed prefix of its leader's log and the map it replays to. */
  ghost predicate SnapOk(rs: Reigns, members: set<Id>, to: Id, req: SnapshotRequest, prefix: Log) {
    && req.term in rs
    && rs[req.term].leader == req.leader
    && to in members && to != req.leader
    && req.lastIndex < |rs[req.term].log|
    && |prefix| == req.lastIndex + 1
    && prefix == rs[req.term].log[..req.lastIndex + 1]
    && req.data == Replay(prefix, req.lastIndex)
    && req.peers.Keys == members
    && Admissible(rs, req.term, req.lastIndex)
  }

  /** The packet tells the truth about the history, whenever it is delivered. */
  ghost predicate Truthful(h: History, members: set<Id>, nodes: map<Id, Node>, pkt: Packet) {
    match pkt
    case VoteReq(_, req) => VoteReqOk(nodes, req)
    case VoteRsp(from, to, asked, resp) => VoteRspOk(h, members, from, to, asked, resp)
    case AppendReq(_, to, req) => AppendOk(h.reigns, members, to, req)
    case ProbeReq(_, to, req) => AppendOk(h.reigns, members, to, req)
    case SnapReq(_, to, req, prefix) => SnapOk(h.reigns, members, to, req, prefix)
    case _ => true
  }

  ghost predicate NetTruthful(c: Cluster) {
    forall pkt {:trigger Truthful(c.h, c.members, c.nodes, pkt)} ::
      pkt in c.net ==> Truthful(c.h, c.members, c.nodes, pkt)
  }

  ghost predicate BasePieces(c: Cluster) {
    && c.members != {} && "" !in c.members
    && c.nodes.Keys == c.members
    && Inv(ViewOf(c))
    && NodesOk(c)
    && BallotsFresh(c.nodes, c.h.ballots)
    && PlainReigns(c.h.reigns)
    && AllAppliedOk(c.h.reigns, c.applied)
    && NetTruthful(c)
  }

  /** All of the above; as with `Inv`, proofs look inside by mentioning `Within`. */
  ghost predicate Base(c: Cluster) {
    forall k {:trigger Within(c, k)} :: Within(c, k) ==> BasePieces(c)
  }

  ghost predicate Within(c: Cluster, k: bool) { true }

  // ---------------------------------------------------------------- what a step may do to a node

  /** Terms and snapshots never go back, and a candidacy is never entered within a term. */
  ghost predicate Evolves(n: Node, n': Node) {
    && n'.id == n.id
    && n.term <= n'.term
    && n.snap <= n'.snap
    && |n'.log| > 0
    && (n'.term == n.term && n'.role == Candidate ==> n.role == Candidate && n'.log == n.log)
  }

  ghost predicate EvolvesAt(nodes: map<Id, Node>, nodes': map<Id, Node>, v: Id)
    requires v in nodes
  {
    v in nodes' && Evolves(nodes[v], nodes'[v])
  }

  ghost predicate AllEvolve(nodes: map<Id, Node>, nodes': map<Id, Node>) {
    forall v {:trigger EvolvesAt(nodes, nodes', v)} :: v in nodes ==> EvolvesAt(nodes, nodes', v)
  }

  ghost predicate HistoryGrows(h: History, h': History) {
    && Grows(h.reigns, h'.reigns)
    && h.counted <= h'.counted
    && (forall t: nat, v {:trigger (t, v) in h'.ballots} ::
          (t, v) in h.ballots ==> (t, v) in h'.ballots && h'.ballots[(t, v)] == h.ballots[(t, v)])
  }

  /** Only `v`'s own reign may begin or commit. */
  ghost predicate OthersUntouched(rs: Reigns, rs': Reigns, v: Id) {
    forall t {:trigger t in rs'} :: t in rs' ==> rs'[t].leader == v || (t in rs && rs'[t].commit == rs[t].commit)
  }

  /** What every step keeps of the past, opened like `Base`. */
  ghost predicate Progress(c: Cluster, c': Cluster) {
    forall k {:trigger Within(c', k)} :: Within(c', k) ==> ProgressPieces(c, c')
  }

  ghost predicate ProgressPieces(c: Cluster, c': Cluster) {
    && c'.members == c.members && c'.compacting == c.compacting
    && AllEvolve(c.nodes, c'.nodes)
    && HistoryGrows(c.h, c'.h)
    && c.applied <= c'.applied
  }

  lemma AdmissibleGrows(rs: Reigns, rs': Reigns, t: nat, t': nat, k: nat)
    requires Grows(rs, rs') && t <= t' && Admissible(rs, t, k)
    ensures Admissible(rs', t', k)
  {
    if k > 0 {
      var u: nat :| u <= t && CommittedBy(rs, u, k);
      assert CommittedBy(rs, u, k) && ReignGrows(rs, rs', u);
      assert CommittedBy(rs', u, k);
    }
  }

  lemma BackedGrows(rs: Reigns, rs': Reigns, term: nat, term': nat, log: Log, commit: nat)
    requires Grows(rs, rs') && term <= term' && Backed(rs, term, log, commit)
    ensures Backed(rs', term', log, commit)
  {
    if commit > 0 {
      var u: nat :| u <= term && Backs(rs, u, log, commit);
      assert Backs(rs, u, log, commit) && ReignGrows(rs, rs', u);
      assert Backs(rs', u, log, commit);
    }
  }

  lemma AppendOkGrows(rs: Reigns, rs': Reigns, members: set<Id>, to: Id, req: AppendRequest)
    requires Grows(rs, rs') && AppendOk(rs, members, to, req)
    ensures AppendOk(rs', members, to, req)
  {
    assert ReignGrows(rs, rs', req.term);
    AdmissibleGrows(rs, rs', req.term, req.term, req.commit);
  }

  lemma SnapOkGrows(rs: Reigns, rs': Reigns, members: set<Id>, to: Id, req: SnapshotRequest, prefix: Log)
    requires Grows(rs, rs') && SnapOk(rs, members, to, req, prefix)
    ensures SnapOk(rs', members, to, req, prefix)
  {
    assert ReignGrows(rs, rs', req.term);
    AdmissibleGrows(rs, rs', req.term, req.term, req.lastIndex);
  }

  lemma AppliedOkGrows(rs: Reigns, rs': Reigns, a: Applied)
    requires Grows(rs, rs') && AppliedOk(rs, a)
    ensures AppliedOk(rs', a)
  {
    var u: nat :| CommittedBy(rs, u, a.index) && a.index < |rs[u].log| && rs[u].log[a.index] == a.entry;
    assert CommittedBy(rs, u, a.index) && ReignGrows(rs, rs', u);
    assert CommittedBy(rs', u, a.index);
  }

  lemma TruthfulGrows(h: History, h': History, members: set<Id>, nodes: map<Id, Node>, nodes': map<Id, Node>, pkt: Packet)
    requires HistoryGrows(h, h')
    requires AllEvolve(nodes, nodes')
    requires Truthful(h, members, nodes, pkt)
    ensures Truthful(h', members, nodes', pkt)
  {
    match pkt
    case AppendReq(_, to, req) => AppendOkGrows(h.reigns, h'.reigns, members, to, req);
    case ProbeReq(_, to, req) => AppendOkGrows(h.reigns, h'.reigns, members, to, req);
    case SnapReq(_, to, req, prefix) => SnapOkGrows(h.reigns, h'.reigns, members, to, req, prefix);
    case VoteReq(_, req) => assert EvolvesAt(nodes, nodes', req.candidate);
    case VoteRsp(from, _, asked, resp) => assert resp.granted ==> (asked, from) in h'.ballots;
    case _ =>
  }

  lemma NodeOkGrows(h: History, h': History, members: set<Id>, compacting: bool, v: Id, w: Id, n: Node)
    requires HistoryGrows(h, h') && OthersUntouched(h.reigns, h'.reigns, w) && v != w
    requires NodeOk(h, members, compacting, v, n)
    ensures NodeOk(h', members, compacting, v, n)
  {
    BackedGrows(h.reigns, h'.reigns, n.term, n.term, n.log, n.commit);
    if n.role == Leader {
      assert ReignGrows(h.reigns, h'.reigns, n.term);
    } else if n.role == Candidate {
      assert n.term in h.reigns ==> ReignGrows(h.reigns, h'.reigns, n.term);
      forall u | u in n.votes
        ensures VotedFor(h'.ballots, n.term, u, n.id, n.log)
      {
        assert VotedFor(h.ballots, n.term, u, n.id, n.log);
        assert (n.term, u) in h'.ballots;
      }
    }
  }

  lemma BallotsFreshGrow(nodes: map<Id, Node>, nodes': map<Id, Node>, ballots: Ballots, t: nat, v: Id)
    requires AllEvolve(nodes, nodes')
    requires (t, v) in ballots && BallotFresh(nodes, ballots, t, v)
    ensures BallotFresh(nodes', ballots, t, v)
  {
    var cand := ballots[(t, v)].candidate;
    assert EvolvesAt(nodes, nodes', cand);
  }

  /** A step that changes node `v` to `n'` keeps `Base` if the protocol invariant holds after
      it and everything it adds is in order. */
  lemma StepKeepsBase(c: Cluster, c': Cluster, v: Id, n': Node)
    requires Base(c) && v in c.nodes
    requires c'.members == c.members && c'.compacting == c.compacting && c'.nodes == c.nodes[v := n']
    requires Evolves(c.nodes[v], n')
    requires HistoryGrows(c.h, c'.h) && OthersUntouched(c.h.reigns, c'.h.reigns, v)
    requires Inv(ViewOf(c'))
    requires NodeOk(c'.h, c.members, c.compacting, v, n')
    requires PlainReigns(c'.h.reigns)
    requires NewBallotsFresh(c, c')
    requires forall a {:trigger AppliedOk(c'.h.reigns, a)} ::
               a in c'.applied && a !in c.applied ==> AppliedOk(c'.h.reigns, a)
    requires NewPacketsTruthful(c, c')
    requires c.applied <= c'.applied
    ensures Base(c') && Progress(c, c')
  {
    assert Within(c, true);
    StepKeepsNodes(c, c', v, n');
    OneEvolves(c, c', v, n');
    StepKeepsRecords(c, c');
  }

  lemma OneEvolves(c: Cluster, c': Cluster, v: Id, n': Node)
    requires NodesOk(c) && v in c.nodes && c'.nodes == c.nodes[v := n'] && Evolves(c.nodes[v], n')
    ensures AllEvolve(c.nodes, c'.nodes)
  {
    forall w | w in c.nodes
      ensures EvolvesAt(c.nodes, c'.nodes, w)
    {
      assert NodeOk(c.h, c.members, c.compacting, w, c.nodes[w]);
    }
  }

  lemma StepKeepsNodes(c: Cluster, c': Cluster, v: Id, n': Node)
    requires NodesOk(c) && v in c.nodes
    requires c'.members == c.members && c'.compacting == c.compacting && c'.nodes == c.nodes[v := n']
    requires HistoryGrows(c.h, c'.h) && OthersUntouched(c.h.reigns, c'.h.reigns, v)
    requires NodeOk(c'.h, c.members, c.compacting, v, n')
    ensures NodesOk(c')
  {
    forall w | w in c'.nodes
      ensures NodeOk(c'.h, c'.members, c'.compacting, w, c'.nodes[w])
    {
      if w != v {
        assert NodeOk(c.h, c.members, c.compacting, w, c.nodes[w]);
        NodeOkGrows(c.h, c'.h, c.members, c.compacting, w, v, c.nodes[w]);
      }
    }
  }

  lemma StepKeepsRecords(c: Cluster, c': Cluster)
    requires c'.members == c.members
    requires AllEvolve(c.nodes, c'.nodes)
    requires HistoryGrows(c.h, c'.h)
    requires BallotsFresh(c.nodes, c.h.ballots) && AllAppliedOk(c.h.reigns, c.applied) && NetTruthful(c)
    requires NewBallotsFresh(c, c')
    requires forall a {:trigger AppliedOk(c'.h.reigns, a)} ::
               a in c'.applied && a !in c.applied ==> AppliedOk(c'.h.reigns, a)
    requires NewPacketsTruthful(c, c')
    ensures BallotsFresh(c'.nodes, c'.h.ballots) && AllAppliedOk(c'.h.reigns, c'.applied) && NetTruthful(c')
  {
    forall t: nat, w | (t, w) in c'.h.ballots
      ensures BallotFresh(c'.nodes, c'.h.ballots, t, w)
    {
      if (t, w) in c.h.ballots {
        assert BallotFresh(c.nodes, c.h.ballots, t, w);
        BallotsFreshGrow(c.nodes, c'.nodes, c.h.ballots, t, w);
      }
    }
    forall a | a in c'.applied
      ensures AppliedOk(c'.h.reigns, a)
    {
      if a in c.applied {
        assert AppliedOk(c.h.reigns, a);
        AppliedOkGrows(c.h.reigns, c'.h.reigns, a);
      }
    }
    forall pkt | pkt in c'.net
      ensures Truthful(c'.h, c'.members, c'.nodes, pkt)
    {
      if pkt in c.net {
        assert Truthful(c.h, c.members, c.nodes, pkt);
        TruthfulGrows(c.h, c'.h, c.members, c.nodes, c'.nodes, pkt);
      }
    }
  }

  /** Node `v` may become `n'` with history `h'`: everything but new ballots and packets. */
  ghost predicate Good(c: Cluster, v: Id, n': Node, h': History)
    requires v in c.nodes
  {
    forall k {:trigger Within(c, k)} :: Within(c, k) ==> GoodPieces(c, v, n', h')
  }

  ghost predicate GoodPieces(c: Cluster, v: Id, n': Node, h': History)
    requires v in c.nodes
  {
    && Evolves(c.nodes[v], n')
    && HistoryGrows(c.h, h') && OthersUntouched(c.h.reigns, h'.reigns, v)
    && Inv(State(c.members, Peers(c.nodes)[v := PeerOf(n')], h'))
    && NodeOk(h', c.members, c.compacting, v, n')
    && PlainReigns(h'.reigns)
    && AllAppliedOk(h'.reigns, NewlyApplied(v, c.nodes[v], n'))
  }

  ghost predicate NewBallotsFresh(c: Cluster, c': Cluster) {
    forall t: nat, w {:trigger BallotFresh(c'.nodes, c'.h.ballots, t, w)} ::
      (t, w) in c'.h.ballots && (t, w) !in c.h.ballots ==> BallotFresh(c'.nodes, c'.h.ballots, t, w)
  }

  ghost predicate NewPacketsTruthful(c: Cluster, c': Cluster) {
    forall pkt {:trigger Truthful(c'.h, c'.members, c'.nodes, pkt)} ::
      pkt in c'.net && pkt !in c.net ==> Truthful(c'.h, c'.members, c'.nodes, pkt)
  }

  lemma GoodStep(c: Cluster, c': Cluster, v: Id, n': Node)
    requires Base(c) && v in c.nodes && Good(c, v, n', c'.h)
    requires c'.members == c.members && c'.compacting == c.compacting
    requires c'.nodes == c.nodes[v := n']
    requires c.applied <= c'.applied <= c.applied + NewlyApplied(v, c.nodes[v], n')
    requires NewBallotsFresh(c, c') && NewPacketsTruthful(c, c')
    ensures Base(c') && Progress(c, c')
  {
    assert Within(c, true);
    PeersUpdate(c.nodes, v, n');
    forall a | a in c'.applied && a !in c.applied
      ensures AppliedOk(c'.h.reigns, a)
    {
      assert AppliedOk(c'.h.reigns, a);
    }
    StepKeepsBase(c, c', v, n');
  }

  /** A step that casts no vote and sends nothing. */
  lemma GoodQuietStep(c: Cluster, c': Cluster, v: Id, n': Node)
    requires Base(c) && v in c.nodes && Good(c, v, n', c'.h)
    requires c'.members == c.members && c'.compacting == c.compacting && c'.net == c.net
    requires c'.nodes == c.nodes[v := n']
    requires c.applied <= c'.applied <= c.applied + NewlyApplied(v, c.nodes[v], n')
    requires c'.h.ballots == c.h.ballots
    ensures Base(c') && Progress(c, c')
  {
    GoodStep(c, c', v, n');
  }

  lemma SameProgress(c: Cluster, c': Cluster)
    requires Base(c) && c'.members == c.members && c'.compacting == c.compacting
    requires c'.nodes == c.nodes && c'.h == c.h && c'.applied == c.applied
    ensures Progress(c, c')
  {
    assert Within(c, true);
    GrowsRefl(c.h.reigns);
    forall v | v in c.nodes
      ensures EvolvesAt(c.nodes, c'.nodes, v)
    {
      assert NodeOk(c.h, c.members, c.compacting, v, c.nodes[v]);
    }
  }
}
