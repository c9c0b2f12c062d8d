/** Steps in which a node campaigns, wins, or advances its own commit index. */
module LeaderSteps {
  import opened RaftTypes
  import opened Quorums
  import opened Logs
  import opened History
  import opened NodeSpec
  import opened NodeFacts
  import opened Protocol
  import opened Effects
  import opened Cluster
  import opened ClusterInv

  // ---------------------------------------------------------------- applying and compacting

  /** Applying committed entries keeps the node in order, and what it applies was committed. */
  lemma SettleNode(h: History, members: set<Id>, compacting: bool, v: Id, n: Node)
    requires NodeOk(h, members, compacting, v, n)
    ensures NodeOk(h, members, compacting, v, ApplyCommitted(n))
    ensures Settled(n, ApplyCommitted(n))
    ensures AllAppliedOk(h.reigns, NewlyApplied(v, n, ApplyCommitted(n)))
  {
    ApplySettles(n);
    var n' := ApplyCommitted(n);
    if n.role == Candidate {
      forall u | u in n'.votes
        ensures VotedFor(h.ballots, n'.term, u, n'.id, n'.log)
      {
        assert VotedFor(h.ballots, n.term, u, n.id, n.log);
      }
    }
    forall a | a in NewlyApplied(v, n, n')
      ensures AppliedOk(h.reigns, a)
    {
      AppliedWasCommitted(h.reigns, v, n, n', a);
    }
  }

  lemma AppliedWasCommitted(rs: Reigns, v: Id, n: Node, n': Node, a: Applied)
    requires Backed(rs, n'.term, n'.log, n'.commit) && Local(n')
    requires a in NewlyApplied(v, n, n')
    ensures AppliedOk(rs, a)
  {
    var t: nat :| t <= n'.term && Backs(rs, t, n'.log, n'.commit);
    assert Backs(rs, t, n'.log, n'.commit);
    assert CommittedBy(rs, t, a.index);
  }

  lemma TickBase(c: Cluster, c': Cluster, v: Id)
    requires Base(c) && v in c.nodes && |c.nodes[v].log| > 0
    requires c' == Update(c, v, ApplyCommitted(c.nodes[v])).(calls := c'.calls)
    ensures Base(c') && Progress(c, c')
  {
    assert Within(c, true);
    var n, n' := c.nodes[v], ApplyCommitted(c.nodes[v]);
    assert NodeOk(c.h, c.members, c.compacting, v, n);
    SettleNode(c.h, c.members, c.compacting, v, n);
    SameView(c, c', v, n');
    GrowsRefl(c.h.reigns);
    forall a | a in c'.applied && a !in c.applied
      ensures AppliedOk(c'.h.reigns, a)
    {
      assert AppliedOk(c.h.reigns, a);
    }
    StepKeepsBase(c, c', v, n');
  }

  lemma SameView(c: Cluster, c': Cluster, v: Id, n': Node)
    requires v in c.nodes && c'.nodes == c.nodes[v := n'] && c'.h == c.h && c'.members == c.members
    requires PeerOf(n') == PeerOf(c.nodes[v])
    ensures ViewOf(c') == ViewOf(c)
  {
    PeersUpdate(c.nodes, v, n');
  }

  // ---------------------------------------------------------------- counting a majority

  /** What the leader commits by counting was chosen. */
  lemma CommitIsChosen(s: State, n: Node, i: nat)
    requires Inv(s) && n.id in s.ns && s.ns[n.id] == PeerOf(n)
    requires n.role == Leader && LeaderRole(s.h, n) && n.peers.Keys == s.members
    requires 0 < i < |n.log| && Committable(n, i)
    ensures Chosen(s.h.reigns, s.h.counted, s.members, n.term, i)
  {
    assert Inside(s, true);
    var q := Holders(n, i);
    assert LeaderOk(s.ns, s.h.reigns, n.term);
    forall p | p in q
      ensures AckedThrough(s.h.counted, n.term, p, i)
    {
      assert Ack(n.term, p, Lookup(n.matchIndex, p)) in s.h.counted;
    }
    assert IsQuorum(s.members, q) && AllAcked(s.h.counted, n.term, q, i);
  }

  /** Advancing the commit index, on a leader already in order. */
  lemma AdvanceNode(s: State, compacting: bool, n: Node)
    requires Inv(s) && n.id in s.ns && s.ns[n.id] == PeerOf(n)
    requires n.role == Leader && NodeOk(s.h, s.members, compacting, n.id, n)
    ensures Inv(s.(h := RecordCommit(s.h, n.commit, AdvanceCommit(n))))
    ensures NodeOk(RecordCommit(s.h, n.commit, AdvanceCommit(n)), s.members, compacting, n.id, AdvanceCommit(n))
    ensures Grows(s.h.reigns, RecordCommit(s.h, n.commit, AdvanceCommit(n)).reigns)
  {
    assert Inside(s, true);
    var n' := AdvanceCommit(n);
    BestCommitIsGreatest(n, LastIndex(n.log));
    GrowsRefl(s.h.reigns);
    if n'.commit > n.commit {
      CommitIsChosen(s, n, n'.commit);
      CommitInv(s, n.term, n'.commit);
      var rs' := Commit(s, n.term, n'.commit).h.reigns;
      assert LeaderOk(s.ns, s.h.reigns, n.term);
      assert Backs(rs', n.term, n'.log, n'.commit);
    }
  }

  /** The tail of every action of a leader: advance the commit index, apply, maybe compact. */
  lemma FinishNode(s: State, compacting: bool, n: Node)
    requires Inv(s) && n.id in s.ns && s.ns[n.id] == PeerOf(n)
    requires n.role == Leader && NodeOk(s.h, s.members, compacting, n.id, n)
    ensures ApplyCommitted(AdvanceCommit(n)).term == n.term
    ensures
      var n' := ApplyCommitted(AdvanceCommit(n));
      var h' := RecordCommit(s.h, n.commit, n');
      && PeerOf(n') == PeerOf(n) && n'.id == n.id && n'.role == Leader && n'.snap >= n.snap
      && n'.nextIndex == n.nextIndex
      && Inv(s.(h := h'))
      && NodeOk(h', s.members, compacting, n.id, n')
      && HistoryGrows(s.h, h')
      && AllAppliedOk(h'.reigns, NewlyApplied(n.id, n, n'))
  {
    var n1 := AdvanceCommit(n);
    AdvanceNode(s, compacting, n);
    SettleNode(RecordCommit(s.h, n.commit, n1), s.members, compacting, n.id, n1);
  }

  /** Recording a leader's commit index touches nobody else's reign, and no log. */
  lemma CommitRecord(h: History, was: nat, n: Node)
    requires n.term in h.reigns && h.reigns[n.term].leader == n.id
    ensures OthersUntouched(h.reigns, RecordCommit(h, was, n).reigns, n.id)
    ensures PlainReigns(h.reigns) ==> PlainReigns(RecordCommit(h, was, n).reigns)
  {
    var rs' := RecordCommit(h, was, n).reigns;
    if PlainReigns(h.reigns) {
      forall t | t in rs'
        ensures PlainReign(rs', t)
      {
        assert PlainReign(h.reigns, t);
      }
    }
  }

  // ---------------------------------------------------------------- winning an election

  /** A majority that voted for `cand` in a term with a leader elected that leader. */
  lemma OneWinner(s: State, t: nat, cand: Id, q: set<Id>)
    requires Inv(s) && t in s.h.reigns && IsQuorum(s.members, q)
    requires forall u :: u in q ==> (t, u) in s.h.ballots && s.h.ballots[(t, u)].candidate == cand
    ensures s.h.reigns[t].leader == cand
  {
    assert Inside(s, true);
    var rs := s.h.reigns;
    assert ReignOk(rs, t);
    assert ElectedBy(rs, s.h.ballots, s.members, t);
    var u := QuorumsMeet(s.members, q, rs[t].quorum);
    assert Supports(rs, s.h.ballots, t, u);
  }

  /** Two candidates cannot both win a term. */
  lemma TermStillOpen(s: State, n: Node)
    requires Inv(s) && CandidateRole(s.h, s.members, n) && IsQuorum(s.members, n.votes)
    ensures n.term !in s.h.reigns
  {
    forall u | u in n.votes
      ensures (n.term, u) in s.h.ballots && s.h.ballots[(n.term, u)].candidate == n.id
    {
      assert VotedFor(s.h.ballots, n.term, u, n.id, n.log);
    }
    if n.term in s.h.reigns {
      OneWinner(s, n.term, n.id, n.votes);
    }
  }

  /** Whatever a leader committed is in the log of every leader of its own or a later term. */
  lemma LeaderHasCommitted(s: State, t: nat, u: nat)
    requires Inv(s) && t in s.h.reigns && u in s.h.reigns && t <= u
    ensures Agree(s.h.reigns[u].log, s.h.reigns[t].log, s.h.reigns[t].commit)
  {
    assert Inside(s, true);
    var rs := s.h.reigns;
    assert ReignOk(rs, t) && ReignOk(rs, u) && CommitOk(rs, s.h.counted, s.members, t);
    if t < u && rs[t].commit > 0 {
      LeaderCompleteness(s.h, s.members, t, rs[t].commit, u);
    }
  }

  /** A leader's log holds everything committed so far, up to its own term. */
  lemma LeaderBacked(s: State, term: nat, k: nat)
    requires Inv(s) && term in s.h.reigns && Admissible(s.h.reigns, term, k)
    ensures k < |s.h.reigns[term].log|
    ensures Backed(s.h.reigns, term, s.h.reigns[term].log, k)
  {
    assert Inside(s, true);
    assert ReignOk(s.h.reigns, term);
    if k > 0 {
      var t: nat :| t <= term && CommittedBy(s.h.reigns, t, k);
      assert CommittedBy(s.h.reigns, t, k);
      LeaderHasCommitted(s, t, term);
      assert Backs(s.h.reigns, t, s.h.reigns[term].log, k);
    }
  }

  lemma BackedAdmissible(rs: Reigns, term: nat, log: Log, k: nat)
    requires Backed(rs, term, log, k)
    ensures Admissible(rs, term, k)
  {
    if k > 0 {
      var t: nat :| t <= term && Backs(rs, t, log, k);
      assert Backs(rs, t, log, k);
      assert CommittedBy(rs, t, k);
    }
  }

  /** The leader's own copy of a new entry. */
  lemma OwnCopyInv(s: State, v: Id)
    requires Inv(s) && v in s.ns && s.ns[v].term in s.h.reigns && s.h.reigns[s.ns[v].term].leader == v
    ensures |s.ns[v].log| > 0
    ensures
      var a := Ack(s.ns[v].term, v, LastIndex(s.ns[v].log));
      Inv(s.(h := RecordCount(RecordAck(s.h, a), a)))
  {
    assert Inside(s, true);
    assert LeaderOk(s.ns, s.h.reigns, s.ns[v].term) && LogOk(s.ns, s.h.reigns, v);
    var m := LastIndex(s.ns[v].log);
    AcknowledgeInv(s, v, m);
    CountInv(Acknowledge(s, v, m), Ack(s.ns[v].term, v, m));
  }

  lemma AppendLocal(n: Node, e: Entry, n': Node)
    requires Local(n) && e.change.None?
    requires n'.log == n.log + [e]
    requires n'.snap == n.snap && n'.applied == n.applied && n'.commit == n.commit && n'.kv == n.kv
    requires n'.image == n.image && n'.peers == n.peers && n'.base == n.base
    ensures Local(n')
  {
    ReplayAgree(n.log, n'.log, n.applied);
    ReplayAgree(n.log, n'.log, n.snap);
  }

  function CrownedHistory(h: History, n: Node): History
    requires |n.log| > 0
  {
    RecordOwn(h.(reigns := h.reigns[n.term := Reign(n.id, n.votes, |n.log|, n.log + [NoOp(n.term)], 0)]), n, |n.log|)
  }

  ghost predicate Winning(s: State, compacting: bool, n: Node) {
    && Inv(s) && n.id in s.ns && s.ns[n.id] == PeerOf(n)
    && n.role == Candidate && NodeOk(s.h, s.members, compacting, n.id, n)
    && |n.votes| >= MajoritySize(s.members)
  }

  lemma CrownInv(s: State, compacting: bool, n: Node)
    requires Winning(s, compacting, n)
    ensures n.term !in s.h.reigns
    ensures Inv(State(s.members, s.ns[n.id := PeerOf(Crowned(n))], CrownedHistory(s.h, n)))
    ensures Grows(s.h.reigns, CrownedHistory(s.h, n).reigns)
  {
    TermStillOpen(s, n);
    ElectInv(s, n.id, n.votes);
    var s1 := Elect(s, n.id, n.votes);
    OwnCopyInv(s1, n.id);
  }

  lemma CrownNode(s: State, compacting: bool, n: Node)
    requires Winning(s, compacting, n) && n.term !in s.h.reigns
    requires Inv(State(s.members, s.ns[n.id := PeerOf(Crowned(n))], CrownedHistory(s.h, n)))
    requires Grows(s.h.reigns, CrownedHistory(s.h, n).reigns)
    ensures NodeOk(CrownedHistory(s.h, n), s.members, compacting, n.id, Crowned(n))
  {
    var n1, h1 := Crowned(n), CrownedHistory(s.h, n);
    var s1 := State(s.members, s.ns[n.id := PeerOf(n1)], h1);
    AppendLocal(n, NoOp(n.term), n1);
    BackedAdmissible(s.h.reigns, n.term, n.log, n.commit);
    AdmissibleGrows(s.h.reigns, h1.reigns, n.term, n.term, n.commit);
    LeaderBacked(s1, n.term, n.commit);
  }

  /** Becoming leader, as one step. */
  lemma WinNode(s: State, compacting: bool, n: Node)
    requires Winning(s, compacting, n) && |n.log| > 0
    requires PlainReigns(s.h.reigns)
    ensures
      var n' := BecomeLeader(n);
      && n'.term == n.term && n'.id == n.id && n'.snap >= n.snap && n'.role == Leader && |n'.log| > 0
      && var h' := RecordElection(s.h, n, n');
      && Inv(State(s.members, s.ns[n.id := PeerOf(n')], h'))
      && NodeOk(h', s.members, compacting, n.id, n')
      && HistoryGrows(s.h, h')
      && OthersUntouched(s.h.reigns, h'.reigns, n.id)
      && h'.ballots == s.h.ballots && s.h.acks <= h'.acks
      && PlainReigns(h'.reigns)
      && AllAppliedOk(h'.reigns, NewlyApplied(n.id, n, n'))
  {
    CrownInv(s, compacting, n);
    CrownNode(s, compacting, n);
    var n1, h1 := Crowned(n), CrownedHistory(s.h, n);
    var s1 := State(s.members, s.ns[n.id := PeerOf(n1)], h1);
    FinishNode(s1, compacting, n1);
    var n' := BecomeLeader(n);
    assert n' == ApplyCommitted(AdvanceCommit(n1));
    assert RecordElection(s.h, n, n') == RecordCommit(h1, n1.commit, n');
    CrownRecord(s.h, n);
    CommitRecord(h1, n1.commit, n');
    HistoryTrans(s.h, h1, RecordElection(s.h, n, n'), n.id);
  }

  lemma CrownRecord(h: History, n: Node)
    requires n.term !in h.reigns && |n.log| > 0 && Plain(n.log)
    ensures HistoryGrows(h, CrownedHistory(h, n))
    ensures OthersUntouched(h.reigns, CrownedHistory(h, n).reigns, n.id)
    ensures PlainReigns(h.reigns) ==> PlainReigns(CrownedHistory(h, n).reigns)
  {
    var rs' := CrownedHistory(h, n).reigns;
    assert Grows(h.reigns, rs');
    if PlainReigns(h.reigns) {
      forall t | t in rs'
        ensures PlainReign(rs', t)
      {
        assert t in h.reigns ==> PlainReign(h.reigns, t);
      }
    }
  }

  lemma HistoryTrans(a: History, b: History, c: History, v: Id)
    requires HistoryGrows(a, b) && HistoryGrows(b, c)
    requires OthersUntouched(a.reigns, b.reigns, v) && OthersUntouched(b.reigns, c.reigns, v)
    ensures HistoryGrows(a, c) && OthersUntouched(a.reigns, c.reigns, v)
  {
    GrowsTrans(a.reigns, b.reigns, c.reigns);
    forall t | t in c.reigns
      ensures c.reigns[t].leader == v || (t in a.reigns && c.reigns[t].commit == a.reigns[t].commit)
    {
      assert t in b.reigns ==> ReignGrows(b.reigns, c.reigns, t);
    }
  }

  lemma GrowsTrans(a: Reigns, b: Reigns, c: Reigns)
    requires Grows(a, b) && Grows(b, c)
    ensures Grows(a, c)
  {
    forall t | t in a
      ensures ReignGrows(a, c, t)
    {
      assert ReignGrows(a, b, t) && ReignGrows(b, c, t);
    }
  }
}
