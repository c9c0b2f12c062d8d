/** The indivisible effects, and the proof that each keeps the protocol invariant. */
module Effects {
  import opened RaftTypes
  import opened Quorums
  import opened Logs
  import opened History
  import opened Protocol

  lemma GrowsRefl(rs: Reigns)
    ensures Grows(rs, rs)
  {
  }

  /** Leaders and acknowledgements do not notice a rise in terms or a vote. */
  lemma SameLogs(ns: View, ns': View, rs: Reigns, acks: set<Ack>)
    requires forall v :: v in ns ==> v in ns' && ns'[v].log == ns[v].log && ns'[v].term >= ns[v].term
    requires LeadersOk(ns, rs) && AcksHeld(ns, rs, acks)
    ensures LeadersOk(ns', rs) && AcksHeld(ns', rs, acks)
  {
    forall u | u in rs
      ensures LeaderOk(ns', rs, u)
    {
      assert LeaderOk(ns, rs, u);
    }
    forall a | a in acks
      ensures AckHeld(ns', rs, a)
    {
      assert AckHeld(ns, rs, a);
    }
  }

  // ---------------------------------------------------------------- learning of a later term

  function Raise(s: State, v: Id, t: nat): State
    requires v in s.ns
  {
    s.(ns := s.ns[v := s.ns[v].(term := t, vote := "")])
  }

  lemma RaiseInv(s: State, v: Id, t: nat)
    requires Inv(s) && v in s.ns && t > s.ns[v].term
    ensures Inv(Raise(s, v, t))
  {
    assert Inside(s, true);
    var s' := Raise(s, v, t);
    var ns, ns', rs, acks := s.ns, s'.ns, s.h.reigns, s.h.acks;
    assert ns'.Keys == s.members;
    RaiseVotes(s, v, t);
    SameLogs(ns, ns', rs, acks);
    RaiseKept(s, v, t);
  }

  lemma RaiseVotes(s: State, v: Id, t: nat)
    requires v in s.ns && t > s.ns[v].term
    requires LogsOk(s.ns, s.h.reigns) && VotesRecorded(s.ns, s.h.ballots) && BallotsOk(s.ns, s.h.reigns, s.h.ballots)
    ensures LogsOk(Raise(s, v, t).ns, s.h.reigns) && VotesRecorded(Raise(s, v, t).ns, s.h.ballots)
    ensures BallotsOk(Raise(s, v, t).ns, s.h.reigns, s.h.ballots)
  {
    var ns, ns', rs := s.ns, Raise(s, v, t).ns, s.h.reigns;
    forall w | w in ns'
      ensures LogOk(ns', rs, w) && VoteRecorded(ns', s.h.ballots, w)
    {
      assert LogOk(ns, rs, w) && VoteRecorded(ns, s.h.ballots, w);
    }
    forall u: nat, w | (u, w) in s.h.ballots
      ensures BallotOk(ns', rs, s.h.ballots, u, w)
    {
      assert BallotOk(ns, rs, s.h.ballots, u, w);
    }
  }

  lemma RaiseKept(s: State, v: Id, t: nat)
    requires v in s.ns && t > s.ns[v].term
    requires AcksHeld(s.ns, s.h.reigns, s.h.acks) && AllKept(s.ns, s.h.reigns, s.h.acks) && AcksValid(s.h)
    ensures AllKept(Raise(s, v, t).ns, s.h.reigns, s.h.acks)
  {
    var ns, ns', rs, acks := s.ns, Raise(s, v, t).ns, s.h.reigns, s.h.acks;
    forall w | w in ns'
      ensures NodeKept(ns', rs, acks, w)
    {
      assert NodeKept(ns, rs, acks, w);
      forall a | a in acks && a.voter == w
        ensures a.term <= ns[w].term && AckValid(rs, a)
      {
        assert AckHeld(ns, rs, a) && AckValid(rs, a);
      }
      GrowsRefl(rs);
      AcksKeptGrow(rs, rs, acks, acks, w, ns[w].log, ns'[w].log, ns[w].term, ns'[w].term);
    }
  }

  // ---------------------------------------------------------------- voting

  function Vote(s: State, v: Id, c: Id): State
    requires v in s.ns
  {
    s.(ns := s.ns[v := s.ns[v].(vote := c)],
       h := s.h.(ballots := s.h.ballots[(s.ns[v].term, v) := Ballot(c, s.ns[v].log)]))
  }

  ghost predicate CanVote(s: State, v: Id, c: Id) {
    v in s.ns && s.ns[v].vote == "" && c != "" && s.ns[v].term >= 1
  }

  lemma VoteInv(s: State, v: Id, c: Id)
    requires Inv(s) && CanVote(s, v, c)
    ensures Inv(Vote(s, v, c))
  {
    assert Inside(s, true);
    var s' := Vote(s, v, c);
    var ns, ns', rs, acks := s.ns, s'.ns, s.h.reigns, s.h.acks;
    assert ns'.Keys == s.members;
    NotVotedYet(s, v);
    VoteLogs(s, v, c);
    SameLogs(ns, ns', rs, acks);
    VoteBallots(s, v, c);
    VoteElections(s, v, c);
    VoteKept(s, v, c);
  }

  lemma VoteLogs(s: State, v: Id, c: Id)
    requires v in s.ns && LogsOk(s.ns, s.h.reigns) && AllKept(s.ns, s.h.reigns, s.h.acks)
    ensures LogsOk(Vote(s, v, c).ns, s.h.reigns) && AllKept(Vote(s, v, c).ns, s.h.reigns, s.h.acks)
  {
    var ns, ns', rs, acks := s.ns, Vote(s, v, c).ns, s.h.reigns, s.h.acks;
    forall w | w in ns'
      ensures LogOk(ns', rs, w) && NodeKept(ns', rs, acks, w)
    {
      assert LogOk(ns, rs, w) && NodeKept(ns, rs, acks, w);
    }
  }

  lemma NotVotedYet(s: State, v: Id)
    requires Inv(s) && v in s.ns && s.ns[v].vote == ""
    ensures (s.ns[v].term, v) !in s.h.ballots
  {
    assert Inside(s, true);
    assert (s.ns[v].term, v) in s.h.ballots ==> BallotOk(s.ns, s.h.reigns, s.h.ballots, s.ns[v].term, v);
  }

  lemma VoteBallots(s: State, v: Id, c: Id)
    requires CanVote(s, v, c) && (s.ns[v].term, v) !in s.h.ballots
    requires LogsOk(s.ns, s.h.reigns) && BallotsOk(s.ns, s.h.reigns, s.h.ballots) && VotesRecorded(s.ns, s.h.ballots)
    ensures BallotsOk(Vote(s, v, c).ns, s.h.reigns, Vote(s, v, c).h.ballots)
    ensures VotesRecorded(Vote(s, v, c).ns, Vote(s, v, c).h.ballots)
  {
    var s' := Vote(s, v, c);
    var rs := s.h.reigns;
    forall u: nat, w | (u, w) in s'.h.ballots
      ensures BallotOk(s'.ns, rs, s'.h.ballots, u, w)
    {
      if (u, w) in s.h.ballots {
        assert BallotOk(s.ns, rs, s.h.ballots, u, w);
      } else {
        assert LogOk(s.ns, rs, v);
      }
    }
    forall w | w in s'.ns
      ensures VoteRecorded(s'.ns, s'.h.ballots, w)
    {
      assert VoteRecorded(s.ns, s.h.ballots, w);
    }
  }

  lemma VoteElections(s: State, v: Id, c: Id)
    requires v in s.ns && (s.ns[v].term, v) !in s.h.ballots
    requires ElectionsOk(s.h.reigns, s.h.ballots, s.members)
    ensures ElectionsOk(s.h.reigns, Vote(s, v, c).h.ballots, s.members)
  {
    var rs, ballots, ballots' := s.h.reigns, s.h.ballots, Vote(s, v, c).h.ballots;
    forall u | u in rs && 1 <= rs[u].base <= |rs[u].log|
      ensures ElectedBy(rs, ballots', s.members, u)
    {
      assert ElectedBy(rs, ballots, s.members, u);
      forall w | w in rs[u].quorum
        ensures Supports(rs, ballots', u, w)
      {
        assert Supports(rs, ballots, u, w);
      }
    }
  }

  lemma VoteKept(s: State, v: Id, c: Id)
    requires Inv(s) && CanVote(s, v, c) && (s.ns[v].term, v) !in s.h.ballots
    ensures BallotsKept(s.h.reigns, Vote(s, v, c).h.ballots, s.h.acks)
  {
    assert Inside(s, true);
    var rs, ballots, acks := s.h.reigns, s.h.ballots, s.h.acks;
    var ballots' := Vote(s, v, c).h.ballots;
    forall t: nat, w | Standing(rs, ballots', t, w)
      ensures AcksKept(rs, acks, w, ballots'[(t, w)].log, t - 1)
    {
      if (t, w) in ballots {
        assert Standing(rs, ballots, t, w);
      } else {
        FreshBallotKept(s, v);
      }
    }
  }

  lemma NotYetElected(s: State, v: Id)
    requires Inv(s) && v in s.ns && (s.ns[v].term, v) !in s.h.ballots
    ensures s.ns[v].term in s.h.reigns ==> v !in s.h.reigns[s.ns[v].term].quorum
  {
    assert Inside(s, true);
    var rs, t := s.h.reigns, s.ns[v].term;
    if t in rs {
      assert ReignOk(rs, t);
      assert ElectedBy(rs, s.h.ballots, s.members, t);
      assert v in rs[t].quorum ==> Supports(rs, s.h.ballots, t, v);
    }
  }

  /** A vote cast before the election of its term: whoever blocks an acknowledged entry was
      elected in an earlier term. */
  lemma FreshBallotKept(s: State, v: Id)
    requires Inv(s) && v in s.ns && (s.ns[v].term, v) !in s.h.ballots
    requires s.ns[v].term in s.h.reigns ==> v in s.h.reigns[s.ns[v].term].quorum
    ensures AcksKept(s.h.reigns, s.h.acks, v, s.ns[v].log, s.ns[v].term - 1)
  {
    assert Inside(s, true);
    var rs, acks, t, log := s.h.reigns, s.h.acks, s.ns[v].term, s.ns[v].log;
    NotYetElected(s, v);
    forall a, i: nat | a in acks && a.voter == v && a.term < t && Claims(rs, a, i)
      ensures Kept(rs, log, t - 1, a.term, i)
    {
      assert NodeKept(s.ns, rs, acks, v);
      assert Kept(rs, log, t, a.term, i);
    }
  }

  // ---------------------------------------------------------------- winning an election

  function Elect(s: State, c: Id, q: set<Id>): State
    requires c in s.ns
  {
    var p := s.ns[c];
    var log' := p.log + [NoOp(p.term)];
    s.(ns := s.ns[c := p.(log := log')],
       h := s.h.(reigns := s.h.reigns[p.term := Reign(c, q, |p.log|, log', 0)]))
  }

  /** The voter's ballot is for `c` and its log was no more up to date than `log`. */
  ghost predicate VotedFor(ballots: Ballots, t: nat, v: Id, c: Id, log: Log)
    requires |log| > 0
  {
    && (t, v) in ballots
    && ballots[(t, v)].candidate == c
    && |ballots[(t, v)].log| > 0
    && AtLeastAsUpToDate(LastIndex(log), LastTerm(log), ballots[(t, v)].log)
  }

  /** The candidate's current term has no leader yet and a majority voted for it. */
  ghost predicate CanElect(s: State, c: Id, q: set<Id>) {
    && c in s.ns
    && |s.ns[c].log| > 0
    && LastTerm(s.ns[c].log) < s.ns[c].term
    && s.ns[c].term !in s.h.reigns
    && IsQuorum(s.members, q)
    && forall v {:trigger VotedFor(s.h.ballots, s.ns[c].term, v, c, s.ns[c].log)} ::
         v in q ==> VotedFor(s.h.ballots, s.ns[c].term, v, c, s.ns[c].log)
  }

  lemma ElectInv(s: State, c: Id, q: set<Id>)
    requires Inv(s) && CanElect(s, c, q)
    ensures Inv(Elect(s, c, q))
    ensures Grows(s.h.reigns, Elect(s, c, q).h.reigns)
  {
    assert Inside(s, true);
    var s' := Elect(s, c, q);
    assert s'.ns.Keys == s.members;
    ElectGrows(s, c, q);
    ElectReigns(s, c, q);
    ElectNodes(s, c, q);
    ElectElections(s, c, q);
    BallotsGrow(s.ns, s'.ns, s.h.reigns, s'.h.reigns, s.h.ballots);
    ElectKept(s, c, q);
    CommitsGrow(s.h.reigns, s'.h.reigns, s.h.counted, s.h.counted, s.members);
  }

  lemma ElectGrows(s: State, c: Id, q: set<Id>)
    requires CanElect(s, c, q)
    ensures Grows(s.h.reigns, Elect(s, c, q).h.reigns)
  {
  }

  lemma ElectReigns(s: State, c: Id, q: set<Id>)
    requires CanElect(s, c, q) && Grows(s.h.reigns, Elect(s, c, q).h.reigns)
    requires LogsOk(s.ns, s.h.reigns) && ReignsOk(s.h.reigns)
    ensures ReignsOk(Elect(s, c, q).h.reigns)
    ensures LogsOk(Elect(s, c, q).ns, Elect(s, c, q).h.reigns)
  {
    var s' := Elect(s, c, q);
    var rs, rs' := s.h.reigns, s'.h.reigns;
    var t, log := s.ns[c].term, s.ns[c].log;
    assert LogOk(s.ns, rs, c);
    RootedGrows(rs, rs', log);
    RootedExtends(rs', log, NoOp(t));
    forall u | u in rs'
      ensures ReignOk(rs', u)
    {
      if u != t {
        assert ReignOk(rs, u);
        RootedGrows(rs, rs', rs[u].log);
      } else {
        assert ReignShape(t, rs'[t]);
      }
    }
    forall v | v in s'.ns
      ensures LogOk(s'.ns, rs', v)
    {
      assert LogOk(s.ns, rs, v);
      RootedGrows(rs, rs', s.ns[v].log);
    }
  }

  lemma RootedExtends(rs: Reigns, log: Log, e: Entry)
    requires Rooted(rs, log)
    requires e.term in rs && Agree(log + [e], rs[e.term].log, |log|)
    ensures Rooted(rs, log + [e])
  {
    forall i | 1 <= i < |log + [e]|
      ensures RootedAt(rs, log + [e], i)
    {
      if i < |log| {
        assert RootedAt(rs, log, i);
      }
    }
  }

  lemma ElectNodes(s: State, c: Id, q: set<Id>)
    requires CanElect(s, c, q)
    requires VotesRecorded(s.ns, s.h.ballots) && LeadersOk(s.ns, s.h.reigns) && BallotsOk(s.ns, s.h.reigns, s.h.ballots)
    ensures VotesRecorded(Elect(s, c, q).ns, s.h.ballots)
    ensures LeadersOk(Elect(s, c, q).ns, Elect(s, c, q).h.reigns)
  {
    var s' := Elect(s, c, q);
    forall v | v in s'.ns
      ensures VoteRecorded(s'.ns, s.h.ballots, v)
    {
      assert VoteRecorded(s.ns, s.h.ballots, v);
    }
    forall u | u in s'.h.reigns
      ensures LeaderOk(s'.ns, s'.h.reigns, u)
    {
      if u in s.h.reigns {
        assert LeaderOk(s.ns, s.h.reigns, u);
      } else {
        var v :| v in q;
        assert VotedFor(s.h.ballots, s.ns[c].term, v, c, s.ns[c].log);
        assert BallotOk(s.ns, s.h.reigns, s.h.ballots, s.ns[c].term, v);
      }
    }
  }

  lemma ElectElections(s: State, c: Id, q: set<Id>)
    requires CanElect(s, c, q)
    requires ReignsOk(s.h.reigns) && BallotsOk(s.ns, s.h.reigns, s.h.ballots)
    requires ElectionsOk(s.h.reigns, s.h.ballots, s.members)
    requires Grows(s.h.reigns, Elect(s, c, q).h.reigns) && ReignsOk(Elect(s, c, q).h.reigns)
    ensures ElectionsOk(Elect(s, c, q).h.reigns, s.h.ballots, s.members)
  {
    var rs, rs', ballots := s.h.reigns, Elect(s, c, q).h.reigns, s.h.ballots;
    var t, log := s.ns[c].term, s.ns[c].log;
    forall u | u in rs' && 1 <= rs'[u].base <= |rs'[u].log|
      ensures ElectedBy(rs', ballots, s.members, u)
    {
      if u != t {
        assert ReignOk(rs, u);
        ElectionGrows(rs, rs', ballots, s.members, u);
      } else {
        forall v | v in q
          ensures Supports(rs', ballots, t, v)
        {
          assert VotedFor(ballots, t, v, c, log);
          assert BallotOk(s.ns, rs, ballots, t, v);
          RootedGrows(rs, rs', ballots[(t, v)].log);
        }
      }
    }
  }

  lemma ElectKept(s: State, c: Id, q: set<Id>)
    requires Inv(s) && CanElect(s, c, q)
    requires Grows(s.h.reigns, Elect(s, c, q).h.reigns)
    ensures BallotsKept(Elect(s, c, q).h.reigns, s.h.ballots, s.h.acks)
    ensures AllKept(Elect(s, c, q).ns, Elect(s, c, q).h.reigns, s.h.acks)
    ensures AcksHeld(Elect(s, c, q).ns, Elect(s, c, q).h.reigns, s.h.acks)
    ensures AcksValid(Elect(s, c, q).h)
  {
    assert Inside(s, true);
    var s' := Elect(s, c, q);
    BallotsKeptGrow(s.h.reigns, s'.h.reigns, s.h.ballots, s.h.acks, s.h.acks);
    AcksGrow(s, s', c);
  }

  /** The acknowledgements survive a step that only lengthens `c`'s log and the reigns. */
  lemma AcksGrow(s: State, s': State, c: Id)
    requires c in s.ns && AcksValid(s.h)
    requires AcksHeld(s.ns, s.h.reigns, s.h.acks) && AllKept(s.ns, s.h.reigns, s.h.acks)
    requires Grows(s.h.reigns, s'.h.reigns)
    requires s'.h.acks == s.h.acks && s'.h.counted == s.h.counted
    requires c in s'.ns && s'.ns == s.ns[c := s.ns[c].(log := s'.ns[c].log)]
    requires |s.ns[c].log| <= |s'.ns[c].log| && s'.ns[c].log[..|s.ns[c].log|] == s.ns[c].log
    ensures AllKept(s'.ns, s'.h.reigns, s.h.acks)
    ensures AcksHeld(s'.ns, s'.h.reigns, s.h.acks)
    ensures AcksValid(s'.h)
  {
    var rs, rs', acks := s.h.reigns, s'.h.reigns, s.h.acks;
    forall a | a in acks
      ensures AckHeld(s'.ns, rs', a) && AckValid(rs', a)
    {
      assert AckHeld(s.ns, rs, a) && AckValid(rs, a) && ReignGrows(rs, rs', a.term);
    }
    forall v | v in s'.ns
      ensures NodeKept(s'.ns, rs', acks, v)
    {
      assert NodeKept(s.ns, rs, acks, v);
      forall a | a in acks
        ensures AckValid(rs, a)
      {
        assert AckValid(rs, a);
      }
      AcksKeptGrow(rs, rs', acks, acks, v, s.ns[v].log, s'.ns[v].log, s.ns[v].term, s.ns[v].term);
    }
  }

  // ---------------------------------------------------------------- a leader appends

  function Append(s: State, l: Id, e: Entry): State
    requires l in s.ns && s.ns[l].term in s.h.reigns
  {
    var p := s.ns[l];
    var r := s.h.reigns[p.term];
    s.(ns := s.ns[l := p.(log := p.log + [e])],
       h := s.h.(reigns := s.h.reigns[p.term := r.(log := r.log + [e])]))
  }

  ghost predicate CanAppend(s: State, l: Id, e: Entry) {
    && l in s.ns
    && s.ns[l].term in s.h.reigns
    && s.h.reigns[s.ns[l].term].leader == l
    && e.term == s.ns[l].term
  }

  lemma AppendInv(s: State, l: Id, e: Entry)
    requires Inv(s) && CanAppend(s, l, e)
    ensures Inv(Append(s, l, e))
    ensures Grows(s.h.reigns, Append(s, l, e).h.reigns)
  {
    assert Inside(s, true);
    var s' := Append(s, l, e);
    var rs, rs' := s.h.reigns, s'.h.reigns;
    assert s'.ns.Keys == s.members;
    AppendGrows(s, l, e);
    AppendReigns(s, l, e);
    AppendNodes(s, l, e);
    forall u | u in rs' && 1 <= rs'[u].base <= |rs'[u].log|
      ensures ElectedBy(rs', s.h.ballots, s.members, u)
    {
      assert ReignOk(rs, u);
      ElectionGrows(rs, rs', s.h.ballots, s.members, u);
    }
    BallotsGrow(s.ns, s'.ns, rs, rs', s.h.ballots);
    BallotsKeptGrow(rs, rs', s.h.ballots, s.h.acks, s.h.acks);
    AcksGrow(s, s', l);
    CommitsGrow(rs, rs', s.h.counted, s.h.counted, s.members);
  }

  lemma AppendGrows(s: State, l: Id, e: Entry)
    requires CanAppend(s, l, e)
    ensures Grows(s.h.reigns, Append(s, l, e).h.reigns)
  {
  }

  lemma AppendReigns(s: State, l: Id, e: Entry)
    requires CanAppend(s, l, e) && Grows(s.h.reigns, Append(s, l, e).h.reigns)
    requires LogsOk(s.ns, s.h.reigns) && ReignsOk(s.h.reigns) && LeadersOk(s.ns, s.h.reigns)
    ensures ReignsOk(Append(s, l, e).h.reigns)
    ensures LogsOk(Append(s, l, e).ns, Append(s, l, e).h.reigns)
  {
    var s' := Append(s, l, e);
    var rs, rs' := s.h.reigns, s'.h.reigns;
    var t, log := s.ns[l].term, s.ns[l].log;
    assert LogOk(s.ns, rs, l) && LeaderOk(s.ns, rs, t) && ReignOk(rs, t);
    RootedGrows(rs, rs', log);
    RootedExtends(rs', log, e);
    assert ReignShape(t, rs'[t]);
    forall u | u in rs'
      ensures ReignOk(rs', u)
    {
      if u != t {
        assert ReignOk(rs, u);
        RootedGrows(rs, rs', rs[u].log);
      }
    }
    forall v | v in s'.ns
      ensures LogOk(s'.ns, rs', v)
    {
      if v != l {
        assert LogOk(s.ns, rs, v);
        RootedGrows(rs, rs', s.ns[v].log);
      }
    }
  }

  lemma AppendNodes(s: State, l: Id, e: Entry)
    requires CanAppend(s, l, e)
    requires VotesRecorded(s.ns, s.h.ballots) && LeadersOk(s.ns, s.h.reigns)
    ensures VotesRecorded(Append(s, l, e).ns, s.h.ballots)
    ensures LeadersOk(Append(s, l, e).ns, Append(s, l, e).h.reigns)
  {
    var s' := Append(s, l, e);
    forall v | v in s'.ns
      ensures VoteRecorded(s'.ns, s.h.ballots, v)
    {
      assert VoteRecorded(s.ns, s.h.ballots, v);
    }
    forall u | u in s'.h.reigns
      ensures LeaderOk(s'.ns, s'.h.reigns, u)
    {
      assert LeaderOk(s.ns, s.h.reigns, u);
    }
  }

  // ---------------------------------------------------------------- a follower's log

  function WithLog(s: State, v: Id, log: Log): State
    requires v in s.ns
  {
    s.(ns := s.ns[v := s.ns[v].(log := log)])
  }

  /** A follower in a leader's term may replace its log by one that is either the same or a
      prefix of the leader's, so long as no acknowledgement it is bound by is lost. */
  ghost predicate CanFollow(s: State, v: Id, log: Log) {
    && v in s.ns
    && s.ns[v].term in s.h.reigns
    && s.h.reigns[s.ns[v].term].leader != v
    && (log == s.ns[v].log || (0 < |log| <= |s.h.reigns[s.ns[v].term].log| && log == s.h.reigns[s.ns[v].term].log[..|log|]))
    && (forall a {:trigger StillHeld(s.h.reigns, a, log)} ::
          a in s.h.acks && a.voter == v && a.term == s.ns[v].term ==> StillHeld(s.h.reigns, a, log))
    && AcksKept(s.h.reigns, s.h.acks, v, log, s.ns[v].term)
  }

  ghost predicate StillHeld(rs: Reigns, a: Ack, log: Log) {
    a.term in rs && Agree(log, rs[a.term].log, a.upTo)
  }

  lemma FollowInv(s: State, v: Id, log: Log)
    requires Inv(s) && CanFollow(s, v, log)
    ensures Inv(WithLog(s, v, log))
  {
    assert Inside(s, true);
    var s' := WithLog(s, v, log);
    assert s'.ns.Keys == s.members;
    FollowLog(s, v, log);
    FollowNodes(s, v, log);
    FollowLeaders(s, v, log);
    GrowsRefl(s.h.reigns);
    BallotsGrow(s.ns, s'.ns, s.h.reigns, s.h.reigns, s.h.ballots);
  }

  lemma FollowNodes(s: State, v: Id, log: Log)
    requires LogsOk(s.ns, s.h.reigns) && VotesRecorded(s.ns, s.h.ballots) && AllKept(s.ns, s.h.reigns, s.h.acks)
    requires CanFollow(s, v, log) && LogOk(WithLog(s, v, log).ns, s.h.reigns, v)
    ensures LogsOk(WithLog(s, v, log).ns, s.h.reigns)
    ensures VotesRecorded(WithLog(s, v, log).ns, s.h.ballots)
    ensures AllKept(WithLog(s, v, log).ns, s.h.reigns, s.h.acks)
  {
    var ns, ns', rs, acks := s.ns, WithLog(s, v, log).ns, s.h.reigns, s.h.acks;
    forall w | w in ns'
      ensures LogOk(ns', rs, w) && VoteRecorded(ns', s.h.ballots, w) && NodeKept(ns', rs, acks, w)
    {
      assert LogOk(ns, rs, w) && VoteRecorded(ns, s.h.ballots, w) && NodeKept(ns, rs, acks, w);
    }
  }

  lemma FollowLeaders(s: State, v: Id, log: Log)
    requires LeadersOk(s.ns, s.h.reigns) && AcksHeld(s.ns, s.h.reigns, s.h.acks)
    requires CanFollow(s, v, log)
    ensures LeadersOk(WithLog(s, v, log).ns, s.h.reigns)
    ensures AcksHeld(WithLog(s, v, log).ns, s.h.reigns, s.h.acks)
  {
    var ns, ns', rs, acks := s.ns, WithLog(s, v, log).ns, s.h.reigns, s.h.acks;
    forall u | u in rs
      ensures LeaderOk(ns', rs, u)
    {
      assert LeaderOk(ns, rs, u);
    }
    forall a | a in acks
      ensures AckHeld(ns', rs, a)
    {
      assert AckHeld(ns, rs, a);
      assert a.voter == v && a.term == ns[v].term ==> StillHeld(rs, a, log);
    }
  }

  lemma FollowLog(s: State, v: Id, log: Log)
    requires LogsOk(s.ns, s.h.reigns) && ReignsOk(s.h.reigns) && CanFollow(s, v, log)
    ensures LogOk(WithLog(s, v, log).ns, s.h.reigns, v)
  {
    var rs, t := s.h.reigns, s.ns[v].term;
    assert LogOk(s.ns, rs, v) && ReignOk(rs, t);
    if log != s.ns[v].log {
      RootedPrefix(rs, rs[t].log, |log|);
    }
  }

  /** Accepting entries: `es` is the slice of the leader's log after `prev`, and the follower
      agrees with the leader on the term at `prev`. */
  ghost predicate CanAccept(s: State, v: Id, prev: nat, es: seq<Entry>) {
    && v in s.ns
    && s.ns[v].term in s.h.reigns
    && s.h.reigns[s.ns[v].term].leader != v
    && prev + |es| < |s.h.reigns[s.ns[v].term].log|
    && es == s.h.reigns[s.ns[v].term].log[prev + 1..prev + 1 + |es|]
    && prev < |s.ns[v].log|
    && s.ns[v].log[prev].term == s.h.reigns[s.ns[v].term].log[prev].term
  }

  function Accept(s: State, v: Id, prev: nat, es: seq<Entry>): State
    requires v in s.ns && prev < |s.ns[v].log|
  {
    WithLog(s, v, Merge(s.ns[v].log, prev + 1, es))
  }

  /** Accepting keeps the invariant, leaves the follower in agreement with its leader through
      the last entry offered, and loses nothing it had in common with the leader. */
  lemma AcceptInv(s: State, v: Id, prev: nat, es: seq<Entry>)
    requires Inv(s) && CanAccept(s, v, prev, es)
    ensures Inv(Accept(s, v, prev, es))
    ensures Agree(Accept(s, v, prev, es).ns[v].log, s.h.reigns[s.ns[v].term].log, prev + |es|)
    ensures Accept(s, v, prev, es).ns[v].log == s.ns[v].log
         || Accept(s, v, prev, es).ns[v].log == s.h.reigns[s.ns[v].term].log[..prev + 1 + |es|]
    ensures forall i :: Agree(s.ns[v].log, s.h.reigns[s.ns[v].term].log, i)
                        ==> Agree(Accept(s, v, prev, es).ns[v].log, s.h.reigns[s.ns[v].term].log, i)
  {
    assert Inside(s, true);
    var rs, t, log := s.h.reigns, s.ns[v].term, s.ns[v].log;
    var log' := Merge(log, prev + 1, es);
    assert LogOk(s.ns, rs, v) && ReignOk(rs, t);
    RootedLogsMatch(rs, log, rs[t].log);
    assert Agree(log, rs[t].log, prev);
    MergeFollows(log, prev + 1, es, rs[t].log);
    AcceptKept(s, v, prev, es, log');
    FollowInv(s, v, log');
  }

  lemma AcceptKept(s: State, v: Id, prev: nat, es: seq<Entry>, log': Log)
    requires Inv(s) && CanAccept(s, v, prev, es)
    requires forall i :: Agree(s.ns[v].log, s.h.reigns[s.ns[v].term].log, i) ==> Agree(log', s.h.reigns[s.ns[v].term].log, i)
    ensures AcksKept(s.h.reigns, s.h.acks, v, log', s.ns[v].term)
    ensures forall a {:trigger StillHeld(s.h.reigns, a, log')} ::
              a in s.h.acks && a.voter == v && a.term == s.ns[v].term ==> StillHeld(s.h.reigns, a, log')
  {
    assert Inside(s, true);
    var rs, acks, t, log := s.h.reigns, s.h.acks, s.ns[v].term, s.ns[v].log;
    forall a | a in acks && a.voter == v && a.term == t
      ensures StillHeld(rs, a, log')
    {
      assert AckHeld(s.ns, rs, a);
    }
    assert NodeKept(s.ns, rs, acks, v);
    forall a, i | a in acks && a.voter == v && a.term <= t && Claims(rs, a, i)
      ensures Kept(rs, log', t, a.term, i)
    {
      assert Kept(rs, log, t, a.term, i);
      KeptOrBlocked(rs, log, log', t, a.term, i);
    }
  }

  /** If the leader of `t` has the entry then a log that keeps whatever it shares with that
      leader keeps the entry; otherwise the leader of `t` blocks it. */
  lemma KeptOrBlocked(rs: Reigns, log: Log, log': Log, t: nat, u: nat, i: nat)
    requires t in rs && u in rs && u <= t
    requires Kept(rs, log, t, u, i)
    requires Agree(log, rs[t].log, i) ==> Agree(log', rs[t].log, i)
    ensures Kept(rs, log', t, u, i)
  {
    if Agree(log, rs[u].log, i) && u < t {
      if !Agree(rs[t].log, rs[u].log, i) {
        assert Lacks(rs, t, u, i);
      }
    }
  }

  // ---------------------------------------------------------------- acknowledging, counting, committing

  function Acknowledge(s: State, v: Id, m: nat): State
    requires v in s.ns
  {
    s.(h := s.h.(acks := s.h.acks + {Ack(s.ns[v].term, v, m)}))
  }

  lemma AcknowledgeInv(s: State, v: Id, m: nat)
    requires Inv(s) && v in s.ns && s.ns[v].term in s.h.reigns
    requires Agree(s.ns[v].log, s.h.reigns[s.ns[v].term].log, m)
    ensures Inv(Acknowledge(s, v, m))
  {
    assert Inside(s, true);
    var s' := Acknowledge(s, v, m);
    var ns, rs, acks, acks' := s.ns, s.h.reigns, s.h.acks, s'.h.acks;
    forall a | a in acks'
      ensures AckHeld(ns, rs, a) && AckValid(rs, a)
    {
      if a in acks {
        assert AckHeld(ns, rs, a) && AckValid(rs, a);
      }
    }
    AcknowledgeKept(s, v, m);
    AcknowledgeBallots(s, v, m);
  }

  lemma AcknowledgeKept(s: State, v: Id, m: nat)
    requires v in s.ns && s.ns[v].term in s.h.reigns && AllKept(s.ns, s.h.reigns, s.h.acks)
    requires Agree(s.ns[v].log, s.h.reigns[s.ns[v].term].log, m)
    ensures AllKept(s.ns, s.h.reigns, Acknowledge(s, v, m).h.acks)
  {
    var ns, rs, acks, acks' := s.ns, s.h.reigns, s.h.acks, Acknowledge(s, v, m).h.acks;
    forall w | w in ns
      ensures NodeKept(ns, rs, acks', w)
    {
      assert NodeKept(ns, rs, acks, w);
      forall a, i | a in acks' && a.voter == w && a.term <= ns[w].term && Claims(rs, a, i)
        ensures Kept(rs, ns[w].log, ns[w].term, a.term, i)
      {
        if a in acks {
          assert Kept(rs, ns[w].log, ns[w].term, a.term, i);
        }
      }
    }
  }

  lemma AcknowledgeBallots(s: State, v: Id, m: nat)
    requires v in s.ns && BallotsOk(s.ns, s.h.reigns, s.h.ballots) && AcksValid(s.h)
    requires BallotsKept(s.h.reigns, s.h.ballots, s.h.acks)
    ensures BallotsKept(s.h.reigns, s.h.ballots, Acknowledge(s, v, m).h.acks)
  {
    var rs, ballots, acks, acks' := s.h.reigns, s.h.ballots, s.h.acks, Acknowledge(s, v, m).h.acks;
    forall t: nat, w, a | (t, w) in ballots && a in acks' && a.voter == w && a.term <= t - 1
      ensures a in acks
    {
      assert BallotOk(s.ns, rs, ballots, t, w);
    }
    GrowsRefl(rs);
    BallotsKeptGrow(rs, rs, ballots, acks, acks');
  }

  function Count(s: State, a: Ack): State {
    s.(h := s.h.(counted := s.h.counted + {a}))
  }

  lemma CountInv(s: State, a: Ack)
    requires Inv(s) && a in s.h.acks
    ensures Inv(Count(s, a))
  {
    assert Inside(s, true);
    GrowsRefl(s.h.reigns);
    CommitsGrow(s.h.reigns, s.h.reigns, s.h.counted, Count(s, a).h.counted, s.members);
  }

  function Commit(s: State, t: nat, i: nat): State
    requires t in s.h.reigns
  {
    s.(h := s.h.(reigns := s.h.reigns[t := s.h.reigns[t].(commit := i)]))
  }

  lemma CommitInv(s: State, t: nat, i: nat)
    requires Inv(s) && Chosen(s.h.reigns, s.h.counted, s.members, t, i) && i >= s.h.reigns[t].commit
    ensures Inv(Commit(s, t, i))
    ensures Grows(s.h.reigns, Commit(s, t, i).h.reigns)
  {
    assert Inside(s, true);
    var s' := Commit(s, t, i);
    var rs, rs' := s.h.reigns, s'.h.reigns;
    assert Grows(rs, rs');
    CommitReigns(s, t, i);
    BallotsGrow(s.ns, s.ns, rs, rs', s.h.ballots);
    BallotsKeptGrow(rs, rs', s.h.ballots, s.h.acks, s.h.acks);
    CommitAcks(s, t, i);
    forall u | u in rs'
      ensures CommitOk(rs', s.h.counted, s.members, u)
    {
      assert CommitOk(rs, s.h.counted, s.members, u);
      if rs'[u].commit > 0 {
        ChosenGrows(rs, rs', s.h.counted, s.h.counted, s.members, u, rs'[u].commit);
      }
    }
  }

  lemma CommitReigns(s: State, t: nat, i: nat)
    requires Inv(s) && t in s.h.reigns && i < |s.h.reigns[t].log| && i >= s.h.reigns[t].commit
    requires Grows(s.h.reigns, Commit(s, t, i).h.reigns)
    ensures ReignsOk(Commit(s, t, i).h.reigns)
    ensures LogsOk(s.ns, Commit(s, t, i).h.reigns)
    ensures LeadersOk(s.ns, Commit(s, t, i).h.reigns)
    ensures ElectionsOk(Commit(s, t, i).h.reigns, s.h.ballots, s.members)
  {
    assert Inside(s, true);
    var s' := Commit(s, t, i);
    var rs, rs' := s.h.reigns, s'.h.reigns;
    forall u | u in rs'
      ensures ReignOk(rs', u) && LeaderOk(s.ns, rs', u)
      ensures 1 <= rs'[u].base <= |rs'[u].log| ==> ElectedBy(rs', s.h.ballots, s.members, u)
    {
      assert ReignOk(rs, u) && LeaderOk(s.ns, rs, u);
      RootedGrows(rs, rs', rs[u].log);
      ElectionGrows(rs, rs', s.h.ballots, s.members, u);
    }
    forall v | v in s.ns
      ensures LogOk(s.ns, rs', v)
    {
      assert LogOk(s.ns, rs, v);
      RootedGrows(rs, rs', s.ns[v].log);
    }
  }

  lemma CommitAcks(s: State, t: nat, i: nat)
    requires Inv(s) && t in s.h.reigns && Grows(s.h.reigns, Commit(s, t, i).h.reigns)
    ensures AllKept(s.ns, Commit(s, t, i).h.reigns, s.h.acks)
    ensures AcksHeld(s.ns, Commit(s, t, i).h.reigns, s.h.acks)
    ensures AcksValid(Commit(s, t, i).h)
  {
    assert Inside(s, true);
    var s' := Commit(s, t, i);
    var v := s.h.reigns[t].leader;
    assert LeaderOk(s.ns, s.h.reigns, t);
    assert s'.ns == s.ns[v := s.ns[v].(log := s'.ns[v].log)];
    AcksGrow(s, s', v);
  }

  // ---------------------------------------------------------------- installing a snapshot

  /** The acknowledgements `v` gave the leader of `t` beyond `last`. */
  ghost function Beyond(acks: set<Ack>, t: nat, v: Id, last: nat): set<Ack> {
    set a | a in acks && a.term == t && a.voter == v && a.upTo > last
  }

  /** The receiver's whole log becomes the leader's prefix through `last`; acknowledgements
      beyond it stop binding the receiver. */
  ghost function Install(s: State, v: Id, last: nat): State
    requires v in s.ns && s.ns[v].term in s.h.reigns && last < |s.h.reigns[s.ns[v].term].log|
  {
    var t := s.ns[v].term;
    WithLog(s.(h := s.h.(acks := s.h.acks - Beyond(s.h.acks, t, v, last))), v, s.h.reigns[t].log[..last + 1])
  }

  /** Every entry of an earlier term that `v` acknowledged beyond `last` is missing from some
      leader elected since, up to term `t`. */
  ghost predicate OldAcksBlocked(rs: Reigns, acks: set<Ack>, v: Id, t: nat, last: nat) {
    forall a, i {:trigger OldBlocked(rs, a, t, i)} ::
      a in acks && a.voter == v && a.term < t && i > last && Claims(rs, a, i) ==> OldBlocked(rs, a, t, i)
  }

  ghost predicate OldBlocked(rs: Reigns, a: Ack, t: nat, i: nat) {
    a.term in rs && Blocked(rs, a.term, i, t)
  }

  ghost predicate CanInstall(s: State, v: Id, last: nat) {
    && v in s.ns
    && s.ns[v].term in s.h.reigns
    && s.h.reigns[s.ns[v].term].leader != v
    && last < |s.h.reigns[s.ns[v].term].log|
    && Beyond(s.h.counted, s.ns[v].term, v, last) == {}
    && OldAcksBlocked(s.h.reigns, s.h.acks, v, s.ns[v].term, last)
  }

  lemma InstallInv(s: State, v: Id, last: nat)
    requires Inv(s) && CanInstall(s, v, last)
    ensures Inv(Install(s, v, last))
  {
    assert Inside(s, true);
    var t := s.ns[v].term;
    var log' := s.h.reigns[t].log[..last + 1];
    var s1 := s.(h := s.h.(acks := s.h.acks - Beyond(s.h.acks, t, v, last)));
    forall a | a in s.h.counted
      ensures a in s1.h.acks
    {
      assert a in Beyond(s.h.acks, t, v, last) ==> a in Beyond(s.h.counted, t, v, last);
    }
    DropAcksInv(s, s1);
    InstallKept(s, v, last, s1, log');
    FollowInv(s1, v, log');
  }

  lemma DropAcksInv(s: State, s1: State)
    requires Inv(s)
    requires s1 == s.(h := s.h.(acks := s1.h.acks)) && s.h.counted <= s1.h.acks <= s.h.acks
    ensures Inv(s1)
  {
    assert Inside(s, true);
    var rs := s.h.reigns;
    forall a | a in s1.h.acks
      ensures AckHeld(s.ns, rs, a) && AckValid(rs, a)
    {
      assert AckHeld(s.ns, rs, a) && AckValid(rs, a);
    }
    forall v | v in s.ns
      ensures NodeKept(s.ns, rs, s1.h.acks, v)
    {
      assert NodeKept(s.ns, rs, s.h.acks, v);
    }
    GrowsRefl(rs);
    BallotsKeptGrow(rs, rs, s.h.ballots, s.h.acks, s1.h.acks);
  }

  lemma InstallKept(s: State, v: Id, last: nat, s1: State, log': Log)
    requires Inv(s) && CanInstall(s, v, last)
    requires s1 == s.(h := s.h.(acks := s.h.acks - Beyond(s.h.acks, s.ns[v].term, v, last)))
    requires log' == s.h.reigns[s.ns[v].term].log[..last + 1]
    ensures CanFollow(s1, v, log')
  {
    assert Inside(s, true);
    var rs, t, acks' := s.h.reigns, s.ns[v].term, s1.h.acks;
    forall a | a in acks' && a.voter == v && a.term == t
      ensures StillHeld(rs, a, log')
    {
      assert AckHeld(s.ns, rs, a);
    }
    assert NodeKept(s.ns, rs, s.h.acks, v);
    forall a, i | a in acks' && a.voter == v && a.term <= t && Claims(rs, a, i)
      ensures Kept(rs, log', t, a.term, i)
    {
      if a.term < t && i > last {
        assert OldBlocked(rs, a, t, i);
      } else if a.term < t {
        if !Agree(log', rs[a.term].log, i) {
          assert Lacks(rs, t, a.term, i);
        }
      }
    }
  }
}
