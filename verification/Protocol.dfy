/** Raft as a handful of indivisible effects on terms, votes, logs and the history of the run.
    Every effect keeps `Inv`; every handler of the implementation is a short sequence of them. */
module Protocol {
  import opened RaftTypes
  import opened Quorums
  import opened Logs
  import opened History

  /** The durable part of a node. */
  datatype Peer = Peer(term: nat, vote: Id, log: Log)

  type View = map<Id, Peer>

  datatype State = State(members: set<Id>, ns: View, h: History)

  // ---------------------------------------------------------------- the invariant

  ghost predicate LogOk(ns: View, rs: Reigns, v: Id)
    requires v in ns
  {
    WellFormed(ns[v].log) && LastTerm(ns[v].log) <= ns[v].term && Rooted(rs, ns[v].log)
  }

  ghost predicate LogsOk(ns: View, rs: Reigns) {
    forall v {:trigger LogOk(ns, rs, v)} :: v in ns ==> LogOk(ns, rs, v)
  }

  /** A ballot is bound to the voter's current term and vote, so no vote changes within a term. */
  ghost predicate BallotOk(ns: View, rs: Reigns, ballots: Ballots, t: nat, v: Id)
    requires (t, v) in ballots
  {
    && v in ns
    && 1 <= t <= ns[v].term
    && ballots[(t, v)].candidate != ""
    && (t == ns[v].term ==> ns[v].vote == ballots[(t, v)].candidate)
    && WellFormed(ballots[(t, v)].log)
    && Rooted(rs, ballots[(t, v)].log)
  }

  ghost predicate BallotsOk(ns: View, rs: Reigns, ballots: Ballots) {
    forall t: nat, v {:trigger BallotOk(ns, rs, ballots, t, v)} :: (t, v) in ballots ==> BallotOk(ns, rs, ballots, t, v)
  }

  ghost predicate VoteRecorded(ns: View, ballots: Ballots, v: Id)
    requires v in ns
  {
    ns[v].vote != "" ==> (ns[v].term, v) in ballots
  }

  ghost predicate VotesRecorded(ns: View, ballots: Ballots) {
    forall v {:trigger VoteRecorded(ns, ballots, v)} :: v in ns ==> VoteRecorded(ns, ballots, v)
  }

  /** While a leader stays in its term its log is the log of its reign. */
  ghost predicate LeaderOk(ns: View, rs: Reigns, t: nat)
    requires t in rs
  {
    && t >= 1
    && rs[t].leader in ns
    && t <= ns[rs[t].leader].term
    && (t == ns[rs[t].leader].term ==> ns[rs[t].leader].log == rs[t].log)
  }

  ghost predicate LeadersOk(ns: View, rs: Reigns) {
    forall t {:trigger LeaderOk(ns, rs, t)} :: t in rs ==> LeaderOk(ns, rs, t)
  }

  /** Until the voter leaves the term, an acknowledgement is a fact about its log. */
  ghost predicate AckHeld(ns: View, rs: Reigns, a: Ack) {
    && a.term in rs
    && a.voter in ns
    && a.term <= ns[a.voter].term
    && (a.term == ns[a.voter].term ==> Agree(ns[a.voter].log, rs[a.term].log, a.upTo))
  }

  ghost predicate AcksHeld(ns: View, rs: Reigns, acks: set<Ack>) {
    forall a {:trigger AckHeld(ns, rs, a)} :: a in acks ==> AckHeld(ns, rs, a)
  }

  ghost predicate NodeKept(ns: View, rs: Reigns, acks: set<Ack>, v: Id)
    requires v in ns
  {
    AcksKept(rs, acks, v, ns[v].log, ns[v].term)
  }

  ghost predicate AllKept(ns: View, rs: Reigns, acks: set<Ack>) {
    forall v {:trigger NodeKept(ns, rs, acks, v)} :: v in ns ==> NodeKept(ns, rs, acks, v)
  }

  ghost predicate CommitOk(rs: Reigns, counted: set<Ack>, members: set<Id>, t: nat)
    requires t in rs
  {
    rs[t].commit > 0 ==> Chosen(rs, counted, members, t, rs[t].commit)
  }

  ghost predicate CommitsOk(rs: Reigns, counted: set<Ack>, members: set<Id>) {
    forall t {:trigger CommitOk(rs, counted, members, t)} :: t in rs ==> CommitOk(rs, counted, members, t)
  }

  ghost predicate Pieces(s: State) {
    && s.ns.Keys == s.members
    && LogsOk(s.ns, s.h.reigns)
    && BallotsOk(s.ns, s.h.reigns, s.h.ballots)
    && VotesRecorded(s.ns, s.h.ballots)
    && LeadersOk(s.ns, s.h.reigns)
    && AcksHeld(s.ns, s.h.reigns, s.h.acks)
    && AllKept(s.ns, s.h.reigns, s.h.acks)
    && CommitsOk(s.h.reigns, s.h.counted, s.members)
    && Sound(s.h, s.members)
  }

  /** The invariant of the protocol: all the pieces. Proofs look inside it only where they say
      so, by mentioning `Inside`; elsewhere it stays a single fact. */
  ghost predicate Inv(s: State) {
    forall k {:trigger Inside(s, k)} :: Inside(s, k) ==> Pieces(s)
  }

  ghost predicate Inside(s: State, k: bool) { true }

  // ---------------------------------------------------------------- growing histories

  ghost predicate ReignGrows(rs: Reigns, rs': Reigns, t: nat)
    requires t in rs
  {
    && t in rs'
    && rs'[t].leader == rs[t].leader && rs'[t].quorum == rs[t].quorum && rs'[t].base == rs[t].base
    && rs[t].commit <= rs'[t].commit
    && |rs[t].log| <= |rs'[t].log|
    && (forall i :: 0 <= i < |rs[t].log| ==> rs'[t].log[i] == rs[t].log[i])
    && (forall i :: |rs[t].log| <= i < |rs'[t].log| ==> rs'[t].log[i].term == t)
  }

  ghost predicate Grows(rs: Reigns, rs': Reigns) {
    forall t {:trigger ReignGrows(rs, rs', t)} :: t in rs ==> ReignGrows(rs, rs', t)
  }

  lemma RootedGrows(rs: Reigns, rs': Reigns, log: Log)
    requires Grows(rs, rs') && Rooted(rs, log)
    ensures Rooted(rs', log)
  {
    forall i | 1 <= i < |log|
      ensures RootedAt(rs', log, i)
    {
      assert RootedAt(rs, log, i);
      assert ReignGrows(rs, rs', log[i].term);
    }
  }

  lemma KeptGrows(rs: Reigns, rs': Reigns, log: Log, log': Log, bound: int, bound': int, t: nat, i: nat)
    requires Grows(rs, rs') && bound <= bound'
    requires t in rs && i < |rs[t].log| && rs[t].log[i].term == t
    requires Kept(rs, log, bound, t, i)
    requires Agree(log, rs[t].log, i) ==> Agree(log', rs[t].log, i) || Blocked(rs, t, i, bound')
    ensures t in rs' && Kept(rs', log', bound', t, i)
  {
    assert ReignGrows(rs, rs', t);
    if Agree(log', rs[t].log, i) {
      assert Agree(log', rs'[t].log, i);
    } else {
      var s: nat :| t < s <= bound' && Lacks(rs, s, t, i);
      assert Lacks(rs, s, t, i);
      assert ReignGrows(rs, rs', s);
      assert Lacks(rs', s, t, i);
    }
  }

  /** Acknowledgements stay kept when the history grows, the bound rises and the log keeps
      what it had; `acks'` may only gain acknowledgements of other voters or later terms. */
  lemma AcksKeptGrow(rs: Reigns, rs': Reigns, acks: set<Ack>, acks': set<Ack>, v: Id,
                     log: Log, log': Log, bound: int, bound': int)
    requires Grows(rs, rs') && bound <= bound'
    requires AcksKept(rs, acks, v, log, bound)
    requires forall a :: a in acks' && a.voter == v && a.term <= bound' ==>
               a in acks && a.term <= bound && AckValid(rs, a)
    requires |log| <= |log'| && log'[..|log|] == log
    ensures AcksKept(rs', acks', v, log', bound')
  {
    forall a, i | a in acks' && a.voter == v && a.term <= bound' && Claims(rs', a, i)
      ensures Kept(rs', log', bound', a.term, i)
    {
      assert AckValid(rs, a) && ReignGrows(rs, rs', a.term);
      assert Claims(rs, a, i);
      assert Kept(rs, log, bound, a.term, i);
      assert Agree(log, rs[a.term].log, i) ==> Agree(log', rs[a.term].log, i);
      KeptGrows(rs, rs', log, log', bound, bound', a.term, i);
    }
  }

  /** A ballot's log never changes. */
  lemma BallotsKeptGrow(rs: Reigns, rs': Reigns, ballots: Ballots, acks: set<Ack>, acks': set<Ack>)
    requires Grows(rs, rs')
    requires BallotsKept(rs, ballots, acks)
    requires forall t: nat, v {:trigger Standing(rs', ballots, t, v)} ::
               Standing(rs', ballots, t, v) ==> Standing(rs, ballots, t, v)
    requires forall a {:trigger AckValid(rs, a)} :: a in acks ==> AckValid(rs, a)
    requires forall t: nat, v, a :: (t, v) in ballots && a in acks' && a.voter == v && a.term <= t - 1 ==> a in acks
    ensures BallotsKept(rs', ballots, acks')
  {
    forall t: nat, v | Standing(rs', ballots, t, v)
      ensures AcksKept(rs', acks', v, ballots[(t, v)].log, t - 1)
    {
      assert Standing(rs, ballots, t, v);
      var log := ballots[(t, v)].log;
      AcksKeptGrow(rs, rs', acks, acks', v, log, log, t - 1, t - 1);
    }
  }

  lemma ElectionGrows(rs: Reigns, rs': Reigns, ballots: Ballots, members: set<Id>, t: nat)
    requires Grows(rs, rs') && ElectionsOk(rs, ballots, members)
    requires t in rs && 1 <= rs[t].base <= |rs[t].log|
    ensures t in rs' && 1 <= rs'[t].base <= |rs'[t].log| && ElectedBy(rs', ballots, members, t)
  {
    assert ReignGrows(rs, rs', t) && ElectedBy(rs, ballots, members, t);
    forall v | v in rs'[t].quorum
      ensures Supports(rs', ballots, t, v)
    {
      assert Supports(rs, ballots, t, v);
      RootedGrows(rs, rs', ballots[(t, v)].log);
    }
  }

  lemma ChosenGrows(rs: Reigns, rs': Reigns, counted: set<Ack>, counted': set<Ack>, members: set<Id>, t: nat, i: nat)
    requires Grows(rs, rs') && counted <= counted'
    requires Chosen(rs, counted, members, t, i)
    ensures Chosen(rs', counted', members, t, i)
  {
    assert ReignGrows(rs, rs', t);
    var q :| IsQuorum(members, q) && AllAcked(counted, t, q, i);
    forall v | v in q
      ensures AckedThrough(counted', t, v, i)
    {
      assert AckedThrough(counted, t, v, i);
    }
    assert AllAcked(counted', t, q, i);
  }

  lemma CommitsGrow(rs: Reigns, rs': Reigns, counted: set<Ack>, counted': set<Ack>, members: set<Id>)
    requires Grows(rs, rs') && counted <= counted' && CommitsOk(rs, counted, members)
    requires forall t :: t in rs' ==> if t in rs then rs'[t].commit == rs[t].commit else rs'[t].commit == 0
    ensures CommitsOk(rs', counted', members)
  {
    forall t | t in rs'
      ensures CommitOk(rs', counted', members, t)
    {
      if rs'[t].commit > 0 {
        assert CommitOk(rs, counted, members, t);
        ChosenGrows(rs, rs', counted, counted', members, t, rs[t].commit);
      }
    }
  }

  lemma BallotsGrow(ns: View, ns': View, rs: Reigns, rs': Reigns, ballots: Ballots)
    requires Grows(rs, rs') && BallotsOk(ns, rs, ballots)
    requires forall v :: v in ns ==> v in ns' && ns'[v].term == ns[v].term && ns'[v].vote == ns[v].vote
    ensures BallotsOk(ns', rs', ballots)
  {
    forall t: nat, v | (t, v) in ballots
      ensures BallotOk(ns', rs', ballots, t, v)
    {
      assert BallotOk(ns, rs, ballots, t, v);
      RootedGrows(rs, rs', ballots[(t, v)].log);
    }
  }
}
