/** What a run leaves behind: one reign per elected term, one ballot per vote, and the
    acknowledgements of replicated prefixes. Leader completeness is a theorem about such a
    record alone; it needs no induction over time. */
module History {
  import opened RaftTypes
  import opened Quorums
  import opened Logs

  /** The leader elected in a term: who elected it, the length `base` of the log it was elected
      with, its log (which only grows while it leads) and the highest index it has committed. */
  datatype Reign = Reign(leader: Id, quorum: set<Id>, base: nat, log: Log, commit: nat)

  type Reigns = map<nat, Reign>

  /** A vote, with the voter's log at the moment it voted. */
  datatype Ballot = Ballot(candidate: Id, log: Log)

  /** One ballot per term and voter. */
  type Ballots = map<(nat, Id), Ballot>

  /** `voter` told the leader of `term` that its log agrees with the leader's through `upTo`. */
  datatype Ack = Ack(term: nat, voter: Id, upTo: nat)

  /** `acks` holds the acknowledgements still binding on the voter, `counted` those the leader
      has put in its match index. */
  datatype History = History(reigns: Reigns, ballots: Ballots,
                             acks: set<Ack>, counted: set<Ack>)

  // ---------------------------------------------------------------- log matching

  /** The log agrees through `i` with the leader that created its entry at `i`. */
  ghost predicate RootedAt(rs: Reigns, log: Log, i: nat)
    requires i < |log|
  {
    log[i].term in rs && Agree(log, rs[log[i].term].log, i)
  }

  ghost predicate Rooted(rs: Reigns, log: Log) {
    forall i {:trigger RootedAt(rs, log, i)} :: 1 <= i < |log| ==> RootedAt(rs, log, i)
  }

  lemma RootedLogsMatch(rs: Reigns, a: Log, b: Log)
    requires WellFormed(a) && WellFormed(b) && Rooted(rs, a) && Rooted(rs, b)
    ensures Matching(a, b)
  {
    forall k | 0 <= k < |a| && k < |b| && a[k].term == b[k].term
      ensures Agree(a, b, k)
    {
      if k > 0 {
        assert RootedAt(rs, a, k) && RootedAt(rs, b, k);
      }
    }
  }

  lemma RootedPrefix(rs: Reigns, log: Log, n: nat)
    requires Rooted(rs, log) && n <= |log|
    ensures Rooted(rs, log[..n])
  {
    forall i | 1 <= i < n
      ensures RootedAt(rs, log[..n], i)
    {
      assert RootedAt(rs, log, i);
    }
  }

  // ---------------------------------------------------------------- reigns

  ghost predicate ReignShape(t: nat, r: Reign) {
    && WellFormed(r.log)
    && 1 <= r.base < |r.log|
    && r.commit < |r.log|
    && (forall i :: 0 <= i < r.base ==> r.log[i].term < t)
    && (forall i :: r.base <= i < |r.log| ==> r.log[i].term == t)
  }

  ghost predicate ReignOk(rs: Reigns, t: nat)
    requires t in rs
  {
    ReignShape(t, rs[t]) && Rooted(rs, rs[t].log)
  }

  ghost predicate ReignsOk(rs: Reigns) {
    forall t {:trigger ReignOk(rs, t)} :: t in rs ==> ReignOk(rs, t)
  }

  /** `v` voted for the leader of `t`, with a log no more up to date than the leader's was. */
  ghost predicate Supports(rs: Reigns, ballots: Ballots, t: nat, v: Id)
    requires t in rs && 1 <= rs[t].base <= |rs[t].log|
  {
    && (t, v) in ballots
    && ballots[(t, v)].candidate == rs[t].leader
    && WellFormed(ballots[(t, v)].log)
    && Rooted(rs, ballots[(t, v)].log)
    && AtLeastAsUpToDate(rs[t].base - 1, rs[t].log[rs[t].base - 1].term, ballots[(t, v)].log)
  }

  ghost predicate ElectedBy(rs: Reigns, ballots: Ballots, members: set<Id>, t: nat)
    requires t in rs && 1 <= rs[t].base <= |rs[t].log|
  {
    && IsQuorum(members, rs[t].quorum)
    && forall v {:trigger Supports(rs, ballots, t, v)} :: v in rs[t].quorum ==> Supports(rs, ballots, t, v)
  }

  ghost predicate ElectionsOk(rs: Reigns, ballots: Ballots, members: set<Id>) {
    forall t {:trigger ElectedBy(rs, ballots, members, t)} ::
      t in rs && 1 <= rs[t].base <= |rs[t].log| ==> ElectedBy(rs, ballots, members, t)
  }

  // ---------------------------------------------------------------- acknowledgements

  /** Some leader elected after `t`, up to term `bound`, lacks the entry of term `t` at `i`. */
  ghost predicate Blocked(rs: Reigns, t: nat, i: nat, bound: int)
    requires t in rs
  {
    exists s {:trigger Lacks(rs, s, t, i)} :: t < s <= bound && Lacks(rs, s, t, i)
  }

  ghost predicate Lacks(rs: Reigns, s: nat, t: nat, i: nat)
    requires t in rs
  {
    s in rs && !Agree(rs[s].log, rs[t].log, i)
  }

  ghost predicate Kept(rs: Reigns, log: Log, bound: int, t: nat, i: nat)
    requires t in rs
  {
    Agree(log, rs[t].log, i) || Blocked(rs, t, i, bound)
  }

  ghost predicate AckValid(rs: Reigns, a: Ack) {
    a.term in rs && a.upTo < |rs[a.term].log|
  }

  ghost predicate AcksValid(h: History) {
    && h.counted <= h.acks
    && forall a {:trigger AckValid(h.reigns, a)} :: a in h.acks ==> AckValid(h.reigns, a)
  }

  /** Every entry of the acknowledged term that `v` acknowledged is still in `log`, unless a
      leader elected in between did not have it. */
  ghost predicate AcksKept(rs: Reigns, acks: set<Ack>, v: Id, log: Log, bound: int) {
    forall a, i {:trigger Claims(rs, a, i), Kept(rs, log, bound, a.term, i)} ::
      a in acks && a.voter == v && a.term <= bound && Claims(rs, a, i) ==> Kept(rs, log, bound, a.term, i)
  }

  /** The acknowledgement covers the entry at `i`, and the acknowledged leader created it. */
  ghost predicate Claims(rs: Reigns, a: Ack, i: int) {
    0 <= i <= a.upTo && a.term in rs && i < |rs[a.term].log| && rs[a.term].log[i].term == a.term
  }

  /** The ballots that elected somebody, or still may. */
  ghost predicate Standing(rs: Reigns, ballots: Ballots, t: nat, v: Id) {
    (t, v) in ballots && (t in rs ==> v in rs[t].quorum)
  }

  ghost predicate BallotsKept(rs: Reigns, ballots: Ballots, acks: set<Ack>) {
    forall t: nat, v {:trigger Standing(rs, ballots, t, v)} ::
      Standing(rs, ballots, t, v) ==> AcksKept(rs, acks, v, ballots[(t, v)].log, t - 1)
  }

  // ---------------------------------------------------------------- leader completeness

  ghost predicate AckedThrough(acks: set<Ack>, t: nat, v: Id, i: nat) {
    exists a :: a in acks && a.term == t && a.voter == v && a.upTo >= i
  }

  ghost predicate AllAcked(acks: set<Ack>, t: nat, q: set<Id>, i: nat) {
    forall v {:trigger AckedThrough(acks, t, v, i)} :: v in q ==> AckedThrough(acks, t, v, i)
  }

  /** The leader of `t` created the entry at `i` and counted a majority for it. */
  ghost predicate Chosen(rs: Reigns, counted: set<Ack>, members: set<Id>, t: nat, i: nat) {
    && t in rs
    && i < |rs[t].log|
    && rs[t].log[i].term == t
    && exists q :: IsQuorum(members, q) && AllAcked(counted, t, q, i)
  }

  ghost predicate Sound(h: History, members: set<Id>) {
    && ReignsOk(h.reigns)
    && ElectionsOk(h.reigns, h.ballots, members)
    && AcksValid(h)
    && BallotsKept(h.reigns, h.ballots, h.acks)
  }

  /** Leader completeness: a chosen entry, and everything before it, is in the log of every
      leader of a later term. */
  lemma {:induction false} LeaderCompleteness(h: History, members: set<Id>, t: nat, i: nat, u: nat)
    requires Sound(h, members)
    requires Chosen(h.reigns, h.counted, members, t, i)
    requires u in h.reigns && t < u
    ensures Agree(h.reigns[u].log, h.reigns[t].log, i)
    decreases u
  {
    var q :| IsQuorum(members, q) && AllAcked(h.counted, t, q, i);
    assert ReignOk(h.reigns, u) && ElectedBy(h.reigns, h.ballots, members, u);
    var v := QuorumsMeet(members, q, h.reigns[u].quorum);
    assert AckedThrough(h.counted, t, v, i) && Supports(h.reigns, h.ballots, u, v);
    forall s | t < s < u && s in h.reigns
      ensures Agree(h.reigns[s].log, h.reigns[t].log, i)
    {
      LeaderCompleteness(h, members, t, i, s);
    }
    VoterKept(h, members, t, i, u, v);
    CandidateKept(h, t, i, u, h.ballots[(u, v)].log);
  }

  /** The voter in both quorums still had the entry when it voted. */
  lemma VoterKept(h: History, members: set<Id>, t: nat, i: nat, u: nat, v: Id)
    requires AcksValid(h) && BallotsKept(h.reigns, h.ballots, h.acks)
    requires t in h.reigns && i < |h.reigns[t].log| && h.reigns[t].log[i].term == t
    requires AckedThrough(h.counted, t, v, i)
    requires u in h.reigns && t < u && v in h.reigns[u].quorum && (u, v) in h.ballots
    requires forall s :: t < s < u && s in h.reigns ==> Agree(h.reigns[s].log, h.reigns[t].log, i)
    ensures Agree(h.ballots[(u, v)].log, h.reigns[t].log, i)
  {
    var a :| a in h.counted && a.term == t && a.voter == v && a.upTo >= i;
    assert Standing(h.reigns, h.ballots, u, v) && Claims(h.reigns, a, i);
    assert Kept(h.reigns, h.ballots[(u, v)].log, u - 1, a.term, i);
  }

  /** A candidate at least as up to date as a log that holds the entry holds it too. */
  lemma CandidateKept(h: History, t: nat, i: nat, u: nat, voter: Log)
    requires ReignsOk(h.reigns)
    requires t in h.reigns && i < |h.reigns[t].log| && h.reigns[t].log[i].term == t
    requires u in h.reigns && t < u && 1 <= h.reigns[u].base <= |h.reigns[u].log|
    requires WellFormed(voter) && Rooted(h.reigns, voter) && Agree(voter, h.reigns[t].log, i)
    requires AtLeastAsUpToDate(h.reigns[u].base - 1, h.reigns[u].log[h.reigns[u].base - 1].term, voter)
    requires forall s :: t < s < u && s in h.reigns ==> Agree(h.reigns[s].log, h.reigns[t].log, i)
    ensures Agree(h.reigns[u].log, h.reigns[t].log, i)
  {
    var rs := h.reigns;
    var r := rs[u];
    var last := r.base - 1;
    var s := r.log[last].term;
    assert ReignOk(rs, t) && ReignOk(rs, u);
    assert i > 0 && s >= LastTerm(voter) >= voter[i].term == t;
    assert RootedAt(rs, r.log, last);
    assert ReignOk(rs, s);
    if s == LastTerm(voter) {
      assert RootedAt(rs, voter, LastIndex(voter));
    } else {
      assert rs[s].log[i].term == t < rs[s].log[last].term;
    }
  }

  /** Two chosen prefixes never disagree. */
  lemma ChosenAgree(h: History, members: set<Id>, t: nat, i: nat, u: nat, j: nat)
    requires Sound(h, members)
    requires Chosen(h.reigns, h.counted, members, t, i) && Chosen(h.reigns, h.counted, members, u, j)
    ensures Agree(h.reigns[t].log, h.reigns[u].log, if i <= j then i else j)
  {
    if t < u {
      LeaderCompleteness(h, members, t, i, u);
    } else if u < t {
      LeaderCompleteness(h, members, u, j, t);
    }
  }
}
