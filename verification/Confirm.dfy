/** Counting confirmations for a read: the replies are taken in the order they arrive, and the
    count stops as soon as the answer is known. */
module Confirm {
  import opened RaftTypes
  import opened Quorums

  datatype Outcome = Confirmed | NotLeader | StaleLeader | TimedOut | Stopped

  /** What ends the wait for replies, if no reply decides: the timer or the node's shutdown. */
  datatype Ending = Timer | Shutdown

  function Trues(results: seq<bool>): nat {
    if results == [] then 0 else Trues(results[..|results| - 1]) + (if results[|results| - 1] then 1 else 0)
  }

  lemma {:induction false} TruesBetween(results: seq<bool>, k: nat)
    requires k <= |results|
    ensures Trues(results[..k]) <= Trues(results) <= Trues(results[..k]) + |results| - k
    decreases |results|
  {
    if k == |results| {
      assert results[..k] == results;
    } else {
      var front := results[..|results| - 1];
      TruesBetween(front, k);
      assert front[..k] == results[..k];
    }
  }

  /** The node still leads in the term for which it asks. */
  predicate Leads(state: Role, currentTerm: nat, term: nat) { state == Leader && currentTerm == term }

  /** The node's own vote and the replies are a majority. */
  predicate Carried(members: set<Id>, results: seq<bool>) { 1 + Trues(results) >= MajoritySize(members) }

  /** Even if every outstanding request succeeds, they will not be. */
  predicate Lost(members: set<Id>, others: nat, results: seq<bool>)
    requires |results| <= others
  {
    results != [] && 1 + Trues(results) + (others - |results|) < MajoritySize(members)
  }

  /** `results` are the replies that arrive before `ending`, one per other member at most. The
      leader is confirmed exactly if its own vote and theirs reach the majority, however early
      counting stops; it is stale exactly if the replies rule a majority out. */
  method ConfirmLeadership(id: Id, state: Role, currentTerm: nat, members: set<Id>, term: nat,
                           results: seq<bool>, ending: Ending)
    returns (r: Outcome)
    requires |results| <= |members - {id}|
    ensures r == NotLeader <==> !Leads(state, currentTerm, term)
    ensures r == Confirmed <==> Leads(state, currentTerm, term) && Carried(members, results)
    ensures r == StaleLeader <==> Leads(state, currentTerm, term) && Lost(members, |members - {id}|, results)
    ensures r == TimedOut ==> ending == Timer
    ensures r == Stopped ==> ending == Shutdown
  {
    if state != Leader || currentTerm != term {
      return NotLeader;
    }
    var majority, peers := MajoritySize(members), members - {id};
    var acks, pending := 1, |peers|;
    if acks >= majority {
      return Confirmed;
    }
    var k := 0;
    while k < |results|
      invariant 0 <= k <= |results| && pending == |peers| - k
      invariant acks == 1 + Trues(results[..k]) && acks < majority
      invariant k > 0 ==> acks + pending >= majority
    {
      assert results[..k + 1][..k] == results[..k];
      pending := pending - 1;
      if results[k] {
        acks := acks + 1;
      }
      k := k + 1;
      TruesBetween(results, k);
      if acks >= majority {
        return Confirmed;
      }
      if acks + pending < majority {
        return StaleLeader;
      }
    }
    assert results[..k] == results;
    match ending
    case Timer => return TimedOut;
    case Shutdown => return Stopped;
  }

  /** A leader that hears yes from every other member is confirmed; one that hears nothing, only
      in a cluster of one. */
  lemma {:induction false} AllRepliesConfirm(id: Id, members: set<Id>, results: seq<bool>)
    requires id in members && |results| == |members - {id}| && forall k :: 0 <= k < |results| ==> results[k]
    ensures Carried(members, results)
    ensures Carried(members, []) <==> |members| == 1
  {
    AllTrue(results);
    assert members == (members - {id}) + {id};
  }

  lemma {:induction false} AllTrue(results: seq<bool>)
    requires forall k :: 0 <= k < |results| ==> results[k]
    ensures Trues(results) == |results|
    decreases |results|
  {
    if results != [] {
      AllTrue(results[..|results| - 1]);
    }
  }
}
