/** Majorities of a finite membership. */
module Quorums {
  import opened RaftTypes

  /** The least number that is more than half. */
  function MajoritySize(members: set<Id>): (n: nat)
    ensures 2 * (n - 1) <= |members| < 2 * n
  {
    |members| / 2 + 1
  }

  predicate IsQuorum(members: set<Id>, q: set<Id>) {
    q <= members && |q| >= MajoritySize(members)
  }

  /** The majorities are exactly the sets of more than half the members. */
  lemma QuorumIff(members: set<Id>, q: set<Id>)
    requires q <= members
    ensures IsQuorum(members, q) <==> 2 * |q| > |members|
  {
  }

  lemma SubsetSize<T>(a: set<T>, b: set<T>)
    requires a <= b
    ensures |a| <= |b|
  {
    assert b == a + (b - a);
  }

  /** Any two majorities share a member. */
  lemma QuorumsMeet(members: set<Id>, p: set<Id>, q: set<Id>) returns (v: Id)
    requires IsQuorum(members, p) && IsQuorum(members, q)
    ensures v in p && v in q
  {
    SubsetSize(p + q, members);
    assert |p + q| == |p| + |q| - |p * q|;
    v :| v in p * q;
  }

  /** A majority of one membership meets every majority of a membership one member larger. */
  lemma AdjacentQuorumsMeet(small: set<Id>, extra: Id, p: set<Id>, q: set<Id>) returns (v: Id)
    requires extra !in small
    requires IsQuorum(small, p) && IsQuorum(small + {extra}, q)
    ensures v in p && v in q
  {
    SubsetSize(p + q, small + {extra});
    assert |p + q| == |p| + |q| - |p * q|;
    v :| v in p * q;
  }
}
