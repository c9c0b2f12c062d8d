/** What a cluster can always still do: whatever has happened to it, messages can arrive in such
    an order that it elects a leader. */
module Headway {
  import opened RaftTypes
  import Quorums
  import opened Logs
  import opened NodeSpec
  import opened Cluster
  import opened ClusterInv
  import opened ElectionSteps
  import opened Safety
  import opened Commits
  import opened Loose
  import opened Duties
  import opened DutyRuns

  // ---------------------------------------------------------------- longer and longer runs

  datatype Trace = Trace(cs: seq<Cluster>, ss: seq<Step>)

  /** `t` is a run that ends in `c`. Proofs look inside by mentioning `Unrolled`. */
  ghost predicate Ends(t: Trace, c: Cluster) {
    forall k {:trigger Unrolled(t, k)} :: Unrolled(t, k) ==> Run(t.cs, t.ss) && t.cs[|t.ss|] == c
  }

  /** `t'` goes on where `t` ends. */
  ghost predicate Onto(t: Trace, t': Trace) {
    forall k {:trigger Unrolled(t', k)} :: Unrolled(t', k) ==> t.cs <= t'.cs && t.ss <= t'.ss
  }

  ghost predicate Unrolled(t: Trace, k: bool) { true }

  lemma OntoTrans(a: Trace, b: Trace, c: Trace)
    requires Onto(a, b) && Onto(b, c)
    ensures Onto(a, c)
  {
    assert Unrolled(b, true);
  }

  lemma EndsSound(t: Trace, c: Cluster)
    requires Ends(t, c)
    ensures Invariant(c) && AllSane(c) && c.nodes.Keys == c.members
  {
    assert Unrolled(t, true);
    InvariantHolds(t.cs, t.ss, |t.ss|);
    assert Within(c, true);
  }

  lemma Move(t: Trace, c: Cluster, s: Step) returns (t': Trace)
    requires Ends(t, c) && AllSane(c) && Enabled(c, s)
    ensures Ends(t', After(c, s)) && Onto(t, t')
    ensures After(c, s).members == c.members == After(c, s).nodes.Keys
  {
    assert Unrolled(t, true);
    t' := Trace(t.cs + [After(c, s)], t.ss + [s]);
    RunLonger(t.cs, t.ss, s);
    PastStays(t'.cs, t'.ss, |t.ss|, |t'.ss|);
    EndsSound(t', After(c, s));
  }

  /** Only `v` has changed, and nothing is lost. */
  ghost predicate Alone(c: Cluster, c': Cluster, v: Id) {
    && c'.members == c.members == c'.nodes.Keys && v in c.members
    && c.net <= c'.net
    && forall w :: w in c.nodes && w != v ==> w in c'.nodes && c'.nodes[w] == c.nodes[w]
  }

  // ---------------------------------------------------------------- campaigning

  /** The node has no call outstanding. */
  ghost predicate Unengaged(c: Cluster, v: Id) { forall id :: id in c.calls ==> c.calls[id].from != v }

  /** The node restarts; with it go its calls. */
  lemma Reboot(t: Trace, c: Cluster, v: Id) returns (t': Trace, c': Cluster)
    requires Ends(t, c) && v in c.nodes
    ensures Ends(t', c') && Onto(t, t') && Alone(c, c', v) && Unengaged(c', v)
    ensures c'.nodes[v].role == Follower && c'.nodes[v].log == c.nodes[v].log && c'.nodes[v].term == c.nodes[v].term
  {
    EndsSound(t, c);
    c' := After(c, Crash(v));
    t' := Move(t, c, Crash(v));
  }

  lemma TimeoutDoes(c: Cluster, v: Id)
    requires v in c.nodes && |c.nodes[v].log| > 0 && !c.nodes[v].joining && c.nodes[v].id in c.nodes[v].peers
    ensures
      var c' := DoTimeout(c, v);
      && c'.nodes == c.nodes[v := StartElection(c.nodes[v])] && c'.calls == c.calls
      && c'.net == c.net + Requests(Campaigner(c.nodes[v]))
  {
    TimeoutNodes(c, v);
    Campaigns(c.nodes[v]);
  }

  /** The node campaigns in the next term, and wins at once if it is alone. */
  ghost predicate Stands(c: Cluster, c': Cluster, v: Id) {
    && Alone(c, c', v) && c'.calls == c.calls && v in c.nodes
    && var n, n' := c.nodes[v], c'.nodes[v];
       && |n.log| > 0 && n'.term == n.term + 1 && n'.id == n.id == v
       && (if |c.members| == 1 then Begins(n.(term := n.term + 1, vote := v), n')
           else n'.role == Candidate && n'.log == n.log && n'.votes == {v})
       && forall w :: w in c.members && w != v ==> VoteReq(w, VoteRequest(n.term + 1, v, LastIndex(n.log), LastTerm(n.log))) in c'.net
  }

  lemma StandNode(n: Node)
    requires |n.log| > 0 && !n.joining && n.id in n.peers
    ensures
      var n' := StartElection(n);
      && n'.id == n.id && n'.term == n.term + 1
      && (if |n.peers| == 1 then Begins(n.(term := n.term + 1, vote := n.id), n')
          else n'.role == Candidate && n'.log == n.log && n'.votes == {n.id})
  {
    CampaignDuty(n);
    FinishKeepsFrame(Crowned(Campaigner(n)));
  }

  lemma RequestsOf(n: Node, w: Id)
    requires |n.log| > 0 && w in n.peers && w != n.id
    ensures VoteReq(w, VoteRequest(n.term + 1, n.id, LastIndex(n.log), LastTerm(n.log))) in Requests(Campaigner(n))
  {
    assert VoteRequestOf(Campaigner(n)) == VoteRequest(n.term + 1, n.id, LastIndex(n.log), LastTerm(n.log));
    assert w in Campaigner(n).peers.Keys - {n.id};
  }

  lemma StandsAfter(c: Cluster, c': Cluster, v: Id)
    requires v in c.nodes && c.nodes[v].id == v && |c.nodes[v].log| > 0 && !c.nodes[v].joining && c.nodes[v].peers.Keys == c.members
    requires c'.members == c.members == c'.nodes.Keys
    requires c'.nodes == c.nodes[v := StartElection(c.nodes[v])] && c'.calls == c.calls
    requires c'.net == c.net + Requests(Campaigner(c.nodes[v]))
    ensures Stands(c, c', v)
  {
    var n := c.nodes[v];
    StandNode(n);
    assert |n.peers| == |n.peers.Keys|;
    forall w | w in c.members && w != v
      ensures VoteReq(w, VoteRequest(n.term + 1, v, LastIndex(n.log), LastTerm(n.log))) in c'.net
    {
      RequestsOf(n, w);
    }
  }

  lemma Stand(t: Trace, c: Cluster, v: Id) returns (t': Trace, c': Cluster)
    requires Ends(t, c) && v in c.nodes && c.nodes[v].role != Leader
    ensures Ends(t', c') && Onto(t, t') && Stands(c, c', v)
  {
    EndsSound(t, c);
    BaseNode(c, v);
    c' := After(c, Timeout(v));
    t' := Move(t, c, Timeout(v));
    TimeoutDoes(c, v);
    StandsAfter(c, c', v);
  }

  /** The node stands again and again until its term exceeds `term`. */
  lemma {:induction false} StandBeyond(t: Trace, c: Cluster, v: Id, term: nat) returns (t': Trace, c': Cluster, c0: Cluster)
    requires Ends(t, c) && v in c.nodes && c.nodes[v].role != Leader && |c.members| > 1
    ensures Ends(t', c') && Onto(t, t') && Stands(c0, c', v) && c0.members == c.members
    ensures Alone(c, c', v) && c'.calls == c.calls && c'.nodes[v].log == c.nodes[v].log && c'.nodes[v].term > term
    decreases term - c.nodes[v].term
  {
    c0 := c;
    t', c' := Stand(t, c, v);
    if c'.nodes[v].term <= term {
      var t1, c1 := t', c';
      t', c', c0 := StandBeyond(t1, c1, v, term);
      OntoTrans(t, t1, t');
    }
  }

  // ---------------------------------------------------------------- collecting the votes

  /** The node campaigns with the votes of all but `todo`, whose requests are on their way and
      will be granted. */
  ghost predicate Rallies(c: Cluster, v: Id, todo: set<Id>) {
    && v in c.nodes && todo <= c.members - {v} && |c.nodes[v].log| > 0 && c.nodes[v].id == v
    && c.nodes[v].role == Candidate && c.nodes[v].votes == c.members - todo
    && (forall w {:trigger Owes(c, v, w)} :: w in todo ==> Owes(c, v, w))
    && (forall w {:trigger c.nodes[w]} :: w in c.nodes ==> c.nodes[w].term <= c.nodes[v].term)
  }

  ghost predicate Owes(c: Cluster, v: Id, w: Id)
    requires v in c.nodes && |c.nodes[v].log| > 0
  {
    && w in c.nodes && |c.nodes[w].log| > 0 && c.nodes[w].term < c.nodes[v].term
    && NoOlder(c.nodes[v].log, c.nodes[w].log)
    && VoteReq(w, VoteRequestOf(c.nodes[v])) in c.net
  }

  /** The logs of all others are as they were. */
  ghost predicate Spared(c: Cluster, c': Cluster, v: Id) {
    && c'.members == c.members == c'.nodes.Keys == c.nodes.Keys
    && forall w {:trigger c'.nodes[w]} :: w in c.nodes && w != v ==> c'.nodes[w].log == c.nodes[w].log && c'.nodes[w].snap == c.nodes[w].snap
  }

  lemma RequestDoes(c: Cluster, v: Id, w: Id)
    requires v in c.nodes && |c.nodes[v].log| > 0 && c.nodes[v].id == v && Owes(c, v, w)
    ensures
      var n, m := c.nodes[v], c.nodes[w];
      var c' := DoDeliver(c, VoteReq(w, VoteRequestOf(n)));
      && c'.nodes == c.nodes[w := m.(term := n.term, vote := v, role := Follower, leader := "")] && c'.calls == c.calls
      && c'.net == c.net + {VoteRsp(w, v, n.term, VoteResponse(n.term, true))}
  {
    var n, m := c.nodes[v], c.nodes[w];
    DeliverIsHandled(c, VoteReq(w, VoteRequestOf(n)));
    CandidateIsHeard(n, m);
    VoteGrantedIff(m, VoteRequestOf(n));
  }

  lemma VoteReplyDoes(c: Cluster, pkt: Packet)
    requires pkt.VoteRsp? && pkt.to in c.nodes && |c.nodes[pkt.to].log| > 0
    ensures
      var c' := DoDeliver(c, pkt);
      c'.nodes == c.nodes[pkt.to := Handled(c.nodes[pkt.to], pkt)] && c'.net == c.net && c'.calls == c.calls
  {
    DeliverIsHandled(c, pkt);
  }

  lemma Ask(t: Trace, c: Cluster, v: Id, w: Id) returns (t': Trace, c': Cluster)
    requires Ends(t, c) && v in c.nodes && |c.nodes[v].log| > 0 && c.nodes[v].id == v && Owes(c, v, w)
    ensures Ends(t', c') && Onto(t, t') && c'.members == c.members && c'.calls == c.calls
    ensures
      var n := c.nodes[v];
      && c'.nodes == c.nodes[w := c.nodes[w].(term := n.term, vote := v, role := Follower, leader := "")]
      && c'.net == c.net + {VoteRsp(w, v, n.term, VoteResponse(n.term, true))}
  {
    EndsSound(t, c);
    var ask := VoteReq(w, VoteRequestOf(c.nodes[v]));
    c' := After(c, Deliver(ask));
    t' := Move(t, c, Deliver(ask));
    RequestDoes(c, v, w);
  }

  /** One more vote. */
  lemma Persuade(t: Trace, c: Cluster, v: Id, w: Id) returns (t': Trace, c': Cluster)
    requires Ends(t, c) && v in c.nodes && |c.nodes[v].log| > 0 && c.nodes[v].id == v && c.nodes[v].role == Candidate
    requires w != v && Owes(c, v, w)
    ensures Ends(t', c') && Onto(t, t') && c'.members == c.members == c'.nodes.Keys && c'.calls == c.calls && c.net <= c'.net
    ensures
      var n := c.nodes[v];
      && c'.nodes == c.nodes[w := c.nodes[w].(term := n.term, vote := v, role := Follower, leader := "")]
                            [v := OnVoteResponse(n, w, n.term, VoteResponse(n.term, true))]
  {
    var t1, c1 := Ask(t, c, v, w);
    var reply := VoteRsp(w, v, c.nodes[v].term, VoteResponse(c.nodes[v].term, true));
    EndsSound(t1, c1);
    c' := After(c1, Deliver(reply));
    t' := Move(t1, c1, Deliver(reply));
    VoteReplyDoes(c1, reply);
    OntoTrans(t, t1, t');
  }

  /** What the vote of `w` makes of the campaign. */
  lemma PersuadedNode(n: Node, w: Id)
    requires |n.log| > 0 && n.role == Candidate
    ensures
      var n' := OnVoteResponse(n, w, n.term, VoteResponse(n.term, true));
      n'.id == n.id && if 2 * |n.votes + {w}| > |n.peers| then Begins(n, n') else n' == n.(votes := n.votes + {w})
  {
    VoteIsCounted(n, w, VoteResponse(n.term, true));
    FinishKeepsFrame(Crowned(n.(votes := n.votes + {w})));
  }

  lemma StillOwes(c: Cluster, c': Cluster, v: Id, u: Id)
    requires v in c.nodes && v in c'.nodes && |c.nodes[v].log| > 0 && Owes(c, v, u) && u != v && u in c'.nodes && c'.nodes[u] == c.nodes[u]
    requires c'.nodes[v].log == c.nodes[v].log && c'.nodes[v].term == c.nodes[v].term && c'.nodes[v].id == c.nodes[v].id && c.net <= c'.net
    ensures Owes(c', v, u)
  {
  }

  lemma StillRallies(c: Cluster, c': Cluster, v: Id, w: Id, todo: set<Id>)
    requires Rallies(c, v, todo) && w in todo && c'.members == c.members && c.net <= c'.net
    requires w in c.nodes && c'.nodes == c.nodes[w := c.nodes[w].(term := c.nodes[v].term, vote := v, role := Follower, leader := "")]
                                               [v := c.nodes[v].(votes := c.nodes[v].votes + {w})]
    ensures Rallies(c', v, todo - {w})
  {
    forall u | u in todo - {w}
      ensures Owes(c', v, u)
    {
      assert Owes(c, v, u);
      StillOwes(c, c', v, u);
    }
    assert c'.nodes[v].votes == c'.members - (todo - {w});
  }

  /** A campaigner that everybody has voted for has won. */
  lemma SomeoneLeft(t: Trace, c: Cluster, v: Id, todo: set<Id>)
    requires Ends(t, c) && Rallies(c, v, todo)
    ensures todo != {}
  {
    assert Unrolled(t, true);
    RunIsLoose(t.cs, t.ss);
    CandidatesLackVotes(t.cs, t.ss, |t.ss|, v);
    assert todo == {} ==> c.members - todo == c.members && v in c.members by {
      EndsSound(t, c);
    }
    assert v in c.members ==> |c.members| > 0;
  }

  /** The new leader, and the state in which its votes were too few. */
  ghost predicate Won(c: Cluster, c': Cluster, v: Id, n: Node) {
    && v in c.nodes && v in c'.nodes && |n.log| > 0 && Begins(n, c'.nodes[v])
    && n.id == v && n.log == c.nodes[v].log && n.peers.Keys == c.members
    && forall w {:trigger c'.nodes[w]} :: w in c'.nodes ==> c'.nodes[w].term <= c'.nodes[v].term
  }

  /** What one more vote comes to. */
  lemma VoteComesTo(c: Cluster, c': Cluster, v: Id, w: Id, todo: set<Id>, n': Node)
    requires Rallies(c, v, todo) && w in todo && w in c.nodes && c.nodes[v].peers.Keys == c.members == c.nodes.Keys
    requires c'.members == c.members == c'.nodes.Keys && c'.calls == c.calls && c.net <= c'.net
    requires c'.nodes == c.nodes[w := c.nodes[w].(term := c.nodes[v].term, vote := v, role := Follower, leader := "")][v := n']
    requires Begins(c.nodes[v], n') || n' == c.nodes[v].(votes := c.nodes[v].votes + {w})
    ensures Spared(c, c', v)
    ensures c'.nodes[v].term == c.nodes[v].term
    ensures Won(c, c', v, c.nodes[v]) || (Rallies(c', v, todo - {w}) && c'.nodes[v].log == c.nodes[v].log)
  {
    if !Begins(c.nodes[v], n') {
      StillRallies(c, c', v, w, todo);
    }
  }

  lemma Poll(t: Trace, c: Cluster, v: Id, todo: set<Id>) returns (t': Trace, c': Cluster, w: Id)
    requires Ends(t, c) && Rallies(c, v, todo)
    ensures Ends(t', c') && Onto(t, t') && Spared(c, c', v) && c'.calls == c.calls && w in todo
    ensures c'.nodes[v].term == c.nodes[v].term
    ensures Won(c, c', v, c.nodes[v]) || (Rallies(c', v, todo - {w}) && c'.nodes[v].log == c.nodes[v].log)
  {
    SomeoneLeft(t, c, v, todo);
    EndsSound(t, c);
    BaseNode(c, v);
    w :| w in todo;
    assert Owes(c, v, w);
    t', c' := Persuade(t, c, v, w);
    PersuadedNode(c.nodes[v], w);
    VoteComesTo(c, c', v, w, todo, c'.nodes[v]);
  }

  lemma SparedTrans(a: Cluster, b: Cluster, c: Cluster, v: Id)
    requires Spared(a, b, v) && Spared(b, c, v)
    ensures Spared(a, c, v)
  {
  }

  lemma {:induction false} Rally(t: Trace, c: Cluster, v: Id, todo: set<Id>) returns (t': Trace, c': Cluster, n: Node)
    requires Ends(t, c) && Rallies(c, v, todo)
    ensures Ends(t', c') && Onto(t, t') && Spared(c, c', v) && Won(c, c', v, n) && c'.calls == c.calls
    ensures c'.nodes[v].term == c.nodes[v].term
    decreases |todo|
  {
    var w: Id;
    t', c', w := Poll(t, c, v, todo);
    n := c.nodes[v];
    if !Won(c, c', v, n) {
      var t1, c1 := t', c';
      t', c', n := Rally(t1, c1, v, todo - {w});
      OntoTrans(t, t1, t');
      SparedTrans(c, c1, c', v);
    }
  }

  // ---------------------------------------------------------------- elections

  lemma LastStand(c: Cluster, c0: Cluster, c1: Cluster, v: Id)
    requires AllSane(c) && c.nodes.Keys == c.members && Electable(c.nodes, c.members, v)
    requires Stands(c0, c1, v) && |c1.members| > 1 && AllSane(c1)
    requires Alone(c, c1, v) && c1.nodes[v].log == c.nodes[v].log && TopTerm(c.nodes, c.members) < c1.nodes[v].term
    ensures Spared(c, c1, v) && Rallies(c1, v, c1.members - {v})
  {
    var todo := c1.members - {v};
    assert c1.members - todo == {v};
    var n := c0.nodes[v];
    assert VoteRequestOf(c1.nodes[v]) == VoteRequest(n.term + 1, v, LastIndex(n.log), LastTerm(n.log));
    forall w | w in todo
      ensures Owes(c1, v, w)
    {
      assert c1.nodes[w] == c.nodes[w] && NoOlder(c.nodes[v].log, c.nodes[w].log);
    }
  }

  lemma Seat(t: Trace, c: Cluster, v: Id)
    requires Ends(t, c) && v in c.nodes
    ensures c.nodes.Keys == c.members == c.nodes[v].peers.Keys && c.nodes[v].id == v && Sane(c.nodes[v]) && !c.nodes[v].joining
  {
    EndsSound(t, c);
    BaseNode(c, v);
  }

  ghost function TopTerm(nodes: map<Id, Node>, some: set<Id>): (top: nat)
    requires some <= nodes.Keys
    ensures forall w :: w in some ==> nodes[w].term <= top
  {
    if some == {} then 0
    else
      var w :| w in some;
      Max(nodes[w].term, TopTerm(nodes, some - {w}))
  }

  lemma ElectAlone(t: Trace, c: Cluster, v: Id) returns (t': Trace, c': Cluster, n: Node)
    requires Ends(t, c) && v in c.nodes && c.nodes[v].role != Leader && |c.members| == 1
    ensures Ends(t', c') && Onto(t, t') && Spared(c, c', v) && Won(c, c', v, n) && c'.calls == c.calls
    ensures c'.nodes[v].term > c.nodes[v].term
  {
    Seat(t, c, v);
    t', c' := Stand(t, c, v);
    n := c.nodes[v].(term := c.nodes[v].term + 1, vote := v);
    StandsAlone(c, c', v);
  }

  lemma StandsAlone(c: Cluster, c': Cluster, v: Id)
    requires Stands(c, c', v) && |c.members| == 1 && c.nodes.Keys == c.members == c.nodes[v].peers.Keys
    ensures Spared(c, c', v) && Won(c, c', v, c.nodes[v].(term := c.nodes[v].term + 1, vote := v))
  {
    forall w | w in c.members
      ensures w == v
    {
      Quorums.SubsetSize({v, w}, c.members);
    }
  }

  lemma ElectAmong(t: Trace, c: Cluster, v: Id) returns (t': Trace, c': Cluster, n: Node)
    requires Ends(t, c) && AllSane(c) && Electable(c.nodes, c.members, v) && c.nodes[v].role != Leader && |c.members| > 1
    ensures Ends(t', c') && Onto(t, t') && Spared(c, c', v) && Won(c, c', v, n) && c'.calls == c.calls
    ensures c'.nodes[v].term > c.nodes[v].term
  {
    Seat(t, c, v);
    var t1, c1, c0 := StandBeyond(t, c, v, TopTerm(c.nodes, c.members));
    EndsSound(t1, c1);
    LastStand(c, c0, c1, v);
    t', c', n := Rally(t1, c1, v, c1.members - {v});
    OntoTrans(t, t1, t');
    SparedTrans(c, c1, c', v);
  }

  lemma ElectFollower(t: Trace, c: Cluster, v: Id) returns (t': Trace, c': Cluster, n: Node)
    requires Ends(t, c) && AllSane(c) && Electable(c.nodes, c.members, v) && c.nodes[v].role != Leader
    ensures Ends(t', c') && Onto(t, t') && Spared(c, c', v) && Won(c, c', v, n) && c'.calls == c.calls
    ensures c'.nodes[v].term > c.nodes[v].term
  {
    Quorums.SubsetSize({v}, c.members);
    if |c.members| == 1 {
      t', c', n := ElectAlone(t, c, v);
    } else {
      t', c', n := ElectAmong(t, c, v);
    }
  }

  lemma RebootKeeps(t1: Trace, c: Cluster, c1: Cluster, v: Id)
    requires Ends(t1, c1) && Alone(c, c1, v) && AllSane(c) && c.nodes.Keys == c.members && Electable(c.nodes, c.members, v)
    requires c1.nodes[v].log == c.nodes[v].log
    ensures AllSane(c1) && Electable(c1.nodes, c1.members, v) && Spared(c, c1, v)
  {
    EndsSound(t1, c1);
  }

  /** Any node at least as up to date as all others can be elected, leaving their logs alone. */
  lemma Elect(t: Trace, c: Cluster, v: Id) returns (t': Trace, c': Cluster, n: Node)
    requires Ends(t, c) && AllSane(c) && Electable(c.nodes, c.members, v)
    ensures Ends(t', c') && Onto(t, t') && Spared(c, c', v) && Won(c, c', v, n) && Unengaged(c', v)
    ensures c'.nodes[v].term > c.nodes[v].term
  {
    Seat(t, c, v);
    var t1, c1 := Reboot(t, c, v);
    RebootKeeps(t1, c, c1, v);
    t', c', n := ElectFollower(t1, c1, v);
    OntoTrans(t, t1, t');
    SparedTrans(c, c1, c', v);
  }
}
