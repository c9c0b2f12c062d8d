/** The run of `Scenario`, step by step, and what it refutes. */
module StaleRead {
  import opened RaftTypes
  import opened NodeSpec
  import opened Cluster
  import opened Commits
  import opened Reads
  import opened Scenario
  import opened Stage

  ghost predicate Moment(pl: Play, steps: nat, a: Node, b: Node, c: Node, issued: nat) {
    pl.strict && Scene(pl, steps, a, b, c, issued) && !Last(pl).compacting
  }

  /** A is elected in term 1 with B's vote. */
  lemma ActOne(pl: Play) returns (pl': Play)
    requires Moment(pl, 0, A0, B0, C0, 0)
    ensures Moment(pl', 3, A2, B1, C0, 0)
  {
    FirstCampaign();
    FirstWin();
    pl' := Elects(pl, "A", "B", A1, B1, A2);
    Recast(A0, B0, C0, A2);
    Recast(A2, B0, C0, B1);
  }

  /** A commits its no-op with B. */
  lemma ActTwo(pl: Play) returns (pl': Play)
    requires Moment(pl, 3, A2, B1, C0, 0)
    ensures Moment(pl', 6, A3, B2, C0, 1)
  {
    LeadersSend();
    FollowersTake();
    FirstCount();
    pl' := Replicates(pl, "A", "B", R1, B2, A3);
    Recast(A2, B1, C0, B2);
    Recast(A2, B2, C0, A3);
  }

  /** C catches up; then A takes a client's write, at index 2, that nobody else receives. */
  lemma ActThree(pl: Play) returns (pl': Play)
    requires Moment(pl, 6, A3, B2, C0, 1)
    ensures Moment(pl', 9, A4, B2, C1, 2) && pl'.ss[8] == ClientPut("A", PUT) && pl'.cs[8].nodes == Trio(A3, B2, C1)
  {
    LeadersSend();
    FollowerCommits();
    LeaderPuts();
    var p1 := Sends(pl, "A", "C", R2);
    var p2 := Receives(p1, AppendReq(1, "C", R2));
    Recast(A3, B2, C0, C1);
    pl' := Accepts(p2, "A", PUT, A4);
    Recast(A3, B2, C1, A4);
  }

  /** B is elected in term 2 with C's vote. */
  lemma ActFour(pl: Play) returns (pl': Play)
    requires Moment(pl, 9, A4, B2, C1, 2)
    ensures Moment(pl', 12, A4, B4, C2, 2) && Continues(pl, 3, pl')
  {
    SecondCampaign();
    SecondWin();
    pl' := Elects(pl, "B", "C", B3, C2, B4);
    Recast(A4, B2, C1, B4);
    Recast(A4, B4, C1, C2);
  }

  /** B overwrites index 2 and commits it with C. Its request to A is still on its way. */
  lemma ActFive(pl: Play) returns (pl': Play)
    requires Moment(pl, 12, A4, B4, C2, 2)
    ensures Moment(pl', 16, A4, B5, C3, 4) && Continues(pl, 4, pl') && AppendReq(2, "A", R3) in Last(pl').net
  {
    LeadersSend();
    FollowersTake();
    SecondCount();
    var p1 := Sends(pl, "B", "A", R3);
    pl' := Replicates(p1, "B", "C", R3, C3, B5);
    Recast(A4, B4, C2, C3);
    Recast(A4, B4, C3, B5);
  }

  ghost predicate Reading(c: Cluster, phase: Phase, checkTerm: nat, term: nat, index: nat, acks: set<Id>) {
    4 in c.queries && c.queries[4] == Read("A", phase, c.queries[4].before, checkTerm, term, index, acks)
  }

  /** A read begins at A, which has committed an entry of its term and has not heard of B. */
  lemma ActSix(pl: Play) returns (pl': Play)
    requires Moment(pl, 16, A4, B5, C3, 4)
    ensures Moment(pl', 18, A4, B5, C3, 5) && Continues(pl, 2, pl') && pl'.ss[16] == BeginRead("A")
    ensures Reading(Last(pl'), Checked, 1, 0, 0, {})
  {
    var p1 := Begins(pl, "A");
    pl' := Checks(p1, 4);
  }

  /** B's request arrives, and A is elected again, in term 3, by C. */
  lemma ActSeven(pl: Play) returns (pl': Play)
    requires Moment(pl, 18, A4, B5, C3, 5) && AppendReq(2, "A", R3) in Last(pl).net
    ensures Moment(pl', 22, A7, B5, C4, 5) && Continues(pl, 4, pl') && Last(pl').queries == Last(pl).queries
  {
    FollowersTake();
    ThirdCampaign();
    ThirdWin();
    var p1 := Receives(pl, AppendReq(2, "A", R3));
    Recast(A4, B5, C3, A5);
    pl' := Elects(p1, "A", "C", A6, C4, A7);
    Recast(A5, B5, C3, A7);
    Recast(A7, B5, C3, C4);
  }

  /** The read captures A's old commit index, and C confirms the new leadership. */
  lemma ActEight(pl: Play) returns (pl': Play)
    requires Moment(pl, 22, A7, B5, C4, 5) && Reading(Last(pl), Checked, 1, 0, 0, {})
    ensures Moment(pl', 26, A7, B5, C5, 5) && Continues(pl, 4, pl') && Reading(Last(pl'), Captured, 1, 3, 1, {"C"})
  {
    LeadersSend();
    Refuses();
    var p1 := Captures(pl, 4);
    var p2 := Probes(p1, 4, "C");
    var p3 := Receives(p2, ProbeReq(4, "C", PROBE));
    Recast(A7, B5, C4, C5);
    pl' := Hears(p3, ProbeRsp(4, "C", "A", AppendResponse(3, false)));
    assert {} + {"C"} == {"C"};
  }

  /** A commits in term 3 with C, and so applies index 2. */
  lemma ActNine(pl: Play) returns (pl': Play)
    requires Moment(pl, 26, A7, B5, C5, 5)
    ensures Moment(pl', 29, A8, B5, C6, 6) && Continues(pl, 3, pl')
  {
    LeadersSend();
    FollowersTake();
    ThirdCount();
    pl' := Replicates(pl, "A", "C", R4, C6, A8);
    Recast(A7, B5, C5, C6);
    Recast(A7, B5, C6, A8);
  }

  // ---------------------------------------------------------------- what the play shows

  lemma FirstHalf() returns (pl: Play)
    ensures Moment(pl, 16, A4, B5, C3, 4) && AppendReq(2, "A", R3) in Last(pl).net
    ensures pl.ss[8] == ClientPut("A", PUT) && pl.cs[8].nodes == Trio(A3, B2, C1)
  {
    var p0 := Opening(true, false, 0);
    var p1 := ActOne(p0);
    var p2 := ActTwo(p1);
    var p3 := ActThree(p2);
    var p4 := ActFour(p3);
    pl := ActFive(p4);
  }

  lemma WholePlay() returns (pl: Play)
    ensures Moment(pl, 29, A8, B5, C6, 6)
    ensures pl.ss[8] == ClientPut("A", PUT) && pl.cs[8].nodes == Trio(A3, B2, C1)
    ensures pl.ss[16] == BeginRead("A") && pl.cs[16].nodes == Trio(A4, B5, C3) && pl.cs[16].issued == 4
    ensures pl.cs[26].nodes == Trio(A7, B5, C5) && Reading(pl.cs[26], Captured, 1, 3, 1, {"C"})
  {
    var p5 := FirstHalf();
    var p6 := ActSix(p5);
    var p7 := ActSeven(p6);
    var p8 := ActEight(p7);
    pl := ActNine(p8);
  }

  /** Without the hypothesis that the term is the same at both looks, a read may miss an entry
      that was committed before it began. */
  lemma ReadMayBeStale() returns (cs: seq<Cluster>, ss: seq<Step>, i: nat, j: nat, w: Id)
    ensures ReadDone(cs, ss, i, j, j) && w in cs[i].nodes
    ensures cs[j].queries[cs[i].issued].checkTerm != cs[j].queries[cs[i].issued].term
    ensures cs[j].queries[cs[i].issued].index < cs[i].nodes[w].commit
  {
    var pl := WholePlay();
    assert Seen(pl, true);
    cs, ss, i, j, w := pl.cs, pl.ss, 16, 26, "B";
    Three();
    assert {"C"} + {"A"} == {"A", "C"};
  }

  /** A `Put` that waits for its index to be applied may report success for a command that no
      log and no map holds. */
  lemma PutMayBeLost() returns (cs: seq<Cluster>, ss: seq<Step>, i: nat, j: nat, cmd: Command, idx: nat)
    ensures Puts(cs, ss, i, cmd, idx) && i < j < |cs| && ss[i].node in cs[j].nodes
    ensures
      && idx <= cs[j].nodes[ss[i].node].applied
      && forall v :: v in cs[j].nodes ==>
           var n := cs[j].nodes[v]; n.kv == map[] && idx < |n.log| && n.log[idx].command != cmd
  {
    var pl := WholePlay();
    assert Seen(pl, true);
    cs, ss, i, j, cmd, idx := pl.cs, pl.ss, 8, 29, PUT, 2;
    HeldByNone(cs[j].nodes);
  }

  lemma HeldByNone(nodes: map<Id, Node>)
    requires nodes == Trio(A8, B5, C6)
    ensures forall v :: v in nodes ==> var n := nodes[v]; n.kv == map[] && 2 < |n.log| && n.log[2].command != PUT
  {
  }
}
