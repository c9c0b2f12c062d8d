/** A run of three nodes, one of which compacts its log, in which a snapshot request arrives after
    entries that it does not cover. */
module LateSnapshot {
  import opened RaftTypes
  import opened Logs
  import opened NodeSpec
  import opened Cluster
  import opened Safety
  import opened Commits
  import opened Scenario
  import opened Stage

  const Y := Entry(1, OTHER, None)
  const LXY: Log := [DUMMY, N1, X, Y]

  /** A node whose snapshot covers the first two entries. */
  function Cut(n: Node, kv: Store): Node { n.(snap := 2, image := KX, kv := kv) }

  function Leads(log: Log, commit: nat, next: map<Id, nat>, matched: map<Id, nat>): Node {
    Tight(At("A", Leader, 1, "A", log, commit, {"A", "B"}, next, matched, "A"), 2)
  }

  const A2T := Leads(L1, 0, Per(2, 1, 1), Per(1, 0, 0))
  const A3T := Leads(LX, 0, Per(3, 1, 1), Per(2, 0, 0))
  const A4T := Leads(LXY, 0, Per(4, 1, 1), Per(3, 0, 0))
  const A5T := Cut(Leads(LXY, 2, Per(4, 3, 1), Per(3, 2, 0)), KX)
  const B2T := Follows("B", 1, "A", LX, 0, "A")
  const C1T := Follows("C", 1, "", LXY, 0, "A")

  const SHORT := AppendRequest(1, "A", 0, 0, [N1, X], 0)
  const LONG := AppendRequest(1, "A", 0, 0, [N1, X, Y], 0)
  const IMAGE := SnapshotRequest(1, "A", 2, 1, KX, CFG)

  lemma Replays()
    ensures ReplayFrom(map[], LX, 0, 2) == KX && ReplayFrom(map[], LXY, 0, 2) == KX
    ensures ReplayFrom(KX, LXY, 2, 3) == KY && ReplayFrom(map[], LXY, 0, 3) == KY
  {
    assert ReplayFrom(map[], LX, 0, 1) == map[] && ReplayFrom(map[], LXY, 0, 1) == map[];
  }

  lemma Folds(log: Log, lo: nat, hi: nat)
    requires log == LX || log == LXY
    requires lo <= hi < |log|
    ensures FoldConfig(CFG, log, lo, hi) == CFG
    decreases hi
  {
    if lo < hi {
      Folds(log, lo, hi - 1);
    }
  }

  lemma Stands()
    ensures StartElection(Tight(A0, 2)) == Tight(A1, 2) == Campaigner(Tight(A0, 2))
    ensures OnVoteRequest(B0, VoteRequestOf(Tight(A1, 2))) == (B1, VoteResponse(1, true))
  {
    Campaigns(Tight(A0, 2));
  }

  lemma Wins()
    ensures OnVoteResponse(Tight(A1, 2), "B", 1, VoteResponse(1, true)) == A2T
  {
    Victory(Tight(A1, 2), "B", L1, Per(2, 1, 1), Per(1, 0, 0));
  }

  lemma PutsFirst()
    ensures Propose(A2T, PUT) == (A3T, Some(2))
  {
    Proposal(A2T, PUT, LX, Per(3, 1, 1), Per(2, 0, 0));
  }

  lemma PutsSecond()
    ensures Propose(A3T, OTHER) == (A4T, Some(3))
  {
    Proposal(A3T, OTHER, LXY, Per(4, 1, 1), Per(3, 0, 0));
  }

  lemma SendsBoth()
    ensures MakeAppend(A3T, "B") == (A3T, Some(SHORT)) && MakeAppend(A4T, "C") == (A4T, Some(LONG))
  {
    assert LX[1..] == [N1, X] && LXY[1..] == [N1, X, Y];
  }

  lemma TakesBoth()
    ensures OnAppend(B1, SHORT) == (B2T, AppendResponse(1, true))
    ensures OnAppend(C0, LONG) == (C1T, AppendResponse(1, true))
  {
    assert L0[..1] + [N1, X] == LX && L0[..1] + [N1, X, Y] == LXY;
    Folds(LX, 0, 2);
    Folds(LXY, 0, 3);
    TakesQuietly(B1, SHORT, LX);
    TakesQuietly(C0, LONG, LXY);
  }

  /** A commits two entries, applies them and compacts. */
  lemma Compacts()
    ensures OnAppendResponse(A4T, "B", SHORT, AppendResponse(1, true)) == A5T
  {
    Three();
    var m := A4T.(matchIndex := Per(3, 2, 0), nextIndex := Per(4, 3, 1));
    assert Per(3, 0, 0)["B" := 2] == Per(3, 2, 0) && Per(4, 1, 1)["B" := 3] == Per(4, 3, 1);
    assert Holders(m, 3) == {"A"};
    HeldByTwo(m, 2, "A", "B");
    assert BestCommit(m, 2) == 2;
    assert BestCommit(m, 3) == 2;
    Replays();
    Folds(LXY, 0, 2);
    Folds(LXY, 2, 3);
    assert Catchup(AdvanceCommit(m)) == m.(commit := 2, applied := 2, kv := KX);
  }

  /** A's requests with one write to B, and with both to C, are on their way. */
  ghost predicate Overtured(pl: Play, a: Node, b: Node, c: Node, steps: nat) {
    && Scene(pl, steps, a, b, c, 2) && Last(pl).compacting
    && AppendReq(0, "B", SHORT) in Last(pl).net && AppendReq(1, "C", LONG) in Last(pl).net
    && Last(pl).calls == map[0 := AppendCall("A", "B", SHORT), 1 := AppendCall("A", "C", LONG)]
  }

  lemma FirstEntry(pl: Play) returns (pl': Play)
    requires Scene(pl, 3, A2T, B1, C0, 0) && Last(pl).compacting && Last(pl).calls == map[]
    ensures Scene(pl', 5, A3T, B1, C0, 1) && pl'.strict == pl.strict && Last(pl').compacting
    ensures AppendReq(0, "B", SHORT) in Last(pl').net && Last(pl').calls == map[0 := AppendCall("A", "B", SHORT)]
  {
    PutsFirst();
    SendsBoth();
    var p1 := Accepts(pl, "A", PUT, A3T);
    Recast(A2T, B1, C0, A3T);
    pl' := Sends(p1, "A", "B", SHORT);
  }

  lemma SecondEntry(pl: Play) returns (pl': Play)
    requires Scene(pl, 5, A3T, B1, C0, 1) && Last(pl).compacting
    requires AppendReq(0, "B", SHORT) in Last(pl).net && Last(pl).calls == map[0 := AppendCall("A", "B", SHORT)]
    ensures Overtured(pl', A4T, B1, C0, 7) && pl'.strict == pl.strict
  {
    PutsSecond();
    SendsBoth();
    var p1 := Accepts(pl, "A", OTHER, A4T);
    Recast(A3T, B1, C0, A4T);
    pl' := Sends(p1, "A", "C", LONG);
  }

  /** A is elected and takes two writes. */
  lemma Overture() returns (pl: Play)
    ensures Overtured(pl, A4T, B1, C0, 7) && pl.strict
  {
    var p0 := Opening(true, true, 2);
    Stands();
    Wins();
    var p1 := Elects(p0, "A", "B", Tight(A1, 2), B1, A2T);
    Recast(Tight(A0, 2), B0, C0, A2T);
    Recast(A2T, B0, C0, B1);
    var p2 := FirstEntry(p1);
    pl := SecondEntry(p2);
  }

  const A6T := Cut(Leads(LXY, 3, Per(4, 4, 1), Per(3, 3, 0)), KY)
  const B3T := Follows("B", 1, "A", LXY, 2, "A").(kv := KX)
  const C2T := Follows("C", 1, "", LXY, 3, "A").(kv := KY)
  const REST := AppendRequest(1, "A", 2, 1, [Y], 2)
  const BEAT := AppendRequest(1, "A", 3, 1, [], 3)

  lemma SendsRest()
    ensures MakeAppend(A5T, "B") == (A5T, Some(REST)) && ProbeOf(A6T) == BEAT
    ensures MakeSnapshot(A5T) == IMAGE && A5T.log[..A5T.snap + 1] == LX
  {
    assert LXY[3..] == [Y];
  }

  lemma TakesRest()
    ensures OnAppend(B2T, REST) == (B3T, AppendResponse(1, true))
  {
    assert LX[..3] + [Y] == LXY;
    Folds(LXY, 0, 3);
    Replays();
    var n := Heard(B2T, 1, "A").(log := LXY);
    assert TakeEntries(Heard(B2T, 1, "A"), REST) == n;
    assert ApplyCommitted(n.(commit := 2)) == B3T;
  }

  lemma CommitsRest(m: Node)
    requires m == A5T.(matchIndex := Per(3, 3, 0), nextIndex := Per(4, 4, 1))
    ensures AdvanceCommit(m) == m.(commit := 3)
  {
    Three();
    HeldByTwo(m, 3, "A", "B");
  }

  lemma CountsRest()
    ensures OnAppendResponse(A5T, "B", REST, AppendResponse(1, true)) == A6T
  {
    var m := A5T.(matchIndex := Per(3, 3, 0), nextIndex := Per(4, 4, 1));
    assert Per(3, 2, 0)["B" := 3] == Per(3, 3, 0) && Per(4, 3, 1)["B" := 4] == Per(4, 4, 1);
    CommitsRest(m);
    Replays();
    assert Catchup(AdvanceCommit(m)) == m.(commit := 3, applied := 3, kv := KY);
  }

  lemma Beats()
    ensures OnAppend(C1T, BEAT) == (C2T, AppendResponse(1, true))
  {
    Replays();
    Folds(LXY, 0, 3);
    var n := Heard(C1T, 1, "A");
    assert Merge(LXY, 4, []) == LXY;
    assert TakeEntries(n, BEAT) == n;
    assert ApplyCommitted(n.(commit := 3)) == C2T;
  }

  /** C takes both writes, though A does not hear so. */
  lemma Act(pl: Play) returns (pl': Play)
    requires Overtured(pl, A4T, B1, C0, 7)
    ensures Scene(pl', 9, A4T, B1, C1T, 2) && pl'.strict == pl.strict && Last(pl').compacting
    ensures Last(pl').calls == map[0 := AppendCall("A", "B", SHORT)] && AppendReq(0, "B", SHORT) in Last(pl').net
  {
    TakesBoth();
    var p1 := Receives(pl, AppendReq(1, "C", LONG));
    Recast(A4T, B1, C0, C1T);
    pl' := Drops(p1, 1);
  }

  /** A commits one of them with B, and compacts. */
  lemma SecondAct(pl: Play) returns (pl': Play)
    requires Scene(pl, 9, A4T, B1, C1T, 2) && Last(pl).compacting
    requires Last(pl).calls == map[0 := AppendCall("A", "B", SHORT)] && AppendReq(0, "B", SHORT) in Last(pl).net
    ensures Scene(pl', 11, A5T, B2T, C1T, 2) && pl'.strict == pl.strict && Last(pl').compacting && Last(pl').calls == map[]
  {
    TakesBoth();
    Compacts();
    pl' := Answers(pl, 0, "A", "B", SHORT, B2T, A5T);
    Recast(A4T, B1, C1T, B2T);
    Recast(A4T, B2T, C1T, A5T);
  }

  /** A sends C its snapshot. */
  lemma ThirdAct(pl: Play) returns (pl': Play)
    requires Scene(pl, 11, A5T, B2T, C1T, 2) && Last(pl).compacting && Last(pl).calls == map[]
    ensures Scene(pl', 12, A5T, B2T, C1T, 3) && pl'.strict == pl.strict && SnapReq(2, "C", IMAGE, LX) in Last(pl').net
    ensures Free(pl', "A", "B")
  {
    SendsRest();
    pl' := SendsImage(pl, "A", "C");
  }

  /** A commits the other write with B. */
  lemma FourthAct(pl: Play) returns (pl': Play)
    requires Scene(pl, 12, A5T, B2T, C1T, 3) && SnapReq(2, "C", IMAGE, LX) in Last(pl).net && Free(pl, "A", "B")
    ensures Scene(pl', 15, A6T, B3T, C1T, 4) && pl'.strict == pl.strict && SnapReq(2, "C", IMAGE, LX) in Last(pl').net
  {
    SendsRest();
    TakesRest();
    CountsRest();
    pl' := Replicates(pl, "A", "B", REST, B3T, A6T);
    Recast(A5T, B2T, C1T, B3T);
    Recast(A5T, B3T, C1T, A6T);
  }

  /** A read at A makes C apply all three entries, before the snapshot arrives. */
  lemma FifthAct(pl: Play) returns (pl': Play)
    requires Scene(pl, 15, A6T, B3T, C1T, 4) && SnapReq(2, "C", IMAGE, LX) in Last(pl).net
    ensures Scene(pl', 20, A6T, B3T, C2T, 5) && pl'.strict == pl.strict && SnapReq(2, "C", IMAGE, LX) in Last(pl').net
  {
    SendsRest();
    Beats();
    var p1 := Begins(pl, "A");
    var p2 := Checks(p1, 4);
    var p3 := Captures(p2, 4);
    var p4 := Probes(p3, 4, "C");
    pl' := Receives(p4, ProbeReq(4, "C", BEAT));
    Recast(A6T, B3T, C1T, C2T);
  }

  lemma FiveActs() returns (pl: Play)
    ensures Scene(pl, 20, A6T, B3T, C2T, 5) && pl.strict && SnapReq(2, "C", IMAGE, LX) in Last(pl).net
  {
    var p0 := Overture();
    var p1 := Act(p0);
    var p2 := SecondAct(p1);
    var p3 := ThirdAct(p2);
    var p4 := FourthAct(p3);
    pl := FifthAct(p4);
  }

  /** In a run, a node may take a snapshot behind what it has applied: its applied index falls and
      its map forgets a write that it had shown. */
  lemma AppliedMayGoBack() returns (cs: seq<Cluster>, ss: seq<Step>, i: nat, v: Id)
    ensures Run(cs, ss) && i < |ss| && v in cs[i].nodes && v in cs[i + 1].nodes && SetsNodeBack(cs[i], ss[i], v)
    ensures cs[i + 1].nodes[v].applied < cs[i].nodes[v].applied
    ensures cs[i].nodes[v].kv == map["k" := "w"] && cs[i + 1].nodes[v].kv == map["k" := "v"]
  {
    var p5 := FiveActs();
    var pl := Receives(p5, SnapReq(2, "C", IMAGE, LX));
    assert Seen(pl, true);
    cs, ss, i, v := pl.cs, pl.ss, 20, "C";
  }
}
