/** Building runs of the cluster step by step. */
module Stage {
  import opened RaftTypes
  import opened History
  import opened NodeSpec
  import opened Cluster
  import opened Safety
  import opened Commits
  import opened Loose
  import opened Scenario

  /** A run in the making; a strict one keeps the condition on outstanding calls. */
  datatype Play = Play(strict: bool, cs: seq<Cluster>, ss: seq<Step>)

  /** The play is a run; proofs that need to know what that means mention `Seen`. */
  ghost predicate Played(pl: Play) {
    && |pl.cs| == |pl.ss| + 1
    && forall k {:trigger Seen(pl, k)} :: Seen(pl, k) ==> if pl.strict then Run(pl.cs, pl.ss) else LooseRun(pl.cs, pl.ss)
  }

  ghost predicate Seen(pl: Play, k: bool) { true }

  function Last(pl: Play): Cluster
    requires |pl.cs| == |pl.ss| + 1
  {
    pl.cs[|pl.ss|]
  }

  /** `pl'` continues `pl` by `k` steps. */
  ghost predicate Continues(pl: Play, k: nat, pl': Play) {
    && Played(pl) && Played(pl') && pl'.strict == pl.strict && |pl'.ss| == |pl.ss| + k
    && pl.cs <= pl'.cs && pl.ss <= pl'.ss
    && Last(pl').compacting == Last(pl).compacting && Last(pl).net <= Last(pl').net
  }

  ghost predicate Legal(pl: Play, s: Step)
    requires |pl.cs| == |pl.ss| + 1
  {
    if pl.strict then Enabled(Last(pl), s) else Able(Last(pl), s)
  }

  lemma Extend(pl: Play, s: Step) returns (pl': Play)
    requires Played(pl) && Legal(pl, s)
    ensures AllSane(Last(pl)) && Played(pl') && pl'.strict == pl.strict
    ensures pl'.ss == pl.ss + [s] && pl'.cs == pl.cs + [After(Last(pl), s)]
  {
    assert Seen(pl, true);
    if pl.strict {
      RunIsLoose(pl.cs, pl.ss);
    }
    SaneHolds(pl.cs, pl.ss, |pl.ss|);
    pl' := Play(pl.strict, pl.cs + [After(Last(pl), s)], pl.ss + [s]);
    if pl.strict {
      RunLonger(pl.cs, pl.ss, s);
    } else {
      LooseLonger(pl.cs, pl.ss, s);
    }
  }

  // ---------------------------------------------------------------- deliveries

  /** The reply that a delivery sends. */
  ghost predicate Answered(n: Node, pkt: Packet, net: set<Packet>)
    requires |n.log| > 0
  {
    match pkt
    case VoteReq(to, req) => VoteRsp(to, req.candidate, req.term, OnVoteRequest(n, req).1) in net
    case AppendReq(id, to, req) => AppendRsp(id, to, req.leader, req, OnAppend(n, req).1) in net
    case ProbeReq(r, to, req) => ProbeRsp(r, to, req.leader, OnAppend(n, req).1) in net
    case _ => true
  }

  lemma Receives(pl: Play, pkt: Packet) returns (pl': Play)
    requires Played(pl) && pkt in Last(pl).net && pkt.to in Last(pl).nodes
    requires !pkt.SnapRsp? && !pkt.ProbeRsp? && (pkt.AppendRsp? ==> pkt.id in Last(pl).calls)
    requires pkt.SnapReq? ==> |pkt.prefix| == pkt.snapshot.lastIndex + 1
    ensures Continues(pl, 1, pl') && pl'.ss == pl.ss + [Deliver(pkt)] && |Last(pl).nodes[pkt.to].log| > 0
    ensures Last(pl').nodes == Last(pl).nodes[pkt.to := Handled(Last(pl).nodes[pkt.to], pkt)]
    ensures Last(pl').issued == Last(pl).issued && Last(pl').queries == Last(pl).queries
    ensures Last(pl').calls == if pkt.AppendRsp? then Last(pl).calls - {pkt.id} else Last(pl).calls
    ensures Answered(Last(pl).nodes[pkt.to], pkt, Last(pl').net)
  {
    pl' := Extend(pl, Deliver(pkt));
    DeliverIsHandled(Last(pl), pkt);
    DeliverKeeps(Last(pl), pkt);
  }

  /** What every delivery but that of a reply to a snapshot or a probe leaves alone. */
  ghost predicate Delivered(c: Cluster, pkt: Packet, c': Cluster)
    requires pkt.to in c.nodes && |c.nodes[pkt.to].log| > 0
  {
    && c'.members == c.members && c'.compacting == c.compacting && c.net <= c'.net
    && c'.issued == c.issued && c'.queries == c.queries
    && c'.calls == (if pkt.AppendRsp? then c.calls - {pkt.id} else c.calls)
    && Answered(c.nodes[pkt.to], pkt, c'.net)
  }

  lemma VoteKeeps(c: Cluster, pkt: Packet)
    requires pkt.to in c.nodes && |c.nodes[pkt.to].log| > 0 && (pkt.VoteReq? || pkt.VoteRsp?)
    ensures Delivered(c, pkt, DoDeliver(c, pkt))
  {
  }

  lemma RequestKeeps(c: Cluster, pkt: Packet)
    requires pkt.to in c.nodes && |c.nodes[pkt.to].log| > 0 && (pkt.AppendReq? || pkt.ProbeReq?)
    ensures Delivered(c, pkt, DoDeliver(c, pkt))
  {
  }

  lemma DeliverKeeps(c: Cluster, pkt: Packet)
    requires pkt.to in c.nodes && |c.nodes[pkt.to].log| > 0 && !pkt.SnapRsp? && !pkt.ProbeRsp?
    requires pkt.SnapReq? ==> |pkt.prefix| == pkt.snapshot.lastIndex + 1
    ensures Delivered(c, pkt, DoDeliver(c, pkt))
  {
    if pkt.VoteReq? || pkt.VoteRsp? {
      VoteKeeps(c, pkt);
    } else if pkt.AppendReq? || pkt.ProbeReq? {
      RequestKeeps(c, pkt);
    }
  }

  // ---------------------------------------------------------------- local steps

  lemma TimesOut(pl: Play, v: Id) returns (pl': Play)
    requires Played(pl) && v in Last(pl).nodes && Last(pl).nodes[v].role != Leader
    requires |Last(pl).nodes[v].log| > 0 && StartElection(Last(pl).nodes[v]) == Campaigner(Last(pl).nodes[v])
    ensures Continues(pl, 1, pl') && pl'.ss == pl.ss + [Timeout(v)]
    ensures Last(pl').nodes == Last(pl).nodes[v := Campaigner(Last(pl).nodes[v])]
    ensures Last(pl').issued == Last(pl).issued && Last(pl').queries == Last(pl).queries && Last(pl').calls == Last(pl).calls
    ensures forall p {:trigger VoteReq(p, VoteRequestOf(Campaigner(Last(pl).nodes[v])))} ::
              p in Last(pl).nodes[v].peers && p != Last(pl).nodes[v].id ==>
                VoteReq(p, VoteRequestOf(Campaigner(Last(pl).nodes[v]))) in Last(pl').net
  {
    pl' := Extend(pl, Timeout(v));
    TimeoutNodes(Last(pl), v);
    TimeoutKeeps(Last(pl), v);
  }

  lemma TimeoutKeeps(c: Cluster, v: Id)
    requires v in c.nodes && |c.nodes[v].log| > 0 && StartElection(c.nodes[v]) == Campaigner(c.nodes[v])
    ensures var c' := DoTimeout(c, v);
            && c'.members == c.members && c'.compacting == c.compacting && c'.net == c.net + Requests(Campaigner(c.nodes[v]))
            && c'.issued == c.issued && c'.queries == c.queries && c'.calls == c.calls
  {
  }

  lemma Accepts(pl: Play, v: Id, cmd: Command, n: Node) returns (pl': Play)
    requires Played(pl) && v in Last(pl).nodes && |Last(pl).nodes[v].log| > 0 && Propose(Last(pl).nodes[v], cmd).0 == n
    ensures Continues(pl, 1, pl') && pl'.ss == pl.ss + [ClientPut(v, cmd)] && Last(pl').nodes == Last(pl).nodes[v := n]
    ensures Last(pl').issued == Last(pl).issued && Last(pl').queries == Last(pl).queries && Last(pl').calls == Last(pl).calls
  {
    pl' := Extend(pl, ClientPut(v, cmd));
    PutNodes(Last(pl), v, cmd);
    PutKeeps(Last(pl), v, cmd);
  }

  lemma PutKeeps(c: Cluster, v: Id, cmd: Command)
    requires v in c.nodes && |c.nodes[v].log| > 0
    ensures var c' := DoPut(c, v, cmd);
            && c'.members == c.members && c'.compacting == c.compacting && c'.net == c.net
            && c'.issued == c.issued && c'.queries == c.queries && c'.calls == c.calls
  {
  }

  // ---------------------------------------------------------------- calls

  /** A strict play keeps to one call per peer and term. */
  ghost predicate Free(pl: Play, v: Id, p: Id)
    requires |pl.cs| == |pl.ss| + 1 && v in Last(pl).nodes
  {
    pl.strict && Compacts(Last(pl).nodes[v]) ==>
      forall id {:trigger Pending(Last(pl).calls, id, v, p, Last(pl).nodes[v].term)} ::
        !Pending(Last(pl).calls, id, v, p, Last(pl).nodes[v].term)
  }

  lemma Sends(pl: Play, v: Id, p: Id, req: AppendRequest) returns (pl': Play)
    requires Played(pl) && v in Last(pl).nodes && Last(pl).nodes[v].role == Leader && Free(pl, v, p)
    requires Sane(Last(pl).nodes[v]) && !ShouldInstall(Last(pl).nodes[v], p) && p in Last(pl).nodes[v].peers && p != v
    requires MakeAppend(Last(pl).nodes[v], p) == (Last(pl).nodes[v], Some(req))
    ensures Continues(pl, 1, pl') && pl'.ss == pl.ss + [CallAppend(v, p)] && Last(pl').nodes == Last(pl).nodes
    ensures AppendReq(Last(pl).issued, p, req) in Last(pl').net && Last(pl').issued == Last(pl).issued + 1
    ensures Last(pl').calls == Last(pl).calls[Last(pl).issued := AppendCall(v, p, req)] && Last(pl').queries == Last(pl).queries
  {
    pl' := Extend(pl, CallAppend(v, p));
    assert Last(pl).nodes[v := Last(pl).nodes[v]] == Last(pl).nodes;
  }

  lemma SendsImage(pl: Play, v: Id, p: Id) returns (pl': Play)
    requires Played(pl) && v in Last(pl).nodes && Last(pl).nodes[v].role == Leader && Free(pl, v, p)
    requires Sane(Last(pl).nodes[v]) && ShouldInstall(Last(pl).nodes[v], p) && p in Last(pl).nodes[v].peers && p != v
    ensures Continues(pl, 1, pl') && pl'.ss == pl.ss + [CallSnapshot(v, p)] && Last(pl').nodes == Last(pl).nodes
    ensures var n := Last(pl).nodes[v];
            && SnapReq(Last(pl).issued, p, MakeSnapshot(n), n.log[..n.snap + 1]) in Last(pl').net
            && Last(pl').calls == Last(pl).calls[Last(pl).issued := SnapCall(v, p, MakeSnapshot(n))]
    ensures Last(pl').issued == Last(pl).issued + 1 && Last(pl').queries == Last(pl).queries
  {
    pl' := Extend(pl, CallSnapshot(v, p));
  }

  lemma Drops(pl: Play, id: nat) returns (pl': Play)
    requires Played(pl) && id in Last(pl).calls
    ensures Continues(pl, 1, pl') && pl'.ss == pl.ss + [DropCall(id)]
    ensures Last(pl').nodes == Last(pl).nodes && Last(pl').calls == Last(pl).calls - {id}
    ensures Last(pl').issued == Last(pl).issued && Last(pl').queries == Last(pl).queries
  {
    pl' := Extend(pl, DropCall(id));
  }

  // ---------------------------------------------------------------- the steps of a read

  lemma Begins(pl: Play, v: Id) returns (pl': Play)
    requires Played(pl) && v in Last(pl).nodes
    ensures Continues(pl, 1, pl') && pl'.ss == pl.ss + [BeginRead(v)]
    ensures Last(pl').nodes == Last(pl).nodes && Last(pl').calls == Last(pl).calls && Last(pl').issued == Last(pl).issued + 1
    ensures Last(pl').queries == Last(pl).queries[Last(pl).issued := Read(v, Waiting, Last(pl).h.reigns, 0, 0, 0, {})]
  {
    pl' := Extend(pl, BeginRead(v));
  }

  lemma Checks(pl: Play, r: nat) returns (pl': Play)
    requires Played(pl) && Able(Last(pl), CheckRead(r))
    ensures Continues(pl, 1, pl') && Last(pl').nodes == Last(pl).nodes && Last(pl').calls == Last(pl).calls
    ensures Last(pl').issued == Last(pl).issued
    ensures var q := Last(pl).queries[r];
            Last(pl').queries == Last(pl).queries[r := q.(phase := Checked, checkTerm := Last(pl).nodes[q.node].term)]
  {
    pl' := Extend(pl, CheckRead(r));
  }

  lemma Captures(pl: Play, r: nat) returns (pl': Play)
    requires Played(pl) && Able(Last(pl), CaptureRead(r))
    ensures Continues(pl, 1, pl') && Last(pl').nodes == Last(pl).nodes && Last(pl').calls == Last(pl).calls
    ensures Last(pl').issued == Last(pl).issued
    ensures var q := Last(pl).queries[r];
            var n := Last(pl).nodes[q.node];
            Last(pl').queries == Last(pl).queries[r := q.(phase := Captured, term := n.term, index := n.commit)]
  {
    pl' := Extend(pl, CaptureRead(r));
  }

  lemma Probes(pl: Play, r: nat, p: Id) returns (pl': Play)
    requires Played(pl) && Able(Last(pl), Probe(r, p)) && |Last(pl).nodes[Last(pl).queries[r].node].log| > 0
    ensures Continues(pl, 1, pl') && Last(pl').nodes == Last(pl).nodes && Last(pl').calls == Last(pl).calls
    ensures Last(pl').issued == Last(pl).issued && Last(pl').queries == Last(pl).queries
    ensures ProbeReq(r, p, ProbeOf(Last(pl).nodes[Last(pl).queries[r].node])) in Last(pl').net
  {
    pl' := Extend(pl, Probe(r, p));
  }

  lemma Hears(pl: Play, pkt: Packet) returns (pl': Play)
    requires Played(pl) && pkt in Last(pl).net && pkt.ProbeRsp? && pkt.to in Last(pl).nodes && pkt.read in Last(pl).queries
    requires var q, n := Last(pl).queries[pkt.read], Last(pl).nodes[pkt.to];
             q.node == pkt.to && q.phase == Captured && pkt.appendResp.term <= n.term && n.role == Leader && n.term == q.term
    ensures Continues(pl, 1, pl') && Last(pl').nodes == Last(pl).nodes && Last(pl').calls == Last(pl).calls
    ensures Last(pl').issued == Last(pl).issued
    ensures var q := Last(pl).queries[pkt.read];
            Last(pl').queries == Last(pl).queries[pkt.read := q.(acks := q.acks + {pkt.from})]
  {
    pl' := Extend(pl, Deliver(pkt));
    assert Last(pl).nodes[pkt.to := Last(pl).nodes[pkt.to]] == Last(pl).nodes;
  }

  // ---------------------------------------------------------------- elections and replication

  /** `v` times out, `w` votes for it, and that is enough. */
  lemma Elects(pl: Play, v: Id, w: Id, cand: Node, w': Node, v': Node) returns (pl': Play)
    requires Played(pl) && v in Last(pl).nodes && w in Last(pl).nodes && v != w
    requires
      var n, m := Last(pl).nodes[v], Last(pl).nodes[w];
      && n.role != Leader && |n.log| > 0 && |m.log| > 0 && n.id == v && w in n.peers
      && cand == Campaigner(n) && StartElection(n) == cand
      && OnVoteRequest(m, VoteRequestOf(cand)) == (w', VoteResponse(cand.term, true))
      && OnVoteResponse(cand, w, cand.term, VoteResponse(cand.term, true)) == v'
    ensures Continues(pl, 3, pl') && Last(pl').nodes == Last(pl).nodes[v := v'][w := w']
    ensures Last(pl').issued == Last(pl).issued && Last(pl').queries == Last(pl).queries && Last(pl').calls == Last(pl).calls
  {
    var p1 := TimesOut(pl, v);
    var ask := VoteReq(w, VoteRequestOf(cand));
    assert ask in Last(p1).net;
    pl' := Polled(p1, v, w, cand, w', v');
    Overwritten(Last(pl).nodes, v, w, cand, w', v');
  }

  lemma Polled(pl: Play, v: Id, w: Id, cand: Node, w': Node, v': Node) returns (pl': Play)
    requires Played(pl) && v in Last(pl).nodes && w in Last(pl).nodes && v != w
    requires Last(pl).nodes[v] == cand && |cand.log| > 0 && |Last(pl).nodes[w].log| > 0 && cand.id == v
    requires OnVoteRequest(Last(pl).nodes[w], VoteRequestOf(cand)) == (w', VoteResponse(cand.term, true))
    requires OnVoteResponse(cand, w, cand.term, VoteResponse(cand.term, true)) == v'
    requires VoteReq(w, VoteRequestOf(cand)) in Last(pl).net
    ensures Continues(pl, 2, pl') && Last(pl').nodes == Last(pl).nodes[w := w'][v := v']
    ensures Last(pl').issued == Last(pl).issued && Last(pl').queries == Last(pl).queries && Last(pl').calls == Last(pl).calls
  {
    var p1 := Receives(pl, VoteReq(w, VoteRequestOf(cand)));
    pl' := Receives(p1, VoteRsp(w, v, cand.term, VoteResponse(cand.term, true)));
  }

  lemma Overwritten(nodes: map<Id, Node>, v: Id, w: Id, x: Node, y: Node, z: Node)
    requires v != w
    ensures nodes[v := x][w := y][v := z] == nodes[v := z][w := y]
  {
  }

  /** A follower takes a request and its leader hears so. */
  lemma Answers(pl: Play, id: nat, v: Id, p: Id, req: AppendRequest, p': Node, v': Node) returns (pl': Play)
    requires Played(pl) && v in Last(pl).nodes && p in Last(pl).nodes && v != p && id in Last(pl).calls
    requires AppendReq(id, p, req) in Last(pl).net && req.leader == v
    requires |Last(pl).nodes[v].log| > 0 && |Last(pl).nodes[p].log| > 0
    requires OnAppend(Last(pl).nodes[p], req) == (p', AppendResponse(req.term, true))
    requires OnAppendResponse(Last(pl).nodes[v], p, req, AppendResponse(req.term, true)) == v'
    ensures Continues(pl, 2, pl') && Last(pl').nodes == Last(pl).nodes[p := p'][v := v']
    ensures Last(pl').issued == Last(pl).issued && Last(pl').queries == Last(pl).queries && Last(pl').calls == Last(pl).calls - {id}
  {
    var p1 := Receives(pl, AppendReq(id, p, req));
    pl' := Receives(p1, AppendRsp(id, p, v, req, AppendResponse(req.term, true)));
  }

  /** `v` sends its entries to `p`, which takes them and answers. */
  lemma Replicates(pl: Play, v: Id, p: Id, req: AppendRequest, p': Node, v': Node) returns (pl': Play)
    requires Played(pl) && v in Last(pl).nodes && p in Last(pl).nodes && v != p && Free(pl, v, p)
    requires
      var n, m := Last(pl).nodes[v], Last(pl).nodes[p];
      && n.role == Leader && Sane(n) && !ShouldInstall(n, p) && p in n.peers && |m.log| > 0
      && MakeAppend(n, p) == (n, Some(req)) && req.leader == v
      && OnAppend(m, req) == (p', AppendResponse(req.term, true))
      && OnAppendResponse(n, p, req, AppendResponse(req.term, true)) == v'
    ensures Continues(pl, 3, pl') && Last(pl').nodes == Last(pl).nodes[p := p'][v := v']
    ensures Last(pl').issued == Last(pl).issued + 1 && Last(pl').queries == Last(pl).queries
    ensures Last(pl').calls == Last(pl).calls - {Last(pl).issued}
  {
    var p1 := Sends(pl, v, p, req);
    pl' := Answers(p1, Last(pl).issued, v, p, req, p', v');
  }

  // ---------------------------------------------------------------- three nodes

  function Trio(a: Node, b: Node, c: Node): map<Id, Node> { map["A" := a, "B" := b, "C" := c] }

  lemma Recast(a: Node, b: Node, c: Node, n: Node)
    ensures Trio(a, b, c)["A" := n] == Trio(n, b, c)
    ensures Trio(a, b, c)["B" := n] == Trio(a, n, c)
    ensures Trio(a, b, c)["C" := n] == Trio(a, b, n)
  {
  }

  ghost predicate Scene(pl: Play, steps: nat, a: Node, b: Node, c: Node, issued: nat) {
    && Played(pl) && |pl.ss| == steps
    && Last(pl).nodes == Trio(a, b, c) && Last(pl).issued == issued
  }

  function Curtain(compacting: bool, a: Node, b: Node, c: Node): Cluster {
    Cluster({"A", "B", "C"}, compacting, Trio(a, b, c), {}, map[], 0, History(map[], map[], {}, {}), {}, map[])
  }

  lemma CurtainBooted(compacting: bool, a: Node, b: Node, c: Node)
    requires a == Boot("A", a.threshold, false, CFG) && b == Boot("B", 0, false, CFG) && c == Boot("C", 0, false, CFG)
    requires a.threshold > 0 ==> compacting
    ensures Booted(Curtain(compacting, a, b, c), CFG)
  {
  }

  lemma CurtainInitial(c: Cluster)
    requires c.members == {"A", "B", "C"} && c.nodes.Keys == {"A", "B", "C"} && Booted(c, CFG)
    requires c.net == {} && c.calls == map[] && c.applied == {} && c.queries == map[] && c.h == History(map[], map[], {}, {})
    ensures Initial(c)
  {
    assert CFG.Keys == {"A", "B", "C"};
  }

  lemma Opening(strict: bool, compacting: bool, ta: nat) returns (pl: Play)
    requires ta > 0 ==> compacting
    ensures Scene(pl, 0, Boot("A", ta, false, CFG), Boot("B", 0, false, CFG), Boot("C", 0, false, CFG), 0)
    ensures pl.strict == strict && Last(pl).compacting == compacting && Last(pl).calls == map[]
  {
    var a, b, d := Boot("A", ta, false, CFG), Boot("B", 0, false, CFG), Boot("C", 0, false, CFG);
    var c := Curtain(compacting, a, b, d);
    CurtainBooted(compacting, a, b, d);
    CurtainInitial(c);
    pl := Play(strict, [c], []);
  }
}
