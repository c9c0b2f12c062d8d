/** Building executions step by step, along a play of the cluster. */
module WorkStage {
  import opened RaftTypes
  import opened NodeSpec
  import opened Cluster
  import opened Commits
  import opened Loose
  import opened Workers
  import opened Stage

  datatype Show = Show(pl: Play, ws: seq<World>, ms: seq<Move>)

  /** The show is an execution whose cluster stands where the play stands. */
  ghost predicate Shown(sh: Show) {
    && Played(sh.pl) && !sh.pl.strict
    && |sh.ws| == |sh.ms| + 1 && sh.ws[|sh.ms|].c == Last(sh.pl)
    && forall k {:trigger Watched(sh, k)} :: Watched(sh, k) ==> Execution(sh.ws, sh.ms)
  }

  ghost predicate Watched(sh: Show, k: bool) { true }

  function Now(sh: Show): World
    requires |sh.ws| == |sh.ms| + 1
  {
    sh.ws[|sh.ms|]
  }

  /** `sh'` continues `sh` by the given moves. */
  ghost predicate GoesOnBy(sh: Show, moves: seq<Move>, sh': Show) {
    Shown(sh) && Shown(sh') && sh'.ms == sh.ms + moves && sh.ws <= sh'.ws
  }

  lemma Longer(ws: seq<World>, ms: seq<Move>, m: Move, w': World)
    requires Execution(ws, ms) && MoveTo(ws[|ms|], m, w')
    ensures Execution(ws + [w'], ms + [m])
  {
    forall i: nat
      ensures MoveAt(ws + [w'], ms + [m], i)
    {
      if i < |ms| {
        MoveStays(ws, ms, ws + [w'], ms + [m], i);
      }
    }
  }

  lemma MoveStays(ws: seq<World>, ms: seq<Move>, ws': seq<World>, ms': seq<Move>, i: nat)
    requires Execution(ws, ms) && ws <= ws' && ms <= ms' && |ws'| == |ms'| + 1 && i < |ms|
    ensures MoveAt(ws', ms', i)
  {
    assert MoveAt(ws, ms, i);
  }

  /** The play has taken the step that the move is. */
  lemma Along(sh: Show, m: Move, pl': Play) returns (sh': Show)
    requires Shown(sh) && Possible(Now(sh), m) && StepOf(Now(sh), m).Some?
    requires Continues(sh.pl, 1, pl') && pl'.ss == sh.pl.ss + [StepOf(Now(sh), m).value]
    ensures GoesOnBy(sh, [m], sh') && sh'.pl == pl' && Now(sh') == Moved(Now(sh), m, Last(pl'))
  {
    var n, w' := |sh.pl.ss|, Moved(Now(sh), m, Last(pl'));
    LastStep(sh.pl, pl', StepOf(Now(sh), m).value);
    MovedCluster(Now(sh), m, Last(pl'));
    assert Watched(sh, true);
    Longer(sh.ws, sh.ms, m, w');
    sh' := Show(pl', sh.ws + [w'], sh.ms + [m]);
  }

  lemma LastStep(pl: Play, pl': Play, s: Step)
    requires Continues(pl, 1, pl') && !pl.strict && pl'.ss == pl.ss + [s]
    ensures AllSane(Last(pl)) && Able(Last(pl), s) && Last(pl') == After(Last(pl), s)
  {
    assert Seen(pl', true);
    SaneHolds(pl'.cs, pl'.ss, |pl.ss|);
    assert LooseStepAt(pl'.cs, pl'.ss, |pl.ss|);
  }

  /** A move that is no step of the cluster. */
  lemma Meanwhile(sh: Show, m: Move) returns (sh': Show)
    requires Shown(sh) && Possible(Now(sh), m) && StepOf(Now(sh), m).None?
    ensures GoesOnBy(sh, [m], sh') && sh'.pl == sh.pl && Now(sh') == Moved(Now(sh), m, Now(sh).c)
  {
    MovedCluster(Now(sh), m, Now(sh).c);
    assert Watched(sh, true);
    Longer(sh.ws, sh.ms, m, Moved(Now(sh), m, Now(sh).c));
    sh' := Show(sh.pl, sh.ws + [Moved(Now(sh), m, Now(sh).c)], sh.ms + [m]);
  }

  lemma FirstMoment(pl: Play) returns (sh: Show)
    requires Played(pl) && !pl.strict && pl.ss == []
    ensures Shown(sh) && sh.pl == pl && sh.ms == [] && Now(sh) == World(Last(pl), map[], {}, 0)
  {
    assert Seen(pl, true);
    sh := Show(pl, [World(Last(pl), map[], {}, 0)], []);
  }

  // ---------------------------------------------------------------- what goroutines see of it

  /** Neither goroutines nor flags change. */
  ghost predicate SameJobs(w: World, w': World) {
    w'.jobs == w.jobs && w'.replicating == w.replicating && w'.clock == w.clock
  }

  ghost predicate SameFlags(w: World, w': World) { w'.replicating == w.replicating && w'.clock == w.clock }

  /** A step that elects nobody, appends nothing of a leader's own and is no crash. */
  lemma Quietly(sh: Show, s: Step, pl': Play) returns (sh': Show)
    requires Shown(sh) && !OfJobs(s) && !s.Crash? && !s.ClientPut?
    requires Continues(sh.pl, 1, pl') && pl'.ss == sh.pl.ss + [s] && !Elected(Last(sh.pl), Last(pl'), ActorOf(s))
    ensures GoesOnBy(sh, [Acts(s)], sh') && sh'.pl == pl' && SameJobs(Now(sh), Now(sh'))
  {
    sh' := Along(sh, Acts(s), pl');
  }

  /** `v` times out and `w` votes for it. */
  lemma Asks(sh: Show, v: Id, w: Id, cand: Node, w': Node) returns (sh': Show)
    requires Shown(sh) && v in Last(sh.pl).nodes && w in Last(sh.pl).nodes && v != w
    requires
      var n, m := Last(sh.pl).nodes[v], Last(sh.pl).nodes[w];
      && n.role != Leader && w'.role != Leader
      && |n.log| > 0 && |m.log| > 0 && n.id == v && w in n.peers
      && cand == Campaigner(n) && StartElection(n) == cand
      && OnVoteRequest(m, VoteRequestOf(cand)) == (w', VoteResponse(cand.term, true))
    ensures Shown(sh') && |sh'.ms| == |sh.ms| + 2 && sh.ms <= sh'.ms && sh.ws <= sh'.ws && SameJobs(Now(sh), Now(sh'))
    ensures Last(sh'.pl).nodes == Last(sh.pl).nodes[v := cand][w := w']
    ensures Last(sh'.pl).issued == Last(sh.pl).issued && Last(sh'.pl).calls == Last(sh.pl).calls && Last(sh.pl).net <= Last(sh'.pl).net
    ensures VoteRsp(w, v, cand.term, VoteResponse(cand.term, true)) in Last(sh'.pl).net
  {
    var p1 := TimesOut(sh.pl, v);
    var ask := VoteReq(w, VoteRequestOf(cand));
    assert ask in Last(p1).net;
    var s1 := Quietly(sh, Timeout(v), p1);
    var p2 := Receives(p1, ask);
    sh' := Quietly(s1, Deliver(ask), p2);
  }

  /** A step that makes `v` leader. */
  lemma Crowns(sh: Show, s: Step, pl': Play, v: Id) returns (sh': Show)
    requires Shown(sh) && !OfJobs(s) && !s.Crash? && ActorOf(s) == v
    requires Continues(sh.pl, 1, pl') && pl'.ss == sh.pl.ss + [s] && Elected(Last(sh.pl), Last(pl'), v)
    ensures GoesOnBy(sh, [Acts(s)], sh') && sh'.pl == pl' && Now(sh') == Broadcast(Cleared(Now(sh).(c := Last(pl')), v), v)
  {
    sh' := Along(sh, Acts(s), pl');
  }

  lemma Carries(sh: Show, v: Id, w: Id, cand: Node, v': Node) returns (sh': Show)
    requires Shown(sh) && v in Last(sh.pl).nodes && Last(sh.pl).nodes[v] == cand && |cand.log| > 0 && cand.role != Leader
    requires VoteRsp(w, v, cand.term, VoteResponse(cand.term, true)) in Last(sh.pl).net
    requires OnVoteResponse(cand, w, cand.term, VoteResponse(cand.term, true)) == v' && v'.role == Leader
    ensures GoesOnBy(sh, [Acts(Deliver(VoteRsp(w, v, cand.term, VoteResponse(cand.term, true))))], sh')
    ensures Last(sh'.pl).nodes == Last(sh.pl).nodes[v := v']
    ensures Last(sh'.pl).issued == Last(sh.pl).issued && Last(sh'.pl).calls == Last(sh.pl).calls && Last(sh.pl).net <= Last(sh'.pl).net
    ensures Now(sh') == Broadcast(Cleared(Now(sh).(c := Last(sh'.pl)), v), v)
  {
    var pkt := VoteRsp(w, v, cand.term, VoteResponse(cand.term, true));
    var pl' := Receives(sh.pl, pkt);
    sh' := Crowns(sh, Deliver(pkt), pl', v);
  }

  /** `v` times out, `w` votes for it, and that is enough: `v` starts to replicate. */
  lemma Wins(sh: Show, v: Id, w: Id, cand: Node, w': Node, v': Node) returns (sh': Show)
    requires Shown(sh) && v in Last(sh.pl).nodes && w in Last(sh.pl).nodes && v != w
    requires
      var n, m := Last(sh.pl).nodes[v], Last(sh.pl).nodes[w];
      && n.role != Leader && m.role != Leader && w'.role != Leader && v'.role == Leader
      && |n.log| > 0 && |m.log| > 0 && n.id == v && w in n.peers
      && cand == Campaigner(n) && StartElection(n) == cand
      && OnVoteRequest(m, VoteRequestOf(cand)) == (w', VoteResponse(cand.term, true))
      && OnVoteResponse(cand, w, cand.term, VoteResponse(cand.term, true)) == v'
    ensures Shown(sh') && |sh'.ms| == |sh.ms| + 3 && sh.ms <= sh'.ms && sh.ws <= sh'.ws
    ensures Last(sh'.pl).nodes == Last(sh.pl).nodes[v := v'][w := w']
    ensures Last(sh'.pl).issued == Last(sh.pl).issued && Last(sh'.pl).calls == Last(sh.pl).calls && Last(sh.pl).net <= Last(sh'.pl).net
    ensures Now(sh') == Broadcast(Cleared(Now(sh).(c := Last(sh'.pl)), v), v)
    ensures SameJobs(Now(sh), sh'.ws[|sh.ms| + 2]) && sh'.ws[|sh.ms| + 2].c.calls == Now(sh).c.calls
    ensures Elected(sh'.ws[|sh.ms| + 2].c, sh'.ws[|sh.ms| + 3].c, v)
  {
    var s2 := Asks(sh, v, w, cand, w');
    sh' := Carries(s2, v, w, cand, v');
    Overwritten(Last(sh.pl).nodes, v, w, cand, w', v');
  }

  /** The goroutine `j` sends its peer the entries it lacks. */
  lemma Sends(sh: Show, j: Job, req: AppendRequest) returns (sh': Show)
    requires Shown(sh) && Possible(Now(sh), Looks(j)) && Last(sh.pl).nodes[j.node].role == Leader
    requires Sane(Last(sh.pl).nodes[j.node]) && !ShouldInstall(Last(sh.pl).nodes[j.node], j.peer)
    requires j.peer in Last(sh.pl).nodes[j.node].peers && j.peer != j.node
    requires MakeAppend(Last(sh.pl).nodes[j.node], j.peer) == (Last(sh.pl).nodes[j.node], Some(req))
    ensures GoesOnBy(sh, [Looks(j)], sh') && Last(sh'.pl).nodes == Last(sh.pl).nodes
    ensures AppendReq(Last(sh.pl).issued, j.peer, req) in Last(sh'.pl).net && Last(sh'.pl).issued == Last(sh.pl).issued + 1
    ensures Last(sh'.pl).calls == Last(sh.pl).calls[Last(sh.pl).issued := AppendCall(j.node, j.peer, req)]
    ensures Last(sh.pl).net <= Last(sh'.pl).net
    ensures Now(sh').jobs == Now(sh).jobs[j := Calling(Last(sh.pl).issued)] && SameFlags(Now(sh), Now(sh'))
  {
    var pl' := Stage.Sends(sh.pl, j.node, j.peer, req);
    sh' := Along(sh, Looks(j), pl');
  }

  /** The goroutine `j` sends its peer the snapshot. */
  lemma SendsImage(sh: Show, j: Job) returns (sh': Show)
    requires Shown(sh) && Possible(Now(sh), Looks(j)) && Last(sh.pl).nodes[j.node].role == Leader
    requires Sane(Last(sh.pl).nodes[j.node]) && ShouldInstall(Last(sh.pl).nodes[j.node], j.peer)
    requires j.peer in Last(sh.pl).nodes[j.node].peers && j.peer != j.node
    ensures GoesOnBy(sh, [Looks(j)], sh') && Last(sh'.pl).nodes == Last(sh.pl).nodes
    ensures var n := Last(sh.pl).nodes[j.node];
            && SnapReq(Last(sh.pl).issued, j.peer, MakeSnapshot(n), n.log[..n.snap + 1]) in Last(sh'.pl).net
            && Last(sh'.pl).calls == Last(sh.pl).calls[Last(sh.pl).issued := SnapCall(j.node, j.peer, MakeSnapshot(n))]
    ensures Last(sh'.pl).issued == Last(sh.pl).issued + 1 && Last(sh.pl).net <= Last(sh'.pl).net
    ensures Now(sh').jobs == Now(sh).jobs[j := Calling(Last(sh.pl).issued)] && SameFlags(Now(sh), Now(sh'))
  {
    var pl' := Stage.SendsImage(sh.pl, j.node, j.peer);
    sh' := Along(sh, Looks(j), pl');
  }

  /** A packet that is no reply arrives, and makes nobody leader. */
  lemma Takes(sh: Show, pkt: Packet, n': Node) returns (sh': Show)
    requires Shown(sh) && pkt in Last(sh.pl).net && pkt.to in Last(sh.pl).nodes && !IsReply(pkt) && !pkt.ProbeRsp?
    requires pkt.SnapReq? ==> |pkt.prefix| == pkt.snapshot.lastIndex + 1
    requires |Last(sh.pl).nodes[pkt.to].log| > 0 && Handled(Last(sh.pl).nodes[pkt.to], pkt) == n' && n'.role != Leader
    ensures GoesOnBy(sh, [Acts(Deliver(pkt))], sh') && SameJobs(Now(sh), Now(sh'))
    ensures Last(sh'.pl).nodes == Last(sh.pl).nodes[pkt.to := n'] && Last(sh'.pl).calls == Last(sh.pl).calls
    ensures Last(sh'.pl).issued == Last(sh.pl).issued && Last(sh.pl).net <= Last(sh'.pl).net
    ensures Answered(Last(sh.pl).nodes[pkt.to], pkt, Last(sh'.pl).net)
  {
    var pl' := Receives(sh.pl, pkt);
    sh' := Quietly(sh, Deliver(pkt), pl');
  }

  /** The goroutine `j` hears that its peer took the entries. */
  lemma Learns(sh: Show, j: Job, req: AppendRequest, id: nat, v': Node, next: Activity) returns (sh': Show)
    requires Shown(sh) && j in Now(sh).jobs && Now(sh).jobs[j] == Calling(id) && id in Last(sh.pl).calls
    requires j.node in Last(sh.pl).nodes && |Last(sh.pl).nodes[j.node].log| > 0
    requires
      var n, pkt := Last(sh.pl).nodes[j.node], AppendRsp(id, j.peer, j.node, req, AppendResponse(req.term, true));
      && pkt in Last(sh.pl).net && OnAppendResponse(n, j.peer, req, AppendResponse(req.term, true)) == v'
      && next == if GoesOn(n, pkt) then Looking else Ending
    ensures GoesOnBy(sh, [Hears(j, AppendRsp(id, j.peer, j.node, req, AppendResponse(req.term, true)))], sh')
    ensures Last(sh'.pl).nodes == Last(sh.pl).nodes[j.node := v'] && Last(sh'.pl).calls == Last(sh.pl).calls - {id}
    ensures Last(sh'.pl).issued == Last(sh.pl).issued && Last(sh.pl).net <= Last(sh'.pl).net
    ensures Now(sh').jobs == Now(sh).jobs[j := next] && SameFlags(Now(sh), Now(sh'))
  {
    var pkt := AppendRsp(id, j.peer, j.node, req, AppendResponse(req.term, true));
    var pl' := Receives(sh.pl, pkt);
    sh' := Along(sh, Hears(j, pkt), pl');
  }

  /** The peer of goroutine `j` takes the entries, and the goroutine hears so. */
  lemma Serves(sh: Show, j: Job, req: AppendRequest, id: nat, p': Node, v': Node, next: Activity) returns (sh': Show)
    requires Shown(sh) && j in Now(sh).jobs && Now(sh).jobs[j] == Calling(id) && id in Last(sh.pl).calls
    requires AppendReq(id, j.peer, req) in Last(sh.pl).net && req.leader == j.node && j.peer != j.node && p'.role != Leader
    requires j.node in Last(sh.pl).nodes && |Last(sh.pl).nodes[j.node].log| > 0
    requires j.peer in Last(sh.pl).nodes && |Last(sh.pl).nodes[j.peer].log| > 0
    requires
      var n, pkt := Last(sh.pl).nodes[j.node], AppendRsp(id, j.peer, j.node, req, AppendResponse(req.term, true));
      && OnAppend(Last(sh.pl).nodes[j.peer], req) == (p', AppendResponse(req.term, true))
      && OnAppendResponse(n, j.peer, req, AppendResponse(req.term, true)) == v'
      && next == if GoesOn(n, pkt) then Looking else Ending
    ensures Shown(sh') && |sh'.ms| == |sh.ms| + 2 && sh.ms <= sh'.ms && sh.ws <= sh'.ws
    ensures Last(sh'.pl).nodes == Last(sh.pl).nodes[j.peer := p'][j.node := v'] && Last(sh'.pl).calls == Last(sh.pl).calls - {id}
    ensures Last(sh'.pl).issued == Last(sh.pl).issued && Last(sh.pl).net <= Last(sh'.pl).net
    ensures Now(sh').jobs == Now(sh).jobs[j := next] && SameFlags(Now(sh), Now(sh'))
  {
    var s1 := Takes(sh, AppendReq(id, j.peer, req), p');
    sh' := Learns(s1, j, req, id, v', next);
  }

  /** A leader appends a client's entry while all its goroutines are at work. */
  lemma Appends(sh: Show, v: Id, cmd: Command, n': Node) returns (sh': Show)
    requires Shown(sh) && v in Last(sh.pl).nodes && |Last(sh.pl).nodes[v].log| > 0
    requires Last(sh.pl).nodes[v].role == Leader && n'.role == Leader && Propose(Last(sh.pl).nodes[v], cmd).0 == n'
    requires forall p :: p in n'.peers && p != v ==> (v, p) in Now(sh).replicating
    ensures GoesOnBy(sh, [Acts(ClientPut(v, cmd))], sh')
    ensures Last(sh'.pl).nodes == Last(sh.pl).nodes[v := n'] && Last(sh'.pl).calls == Last(sh.pl).calls
    ensures Last(sh'.pl).issued == Last(sh.pl).issued && Last(sh.pl).net <= Last(sh'.pl).net
    ensures Now(sh').jobs == Now(sh).jobs && Now(sh').replicating == Now(sh).replicating && Now(sh').clock == Now(sh).clock + 1
  {
    var pl' := Accepts(sh.pl, v, cmd, n');
    sh' := Along(sh, Acts(ClientPut(v, cmd)), pl');
    var w := Now(sh).(c := Last(pl'));
    assert Unattended(w, v) == {};
    NoneIdle(w, v);
  }

  lemma NoneIdle(w: World, v: Id)
    requires v in w.c.nodes && Unattended(w, v) == {}
    ensures Broadcast(w, v) == w.(clock := w.clock + 1)
  {
  }

  // ---------------------------------------------------------------- starting goroutines

  lemma StartsTwo(w: World, v: Id, p: Id, q: Id)
    requires v in w.c.nodes && w.c.nodes[v].peers.Keys == {v, p, q} && v != p && v != q && p != q
    requires (v, p) !in w.replicating && (v, q) !in w.replicating
    ensures
      var t := w.c.nodes[v].term;
      Broadcast(w, v) == w.(jobs := w.jobs[Job(v, p, t, w.clock) := Looking][Job(v, q, t, w.clock) := Looking],
                            replicating := w.replicating + {(v, p), (v, q)}, clock := w.clock + 1)
  {
    assert Unattended(w, v) == {p, q};
  }

  lemma StartsOne(w: World, v: Id, p: Id)
    requires v in w.c.nodes && p in w.c.nodes[v].peers && v != p && (v, p) !in w.replicating
    requires forall q :: q in w.c.nodes[v].peers && q != v && q != p ==> (v, q) in w.replicating
    ensures
      Broadcast(w, v) == w.(jobs := w.jobs[Job(v, p, w.c.nodes[v].term, w.clock) := Looking],
                            replicating := w.replicating + {(v, p)}, clock := w.clock + 1)
  {
    assert Unattended(w, v) == {p};
  }
}
