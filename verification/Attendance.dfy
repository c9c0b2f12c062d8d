/** Nobody is forgotten by the replication goroutines. */
module Attendance {
  import opened RaftTypes
  import opened Logs
  import opened NodeSpec
  import opened Cluster
  import opened Commits
  import opened Loose
  import opened Duties
  import opened Workers

  // ---------------------------------------------------------------- flags

  ghost predicate Attended(w: World, v: Id, p: Id) {
    exists j {:trigger j in w.jobs} :: j in w.jobs && j.node == v && j.peer == p
  }

  /** A set flag stands for a goroutine, which will clear it. */
  ghost predicate FlagsMean(w: World) {
    forall v, p {:trigger (v, p) in w.replicating} :: (v, p) in w.replicating ==> Attended(w, v, p)
  }

  lemma BroadcastMeans(w: World, v: Id)
    requires v in w.c.nodes && FlagsMean(w)
    ensures FlagsMean(Broadcast(w, v))
    ensures forall p :: p in w.c.nodes[v].peers && p != v ==> Attended(Broadcast(w, v), v, p)
  {
    var w' := Broadcast(w, v);
    var t := w.c.nodes[v].term;
    forall u, p | (u, p) in w'.replicating
      ensures Attended(w', u, p)
    {
      if (u, p) in w.replicating {
        StillAttended(w, w', u, p);
      } else {
        assert u == v && p in Unattended(w, v);
        assert Job(v, p, t, w.clock) in w'.jobs;
      }
    }
    forall p | p in w.c.nodes[v].peers && p != v
      ensures Attended(w', v, p)
    {
      assert (v, p) in w'.replicating;
    }
  }

  lemma StillAttended(w: World, w': World, v: Id, p: Id)
    requires Attended(w, v, p) && forall j :: j in w.jobs && j.node == v && j.peer == p ==> j in w'.jobs
    ensures Attended(w', v, p)
  {
    var j :| j in w.jobs && j.node == v && j.peer == p;
    assert j in w'.jobs;
  }

  lemma ClearedMeans(w: World, v: Id)
    requires FlagsMean(w)
    ensures FlagsMean(Cleared(w, v))
  {
    forall u, p | (u, p) in Cleared(w, v).replicating
      ensures Attended(Cleared(w, v), u, p)
    {
      StillAttended(w, Cleared(w, v), u, p);
    }
  }

  lemma CrashMeans(w: World, c': Cluster, v: Id)
    requires FlagsMean(w)
    ensures FlagsMean(Besides(w, Crash(v), c'))
  {
    var w' := Besides(w, Crash(v), c');
    forall u, p | (u, p) in w'.replicating
      ensures Attended(w', u, p)
    {
      assert (u, p) in w.replicating && u != v;
      StillAttended(w, w', u, p);
    }
  }

  lemma SameMeans(w: World, w': World)
    requires FlagsMean(w) && w'.jobs.Keys == w.jobs.Keys && w'.replicating == w.replicating
    ensures FlagsMean(w')
  {
    forall u, p | (u, p) in w'.replicating
      ensures Attended(w', u, p)
    {
      StillAttended(w, w', u, p);
    }
  }

  lemma EndMeans(w: World, j: Job)
    requires FlagsMean(w)
    ensures FlagsMean(w.(jobs := w.jobs - {j}, replicating := w.replicating - {(j.node, j.peer)}))
  {
    var w' := w.(jobs := w.jobs - {j}, replicating := w.replicating - {(j.node, j.peer)});
    forall u, p | (u, p) in w'.replicating
      ensures Attended(w', u, p)
    {
      assert (u, p) in w.replicating;
      StillAttended(w, w', u, p);
    }
  }

  /** The node's critical section ends with a broadcast: it was elected, or took a command. */
  ghost predicate Announces(w: World, m: Move, c': Cluster, v: Id) {
    match m
    case Broadcasts(u) => u == v
    case Acts(s) => !s.Crash? && v == ActorOf(s) && (Elected(w.c, c', v) || (s.ClientPut? && v in c'.nodes && c'.nodes[v].role == Leader))
    case _ => false
  }

  lemma BesidesMeans(w: World, s: Step, c': Cluster)
    requires FlagsMean(w)
    ensures FlagsMean(Besides(w, s, c'))
    ensures forall v, p :: v in c'.nodes && Announces(w, Acts(s), c', v) && p in c'.nodes[v].peers && p != v ==>
              Attended(Besides(w, s, c'), v, p)
  {
    var v, w' := ActorOf(s), w.(c := c');
    SameMeans(w, w');
    if s.Crash? {
      CrashMeans(w, c', s.node);
    } else if Elected(w.c, c', v) {
      ClearedMeans(w', v);
      BroadcastMeans(Cleared(w', v), v);
    } else if s.ClientPut? && v in c'.nodes && c'.nodes[v].role == Leader {
      BroadcastMeans(w', v);
    }
  }

  lemma MovedMeans(w: World, m: Move, c': Cluster)
    requires Possible(w, m) && FlagsMean(w) && (StepOf(w, m).None? ==> c' == w.c)
    ensures FlagsMean(Moved(w, m, c'))
    ensures forall v, p :: v in c'.nodes && Announces(w, m, c', v) && p in c'.nodes[v].peers && p != v ==> Attended(Moved(w, m, c'), v, p)
  {
    match m
    case Acts(s) => BesidesMeans(w, s, c');
    case Broadcasts(v) => BroadcastMeans(w, v);
    case Ends(j) => EndMeans(w, j);
    case _ => SameMeans(w, Moved(w, m, c'));
  }

  /** The state after a move of an execution. */
  lemma MoveTakes(ws: seq<World>, ms: seq<Move>, i: nat)
    requires Execution(ws, ms) && i < |ms|
    ensures AllSane(ws[i].c) && Possible(ws[i], ms[i])
    ensures ws[i + 1] == Moved(ws[i], ms[i], ws[i + 1].c) && (StepOf(ws[i], ms[i]).None? ==> ws[i + 1].c == ws[i].c)
    ensures StepOf(ws[i], ms[i]).Some? ==> Able(ws[i].c, StepOf(ws[i], ms[i]).value) && ws[i + 1].c == After(ws[i].c, StepOf(ws[i], ms[i]).value)
  {
    var cs, ss, at := Project(ws, ms, i);
    SaneHolds(cs, ss, at[i]);
    assert cs[at[i]] == ws[i].c;
    assert MoveAt(ws, ms, i);
    match StepOf(ws[i], ms[i])
    case Some(s) => MovedCluster(ws[i], ms[i], After(ws[i].c, s));
    case None => MovedCluster(ws[i], ms[i], ws[i].c);
  }

  lemma {:induction false} FlagsAlwaysMean(ws: seq<World>, ms: seq<Move>, i: nat)
    requires Execution(ws, ms) && i < |ws|
    ensures FlagsMean(ws[i])
    decreases i
  {
    if i > 0 {
      FlagsAlwaysMean(ws, ms, i - 1);
      MoveTakes(ws, ms, i - 1);
      MovedMeans(ws[i - 1], ms[i - 1], ws[i].c);
    }
  }

  /** In every execution, once a leader has been elected, has taken a command or has sent a
      heartbeat, there is a goroutine for each of its peers. */
  lemma EveryPeerIsAttended(ws: seq<World>, ms: seq<Move>, i: nat, v: Id, p: Id)
    requires Execution(ws, ms) && i < |ms| && v in ws[i + 1].c.nodes && Announces(ws[i], ms[i], ws[i + 1].c, v)
    requires p in ws[i + 1].c.nodes[v].peers && p != v
    ensures Attended(ws[i + 1], v, p)
  {
    FlagsAlwaysMean(ws, ms, i);
    MoveTakes(ws, ms, i);
    MovedMeans(ws[i], ms[i], ws[i + 1].c);
  }

  // ---------------------------------------------------------------- going on

  function CallTerm(pkt: Packet): nat
    requires IsReply(pkt)
  {
    if pkt.AppendRsp? then pkt.append.term else pkt.snapshot.term
  }

  /** Nothing is left for the goroutine to do. */
  predicate Done(n: Node, p: Id, term: nat) {
    n.role != Leader || n.term != term || (|n.log| > 0 && Lookup(n.matchIndex, p) >= LastIndex(n.log))
  }

  lemma StopsDone(n: Node, pkt: Packet)
    requires Sane(n) && IsReply(pkt)
    ensures !GoesOn(n, pkt) ==> Done(Handled(n, pkt), pkt.from, CallTerm(pkt))
    ensures GoesOn(n, pkt) ==> Handled(n, pkt).role == Leader && Handled(n, pkt).term == CallTerm(pkt)
  {
    match pkt
    case AppendRsp(_, from, _, req, resp) =>
      if n.role == Leader && n.term == req.term && resp.term <= n.term && resp.success {
        CountKnows(n, from, req.prevIndex + |req.entries|);
      } else {
        NotCounted(n, from, req, resp);
      }
    case SnapRsp(_, from, _, req, resp) =>
      CountKnows(n, from, req.lastIndex);
  }

  lemma CountKnows(n: Node, p: Id, m: nat)
    requires |n.log| > 0
    ensures
      var n' := CountMatch(n, p, m);
      n'.role == n.role && n'.term == n.term && n'.log == n.log && Lookup(n'.matchIndex, p) == m
  {
    CountTeaches(n, p, m);
  }

  lemma NotCounted(n: Node, p: Id, req: AppendRequest, resp: AppendResponse)
    requires |n.log| > 0 && !(n.role == Leader && n.term == req.term && resp.term <= n.term && resp.success)
    ensures
      var n' := OnAppendResponse(n, p, req, resp);
      if n.role == Leader && n.term == req.term && resp.term <= n.term then n'.role == Leader && n'.term == n.term
      else n'.role != Leader || n'.term != req.term
  {
  }

  /** In every execution a goroutine that has its reply looks again, unless its node no longer
      leads in the call's term or knows that the peer holds its whole log; and it looks again
      only if the node leads in that term. */
  lemma GoroutinesGoOn(ws: seq<World>, ms: seq<Move>, i: nat, j: Job, pkt: Packet)
    requires Execution(ws, ms) && i < |ms| && ms[i] == Hears(j, pkt)
    ensures j in ws[i + 1].jobs && j.node in ws[i + 1].c.nodes && IsReply(pkt)
    ensures
      var n := ws[i + 1].c.nodes[j.node];
      && (ws[i + 1].jobs[j] == Looking || ws[i + 1].jobs[j] == Ending)
      && (ws[i + 1].jobs[j] == Ending ==> Done(n, pkt.from, CallTerm(pkt)))
      && (ws[i + 1].jobs[j] == Looking ==> n.role == Leader && n.term == CallTerm(pkt))
  {
    MoveTakes(ws, ms, i);
    DeliverIsHandled(ws[i].c, pkt);
    StopsDone(ws[i].c.nodes[j.node], pkt);
  }
}
