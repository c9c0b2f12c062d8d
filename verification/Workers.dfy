/** Replication goroutines. A leader starts one per peer whose `replicating` flag is clear; it
    calls the peer until the peer has caught up, fails, or finds that the node no longer leads,
    and then clears the flag. A new leadership clears all flags, but not the goroutines. */
module Workers {
  import opened RaftTypes
  import opened Logs
  import opened NodeSpec
  import opened Cluster
  import opened ClusterInv
  import opened DisciplineSteps
  import opened Safety
  import opened Theorems
  import opened Commits
  import opened Loose
  import opened Elections

  /** A goroutine of `node` for `peer`, started in term `born`. */
  datatype Job = Job(node: Id, peer: Id, born: nat, serial: nat)

  /** About to look whether there is something to send; waiting for a reply; about to clear its
      flag and end. */
  datatype Activity = Looking | Calling(id: nat) | Ending

  datatype World = World(c: Cluster, jobs: map<Job, Activity>, replicating: set<(Id, Id)>, clock: nat)

  datatype Move =
    | Acts(step: Step)
    | Broadcasts(node: Id)
    | Looks(job: Job)
    | Hears(job: Job, packet: Packet)
    | Fails(job: Job)
    | Ends(job: Job)

  // ---------------------------------------------------------------- moves

  predicate IsReply(pkt: Packet) { pkt.AppendRsp? || pkt.SnapRsp? }

  /** Calls are made, and replies taken, by goroutines only. */
  predicate OfJobs(s: Step) { s.CallAppend? || s.CallSnapshot? || s.DropCall? || (s.Deliver? && IsReply(s.packet)) }

  predicate Possible(w: World, m: Move) {
    match m
    case Acts(s) => !OfJobs(s)
    case Broadcasts(v) => v in w.c.nodes && w.c.nodes[v].role == Leader
    case Looks(j) => j in w.jobs && w.jobs[j] == Looking && j.node in w.c.nodes
    case Hears(j, pkt) => j in w.jobs && IsReply(pkt) && w.jobs[j] == Calling(pkt.id) && pkt.to == j.node && j.node in w.c.nodes
    case Fails(j) => j in w.jobs && w.jobs[j].Calling?
    case Ends(j) => j in w.jobs && w.jobs[j] == Ending
  }

  /** The step of the cluster that the move is, if any. */
  function StepOf(w: World, m: Move): Option<Step>
    requires Possible(w, m)
  {
    match m
    case Acts(s) => Some(s)
    case Looks(j) =>
      if w.c.nodes[j.node].role != Leader then None
      else if ShouldInstall(w.c.nodes[j.node], j.peer) then Some(CallSnapshot(j.node, j.peer))
      else Some(CallAppend(j.node, j.peer))
    case Hears(_, pkt) => Some(Deliver(pkt))
    case Fails(j) => Some(DropCall(w.jobs[j].id))
    case Broadcasts(_) => None
    case Ends(_) => None
  }

  /** The peers for which `v` starts a goroutine. */
  function Unattended(w: World, v: Id): set<Id>
    requires v in w.c.nodes
  {
    set p | p in w.c.nodes[v].peers && p != v && (v, p) !in w.replicating
  }

  function Broadcast(w: World, v: Id): World
    requires v in w.c.nodes
  {
    var t := w.c.nodes[v].term;
    w.(jobs := w.jobs + map p | p in Unattended(w, v) :: Job(v, p, t, w.clock) := Looking,
       replicating := w.replicating + set p | p in Unattended(w, v) :: (v, p),
       clock := w.clock + 1)
  }

  /** All flags of `v` are cleared. */
  function Cleared(w: World, v: Id): World {
    w.(replicating := set x | x in w.replicating && x.0 != v)
  }

  predicate Elected(c: Cluster, c': Cluster, v: Id) {
    v in c.nodes && v in c'.nodes && c.nodes[v].role != Leader && c'.nodes[v].role == Leader
  }

  /** Whose critical section the step is, if it can end in an election or an append. */
  function ActorOf(s: Step): Id {
    match s
    case Timeout(v) => v
    case ClientPut(v, _) => v
    case Deliver(pkt) => pkt.to
    case _ => ""
  }

  /** What the step does besides: a new leader clears its flags and broadcasts, a leader that
      appends broadcasts, and a crash ends all goroutines of the node. */
  function Besides(w: World, s: Step, c': Cluster): World {
    var v, w' := ActorOf(s), w.(c := c');
    if s.Crash? then Cleared(w'.(jobs := map j | j in w.jobs && j.node != s.node :: w.jobs[j]), s.node)
    else if Elected(w.c, c', v) then Broadcast(Cleared(w', v), v)
    else if s.ClientPut? && v in c'.nodes && c'.nodes[v].role == Leader then Broadcast(w', v)
    else w'
  }

  /** After the reply the goroutine goes on if the node still leads in the call's term and the
      peer has not caught up. */
  predicate GoesOn(n: Node, pkt: Packet)
    requires IsReply(pkt) && |n.log| > 0
  {
    match pkt
    case AppendRsp(_, _, _, req, resp) =>
      n.role == Leader && n.term == req.term && resp.term <= n.term
      && (resp.success ==> LastIndex(n.log) > req.prevIndex + |req.entries|)
    case SnapRsp(_, _, _, req, resp) =>
      n.role == Leader && n.term == req.term && resp.term <= n.term && LastIndex(n.log) > req.lastIndex
  }

  /** The world after the move, if it takes the cluster to `c'`. */
  function Moved(w: World, m: Move, c': Cluster): World
    requires Possible(w, m)
  {
    match m
    case Acts(s) => Besides(w, s, c')
    case Broadcasts(v) => Broadcast(w, v)
    case Looks(j) => w.(c := c', jobs := w.jobs[j := if c'.issued > w.c.issued then Calling(w.c.issued) else Ending])
    case Hears(j, pkt) =>
      var n := w.c.nodes[j.node];
      w.(c := c', jobs := w.jobs[j := if |n.log| > 0 && GoesOn(n, pkt) then Looking else Ending])
    case Fails(j) => w.(c := c', jobs := w.jobs[j := Ending])
    case Ends(j) => w.(jobs := w.jobs - {j}, replicating := w.replicating - {(j.node, j.peer)})
  }

  ghost predicate MoveTo(w: World, m: Move, w': World) {
    && Possible(w, m)
    && match StepOf(w, m)
       case Some(s) => Able(w.c, s) && (AllSane(w.c) ==> w' == Moved(w, m, After(w.c, s)))
       case None => w' == Moved(w, m, w.c)
  }

  ghost predicate MoveAt(ws: seq<World>, ms: seq<Move>, i: nat)
    requires |ws| == |ms| + 1
  {
    i < |ms| ==> MoveTo(ws[i], ms[i], ws[i + 1])
  }

  /** A run of the cluster in which all calls are made by goroutines. */
  ghost predicate Execution(ws: seq<World>, ms: seq<Move>) {
    && |ws| == |ms| + 1
    && Initial(ws[0].c) && ws[0].jobs == map[] && ws[0].replicating == {}
    && forall i: nat {:trigger MoveAt(ws, ms, i)} :: MoveAt(ws, ms, i)
  }

  // ---------------------------------------------------------------- the cluster's part

  lemma MovedCluster(w: World, m: Move, c': Cluster)
    requires Possible(w, m) && (StepOf(w, m).None? ==> c' == w.c)
    ensures Moved(w, m, c').c == c'
  {
  }

  /** The move's step, if it has one, keeps the condition on outstanding calls. */
  ghost predicate Orderly(w: World, m: Move) {
    Possible(w, m) && (StepOf(w, m).Some? ==> Enabled(w.c, StepOf(w, m).value))
  }

  ghost predicate AllOrderly(ws: seq<World>, ms: seq<Move>, n: nat)
    requires |ws| == |ms| + 1 && n <= |ms|
  {
    forall i {:trigger Orderly(ws[i], ms[i])} :: 0 <= i < n ==> Orderly(ws[i], ms[i])
  }

  /** `at[i]` is where the cluster's run stands in state `i`. */
  ghost predicate Tracks(ws: seq<World>, n: nat, cs: seq<Cluster>, at: seq<nat>)
    requires n < |ws|
  {
    && |at| == n + 1 && |cs| == at[n] + 1
    && (forall i {:trigger at[i]} :: 0 <= i <= n ==> at[i] < |cs| && cs[at[i]] == ws[i].c)
    && (forall i, j {:trigger at[i], at[j]} :: 0 <= i <= j <= n ==> at[i] <= at[j])
  }

  lemma TracksLonger(ws: seq<World>, n: nat, cs: seq<Cluster>, at: seq<nat>)
    requires n + 1 < |ws| && Tracks(ws, n, cs, at)
    ensures Tracks(ws, n + 1, cs + [ws[n + 1].c], at + [|cs|])
    ensures ws[n + 1].c == ws[n].c ==> Tracks(ws, n + 1, cs, at + [at[n]])
  {
    forall i | 0 <= i <= n
      ensures at[i] < |cs| && cs[at[i]] == ws[i].c && at[i] <= at[n]
    {
    }
  }

  /** The cluster's part of an execution is a run; it keeps the condition on outstanding calls
      if every move does. */
  lemma {:induction false} Project(ws: seq<World>, ms: seq<Move>, n: nat) returns (cs: seq<Cluster>, ss: seq<Step>, at: seq<nat>)
    requires Execution(ws, ms) && n <= |ms|
    ensures LooseRun(cs, ss) && Tracks(ws, n, cs, at)
    ensures AllOrderly(ws, ms, n) ==> Run(cs, ss)
    decreases n
  {
    if n == 0 {
      cs, ss, at := [ws[0].c], [], [0];
    } else {
      cs, ss, at := Project(ws, ms, n - 1);
      assert AllOrderly(ws, ms, n) ==> AllOrderly(ws, ms, n - 1) && Orderly(ws[n - 1], ms[n - 1]);
      assert at[n - 1] == |ss| && cs[at[n - 1]] == ws[n - 1].c;
      SaneHolds(cs, ss, |ss|);
      assert MoveAt(ws, ms, n - 1);
      TracksLonger(ws, n - 1, cs, at);
      cs, ss, at := ProjectMove(ws[n - 1], ms[n - 1], ws[n], cs, ss, at);
    }
  }

  lemma ProjectMove(w: World, m: Move, w': World, cs: seq<Cluster>, ss: seq<Step>, at: seq<nat>)
    returns (cs': seq<Cluster>, ss': seq<Step>, at': seq<nat>)
    requires LooseRun(cs, ss) && cs[|ss|] == w.c && AllSane(w.c) && MoveTo(w, m, w') && |at| > 0 && at[|at| - 1] == |ss|
    ensures LooseRun(cs', ss') && (Run(cs, ss) && Orderly(w, m) ==> Run(cs', ss'))
    ensures if w'.c == w.c && StepOf(w, m).None? then cs' == cs && at' == at + [at[|at| - 1]]
            else cs' == cs + [w'.c] && at' == at + [|cs|]
  {
    match StepOf(w, m)
    case None =>
      MovedCluster(w, m, w.c);
      cs', ss', at' := cs, ss, at + [|ss|];
    case Some(s) =>
      MovedCluster(w, m, After(w.c, s));
      cs', ss', at' := cs + [w'.c], ss + [s], at + [|cs|];
      OneLonger(cs, ss, s);
  }

  lemma OneLonger(cs: seq<Cluster>, ss: seq<Step>, s: Step)
    requires LooseRun(cs, ss) && AllSane(cs[|ss|]) && Able(cs[|ss|], s)
    ensures LooseRun(cs + [After(cs[|ss|], s)], ss + [s])
    ensures Run(cs, ss) && Enabled(cs[|ss|], s) ==> Run(cs + [After(cs[|ss|], s)], ss + [s])
  {
    LooseLonger(cs, ss, s);
    if Run(cs, ss) && Enabled(cs[|ss|], s) {
      RunLonger(cs, ss, s);
    }
  }

  // ---------------------------------------------------------------- what every execution keeps

  /** A goroutine belongs to a leadership that is over if its node campaigns. */
  ghost predicate Dated(n: Node, born: nat) { born <= n.term && (n.role == Candidate ==> born < n.term) }

  ghost predicate JobOk(w: World, j: Job) {
    && j.node in w.c.nodes && j.peer in w.c.members && j.peer != j.node
    && j.serial < w.clock && Dated(w.c.nodes[j.node], j.born)
  }

  ghost predicate Owns(w: World, id: nat, j: Job) {
    && j in w.jobs && w.jobs[j] == Calling(id)
    && id in w.c.calls && w.c.calls[id].from == j.node && w.c.calls[id].to == j.peer
  }

  ghost predicate Owned(w: World, id: nat) { exists j {:trigger Owns(w, id, j)} :: Owns(w, id, j) }

  ghost predicate JobsOk(w: World) { forall j {:trigger JobOk(w, j)} :: j in w.jobs ==> JobOk(w, j) }

  ghost predicate AllOwned(w: World) { forall id {:trigger Owned(w, id)} :: id in w.c.calls ==> Owned(w, id) }

  lemma DatedStays(c: Cluster, c': Cluster, v: Id, born: nat)
    requires Onward(c, c') && v in c.nodes && Dated(c.nodes[v], born)
    ensures v in c'.nodes && Dated(c'.nodes[v], born)
  {
    assert Within(c', true);
    assert EvolvesAt(c.nodes, c'.nodes, v);
  }

  /** The goroutines there were are still in order once the cluster has moved on. */
  lemma JobsStay(w: World, w': World)
    requires JobsOk(w) && Onward(w.c, w'.c) && w.clock <= w'.clock
    requires forall j {:trigger JobOk(w', j)} :: j in w'.jobs && j !in w.jobs ==> JobOk(w', j)
    ensures JobsOk(w')
  {
    assert Within(w'.c, true);
    forall j | j in w'.jobs
      ensures JobOk(w', j)
    {
      if j in w.jobs {
        assert JobOk(w, j);
        DatedStays(w.c, w'.c, j.node, j.born);
      }
    }
  }

  lemma BroadcastJobs(w: World, v: Id)
    requires JobsOk(w) && Lawful(w.c) && v in w.c.nodes && w.c.nodes[v].role == Leader
    ensures JobsOk(Broadcast(w, v))
  {
    var w' := Broadcast(w, v);
    LawfulNode(w.c, v);
    forall j | j in w'.jobs
      ensures JobOk(w', j)
    {
      assert j in w.jobs ==> JobOk(w, j);
    }
  }

  lemma BesidesJobs(w: World, s: Step, c': Cluster)
    requires JobsOk(w) && Lawful(c') && Onward(w.c, c')
    ensures JobsOk(Besides(w, s, c'))
  {
    var v, w' := ActorOf(s), w.(c := c');
    JobsStay(w, w');
    if s.Crash? {
      JobsStay(w, Besides(w, s, c'));
    } else if Elected(w.c, c', v) {
      assert JobsOk(Cleared(w', v)) by {
        JobsStay(w, Cleared(w', v));
      }
      BroadcastJobs(Cleared(w', v), v);
    } else if s.ClientPut? && v in c'.nodes && c'.nodes[v].role == Leader {
      BroadcastJobs(w', v);
    }
  }

  lemma MovedJobs(w: World, m: Move, c': Cluster)
    requires JobsOk(w) && Possible(w, m) && Lawful(c') && Onward(w.c, c') && (StepOf(w, m).None? ==> c' == w.c)
    ensures JobsOk(Moved(w, m, c'))
  {
    match m
    case Acts(s) => BesidesJobs(w, s, c');
    case Broadcasts(v) => BroadcastJobs(w, v);
    case _ => JobsStay(w, Moved(w, m, c'));
  }

  /** Steps that are not of goroutines leave calls alone, but for those of a node that crashes. */
  lemma CallsStay(c: Cluster, s: Step)
    requires AllSane(c) && Able(c, s) && !OfJobs(s) && !s.Crash?
    ensures After(c, s).calls == c.calls
  {
    if s.Deliver? {
      DeliverCallsStay(c, s.packet);
    }
  }

  lemma DeliverCallsStay(c: Cluster, pkt: Packet)
    requires pkt.to in c.nodes && |c.nodes[pkt.to].log| > 0 && !IsReply(pkt)
    requires pkt.SnapReq? ==> |pkt.prefix| == pkt.snapshot.lastIndex + 1
    ensures DoDeliver(c, pkt).calls == c.calls
  {
  }

  /** Whoever owned a call still does if it is still waiting. */
  lemma OwnedStays(w: World, w': World)
    requires AllOwned(w)
    requires forall id {:trigger Owned(w', id)} :: id in w'.c.calls ==>
               Owned(w', id) || (id in w.c.calls && w'.c.calls[id] == w.c.calls[id])
    requires forall j {:trigger w.jobs[j]} :: j in w.jobs && w.jobs[j].Calling? && w.jobs[j].id in w'.c.calls ==>
               j in w'.jobs && w'.jobs[j] == w.jobs[j]
    ensures AllOwned(w')
  {
    forall id | id in w'.c.calls
      ensures Owned(w', id)
    {
      if !Owned(w', id) {
        assert Owned(w, id);
        var j :| Owns(w, id, j);
        assert Owns(w, id, j) && w.jobs[j].id in w'.c.calls;
        assert Owns(w', id, j);
      }
    }
  }

  lemma ActsOwned(w: World, s: Step)
    requires AllOwned(w) && JobsOk(w) && AllSane(w.c) && Able(w.c, s) && !OfJobs(s)
    ensures AllOwned(Besides(w, s, After(w.c, s)))
  {
    var w' := Besides(w, s, After(w.c, s));
    if s.Crash? {
      forall id | id in w'.c.calls
        ensures Owned(w', id)
      {
        assert Owned(w, id);
        var j :| Owns(w, id, j);
        assert Owns(w, id, j);
        assert Owns(w', id, j);
      }
    } else {
      CallsStay(w.c, s);
      BesidesKeepsJobs(w, s, After(w.c, s));
      OwnedStays(w, w');
    }
  }

  lemma BesidesKeepsJobs(w: World, s: Step, c': Cluster)
    requires !s.Crash? && JobsOk(w)
    ensures Besides(w, s, c').c == c'
    ensures forall j {:trigger w.jobs[j]} :: j in w.jobs ==> j in Besides(w, s, c').jobs && Besides(w, s, c').jobs[j] == w.jobs[j]
  {
    forall j | j in w.jobs
      ensures j in Besides(w, s, c').jobs && Besides(w, s, c').jobs[j] == w.jobs[j]
    {
      assert JobOk(w, j);
    }
  }

  lemma LooksOwned(w: World, j: Job, c': Cluster)
    requires AllOwned(w) && Possible(w, Looks(j)) && AllSane(w.c)
    requires StepOf(w, Looks(j)).Some? ==> Able(w.c, StepOf(w, Looks(j)).value) && c' == After(w.c, StepOf(w, Looks(j)).value)
    requires StepOf(w, Looks(j)).None? ==> c' == w.c
    ensures AllOwned(Moved(w, Looks(j), c'))
  {
    var w' := Moved(w, Looks(j), c');
    assert c'.issued > w.c.issued ==> Owns(w', w.c.issued, j);
    OwnedStays(w, w');
  }

  lemma HearsOwned(w: World, j: Job, pkt: Packet)
    requires AllOwned(w) && Possible(w, Hears(j, pkt)) && AllSane(w.c) && Able(w.c, Deliver(pkt))
    ensures AllOwned(Moved(w, Hears(j, pkt), DoDeliver(w.c, pkt)))
  {
    var w' := Moved(w, Hears(j, pkt), DoDeliver(w.c, pkt));
    ReplyEndsCall(w.c, pkt);
    OwnedStays(w, w');
  }

  lemma ReplyEndsCall(c: Cluster, pkt: Packet)
    requires pkt.to in c.nodes && |c.nodes[pkt.to].log| > 0 && IsReply(pkt)
    ensures DoDeliver(c, pkt).calls == c.calls - {pkt.id}
  {
  }

  /** The invariant of executions. */
  ghost predicate Steady(w: World) { Lawful(w.c) && AllSane(w.c) && JobsOk(w) && AllOwned(w) }

  lemma MoveOwned(w: World, m: Move, w': World)
    requires Steady(w) && MoveTo(w, m, w')
    ensures AllOwned(w')
  {
    match m
    case Acts(s) => ActsOwned(w, s);
    case Looks(j) => LooksOwned(w, j, w'.c);
    case Hears(j, pkt) => HearsOwned(w, j, pkt);
    case Fails(j) => OwnedStays(w, w');
    case Broadcasts(v) => BroadcastOwned(w, v);
    case Ends(j) => OwnedStays(w, w');
  }

  lemma BroadcastOwned(w: World, v: Id)
    requires AllOwned(w) && JobsOk(w) && v in w.c.nodes
    ensures AllOwned(Broadcast(w, v))
  {
    forall j | j in w.jobs
      ensures j in Broadcast(w, v).jobs && Broadcast(w, v).jobs[j] == w.jobs[j]
    {
      assert JobOk(w, j);
    }
    OwnedStays(w, Broadcast(w, v));
  }

  lemma OnwardRefl(c: Cluster)
    requires Lawful(c)
    ensures Onward(c, c)
  {
    AsideLawful(c, c);
  }

  lemma MoveSteady(w: World, m: Move, w': World)
    requires Steady(w) && MoveTo(w, m, w')
    ensures Steady(w') && Onward(w.c, w'.c)
  {
    MoveOwned(w, m, w');
    match StepOf(w, m)
    case Some(s) =>
      MovedCluster(w, m, After(w.c, s));
      StepLawful(w.c, s);
      StepSane(w.c, s);
      MovedJobs(w, m, After(w.c, s));
    case None =>
      MovedCluster(w, m, w.c);
      OnwardRefl(w.c);
      MovedJobs(w, m, w.c);
  }

  lemma {:induction false} SteadyHolds(ws: seq<World>, ms: seq<Move>, i: nat)
    requires Execution(ws, ms) && i < |ws|
    ensures Steady(ws[i])
    decreases i
  {
    if i == 0 {
      InitialLawful(ws[0].c);
      InitialSane(ws[0].c);
    } else {
      SteadyHolds(ws, ms, i - 1);
      assert MoveAt(ws, ms, i - 1);
      MoveSteady(ws[i - 1], ms[i - 1], ws[i]);
    }
  }

  /** A goroutine that looks while its node leads can always make its call. */
  lemma LooksAreAble(ws: seq<World>, ms: seq<Move>, i: nat, j: Job)
    requires Execution(ws, ms) && i < |ws| && Possible(ws[i], Looks(j))
    ensures StepOf(ws[i], Looks(j)).Some? <==> ws[i].c.nodes[j.node].role == Leader
    ensures StepOf(ws[i], Looks(j)).Some? ==> Able(ws[i].c, StepOf(ws[i], Looks(j)).value)
  {
    SteadyHolds(ws, ms, i);
    assert JobOk(ws[i], j);
    LeaderCanCall(ws[i].c, j.node, j.peer);
  }

  lemma LeaderCanCall(c: Cluster, v: Id, p: Id)
    requires Lawful(c) && v in c.nodes && p in c.members && p != v
    ensures c.nodes[v].role == Leader ==> CanCall(c, v, p)
  {
    LawfulNode(c, v);
  }

  // ---------------------------------------------------------------- one goroutine per peer

  ghost predicate For(j: Job, v: Id, p: Id) { j.node == v && j.peer == p }

  /** At most one goroutine works for the pair, and the flag says so. */
  ghost predicate Tidy(w: World, v: Id, p: Id) {
    && (forall j {:trigger For(j, v, p)} :: j in w.jobs && For(j, v, p) ==> (v, p) in w.replicating)
    && (forall j, k {:trigger For(j, v, p), For(k, v, p)} :: j in w.jobs && k in w.jobs && For(j, v, p) && For(k, v, p) ==> j == k)
  }

  /** Node `v` is elected while a goroutine for `p`, of an earlier leadership, is still there. */
  ghost predicate LeftOver(w: World, w': World, v: Id, p: Id) {
    Elected(w.c, w'.c, v) && exists j {:trigger For(j, v, p)} :: j in w.jobs && For(j, v, p)
  }

  lemma BroadcastTidy(w: World, u: Id, v: Id, p: Id)
    requires u in w.c.nodes && Tidy(w, v, p)
    ensures Tidy(Broadcast(w, u), v, p)
  {
  }

  lemma ClearedTidy(w: World, u: Id, v: Id, p: Id)
    requires Tidy(w, v, p) && (u == v ==> forall j {:trigger For(j, v, p)} :: j in w.jobs ==> !For(j, v, p))
    ensures Tidy(Cleared(w, u), v, p)
  {
  }

  lemma BesidesTidy(w: World, s: Step, c': Cluster, v: Id, p: Id)
    requires Tidy(w, v, p) && !LeftOver(w, Besides(w, s, c'), v, p)
    ensures Tidy(Besides(w, s, c'), v, p)
  {
    var u, w' := ActorOf(s), w.(c := c');
    assert Tidy(w', v, p);
    if s.Crash? {
      assert Tidy(Besides(w, s, c'), v, p);
    } else if Elected(w.c, c', u) {
      assert Besides(w, s, c').c == c';
      ClearedTidy(w', u, v, p);
      BroadcastTidy(Cleared(w', u), u, v, p);
    } else if s.ClientPut? && u in c'.nodes && c'.nodes[u].role == Leader {
      BroadcastTidy(w', u, v, p);
    }
  }

  lemma MoveTidy(w: World, m: Move, w': World, v: Id, p: Id)
    requires MoveTo(w, m, w') && AllSane(w.c) && Tidy(w, v, p) && !LeftOver(w, w', v, p)
    ensures Tidy(w', v, p)
  {
    match m
    case Acts(s) => BesidesTidy(w, s, After(w.c, s), v, p);
    case Broadcasts(u) => BroadcastTidy(w, u, v, p);
    case Ends(j) => EndsTidy(w, j, v, p);
    case _ => assert w'.jobs.Keys == w.jobs.Keys && w'.replicating == w.replicating;
  }

  lemma EndsTidy(w: World, j: Job, v: Id, p: Id)
    requires Possible(w, Ends(j)) && Tidy(w, v, p)
    ensures Tidy(Moved(w, Ends(j), w.c), v, p)
  {
    assert For(j, v, p) ==> forall k {:trigger For(k, v, p)} :: k in w.jobs && For(k, v, p) ==> k == j;
  }

  ghost predicate LeftOverAt(ws: seq<World>, ms: seq<Move>, k: nat, v: Id, p: Id)
    requires |ws| == |ms| + 1
  {
    k < |ms| && LeftOver(ws[k], ws[k + 1], v, p)
  }

  lemma {:induction false} TidyHolds(ws: seq<World>, ms: seq<Move>, i: nat, v: Id, p: Id)
    requires Execution(ws, ms) && i < |ws|
    requires forall k: nat {:trigger LeftOverAt(ws, ms, k, v, p)} :: k < i ==> !LeftOverAt(ws, ms, k, v, p)
    ensures Tidy(ws[i], v, p)
    decreases i
  {
    if i > 0 {
      TidyHolds(ws, ms, i - 1, v, p);
      SteadyHolds(ws, ms, i - 1);
      assert MoveAt(ws, ms, i - 1) && !LeftOverAt(ws, ms, i - 1, v, p);
      MoveTidy(ws[i - 1], ms[i - 1], ws[i], v, p);
    }
  }

  /** The only goroutine for a peer calls only when none of its node's calls to it is waiting. */
  lemma TidyMayCall(w: World, j: Job)
    requires Steady(w) && Possible(w, Looks(j)) && Tidy(w, j.node, j.peer) && CanCall(w.c, j.node, j.peer)
    ensures MayCall(w.c, j.node, j.peer)
  {
    var v, p, t := j.node, j.peer, w.c.nodes[j.node].term;
    forall id
      ensures !Pending(w.c.calls, id, v, p, t)
    {
      if Pending(w.c.calls, id, v, p, t) {
        assert Owned(w, id);
        var k :| Owns(w, id, k);
        assert Owns(w, id, k) && For(k, v, p) && For(j, v, p);
      }
    }
  }

  lemma MoveOrderly(w: World, m: Move, w': World)
    requires Steady(w) && MoveTo(w, m, w') && (m.Looks? ==> Tidy(w, m.job.node, m.job.peer))
    ensures Orderly(w, m)
  {
    if m.Looks? && StepOf(w, m).Some? {
      TidyMayCall(w, m.job);
    }
  }

  // ---------------------------------------------------------------- what follows

  /** No leadership begins while a goroutine of an earlier one of the same node is alive. */
  ghost predicate NoLeftOvers(ws: seq<World>, ms: seq<Move>)
    requires |ws| == |ms| + 1
  {
    forall k: nat, v, p {:trigger LeftOverAt(ws, ms, k, v, p)} :: !LeftOverAt(ws, ms, k, v, p)
  }

  /** Without leftover goroutines every call keeps the condition, so all that is proved of `Run`
      holds of the execution. */
  lemma WithoutLeftOvers(ws: seq<World>, ms: seq<Move>) returns (cs: seq<Cluster>, ss: seq<Step>, at: seq<nat>)
    requires Execution(ws, ms) && NoLeftOvers(ws, ms)
    ensures Run(cs, ss) && Tracks(ws, |ms|, cs, at)
  {
    cs, ss, at := Project(ws, ms, |ms|);
    forall i | 0 <= i < |ms|
      ensures Orderly(ws[i], ms[i])
    {
      SteadyHolds(ws, ms, i);
      assert MoveAt(ws, ms, i);
      if ms[i].Looks? {
        TidyHolds(ws, ms, i, ms[i].job.node, ms[i].job.peer);
      }
      MoveOrderly(ws[i], ms[i], ws[i + 1]);
    }
  }

  /** A goroutine that is there when its node is elected was started in an earlier term. */
  lemma LeftOverIsOld(ws: seq<World>, ms: seq<Move>, k: nat, j: Job)
    requires Execution(ws, ms) && k < |ms| && Elected(ws[k].c, ws[k + 1].c, j.node) && j in ws[k].jobs
    ensures j.born < ws[k + 1].c.nodes[j.node].term
  {
    SteadyHolds(ws, ms, k);
    assert MoveAt(ws, ms, k);
    assert JobOk(ws[k], j);
    MoveSteady(ws[k], ms[k], ws[k + 1]);
    ElectedAnew(ws[k], ms[k], ws[k + 1], j.node);
  }

  /** Only a candidacy, new or pending, makes a leader. */
  ghost predicate Anew(n: Node, n': Node) {
    n.role != Leader && n'.role == Leader ==> n'.term > n.term || (n.role == Candidate && n'.term == n.term)
  }

  lemma HandledAnew(n: Node, pkt: Packet)
    requires |n.log| > 0 && (pkt.SnapReq? ==> |pkt.prefix| == pkt.snapshot.lastIndex + 1)
    ensures Anew(n, Handled(n, pkt))
  {
    match pkt
    case VoteRsp(from, _, _, _) => CrownKeeps(n.(votes := n.votes + {from}));
    case AppendReq(_, _, req) => OnAppendShape(n, req);
    case ProbeReq(_, _, req) => OnAppendShape(n, req);
    case SnapReq(_, _, req, prefix) => OnSnapshotShape(n, req, prefix);
    case _ =>
  }

  lemma WinsAnew(c: Cluster, s: Step, v: Id)
    requires AllSane(c) && Able(c, s) && v in c.nodes && v in After(c, s).nodes
    ensures Anew(c.nodes[v], After(c, s).nodes[v])
  {
    if s.Deliver? {
      DeliverIsHandled(c, s.packet);
      HandledAnew(c.nodes[s.packet.to], s.packet);
    } else if s.Timeout? {
      TimeoutNodes(c, s.node);
      CrownKeeps(Campaigner(c.nodes[s.node]));
    } else if s.ClientPut? || s.Tick? || s.Crash? {
      LocalNotAnew(c, s, v);
    } else {
      OthersNotAnew(c, s, v);
    }
  }

  lemma LocalNotAnew(c: Cluster, s: Step, v: Id)
    requires AllSane(c) && Able(c, s) && v in c.nodes && v in After(c, s).nodes && (s.ClientPut? || s.Tick? || s.Crash?)
    ensures After(c, s).nodes[v].role == Leader ==> c.nodes[v].role == Leader
  {
    if s.ClientPut? {
      PutNodes(c, s.node, s.command);
    } else if s.Tick? {
      ApplyKeeps(c.nodes[s.node]);
    }
  }

  lemma OthersNotAnew(c: Cluster, s: Step, v: Id)
    requires AllSane(c) && Able(c, s) && v in c.nodes && v in After(c, s).nodes
    requires !s.Deliver? && !s.Timeout? && !s.ClientPut? && !s.Tick? && !s.Crash?
    ensures After(c, s).nodes[v].role == c.nodes[v].role
  {
  }

  lemma ElectedAnew(w: World, m: Move, w': World, v: Id)
    requires Steady(w) && MoveTo(w, m, w') && Elected(w.c, w'.c, v)
    ensures Anew(w.c.nodes[v], w'.c.nodes[v])
  {
    match StepOf(w, m)
    case Some(s) =>
      MovedCluster(w, m, After(w.c, s));
      WinsAnew(w.c, s, v);
    case None => MovedCluster(w, m, w.c);
  }

  /** Where the condition on outstanding calls breaks, an election with a leftover came before. */
  lemma DisorderNeedsLeftOver(ws: seq<World>, ms: seq<Move>, l: nat) returns (k: nat)
    requires Execution(ws, ms) && l < |ms| && !Orderly(ws[l], ms[l])
    ensures ms[l].Looks? && ms[l].job.node in ws[l].c.nodes && CanCall(ws[l].c, ms[l].job.node, ms[l].job.peer)
    ensures Compacts(ws[l].c.nodes[ms[l].job.node]) && !MayCall(ws[l].c, ms[l].job.node, ms[l].job.peer)
    ensures k < l && LeftOverAt(ws, ms, k, ms[l].job.node, ms[l].job.peer)
  {
    SteadyHolds(ws, ms, l);
    assert MoveAt(ws, ms, l);
    assert ms[l].Looks?;
    var v, p := ms[l].job.node, ms[l].job.peer;
    if forall k: nat {:trigger LeftOverAt(ws, ms, k, v, p)} :: k < l ==> !LeftOverAt(ws, ms, k, v, p) {
      TidyHolds(ws, ms, l, v, p);
      MoveOrderly(ws[l], ms[l], ws[l + 1]);
    }
    k :| k < l && LeftOverAt(ws, ms, k, v, p);
  }

  /** Committed entries are lost only so: a node that compacts was elected (in state `k`) while a
      goroutine of its earlier leadership was still there for a peer, and later (in `l`) it called
      that peer while another call to it, of its present term, was waiting. */
  lemma LossNeedsLeftOver(ws: seq<World>, ms: seq<Move>, i: nat, j: nat, v: Id, w: Id, idx: nat) returns (k: nat, l: nat, u: Id, p: Id)
    requires Execution(ws, ms) && i <= j < |ws| && v in ws[i].c.nodes && w in ws[j].c.nodes
    requires idx <= ws[i].c.nodes[v].commit && idx < |ws[i].c.nodes[v].log|
    requires idx <= ws[j].c.nodes[w].commit && idx < |ws[j].c.nodes[w].log|
    requires !Agree(ws[i].c.nodes[v].log, ws[j].c.nodes[w].log, idx)
    ensures k < l < j && LeftOverAt(ws, ms, k, u, p)
    ensures ms[l].Looks? && For(ms[l].job, u, p) && u in ws[l].c.nodes
    ensures Compacts(ws[l].c.nodes[u]) && CanCall(ws[l].c, u, p) && !MayCall(ws[l].c, u, p)
  {
    if AllOrderly(ws, ms, j) {
      OrderlyAgree(ws, ms, i, j, v, w, idx);
    }
    l :| l < j && !Orderly(ws[l], ms[l]);
    k := DisorderNeedsLeftOver(ws, ms, l);
    u, p := ms[l].job.node, ms[l].job.peer;
  }

  lemma OrderlyAgree(ws: seq<World>, ms: seq<Move>, i: nat, j: nat, v: Id, w: Id, idx: nat)
    requires Execution(ws, ms) && i <= j < |ws| && v in ws[i].c.nodes && w in ws[j].c.nodes && AllOrderly(ws, ms, j)
    requires idx <= ws[i].c.nodes[v].commit && idx < |ws[i].c.nodes[v].log|
    requires idx <= ws[j].c.nodes[w].commit && idx < |ws[j].c.nodes[w].log|
    ensures Agree(ws[i].c.nodes[v].log, ws[j].c.nodes[w].log, idx)
  {
    var cs, ss, at := Project(ws, ms, j);
    assert at[i] <= at[j] && cs[at[i]] == ws[i].c && cs[at[j]] == ws[j].c;
    CommittedLogsAgree(cs, ss, at[i], at[j], v, w, idx);
  }
}
