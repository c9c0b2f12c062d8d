/** What an elected leader can do for its peers: bring every log to its own, commit it and have it
    applied everywhere. */
module Reunion {
  import opened RaftTypes
  import opened Logs
  import opened History
  import opened NodeSpec
  import opened Cluster
  import opened ClusterInv
  import opened ElectionSteps
  import opened Discipline
  import opened CallSteps
  import opened Safety
  import opened Theorems
  import opened Backoff
  import opened Commits
  import opened Loose
  import Elections
  import opened Duties
  import opened DutyRuns
  import opened Headway

  // ---------------------------------------------------------------- one call and its reply

  /** Leader `v` can go on with `w`: it has not gone below what `w` has compacted. */
  ghost predicate Ready(c: Cluster, v: Id, w: Id) {
    && v in c.nodes && w in c.nodes && w != v && c.nodes[v].role == Leader && Unengaged(c, v)
    && c.nodes[w].term <= c.nodes[v].term && c.nodes[w].snap < Lookup(c.nodes[v].nextIndex, w)
  }

  /** What holds of the two nodes. */
  ghost predicate Related(l: Node, f: Node, w: Id) {
    && Sane(l) && l.role == Leader && Sane(f) && f.term <= l.term
    && f.snap < Lookup(l.nextIndex, w) <= |l.log|
    && Matching(f.log, l.log) && Agree(f.log, l.log, f.snap)
  }

  lemma ReadyIsRelated(t: Trace, c: Cluster, v: Id, w: Id)
    requires Ends(t, c) && Ready(c, v, w)
    ensures Related(c.nodes[v], c.nodes[w], w) && c.nodes[v].id == v && w in c.nodes[v].peers
    ensures MakeAppend(c.nodes[v], w).0 == c.nodes[v]
  {
    EndsSound(t, c);
    Seat(t, c, v);
    BaseNode(c, w);
    LeaderOfTerm(c, v);
    LeaderAgrees(c, w, c.nodes[v].term, c.nodes[w].snap);
    ReignMatches(c, w, c.nodes[v].term);
    NextIsBounded(c, v);
    NoClamp(c.nodes[v], w);
  }

  lemma NextIsBounded(c: Cluster, v: Id)
    requires Disc(c) && v in c.nodes
    ensures NextBounded(c.nodes[v])
  {
    assert Within(c, true);
  }

  lemma CallDoes(c: Cluster, v: Id, w: Id, req: AppendRequest)
    requires v in c.nodes && Sane(c.nodes[v]) && MakeAppend(c.nodes[v], w) == (c.nodes[v], Some(req))
    ensures
      var c' := DoCallAppend(c, v, w);
      && c'.nodes == c.nodes && c'.net == c.net + {AppendReq(c.issued, w, req)}
      && c'.calls == c.calls[c.issued := AppendCall(v, w, req)]
  {
  }

  lemma AppendDoes(c: Cluster, id: nat, w: Id, req: AppendRequest)
    requires w in c.nodes && |c.nodes[w].log| > 0
    ensures
      var c' := DoDeliver(c, AppendReq(id, w, req));
      && c'.nodes == c.nodes[w := OnAppend(c.nodes[w], req).0] && c'.calls == c.calls
      && c'.net == c.net + {AppendRsp(id, w, req.leader, req, OnAppend(c.nodes[w], req).1)}
  {
    DeliverIsHandled(c, AppendReq(id, w, req));
  }

  lemma ReplyDoes(c: Cluster, pkt: Packet)
    requires pkt.AppendRsp? && pkt.to in c.nodes && |c.nodes[pkt.to].log| > 0
    ensures
      var c' := DoDeliver(c, pkt);
      c'.nodes == c.nodes[pkt.to := Handled(c.nodes[pkt.to], pkt)] && c'.net == c.net && c'.calls == c.calls - {pkt.id}
  {
    DeliverIsHandled(c, pkt);
  }

  /** `w` and `v` are now `f` and `l`; `v` waits for no reply and nobody else has changed. */
  ghost predicate Between(c: Cluster, c': Cluster, v: Id, w: Id, l: Node, f: Node) {
    c'.members == c.members && c'.nodes == c.nodes[w := f][v := l] && Unengaged(c', v)
  }

  lemma CallAppendTo(t: Trace, c: Cluster, v: Id, w: Id, req: AppendRequest) returns (t': Trace, c': Cluster)
    requires Ends(t, c) && Ready(c, v, w) && !ShouldInstall(c.nodes[v], w) && Sane(c.nodes[v]) && MakeAppend(c.nodes[v], w).1 == Some(req)
    ensures Ends(t', c') && Onto(t, t') && c'.nodes == c.nodes && c'.members == c.members
    ensures AppendReq(c.issued, w, req) in c'.net && c'.calls == c.calls[c.issued := AppendCall(v, w, req)]
  {
    EndsSound(t, c);
    ReadyIsRelated(t, c, v, w);
    c' := After(c, CallAppend(v, w));
    t' := Move(t, c, CallAppend(v, w));
    CallDoes(c, v, w, req);
  }

  lemma AnswerAppend(t: Trace, c: Cluster, id: nat, w: Id, req: AppendRequest) returns (t': Trace, c': Cluster)
    requires Ends(t, c) && w in c.nodes && |c.nodes[w].log| > 0 && AppendReq(id, w, req) in c.net
    ensures Ends(t', c') && Onto(t, t') && c'.members == c.members
    ensures c'.nodes == c.nodes[w := OnAppend(c.nodes[w], req).0] && c'.calls == c.calls
    ensures AppendRsp(id, w, req.leader, req, OnAppend(c.nodes[w], req).1) in c'.net
  {
    EndsSound(t, c);
    c' := After(c, Deliver(AppendReq(id, w, req)));
    t' := Move(t, c, Deliver(AppendReq(id, w, req)));
    AppendDoes(c, id, w, req);
  }

  lemma TakeReply(t: Trace, c: Cluster, pkt: Packet) returns (t': Trace, c': Cluster)
    requires Ends(t, c) && pkt in c.net && pkt.AppendRsp? && pkt.to in c.nodes && |c.nodes[pkt.to].log| > 0 && pkt.id in c.calls
    ensures Ends(t', c') && Onto(t, t') && c'.members == c.members
    ensures c'.nodes == c.nodes[pkt.to := OnAppendResponse(c.nodes[pkt.to], pkt.from, pkt.append, pkt.appendResp)]
    ensures c'.calls == c.calls - {pkt.id}
  {
    EndsSound(t, c);
    c' := After(c, Deliver(pkt));
    t' := Move(t, c, Deliver(pkt));
    ReplyDoes(c, pkt);
  }

  /** A request, its answer, and what the leader makes of it. */
  lemma AppendRound(t: Trace, c: Cluster, v: Id, w: Id, req: AppendRequest) returns (t': Trace, c': Cluster)
    requires Ends(t, c) && Ready(c, v, w) && !ShouldInstall(c.nodes[v], w) && Sane(c.nodes[v]) && |c.nodes[w].log| > 0
    requires MakeAppend(c.nodes[v], w).1 == Some(req)
    ensures Ends(t', c') && Onto(t, t')
    ensures
      var (f, resp) := OnAppend(c.nodes[w], req);
      Between(c, c', v, w, OnAppendResponse(c.nodes[v], w, req, resp), f)
  {
    Seat(t, c, v);
    var resp := OnAppend(c.nodes[w], req).1;
    var t1, c1 := CallAppendTo(t, c, v, w, req);
    var t2, c2 := AnswerAppend(t1, c1, c.issued, w, req);
    OntoTrans(t, t1, t2);
    t', c' := TakeReply(t2, c2, AppendRsp(c.issued, w, v, req, resp));
    OntoTrans(t, t2, t');
  }

  lemma SnapCallDoes(c: Cluster, v: Id, w: Id)
    requires v in c.nodes && Sane(c.nodes[v])
    ensures
      var c', n := DoCallSnapshot(c, v, w), c.nodes[v];
      && c'.nodes == c.nodes && c'.net == c.net + {SnapReq(c.issued, w, MakeSnapshot(n), n.log[..n.snap + 1])}
      && c'.calls == c.calls[c.issued := SnapCall(v, w, MakeSnapshot(n))]
  {
  }

  lemma CallSnapshotTo(t: Trace, c: Cluster, v: Id, w: Id) returns (t': Trace, c': Cluster)
    requires Ends(t, c) && Ready(c, v, w) && ShouldInstall(c.nodes[v], w) && Sane(c.nodes[v])
    ensures Ends(t', c') && Onto(t, t') && c'.nodes == c.nodes && c'.members == c.members
    ensures
      var n := c.nodes[v];
      && SnapReq(c.issued, w, MakeSnapshot(n), n.log[..n.snap + 1]) in c'.net
      && c'.calls == c.calls[c.issued := SnapCall(v, w, MakeSnapshot(n))]
  {
    EndsSound(t, c);
    ReadyIsRelated(t, c, v, w);
    c' := After(c, CallSnapshot(v, w));
    t' := Move(t, c, CallSnapshot(v, w));
    SnapCallDoes(c, v, w);
  }

  lemma InstallDoes(c: Cluster, pkt: Packet)
    requires pkt.SnapReq? && pkt.to in c.nodes && |c.nodes[pkt.to].log| > 0 && |pkt.prefix| == pkt.snapshot.lastIndex + 1
    ensures
      var c', done := DoDeliver(c, pkt), OnSnapshot(c.nodes[pkt.to], pkt.snapshot, pkt.prefix);
      && c'.nodes == c.nodes[pkt.to := done.0] && c'.calls == c.calls
      && c'.net == c.net + {SnapRsp(pkt.id, pkt.to, pkt.snapshot.leader, pkt.snapshot, done.1)}
  {
  }

  lemma AnswerSnapshot(t: Trace, c: Cluster, pkt: Packet) returns (t': Trace, c': Cluster)
    requires Ends(t, c) && pkt in c.net && pkt.SnapReq? && pkt.to in c.nodes && |c.nodes[pkt.to].log| > 0
    requires |pkt.prefix| == pkt.snapshot.lastIndex + 1
    ensures Ends(t', c') && Onto(t, t') && c'.members == c.members && c'.calls == c.calls
    ensures
      var done := OnSnapshot(c.nodes[pkt.to], pkt.snapshot, pkt.prefix);
      && c'.nodes == c.nodes[pkt.to := done.0]
      && SnapRsp(pkt.id, pkt.to, pkt.snapshot.leader, pkt.snapshot, done.1) in c'.net
  {
    EndsSound(t, c);
    c' := After(c, Deliver(pkt));
    t' := Move(t, c, Deliver(pkt));
    InstallDoes(c, pkt);
  }

  lemma SnapReplyDoes(c: Cluster, pkt: Packet)
    requires pkt.SnapRsp? && pkt.to in c.nodes && |c.nodes[pkt.to].log| > 0
    ensures
      var c' := DoDeliver(c, pkt);
      c'.nodes == c.nodes[pkt.to := Handled(c.nodes[pkt.to], pkt)] && c'.net == c.net && c'.calls == c.calls - {pkt.id}
  {
    DeliverIsHandled(c, pkt);
  }

  lemma TakeSnapReply(t: Trace, c: Cluster, pkt: Packet) returns (t': Trace, c': Cluster)
    requires Ends(t, c) && pkt in c.net && pkt.SnapRsp? && pkt.to in c.nodes && |c.nodes[pkt.to].log| > 0 && pkt.id in c.calls
    ensures Ends(t', c') && Onto(t, t') && c'.members == c.members
    ensures c'.nodes == c.nodes[pkt.to := OnSnapshotResponse(c.nodes[pkt.to], pkt.from, pkt.snapshot, pkt.snapshotResp)]
    ensures c'.calls == c.calls - {pkt.id}
  {
    EndsSound(t, c);
    c' := After(c, Deliver(pkt));
    t' := Move(t, c, Deliver(pkt));
    SnapReplyDoes(c, pkt);
  }

  lemma SnapRound(t: Trace, c: Cluster, v: Id, w: Id) returns (t': Trace, c': Cluster)
    requires Ends(t, c) && Ready(c, v, w) && ShouldInstall(c.nodes[v], w) && Sane(c.nodes[v]) && |c.nodes[w].log| > 0
    ensures Ends(t', c') && Onto(t, t')
    ensures
      var l := c.nodes[v];
      var (f, resp) := OnSnapshot(c.nodes[w], MakeSnapshot(l), l.log[..l.snap + 1]);
      Between(c, c', v, w, OnSnapshotResponse(l, w, MakeSnapshot(l), resp), f)
  {
    Seat(t, c, v);
    var l := c.nodes[v];
    var req, prefix := MakeSnapshot(l), l.log[..l.snap + 1];
    var resp := OnSnapshot(c.nodes[w], req, prefix).1;
    var t1, c1 := CallSnapshotTo(t, c, v, w);
    var t2, c2 := AnswerSnapshot(t1, c1, SnapReq(c.issued, w, req, prefix));
    OntoTrans(t, t1, t2);
    t', c' := TakeSnapReply(t2, c2, SnapRsp(c.issued, w, v, req, resp));
    OntoTrans(t, t2, t');
  }

  // ---------------------------------------------------------------- what a round comes to

  /** The leader is as it was, but for what it knows of `w` and how far it has committed. */
  ghost predicate Same(l: Node, l': Node, w: Id) {
    && l'.role == l.role && l'.term == l.term && l'.log == l.log && l'.applied >= l.applied && l'.commit >= l.commit
    && forall u :: u != w ==> Lookup(l'.matchIndex, u) == Lookup(l.matchIndex, u) && Lookup(l'.nextIndex, u) == Lookup(l.nextIndex, u)
  }

  /** The follower holds the leader's log, and the leader knows. */
  ghost predicate InStep(l: Node, f: Node, w: Id) {
    && |l.log| > 0 && f.term <= l.term && Agree(f.log, l.log, LastIndex(l.log))
    && Lookup(l.matchIndex, w) == LastIndex(l.log) && Lookup(l.nextIndex, w) == |l.log|
  }

  lemma CountSame(l: Node, w: Id, m: nat)
    requires |l.log| > 0
    ensures Same(l, CountMatch(l, w, m), w)
    ensures Lookup(CountMatch(l, w, m).matchIndex, w) == m && Lookup(CountMatch(l, w, m).nextIndex, w) == m + 1
  {
    CountTeaches(l, w, m);
    CountApplies(l, w, m);
    CountRaises(l, w, m);
  }

  lemma AcceptedInStep(l: Node, f: Node, w: Id, req: AppendRequest)
    requires Related(l, f, w) && MakeAppend(l, w) == (l, Some(req)) && PrevMatches(f, req)
    ensures
      var (f', resp) := OnAppend(f, req);
      var l' := OnAppendResponse(l, w, req, resp);
      Same(l, l', w) && InStep(l', f', w)
  {
    AcceptedLog(f, req);
    AcceptedAgrees(l, f, req);
    CountSame(l, w, LastIndex(l.log));
    LeadersAreFollowed(f, req);
    assert req.prevIndex + |req.entries| == LastIndex(l.log);
    assert OnAppendResponse(l, w, req, AppendResponse(req.term, true)) == CountMatch(l, w, LastIndex(l.log));
  }

  lemma RefusedGoesDown(l: Node, f: Node, w: Id, req: AppendRequest)
    requires Related(l, f, w) && MakeAppend(l, w) == (l, Some(req)) && !PrevMatches(f, req)
    ensures
      var (f', resp) := OnAppend(f, req);
      var l' := OnAppendResponse(l, w, req, resp);
      && Same(l, l', w) && f'.term == l.term && f'.snap == f.snap
      && f.snap < Lookup(l'.nextIndex, w) < Lookup(l.nextIndex, w)
  {
    assert req.prevIndex != f.snap;
    LeadersAreFollowed(f, req);
  }

  lemma InstallGoesUp(l: Node, f: Node, w: Id)
    requires Related(l, f, w) && ShouldInstall(l, w)
    ensures
      var (f', resp) := OnSnapshot(f, MakeSnapshot(l), l.log[..l.snap + 1]);
      var l' := OnSnapshotResponse(l, w, MakeSnapshot(l), resp);
      && Same(l, l', w) && f'.term == l.term && f.snap < f'.snap < |l.log| && f'.snap < Lookup(l'.nextIndex, w)
  {
    SnapshotsAreInstalled(f, MakeSnapshot(l), l.log[..l.snap + 1]);
    CountSame(l, w, l.snap);
    assert OnSnapshotResponse(l, w, MakeSnapshot(l), SnapshotResponse(l.term)) == CountMatch(l, w, l.snap);
  }

  // ---------------------------------------------------------------- one peer

  /** Only `v` and `w` have changed, and `v` only in what concerns `w`. */
  ghost predicate Rounds(c: Cluster, c': Cluster, v: Id, w: Id) {
    && c'.members == c.members && c'.nodes.Keys == c.nodes.Keys && v in c.nodes && Unengaged(c', v)
    && Same(c.nodes[v], c'.nodes[v], w)
    && forall u {:trigger c'.nodes[u]} :: u in c.nodes && u != v && u != w ==> c'.nodes[u] == c.nodes[u]
  }

  lemma RoundsTrans(a: Cluster, b: Cluster, c: Cluster, v: Id, w: Id)
    requires Rounds(a, b, v, w) && Rounds(b, c, v, w)
    ensures Rounds(a, c, v, w)
  {
  }

  /** A request that is accepted. */
  lemma Accepting(t: Trace, c: Cluster, v: Id, w: Id, req: AppendRequest) returns (t': Trace, c': Cluster)
    requires Ends(t, c) && Ready(c, v, w) && Sane(c.nodes[v]) && MakeAppend(c.nodes[v], w).1 == Some(req) && PrevMatches(c.nodes[w], req)
    ensures Ends(t', c') && Onto(t, t') && Rounds(c, c', v, w) && InStep(c'.nodes[v], c'.nodes[w], w)
    ensures |c.nodes[w].log| > 0 && c'.nodes[w] == OnAppend(c.nodes[w], req).0
  {
    ReadyIsRelated(t, c, v, w);
    t', c' := AppendRound(t, c, v, w, req);
    AcceptedInStep(c.nodes[v], c.nodes[w], w, req);
  }

  lemma Refusing(t: Trace, c: Cluster, v: Id, w: Id, req: AppendRequest) returns (t': Trace, c': Cluster)
    requires Ends(t, c) && Ready(c, v, w) && Sane(c.nodes[v]) && MakeAppend(c.nodes[v], w).1 == Some(req) && !PrevMatches(c.nodes[w], req)
    ensures Ends(t', c') && Onto(t, t') && Rounds(c, c', v, w) && Ready(c', v, w)
    ensures c'.nodes[w].snap == c.nodes[w].snap && Lookup(c'.nodes[v].nextIndex, w) < Lookup(c.nodes[v].nextIndex, w)
  {
    ReadyIsRelated(t, c, v, w);
    t', c' := AppendRound(t, c, v, w, req);
    RefusedGoesDown(c.nodes[v], c.nodes[w], w, req);
  }

  lemma Installing(t: Trace, c: Cluster, v: Id, w: Id) returns (t': Trace, c': Cluster)
    requires Ends(t, c) && Ready(c, v, w) && ShouldInstall(c.nodes[v], w)
    ensures Ends(t', c') && Onto(t, t') && Rounds(c, c', v, w) && Ready(c', v, w)
    ensures c.nodes[w].snap < c'.nodes[w].snap < |c.nodes[v].log|
  {
    ReadyIsRelated(t, c, v, w);
    t', c' := SnapRound(t, c, v, w);
    InstallGoesUp(c.nodes[v], c.nodes[w], w);
  }

  /** Requests and snapshots in turn bring the peer's log to the leader's. */
  lemma {:induction false} BringUp(t: Trace, c: Cluster, v: Id, w: Id) returns (t': Trace, c': Cluster)
    requires Ends(t, c) && Ready(c, v, w) && c.nodes[w].snap < |c.nodes[v].log|
    ensures Ends(t', c') && Onto(t, t') && Rounds(c, c', v, w) && InStep(c'.nodes[v], c'.nodes[w], w)
    decreases |c.nodes[v].log| - c.nodes[w].snap, Lookup(c.nodes[v].nextIndex, w)
  {
    ReadyIsRelated(t, c, v, w);
    PeerIsServed(c.nodes[v], w);
    if ShouldInstall(c.nodes[v], w) {
      t', c' := Installing(t, c, v, w);
    } else {
      var req := MakeAppend(c.nodes[v], w).1.value;
      if PrevMatches(c.nodes[w], req) {
        t', c' := Accepting(t, c, v, w, req);
        return;
      }
      t', c' := Refusing(t, c, v, w, req);
    }
    var t1, c1 := t', c';
    t', c' := BringUp(t1, c1, v, w);
    OntoTrans(t, t1, t');
    RoundsTrans(c, c1, c', v, w);
  }

  // ---------------------------------------------------------------- all peers

  /** The leader holds its whole log itself, and its last entry is of its term. */
  ghost predicate Heads(c: Cluster, v: Id) {
    && v in c.nodes && c.nodes[v].role == Leader && Unengaged(c, v) && |c.nodes[v].log| > 0
    && LastTerm(c.nodes[v].log) == c.nodes[v].term && Lookup(c.nodes[v].matchIndex, v) == LastIndex(c.nodes[v].log)
  }

  ghost predicate Underway(c: Cluster, v: Id, todo: set<Id>) {
    && Heads(c, v) && c.nodes.Keys == c.members && todo <= c.members - {v}
    && (forall w {:trigger Ready(c, v, w)} :: w in todo ==> Ready(c, v, w) && c.nodes[w].snap < |c.nodes[v].log|)
    && (forall w {:trigger InStep(c.nodes[v], c.nodes[w], w)} :: w in c.members && w != v && w !in todo ==> InStep(c.nodes[v], c.nodes[w], w))
  }

  lemma UnderwayStep(c: Cluster, c': Cluster, v: Id, w: Id, todo: set<Id>)
    requires Underway(c, v, todo) && w in todo && Rounds(c, c', v, w) && w in c'.nodes && InStep(c'.nodes[v], c'.nodes[w], w)
    ensures Underway(c', v, todo - {w})
  {
    forall u | u in todo - {w}
      ensures Ready(c', v, u) && c'.nodes[u].snap < |c'.nodes[v].log|
    {
      assert Ready(c, v, u);
    }
    forall u | u in c'.members && u != v && u !in todo - {w}
      ensures InStep(c'.nodes[v], c'.nodes[u], u)
    {
      assert u != w ==> InStep(c.nodes[v], c.nodes[u], u);
    }
  }

  lemma {:induction false} BringAllUp(t: Trace, c: Cluster, v: Id, todo: set<Id>) returns (t': Trace, c': Cluster)
    requires Ends(t, c) && Underway(c, v, todo)
    ensures Ends(t', c') && Onto(t, t') && Underway(c', v, {}) && c'.members == c.members
    ensures c'.nodes[v].log == c.nodes[v].log && c'.nodes[v].term == c.nodes[v].term
    decreases |todo|
  {
    t', c' := t, c;
    if todo != {} {
      var w :| w in todo;
      assert Ready(c, v, w);
      var t1, c1 := BringUp(t, c, v, w);
      UnderwayStep(c, c1, v, w, todo);
      t', c' := BringAllUp(t1, c1, v, todo - {w});
      OntoTrans(t, t1, t');
    } else {
      assert todo == {};
    }
  }

  // ---------------------------------------------------------------- committing and applying

  lemma AllHeldIsCommitted(t: Trace, c: Cluster, v: Id)
    requires Ends(t, c) && Underway(c, v, {})
    ensures c.nodes[v].commit >= LastIndex(c.nodes[v].log)
  {
    var n := c.nodes[v];
    var last := LastIndex(n.log);
    Seat(t, c, v);
    forall w | w in c.members
      ensures Lookup(n.matchIndex, w) >= last
    {
      assert w != v ==> InStep(n, c.nodes[w], w);
    }
    assert (set p | p in c.members && Lookup(n.matchIndex, p) >= last) == c.members;
    assert v in c.members && |c.members| > 0;
    assert Unrolled(t, true);
    RunIsLoose(t.cs, t.ss);
    HeldEntriesAreCommitted(t.cs, t.ss, |t.ss|, v, last);
  }

  /** The node applies what it has committed. */
  lemma Apply(t: Trace, c: Cluster, w: Id) returns (t': Trace, c': Cluster)
    requires Ends(t, c) && w in c.nodes
    ensures Ends(t', c') && Onto(t, t') && Sane(c.nodes[w])
    ensures c'.members == c.members && c'.calls == c.calls && c'.nodes == c.nodes[w := ApplyCommitted(c.nodes[w])]
  {
    EndsSound(t, c);
    c' := After(c, Tick(w));
    t' := Move(t, c, Tick(w));
  }

  /** All have the leader's log, the leader has committed it, and all but `todo` have applied it. */
  ghost predicate Spreads(c: Cluster, v: Id, todo: set<Id>) {
    && Underway(c, v, {}) && todo <= c.members
    && c.nodes[v].commit >= LastIndex(c.nodes[v].log)
    && forall w {:trigger c.nodes[w]} :: w in c.members && w !in todo ==> c.nodes[w].applied >= LastIndex(c.nodes[v].log)
  }

  lemma AppliedNode(n: Node, last: nat)
    requires Sane(n) && n.commit >= last && LastIndex(n.log) >= last
    ensures
      var n' := ApplyCommitted(n);
      && n'.applied >= last && n'.log == n.log && n'.term == n.term && n'.role == n.role && n'.commit == n.commit
      && n'.matchIndex == n.matchIndex && n'.nextIndex == n.nextIndex
  {
    ApplyDuty(n);
  }

  lemma SpreadsOn(c: Cluster, c': Cluster, v: Id, w: Id, todo: set<Id>)
    requires Spreads(c, v, todo) && w in c.nodes && c.nodes[w].commit >= LastIndex(c.nodes[v].log) && Sane(c.nodes[w])
    requires c'.members == c.members && c'.calls == c.calls && c'.nodes == c.nodes[w := ApplyCommitted(c.nodes[w])]
    ensures Spreads(c', v, todo - {w})
    ensures c'.nodes[v].log == c.nodes[v].log && c'.nodes[v].term == c.nodes[v].term
  {
    assert w != v ==> InStep(c.nodes[v], c.nodes[w], w);
    AppliedNode(c.nodes[w], LastIndex(c.nodes[v].log));
    forall u | u in c'.members && u != v
      ensures InStep(c'.nodes[v], c'.nodes[u], u)
    {
      assert InStep(c.nodes[v], c.nodes[u], u);
    }
  }

  lemma SnapshotInside(t: Trace, c: Cluster, v: Id, w: Id)
    requires Ends(t, c) && Heads(c, v) && w in c.nodes && c.nodes[w].term <= c.nodes[v].term
    ensures Sane(c.nodes[w]) && c.nodes[w].snap < |c.nodes[v].log|
  {
    EndsSound(t, c);
    BaseNode(c, w);
    LeaderOfTerm(c, v);
    LeaderAgrees(c, w, c.nodes[v].term, c.nodes[w].snap);
  }

  lemma Heartbeat(l: Node, f: Node, w: Id)
    requires Sane(l) && Sane(f) && InStep(l, f, w) && f.snap < |l.log| && l.commit >= LastIndex(l.log)
    ensures
      var req := AppendRequest(l.term, l.id, LastIndex(l.log), LastTerm(l.log), [], l.commit);
      && MakeAppend(l, w).1 == Some(req) && PrevMatches(f, req) && OnAppend(f, req).0.commit >= LastIndex(l.log)
  {
    var req := AppendRequest(l.term, l.id, LastIndex(l.log), LastTerm(l.log), [], l.commit);
    assert l.log[|l.log|..] == [];
    LeadersAreFollowed(f, req);
  }

  /** A heartbeat tells the peer how far the leader has committed, and the peer applies it. */
  lemma Inform(t: Trace, c: Cluster, v: Id, w: Id, todo: set<Id>) returns (t': Trace, c': Cluster)
    requires Ends(t, c) && Spreads(c, v, todo) && w in todo && w != v
    ensures Ends(t', c') && Onto(t, t') && c'.members == c.members && Spreads(c', v, todo - {w})
    ensures c'.nodes[v].log == c.nodes[v].log && c'.nodes[v].term == c.nodes[v].term
  {
    assert InStep(c.nodes[v], c.nodes[w], w);
    SnapshotInside(t, c, v, w);
    Seat(t, c, v);
    Heartbeat(c.nodes[v], c.nodes[w], w);
    var t1, c1 := Accepting(t, c, v, w, MakeAppend(c.nodes[v], w).1.value);
    SpreadsStill(c, c1, v, w, todo);
    t', c' := Apply(t1, c1, w);
    SpreadsOn(c1, c', v, w, todo);
    OntoTrans(t, t1, t');
  }

  lemma SpreadsStill(c: Cluster, c': Cluster, v: Id, w: Id, todo: set<Id>)
    requires Spreads(c, v, todo) && w in todo && w != v && Rounds(c, c', v, w) && InStep(c'.nodes[v], c'.nodes[w], w)
    ensures Spreads(c', v, todo)
  {
    forall u | u in c'.members && u != v
      ensures InStep(c'.nodes[v], c'.nodes[u], u)
    {
      assert InStep(c.nodes[v], c.nodes[u], u);
    }
  }

  lemma {:induction false} InformAll(t: Trace, c: Cluster, v: Id, todo: set<Id>) returns (t': Trace, c': Cluster)
    requires Ends(t, c) && Spreads(c, v, todo) && v !in todo
    ensures Ends(t', c') && Onto(t, t') && c'.members == c.members && Spreads(c', v, {})
    ensures c'.nodes[v].log == c.nodes[v].log && c'.nodes[v].term == c.nodes[v].term
    decreases |todo|
  {
    t', c' := t, c;
    if todo != {} {
      var w :| w in todo;
      var t1, c1 := Inform(t, c, v, w, todo);
      t', c' := InformAll(t1, c1, v, todo - {w});
      OntoTrans(t, t1, t');
    } else {
      assert todo == {};
    }
  }

  // ---------------------------------------------------------------- the same log everywhere

  lemma SameLog(t: Trace, c: Cluster, v: Id, w: Id)
    requires Ends(t, c) && Heads(c, v) && w in c.nodes && c.nodes[w].term <= c.nodes[v].term
    requires Agree(c.nodes[w].log, c.nodes[v].log, LastIndex(c.nodes[v].log))
    ensures c.nodes[w].log == c.nodes[v].log
  {
    EndsSound(t, c);
    LeaderOfTerm(c, v);
    LogIsRooted(c, w);
    assert Unrolled(t, true);
    RunIsLoose(t.cs, t.ss);
    Elections.LogShape(t.cs, t.ss, |t.ss|, w);
    NoLonger(c.h.reigns, c.nodes[w].log, c.nodes[v].log, c.nodes[v].term);
  }

  lemma NoLonger(rs: Reigns, a: Log, b: Log, t: nat)
    requires WellFormed(a) && Rooted(rs, a) && t in rs && rs[t].log == b && |b| > 0 && Agree(a, b, LastIndex(b))
    requires LastTerm(a) <= t == LastTerm(b)
    ensures |a| <= |b|
  {
    var k := LastIndex(a);
    assert LastIndex(b) < k ==> a[LastIndex(b)].term <= a[k].term;
    assert a[k].term == t;
    if k > 0 {
      assert RootedAt(rs, a, k);
    }
  }

  /** One leader, one log, applied to the end by every member, and one store. */
  ghost predicate United(c: Cluster, v: Id) {
    && v in c.nodes && c.nodes[v].role == Leader && c.nodes.Keys == c.members
    && |c.nodes[v].log| > 0 && LastTerm(c.nodes[v].log) == c.nodes[v].term
    && forall w {:trigger c.nodes[w]} :: w in c.members ==>
         && c.nodes[w].log == c.nodes[v].log
         && c.nodes[w].applied == LastIndex(c.nodes[v].log)
         && c.nodes[w].kv == Replay(c.nodes[v].log, LastIndex(c.nodes[v].log))
  }

  lemma SpreadIsUnited(t: Trace, c: Cluster, v: Id)
    requires Ends(t, c) && Spreads(c, v, {})
    ensures United(c, v)
  {
    EndsSound(t, c);
    forall w | w in c.members
      ensures c.nodes[w].log == c.nodes[v].log && c.nodes[w].applied == LastIndex(c.nodes[v].log)
      ensures c.nodes[w].kv == Replay(c.nodes[v].log, LastIndex(c.nodes[v].log))
    {
      if w != v {
        assert InStep(c.nodes[v], c.nodes[w], w);
        SameLog(t, c, v, w);
      }
      BaseNode(c, w);
    }
  }

  /** From where all are either caught up or can be, to the end. */
  lemma Unite(t: Trace, c: Cluster, v: Id, todo: set<Id>) returns (t': Trace, c': Cluster)
    requires Ends(t, c) && Underway(c, v, todo)
    ensures Ends(t', c') && Onto(t, t') && United(c', v)
    ensures c'.nodes[v].log == c.nodes[v].log && c'.nodes[v].term == c.nodes[v].term
  {
    var t1, c1 := BringAllUp(t, c, v, todo);
    AllHeldIsCommitted(t1, c1, v);
    assert Spreads(c1, v, c1.members);
    var t2, c2 := Apply(t1, c1, v);
    SpreadsOn(c1, c2, v, v, c1.members);
    OntoTrans(t, t1, t2);
    t', c' := InformAll(t2, c2, v, c1.members - {v});
    OntoTrans(t, t2, t');
    SpreadIsUnited(t', c', v);
  }

  // ---------------------------------------------------------------- from anywhere

  /** The new leader takes one command. */
  lemma Submit(t: Trace, c: Cluster, v: Id, cmd: Command) returns (t': Trace, c': Cluster)
    requires Ends(t, c) && v in c.nodes && c.nodes[v].role == Leader
    ensures Ends(t', c') && Onto(t, t') && c'.calls == c.calls && c'.members == c.members && |c.nodes[v].log| > 0
    ensures c'.nodes == c.nodes[v := Propose(c.nodes[v], cmd).0]
  {
    EndsSound(t, c);
    c' := After(c, ClientPut(v, cmd));
    t' := Move(t, c, ClientPut(v, cmd));
    PutDoes(c, v, cmd);
  }

  lemma PutDoes(c: Cluster, v: Id, cmd: Command)
    requires v in c.nodes && |c.nodes[v].log| > 0
    ensures DoPut(c, v, cmd).nodes == c.nodes[v := Propose(c.nodes[v], cmd).0] && DoPut(c, v, cmd).calls == c.calls
  {
    PutNodes(c, v, cmd);
  }

  lemma ProposeKeepsPeers(n: Node, cmd: Command)
    requires |n.log| > 0 && n.role == Leader
    ensures
      var n' := Propose(n, cmd).0;
      && n'.role == Leader && n'.term == n.term && n'.log == n.log + [Entry(n.term, cmd, None)]
      && Lookup(n'.matchIndex, n.id) == |n.log|
      && forall w :: w != n.id ==> Lookup(n'.nextIndex, w) == Lookup(n.nextIndex, w)
  {
    FinishKeepsFrame(LeaderAppend(n, Entry(n.term, cmd, None)));
  }

  lemma LaterEntriesDiffer(a: Log, b: Log, k: nat, m: nat)
    requires Ordered(a) && |a| > 0 && Agree(a, b, k) && |b| == m + 1 && LastTerm(a) < b[m].term
    ensures k < m
  {
    assert a[k].term <= LastTerm(a);
  }

  /** A leader's peers, its own old log being at least as up to date, hold nothing of its term. */
  lemma NothingOfItsTerm(t: Trace, c: Cluster, v: Id, w: Id, term: nat)
    requires Ends(t, c) && v in c.nodes && w in c.nodes && c.nodes[v].term < term && |c.nodes[v].log| > 0 && |c.nodes[w].log| > 0
    requires NoOlder(c.nodes[v].log, c.nodes[w].log)
    ensures Ordered(c.nodes[w].log) && LastTerm(c.nodes[w].log) < term
  {
    assert Unrolled(t, true);
    RunIsLoose(t.cs, t.ss);
    Elections.LogShape(t.cs, t.ss, |t.ss|, v);
    Elections.LogShape(t.cs, t.ss, |t.ss|, w);
  }

  /** So nobody has compacted more than that old log. */
  lemma SnapshotsAreOld(t: Trace, c: Cluster, v: Id, w: Id, m: nat)
    requires Ends(t, c) && v in c.nodes && w in c.nodes && c.nodes[v].role == Leader && c.nodes[w].term <= c.nodes[v].term
    requires |c.nodes[v].log| == m + 1 && c.nodes[v].log[m].term == c.nodes[v].term
    requires |c.nodes[w].log| > 0 && Ordered(c.nodes[w].log) && LastTerm(c.nodes[w].log) < c.nodes[v].term
    ensures c.nodes[w].snap < m
  {
    EndsSound(t, c);
    BaseNode(c, w);
    LeaderOfTerm(c, v);
    LeaderAgrees(c, w, c.nodes[v].term, c.nodes[w].snap);
    LaterEntriesDiffer(c.nodes[w].log, c.nodes[v].log, c.nodes[w].snap, m);
  }

  /** Just elected, with `was` the leader's log until then. */
  ghost predicate Prepared(c: Cluster, v: Id, was: Log) {
    && v in c.nodes && c.nodes[v].role == Leader && c.nodes[v].id == v && Unengaged(c, v) && c.nodes.Keys == c.members
    && c.nodes[v].log == was + [NoOp(c.nodes[v].term)]
    && forall w {:trigger c.nodes[w]} :: w in c.members && w != v ==>
         c.nodes[w].term <= c.nodes[v].term && c.nodes[w].snap < |was| == Lookup(c.nodes[v].nextIndex, w)
  }

  /** The leader has taken `cmd` after its election: all its peers are ready. */
  lemma SubmittedIsUnderway(c: Cluster, c': Cluster, v: Id, was: Log, cmd: Command)
    requires Prepared(c, v, was)
    requires c'.calls == c.calls && c'.members == c.members && c'.nodes == c.nodes[v := Propose(c.nodes[v], cmd).0]
    ensures Underway(c', v, c'.members - {v})
    ensures c'.nodes[v].log == was + [NoOp(c'.nodes[v].term), Entry(c'.nodes[v].term, cmd, None)]
  {
    ProposeKeepsPeers(c.nodes[v], cmd);
  }

  lemma WonIsPrepared(t: Trace, c: Cluster, t': Trace, c': Cluster, v: Id, n: Node)
    requires Ends(t, c) && AllSane(c) && Electable(c.nodes, c.members, v)
    requires Ends(t', c') && Spared(c, c', v) && Won(c, c', v, n) && c'.nodes[v].term > c.nodes[v].term && Unengaged(c', v)
    ensures Prepared(c', v, c.nodes[v].log)
  {
    Seat(t', c', v);
    forall w | w in c'.members && w != v
      ensures c'.nodes[w].term <= c'.nodes[v].term && c'.nodes[w].snap < |n.log| == Lookup(c'.nodes[v].nextIndex, w)
    {
      NothingOfItsTerm(t, c, v, w, c'.nodes[v].term);
      SnapshotsAreOld(t', c', v, w, |n.log|);
    }
  }

  lemma TakeOver(t: Trace, c: Cluster, v: Id, cmd: Command) returns (t': Trace, c': Cluster)
    requires Ends(t, c) && AllSane(c) && Electable(c.nodes, c.members, v)
    ensures Ends(t', c') && Onto(t, t') && Underway(c', v, c'.members - {v})
    ensures c'.nodes[v].log == c.nodes[v].log + [NoOp(c'.nodes[v].term), Entry(c'.nodes[v].term, cmd, None)]
  {
    var t1, c1, n := Elect(t, c, v);
    WonIsPrepared(t, c, t1, c1, v, n);
    t', c' := Submit(t1, c1, v, cmd);
    OntoTrans(t, t1, t');
    SubmittedIsUnderway(c1, c', v, c.nodes[v].log, cmd);
  }

  /** From any state, any node at least as up to date as all others can come to lead a cluster
      in which everybody has applied its whole log, and after it any command. */
  lemma LeadOn(t: Trace, c: Cluster, v: Id, cmd: Command) returns (t': Trace, c': Cluster)
    requires Ends(t, c) && AllSane(c) && Electable(c.nodes, c.members, v)
    ensures Ends(t', c') && Onto(t, t') && United(c', v)
    ensures c'.nodes[v].log == c.nodes[v].log + [NoOp(c'.nodes[v].term), Entry(c'.nodes[v].term, cmd, None)]
  {
    var t1, c1 := TakeOver(t, c, v, cmd);
    t', c' := Unite(t1, c1, v, c1.members - {v});
    OntoTrans(t, t1, t');
  }

  /** Every run, whatever was lost, delayed, crashed or compacted in it, can go on to a state in
      which a leader has had any given command committed, all members have the same log with that
      command at its end, and all have applied it and have the same store. */
  lemma ProgressIsPossible(cs: seq<Cluster>, ss: seq<Step>, cmd: Command)
    returns (cs': seq<Cluster>, ss': seq<Step>, v: Id)
    requires Run(cs, ss)
    ensures Run(cs', ss') && cs <= cs' && ss <= ss'
    ensures
      var c := cs'[|ss'|];
      && v in c.nodes && c.nodes[v].role == Leader && c.nodes.Keys == cs[0].members
      && |c.nodes[v].log| > 0 && c.nodes[v].log[LastIndex(c.nodes[v].log)] == Entry(c.nodes[v].term, cmd, None)
      && forall w {:trigger c.nodes[w]} :: w in c.nodes ==>
           && c.nodes[w].log == c.nodes[v].log
           && c.nodes[w].applied == LastIndex(c.nodes[v].log)
           && c.nodes[w].kv == Replay(c.nodes[v].log, LastIndex(c.nodes[v].log))
  {
    var c := cs[|ss|];
    RunIsLoose(cs, ss);
    v := SomeoneCanBeElected(cs, ss, |ss|);
    SaneHolds(cs, ss, |ss|);
    var t', c' := LeadOn(Trace(cs, ss), c, v, cmd);
    assert Unrolled(t', true);
    cs', ss' := t'.cs, t'.ss;
    PastStays(cs', ss', 0, |ss'|);
  }
}
