/** Leaders' calls and the replies to them keep the discipline. */
module CallSteps {
  import opened RaftTypes
  import opened History
  import opened NodeSpec
  import opened Protocol
  import opened Effects
  import opened Cluster
  import opened ClusterInv
  import opened ElectionSteps
  import opened Discipline
  import opened DisciplineSteps

  // ---------------------------------------------------------------- starting a call

  /** The call does not overtake a snapshot its peer could still install. */
  ghost predicate InOrder(c: Cluster, call: Call, q: Packet) {
    q.SnapReq? && q.to == call.to && q.snapshot.leader == call.from && q.snapshot.term == call.Term() ==>
      match call
      case SnapCall(_, _, req) => q.snapshot.lastIndex <= req.lastIndex
      case AppendCall(_, p, req) =>
        p in c.nodes && (c.nodes[p].term > req.term || c.nodes[p].snap >= q.snapshot.lastIndex)
  }

  function WithCall(c: Cluster, call: Call, pkt: Packet): Cluster {
    c.(net := c.net + {pkt}, calls := c.calls[c.issued := call], issued := c.issued + 1)
  }

  ghost predicate Calls(c: Cluster, c': Cluster, call: Call, pkt: Packet) {
    && Started(c, c')
    && c' == WithCall(c, call, pkt)
    && Active(c.nodes, call.from, call.Term())
    && (Compacts(c.nodes[call.from]) ==> forall id {:trigger Pending(c.calls, id, call.from, call.to, call.Term())} ::
                                           !Pending(c.calls, id, call.from, call.to, call.Term()))
  }

  lemma CallPacket(c: Cluster, c': Cluster, call: Call, pkt: Packet, q: Packet)
    requires Calls(c, c', call, pkt) && q in c.net && Binding(c, q) && InOrder(c, call, q)
    ensures Binding(c', q)
  {
    match q
    case SnapReq(_, p, req, _) =>
      if Active(c.nodes, req.leader, req.term) {
        forall id | Pending(c'.calls, id, req.leader, p, req.term) && id != c.issued
          ensures Pending(c.calls, id, req.leader, p, req.term)
        {
        }
      }
    case _ =>
  }

  lemma CallKept(c: Cluster, c': Cluster, call: Call, pkt: Packet, id: nat)
    requires Calls(c, c', call, pkt) && id in c.calls && id in c'.calls && CallOk(c, id)
    ensures CallOk(c', id)
  {
  }

  lemma CallDisc(c: Cluster, c': Cluster, call: Call, pkt: Packet)
    requires Calls(c, c', call, pkt)
    requires CallOk(c', c.issued) && Binding(c', pkt)
    requires forall q {:trigger InOrder(c, call, q)} :: q in c.net ==> InOrder(c, call, q)
    ensures Disc(c')
  {
    assert Within(c, true);
    forall q | q in c'.net
      ensures Binding(c', q)
    {
      if q != pkt {
        assert Binding(c, q) && InOrder(c, call, q);
        CallPacket(c, c', call, pkt, q);
      }
    }
    forall id | id in c'.calls
      ensures CallOk(c', id)
    {
      if id != c.issued {
        assert CallOk(c, id);
        CallKept(c, c', call, pkt, id);
      }
    }
    CallAlone(c, c', call, pkt);
    forall l, p | l in c'.nodes && p in c'.nodes
      ensures LeaderSafe(c', l, p)
    {
      assert LeaderSafe(c, l, p);
    }
  }

  lemma CallAlone(c: Cluster, c': Cluster, call: Call, pkt: Packet)
    requires Calls(c, c', call, pkt) && OneCallEach(c) && CallsOk(c)
    ensures OneCallEach(c')
  {
    forall id, id' | id in c'.calls && id' in c'.calls
      ensures SameCall(c', id, id')
    {
      if id != c.issued && id' != c.issued {
        assert SameCall(c, id, id');
      } else {
        assert Compacts(c.nodes[call.from]) ==> !Pending(c.calls, id, call.from, call.to, call.Term());
        assert Compacts(c.nodes[call.from]) ==> !Pending(c.calls, id', call.from, call.to, call.Term());
      }
    }
  }

  // ---------------------------------------------------------------- AppendEntries

  /** The clamp on the next index never fires. */
  lemma NoClamp(n: Node, p: Id)
    requires Sane(n) && n.role == Leader && NextBounded(n)
    ensures MakeAppend(n, p).0 == n
  {
  }

  lemma CallAppendDisc(c: Cluster, v: Id, p: Id)
    requires MayCall(c, v, p) && Started(c, DoCallAppend(c, v, p))
    ensures Disc(DoCallAppend(c, v, p))
  {
    var n := c.nodes[v];
    assert Within(c, true);
    assert NextBounded(n);
    NoClamp(n, p);
    CallAppendShape(c, v, p);
    match MakeAppend(n, p).1
    case None => LocalDisc(c, DoCallAppend(c, v, p), v);
    case Some(req) => SendAppendDisc(c, DoCallAppend(c, v, p), v, p, req);
  }

  lemma CallAppendShape(c: Cluster, v: Id, p: Id)
    requires v in c.nodes && Sane(c.nodes[v]) && MakeAppend(c.nodes[v], p).0 == c.nodes[v]
    ensures
      match MakeAppend(c.nodes[v], p).1
      case None => DoCallAppend(c, v, p) == c
      case Some(req) => DoCallAppend(c, v, p) == WithCall(c, AppendCall(v, p, req), AppendReq(c.issued, p, req))
  {
    assert c.nodes[v := c.nodes[v]] == c.nodes && NewlyApplied(v, c.nodes[v], c.nodes[v]) == {};
  }

  lemma SendAppendDisc(c: Cluster, c': Cluster, v: Id, p: Id, req: AppendRequest)
    requires MayCall(c, v, p) && Started(c, c') && MakeAppend(c.nodes[v], p) == (c.nodes[v], Some(req))
    requires NextBounded(c.nodes[v])
    requires c' == WithCall(c, AppendCall(v, p, req), AppendReq(c.issued, p, req))
    ensures Disc(c')
  {
    BaseNode(c, v);
    assert Lookup(c.nodes[v].nextIndex, p) == req.prevIndex + 1 && req.term == c.nodes[v].term && req.leader == v;
    AppendInOrder(c, v, p, req);
    CallDisc(c, c', AppendCall(v, p, req), AppendReq(c.issued, p, req));
  }

  lemma AppendInOrder(c: Cluster, v: Id, p: Id, req: AppendRequest)
    requires Disc(c) && v in c.nodes && Active(c.nodes, v, req.term)
    requires c.nodes[v].snap < Lookup(c.nodes[v].nextIndex, p)
    ensures forall q {:trigger InOrder(c, AppendCall(v, p, req), q)} :: q in c.net ==> InOrder(c, AppendCall(v, p, req), q)
  {
    assert Within(c, true);
    forall q | q in c.net
      ensures InOrder(c, AppendCall(v, p, req), q)
    {
      assert Binding(c, q);
    }
  }

  // ---------------------------------------------------------------- InstallSnapshot

  lemma CallSnapshotDisc(c: Cluster, v: Id, p: Id)
    requires MayCall(c, v, p) && ShouldInstall(c.nodes[v], p) && Started(c, DoCallSnapshot(c, v, p))
    ensures Disc(DoCallSnapshot(c, v, p))
  {
    var n, c' := c.nodes[v], DoCallSnapshot(c, v, p);
    var req := MakeSnapshot(n);
    var call, pkt := SnapCall(v, p, req), SnapReq(c.issued, p, req, n.log[..n.snap + 1]);
    BaseNode(c, v);
    assert Within(c, true);
    SnapshotIsSafe(c, c', v, p, req);
    forall q | q in c.net
      ensures InOrder(c, call, q)
    {
      assert Binding(c, q);
    }
    CallDisc(c, c', call, pkt);
  }

  lemma SnapshotIsSafe(c: Cluster, c': Cluster, v: Id, p: Id, req: SnapshotRequest)
    requires MayCall(c, v, p) && ShouldInstall(c.nodes[v], p) && Started(c, c') && req == MakeSnapshot(c.nodes[v])
    requires c'.nodes == c.nodes && c'.h == c.h && c'.compacting == c.compacting
    requires c'.calls == c.calls[c.issued := SnapCall(v, p, req)]
    ensures SnapSafe(c', p, req)
  {
    BaseNode(c, v);
    assert Within(c, true);
    assert LeaderSafe(c, v, p);
    forall id | Pending(c'.calls, id, v, p, req.term)
      ensures c'.calls[id] == SnapCall(v, p, req)
    {
      assert !Pending(c.calls, id, v, p, req.term);
    }
  }

  // ---------------------------------------------------------------- learning from a reply

  /** Leader `v` ends call `id` to `p`, perhaps counting `p`'s copy through `m`. */
  ghost predicate Learns(c: Cluster, c': Cluster, v: Id, p: Id, m: nat, id: nat) {
    && Started(c, c')
    && v in c.nodes && v in c'.nodes && p in c.nodes && p != v
    && c'.nodes == c.nodes[v := c'.nodes[v]]
    && c.nodes[v].role == Leader && c'.nodes[v].role == Leader
    && c'.nodes[v].term == c.nodes[v].term && c'.nodes[v].log == c.nodes[v].log
    && (Compacts(c'.nodes[v]) ==> Compacts(c.nodes[v]))
    && (forall q {:trigger Lookup(c'.nodes[v].nextIndex, q)} ::
          if q == p then Lookup(c'.nodes[v].nextIndex, q) <= |c.nodes[v].log|
          else Lookup(c'.nodes[v].nextIndex, q) == Lookup(c.nodes[v].nextIndex, q))
    && c'.h.acks == c.h.acks
    && c'.h.counted <= c.h.counted + {Ack(c.nodes[v].term, p, m)}
    && c'.calls == c.calls - {id} && c'.issued == c.issued && c'.net == c.net
    && Pending(c.calls, id, v, p, c.nodes[v].term)
  }

  lemma LearnSafeAt(c: Cluster, c': Cluster, v: Id, p: Id, m: nat, id: nat, q: Id, t: nat, j: nat)
    requires Learns(c, c', v, p, m, id) && q in c.nodes && t in c.h.reigns
    requires (t != c.nodes[v].term || q != p) || m <= j || c'.h.counted <= c.h.counted
             || c.nodes[q].term > t || c.nodes[q].snap >= j
    requires SafeAt(c.h.reigns, c.h.acks, c.h.counted, c.nodes[q], q, t, j)
    ensures t in c'.h.reigns && SafeAt(c'.h.reigns, c'.h.acks, c'.h.counted, c'.nodes[q], q, t, j)
  {
    assert Within(c, true) && Within(c', true);
    assert Inside(ViewOf(c), true) && Inside(ViewOf(c'), true);
    assert ReignGrows(c.h.reigns, c'.h.reigns, t) && ReignOk(c'.h.reigns, t);
    assert EvolvesAt(c.nodes, c'.nodes, q);
    if c.nodes[q].term <= t && c.nodes[q].snap < j {
      assert Beyond(c'.h.counted, t, q, j) == Beyond(c.h.counted, t, q, j);
      SafeAtGrows(c.h, c'.h, c.nodes[q], c'.nodes[q], q, t, j);
    }
  }

  /** The peer is past any snapshot the leader still has on its way to it. */
  ghost predicate PastSnapshot(c: Cluster, p: Id, t: nat, q: Packet)
    requires p in c.nodes
  {
    q.SnapReq? && q.to == p && q.snapshot.term == t ==>
      c.nodes[p].term > t || c.nodes[p].snap >= q.snapshot.lastIndex
  }

  lemma LearnReply(c: Cluster, c': Cluster, v: Id, p: Id, m: nat, id: nat, q: Packet)
    requires Learns(c, c', v, p, m, id) && q.AppendRsp? && Binding(c, q)
    requires CallsOk(c) && OneCallEach(c)
    ensures Binding(c', q)
  {
    assert Within(c', true);
    if q.id in c'.calls && Active(c'.nodes, q.to, q.append.term) && Compacts(c'.nodes[q.to])
       && !q.appendResp.success && q.appendResp.term <= q.append.term {
      assert CallOk(c, q.id) && CallOk(c, id) && SameCall(c, q.id, id);
      LearnSafeAt(c, c', v, p, m, id, q.from, q.append.term, q.append.prevIndex);
    }
  }

  lemma LearnSnapSafe(c: Cluster, c': Cluster, v: Id, p: Id, m: nat, id: nat, q: Packet)
    requires Learns(c, c', v, p, m, id) && q.SnapReq? && q in c.net && Binding(c, q)
    requires PastSnapshot(c, p, c.nodes[v].term, q)
    ensures Binding(c', q)
  {
    var req := q.snapshot;
    LearnSafeAt(c, c', v, p, m, id, q.to, req.term, req.lastIndex);
    assert Within(c', true);
    BasePacket(c, q);
    BaseNode(c, v);
    assert EvolvesAt(c.nodes, c'.nodes, q.to) && EvolvesAt(c.nodes, c'.nodes, req.leader);
    if Active(c'.nodes, req.leader, req.term) {
      forall i | Pending(c'.calls, i, req.leader, q.to, req.term)
        ensures Pending(c.calls, i, req.leader, q.to, req.term) && c'.calls[i] == c.calls[i]
      {
      }
    }
  }

  lemma LearnLeaderSafe(c: Cluster, c': Cluster, v: Id, p: Id, m: nat, id: nat, l: Id, q: Id)
    requires Learns(c, c', v, p, m, id) && l in c.nodes && q in c.nodes && LeaderSafe(c, l, q)
    requires l != v || q != p
    ensures LeaderSafe(c', l, q)
  {
    var nl := c'.nodes[l];
    if nl.role == Leader && Compacts(nl) && q != l {
      BaseNode(c, l);
      BaseNode(c, v);
      BaseNode(c', l);
      forall j: nat | j >= Lookup(nl.nextIndex, q)
        ensures SafeAt(c'.h.reigns, c'.h.acks, c'.h.counted, c'.nodes[q], q, nl.term, j)
      {
        assert SafeAt(c.h.reigns, c.h.acks, c.h.counted, c.nodes[q], q, nl.term, j);
        LearnSafeAt(c, c', v, p, m, id, q, nl.term, j);
      }
    }
  }

  lemma LearnCall(c: Cluster, c': Cluster, v: Id, p: Id, m: nat, id: nat, i: nat)
    requires Learns(c, c', v, p, m, id) && i in c'.calls && i in c.calls && CallOk(c, i)
    requires id in c.calls && SameCall(c, i, id)
    ensures CallOk(c', i)
  {
    assert Within(c', true);
    assert ReignGrows(c.h.reigns, c'.h.reigns, c.calls[i].Term());
  }

  lemma LearnPackets(c: Cluster, c': Cluster, v: Id, p: Id, m: nat, id: nat)
    requires Learns(c, c', v, p, m, id)
    requires forall q {:trigger PastSnapshot(c, p, c.nodes[v].term, q)} :: q in c.net ==> PastSnapshot(c, p, c.nodes[v].term, q)
    ensures NetBinding(c')
  {
    assert Within(c, true) && Within(c', true);
    forall q | q in c'.net
      ensures Binding(c', q)
    {
      assert Binding(c, q);
      match q
      case AppendRsp(_, _, _, _, _) => LearnReply(c, c', v, p, m, id, q);
      case SnapReq(_, _, _, _) =>
        assert PastSnapshot(c, p, c.nodes[v].term, q);
        LearnSnapSafe(c, c', v, p, m, id, q);
      case SnapRsp(_, from, _, _, _) => assert from in c.nodes ==> EvolvesAt(c.nodes, c'.nodes, from);
      case _ =>
    }
  }

  lemma LearnAlone(c: Cluster, c': Cluster, v: Id, p: Id, m: nat, id: nat)
    requires Learns(c, c', v, p, m, id) && OneCallEach(c)
    ensures OneCallEach(c')
  {
    forall i, i' | i in c'.calls && i' in c'.calls
      ensures SameCall(c', i, i')
    {
      assert SameCall(c, i, i');
    }
  }

  lemma LearnDisc(c: Cluster, c': Cluster, v: Id, p: Id, m: nat, id: nat)
    requires Learns(c, c', v, p, m, id)
    requires forall q {:trigger PastSnapshot(c, p, c.nodes[v].term, q)} :: q in c.net ==> PastSnapshot(c, p, c.nodes[v].term, q)
    requires LeaderSafe(c', v, p)
    ensures Disc(c')
  {
    assert Within(c, true) && Within(c', true);
    LearnPackets(c, c', v, p, m, id);
    forall i | i in c'.calls
      ensures CallOk(c', i)
    {
      assert CallOk(c, i);
      assert SameCall(c, i, id);
      LearnCall(c, c', v, p, m, id, i);
    }
    forall l | l in c'.nodes
      ensures NextBounded(c'.nodes[l])
    {
      assert NextBounded(c.nodes[l]);
    }
    LearnAlone(c, c', v, p, m, id);
    forall l, q | l in c'.nodes && q in c'.nodes
      ensures LeaderSafe(c', l, q)
    {
      if l != v || q != p {
        assert LeaderSafe(c, l, q);
        LearnLeaderSafe(c, c', v, p, m, id, l, q);
      }
    }
  }

  lemma CountLearns(c: Cluster, c': Cluster, v: Id, p: Id, m: nat, id: nat)
    requires Started(c, c') && v in c.nodes && v in c'.nodes && p in c.nodes && p != v && |c.nodes[v].log| > 0
    requires c.nodes[v].role == Leader && m < |c.nodes[v].log| && NextBounded(c.nodes[v])
    requires c'.nodes == c.nodes[v := c'.nodes[v]] && c'.nodes[v] == CountMatch(c.nodes[v], p, m)
    requires c'.h == RecordMatch(c.h, c.nodes[v], p, m, c'.nodes[v])
    requires c'.calls == c.calls - {id} && c'.issued == c.issued && c'.net == c.net
    requires Pending(c.calls, id, v, p, c.nodes[v].term)
    ensures Learns(c, c', v, p, m, id) && Lookup(c'.nodes[v].nextIndex, p) == m + 1
  {
    var n := c.nodes[v];
    FinishKeeps(n.(matchIndex := n.matchIndex[p := m], nextIndex := n.nextIndex[p := m + 1]));
  }

  // ---------------------------------------------------------------- replies to AppendEntries

  lemma AckArrived(c: Cluster, pkt: Packet)
    requires Disc(c) && pkt in c.net && pkt.AppendRsp? && pkt.id in c.calls && Active(c.nodes, pkt.to, pkt.append.term)
    requires pkt.appendResp.success
    ensures Ack(pkt.append.term, pkt.from, pkt.append.prevIndex + |pkt.append.entries|) in c.h.acks
  {
    assert Within(c, true);
    assert Binding(c, pkt);
  }

  /** The leader's log holds everything it was told a peer holds. */
  lemma AckedIsOwn(c: Cluster, v: Id, a: Ack)
    requires Base(c) && v in c.nodes && c.nodes[v].role == Leader && a in c.h.acks && a.term == c.nodes[v].term
    ensures a.upTo < |c.nodes[v].log|
  {
    BaseNode(c, v);
    assert Inside(ViewOf(c), true);
    assert AckValid(c.h.reigns, a) && LeaderOk(ViewOf(c).ns, c.h.reigns, a.term);
  }

  lemma AppendsArePast(c: Cluster, v: Id, p: Id, id: nat)
    requires Base(c) && Disc(c) && v in c.nodes && p in c.nodes && c.nodes[v].role == Leader
    requires Pending(c.calls, id, v, p, c.nodes[v].term) && c.calls[id].AppendCall?
    ensures forall q {:trigger PastSnapshot(c, p, c.nodes[v].term, q)} :: q in c.net ==> PastSnapshot(c, p, c.nodes[v].term, q)
  {
    assert Within(c, true);
    BaseNode(c, v);
    forall q | q in c.net
      ensures PastSnapshot(c, p, c.nodes[v].term, q)
    {
      assert Binding(c, q);
      BasePacket(c, q);
    }
  }

  /** Counting a copy moves the next index past it. */
  lemma CountedSafe(c: Cluster, c': Cluster, v: Id, p: Id, m: nat, id: nat)
    requires Learns(c, c', v, p, m, id) && Compacts(c.nodes[v])
    requires Lookup(c.nodes[v].nextIndex, p) <= m + 1 && Lookup(c'.nodes[v].nextIndex, p) == m + 1
    ensures LeaderSafe(c', v, p)
  {
    var nl := c'.nodes[v];
    assert Within(c, true);
    assert LeaderSafe(c, v, p);
    BaseNode(c', v);
    forall j: nat | j >= m + 1
      ensures SafeAt(c'.h.reigns, c'.h.acks, c'.h.counted, c'.nodes[p], p, nl.term, j)
    {
      assert SafeAt(c.h.reigns, c.h.acks, c.h.counted, c.nodes[p], p, nl.term, j);
      LearnSafeAt(c, c', v, p, m, id, p, nl.term, j);
    }
  }

  /** Backing off uncovers at most the index the peer has just refused. */
  lemma RefusedSafe(c: Cluster, c': Cluster, v: Id, p: Id, prev: nat, id: nat)
    requires Learns(c, c', v, p, prev, id) && Compacts(c.nodes[v]) && c'.h == c.h
    requires Lookup(c.nodes[v].nextIndex, p) == prev + 1 && Lookup(c'.nodes[v].nextIndex, p) >= prev
    requires c.nodes[v].term in c.h.reigns
    requires SafeAt(c.h.reigns, c.h.acks, c.h.counted, c.nodes[p], p, c.nodes[v].term, prev)
    ensures LeaderSafe(c', v, p)
  {
    var nl := c'.nodes[v];
    assert Within(c, true);
    assert LeaderSafe(c, v, p);
    forall j: nat | j >= Lookup(nl.nextIndex, p)
      ensures SafeAt(c'.h.reigns, c'.h.acks, c'.h.counted, c'.nodes[p], p, nl.term, j)
    {
      assert SafeAt(c.h.reigns, c.h.acks, c.h.counted, c.nodes[p], p, nl.term, j);
      LearnSafeAt(c, c', v, p, prev, id, p, nl.term, j);
    }
  }

  lemma AppendRspDisc(c: Cluster, pkt: Packet)
    requires pkt.AppendRsp? && pkt in c.net && pkt.to in c.nodes && |c.nodes[pkt.to].log| > 0 && pkt.id in c.calls
    requires Started(c, DoAppendRsp(c, pkt))
    ensures Disc(DoAppendRsp(c, pkt))
  {
    var n, resp := c.nodes[pkt.to], pkt.appendResp;
    if n.role == Leader && n.term == pkt.append.term && resp.term <= n.term {
      if resp.success {
        AppendCountedDisc(c, DoAppendRsp(c, pkt), pkt);
      } else {
        AppendRefusedDisc(c, DoAppendRsp(c, pkt), pkt);
      }
    } else {
      LocalDisc(c, DoAppendRsp(c, pkt), pkt.to);
    }
  }

  ghost predicate ReplyDue(c: Cluster, c': Cluster, pkt: Packet) {
    && Started(c, c') && pkt in c.net && pkt.AppendRsp? && pkt.id in c.calls
    && Active(c.nodes, pkt.to, pkt.append.term)
    && c'.calls == c.calls - {pkt.id} && c'.issued == c.issued && c'.net == c.net
    && pkt.to in c'.nodes && c'.nodes == c.nodes[pkt.to := c'.nodes[pkt.to]]
  }

  lemma ReplyCall(c: Cluster, c': Cluster, pkt: Packet)
    requires ReplyDue(c, c', pkt)
    ensures Pending(c.calls, pkt.id, pkt.to, pkt.from, pkt.append.term) && c.calls[pkt.id].AppendCall?
    ensures pkt.from in c.nodes && pkt.from != pkt.to && pkt.append.term in c.h.reigns
    ensures Compacts(c.nodes[pkt.to]) ==> Lookup(c.nodes[pkt.to].nextIndex, pkt.from) == pkt.append.prevIndex + 1
    ensures AppendReplyOk(c, pkt.id, pkt.from, pkt.to, pkt.append, pkt.appendResp)
    ensures NextBounded(c.nodes[pkt.to])
  {
    BaseNode(c, pkt.to);
    assert Within(c, true);
    assert Binding(c, pkt) && CallOk(c, pkt.id);
    assert NextBounded(c.nodes[pkt.to]);
  }

  lemma AppendCountedDisc(c: Cluster, c': Cluster, pkt: Packet)
    requires ReplyDue(c, c', pkt) && pkt.appendResp.success && |c.nodes[pkt.to].log| > 0
    requires
      var m := pkt.append.prevIndex + |pkt.append.entries|;
      && c'.nodes[pkt.to] == CountMatch(c.nodes[pkt.to], pkt.from, m)
      && c'.h == RecordMatch(c.h, c.nodes[pkt.to], pkt.from, m, c'.nodes[pkt.to])
    ensures Disc(c')
  {
    var v, p, m, n := pkt.to, pkt.from, pkt.append.prevIndex + |pkt.append.entries|, c.nodes[pkt.to];
    ReplyCall(c, c', pkt);
    AckedIsOwn(c, v, Ack(n.term, p, m));
    CountLearns(c, c', v, p, m, pkt.id);
    AppendsArePast(c, v, p, pkt.id);
    if Compacts(n) {
      CountedSafe(c, c', v, p, m, pkt.id);
    }
    LearnDisc(c, c', v, p, m, pkt.id);
  }

  lemma AppendRefusedDisc(c: Cluster, c': Cluster, pkt: Packet)
    requires ReplyDue(c, c', pkt) && !pkt.appendResp.success && pkt.appendResp.term <= pkt.append.term && |c.nodes[pkt.to].log| > 0
    requires c'.nodes[pkt.to] == OnAppendResponse(c.nodes[pkt.to], pkt.from, pkt.append, pkt.appendResp)
    requires c'.h == c.h
    ensures Disc(c')
  {
    var v, p, n := pkt.to, pkt.from, c.nodes[pkt.to];
    ReplyCall(c, c', pkt);
    BaseNode(c, v);
    assert Lookup(n.nextIndex, p) <= |n.log|;
    assert Learns(c, c', v, p, pkt.append.prevIndex, pkt.id);
    AppendsArePast(c, v, p, pkt.id);
    if Compacts(n) {
      RefusedSafe(c, c', v, p, pkt.append.prevIndex, pkt.id);
    }
    LearnDisc(c, c', v, p, pkt.append.prevIndex, pkt.id);
  }

  // ---------------------------------------------------------------- replies to InstallSnapshot

  lemma SnapAckArrived(c: Cluster, pkt: Packet)
    requires Disc(c) && pkt in c.net && pkt.SnapRsp? && pkt.snapshotResp.term <= pkt.snapshot.term
    ensures Ack(pkt.snapshot.term, pkt.from, pkt.snapshot.lastIndex) in c.h.acks
  {
    assert Within(c, true);
    assert Binding(c, pkt);
  }

  lemma SnapshotsArePast(c: Cluster, v: Id, p: Id, id: nat)
    requires Base(c) && Disc(c) && v in c.nodes && p in c.nodes && c.nodes[v].role == Leader
    requires Pending(c.calls, id, v, p, c.nodes[v].term) && c.calls[id].SnapCall?
    requires c.nodes[p].snap >= c.calls[id].snapshot.lastIndex
    ensures forall q {:trigger PastSnapshot(c, p, c.nodes[v].term, q)} :: q in c.net ==> PastSnapshot(c, p, c.nodes[v].term, q)
  {
    assert Within(c, true);
    BaseNode(c, v);
    forall q | q in c.net
      ensures PastSnapshot(c, p, c.nodes[v].term, q)
    {
      assert Binding(c, q);
      BasePacket(c, q);
    }
  }

  lemma SnapRspDisc(c: Cluster, pkt: Packet)
    requires pkt.SnapRsp? && pkt in c.net && pkt.to in c.nodes && |c.nodes[pkt.to].log| > 0 && pkt.id in c.calls
    requires Started(c, DoSnapRsp(c, pkt))
    ensures Disc(DoSnapRsp(c, pkt))
  {
    var n, resp := c.nodes[pkt.to], pkt.snapshotResp;
    if n.role == Leader && n.term == pkt.snapshot.term && resp.term <= n.term {
      SnapCountedDisc(c, DoSnapRsp(c, pkt), pkt);
    } else {
      LocalDisc(c, DoSnapRsp(c, pkt), pkt.to);
    }
  }

  lemma SnapReplyCall(c: Cluster, pkt: Packet)
    requires Base(c) && Disc(c) && pkt in c.net && pkt.SnapRsp? && pkt.id in c.calls
    requires Active(c.nodes, pkt.to, pkt.snapshot.term) && pkt.snapshotResp.term <= pkt.snapshot.term
    ensures c.calls[pkt.id] == SnapCall(pkt.to, pkt.from, pkt.snapshot)
    ensures pkt.from in c.nodes && pkt.from != pkt.to && SnapReplyOk(c, pkt.from, pkt.snapshot, pkt.snapshotResp)
    ensures NextBounded(c.nodes[pkt.to])
    ensures Compacts(c.nodes[pkt.to]) ==> Lookup(c.nodes[pkt.to].nextIndex, pkt.from) <= pkt.snapshot.lastIndex
  {
    BaseNode(c, pkt.to);
    assert Within(c, true);
    assert Binding(c, pkt) && CallOk(c, pkt.id);
    assert NextBounded(c.nodes[pkt.to]);
  }

  lemma SnapCountedDisc(c: Cluster, c': Cluster, pkt: Packet)
    requires Started(c, c') && pkt in c.net && pkt.SnapRsp? && pkt.id in c.calls
    requires Active(c.nodes, pkt.to, pkt.snapshot.term) && pkt.snapshotResp.term <= pkt.snapshot.term
    requires c'.calls == c.calls - {pkt.id} && c'.issued == c.issued && c'.net == c.net
    requires pkt.to in c'.nodes && c'.nodes == c.nodes[pkt.to := c'.nodes[pkt.to]] && |c.nodes[pkt.to].log| > 0
    requires c'.nodes[pkt.to] == CountMatch(c.nodes[pkt.to], pkt.from, pkt.snapshot.lastIndex)
    requires c'.h == RecordMatch(c.h, c.nodes[pkt.to], pkt.from, pkt.snapshot.lastIndex, c'.nodes[pkt.to])
    ensures Disc(c')
  {
    var v, p, m, n := pkt.to, pkt.from, pkt.snapshot.lastIndex, c.nodes[pkt.to];
    SnapReplyCall(c, pkt);
    AckedIsOwn(c, v, Ack(n.term, p, m));
    CountLearns(c, c', v, p, m, pkt.id);
    SnapshotsArePast(c, v, p, pkt.id);
    if Compacts(n) {
      CountedSafe(c, c', v, p, m, pkt.id);
    }
    LearnDisc(c, c', v, p, m, pkt.id);
  }
}
