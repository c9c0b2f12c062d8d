/** Why installing a snapshot never discards an entry its leader has counted. A leader with at
    most one call outstanding per peer sends a snapshot only after the peer has refused every
    request from the snapshot's index upwards, or has itself a snapshot at least as recent. */
module Discipline {
  import opened RaftTypes
  import opened Logs
  import opened History
  import opened NodeSpec
  import opened Protocol
  import opened Effects
  import opened Cluster
  import opened ClusterInv
  import opened ElectionSteps

  ghost predicate Active(nodes: map<Id, Node>, l: Id, t: nat) {
    l in nodes && nodes[l].role == Leader && nodes[l].term == t
  }

  /** Peer `p`, in state `np`, may have its log cut back to the leader of `t`'s prefix through
      `j`: it would refuse, or it loses nothing that counts. */
  ghost predicate SafeAt(rs: Reigns, acks: set<Ack>, counted: set<Ack>, np: Node, p: Id, t: nat, j: nat)
    requires t in rs
  {
    || np.term > t
    || np.snap >= j
    || (&& Beyond(counted, t, p, j) == {}
        && OldAcksBlocked(rs, acks, p, t, j)
        && (j >= rs[t].base || np.term == t))
  }

  ghost predicate NextSafe(rs: Reigns, acks: set<Ack>, counted: set<Ack>, nl: Node, np: Node, p: Id)
    requires nl.term in rs
  {
    forall j {:trigger SafeAt(rs, acks, counted, np, p, nl.term, j)} ::
      j >= Lookup(nl.nextIndex, p) ==> SafeAt(rs, acks, counted, np, p, nl.term, j)
  }

  ghost predicate LeaderSafe(c: Cluster, l: Id, p: Id)
    requires l in c.nodes && p in c.nodes
  {
    c.nodes[l].role == Leader && Compacts(c.nodes[l]) && p != l ==>
      c.nodes[l].term in c.h.reigns && NextSafe(c.h.reigns, c.h.acks, c.h.counted, c.nodes[l], c.nodes[p], p)
  }

  ghost predicate LeadersSafe(c: Cluster) {
    forall l, p {:trigger LeaderSafe(c, l, p)} :: l in c.nodes && p in c.nodes ==> LeaderSafe(c, l, p)
  }

  /** A leader never means to send a peer anything from beyond its log. */
  ghost predicate NextBounded(n: Node) {
    n.role == Leader ==> forall p {:trigger Lookup(n.nextIndex, p)} :: Lookup(n.nextIndex, p) <= |n.log|
  }

  ghost predicate NextsBounded(nodes: map<Id, Node>) {
    forall l {:trigger NextBounded(nodes[l])} :: l in nodes ==> NextBounded(nodes[l])
  }

  // ---------------------------------------------------------------- calls

  ghost predicate CallOk(c: Cluster, id: nat)
    requires id in c.calls
  {
    var call := c.calls[id];
    && id < c.issued
    && call.Term() in c.h.reigns
    && c.h.reigns[call.Term()].leader == call.from
    && call.to in c.members && call.to != call.from
    && (Active(c.nodes, call.from, call.Term()) && Compacts(c.nodes[call.from]) ==>
          match call
          case AppendCall(l, p, req) => Lookup(c.nodes[l].nextIndex, p) == req.prevIndex + 1
          case SnapCall(l, p, req) => Lookup(c.nodes[l].nextIndex, p) <= req.lastIndex)
  }

  ghost predicate CallsOk(c: Cluster) {
    forall id {:trigger CallOk(c, id)} :: id in c.calls ==> CallOk(c, id)
  }

  ghost predicate SameCall(c: Cluster, id: nat, id': nat)
    requires id in c.calls && id' in c.calls
  {
    var a, b := c.calls[id], c.calls[id'];
    a.from == b.from && a.to == b.to && a.Term() == b.Term() && Active(c.nodes, a.from, a.Term()) && Compacts(c.nodes[a.from]) ==>
      id == id'
  }

  ghost predicate OneCallEach(c: Cluster) {
    forall id, id' {:trigger SameCall(c, id, id')} :: id in c.calls && id' in c.calls ==> SameCall(c, id, id')
  }

  // ---------------------------------------------------------------- packets

  ghost predicate AppendReplyOk(c: Cluster, id: nat, from: Id, to: Id, req: AppendRequest, resp: AppendResponse) {
    id in c.calls && Active(c.nodes, to, req.term) ==>
      && (resp.success ==> Ack(req.term, from, req.prevIndex + |req.entries|) in c.h.acks)
      && (Compacts(c.nodes[to]) && !resp.success && resp.term <= req.term ==>
            from in c.nodes && req.term in c.h.reigns
            && SafeAt(c.h.reigns, c.h.acks, c.h.counted, c.nodes[from], from, req.term, req.prevIndex))
  }

  ghost predicate SnapReplyOk(c: Cluster, from: Id, req: SnapshotRequest, resp: SnapshotResponse) {
    resp.term <= req.term ==>
      && from in c.nodes
      && c.nodes[from].snap >= req.lastIndex
      && Ack(req.term, from, req.lastIndex) in c.h.acks
  }

  /** The leader has not moved past a snapshot that its peer could still install. */
  ghost predicate SnapWaits(c: Cluster, p: Id, req: SnapshotRequest)
    requires p in c.nodes && req.leader in c.nodes
  {
    && req.lastIndex <= c.nodes[req.leader].snap
    && (forall id {:trigger Pending(c.calls, id, req.leader, p, req.term)} ::
          Pending(c.calls, id, req.leader, p, req.term) && c.calls[id].SnapCall? ==> req.lastIndex <= c.calls[id].snapshot.lastIndex)
    && (c.nodes[p].term <= req.term && c.nodes[p].snap < req.lastIndex ==>
          && Lookup(c.nodes[req.leader].nextIndex, p) <= req.lastIndex
          && forall id {:trigger Pending(c.calls, id, req.leader, p, req.term)} ::
               Pending(c.calls, id, req.leader, p, req.term) ==> c.calls[id].SnapCall?)
  }

  ghost predicate SnapSafe(c: Cluster, p: Id, req: SnapshotRequest) {
    && c.compacting && req.lastIndex > 0
    && p in c.nodes && req.term in c.h.reigns && req.leader in c.nodes
    && SafeAt(c.h.reigns, c.h.acks, c.h.counted, c.nodes[p], p, req.term, req.lastIndex)
    && (Active(c.nodes, req.leader, req.term) ==> SnapWaits(c, p, req))
  }

  /** A packet that belongs to a waiting call is that call's request or its reply. */
  ghost predicate Coherent(calls: map<nat, Call>, issued: nat, pkt: Packet) {
    match pkt
    case AppendReq(id, to, req) => id < issued && (id in calls ==> calls[id] == AppendCall(req.leader, to, req))
    case AppendRsp(id, from, to, req, _) => id < issued && (id in calls ==> calls[id] == AppendCall(to, from, req))
    case SnapReq(id, to, req, _) => id < issued && (id in calls ==> calls[id] == SnapCall(req.leader, to, req))
    case SnapRsp(id, from, to, req, _) => id < issued && (id in calls ==> calls[id] == SnapCall(to, from, req))
    case _ => true
  }

  ghost predicate Binding(c: Cluster, pkt: Packet) {
    && Coherent(c.calls, c.issued, pkt)
    && match pkt
       case AppendRsp(id, from, to, req, resp) => AppendReplyOk(c, id, from, to, req, resp)
       case SnapRsp(_, from, _, req, resp) => SnapReplyOk(c, from, req, resp)
       case SnapReq(_, to, req, _) => SnapSafe(c, to, req)
       case _ => true
  }

  ghost predicate NetBinding(c: Cluster) {
    forall pkt {:trigger Binding(c, pkt)} :: pkt in c.net ==> Binding(c, pkt)
  }

  ghost predicate DiscPieces(c: Cluster) {
    && CallsOk(c)
    && NetBinding(c)
    && NextsBounded(c.nodes)
    && LeadersSafe(c)
    && OneCallEach(c)
  }

  ghost predicate Disc(c: Cluster) {
    forall k {:trigger Within(c, k)} :: Within(c, k) ==> DiscPieces(c)
  }

  // ---------------------------------------------------------------- how safety persists

  /** Entries above the base of `t` were created in `t`, so its leader blocks older ones. */
  lemma BaseBlocks(rs: Reigns, acks: set<Ack>, p: Id, t: nat, j: nat)
    requires t in rs && ReignShape(t, rs[t]) && j >= rs[t].base
    ensures OldAcksBlocked(rs, acks, p, t, j)
  {
    forall a, i: nat | a in acks && a.voter == p && a.term < t && i > j && Claims(rs, a, i)
      ensures OldBlocked(rs, a, t, i)
    {
      assert Lacks(rs, t, a.term, i);
    }
  }

  lemma OldAcksBlockedGrow(rs: Reigns, rs': Reigns, acks: set<Ack>, acks': set<Ack>, p: Id, t: nat, j: nat)
    requires Grows(rs, rs') && OldAcksBlocked(rs, acks, p, t, j)
    requires forall a {:trigger AckValid(rs, a)} :: a in acks ==> AckValid(rs, a)
    requires forall a :: a in acks' && a !in acks && a.voter == p ==> a.term >= t
    ensures OldAcksBlocked(rs', acks', p, t, j)
  {
    forall a, i: nat | a in acks' && a.voter == p && a.term < t && i > j && Claims(rs', a, i)
      ensures OldBlocked(rs', a, t, i)
    {
      assert a in acks;
      assert AckValid(rs, a) && ReignGrows(rs, rs', a.term);
      assert Claims(rs, a, i) && OldBlocked(rs, a, t, i);
      var s: nat :| a.term < s <= t && Lacks(rs, s, a.term, i);
      assert Lacks(rs, s, a.term, i) && ReignGrows(rs, rs', s);
      assert Lacks(rs', s, a.term, i);
    }
  }

  /** Once safe, safe for as long as the leader counts nothing more for this peer. */
  lemma SafeAtGrows(h: History, h': History, np: Node, np': Node, p: Id, t: nat, j: nat)
    requires t in h.reigns && t in h'.reigns && ReignShape(t, h'.reigns[t])
    requires Grows(h.reigns, h'.reigns) && AcksValid(h)
    requires np.term <= np'.term && np.snap <= np'.snap
    requires forall a :: a in h'.acks && a !in h.acks && a.voter == p ==> a.term == np'.term
    requires Beyond(h'.counted, t, p, j) == Beyond(h.counted, t, p, j)
    requires SafeAt(h.reigns, h.acks, h.counted, np, p, t, j)
    ensures SafeAt(h'.reigns, h'.acks, h'.counted, np', p, t, j)
  {
    assert ReignGrows(h.reigns, h'.reigns, t);
    if np'.term <= t && np'.snap < j {
      if j >= h.reigns[t].base {
        BaseBlocks(h'.reigns, h'.acks, p, t, j);
      } else {
        OldAcksBlockedGrow(h.reigns, h'.reigns, h.acks, h'.acks, p, t, j);
      }
    }
  }

  /** A peer that refuses `prev` in the leader's term either holds a later snapshot or shares
      nothing with the leader from `prev` on. */
  lemma RefusalIsSafe(s: State, n: Node, req: AppendRequest)
    requires Inv(s) && n.id in s.ns && s.ns[n.id] == PeerOf(n) && n.term == req.term
    requires AppendOk(s.h.reigns, s.members, n.id, req)
    requires !PrevMatches(n, req)
    ensures SafeAt(s.h.reigns, s.h.acks, s.h.counted, n, n.id, req.term, req.prevIndex)
  {
    var rs, p, t, j := s.h.reigns, n.id, n.term, req.prevIndex;
    assert Inside(s, true);
    if n.snap < j {
      forall a | a in s.h.counted && a.term == t && a.voter == p
        ensures a.upTo <= j
      {
        var held := rs[t].log;
        assert AckHeld(s.ns, rs, a) && Agree(n.log, held, a.upTo);
        assert a.upTo > j ==> Agree(n.log, held, j);
      }
      assert Beyond(s.h.counted, t, p, j) == {};
      assert NodeKept(s.ns, rs, s.h.acks, p);
      forall a, i: nat | a in s.h.acks && a.voter == p && a.term < t && i > j && Claims(rs, a, i)
        ensures OldBlocked(rs, a, t, i)
      {
        assert Kept(rs, n.log, t, a.term, i);
        RefusalBlocks(rs, n.log, t, a.term, i, j);
      }
    }
  }

  lemma RefusalBlocks(rs: Reigns, log: Log, t: nat, u: nat, i: nat, j: nat)
    requires t in rs && u in rs && u < t && j < i
    requires Kept(rs, log, t, u, i)
    requires !Agree(log, rs[t].log, j)
    ensures Blocked(rs, u, i, t)
  {
    var mine, theirs := rs[t].log, rs[u].log;
    if Agree(log, theirs, i) {
      assert Agree(mine, theirs, i) ==> Agree(log, mine, j);
      assert Lacks(rs, t, u, i);
    }
  }

  // ---------------------------------------------------------------- calm steps

  /** A node that leads after the step led before it and kept its view of its peers, or has
      just been elected and knows nothing of them. */
  ghost predicate StillLeads(n: Node, n': Node, v: Id) {
    && n.role == Leader && n.term == n'.term && |n.log| <= |n'.log|
    && (Compacts(n') ==> Compacts(n))
    && forall p {:trigger Lookup(n'.nextIndex, p)} ::
         Lookup(n'.nextIndex, p) == Lookup(n.nextIndex, p) || (p == v && Lookup(n'.nextIndex, p) <= |n'.log|)
  }

  ghost predicate JustElected(c: Cluster, c': Cluster, v: Id, n': Node) {
    && n'.term !in c.h.reigns && n'.term in c'.h.reigns
    && forall p {:trigger Lookup(n'.nextIndex, p)} ::
         && Lookup(n'.nextIndex, p) <= |n'.log|
         && (p in c.members && p != v ==> c'.h.reigns[n'.term].base <= Lookup(n'.nextIndex, p))
  }

  /** New acknowledgements are the stepping node's, in its term; new counts are a leader's own. */
  ghost predicate NewAck(h: History, t: nat, v: Id, a: Ack) {
    a !in h.acks ==> a.voter == v && a.term == t
  }

  ghost predicate NewCount(h: History, h': History, v: Id, a: Ack) {
    a !in h.counted ==> a.voter == v && a.term in h'.reigns && h'.reigns[a.term].leader == v
  }

  ghost predicate KeptCall(calls: map<nat, Call>, calls': map<nat, Call>, id: nat)
    requires id in calls'
  {
    id in calls && calls'[id] == calls[id]
  }

  ghost predicate CalmHistory(h: History, h': History, v: Id, t: nat) {
    && (forall a {:trigger NewAck(h, t, v, a)} :: a in h'.acks ==> NewAck(h, t, v, a))
    && (forall a {:trigger NewCount(h, h', v, a)} :: a in h'.counted ==> NewCount(h, h', v, a))
  }

  /** A step of `v` that starts no call and learns nothing about a peer's log. */
  ghost predicate Calm(c: Cluster, c': Cluster, v: Id) {
    && v in c.nodes && v in c'.nodes
    && c'.nodes == c.nodes[v := c'.nodes[v]]
    && CalmHistory(c.h, c'.h, v, c'.nodes[v].term)
    && (forall id {:trigger KeptCall(c.calls, c'.calls, id)} :: id in c'.calls ==> KeptCall(c.calls, c'.calls, id))
    && c.issued <= c'.issued
    && (c'.nodes[v].role == Leader ==>
          StillLeads(c.nodes[v], c'.nodes[v], v) || JustElected(c, c', v, c'.nodes[v]))
  }

  /** What the lemmas about calm steps share. */
  ghost predicate CalmStep(c: Cluster, c': Cluster, v: Id) {
    Base(c) && Base(c') && Progress(c, c') && Calm(c, c', v)
  }

  /** Calm steps leave every peer as safe as it was. */
  lemma CalmSafeAt(c: Cluster, c': Cluster, v: Id, p: Id, t: nat, j: nat)
    requires CalmStep(c, c', v) && p in c.nodes
    requires t in c.h.reigns && c.h.reigns[t].leader != p
    requires SafeAt(c.h.reigns, c.h.acks, c.h.counted, c.nodes[p], p, t, j)
    ensures t in c'.h.reigns && SafeAt(c'.h.reigns, c'.h.acks, c'.h.counted, c'.nodes[p], p, t, j)
  {
    assert Within(c, true) && Within(c', true);
    assert Inside(ViewOf(c), true) && Inside(ViewOf(c'), true);
    assert ReignGrows(c.h.reigns, c'.h.reigns, t) && ReignOk(c'.h.reigns, t);
    assert EvolvesAt(c.nodes, c'.nodes, p);
    forall a | a in c'.h.acks && a !in c.h.acks && a.voter == p
      ensures a.term == c'.nodes[p].term
    {
      assert NewAck(c.h, c'.nodes[v].term, v, a);
    }
    forall a | a in c'.h.counted && a.term == t && a.voter == p
      ensures a in c.h.counted
    {
      assert NewCount(c.h, c'.h, v, a);
    }
    assert Beyond(c'.h.counted, t, p, j) == Beyond(c.h.counted, t, p, j);
    SafeAtGrows(c.h, c'.h, c.nodes[p], c'.nodes[p], p, t, j);
  }

  lemma CalmLeaderSafe(c: Cluster, c': Cluster, v: Id, l: Id, p: Id)
    requires CalmStep(c, c', v) && l in c'.nodes && p in c'.nodes
    requires LeaderSafe(c, l, p)
    ensures LeaderSafe(c', l, p)
  {
    var nl := c'.nodes[l];
    if nl.role == Leader && Compacts(nl) && p != l {
      BaseNode(c', l);
      assert Within(c', true) && nl.term in c'.h.reigns;
      if l == v && JustElected(c, c', v, nl) {
        FreshLeaderSafe(c, c', v, p);
      } else {
        BaseNode(c, l);
        assert nl.term in c.h.reigns && ReignGrows(c.h.reigns, c'.h.reigns, nl.term);
        forall j: nat | j >= Lookup(nl.nextIndex, p)
          ensures SafeAt(c'.h.reigns, c'.h.acks, c'.h.counted, c'.nodes[p], p, nl.term, j)
        {
          assert SafeAt(c.h.reigns, c.h.acks, c.h.counted, c.nodes[p], p, nl.term, j);
          CalmSafeAt(c, c', v, p, nl.term, j);
        }
      }
    }
  }

  /** A new leader starts at its base, above which nobody has anything of its term. */
  lemma FreshLeaderSafe(c: Cluster, c': Cluster, v: Id, p: Id)
    requires CalmStep(c, c', v) && JustElected(c, c', v, c'.nodes[v]) && p in c'.nodes && p != v
    ensures NextSafe(c'.h.reigns, c'.h.acks, c'.h.counted, c'.nodes[v], c'.nodes[p], p)
  {
    var h', nl := c'.h, c'.nodes[v];
    assert Within(c, true) && Within(c', true);
    assert Inside(ViewOf(c), true) && Inside(ViewOf(c'), true);
    assert ReignOk(h'.reigns, nl.term);
    forall j: nat | j >= Lookup(nl.nextIndex, p)
      ensures SafeAt(h'.reigns, h'.acks, h'.counted, c'.nodes[p], p, nl.term, j)
    {
      forall a | a in h'.counted
        ensures !(a.term == nl.term && a.voter == p)
      {
        assert NewCount(c.h, h', v, a);
        assert a in c.h.counted ==> AckValid(c.h.reigns, a);
      }
      assert Beyond(h'.counted, nl.term, p, j) == {};
      BaseBlocks(h'.reigns, h'.acks, p, nl.term, j);
    }
  }

  lemma CalmCall(c: Cluster, c': Cluster, v: Id, id: nat)
    requires CalmStep(c, c', v) && id in c.calls && id in c'.calls && CallOk(c, id)
    ensures CallOk(c', id)
  {
    var call := c.calls[id];
    assert Within(c', true);
    assert KeptCall(c.calls, c'.calls, id);
    assert ReignGrows(c.h.reigns, c'.h.reigns, call.Term());
  }

  lemma CalmSnapSafe(c: Cluster, c': Cluster, v: Id, p: Id, req: SnapshotRequest, prefix: Log)
    requires CalmStep(c, c', v) && SnapSafe(c, p, req) && SnapOk(c.h.reigns, c.members, p, req, prefix)
    ensures SnapSafe(c', p, req)
  {
    var l := req.leader;
    CalmSafeAt(c, c', v, p, req.term, req.lastIndex);
    assert Within(c', true);
    assert EvolvesAt(c.nodes, c'.nodes, p) && EvolvesAt(c.nodes, c'.nodes, l);
    if Active(c'.nodes, l, req.term) {
      assert Active(c.nodes, l, req.term);
      forall id | Pending(c'.calls, id, l, p, req.term)
        ensures Pending(c.calls, id, l, p, req.term) && c'.calls[id] == c.calls[id]
      {
        assert KeptCall(c.calls, c'.calls, id);
      }
    }
  }

  /** The acknowledgement behind a reply that still matters is still there. */
  ghost predicate Retained(c: Cluster, c': Cluster, pkt: Packet) {
    match pkt
    case AppendRsp(id, from, to, req, resp) =>
      var a := Ack(req.term, from, req.prevIndex + |req.entries|);
      id in c'.calls && Active(c'.nodes, to, req.term) && resp.success && a in c.h.acks ==> a in c'.h.acks
    case SnapRsp(_, from, _, req, resp) =>
      var a := Ack(req.term, from, req.lastIndex);
      from in c.nodes && c.nodes[from].snap >= req.lastIndex && a in c.h.acks ==> a in c'.h.acks
    case _ => true
  }

  lemma CalmReply(c: Cluster, c': Cluster, v: Id, pkt: Packet)
    requires CalmStep(c, c', v) && Retained(c, c', pkt) && pkt.AppendRsp? && Binding(c, pkt)
    requires CallsOk(c)
    ensures Binding(c', pkt)
  {
    var id, from, to, req, resp := pkt.id, pkt.from, pkt.to, pkt.append, pkt.appendResp;
    assert id in c'.calls ==> KeptCall(c.calls, c'.calls, id);
    if id in c'.calls && Active(c'.nodes, to, req.term) {
      assert CallOk(c, id);
      assert Active(c.nodes, to, req.term);
      if Compacts(c'.nodes[to]) && !resp.success && resp.term <= req.term {
        CalmSafeAt(c, c', v, from, req.term, req.prevIndex);
      }
    }
    assert Within(c', true);
  }

  lemma CalmPacket(c: Cluster, c': Cluster, v: Id, pkt: Packet)
    requires CalmStep(c, c', v) && Retained(c, c', pkt) && pkt in c.net && Binding(c, pkt)
    requires CallsOk(c)
    ensures Binding(c', pkt)
  {
    assert (pkt.AppendReq? || pkt.SnapReq? || pkt.SnapRsp?) && pkt.id in c'.calls ==> KeptCall(c.calls, c'.calls, pkt.id);
    match pkt
    case AppendRsp(_, _, _, _, _) => CalmReply(c, c', v, pkt);
    case SnapReq(_, to, req, prefix) =>
      BasePacket(c, pkt);
      CalmSnapSafe(c, c', v, to, req, prefix);
    case SnapRsp(_, from, _, req, resp) =>
      assert Within(c', true);
      assert from in c.nodes ==> EvolvesAt(c.nodes, c'.nodes, from);
    case _ =>
  }

  ghost predicate NewBinding(c: Cluster, c': Cluster) {
    forall pkt {:trigger Binding(c', pkt)} :: pkt in c'.net && pkt !in c.net ==> Binding(c', pkt)
  }

  ghost predicate AllRetained(c: Cluster, c': Cluster) {
    forall pkt {:trigger Retained(c, c', pkt)} :: pkt in c.net ==> Retained(c, c', pkt)
  }

  lemma CalmNet(c: Cluster, c': Cluster, v: Id)
    requires CalmStep(c, c', v) && AllRetained(c, c') && NewBinding(c, c') && NetBinding(c) && CallsOk(c)
    ensures NetBinding(c')
  {
    forall pkt | pkt in c'.net
      ensures Binding(c', pkt)
    {
      if pkt in c.net {
        assert Binding(c, pkt) && Retained(c, c', pkt);
        CalmPacket(c, c', v, pkt);
      }
    }
  }

  lemma CalmDisc(c: Cluster, c': Cluster, v: Id)
    requires CalmStep(c, c', v) && Disc(c) && AllRetained(c, c') && NewBinding(c, c')
    ensures Disc(c')
  {
    assert Within(c, true) && Within(c', true);
    CalmNet(c, c', v);
    forall l | l in c'.nodes
      ensures NextBounded(c'.nodes[l])
    {
      assert NextBounded(c.nodes[l]);
    }
    forall id | id in c'.calls
      ensures CallOk(c', id)
    {
      assert KeptCall(c.calls, c'.calls, id);
      assert CallOk(c, id);
      CalmCall(c, c', v, id);
    }
    forall l, p | l in c'.nodes && p in c'.nodes
      ensures LeaderSafe(c', l, p)
    {
      assert LeaderSafe(c, l, p);
      CalmLeaderSafe(c, c', v, l, p);
    }
    CalmAlone(c, c', v);
  }

  lemma CalmAlone(c: Cluster, c': Cluster, v: Id)
    requires CalmStep(c, c', v) && OneCallEach(c) && CallsOk(c)
    ensures OneCallEach(c')
  {
    forall id, id' | id in c'.calls && id' in c'.calls
      ensures SameCall(c', id, id')
    {
      assert KeptCall(c.calls, c'.calls, id) && KeptCall(c.calls, c'.calls, id');
      assert SameCall(c, id, id') && CallOk(c, id);
    }
  }
}
