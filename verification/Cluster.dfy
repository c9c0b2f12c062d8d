/** A cluster of nodes with fixed membership over a network that loses, delays, duplicates and
    reorders messages, with crashes and restarts from disk, log compaction, snapshot
    installation and ReadIndex reads. Each step is one critical section of the implementation. */
module Cluster {
  import opened RaftTypes
  import opened Quorums
  import opened Logs
  import opened History
  import opened NodeSpec

  /** Everything ever sent. A packet may be delivered any number of times, or never. A snapshot
      packet also names the log prefix that its data stands for. */
  datatype Packet =
    | VoteReq(to: Id, vote: VoteRequest)
    | VoteRsp(from: Id, to: Id, asked: nat, voteResp: VoteResponse)
    | AppendReq(id: nat, to: Id, append: AppendRequest)
    | AppendRsp(id: nat, from: Id, to: Id, append: AppendRequest, appendResp: AppendResponse)
    | SnapReq(id: nat, to: Id, snapshot: SnapshotRequest, prefix: Log)
    | SnapRsp(id: nat, from: Id, to: Id, snapshot: SnapshotRequest, snapshotResp: SnapshotResponse)
    | ProbeReq(read: nat, to: Id, append: AppendRequest)
    | ProbeRsp(read: nat, from: Id, to: Id, appendResp: AppendResponse)

  /** A replication call whose caller is still waiting for the reply. */
  datatype Call =
    | AppendCall(from: Id, to: Id, append: AppendRequest)
    | SnapCall(from: Id, to: Id, snapshot: SnapshotRequest)
  {
    function Term(): nat { match this case AppendCall(_, _, r) => r.term case SnapCall(_, _, r) => r.term }
  }

  /** The node's state machine came to reflect `entry` at `index`. */
  datatype Applied = Applied(node: Id, index: nat, entry: Entry)

  /** A ReadIndex operation. `before` is the history of reigns when the client called. */
  datatype Phase = Waiting | Checked | Captured
  datatype Read = Read(node: Id, phase: Phase, before: Reigns, checkTerm: nat, term: nat, index: nat, acks: set<Id>)

  datatype Cluster = Cluster(
    members: set<Id>,
    compacting: bool,             // whether any node has a snapshot threshold
    nodes: map<Id, Node>,
    net: set<Packet>,
    calls: map<nat, Call>,
    issued: nat,                  // call and read identifiers below this have been used
    h: History,
    applied: set<Applied>,
    queries: map<nat, Read>)

  datatype Step =
    | Timeout(node: Id)
    | Tick(node: Id)
    | Crash(node: Id)
    | ClientPut(node: Id, command: Command)
    | CallAppend(node: Id, peer: Id)
    | CallSnapshot(node: Id, peer: Id)
    | DropCall(id: nat)
    | Deliver(packet: Packet)
    | BeginRead(node: Id)
    | CheckRead(read: nat)
    | CaptureRead(read: nat)
    | Probe(read: nat, peer: Id)

  // ---------------------------------------------------------------- history bookkeeping

  /** Record the vote a node holds, if it has just been cast. */
  function RecordVote(h: History, n: Node): History {
    if n.vote != "" && (n.term, n.id) !in h.ballots
    then h.(ballots := h.ballots[(n.term, n.id) := Ballot(n.vote, n.log)])
    else h
  }

  function RecordAck(h: History, a: Ack): History { h.(acks := h.acks + {a}) }

  function RecordCount(h: History, a: Ack): History { h.(counted := h.counted + {a}) }

  /** The leader's own copy counts as soon as it is written. */
  function RecordOwn(h: History, n: Node, index: nat): History {
    RecordCount(RecordAck(h, Ack(n.term, n.id, index)), Ack(n.term, n.id, index))
  }

  /** Record the commit index of a leader that moved on from `was`. */
  function RecordCommit(h: History, was: nat, n: Node): History
    requires n.term in h.reigns
  {
    if n.commit > was then h.(reigns := h.reigns[n.term := h.reigns[n.term].(commit := n.commit)]) else h
  }

  /** Record the candidate's election; `n` is the new leader. */
  function RecordElection(h: History, c: Node, n: Node): History {
    var reign := Reign(c.id, c.votes, |c.log|, c.log + [NoOp(c.term)], 0);
    var h1 := h.(reigns := h.reigns[c.term := reign]);
    if c.term == n.term then RecordCommit(RecordOwn(h1, c, |c.log|), c.commit, n) else h1
  }

  /** Replace one node, noting what its state machine newly reflects. */
  function Update(c: Cluster, v: Id, n: Node): Cluster
    requires v in c.nodes
  {
    c.(nodes := c.nodes[v := n], applied := c.applied + NewlyApplied(v, c.nodes[v], n))
  }

  function NewlyApplied(v: Id, n: Node, n': Node): set<Applied> {
    set k | n.applied < k <= n'.applied && k < |n'.log| :: Applied(v, k, n'.log[k])
  }

  // ---------------------------------------------------------------- elections

  function DoTimeout(c: Cluster, v: Id): Cluster
    requires v in c.nodes && |c.nodes[v].log| > 0
  {
    var n := c.nodes[v];
    var n' := StartElection(n);
    if n'.term == n.term then Update(c, v, n')
    else
      var cand := Campaigner(n);
      var h1 := RecordVote(c.h, cand);
      var h2 := if n'.role == Leader then RecordElection(h1, cand, n') else h1;
      Update(c, v, n').(h := h2, net := c.net + Requests(cand))
  }

  function Requests(cand: Node): set<Packet>
    requires |cand.log| > 0
  {
    set p | p in cand.peers.Keys - {cand.id} :: VoteReq(p, VoteRequestOf(cand))
  }

  function DoVoteReq(c: Cluster, pkt: Packet): Cluster
    requires pkt.VoteReq? && pkt.to in c.nodes && |c.nodes[pkt.to].log| > 0
  {
    var (n', resp) := OnVoteRequest(c.nodes[pkt.to], pkt.vote);
    Update(c, pkt.to, n').(h := RecordVote(c.h, n'),
                   net := c.net + {VoteRsp(pkt.to, pkt.vote.candidate, pkt.vote.term, resp)})
  }

  function DoVoteRsp(c: Cluster, pkt: Packet): Cluster
    requires pkt.VoteRsp? && pkt.to in c.nodes && |c.nodes[pkt.to].log| > 0
  {
    var n := c.nodes[pkt.to];
    var n' := OnVoteResponse(n, pkt.from, pkt.asked, pkt.voteResp);
    if n.role == Candidate && n'.role == Leader
    then Update(c, pkt.to, n').(h := RecordElection(c.h, n.(votes := n.votes + {pkt.from}), n'))
    else Update(c, pkt.to, n')
  }

  // ---------------------------------------------------------------- replication

  function DoPut(c: Cluster, v: Id, cmd: Command): Cluster
    requires v in c.nodes && |c.nodes[v].log| > 0
  {
    var n := c.nodes[v];
    var (n', index) := Propose(n, cmd);
    if index.None? || n.term !in c.h.reigns then Update(c, v, n')
    else
      var reign := c.h.reigns[n.term];
      var h1 := c.h.(reigns := c.h.reigns[n.term := reign.(log := reign.log + [Entry(n.term, cmd, None)])]);
      var h2 := RecordOwn(h1, n, |n.log|);
      Update(c, v, n').(h := if n'.term in h2.reigns then RecordCommit(h2, n.commit, n') else h2)
  }

  /** A leader may call its peers. */
  ghost predicate CanCall(c: Cluster, v: Id, p: Id) {
    && v in c.nodes && c.nodes[v].role == Leader && Sane(c.nodes[v])
    && p in c.nodes[v].peers && p != v
  }

  /** A leader that may send snapshots has at most one call per peer and term outstanding. */
  ghost predicate MayCall(c: Cluster, v: Id, p: Id) {
    && CanCall(c, v, p)
    && (Compacts(c.nodes[v]) ==> forall id {:trigger Pending(c.calls, id, v, p, c.nodes[v].term)} ::
                                   !Pending(c.calls, id, v, p, c.nodes[v].term))
  }

  predicate Pending(calls: map<nat, Call>, id: nat, v: Id, p: Id, t: nat) {
    id in calls && calls[id].from == v && calls[id].to == p && calls[id].Term() == t
  }

  function DoCallAppend(c: Cluster, v: Id, p: Id): Cluster
    requires v in c.nodes && Sane(c.nodes[v])
  {
    match MakeAppend(c.nodes[v], p)
    case (n', Some(req)) =>
      Update(c, v, n').(net := c.net + {AppendReq(c.issued, p, req)},
                     calls := c.calls[c.issued := AppendCall(v, p, req)],
                     issued := c.issued + 1)
    case (n', None) => Update(c, v, n')
  }

  function DoCallSnapshot(c: Cluster, v: Id, p: Id): Cluster
    requires v in c.nodes && Sane(c.nodes[v])
  {
    var n := c.nodes[v];
    var req := MakeSnapshot(n);
    c.(net := c.net + {SnapReq(c.issued, p, req, n.log[..n.snap + 1])},
       calls := c.calls[c.issued := SnapCall(v, p, req)],
       issued := c.issued + 1)
  }

  /** A node receives AppendEntries, for replication or as a probe. */
  function ReceiveAppend(c: Cluster, v: Id, req: AppendRequest): Cluster
    requires v in c.nodes && |c.nodes[v].log| > 0
  {
    var (n', resp) := OnAppend(c.nodes[v], req);
    Update(c, v, n').(h := if resp.success then RecordAck(c.h, Ack(req.term, v, req.prevIndex + |req.entries|)) else c.h)
  }

  function DoAppendReq(c: Cluster, pkt: Packet): Cluster
    requires pkt.AppendReq? && pkt.to in c.nodes && |c.nodes[pkt.to].log| > 0
  {
    var resp := OnAppend(c.nodes[pkt.to], pkt.append).1;
    ReceiveAppend(c, pkt.to, pkt.append).(
      net := c.net + {AppendRsp(pkt.id, pkt.to, pkt.append.leader, pkt.append, resp)})
  }

  /** A leader learns that `p` holds its log through `m`. */
  function RecordMatch(h: History, n: Node, p: Id, m: nat, n': Node): History {
    var h1 := RecordCount(h, Ack(n.term, p, m));
    if n.term == n'.term && n.term in h1.reigns then RecordCommit(h1, n.commit, n') else h1
  }

  function DoAppendRsp(c: Cluster, pkt: Packet): Cluster
    requires pkt.AppendRsp? && pkt.to in c.nodes && |c.nodes[pkt.to].log| > 0
  {
    var n := c.nodes[pkt.to];
    var n' := OnAppendResponse(n, pkt.from, pkt.append, pkt.appendResp);
    var counts := n.role == Leader && n.term == pkt.append.term && pkt.appendResp.term <= n.term && pkt.appendResp.success;
    Update(c, pkt.to, n').(h := if counts then RecordMatch(c.h, n, pkt.from, pkt.append.prevIndex + |pkt.append.entries|, n') else c.h,
                   calls := c.calls - {pkt.id})
  }

  // ---------------------------------------------------------------- snapshots

  function DoSnapReq(c: Cluster, pkt: Packet): Cluster
    requires pkt.SnapReq? && pkt.to in c.nodes && |c.nodes[pkt.to].log| > 0
    requires |pkt.prefix| == pkt.snapshot.lastIndex + 1
  {
    var n := c.nodes[pkt.to];
    var req := pkt.snapshot;
    var (n', resp) := OnSnapshot(n, req, pkt.prefix);
    var a := Ack(req.term, pkt.to, req.lastIndex);
    var h' :=
      if req.term < n.term then c.h
      else if req.lastIndex <= n.snap then RecordAck(c.h, a)
      else RecordAck(c.h.(acks := set x | x in c.h.acks && !(x.term == req.term && x.voter == pkt.to && x.upTo > req.lastIndex)), a);
    Update(c, pkt.to, n').(h := h', net := c.net + {SnapRsp(pkt.id, pkt.to, req.leader, req, resp)})
  }

  function DoSnapRsp(c: Cluster, pkt: Packet): Cluster
    requires pkt.SnapRsp? && pkt.to in c.nodes && |c.nodes[pkt.to].log| > 0
  {
    var n := c.nodes[pkt.to];
    var n' := OnSnapshotResponse(n, pkt.from, pkt.snapshot, pkt.snapshotResp);
    var counts := n.role == Leader && n.term == pkt.snapshot.term && pkt.snapshotResp.term <= n.term;
    Update(c, pkt.to, n').(h := if counts then RecordMatch(c.h, n, pkt.from, pkt.snapshot.lastIndex, n') else c.h,
                   calls := c.calls - {pkt.id})
  }

  // ---------------------------------------------------------------- crashes

  /** All the node's outstanding calls and reads are lost with it. */
  function DoCrash(c: Cluster, v: Id): Cluster
    requires v in c.nodes && |c.nodes[v].log| > 0
  {
    c.(nodes := c.nodes[v := Restart(c.nodes[v], false)],
       calls := map id | id in c.calls && c.calls[id].from != v :: c.calls[id],
       queries := map r | r in c.queries && c.queries[r].node != v :: c.queries[r])
  }

  // ---------------------------------------------------------------- reads

  /** A current-term entry is committed. */
  predicate CommittedInTerm(n: Node)
    requires |n.log| > 0
  {
    n.commit <= LastIndex(n.log) && n.log[n.commit].term == n.term
  }

  function DoBeginRead(c: Cluster, v: Id): Cluster {
    c.(queries := c.queries[c.issued := Read(v, Waiting, c.h.reigns, 0, 0, 0, {})], issued := c.issued + 1)
  }

  function DoCheckRead(c: Cluster, r: nat): Cluster
    requires r in c.queries && c.queries[r].node in c.nodes
  {
    c.(queries := c.queries[r := c.queries[r].(phase := Checked, checkTerm := c.nodes[c.queries[r].node].term)])
  }

  function DoCaptureRead(c: Cluster, r: nat): Cluster
    requires r in c.queries && c.queries[r].node in c.nodes
  {
    var n := c.nodes[c.queries[r].node];
    c.(queries := c.queries[r := c.queries[r].(phase := Captured, term := n.term, index := n.commit)])
  }

  function DoProbe(c: Cluster, r: nat, p: Id): Cluster
    requires r in c.queries && c.queries[r].node in c.nodes && |c.nodes[c.queries[r].node].log| > 0
  {
    c.(net := c.net + {ProbeReq(r, p, ProbeOf(c.nodes[c.queries[r].node]))})
  }

  function DoProbeReq(c: Cluster, pkt: Packet): Cluster
    requires pkt.ProbeReq? && pkt.to in c.nodes && |c.nodes[pkt.to].log| > 0
  {
    var resp := OnAppend(c.nodes[pkt.to], pkt.append).1;
    ReceiveAppend(c, pkt.to, pkt.append).(
      net := c.net + {ProbeRsp(pkt.read, pkt.to, pkt.append.leader, resp)})
  }

  /** The answer counts if the node is still leading in the captured term. */
  function DoProbeRsp(c: Cluster, pkt: Packet): Cluster
    requires pkt.ProbeRsp? && pkt.to in c.nodes
  {
    var n' := OnProbeResponse(c.nodes[pkt.to], pkt.appendResp);
    var c' := Update(c, pkt.to, n');
    if pkt.read in c.queries && c.queries[pkt.read].node == pkt.to && c.queries[pkt.read].phase == Captured
       && pkt.appendResp.term <= c.nodes[pkt.to].term
       && n'.role == Leader && n'.term == c.queries[pkt.read].term
    then c'.(queries := c.queries[pkt.read := c.queries[pkt.read].(acks := c.queries[pkt.read].acks + {pkt.from})])
    else c'
  }

  /** Enough members have confirmed the leadership for the read. */
  ghost predicate Confirmed(c: Cluster, r: nat) {
    && r in c.queries && c.queries[r].phase == Captured
    && c.queries[r].node in c.nodes
    && |c.queries[r].acks + {c.queries[r].node}| >= MajoritySize(c.nodes[c.queries[r].node].peers.Keys)
  }

  /** The node has applied the read's index. */
  ghost predicate AppliedRead(c: Cluster, r: nat) {
    r in c.queries && c.queries[r].node in c.nodes && c.nodes[c.queries[r].node].applied >= c.queries[r].index
  }

  /** The node, which has not crashed, is leader when it looks for the last time. */
  ghost predicate StillLeader(c: Cluster, r: nat) {
    r in c.queries && c.queries[r].node in c.nodes && c.nodes[c.queries[r].node].role == Leader
  }

  // ---------------------------------------------------------------- the transition system

  ghost predicate AllSane(c: Cluster) {
    forall v {:trigger c.nodes[v]} :: v in c.nodes ==> Sane(c.nodes[v]) && c.nodes[v].id == v
  }

  /** The step can happen, leaving aside how many calls are outstanding. */
  ghost predicate Able(c: Cluster, s: Step) {
    match s
    case Timeout(v) => v in c.nodes && c.nodes[v].role != Leader
    case Tick(v) => v in c.nodes
    case Crash(v) => v in c.nodes
    case ClientPut(v, _) => v in c.nodes
    case CallAppend(v, p) => CanCall(c, v, p) && !ShouldInstall(c.nodes[v], p)
    case CallSnapshot(v, p) => CanCall(c, v, p) && ShouldInstall(c.nodes[v], p)
    case DropCall(id) => id in c.calls
    case Deliver(pkt) =>
      && pkt in c.net && pkt.to in c.nodes
      && (pkt.AppendRsp? || pkt.SnapRsp? ==> pkt.id in c.calls)
      && (pkt.SnapReq? ==> |pkt.prefix| == pkt.snapshot.lastIndex + 1)
    case BeginRead(v) => v in c.nodes
    case CheckRead(r) =>
      && r in c.queries && c.queries[r].phase == Waiting && c.queries[r].node in c.nodes
      && c.nodes[c.queries[r].node].role == Leader
      && |c.nodes[c.queries[r].node].log| > 0 && CommittedInTerm(c.nodes[c.queries[r].node])
    case CaptureRead(r) =>
      && r in c.queries && c.queries[r].phase == Checked && c.queries[r].node in c.nodes
      && c.nodes[c.queries[r].node].role == Leader
    case Probe(r, p) =>
      && r in c.queries && c.queries[r].phase == Captured && c.queries[r].node in c.nodes
      && c.nodes[c.queries[r].node].role == Leader
      && c.nodes[c.queries[r].node].term == c.queries[r].term
      && p in c.nodes[c.queries[r].node].peers && p != c.queries[r].node
  }

  ghost predicate Enabled(c: Cluster, s: Step) {
    Able(c, s) && (s.CallAppend? || s.CallSnapshot? ==> MayCall(c, s.node, s.peer))
  }

  function DoDeliver(c: Cluster, pkt: Packet): Cluster
    requires pkt.to in c.nodes && |c.nodes[pkt.to].log| > 0
    requires pkt.SnapReq? ==> |pkt.prefix| == pkt.snapshot.lastIndex + 1
  {
    match pkt
    case VoteReq(_, _) => DoVoteReq(c, pkt)
    case VoteRsp(_, _, _, _) => DoVoteRsp(c, pkt)
    case AppendReq(_, _, _) => DoAppendReq(c, pkt)
    case AppendRsp(_, _, _, _, _) => DoAppendRsp(c, pkt)
    case SnapReq(_, _, _, _) => DoSnapReq(c, pkt)
    case SnapRsp(_, _, _, _, _) => DoSnapRsp(c, pkt)
    case ProbeReq(_, _, _) => DoProbeReq(c, pkt)
    case ProbeRsp(_, _, _, _) => DoProbeRsp(c, pkt)
  }

  ghost function After(c: Cluster, s: Step): Cluster
    requires AllSane(c) && Able(c, s)
  {
    match s
    case Timeout(v) => DoTimeout(c, v)
    case Tick(v) => Update(c, v, ApplyCommitted(c.nodes[v]))
    case Crash(v) => DoCrash(c, v)
    case ClientPut(v, cmd) => DoPut(c, v, cmd)
    case CallAppend(v, p) => DoCallAppend(c, v, p)
    case CallSnapshot(v, p) => DoCallSnapshot(c, v, p)
    case DropCall(id) => c.(calls := c.calls - {id})
    case Deliver(pkt) => DoDeliver(c, pkt)
    case BeginRead(v) => DoBeginRead(c, v)
    case CheckRead(r) => DoCheckRead(c, r)
    case CaptureRead(r) => DoCaptureRead(c, r)
    case Probe(r, p) => DoProbe(c, r, p)
  }

  /** Every node as it first boots, all with the same membership. */
  ghost predicate Initial(c: Cluster) {
    && c.members != {} && "" !in c.members
    && c.nodes.Keys == c.members
    && c.net == {} && c.calls == map[] && c.applied == {} && c.queries == map[]
    && c.h == History(map[], map[], {}, {})
    && exists cfg: Config :: cfg.Keys == c.members && Booted(c, cfg)
  }

  ghost predicate Booted(c: Cluster, cfg: Config) {
    forall v {:trigger c.nodes[v]} :: v in c.nodes ==>
      c.nodes[v] == Boot(v, c.nodes[v].threshold, false, cfg) && (!c.compacting ==> c.nodes[v].threshold == 0)
  }
}
