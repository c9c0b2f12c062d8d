/** One node as a value, and each of its atomic actions as a function. The log here is the full
    log: entry `i` sits at position `i` even when the node has replaced the entries through
    `snap` by a snapshot. `RaftNode` implements these functions over the compacted log. */
module NodeSpec {
  import opened RaftTypes
  import opened Quorums
  import opened Logs

  type Config = map<Id, string>

  datatype Node = Node(
    id: Id,
    threshold: nat,               // compact after this many applied entries; 0 disables
    role: Role,
    term: nat,
    vote: Id,                     // "" when the node has not voted in this term
    log: Log,
    snap: nat,                    // last index covered by the snapshot
    image: Store,                 // the snapshot
    base: Config,                 // configuration as of `snap`
    peers: Config,                // current configuration
    commit: nat,
    applied: nat,
    kv: Store,
    votes: set<Id>,
    nextIndex: map<Id, nat>,
    matchIndex: map<Id, nat>,
    leader: Id,
    joining: bool)

  /** What every action keeps, whatever requests arrive: the snapshot covers only entries that
      the log has and that were applied. */
  predicate Sane(n: Node) {
    && |n.log| > 0
    && n.snap <= LastIndex(n.log)
    && n.snap <= n.applied
  }

  /** The node has a snapshot to send, or may come to make one. */
  predicate Compacts(n: Node) { n.threshold > 0 || n.snap > 0 }

  function Lookup(m: map<Id, nat>, p: Id): nat { if p in m then m[p] else 0 }

  function Min(a: nat, b: nat): nat { if a <= b then a else b }
  function Max(a: nat, b: nat): nat { if a <= b then b else a }

  // ---------------------------------------------------------------- state machine

  /** The state machine's reaction to one entry. */
  function Execute(kv: Store, e: Entry): Store {
    if e.change.Some? then kv
    else match e.command
      case Operation(op, key, value) => if op == "Put" then kv[key := value] else kv
      case _ => kv
  }

  /** Entries `lo+1` through `hi`, in order. */
  function ReplayFrom(kv: Store, log: Log, lo: nat, hi: nat): Store
    requires hi < |log| || hi <= lo
    decreases hi
  {
    if hi <= lo then kv else Execute(ReplayFrom(kv, log, lo, hi - 1), log[hi])
  }

  /** The map after the first `k` entries, from nothing. */
  function Replay(log: Log, k: nat): Store
    requires k < |log|
  {
    ReplayFrom(map[], log, 0, k)
  }

  // ---------------------------------------------------------------- configuration

  function ApplyChange(cfg: Config, ch: Change): Config {
    if |ch.peers| > 0 then ch.peers
    else match ch.kind
      case AddPeer => cfg[ch.id := ch.addr]
      case RemovePeer => cfg - {ch.id}
  }

  function ApplyEntry(cfg: Config, e: Entry): Config {
    match e.change
    case Some(ch) => ApplyChange(cfg, ch)
    case None => cfg
  }

  /** The configuration after entries `lo+1` through `hi`, starting from `cfg`. */
  function FoldConfig(cfg: Config, log: Log, lo: nat, hi: nat): Config
    requires hi < |log| || hi <= lo
    decreases hi
  {
    if hi <= lo then cfg else ApplyEntry(FoldConfig(cfg, log, lo, hi - 1), log[hi])
  }

  function Rebuild(n: Node): Node
    requires |n.log| > 0
  {
    n.(peers := FoldConfig(n.base, n.log, n.snap, LastIndex(n.log)))
  }

  // ---------------------------------------------------------------- roles

  /** A later term clears the vote. */
  function BecomeFollower(n: Node, term: nat, leader: Id): Node {
    n.(term := Max(n.term, term), vote := if term > n.term then "" else n.vote, role := Follower, leader := leader)
  }

  /** Nodes of a later term are followed; otherwise nothing changes. */
  function NoteTerm(n: Node, term: nat): Node {
    n.(term := Max(n.term, term),
       vote := if term > n.term then "" else n.vote,
       role := if term > n.term then Follower else n.role,
       leader := if term > n.term then "" else n.leader)
  }

  /** The members known to hold index `i`. */
  function Holders(n: Node, i: nat): set<Id> {
    set p | p in n.peers && Lookup(n.matchIndex, p) >= i
  }

  /** The index may be committed by counting: not compacted away, created in this term and held
      by a majority. */
  predicate Committable(n: Node, i: nat)
    requires i < |n.log|
  {
    n.snap <= i && n.log[i].term == n.term && |Holders(n, i)| >= MajoritySize(n.peers.Keys)
  }

  /** The highest committable index in (commit, top], or `commit`. */
  function BestCommit(n: Node, top: nat): nat
    requires top < |n.log|
  {
    if top <= n.commit then n.commit
    else if Committable(n, top) then top
    else BestCommit(n, top - 1)
  }

  function AdvanceCommit(n: Node): Node
    requires |n.log| > 0
  {
    n.(commit := BestCommit(n, LastIndex(n.log)))
  }

  /** How far `applied` can go: to the commit index, but not past the end of the log. */
  function ApplyTarget(n: Node): nat
    requires |n.log| > 0
  {
    Max(n.applied, Min(n.commit, LastIndex(n.log)))
  }

  function Catchup(n: Node): Node
    requires |n.log| > 0
  {
    n.(applied := ApplyTarget(n), kv := ReplayFrom(n.kv, n.log, n.applied, ApplyTarget(n)))
  }

  function Compact(n: Node): Node
    requires |n.log| > 0
  {
    if n.applied <= n.snap || n.applied > LastIndex(n.log) then n
    else Rebuild(n.(snap := n.applied, image := n.kv, base := FoldConfig(n.base, n.log, n.snap, n.applied)))
  }

  function MaybeCompact(n: Node): Node
    requires |n.log| > 0
  {
    if n.threshold == 0 || n.applied - n.snap < n.threshold then n else Compact(n)
  }

  function ApplyCommitted(n: Node): Node
    requires |n.log| > 0
  {
    MaybeCompact(Catchup(n))
  }

  /** Append an entry to a leader's log and account for the leader's own copy. */
  function LeaderAppend(n: Node, e: Entry): Node {
    n.(log := n.log + [e],
       matchIndex := n.matchIndex[n.id := |n.log|],
       nextIndex := n.nextIndex[n.id := |n.log| + 1])
  }

  function BecomeLeader(n: Node): Node
    requires |n.log| > 0
  {
    ApplyCommitted(AdvanceCommit(Crowned(n)))
  }

  /** The new leader, before it looks at its commit index. */
  function Crowned(n: Node): Node {
    LeaderAppend(n.(role := Leader, leader := n.id,
                    nextIndex := Uniform(n.peers.Keys, |n.log|),
                    matchIndex := Uniform(n.peers.Keys, 0)), NoOp(n.term))
  }

  function Uniform(ids: set<Id>, k: nat): map<Id, nat> { map p | p in ids :: k }

  // ---------------------------------------------------------------- elections

  function StartElection(n: Node): Node
    requires |n.log| > 0
  {
    if n.joining || n.id !in n.peers then n else TallyVotes(Campaigner(n))
  }

  /** The node as a candidate, before it may win at once. */
  function Campaigner(n: Node): Node {
    n.(role := Candidate, term := n.term + 1, vote := n.id, leader := "", votes := {n.id})
  }

  function TallyVotes(n: Node): Node
    requires |n.log| > 0
  {
    if |n.votes| >= MajoritySize(n.peers.Keys) then BecomeLeader(n) else n
  }

  /** The request a candidate sends, from its state when the election starts. */
  function VoteRequestOf(n: Node): VoteRequest
    requires |n.log| > 0
  {
    VoteRequest(n.term, n.id, LastIndex(n.log), LastTerm(n.log))
  }

  function OnVoteRequest(n: Node, req: VoteRequest): (Node, VoteResponse)
    requires |n.log| > 0
  {
    if req.term < n.term then (n, VoteResponse(n.term, false))
    else (Consider(NoteTerm(n, req.term), req), VoteResponse(req.term, Grants(NoteTerm(n, req.term), req)))
  }

  predicate Grants(n: Node, req: VoteRequest)
    requires |n.log| > 0
  {
    (n.vote == "" || n.vote == req.candidate) && AtLeastAsUpToDate(req.lastIndex, req.lastTerm, n.log)
  }

  function Consider(n: Node, req: VoteRequest): Node
    requires |n.log| > 0
  {
    n.(vote := if Grants(n, req) then req.candidate else n.vote)
  }

  function OnVoteResponse(n: Node, from: Id, reqTerm: nat, resp: VoteResponse): Node
    requires |n.log| > 0
  {
    if resp.term > n.term then BecomeFollower(n, resp.term, "")
    else if n.role != Candidate || n.term != reqTerm || !resp.granted then n
    else TallyVotes(n.(votes := n.votes + {from}))
  }

  // ---------------------------------------------------------------- replication

  function Propose(n: Node, cmd: Command): (Node, Option<nat>)
    requires |n.log| > 0
  {
    if n.role != Leader then (n, None)
    else (ApplyCommitted(AdvanceCommit(LeaderAppend(n, Entry(n.term, cmd, None)))), Some(|n.log|))
  }

  predicate ShouldInstall(n: Node, p: Id) {
    n.snap > 0 && Lookup(n.nextIndex, p) <= n.snap
  }

  /** The next index for a peer, never past the end of the log. */
  function NextFor(n: Node, p: Id): nat { Min(Lookup(n.nextIndex, p), |n.log|) }

  /** Building an AppendEntries request may lower the peer's next index. */
  function MakeAppend(n: Node, p: Id): (Node, Option<AppendRequest>)
    requires Sane(n)
  {
    if Lookup(n.nextIndex, p) <= n.snap then (n, None)
    else
      var next := NextFor(n, p);
      (n.(nextIndex := if Lookup(n.nextIndex, p) > |n.log| then n.nextIndex[p := next] else n.nextIndex),
       Some(AppendRequest(n.term, n.id, next - 1, n.log[next - 1].term, n.log[next..], n.commit)))
  }

  /** The heartbeat that confirms leadership for a read. */
  function ProbeOf(n: Node): AppendRequest
    requires |n.log| > 0
  {
    AppendRequest(n.term, n.id, LastIndex(n.log), LastTerm(n.log), [], n.commit)
  }

  /** Every node that hears from a leader of its own or a later term follows it. */
  function Heard(n: Node, term: nat, leader: Id): Node {
    BecomeFollower(n, term, leader).(joining := false)
  }

  predicate PrevMatches(n: Node, req: AppendRequest) {
    n.snap <= req.prevIndex < |n.log| && n.log[req.prevIndex].term == req.prevTerm
  }

  /** Membership is rebuilt only if the log changed. */
  function TakeEntries(n: Node, req: AppendRequest): Node
    requires PrevMatches(n, req)
  {
    TakeLog(n, MergeFor(n, req))
  }

  function MergeFor(n: Node, req: AppendRequest): (log: Log)
    requires PrevMatches(n, req)
    ensures |log| > req.prevIndex + |req.entries|
  {
    MergeReaches(n.log, req.prevIndex + 1, req.entries);
    Merge(n.log, req.prevIndex + 1, req.entries)
  }

  function TakeLog(n: Node, log: Log): Node
    requires |log| > 0
  {
    n.(log := log, peers := if log == n.log then n.peers else FoldConfig(n.base, log, n.snap, LastIndex(log)))
  }

  function TakeCommit(n: Node, commit: nat): Node
    requires |n.log| > 0
  {
    if commit > n.commit then ApplyCommitted(n.(commit := Min(commit, LastIndex(n.log)))) else n
  }

  function OnAppend(n: Node, req: AppendRequest): (Node, AppendResponse)
    requires |n.log| > 0
  {
    if req.term < n.term then (n, AppendResponse(n.term, false))
    else (FollowAppend(Heard(n, req.term, req.leader), req), AppendResponse(req.term, PrevMatches(n, req)))
  }

  function FollowAppend(n: Node, req: AppendRequest): Node
    requires |n.log| > 0
  {
    if PrevMatches(n, req) then TakeCommit(TakeEntries(n, req), req.commit) else n
  }

  /** What a rejected request does to the peer's next index. The source has one more case, for
      `snap == 0 && next > 1`, which the first case already covers. */
  function BackOff(n: Node, p: Id): nat {
    var next := Lookup(n.nextIndex, p);
    if next > n.snap + 1 then next - 1
    else if n.snap > 0 then n.snap
    else next
  }

  function CountMatch(n: Node, p: Id, m: nat): Node
    requires |n.log| > 0
  {
    ApplyCommitted(AdvanceCommit(n.(matchIndex := n.matchIndex[p := m], nextIndex := n.nextIndex[p := m + 1])))
  }

  function OnAppendResponse(n: Node, p: Id, req: AppendRequest, resp: AppendResponse): Node
    requires |n.log| > 0
  {
    if n.role != Leader || n.term != req.term then n
    else if resp.term > n.term then BecomeFollower(n, resp.term, "")
    else if resp.success then CountMatch(n, p, req.prevIndex + |req.entries|)
    else n.(nextIndex := if BackOff(n, p) == Lookup(n.nextIndex, p) then n.nextIndex else n.nextIndex[p := BackOff(n, p)])
  }

  // ---------------------------------------------------------------- snapshots

  function MakeSnapshot(n: Node): SnapshotRequest
    requires Sane(n)
  {
    SnapshotRequest(n.term, n.id, n.snap, n.log[n.snap].term, n.image, n.base)
  }

  /** `prefix` is the log the snapshot stands for, through `req.lastIndex`. */
  function OnSnapshot(n: Node, req: SnapshotRequest, prefix: Log): (Node, SnapshotResponse)
    requires |n.log| > 0 && |prefix| == req.lastIndex + 1
  {
    if req.term < n.term then (n, SnapshotResponse(n.term))
    else (FollowSnapshot(Heard(n, req.term, req.leader), req, prefix), SnapshotResponse(req.term))
  }

  function FollowSnapshot(n: Node, req: SnapshotRequest, prefix: Log): Node
    requires |prefix| == req.lastIndex + 1
  {
    if req.lastIndex <= n.snap then n else Installed(n, req, prefix)
  }

  /** A request without peers leaves both configurations as they are. */
  function Installed(n: Node, req: SnapshotRequest, prefix: Log): Node
    requires |prefix| == req.lastIndex + 1
  {
    n.(log := prefix, snap := req.lastIndex, image := req.data, kv := req.data,
       applied := req.lastIndex, commit := Max(n.commit, req.lastIndex),
       base := if |req.peers| > 0 then req.peers else n.base,
       peers := if |req.peers| > 0 then req.peers else n.peers)
  }

  function OnSnapshotResponse(n: Node, p: Id, req: SnapshotRequest, resp: SnapshotResponse): Node
    requires |n.log| > 0
  {
    if n.role != Leader || n.term != req.term then n
    else if resp.term > n.term then BecomeFollower(n, resp.term, "")
    else CountMatch(n, p, req.lastIndex)
  }

  /** The reply to a leadership probe can only make the node step down. */
  function OnProbeResponse(n: Node, resp: AppendResponse): Node {
    if resp.term > n.term then BecomeFollower(n, resp.term, "") else n
  }

  // ---------------------------------------------------------------- crash and restart

  /** What is on disk. */
  datatype Durable = Durable(term: nat, vote: Id, log: Log, snap: nat, image: Store, base: Config)

  function Persisted(n: Node): Durable {
    Durable(n.term, n.vote, n.log, n.snap, n.image, n.base)
  }

  /** A node started from a disk that has been written. */
  function Recover(id: Id, threshold: nat, join: bool, d: Durable): Node
    requires |d.log| > 0
  {
    var peers := FoldConfig(d.base, d.log, d.snap, LastIndex(d.log));
    Node(id, threshold, Follower, d.term, d.vote, d.log, d.snap, d.image, d.base, peers,
         d.snap, d.snap, d.image, {}, map[], map[], "", join && |peers| <= 1)
  }

  function Restart(n: Node, join: bool): Node
    requires |n.log| > 0
  {
    Recover(n.id, n.threshold, join, Persisted(n))
  }

  /** A node that has never run. */
  function Boot(id: Id, threshold: nat, join: bool, peers: Config): Node {
    Node(id, threshold, Follower, 0, "", [DUMMY], 0, map[], peers, peers, 0, 0, map[], {}, map[], map[], "", join)
  }
}
