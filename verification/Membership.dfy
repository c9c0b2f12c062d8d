/** Single-server membership changes: what a proposal does, how configurations follow from the
    log, and why two consecutive ones cannot elect two leaders or commit two histories. */
module Membership {
  import opened RaftTypes
  import opened Quorums
  import opened Logs
  import opened NodeSpec

  datatype ChangeError = NotLeader | InProgress | AlreadyMember | NotMember | RemovesLeader | LastMember

  datatype Result<+T> = Ok(value: T) | Err(error: ChangeError)

  // ---------------------------------------------------------------- proposing

  /** An entry above the commit index, and not compacted away, changes the configuration. */
  predicate HasUncommitted(n: Node) {
    exists i :: n.commit < i < |n.log| && n.snap < i && ChangesAt(n.log, i)
  }

  predicate ChangesAt(log: Log, i: nat)
    requires i < |log|
  {
    log[i].change.Some?
  }

  function Delta(cfg: Config, kind: ChangeKind, id: Id, addr: string): Config {
    match kind
    case AddPeer => cfg[id := addr]
    case RemovePeer => cfg - {id}
  }

  function CheckChange(n: Node, kind: ChangeKind, id: Id): Result<()> {
    if n.role != Leader then Err(NotLeader)
    else if HasUncommitted(n) then Err(InProgress)
    else match kind
      case AddPeer => if id in n.peers then Err(AlreadyMember) else Ok(())
      case RemovePeer =>
        if id !in n.peers then Err(NotMember)
        else if id == n.id then Err(RemovesLeader)
        else if |n.peers| <= 1 then Err(LastMember)
        else Ok(())
  }

  /** Members that are not tracked yet get `start` as their next index and match nothing. */
  function TrackNext(next: map<Id, nat>, members: set<Id>, start: nat): map<Id, nat> {
    map p | p in next.Keys + members :: if p in next then next[p] else start
  }

  function TrackMatch(next: map<Id, nat>, matched: map<Id, nat>, members: set<Id>): map<Id, nat> {
    map p | p in matched.Keys + (members - next.Keys) :: if p in members && p !in next then 0 else matched[p]
  }

  /** The leader's log and configuration with the change in place. */
  function Amended(n: Node, kind: ChangeKind, id: Id, addr: string): Node
    requires |n.log| > 0
  {
    var e := Entry(n.term, Empty, Some(Change(kind, id, addr, Delta(n.peers, kind, id, addr))));
    Rebuild(n.(log := n.log + [e]))
  }

  /** New members are followed from the snapshot, or from the end of the log without one. */
  function Tracked(n: Node): Node
    requires |n.log| > 0
  {
    var start := if n.snap > 0 then n.snap else |n.log|;
    n.(nextIndex := TrackNext(n.nextIndex, n.peers.Keys, start)[n.id := |n.log|],
       matchIndex := TrackMatch(n.nextIndex, n.matchIndex, n.peers.Keys)[n.id := LastIndex(n.log)])
  }

  function Accept(n: Node, kind: ChangeKind, id: Id, addr: string): Node
    requires |n.log| > 0
  {
    ApplyCommitted(AdvanceCommit(Tracked(Amended(n, kind, id, addr))))
  }

  function ProposeChange(n: Node, kind: ChangeKind, id: Id, addr: string): (Node, Result<nat>)
    requires |n.log| > 0
  {
    match CheckChange(n, kind, id)
    case Err(e) => (n, Err(e))
    case Ok(_) => (Accept(n, kind, id, addr), Ok(|n.log|))
  }

  // ---------------------------------------------------------------- the cached configuration

  /** The cached configuration is what the log says. */
  predicate Configured(n: Node) {
    |n.log| > 0 && n.peers == FoldConfig(n.base, n.log, n.snap, LastIndex(n.log))
  }

  lemma {:induction false} FoldSplit(cfg: Config, log: Log, lo: nat, mid: nat, hi: nat)
    requires lo <= mid <= hi < |log|
    ensures FoldConfig(cfg, log, lo, hi) == FoldConfig(FoldConfig(cfg, log, lo, mid), log, mid, hi)
    decreases hi
  {
    if mid < hi {
      FoldSplit(cfg, log, lo, mid, hi - 1);
    }
  }

  lemma {:induction false} FoldAgree(cfg: Config, a: Log, b: Log, lo: nat, hi: nat)
    requires hi < |a| && hi < |b| && (forall i :: lo < i <= hi ==> a[i] == b[i])
    ensures FoldConfig(cfg, a, lo, hi) == FoldConfig(cfg, b, lo, hi)
    decreases hi
  {
    if lo < hi {
      FoldAgree(cfg, a, b, lo, hi - 1);
    }
  }

  /** Compacting the log changes nobody's membership. */
  lemma CompactionKeepsMembership(n: Node)
    requires Configured(n) && n.snap <= n.applied
    ensures Configured(ApplyCommitted(n)) && ApplyCommitted(n).peers == n.peers
  {
    var m := Catchup(n);
    if m.applied > m.snap && m.applied <= LastIndex(m.log) {
      FoldSplit(m.base, m.log, m.snap, m.applied, LastIndex(m.log));
    }
  }

  // ---------------------------------------------------------------- accepted changes

  /** The two configurations differ by one member and agree on all others. */
  predicate OneApart(cfg: Config, cfg': Config, id: Id) {
    && (id in cfg <==> id !in cfg')
    && cfg - {id} == cfg' - {id}
  }

  lemma SomeoneRemains(cfg: Config, kind: ChangeKind, id: Id, addr: string)
    requires kind == RemovePeer ==> id in cfg && |cfg| > 1
    ensures |Delta(cfg, kind, id, addr)| > 0
  {
    var cfg' := Delta(cfg, kind, id, addr);
    if kind == RemovePeer {
      assert cfg.Keys == cfg'.Keys + {id};
      assert |cfg.Keys| == |cfg'.Keys| + 1;
    } else {
      assert id in cfg';
    }
  }

  lemma AmendedPeers(n: Node, kind: ChangeKind, id: Id, addr: string)
    requires Configured(n) && n.snap < |n.log| && CheckChange(n, kind, id).Ok?
    ensures Amended(n, kind, id, addr).peers == Delta(n.peers, kind, id, addr)
    ensures Configured(Amended(n, kind, id, addr))
    ensures OneApart(n.peers, Amended(n, kind, id, addr).peers, id)
  {
    var cfg := Delta(n.peers, kind, id, addr);
    var log := n.log + [Entry(n.term, Empty, Some(Change(kind, id, addr, cfg)))];
    FoldAgree(n.base, n.log, log, n.snap, LastIndex(n.log));
    assert FoldConfig(n.base, log, n.snap, LastIndex(n.log)) == n.peers;
    SomeoneRemains(n.peers, kind, id, addr);
    DeltaIsOneApart(n.peers, kind, id, addr);
  }

  lemma DeltaIsOneApart(cfg: Config, kind: ChangeKind, id: Id, addr: string)
    requires kind == AddPeer <==> id !in cfg
    ensures OneApart(cfg, Delta(cfg, kind, id, addr), id)
  {
  }

  /** A proposal is accepted exactly when the node leads, has no change in flight, and adds a
      stranger or removes a member other than itself. Then the configuration in force changes
      by that one member, at once, and the leader stays in it; otherwise nothing changes. */
  lemma ProposalOutcome(n: Node, kind: ChangeKind, id: Id, addr: string)
    requires Configured(n) && n.snap <= n.applied && n.snap < |n.log| && n.id in n.peers
    ensures
      var (n', r) := ProposeChange(n, kind, id, addr);
      && (r.Ok? <==> n.role == Leader && !HasUncommitted(n) && (if kind == AddPeer then id !in n.peers else id in n.peers && id != n.id))
      && (r.Ok? ==> r.value == |n.log| && |n'.log| == |n.log| + 1 && n.log <= n'.log
                    && n'.peers == Delta(n.peers, kind, id, addr) && OneApart(n.peers, n'.peers, id)
                    && Configured(n') && n.id in n'.peers)
      && (r.Err? ==> n' == n)
  {
    if n.role == Leader && !HasUncommitted(n) && kind == RemovePeer && id in n.peers && id != n.id {
      assert {id, n.id} <= n.peers.Keys;
      SubsetSize({id, n.id}, n.peers.Keys);
    }
    if CheckChange(n, kind, id).Ok? {
      AmendedPeers(n, kind, id, addr);
      var m := AdvanceCommit(Tracked(Amended(n, kind, id, addr)));
      CompactionKeepsMembership(m);
      KeepsLog(m);
    }
  }

  lemma KeepsLog(n: Node)
    requires |n.log| > 0
    ensures ApplyCommitted(n).log == n.log
  {
  }

  /** Any majority before an accepted change and any majority after it share a member. */
  lemma ConsecutiveQuorumsMeet(cfg: Config, cfg': Config, id: Id, p: set<Id>, q: set<Id>) returns (v: Id)
    requires OneApart(cfg, cfg', id) && IsQuorum(cfg.Keys, p) && IsQuorum(cfg'.Keys, q)
    ensures v in p && v in q
  {
    OneApartKeys(cfg, cfg', id);
    if id in cfg {
      v := AdjacentQuorumsMeet(cfg'.Keys, id, q, p);
    } else {
      v := AdjacentQuorumsMeet(cfg.Keys, id, p, q);
    }
  }

  lemma OneApartKeys(cfg: Config, cfg': Config, id: Id)
    requires OneApart(cfg, cfg', id)
    ensures if id in cfg then cfg.Keys == cfg'.Keys + {id} else cfg'.Keys == cfg.Keys + {id}
  {
    forall k
      ensures k != id ==> (k in cfg <==> k in cfg')
    {
      assert k in cfg - {id} <==> k in cfg' - {id};
    }
  }

  // ---------------------------------------------------------------- configurations along a log

  /** The change at `i` was proposed against the configuration in force before it. */
  predicate ProposedAt(base: Config, log: Log, lo: nat, i: nat)
    requires lo < i < |log|
  {
    match log[i].change
    case None => true
    case Some(ch) =>
      var cfg := FoldConfig(base, log, lo, i - 1);
      && ch.peers == Delta(cfg, ch.kind, ch.id, ch.addr) && |ch.peers| > 0
      && (ch.kind == AddPeer <==> ch.id !in cfg)
  }

  predicate Proposed(base: Config, log: Log, lo: nat) {
    forall i :: lo < i < |log| ==> ProposedAt(base, log, lo, i)
  }

  /** Adding and removing one member at a time, ignoring the full maps. */
  function FoldDeltas(cfg: Config, log: Log, lo: nat, hi: nat): Config
    requires hi < |log| || hi <= lo
    decreases hi
  {
    if hi <= lo then cfg
    else
      var before := FoldDeltas(cfg, log, lo, hi - 1);
      match log[hi].change
      case Some(ch) => Delta(before, ch.kind, ch.id, ch.addr)
      case None => before
  }

  /** The index of the last change up to `hi`, or `lo` if there is none. */
  function LastChange(log: Log, lo: nat, hi: nat): nat
    requires hi < |log| || hi <= lo
    decreases hi
  {
    if hi <= lo then lo else if log[hi].change.Some? then hi else LastChange(log, lo, hi - 1)
  }

  /** For proposed changes, the configuration is the full map of the last change, or the base;
      folding additions and removals one by one gives the same. */
  lemma {:induction false} FoldIsLastChange(base: Config, log: Log, lo: nat, hi: nat)
    requires lo <= hi < |log| && Proposed(base, log, lo)
    ensures lo <= LastChange(log, lo, hi) <= hi
    ensures forall i :: LastChange(log, lo, hi) < i <= hi ==> log[i].change.None?
    ensures LastChange(log, lo, hi) == lo ==> FoldConfig(base, log, lo, hi) == base
    ensures LastChange(log, lo, hi) > lo ==>
              log[LastChange(log, lo, hi)].change.Some?
              && FoldConfig(base, log, lo, hi) == log[LastChange(log, lo, hi)].change.value.peers
    ensures FoldDeltas(base, log, lo, hi) == FoldConfig(base, log, lo, hi)
    decreases hi
  {
    if lo < hi {
      FoldIsLastChange(base, log, lo, hi - 1);
      assert ProposedAt(base, log, lo, hi);
    }
  }

  /** Along a log of proposed changes, neighbouring configurations are equal or one apart. */
  lemma ConsecutiveConfigurations(base: Config, log: Log, lo: nat, i: nat)
    requires lo < i < |log| && Proposed(base, log, lo)
    ensures log[i].change.None? ==> FoldConfig(base, log, lo, i) == FoldConfig(base, log, lo, i - 1)
    ensures log[i].change.Some? ==>
              OneApart(FoldConfig(base, log, lo, i - 1), FoldConfig(base, log, lo, i), log[i].change.value.id)
  {
    assert ProposedAt(base, log, lo, i);
  }

  /** Proposals keep the log a log of proposed changes. */
  lemma ProposalIsProposed(n: Node, kind: ChangeKind, id: Id, addr: string)
    requires Configured(n) && n.snap < |n.log| && Proposed(n.base, n.log, n.snap) && CheckChange(n, kind, id).Ok?
    ensures Proposed(n.base, Amended(n, kind, id, addr).log, n.snap)
  {
    var e := Entry(n.term, Empty, Some(Change(kind, id, addr, Delta(n.peers, kind, id, addr))));
    SomeoneRemains(n.peers, kind, id, addr);
    ProposedGrows(n.base, n.log, n.snap, e);
  }

  lemma ProposedGrows(base: Config, log: Log, lo: nat, e: Entry)
    requires lo < |log| && Proposed(base, log, lo)
    requires
      match e.change
      case None => true
      case Some(ch) =>
        var cfg := FoldConfig(base, log, lo, LastIndex(log));
        ch.peers == Delta(cfg, ch.kind, ch.id, ch.addr) && |ch.peers| > 0 && (ch.kind == AddPeer <==> ch.id !in cfg)
    ensures Proposed(base, log + [e], lo)
  {
    var log' := log + [e];
    forall i | lo < i < |log'|
      ensures ProposedAt(base, log', lo, i)
    {
      FoldAgree(base, log, log', lo, i - 1);
      assert i < |log| ==> ProposedAt(base, log, lo, i);
    }
  }

  // ---------------------------------------------------------------- over any sequence of actions

  /** Everything a node can do, under any requests and replies. */
  datatype Action =
    | StartsElection
    | VoteRequested(vote: VoteRequest)
    | VoteAnswered(from: Id, asked: nat, voteResp: VoteResponse)
    | Proposes(command: Command)
    | ProposesChange(kind: ChangeKind, id: Id, addr: string)
    | AppendReceived(append: AppendRequest)
    | AppendAnswered(from: Id, append: AppendRequest, appendResp: AppendResponse)
    | SnapshotReceived(snapshot: SnapshotRequest, prefix: Log)
    | SnapshotAnswered(from: Id, snapshot: SnapshotRequest, snapshotResp: SnapshotResponse)
    | Ticks
    | Restarts(join: bool)

  function Act(n: Node, a: Action): Node
    requires |n.log| > 0 && (a.SnapshotReceived? ==> |a.prefix| == a.snapshot.lastIndex + 1)
  {
    match a
    case StartsElection => StartElection(n)
    case VoteRequested(req) => OnVoteRequest(n, req).0
    case VoteAnswered(from, asked, resp) => OnVoteResponse(n, from, asked, resp)
    case Proposes(cmd) => Propose(n, cmd).0
    case ProposesChange(kind, id, addr) => ProposeChange(n, kind, id, addr).0
    case AppendReceived(req) => OnAppend(n, req).0
    case AppendAnswered(from, req, resp) => OnAppendResponse(n, from, req, resp)
    case SnapshotReceived(req, prefix) => OnSnapshot(n, req, prefix).0
    case SnapshotAnswered(from, req, resp) => OnSnapshotResponse(n, from, req, resp)
    case Ticks => ApplyCommitted(n)
    case Restarts(join) => Restart(n, join)
  }

  /** The cached configuration is the log's, and whoever campaigns or leads is in it. */
  predicate Member(n: Node) {
    && Configured(n)
    && n.snap < |n.log| && n.snap <= n.applied
    && (n.role != Follower ==> n.id in n.peers)
  }

  lemma ApplyKeepsMember(n: Node)
    requires Member(n)
    ensures Member(ApplyCommitted(n))
  {
    CompactionKeepsMembership(n);
    KeepsRole(n);
  }

  lemma KeepsRole(n: Node)
    requires |n.log| > 0 && n.snap <= n.applied && n.snap < |n.log|
    ensures ApplyCommitted(n).role == n.role && ApplyCommitted(n).id == n.id && ApplyCommitted(n).log == n.log
    ensures ApplyCommitted(n).snap < |n.log| && ApplyCommitted(n).snap <= ApplyCommitted(n).applied
  {
  }

  lemma AppendKeepsMember(n: Node, cmd: Command)
    requires Member(n)
    ensures Member(LeaderAppend(n, Entry(n.term, cmd, None)))
  {
    var log := n.log + [Entry(n.term, cmd, None)];
    FoldAgree(n.base, n.log, log, n.snap, LastIndex(n.log));
  }

  lemma CrownKeepsMember(n: Node)
    requires Member(n) && n.id in n.peers
    ensures Member(BecomeLeader(n))
  {
    var m := n.(role := Leader, leader := n.id, nextIndex := Uniform(n.peers.Keys, |n.log|), matchIndex := Uniform(n.peers.Keys, 0));
    assert Member(m);
    AppendKeepsMember(m, Empty);
    ApplyKeepsMember(AdvanceCommit(Crowned(n)));
  }

  lemma ReceiveKeepsMember(n: Node, req: AppendRequest)
    requires Member(n)
    ensures Member(OnAppend(n, req).0)
  {
    var n1 := Heard(n, req.term, req.leader);
    if req.term >= n.term && PrevMatches(n, req) {
      MergeKeepsPrefix(n1.log, req.prevIndex + 1, req.entries);
      var n2 := TakeEntries(n1, req);
      assert Member(n2);
      if req.commit > n2.commit {
        ApplyKeepsMember(n2.(commit := Min(req.commit, LastIndex(n2.log))));
      }
    }
  }

  /** Installing a snapshot keeps the cached configuration right exactly if the request carries
      one, or is ignored, or the cached one is the base already. */
  lemma InstallKeepsMemberIff(n: Node, req: SnapshotRequest, prefix: Log)
    requires Member(n) && |prefix| == req.lastIndex + 1
    ensures Member(OnSnapshot(n, req, prefix).0) <==>
              req.term < n.term || req.lastIndex <= n.snap || |req.peers| > 0 || n.peers == n.base
  {
    if req.term >= n.term && req.lastIndex > n.snap {
      InstalledMember(Heard(n, req.term, req.leader), req, prefix);
    }
  }

  lemma InstalledMember(n: Node, req: SnapshotRequest, prefix: Log)
    requires n.role == Follower && |prefix| == req.lastIndex + 1
    ensures Member(Installed(n, req, prefix)) <==> |req.peers| > 0 || n.peers == n.base
  {
  }

  lemma StartKeepsMember(n: Node)
    requires Member(n)
    ensures Member(StartElection(n))
  {
    if n.id in n.peers {
      CrownKeepsMember(Campaigner(n));
    }
  }

  lemma VoteKeepsMember(n: Node, from: Id, asked: nat, resp: VoteResponse)
    requires Member(n)
    ensures Member(OnVoteResponse(n, from, asked, resp))
  {
    if resp.term > n.term {
      StepDownKeepsMember(n, resp.term, "");
    } else if n.role == Candidate {
      CrownKeepsMember(n.(votes := n.votes + {from}));
    }
  }

  lemma StepDownKeepsMember(n: Node, term: nat, leader: Id)
    requires Member(n)
    ensures Member(BecomeFollower(n, term, leader))
  {
    SameMember(n, BecomeFollower(n, term, leader));
  }

  lemma AnswerKeepsMember(n: Node, from: Id, req: AppendRequest, resp: AppendResponse)
    requires Member(n)
    ensures Member(OnAppendResponse(n, from, req, resp))
  {
    if n.role != Leader || n.term != req.term {
      assert OnAppendResponse(n, from, req, resp) == n;
    } else if resp.term > n.term {
      StepDownKeepsMember(n, resp.term, "");
    } else if resp.success {
      CountKeepsMember(n, from, req.prevIndex + |req.entries|);
    } else {
      RefusalKeepsMember(n, from, req, resp);
    }
  }

  lemma RefusalKeepsMember(n: Node, from: Id, req: AppendRequest, resp: AppendResponse)
    requires Member(n) && n.role == Leader && n.term == req.term && resp.term <= n.term && !resp.success
    ensures Member(OnAppendResponse(n, from, req, resp))
  {
    var m := n.(nextIndex := OnAppendResponse(n, from, req, resp).nextIndex);
    assert OnAppendResponse(n, from, req, resp) == m;
    SameMember(n, m);
  }

  lemma SnapshotAnswerKeepsMember(n: Node, from: Id, req: SnapshotRequest, resp: SnapshotResponse)
    requires Member(n)
    ensures Member(OnSnapshotResponse(n, from, req, resp))
  {
    if n.role != Leader || n.term != req.term {
      assert OnSnapshotResponse(n, from, req, resp) == n;
    } else if resp.term > n.term {
      StepDownKeepsMember(n, resp.term, "");
    } else {
      CountKeepsMember(n, from, req.lastIndex);
    }
  }

  lemma VoteRequestKeepsMember(n: Node, req: VoteRequest)
    requires Member(n)
    ensures Member(OnVoteRequest(n, req).0)
  {
    if req.term >= n.term {
      var m := NoteTerm(n, req.term);
      SameMember(n, m);
      SameMember(m, Consider(m, req));
    }
  }

  lemma SameMember(n: Node, n': Node)
    requires Member(n) && n'.log == n.log && n'.snap == n.snap && n'.base == n.base && n'.peers == n.peers
    requires n'.applied == n.applied && n'.id == n.id && (n'.role == n.role || n'.role == Follower)
    ensures Member(n')
  {
  }

  lemma ProposeKeepsMember(n: Node, cmd: Command)
    requires Member(n)
    ensures Member(Propose(n, cmd).0)
  {
    AppendKeepsMember(n, cmd);
    ApplyKeepsMember(AdvanceCommit(LeaderAppend(n, Entry(n.term, cmd, None))));
  }

  lemma CountKeepsMember(n: Node, p: Id, m: nat)
    requires Member(n)
    ensures Member(CountMatch(n, p, m))
  {
    ApplyKeepsMember(AdvanceCommit(n.(matchIndex := n.matchIndex[p := m], nextIndex := n.nextIndex[p := m + 1])));
  }

  lemma ChangeKeepsMember(n: Node, kind: ChangeKind, id: Id, addr: string)
    requires Member(n)
    ensures Member(ProposeChange(n, kind, id, addr).0)
  {
    if CheckChange(n, kind, id).Ok? {
      AmendedPeers(n, kind, id, addr);
      ApplyKeepsMember(AdvanceCommit(Tracked(Amended(n, kind, id, addr))));
    }
  }

  /** The action is not a snapshot that replaces the log behind a cached configuration without
      bringing its own. */
  predicate Carries(n: Node, a: Action) {
    a.SnapshotReceived? ==>
      a.snapshot.term < n.term || a.snapshot.lastIndex <= n.snap || |a.snapshot.peers| > 0 || n.peers == n.base
  }

  predicate WellFormedAction(a: Action) {
    a.SnapshotReceived? ==> |a.prefix| == a.snapshot.lastIndex + 1
  }

  lemma ActKeepsMemberIff(n: Node, a: Action)
    requires Member(n) && WellFormedAction(a)
    ensures Member(Act(n, a)) <==> Carries(n, a)
  {
    match a
    case StartsElection => StartKeepsMember(n);
    case VoteRequested(req) => VoteRequestKeepsMember(n, req);
    case VoteAnswered(from, asked, resp) => VoteKeepsMember(n, from, asked, resp);
    case Proposes(cmd) => ProposeKeepsMember(n, cmd);
    case ProposesChange(kind, id, addr) => ChangeKeepsMember(n, kind, id, addr);
    case AppendReceived(req) => ReceiveKeepsMember(n, req);
    case AppendAnswered(from, req, resp) => AnswerKeepsMember(n, from, req, resp);
    case SnapshotReceived(req, prefix) => InstallKeepsMemberIff(n, req, prefix);
    case SnapshotAnswered(from, req, resp) => SnapshotAnswerKeepsMember(n, from, req, resp);
    case Ticks => ApplyKeepsMember(n);
    case Restarts(join) => RestartKeepsMember(n, join);
  }

  lemma RestartKeepsMember(n: Node, join: bool)
    requires Member(n)
    ensures Member(Restart(n, join))
  {
  }

  ghost predicate Lives(ns: seq<Node>, acts: seq<Action>) {
    && |ns| == |acts| + 1
    && forall k: nat {:trigger LivesAt(ns, acts, k)} :: k < |acts| ==> LivesAt(ns, acts, k)
  }

  ghost predicate LivesAt(ns: seq<Node>, acts: seq<Action>, k: nat)
    requires k < |acts| && |ns| == |acts| + 1
  {
    WellFormedAction(acts[k]) && (|ns[k].log| > 0 ==> ns[k + 1] == Act(ns[k], acts[k]))
  }

  /** In every history of a node, under any requests, its cached configuration is what its log
      says, and it campaigns and leads only while it is a member, through state `i` exactly if
      no action before took the log from under the cached configuration. */
  lemma {:induction false} MemberAlwaysIff(ns: seq<Node>, acts: seq<Action>, i: nat)
    requires Lives(ns, acts) && i < |ns| && Member(ns[0])
    ensures (forall k :: 0 <= k <= i ==> Member(ns[k])) <==> (forall k :: 0 <= k < i ==> Carries(ns[k], acts[k]))
    decreases i
  {
    if i > 0 {
      MemberAlwaysIff(ns, acts, i - 1);
      assert LivesAt(ns, acts, i - 1);
      if Member(ns[i - 1]) {
        ActKeepsMemberIff(ns[i - 1], acts[i - 1]);
      }
    }
  }

  /** Such a request takes a member's configuration away. Here A joins B: it takes the change to
      {A, B} from B's log, which is then replaced by a snapshot; the base is still {A}, and the
      cache still says {A, B}. */
  lemma CacheMayBeStale() returns (n0: Node, joined: AppendRequest, n: Node, req: SnapshotRequest, prefix: Log)
    ensures n0 == Boot(n0.id, n0.threshold, true, n0.base) && n == OnAppend(n0, joined).0 && OnAppend(n0, joined).1.success
    ensures Member(n) && |prefix| == req.lastIndex + 1 && n.term <= req.term && req.peers == map[]
    ensures !Member(OnSnapshot(n, req, prefix).0)
    ensures OnSnapshot(n, req, prefix).0.peers != Restart(OnSnapshot(n, req, prefix).0, false).peers
  {
    var one, two: Config := map["A" := "a"], map["A" := "a", "B" := "b"];
    var e := Entry(1, Empty, Some(Change(AddPeer, "A", "a", two)));
    prefix := [DUMMY, e];
    n0 := Boot("A", 0, true, one);
    joined := AppendRequest(1, "B", 0, 0, [e], 0);
    n := OnAppend(n0, joined).0;
    req := SnapshotRequest(1, "B", 1, 1, map[], map[]);
    assert "B" in two && "B" !in one;
    assert FoldConfig(one, prefix, 0, 0) == one;
    assert FoldConfig(one, prefix, 0, 1) == ApplyEntry(one, e) == two;
    assert Merge([DUMMY], 1, [e]) == prefix;
    assert n == Heard(n0, 1, "B").(log := prefix, peers := two);
    InstallKeepsMemberIff(n, req, prefix);
    assert |req.peers| == 0;
    var n' := OnSnapshot(n, req, prefix).0;
    assert n'.log == prefix && n'.snap == 1 && n'.base == one && n'.peers == two;
    assert FoldConfig(one, prefix, 1, 1) == one;
  }
}
