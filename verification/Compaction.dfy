/** Compaction cannot be seen from outside: a node that compacts its log behaves, step for step
    and reply for reply, like one that keeps all of it. */
module Compaction {
  import opened RaftTypes
  import opened Quorums
  import opened Logs
  import opened NodeSpec
  import opened NodeFacts
  import opened Membership

  /** `m` is `n` had it never compacted. Only the snapshot, the configuration the snapshot
      carries, and the next index of peers that will get the snapshot may differ. The snapshot
      and the map are what the log replays to. */
  ghost predicate Same(n: Node, m: Node) {
    && m == n.(threshold := 0, snap := 0, image := map[], base := m.base, nextIndex := m.nextIndex)
    && m.nextIndex.Keys == n.nextIndex.Keys
    && NextAlike(n.nextIndex, m.nextIndex, n.snap)
    && |n.log| > 0 && n.snap <= n.applied <= n.commit && n.applied < |n.log|
    && n.base == FoldConfig(m.base, n.log, 0, n.snap)
    && Configured(n)
    && n.kv == Replay(n.log, n.applied) && n.image == Replay(n.log, n.snap)
  }

  /** The next indexes are the same for peers that get entries. */
  ghost predicate NextAlike(next: map<Id, nat>, next': map<Id, nat>, snap: nat) {
    forall p {:trigger Lookup(next, p)} {:trigger Lookup(next', p)} :: Lookup(next', p) == Lookup(next, p) || Lookup(next, p) <= snap
  }

  lemma AlikeUpdated(next: map<Id, nat>, next': map<Id, nat>, snap: nat, p: Id, x: nat)
    requires NextAlike(next, next', snap)
    ensures NextAlike(next[p := x], next'[p := x], snap)
  {
    var a, b := next[p := x], next'[p := x];
    forall q
      ensures Lookup(b, q) == Lookup(a, q) || Lookup(a, q) <= snap
    {
      assert Lookup(next', q) == Lookup(next, q) || Lookup(next, q) <= snap;
    }
  }

  lemma {:induction false} SameBest(n: Node, m: Node, top: nat)
    requires Same(n, m) && top < |n.log|
    ensures BestCommit(m, top) == BestCommit(n, top)
    decreases top
  {
    if top > n.commit {
      assert Holders(m, top) == Holders(n, top);
      SameBest(n, m, top - 1);
    }
  }

  lemma SameCatchup(n: Node, m: Node)
    requires Same(n, m)
    ensures Same(Catchup(n), Catchup(m)) && ApplyCommitted(m) == Catchup(m)
  {
    ReplaySplit(n.log, n.applied, ApplyTarget(n));
  }

  lemma SameCompact(n: Node, m: Node)
    requires Same(n, m)
    ensures Same(Compact(n), m)
  {
    if n.applied > n.snap && n.applied <= LastIndex(n.log) {
      FoldSplit(m.base, n.log, 0, n.snap, n.applied);
      FoldSplit(n.base, n.log, n.snap, n.applied, LastIndex(n.log));
    }
  }

  lemma SameApply(n: Node, m: Node)
    requires Same(n, m)
    ensures Same(ApplyCommitted(n), ApplyCommitted(m))
  {
    SameCatchup(n, m);
    SameCompact(Catchup(n), Catchup(m));
  }

  lemma SameFinish(n: Node, m: Node)
    requires Same(n, m)
    ensures Same(ApplyCommitted(AdvanceCommit(n)), ApplyCommitted(AdvanceCommit(m)))
  {
    SameBest(n, m, LastIndex(n.log));
    BestCommitIsGreatest(n, LastIndex(n.log));
    SameApply(AdvanceCommit(n), AdvanceCommit(m));
  }

  /** The uncompacted node's cached configuration is what its whole log says. */
  lemma SameConfigured(n: Node, m: Node)
    requires Same(n, m)
    ensures Configured(m)
  {
    FoldSplit(m.base, n.log, 0, n.snap, LastIndex(n.log));
  }

  /** Both nodes take on a log that agrees with the old one on what has been applied. */
  lemma SameLog(n: Node, m: Node, log: Log)
    requires Same(n, m) && Agree(log, n.log, n.applied)
    ensures Same(TakeLog(n, log), TakeLog(m, log))
  {
    SameConfigured(n, m);
    AgreeShorter(log, n.log, n.applied, n.snap);
    ReplayAgree(log, n.log, n.applied);
    ReplayAgree(log, n.log, n.snap);
    FoldAgree(m.base, n.log, log, 0, n.snap);
    FoldSplit(m.base, log, 0, n.snap, LastIndex(log));
  }

  lemma SameRebuilt(n: Node, m: Node, e: Entry)
    requires Same(n, m)
    ensures Same(Rebuild(n.(log := n.log + [e])), Rebuild(m.(log := m.log + [e])))
  {
    SameLog(n, m, n.log + [e]);
    assert n.log + [e] != n.log;
  }

  lemma SameOwn(n: Node, m: Node, cmd: Command)
    requires Same(n, m)
    ensures Same(LeaderAppend(n, Entry(n.term, cmd, None)), LeaderAppend(m, Entry(m.term, cmd, None)))
  {
    var log := n.log + [Entry(n.term, cmd, None)];
    AlikeUpdated(n.nextIndex, m.nextIndex, n.snap, n.id, |n.log| + 1);
    FoldAgree(m.base, n.log, log, 0, n.snap);
    FoldAgree(n.base, n.log, log, n.snap, LastIndex(n.log));
    ReplayAgree(log, n.log, n.applied);
    ReplayAgree(log, n.log, n.snap);
  }

  // ---------------------------------------------------------------- actions

  lemma SameCrown(n: Node, m: Node)
    requires Same(n, m)
    ensures Same(BecomeLeader(n), BecomeLeader(m))
  {
    var n1 := n.(role := Leader, leader := n.id, nextIndex := Uniform(n.peers.Keys, |n.log|), matchIndex := Uniform(n.peers.Keys, 0));
    var m1 := m.(role := Leader, leader := m.id, nextIndex := Uniform(m.peers.Keys, |m.log|), matchIndex := Uniform(m.peers.Keys, 0));
    assert Same(n1, m1);
    SameOwn(n1, m1, Empty);
    SameFinish(Crowned(n), Crowned(m));
  }

  lemma SameTally(n: Node, m: Node)
    requires Same(n, m)
    ensures Same(TallyVotes(n), TallyVotes(m))
  {
    if |n.votes| >= MajoritySize(n.peers.Keys) {
      SameCrown(n, m);
    }
  }

  lemma SameStart(n: Node, m: Node)
    requires Same(n, m)
    ensures Same(StartElection(n), StartElection(m))
  {
    SameTally(Campaigner(n), Campaigner(m));
  }

  lemma SameNote(n: Node, m: Node, term: nat)
    requires Same(n, m)
    ensures Same(NoteTerm(n, term), NoteTerm(m, term))
  {
  }

  lemma SameStepDown(n: Node, m: Node, term: nat, leader: Id)
    requires Same(n, m)
    ensures Same(NodeSpec.BecomeFollower(n, term, leader), NodeSpec.BecomeFollower(m, term, leader))
  {
  }

  lemma SameConsider(n: Node, m: Node, req: VoteRequest)
    requires Same(n, m)
    ensures Same(Consider(n, req), Consider(m, req)) && Grants(n, req) == Grants(m, req)
  {
  }

  lemma SameVoteRequest(n: Node, m: Node, req: VoteRequest)
    requires Same(n, m)
    ensures Same(OnVoteRequest(n, req).0, OnVoteRequest(m, req).0)
    ensures OnVoteRequest(n, req).1 == OnVoteRequest(m, req).1
  {
    SameNote(n, m, req.term);
    SameConsider(NoteTerm(n, req.term), NoteTerm(m, req.term), req);
  }

  lemma SameVoteResponse(n: Node, m: Node, from: Id, asked: nat, resp: VoteResponse)
    requires Same(n, m)
    ensures Same(OnVoteResponse(n, from, asked, resp), OnVoteResponse(m, from, asked, resp))
  {
    if resp.term > n.term {
      SameStepDown(n, m, resp.term, "");
    } else {
      SameTally(n.(votes := n.votes + {from}), m.(votes := m.votes + {from}));
    }
  }

  lemma SamePropose(n: Node, m: Node, cmd: Command)
    requires Same(n, m)
    ensures Same(Propose(n, cmd).0, Propose(m, cmd).0) && Propose(n, cmd).1 == Propose(m, cmd).1
  {
    SameOwn(n, m, cmd);
    SameFinish(LeaderAppend(n, Entry(n.term, cmd, None)), LeaderAppend(m, Entry(m.term, cmd, None)));
  }

  lemma SameTakeCommit(n: Node, m: Node, commit: nat)
    requires Same(n, m)
    ensures Same(TakeCommit(n, commit), TakeCommit(m, commit))
  {
    if commit > n.commit {
      assert n.applied <= Min(commit, LastIndex(n.log));
      SameApply(n.(commit := Min(commit, LastIndex(n.log))), m.(commit := Min(commit, LastIndex(m.log))));
    }
  }

  lemma SameEntries(n: Node, m: Node, req: AppendRequest)
    requires Same(n, m) && PrevMatches(n, req) && Agree(MergeFor(n, req), n.log, n.applied)
    ensures PrevMatches(m, req) && Same(TakeEntries(n, req), TakeEntries(m, req))
  {
    SameLog(n, m, MergeFor(n, req));
  }

  lemma SameHeard(n: Node, m: Node, term: nat, leader: Id)
    requires Same(n, m)
    ensures Same(Heard(n, term, leader), Heard(m, term, leader))
  {
  }

  /** An accepted request leaves the applied entries alone. */
  predicate Gentle(n: Node, req: AppendRequest) {
    req.term >= n.term && PrevMatches(n, req) ==> Agree(MergeFor(n, req), n.log, n.applied)
  }

  lemma SameReceive(n: Node, m: Node, req: AppendRequest)
    requires Same(n, m) && Gentle(n, req) && (req.term < n.term || req.prevIndex >= n.snap)
    ensures Same(OnAppend(n, req).0, OnAppend(m, req).0) && OnAppend(n, req).1 == OnAppend(m, req).1
  {
    if req.term >= n.term {
      var n1, m1 := Heard(n, req.term, req.leader), Heard(m, req.term, req.leader);
      SameHeard(n, m, req.term, req.leader);
      if PrevMatches(n1, req) {
        SameEntries(n1, m1, req);
        SameTakeCommit(TakeEntries(n1, req), TakeEntries(m1, req), req.commit);
      }
    }
  }

  lemma SameCount(n: Node, m: Node, p: Id, k: nat)
    requires Same(n, m)
    ensures Same(CountMatch(n, p, k), CountMatch(m, p, k))
  {
    AlikeUpdated(n.nextIndex, m.nextIndex, n.snap, p, k + 1);
    SameFinish(n.(matchIndex := n.matchIndex[p := k], nextIndex := n.nextIndex[p := k + 1]),
               m.(matchIndex := m.matchIndex[p := k], nextIndex := m.nextIndex[p := k + 1]));
  }

  lemma SameNext(n: Node, m: Node, a: map<Id, nat>, b: map<Id, nat>)
    requires Same(n, m) && a.Keys == b.Keys && NextAlike(a, b, n.snap)
    ensures Same(n.(nextIndex := a), m.(nextIndex := b))
  {
  }

  lemma SameAnswer(n: Node, m: Node, p: Id, req: AppendRequest, resp: AppendResponse)
    requires Same(n, m) && p in n.nextIndex
    ensures Same(OnAppendResponse(n, p, req, resp), OnAppendResponse(m, p, req, resp))
  {
    if n.role != Leader || n.term != req.term {
    } else if resp.term > n.term {
      SameStepDown(n, m, resp.term, "");
    } else if resp.success {
      SameCount(n, m, p, req.prevIndex + |req.entries|);
    } else {
      SameRefused(n, m, p, req, resp);
    }
  }

  lemma SameRefused(n: Node, m: Node, p: Id, req: AppendRequest, resp: AppendResponse)
    requires Same(n, m) && p in n.nextIndex && n.role == Leader && n.term == req.term && resp.term <= n.term && !resp.success
    ensures Same(OnAppendResponse(n, p, req, resp), OnAppendResponse(m, p, req, resp))
  {
    var a, b := OnAppendResponse(n, p, req, resp).nextIndex, OnAppendResponse(m, p, req, resp).nextIndex;
    forall q
      ensures Lookup(b, q) == Lookup(a, q) || Lookup(a, q) <= n.snap
    {
      assert Lookup(m.nextIndex, q) == Lookup(n.nextIndex, q) || Lookup(n.nextIndex, q) <= n.snap;
    }
    SameNext(n, m, a, b);
  }

  lemma SameSnapshotAnswer(n: Node, m: Node, p: Id, req: SnapshotRequest, resp: SnapshotResponse)
    requires Same(n, m)
    ensures Same(OnSnapshotResponse(n, p, req, resp), OnSnapshotResponse(m, p, req, resp))
  {
    if resp.term > n.term {
      SameStepDown(n, m, resp.term, "");
    } else {
      SameCount(n, m, p, req.lastIndex);
    }
  }

  lemma SameTracked(n: Node, m: Node)
    requires Same(n, m)
    ensures Same(Tracked(n), Tracked(m))
  {
    TrackSame(n.nextIndex, m.nextIndex, n.matchIndex, n.peers.Keys);
    var start := if n.snap > 0 then n.snap else |n.log|;
    var a, b := TrackNext(n.nextIndex, n.peers.Keys, start), TrackNext(m.nextIndex, m.peers.Keys, |m.log|);
    TrackAlike(n.nextIndex, m.nextIndex, n.snap, n.peers.Keys, start, |n.log|);
    TrackKeys(n.nextIndex, m.nextIndex, n.peers.Keys, start, |n.log|);
    AlikeUpdated(a, b, n.snap, n.id, |n.log|);
    SameBooks(n, m, a[n.id := |n.log|], b[n.id := |n.log|], Tracked(n).matchIndex);
  }

  lemma SameBooks(n: Node, m: Node, a: map<Id, nat>, b: map<Id, nat>, matched: map<Id, nat>)
    requires Same(n, m) && a.Keys == b.Keys && NextAlike(a, b, n.snap)
    ensures Same(n.(nextIndex := a, matchIndex := matched), m.(nextIndex := b, matchIndex := matched))
  {
  }

  lemma TrackSame(next: map<Id, nat>, next': map<Id, nat>, matched: map<Id, nat>, members: set<Id>)
    requires next.Keys == next'.Keys
    ensures TrackMatch(next, matched, members) == TrackMatch(next', matched, members)
  {
  }

  lemma TrackKeys(next: map<Id, nat>, next': map<Id, nat>, members: set<Id>, start: nat, start': nat)
    requires next.Keys == next'.Keys
    ensures TrackNext(next, members, start).Keys == TrackNext(next', members, start').Keys
  {
  }

  lemma TrackAlike(next: map<Id, nat>, next': map<Id, nat>, snap: nat, members: set<Id>, start: nat, start': nat)
    requires NextAlike(next, next', snap) && next.Keys == next'.Keys && (start <= snap || start == start')
    ensures NextAlike(TrackNext(next, members, start), TrackNext(next', members, start'), snap)
  {
    var a, b := TrackNext(next, members, start), TrackNext(next', members, start');
    forall q
      ensures Lookup(b, q) == Lookup(a, q) || Lookup(a, q) <= snap
    {
      assert Lookup(next', q) == Lookup(next, q) || Lookup(next, q) <= snap;
    }
  }

  lemma SameCheck(n: Node, m: Node, kind: ChangeKind, id: Id)
    requires Same(n, m)
    ensures CheckChange(n, kind, id) == CheckChange(m, kind, id)
  {
    assert HasUncommitted(n) == HasUncommitted(m);
  }

  lemma SameAccept(n: Node, m: Node, kind: ChangeKind, id: Id, addr: string)
    requires Same(n, m)
    ensures Same(Accept(n, kind, id, addr), Accept(m, kind, id, addr))
  {
    SameRebuilt(n, m, Entry(n.term, Empty, Some(Change(kind, id, addr, Delta(n.peers, kind, id, addr)))));
    SameTracked(Amended(n, kind, id, addr), Amended(m, kind, id, addr));
    SameFinish(Tracked(Amended(n, kind, id, addr)), Tracked(Amended(m, kind, id, addr)));
  }

  lemma SameChange(n: Node, m: Node, kind: ChangeKind, id: Id, addr: string)
    requires Same(n, m)
    ensures Same(ProposeChange(n, kind, id, addr).0, ProposeChange(m, kind, id, addr).0)
    ensures ProposeChange(n, kind, id, addr).1 == ProposeChange(m, kind, id, addr).1
  {
    SameCheck(n, m, kind, id);
    SameAccept(n, m, kind, id, addr);
  }

  // ---------------------------------------------------------------- restarts and snapshots

  /** A compacted node restarts where the whole log leads when replayed through the snapshot. */
  lemma SameRestart(n: Node, m: Node, join: bool)
    requires Same(n, m)
    ensures Same(Restart(n, join), ApplyCommitted(Restart(m, join).(commit := n.snap)))
  {
    SameConfigured(n, m);
    var r := Restart(m, join).(commit := n.snap);
    assert ApplyTarget(r) == n.snap;
  }

  /** The snapshot is what its prefix replays to, from the configuration the log began with. */
  predicate FaithfulSnapshot(base: Config, req: SnapshotRequest, prefix: Log) {
    && |prefix| == req.lastIndex + 1
    && req.data == Replay(prefix, req.lastIndex)
    && req.peers == FoldConfig(base, prefix, 0, req.lastIndex) && |req.peers| > 0
  }

  /** The uncompacted node takes the prefix itself for its log. */
  function Overwritten(m: Node, prefix: Log): Node
    requires |prefix| > 0
  {
    var last := LastIndex(prefix);
    m.(log := prefix, applied := last, kv := Replay(prefix, last), commit := Max(m.commit, last),
       peers := FoldConfig(m.base, prefix, 0, last))
  }

  lemma SameInstalled(n: Node, m: Node, req: SnapshotRequest, prefix: Log)
    requires Same(n, m) && FaithfulSnapshot(m.base, req, prefix) && req.lastIndex > n.snap
    ensures Same(Installed(n, req, prefix), Overwritten(m, prefix))
  {
  }

  // ---------------------------------------------------------------- the simulation

  datatype Reply =
    | Nothing
    | Voted(vote: VoteResponse)
    | Appended(append: AppendResponse)
    | Indexed(index: Option<nat>)
    | Changed(change: Result<nat>)
    | Received(snapshot: SnapshotResponse)

  /** What the environment sees of an action. */
  function ReplyTo(n: Node, a: Action): Reply
    requires |n.log| > 0 && (a.SnapshotReceived? ==> |a.prefix| == a.snapshot.lastIndex + 1)
  {
    match a
    case VoteRequested(req) => Voted(OnVoteRequest(n, req).1)
    case AppendReceived(req) => Appended(OnAppend(n, req).1)
    case Proposes(cmd) => Indexed(Propose(n, cmd).1)
    case ProposesChange(kind, id, addr) => Changed(ProposeChange(n, kind, id, addr).1)
    case SnapshotReceived(req, prefix) => Received(OnSnapshot(n, req, prefix).1)
    case _ => Nothing
  }

  /** The requests a correct sender makes, and answers from peers the node tracks. */
  predicate Expected(n: Node, base: Config, a: Action) {
    match a
    case AppendReceived(req) => Gentle(n, req)
    case AppendAnswered(from, _, _) => from in n.nextIndex
    case SnapshotReceived(req, prefix) => FaithfulSnapshot(base, req, prefix)
    case _ => true
  }

  /** What a node that keeps its whole log does. `floor` is where the compacted log begins, which
      matters in three places only: requests from below it are refused, a restart resumes there,
      and snapshots up to it are ignored. */
  function KeepAll(m: Node, a: Action, floor: nat): Node
    requires |m.log| > 0 && (a.SnapshotReceived? ==> |a.prefix| == a.snapshot.lastIndex + 1)
  {
    match a
    case AppendReceived(req) =>
      if req.term >= m.term && req.prevIndex < floor then Heard(m, req.term, req.leader) else Act(m, a)
    case SnapshotReceived(req, prefix) =>
      if req.term < m.term then m
      else if req.lastIndex <= floor then Heard(m, req.term, req.leader)
      else Overwritten(Heard(m, req.term, req.leader), prefix)
    case Restarts(join) => ApplyCommitted(Restart(m, join).(commit := floor))
    case _ => Act(m, a)
  }

  function KeepAllReply(m: Node, a: Action, floor: nat): Reply
    requires |m.log| > 0 && (a.SnapshotReceived? ==> |a.prefix| == a.snapshot.lastIndex + 1)
  {
    match a
    case AppendReceived(req) =>
      if req.term >= m.term && req.prevIndex < floor then Appended(AppendResponse(req.term, false)) else ReplyTo(m, a)
    case SnapshotReceived(req, prefix) => Received(SnapshotResponse(Max(m.term, req.term)))
    case _ => ReplyTo(m, a)
  }

  lemma SameAppend(n: Node, m: Node, req: AppendRequest)
    requires Same(n, m) && Gentle(n, req)
    ensures Same(OnAppend(n, req).0, KeepAll(m, AppendReceived(req), n.snap))
    ensures Appended(OnAppend(n, req).1) == KeepAllReply(m, AppendReceived(req), n.snap)
  {
    if req.term >= n.term && req.prevIndex < n.snap {
      SameHeard(n, m, req.term, req.leader);
    } else {
      SameReceive(n, m, req);
    }
  }

  lemma SameSnapshot(n: Node, m: Node, req: SnapshotRequest, prefix: Log)
    requires Same(n, m) && FaithfulSnapshot(m.base, req, prefix)
    ensures Same(OnSnapshot(n, req, prefix).0, KeepAll(m, SnapshotReceived(req, prefix), n.snap))
    ensures Received(OnSnapshot(n, req, prefix).1) == KeepAllReply(m, SnapshotReceived(req, prefix), n.snap)
  {
    if req.term >= n.term {
      SameHeard(n, m, req.term, req.leader);
      if req.lastIndex > n.snap {
        SameInstalled(Heard(n, req.term, req.leader), Heard(m, req.term, req.leader), req, prefix);
      }
    }
  }

  lemma CompactionIsInvisible(n: Node, m: Node, a: Action)
    requires Same(n, m) && Expected(n, m.base, a)
    ensures Same(Act(n, a), KeepAll(m, a, n.snap)) && ReplyTo(n, a) == KeepAllReply(m, a, n.snap)
  {
    match a
    case StartsElection => SameStart(n, m);
    case VoteRequested(req) => SameVoteRequest(n, m, req);
    case VoteAnswered(from, asked, resp) => SameVoteResponse(n, m, from, asked, resp);
    case Proposes(cmd) => SamePropose(n, m, cmd);
    case ProposesChange(kind, id, addr) => SameChange(n, m, kind, id, addr);
    case AppendReceived(req) => SameAppend(n, m, req);
    case AppendAnswered(from, req, resp) => SameAnswer(n, m, from, req, resp);
    case SnapshotReceived(req, prefix) => SameSnapshot(n, m, req, prefix);
    case SnapshotAnswered(from, req, resp) => SameSnapshotAnswer(n, m, from, req, resp);
    case Ticks => SameApply(n, m);
    case Restarts(join) => SameRestart(n, m, join);
  }

  /** What both nodes send: the same vote requests and probes, and to every peer that is not to
      get the snapshot the same entries. */
  predicate SendsSame(n: Node, m: Node, p: Id)
    requires |n.log| > 0 && |m.log| > 0
  {
    && VoteRequestOf(n) == VoteRequestOf(m) && ProbeOf(n) == ProbeOf(m)
    && (Sane(n) && Sane(m) && MakeAppend(n, p).1.Some? ==> MakeAppend(m, p).1 == MakeAppend(n, p).1)
    && (Sane(n) && MakeAppend(n, p).1.None? ==> ShouldInstall(n, p) || Lookup(n.nextIndex, p) == 0)
  }

  lemma SameSends(n: Node, m: Node, p: Id)
    requires Same(n, m)
    ensures Sane(n) && Sane(m) && SendsSame(n, m, p)
  {
  }

  /** The compacting node `ns` and the one that keeps its whole log, `ms`, act side by side. */
  ghost predicate SideBySide(ns: seq<Node>, ms: seq<Node>, acts: seq<Action>) {
    && |ns| == |ms| == |acts| + 1
    && forall k: nat {:trigger BothAct(ns, ms, acts, k)} :: k < |acts| ==> BothAct(ns, ms, acts, k)
  }

  ghost predicate BothAct(ns: seq<Node>, ms: seq<Node>, acts: seq<Action>, k: nat)
    requires k < |acts| && |ns| == |ms| == |acts| + 1
  {
    && Expected(ns[k], ms[k].base, acts[k])
    && (|ns[k].log| > 0 ==> ns[k + 1] == Act(ns[k], acts[k]))
    && (|ms[k].log| > 0 ==> ms[k + 1] == KeepAll(ms[k], acts[k], ns[k].snap))
  }

  /** Over any history the two hold the same term, vote, log, configuration, commit index and
      map, send the same requests, and give the same replies, but that the one refuses requests
      from below its snapshot, ignores snapshots up to it, and restarts from it. */
  lemma {:induction false} CompactionRefinesFullLog(ns: seq<Node>, ms: seq<Node>, acts: seq<Action>, i: nat)
    requires SideBySide(ns, ms, acts) && Same(ns[0], ms[0]) && i < |ns|
    ensures Same(ns[i], ms[i])
    ensures i < |acts| ==> |ns[i].log| > 0 && |ms[i].log| > 0 && Expected(ns[i], ms[i].base, acts[i])
                           && ReplyTo(ns[i], acts[i]) == KeepAllReply(ms[i], acts[i], ns[i].snap)
    ensures forall p {:trigger SendsSame(ns[i], ms[i], p)} :: SendsSame(ns[i], ms[i], p)
    decreases i
  {
    if i > 0 {
      CompactionRefinesFullLog(ns, ms, acts, i - 1);
      assert BothAct(ns, ms, acts, i - 1);
      CompactionIsInvisible(ns[i - 1], ms[i - 1], acts[i - 1]);
    }
    if i < |acts| {
      assert BothAct(ns, ms, acts, i);
      CompactionIsInvisible(ns[i], ms[i], acts[i]);
    }
    forall p
      ensures SendsSame(ns[i], ms[i], p)
    {
      SameSends(ns[i], ms[i], p);
    }
  }
}
