/** Any number of nodes, joining at any time and changing the membership as they go, that send
    each other only what nodes send. Votes and replies may be anything. */
module Ensemble {
  import opened RaftTypes
  import opened Logs
  import opened NodeSpec
  import opened Membership

  datatype Sent =
    | Entries(append: AppendRequest)
    | Image(snapshot: SnapshotRequest, prefix: Log)

  datatype System = System(nodes: map<Id, Node>, sent: set<Sent>)

  datatype Event =
    | Starts(id: Id, threshold: nat, join: bool, cfg: Config)
    | Does(id: Id, action: Action)
    | SendsEntries(id: Id, peer: Id)
    | SendsProbe(id: Id)
    | SendsImage(id: Id)

  /** Requests that are received were sent; nodes start with a configuration. */
  predicate Possible(s: System, e: Event) {
    match e
    case Starts(id, _, _, cfg) => id !in s.nodes && |cfg| > 0
    case Does(id, a) =>
      && id in s.nodes
      && (a.AppendReceived? ==> Entries(a.append) in s.sent)
      && (a.SnapshotReceived? ==> Image(a.snapshot, a.prefix) in s.sent)
    case SendsEntries(id, _) => id in s.nodes
    case SendsProbe(id) => id in s.nodes
    case SendsImage(id) => id in s.nodes
  }

  function Next(s: System, e: Event): System
    requires Possible(s, e) && AllReady(s)
  {
    match e
    case Starts(id, threshold, join, cfg) => s.(nodes := s.nodes[id := Boot(id, threshold, join, cfg)])
    case Does(id, a) => s.(nodes := s.nodes[id := Act(s.nodes[id], a)])
    case SendsEntries(id, p) =>
      (match MakeAppend(s.nodes[id], p)
       case (n, Some(req)) => System(s.nodes[id := n], s.sent + {Entries(req)})
       case (n, None) => s.(nodes := s.nodes[id := n]))
    case SendsProbe(id) => s.(sent := s.sent + {Entries(ProbeOf(s.nodes[id]))})
    case SendsImage(id) =>
      var n := s.nodes[id];
      s.(sent := s.sent + {Image(MakeSnapshot(n), n.log[..n.snap + 1])})
  }

  /** What the functions need; it always holds, see `EnsembleInvariant`. */
  predicate AllReady(s: System) {
    && (forall v :: v in s.nodes ==> Sane(s.nodes[v]))
    && (forall x :: x in s.sent && x.Image? ==> |x.prefix| == x.snapshot.lastIndex + 1)
  }

  // ---------------------------------------------------------------- complete changes

  /** Every change in the log carries a whole, nonempty configuration. */
  predicate CompleteLog(log: Log) {
    forall i {:trigger CompleteEntry(log[i])} :: 0 <= i < |log| ==> CompleteEntry(log[i])
  }

  predicate CompleteEntry(e: Entry) { e.change.Some? ==> |e.change.value.peers| > 0 }

  predicate Complete(n: Node) { |n.base| > 0 && |n.peers| > 0 && CompleteLog(n.log) }

  predicate CompleteSent(x: Sent) {
    match x
    case Entries(req) => CompleteLog(req.entries)
    case Image(req, prefix) => |req.peers| > 0 && |prefix| == req.lastIndex + 1 && CompleteLog(prefix)
  }

  lemma {:induction false} FoldComplete(cfg: Config, log: Log, lo: nat, hi: nat)
    requires CompleteLog(log) && |cfg| > 0 && (hi < |log| || hi <= lo)
    ensures |FoldConfig(cfg, log, lo, hi)| > 0
    decreases hi
  {
    if lo < hi {
      FoldComplete(cfg, log, lo, hi - 1);
      assert CompleteEntry(log[hi]);
    }
  }

  lemma {:induction false} MergeComplete(log: Log, at: nat, es: seq<Entry>)
    requires CompleteLog(log) && CompleteLog(es) && at <= |log|
    ensures CompleteLog(Merge(log, at, es))
    decreases |es|
  {
    if es != [] {
      if at < |log| && log[at].term == es[0].term {
        MergeComplete(log, at + 1, es[1..]);
      }
    }
  }

  lemma ApplyComplete(n: Node)
    requires Complete(n) && |n.log| > 0
    ensures Complete(ApplyCommitted(n))
  {
    var m := Catchup(n);
    if m.applied > m.snap && m.applied <= LastIndex(m.log) {
      FoldComplete(m.base, m.log, m.snap, m.applied);
      FoldComplete(FoldConfig(m.base, m.log, m.snap, m.applied), m.log, m.applied, LastIndex(m.log));
    }
  }

  lemma FinishComplete(n: Node)
    requires Complete(n) && |n.log| > 0
    ensures Complete(ApplyCommitted(AdvanceCommit(n)))
  {
    ApplyComplete(AdvanceCommit(n));
  }

  lemma CrownComplete(n: Node)
    requires Complete(n) && |n.log| > 0
    ensures Complete(BecomeLeader(n))
  {
    FinishComplete(Crowned(n));
  }

  lemma TallyComplete(n: Node)
    requires Complete(n) && |n.log| > 0
    ensures Complete(TallyVotes(n))
  {
    CrownComplete(n);
  }

  lemma CountComplete(n: Node, p: Id, m: nat)
    requires Complete(n) && |n.log| > 0
    ensures Complete(CountMatch(n, p, m))
  {
    FinishComplete(n.(matchIndex := n.matchIndex[p := m], nextIndex := n.nextIndex[p := m + 1]));
  }

  lemma ReceiveComplete(n: Node, req: AppendRequest)
    requires Complete(n) && |n.log| > 0 && CompleteLog(req.entries)
    ensures Complete(OnAppend(n, req).0)
  {
    var n1 := Heard(n, req.term, req.leader);
    if req.term >= n.term && PrevMatches(n, req) {
      MergeComplete(n.log, req.prevIndex + 1, req.entries);
      var log := MergeFor(n1, req);
      FoldComplete(n.base, log, n.snap, LastIndex(log));
      var n2 := TakeEntries(n1, req);
      assert Complete(n2);
      if req.commit > n2.commit {
        ApplyComplete(n2.(commit := Min(req.commit, LastIndex(n2.log))));
      }
    }
  }

  lemma ChangeComplete(n: Node, kind: ChangeKind, id: Id, addr: string)
    requires Complete(n) && |n.log| > 0
    ensures Complete(ProposeChange(n, kind, id, addr).0)
  {
    if CheckChange(n, kind, id).Ok? {
      SomeoneRemains(n.peers, kind, id, addr);
      var log := n.log + [Entry(n.term, Empty, Some(Change(kind, id, addr, Delta(n.peers, kind, id, addr))))];
      FoldComplete(n.base, log, n.snap, LastIndex(log));
      var m := Amended(n, kind, id, addr);
      assert m.log == log;
      FinishComplete(Tracked(m));
    }
  }

  lemma SnapshotComplete(n: Node, req: SnapshotRequest, prefix: Log)
    requires Complete(n) && |n.log| > 0 && CompleteSent(Image(req, prefix))
    ensures Complete(OnSnapshot(n, req, prefix).0)
  {
    if req.term >= n.term && req.lastIndex > n.snap {
      assert OnSnapshot(n, req, prefix).0 == Installed(Heard(n, req.term, req.leader), req, prefix);
    }
  }

  lemma AnswerComplete(n: Node, from: Id, req: AppendRequest, resp: AppendResponse)
    requires Complete(n) && |n.log| > 0
    ensures Complete(OnAppendResponse(n, from, req, resp))
  {
    AnswerShape(n, from, req, resp);
    ShapeComplete(n, OnAppendResponse(n, from, req, resp), from, req.prevIndex + |req.entries|);
  }

  predicate SameConfig(n: Node, n': Node) { n'.base == n.base && n'.peers == n.peers && n'.log == n.log }

  lemma AnswerShape(n: Node, from: Id, req: AppendRequest, resp: AppendResponse)
    requires |n.log| > 0
    ensures var n' := OnAppendResponse(n, from, req, resp);
            SameConfig(n, n') || n' == CountMatch(n, from, req.prevIndex + |req.entries|)
  {
    if n.role != Leader || n.term != req.term {
      assert OnAppendResponse(n, from, req, resp) == n;
    } else if resp.term > n.term {
      assert OnAppendResponse(n, from, req, resp) == BecomeFollower(n, resp.term, "");
    } else if resp.success {
      assert OnAppendResponse(n, from, req, resp) == CountMatch(n, from, req.prevIndex + |req.entries|);
    } else {
      RefusalShape(n, from, req, resp);
    }
  }

  lemma RefusalShape(n: Node, from: Id, req: AppendRequest, resp: AppendResponse)
    requires |n.log| > 0 && n.role == Leader && n.term == req.term && resp.term <= n.term && !resp.success
    ensures SameConfig(n, OnAppendResponse(n, from, req, resp))
  {
  }

  lemma ShapeComplete(n: Node, n': Node, p: Id, k: nat)
    requires Complete(n) && |n.log| > 0 && (SameConfig(n, n') || n' == CountMatch(n, p, k))
    ensures Complete(n')
  {
    if SameConfig(n, n') {
      SameComplete(n, n');
    } else {
      CountComplete(n, p, k);
    }
  }

  lemma SameComplete(n: Node, n': Node)
    requires Complete(n) && SameConfig(n, n')
    ensures Complete(n')
  {
  }

  lemma VoteComplete(n: Node, from: Id, asked: nat, resp: VoteResponse)
    requires Complete(n) && |n.log| > 0
    ensures Complete(OnVoteResponse(n, from, asked, resp))
  {
    TallyComplete(n.(votes := n.votes + {from}));
  }

  lemma StartComplete(n: Node)
    requires Complete(n) && |n.log| > 0
    ensures Complete(StartElection(n))
  {
    TallyComplete(Campaigner(n));
  }

  lemma RestartComplete(n: Node, join: bool)
    requires Complete(n) && |n.log| > 0
    ensures Complete(Restart(n, join))
  {
    FoldComplete(n.base, n.log, n.snap, LastIndex(n.log));
  }

  lemma ProposeComplete(n: Node, cmd: Command)
    requires Complete(n) && |n.log| > 0
    ensures Complete(Propose(n, cmd).0)
  {
    FinishComplete(LeaderAppend(n, Entry(n.term, cmd, None)));
  }

  lemma ActComplete(n: Node, a: Action)
    requires Complete(n) && |n.log| > 0
    requires a.AppendReceived? ==> CompleteLog(a.append.entries)
    requires a.SnapshotReceived? ==> CompleteSent(Image(a.snapshot, a.prefix))
    ensures Complete(Act(n, a))
  {
    match a
    case StartsElection => StartComplete(n);
    case VoteAnswered(from, asked, resp) => VoteComplete(n, from, asked, resp);
    case Proposes(cmd) => ProposeComplete(n, cmd);
    case ProposesChange(kind, id, addr) => ChangeComplete(n, kind, id, addr);
    case AppendReceived(req) => ReceiveComplete(n, req);
    case AppendAnswered(from, req, resp) => AnswerComplete(n, from, req, resp);
    case SnapshotReceived(req, prefix) => SnapshotComplete(n, req, prefix);
    case SnapshotAnswered(from, req, resp) => CountComplete(n, from, req.lastIndex);
    case Ticks => ApplyComplete(n);
    case Restarts(join) => RestartComplete(n, join);
    case VoteRequested(req) =>
  }

  // ---------------------------------------------------------------- runs

  predicate Fit(n: Node) { Member(n) && Complete(n) }

  ghost predicate AllFit(s: System) {
    && (forall v {:trigger s.nodes[v]} :: v in s.nodes ==> Fit(s.nodes[v]))
    && (forall x {:trigger CompleteSent(x)} :: x in s.sent ==> CompleteSent(x))
  }

  lemma FitIsReady(s: System)
    requires AllFit(s)
    ensures AllReady(s)
  {
    forall v | v in s.nodes
      ensures Sane(s.nodes[v])
    {
      assert Fit(s.nodes[v]);
    }
    forall x | x in s.sent && x.Image?
      ensures |x.prefix| == x.snapshot.lastIndex + 1
    {
      assert CompleteSent(x);
    }
  }

  lemma BootIsFit(id: Id, threshold: nat, join: bool, cfg: Config)
    requires |cfg| > 0
    ensures Fit(Boot(id, threshold, join, cfg))
  {
  }

  lemma ActIsFit(s: System, v: Id, a: Action)
    requires AllFit(s) && Possible(s, Does(v, a)) && AllReady(s)
    ensures Fit(Act(s.nodes[v], a))
  {
    assert Fit(s.nodes[v]);
    assert a.AppendReceived? ==> CompleteSent(Entries(a.append));
    assert a.SnapshotReceived? ==> CompleteSent(Image(a.snapshot, a.prefix));
    ActComplete(s.nodes[v], a);
    ActKeepsMemberIff(s.nodes[v], a);
  }

  lemma SendingIsFit(n: Node, p: Id)
    requires Fit(n) && Sane(n)
    ensures Fit(MakeAppend(n, p).0)
    ensures MakeAppend(n, p).1.Some? ==> CompleteLog(MakeAppend(n, p).1.value.entries)
    ensures CompleteSent(Entries(ProbeOf(n))) && CompleteSent(Image(MakeSnapshot(n), n.log[..n.snap + 1]))
  {
    SameMember(n, MakeAppend(n, p).0);
  }

  lemma EventKeepsFit(s: System, e: Event)
    requires AllFit(s) && AllReady(s) && Possible(s, e)
    ensures AllFit(Next(s, e))
  {
    match e
    case Starts(id, threshold, join, cfg) => BootIsFit(id, threshold, join, cfg);
    case Does(id, a) => ActIsFit(s, id, a);
    case SendsEntries(id, p) => assert Fit(s.nodes[id]); SendingIsFit(s.nodes[id], p);
    case SendsProbe(id) => assert Fit(s.nodes[id]); SendingIsFit(s.nodes[id], "");
    case SendsImage(id) => assert Fit(s.nodes[id]); SendingIsFit(s.nodes[id], "");
  }

  ghost predicate Course(ss: seq<System>, es: seq<Event>) {
    && |ss| == |es| + 1 && ss[0] == System(map[], {})
    && forall k: nat {:trigger CourseAt(ss, es, k)} :: k < |es| ==> CourseAt(ss, es, k)
  }

  ghost predicate CourseAt(ss: seq<System>, es: seq<Event>, k: nat)
    requires k < |es| && |ss| == |es| + 1
  {
    Possible(ss[k], es[k]) && (AllReady(ss[k]) ==> ss[k + 1] == Next(ss[k], es[k]))
  }

  lemma {:induction false} EnsembleInvariant(ss: seq<System>, es: seq<Event>, i: nat)
    requires Course(ss, es) && i < |ss|
    ensures AllFit(ss[i]) && AllReady(ss[i])
    decreases i
  {
    if i > 0 {
      EnsembleInvariant(ss, es, i - 1);
      assert CourseAt(ss, es, i - 1);
      EventKeepsFit(ss[i - 1], es[i - 1]);
    }
    FitIsReady(ss[i]);
  }

  /** Folding changes that carry whole configurations keeps the last of them, or the start. */
  lemma {:induction false} FoldIsLast(cfg: Config, log: Log, lo: nat, hi: nat)
    requires CompleteLog(log) && lo <= hi < |log|
    ensures var last := LastChange(log, lo, hi);
            if last == lo then FoldConfig(cfg, log, lo, hi) == cfg
            else lo < last <= hi && log[last].change.Some? && FoldConfig(cfg, log, lo, hi) == log[last].change.value.peers
    ensures forall k :: LastChange(log, lo, hi) < k <= hi ==> log[k].change.None?
    decreases hi
  {
    if lo < hi {
      FoldIsLast(cfg, log, lo, hi - 1);
      assert CompleteEntry(log[hi]);
    }
  }

  /** However the membership changes, in every state every node's cached configuration is the
      whole map that the last change in its log carries, or the base if there is none; and whoever
      campaigns or leads is in it. */
  lemma MembersThroughout(ss: seq<System>, es: seq<Event>, i: nat, v: Id)
    requires Course(ss, es) && i < |ss| && v in ss[i].nodes
    ensures var n := ss[i].nodes[v];
            && n.snap < |n.log| && n.peers == FoldConfig(n.base, n.log, n.snap, LastIndex(n.log)) && |n.peers| > 0
            && (n.role != Follower ==> n.id in n.peers)
    ensures var n := ss[i].nodes[v];
            var last := LastChange(n.log, n.snap, LastIndex(n.log));
            && (forall k :: last < k < |n.log| ==> n.log[k].change.None?)
            && if last == n.snap then n.peers == n.base
               else n.snap < last < |n.log| && n.log[last].change.Some? && n.peers == n.log[last].change.value.peers
  {
    EnsembleInvariant(ss, es, i);
    var n := ss[i].nodes[v];
    assert Fit(n);
    FoldIsLast(n.base, n.log, n.snap, LastIndex(n.log));
  }

  /** No node ever sends a snapshot without a configuration. */
  lemma SnapshotsCarryPeers(ss: seq<System>, es: seq<Event>, i: nat, x: Sent)
    requires Course(ss, es) && i < |ss| && x in ss[i].sent && x.Image?
    ensures |x.snapshot.peers| > 0
  {
    EnsembleInvariant(ss, es, i);
    assert CompleteSent(x);
  }
}
