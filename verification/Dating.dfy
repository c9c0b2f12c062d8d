/** The configuration that goes with a snapshot is the one as of its index, however the membership
    changes after it. */
module Dating {
  import opened RaftTypes
  import opened Logs
  import opened NodeSpec
  import opened Membership
  import opened Ensemble
  import opened Loose

  /** Entry `k` is the last change through `hi`. */
  predicate LatestAt(log: Log, k: nat, hi: nat) {
    0 < k <= hi < |log| && log[k].change.Some? && forall j :: k < j <= hi ==> log[j].change.None?
  }

  /** If any change was compacted, `base` is what the last of them says. */
  ghost predicate Dated(log: Log, snap: nat, base: Config) {
    snap < |log| && forall k: nat {:trigger LatestAt(log, k, snap)} :: LatestAt(log, k, snap) ==> base == log[k].change.value.peers
  }

  ghost predicate DatedNode(n: Node) { Sane(n) && CompleteLog(n.log) && Dated(n.log, n.snap, n.base) }

  lemma DatedPrefix(log: Log, log': Log, snap: nat, base: Config)
    requires Dated(log, snap, base) && Agree(log, log', snap)
    ensures Dated(log', snap, base)
  {
    forall k: nat | LatestAt(log', k, snap)
      ensures base == log'[k].change.value.peers
    {
      assert LatestAt(log, k, snap);
    }
  }

  lemma LatestIsLast(log: Log, lo: nat, k: nat, hi: nat)
    requires lo <= hi && LatestAt(log, k, hi)
    ensures LastChange(log, lo, hi) == if k > lo then k else lo
    decreases hi
  {
    if lo < hi && k < hi {
      assert LatestAt(log, k, hi - 1);
      LatestIsLast(log, lo, k, hi - 1);
    }
  }

  /** Compaction moves the date on. */
  lemma FoldDated(log: Log, lo: nat, hi: nat, base: Config)
    requires CompleteLog(log) && Dated(log, lo, base) && lo <= hi < |log|
    ensures Dated(log, hi, FoldConfig(base, log, lo, hi))
  {
    FoldIsLast(base, log, lo, hi);
    forall k: nat | LatestAt(log, k, hi)
      ensures FoldConfig(base, log, lo, hi) == log[k].change.value.peers
    {
      LatestIsLast(log, lo, k, hi);
      if k <= lo {
        assert LatestAt(log, k, lo);
      }
    }
  }

  lemma ApplyDated(n: Node)
    requires DatedNode(n)
    ensures DatedNode(ApplyCommitted(n))
  {
    ApplySane(n);
    var m := Catchup(n);
    if m.applied <= LastIndex(m.log) {
      FoldDated(m.log, m.snap, m.applied, m.base);
    }
  }

  lemma FinishDated(n: Node)
    requires DatedNode(n)
    ensures DatedNode(ApplyCommitted(AdvanceCommit(n)))
  {
    ApplyDated(AdvanceCommit(n));
  }

  lemma LongerDated(n: Node, e: Entry)
    requires DatedNode(n) && CompleteEntry(e)
    ensures CompleteLog(n.log + [e]) && Dated(n.log + [e], n.snap, n.base)
  {
    DatedPrefix(n.log, n.log + [e], n.snap, n.base);
  }

  lemma TallyDated(n: Node)
    requires DatedNode(n)
    ensures DatedNode(TallyVotes(n))
  {
    LongerDated(n, NoOp(n.term));
    FinishDated(Crowned(n));
  }

  lemma CountDated(n: Node, p: Id, m: nat)
    requires DatedNode(n)
    ensures DatedNode(CountMatch(n, p, m))
  {
    FinishDated(n.(matchIndex := n.matchIndex[p := m], nextIndex := n.nextIndex[p := m + 1]));
  }

  lemma AnswerDated(n: Node, from: Id, req: AppendRequest, resp: AppendResponse)
    requires DatedNode(n)
    ensures DatedNode(OnAppendResponse(n, from, req, resp))
  {
    if n.role == Leader && n.term == req.term && resp.term <= n.term && resp.success {
      CountDated(n, from, req.prevIndex + |req.entries|);
    } else {
      NoAnswerDated(n, from, req, resp);
    }
  }

  lemma NoAnswerDated(n: Node, from: Id, req: AppendRequest, resp: AppendResponse)
    requires DatedNode(n) && !(n.role == Leader && n.term == req.term && resp.term <= n.term && resp.success)
    ensures DatedNode(OnAppendResponse(n, from, req, resp))
  {
    var n' := OnAppendResponse(n, from, req, resp);
    assert n'.log == n.log && n'.snap == n.snap && n'.base == n.base && n'.applied == n.applied;
  }

  lemma ReceiveDated(n: Node, req: AppendRequest)
    requires DatedNode(n) && CompleteLog(req.entries)
    ensures DatedNode(OnAppend(n, req).0)
  {
    var n1 := Heard(n, req.term, req.leader);
    if req.term >= n.term && PrevMatches(n, req) {
      MergeComplete(n.log, req.prevIndex + 1, req.entries);
      MergeKeepsPrefix(n.log, req.prevIndex + 1, req.entries);
      var log := MergeFor(n1, req);
      assert log[..req.prevIndex + 1] == n.log[..req.prevIndex + 1];
      SlicesAgree(n.log, log, req.prevIndex + 1, n.snap);
      DatedPrefix(n.log, log, n.snap, n.base);
      var n2 := TakeEntries(n1, req);
      assert DatedNode(n2);
      if req.commit > n2.commit {
        ApplyDated(n2.(commit := Min(req.commit, LastIndex(n2.log))));
      }
    }
  }

  lemma SlicesAgree(a: Log, b: Log, m: nat, k: nat)
    requires k < m <= |a| && m <= |b| && a[..m] == b[..m]
    ensures Agree(a, b, k)
  {
    forall i | 0 <= i <= k
      ensures a[i] == b[i]
    {
      assert a[i] == a[..m][i] == b[..m][i] == b[i];
    }
  }

  lemma ChangeDated(n: Node, kind: ChangeKind, id: Id, addr: string)
    requires DatedNode(n) && Complete(n)
    ensures DatedNode(ProposeChange(n, kind, id, addr).0)
  {
    if CheckChange(n, kind, id).Ok? {
      SomeoneRemains(n.peers, kind, id, addr);
      LongerDated(n, Entry(n.term, Empty, Some(Change(kind, id, addr, Delta(n.peers, kind, id, addr)))));
      FinishDated(Tracked(Amended(n, kind, id, addr)));
    }
  }

  lemma ProposeDated(n: Node, cmd: Command)
    requires DatedNode(n)
    ensures DatedNode(Propose(n, cmd).0)
  {
    LongerDated(n, Entry(n.term, cmd, None));
    FinishDated(LeaderAppend(n, Entry(n.term, cmd, None)));
  }

  ghost predicate DatedSent(x: Sent) { x.Image? ==> Dated(x.prefix, x.snapshot.lastIndex, x.snapshot.peers) }

  lemma ImageDated(n: Node, req: SnapshotRequest, prefix: Log)
    requires DatedNode(n) && CompleteSent(Image(req, prefix)) && DatedSent(Image(req, prefix))
    ensures DatedNode(OnSnapshot(n, req, prefix).0)
  {
    var n1 := Heard(n, req.term, req.leader);
    InstalledDated(n1, req, prefix);
  }

  lemma InstalledDated(n: Node, req: SnapshotRequest, prefix: Log)
    requires DatedNode(n) && CompleteSent(Image(req, prefix)) && DatedSent(Image(req, prefix))
    ensures DatedNode(FollowSnapshot(n, req, prefix))
  {
  }

  lemma SnapAnswerDated(n: Node, from: Id, req: SnapshotRequest, resp: SnapshotResponse)
    requires DatedNode(n)
    ensures DatedNode(OnSnapshotResponse(n, from, req, resp))
  {
    if n.role == Leader && n.term == req.term && resp.term <= n.term {
      CountDated(n, from, req.lastIndex);
    }
  }

  lemma VoteDated(n: Node, from: Id, asked: nat, resp: VoteResponse)
    requires DatedNode(n)
    ensures DatedNode(OnVoteResponse(n, from, asked, resp))
  {
    TallyDated(n.(votes := n.votes + {from}));
  }

  lemma StartDated(n: Node)
    requires DatedNode(n)
    ensures DatedNode(StartElection(n))
  {
    TallyDated(Campaigner(n));
  }

  lemma ActDated(n: Node, a: Action)
    requires DatedNode(n) && Complete(n)
    requires a.AppendReceived? ==> CompleteLog(a.append.entries)
    requires a.SnapshotReceived? ==> CompleteSent(Image(a.snapshot, a.prefix)) && DatedSent(Image(a.snapshot, a.prefix))
    ensures DatedNode(Act(n, a))
  {
    match a
    case StartsElection => StartDated(n);
    case VoteAnswered(from, asked, resp) => VoteDated(n, from, asked, resp);
    case Proposes(cmd) => ProposeDated(n, cmd);
    case ProposesChange(kind, id, addr) => ChangeDated(n, kind, id, addr);
    case AppendReceived(req) => ReceiveDated(n, req);
    case AppendAnswered(from, req, resp) => AnswerDated(n, from, req, resp);
    case SnapshotReceived(req, prefix) => ImageDated(n, req, prefix);
    case SnapshotAnswered(from, req, resp) => SnapAnswerDated(n, from, req, resp);
    case Ticks => ApplyDated(n);
    case Restarts(join) =>
    case VoteRequested(req) =>
  }

  // ---------------------------------------------------------------- courses

  ghost predicate AllDated(s: System) {
    && (forall v {:trigger s.nodes[v]} :: v in s.nodes ==> DatedNode(s.nodes[v]))
    && (forall x {:trigger DatedSent(x)} :: x in s.sent ==> DatedSent(x))
  }

  lemma SnapshotDated(n: Node)
    requires DatedNode(n)
    ensures DatedSent(Image(MakeSnapshot(n), n.log[..n.snap + 1]))
  {
    SlicesAgree(n.log, n.log[..n.snap + 1], n.snap + 1, n.snap);
    DatedPrefix(n.log, n.log[..n.snap + 1], n.snap, n.base);
  }

  lemma CallDated(n: Node, p: Id)
    requires DatedNode(n)
    ensures DatedNode(MakeAppend(n, p).0)
  {
  }

  lemma ActKeepsDated(s: System, v: Id, a: Action)
    requires AllDated(s) && AllFit(s) && AllReady(s) && Possible(s, Does(v, a))
    ensures DatedNode(Act(s.nodes[v], a))
  {
    assert Fit(s.nodes[v]);
    assert a.AppendReceived? ==> CompleteSent(Entries(a.append));
    assert a.SnapshotReceived? ==> CompleteSent(Image(a.snapshot, a.prefix)) && DatedSent(Image(a.snapshot, a.prefix));
    ActDated(s.nodes[v], a);
  }

  lemma EventKeepsDated(s: System, e: Event)
    requires AllDated(s) && AllFit(s) && AllReady(s) && Possible(s, e)
    ensures AllDated(Next(s, e))
  {
    match e
    case Does(id, a) => ActKeepsDated(s, id, a);
    case SendsEntries(id, p) => CallDated(s.nodes[id], p);
    case SendsImage(id) => SnapshotDated(s.nodes[id]);
    case Starts(id, threshold, join, cfg) => assert DatedNode(Boot(id, threshold, join, cfg));
    case SendsProbe(id) =>
  }

  lemma {:induction false} AlwaysDated(ss: seq<System>, es: seq<Event>, i: nat)
    requires Course(ss, es) && i < |ss|
    ensures AllDated(ss[i])
    decreases i
  {
    if i > 0 {
      AlwaysDated(ss, es, i - 1);
      EnsembleInvariant(ss, es, i - 1);
      assert CourseAt(ss, es, i - 1);
      EventKeepsDated(ss[i - 1], es[i - 1]);
    }
  }

  /** However the membership changes, what a node keeps beside its snapshot, and every
      configuration sent with one, is the whole map of the last change that the snapshot covers. */
  lemma SnapshotsAreDated(ss: seq<System>, es: seq<Event>, i: nat, v: Id, x: Sent)
    requires Course(ss, es) && i < |ss|
    ensures v in ss[i].nodes ==> Dated(ss[i].nodes[v].log, ss[i].nodes[v].snap, ss[i].nodes[v].base)
    ensures x in ss[i].sent && x.Image? ==> Dated(x.prefix, x.snapshot.lastIndex, x.snapshot.peers)
  {
    AlwaysDated(ss, es, i);
    assert x in ss[i].sent ==> DatedSent(x);
  }
}
