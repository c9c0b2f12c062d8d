/** The replication retry loop: how many refusals it takes until a follower accepts. */
module Backoff {
  import opened RaftTypes
  import opened Logs
  import opened NodeSpec
  import opened DisciplineSteps

  /** One call of leader `l` to follower `f`, known to it as `p`, and the reply to it. */
  function Round(l: Node, f: Node, p: Id): (Node, Node)
    requires Sane(l) && |f.log| > 0
  {
    match MakeAppend(l, p)
    case (l1, None) => (l1, f)
    case (l1, Some(req)) => (OnAppendResponse(l1, p, req, OnAppend(f, req).1), OnAppend(f, req).0)
  }

  predicate SameTermAt(l: Node, f: Node, m: nat) {
    m < |l.log| && m < |f.log| && l.log[m].term == f.log[m].term
  }

  /** `m` is the greatest index that both logs still hold and on whose term they agree, among
      those the leader has yet to try. */
  predicate MeetsAt(l: Node, f: Node, p: Id, m: nat) {
    && Max(l.snap, f.snap) <= m < NextFor(l, p)
    && SameTermAt(l, f, m)
    && forall j {:trigger SameTermAt(l, f, j)} :: m < j < NextFor(l, p) ==> !SameTermAt(l, f, j)
  }

  predicate Calling(l: Node, f: Node) {
    Sane(l) && l.role == Leader && |f.log| > 0 && f.term <= l.term
  }

  /** A refused round costs one index and changes neither log. */
  lemma RefusedRound(l: Node, f: Node, p: Id, m: nat)
    requires Calling(l, f) && MeetsAt(l, f, p, m) && m + 1 < NextFor(l, p)
    ensures
      var (l', f') := Round(l, f, p);
      && l' == l.(nextIndex := l.nextIndex[p := NextFor(l, p) - 1])
      && f'.log == f.log && f'.snap == f.snap && f'.term == l.term
      && NextFor(l', p) == NextFor(l, p) - 1
      && Calling(l', f') && MeetsAt(l', f', p, m)
  {
    var req := MakeAppend(l, p).1.value;
    assert !SameTermAt(l, f, req.prevIndex);
    OnAppendShape(f, req);
    RefusedReply(l, f, p, req);
    var (l', f') := Round(l, f, p);
    assert SameTermAt(l', f', m);
    forall j | m < j < NextFor(l', p)
      ensures !SameTermAt(l', f', j)
    {
      assert !SameTermAt(l, f, j);
    }
  }

  lemma RefusedReply(l: Node, f: Node, p: Id, req: AppendRequest)
    requires Sane(l) && l.role == Leader && MakeAppend(l, p).1 == Some(req) && NextFor(l, p) > l.snap + 1
    ensures OnAppendResponse(MakeAppend(l, p).0, p, req, AppendResponse(l.term, false)) ==
            l.(nextIndex := l.nextIndex[p := NextFor(l, p) - 1])
  {
    var next := NextFor(l, p);
    assert l.nextIndex[p := next][p := next - 1] == l.nextIndex[p := next - 1];
  }

  /** The round at `m` is accepted: the leader counts its whole log, and a follower whose log
      matched the leader's where it overlapped now holds all of it. */
  lemma AcceptedRound(l: Node, f: Node, p: Id, m: nat)
    requires Calling(l, f) && MeetsAt(l, f, p, m) && m + 1 == NextFor(l, p)
    ensures
      var (l', f') := Round(l, f, p);
      && l' == CountMatch(MakeAppend(l, p).0, p, LastIndex(l.log))
      && Lookup(l'.matchIndex, p) == LastIndex(l.log)
      && (Matching(f.log, l.log) ==> Agree(f'.log, l.log, LastIndex(l.log)))
  {
    var req := MakeAppend(l, p).1.value;
    AcceptedIs(l, f, p, req);
    CountedMatch(MakeAppend(l, p).0, p, LastIndex(l.log));
    if Matching(f.log, l.log) {
      AcceptedAgrees(l, f, req);
    }
  }

  lemma AcceptedAgrees(l: Node, f: Node, req: AppendRequest)
    requires |l.log| > 0 && PrevMatches(f, req) && Matching(f.log, l.log)
    requires req.prevIndex < |l.log| && req.prevTerm == l.log[req.prevIndex].term && req.entries == l.log[req.prevIndex + 1..]
    ensures Agree(Merge(f.log, req.prevIndex + 1, req.entries), l.log, LastIndex(l.log))
  {
    var at := req.prevIndex + 1;
    assert req.entries == l.log[at..at + |req.entries|];
    assert f.log[req.prevIndex].term == l.log[req.prevIndex].term && Agree(f.log, l.log, req.prevIndex);
    MergeFollows(f.log, at, req.entries, l.log);
  }

  lemma AcceptedIs(l: Node, f: Node, p: Id, req: AppendRequest)
    requires Calling(l, f) && MakeAppend(l, p).1 == Some(req) && PrevMatches(f, req)
    ensures Round(l, f, p).0 == CountMatch(MakeAppend(l, p).0, p, LastIndex(l.log))
    ensures Round(l, f, p).1.log == Merge(f.log, req.prevIndex + 1, req.entries)
  {
    AcceptedLog(f, req);
    assert req.prevIndex + |req.entries| == LastIndex(l.log);
  }

  lemma CountedMatch(n: Node, p: Id, m: nat)
    requires |n.log| > 0
    ensures Lookup(CountMatch(n, p, m).matchIndex, p) == m
  {
  }

  lemma AcceptedLog(f: Node, req: AppendRequest)
    requires |f.log| > 0 && f.term <= req.term && PrevMatches(f, req)
    ensures OnAppend(f, req).0.log == Merge(f.log, req.prevIndex + 1, req.entries)
    ensures OnAppend(f, req).1 == AppendResponse(req.term, true)
  {
    var n := TakeEntries(Heard(f, req.term, req.leader), req);
    if req.commit > n.commit {
      ApplyKeeps(n.(commit := Min(req.commit, LastIndex(n.log))));
    }
  }

  /** The leader and the follower before and after each round of a retry loop. */
  ghost predicate Retries(p: Id, ls: seq<Node>, fs: seq<Node>) {
    && |ls| == |fs|
    && forall i: nat {:trigger RetryAt(p, ls, fs, i)} :: i + 1 < |ls| ==> RetryAt(p, ls, fs, i)
  }

  ghost predicate RetryAt(p: Id, ls: seq<Node>, fs: seq<Node>, i: nat)
    requires i + 1 < |ls| == |fs|
  {
    Sane(ls[i]) && |fs[i].log| > 0 ==> (ls[i + 1], fs[i + 1]) == Round(ls[i], fs[i], p)
  }

  /** Where the loop stands after `k` refusals. */
  predicate Descended(l: Node, f: Node, p: Id, m: nat, k: nat, l': Node, f': Node) {
    && Calling(l', f') && MeetsAt(l', f', p, m)
    && NextFor(l', p) == NextFor(l, p) - k
    && l'.matchIndex == l.matchIndex && l'.log == l.log && f'.log == f.log
  }

  lemma DescendOne(l: Node, f: Node, p: Id, m: nat, k: nat, l': Node, f': Node)
    requires Descended(l, f, p, m, k, l', f') && m + k + 1 < NextFor(l, p)
    ensures Descended(l, f, p, m, k + 1, Round(l', f', p).0, Round(l', f', p).1)
  {
    RefusedRound(l', f', p, m);
  }

  /** Before the meeting point every round is refused, one index at a time. */
  lemma {:induction false} Descent(p: Id, ls: seq<Node>, fs: seq<Node>, m: nat, k: nat)
    requires Retries(p, ls, fs) && k < |ls| && Calling(ls[0], fs[0]) && MeetsAt(ls[0], fs[0], p, m) && m + k < NextFor(ls[0], p)
    ensures Descended(ls[0], fs[0], p, m, k, ls[k], fs[k])
    decreases k
  {
    if k > 0 {
      Descent(p, ls, fs, m, k - 1);
      assert RetryAt(p, ls, fs, k - 1);
      DescendOne(ls[0], fs[0], p, m, k - 1, ls[k - 1], fs[k - 1]);
    }
  }

  /** If the logs agree anywhere the leader can still reach, exactly `nextIndex - 1 - m`
      requests are refused, for `m` the greatest such index, and the next one is accepted. */
  lemma BackoffTerminates(p: Id, ls: seq<Node>, fs: seq<Node>, m: nat)
    requires Retries(p, ls, fs) && |ls| > 0 && Calling(ls[0], fs[0]) && MeetsAt(ls[0], fs[0], p, m)
    requires NextFor(ls[0], p) - m < |ls|
    ensures
      var refusals, last := NextFor(ls[0], p) - 1 - m, LastIndex(ls[0].log);
      && (forall k :: 0 <= k <= refusals ==> ls[k].matchIndex == ls[0].matchIndex && NextFor(ls[k], p) == NextFor(ls[0], p) - k)
      && Lookup(ls[refusals + 1].matchIndex, p) == last
      && (Matching(fs[0].log, ls[0].log) ==> Agree(fs[refusals + 1].log, ls[0].log, last))
  {
    var refusals := NextFor(ls[0], p) - 1 - m;
    forall k | 0 <= k <= refusals
      ensures ls[k].matchIndex == ls[0].matchIndex && NextFor(ls[k], p) == NextFor(ls[0], p) - k
    {
      Descent(p, ls, fs, m, k);
    }
    Descent(p, ls, fs, m, refusals);
    assert RetryAt(p, ls, fs, refusals);
    AcceptedRound(ls[refusals], fs[refusals], p, m);
  }
}
