/** What the actions of `NodeSpec` do to a node whose membership is fixed. */
module NodeFacts {
  import opened RaftTypes
  import opened Logs
  import opened NodeSpec

  /** No entry changes the configuration. */
  ghost predicate Plain(log: Log) {
    forall i {:trigger log[i]} :: 0 <= i < |log| ==> log[i].change.None?
  }

  /** The state machine is the replay of the applied prefix, the snapshot that of the
      compacted one. */
  ghost predicate Local(n: Node) {
    && Sane(n)
    && n.applied <= n.commit
    && n.applied <= LastIndex(n.log)
    && n.kv == Replay(n.log, n.applied)
    && n.image == Replay(n.log, n.snap)
    && Plain(n.log)
    && n.peers == n.base
  }

  lemma {:induction false} FoldPlain(cfg: Config, log: Log, lo: nat, hi: nat)
    requires Plain(log) && (hi < |log| || hi <= lo)
    ensures FoldConfig(cfg, log, lo, hi) == cfg
    decreases hi
  {
    if hi > lo {
      FoldPlain(cfg, log, lo, hi - 1);
    }
  }

  lemma {:induction false} ReplaySplit(log: Log, lo: nat, hi: nat)
    requires lo <= hi < |log|
    ensures ReplayFrom(Replay(log, lo), log, lo, hi) == Replay(log, hi)
    decreases hi
  {
    if lo < hi {
      ReplaySplit(log, lo, hi - 1);
    }
  }

  lemma {:induction false} ReplayAgree(a: Log, b: Log, k: nat)
    requires Agree(a, b, k)
    ensures Replay(a, k) == Replay(b, k)
    decreases k
  {
    if k > 0 {
      AgreeShorter(a, b, k, k - 1);
      ReplayAgree(a, b, k - 1);
    }
  }

  /** `n'` is `n` after applying what it can and perhaps compacting: only the state machine and
      the snapshot have moved. */
  ghost predicate Settled(n: Node, n': Node) {
    && n' == n.(applied := n'.applied, kv := n'.kv, snap := n'.snap, image := n'.image)
    && Local(n')
    && n.snap <= n'.snap
    && n.applied <= n'.applied
    && (n.threshold == 0 ==> n'.snap == n.snap)
  }

  lemma CatchupFacts(n: Node)
    requires Local(n)
    ensures Local(Catchup(n))
    ensures Catchup(n) == n.(applied := Catchup(n).applied, kv := Catchup(n).kv)
    ensures n.applied <= Catchup(n).applied
  {
    ReplaySplit(n.log, n.applied, ApplyTarget(n));
  }

  lemma CompactFacts(n: Node)
    requires Local(n)
    ensures Local(Compact(n))
    ensures Compact(n) == n.(snap := Compact(n).snap, image := Compact(n).image)
    ensures n.snap <= Compact(n).snap
  {
    FoldPlain(n.base, n.log, n.snap, n.applied);
    FoldPlain(n.base, n.log, n.applied, LastIndex(n.log));
  }

  lemma ApplySettles(n: Node)
    requires Local(n)
    ensures Settled(n, ApplyCommitted(n))
  {
    CatchupFacts(n);
    CompactFacts(Catchup(n));
  }

  /** The commit rule finds a committable index, and the greatest one, or changes nothing. */
  lemma {:induction false} BestCommitIsGreatest(n: Node, top: nat)
    requires top < |n.log|
    ensures BestCommit(n, top) >= n.commit
    ensures BestCommit(n, top) > n.commit ==> BestCommit(n, top) <= top && Committable(n, BestCommit(n, top))
    ensures forall i {:trigger Committable(n, i)} :: n.commit < i <= top && Committable(n, i) ==> i <= BestCommit(n, top)
    decreases top
  {
    if top > n.commit && !Committable(n, top) {
      BestCommitIsGreatest(n, top - 1);
    }
  }
}
