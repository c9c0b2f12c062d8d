/** Full logs: agreement on a prefix, the voting order, and the AppendEntries merge. */
module Logs {
  import opened RaftTypes

  function LastIndex(log: Log): nat
    requires |log| > 0
  {
    |log| - 1
  }

  function LastTerm(log: Log): nat
    requires |log| > 0
  {
    log[|log| - 1].term
  }

  /** Both logs reach index `i` and hold the same entries through it. */
  predicate Agree(a: Log, b: Log, i: int) {
    0 <= i < |a| && i < |b| && forall k :: 0 <= k <= i ==> a[k] == b[k]
  }

  predicate Ordered(log: Log) {
    forall i, j :: 0 <= i < j < |log| ==> log[i].term <= log[j].term
  }

  /** A dummy at index 0, real terms after it, terms never decreasing. */
  predicate WellFormed(log: Log) {
    && |log| > 0
    && log[0] == DUMMY
    && (forall i :: 1 <= i < |log| ==> log[i].term >= 1)
    && Ordered(log)
  }

  /** The voting rule of section 5.4.1 of the Raft paper, for a candidate's (index, term) pair. */
  predicate AtLeastAsUpToDate(lastIndex: nat, lastTerm: nat, log: Log)
    requires |log| > 0
  {
    if lastTerm != LastTerm(log) then lastTerm > LastTerm(log) else lastIndex >= LastIndex(log)
  }

  lemma AgreeTrans(a: Log, b: Log, c: Log, i: int, j: int)
    requires Agree(a, b, i) && Agree(b, c, j)
    ensures Agree(a, c, if i <= j then i else j)
  {
  }

  lemma AgreeShorter(a: Log, b: Log, i: int, j: int)
    requires Agree(a, b, i) && 0 <= j <= i
    ensures Agree(a, b, j)
  {
  }

  /** Scan, truncate at the first term conflict, append: the loop of the AppendEntries receiver.
      `es[0]` belongs at index `at`. */
  function Merge(log: Log, at: nat, es: seq<Entry>): Log
    requires at <= |log|
    decreases |es|
  {
    if es == [] then log
    else if at < |log| && log[at].term == es[0].term then Merge(log, at + 1, es[1..])
    else log[..at] + es
  }

  /** Equal terms at an index mean equal prefixes through it. */
  predicate Matching(a: Log, b: Log) {
    forall k {:trigger a[k], b[k]} :: 0 <= k < |a| && k < |b| && a[k].term == b[k].term ==> Agree(a, b, k)
  }

  /** Merging a slice of `ref` into a log that matches it: the result agrees with `ref` through
      the end of the slice, is either the old log or exactly that prefix of `ref`, and loses
      nothing on which the two logs already agreed. */
  lemma {:induction false} MergeFollows(log: Log, at: nat, es: seq<Entry>, ref: Log)
    requires 1 <= at <= |log| && at + |es| <= |ref|
    requires es == ref[at..at + |es|]
    requires Agree(log, ref, at - 1)
    requires Matching(log, ref)
    ensures Agree(Merge(log, at, es), ref, at + |es| - 1)
    ensures Merge(log, at, es) == log || Merge(log, at, es) == ref[..at + |es|]
    ensures forall i :: Agree(log, ref, i) ==> Agree(Merge(log, at, es), ref, i)
    decreases |es|
  {
    if es == [] {
    } else if at < |log| && log[at].term == es[0].term {
      assert es[0] == ref[at];
      assert Agree(log, ref, at);
      assert es[1..] == ref[at + 1..at + 1 + |es[1..]|];
      MergeFollows(log, at + 1, es[1..], ref);
    } else {
      assert es[0] == ref[at];
      assert forall i :: Agree(log, ref, i) ==> i < at;
      assert log[..at] + es == ref[..at + |es|];
    }
  }

  /** Nothing before the first offered entry is touched. */
  lemma {:induction false} MergeKeepsPrefix(log: Log, at: nat, es: seq<Entry>)
    requires at <= |log|
    ensures |Merge(log, at, es)| >= at && Merge(log, at, es)[..at] == log[..at]
    decreases |es|
  {
    if es != [] && at < |log| && log[at].term == es[0].term {
      MergeKeepsPrefix(log, at + 1, es[1..]);
      var r := Merge(log, at + 1, es[1..]);
      assert r[..at] == r[..at + 1][..at] == log[..at + 1][..at] == log[..at];
    }
  }

  lemma {:induction false} MergeReaches(log: Log, at: nat, es: seq<Entry>)
    requires at <= |log|
    ensures |Merge(log, at, es)| >= at + |es|
    decreases |es|
  {
    if es != [] && at < |log| && log[at].term == es[0].term {
      MergeReaches(log, at + 1, es[1..]);
    }
  }
}
