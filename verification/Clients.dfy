/** What clients observe: writes that have taken effect are seen by every later read. */
module Clients {
  import opened RaftTypes
  import opened Logs
  import opened NodeSpec
  import opened History
  import opened Protocol
  import opened Cluster
  import opened ElectionSteps
  import opened Backoff
  import opened Compaction
  import opened Safety
  import opened Theorems
  import opened Reads
  import opened Commits

  // ---------------------------------------------------------------- the map is the last writes

  /** Entry `e` writes `key`. */
  predicate Writes(e: Entry, key: string) {
    e.change.None? && e.command.Operation? && e.command.op == "Put" && e.command.key == key
  }

  /** The last index up to `k` that writes `key`, or 0. */
  function LastWrite(log: Log, k: nat, key: string): (i: nat)
    requires k < |log|
    ensures i <= k
    ensures i > 0 ==> Writes(log[i], key)
    ensures forall j :: i < j <= k ==> !Writes(log[j], key)
  {
    if k == 0 then 0 else if Writes(log[k], key) then k else LastWrite(log, k - 1, key)
  }

  /** Replaying a log gives each key the value of the last entry that writes it. */
  lemma {:induction false} ReplayIsLastWrite(log: Log, k: nat, key: string)
    requires k < |log|
    ensures key in Replay(log, k) <==> LastWrite(log, k, key) > 0
    ensures key in Replay(log, k) ==> Replay(log, k)[key] == log[LastWrite(log, k, key)].command.value
    decreases k
  {
    if k > 0 {
      ReplayIsLastWrite(log, k - 1, key);
    }
  }

  // ---------------------------------------------------------------- writes and reads

  /** A write whose index some node has applied, with the term still the client's, is in the
      map of every node that has ever since applied that much: its key has the value of that
      write or of one after it. */
  lemma PutIsVisible(cs: seq<Cluster>, ss: seq<Step>, i: nat, j: nat, k: nat, w: Id, l: Id, key: string, value: string, idx: nat)
    requires Puts(cs, ss, i, Operation("Put", key, value), idx) && i < j <= k < |cs| && w in cs[j].nodes && l in cs[k].nodes
    requires idx <= cs[j].nodes[w].applied && idx < |cs[j].nodes[w].log|
    requires cs[j].nodes[w].log[idx].term == cs[i].nodes[ss[i].node].term
    requires idx <= cs[k].nodes[l].applied
    ensures var n := cs[k].nodes[l];
            && n.applied < |n.log| && 0 < idx <= LastWrite(n.log, n.applied, key)
            && key in n.kv && n.kv[key] == n.log[LastWrite(n.log, n.applied, key)].command.value
            && (LastWrite(n.log, n.applied, key) == idx ==> n.kv[key] == value)
  {
    var n := cs[k].nodes[l];
    PutIsDurable(cs, ss, i, j, k, w, l, Operation("Put", key, value), idx);
    InvariantHolds(cs, ss, i);
    InvariantHolds(cs, ss, k);
    BaseNode(cs[i], ss[i].node);
    BaseNode(cs[k], l);
    assert Writes(n.log[idx], key);
    ReplayIsLastWrite(n.log, n.applied, key);
  }

  /** A read that begins after a write has taken effect finds that write or a later one. The
      write took effect in state `j`; the read began in `b`, its index was applied in `a`,
      `ReadIndex` returned in `r`, and the map is looked up in `k`. */
  lemma ReadSeesPut(cs: seq<Cluster>, ss: seq<Step>, i: nat, j: nat, b: nat, a: nat, r: nat, k: nat, w: Id,
                    key: string, value: string, idx: nat)
    requires ReadDone(cs, ss, b, a, r) && InCapturedTerm(cs, ss, b, a)
    requires Puts(cs, ss, i, Operation("Put", key, value), idx) && i < j <= b && w in cs[j].nodes
    requires r <= k < |cs| && forall s :: r <= s < k ==> ss[s] != Crash(ss[b].node)
    requires idx <= cs[j].nodes[w].applied && idx < |cs[j].nodes[w].log|
    requires cs[j].nodes[w].log[idx].term == cs[i].nodes[ss[i].node].term
    ensures ss[b].node in cs[k].nodes
    ensures var n := cs[k].nodes[ss[b].node];
            && n.applied < |n.log| && 0 < idx <= LastWrite(n.log, n.applied, key)
            && key in n.kv && n.kv[key] == n.log[LastWrite(n.log, n.applied, key)].command.value
  {
    InvariantHolds(cs, ss, j);
    BaseNode(cs[j], w);
    ReadIsLinearizable(cs, ss, j, b, a, r, k, w);
    PutIsVisible(cs, ss, i, j, k, w, ss[b].node, key, value, idx);
  }

  /** Whatever any node had committed before a write began lies below that write's index, if the
      write takes effect. */
  lemma PutComesAfter(cs: seq<Cluster>, ss: seq<Step>, j: nat, i: nat, k: nat, w: Id, u: Id, cmd: Command, idx: nat, x: nat)
    requires Puts(cs, ss, i, cmd, idx) && j <= i < k < |cs| && w in cs[j].nodes && u in cs[k].nodes
    requires x <= cs[j].nodes[w].commit && x < |cs[j].nodes[w].log|
    requires idx <= cs[k].nodes[u].applied && idx < |cs[k].nodes[u].log|
    requires cs[k].nodes[u].log[idx].term == cs[i].nodes[ss[i].node].term
    ensures x < idx
  {
    InvariantHolds(cs, ss, k);
    BaseNode(cs[k], u);
    if idx <= x {
      CommittedLogsAgree(cs, ss, j, k, w, u, idx);
      PutIndexIsNew(cs, ss, j, i, w, cmd, idx);
    }
  }

  /** Before a write began, no log had an entry of its term at its index. */
  lemma PutIndexIsNew(cs: seq<Cluster>, ss: seq<Step>, j: nat, i: nat, w: Id, cmd: Command, idx: nat)
    requires Puts(cs, ss, i, cmd, idx) && j <= i && w in cs[j].nodes && idx < |cs[j].nodes[w].log|
    ensures cs[j].nodes[w].log[idx].term != cs[i].nodes[ss[i].node].term
  {
    var t, log := cs[i].nodes[ss[i].node].term, cs[j].nodes[w].log;
    PastStays(cs, ss, j, i);
    BaseNode(cs[i], ss[i].node);
    LeaderOfTerm(cs[i], ss[i].node);
    LogIsRooted(cs[j], w);
    assert RootedAt(cs[j].h.reigns, log, idx);
    assert log[idx].term == t ==> ReignGrows(cs[j].h.reigns, cs[i].h.reigns, t);
  }

  /** A write that takes effect comes after every write that had taken effect when it began. */
  lemma PutsInOrder(cs: seq<Cluster>, ss: seq<Step>, h: nat, j: nat, i: nat, k: nat, w: Id, u: Id,
                    first: Command, a: nat, second: Command, b: nat)
    requires Puts(cs, ss, i, second, b) && i < k < |cs| && u in cs[k].nodes
    requires Puts(cs, ss, h, first, a) && h < j <= i && w in cs[j].nodes && a <= cs[j].nodes[w].applied
    requires b <= cs[k].nodes[u].applied && b < |cs[k].nodes[u].log|
    requires cs[k].nodes[u].log[b].term == cs[i].nodes[ss[i].node].term
    ensures a < b
  {
    InvariantHolds(cs, ss, j);
    BaseNode(cs[j], w);
    PutComesAfter(cs, ss, j, i, k, w, u, second, b, a);
  }

  /** A read that begins when another has returned sees at least as much: its node has applied
      whatever the first reader had applied when its map was looked up, in state `k`. */
  lemma ReadsInOrder(cs: seq<Cluster>, ss: seq<Step>, b: nat, a: nat, r: nat, k: nat, b': nat, a': nat, r': nat, k': nat)
    requires ReadDone(cs, ss, b', a', r') && InCapturedTerm(cs, ss, b', a') && r' <= k' < |cs|
    requires ReadDone(cs, ss, b, a, r) && InCapturedTerm(cs, ss, b, a) && r <= k <= b'
    requires forall s :: r <= s < k ==> ss[s] != Crash(ss[b].node)
    requires forall s :: r' <= s < k' ==> ss[s] != Crash(ss[b'].node)
    ensures ss[b].node in cs[k].nodes && ss[b'].node in cs[k'].nodes
    ensures var n, n' := cs[k].nodes[ss[b].node], cs[k'].nodes[ss[b'].node];
            n.applied <= n'.applied && Agree(n'.log, n.log, n.applied)
  {
    ReadStays(cs, ss, b, a, r, k);
    ReplayEquivalence(cs, ss, k, ss[b].node);
    ReadIsLinearizable(cs, ss, k, b', a', r', k', ss[b].node);
    var n, n' := cs[k].nodes[ss[b].node], cs[k'].nodes[ss[b'].node];
    AgreeShorter(n'.log, n.log, Min(n.commit, LastIndex(n.log)), n.applied);
  }

  // ---------------------------------------------------------------- what compaction relies on

  /** Every request of every run leaves alone what its receiver has applied. */
  lemma RequestsAreGentle(cs: seq<Cluster>, ss: seq<Step>, i: nat, pkt: Packet)
    requires Run(cs, ss) && i < |cs| && pkt in cs[i].net && (pkt.AppendReq? || pkt.ProbeReq?) && pkt.to in cs[i].nodes
    ensures Gentle(cs[i].nodes[pkt.to], pkt.append)
  {
    TruncationKeepsCommitted(cs, ss, i, pkt);
    InvariantHolds(cs, ss, i);
    BaseNode(cs[i], pkt.to);
    KeptIsGentle(cs[i].nodes[pkt.to], pkt.append);
  }

  lemma KeptIsGentle(n: Node, req: AppendRequest)
    requires |n.log| > 0 && n.applied <= n.commit && n.applied < |n.log|
    requires Agree(OnAppend(n, req).0.log, n.log, Min(n.commit, LastIndex(n.log)))
    ensures Gentle(n, req)
  {
    if req.term >= n.term && PrevMatches(n, req) {
      AcceptedLog(n, req);
      AgreeShorter(OnAppend(n, req).0.log, n.log, Min(n.commit, LastIndex(n.log)), n.applied);
    }
  }
}
