/** The node as the program keeps it: a log whose first entry is a dummy standing for the
    snapshot, fields that handlers update in place, and a disk. Every method is proved to do to
    the full log what `NodeSpec` says, and to leave the disk in step with memory. */
module RaftNode {
  import opened RaftTypes
  import opened Quorums
  import opened Logs
  import opened NodeSpec
  import opened KvStore
  import opened Membership

  /** An entry as stored, with its index. */
  datatype LogEntry = LogEntry(term: nat, index: nat, command: Command, change: Option<Change>) {
    function Bare(): Entry { Entry(term, command, change) }
  }

  /** What a node writes to disk. */
  datatype DurableState = DurableState(
    currentTerm: nat, votedFor: Id, log: seq<LogEntry>, snapshot: Option<Store>, snapshotPeers: Config)

  class Storage {
    var saved: Option<DurableState>

    constructor ()
      ensures saved == None
    {
      saved := None;
    }

    method Save(st: DurableState)
      modifies this
      ensures saved == Some(st)
    {
      saved := Some(st);
    }

    method Load() returns (st: Option<DurableState>)
      ensures st == saved
    {
      st := saved;
    }
  }

  // ---------------------------------------------------------------- the compacted log

  /** `log` holds the end of `full`: entry `i` from position `i - log[0].index`, of which the
      first, at the snapshot's index, only has its term. */
  ghost predicate Represents(log: seq<LogEntry>, full: Log) {
    && |log| > 0
    && |full| == log[0].index + |log|
    && forall k {:trigger Open(log, k)} :: Open(log, k) ==> AllStored(log, full)
  }

  /** Proofs that look at entries mention `Open`; elsewhere `Represents` stays a single fact. */
  ghost predicate Open(log: seq<LogEntry>, k: bool) { true }

  ghost predicate AllStored(log: seq<LogEntry>, full: Log)
    requires |log| > 0 && |full| == log[0].index + |log|
  {
    forall i {:trigger log[i]} :: 0 <= i < |log| ==> Stored(log[0].index, full, log[i], i)
  }

  ghost predicate Stored(start: nat, full: Log, e: LogEntry, i: nat)
    requires start + i < |full|
  {
    && e.index == start + i
    && e.term == full[start + i].term
    && (if i > 0 then e.Bare() == full[start + i] else e.change.None?)
  }

  function Indexed(es: seq<Entry>, start: nat): seq<LogEntry> {
    seq(|es|, i requires 0 <= i < |es| => LogEntry(es[i].term, start + i, es[i].command, es[i].change))
  }

  lemma RepresentsAppended(log: seq<LogEntry>, full: Log, es: seq<Entry>)
    requires Represents(log, full)
    ensures Represents(log + Indexed(es, |full|), full + es)
  {
    assert Open(log, true);
    var log', full' := log + Indexed(es, |full|), full + es;
    forall i | 0 <= i < |log'|
      ensures Stored(log'[0].index, full', log'[i], i)
    {
      if i < |log| {
        assert Stored(log[0].index, full, log[i], i);
      }
    }
  }

  lemma RepresentsTruncated(log: seq<LogEntry>, full: Log, index: nat)
    requires Represents(log, full) && log[0].index < index <= |full|
    ensures Represents(log[..index - log[0].index], full[..index])
  {
    assert Open(log, true);
    var log', full' := log[..index - log[0].index], full[..index];
    forall i | 0 <= i < |log'|
      ensures Stored(log'[0].index, full', log'[i], i)
    {
      assert Stored(log[0].index, full, log[i], i);
    }
  }

  lemma RepresentsCompacted(log: seq<LogEntry>, full: Log, index: nat)
    requires Represents(log, full) && log[0].index < index < |full|
    ensures Represents([LogEntry(full[index].term, index, Empty, None)] + log[index - log[0].index + 1..], full)
  {
    assert Open(log, true);
    var skip := index - log[0].index;
    var log' := [LogEntry(full[index].term, index, Empty, None)] + log[skip + 1..];
    forall i | 0 <= i < |log'|
      ensures Stored(index, full, log'[i], i)
    {
      if i > 0 {
        assert Stored(log[0].index, full, log[skip + i], skip + i);
      }
    }
  }

  lemma StoredAt(log: seq<LogEntry>, full: Log, i: nat)
    requires Represents(log, full) && i < |log|
    ensures Stored(log[0].index, full, log[i], i)
  {
    assert Open(log, true);
  }

  /** One change, as the membership loops fold it in. */
  method ApplyOne(peers: Config, e: LogEntry) returns (peers': Config)
    ensures peers' == ApplyEntry(peers, e.Bare())
  {
    peers' := peers;
    if e.change.Some? {
      var ch := e.change.value;
      if |ch.peers| > 0 {
        peers' := ch.peers;
      } else {
        match ch.kind
        case AddPeer => peers' := peers'[ch.id := ch.addr];
        case RemovePeer => peers' := peers' - {ch.id};
      }
    }
  }

  /** The configuration that the stored changes lead to. */
  method FoldLog(basePeers: Config, log: seq<LogEntry>, ghost full: Log) returns (peers: Config)
    requires Represents(log, full)
    ensures peers == FoldConfig(basePeers, full, log[0].index, LastIndex(full))
  {
    peers := basePeers;
    var i := 1;
    while i < |log|
      invariant 1 <= i <= |log|
      invariant peers == FoldConfig(basePeers, full, log[0].index, log[0].index + i - 1)
    {
      StoredAt(log, full, i);
      peers := ApplyOne(peers, log[i]);
      i := i + 1;
    }
  }

  function ImageOf(snapshot: Option<Store>): Store {
    match snapshot
    case Some(data) => data
    case None => map[]
  }

  /** What is on disk, with `full` for the log it represents. A node saved without a
      configuration falls back on the one it is started with. */
  function Loaded(st: DurableState, full: Log, peers: Config): Durable
    requires |st.log| > 0
  {
    Durable(st.currentTerm, st.votedFor, full, st.log[0].index, ImageOf(st.snapshot),
            if |st.snapshotPeers| > 0 then st.snapshotPeers else peers)
  }

  // ---------------------------------------------------------------- the node

  class RaftNode {
    const id: Id
    const threshold: nat
    const store: KeyValue
    const storage: Storage

    var state: Role
    var currentTerm: nat
    var votedFor: Id
    var log: seq<LogEntry>
    var snapshot: Option<Store>   // None until the first compaction or installation
    var basePeers: Config
    var peerAddrs: Config
    var commitIndex: nat
    var lastApplied: nat
    var nextIndex: map<Id, nat>
    var matchIndex: map<Id, nat>
    var votesReceived: set<Id>
    var leaderID: Id
    var joining: bool

    /** The log as it would be had nothing been compacted. */
    ghost var full: Log

    ghost predicate Valid()
      reads this
    {
      && Represents(log, full)
      && log[0].index <= lastApplied
      && (snapshot == None ==> log[0].index == 0)
    }

    /** The node as a value. */
    ghost function State(): Node
      reads this, store
      requires Valid()
    {
      Node(id, threshold, state, currentTerm, votedFor, full, log[0].index, ImageOf(snapshot), basePeers, peerAddrs,
           commitIndex, lastApplied, store.data, votesReceived, nextIndex, matchIndex, leaderID, joining)
    }

    function Current(): DurableState
      reads this
    {
      DurableState(currentTerm, votedFor, log, snapshot, basePeers)
    }

    /** The disk holds what memory holds; a disk never written stands for a node that has done
        nothing worth saving. */
    ghost predicate Synced()
      reads this, storage
    {
      match storage.saved
      case Some(st) => st == Current()
      case None => Current() == DurableState(0, "", [LogEntry(0, 0, Empty, None)], None, basePeers)
    }

    /** A node starts from its disk, or afresh if the disk was never written. `history` is the
        full log behind the saved one. */
    constructor (id: Id, threshold: nat, peers: Config, join: bool, storage: Storage, store: KeyValue, ghost history: Log)
      requires store.data == map[]
      requires match storage.saved
               case Some(st) => Represents(st.log, history) && (st.snapshot == None ==> st.log[0].index == 0)
               case None => true
      modifies store
      ensures Valid() && this.id == id && this.threshold == threshold && this.storage == storage && this.store == store
      ensures match storage.saved
              case None => State() == Boot(id, threshold, join, peers)
              case Some(st) => State() == Recover(id, threshold, join, Loaded(st, history, peers))
      ensures match storage.saved
              case None => log == [LogEntry(0, 0, Empty, None)] && snapshot == None
              case Some(st) => log == st.log && snapshot == st.snapshot
      ensures (storage.saved.Some? ==> |storage.saved.value.snapshotPeers| > 0) ==> Synced()
    {
      this.id, this.threshold, this.storage, this.store := id, threshold, storage, store;
      state, leaderID, votesReceived, nextIndex, matchIndex := Follower, "", {}, map[], map[];
      currentTerm, votedFor, log, full, snapshot := 0, "", [LogEntry(0, 0, Empty, None)], [DUMMY], None;
      commitIndex, lastApplied := 0, 0;
      basePeers, peerAddrs, joining := peers, peers, join;
      var saved := storage.Load();
      if saved.Some? {
        var st := saved.value;
        currentTerm, votedFor, log, full, snapshot := st.currentTerm, st.votedFor, st.log, history, st.snapshot;
        var base := if |st.snapshotPeers| > 0 then st.snapshotPeers else peers;
        if st.snapshot.Some? {
          commitIndex, lastApplied := st.log[0].index, st.log[0].index;
          store.Restore(st.snapshot.value);
        }
        var current := FoldLog(base, st.log, history);
        basePeers, peerAddrs := base, current;
        if |current| > 1 {
          joining := false;
        }
      }
    }

    // -------------------------------------------------------------- reading the log

    function LastLogIndex(): (r: nat)
      reads this
      requires Valid()
      ensures r == LastIndex(full)
    {
      StoredAt(log, full, |log| - 1);
      log[|log| - 1].index
    }

    function LastLogTerm(): (r: nat)
      reads this
      requires Valid()
      ensures r == LastTerm(full)
    {
      StoredAt(log, full, |log| - 1);
      log[|log| - 1].term
    }

    function LastIncludedIndex(): nat
      reads this
      requires Valid()
    {
      log[0].index
    }

    /** Above the snapshot, compacting the log cannot be told from keeping all of it. */
    function EntryAt(index: nat): (r: Option<LogEntry>)
      reads this
      requires Valid()
      ensures r.Some? <==> log[0].index <= index < |full|
      ensures r.Some? ==> r.value.term == full[index].term && r.value.index == index
      ensures r.Some? ==> if index > log[0].index then r.value.Bare() == full[index] else r.value.change.None?
    {
      if index < log[0].index || index - log[0].index >= |log| then None
      else
        StoredAt(log, full, index - log[0].index);
        Some(log[index - log[0].index])
    }

    // -------------------------------------------------------------- disk

    method Persist()
      modifies storage
      ensures storage.saved == Some(Current())
    {
      storage.Save(Current());
    }

    // -------------------------------------------------------------- membership

    method RebuildMembership()
      requires Represents(log, full)
      modifies this`peerAddrs
      ensures peerAddrs == FoldConfig(basePeers, full, log[0].index, LastIndex(full))
    {
      peerAddrs := FoldLog(basePeers, log, full);
    }

    method MembershipAt(index: nat) returns (peers: Config)
      requires Valid() && log[0].index <= index < |full|
      ensures peers == FoldConfig(basePeers, full, log[0].index, index)
    {
      peers := basePeers;
      var i := 1;
      assert Open(log, true);
      while i < |log| && log[i].index <= index
        invariant 1 <= i <= |log| && log[0].index + i - 1 <= index
        invariant peers == FoldConfig(basePeers, full, log[0].index, log[0].index + i - 1)
      {
        StoredAt(log, full, i);
        peers := ApplyOne(peers, log[i]);
        i := i + 1;
      }
    }

    // -------------------------------------------------------------- roles

    method BecomeFollower(term: nat, leader: Id)
      requires Valid()
      modifies this`currentTerm, this`votedFor, this`state, this`leaderID, storage
      ensures Valid() && State() == NodeSpec.BecomeFollower(old(State()), term, leader)
      ensures old(Synced()) ==> Synced()
    {
      if term > currentTerm {
        currentTerm, votedFor := term, "";
        Persist();
      }
      state, leaderID := Follower, leader;
    }

    // -------------------------------------------------------------- committing and applying

    /** How many members are known to hold `index`. */
    method CountHolders(index: nat) returns (count: nat)
      requires Valid()
      ensures count == |Holders(State(), index)|
    {
      count := 0;
      var rest := peerAddrs.Keys;
      ghost var held: set<Id> := {};
      while rest != {}
        invariant rest <= peerAddrs.Keys
        invariant held == (set p | p in peerAddrs.Keys - rest && Lookup(matchIndex, p) >= index)
        invariant count == |held|
        decreases rest
      {
        var p :| p in rest;
        if Lookup(matchIndex, p) >= index {
          count := count + 1;
          held := held + {p};
        }
        rest := rest - {p};
      }
      assert held == Holders(State(), index);
    }

    method AdvanceCommit()
      requires Valid()
      modifies this`commitIndex
      ensures Valid() && State() == NodeSpec.AdvanceCommit(old(State()))
    {
      ghost var n := State();
      var index: nat := LastLogIndex();
      while index > commitIndex
        invariant Valid() && State() == n && index <= LastIndex(full)
        invariant BestCommit(n, LastIndex(full)) == BestCommit(n, index)
      {
        var e := EntryAt(index);
        if e.Some? && e.value.term == currentTerm {
          var count := CountHolders(index);
          if count >= MajoritySize(peerAddrs.Keys) {
            commitIndex := index;
            return;
          }
        }
        index := index - 1;
      }
    }

    method CatchUp()
      requires Valid()
      modifies this`lastApplied, store
      ensures Valid() && State() == Catchup(old(State()))
    {
      ghost var n := State();
      while lastApplied < commitIndex
        invariant Valid() && n.applied <= lastApplied <= ApplyTarget(n)
        invariant store.data == ReplayFrom(n.kv, full, n.applied, lastApplied)
        decreases commitIndex - lastApplied
      {
        var e := EntryAt(lastApplied + 1);
        if e == None {
          break;
        }
        lastApplied := lastApplied + 1;
        if e.value.change == None {
          store.OnApply(e.value.command);
        }
      }
    }

    /** Replace the entries through `index` by a snapshot of the map. */
    method Compact(index: nat)
      requires Valid() && index == lastApplied
      modifies this`log, this`snapshot, this`basePeers, this`peerAddrs, storage
      ensures Valid() && State() == NodeSpec.Compact(old(State()))
      ensures old(Synced()) ==> Synced()
    {
      if index > LastIncludedIndex() {
        var e := EntryAt(index);
        if e.Some? {
          var data := store.Snapshot();
          var peers := MembershipAt(index);
          var suffix := [LogEntry(e.value.term, index, Empty, None)] + log[index - log[0].index + 1..];
          RepresentsCompacted(log, full, index);
          Replace(suffix, data, peers);
        }
      }
    }

    /** Start the log from a snapshot, and save. */
    method Replace(suffix: seq<LogEntry>, data: Store, peers: Config)
      requires Valid() && Represents(suffix, full) && suffix[0].index == lastApplied
      modifies this`log, this`snapshot, this`basePeers, this`peerAddrs, storage
      ensures Valid() && storage.saved == Some(Current())
      ensures State() == Rebuild(old(State()).(snap := suffix[0].index, image := data, base := peers))
    {
      ghost var n := State();
      log, snapshot, basePeers := suffix, Some(data), peers;
      RebuildMembership();
      assert Valid() && State() == Rebuild(n.(snap := suffix[0].index, image := data, base := peers));
      Persist();
    }

    method MaybeCompact()
      requires Valid()
      modifies this`log, this`snapshot, this`basePeers, this`peerAddrs, storage
      ensures Valid() && State() == NodeSpec.MaybeCompact(old(State()))
      ensures old(Synced()) ==> Synced()
    {
      if threshold == 0 || lastApplied - LastIncludedIndex() < threshold {
        return;
      }
      Compact(lastApplied);
    }

    method ApplyCommitted()
      requires Valid()
      modifies this`lastApplied, this`log, this`snapshot, this`basePeers, this`peerAddrs, store, storage
      ensures Valid() && State() == NodeSpec.ApplyCommitted(old(State()))
      ensures old(Synced()) ==> Synced()
    {
      CatchUp();
      MaybeCompact();
    }

    // -------------------------------------------------------------- leading

    /** Append an entry of the leader's own and count the leader's copy. */
    method AppendOwn(command: Command, change: Option<Change>)
      requires Valid()
      modifies this`log, this`full, this`matchIndex, this`nextIndex, storage
      ensures Valid() && State() == LeaderAppend(old(State()), Entry(currentTerm, command, change))
      ensures storage.saved == Some(Current())
    {
      ghost var n := State();
      var index, e := LastLogIndex() + 1, Entry(currentTerm, command, change);
      AppendEntry(e);
      matchIndex, nextIndex := matchIndex[id := index], nextIndex[id := index + 1];
      assert Valid() && State() == LeaderAppend(n, e);
      Persist();
    }

    method BecomeLeader()
      requires Valid()
      modifies this, store, storage
      ensures Valid() && State() == NodeSpec.BecomeLeader(old(State()))
      ensures Synced()
    {
      TakeOffice();
      AppendOwn(Empty, None);
      AdvanceCommit();
      ApplyCommitted();
    }

    method TakeOffice()
      requires Valid()
      modifies this`state, this`leaderID, this`nextIndex, this`matchIndex
      ensures Valid()
      ensures var n := old(State());
              State() == n.(role := Leader, leader := n.id, nextIndex := Uniform(n.peers.Keys, |n.log|),
                            matchIndex := Uniform(n.peers.Keys, 0))
    {
      var last := LastLogIndex();
      var next := Tracking(peerAddrs.Keys, last + 1);
      var none := Tracking(peerAddrs.Keys, 0);
      state, leaderID, nextIndex, matchIndex := Leader, id, next, none;
    }

    method Propose(command: Command) returns (index: Option<nat>)
      requires Valid()
      modifies this, store, storage
      ensures Valid() && (State(), index) == NodeSpec.Propose(old(State()), command)
      ensures old(Synced()) ==> Synced()
    {
      if state != Leader {
        return None;
      }
      index := Some(LastLogIndex() + 1);
      AppendOwn(command, None);
      AdvanceCommit();
      ApplyCommitted();
    }

    // -------------------------------------------------------------- elections

    method StartElection() returns (request: Option<VoteRequest>)
      requires Valid()
      modifies this, store, storage
      ensures Valid() && State() == NodeSpec.StartElection(old(State()))
      ensures old(Synced()) ==> Synced()
      ensures request == if State().role == Candidate && State().term > old(currentTerm) then Some(VoteRequestOf(State())) else None
    {
      request := None;
      if joining || id !in peerAddrs {
        return;
      }
      ghost var n := State();
      state, currentTerm, votedFor, leaderID, votesReceived := Candidate, currentTerm + 1, id, "", {id};
      assert Valid() && State() == Campaigner(n);
      Persist();
      if |votesReceived| >= MajoritySize(peerAddrs.Keys) {
        BecomeLeader();
      } else {
        request := Some(VoteRequest(currentTerm, id, LastLogIndex(), LastLogTerm()));
      }
    }

    method HandleVoteResponse(peer: Id, asked: nat, resp: VoteResponse)
      requires Valid()
      modifies this, store, storage
      ensures Valid() && State() == OnVoteResponse(old(State()), peer, asked, resp)
      ensures old(Synced()) ==> Synced()
    {
      if resp.term > currentTerm {
        BecomeFollower(resp.term, "");
      } else if state == Candidate && currentTerm == asked && resp.granted {
        votesReceived := votesReceived + {peer};
        if |votesReceived| >= MajoritySize(peerAddrs.Keys) {
          BecomeLeader();
        }
      }
    }

    /** Later last term first, then longer log. */
    predicate UpToDate(lastIndex: nat, lastTerm: nat)
      reads this
      requires Valid()
      ensures UpToDate(lastIndex, lastTerm) <==> AtLeastAsUpToDate(lastIndex, lastTerm, full)
    {
      if lastTerm != LastLogTerm() then lastTerm > LastLogTerm() else lastIndex >= LastLogIndex()
    }

    method HandleRequestVote(req: VoteRequest) returns (resp: VoteResponse)
      requires Valid()
      modifies this`currentTerm, this`votedFor, this`state, this`leaderID, storage
      ensures Valid() && (State(), resp) == OnVoteRequest(old(State()), req)
      ensures old(Synced()) ==> Synced()
    {
      if req.term < currentTerm {
        return VoteResponse(currentTerm, false);
      }
      ghost var n := State();
      if req.term > currentTerm {
        BecomeFollower(req.term, "");
      }
      assert State() == NoteTerm(n, req.term);
      resp := VoteResponse(currentTerm, false);
      if (votedFor == "" || votedFor == req.candidate) && UpToDate(req.lastIndex, req.lastTerm) {
        votedFor := req.candidate;
        Persist();
        resp := VoteResponse(currentTerm, true);
      }
    }

    // -------------------------------------------------------------- sending entries

    method MakeAppendRequest(peer: Id) returns (request: Option<AppendRequest>)
      requires Valid()
      modifies this`nextIndex
      ensures Valid() && (State(), request) == MakeAppend(old(State()), peer)
    {
      var next := Lookup(nextIndex, peer);
      if next <= LastIncludedIndex() {
        return None;
      }
      var last := LastLogIndex();
      if next > last + 1 {
        next := last + 1;
        nextIndex := nextIndex[peer := next];
      }
      var prev := EntryAt(next - 1);
      if prev == None {
        return None;
      }
      var start: int := next - log[0].index;
      assert 1 <= start <= |log|;
      if start < 1 {
        start := 1;
      }
      if start > |log| {
        start := |log|;
      }
      var entries := CloneEntries(log[start..]);
      SuffixIsBare(log, full, start);
      return Some(AppendRequest(currentTerm, id, next - 1, prev.value.term, entries, commitIndex));
    }

    method HandleAppendResponse(peer: Id, req: AppendRequest, resp: AppendResponse)
      requires Valid()
      modifies this, store, storage
      ensures Valid() && State() == OnAppendResponse(old(State()), peer, req, resp)
      ensures old(Synced()) ==> Synced()
    {
      if state != Leader || currentTerm != req.term {
        return;
      }
      if resp.term > currentTerm {
        BecomeFollower(resp.term, "");
      } else if resp.success {
        CountCopy(peer, req.prevIndex + |req.entries|);
      } else {
        var next, snap := Lookup(nextIndex, peer), LastIncludedIndex();
        if next > snap + 1 {
          nextIndex := nextIndex[peer := next - 1];
        } else if snap > 0 {
          nextIndex := nextIndex[peer := snap];
        } else if next > 1 {
          assert false;
        }
      }
    }

    /** The peer is known to hold everything through `index`. */
    method CountCopy(peer: Id, index: nat)
      requires Valid()
      modifies this, store, storage
      ensures Valid() && State() == CountMatch(old(State()), peer, index)
      ensures old(Synced()) ==> Synced()
    {
      matchIndex, nextIndex := matchIndex[peer := index], nextIndex[peer := index + 1];
      AdvanceCommit();
      ApplyCommitted();
    }

    // -------------------------------------------------------------- receiving entries

    method Follow(term: nat, leader: Id)
      requires Valid() && term >= currentTerm
      modifies this`currentTerm, this`votedFor, this`state, this`leaderID, this`joining, storage
      ensures Valid() && State() == Heard(old(State()), term, leader)
      ensures old(Synced()) ==> Synced()
    {
      if term > currentTerm || state != Follower {
        BecomeFollower(term, leader);
      }
      leaderID, joining := leader, false;
    }

    /** Append entries that the log does not hold. */
    method AppendEntries(entries: seq<Entry>)
      requires Represents(log, full)
      modifies this`log, this`full
      ensures Represents(log, full) && full == old(full) + entries && log[0] == old(log[0])
    {
      var i := 0;
      while i < |entries|
        invariant 0 <= i <= |entries|
        invariant Represents(log, full) && full == old(full) + entries[..i] && log[0] == old(log[0])
      {
        var e := entries[i];
        RepresentsAppended(log, full, [e]);
        var index := log[0].index + |log|;
        assert Indexed([e], |full|) == [LogEntry(e.term, index, e.command, e.change)];
        log, full := log + [LogEntry(e.term, index, e.command, e.change)], full + [e];
        assert entries[..i + 1] == entries[..i] + [e];
        i := i + 1;
      }
      assert entries[..i] == entries;
    }

    /** Keep what agrees with the entries from `at` on, cut the log at the first that does not,
        and append the rest. */
    method MergeEntries(at: nat, entries: seq<Entry>) returns (dirty: bool)
      requires Represents(log, full) && log[0].index < at <= |full|
      modifies this`log, this`full
      ensures Represents(log, full) && full == Merge(old(full), at, entries) && log[0] == old(log[0])
      ensures dirty <==> full != old(full)
      ensures !dirty ==> log == old(log)
    {
      var i := 0;
      while i < |entries|
        invariant 0 <= i <= |entries|
        invariant Represents(log, full) && full == old(full) && log == old(log)
        invariant at + i <= |full|
        invariant Merge(full, at, entries) == Merge(full, at + i, entries[i..])
      {
        var index, e := at + i, entries[i];
        if index < |full| {
          StoredAt(log, full, index - log[0].index);
        }
        assert index - log[0].index < |log| <==> index < |full|;
        if index - log[0].index < |log| {
          if log[index - log[0].index].term != e.term {
            RepresentsTruncated(log, full, index);
            var si: int := index - log[0].index;
            assert si >= 1;
            if si < 1 {
              si := 1;
            }
            log, full := log[..si], full[..index];
            AppendEntries(entries[i..]);
            return true;
          }
          assert entries[i..][1..] == entries[i + 1..];
        } else {
          assert full[..index] == full;
          AppendEntries(entries[i..]);
          return true;
        }
        i := i + 1;
      }
      return false;
    }

    method HandleAppendEntries(req: AppendRequest) returns (resp: AppendResponse)
      requires Valid()
      modifies this, store, storage
      ensures Valid() && (State(), resp) == OnAppend(old(State()), req)
      ensures old(Synced()) ==> Synced()
    {
      if req.term < currentTerm {
        return AppendResponse(currentTerm, false);
      }
      Follow(req.term, req.leader);
      if req.prevIndex < LastIncludedIndex() {
        return AppendResponse(currentTerm, false);
      }
      var prev := EntryAt(req.prevIndex);
      if prev == None || prev.value.term != req.prevTerm {
        return AppendResponse(currentTerm, false);
      }
      Receive(req);
      TakeCommitIndex(req.commit);
      return AppendResponse(currentTerm, true);
    }

    method Receive(req: AppendRequest)
      requires Valid() && PrevMatches(State(), req)
      modifies this`log, this`full, this`peerAddrs, storage
      ensures Valid() && State() == TakeEntries(old(State()), req)
      ensures old(Synced()) ==> Synced()
    {
      var dirty := MergeEntries(req.prevIndex + 1, req.entries);
      if dirty {
        RebuildMembership();
        assert Valid() && State() == TakeEntries(old(State()), req);
        Persist();
      }
    }

    method TakeCommitIndex(commit: nat)
      requires Valid()
      modifies this, store, storage
      ensures Valid() && State() == TakeCommit(old(State()), commit)
      ensures old(Synced()) ==> Synced()
    {
      if commit > commitIndex {
        var last := LastLogIndex();
        commitIndex := commit;
        if commitIndex > last {
          commitIndex := last;
        }
        ApplyCommitted();
      }
    }

    // -------------------------------------------------------------- snapshots

    method InstallSnapshotRequest() returns (req: SnapshotRequest)
      requires Valid()
      ensures req == MakeSnapshot(State())
    {
      StoredAt(log, full, 0);
      req := SnapshotRequest(currentTerm, id, log[0].index, log[0].term, ImageOf(snapshot), basePeers);
    }

    /** `prefix` is the log that the leader's snapshot stands for. */
    method HandleInstallSnapshot(req: SnapshotRequest, ghost prefix: Log) returns (resp: SnapshotResponse)
      requires Valid() && |prefix| == req.lastIndex + 1 && prefix[req.lastIndex].term == req.lastTerm
      modifies this, store, storage
      ensures Valid() && (State(), resp) == OnSnapshot(old(State()), req, prefix)
      ensures old(Synced()) ==> Synced()
    {
      if req.term < currentTerm {
        return SnapshotResponse(currentTerm);
      }
      Follow(req.term, req.leader);
      resp := SnapshotResponse(currentTerm);
      if req.lastIndex > LastIncludedIndex() {
        Install(req, prefix);
      }
    }

    method Install(req: SnapshotRequest, ghost prefix: Log)
      requires Valid() && |prefix| == req.lastIndex + 1 && prefix[req.lastIndex].term == req.lastTerm
      modifies this, store, storage
      ensures Valid() && State() == Installed(old(State()), req, prefix)
      ensures storage.saved == Some(Current())
    {
      ghost var n := State();
      Overwrite(req, prefix);
      if |req.peers| > 0 {
        basePeers := req.peers;
        RebuildMembership();
      }
      assert Valid() && State() == Installed(n, req, prefix);
      Persist();
    }

    /** Forget the whole log, and the map, in favour of the snapshot. */
    method Overwrite(req: SnapshotRequest, ghost prefix: Log)
      requires Valid() && |prefix| == req.lastIndex + 1 && prefix[req.lastIndex].term == req.lastTerm
      modifies this`log, this`full, this`snapshot, this`lastApplied, this`commitIndex, store
      ensures Valid() && log[0].index == req.lastIndex && full == prefix && snapshot == Some(req.data) && store.data == req.data
      ensures lastApplied == req.lastIndex && commitIndex == Max(old(commitIndex), req.lastIndex)
    {
      log, full, snapshot := [LogEntry(req.lastTerm, req.lastIndex, Empty, None)], prefix, Some(req.data);
      lastApplied := req.lastIndex;
      if commitIndex < req.lastIndex {
        commitIndex := req.lastIndex;
      }
      store.Restore(req.data);
    }

    method HandleSnapshotResponse(peer: Id, req: SnapshotRequest, resp: SnapshotResponse)
      requires Valid()
      modifies this, store, storage
      ensures Valid() && State() == OnSnapshotResponse(old(State()), peer, req, resp)
      ensures old(Synced()) ==> Synced()
    {
      if state != Leader || currentTerm != req.term {
        return;
      }
      if resp.term > currentTerm {
        BecomeFollower(resp.term, "");
      } else {
        CountCopy(peer, req.lastIndex);
      }
    }

    // -------------------------------------------------------------- membership changes

    method HasUncommittedConfig() returns (found: bool)
      requires Valid()
      ensures found <==> HasUncommitted(State())
    {
      var index, last := commitIndex + 1, LastLogIndex();
      while index <= last
        invariant commitIndex < index
        invariant forall i :: commitIndex < i < index && log[0].index < i < |full| ==> !ChangesAt(full, i)
        decreases last + 1 - index
      {
        var e := EntryAt(index);
        if e.Some? && e.value.change.Some? {
          assert ChangesAt(full, index);
          return true;
        }
        index := index + 1;
      }
      return false;
    }

    method TrackPeers()
      requires Valid()
      modifies this`nextIndex, this`matchIndex
      ensures Valid() && State() == Tracked(old(State()))
    {
      var last, snap := LastLogIndex(), LastIncludedIndex();
      var next, matched := EnsureTracked(nextIndex, matchIndex, peerAddrs.Keys, if snap > 0 then snap else last + 1);
      nextIndex, matchIndex := next[id := last + 1], matched[id := last];
    }

    method AppendChange(change: Change)
      requires Valid()
      modifies this`log, this`full, this`peerAddrs
      ensures Valid() && State() == Rebuild(old(State()).(log := old(full) + [Entry(currentTerm, Empty, Some(change))]))
    {
      var e := Entry(currentTerm, Empty, Some(change));
      AppendEntry(e);
      RebuildMembership();
    }

    method AppendEntry(e: Entry)
      requires Valid()
      modifies this`log, this`full
      ensures Valid() && State() == old(State()).(log := old(full) + [e]) && log[0] == old(log[0])
    {
      var index := LastLogIndex() + 1;
      RepresentsAppended(log, full, [e]);
      assert Indexed([e], |full|) == [LogEntry(e.term, index, e.command, e.change)];
      log, full := log + [LogEntry(e.term, index, e.command, e.change)], full + [e];
    }

    method CheckProposal(kind: ChangeKind, peer: Id) returns (r: Result<()>)
      requires Valid()
      ensures r == CheckChange(State(), kind, peer)
    {
      if state != Leader {
        return Err(NotLeader);
      }
      var busy := HasUncommittedConfig();
      if busy {
        return Err(InProgress);
      }
      match kind {
        case AddPeer =>
          if peer in peerAddrs {
            return Err(AlreadyMember);
          }
        case RemovePeer =>
          if peer !in peerAddrs {
            return Err(NotMember);
          }
          if peer == id {
            return Err(RemovesLeader);
          }
          if |peerAddrs| <= 1 {
            return Err(LastMember);
          }
      }
      return Ok(());
    }

    method ProposeChange(kind: ChangeKind, peer: Id, addr: string) returns (r: Result<nat>)
      requires Valid()
      modifies this, store, storage
      ensures Valid()
      ensures State() == if CheckChange(old(State()), kind, peer).Ok? then Accept(old(State()), kind, peer, addr) else old(State())
      ensures r.Ok? == CheckChange(old(State()), kind, peer).Ok?
      ensures r.Ok? ==> r.value == |old(full)|
      ensures r.Err? ==> r.error == CheckChange(old(State()), kind, peer).error
      ensures old(Synced()) ==> Synced()
    {
      var checked := CheckProposal(kind, peer);
      if checked.Err? {
        r := Err(checked.error);
      } else {
        r := Ok(LastLogIndex() + 1);
        Amend(Change(kind, peer, addr, Delta(peerAddrs, kind, peer, addr)));
      }
    }

    /** Put a checked change in force. */
    method Amend(change: Change)
      requires Valid() && change.peers == Delta(peerAddrs, change.kind, change.id, change.addr)
      modifies this, store, storage
      ensures Valid() && Synced()
      ensures State() == Accept(old(State()), change.kind, change.id, change.addr)
    {
      AppendChange(change);
      TrackPeers();
      Persist();
      AdvanceCommit();
      ApplyCommitted();
    }
  }

  method EnsureTracked(next: map<Id, nat>, matched: map<Id, nat>, members: set<Id>, start: nat)
    returns (next': map<Id, nat>, matched': map<Id, nat>)
    ensures next' == TrackNext(next, members, start) && matched' == TrackMatch(next, matched, members)
  {
    next', matched' := next, matched;
    var rest := members;
    while rest != {}
      invariant rest <= members
      invariant next' == TrackNext(next, members - rest, start) && matched' == TrackMatch(next, matched, members - rest)
      decreases rest
    {
      var p :| p in rest;
      TrackOne(next, matched, members - rest, p, start);
      if p !in next {
        next', matched' := next'[p := start], matched'[p := 0];
      }
      assert members - (rest - {p}) == (members - rest) + {p};
      rest := rest - {p};
    }
    assert members - rest == members;
  }

  lemma TrackOne(next: map<Id, nat>, matched: map<Id, nat>, done: set<Id>, p: Id, start: nat)
    requires p !in done
    ensures TrackNext(next, done + {p}, start) ==
            if p in next then TrackNext(next, done, start) else TrackNext(next, done, start)[p := start]
    ensures TrackMatch(next, matched, done + {p}) ==
            if p in next then TrackMatch(next, matched, done) else TrackMatch(next, matched, done)[p := 0]
  {
  }

  /** A node started again from its disk is the crashed node restarted, unless the disk holds no
      configuration; then it falls back on the one it is started with. */
  method Reboot(crashed: RaftNode, peers: Config, join: bool) returns (node: RaftNode)
    requires crashed.Valid() && crashed.Synced()
    ensures fresh(node) && node.Valid() && node.storage == crashed.storage
    ensures node.currentTerm == crashed.currentTerm && node.votedFor == crashed.votedFor
    ensures node.log == crashed.log && node.snapshot == crashed.snapshot
    ensures crashed.storage.saved.None? ==> node.State() == Boot(crashed.id, crashed.threshold, join, peers)
    ensures crashed.storage.saved.Some? && |crashed.basePeers| > 0 ==> node.State() == Restart(crashed.State(), join) && node.Synced()
    ensures crashed.storage.saved.Some? && |crashed.basePeers| == 0 ==>
              node.State() == Recover(crashed.id, crashed.threshold, join, Persisted(crashed.State()).(base := peers))
  {
    var store := new KeyValue();
    node := new RaftNode(crashed.id, crashed.threshold, peers, join, crashed.storage, store, crashed.full);
    assert crashed.storage.saved.Some? && |crashed.basePeers| > 0 ==>
        Loaded(crashed.Current(), crashed.full, peers) == Persisted(crashed.State());
  }

  function Bares(entries: seq<LogEntry>): seq<Entry> {
    seq(|entries|, i requires 0 <= i < |entries| => entries[i].Bare())
  }

  lemma SuffixIsBare(log: seq<LogEntry>, full: Log, start: nat)
    requires Represents(log, full) && 1 <= start <= |log|
    ensures Bares(log[start..]) == full[log[0].index + start..]
  {
    assert Open(log, true);
  }

  method CloneEntries(entries: seq<LogEntry>) returns (copy: seq<Entry>)
    ensures copy == Bares(entries)
  {
    copy := [];
    var i := 0;
    while i < |entries|
      invariant 0 <= i <= |entries| && |copy| == i
      invariant forall k :: 0 <= k < i ==> copy[k] == entries[k].Bare()
    {
      copy := copy + [entries[i].Bare()];
      i := i + 1;
    }
  }

  /** A fresh index for every member. */
  method Tracking(members: set<Id>, value: nat) returns (m: map<Id, nat>)
    ensures m == Uniform(members, value)
  {
    m := map[];
    var rest := members;
    while rest != {}
      invariant rest <= members
      invariant m == Uniform(members - rest, value)
      decreases rest
    {
      var p :| p in rest;
      m := m[p := value];
      rest := rest - {p};
    }
  }
}
