/** What a node must do, for every node and every request: votes it has to grant, elections it
    wins, replies it steps down on, entries it commits, applies and compacts. Safety would also
    hold of a node that did none of it. */
module Duties {
  import opened RaftTypes
  import opened Quorums
  import opened Logs
  import opened NodeSpec
  import opened NodeFacts
  import opened Membership

  // ---------------------------------------------------------------- the voting order

  /** `a` is at least as up to date as `b`. */
  predicate NoOlder(a: Log, b: Log)
    requires |a| > 0 && |b| > 0
  {
    AtLeastAsUpToDate(LastIndex(a), LastTerm(a), b)
  }

  /** The order is total: of two nodes one can always vote for the other. A later last term wins
      whatever the lengths, and among equal last terms the longer log wins. */
  lemma VotingOrder(a: Log, b: Log)
    requires |a| > 0 && |b| > 0
    ensures NoOlder(a, b) || NoOlder(b, a)
    ensures LastTerm(a) > LastTerm(b) ==> NoOlder(a, b) && !NoOlder(b, a)
    ensures LastTerm(a) == LastTerm(b) ==> (NoOlder(a, b) <==> |a| >= |b|)
  {
  }

  lemma VotingOrderIsTransitive(a: Log, b: Log, c: Log)
    requires |a| > 0 && |b| > 0 && |c| > 0 && NoOlder(a, b) && NoOlder(b, c)
    ensures NoOlder(a, c)
  {
  }

  ghost predicate Electable(nodes: map<Id, Node>, some: set<Id>, v: Id)
    requires forall w :: w in nodes ==> |nodes[w].log| > 0
  {
    v in some && v in nodes && forall w :: w in some && w in nodes ==> NoOlder(nodes[v].log, nodes[w].log)
  }

  /** Whatever their logs, some node is at least as up to date as all. */
  lemma {:induction false} SomeoneIsElectable(nodes: map<Id, Node>, some: set<Id>) returns (v: Id)
    requires some != {} && some <= nodes.Keys && forall w :: w in nodes ==> |nodes[w].log| > 0
    ensures Electable(nodes, some, v)
    decreases |some|
  {
    var u :| u in some;
    v := u;
    if some - {u} != {} {
      v := SomeoneIsElectable(nodes, some - {u});
      VotingOrder(nodes[u].log, nodes[v].log);
      if !NoOlder(nodes[v].log, nodes[u].log) {
        forall w | w in some
          ensures NoOlder(nodes[u].log, nodes[w].log)
        {
          if w == u {
            VotingOrder(nodes[u].log, nodes[u].log);
          } else {
            VotingOrderIsTransitive(nodes[u].log, nodes[v].log, nodes[w].log);
          }
        }
        v := u;
      }
    } else {
      assert some == {u};
      VotingOrder(nodes[u].log, nodes[u].log);
    }
  }

  // ---------------------------------------------------------------- votes

  /** A vote is granted exactly to a candidate of the node's or a later term that is at least as
      up to date, if the node has not voted for another in that term. The node is then in that
      term and has voted for it; nothing but term, vote and role ever changes. */
  lemma VoteGrantedIff(n: Node, req: VoteRequest)
    requires |n.log| > 0
    ensures
      var (n', resp) := OnVoteRequest(n, req);
      && (resp.granted <==> req.term >= n.term && AtLeastAsUpToDate(req.lastIndex, req.lastTerm, n.log)
                            && (req.term > n.term || n.vote == "" || n.vote == req.candidate))
      && resp.term == n'.term == Max(n.term, req.term)
      && (resp.granted ==> n'.vote == req.candidate)
      && (!resp.granted ==> n'.vote == if req.term > n.term then "" else n.vote)
      && (req.term > n.term ==> n'.role == Follower && n'.leader == "")
      && (req.term <= n.term ==> n' == n.(vote := n'.vote))
      && n' == n.(term := n'.term, vote := n'.vote, role := n'.role, leader := n'.leader)
  {
  }

  /** A repeated request is answered as before, so a lost reply costs nothing. */
  lemma VoteIsRepeatable(n: Node, req: VoteRequest)
    requires |n.log| > 0 && OnVoteRequest(n, req).1.granted
    ensures OnVoteRequest(OnVoteRequest(n, req).0, req) == OnVoteRequest(n, req)
  {
  }

  /** A candidate asks for what it is: whoever is in an earlier term grants its vote exactly if
      the candidate's log is no older. */
  lemma CandidateIsHeard(cand: Node, n: Node)
    requires |cand.log| > 0 && |n.log| > 0 && n.term < cand.term
    ensures VoteRequestOf(cand).term == cand.term && VoteRequestOf(cand).candidate == cand.id
    ensures OnVoteRequest(n, VoteRequestOf(cand)).1.granted <==> NoOlder(cand.log, n.log)
  {
  }

  /** So there always is a node that, campaigning in a term later than everyone's, gets the vote
      of every member. */
  lemma SomeoneGetsAllVotes(nodes: map<Id, Node>) returns (v: Id)
    requires nodes != map[] && forall w :: w in nodes ==> |nodes[w].log| > 0
    ensures v in nodes
    ensures forall w, t: nat :: w in nodes && nodes[w].term < t ==>
              OnVoteRequest(nodes[w], VoteRequestOf(nodes[v].(term := t))).1.granted
  {
    assert nodes.Keys != {};
    v := SomeoneIsElectable(nodes, nodes.Keys);
    forall w, t: nat | w in nodes && nodes[w].term < t
      ensures OnVoteRequest(nodes[w], VoteRequestOf(nodes[v].(term := t))).1.granted
    {
      CandidateIsHeard(nodes[v].(term := t), nodes[w]);
    }
  }

  // ---------------------------------------------------------------- campaigns

  lemma FinishKeepsFrame(n: Node)
    requires |n.log| > 0
    ensures
      var n' := ApplyCommitted(AdvanceCommit(n));
      && n'.id == n.id && n'.role == n.role && n'.term == n.term && n'.vote == n.vote && n'.log == n.log && n'.votes == n.votes
      && n'.nextIndex == n.nextIndex && n'.matchIndex == n.matchIndex && n'.leader == n.leader && n'.joining == n.joining
      && n'.commit == BestCommit(n, LastIndex(n.log)) && n'.snap >= n.snap && n'.applied >= n.applied
      && (n.snap <= n.applied ==> n'.snap <= n'.applied)
  {
  }

  /** A new leader appends a no-op of its term, offers its peers that entry first and has counted
      only itself. */
  predicate Begins(n: Node, n': Node)
    requires |n.log| > 0
  {
    && n'.role == Leader && n'.leader == n.id && n'.term == n.term && n'.vote == n.vote
    && n'.log == n.log + [NoOp(n.term)]
    && forall p :: p in n.peers ==>
         && Lookup(n'.nextIndex, p) == (if p == n.id then |n.log| + 1 else |n.log|)
         && Lookup(n'.matchIndex, p) == (if p == n.id then |n.log| else 0)
  }

  lemma LeaderBegins(n: Node)
    requires |n.log| > 0
    ensures Begins(n, BecomeLeader(n))
  {
    FinishKeepsFrame(Crowned(n));
  }

  /** A member that is not joining and times out stands in the next term and votes for itself; in
      a cluster of one it leads at once. Others stay as they are. */
  lemma CampaignDuty(n: Node)
    requires |n.log| > 0
    ensures
      var n' := StartElection(n);
      if n.joining || n.id !in n.peers then n' == n
      else
        && n'.term == n.term + 1 && n'.vote == n.id && n'.votes == {n.id}
        && (if |n.peers| == 1 then Begins(n.(term := n.term + 1, vote := n.id), n')
            else n'.role == Candidate && n'.leader == "" && n'.log == n.log)
  {
    if !n.joining && n.id in n.peers {
      SubsetSize({n.id}, n.peers.Keys);
      Campaigns(n);
    }
  }

  lemma Campaigns(n: Node)
    requires |n.log| > 0 && !n.joining && n.id in n.peers
    ensures
      var n' := StartElection(n);
      && n'.term == n.term + 1 && n'.vote == n.id && n'.votes == {n.id}
      && (if 2 > |n.peers| then Begins(n.(term := n.term + 1, vote := n.id), n')
          else n'.role == Candidate && n'.leader == "" && n'.log == n.log)
  {
    var cand := Campaigner(n);
    if 2 > |n.peers| {
      assert StartElection(n) == BecomeLeader(cand);
      FinishKeepsFrame(Crowned(cand));
      LeaderBegins(cand);
      BeginsLike(cand, n.(term := n.term + 1, vote := n.id), BecomeLeader(cand));
    }
  }

  lemma BeginsLike(n: Node, m: Node, n': Node)
    requires |n.log| > 0 && Begins(n, n') && m.id == n.id && m.term == n.term && m.vote == n.vote && m.log == n.log && m.peers == n.peers
    ensures Begins(m, n')
  {
  }

  /** A vote is counted once, and the candidate leads exactly when more than half have voted. */
  lemma VoteIsCounted(n: Node, from: Id, resp: VoteResponse)
    requires |n.log| > 0 && n.role == Candidate && resp.granted && resp.term <= n.term
    ensures
      var n' := OnVoteResponse(n, from, n.term, resp);
      && n'.votes == n.votes + {from} && n'.term == n.term && n'.vote == n.vote
      && (2 * |n'.votes| > |n.peers| ==> Begins(n, n'))
      && (2 * |n'.votes| <= |n.peers| ==> n' == n.(votes := n'.votes))
  {
    LeaderBegins(n.(votes := n.votes + {from}));
    FinishKeepsFrame(Crowned(n.(votes := n.votes + {from})));
  }

  /** Any other answer of a term not later changes nothing. */
  lemma OtherVotesAreIgnored(n: Node, from: Id, asked: nat, resp: VoteResponse)
    requires |n.log| > 0 && resp.term <= n.term && (n.role != Candidate || asked != n.term || !resp.granted)
    ensures OnVoteResponse(n, from, asked, resp) == n
  {
  }

  // ---------------------------------------------------------------- stepping down

  /** The node has learnt of term `t`: it follows nobody yet, in that term, and has no vote. */
  predicate SteppedDown(n: Node, n': Node, t: nat) {
    n' == n.(term := t, vote := "", role := Follower, leader := "")
  }

  /** Every reply of a later term deposes; replies to replication calls only a node that still
      leads in the call's term, for others ignore them. */
  lemma LaterRepliesDepose(n: Node, from: Id, asked: nat, vote: VoteResponse, req: AppendRequest, resp: AppendResponse,
                           image: SnapshotRequest, installed: SnapshotResponse)
    requires |n.log| > 0
    ensures vote.term > n.term ==> SteppedDown(n, OnVoteResponse(n, from, asked, vote), vote.term)
    ensures resp.term > n.term ==> SteppedDown(n, OnProbeResponse(n, resp), resp.term)
    ensures n.role == Leader && n.term == req.term && resp.term > n.term ==>
              SteppedDown(n, OnAppendResponse(n, from, req, resp), resp.term)
    ensures n.role == Leader && n.term == image.term && installed.term > n.term ==>
              SteppedDown(n, OnSnapshotResponse(n, from, image, installed), installed.term)
    ensures n.role != Leader || n.term != req.term ==> OnAppendResponse(n, from, req, resp) == n
    ensures n.role != Leader || n.term != image.term ==> OnSnapshotResponse(n, from, image, installed) == n
    ensures resp.term <= n.term ==> OnProbeResponse(n, resp) == n
  {
  }

  // ---------------------------------------------------------------- committing

  /** The members that hold `i`, once `p` is known to hold everything through `m`. */
  function HoldersThen(n: Node, p: Id, m: nat, i: nat): set<Id> {
    set q | q in n.peers && (if q == p then m >= i else Lookup(n.matchIndex, q) >= i)
  }

  /** The leader has learnt that `p` holds everything through `m`: its next request to `p` starts
      after that, every entry of its term that more than half then hold is committed, and the
      commit index moves to no other. */
  ghost predicate Learns(n: Node, p: Id, m: nat, n': Node) { Notes(n, p, m, n') && Chooses(n, p, m, n') }

  ghost predicate Notes(n: Node, p: Id, m: nat, n': Node) {
    && n'.role == n.role && n'.term == n.term && n'.vote == n.vote && n'.log == n.log
    && Lookup(n'.matchIndex, p) == m && Lookup(n'.nextIndex, p) == m + 1
    && forall q :: q != p ==> Lookup(n'.matchIndex, q) == Lookup(n.matchIndex, q) && Lookup(n'.nextIndex, q) == Lookup(n.nextIndex, q)
  }

  ghost predicate Chooses(n: Node, p: Id, m: nat, n': Node) {
    && (forall i :: n.snap <= i < |n.log| && n.log[i].term == n.term && 2 * |HoldersThen(n, p, m, i)| > |n.peers| ==> n'.commit >= i)
    && (n'.commit == n.commit ||
        (n.commit < n'.commit < |n.log| && n.log[n'.commit].term == n.term && 2 * |HoldersThen(n, p, m, n'.commit)| > |n.peers|))
  }

  lemma CountTeaches(n: Node, p: Id, m: nat)
    requires |n.log| > 0
    ensures Learns(n, p, m, CountMatch(n, p, m))
  {
    CountNotes(n, p, m);
    CountChooses(n, p, m);
  }

  lemma CountNotes(n: Node, p: Id, m: nat)
    requires |n.log| > 0
    ensures Notes(n, p, m, CountMatch(n, p, m))
  {
    FinishKeepsFrame(n.(matchIndex := n.matchIndex[p := m], nextIndex := n.nextIndex[p := m + 1]));
  }

  lemma CountChooses(n: Node, p: Id, m: nat)
    requires |n.log| > 0
    ensures Chooses(n, p, m, CountMatch(n, p, m))
  {
    var n1 := n.(matchIndex := n.matchIndex[p := m], nextIndex := n.nextIndex[p := m + 1]);
    FinishKeepsFrame(n1);
    ChoosesLike(n, n1, p, m, CountMatch(n, p, m));
  }

  lemma ChoosesLike(n: Node, n1: Node, p: Id, m: nat, n': Node)
    requires |n.log| > 0 && n1.log == n.log && n1.peers == n.peers && n1.term == n.term && n1.snap == n.snap && n1.commit == n.commit
    requires n1.matchIndex == n.matchIndex[p := m] && n'.commit == BestCommit(n1, LastIndex(n.log))
    ensures Chooses(n, p, m, n')
  {
    BestCommitIsGreatest(n1, LastIndex(n.log));
    forall i: nat | i < |n.log|
      ensures Committable(n1, i) <==> n.snap <= i && n.log[i].term == n.term && 2 * |HoldersThen(n, p, m, i)| > |n.peers|
    {
      HoldersLike(n, n1, p, m, i);
    }
  }

  lemma HoldersLike(n: Node, n1: Node, p: Id, m: nat, i: nat)
    requires n1.peers == n.peers && n1.matchIndex == n.matchIndex[p := m]
    ensures HoldersThen(n, p, m, i) == Holders(n1, i)
  {
  }

  /** What a leader learns from a success: the peer holds all that the request reached. */
  lemma SuccessIsCounted(n: Node, p: Id, req: AppendRequest, resp: AppendResponse)
    requires |n.log| > 0 && n.role == Leader && n.term == req.term && resp.term <= n.term && resp.success
    ensures Learns(n, p, req.prevIndex + |req.entries|, OnAppendResponse(n, p, req, resp))
  {
    SuccessCounts(n, p, req, resp);
    CountTeaches(n, p, req.prevIndex + |req.entries|);
  }

  lemma SuccessCounts(n: Node, p: Id, req: AppendRequest, resp: AppendResponse)
    requires |n.log| > 0 && n.role == Leader && n.term == req.term && resp.term <= n.term && resp.success
    ensures OnAppendResponse(n, p, req, resp) == CountMatch(n, p, req.prevIndex + |req.entries|)
  {
  }

  lemma InstallIsCounted(n: Node, p: Id, req: SnapshotRequest, resp: SnapshotResponse)
    requires |n.log| > 0 && n.role == Leader && n.term == req.term && resp.term <= n.term
    ensures Learns(n, p, req.lastIndex, OnSnapshotResponse(n, p, req, resp))
  {
    CountTeaches(n, p, req.lastIndex);
  }

  // ---------------------------------------------------------------- proposals

  /** A leader takes every command, as the last entry of its log and in its term, and holds it
      itself; in a cluster of one it is committed at once. Others refuse and do nothing. */
  lemma ProposalDuty(n: Node, cmd: Command)
    requires |n.log| > 0
    ensures
      var (n', index) := Propose(n, cmd);
      if n.role != Leader then n' == n && index == None
      else
        && index == Some(|n.log|) && n'.log == n.log + [Entry(n.term, cmd, None)]
        && n'.role == Leader && n'.term == n.term && n'.vote == n.vote && n'.commit >= n.commit
        && Lookup(n'.matchIndex, n.id) == |n.log| && Lookup(n'.nextIndex, n.id) == |n.log| + 1
        && (n.peers.Keys == {n.id} && n.snap <= |n.log| ==> n'.commit >= |n.log|)
  {
    var e := Entry(n.term, cmd, None);
    var n1 := LeaderAppend(n, e);
    FinishKeepsFrame(n1);
    BestCommitIsGreatest(n1, |n.log|);
    if n.peers.Keys == {n.id} {
      assert Holders(n1, |n.log|) == {n.id};
      assert n.commit < |n.log| && n.snap <= |n.log| ==> Committable(n1, |n.log|);
    }
  }

  // ---------------------------------------------------------------- applying and compacting

  /** The entries applied since the snapshot are fewer than the threshold. */
  predicate Trim(n: Node) { n.threshold > 0 ==> n.applied - n.snap < n.threshold }

  /** Everything committed that the log holds is applied, in order, and nothing else; and then,
      whatever the role, a compaction that is due is made, at the applied index, and none that is
      not. */
  lemma ApplyDuty(n: Node)
    requires Sane(n)
    ensures
      var n' := ApplyCommitted(n);
      && n'.applied == Max(n.applied, Min(n.commit, LastIndex(n.log)))
      && n'.kv == ReplayFrom(n.kv, n.log, n.applied, n'.applied)
      && (n'.applied <= LastIndex(n.log) ==> Trim(n'))
      && (n'.snap != n.snap ==> n.threshold > 0 && n'.applied - n.snap >= n.threshold && n'.snap == n'.applied && n'.image == n'.kv)
      && (n'.snap == n.snap ==> n'.image == n.image)
      && n'.log == n.log && n'.commit == n.commit && n'.role == n.role && n'.term == n.term && n'.vote == n.vote
  {
  }

  // ---------------------------------------------------------------- hearing from a leader

  /** Whoever hears from a leader of its own or a later term follows it and is no longer joining,
      whether or not it takes the entries. Requests of earlier terms change nothing. */
  lemma LeadersAreFollowed(n: Node, req: AppendRequest)
    requires |n.log| > 0
    ensures
      var (n', resp) := OnAppend(n, req);
      if req.term < n.term then n' == n && resp == AppendResponse(n.term, false)
      else
        && n'.role == Follower && n'.leader == req.leader && n'.term == req.term == resp.term && !n'.joining
        && n'.vote == (if req.term > n.term then "" else n.vote) && n'.id == n.id
        && (resp.success <==> n.snap <= req.prevIndex < |n.log| && n.log[req.prevIndex].term == req.prevTerm)
        && (!resp.success ==> n' == n.(term := req.term, vote := n'.vote, role := Follower, leader := req.leader, joining := false))
        && (resp.success ==> n'.commit >= Min(req.commit, LastIndex(n'.log)) && |n'.log| > req.prevIndex + |req.entries|)
  {
    if req.term >= n.term && PrevMatches(n, req) {
      var m := TakeEntries(Heard(n, req.term, req.leader), req);
      if req.commit > m.commit {
        ApplyKeepsFrame(m.(commit := Min(req.commit, LastIndex(m.log))));
      }
    }
  }

  lemma ApplyKeepsFrame(n: Node)
    requires |n.log| > 0
    ensures
      var n' := ApplyCommitted(n);
      && n'.id == n.id && n'.role == n.role && n'.term == n.term && n'.vote == n.vote && n'.log == n.log
      && n'.leader == n.leader && n'.joining == n.joining && n'.commit == n.commit
  {
  }

  /** A snapshot further than the node's own is installed, whatever the node's log holds; any
      other of a current term is only heard. */
  lemma SnapshotsAreInstalled(n: Node, req: SnapshotRequest, prefix: Log)
    requires |n.log| > 0 && |prefix| == req.lastIndex + 1
    ensures
      var (n', resp) := OnSnapshot(n, req, prefix);
      if req.term < n.term then n' == n && resp == SnapshotResponse(n.term)
      else
        && n'.role == Follower && n'.leader == req.leader && n'.term == req.term == resp.term && !n'.joining
        && n'.vote == (if req.term > n.term then "" else n.vote) && n'.id == n.id
        && (req.lastIndex > n.snap ==>
              && n'.log == prefix && n'.snap == n'.applied == req.lastIndex && n'.image == n'.kv == req.data
              && n'.commit == Max(n.commit, req.lastIndex) && (|req.peers| > 0 ==> n'.base == n'.peers == req.peers))
        && (req.lastIndex <= n.snap ==>
              n' == n.(term := req.term, vote := n'.vote, role := Follower, leader := req.leader, joining := false))
  {
  }

  /** A node that was joining stands for election once it has heard from a leader and is a member. */
  lemma JoinedNodesCampaign(n: Node, req: AppendRequest, image: SnapshotRequest, prefix: Log)
    requires |n.log| > 0 && |prefix| == image.lastIndex + 1
    ensures
      var n' := OnAppend(n, req).0;
      req.term >= n.term && n'.id in n'.peers ==>
        |n'.log| > 0 && StartElection(n').term == req.term + 1 && StartElection(n').vote == n.id
    ensures
      var n' := OnSnapshot(n, image, prefix).0;
      image.term >= n.term && n'.id in n'.peers ==>
        |n'.log| > 0 && StartElection(n').term == image.term + 1 && StartElection(n').vote == n.id
  {
    if req.term >= n.term {
      LeadersAreFollowed(n, req);
      FollowedLog(n, req);
      HeardNodeCampaigns(OnAppend(n, req).0);
    }
    if image.term >= n.term {
      SnapshotsAreInstalled(n, image, prefix);
      HeardNodeCampaigns(OnSnapshot(n, image, prefix).0);
    }
  }

  lemma HeardNodeCampaigns(n: Node)
    requires |n.log| > 0 && !n.joining
    ensures n.id in n.peers ==> StartElection(n).term == n.term + 1 && StartElection(n).vote == n.id
  {
    CampaignDuty(n);
  }

  lemma FollowedLog(n: Node, req: AppendRequest)
    requires |n.log| > 0
    ensures |OnAppend(n, req).0.log| > 0
  {
    if req.term >= n.term && PrevMatches(n, req) {
      var m := TakeEntries(Heard(n, req.term, req.leader), req);
      if req.commit > m.commit {
        ApplyKeepsFrame(m.(commit := Min(req.commit, LastIndex(m.log))));
      }
    }
  }

  // ---------------------------------------------------------------- starting and restarting

  /** A node that joins does not campaign; one started as a member does; a restarted one does if
      its disk knows of other members, even if it is told to join. */
  lemma StartedNodesCampaign(id: Id, threshold: nat, join: bool, cfg: Config, n: Node)
    requires |n.log| > 0 && n.snap < |n.log|
    ensures
      var b := Boot(id, threshold, join, cfg);
      StartElection(b).term == (if join || id !in cfg then 0 else 1)
    ensures
      var r := Restart(n, join);
      && |r.log| > 0 && r.role == Follower && r.leader == "" && r.votes == {} && r.commit == r.applied == n.snap && r.kv == n.image
      && (r.joining <==> join && |r.peers| <= 1)
      && (n.id in r.peers && (|r.peers| > 1 || !join) ==> StartElection(r).term == n.term + 1)
  {
    CampaignDuty(Boot(id, threshold, join, cfg));
    CampaignDuty(Restart(n, join));
  }

  // ---------------------------------------------------------------- sending

  /** A leader can always serve a peer it tracks: with its snapshot exactly if the peer's next
      index is not above it, and else with all entries from there on. */
  lemma PeerIsServed(n: Node, p: Id)
    requires Sane(n) && Lookup(n.nextIndex, p) > 0
    ensures ShouldInstall(n, p) <==> Lookup(n.nextIndex, p) <= n.snap
    ensures ShouldInstall(n, p) <==> MakeAppend(n, p).1.None?
    ensures !ShouldInstall(n, p) ==>
              var req := MakeAppend(n, p).1.value;
              var next := Min(Lookup(n.nextIndex, p), |n.log|);
              && req.term == n.term && req.leader == n.id && req.commit == n.commit
              && n.log[..req.prevIndex + 1] + req.entries == n.log && req.prevTerm == n.log[req.prevIndex].term
              && req.prevIndex + 1 == next && Lookup(MakeAppend(n, p).0.nextIndex, p) == next
  {
  }

  /** A probe vouches for the leader's whole log without sending any of it. */
  lemma ProbeVouches(n: Node)
    requires |n.log| > 0
    ensures
      var req := ProbeOf(n);
      req.term == n.term && req.leader == n.id && req.commit == n.commit && req.entries == []
      && req.prevIndex + 1 == |n.log| && req.prevTerm == n.log[req.prevIndex].term
  {
  }

  // ---------------------------------------------------------------- membership changes

  /** An accepted change is the last entry of the leader's log. Members not followed before start
      out matching nothing; all others keep what was known of them. */
  lemma ChangeTracks(n: Node, kind: ChangeKind, id: Id, addr: string)
    requires |n.log| > 0 && CheckChange(n, kind, id).Ok?
    ensures
      var n' := ProposeChange(n, kind, id, addr).0;
      && n'.log == n.log + [Entry(n.term, Empty, Some(Change(kind, id, addr, Delta(n.peers, kind, id, addr))))]
      && n'.role == Leader && n'.term == n.term && n'.vote == n.vote
      && Lookup(n'.matchIndex, n.id) == |n.log| && Lookup(n'.nextIndex, n.id) == |n.log| + 1
      && (forall p :: p in Amended(n, kind, id, addr).peers && p != n.id && p !in n.nextIndex ==>
            Lookup(n'.matchIndex, p) == 0 && Lookup(n'.nextIndex, p) == (if n.snap > 0 then n.snap else |n.log| + 1))
      && (forall p :: p in n.nextIndex && p != n.id ==>
            Lookup(n'.matchIndex, p) == Lookup(n.matchIndex, p) && Lookup(n'.nextIndex, p) == Lookup(n.nextIndex, p))
  {
    FinishKeepsFrame(Tracked(Amended(n, kind, id, addr)));
  }

  /** The members of the new configuration that hold `i`: the leader, and those of whom that was
      known before. */
  function KnownHolders(n: Node, members: set<Id>, i: nat): set<Id> {
    set p | p in members && (p == n.id || (p in n.nextIndex && Lookup(n.matchIndex, p) >= i))
  }

  /** The change commits nothing but what more than half of the new configuration were known to
      hold. */
  lemma ChangeCommitsHeld(n: Node, kind: ChangeKind, id: Id, addr: string)
    requires |n.log| > 0 && CheckChange(n, kind, id).Ok?
    ensures
      var n', cfg := ProposeChange(n, kind, id, addr).0, Amended(n, kind, id, addr).peers;
      && n'.commit >= n.commit
      && (n'.commit > n.commit ==>
            && 0 < n'.commit <= |n.log| && n'.log[n'.commit].term == n.term
            && 2 * |KnownHolders(n, cfg.Keys, n'.commit)| > |cfg|)
  {
    var n1 := Tracked(Amended(n, kind, id, addr));
    FinishKeepsFrame(n1);
    BestCommitIsGreatest(n1, LastIndex(n1.log));
    var c := BestCommit(n1, LastIndex(n1.log));
    if c > n.commit {
      assert Committable(n1, c);
      assert Holders(n1, c) <= KnownHolders(n, n1.peers.Keys, c);
      SubsetSize(Holders(n1, c), KnownHolders(n, n1.peers.Keys, c));
    }
  }

  /** So the first peer of a cluster of one has to answer before the change that adds it, or
      anything after the commit index, is committed. */
  lemma FirstPeerIsAwaited(n: Node, id: Id, addr: string)
    requires Configured(n) && n.snap < |n.log| && n.peers.Keys == {n.id} && id !in n.nextIndex && CheckChange(n, AddPeer, id).Ok?
    ensures ProposeChange(n, AddPeer, id, addr).0.commit == n.commit
  {
    AddedToOne(n, id, addr);
    ChangeCommitsHeld(n, AddPeer, id, addr);
    OnlyLeaderHolds(n, Amended(n, AddPeer, id, addr).peers, id, ProposeChange(n, AddPeer, id, addr).0.commit);
  }

  lemma AddedToOne(n: Node, id: Id, addr: string)
    requires Configured(n) && n.snap < |n.log| && n.peers.Keys == {n.id} && CheckChange(n, AddPeer, id).Ok?
    ensures Amended(n, AddPeer, id, addr).peers.Keys == {n.id, id} && id != n.id
  {
    AmendedPeers(n, AddPeer, id, addr);
    assert id !in n.peers;
  }

  lemma OnlyLeaderHolds(n: Node, cfg: Config, id: Id, c: nat)
    requires cfg.Keys == {n.id, id} && id != n.id && id !in n.nextIndex
    ensures 2 * |KnownHolders(n, cfg.Keys, c)| <= |cfg|
  {
    assert KnownHolders(n, cfg.Keys, c) == {n.id};
    assert |cfg.Keys| == 2;
  }

  /** A new member gets the snapshot, if there is one, or entries. */
  lemma NewMemberIsServed(n: Node, id: Id, addr: string)
    requires Sane(n) && Configured(n) && id !in n.nextIndex && id != n.id && CheckChange(n, AddPeer, id).Ok?
    ensures
      var n' := ProposeChange(n, AddPeer, id, addr).0;
      Sane(n') && (if n.snap > 0 then ShouldInstall(n', id) else MakeAppend(n', id).1.Some?)
  {
    var n1, n' := Tracked(Amended(n, AddPeer, id, addr)), ProposeChange(n, AddPeer, id, addr).0;
    AmendedPeers(n, AddPeer, id, addr);
    ChangeTracks(n, AddPeer, id, addr);
    FinishKeepsFrame(n1);
    CompactStaysInLog(AdvanceCommit(n1));
  }

  lemma CompactStaysInLog(n: Node)
    requires Sane(n)
    ensures Sane(ApplyCommitted(n))
  {
  }

  /** Changes come one at a time: with one above the commit index the next is refused, and an
      accepted one is the only one there. */
  lemma ChangesAreSerial(n: Node, kind: ChangeKind, id: Id, addr: string, i: nat)
    requires |n.log| > 0 && Max(n.commit, n.snap) < i < |n.log| && n.log[i].change.Some? && n.role == Leader
    ensures ProposeChange(n, kind, id, addr) == (n, Err(InProgress))
  {
    assert ChangesAt(n.log, i);
  }

  /** Nothing else stands in the way of adding a stranger or removing another member. */
  lemma ChangeAcceptedIff(n: Node, kind: ChangeKind, id: Id, addr: string)
    requires |n.log| > 0 && n.id in n.peers
    ensures ProposeChange(n, kind, id, addr).1.Ok? <==>
              && n.role == Leader
              && (forall i :: Max(n.commit, n.snap) < i < |n.log| ==> n.log[i].change.None?)
              && (if kind == AddPeer then id !in n.peers else id in n.peers && id != n.id)
  {
    PendingIff(n);
    if id in n.peers && id != n.id {
      SubsetSize({id, n.id}, n.peers.Keys);
      assert |n.peers| > 1;
    }
    assert ProposeChange(n, kind, id, addr).1.Ok? <==> CheckChange(n, kind, id).Ok?;
  }

  lemma PendingIff(n: Node)
    ensures HasUncommitted(n) <==> exists i :: Max(n.commit, n.snap) < i < |n.log| && n.log[i].change.Some?
  {
    if HasUncommitted(n) {
      var i :| n.commit < i < |n.log| && n.snap < i && ChangesAt(n.log, i);
      assert n.log[i].change.Some?;
    } else {
      forall i: nat | Max(n.commit, n.snap) < i < |n.log|
        ensures n.log[i].change.None?
      {
        assert !ChangesAt(n.log, i);
      }
    }
  }

  lemma AcceptedIsAlone(n: Node, kind: ChangeKind, id: Id, addr: string)
    requires |n.log| > 0 && ProposeChange(n, kind, id, addr).1.Ok?
    ensures
      var n' := ProposeChange(n, kind, id, addr).0;
      forall i :: Max(n.commit, n.snap) < i < |n'.log| ==> (n'.log[i].change.Some? <==> i == |n.log|)
  {
    var n' := ProposeChange(n, kind, id, addr).0;
    ChangeTracks(n, kind, id, addr);
    forall i: nat | Max(n.commit, n.snap) < i < |n'.log|
      ensures n'.log[i].change.Some? <==> i == |n.log|
    {
      assert i < |n.log| ==> n'.log[i] == n.log[i] && !ChangesAt(n.log, i);
    }
  }

  /** A change that carries no whole configuration adds or removes just its own member. */
  lemma DeltasApply(cfg: Config, ch: Change)
    requires |ch.peers| == 0
    ensures ch.kind == AddPeer ==> ch.id in ApplyChange(cfg, ch) && ApplyChange(cfg, ch)[ch.id] == ch.addr
    ensures ch.kind == RemovePeer ==> ch.id !in ApplyChange(cfg, ch)
    ensures ApplyChange(cfg, ch) - {ch.id} == cfg - {ch.id}
  {
  }
}
