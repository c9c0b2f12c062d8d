/** Values shared by every layer: identifiers, commands, log entries and the RPC messages. */
module RaftTypes {

  type Id = string
  type Store = map<string, string>

  datatype Option<+T> = None | Some(value: T)

  /** The bytes of an entry's command, up to what the state machine can tell apart: no bytes
      at all (the leader's no-op), bytes that do not decode, or a decoded operation. */
  datatype Command =
    | Empty
    | Undecodable(bytes: string)
    | Operation(op: string, key: string, value: string)

  /** A single-server configuration change; `peers` is the whole new configuration. */
  datatype ChangeKind = AddPeer | RemovePeer
  datatype Change = Change(kind: ChangeKind, id: Id, addr: string, peers: map<Id, string>)

  /** A log entry. Its index is its position in the full log. */
  datatype Entry = Entry(term: nat, command: Command, change: Option<Change>)

  type Log = seq<Entry>

  /** The entry at index 0 of every log. */
  const DUMMY := Entry(0, Empty, None)

  function NoOp(term: nat): Entry { Entry(term, Empty, None) }

  datatype Role = Follower | Candidate | Leader

  datatype VoteRequest = VoteRequest(term: nat, candidate: Id, lastIndex: nat, lastTerm: nat)
  datatype VoteResponse = VoteResponse(term: nat, granted: bool)

  datatype AppendRequest = AppendRequest(term: nat, leader: Id, prevIndex: nat, prevTerm: nat,
                                         entries: seq<Entry>, commit: nat)
  datatype AppendResponse = AppendResponse(term: nat, success: bool)

  datatype SnapshotRequest = SnapshotRequest(term: nat, leader: Id, lastIndex: nat, lastTerm: nat,
                                             data: Store, peers: map<Id, string>)
  datatype SnapshotResponse = SnapshotResponse(term: nat)
}
