/** The values a raftjs server stores and sends: log entries, RPC messages, the
    persistent and volatile state of one server, and the list of corrections a
    model run may switch on. */
module RaftTypes {

  type ServerId = string

  newtype Byte = x: int | 0 <= x < 256
  type Bytes = seq<Byte>

  datatype Option<+T> = None | Some(value: T)

  /** A log entry; position 0 of every log holds the empty entry SENTINEL. */
  datatype Entry = Entry(command: Bytes, index: nat, term: nat)

  const SENTINEL := Entry([], 0, 0)

  datatype Message =
    | RequestVote(term: nat, candidateId: ServerId, lastLogIndex: nat, lastLogTerm: nat)
    | VoteResponse(term: nat, voteGranted: bool)
    | AppendEntries(term: nat, leaderId: ServerId, entries: seq<Entry>,
                    prevLogIndex: nat, prevLogTerm: nat, leaderCommit: nat)
      // replicatedTo is not in the source: it is read only when matchesReplicated is on
    | AppendResponse(term: nat, followerId: ServerId, followerCommit: nat, success: bool, replicatedTo: nat)

  /** A message between two endpoints; an endpoint stands for the server listening on it. */
  datatype Packet = Packet(src: ServerId, dst: ServerId, msg: Message)

  /** What the Raft paper calls persistent state. */
  datatype Stable = Stable(term: nat, votedFor: Option<ServerId>, log: seq<Entry>)

  /** A JavaScript number read from an index table: an integer or NaN. */
  datatype Index = Num(value: int) | NotANumber

  /** A JavaScript object used as a table: its keys in insertion order, and their values. */
  datatype Table = Table(keys: seq<ServerId>, at: map<ServerId, nat>) {
    function Put(key: ServerId, value: nat): Table {
      Table(if key in at then keys else keys + [key], at[key := value])
    }

    function Get(key: ServerId): nat {
      if key in at then at[key] else 0
    }
  }

  datatype State =
    | Follower(leaderId: Option<ServerId>)
    | Candidate(votes: set<ServerId>)
    | Leader(nextIndex: map<ServerId, Index>, matchIndex: Table)

  /** One server: what it holds in memory, what its disk holds, and its volatile state. */
  datatype Node = Node(id: ServerId, mem: Stable, disk: Stable, commitIndex: nat, lastApplied: nat, state: State)

  /** What one handler does: the new server and the packets it sends. */
  datatype Outcome = Outcome(node: Node, out: seq<Packet>)

  /** The corrections to the source. All false are the handlers as written; each one,
      switched on, makes one place do what the Raft paper (and the comment beside it) says. */
  datatype Fixes = Fixes(
    recordsGrant: bool,       // a follower that grants a vote stores it          (follower.ts:185-212)
    comparesLogs: bool,       // the vote also needs an up-to-date candidate log   (follower.ts:185-187)
    countsOwnTerm: bool,      // a candidate counts grants of its own term only    (candidate.ts:70-73)
    persistsFirst: bool,      // state is written before requests, not only before responses (server.ts:139-141)
    reloadsVote: bool,        // the vote is read back at start                    (server.ts:202)
    keepsLog: bool,           // writing the log writes it                         (log.ts:60-62)
    sendsFromNextIndex: bool, // indexes keyed by server id, prevLog* at nextIndex - 1, floor on nextIndex
                              // (leader.ts:40-45, 102, 142-143)
    mergesByPosition: bool,   // conflict tested at the entry's own index, and the new entry appended
                              // (follower.ts:127-141)
    matchesReplicated: bool   // own-term responses carry the replicated index; numeric median (leader.ts:80, 97-103)
  )

  const AS_WRITTEN := Fixes(false, false, false, false, false, false, false, false, false)
  const CORRECTED := Fixes(true, true, true, true, true, true, true, true, true)
}
