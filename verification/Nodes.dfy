/** What one server does on each event, as functions on its state: a received message up to
    the first await, an election timeout, a client request, a heartbeat, the apply loop's
    next command, and a restart. */
module Nodes {
  import opened RaftTypes
  import opened Logs
  import opened Medians
  import Decimals

  // ----- the cluster map -----

  ghost predicate Distinct(servers: seq<ServerId>) {
    forall i, j :: 0 <= i < j < |servers| ==> servers[i] != servers[j]
  }

  function Members(servers: seq<ServerId>): set<ServerId> {
    set s | s in servers
  }

  /** getServerIds: every server but this one, in the order of the cluster map. */
  function Peers(servers: seq<ServerId>, id: ServerId): (peers: seq<ServerId>)
    ensures forall s :: s in peers <==> s in servers && s != id
  {
    if servers == [] then []
    else
      var rest := Peers(servers[1..], id);
      assert servers == [servers[0]] + servers[1..];
      if servers[0] == id then rest else [servers[0]] + rest
  }

  lemma {:induction false} PeersDistinct(servers: seq<ServerId>, id: ServerId)
    requires Distinct(servers)
    ensures Distinct(Peers(servers, id))
    ensures |Peers(servers, id)| == |servers| - if id in servers then 1 else 0
  {
    if servers != [] {
      var rest := Peers(servers[1..], id);
      PeersDistinct(servers[1..], id);
      assert servers[0] !in servers[1..];
      assert servers[0] !in rest;
    }
  }

  /** The order is that of the cluster map. */
  lemma {:induction false} PeersInOrder(front: seq<ServerId>, s: ServerId, back: seq<ServerId>, id: ServerId)
    ensures Peers(front + [s] + back, id) == Peers(front, id) + (if s == id then [] else [s]) + Peers(back, id)
  {
    var servers := front + [s] + back;
    if front == [] {
      assert servers[1..] == back;
    } else {
      assert servers[1..] == front[1..] + [s] + back;
      PeersInOrder(front[1..], s, back, id);
    }
  }

  /** isMajorityObtained. */
  predicate IsMajority(servers: seq<ServerId>, votes: set<ServerId>) {
    MajorityOf(|servers|, |votes|)
  }

  // ----- persistent state -----

  /** updatePersistentState: term and vote are written, the log only if writing it is not a no-op. */
  function Persist(f: Fixes, n: Node): Node {
    n.(disk := Stable(n.mem.term, n.mem.votedFor, if f.keepsLog then n.mem.log else n.disk.log))
  }

  /** sendRpcMessage writes the state first for responses; for requests only under persistsFirst. */
  function PersistForRequest(f: Fixes, n: Node): Node {
    if f.persistsFirst then Persist(f, n) else n
  }

  /** setCurrentTerm also clears the vote. */
  function SetTerm(n: Node, term: nat): Node {
    n.(mem := n.mem.(term := term, votedFor := None))
  }

  /** transitionTo('follower', leaderId): nothing happens to a server that is one already. */
  function ToFollower(n: Node, leaderId: Option<ServerId>): Node {
    if n.state.Follower? then n else n.(state := Follower(leaderId))
  }

  /** First boot: term 0 on disk, the empty entry in the log. */
  function Boot(id: ServerId): Node {
    var blank := Stable(0, None, [SENTINEL]);
    Node(id, blank, blank, 0, 0, Follower(None))
  }

  /** A crash and start(): memory is what the disk holds, the rest begins again. */
  function Restart(f: Fixes, n: Node): Node {
    n.(mem := n.disk.(votedFor := if f.reloadsVote then n.disk.votedFor else None),
       commitIndex := 0, lastApplied := 0, state := Follower(None))
  }

  // ----- leader -----

  /** The keys enter() uses: server ids, or as written (for..in over an array) positions. */
  function IndexKeys(f: Fixes, peers: seq<ServerId>): seq<ServerId> {
    if f.sendsFromNextIndex then peers else seq(|peers|, i requires 0 <= i => Decimals.Decimal(i))
  }

  function FreshTable(keys: seq<ServerId>): Table {
    Table(keys, map k | k in keys :: 0)
  }

  /** LeaderState.enter. */
  function BecomeLeader(f: Fixes, servers: seq<ServerId>, n: Node): Outcome {
    var keys := IndexKeys(f, Peers(servers, n.id));
    SendAppendEntries(f, servers, n.(state := Leader(map k | k in keys :: Num(|n.mem.log|), FreshTable(keys))))
  }

  /** nextIndex for a peer, kept within 1 .. lastIndex + 1. */
  function NextFor(nextIndex: map<ServerId, Index>, peer: ServerId, length: nat): (next: nat)
    requires length > 0
    ensures 1 <= next <= length
  {
    if peer in nextIndex && nextIndex[peer].Num? && 1 <= nextIndex[peer].value <= length
    then nextIndex[peer].value else length
  }

  /** One append-entries request. As written the entries start at nextIndex (undefined counts
      as 0) but prevLogIndex and prevLogTerm describe the leader's last entry. */
  function AppendRequest(f: Fixes, n: Node, peer: ServerId): Packet
    requires n.state.Leader? && |n.mem.log| > 0
  {
    var log := n.mem.log;
    var next := NextFor(n.state.nextIndex, peer, |log|);
    Packet(n.id, peer,
           if f.sendsFromNextIndex then
             AppendEntries(n.mem.term, n.id, log[next..], next - 1, log[next - 1].term, n.commitIndex)
           else
             AppendEntries(n.mem.term, n.id,
                           SliceFrom(log, if peer in n.state.nextIndex then n.state.nextIndex[peer] else NotANumber),
                           |log| - 1, LastTerm(log), n.commitIndex))
  }

  /** sendAppendEntries: one request for each peer. With an emptied log getLastTerm throws
      before anything is sent. */
  function SendAppendEntries(f: Fixes, servers: seq<ServerId>, n: Node): Outcome
    requires n.state.Leader?
  {
    if n.mem.log == [] then Outcome(n, [])
    else
      var peers := Peers(servers, n.id);
      Outcome(PersistForRequest(f, n), seq(|peers|, i requires 0 <= i < |peers| => AppendRequest(f, n, peers[i])))
  }

  /** LeaderState.execute; a server that is not the leader answers with an error. */
  function ClientRequest(f: Fixes, servers: seq<ServerId>, n: Node, command: Bytes): Outcome {
    if !n.state.Leader? then Outcome(n, [])
    else
      var entry := Entry(command, |n.mem.log|, n.mem.term);
      SendAppendEntries(f, servers, n.(mem := n.mem.(log := n.mem.log + [entry])))
  }

  /** The commit loop: the greatest index not above the start, above commitIndex and of the
      current term, if any. Reading past the end of the log throws and changes nothing. */
  function CommitScan(log: seq<Entry>, term: nat, commitIndex: nat, start: nat): (r: nat) {
    if start <= commitIndex || start >= |log| then commitIndex
    else if log[start].term == term then start
    else CommitScan(log, term, commitIndex, start - 1)
  }

  function Values(table: Table): seq<nat> {
    seq(|table.keys|, i requires 0 <= i < |table.keys| => table.Get(table.keys[i]))
  }

  function NextAfterFailure(f: Fixes, leader: State, peer: ServerId): Index
    requires leader.Leader?
  {
    match if peer in leader.nextIndex then leader.nextIndex[peer] else NotANumber
    case NotANumber => NotANumber
    case Num(i) =>
      if f.sendsFromNextIndex && i - 1 < leader.matchIndex.Get(peer) + 1
      then Num(leader.matchIndex.Get(peer) + 1) else Num(i - 1)
  }

  /** The first half of handleAppendEntriesRpcResponse: matchIndex and nextIndex. As written
      matchIndex takes the follower's COMMIT index, and is never compared with its old value. */
  function UpdateIndexes(f: Fixes, leader: State, m: Message): State
    requires leader.Leader? && m.AppendResponse?
  {
    var peer := m.followerId;
    if m.success then
      var known := leader.matchIndex.Get(peer);
      var matched := if !f.matchesReplicated then m.followerCommit
                     else if m.replicatedTo > known then m.replicatedTo else known;
      Leader(leader.nextIndex[peer := Num(matched + 1)], leader.matchIndex.Put(peer, matched))
    else
      Leader(leader.nextIndex[peer := NextAfterFailure(f, leader, peer)], leader.matchIndex)
  }

  /** The second half: the commit loop from the median. With an empty table the median is
      undefined and the loop does not run. */
  function AdvanceCommit(f: Fixes, n: Node): Node
    requires n.state.Leader?
  {
    var values := Values(n.state.matchIndex);
    if values == [] then n
    else n.(commitIndex := CommitScan(n.mem.log, n.mem.term, n.commitIndex, Median(f.matchesReplicated, values)))
  }

  function OnAppendResponse(f: Fixes, n: Node, m: Message): Outcome
    requires n.state.Leader? && m.AppendResponse?
  {
    if f.matchesReplicated && m.term != n.mem.term then Outcome(n, [])
    else Outcome(AdvanceCommit(f, n.(state := UpdateIndexes(f, n.state, m))), [])
  }

  // ----- candidate -----

  /** The candidate a server becomes: a new term and its own vote, on disk already under
      persistsFirst. */
  function Stand(f: Fixes, n: Node): Node {
    PersistForRequest(f, n.(mem := Stable(n.mem.term + 1, Some(n.id), n.mem.log), state := Candidate({n.id})))
  }

  /** startElection: a new term, a vote for itself (on disk already, under persistsFirst), and a
      request to every peer. With an emptied log getEntry(-1).term throws before any request is sent. */
  function StartElection(f: Fixes, servers: seq<ServerId>, n: Node): Outcome {
    var n1 := Stand(f, n);
    var o := if IsMajority(servers, {n.id}) then BecomeLeader(f, servers, n1) else Outcome(n1, []);
    Outcome(o.node, o.out + VoteRequests(servers, n1))
  }

  /** requestVotes. */
  function VoteRequests(servers: seq<ServerId>, n: Node): seq<Packet> {
    if n.mem.log == [] then []
    else
      var peers := Peers(servers, n.id);
      var request := RequestVote(n.mem.term, n.id, |n.mem.log| - 1, LastTerm(n.mem.log));
      seq(|peers|, i requires 0 <= i < |peers| => Packet(n.id, peers[i], request))
  }

  /** tallyVote. */
  function OnVoteResponse(f: Fixes, servers: seq<ServerId>, n: Node, src: ServerId, m: Message): Outcome
    requires n.state.Candidate? && m.VoteResponse?
  {
    if !m.voteGranted || (f.countsOwnTerm && m.term != n.mem.term) then Outcome(n, [])
    else
      var n1 := n.(state := Candidate(n.state.votes + {src}));
      if IsMajority(servers, n1.state.votes) then BecomeLeader(f, servers, n1) else Outcome(n1, [])
  }

  /** A candidate that hears from a leader of its own or a later term follows it. The request
      itself is neither merged nor answered. */
  function OnAppendAsCandidate(n: Node, m: Message): Outcome
    requires n.state.Candidate? && m.AppendEntries?
  {
    Outcome(if m.term >= n.mem.term then ToFollower(n, Some(m.leaderId)) else n, [])
  }

  // ----- follower -----

  /** The Raft vote restriction, section 5.4.1: a later last term, or the same last term and
      a log at least as long. */
  predicate UpToDate(lastLogTerm: nat, lastLogIndex: nat, log: seq<Entry>) {
    log == [] || lastLogTerm > LastTerm(log) || (lastLogTerm == LastTerm(log) && lastLogIndex >= |log| - 1)
  }

  predicate GrantsVote(f: Fixes, n: Node, m: Message)
    requires m.RequestVote?
  {
    && m.term >= n.mem.term
    && (n.mem.votedFor == None || n.mem.votedFor == Some(m.candidateId))
    && (f.comparesLogs ==> UpToDate(m.lastLogTerm, m.lastLogIndex, n.mem.log))
  }

  function OnRequestVote(f: Fixes, n: Node, src: ServerId, m: Message): Outcome
    requires n.state.Follower? && m.RequestVote?
  {
    var granted := GrantsVote(f, n, m);
    var n1 := if granted && f.recordsGrant then n.(mem := n.mem.(votedFor := Some(m.candidateId))) else n;
    Outcome(Persist(f, n1), [Packet(n.id, src, VoteResponse(n.mem.term, granted))])
  }

  /** The consistency check on prevLogIndex and prevLogTerm. */
  predicate Matches(log: seq<Entry>, m: Message)
    requires m.AppendEntries?
  {
    HasEntry(log, m.prevLogIndex) && log[m.prevLogIndex].term == m.prevLogTerm
  }

  /** min(leaderCommit, index of last new entry), when leaderCommit is ahead. Without entries the
      source takes MAX_SAFE_INTEGER for the second, which no array index reaches: no bound. */
  function FollowerCommit(commitIndex: nat, m: Message): nat
    requires m.AppendEntries?
  {
    if m.leaderCommit <= commitIndex then commitIndex
    else if |m.entries| > 0 && m.entries[|m.entries| - 1].index < m.leaderCommit then m.entries[|m.entries| - 1].index
    else m.leaderCommit
  }

  /** handleAppendEntriesRpcRequest of a follower. */
  function OnAppendEntries(f: Fixes, n: Node, src: ServerId, m: Message): Outcome
    requires n.state.Follower? && m.AppendEntries?
  {
    var n1 := n.(state := Follower(Some(m.leaderId)));
    if m.term < n.mem.term || !Matches(n.mem.log, m) then
      Outcome(Persist(f, n1), [Packet(n.id, src, AppendResponse(n.mem.term, n.id, n.commitIndex, false, 0))])
    else
      var n2 := n1.(mem := n1.mem.(log := Merge(f.mergesByPosition, n.mem.log, m.entries)),
                    commitIndex := FollowerCommit(n.commitIndex, m));
      Outcome(Persist(f, n2),
              [Packet(n.id, src, AppendResponse(n.mem.term, n.id, n2.commitIndex, true, m.prevLogIndex + |m.entries|))])
  }

  // ----- any server -----

  /** The start of Server.handleRpcMessage: a higher term makes every server a follower. */
  function Bump(n: Node, m: Message): Node {
    if m.term > n.mem.term then
      ToFollower(SetTerm(n, m.term), if m.AppendEntries? then Some(m.leaderId) else None)
    else n
  }

  /** The state object's handleRpcMessage; a message it has no branch for is dropped. */
  function Dispatch(f: Fixes, servers: seq<ServerId>, n: Node, src: ServerId, m: Message): Outcome {
    match n.state
    case Follower(_) =>
      if m.AppendEntries? then OnAppendEntries(f, n, src, m)
      else if m.RequestVote? then OnRequestVote(f, n, src, m)
      else Outcome(n, [])
    case Candidate(_) =>
      if m.AppendEntries? then OnAppendAsCandidate(n, m)
      else if m.VoteResponse? then OnVoteResponse(f, servers, n, src, m)
      else Outcome(n, [])
    case Leader(_, _) =>
      if m.AppendResponse? then OnAppendResponse(f, n, m) else Outcome(n, [])
  }

  /** Server.handleRpcMessage. */
  function Receive(f: Fixes, servers: seq<ServerId>, n: Node, src: ServerId, m: Message): Outcome {
    Dispatch(f, servers, Bump(n, m), src, m)
  }

  /** One round of the apply loop, when it has work to do. */
  predicate CanApply(n: Node) {
    n.lastApplied < n.commitIndex && n.lastApplied + 1 < |n.mem.log|
  }

  function ApplyNext(n: Node): Node
    requires CanApply(n)
  {
    n.(lastApplied := n.lastApplied + 1)
  }
}
