/** What the Raft paper asks of one server, in Figure 2 and section 5: for every field of the
    server, and for what it sends, when a step may change it and to what. Where a policy departs
    from the paper the rule says how, and so it does where every policy does: candidates and
    leaders leave requests of their own or an earlier term unanswered, and a follower names a
    stale sender, too. The rules leave nothing open: a step meets them, and nothing else does. */
module Rules {
  import opened RaftTypes
  import opened Logs
  import opened Medians
  import opened Nodes
  import opened Clusters
  import Decimals

  function Max(a: int, b: int): int {
    if a < b then b else a
  }

  function Min(a: nat, b: nat): nat {
    if a < b then a else b
  }

  /** The disk after the state was written. */
  function Saved(f: Fixes, mem: Stable, disk: Stable): Stable {
    if f.keepsLog then mem else mem.(log := disk.log)
  }

  // ----- who handles what -----

  /** A follower, or one from now on: a higher term makes every server a follower. */
  predicate Obeys(n: Node, m: Message) {
    n.state.Follower? || m.term > n.mem.term
  }

  /** Section 5.4.1: the voter's log is not more up-to-date than the candidate's. */
  predicate NotBehind(log: seq<Entry>, m: Message)
    requires m.RequestVote?
  {
    log == [] || !(LastTerm(log) > m.lastLogTerm || (LastTerm(log) == m.lastLogTerm && |log| - 1 > m.lastLogIndex))
  }

  /** A vote is given for a term no earlier than the voter's, and to no second candidate of one
      term. */
  predicate Votes(f: Fixes, n: Node, m: Message) {
    && Obeys(n, m) && m.RequestVote? && m.term >= n.mem.term
    && (m.term == n.mem.term && n.mem.votedFor.Some? ==> n.mem.votedFor.value == m.candidateId)
    && (f.comparesLogs ==> NotBehind(n.mem.log, m))
  }

  predicate Accepts(n: Node, m: Message) {
    && Obeys(n, m) && m.AppendEntries? && m.term >= n.mem.term
    && m.prevLogIndex < |n.mem.log| && n.mem.log[m.prevLogIndex].term == m.prevLogTerm
  }

  /** A follower takes the name of any sender, a stale one too; a candidate that of its own
      term's leader. */
  predicate Follows(n: Node, m: Message) {
    m.AppendEntries? && (Obeys(n, m) || (n.state.Candidate? && m.term == n.mem.term))
  }

  /** A candidate counts a vote. */
  predicate Counts(f: Fixes, n: Node, m: Message) {
    && n.state.Candidate? && m.VoteResponse? && m.voteGranted && m.term <= n.mem.term
    && (f.countsOwnTerm ==> m.term == n.mem.term)
  }

  predicate Wins(f: Fixes, servers: seq<ServerId>, n: Node, src: ServerId, m: Message) {
    Counts(f, n, m) && 2 * |n.state.votes + {src}| > |servers|
  }

  /** A leader hears what a follower holds. */
  predicate Learns(f: Fixes, n: Node, m: Message) {
    && n.state.Leader? && m.AppendResponse? && m.term <= n.mem.term
    && (f.matchesReplicated ==> m.term == n.mem.term)
  }

  // ----- candidates -----

  /** One vote request to every other server, in the order of the cluster map. */
  ghost predicate Asks(servers: seq<ServerId>, n: Node, out: seq<Packet>) {
    if n.mem.log == [] then out == []
    else
      var peers, last := Peers(servers, n.id), |n.mem.log| - 1;
      && |out| == |peers|
      && forall i :: 0 <= i < |out| ==>
           out[i] == Packet(n.id, peers[i], RequestVote(n.mem.term, n.id, last, n.mem.log[last].term))
  }

  /** An election: the next term, the own vote, and the requests. In a cluster of one the own
      vote wins, and the first heartbeats leave before the requests. */
  ghost predicate Stands(f: Fixes, servers: seq<ServerId>, n: Node, o: Outcome) {
    var wins := 2 > |servers|;
    var first := if wins && n.mem.log != [] then |Peers(servers, n.id)| else 0;
    && o.node.mem == Stable(n.mem.term + 1, Some(n.id), n.mem.log)
    && o.node.disk == (if f.persistsFirst then Saved(f, o.node.mem, n.disk) else n.disk)
    && o.node.id == n.id && o.node.commitIndex == n.commitIndex && o.node.lastApplied == n.lastApplied
    && (if wins then TakesOffice(f, servers, o.node) else o.node.state == Candidate({n.id}))
    && first <= |o.out| && Asks(servers, o.node, o.out[first..])
    && (wins ==> Announces(f, servers, o.node, o.out[..first]))
  }

  // ----- leaders -----

  /** A new leader's tables: nextIndex is the last index + 1, matchIndex 0. As written the keys
      are the positions "0", "1", ... of the peers. */
  ghost predicate TakesOffice(f: Fixes, servers: seq<ServerId>, n: Node) {
    && n.state.Leader?
    && var keys, peers := n.state.matchIndex.keys, Peers(servers, n.id);
    && |keys| == |peers|
    && (forall i :: 0 <= i < |keys| ==> keys[i] == if f.sendsFromNextIndex then peers[i] else Decimals.Decimal(i))
    && (forall k :: k in n.state.nextIndex <==> k in keys) && (forall k :: k in n.state.matchIndex.at <==> k in keys)
    && (forall k :: k in keys ==> n.state.nextIndex[k] == Num(|n.mem.log|) && n.state.matchIndex.at[k] == 0)
  }

  function NextOf(n: Node, peer: ServerId): Index
    requires n.state.Leader?
  {
    if peer in n.state.nextIndex then n.state.nextIndex[peer] else NotANumber
  }

  function MatchOf(n: Node, peer: ServerId): nat
    requires n.state.Leader?
  {
    if peer in n.state.matchIndex.at then n.state.matchIndex.at[peer] else 0
  }

  /** Where Array.prototype.slice begins. */
  function Begins(length: nat, index: Index): (from: nat)
    ensures from <= length
  {
    match index
    case NotANumber => 0
    case Num(i) => if i < 0 then Max(0, length + i) else Min(i, length)
  }

  /** An append-entries request: the leader's term, name and commit index, an entry of its log,
      and what follows it. As written that entry is the last one whatever is sent. */
  ghost predicate Announcement(f: Fixes, n: Node, peer: ServerId, m: Message)
    requires n.state.Leader?
  {
    var log, next := n.mem.log, NextOf(n, peer);
    && m.AppendEntries? && m.term == n.mem.term && m.leaderId == n.id && m.leaderCommit == n.commitIndex
    && m.prevLogIndex < |log| && m.prevLogTerm == log[m.prevLogIndex].term
    && if f.sendsFromNextIndex then
         && m.entries == log[m.prevLogIndex + 1..]
         && if next.Num? && 1 <= next.value <= |log| then m.prevLogIndex + 1 == next.value else m.entries == []
       else
         m.prevLogIndex + 1 == |log| && m.entries == log[Begins(|log|, next)..]
  }

  /** One request to every other server, in the order of the cluster map. */
  ghost predicate Announces(f: Fixes, servers: seq<ServerId>, n: Node, out: seq<Packet>) {
    && n.state.Leader?
    && if n.mem.log == [] then out == []
       else
         var peers := Peers(servers, n.id);
         && |out| == |peers|
         && forall i :: 0 <= i < |out| ==>
              out[i].src == n.id && out[i].dst == peers[i] && Announcement(f, n, peers[i], out[i].msg)
  }

  /** A heartbeat changes nothing but, if the state is written first, the disk. */
  ghost predicate Beats(f: Fixes, servers: seq<ServerId>, n: Node, o: Outcome) {
    && o.node == n.(disk := if f.persistsFirst && n.mem.log != [] then Saved(f, n.mem, n.disk) else n.disk)
    && Announces(f, servers, n, o.out)
  }

  /** A client's command is the leader's next entry; no other server takes it. */
  ghost predicate Proposes(f: Fixes, servers: seq<ServerId>, n: Node, command: Bytes, o: Outcome) {
    if n.state.Leader? then
      Beats(f, servers, n.(mem := n.mem.(log := n.mem.log + [Entry(command, |n.mem.log|, n.mem.term)])), o)
    else
      o == Outcome(n, [])
  }

  /** The two tables after a response: success sets matchIndex, which never falls, and puts
      nextIndex one above it; failure takes one from nextIndex, which stays above matchIndex.
      As written matchIndex takes the follower's commit index and nextIndex has no floor. */
  ghost predicate Updates(f: Fixes, n: Node, m: Message, n': Node)
    requires n.state.Leader? && m.AppendResponse?
  {
    var peer := m.followerId;
    && n'.state.Leader? && peer in n'.state.nextIndex
    && (forall k :: k != peer ==>
          NextOf(n', k) == NextOf(n, k) && (k in n'.state.nextIndex <==> k in n.state.nextIndex))
    && if m.success then
         && NextOf(n', peer) == Num(MatchOf(n', peer) + 1)
         && MatchOf(n', peer) ==
              (if f.matchesReplicated then Max(m.replicatedTo, MatchOf(n, peer)) else m.followerCommit)
         && (forall k :: k != peer ==> MatchOf(n', k) == MatchOf(n, k))
         && (forall k :: k in n'.state.matchIndex.at <==> k == peer || k in n.state.matchIndex.at)
         && n'.state.matchIndex.keys == n.state.matchIndex.keys + if peer in n.state.matchIndex.at then [] else [peer]
       else
         && n'.state.matchIndex == n.state.matchIndex
         && match NextOf(n, peer)
            case NotANumber => NextOf(n', peer) == NotANumber
            case Num(i) =>
              NextOf(n', peer) == Num(if f.sendsFromNextIndex then Max(i - 1, MatchOf(n, peer) + 1) else i - 1)
  }

  function Held(n: Node): seq<nat>
    requires n.state.Leader?
  {
    var keys := n.state.matchIndex.keys;
    seq(|keys|, i requires 0 <= i < |keys| => MatchOf(n, keys[i]))
  }

  /** m is the lower middle of the values, in order. */
  ghost predicate Middle(numeric: bool, values: seq<nat>, m: nat) {
    exists sorted: seq<nat> :: IsSorted(numeric, sorted) && multiset(sorted) == multiset(values) && |sorted| > 0
      && m == sorted[(|sorted| - 1) / 2]
  }

  /** commitIndex becomes the greatest index above it, not above the median of matchIndex, that
      holds an entry of the leader's term; with a median past the log nothing happens. */
  ghost predicate Commits(n: Node, m: nat, n': Node) {
    && n'.commitIndex >= n.commitIndex
    && (n'.commitIndex > n.commitIndex ==>
          n'.commitIndex <= m < |n.mem.log| && n.mem.log[n'.commitIndex].term == n.mem.term)
    && (forall i :: n'.commitIndex < i <= m < |n.mem.log| ==> n.mem.log[i].term != n.mem.term)
  }

  ghost predicate LeaderCommits(f: Fixes, n: Node, n': Node)
    requires n'.state.Leader?
  {
    if Held(n') == [] then n'.commitIndex == n.commitIndex
    else exists m :: Middle(f.matchesReplicated, Held(n'), m) && Commits(n, m, n')
  }

  // ----- followers -----

  /** min(leaderCommit, index of last new entry), if leaderCommit > commitIndex. */
  ghost predicate FollowerCommits(n: Node, m: Message, n': Node)
    requires m.AppendEntries?
  {
    n'.commitIndex == if m.leaderCommit <= n.commitIndex then n.commitIndex
                      else if m.entries == [] then m.leaderCommit
                      else Min(m.leaderCommit, m.entries[|m.entries| - 1].index)
  }

  // ----- a received message, field by field -----

  /** The term never falls, a new one comes without a vote, and a vote stays. */
  ghost predicate TermAndVote(f: Fixes, n: Node, m: Message, n': Node) {
    && n'.mem.term == Max(n.mem.term, m.term)
    && n'.mem.votedFor == (if f.recordsGrant && Votes(f, n, m) then Some(m.candidateId)
                           else if m.term > n.mem.term then None else n.mem.votedFor)
  }

  /** Only an accepted request changes the log. */
  ghost predicate LogAndCommit(f: Fixes, n: Node, m: Message, n': Node) {
    && n'.mem.log == (if Accepts(n, m) then Merge(f.mergesByPosition, n.mem.log, m.entries) else n.mem.log)
    && (Accepts(n, m) ==> FollowerCommits(n, m, n'))
    && (Learns(f, n, m) ==> n'.state.Leader? && LeaderCommits(f, n, n'))
    && (!Accepts(n, m) && !Learns(f, n, m) ==> n'.commitIndex == n.commitIndex)
  }

  ghost predicate RoleAndTables(f: Fixes, servers: seq<ServerId>, n: Node, src: ServerId, m: Message, n': Node) {
    && (Follows(n, m) ==> n'.state == Follower(Some(m.leaderId)))
    && (Obeys(n, m) && !m.AppendEntries? ==>
          n'.state == if n.state.Follower? then n.state else Follower(None))
    && (Counts(f, n, m) ==>
          if Wins(f, servers, n, src, m) then TakesOffice(f, servers, n')
          else n'.state == Candidate(n.state.votes + {src}))
    && (Learns(f, n, m) ==> Updates(f, n, m, n'))
    && (!Follows(n, m) && !Obeys(n, m) && !Counts(f, n, m) && !Learns(f, n, m) ==> n'.state == n.state)
  }

  /** The state is on disk before an answer leaves, and before requests if it is written first. */
  ghost predicate OnDisk(f: Fixes, servers: seq<ServerId>, n: Node, src: ServerId, m: Message, n': Node) {
    var answers := Obeys(n, m) && (m.RequestVote? || m.AppendEntries?);
    var announces := Wins(f, servers, n, src, m) && n.mem.log != [];
    n'.disk == if answers || (announces && f.persistsFirst) then Saved(f, n'.mem, n.disk) else n.disk
  }

  /** A follower answers every request, and nothing else is answered. */
  ghost predicate Answers(f: Fixes, servers: seq<ServerId>, n: Node, src: ServerId, m: Message, o: Outcome) {
    && (Obeys(n, m) && m.RequestVote? ==>
          o.out == [Packet(n.id, src, VoteResponse(o.node.mem.term, Votes(f, n, m)))])
    && (Obeys(n, m) && m.AppendEntries? ==>
          o.out == [Packet(n.id, src, AppendResponse(o.node.mem.term, n.id, o.node.commitIndex, Accepts(n, m),
                                                     if Accepts(n, m) then m.prevLogIndex + |m.entries| else 0))])
    && (Wins(f, servers, n, src, m) ==> Announces(f, servers, o.node, o.out))
    && (!(Obeys(n, m) && (m.RequestVote? || m.AppendEntries?)) && !Wins(f, servers, n, src, m) ==> o.out == [])
  }

  ghost predicate Handles(f: Fixes, servers: seq<ServerId>, n: Node, src: ServerId, m: Message, o: Outcome) {
    && o.node.id == n.id && o.node.lastApplied == n.lastApplied
    && TermAndVote(f, n, m, o.node) && LogAndCommit(f, n, m, o.node)
    && RoleAndTables(f, servers, n, src, m, o.node) && OnDisk(f, servers, n, src, m, o.node)
    && Answers(f, servers, n, src, m, o)
  }

  // ----- every step -----

  /** Memory is what the disk holds, the rest begins again. */
  ghost predicate StartsAgain(f: Fixes, n: Node, n': Node) {
    && n'.id == n.id && n'.disk == n.disk && n'.commitIndex == 0 == n'.lastApplied && n'.state == Follower(None)
    && n'.mem.term == n.disk.term && n'.mem.log == n.disk.log
    && n'.mem.votedFor == if f.reloadsVote then n.disk.votedFor else None
  }

  ghost predicate Figure2(f: Fixes, servers: seq<ServerId>, n: Node, e: Event, o: Outcome)
    requires e.Heartbeat? ==> n.state.Leader?
  {
    match e
    case Timeout(_) => Stands(f, servers, n, o)
    case Deliver(p) => Handles(f, servers, n, p.src, p.msg, o)
    case Heartbeat(_) => Beats(f, servers, n, o)
    case Request(_, command) => Proposes(f, servers, n, command, o)
    case Apply(_) => o == Outcome(n.(lastApplied := n.lastApplied + 1), [])
    case Restarted(_) => StartsAgain(f, n, o.node) && o.out == []
  }

  // ----- each step meets the rules -----

  lemma MiddleIs(numeric: bool, values: seq<nat>, m: nat)
    requires values != []
    ensures Middle(numeric, values, m) <==> m == Median(numeric, values)
  {
    hide IsSorted, Sort;
    var sorted := Sort(numeric, values);
    SortSorts(numeric, values);
    assert Median(numeric, values) == sorted[(|sorted| - 1) / 2];
    if Middle(numeric, values, m) {
      var other: seq<nat> :| IsSorted(numeric, other) && multiset(other) == multiset(values) && |other| > 0
        && m == other[(|other| - 1) / 2];
      SortedUnique(numeric, sorted, other);
    }
  }

  lemma {:induction false} ScanCommits(n: Node, m: nat, n': Node)
    requires n'.commitIndex == CommitScan(n.mem.log, n.mem.term, n.commitIndex, m)
    ensures Commits(n, m, n')
    decreases m
  {
    if n.commitIndex < m < |n.mem.log| && n.mem.log[m].term != n.mem.term {
      ScanCommits(n, m - 1, n');
    }
  }

  lemma CommitsOnce(n: Node, m: nat, a: Node, b: Node)
    requires Commits(n, m, a) && Commits(n, m, b)
    ensures a.commitIndex == b.commitIndex
  {
  }

  lemma HeldIs(n: Node)
    requires n.state.Leader?
    ensures Held(n) == Values(n.state.matchIndex)
  {
  }

  lemma SliceBegins(log: seq<Entry>, index: Index)
    ensures SliceFrom(log, index) == log[Begins(|log|, index)..]
  {
  }

  lemma RequestIs(f: Fixes, n: Node, peer: ServerId, p: Packet)
    requires n.state.Leader? && n.mem.log != []
    ensures p.src == n.id && p.dst == peer && Announcement(f, n, peer, p.msg) <==> p == AppendRequest(f, n, peer)
  {
    SliceBegins(n.mem.log, NextOf(n, peer));
  }

  lemma AnnouncesIff(f: Fixes, servers: seq<ServerId>, n: Node, out: seq<Packet>)
    requires n.state.Leader?
    ensures Announces(f, servers, n, out) <==> out == SendAppendEntries(f, servers, n).out
  {
    hide Announcement, AppendRequest;
    if n.mem.log != [] {
      var peers, sent := Peers(servers, n.id), SendAppendEntries(f, servers, n).out;
      forall i | 0 <= i < |peers| && i < |out|
        ensures out[i].src == n.id && out[i].dst == peers[i] && Announcement(f, n, peers[i], out[i].msg)
           <==> out[i] == sent[i]
      {
        RequestIs(f, n, peers[i], out[i]);
      }
    }
  }

  lemma BeatsIff(f: Fixes, servers: seq<ServerId>, n: Node, o: Outcome)
    requires n.state.Leader?
    ensures Beats(f, servers, n, o) <==> o == SendAppendEntries(f, servers, n)
  {
    hide Announces, Peers, AppendRequest;
    AnnouncesIff(f, servers, n, o.out);
  }

  /** The state of a server that takes office. */
  function Fresh(f: Fixes, servers: seq<ServerId>, n: Node): State {
    var keys := IndexKeys(f, Peers(servers, n.id));
    Leader(map k | k in keys :: Num(|n.mem.log|), FreshTable(keys))
  }

  lemma TakesOfficeIff(f: Fixes, servers: seq<ServerId>, n: Node)
    ensures TakesOffice(f, servers, n) <==> n.state == Fresh(f, servers, n)
  {
    hide Peers, Decimals.Decimal;
    var keys := IndexKeys(f, Peers(servers, n.id));
    if TakesOffice(f, servers, n) {
      assert n.state.matchIndex.keys == keys;
      assert n.state.nextIndex == map k | k in keys :: Num(|n.mem.log|);
      assert n.state.matchIndex.at == map k | k in keys :: 0;
    }
  }

  lemma UpdatesIff(f: Fixes, n: Node, m: Message, n': Node)
    requires n.state.Leader? && m.AppendResponse?
    ensures Updates(f, n, m, n') <==> n'.state == UpdateIndexes(f, n.state, m)
  {
    if Updates(f, n, m, n') {
      var next, at := n'.state.nextIndex, n'.state.matchIndex.at;
      var next2, at2 := UpdateIndexes(f, n.state, m).nextIndex, UpdateIndexes(f, n.state, m).matchIndex.at;
      forall k | k in next ensures k in next2 && next[k] == next2[k] {
        assert NextOf(n', k) == next[k];
        assert k != m.followerId ==> NextOf(n, k) == n.state.nextIndex[k];
      }
      forall k | k in at ensures k in at2 && at[k] == at2[k] {
        assert MatchOf(n', k) == at[k];
      }
      assert next == next2 && at == at2;
    }
  }

  lemma LeaderCommitsIff(f: Fixes, n: Node, n': Node)
    requires n'.state.Leader?
    ensures LeaderCommits(f, n, n') <==> n'.commitIndex == AdvanceCommit(f, n.(state := n'.state)).commitIndex
  {
    hide Median, Middle, Commits, CommitScan;
    HeldIs(n');
    var scanned, values := AdvanceCommit(f, n.(state := n'.state)), Held(n');
    if values != [] {
      var m := Median(f.matchesReplicated, values);
      MiddleIs(f.matchesReplicated, values, m);
      ScanCommits(n, m, scanned);
      if LeaderCommits(f, n, n') {
        var m' :| Middle(f.matchesReplicated, values, m') && Commits(n, m', n');
        MiddleIs(f.matchesReplicated, values, m');
        CommitsOnce(n, m, n', scanned);
      } else if n'.commitIndex == scanned.commitIndex {
        ScanCommits(n, m, n');
      }
    }
  }

  lemma AnnouncesAnyDisk(f: Fixes, servers: seq<ServerId>, n: Node, disk: Stable, out: seq<Packet>)
    requires n.state.Leader?
    ensures Announces(f, servers, n.(disk := disk), out) <==> Announces(f, servers, n, out)
  {
  }

  /** What a server does that takes office. */
  lemma OfficeIff(f: Fixes, servers: seq<ServerId>, n: Node, o: Outcome)
    ensures o == BecomeLeader(f, servers, n)
       <==> && o.node.(state := n.state, disk := n.disk) == n
            && TakesOffice(f, servers, o.node) && Announces(f, servers, o.node, o.out)
            && o.node.disk == if f.persistsFirst && n.mem.log != [] then Saved(f, n.mem, n.disk) else n.disk
  {
    hide TakesOffice, Announces, AppendRequest, Peers, IndexKeys, FreshTable;
    var n2 := n.(state := Fresh(f, servers, n));
    TakesOfficeIff(f, servers, o.node);
    AnnouncesIff(f, servers, n2, o.out);
    AnnouncesAnyDisk(f, servers, n2, o.node.disk, o.out);
    assert BecomeLeader(f, servers, n) == SendAppendEntries(f, servers, n2);
  }

  lemma RequestVoteHandles(f: Fixes, servers: seq<ServerId>, n: Node, src: ServerId, m: Message, o: Outcome)
    requires Obeys(n, m) && m.RequestVote?
    ensures Handles(f, servers, n, src, m, o) <==> o == Receive(f, servers, n, src, m)
  {
    hide Merge, TakesOffice, Announces, Updates, LeaderCommits;
    assert Votes(f, n, m) <==> GrantsVote(f, Bump(n, m), m);
  }

  lemma AppendEntriesHandles(f: Fixes, servers: seq<ServerId>, n: Node, src: ServerId, m: Message, o: Outcome)
    requires Obeys(n, m) && m.AppendEntries?
    ensures Handles(f, servers, n, src, m, o) <==> o == Receive(f, servers, n, src, m)
  {
    hide Merge, TakesOffice, Announces, Updates, LeaderCommits;
    assert Accepts(n, m) <==> m.term >= n.mem.term && Matches(n.mem.log, m);
  }

  lemma ResponseObeyed(f: Fixes, servers: seq<ServerId>, n: Node, src: ServerId, m: Message, o: Outcome)
    requires Obeys(n, m) && !m.RequestVote? && !m.AppendEntries?
    ensures Handles(f, servers, n, src, m, o) <==> o == Receive(f, servers, n, src, m)
  {
    hide Merge, TakesOffice, Announces, Updates, LeaderCommits;
  }

  lemma CandidateHandles(f: Fixes, servers: seq<ServerId>, n: Node, src: ServerId, m: Message, o: Outcome)
    requires n.state.Candidate? && !Obeys(n, m)
    ensures Handles(f, servers, n, src, m, o) <==> o == Receive(f, servers, n, src, m)
  {
    hide Merge, TakesOffice, Announces, Updates, LeaderCommits, BecomeLeader;
    if Wins(f, servers, n, src, m) {
      OfficeIff(f, servers, n.(state := Candidate(n.state.votes + {src})), o);
    }
  }

  lemma AdvanceKeeps(f: Fixes, n: Node)
    requires n.state.Leader?
    ensures AdvanceCommit(f, n) == n.(commitIndex := AdvanceCommit(f, n).commitIndex)
  {
  }

  lemma UpdatedLeads(f: Fixes, leader: State, m: Message)
    requires leader.Leader? && m.AppendResponse?
    ensures UpdateIndexes(f, leader, m).Leader?
  {
  }

  lemma LeaderHandles(f: Fixes, servers: seq<ServerId>, n: Node, src: ServerId, m: Message, o: Outcome)
    requires n.state.Leader? && !Obeys(n, m)
    ensures Handles(f, servers, n, src, m, o) <==> o == Receive(f, servers, n, src, m)
  {
    hide Merge, TakesOffice, Announces, Updates, LeaderCommits, UpdateIndexes, AdvanceCommit;
    if Learns(f, n, m) {
      UpdatesIff(f, n, m, o.node);
      UpdatedLeads(f, n.state, m);
      if o.node.state.Leader? {
        LeaderCommitsIff(f, n, o.node);
      }
      AdvanceKeeps(f, n.(state := UpdateIndexes(f, n.state, m)));
    }
  }

  lemma AsksIff(servers: seq<ServerId>, n: Node, n': Node, out: seq<Packet>)
    requires n'.mem == n.mem && n'.id == n.id
    ensures Asks(servers, n', out) <==> out == VoteRequests(servers, n)
  {
  }

  lemma StandsAlone(f: Fixes, servers: seq<ServerId>, n: Node, o: Outcome)
    requires |servers| < 2
    ensures Stands(f, servers, n, o) <==> o == StartElection(f, servers, n)
  {
    hide TakesOffice, Announces, BecomeLeader, Peers, Asks, VoteRequests;
    var n1 := Stand(f, n);
    var won, votes := BecomeLeader(f, servers, n1), VoteRequests(servers, n1);
    var first := if n.mem.log != [] then |Peers(servers, n.id)| else 0;
    OfficeIff(f, servers, n1, won);
    AnnouncesCount(f, servers, won.node, won.out);
    assert StartElection(f, servers, n) == Outcome(won.node, won.out + votes);
    assert |won.out| == first;
    if first <= |o.out| {
      OfficeIff(f, servers, n1, Outcome(o.node, o.out[..first]));
      if o.node.mem == n1.mem && o.node.id == n1.id {
        AsksIff(servers, n1, o.node, o.out[first..]);
      }
      assert o.out == o.out[..first] + o.out[first..];
      assert (won.out + votes)[..first] == won.out && (won.out + votes)[first..] == votes;
    }
  }

  lemma AnnouncesCount(f: Fixes, servers: seq<ServerId>, n: Node, out: seq<Packet>)
    requires Announces(f, servers, n, out)
    ensures |out| == if n.mem.log != [] then |Peers(servers, n.id)| else 0
  {
  }

  lemma StandsIff(f: Fixes, servers: seq<ServerId>, n: Node, o: Outcome)
    ensures Stands(f, servers, n, o) <==> o == StartElection(f, servers, n)
  {
    hide TakesOffice, Announces, BecomeLeader, Peers, Asks, VoteRequests;
    if |servers| < 2 {
      StandsAlone(f, servers, n, o);
    } else {
      var n1 := Stand(f, n);
      assert o.out[0..] == o.out && [] + VoteRequests(servers, n1) == VoteRequests(servers, n1);
      if o.node.mem == n1.mem && o.node.id == n1.id {
        AsksIff(servers, n1, o.node, o.out);
      }
    }
  }

  // ----- the steps are the rules -----

  /** Under every policy, for every cluster, server and event: what the server does is the one
      thing that meets the rules. */
  lemma StepIff(f: Fixes, servers: seq<ServerId>, n: Node, e: Event, o: Outcome)
    requires e.Heartbeat? ==> n.state.Leader?
    requires e.Apply? ==> CanApply(n)
    ensures o == React(f, servers, n, e) <==> Figure2(f, servers, n, e, o)
  {
    hide Stands, StartElection, Handles, Receive, Beats, SendAppendEntries;
    match e
    case Timeout(_) => StandsIff(f, servers, n, o);
    case Deliver(p) => MessageIff(f, servers, n, p.src, p.msg, o);
    case Heartbeat(_) => BeatsIff(f, servers, n, o);
    case Request(_, command) =>
      if n.state.Leader? {
        BeatsIff(f, servers, n.(mem := n.mem.(log := n.mem.log + [Entry(command, |n.mem.log|, n.mem.term)])), o);
      }
    case Apply(_) =>
    case Restarted(_) =>
  }

  lemma MessageIff(f: Fixes, servers: seq<ServerId>, n: Node, src: ServerId, m: Message, o: Outcome)
    ensures o == Receive(f, servers, n, src, m) <==> Handles(f, servers, n, src, m, o)
  {
    hide Receive, Handles;
    if Obeys(n, m) {
      match m
      case RequestVote(_, _, _, _) => RequestVoteHandles(f, servers, n, src, m, o);
      case AppendEntries(_, _, _, _, _, _) => AppendEntriesHandles(f, servers, n, src, m, o);
      case _ => ResponseObeyed(f, servers, n, src, m, o);
    } else if n.state.Candidate? {
      CandidateHandles(f, servers, n, src, m, o);
    } else {
      LeaderHandles(f, servers, n, src, m, o);
    }
  }

  /** Under every policy a candidate that hears from the leader of its own term follows it. */
  lemma CandidateFollows(f: Fixes, servers: seq<ServerId>, n: Node, src: ServerId, m: Message)
    requires n.state.Candidate? && m.AppendEntries? && m.term == n.mem.term
    ensures Receive(f, servers, n, src, m) == Outcome(n.(state := Follower(Some(m.leaderId))), [])
  {
    hide Receive;
    MessageIff(f, servers, n, src, m, Outcome(n.(state := Follower(Some(m.leaderId))), []));
  }

  /** Under every policy a success that a leader learns of leaves nextIndex one above matchIndex,
      and a failure leaves matchIndex alone. */
  lemma SuccessSetsNext(f: Fixes, servers: seq<ServerId>, n: Node, src: ServerId, m: Message)
    requires Learns(f, n, m)
    ensures var n' := Receive(f, servers, n, src, m).node;
      && n'.state.Leader? && m.followerId in n'.state.nextIndex
      && (m.success ==> n'.state.nextIndex[m.followerId] == Num(n'.state.matchIndex.Get(m.followerId) + 1))
      && (!m.success ==> n'.state.matchIndex == n.state.matchIndex)
  {
    hide Receive, TakesOffice, Announces, LeaderCommits;
    MessageIff(f, servers, n, src, m, Receive(f, servers, n, src, m));
  }

  // ----- no correction is idle -----

  /** Every step of every server does what the corrected rules ask. */
  ghost predicate AlwaysFigure2(f: Fixes) {
    forall servers, n, e :: Possible(n, e) ==> Figure2(CORRECTED, servers, n, e, React(f, servers, n, e))
  }

  ghost predicate Possible(n: Node, e: Event) {
    (e.Heartbeat? ==> n.state.Leader?) && (e.Apply? ==> CanApply(n))
  }

  /** A step on which a policy and the corrected one differ. */
  ghost predicate Differs(f: Fixes, servers: seq<ServerId>, n: Node, e: Event) {
    Possible(n, e) && React(f, servers, n, e) != React(CORRECTED, servers, n, e)
  }

  const TRIO: seq<ServerId> := ["a", "b", "c"]
  const E1 := Entry([1], 1, 1)
  const E2 := Entry([2], 2, 2)

  /** Server "a" with this much in memory and on disk. */
  function At(mem: Stable, disk: Stable, state: State): Node {
    Node("a", mem, disk, 0, 0, state)
  }

  function From(m: Message): Event {
    Deliver(Packet("b", "a", m))
  }

  lemma UnstoredGrant(f: Fixes) returns (n: Node, e: Event)
    requires !f.recordsGrant
    ensures Differs(f, TRIO, n, e)
  {
    n := At(Stable(1, None, [SENTINEL]), Stable(1, None, [SENTINEL]), Follower(None));
    e := From(RequestVote(1, "b", 0, 0));
  }

  lemma UncomparedLogs(f: Fixes) returns (n: Node, e: Event)
    requires !f.comparesLogs
    ensures Differs(f, TRIO, n, e)
  {
    n := At(Stable(1, None, [SENTINEL, E1]), Stable(1, None, [SENTINEL]), Follower(None));
    e := From(RequestVote(1, "b", 0, 0));
  }

  lemma AnyTermCounted(f: Fixes) returns (n: Node, e: Event)
    requires !f.countsOwnTerm
    ensures Differs(f, TRIO, n, e)
  {
    hide BecomeLeader;
    n := At(Stable(2, Some("a"), [SENTINEL]), Stable(2, None, [SENTINEL]), Candidate({"a"}));
    e := From(VoteResponse(1, true));
    var counted := n.(state := Candidate({"a"} + {"b"}));
    assert "b" in counted.state.votes && "b" !in {"a"};
    OfficeIff(f, TRIO, counted, BecomeLeader(f, TRIO, counted));
  }

  lemma UnwrittenRequest(f: Fixes) returns (n: Node, e: Event)
    requires !f.persistsFirst
    ensures Differs(f, TRIO, n, e)
  {
    n, e := Boot("a"), Timeout("a");
  }

  lemma UnreadVote(f: Fixes) returns (n: Node, e: Event)
    requires !f.reloadsVote
    ensures Differs(f, TRIO, n, e)
  {
    n := At(Stable(1, Some("b"), [SENTINEL]), Stable(1, Some("b"), [SENTINEL]), Follower(None));
    e := Restarted("a");
  }

  lemma UnwrittenLog(f: Fixes) returns (n: Node, e: Event)
    requires !f.keepsLog
    ensures Differs(f, TRIO, n, e)
  {
    n := At(Stable(1, None, [SENTINEL, E1]), Stable(1, None, [SENTINEL]), Follower(None));
    e := From(RequestVote(0, "b", 0, 0));
  }

  lemma LastEntryNamed(f: Fixes) returns (n: Node, e: Event)
    requires !f.sendsFromNextIndex
    ensures Differs(f, TRIO, n, e)
  {
    var led := Stable(1, Some("a"), [SENTINEL, E1]);
    n, e := At(led, led, Leader(map["b" := Num(1)], Table([], map[]))), Heartbeat("a");
    assert Peers(TRIO, "a") == ["b", "c"] by {
      assert TRIO[1..] == ["b", "c"] && ["b", "c"][1..] == ["c"];
    }
    var sent, asked := AppendRequest(f, n, "b"), AppendRequest(CORRECTED, n, "b");
    assert sent.msg.prevLogIndex == 1 && asked.msg.prevLogIndex == 0;
    assert React(f, TRIO, n, e).out[0] == sent && React(CORRECTED, TRIO, n, e).out[0] == asked;
  }

  lemma LastTermCompared(f: Fixes) returns (n: Node, e: Event)
    requires !f.mergesByPosition
    ensures Differs(f, TRIO, n, e)
  {
    AsWrittenLosesEntries();
    n := At(Stable(2, None, [SENTINEL, E1, E2]), Stable(2, None, [SENTINEL]), Follower(None));
    e := From(AppendEntries(2, "b", [E1, E2], 0, 0, 0));
  }

  lemma AnyTermLearnt(f: Fixes) returns (n: Node, e: Event)
    requires !f.matchesReplicated
    ensures Differs(f, TRIO, n, e)
  {
    n := At(Stable(1, Some("a"), [SENTINEL]), Stable(1, None, [SENTINEL]), Leader(map[], Table([], map[])));
    e := From(AppendResponse(0, "b", 0, true, 0));
  }

  lemma DifferingStep(f: Fixes) returns (n: Node, e: Event)
    requires f != CORRECTED
    ensures Differs(f, TRIO, n, e)
  {
    hide Differs;
    if !f.recordsGrant {
      n, e := UnstoredGrant(f);
    } else if !f.comparesLogs {
      n, e := UncomparedLogs(f);
    } else if !f.countsOwnTerm {
      n, e := AnyTermCounted(f);
    } else if !f.persistsFirst {
      n, e := UnwrittenRequest(f);
    } else if !f.reloadsVote {
      n, e := UnreadVote(f);
    } else if !f.keepsLog {
      n, e := UnwrittenLog(f);
    } else if !f.sendsFromNextIndex {
      n, e := LastEntryNamed(f);
    } else if !f.mergesByPosition {
      n, e := LastTermCompared(f);
    } else {
      n, e := AnyTermLearnt(f);
    }
  }

  /** Every step is Figure 2's exactly when every correction is in: without any one of them,
      whatever the others, some step is not. */
  lemma AlwaysFigure2Iff(f: Fixes)
    ensures AlwaysFigure2(f) <==> f == CORRECTED
  {
    hide Figure2, React;
    if f == CORRECTED {
      forall servers, n, e | Possible(n, e) ensures Figure2(CORRECTED, servers, n, e, React(f, servers, n, e)) {
        StepIff(CORRECTED, servers, n, e, React(f, servers, n, e));
      }
    } else {
      var n, e := DifferingStep(f);
      StepIff(CORRECTED, TRIO, n, e, React(f, TRIO, n, e));
    }
  }
}
