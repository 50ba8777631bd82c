/** The log, and one server with its three states, as objects updated in place. Each method is
    proved to do exactly what its function in Nodes says, which is what the runs are made of. */
module Servers {
  import opened RaftTypes
  import opened Awaits
  import opened Nodes
  import Logs
  import Medians

  class Log {
    var entries: seq<Entry>

    constructor ()
      ensures entries == [SENTINEL]
    {
      entries := [SENTINEL];
    }

    method Append(entry: Entry)
      modifies this
      ensures entries == old(entries) + [entry]
    {
      entries := entries + [entry];
    }

    /** slice(0, index): everything from index on is dropped. */
    method TruncateAt(index: nat)
      modifies this
      ensures entries == if index <= |old(entries)| then old(entries)[..index] else old(entries)
    {
      if index <= |entries| {
        entries := entries[..index];
      }
    }

    /** An index past the end reads undefined. */
    method GetEntry(index: nat) returns (entry: Option<Entry>)
      ensures entry == if index < |entries| then Some(entries[index]) else None
    {
      entry := if index < |entries| then Some(entries[index]) else None;
    }
  }

  class Server {
    const fixes: Fixes
    const servers: seq<ServerId>
    const id: ServerId
    const log: Log
    var currentTerm: nat
    var votedFor: Option<ServerId>
    var disk: Stable
    var commitIndex: nat
    var lastApplied: nat
    var state: State
    var sent: seq<Packet>

    /** The server as a value. */
    function View(): Node
      reads this, log
    {
      Node(id, Stable(currentTerm, votedFor, log.entries), disk, commitIndex, lastApplied, state)
    }

    constructor (fixes: Fixes, servers: seq<ServerId>, id: ServerId)
      ensures fresh(log)
      ensures this.fixes == fixes && this.servers == servers && this.id == id
      ensures View() == Boot(id) && sent == []
    {
      this.fixes, this.servers, this.id := fixes, servers, id;
      log := new Log();
      currentTerm, votedFor := 0, None;
      disk := Stable(0, None, [SENTINEL]);
      commitIndex, lastApplied := 0, 0;
      state := Follower(None);
      sent := [];
    }

    /** A crash followed by start(). */
    method Start()
      modifies this, log
      ensures View() == Restart(fixes, old(View())) && sent == old(sent)
    {
      commitIndex, lastApplied := 0, 0;
      currentTerm := disk.term;
      votedFor := if fixes.reloadsVote then disk.votedFor else None;
      log.entries := disk.log;
      state := Follower(None);
    }

    // ----- term, vote and disk -----

    /** A new term, and no vote in it yet. */
    method SetCurrentTerm(newTerm: nat)
      modifies this`currentTerm, this`votedFor
      ensures View() == SetTerm(old(View()), newTerm)
    {
      currentTerm := newTerm;
      votedFor := None;
    }

    /** log.write(), as written a no-op. */
    method WriteLog()
      modifies this`disk
      ensures View() == WriteFile(fixes, old(View()), LogFile)
    {
      if fixes.keepsLog {
        disk := disk.(log := log.entries);
      }
    }

    method WriteTerm()
      modifies this`disk
      ensures View() == WriteFile(fixes, old(View()), TermFile)
    {
      disk := disk.(term := currentTerm);
    }

    method WriteVote()
      modifies this`disk
      ensures View() == WriteFile(fixes, old(View()), VoteFile)
    {
      disk := disk.(votedFor := votedFor);
    }

    /** The three files, one after another. */
    method UpdatePersistentState()
      modifies this`disk
      ensures View() == Persist(fixes, old(View()))
    {
      WriteLog();
      WriteTerm();
      WriteVote();
    }

    /** The state is on disk before a response leaves. */
    method SendRpcMessage(endpoint: ServerId, message: Message)
      modifies this`disk, this`sent
      ensures sent == old(sent) + [Packet(id, endpoint, message)]
      ensures View() == if message.VoteResponse? || message.AppendResponse? then Persist(fixes, old(View()))
                        else PersistForRequest(fixes, old(View()))
    {
      if message.VoteResponse? || message.AppendResponse? || fixes.persistsFirst {
        UpdatePersistentState();
      }
      sent := sent + [Packet(id, endpoint, message)];
    }

    // ----- leader -----

    /** One request to each peer, in the order of the cluster map. */
    method SendAppendRequests()
      requires state.Leader?
      modifies this`disk, this`sent
      ensures var o := SendAppendEntries(fixes, servers, old(View()));
        View() == o.node && sent == old(sent) + o.out
    {
      if log.entries == [] {
        return;
      }
      if fixes.persistsFirst {
        UpdatePersistentState();
      }
      var peers := Peers(servers, id);
      ghost var n := old(View());
      ghost var out := SendAppendEntries(fixes, servers, n).out;
      for i := 0 to |peers|
        invariant View() == PersistForRequest(fixes, n)
        invariant sent == old(sent) + out[..i]
      {
        var request := AppendRequest(fixes, View(), peers[i]);
        SendRpcMessage(peers[i], request.msg);
        assert out[i] == request;
        assert out[..i + 1] == out[..i] + [out[i]];
      }
    }

    /** The two tables of enter(), filled key by key. */
    method FreshIndexes(keys: seq<ServerId>) returns (leader: State)
      ensures leader == Leader(map k | k in keys :: Num(|log.entries|), FreshTable(keys))
    {
      var nextIndex: map<ServerId, Index> := map[];
      var at: map<ServerId, nat> := map[];
      for i := 0 to |keys|
        invariant nextIndex == map k | k in keys[..i] :: Num(|log.entries|)
        invariant at == map k | k in keys[..i] :: 0
      {
        nextIndex := nextIndex[keys[i] := Num(|log.entries|)];
        at := at[keys[i] := 0];
      }
      assert keys[..|keys|] == keys;
      leader := Leader(nextIndex, Table(keys, at));
    }

    /** LeaderState.enter: the tables, then the first heartbeat. */
    method EnterLeader()
      modifies this`state, this`disk, this`sent
      ensures var o := BecomeLeader(fixes, servers, old(View()));
        View() == o.node && sent == old(sent) + o.out
    {
      hide SendAppendEntries, FreshTable, IndexKeys, Peers;
      var peers := Peers(servers, id);
      state := FreshIndexes(IndexKeys(fixes, peers));
      SendAppendRequests();
    }

    /** A client command. */
    method Execute(command: Bytes)
      modifies this, log
      ensures var o := ClientRequest(fixes, servers, old(View()), command);
        View() == o.node && sent == old(sent) + o.out
    {
      if state.Leader? {
        log.Append(Entry(command, |log.entries|, currentTerm));
        SendAppendRequests();
      }
    }

    /** Object.values(matchIndex).sort() and its middle. */
    method GetMedianMatchIndex() returns (median: nat)
      requires state.Leader? && Values(state.matchIndex) != []
      ensures median == Medians.Median(fixes.matchesReplicated, Values(state.matchIndex))
      ensures fixes.matchesReplicated ==>
        var values := Values(state.matchIndex);
        Medians.MajorityOf(|values| + 1, 1 + Medians.Reaching(values, median))
    {
      var sorted := Medians.Sort(fixes.matchesReplicated, Values(state.matchIndex));
      var medianPos := |sorted| / 2;
      median := if |sorted| % 2 == 1 then sorted[medianPos] else sorted[medianPos - 1];
      if fixes.matchesReplicated {
        Medians.MedianIsMajorityIndex(Values(state.matchIndex));
      }
    }

    /** The loop over N; its bound is commitIndex, read again after each change. */
    method CommitFrom(median: nat)
      modifies this`commitIndex
      ensures View() == old(View()).(commitIndex := CommitScan(log.entries, currentTerm, old(commitIndex), median))
    {
      var n: int := median;
      while n > commitIndex
        invariant n >= 0
        invariant commitIndex == old(commitIndex)
          ==> n >= 0 && CommitScan(log.entries, currentTerm, old(commitIndex), median)
                        == CommitScan(log.entries, currentTerm, old(commitIndex), n)
        invariant commitIndex != old(commitIndex)
          ==> n < commitIndex == CommitScan(log.entries, currentTerm, old(commitIndex), median)
        decreases n
      {
        var entry := log.GetEntry(n);
        if entry == None {
          return;   // reading the term of undefined throws
        }
        if entry.value.term == currentTerm {
          commitIndex := n;
        }
        n := n - 1;
      }
    }

    /** A leader hears from a follower: tables, then commit index. */
    method HandleAppendEntriesRpcResponse(message: Message)
      requires state.Leader? && message.AppendResponse?
      modifies this`state, this`commitIndex
      ensures View() == OnAppendResponse(fixes, old(View()), message).node
    {
      if fixes.matchesReplicated && message.term != currentTerm {
        return;
      }
      UpdateFollowerIndexes(message);
      if Values(state.matchIndex) != [] {
        var median := GetMedianMatchIndex();
        CommitFrom(median);
      }
    }

    method UpdateFollowerIndexes(message: Message)
      requires state.Leader? && message.AppendResponse?
      modifies this`state
      ensures state == UpdateIndexes(fixes, old(state), message)
    {
      var peer, nextIndex, matchIndex := message.followerId, state.nextIndex, state.matchIndex;
      if message.success {
        var matched := message.followerCommit;
        if fixes.matchesReplicated {
          matched := matchIndex.Get(peer);
          if message.replicatedTo > matched {
            matched := message.replicatedTo;
          }
        }
        matchIndex := matchIndex.Put(peer, matched);
        nextIndex := nextIndex[peer := Num(matched + 1)];
      } else if peer !in nextIndex || nextIndex[peer] == NotANumber {
        nextIndex := nextIndex[peer := NotANumber];   // undefined - 1 is NaN
      } else {
        var next := nextIndex[peer].value - 1;
        if fixes.sendsFromNextIndex && next < matchIndex.Get(peer) + 1 {
          next := matchIndex.Get(peer) + 1;
        }
        nextIndex := nextIndex[peer := Num(next)];
      }
      state := Leader(nextIndex, matchIndex);
    }

    // ----- candidate -----

    /** requestVotes: one request to each peer; reading the last entry of an emptied log throws. */
    method SendVoteRequests()
      modifies this`disk, this`sent
      ensures sent == old(sent) + VoteRequests(servers, old(View()))
      ensures View() ==
        if VoteRequests(servers, old(View())) == [] then old(View()) else PersistForRequest(fixes, old(View()))
    {
      var lastLogIndex := |log.entries| - 1;
      if lastLogIndex < 0 {
        return;
      }
      var peers := Peers(servers, id);
      ghost var n := old(View());
      ghost var out := VoteRequests(servers, n);
      for i := 0 to |peers|
        invariant View() == if i == 0 then n else PersistForRequest(fixes, n)
        invariant sent == old(sent) + out[..i]
      {
        SendRpcMessage(peers[i], RequestVote(currentTerm, id, lastLogIndex, log.entries[lastLogIndex].term));
        assert out[..i + 1] == out[..i] + [out[i]];
      }
    }

    /** tallyVote: count a vote, and lead with a majority. */
    method TallyVote(endpoint: ServerId)
      requires state.Candidate?
      modifies this`state, this`disk, this`sent
      ensures var n := old(View()).(state := Candidate(old(state).votes + {endpoint}));
        var o := if IsMajority(servers, n.state.votes) then BecomeLeader(fixes, servers, n) else Outcome(n, []);
        View() == o.node && sent == old(sent) + o.out
    {
      hide BecomeLeader;
      state := Candidate(state.votes + {endpoint});
      if IsMajority(servers, state.votes) {
        EnterLeader();
      }
    }

    /** The election timeout, and startElection. */
    method Timeout()
      modifies this`state, this`disk, this`sent, this`currentTerm, this`votedFor
      ensures var o := StartElection(fixes, servers, old(View()));
        View() == o.node && sent == old(sent) + o.out
    {
      hide BecomeLeader, VoteRequests;
      state := Candidate({});
      SetCurrentTerm(currentTerm + 1);
      votedFor := Some(id);
      if fixes.persistsFirst {
        UpdatePersistentState();
      }
      ghost var n := View();
      assert {} + {id} == {id};
      TallyVote(id);
      ghost var won := View();
      Unelected(fixes, servers, n.(state := Candidate({id})), won);
      SendVoteRequests();
    }

    /** A candidate hears from a voter. */
    method HandleRequestVoteRpcResponse(endpoint: ServerId, message: Message)
      requires state.Candidate? && message.VoteResponse?
      modifies this`state, this`disk, this`sent
      ensures var o := OnVoteResponse(fixes, servers, old(View()), endpoint, message);
        View() == o.node && sent == old(sent) + o.out
    {
      hide BecomeLeader;
      if message.voteGranted && (!fixes.countsOwnTerm || message.term == currentTerm) {
        TallyVote(endpoint);
      }
    }

    // ----- follower -----

    /** A follower votes, or not. */
    method HandleRequestVoteRpcRequest(endpoint: ServerId, message: Message)
      requires state.Follower? && message.RequestVote?
      modifies this`votedFor, this`disk, this`sent
      ensures var o := OnRequestVote(fixes, old(View()), endpoint, message);
        View() == o.node && sent == old(sent) + o.out
    {
      var voteGranted := message.term >= currentTerm && (votedFor == None || votedFor == Some(message.candidateId));
      if fixes.comparesLogs && !UpToDate(message.lastLogTerm, message.lastLogIndex, log.entries) {
        voteGranted := false;
      }
      if voteGranted && fixes.recordsGrant {
        votedFor := Some(message.candidateId);
      }
      SendRpcMessage(endpoint, VoteResponse(currentTerm, voteGranted));
    }

    /** The merge loop over the entries of a request. */
    method MergeEntries(entries: seq<Entry>)
      modifies log
      ensures log.entries == Logs.Merge(fixes.mergesByPosition, old(log.entries), entries)
    {
      ghost var before := log.entries;
      for i := 0 to |entries|
        invariant log.entries == Logs.Merge(fixes.mergesByPosition, before, entries[..i])
      {
        var entry := entries[i];
        if Logs.HasEntry(log.entries, entry.index) {
          var stored := if fixes.mergesByPosition then log.entries[entry.index].term else Logs.LastTerm(log.entries);
          if entry.term != stored {
            log.TruncateAt(entry.index);
            if fixes.mergesByPosition {
              log.Append(entry);
            }
          }
        } else if entry.index == |log.entries| {
          log.Append(entry);
        }
        assert entries[..i + 1][..i] == entries[..i];
      }
      assert entries[..|entries|] == entries;
    }

    /** A follower hears from a leader. */
    method HandleAppendEntriesRpcRequest(endpoint: ServerId, message: Message)
      requires state.Follower? && message.AppendEntries?
      modifies this`state, this`disk, this`commitIndex, this`sent, log
      ensures var o := OnAppendEntries(fixes, old(View()), endpoint, message);
        View() == o.node && sent == old(sent) + o.out
    {
      hide Logs.Merge;
      state := Follower(Some(message.leaderId));
      if message.term < currentTerm || !Matches(log.entries, message) {
        SendRpcMessage(endpoint, AppendResponse(currentTerm, id, commitIndex, false, 0));
        return;
      }
      MergeEntries(message.entries);
      if message.leaderCommit > commitIndex {
        var entries := message.entries;
        if |entries| > 0 && entries[|entries| - 1].index < message.leaderCommit {
          commitIndex := entries[|entries| - 1].index;
        } else {
          commitIndex := message.leaderCommit;
        }
      }
      SendRpcMessage(endpoint, AppendResponse(currentTerm, id, commitIndex, true,
          message.prevLogIndex + |message.entries|));
    }

    // ----- any server -----

    /** Server.handleRpcMessage: the term check, then the state's own handler. */
    method HandleRpcMessage(endpoint: ServerId, message: Message)
      modifies this, log
      ensures var o := Receive(fixes, servers, old(View()), endpoint, message);
        View() == o.node && sent == old(sent) + o.out
    {
      hide OnVoteResponse, OnAppendResponse, OnAppendEntries, OnRequestVote;
      if message.term > currentTerm {
        SetCurrentTerm(message.term);
        if !state.Follower? {
          state := Follower(if message.AppendEntries? then Some(message.leaderId) else None);
        }
      }
      assert View() == Bump(old(View()), message);
      match state
      case Follower(_) =>
        if message.AppendEntries? {
          HandleAppendEntriesRpcRequest(endpoint, message);
        } else if message.RequestVote? {
          HandleRequestVoteRpcRequest(endpoint, message);
        }
      case Candidate(_) =>
        if message.AppendEntries? {
          if message.term >= currentTerm {
            state := Follower(Some(message.leaderId));
          }
        } else if message.VoteResponse? {
          HandleRequestVoteRpcResponse(endpoint, message);
        }
      case Leader(_, _) =>
        if message.AppendResponse? {
          HandleAppendEntriesRpcResponse(message);
          ResponseSendsNothing(fixes, Bump(old(View()), message), message);
        }
    }
  }

  lemma ResponseSendsNothing(f: Fixes, n: Node, m: Message)
    requires n.state.Leader? && m.AppendResponse?
    ensures OnAppendResponse(f, n, m).out == []
  {
  }

  /** Whether or not the vote for itself already won, the requests are the candidate's. */
  lemma Unelected(f: Fixes, servers: seq<ServerId>, n: Node, won: Node)
    requires n.state == Candidate({n.id}) && (f.persistsFirst ==> Persist(f, n) == n)
    requires won == if IsMajority(servers, n.state.votes) then BecomeLeader(f, servers, n).node else n
    ensures VoteRequests(servers, won) == VoteRequests(servers, n)
    ensures PersistForRequest(f, won) == won
  {
    var keys := IndexKeys(f, Peers(servers, n.id));
    var n1 := n.(state := Leader(map k | k in keys :: Num(|n.mem.log|), FreshTable(keys)));
    assert PersistForRequest(f, n1) == n1;
  }
}
