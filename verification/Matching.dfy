/** Log Matching under the four vote corrections alone: however requests are built, logs
    merged, written and read back, every log stays a copy of leaders' logs. */
module Matching {
  import opened RaftTypes
  import opened Logs
  import opened Medians
  import opened Nodes
  import opened Clusters
  import Election
  import Durability
  import Replication

  // ----- the invariant -----

  /** Each entry sits where the leader of its term put it, on top of the same prefix. The log
      may be empty: the merge as written can drop even the empty first entry. */
  ghost predicate Traced(h: History, log: seq<Entry>) {
    forall k :: 0 <= k < |log| ==>
      && log[k].index == k
      && (if log[k].term == 0 then k == 0 && log[k] == SENTINEL else Replication.FromLeader(h, log, k))
  }

  ghost predicate ReignsOk(h: History) {
    && (forall t :: t in h.reigns ==> t > 0 && Traced(h, h.reigns[t].log) && Win(t, h.reigns[t].leader) in h.wins)
    && (forall w :: w in h.wins ==> Candidacy(w.leader, w.term) in h.candidacies)
  }

  ghost predicate StoodUpTo(h: History, id: ServerId, term: nat) {
    forall c :: c in h.candidacies && c.server == id ==> c.term <= term
  }

  ghost predicate NodeOk(h: History, n: Node) {
    && Traced(h, n.mem.log) && Traced(h, n.disk.log)
    && StoodUpTo(h, n.id, n.mem.term) && StoodUpTo(h, n.id, n.disk.term)
    && (n.state.Candidate? ==>
          n.mem.term > 0 && Win(n.mem.term, n.id) !in h.wins && Candidacy(n.id, n.mem.term) in h.candidacies)
    && (n.state.Leader? ==>
          n.mem.term in h.reigns && h.reigns[n.mem.term].leader == n.id && h.reigns[n.mem.term].log == n.mem.log)
  }

  /** The request carries the end of the leader's log as it was: entries from start to length,
      and the term of the entry before them, or, as written, of the last one. */
  ghost predicate Carries(log: seq<Entry>, m: Message, start: nat, length: nat)
    requires m.AppendEntries?
  {
    && start <= length <= |log| && m.entries == log[start..length]
    && m.prevLogIndex < length && m.prevLogTerm == log[m.prevLogIndex].term
    && (m.prevLogIndex + 1 == start || m.prevLogIndex + 1 == length)
  }

  ghost predicate PacketOk(h: History, p: Packet) {
    p.msg.AppendEntries? ==>
      p.msg.term in h.reigns &&
          exists start: nat, length: nat :: Carries(h.reigns[p.msg.term].log, p.msg, start, length)
  }

  ghost predicate Inv(servers: seq<ServerId>, c: Cluster) {
    && Election.Inv(servers, c)
    && ReignsOk(c.history)
    && (forall s :: s in c.nodes ==> NodeOk(c.history, c.nodes[s]))
    && (forall p :: p in c.network ==> PacketOk(c.history, p))
  }

  /** Two traced logs that agree on a term agree up to it. */
  lemma SameTermSamePrefix(h: History, a: seq<Entry>, b: seq<Entry>, i: nat)
    requires Traced(h, a) && Traced(h, b) && i < |a| && i < |b| && a[i].term == b[i].term
    ensures a[..i + 1] == b[..i + 1]
  {
    if a[i].term == 0 {
      assert a[..1] == [SENTINEL] == b[..1];
    }
  }

  // ----- growth -----

  /** One server's step: leaders' logs only grow, other servers stand and win nothing. */
  ghost predicate Grows(h: History, h': History, id: ServerId) {
    && (forall t :: t in h.reigns ==>
          t in h'.reigns && h'.reigns[t].leader == h.reigns[t].leader && h.reigns[t].log <= h'.reigns[t].log)
    && (forall t :: t in h.reigns && h.reigns[t].leader != id ==> h'.reigns[t].log == h.reigns[t].log)
    && (forall c :: c in h.candidacies ==> c in h'.candidacies)
    && (forall c :: c in h'.candidacies && c.server != id ==> c in h.candidacies)
    && (forall w :: w in h'.wins && w.leader != id ==> w in h.wins)
  }

  lemma TracedStays(h: History, h': History, id: ServerId, log: seq<Entry>)
    requires Grows(h, h', id) && Traced(h, log)
    ensures Traced(h', log)
  {
    forall k | 0 <= k < |log| && log[k].term != 0 ensures Replication.FromLeader(h', log, k) {
      assert Replication.FromLeader(h, log, k);
    }
  }

  lemma TracedPrefix(h: History, log: seq<Entry>, part: seq<Entry>)
    requires Traced(h, log) && part <= log
    ensures Traced(h, part)
  {
    forall k | 0 <= k < |part| && part[k].term != 0 ensures Replication.FromLeader(h, part, k) {
      assert Replication.FromLeader(h, log, k);
      assert part[..k + 1] == log[..k + 1];
    }
  }

  lemma OtherNodeOk(h: History, h': History, id: ServerId, n: Node)
    requires Grows(h, h', id) && n.id != id && NodeOk(h, n)
    ensures NodeOk(h', n)
  {
    hide Traced;
    TracedStays(h, h', id, n.mem.log);
    TracedStays(h, h', id, n.disk.log);
  }

  lemma PacketStaysOk(h: History, h': History, id: ServerId, p: Packet)
    requires Grows(h, h', id) && PacketOk(h, p)
    ensures PacketOk(h', p)
  {
    if p.msg.AppendEntries? {
      var log, log' := h.reigns[p.msg.term].log, h'.reigns[p.msg.term].log;
      var start: nat, length: nat :| Carries(log, p.msg, start, length);
      assert log'[start..length] == log[start..length];
      assert Carries(log', p.msg, start, length);
    }
  }

  // ----- merging -----

  /** Entries that all lie within the log: as written the loop can only cut it, once. */
  lemma {:induction false} AsWrittenOnlyCuts(log: seq<Entry>, start: nat, entries: seq<Entry>)
    requires start + |entries| <= |log| && forall k :: 0 <= k < |entries| ==> entries[k].index == start + k
    ensures var merged := Merge(false, log, entries);
      merged == log || (merged <= log && |merged| < start + |entries|)
  {
    if entries != [] {
      AsWrittenOnlyCuts(log, start, entries[..|entries| - 1]);
    }
  }

  lemma {:induction false} ByPositionKeeps(log: seq<Entry>, start: nat, entries: seq<Entry>)
    requires start + |entries| <= |log|
    requires forall k :: 0 <= k < |entries| ==> entries[k].index == start + k && entries[k].term == log[start + k].term
    ensures Merge(true, log, entries) == log
  {
    if entries != [] {
      ByPositionKeeps(log, start, entries[..|entries| - 1]);
    }
  }

  lemma {:induction false} AsWrittenCuts(log: seq<Entry>, prev: nat, entries: seq<Entry>)
    requires prev < |log| && Contiguous(entries, prev) && !AllOfLastTerm(log, prev, entries)
    ensures Merge(false, log, entries) <= log && |Merge(false, log, entries)| <= prev + |entries|
  {
    hide LastTerm;
    var n := |entries| - 1;
    if AllOfLastTerm(log, prev, entries[..n]) {
      AsWrittenWithoutTruncation(log, prev, entries[..n]);
      assert entries[n].term != LastTerm(log) && prev + 1 + n < |log|;
    } else {
      AsWrittenCuts(log, prev, entries[..n]);
    }
  }

  /** The batch goes up to a position where the logs are known to agree. */
  lemma MergeBelow(byPosition: bool, h: History, log: seq<Entry>, leader: seq<Entry>, m: Message, start: nat,
                   length: nat)
    requires Traced(h, log) && Traced(h, leader) && m.AppendEntries? && Carries(leader, m, start, length)
    requires Matches(log, m) && m.prevLogIndex + 1 == length
    ensures Merge(byPosition, log, m.entries) <= log
  {
    SameTermSamePrefix(h, log, leader, m.prevLogIndex);
    assert forall k :: start <= k < length ==> log[..length][k] == leader[..length][k];
    if byPosition {
      ByPositionKeeps(log, start, m.entries);
    } else {
      AsWrittenOnlyCuts(log, start, m.entries);
    }
  }

  ghost predicate Follows(leader: seq<Entry>, prev: nat, entries: seq<Entry>) {
    prev + |entries| < |leader| && entries == leader[prev + 1..prev + 1 + |entries|]
  }

  lemma FollowsContiguous(h: History, leader: seq<Entry>, prev: nat, entries: seq<Entry>)
    requires Traced(h, leader) && Follows(leader, prev, entries)
    ensures Contiguous(entries, prev)
  {
  }

  lemma NoConflictBefore(log: seq<Entry>, prev: nat, entries: seq<Entry>, k: nat)
    requires k <= |entries| && prev + k < |log| && NoConflict(log, prev, entries[..k])
    ensures k > 0 ==> log[prev + k].term == entries[k - 1].term
  {
    assert k > 0 ==> !ConflictAt(log, prev, entries[..k], k - 1);
  }

  /** As far as no conflict was found the logs agree. */
  lemma AgreesTo(h: History, log: seq<Entry>, leader: seq<Entry>, prev: nat, entries: seq<Entry>, k: nat)
    requires Traced(h, log) && Traced(h, leader) && Follows(leader, prev, entries)
    requires k <= |entries| && prev + k < |log| && log[prev].term == leader[prev].term
    requires k > 0 ==> log[prev + k].term == entries[k - 1].term
    ensures log[..prev + 1 + k] == leader[..prev + 1 + k]
    ensures log[..prev + 1 + k] + entries[k..] == leader[..prev + 1 + |entries|]
  {
    assert k > 0 ==> entries[k - 1] == leader[prev + k];
    SameTermSamePrefix(h, log, leader, prev + k);
    var end := prev + 1 + |entries|;
    assert entries[k..] == leader[prev + 1 + k..end];
    assert leader[..end] == leader[..prev + 1 + k] + leader[prev + 1 + k..end];
  }

  lemma {:induction false} MergeAboveByPosition(h: History, log: seq<Entry>, leader: seq<Entry>, prev: nat,
                                                entries: seq<Entry>)
    requires Traced(h, log) && Traced(h, leader) && Follows(leader, prev, entries)
    requires prev < |log| && log[prev].term == leader[prev].term
    ensures var merged := Merge(true, log, entries); merged == log || merged == leader[..prev + 1 + |entries|]
  {
    hide Traced, Merge, NoConflict, Contiguous;
    FollowsContiguous(h, leader, prev, entries);
    var k := FirstConflict(log, prev, entries);
    if k < |entries| {
      MergeFromConflict(log, prev, entries, k);
      NoConflictBefore(log, prev, entries, k);
      AgreesTo(h, log, leader, prev, entries, k);
    } else {
      assert entries[..k] == entries;
      MergeWithoutConflict(log, prev, entries);
      if |log| <= prev + |entries| {
        var j := |log| - prev - 1;
        FewerConflicts(log, prev, entries, j);
        NoConflictBefore(log, prev, entries, j);
        RestFollows(h, log, leader, prev, entries);
      }
    }
  }

  lemma FewerConflicts(log: seq<Entry>, prev: nat, entries: seq<Entry>, k: nat)
    requires k <= |entries| && NoConflict(log, prev, entries)
    ensures NoConflict(log, prev, entries[..k])
  {
    forall j | 0 <= j < k ensures !ConflictAt(log, prev, entries[..k], j) {
      assert !ConflictAt(log, prev, entries, j);
    }
  }

  lemma LastIsOfLastTerm(log: seq<Entry>, prev: nat, entries: seq<Entry>)
    requires prev < |log| <= prev + |entries| && AllOfLastTerm(log, prev, entries)
    ensures var k := |log| - prev - 1; k > 0 ==> log[prev + k].term == entries[k - 1].term
  {
  }

  lemma {:induction false} MergeAboveAsWritten(h: History, log: seq<Entry>, leader: seq<Entry>, prev: nat,
                                               entries: seq<Entry>)
    requires Traced(h, log) && Traced(h, leader) && Follows(leader, prev, entries)
    requires prev < |log| && log[prev].term == leader[prev].term
    ensures Merge(false, log, entries) <= log || Merge(false, log, entries) == leader[..prev + 1 + |entries|]
  {
    hide Traced, Merge, Contiguous, AllOfLastTerm, Follows, LastTerm;
    FollowsContiguous(h, leader, prev, entries);
    if AllOfLastTerm(log, prev, entries) {
      AsWrittenWithoutTruncation(log, prev, entries);
      if |log| <= prev + |entries| {
        LastIsOfLastTerm(log, prev, entries);
        RestFollows(h, log, leader, prev, entries);
      }
    } else {
      AsWrittenCuts(log, prev, entries);
    }
  }

  lemma RestFollows(h: History, log: seq<Entry>, leader: seq<Entry>, prev: nat, entries: seq<Entry>)
    requires Traced(h, log) && Traced(h, leader) && Follows(leader, prev, entries)
    requires prev < |log| <= prev + |entries| && log[prev].term == leader[prev].term
    requires var k := |log| - prev - 1; k > 0 ==> log[prev + k].term == entries[k - 1].term
    ensures log + entries[|log| - prev - 1..] == leader[..prev + 1 + |entries|]
  {
    hide Traced, Follows;
    AgreesTo(h, log, leader, prev, entries, |log| - prev - 1);
    assert log[..|log|] == log;
  }

  /** Whichever loop and whichever request: the merged log is traced again. */
  lemma MergeTraced(byPosition: bool, h: History, log: seq<Entry>, leader: seq<Entry>, m: Message, start: nat,
                    length: nat)
    requires Traced(h, log) && Traced(h, leader) && m.AppendEntries? && Carries(leader, m, start, length)
    requires Matches(log, m)
    ensures Traced(h, Merge(byPosition, log, m.entries))
  {
    hide Traced, Merge;
    var merged, prev := Merge(byPosition, log, m.entries), m.prevLogIndex;
    if prev + 1 == length {
      MergeBelow(byPosition, h, log, leader, m, start, length);
      TracedPrefix(h, log, merged);
    } else if byPosition {
      MergeAboveByPosition(h, log, leader, prev, m.entries);
      TracedPrefix(h, leader, leader[..length]);
    } else {
      MergeAboveAsWritten(h, log, leader, prev, m.entries);
      TracedPrefix(h, leader, leader[..length]);
      if merged <= log {
        TracedPrefix(h, log, merged);
      }
    }
  }

  // ----- steps -----

  ghost predicate StepOk(h: History, n: Node, h': History, o: Outcome) {
    && ReignsOk(h') && NodeOk(h', o.node) && o.node.id == n.id && Grows(h, h', n.id)
    && (forall p :: p in o.out ==> PacketOk(h', p))
  }

  lemma RequestCarries(f: Fixes, h: History, n: Node, peer: ServerId)
    requires n.state.Leader? && |n.mem.log| > 0 && NodeOk(h, n)
    ensures PacketOk(h, AppendRequest(f, n, peer))
  {
    var log, m := n.mem.log, AppendRequest(f, n, peer).msg;
    var start: nat := |log| - |m.entries|;
    assert log[start..|log|] == log[start..];
    assert Carries(log, m, start, |log|);
  }

  lemma SendOk(f: Fixes, servers: seq<ServerId>, h: History, n: Node)
    requires n.state.Leader? && NodeOk(h, n)
    ensures var o := SendAppendEntries(f, servers, n);
      NodeOk(h, o.node) && o.node.id == n.id && o.node.mem == n.mem && o.node.state == n.state
      && forall p :: p in o.out ==> PacketOk(h, p)
  {
    hide Traced, PacketOk, AppendRequest;
    var o := SendAppendEntries(f, servers, n);
    forall p | p in o.out ensures PacketOk(h, p) {
      var i :| 0 <= i < |o.out| && o.out[i] == p;
      RequestCarries(f, h, n, Peers(servers, n.id)[i]);
    }
  }

  /** Whoever led a term is the one a majority voted for. */
  lemma LeaderIsElected(servers: seq<ServerId>, h: History, t: nat, id: ServerId, quorum: set<ServerId>)
    requires Distinct(servers) && Election.HistoryOk(servers, h) && ReignsOk(h) && t in h.reigns
    requires quorum <= Members(servers) && IsMajority(servers, quorum) && Election.VotedFor(h, quorum, t, id)
    ensures Win(t, id) in h.wins
  {
    var w := Win(t, h.reigns[t].leader);
    assert Election.WinOk(servers, h, w);
    var s := Election.QuorumsMeet(servers, quorum, h.wins[w]);
    assert Cast(s, t, id) in h.ballots && Cast(s, t, w.leader) in h.ballots;
  }

  lemma CrownGrows(h: History, n: Node, n': Node, quorum: set<ServerId>)
    requires ReignsOk(h) && n.state.Candidate? && n.mem.term !in h.reigns
    requires n'.id == n.id && n'.mem == n.mem && n'.state.Leader?
    ensures Grows(h, RecordReign(h, n, n', quorum), n.id)
  {
    hide Traced;
  }

  /** The history after a win, and the new leader in it. */
  lemma CrownOk(h: History, n: Node, n': Node, quorum: set<ServerId>)
    requires ReignsOk(h) && NodeOk(h, n) && n.state.Candidate? && n.mem.term !in h.reigns
    requires n'.id == n.id && n'.mem == n.mem && n'.disk == n.disk && n'.state.Leader?
    ensures var h' := RecordReign(h, n, n', quorum);
      ReignsOk(h') && NodeOk(h', n')
  {
    hide Traced, Grows;
    var h' := RecordReign(h, n, n', quorum);
    CrownGrows(h, n, n', quorum);
    TracedStays(h, h', n.id, n.mem.log);
    TracedStays(h, h', n.id, n.disk.log);
    forall t | t in h.reigns ensures Traced(h', h.reigns[t].log) {
      TracedStays(h, h', n.id, h.reigns[t].log);
    }
  }

  lemma LeadingSends(f: Fixes, servers: seq<ServerId>, n: Node) returns (n1: Node)
    ensures n1 == n.(state := n1.state) && n1.state.Leader? &&
        BecomeLeader(f, servers, n) == SendAppendEntries(f, servers, n1)
  {
    hide SendAppendEntries;
    var keys := IndexKeys(f, Peers(servers, n.id));
    n1 := n.(state := Leader(map k | k in keys :: Num(|n.mem.log|), FreshTable(keys)));
  }

  /** A candidate becomes leader. */
  lemma WinOk(f: Fixes, servers: seq<ServerId>, h: History, n: Node, quorum: set<ServerId>)
    requires ReignsOk(h) && NodeOk(h, n) && n.state.Candidate? && n.mem.term !in h.reigns
    ensures var o := BecomeLeader(f, servers, n);
      StepOk(h, n, RecordReign(h, n, o.node, quorum), o)
  {
    hide Traced, SendAppendEntries, Grows, NodeOk, ReignsOk, PacketOk, BecomeLeader;
    var n1 := LeadingSends(f, servers, n);
    var h' := RecordReign(h, n, n1, quorum);
    CrownOk(h, n, n1, quorum);
    CrownGrows(h, n, n1, quorum);
    SendOk(f, servers, h', n1);
  }

  /** A step that sends no append-entries request and leaves logs, leadership and the record of
      elections alone. */
  lemma QuietOk(h: History, h': History, n: Node, o: Outcome)
    requires ReignsOk(h) && NodeOk(h, n) && h'.reigns == h.reigns && h'.wins == h.wins
    requires h'.candidacies == h.candidacies
    requires o.node.id == n.id && n.mem.term <= o.node.mem.term && Traced(h, o.node.mem.log)
    requires o.node.disk == n.disk || (n.disk.term <= o.node.disk.term && Traced(h, o.node.disk.log))
    requires o.node.state.Candidate? ==> n.state.Candidate? && o.node.mem.term == n.mem.term
    requires o.node.state.Leader? ==> n.state.Leader? && o.node.mem.term == n.mem.term && o.node.mem.log == n.mem.log
    requires forall p :: p in o.out ==> !p.msg.AppendEntries?
    ensures StepOk(h, n, h', o)
  {
    hide Replication.FromLeader;
    SameReigns(h, h');
  }

  /** Traced reads nothing but the reigns. */
  lemma SameReigns(h: History, h': History)
    requires h'.reigns == h.reigns
    ensures forall log: seq<Entry> :: Traced(h, log) ==> Traced(h', log)
  {
    forall log: seq<Entry> | Traced(h, log) ensures Traced(h', log) {
      forall k | 0 <= k < |log| && log[k].term != 0 ensures Replication.FromLeader(h', log, k) {
        assert Replication.FromLeader(h, log, k);
      }
    }
  }

  lemma BumpOk(h: History, n: Node, m: Message)
    requires NodeOk(h, n)
    ensures NodeOk(h, Bump(n, m)) && Bump(n, m).id == n.id && Bump(n, m).disk == n.disk
    ensures Bump(n, m).state.Candidate? || Bump(n, m).state.Leader? ==> Bump(n, m) == n
    ensures Bump(n, m).mem.log == n.mem.log
  {
    hide Traced;
  }

  lemma AcceptTraced(f: Fixes, h: History, n: Node, p: Packet)
    requires ReignsOk(h) && NodeOk(h, n) && p.msg.AppendEntries? && PacketOk(h, p) && Matches(n.mem.log, p.msg)
    ensures Traced(h, Merge(f.mergesByPosition, n.mem.log, p.msg.entries))
  {
    hide Traced, Carries, Matches, Merge;
    var leader := h.reigns[p.msg.term].log;
    var start: nat, length: nat :| Carries(leader, p.msg, start, length);
    MergeTraced(f.mergesByPosition, h, n.mem.log, leader, p.msg, start, length);
  }

  lemma AppendOk(f: Fixes, h: History, n: Node, p: Packet)
    requires ReignsOk(h) && NodeOk(h, n) && n.state.Follower? && n.disk.term <= n.mem.term
    requires p.msg.AppendEntries? && PacketOk(h, p)
    ensures var o := OnAppendEntries(f, n, p.src, p.msg); StepOk(h, n, RecordCopy(h, o.node, o.out), o)
  {
    hide Traced, Carries, Matches, Merge, FollowerCommit, StepOk, ReignsOk;
    if Matches(n.mem.log, p.msg) {
      AcceptTraced(f, h, n, p);
    }
    var o := OnAppendEntries(f, n, p.src, p.msg);
    QuietOk(h, RecordCopy(h, o.node, o.out), n, o);
  }

  lemma GrantOk(f: Fixes, h: History, n: Node, src: ServerId, m: Message)
    requires ReignsOk(h) && NodeOk(h, n) && n.state.Follower? && m.RequestVote? && n.disk.term <= n.mem.term
    ensures var o := OnRequestVote(f, n, src, m); StepOk(h, n, RecordGrant(h, o.node, o.out), o)
  {
    hide Traced, GrantsVote, StepOk, ReignsOk;
    var o := OnRequestVote(f, n, src, m);
    QuietOk(h, RecordGrant(h, o.node, o.out), n, o);
  }

  lemma VoteOk(f: Fixes, servers: seq<ServerId>, h: History, n: Node, p: Packet)
    requires Election.VotesBind(f) && Distinct(servers) && Election.HistoryOk(servers, h)
    requires Election.RoleOk(servers, h, n)
    requires Election.PacketOk(servers, h, p) && p.dst == n.id
    requires ReignsOk(h) && NodeOk(h, n) && n.state.Candidate? && p.msg.VoteResponse?
    ensures var o := OnVoteResponse(f, servers, n, p.src, p.msg);
      StepOk(h, n, RecordReign(h, n, o.node, n.state.votes + {p.src}), o)
  {
    hide Traced, StepOk, ReignsOk, BecomeLeader, Election.HistoryOk;
    var o, votes := OnVoteResponse(f, servers, n, p.src, p.msg), n.state.votes + {p.src};
    var n1 := n.(state := Candidate(votes));
    if p.msg.voteGranted && p.msg.term == n.mem.term && IsMajority(servers, votes) {
      if n.mem.term in h.reigns {
        LeaderIsElected(servers, h, n.mem.term, n.id, votes);
      }
      WinOk(f, servers, h, n1, votes);
      StepOkFrom(h, n1, n, o, votes);
    } else {
      QuietOk(h, h, n, o);
    }
  }

  /** Neither the votes nor the disk before the step are looked at. */
  lemma StepOkFrom(h: History, n1: Node, n: Node, o: Outcome, quorum: set<ServerId>)
    requires StepOk(h, n1, RecordReign(h, n1, o.node, quorum), o) && n1.id == n.id
    requires n1.state.Candidate? && (n.state.Leader? ==> n.mem.term != o.node.mem.term)
    ensures StepOk(h, n, RecordReign(h, n, o.node, quorum), o)
  {
  }

  lemma ResponseOk(f: Fixes, h: History, n: Node, m: Message)
    requires ReignsOk(h) && NodeOk(h, n) && n.state.Leader? && m.AppendResponse?
    ensures StepOk(h, n, h, OnAppendResponse(f, n, m))
  {
    hide Traced, StepOk, ReignsOk, UpdateIndexes, CommitScan, Median, Values;
    UpdateLeads(f, n.state, m);
    QuietOk(h, h, n, OnAppendResponse(f, n, m));
  }

  lemma UpdateLeads(f: Fixes, leader: State, m: Message)
    requires leader.Leader? && m.AppendResponse?
    ensures UpdateIndexes(f, leader, m).Leader?
  {
  }

  lemma DeliverOk(f: Fixes, servers: seq<ServerId>, h: History, n: Node, p: Packet)
    requires Election.VotesBind(f) && Distinct(servers) && Election.HistoryOk(servers, h)
    requires Election.NodeOk(servers, h, n)
    requires Election.PacketOk(servers, h, p) && p.dst == n.id && n.disk.term <= n.mem.term
    requires ReignsOk(h) && NodeOk(h, n) && PacketOk(h, p)
    ensures var o := Receive(f, servers, n, p.src, p.msg); StepOk(h, n, Record(h, n, Deliver(p), o), o)
  {
    hide Traced, NodeOk, StepOk, ReignsOk, PacketOk, OnVoteResponse, OnAppendResponse, OnAppendEntries, OnRequestVote,
      Election.HistoryOk, Election.PacketOk;
    var b := Bump(n, p.msg);
    BumpOk(h, n, p.msg);
    var o := Receive(f, servers, n, p.src, p.msg);
    if b.state.Follower? && p.msg.AppendEntries? {
      AppendOk(f, h, b, p);
      StepOkOf(h, b, n, Record(h, n, Deliver(p), o), o);
    } else if b.state.Follower? && p.msg.RequestVote? {
      GrantOk(f, h, b, p.src, p.msg);
      StepOkOf(h, b, n, Record(h, n, Deliver(p), o), o);
    } else if b.state.Candidate? && p.msg.VoteResponse? {
      VoteOk(f, servers, h, b, p);
    } else if b.state.Leader? && p.msg.AppendResponse? {
      ResponseOk(f, h, b, p.msg);
    } else {
      DroppedOk(servers, f, h, b, p);
      StepOkOf(h, b, n, h, o);
    }
  }

  lemma StepOkOf(h: History, b: Node, n: Node, h': History, o: Outcome)
    requires StepOk(h, b, h', o) && b.id == n.id
    ensures StepOk(h, n, h', o)
  {
  }

  /** A message without a handler, or an append-entries request to a candidate. */
  lemma DroppedOk(servers: seq<ServerId>, f: Fixes, h: History, n: Node, p: Packet)
    requires ReignsOk(h) && NodeOk(h, n)
    requires n.state.Follower? ==> !p.msg.AppendEntries? && !p.msg.RequestVote?
    requires n.state.Candidate? ==> !p.msg.VoteResponse?
    requires n.state.Leader? ==> !p.msg.AppendResponse?
    ensures var o := Dispatch(f, servers, n, p.src, p.msg);
      StepOk(h, n, h, o) && o.out == [] && o.node.(state := n.state) == n && !(o.node.state.Leader? && !n.state.Leader?)
  {
    hide Traced, StepOk, ReignsOk;
    QuietOk(h, h, n, Dispatch(f, servers, n, p.src, p.msg));
  }

  lemma StandOk(f: Fixes, h: History, n: Node, h1: History)
    requires f.persistsFirst && ReignsOk(h) && NodeOk(h, n)
    requires h1.reigns == h.reigns && h1.wins == h.wins
    requires h1.candidacies == h.candidacies[Candidacy(n.id, n.mem.term + 1) := n.mem.log]
    ensures ReignsOk(h1) && NodeOk(h1, Stand(f, n)) && Grows(h, h1, n.id)
  {
    hide Traced;
    SameReigns(h, h1);
    assert Candidacy(n.id, n.mem.term + 1) !in h.candidacies;
  }

  lemma RequestsCarryNothing(servers: seq<ServerId>, h: History, n: Node)
    ensures forall p :: p in VoteRequests(servers, n) ==> PacketOk(h, p)
  {
  }

  lemma NewTermIsFresh(servers: seq<ServerId>, h: History, h1: History, n: Node)
    requires Distinct(servers) && n.id in servers && Election.HistoryOk(servers, h1) && ReignsOk(h1) && NodeOk(h, n)
    requires ReignsOk(h)
    requires h1.reigns == h.reigns && h1.wins == h.wins && IsMajority(servers, {n.id})
    requires Cast(n.id, n.mem.term + 1, n.id) in h1.ballots
    ensures n.mem.term + 1 !in h1.reigns
  {
    hide Traced;
    if n.mem.term + 1 in h1.reigns {
      LeaderIsElected(servers, h1, n.mem.term + 1, n.id, {n.id});
    }
  }

  lemma GrowsTwice(h: History, h1: History, h2: History, id: ServerId)
    requires Grows(h, h1, id) && Grows(h1, h2, id)
    ensures Grows(h, h2, id)
  {
  }

  lemma StartsLike(f: Fixes, servers: seq<ServerId>, n: Node)
    ensures var n1 := Stand(f, n);
      var o := if IsMajority(servers, {n.id}) then BecomeLeader(f, servers, n1) else Outcome(n1, []);
      StartElection(f, servers, n) == Outcome(o.node, o.out + VoteRequests(servers, n1))
  {
    hide BecomeLeader, VoteRequests;
  }

  lemma TimeoutOk(f: Fixes, servers: seq<ServerId>, h: History, n: Node)
    requires Election.VotesBind(f) && Distinct(servers) && n.id in servers
    requires Election.HistoryOk(servers, h) && Election.NodeOk(servers, h, n) && ReignsOk(h) && NodeOk(h, n)
    ensures var o := StartElection(f, servers, n);
      StepOk(h, n, RecordReign(RecordCandidacy(h, n, o.node), n, o.node, {n.id}), o)
  {
    hide Traced, NodeOk, ReignsOk, PacketOk, Grows, BecomeLeader, VoteRequests, StartElection, Election.HistoryOk,
        Stand;
    var o, n1 := StartElection(f, servers, n), Stand(f, n);
    Election.StartEffect(f, servers, n);
    StartsLike(f, servers, n);
    StandingIs(f, n);
    var h1 := RecordCandidacy(h, n, o.node);
    Election.NewBallotOk(servers, h, n, Cast(n.id, n.mem.term + 1, n.id), n.mem.log, h1);
    StandOk(f, h, n, h1);
    RequestsCarryNothing(servers, RecordReign(h1, n, o.node, {n.id}), n1);
    if IsMajority(servers, {n.id}) {
      NewTermIsFresh(servers, h, h1, n);
      WinOk(f, servers, h1, n1, {n.id});
      var lead := BecomeLeader(f, servers, n1);
      StepOkFrom(h1, n1, n, lead, {n.id});
      GrowsTwice(h, h1, RecordReign(h1, n, o.node, {n.id}), n.id);
    }
  }

  lemma StandingIs(f: Fixes, n: Node)
    ensures var n1 := Stand(f, n);
      n1.id == n.id && n1.mem == Stable(n.mem.term + 1, Some(n.id), n.mem.log) && n1.state == Candidate({n.id})
  {
  }

  /** A leader's log grows by an entry of its term. */
  lemma GrownOk(h: History, n: Node, n1: Node, h': History)
    requires ReignsOk(h) && NodeOk(h, n) && n.state.Leader?
    requires n1 == n.(mem := n.mem.(log := n1.mem.log)) && |n1.mem.log| == |n.mem.log| + 1 && n.mem.log <= n1.mem.log
    requires n1.mem.log[|n.mem.log|].index == |n.mem.log| && n1.mem.log[|n.mem.log|].term == n.mem.term
    requires h'.reigns == h.reigns[n.mem.term := h.reigns[n.mem.term].(log := n1.mem.log)]
    requires h'.wins == h.wins && h'.candidacies == h.candidacies
    ensures ReignsOk(h') && NodeOk(h', n1) && Grows(h, h', n.id)
  {
    hide Replication.FromLeader;
    assert Grows(h, h', n.id);
    GrownTraced(h, n, n1, h');
    TracedStays(h, h', n.id, n.disk.log);
    forall t | t in h'.reigns ensures Traced(h', h'.reigns[t].log) {
      if t != n.mem.term {
        TracedStays(h, h', n.id, h.reigns[t].log);
      }
    }
  }

  lemma GrownTraced(h: History, n: Node, n1: Node, h': History)
    requires Grows(h, h', n.id) && Traced(h, n.mem.log) && n.mem.term > 0
    requires |n1.mem.log| == |n.mem.log| + 1 && n.mem.log <= n1.mem.log
    requires n1.mem.log[|n.mem.log|].index == |n.mem.log| && n1.mem.log[|n.mem.log|].term == n.mem.term
    requires n.mem.term in h'.reigns && h'.reigns[n.mem.term].log == n1.mem.log
    ensures Traced(h', n1.mem.log)
  {
    TracedStays(h, h', n.id, n.mem.log);
    var log := n1.mem.log;
    forall k | 0 <= k < |log| && log[k].term != 0 ensures Replication.FromLeader(h', log, k) {
      if k < |n.mem.log| {
        assert Replication.FromLeader(h', n.mem.log, k);
        assert log[..k + 1] == n.mem.log[..k + 1];
      }
    }
  }

  lemma RequestOk(f: Fixes, servers: seq<ServerId>, h: History, n: Node, command: Bytes)
    requires ReignsOk(h) && NodeOk(h, n)
    ensures var o := ClientRequest(f, servers, n, command); StepOk(h, n, RecordReign(h, n, o.node, {}), o)
  {
    hide Traced, SendAppendEntries, PacketOk;
    if n.state.Leader? {
      var n1 := n.(mem := n.mem.(log := n.mem.log + [Entry(command, |n.mem.log|, n.mem.term)]));
      var o := SendAppendEntries(f, servers, n1);
      Election.SendEffect(f, servers, n1);
      var h' := RecordReign(h, n, o.node, {});
      GrownOk(h, n, n1, h');
      SendOk(f, servers, h', n1);
    }
  }

  lemma HeartbeatOk(f: Fixes, servers: seq<ServerId>, h: History, n: Node)
    requires ReignsOk(h) && NodeOk(h, n) && n.state.Leader?
    ensures StepOk(h, n, h, SendAppendEntries(f, servers, n))
  {
    hide Traced, SendAppendEntries, PacketOk, NodeOk;
    SendOk(f, servers, h, n);
  }

  lemma RestartOk(f: Fixes, h: History, n: Node)
    requires ReignsOk(h) && NodeOk(h, n)
    ensures StepOk(h, n, h, Outcome(Restart(f, n), []))
  {
    hide Traced;
  }

  lemma ApplyOk(h: History, n: Node)
    requires ReignsOk(h) && NodeOk(h, n) && CanApply(n)
    ensures StepOk(h, n, RecordApplied(h, n), Outcome(ApplyNext(n), []))
  {
    hide Traced, StepOk, ReignsOk;
    QuietOk(h, RecordApplied(h, n), n, Outcome(ApplyNext(n), []));
  }

  lemma EventOk(f: Fixes, servers: seq<ServerId>, h: History, n: Node, e: Event)
    requires Election.VotesBind(f) && Distinct(servers) && n.id in servers
    requires Election.HistoryOk(servers, h) && Election.NodeOk(servers, h, n) && n.disk.term <= n.mem.term
    requires ReignsOk(h) && NodeOk(h, n) && Actor(e) == n.id
    requires e.Deliver? ==> Election.PacketOk(servers, h, e.packet) && PacketOk(h, e.packet)
    requires e.Heartbeat? ==> n.state.Leader?
    requires e.Apply? ==> CanApply(n)
    ensures var o := React(f, servers, n, e); StepOk(h, n, Record(h, n, e, o), o)
  {
    hide StepOk, ReignsOk, NodeOk, PacketOk, Election.HistoryOk, Election.NodeOk, Election.PacketOk, StartElection,
      Receive, SendAppendEntries, ClientRequest, Restart, RecordReign, RecordCandidacy, RecordApplied, CanApply;
    match e
    case Timeout(_) => TimeoutOk(f, servers, h, n);
    case Deliver(p) => DeliverOk(f, servers, h, n, p);
    case Heartbeat(_) => HeartbeatOk(f, servers, h, n);
    case Request(_, command) => RequestOk(f, servers, h, n, command);
    case Apply(_) => ApplyOk(h, n);
    case Restarted(_) => RestartOk(f, h, n);
  }

  /** Every event keeps every log, and every request in flight, a copy of leaders' logs. */
  lemma StepKeepsInv(f: Fixes, servers: seq<ServerId>, c: Cluster, e: Event)
    requires Election.VotesBind(f) && Inv(servers, c) && Enabled(c, e)
    requires c.nodes[Actor(e)].disk.term <= c.nodes[Actor(e)].mem.term
    ensures Inv(servers, Step(f, servers, c, e))
  {
    hide ReignsOk, NodeOk, PacketOk, Grows, React, Record, CanApply, Election.HistoryOk, Election.NodeOk,
        Election.PacketOk;
    var h, n, c' := c.history, c.nodes[Actor(e)], Step(f, servers, c, e);
    Election.StepKeepsInv(f, servers, c, e);
    EnabledFacts(c, e);
    EventOk(f, servers, h, n, e);
    forall s | s in c'.nodes ensures NodeOk(c'.history, c'.nodes[s]) {
      if s != n.id {
        OtherNodeOk(h, c'.history, n.id, c.nodes[s]);
      }
    }
    forall p | p in c'.network ensures PacketOk(c'.history, p) {
      if p in c.network {
        PacketStaysOk(h, c'.history, n.id, p);
      }
    }
  }

  lemma StartOk(f: Fixes, servers: seq<ServerId>)
    requires Election.VotesBind(f) && Distinct(servers)
    ensures Inv(servers, Start(servers))
  {
    Election.RunKeepsInv(f, servers, []);
  }

  lemma {:induction false} RunKeepsInv(f: Fixes, servers: seq<ServerId>, events: seq<Event>)
    requires Election.VotesBind(f) && Distinct(servers)
    ensures Inv(servers, Run(f, servers, events))
  {
    hide Inv, Step, Durability.NodeOk;
    if events == [] {
      StartOk(f, servers);
    } else {
      var c, e := Run(f, servers, events[..|events| - 1]), events[|events| - 1];
      RunKeepsInv(f, servers, events[..|events| - 1]);
      if Enabled(c, e) {
        Durability.RunKeepsInv(f, servers, events[..|events| - 1]);
        Durability.DiskIsNotAhead(f, c.nodes[Actor(e)]);
        StepKeepsInv(f, servers, c, e);
      } else {
        NothingHappens(f, servers, c, e);
      }
    }
  }

  lemma NothingHappens(f: Fixes, servers: seq<ServerId>, c: Cluster, e: Event)
    requires !Enabled(c, e)
    ensures Step(f, servers, c, e) == c
  {
  }

  /** Log Matching, for every cluster and every run, whatever replication does: with requests
      and the merge loop as written as much as with the corrected ones. */
  lemma {:induction false} LogMatching(f: Fixes, servers: seq<ServerId>, events: seq<Event>)
    requires Election.VotesBind(f) && Distinct(servers)
    ensures LogsMatch(Run(f, servers, events))
  {
    hide Run, Traced, ReignsOk, Election.Inv;
    var c := Run(f, servers, events);
    RunKeepsInv(f, servers, events);
    forall s, t, i | s in c.nodes && t in c.nodes && 0 <= i < |c.nodes[s].mem.log| && i < |c.nodes[t].mem.log|
      && c.nodes[s].mem.log[i].term == c.nodes[t].mem.log[i].term
      ensures c.nodes[s].mem.log[..i + 1] == c.nodes[t].mem.log[..i + 1]
    {
      assert NodeOk(c.history, c.nodes[s]) && NodeOk(c.history, c.nodes[t]);
      SameTermSamePrefix(c.history, c.nodes[s].mem.log, c.nodes[t].mem.log, i);
    }
  }
}
