/** Every event of the corrected cluster keeps the invariant of Replication. */
module Steps {
  import opened RaftTypes
  import opened Logs
  import opened Medians
  import opened Nodes
  import opened Clusters
  import Election
  import opened Replication
  import opened Completeness

  /** What has to be shown of one server's step. */
  ghost predicate StepOk(servers: seq<ServerId>, h: History, n: Node, h': History, o: Outcome) {
    && HistoryOk(servers, h')
    && NodeOk(servers, h', o.node)
    && o.node.id == n.id
    && Extends(h, h', n.id)
    && (forall p :: p in o.out ==> PacketOk(servers, h', p))
  }

  // ----- the history -----

  /** The records that are new, or changed, are in order. */
  ghost predicate NewRecordsOk(servers: seq<ServerId>, h: History, h': History) {
    && (forall t :: t in h'.reigns && (t !in h.reigns || h'.reigns[t] != h.reigns[t]) ==> ReignOk(h', t))
    && (forall w :: w in h'.wins && w !in h.wins ==> w.term in h'.reigns && h'.reigns[w.term].leader == w.leader)
    && (forall c :: c in h'.candidacies && c !in h.candidacies ==> CandidacyOk(h', c))
    && (forall b :: b in h'.ballots && b !in h.ballots ==> BallotOk(h', b))
    && (forall a :: a in h'.applied && a !in h.applied ==> AppliedOk(servers, h', a))
  }

  ghost predicate NewBallotsKeep(h: History, h': History) {
    forall b, c :: b in h'.ballots && b !in h.ballots && c in h'.copies ==> BallotKeeps(h', b, c)
  }

  /** Copies change only for the server's current term, past which it has given no vote. */
  ghost predicate NewCopiesOk(h: History, h': History, id: ServerId, term: nat) {
    && (forall c :: c in h'.copies && (c !in h.copies || h'.copies[c] != h.copies[c]) ==>
        CopyOk(h', c) && c.term == term)
    && (forall b :: b in h.ballots && b.voter == id ==> b.term <= term)
  }

  lemma CopiesStayOk(h: History, h': History, id: ServerId, term: nat)
    requires forall c :: c in h.copies ==> CopyOk(h, c)
    requires Extends(h, h', id) && NewCopiesOk(h, h', id, term)
    ensures forall c :: c in h'.copies ==> CopyOk(h', c)
  {
    forall c | c in h'.copies ensures CopyOk(h', c) {
      if c in h.copies && h'.copies[c] == h.copies[c] {
        assert CopyOk(h, c);
      }
    }
  }

  lemma BallotsStillKeep(servers: seq<ServerId>, h: History, h': History, id: ServerId, term: nat)
    requires HistoryOk(servers, h) && Extends(h, h', id)
    requires NewBallotsKeep(h, h') && NewCopiesOk(h, h', id, term)
    ensures forall b, c :: b in h'.ballots && c in h'.copies ==> BallotKeeps(h', b, c)
  {
    forall b, c | b in h'.ballots && c in h'.copies ensures BallotKeeps(h', b, c) {
      if b in h.ballots && c in h.copies && h'.copies[c] == h.copies[c] {
        BallotKeepsStays(h, h', id, b, c);
      }
    }
  }

  lemma HistoryExtended(servers: seq<ServerId>, h: History, h': History, id: ServerId, term: nat)
    requires HistoryOk(servers, h) && Extends(h, h', id)
    requires NewRecordsOk(servers, h, h') && NewBallotsKeep(h, h') && NewCopiesOk(h, h', id, term)
    ensures HistoryOk(servers, h')
  {
    CopiesStayOk(h, h', id, term);
    BallotsStillKeep(servers, h, h', id, term);
    RecordsStayOk(servers, h, h', id);
  }

  lemma RecordsStayOk(servers: seq<ServerId>, h: History, h': History, id: ServerId)
    requires HistoryOk(servers, h) && Extends(h, h', id) && NewRecordsOk(servers, h, h')
    ensures forall t :: t in h'.reigns ==> ReignOk(h', t)
    ensures forall w :: w in h'.wins ==> w.term in h'.reigns && h'.reigns[w.term].leader == w.leader
    ensures forall c :: c in h'.candidacies ==> CandidacyOk(h', c)
    ensures forall b :: b in h'.ballots ==> BallotOk(h', b)
    ensures forall a :: a in h'.applied ==> AppliedOk(servers, h', a)
  {
    forall t | t in h'.reigns ensures ReignOk(h', t) {
      if t in h.reigns && h'.reigns[t] == h.reigns[t] {
        ReignStaysOk(h, h', id, t);
      }
    }
    forall c | c in h'.candidacies ensures CandidacyOk(h', c) {
      if c in h.candidacies {
        CandidacyStaysOk(h, h', id, c);
      }
    }
    forall b | b in h'.ballots ensures BallotOk(h', b) {
      if b in h.ballots {
        assert CandidacyOk(h, Candidacy(b.candidate, b.term));
        BallotStaysOk(h, h', id, b);
      }
    }
    forall a | a in h'.applied ensures AppliedOk(servers, h', a) {
      if a in h.applied {
        AppliedStays(servers, h, h', id, a);
      }
    }
  }

  // ----- views -----

  lemma KeepsCopyLonger(h: History, log: seq<Entry>, log': seq<Entry>, copy: Copy, u: Option<nat>)
    requires copy in h.copies && KeepsCopy(h, log, copy, u) && log <= log'
    ensures KeepsCopy(h, log', copy, u)
  {
    forall length | 0 < length <= h.copies[copy] ensures Kept(h, log', copy.term, length, u) {
      assert Kept(h, log, copy.term, length, u);
    }
  }

  /** A later term, with the same log. */
  lemma LaterViewOk(h: History, id: ServerId, st: Stable, st': Stable)
    requires ViewOk(h, id, st) && st'.log == st.log && st.term <= st'.term
    ensures ViewOk(h, id, st')
  {
  }

  lemma LaterCommitOk(servers: seq<ServerId>, h: History, n: Node, n': Node)
    requires CommitOk(servers, h, n) && n'.mem.log == n.mem.log && n.mem.term <= n'.mem.term
    requires n'.commitIndex == n.commitIndex && n'.lastApplied == n.lastApplied
    ensures CommitOk(servers, h, n')
  {
  }

  lemma BumpOk(servers: seq<ServerId>, h: History, n: Node, m: Message)
    requires NodeOk(servers, h, n)
    ensures NodeOk(servers, h, Bump(n, m)) && Bump(n, m).id == n.id && Bump(n, m).mem.term >= m.term
  {
    hide ViewOk, CommitOk, IndexesOk;
    var b := Bump(n, m);
    LaterViewOk(h, n.id, n.mem, b.mem);
    LaterCommitOk(servers, h, n, b);
  }

  lemma RestartOk(servers: seq<ServerId>, h: History, n: Node)
    requires NodeOk(servers, h, n)
    ensures NodeOk(servers, h, Restart(CORRECTED, n))
  {
    var r := Restart(CORRECTED, n);
    assert r.mem == n.disk;
    assert r.mem.log[..1] == [SENTINEL];
  }

  // ----- a follower takes entries -----

  lemma PrefixOfOk(h: History, log: seq<Entry>, part: seq<Entry>)
    requires LogOk(h, log) && 0 < |part| && part <= log
    ensures LogOk(h, part)
  {
    forall k | 0 < k < |part| ensures FromLeader(h, part, k) {
      assert FromLeader(h, log, k);
      assert part[..k + 1] == log[..k + 1];
    }
  }

  /** The batch of a request is a stretch of the leader's log. */
  ghost predicate Stretch(leader: seq<Entry>, entries: seq<Entry>, prev: nat) {
    && prev + |entries| < |leader|
    && entries == leader[prev + 1..prev + 1 + |entries|]
  }

  /** The log ends before that position, or differs from the leader's below it. */
  ghost predicate PartsBefore(log: seq<Entry>, leader: seq<Entry>, end: nat) {
    |log| <= end || exists i :: 0 <= i < end && i < |log| && i < |leader| && log[i] != leader[i]
  }

  /** The merged log is the old one, which has the batch already, or the leader's up to the
      end of the batch, and then the old one had nothing more in common with the leader's. */
  ghost predicate Merged(log: seq<Entry>, leader: seq<Entry>, end: nat, merged: seq<Entry>)
    requires end <= |leader|
  {
    leader[..end] <= merged && (merged == log || (merged == leader[..end] && PartsBefore(log, leader, end)))
  }

  lemma SharedPartStays(log: seq<Entry>, leader: seq<Entry>, end: nat, merged: seq<Entry>, part: seq<Entry>)
    requires end <= |leader| && Merged(log, leader, end, merged) && part <= log && part <= leader
    ensures part <= merged
  {
  }

  lemma StretchContiguous(h: History, leader: seq<Entry>, entries: seq<Entry>, prev: nat)
    requires LogOk(h, leader) && Stretch(leader, entries, prev)
    ensures Contiguous(entries, prev)
    ensures forall k :: 0 <= k < |entries| ==> entries[k] == leader[prev + 1 + k]
  {
  }

  lemma AppendRest(log: seq<Entry>, leader: seq<Entry>, entries: seq<Entry>, prev: nat)
    requires Stretch(leader, entries, prev) && prev < |log| <= prev + 1 + |entries| && log == leader[..|log|]
    ensures log + entries[|log| - prev - 1..] == leader[..prev + 1 + |entries|]
  {
  }

  /** Without a conflict the two logs are the same as far as both the log and the batch go. */
  lemma AgreesTo(h: History, log: seq<Entry>, leader: seq<Entry>, entries: seq<Entry>, prev: nat, last: nat)
    requires LogOk(h, log) && LogOk(h, leader) && Stretch(leader, entries, prev)
    requires prev <= last < |log| && last <= prev + |entries|
    requires log[prev].term == leader[prev].term && NoConflict(log, prev, entries)
    ensures log[..last + 1] == leader[..last + 1]
  {
    if last > prev {
      assert !ConflictAt(log, prev, entries, last - prev - 1);
      assert entries[last - prev - 1] == leader[last];
    }
    SameTermSamePrefix(h, log, leader, last);
  }

  lemma MergeAgreeing(h: History, log: seq<Entry>, leader: seq<Entry>, entries: seq<Entry>, prev: nat)
    requires LogOk(h, log) && LogOk(h, leader) && Stretch(leader, entries, prev)
    requires prev < |log| && log[prev].term == leader[prev].term && NoConflict(log, prev, entries)
    ensures Merged(log, leader, prev + 1 + |entries|, Merge(true, log, entries))
  {
    hide LogOk, Contiguous, Merge;
    StretchContiguous(h, leader, entries, prev);
    MergeWithoutConflict(log, prev, entries);
    if |log| > prev + |entries| {
      AgreesTo(h, log, leader, entries, prev, prev + |entries|);
    } else {
      AgreesTo(h, log, leader, entries, prev, |log| - 1);
      AppendRest(log, leader, entries, prev);
    }
  }

  lemma Splice(log: seq<Entry>, leader: seq<Entry>, entries: seq<Entry>, prev: nat, k: nat)
    requires Stretch(leader, entries, prev) && k <= |entries| && prev + 1 + k <= |log|
    requires log[..prev + 1 + k] == leader[..prev + 1 + k]
    ensures log[..prev + 1 + k] + entries[k..] == leader[..prev + 1 + |entries|]
  {
    var end := prev + 1 + |entries|;
    assert entries[k..] == leader[prev + 1 + k..end];
    assert leader[..end] == leader[..prev + 1 + k] + leader[prev + 1 + k..end];
  }

  lemma AgreesUpToConflict(h: History, log: seq<Entry>, leader: seq<Entry>, entries: seq<Entry>, prev: nat, k: nat)
    requires LogOk(h, log) && LogOk(h, leader) && Stretch(leader, entries, prev)
    requires prev < |log| && log[prev].term == leader[prev].term
    requires k < |entries| && ConflictAt(log, prev, entries, k) && NoConflict(log, prev, entries[..k])
    ensures prev + 1 + k < |log| && log[prev + 1 + k] != leader[prev + 1 + k]
    ensures log[..prev + 1 + k] == leader[..prev + 1 + k]
  {
    if k > 0 {
      assert !ConflictAt(log, prev, entries[..k], k - 1);
    }
    SameTermSamePrefix(h, log, leader, prev + k);
  }

  lemma MergeDiverging(h: History, log: seq<Entry>, leader: seq<Entry>, entries: seq<Entry>, prev: nat, k: nat)
    requires LogOk(h, log) && LogOk(h, leader) && Stretch(leader, entries, prev)
    requires prev < |log| && log[prev].term == leader[prev].term
    requires k < |entries| && ConflictAt(log, prev, entries, k) && NoConflict(log, prev, entries[..k])
    ensures Merged(log, leader, prev + 1 + |entries|, Merge(true, log, entries))
  {
    hide LogOk, Contiguous, Merge, NoConflict, ConflictAt;
    StretchContiguous(h, leader, entries, prev);
    MergeFromConflict(log, prev, entries, k);
    AgreesUpToConflict(h, log, leader, entries, prev, k);
    Splice(log, leader, entries, prev, k);
  }

  /** Merging a stretch of the leader's log after a matching entry. */
  lemma {:induction false} MergeStretch(h: History, log: seq<Entry>, leader: seq<Entry>, entries: seq<Entry>, prev: nat)
    requires LogOk(h, log) && LogOk(h, leader) && Stretch(leader, entries, prev)
    requires prev < |log| && log[prev].term == leader[prev].term
    ensures Merged(log, leader, prev + 1 + |entries|, Merge(true, log, entries))
  {
    var k := FirstConflict(log, prev, entries);
    if k == |entries| {
      assert entries[..k] == entries;
      MergeAgreeing(h, log, leader, entries, prev);
    } else {
      MergeDiverging(h, log, leader, entries, prev, k);
    }
  }

  lemma MergeKeepsCopy(servers: seq<ServerId>, h: History, log: seq<Entry>, merged: seq<Entry>, t: nat, end: nat,
                       copy: Copy)
    requires HistoryOk(servers, h) && t in h.reigns && end <= |h.reigns[t].log|
    requires Merged(log, h.reigns[t].log, end, merged)
    requires copy in h.copies && copy.term <= t && KeepsCopy(h, log, copy, None)
    ensures KeepsCopy(h, merged, copy, None)
  {
    hide Timely, LogOk;
    assert ReignOk(h, t) && CopyOk(h, copy);
    forall length | 0 < length <= h.copies[copy] ensures Kept(h, merged, copy.term, length, None) {
      assert Kept(h, log, copy.term, length, None);
      var part := Prefix(h, copy.term, length);
      if part <= log {
        if copy.term < t && !(part <= h.reigns[t].base) {
          assert Lacks(h, t, copy.term, length);
        } else {
          SharedPartStays(log, h.reigns[t].log, end, merged, part);
        }
      }
    }
  }

  lemma MergedLogOk(servers: seq<ServerId>, h: History, log: seq<Entry>, merged: seq<Entry>, t: nat, end: nat)
    requires HistoryOk(servers, h) && LogOk(h, log)
    requires t in h.reigns && 0 < end <= |h.reigns[t].log| && Merged(log, h.reigns[t].log, end, merged)
    ensures LogOk(h, merged)
  {
    assert ReignOk(h, t);
    if merged == h.reigns[t].log[..end] {
      PrefixOfOk(h, h.reigns[t].log, merged);
    }
  }

  /** What the follower confirms: its log has the leader's up to there. */
  lemma ConfirmedCopyOk(h: History, t: nat, end: nat, merged: seq<Entry>, length: nat)
    requires t in h.reigns && end <= |h.reigns[t].log| && h.reigns[t].log[..end] <= merged && length <= end
    ensures Kept(h, merged, t, length, None)
  {
    assert Prefix(h, t, length) == h.reigns[t].log[..end][..length];
  }

  ghost predicate CopyRaised(h: History, h': History, key: Copy, end: nat) {
    && h' == h.(copies := h'.copies)
    && (h'.copies == h.copies || h'.copies == h.copies[key := end])
    && key in h'.copies && end <= h'.copies[key]
    && (key in h.copies ==> h.copies[key] <= h'.copies[key])
  }

  lemma RaisedViewOk(servers: seq<ServerId>, h: History, h': History, id: ServerId, st: Stable, st': Stable, end: nat)
    requires HistoryOk(servers, h) && ViewOk(h, id, st) && CopyRaised(h, h', Copy(id, st.term), end)
    requires st.term in h.reigns && 0 < end <= |h.reigns[st.term].log|
    requires Merged(st.log, h.reigns[st.term].log, end, st'.log) && st'.term == st.term
    ensures ViewOk(h', id, st')
  {
    MergedLogOk(servers, h, st.log, st'.log, st.term, end);
    LogStaysOk(h, h', id, st'.log);
    forall c | c in h'.copies && c.server == id ensures c.term <= st'.term && KeepsCopy(h', st'.log, c, None) {
      if c in h.copies {
        MergeKeepsCopy(servers, h, st.log, st'.log, st.term, end, c);
      }
      RaisedKeeps(h, h', id, st'.log, st.term, end, c);
    }
  }

  lemma RaisedKeeps(h: History, h': History, id: ServerId, log: seq<Entry>, t: nat, end: nat, c: Copy)
    requires CopyRaised(h, h', Copy(id, t), end) && c in h'.copies
    requires t in h.reigns && end <= |h.reigns[t].log| && h.reigns[t].log[..end] <= log
    requires c in h.copies ==> KeepsCopy(h, log, c, None)
    ensures KeepsCopy(h', log, c, None)
  {
    forall length | 0 < length <= h'.copies[c] ensures Kept(h', log, c.term, length, None) {
      if c in h.copies && length <= h.copies[c] {
        KeptSame(h, h', log, c.term, length, None);
      } else {
        ConfirmedCopyOk(h', t, end, log, length);
      }
    }
  }

  lemma KeptSame(h: History, h': History, log: seq<Entry>, t: nat, length: nat, u: Option<nat>)
    requires h'.reigns == h.reigns && Kept(h, log, t, length, u)
    ensures Kept(h', log, t, length, u)
  {
    if !(Prefix(h, t, length) <= log) {
      var w :| t < w && Lacks(h, w, t, length) && Before(h, w, u);
      assert Lacks(h', w, t, length) && Before(h', w, u);
    }
  }

  lemma CopyRaisedHistoryOk(servers: seq<ServerId>, h: History, h': History, id: ServerId, t: nat, end: nat)
    requires HistoryOk(servers, h) && CopyRaised(h, h', Copy(id, t), end)
    requires t in h.reigns && 0 < end <= |h.reigns[t].log|
    requires forall b :: b in h.ballots && b.voter == id ==> b.term <= t
    ensures Extends(h, h', id) && HistoryOk(servers, h')
  {
    assert Extends(h, h', id);
    HistoryExtended(servers, h, h', id, t);
  }

  /** A batch of a request, and the end of it in the leader's log. */
  ghost predicate Batch(h: History, m: Message, t: nat, end: nat)
    requires m.AppendEntries?
  {
    && t in h.reigns && m.term == t && end == m.prevLogIndex + 1 + |m.entries|
    && Stretch(h.reigns[t].log, m.entries, m.prevLogIndex)
    && LogOk(h, h.reigns[t].log)
    && m.leaderCommit < end
  }

  lemma CommitIndexStays(servers: seq<ServerId>, h: History, log: seq<Entry>, c: nat, t: nat, end: nat,
                         merged: seq<Entry>)
    requires Sound(servers, h) && t in h.reigns && end <= |h.reigns[t].log|
    requires c < |log| && Committed(servers, h, log[..c + 1], t)
    requires Merged(log, h.reigns[t].log, end, merged)
    ensures c < |merged| && merged[..c + 1] == log[..c + 1]
  {
    LeaderHoldsCommitted(servers, h, log[..c + 1], t);
    SharedPartStays(log, h.reigns[t].log, end, merged, log[..c + 1]);
  }

  lemma LeaderCommitReached(h: History, m: Message, t: nat, end: nat, merged: seq<Entry>)
    requires m.AppendEntries? && Batch(h, m, t, end) && h.reigns[t].log[..end] <= merged
    ensures m.leaderCommit < |merged| && merged[..m.leaderCommit + 1] == h.reigns[t].log[..m.leaderCommit + 1]
    ensures forall commitIndex ::
      FollowerCommit(commitIndex, m) == if m.leaderCommit > commitIndex then m.leaderCommit else commitIndex
  {
    var leader := h.reigns[t].log;
    assert merged[..end][..m.leaderCommit + 1] == merged[..m.leaderCommit + 1];
    assert leader[..end][..m.leaderCommit + 1] == leader[..m.leaderCommit + 1];
    if |m.entries| > 0 {
      assert m.entries[|m.entries| - 1] == leader[end - 1];
    }
  }

  /** The commit index of a follower stays or takes the leader's, never falls, and the log up
      to it is committed. */
  lemma FollowerCommitOk(servers: seq<ServerId>, h: History, n: Node, m: Message, end: nat, merged: seq<Entry>)
    requires Sound(servers, h) && CommitOk(servers, h, n)
    requires m.AppendEntries? && Batch(h, m, n.mem.term, end)
    requires Committed(servers, h, h.reigns[n.mem.term].log[..m.leaderCommit + 1], n.mem.term)
    requires Merged(n.mem.log, h.reigns[n.mem.term].log, end, merged)
    ensures var c := FollowerCommit(n.commitIndex, m);
      n.commitIndex <= c < |merged| && Committed(servers, h, merged[..c + 1], n.mem.term)
  {
    hide Sound, Committed;
    CommitIndexStays(servers, h, n.mem.log, n.commitIndex, n.mem.term, end, merged);
    LeaderCommitReached(h, m, n.mem.term, end, merged);
  }

  lemma BatchOk(servers: seq<ServerId>, h: History, p: Packet)
    requires HistoryOk(servers, h) && p.msg.AppendEntries? && AppendOk(servers, h, p)
    ensures Batch(h, p.msg, p.msg.term, p.msg.prevLogIndex + 1 + |p.msg.entries|)
    ensures Committed(servers, h, h.reigns[p.msg.term].log[..p.msg.leaderCommit + 1], p.msg.term)
  {
    assert ReignOk(h, p.msg.term);
  }

  lemma AcceptShape(h: History, n: Node, p: Packet, end: nat)
    requires n.state.Follower? && p.msg.AppendEntries?
    requires p.msg.term == n.mem.term && Matches(n.mem.log, p.msg) && end == p.msg.prevLogIndex + 1 + |p.msg.entries|
    ensures var o := OnAppendEntries(CORRECTED, n, p.src, p.msg);
      && o.node.id == n.id && o.node.mem == n.mem.(log := Merge(true, n.mem.log, p.msg.entries)) == o.node.disk
      && o.node.commitIndex == FollowerCommit(n.commitIndex, p.msg) && o.node.lastApplied == n.lastApplied
      && o.node.state.Follower?
      && o.out == [Packet(n.id, p.src, AppendResponse(n.mem.term, n.id, o.node.commitIndex, true, end - 1))]
      && CopyRaised(h, RecordCopy(h, o.node, o.out), Copy(n.id, n.mem.term), end)
  {
  }

  lemma FollowerNodeOk(servers: seq<ServerId>, h: History, n: Node)
    requires n.state.Follower? && ViewOk(h, n.id, n.mem) && n.disk == n.mem && CommitOk(servers, h, n)
    ensures NodeOk(servers, h, n)
  {
  }

  /** A follower accepts a request of its term. */
  lemma AcceptOk(servers: seq<ServerId>, h: History, n: Node, p: Packet)
    requires Sound(servers, h) && Election.NodeOk(servers, h, n) && NodeOk(servers, h, n)
    requires n.state.Follower? && p.msg.AppendEntries? && PacketOk(servers, h, p) && p.dst == n.id
    requires p.msg.term == n.mem.term && Matches(n.mem.log, p.msg)
    ensures var o := OnAppendEntries(CORRECTED, n, p.src, p.msg);
      StepOk(servers, h, n, RecordCopy(h, o.node, o.out), o)
  {
    hide HistoryOk, Election.NodeOk, Election.HistoryOk, NodeOk, OnAppendEntries, RecordCopy;
    var t, end := n.mem.term, p.msg.prevLogIndex + 1 + |p.msg.entries|;
    var o := OnAppendEntries(CORRECTED, n, p.src, p.msg);
    var h' := RecordCopy(h, o.node, o.out);
    AcceptShape(h, n, p, end);
    BatchOk(servers, h, p);
    AcceptedOk(servers, h, h', n, o.node, p.msg, end);
  }

  lemma AcceptedOk(servers: seq<ServerId>, h: History, h': History, n: Node, n': Node, m: Message, end: nat)
    requires Sound(servers, h) && Election.NodeOk(servers, h, n) && NodeOk(servers, h, n)
    requires m.AppendEntries? && Batch(h, m, n.mem.term, end) && Matches(n.mem.log, m)
    requires m.prevLogTerm == h.reigns[n.mem.term].log[m.prevLogIndex].term
    requires Committed(servers, h, h.reigns[n.mem.term].log[..m.leaderCommit + 1], n.mem.term)
    requires n'.id == n.id && n'.mem == n.mem.(log := Merge(true, n.mem.log, m.entries)) == n'.disk
    requires n'.commitIndex == FollowerCommit(n.commitIndex, m) && n'.lastApplied == n.lastApplied && n'.state.Follower?
    requires CopyRaised(h, h', Copy(n.id, n.mem.term), end)
    ensures HistoryOk(servers, h') && Extends(h, h', n.id) && NodeOk(servers, h', n')
  {
    hide Sound, HistoryOk, Committed, LogOk, KeepsCopy, LeaderOk, CandidateOk, Merge, Extends, CopyRaised,
      Election.NodeOk;
    var t := n.mem.term;
    SoundHistory(servers, h);
    VotesRemembered(servers, h, n);
    ExtendsParts(h, h', n.id);
    MergeStretch(h, n.mem.log, h.reigns[t].log, m.entries, m.prevLogIndex);
    CopyRaisedHistoryOk(servers, h, h', n.id, t, end);
    RaisedViewOk(servers, h, h', n.id, n.mem, n'.mem, end);
    FollowerCommitOk(servers, h, n, m, end, n'.mem.log);
    CommittedStays(servers, h, h', n.id, n'.mem.log[..n'.commitIndex + 1], t, t);
    FollowerNodeOk(servers, h', n');
  }

  lemma VotesRemembered(servers: seq<ServerId>, h: History, n: Node)
    requires Election.NodeOk(servers, h, n)
    ensures forall b :: b in h.ballots && b.voter == n.id ==> b.term <= n.mem.term
  {
  }

  lemma ExtendsParts(h: History, h': History, id: ServerId)
    ensures Extends(h, h', id) ==> ReignsGrow(h, h', id) && CopiesGrow(h, h', id)
  {
  }

  lemma PersistedOk(servers: seq<ServerId>, h: History, n: Node, n': Node)
    requires NodeOk(servers, h, n) && n' == n.(disk := n.mem, state := n'.state) && n'.state.Follower?
    ensures NodeOk(servers, h, n')
  {
    hide ViewOk, Committed;
  }

  lemma RefuseOk(servers: seq<ServerId>, h: History, n: Node, p: Packet)
    requires HistoryOk(servers, h) && NodeOk(servers, h, n)
    requires n.state.Follower? && p.msg.AppendEntries? && PacketOk(servers, h, p) && p.dst == n.id
    requires p.msg.term < n.mem.term || !Matches(n.mem.log, p.msg)
    ensures var o := OnAppendEntries(CORRECTED, n, p.src, p.msg);
      StepOk(servers, h, n, RecordCopy(h, o.node, o.out), o)
  {
    hide HistoryOk, NodeOk, AppendOk, Matches;
    var o := OnAppendEntries(CORRECTED, n, p.src, p.msg);
    assert RecordCopy(h, o.node, o.out) == h;
    PersistedOk(servers, h, n, o.node);
  }

  // ----- a follower votes -----

  /** A server's vote of its current term that could count for its elected leader is already
      among the ballots. */
  lemma ElectedMeansVoted(servers: seq<ServerId>, h: History, vote: Option<ServerId>, b: Cast)
    requires Sound(servers, h) && Election.Remembers(h, b.voter, b.term, vote)
    requires Counts(h, b) && b.term in h.reigns
    requires vote == None || vote == Some(b.candidate)
    ensures b in h.ballots
  {
    assert ReignOk(h, b.term);
    var w := Win(b.term, h.reigns[b.term].leader);
    assert Election.WinOk(servers, h, w);
    assert Cast(b.voter, b.term, w.leader) in h.ballots;
  }

  /** A term not won yet comes after all that were. */
  lemma KeepsBefore(h: History, log: seq<Entry>, c: Copy, u: nat)
    requires c in h.copies && KeepsCopy(h, log, c, None) && u !in h.reigns
    ensures KeepsCopy(h, log, c, Some(u))
  {
    forall length | 0 < length <= h.copies[c] ensures Kept(h, log, c.term, length, Some(u)) {
      assert Kept(h, log, c.term, length, None);
      if !(Prefix(h, c.term, length) <= log) {
        var w :| c.term < w && Lacks(h, w, c.term, length) && Before(h, w, None);
        assert Before(h, w, Some(u));
      }
    }
  }

  lemma KeepsCopySame(h: History, h': History, log: seq<Entry>, c: Copy, u: Option<nat>)
    requires c in h.copies && h'.copies == h.copies && h'.reigns == h.reigns && KeepsCopy(h, log, c, u)
    ensures KeepsCopy(h', log, c, u)
  {
    forall length | 0 < length <= h'.copies[c] ensures Kept(h', log, c.term, length, u) {
      KeptSame(h, h', log, c.term, length, u);
    }
  }

  /** A first vote in a term: the voter's log has what it confirmed before, or the vote comes
      too late to count. */
  lemma NewBallotKeeps(servers: seq<ServerId>, h: History, st: Stable, b: Cast, h': History)
    requires Sound(servers, h) && Election.Remembers(h, b.voter, b.term, st.votedFor) && ViewOk(h, b.voter, st)
    requires b.term == st.term && b !in h.ballots
    requires st.votedFor == None || st.votedFor == Some(b.candidate)
    requires h' == h.(ballots := h.ballots[b := st.log])
    ensures NewBallotsKeep(h, h')
  {
    hide Sound;
    forall c | c in h'.copies && c.server == b.voter && c.term < b.term && Counts(h', b)
      ensures KeepsCopy(h', st.log, c, Some(b.term))
    {
      if b.term in h.reigns {
        ElectedMeansVoted(servers, h, st.votedFor, b);
      }
      KeepsBefore(h, st.log, c, b.term);
      KeepsCopySame(h, h', st.log, c, Some(b.term));
    }
  }

  /** Whoever elected a leader of a later term has forgotten none of it, and votes no more. */
  lemma StillUnseated(servers: seq<ServerId>, h: History, voter: ServerId, term: nat, vote: Option<ServerId>,
                      log: seq<Entry>)
    requires Sound(servers, h) && Election.Remembers(h, voter, term, vote)
    ensures Unseated(h, voter, log, term)
  {
    forall k | 0 < k < |log| && log[k].term > term && log[k].term in h.reigns
      ensures voter !in h.reigns[log[k].term].quorum
    {
      var t := log[k].term;
      assert ReignOk(h, t);
      assert Election.WinOk(servers, h, Win(t, h.reigns[t].leader));
      assert Election.VotedFor(h, h.reigns[t].quorum, t, h.reigns[t].leader);
    }
  }

  lemma BallotHistoryOk(servers: seq<ServerId>, h: History, st: Stable, b: Cast, h': History)
    requires Sound(servers, h) && Election.Remembers(h, b.voter, b.term, st.votedFor) && ViewOk(h, b.voter, st)
    requires b.term == st.term && b !in h.ballots
    requires st.votedFor == None || st.votedFor == Some(b.candidate)
    requires Candidacy(b.candidate, b.term) in h.candidacies
    requires LogUpToDate(h.candidacies[Candidacy(b.candidate, b.term)], st.log)
    requires h' == h.(ballots := h.ballots[b := st.log])
    ensures Extends(h, h', b.voter) && HistoryOk(servers, h')
  {
    hide HistoryOk, Election.HistoryOk, LogOk, KeepsCopy;
    NewBallotKeeps(servers, h, st, b, h');
    assert Extends(h, h', b.voter);
    LogStaysOk(h, h', b.voter, st.log);
    StillUnseated(servers, h, b.voter, b.term, st.votedFor, h.candidacies[Candidacy(b.candidate, b.term)]);
    assert BallotOk(h', b);
    HistoryExtended(servers, h, h', b.voter, b.term);
  }

  /** A ballot changes nothing a server's own state is measured against. */
  lemma ViewSame(h: History, h': History, id: ServerId, st: Stable, st': Stable)
    requires ViewOk(h, id, st) && st'.log == st.log && st'.term == st.term
    requires h'.reigns == h.reigns && h'.copies == h.copies && h'.candidacies == h.candidacies
    ensures ViewOk(h', id, st')
  {
    forall k | 0 < k < |st.log| ensures FromLeader(h', st.log, k) {
      assert FromLeader(h, st.log, k);
    }
    forall c | c in h'.copies && c.server == id ensures c.term <= st'.term && KeepsCopy(h', st'.log, c, None) {
      KeepsCopySame(h, h', st.log, c, None);
    }
  }

  lemma VoterNodeOk(servers: seq<ServerId>, h: History, h': History, n: Node, n': Node)
    requires NodeOk(servers, h, n) && Extends(h, h', n.id)
    requires h'.reigns == h.reigns && h'.copies == h.copies && h'.candidacies == h.candidacies
    requires n'.state.Follower? && n' == n.(mem := n'.mem, disk := n'.mem, state := n'.state)
    requires n'.mem.log == n.mem.log && n'.mem.term == n.mem.term
    ensures NodeOk(servers, h', n')
  {
    hide ViewOk, Committed;
    ViewSame(h, h', n.id, n.mem, n'.mem);
    CommittedStays(servers, h, h', n.id, n.mem.log[..n.commitIndex + 1], n.mem.term, n.mem.term);
  }

  lemma GrantShape(h: History, n: Node, p: Packet)
    requires n.state.Follower? && p.msg.RequestVote? && p.msg.candidateId == p.src && p.msg.term <= n.mem.term
    ensures var o := OnRequestVote(CORRECTED, n, p.src, p.msg);
      && o.node.mem == n.mem.(votedFor := o.node.mem.votedFor) == o.node.disk
      && o.node == n.(mem := o.node.mem, disk := o.node.mem)
      && |o.out| == 1 && o.out[0].src == n.id && o.out[0].dst == p.src && o.out[0].msg.VoteResponse?
      && var b, h' := Cast(n.id, n.mem.term, p.src), RecordGrant(h, o.node, o.out);
      && (h' == h ||
          (b !in h.ballots && h' == h.(ballots := h.ballots[b := n.mem.log]) && GrantsVote(CORRECTED, n, p.msg)))
  {
  }

  /** A follower answers a vote request. */
  lemma GrantOk(servers: seq<ServerId>, h: History, n: Node, p: Packet)
    requires Sound(servers, h) && Election.NodeOk(servers, h, n) && NodeOk(servers, h, n)
    requires Election.PacketOk(servers, h, p) && PacketOk(servers, h, p) && p.dst == n.id
    requires n.state.Follower? && p.msg.RequestVote? && p.msg.term <= n.mem.term
    ensures var o := OnRequestVote(CORRECTED, n, p.src, p.msg); StepOk(servers, h, n, RecordGrant(h, o.node, o.out), o)
  {
    hide HistoryOk, Election.HistoryOk, OnRequestVote, RecordGrant, ViewOk, CommitOk;
    var o := OnRequestVote(CORRECTED, n, p.src, p.msg);
    var h' := RecordGrant(h, o.node, o.out);
    var b := Cast(n.id, n.mem.term, p.src);
    GrantShape(h, n, p);
    if h' != h {
      BallotHistoryOk(servers, h, n.mem, b, h');
    }
    VoterNodeOk(servers, h, h', n, o.node);
  }

  // ----- a leader sends -----

  lemma AppendRequestOk(servers: seq<ServerId>, h: History, n: Node, peer: ServerId)
    requires n.state.Leader? && |n.mem.log| > 0 && LeaderOk(servers, h, n) && CommitOk(servers, h, n)
    requires peer in Peers(servers, n.id)
    ensures PacketOk(servers, h, AppendRequest(CORRECTED, n, peer))
  {
    hide Committed;
    assert IndexOk(h, n, peer);
    SuffixIs(n.mem.log, n.state.nextIndex[peer].value);
  }

  lemma SuffixIs(log: seq<Entry>, next: nat)
    requires 0 < next <= |log|
    ensures log[next..] == log[next - 1 + 1..next - 1 + 1 + |log[next..]|]
  {
  }

  lemma SendOk(servers: seq<ServerId>, h: History, n: Node)
    requires NodeOk(servers, h, n) && n.state.Leader?
    ensures var o := SendAppendEntries(CORRECTED, servers, n);
      && o.node == n.(disk := n.mem) && NodeOk(servers, h, o.node)
      && (forall p :: p in o.out ==> PacketOk(servers, h, p))
  {
    hide Committed, LogOk, KeepsCopy, AppendOk;
    var o := SendAppendEntries(CORRECTED, servers, n);
    assert |n.mem.log| > 0;
    forall p | p in o.out ensures PacketOk(servers, h, p) {
      var i :| 0 <= i < |o.out| && o.out[i] == p;
      AppendRequestOk(servers, h, n, Peers(servers, n.id)[i]);
    }
  }

  // ----- a candidate wins -----

  /** A candidate that has a majority: nobody was leader of its term before. */
  lemma NobodyLedBefore(servers: seq<ServerId>, h: History, n: Node, quorum: set<ServerId>)
    requires Sound(servers, h) && n.state.Candidate? && CandidateOk(h, n)
    requires quorum <= Members(servers) && IsMajority(servers, quorum)
    requires Election.VotedFor(h, quorum, n.mem.term, n.id)
    ensures n.mem.term !in h.reigns
  {
    if n.mem.term in h.reigns {
      OtherLeaderIsSelf(servers, h, n.mem.term, n.id, quorum);
    }
  }

  lemma OtherLeaderIsSelf(servers: seq<ServerId>, h: History, t: nat, id: ServerId, quorum: set<ServerId>)
    requires Sound(servers, h) && t in h.reigns
    requires quorum <= Members(servers) && IsMajority(servers, quorum) && Election.VotedFor(h, quorum, t, id)
    ensures h.reigns[t].leader == id && Win(t, id) in h.wins
  {
    assert ReignOk(h, t);
    var w := Win(t, h.reigns[t].leader);
    assert Election.WinOk(servers, h, w);
    var s := Election.QuorumsMeet(servers, quorum, h.wins[w]);
    assert Cast(s, t, id) in h.ballots && Cast(s, t, w.leader) in h.ballots;
  }

  /** The history after a win. */
  ghost predicate Crowned(h: History, h': History, n: Node, quorum: set<ServerId>) {
    var t, log := n.mem.term, n.mem.log;
    h' == h.(copies := h.copies[Copy(n.id, t) := |log|],
             wins := h.wins[Win(t, n.id) := quorum],
             reigns := h.reigns[t := Reign(n.id, quorum, log, log, h.reigns.Keys)])
  }

  lemma CrownedExtends(servers: seq<ServerId>, h: History, h': History, n: Node, quorum: set<ServerId>)
    requires HistoryOk(servers, h) && Crowned(h, h', n, quorum) && n.mem.term !in h.reigns
    ensures Extends(h, h', n.id)
    ensures Copy(n.id, n.mem.term) !in h.copies
  {
    forall c | c in h.copies ensures c.term != n.mem.term {
      assert CopyOk(h, c);
    }
    assert Win(n.mem.term, n.id) !in h.wins;
  }

  /** The log a majority elects holds entries of earlier terms only: for a later term, somebody
      who elected its leader would have had to vote in this one afterwards. */
  lemma ElectedLogIsOlder(servers: seq<ServerId>, h: History, n: Node, quorum: set<ServerId>, k: nat)
    requires Sound(servers, h) && n.state.Candidate? && CandidateOk(h, n) && n.mem.term !in h.reigns
    requires quorum <= Members(servers) && IsMajority(servers, quorum)
    requires Election.VotedFor(h, quorum, n.mem.term, n.id)
    requires LogOk(h, n.mem.log) && 0 < k < |n.mem.log|
    ensures n.mem.log[k].term < n.mem.term && n.mem.log[k].term in h.reigns
  {
    hide LogUpToDate, LogOk, Timely, HistoryOk, Election.HistoryOk;
    var t := n.mem.log[k].term;
    EntryWon(h, n.mem.log, k);
    if t > n.mem.term {
      var s := ElectedBoth(servers, h, quorum, t);
      BallotUnseated(servers, h, Cast(s, n.mem.term, n.id));
    }
  }

  lemma EntryWon(h: History, log: seq<Entry>, k: nat)
    requires LogOk(h, log) && 0 < k < |log|
    ensures log[k].term in h.reigns
  {
    assert FromLeader(h, log, k);
  }

  lemma ElectedBoth(servers: seq<ServerId>, h: History, quorum: set<ServerId>, t: nat) returns (s: ServerId)
    requires Sound(servers, h) && t in h.reigns && quorum <= Members(servers) && IsMajority(servers, quorum)
    ensures s in quorum && s in h.reigns[t].quorum
  {
    hide LogOk, Timely;
    assert ReignOk(h, t);
    var w := Win(t, h.reigns[t].leader);
    assert Election.WinOk(servers, h, w);
    s := Election.QuorumsMeet(servers, quorum, h.wins[w]);
  }

  lemma BallotUnseated(servers: seq<ServerId>, h: History, b: Cast)
    requires Sound(servers, h) && b in h.ballots
    ensures Candidacy(b.candidate, b.term) in h.candidacies
    ensures Unseated(h, b.voter, h.candidacies[Candidacy(b.candidate, b.term)], b.term)
  {
    hide LogOk, Unseated, LogUpToDate;
    assert BallotOk(h, b);
  }

  lemma CrownedReignOk(servers: seq<ServerId>, h: History, h': History, n: Node, quorum: set<ServerId>)
    requires Sound(servers, h) && Crowned(h, h', n, quorum) && n.mem.term !in h.reigns && Extends(h, h', n.id)
    requires n.state.Candidate? && CandidateOk(h, n)
    requires quorum <= Members(servers) && IsMajority(servers, quorum)
    requires Election.VotedFor(h, quorum, n.mem.term, n.id)
    ensures ReignOk(h', n.mem.term)
  {
    hide Election.HistoryOk, LogOk;
    assert CandidacyOk(h, Candidacy(n.id, n.mem.term));
    LogStaysOk(h, h', n.id, n.mem.log);
    forall k | 0 < k < |n.mem.log| ensures n.mem.log[k].term < n.mem.term && n.mem.log[k].term in h.reigns {
      ElectedLogIsOlder(servers, h, n, quorum, k);
    }
    forall w | w in h.reigns ensures h.reigns[w].earlier <= h.reigns.Keys {
      assert ReignOk(h, w);
    }
  }

  lemma CrownedHistoryOk(servers: seq<ServerId>, h: History, h': History, n: Node, quorum: set<ServerId>)
    requires Sound(servers, h) && Crowned(h, h', n, quorum) && n.mem.term !in h.reigns
    requires n.state.Candidate? && CandidateOk(h, n) && |n.mem.log| > 0
    requires Election.Remembers(h, n.id, n.mem.term, n.mem.votedFor)
    requires quorum <= Members(servers) && IsMajority(servers, quorum)
    requires Election.VotedFor(h, quorum, n.mem.term, n.id)
    ensures Extends(h, h', n.id) && HistoryOk(servers, h')
  {
    hide HistoryOk, ReignOk, Sound, Election.VotedFor;
    SoundHistory(servers, h);
    CrownedExtends(servers, h, h', n, quorum);
    CrownedReignOk(servers, h, h', n, quorum);
    HistoryExtended(servers, h, h', n.id, n.mem.term);
  }

  /** A server's view when the only copy that changes is of its own log, as leader. */
  lemma OwnCopyViewOk(servers: seq<ServerId>, h: History, h': History, id: ServerId, st: Stable, st': Stable)
    requires HistoryOk(servers, h) && Extends(h, h', id) && ViewOk(h, id, st)
    requires h'.copies == h.copies[Copy(id, st.term) := |st'.log|] && h'.candidacies == h.candidacies
    requires st'.term == st.term && st.log <= st'.log && LogOk(h', st'.log)
    requires st.term in h'.reigns && h'.reigns[st.term].log == st'.log
    ensures ViewOk(h', id, st')
  {
    hide LogOk, ReignOk, CandidacyOk, BallotOk, BallotKeeps, AppliedOk, Lacks, Before;
    forall c | c in h'.copies && c.server == id ensures c.term <= st'.term && KeepsCopy(h', st'.log, c, None) {
      if c == Copy(id, st.term) {
        forall length | 0 < length <= h'.copies[c] ensures Kept(h', st'.log, c.term, length, None) {
        }
      } else {
        KeepsCopyStays(h, h', id, st.log, c, None);
        KeepsCopyLonger(h', st.log, st'.log, c, None);
      }
    }
  }

  /** The leader as it enters office, its state on disk. */
  function Enthroned(servers: seq<ServerId>, n: Node): Node {
    var peers := Peers(servers, n.id);
    n.(disk := n.mem, state := Leader(map k | k in peers :: Num(|n.mem.log|), FreshTable(peers)))
  }

  /** What is sent does not depend on the disk. */
  lemma SendsFromMemory(servers: seq<ServerId>, n: Node)
    requires n.state.Leader? && |n.mem.log| > 0
    ensures SendAppendEntries(CORRECTED, servers, n) == SendAppendEntries(CORRECTED, servers, n.(disk := n.mem))
  {
    hide AppendRequest;
    var n', peers := n.(disk := n.mem), Peers(servers, n.id);
    forall i | 0 <= i < |peers|
      ensures AppendRequest(CORRECTED, n, peers[i]) == AppendRequest(CORRECTED, n', peers[i])
    {
      RequestFromMemory(n, peers[i]);
    }
    assert SendAppendEntries(CORRECTED, servers, n).out == SendAppendEntries(CORRECTED, servers, n').out;
  }

  lemma RequestFromMemory(n: Node, peer: ServerId)
    requires n.state.Leader? && |n.mem.log| > 0
    ensures AppendRequest(CORRECTED, n, peer) == AppendRequest(CORRECTED, n.(disk := n.mem), peer)
  {
  }

  lemma EnthronedSends(servers: seq<ServerId>, n: Node)
    requires |n.mem.log| > 0
    ensures BecomeLeader(CORRECTED, servers, n) == SendAppendEntries(CORRECTED, servers, Enthroned(servers, n))
    ensures BecomeLeader(CORRECTED, servers, n).node == Enthroned(servers, n)
  {
    hide AppendRequest, FreshTable;
    var peers := Peers(servers, n.id);
    SendsFromMemory(servers, n.(state := Leader(map k | k in peers :: Num(|n.mem.log|), FreshTable(peers))));
  }

  lemma EnthronedLeaderOk(servers: seq<ServerId>, h: History, h': History, n: Node, quorum: set<ServerId>)
    requires Crowned(h, h', n, quorum) && |n.mem.log| > 0
    ensures LeaderOk(servers, h', Enthroned(servers, n)) && CandidateOk(h', Enthroned(servers, n))
  {
  }

  lemma EnthronedOk(servers: seq<ServerId>, h: History, h': History, n: Node, quorum: set<ServerId>)
    requires HistoryOk(servers, h) && NodeOk(servers, h, n) && Extends(h, h', n.id)
    requires Crowned(h, h', n, quorum)
    ensures NodeOk(servers, h', Enthroned(servers, n))
  {
    hide HistoryOk, Committed, KeepsCopy, LeaderOk, CandidateOk;
    assert ViewOk(h, n.id, n.mem) && CommitOk(servers, h, n) && LogOk(h, n.mem.log);
    LogStaysOk(h, h', n.id, n.mem.log);
    OwnCopyViewOk(servers, h, h', n.id, n.mem, n.mem);
    CommittedStays(servers, h, h', n.id, n.mem.log[..n.commitIndex + 1], n.mem.term, n.mem.term);
    EnthronedLeaderOk(servers, h, h', n, quorum);
  }

  /** A candidate with a majority becomes leader: the outcome, and the history of it. */
  lemma WinOk(servers: seq<ServerId>, h: History, n: Node, quorum: set<ServerId>, h': History)
    requires Sound(servers, h) && NodeOk(servers, h, n) && n.state.Candidate?
    requires Election.Remembers(h, n.id, n.mem.term, n.mem.votedFor)
    requires quorum <= Members(servers) && IsMajority(servers, quorum)
    requires Election.VotedFor(h, quorum, n.mem.term, n.id)
    requires Crowned(h, h', n, quorum)
    ensures StepOk(servers, h, n, h', BecomeLeader(CORRECTED, servers, n))
  {
    hide HistoryOk, Election.HistoryOk, ViewOk, LeaderOk, Committed, Crowned, Enthroned, BecomeLeader,
        SendAppendEntries;
    NobodyLedBefore(servers, h, n, quorum);
    assert |n.mem.log| > 0;
    CrownedHistoryOk(servers, h, h', n, quorum);
    EnthronedOk(servers, h, h', n, quorum);
    EnthronedSends(servers, n);
    EnthronedIs(servers, n);
    SendOk(servers, h', Enthroned(servers, n));
  }

  lemma EnthronedIs(servers: seq<ServerId>, n: Node)
    ensures Enthroned(servers, n).id == n.id && Enthroned(servers, n).state.Leader?
  {
  }

  lemma CountVoteShape(servers: seq<ServerId>, h: History, n: Node, p: Packet)
    requires n.state.Candidate? && p.msg.VoteResponse?
    ensures var o := OnVoteResponse(CORRECTED, servers, n, p.src, p.msg);
      var votes := n.state.votes + {p.src};
      if !p.msg.voteGranted || p.msg.term != n.mem.term then o == Outcome(n, [])
      else if IsMajority(servers, votes) then o == BecomeLeader(CORRECTED, servers, n.(state := Candidate(votes)))
      else o == Outcome(n.(state := Candidate(votes)), [])
  {
  }

  lemma CrownedBy(servers: seq<ServerId>, h: History, n: Node, c: Node, quorum: set<ServerId>)
    requires n.state.Leader? ==> n.mem.term != c.mem.term
    requires |c.mem.log| > 0
    ensures Crowned(h, RecordReign(h, n, BecomeLeader(CORRECTED, servers, c).node, quorum), c, quorum)
  {
    EnthronedSends(servers, c);
  }

  lemma VoteOk(servers: seq<ServerId>, h: History, n: Node, p: Packet)
    requires Sound(servers, h) && Election.NodeOk(servers, h, n) && NodeOk(servers, h, n)
    requires Election.PacketOk(servers, h, p) && p.dst == n.id
    requires n.state.Candidate? && p.msg.VoteResponse?
    ensures var o := OnVoteResponse(CORRECTED, servers, n, p.src, p.msg);
      StepOk(servers, h, n, RecordReign(h, n, o.node, n.state.votes + {p.src}), o)
  {
    hide HistoryOk, Election.HistoryOk, ViewOk, Committed, OnVoteResponse, BecomeLeader, Crowned;
    var votes := n.state.votes + {p.src};
    var c := n.(state := Candidate(votes));
    CountVoteShape(servers, h, n, p);
    assert NodeOk(servers, h, c);
    if p.msg.voteGranted && p.msg.term == n.mem.term && IsMajority(servers, votes) {
      CrownedBy(servers, h, n, c, votes);
      WinOk(servers, h, c, votes, RecordReign(h, n, BecomeLeader(CORRECTED, servers, c).node, votes));
    }
  }

  // ----- a server stands for election -----

  ghost predicate Stood(h: History, h0: History, id: ServerId, term: nat, log: seq<Entry>) {
    h0 == h.(candidacies := h.candidacies[Candidacy(id, term) := log])
  }

  lemma StoodHistoryOk(servers: seq<ServerId>, h: History, h0: History, id: ServerId, st: Stable)
    requires HistoryOk(servers, h) && ViewOk(h, id, st) && Stood(h, h0, id, st.term + 1, st.log)
    requires forall b :: b in h.ballots && b.voter == id ==> b.term <= st.term
    ensures Extends(h, h0, id) && HistoryOk(servers, h0)
    ensures Win(st.term + 1, id) !in h0.wins
  {
    hide KeepsCopy, LogOk;
    assert Extends(h, h0, id);
    LogStaysOk(h, h0, id, st.log);
    assert CandidacyOk(h0, Candidacy(id, st.term + 1));
    HistoryExtended(servers, h, h0, id, st.term);
    WinnersStood(servers, h);
  }

  lemma WinnersStood(servers: seq<ServerId>, h: History)
    requires HistoryOk(servers, h)
    ensures forall w :: w in h.wins ==> Candidacy(w.leader, w.term) in h.candidacies
  {
    forall w | w in h.wins ensures Candidacy(w.leader, w.term) in h.candidacies {
      assert ReignOk(h, w.term);
    }
  }

  lemma StoodViewOk(h: History, h0: History, id: ServerId, st: Stable, st': Stable)
    requires ViewOk(h, id, st) && Stood(h, h0, id, st.term + 1, st.log)
    requires st'.log == st.log && st'.term == st.term + 1
    ensures ViewOk(h0, id, st')
  {
    LaterViewOk(h, id, st, st');
    forall k | 0 < k < |st.log| ensures FromLeader(h0, st.log, k) {
      assert FromLeader(h, st.log, k);
    }
    forall c | c in h0.copies && c.server == id ensures KeepsCopy(h0, st'.log, c, None) {
      KeepsCopySame(h, h0, st'.log, c, None);
    }
  }

  /** The candidate, its new term and vote on disk. */
  function Standing(n: Node): Node {
    var st := Stable(n.mem.term + 1, Some(n.id), n.mem.log);
    n.(mem := st, disk := st, state := Candidate({n.id}))
  }

  /** The candidacy alone. */
  lemma StoodOk(servers: seq<ServerId>, h: History, h0: History, n: Node, st: Stable)
    requires Sound(servers, h) && ViewOk(h, n.id, n.mem)
    requires Election.Remembers(h, n.id, n.mem.term, n.mem.votedFor)
    requires st == Stable(n.mem.term + 1, Some(n.id), n.mem.log) && Stood(h, h0, n.id, st.term, st.log)
    ensures Extends(h, h0, n.id) && Sound(servers, h0) && ViewOk(h0, n.id, st)
    ensures Win(st.term, n.id) !in h0.wins && LogUpToDate(st.log, st.log)
  {
    hide HistoryOk, KeepsCopy, Election.HistoryOk, Sound;
    SoundHistory(servers, h);
    StoodHistoryOk(servers, h, h0, n.id, n.mem);
    StoodViewOk(h, h0, n.id, n.mem, st);
    SoundStays(servers, h, h0);
    UpToDateWithItself(h0, st.log);
  }

  /** Standing adds a candidacy and a ballot for itself. */
  lemma StandOk(servers: seq<ServerId>, h: History, n: Node, h1: History)
    requires Sound(servers, h) && NodeOk(servers, h, n)
    requires Election.Remembers(h, n.id, n.mem.term, n.mem.votedFor)
    requires h1 == RecordCandidacy(h, n, Standing(n))
    ensures Extends(h, h1, n.id) && HistoryOk(servers, h1) && NodeOk(servers, h1, Standing(n))
  {
    hide HistoryOk, Committed, ViewOk, LogOk, Sound, LogUpToDate, Extends;
    var st := Stable(n.mem.term + 1, Some(n.id), n.mem.log);
    var h0 := h.(candidacies := h.candidacies[Candidacy(n.id, st.term) := n.mem.log]);
    StoodOk(servers, h, h0, n, st);
    var b := Cast(n.id, st.term, n.id);
    BallotHistoryOk(servers, h0, st, b, h1);
    ViewSame(h0, h1, n.id, st, st);
    ExtendsBoth(h, h0, h1, n.id);
    StandCommitOk(servers, h, h1, n);
  }

  lemma StandCommitOk(servers: seq<ServerId>, h: History, h1: History, n: Node)
    requires CommitOk(servers, h, n) && Extends(h, h1, n.id)
    ensures CommitOk(servers, h1, Standing(n))
  {
    hide Committed;
    CommittedStays(servers, h, h1, n.id, n.mem.log[..n.commitIndex + 1], n.mem.term, n.mem.term + 1);
  }

  lemma SoundHistory(servers: seq<ServerId>, h: History)
    requires Sound(servers, h)
    ensures HistoryOk(servers, h) && Election.HistoryOk(servers, h) && Distinct(servers)
  {
  }

  lemma SoundStays(servers: seq<ServerId>, h: History, h0: History)
    requires Sound(servers, h) && HistoryOk(servers, h0) && h0.ballots == h.ballots && h0.wins == h.wins
    ensures Sound(servers, h0)
  {
    hide HistoryOk;
    forall w | w in h0.wins ensures Election.WinOk(servers, h0, w) {
      assert Election.WinOk(servers, h, w);
    }
  }

  lemma UpToDateWithItself(h: History, log: seq<Entry>)
    requires LogOk(h, log)
    ensures LogUpToDate(log, log)
  {
  }

  lemma ExtendsBoth(h: History, h0: History, h1: History, id: ServerId)
    requires Extends(h, h0, id) && Extends(h0, h1, id)
    ensures Extends(h, h1, id)
  {
    assert ReignsGrow(h, h1, id) by {
      forall t | t in h.reigns ensures SameReign(h.reigns[t], h1.reigns[t], id) {
        assert SameReign(h.reigns[t], h0.reigns[t], id);
        assert SameReign(h0.reigns[t], h1.reigns[t], id);
      }
    }
  }

  lemma VoteRequestsOk(servers: seq<ServerId>, h: History, n: Node)
    requires Candidacy(n.id, n.mem.term) in h.candidacies && h.candidacies[Candidacy(n.id, n.mem.term)] == n.mem.log
    ensures forall p :: p in VoteRequests(servers, n) ==> PacketOk(servers, h, p)
  {
    forall p | p in VoteRequests(servers, n) ensures PacketOk(servers, h, p) {
      var i :| 0 <= i < |VoteRequests(servers, n)| && VoteRequests(servers, n)[i] == p;
      assert Peers(servers, n.id)[i] in Peers(servers, n.id);
    }
  }

  lemma StartShape(servers: seq<ServerId>, n: Node)
    requires |n.mem.log| > 0
    ensures var o, c := StartElection(CORRECTED, servers, n), Standing(n);
      && o.node == (if IsMajority(servers, {n.id}) then BecomeLeader(CORRECTED, servers, c).node else c)
      && o.out == (if IsMajority(servers, {n.id}) then BecomeLeader(CORRECTED, servers, c).out else [])
                  + VoteRequests(servers, c)
      && o.node.mem == c.mem && o.node.id == n.id
  {
    EnthronedSends(servers, Standing(n));
  }

  lemma SelfVoted(h: History, n: Node, n': Node)
    requires n'.mem.term == n.mem.term + 1
    ensures Election.VotedFor(RecordCandidacy(h, n, n'), {n.id}, n'.mem.term, n.id)
  {
  }

  lemma TimeoutOk(servers: seq<ServerId>, h: History, n: Node)
    requires Sound(servers, h) && Election.NodeOk(servers, h, n) && NodeOk(servers, h, n) && n.id in servers
    ensures var o := StartElection(CORRECTED, servers, n);
      StepOk(servers, h, n, RecordReign(RecordCandidacy(h, n, o.node), n, o.node, {n.id}), o)
  {
    hide HistoryOk, Election.WinsOk, ViewOk, LeaderOk, CommitOk, StartElection, BecomeLeader, VoteRequests, Crowned;
    assert |n.mem.log| > 0 by { PositiveLog(servers, h, n); }
    var o, c := StartElection(CORRECTED, servers, n), Standing(n);
    var h1 := RecordCandidacy(h, n, o.node);
    StartShape(servers, n);
    StandOk(servers, h, n, h1);
    VoteRequestsOk(servers, h1, c);
    if IsMajority(servers, {n.id}) {
      var lead := BecomeLeader(CORRECTED, servers, c);
      var h' := RecordReign(h1, n, lead.node, {n.id});
      CrownedBy(servers, h1, n, c, {n.id});
      Election.NewBallotOk(servers, h, n, Cast(n.id, n.mem.term + 1, n.id), n.mem.log, h1);
      SelfVoted(h, n, o.node);
      WinOk(servers, h1, c, {n.id}, h');
      ExtendsBoth(h, h1, h', n.id);
      forall p | p in o.out ensures PacketOk(servers, h', p) {
        if p in VoteRequests(servers, c) {
          PacketStaysOk(servers, h1, h', n.id, p);
        }
      }
    }
  }

  lemma PositiveLog(servers: seq<ServerId>, h: History, n: Node)
    requires NodeOk(servers, h, n)
    ensures |n.mem.log| > 0
  {
  }

  // ----- a leader takes a command -----

  /** The leader's log is longer, and it may count as a copy. */
  ghost predicate Lengthened(h: History, h': History, n: Node, log: seq<Entry>) {
    && n.mem.term in h.reigns && h' == h.(copies := h'.copies, reigns := h'.reigns)
    && h'.reigns == h.reigns[n.mem.term := h.reigns[n.mem.term].(log := log)]
  }

  /** The history after the leader appended an entry. */
  ghost predicate Grown(h: History, h': History, n: Node, log: seq<Entry>) {
    Lengthened(h, h', n, log) && h'.copies == h.copies[Copy(n.id, n.mem.term) := |log|]
  }

  ghost predicate OneMore(n: Node, log: seq<Entry>) {
    |log| == |n.mem.log| + 1 && n.mem.log <= log && log[|n.mem.log|].index == |n.mem.log| &&
        log[|n.mem.log|].term == n.mem.term
  }

  lemma GrownExtends(servers: seq<ServerId>, h: History, h': History, n: Node, log: seq<Entry>)
    requires n.state.Leader? && LeaderOk(servers, h, n) && OneMore(n, log) && Grown(h, h', n, log)
    ensures Extends(h, h', n.id)
  {
  }

  lemma GrownLogOk(servers: seq<ServerId>, h: History, h': History, n: Node, log: seq<Entry>)
    requires LogOk(h, n.mem.log) && OneMore(n, log) && Lengthened(h, h', n, log) && Extends(h, h', n.id)
    ensures LogOk(h', log)
  {
    LogStaysOk(h, h', n.id, n.mem.log);
    forall k | 0 < k < |log| ensures FromLeader(h', log, k) {
      if k < |n.mem.log| {
        assert FromLeader(h', n.mem.log, k);
        assert log[..k + 1] == n.mem.log[..k + 1];
      }
    }
  }

  lemma GrownReignOk(servers: seq<ServerId>, h: History, h': History, n: Node, log: seq<Entry>)
    requires HistoryOk(servers, h) && n.mem.term in h.reigns && h.reigns[n.mem.term].log == n.mem.log
    requires OneMore(n, log) && Lengthened(h, h', n, log) && Extends(h, h', n.id)
    ensures ReignOk(h', n.mem.term)
  {
    hide LogOk;
    assert ReignOk(h, n.mem.term);
    GrownLogOk(servers, h, h', n, log);
    LogStaysOk(h, h', n.id, h.reigns[n.mem.term].base);
    OwnTermTail(h.reigns[n.mem.term], log, n.mem.term);
  }

  lemma OwnTermTail(r: Reign, log: seq<Entry>, t: nat)
    requires r.base <= r.log && |log| == |r.log| + 1 && r.log <= log && log[|r.log|].term == t
    requires forall k :: |r.base| <= k < |r.log| ==> r.log[k].term == t
    ensures r.base <= log && forall k :: |r.base| <= k < |log| ==> log[k].term == t
  {
  }

  lemma GrownHistoryOk(servers: seq<ServerId>, h: History, h': History, n: Node, log: seq<Entry>)
    requires HistoryOk(servers, h) && n.state.Leader? && LeaderOk(servers, h, n)
    requires OneMore(n, log) && Grown(h, h', n, log)
    requires Election.Remembers(h, n.id, n.mem.term, n.mem.votedFor)
    ensures Extends(h, h', n.id) && HistoryOk(servers, h')
  {
    hide HistoryOk, ReignOk;
    GrownExtends(servers, h, h', n, log);
    GrownReignOk(servers, h, h', n, log);
    HistoryExtended(servers, h, h', n.id, n.mem.term);
  }

  lemma GrownLeaderOk(servers: seq<ServerId>, h: History, h': History, n: Node, log: seq<Entry>)
    requires n.state.Leader? && LeaderOk(servers, h, n) && OneMore(n, log) && Grown(h, h', n, log)
    ensures LeaderOk(servers, h', n.(mem := n.mem.(log := log), disk := n.mem.(log := log)))
  {
    var n' := n.(mem := n.mem.(log := log), disk := n.mem.(log := log));
    forall peer | peer in Peers(servers, n.id) ensures IndexOk(h', n', peer) {
      assert IndexOk(h, n, peer);
    }
  }

  lemma GrownNodeOk(servers: seq<ServerId>, h: History, h': History, n: Node, log: seq<Entry>)
    requires HistoryOk(servers, h) && NodeOk(servers, h, n) && n.state.Leader?
    requires OneMore(n, log) && Grown(h, h', n, log) && Extends(h, h', n.id)
    ensures NodeOk(servers, h', n.(mem := n.mem.(log := log), disk := n.mem.(log := log)))
  {
    hide HistoryOk, LeaderOk, Committed, KeepsCopy;
    assert LogOk(h, n.mem.log);
    GrownLogOk(servers, h, h', n, log);
    OwnCopyViewOk(servers, h, h', n.id, n.mem, n.mem.(log := log));
    GrownLeaderOk(servers, h, h', n, log);
    CommittedStays(servers, h, h', n.id, n.mem.log[..n.commitIndex + 1], n.mem.term, n.mem.term);
    assert log[..n.commitIndex + 1] == n.mem.log[..n.commitIndex + 1];
  }

  lemma RequestShape(servers: seq<ServerId>, h: History, n: Node, command: Bytes)
    requires n.state.Leader? && n.mem.term in h.reigns && |n.mem.log| > 0
    ensures var o := ClientRequest(CORRECTED, servers, n, command);
      var log := n.mem.log + [Entry(command, |n.mem.log|, n.mem.term)];
      && OneMore(n, log) && Grown(h, RecordReign(h, n, o.node, {}), n, log)
      && o == SendAppendEntries(CORRECTED, servers, n.(mem := n.mem.(log := log), disk := n.mem.(log := log)))
  {
    hide AppendRequest;
    var log := n.mem.log + [Entry(command, |n.mem.log|, n.mem.term)];
    SendsFromMemory(servers, n.(mem := n.mem.(log := log)));
  }

  lemma RequestOk(servers: seq<ServerId>, h: History, n: Node, command: Bytes)
    requires Sound(servers, h) && NodeOk(servers, h, n)
    requires Election.Remembers(h, n.id, n.mem.term, n.mem.votedFor)
    ensures var o := ClientRequest(CORRECTED, servers, n, command);
      StepOk(servers, h, n, RecordReign(h, n, o.node, {}), o)
  {
    hide HistoryOk, Election.HistoryOk, ViewOk, Committed, Grown, OneMore, SendAppendEntries, IndexesOk;
    if n.state.Leader? {
      var o := ClientRequest(CORRECTED, servers, n, command);
      var log := n.mem.log + [Entry(command, |n.mem.log|, n.mem.term)];
      var h', n' := RecordReign(h, n, o.node, {}), n.(mem := n.mem.(log := log), disk := n.mem.(log := log));
      RequestShape(servers, h, n, command);
      GrownHistoryOk(servers, h, h', n, log);
      GrownNodeOk(servers, h, h', n, log);
      SendOk(servers, h', n');
    }
  }

  // ----- a leader hears from a follower -----

  /** What a leader needs to commit safely: its own copy is the longest of its term. */
  ghost predicate Leads(servers: seq<ServerId>, h: History, n: Node)
    requires n.state.Leader?
  {
    var own := Copy(n.id, n.mem.term);
    && n.mem.term in h.reigns && h.reigns[n.mem.term].leader == n.id && h.reigns[n.mem.term].log == n.mem.log
    && own in h.copies && (forall c :: c in h.copies && c.term == n.mem.term ==> h.copies[c] <= h.copies[own])
    && IndexesOk(servers, h, n)
  }

  lemma LeaderLeads(servers: seq<ServerId>, h: History, n: Node)
    requires HistoryOk(servers, h) && n.state.Leader? && LeaderOk(servers, h, n)
    ensures Leads(servers, h, n)
  {
    hide IndexesOk;
    forall c | c in h.copies && c.term == n.mem.term ensures h.copies[c] <= h.copies[Copy(n.id, n.mem.term)] {
      assert CopyOk(h, c);
    }
  }

  lemma SuccessIndexOk(servers: seq<ServerId>, h: History, n: Node, m: Message, peer: ServerId)
    requires HistoryOk(servers, h) && n.state.Leader? && Leads(servers, h, n)
    requires m.AppendResponse? && m.success && m.term == n.mem.term && m.followerId in Peers(servers, n.id)
    requires Copy(m.followerId, m.term) in h.copies && m.replicatedTo < h.copies[Copy(m.followerId, m.term)]
    requires peer in Peers(servers, n.id)
    ensures IndexOk(h, n.(state := UpdateIndexes(CORRECTED, n.state, m)), peer)
  {
    assert IndexOk(h, n, peer);
    assert CopyOk(h, Copy(m.followerId, m.term));
  }

  lemma FailureIndexOk(servers: seq<ServerId>, h: History, n: Node, m: Message, peer: ServerId)
    requires n.state.Leader? && Leads(servers, h, n)
    requires m.AppendResponse? && !m.success && m.followerId in Peers(servers, n.id) && peer in Peers(servers, n.id)
    ensures IndexOk(h, n.(state := UpdateIndexes(CORRECTED, n.state, m)), peer)
  {
    assert IndexOk(h, n, peer) && IndexOk(h, n, m.followerId);
  }

  lemma UpdateIndexesOk(servers: seq<ServerId>, h: History, n: Node, p: Packet)
    requires HistoryOk(servers, h) && n.state.Leader? && Leads(servers, h, n)
    requires p.msg.AppendResponse? && PacketOk(servers, h, p) && p.dst == n.id && p.src in servers
    requires p.msg.term == n.mem.term
    ensures var n1 := n.(state := UpdateIndexes(CORRECTED, n.state, p.msg));
      n1.state.Leader? && Leads(servers, h, n1) && (LeaderOk(servers, h, n) ==> LeaderOk(servers, h, n1))
  {
    hide HistoryOk, IndexOk;
    var m := p.msg;
    assert m.followerId in Peers(servers, n.id);
    var n1 := n.(state := UpdateIndexes(CORRECTED, n.state, m));
    forall peer | peer in Peers(servers, n.id) ensures IndexOk(h, n1, peer) {
      if m.success {
        SuccessIndexOk(servers, h, n, m, peer);
      } else {
        FailureIndexOk(servers, h, n, m, peer);
      }
    }
    assert m.followerId in n.state.matchIndex.at by {
      IndexIn(servers, h, n, m.followerId);
    }
  }

  lemma IndexIn(servers: seq<ServerId>, h: History, n: Node, peer: ServerId)
    requires n.state.Leader? && IndexesOk(servers, h, n) && peer in Peers(servers, n.id)
    ensures peer in n.state.matchIndex.at
  {
  }

  ghost function AtLeast(table: Table, keys: seq<ServerId>, v: nat): set<ServerId> {
    set k | k in keys && table.Get(k) >= v
  }

  function ValuesAt(table: Table, keys: seq<ServerId>): seq<nat> {
    seq(|keys|, i requires 0 <= i < |keys| => table.Get(keys[i]))
  }

  lemma AtLeastStep(table: Table, keys: seq<ServerId>, v: nat)
    requires |keys| > 0 && Distinct(keys)
    ensures |AtLeast(table, keys, v)| == |AtLeast(table, keys[1..], v)| + if table.Get(keys[0]) >= v then 1 else 0
  {
    var others := AtLeast(table, keys[1..], v);
    assert keys == [keys[0]] + keys[1..];
    assert keys[0] !in others;
    assert AtLeast(table, keys, v) == if table.Get(keys[0]) >= v then others + {keys[0]} else others;
  }

  /** How many of the listed servers have a value of at least v. */
  lemma {:induction false} ReachingCounts(table: Table, keys: seq<ServerId>, v: nat)
    requires Distinct(keys)
    ensures Reaching(ValuesAt(table, keys), v) == |AtLeast(table, keys, v)|
  {
    if keys == [] {
      assert AtLeast(table, keys, v) == {};
    } else {
      ReachingCounts(table, keys[1..], v);
      AtLeastStep(table, keys, v);
      assert ValuesAt(table, keys)[1..] == ValuesAt(table, keys[1..]);
    }
  }

  /** The leader and the followers whose matchIndex reaches an index above 0 hold the log up to it. */
  lemma HoldersReach(servers: seq<ServerId>, h: History, n: Node, index: nat)
    requires Distinct(servers) && n.id in servers && n.state.Leader? && Leads(servers, h, n)
    requires 0 < index < |n.mem.log| && Reaching(Values(n.state.matchIndex), index) > 0
    ensures |Holders(servers, h, n.mem.term, index + 1)| >= 1 + Reaching(Values(n.state.matchIndex), index)
  {
    var table := n.state.matchIndex;
    PeersDistinct(servers, n.id);
    ReachingCounts(table, table.keys, index);
    assert ValuesAt(table, table.keys) == Values(table);
    var reached := AtLeast(table, table.keys, index);
    forall k | k in reached ensures k in Holders(servers, h, n.mem.term, index + 1) {
      assert IndexOk(h, n, k);
    }
    var k :| k in reached;
    assert h.copies[Copy(k, n.mem.term)] <= h.copies[Copy(n.id, n.mem.term)];
    assert n.id !in reached;
    Election.SubsetCount(reached + {n.id}, Holders(servers, h, n.mem.term, index + 1));
  }

  /** The commit loop: the greatest index of the current term above commitIndex and not above
      the start, or commitIndex itself when there is none. */
  lemma {:induction false} CommitScanGreatest(log: seq<Entry>, term: nat, commitIndex: nat, start: nat)
    requires start < |log|
    ensures var r := CommitScan(log, term, commitIndex, start);
      && commitIndex <= r && (r > commitIndex ==> r <= start && log[r].term == term)
      && (forall k :: r < k <= start ==> log[k].term != term)
  {
    if start > commitIndex && log[start].term != term {
      CommitScanGreatest(log, term, commitIndex, start - 1);
    }
  }

  lemma {:induction false} CommitScanBounds(log: seq<Entry>, term: nat, commitIndex: nat, start: nat)
    ensures var r := CommitScan(log, term, commitIndex, start);
      r == commitIndex || (commitIndex < r <= start && r < |log| && log[r].term == term)
  {
    if start > commitIndex && start < |log| && log[start].term != term {
      CommitScanBounds(log, term, commitIndex, start - 1);
    }
  }

  /** An index the median reaches, of the leader's own term, is decided. */
  lemma MedianDecides(servers: seq<ServerId>, h: History, n: Node, index: nat)
    requires Distinct(servers) && n.id in servers && n.state.Leader? && Leads(servers, h, n)
    requires Values(n.state.matchIndex) != [] && 0 < index <= Median(true, Values(n.state.matchIndex))
    requires index < |n.mem.log| && n.mem.log[index].term == n.mem.term
    ensures Decided(servers, h, n.mem.term, index + 1)
  {
    hide IndexOk, Sort, Median;
    var values := Values(n.state.matchIndex);
    MedianIsMajorityIndex(values);
    ReachingMonotone(values, index, Median(true, values));
    HoldersReach(servers, h, n, index);
    PeersDistinct(servers, n.id);
    assert |values| + 1 == |servers|;
  }

  lemma AdvanceCommitOk(servers: seq<ServerId>, h: History, n: Node)
    requires Distinct(servers) && n.id in servers && n.state.Leader?
    requires Leads(servers, h, n) && CommitOk(servers, h, n)
    ensures var n' := AdvanceCommit(CORRECTED, n);
      n' == n.(commitIndex := n'.commitIndex) && CommitOk(servers, h, n') && n.commitIndex <= n'.commitIndex
  {
    hide IndexesOk, Median, CommitScan;
    var values := Values(n.state.matchIndex);
    if values != [] {
      var c := CommitScan(n.mem.log, n.mem.term, n.commitIndex, Median(true, values));
      CommitScanBounds(n.mem.log, n.mem.term, n.commitIndex, Median(true, values));
      if c > n.commitIndex {
        MedianDecides(servers, h, n, c);
        assert DecidedBy(servers, h, n.mem.log[..c + 1], n.mem.term, c + 1);
      }
    }
  }

  lemma AppendResponseOk(servers: seq<ServerId>, h: History, n: Node, p: Packet)
    requires Sound(servers, h) && NodeOk(servers, h, n) && n.id in servers && n.state.Leader?
    requires p.msg.AppendResponse? && PacketOk(servers, h, p) && p.dst == n.id && p.src in servers
    ensures StepOk(servers, h, n, h, OnAppendResponse(CORRECTED, n, p.msg))
  {
    hide HistoryOk, Election.HistoryOk, LeaderOk, ViewOk, Committed, UpdateIndexes, AdvanceCommit, Leads;
    if p.msg.term == n.mem.term {
      var n1 := n.(state := UpdateIndexes(CORRECTED, n.state, p.msg));
      LeaderLeads(servers, h, n);
      UpdateIndexesOk(servers, h, n, p);
      AdvanceCommitOk(servers, h, n1);
      var n2 := AdvanceCommit(CORRECTED, n1);
      SameLeaderOk(servers, h, n1, n2);
    }
  }

  lemma UpdateKeepsRole(leader: State, m: Message)
    requires leader.Leader? && m.AppendResponse?
    ensures UpdateIndexes(CORRECTED, leader, m).Leader?
  {
  }

  lemma SameLeaderOk(servers: seq<ServerId>, h: History, n: Node, n': Node)
    requires LeaderOk(servers, h, n) && n' == n.(commitIndex := n'.commitIndex)
    ensures LeaderOk(servers, h, n')
  {
    if n.state.Leader? {
      forall peer | peer in Peers(servers, n.id) ensures IndexOk(h, n', peer) {
        assert IndexOk(h, n, peer);
      }
    }
  }

  // ----- any event -----

  lemma FollowOk(servers: seq<ServerId>, h: History, n: Node, n': Node)
    requires NodeOk(servers, h, n) && n' == n.(state := n'.state) && n'.state.Follower?
    ensures NodeOk(servers, h, n')
  {
    hide ViewOk, Committed;
  }

  lemma DeliverOk(servers: seq<ServerId>, h: History, n: Node, p: Packet)
    requires Sound(servers, h) && Election.NodeOk(servers, h, n) && NodeOk(servers, h, n) && n.id in servers
    requires Election.PacketOk(servers, h, p) && PacketOk(servers, h, p) && p.dst == n.id
    ensures var o := Receive(CORRECTED, servers, n, p.src, p.msg);
      StepOk(servers, h, n, Record(h, n, Deliver(p), o), o)
  {
    hide Sound, HistoryOk, NodeOk, Election.NodeOk, Receive, Bump;
    var b := Bump(n, p.msg);
    BumpOk(servers, h, n, p.msg);
    Election.BumpOk(servers, h, n, p.msg);
    if b.state.Follower? {
      FollowerDeliverOk(servers, h, n, b, p);
    } else {
      BumpKeepsRole(n, p.msg);
      if b.state.Candidate? {
        CandidateDeliverOk(servers, h, n, p);
      } else {
        LeaderDeliverOk(servers, h, n, p);
      }
    }
  }

  lemma FollowerDeliverOk(servers: seq<ServerId>, h: History, n: Node, b: Node, p: Packet)
    requires Sound(servers, h) && Election.NodeOk(servers, h, b) && NodeOk(servers, h, b) && b.id == n.id
    requires b == Bump(n, p.msg) && b.mem.term >= p.msg.term && b.state.Follower?
    requires Election.PacketOk(servers, h, p) && PacketOk(servers, h, p) && p.dst == n.id
    ensures var o := Receive(CORRECTED, servers, n, p.src, p.msg);
      StepOk(servers, h, n, Record(h, n, Deliver(p), o), o)
  {
    hide Sound, Election.NodeOk, NodeOk, HistoryOk, Bump, OnAppendEntries, OnRequestVote, RecordCopy, RecordGrant,
        Matches;
    if p.msg.AppendEntries? {
      if p.msg.term < b.mem.term || !Matches(b.mem.log, p.msg) {
        SoundHistory(servers, h);
        RefuseOk(servers, h, b, p);
      } else {
        AcceptOk(servers, h, b, p);
      }
    } else if p.msg.RequestVote? {
      GrantOk(servers, h, b, p);
    } else {
      SoundHistory(servers, h);
      UnchangedOk(servers, h, b);
    }
  }

  /** A candidate or a leader that is one still after the term check was not moved by it. */
  lemma BumpKeepsRole(n: Node, m: Message)
    requires !Bump(n, m).state.Follower?
    ensures Bump(n, m) == n
  {
  }

  lemma UnchangedOk(servers: seq<ServerId>, h: History, n: Node)
    requires HistoryOk(servers, h) && NodeOk(servers, h, n)
    ensures StepOk(servers, h, n, h, Outcome(n, []))
  {
    hide HistoryOk, NodeOk;
  }

  lemma CandidateDeliverOk(servers: seq<ServerId>, h: History, n: Node, p: Packet)
    requires Sound(servers, h) && Election.NodeOk(servers, h, n) && NodeOk(servers, h, n)
    requires Bump(n, p.msg) == n && n.state.Candidate?
    requires Election.PacketOk(servers, h, p) && PacketOk(servers, h, p) && p.dst == n.id
    ensures var o := Receive(CORRECTED, servers, n, p.src, p.msg);
      StepOk(servers, h, n, Record(h, n, Deliver(p), o), o)
  {
    hide Sound, Election.NodeOk, NodeOk, HistoryOk, Bump, OnVoteResponse, RecordReign;
    SoundHistory(servers, h);
    UnchangedOk(servers, h, n);
    if p.msg.AppendEntries? {
      var o := OnAppendAsCandidate(n, p.msg);
      if o.node != n {
        FollowOk(servers, h, n, o.node);
      }
    } else if p.msg.VoteResponse? {
      VoteOk(servers, h, n, p);
    }
  }

  lemma LeaderDeliverOk(servers: seq<ServerId>, h: History, n: Node, p: Packet)
    requires Sound(servers, h) && NodeOk(servers, h, n) && n.id in servers
    requires Bump(n, p.msg) == n && n.state.Leader?
    requires Election.PacketOk(servers, h, p) && PacketOk(servers, h, p) && p.dst == n.id
    ensures var o := Receive(CORRECTED, servers, n, p.src, p.msg);
      StepOk(servers, h, n, Record(h, n, Deliver(p), o), o)
  {
    hide Sound, NodeOk, HistoryOk, Bump, OnAppendResponse;
    SoundHistory(servers, h);
    UnchangedOk(servers, h, n);
    if p.msg.AppendResponse? {
      AppendResponseOk(servers, h, n, p);
    }
  }

  lemma HeartbeatOk(servers: seq<ServerId>, h: History, n: Node)
    requires HistoryOk(servers, h) && NodeOk(servers, h, n) && n.state.Leader?
    ensures StepOk(servers, h, n, h, SendAppendEntries(CORRECTED, servers, n))
  {
    hide HistoryOk, NodeOk, SendAppendEntries;
    SendOk(servers, h, n);
  }

  lemma ApplyRecordOk(servers: seq<ServerId>, h: History, n: Node)
    requires CommitOk(servers, h, n) && CanApply(n)
    ensures AppliedOk(servers, h, Applied(n.id, n.lastApplied + 1, n.mem.log[n.lastApplied + 1].command))
  {
    var log := n.mem.log[..n.commitIndex + 1];
    assert |log| > 1;
    var t: nat, length: nat :| t <= n.mem.term && DecidedBy(servers, h, log, t, length);
    assert Prefix(h, t, length)[n.lastApplied + 1] == log[n.lastApplied + 1];
  }

  lemma AppliedViewOk(servers: seq<ServerId>, h: History, h': History, n: Node)
    requires NodeOk(servers, h, n) && CanApply(n) && h' == h.(applied := h'.applied) && Extends(h, h', n.id)
    ensures NodeOk(servers, h', ApplyNext(n))
  {
    hide ViewOk, Committed, IndexesOk;
    ViewSame(h, h', n.id, n.mem, n.mem);
    ViewSame(h, h', n.id, n.disk, n.disk);
    AppliedLeaderOk(servers, h, h', n);
    CommittedStays(servers, h, h', n.id, n.mem.log[..n.commitIndex + 1], n.mem.term, n.mem.term);
  }

  lemma AppliedLeaderOk(servers: seq<ServerId>, h: History, h': History, n: Node)
    requires LeaderOk(servers, h, n) && CanApply(n) && h' == h.(applied := h'.applied)
    ensures LeaderOk(servers, h', ApplyNext(n))
  {
    if n.state.Leader? {
      forall peer | peer in Peers(servers, n.id) ensures IndexOk(h', ApplyNext(n), peer) {
        assert IndexOk(h, n, peer);
      }
    }
  }

  lemma ApplyOk(servers: seq<ServerId>, h: History, n: Node)
    requires Sound(servers, h) && NodeOk(servers, h, n) && CanApply(n)
    requires Election.Remembers(h, n.id, n.mem.term, n.mem.votedFor)
    ensures StepOk(servers, h, n, RecordApplied(h, n), Outcome(ApplyNext(n), []))
  {
    hide HistoryOk, Election.HistoryOk, ViewOk, LeaderOk, Committed, AppliedOk;
    var h' := RecordApplied(h, n);
    assert Extends(h, h', n.id);
    ApplyRecordOk(servers, h, n);
    AppliedStays(servers, h, h', n.id, Applied(n.id, n.lastApplied + 1, n.mem.log[n.lastApplied + 1].command));
    HistoryExtended(servers, h, h', n.id, n.mem.term);
    AppliedViewOk(servers, h, h', n);
  }

  lemma RestartStepOk(servers: seq<ServerId>, h: History, n: Node)
    requires HistoryOk(servers, h) && NodeOk(servers, h, n)
    ensures StepOk(servers, h, n, h, Outcome(Restart(CORRECTED, n), []))
  {
    hide HistoryOk, NodeOk;
    RestartOk(servers, h, n);
  }

  /** Each event of one server keeps the invariant. */
  lemma EventOk(servers: seq<ServerId>, h: History, n: Node, e: Event)
    requires Sound(servers, h) && Election.NodeOk(servers, h, n) && NodeOk(servers, h, n)
    requires n.id in servers && n.id == Actor(e)
    requires e.Deliver? ==> Election.PacketOk(servers, h, e.packet) && PacketOk(servers, h, e.packet)
    requires e.Heartbeat? ==> n.state.Leader?
    requires e.Apply? ==> CanApply(n)
    ensures var o := React(CORRECTED, servers, n, e); StepOk(servers, h, n, Record(h, n, e, o), o)
  {
    hide HistoryOk, NodeOk, StepOk, CanApply, StartElection, Receive, SendAppendEntries, ClientRequest;
    SoundHistory(servers, h);
    match e
    case Timeout(_) => TimeoutOk(servers, h, n);
    case Deliver(p) => DeliverOk(servers, h, n, p);
    case Heartbeat(_) => HeartbeatOk(servers, h, n);
    case Request(_, command) => RequestOk(servers, h, n, command);
    case Apply(_) => ApplyOk(servers, h, n);
    case Restarted(_) => RestartStepOk(servers, h, n);
  }
}
