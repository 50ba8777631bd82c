/** Runs of four servers that apply two different commands at index 1 when one correction is
    missing, and so exactly which corrections State Machine Safety needs. */
module SafetyRuns {
  import opened RaftTypes
  import opened Logs
  import opened Medians
  import opened Nodes
  import opened Clusters
  import opened RunSteps
  import Commitless
  import Safety

  const FOUR: seq<ServerId> := ["a", "b", "c", "d"]

  /** Requests and matchIndex are corrected, so that a leader can commit. */
  predicate Replicating(f: Fixes) {
    f.sendsFromNextIndex && f.matchesReplicated
  }

  /** The server that will lead, a or d; b and c vote for it and follow it. */
  ghost predicate Bench(c: Cluster, leader: ServerId) {
    && c.nodes.Keys == {"a", "b", "c", "d"} && leader in {"a", "d"}
    && (forall s :: s in c.nodes ==> c.nodes[s].id == s)
  }

  ghost predicate Holds(n: Node, term: nat) {
    n.mem.term == term && |n.mem.log| > 0 && n.mem.log[0] == SENTINEL
  }

  // ----- the election -----

  /** a or d, before it has stored an entry. */
  ghost predicate Blank(n: Node, id: ServerId, term: nat) {
    n.id == id && n.mem.term == term && n.mem.log == [SENTINEL] && n.commitIndex == 0 && n.lastApplied == 0
  }

  ghost predicate Stands(n: Node, id: ServerId, term: nat) {
    Blank(n, id, term) && n.state == Candidate({id})
  }

  ghost predicate Leads(n: Node, id: ServerId, term: nat) {
    Blank(n, id, term) && n.state == Elected(id)
  }

  /** b or c, following in the term; what it would restart with. */
  ghost predicate Follows(f: Fixes, n: Node, term: nat) {
    && Holds(n, term) && n.state.Follower? && n.disk.term == term
    && (n.mem.log == [SENTINEL] || !f.keepsLog ==> n.disk.log == [SENTINEL])
  }

  /** b or c, ready to vote for a candidate with an empty log. */
  ghost predicate Ready(f: Fixes, n: Node, term: nat) {
    && Holds(n, n.mem.term)
    && (n.mem.term < term || (n.mem.term == term && n.state.Follower? && n.mem.votedFor == None))
    && (f.comparesLogs ==> n.mem.log == [SENTINEL])
    && (n.mem.log == [SENTINEL] || !f.keepsLog ==> n.disk.log == [SENTINEL])
  }

  lemma StandReaction(f: Fixes, n: Node, term: nat)
    requires Blank(n, n.id, term) && n.id in {"a", "d"}
    ensures var o := React(f, FOUR, n, Timeout(n.id));
      Stands(o.node, n.id, term + 1) && Ask(n.id, "b", term + 1) in o.out && Ask(n.id, "c", term + 1) in o.out
  {
    assert !IsMajority(FOUR, {n.id});
    Asked(f, n, "b");
    Asked(f, n, "c");
  }

  lemma Asked(f: Fixes, n: Node, v: ServerId)
    requires n.mem.log == [SENTINEL] && v in FOUR && v != n.id
    ensures Ask(n.id, v, n.mem.term + 1) in StartElection(f, FOUR, n).out
  {
    var peers := Peers(FOUR, n.id);
    var n1 := Stand(f, n);
    var i :| 0 <= i < |peers| && peers[i] == v;
    assert VoteRequests(FOUR, n1)[i] == Ask(n.id, v, n.mem.term + 1);
  }

  lemma Standing(f: Fixes, run: seq<Event>, c: Cluster, leader: ServerId, term: nat)
    returns (run': seq<Event>, c': Cluster)
    requires c == Run(f, FOUR, run) && Bench(c, leader) && Blank(c.nodes[leader], leader, term)
    ensures c' == Run(f, FOUR, run') && Moved(c, c', leader) && Bench(c', leader)
    ensures Stands(c'.nodes[leader], leader, term + 1)
    ensures Ask(leader, "b", term + 1) in c'.network && Ask(leader, "c", term + 1) in c'.network
  {
    hide Run, React, Record, Blank, Stands;
    var n, e := c.nodes[leader], Timeout(leader);
    StandReaction(f, n, term);
    StandsId(React(f, FOUR, n, e).node, leader, term + 1);
    run', c' := Turn(f, FOUR, run, c, e, React(f, FOUR, n, e));
  }

  lemma StandsId(n: Node, id: ServerId, term: nat)
    requires Stands(n, id, term)
    ensures n.id == id && Blank(n, id, term)
  {
  }

  lemma GrantReaction(f: Fixes, n: Node, leader: ServerId, term: nat)
    requires Ready(f, n, term)
    ensures var o := React(f, FOUR, n, Deliver(Ask(leader, n.id, term)));
      && o.node.id == n.id && Follows(f, o.node, term) && o.node.mem.log == n.mem.log &&
          o.node.commitIndex == n.commitIndex
      && (!f.recordsGrant ==> o.node.mem.votedFor == None)
      && Yes(n.id, leader, term) in o.out
  {
    var o := React(f, FOUR, n, Deliver(Ask(leader, n.id, term)));
    assert o.out[0] == Yes(n.id, leader, term);
  }

  lemma Grants(f: Fixes, run: seq<Event>, c: Cluster, leader: ServerId, v: ServerId, term: nat)
    returns (run': seq<Event>, c': Cluster)
    requires c == Run(f, FOUR, run) && Bench(c, leader) && v in {"b", "c"}
    requires Ready(f, c.nodes[v], term) && Ask(leader, v, term) in c.network
    ensures c' == Run(f, FOUR, run') && Moved(c, c', v) && Bench(c', leader)
    ensures Follows(f, c'.nodes[v], term) && c'.nodes[v].mem.log == c.nodes[v].mem.log
    ensures c'.nodes[v].commitIndex == c.nodes[v].commitIndex
    ensures !f.recordsGrant ==> c'.nodes[v].mem.votedFor == None
    ensures Yes(v, leader, term) in c'.network
  {
    hide Run, React, Record, Ready, Follows;
    var e := Deliver(Ask(leader, v, term));
    GrantReaction(f, c.nodes[v], leader, term);
    run', c' := Turn(f, FOUR, run, c, e, React(f, FOUR, c.nodes[v], e));
  }

  /** b and c grant the leader their votes. */
  lemma BothGrant(f: Fixes, run: seq<Event>, c: Cluster, leader: ServerId, term: nat)
    returns (run': seq<Event>, c': Cluster)
    requires c == Run(f, FOUR, run) && Bench(c, leader)
    requires forall v :: v in {"b", "c"} ==> Ready(f, c.nodes[v], term) && Ask(leader, v, term) in c.network
    ensures c' == Run(f, FOUR, run') && Kept(c, c')
    ensures forall v :: v in {"b", "c"} ==>
      && Follows(f, c'.nodes[v], term)
      && c'.nodes[v].mem.log == c.nodes[v].mem.log && c'.nodes[v].commitIndex == c.nodes[v].commitIndex
      && (!f.recordsGrant ==> c'.nodes[v].mem.votedFor == None) && Yes(v, leader, term) in c'.network
  {
    hide Run, Ready, Follows;
    run', c' := Grants(f, run, c, leader, "b", term);
    run', c' := Grants(f, run', c', leader, "c", term);
  }

  /** Only b and c moved; packets and applied commands are only added. */
  ghost predicate Kept(c: Cluster, c': Cluster) {
    && c'.nodes.Keys == {"a", "b", "c", "d"} && (forall s :: s in c'.nodes ==> c'.nodes[s].id == s)
    && (forall s :: s in {"a", "d"} && s in c.nodes ==> c'.nodes[s] == c.nodes[s])
    && c.network <= c'.network && c.history.applied <= c'.history.applied
  }

  /** The leader as it enters office, all tables fresh. */
  function Elected(id: ServerId): State {
    var peers := Peers(FOUR, id);
    Leader(map k | k in peers :: Num(1), FreshTable(peers))
  }

  ghost predicate Counted(f: Fixes, granted: nat, term: nat) {
    granted == term || (!f.countsOwnTerm && granted < term)
  }

  lemma CountReaction(f: Fixes, n: Node, v: ServerId, granted: nat)
    requires n.state == Candidate({n.id}) && v != n.id && Counted(f, granted, n.mem.term)
    ensures React(f, FOUR, n, Deliver(Yes(v, n.id, granted))).node == n.(state := Candidate({n.id, v}))
  {
    assert |{n.id} + {v}| == 2 && {n.id} + {v} == {n.id, v};
  }

  lemma LeadReaction(f: Fixes, n: Node, v: ServerId, w: ServerId, granted: nat)
    requires Replicating(f) && n.state == Candidate({n.id, v}) && n.mem.log == [SENTINEL]
    requires v != n.id && w != n.id && v != w && Counted(f, granted, n.mem.term)
    ensures var n' := React(f, FOUR, n, Deliver(Yes(w, n.id, granted))).node;
      n' == n.(disk := n'.disk, state := Elected(n.id))
  {
    assert |{n.id, v} + {w}| == 3;
  }

  /** A candidate counts the votes of b and c, of its term or an earlier one, and leads. */
  lemma Wins(f: Fixes, run: seq<Event>, c: Cluster, leader: ServerId, term: nat, granted: nat)
    returns (run': seq<Event>, c': Cluster)
    requires Replicating(f) && c == Run(f, FOUR, run) && Bench(c, leader)
    requires Stands(c.nodes[leader], leader, term) && Counted(f, granted, term)
    requires Yes("b", leader, granted) in c.network && Yes("c", leader, granted) in c.network
    ensures c' == Run(f, FOUR, run') && Moved(c, c', leader) && Bench(c', leader)
    ensures Leads(c'.nodes[leader], leader, term)
  {
    hide Run, React, Record, Elected, Replicating, Counted;
    var fromB, fromC := Deliver(Yes("b", leader, granted)), Deliver(Yes("c", leader, granted));
    CountReaction(f, c.nodes[leader], "b", granted);
    run', c' := Turn(f, FOUR, run, c, fromB, React(f, FOUR, c.nodes[leader], fromB));
    LeadReaction(f, c'.nodes[leader], "b", "c", granted);
    run', c' := Turn(f, FOUR, run', c', fromC, React(f, FOUR, c'.nodes[leader], fromC));
  }

  // ----- restarts of the followers -----

  lemma RestartReaction(f: Fixes, n: Node, term: nat)
    requires Follows(f, n, term) && (n.mem.log == [SENTINEL] || !f.keepsLog)
    ensures var o := React(f, FOUR, n, Restarted(n.id));
      && o.node.id == n.id && Follows(f, o.node, term) && o.node.mem.log == [SENTINEL]
      && (!f.reloadsVote ==> o.node.mem.votedFor == None)
  {
  }

  lemma Restarts(f: Fixes, run: seq<Event>, c: Cluster, v: ServerId, term: nat) returns (run': seq<Event>, c': Cluster)
    requires c == Run(f, FOUR, run) && Bench(c, "a") && v in {"b", "c"}
    requires Follows(f, c.nodes[v], term) && (c.nodes[v].mem.log == [SENTINEL] || !f.keepsLog)
    ensures c' == Run(f, FOUR, run') && Moved(c, c', v) && Bench(c', "a")
    ensures Follows(f, c'.nodes[v], term) && c'.nodes[v].mem.log == [SENTINEL]
    ensures !f.reloadsVote ==> c'.nodes[v].mem.votedFor == None
  {
    hide Run, React, Record, Follows;
    RestartReaction(f, c.nodes[v], term);
    run', c' := Turn(f, FOUR, run, c, Restarted(v), React(f, FOUR, c.nodes[v], Restarted(v)));
  }

  lemma BothRestart(f: Fixes, run: seq<Event>, c: Cluster, term: nat) returns (run': seq<Event>, c': Cluster)
    requires c == Run(f, FOUR, run) && Bench(c, "a")
    requires forall v :: v in {"b", "c"} ==>
        Follows(f, c.nodes[v], term) && (c.nodes[v].mem.log == [SENTINEL] || !f.keepsLog)
    ensures c' == Run(f, FOUR, run') && Kept(c, c')
    ensures forall v :: v in {"b", "c"} ==>
      && Follows(f, c'.nodes[v], term) && c'.nodes[v].mem.log == [SENTINEL]
      && (!f.reloadsVote ==> c'.nodes[v].mem.votedFor == None)
  {
    hide Run, Follows;
    run', c' := Restarts(f, run, c, "b", term);
    run', c' := Restarts(f, run', c', "c", term);
  }

  // ----- one entry replicated, committed and applied -----

  function Copying(leader: ServerId, v: ServerId, term: nat, command: Bytes): Packet {
    Packet(leader, v, AppendEntries(term, leader, [FirstEntry(command, term)], 0, 0, 0))
  }

  /** The answer to it, whatever the follower's commit index. */
  function Copied(leader: ServerId, v: ServerId, term: nat, commitIndex: nat): Packet {
    Packet(v, leader, AppendResponse(term, v, commitIndex, true, 1))
  }

  lemma RequestReaction(f: Fixes, n: Node, command: Bytes)
    requires Replicating(f) && n.id in {"a", "d"} && n.mem.log == [SENTINEL] && n.state == Elected(n.id)
    requires n.commitIndex == 0
    ensures var o := React(f, FOUR, n, Request(n.id, command));
      && o.node.id == n.id && o.node.mem == n.mem.(log := [SENTINEL, FirstEntry(command, n.mem.term)])
      && o.node.state == n.state && o.node.commitIndex == 0 && o.node.lastApplied == n.lastApplied
      && Copying(n.id, "b", n.mem.term, command) in o.out && Copying(n.id, "c", n.mem.term, command) in o.out
  {
    hide React, SendAppendEntries, Elected, Replicating;
    var n1 := n.(mem := n.mem.(log := [SENTINEL, FirstEntry(command, n.mem.term)]));
    ElectedLeads(n.id);
    RequestIsSend(f, n, command);
    RequestSent(f, n1, "b", command);
    RequestSent(f, n1, "c", command);
    Safety.SendGains(f, FOUR, n1);
  }

  lemma RequestIsSend(f: Fixes, n: Node, command: Bytes)
    requires n.state.Leader? && n.mem.log == [SENTINEL]
    ensures React(f, FOUR, n, Request(n.id, command))
         == SendAppendEntries(f, FOUR, n.(mem := n.mem.(log := [SENTINEL, FirstEntry(command, n.mem.term)])))
  {
    hide SendAppendEntries;
    assert [SENTINEL] + [FirstEntry(command, n.mem.term)] == [SENTINEL, FirstEntry(command, n.mem.term)];
  }

  lemma ElectedLeads(id: ServerId)
    ensures Elected(id).Leader?
  {
  }

  lemma RequestSent(f: Fixes, n: Node, v: ServerId, command: Bytes)
    requires Replicating(f) && v in FOUR && v != n.id && n.state == Elected(n.id) && n.commitIndex == 0
    requires n.mem.log == [SENTINEL, FirstEntry(command, n.mem.term)]
    ensures Copying(n.id, v, n.mem.term, command) in SendAppendEntries(f, FOUR, n).out
  {
    var peers := Peers(FOUR, n.id);
    var i :| 0 <= i < |peers| && peers[i] == v;
    assert n.mem.log[1..] == [FirstEntry(command, n.mem.term)];
    assert SendAppendEntries(f, FOUR, n).out[i] == Copying(n.id, v, n.mem.term, command);
  }

  lemma FirstKept(byPosition: bool, log: seq<Entry>, e: Entry)
    requires |log| > 0 && e.index == 1
    ensures var merged := Merge(byPosition, log, [e]); |merged| > 0 && merged[0] == log[0]
  {
    assert [e][..0] == [] && Merge(byPosition, log, []) == log;
  }

  lemma AppendReaction(f: Fixes, n: Node, leader: ServerId, term: nat, command: Bytes)
    requires Replicating(f) && Follows(f, n, term)
    ensures var o := React(f, FOUR, n, Deliver(Copying(leader, n.id, term, command)));
      && o.node.id == n.id && Follows(f, o.node, term)
      && Copied(leader, n.id, term, o.node.commitIndex) in o.out
  {
    var o := React(f, FOUR, n, Deliver(Copying(leader, n.id, term, command)));
    var e := FirstEntry(command, term);
    FirstKept(f.mergesByPosition, n.mem.log, e);
    assert o.out[0] == Copied(leader, n.id, term, o.node.commitIndex);
  }

  /** matchIndex of b, then of b and c, is 1; of the third peer 0. */
  ghost predicate Matched(n: Node, done: set<ServerId>) {
    && n.state.Leader? && n.state.matchIndex.keys == Peers(FOUR, n.id)
    && (forall k :: k in n.state.matchIndex.at <==> k in Peers(FOUR, n.id))
    && (forall k :: k in n.state.matchIndex.at ==> n.state.matchIndex.at[k] == if k in done then 1 else 0)
  }

  lemma UpdateReaction(f: Fixes, n: Node, v: ServerId, done: set<ServerId>, m: Message)
    requires Replicating(f) && Matched(n, done) && v in Peers(FOUR, n.id)
    requires m.AppendResponse? && m.success && m.followerId == v && m.replicatedTo == 1
    ensures Matched(n.(state := UpdateIndexes(f, n.state, m)), done + {v})
  {
  }

  lemma NoneYet(xs: seq<nat>)
    requires |xs| == 3 && Reaching(xs, 1) <= 1
    ensures Median(true, xs) == 0
  {
    MajorityIndexIff(xs, 1);
  }

  lemma TwoReach(xs: seq<nat>)
    requires |xs| == 3 && Reaching(xs, 1) == 2 && forall x :: x in xs ==> x <= 1
    ensures Median(true, xs) == 1
  {
    MajorityIndexIff(xs, 1);
    Commitless.MedianIsMember(true, xs);
  }

  lemma PeersOfFour()
    ensures Peers(FOUR, "a") == ["b", "c", "d"] && Peers(FOUR, "d") == ["a", "b", "c"]
  {
    assert FOUR[1..] == ["b", "c", "d"] && FOUR[1..][1..] == ["c", "d"];
    assert FOUR[1..][1..][1..] == ["d"] && FOUR[1..][1..][1..][1..] == [];
  }

  lemma ReachingThree(x: nat, y: nat, z: nat)
    ensures Reaching([x, y, z], 1) == (if x >= 1 then 1 else 0) + (if y >= 1 then 1 else 0) + if z >= 1 then 1 else 0
  {
    assert [x, y, z][1..] == [y, z] && [y, z][1..] == [z] && [z][1..] == [];
    assert Reaching([z], 1) == if z >= 1 then 1 else 0;
    assert Reaching([y, z], 1) == (if y >= 1 then 1 else 0) + Reaching([z], 1);
  }

  lemma MatchedValues(n: Node, done: set<ServerId>)
    requires n.id in {"a", "d"} && Matched(n, done)
    ensures Values(n.state.matchIndex)
         == if n.id == "a" then [Bit("b", done), Bit("c", done), Bit("d", done)]
            else [Bit("a", done), Bit("b", done), Bit("c", done)]
  {
    PeersOfFour();
  }

  function Bit(s: ServerId, done: set<ServerId>): nat {
    if s in done then 1 else 0
  }

  lemma MatchedMedian(n: Node, done: set<ServerId>)
    requires n.id in {"a", "d"} && Matched(n, done) && (done == {"b"} || done == {"b", "c"})
    ensures Values(n.state.matchIndex) != []
    ensures Median(true, Values(n.state.matchIndex)) == if done == {"b"} then 0 else 1
  {
    hide Median, Matched, Values;
    MatchedLeads(n, done);
    MatchedValues(n, done);
    var xs := Values(n.state.matchIndex);
    ReachingThree(xs[0], xs[1], xs[2]);
    assert xs == [xs[0], xs[1], xs[2]];
    if done == {"b"} {
      NoneYet(xs);
    } else {
      assert done != {"b"} by { assert "c" in done; }
      TwoReach(xs);
    }
  }

  lemma AnswerReaction(f: Fixes, n: Node, v: ServerId, done: set<ServerId>, commitIndex: nat)
    requires Replicating(f) && n.id in {"a", "d"} && Matched(n, done) && n.commitIndex == 0
    requires n.mem.term > 0 && |n.mem.log| == 2 && n.mem.log[1].term == n.mem.term
    requires (done == {} && v == "b") || (done == {"b"} && v == "c")
    ensures var n' := React(f, FOUR, n, Deliver(Copied(n.id, v, n.mem.term, commitIndex))).node;
      && n' == n.(state := n'.state, commitIndex := n'.commitIndex) && Matched(n', done + {v})
      && n'.commitIndex == if v == "c" then 1 else 0
  {
    hide Median, UpdateIndexes, Matched, CommitScan;
    ScanOne(n.mem.log, n.mem.term);
    var m := Copied(n.id, v, n.mem.term, commitIndex).msg;
    assert n.state.Leader? by { MatchedLeads(n, done); }
    assert v in Peers(FOUR, n.id);
    UpdateReaction(f, n, v, done, m);
    var n1 := n.(state := UpdateIndexes(f, n.state, m));
    MatchedLeads(n1, done + {v});
    assert {} + {"b"} == {"b"} && {"b"} + {"c"} == {"b", "c"};
    MatchedMedian(n1, done + {v});
    SameMatches(n1, AdvanceCommit(f, n1), done + {v});
  }

  lemma ScanOne(log: seq<Entry>, term: nat)
    requires |log| == 2 && log[1].term == term
    ensures CommitScan(log, term, 0, 0) == 0 && CommitScan(log, term, 0, 1) == 1
  {
  }

  lemma MatchedLeads(n: Node, done: set<ServerId>)
    requires Matched(n, done)
    ensures n.state.Leader?
  {
  }

  lemma SameMatches(n: Node, n': Node, done: set<ServerId>)
    requires Matched(n, done) && n' == n.(commitIndex := n'.commitIndex)
    ensures Matched(n', done)
  {
  }

  lemma FreshMatched(n: Node)
    requires n.state == Elected(n.id)
    ensures Matched(n, {})
  {
  }

  /** The leader with its entry, and what its peers confirmed. */
  ghost predicate Progress(n: Node, leader: ServerId, term: nat, command: Bytes, done: set<ServerId>) {
    && n.id == leader && Matched(n, done) && n.lastApplied == 0
    && n.mem.term == term && n.mem.log == [SENTINEL, FirstEntry(command, term)]
    && n.commitIndex == if done == {"b", "c"} then 1 else 0
  }

  /** One follower copies the entry and the leader hears of it. */
  lemma Copies(f: Fixes, run: seq<Event>, c: Cluster, leader: ServerId, v: ServerId, term: nat, command: Bytes,
               done: set<ServerId>)
    returns (run': seq<Event>, c': Cluster)
    requires Replicating(f) && c == Run(f, FOUR, run) && Bench(c, leader) && term > 0
    requires (done == {} && v == "b") || (done == {"b"} && v == "c")
    requires Progress(c.nodes[leader], leader, term, command, done)
    requires Copying(leader, v, term, command) in c.network && Follows(f, c.nodes[v], term)
    ensures c' == Run(f, FOUR, run') && Bench(c', leader)
    ensures c.network <= c'.network && c.history.applied <= c'.history.applied
    ensures forall s :: s in c'.nodes && s != leader && s != v ==> c'.nodes[s] == c.nodes[s]
    ensures Follows(f, c'.nodes[v], term)
    ensures Progress(c'.nodes[leader], leader, term, command, done + {v})
  {
    hide Run, React, Record, Replicating, Matched, Follows;
    var copying := Deliver(Copying(leader, v, term, command));
    AppendReaction(f, c.nodes[v], leader, term, command);
    run', c' := Turn(f, FOUR, run, c, copying, React(f, FOUR, c.nodes[v], copying));
    var commitIndex := c'.nodes[v].commitIndex;
    var copied := Deliver(Copied(leader, v, term, commitIndex));
    assert {} + {"b"} == {"b"} != {"b", "c"} && {"b"} + {"c"} == {"b", "c"} by {
      assert "c" !in {"b"};
    }
    AnswerReaction(f, c'.nodes[leader], v, done, commitIndex);
    run', c' := Turn(f, FOUR, run', c', copied, React(f, FOUR, c'.nodes[leader], copied));
  }

  lemma Replicates(f: Fixes, run: seq<Event>, c: Cluster, leader: ServerId, term: nat, command: Bytes)
    returns (run': seq<Event>, c': Cluster)
    requires Replicating(f) && c == Run(f, FOUR, run) && Bench(c, leader) && term > 0
    requires Leads(c.nodes[leader], leader, term)
    requires forall v :: v in {"b", "c"} ==> Follows(f, c.nodes[v], term)
    ensures c' == Run(f, FOUR, run') && Bench(c', leader) && c.network <= c'.network
    ensures c.history.applied <= c'.history.applied
    ensures forall s :: s in {"a", "d"} && s != leader ==> c'.nodes[s] == c.nodes[s]
    ensures forall v :: v in {"b", "c"} ==> Follows(f, c'.nodes[v], term)
    ensures Progress(c'.nodes[leader], leader, term, command, {"b", "c"})
  {
    hide Run, React, Record, Replicating, Matched, Elected, Follows;
    var n := c.nodes[leader];
    FreshMatched(n);
    RequestReaction(f, n, command);
    run', c' := Turn(f, FOUR, run, c, Request(leader, command), React(f, FOUR, n, Request(leader, command)));
    StillMatched(n, c'.nodes[leader], {});
    assert "b" !in {};
    run', c' := Copies(f, run', c', leader, "b", term, command, {});
    assert {} + {"b"} == {"b"};
    run', c' := Copies(f, run', c', leader, "c", term, command, {"b"});
    assert {"b"} + {"c"} == {"b", "c"};
  }

  lemma StillMatched(n: Node, n': Node, done: set<ServerId>)
    requires Matched(n, done) && n'.id == n.id && n'.state == n.state
    ensures Matched(n', done)
  {
  }

  /** One command replicated to b and c, committed and applied. */
  lemma Applies(f: Fixes, run: seq<Event>, c: Cluster, leader: ServerId, term: nat, command: Bytes)
    returns (run': seq<Event>, c': Cluster)
    requires Replicating(f) && c == Run(f, FOUR, run) && Bench(c, leader) && term > 0
    requires Leads(c.nodes[leader], leader, term)
    requires forall v :: v in {"b", "c"} ==> Follows(f, c.nodes[v], term)
    ensures c' == Run(f, FOUR, run') && Bench(c', leader) && c.network <= c'.network
    ensures c.history.applied <= c'.history.applied
    ensures forall s :: s in {"a", "d"} && s != leader ==> c'.nodes[s] == c.nodes[s]
    ensures forall v :: v in {"b", "c"} ==> Follows(f, c'.nodes[v], term)
    ensures Applied(leader, 1, command) in c'.history.applied
  {
    hide Run, React, Record, Replicating, Elected, Matched, Leads, Follows;
    run', c' := Replicates(f, run, c, leader, term, command);
    var n, e, c1 := c'.nodes[leader], Apply(leader), c';
    ApplyIs(f, n, leader);
    run', c' := Turn(f, FOUR, run', c', e, Outcome(ApplyNext(n), []));
    RecordAddsApplied(c1.history, n, e, Outcome(ApplyNext(n), []));
  }

  lemma ApplyIs(f: Fixes, n: Node, leader: ServerId)
    requires CanApply(n)
    ensures React(f, FOUR, n, Apply(leader)) == Outcome(ApplyNext(n), [])
  {
  }

  // ----- the runs -----

  /** Different commands applied by a and d at index 1. */
  ghost predicate Contradicts(c: Cluster) {
    Applied("a", 1, [1]) in c.history.applied && Applied("d", 1, [2]) in c.history.applied
  }

  lemma ContradictionIsUnsafe(c: Cluster)
    requires Contradicts(c)
    ensures !StateMachineSafe(c)
  {
    var x, y := Applied("a", 1, [1]), Applied("d", 1, [2]);
    assert x.command[0] != y.command[0];
  }

  lemma Begins(f: Fixes) returns (run: seq<Event>, c: Cluster)
    ensures c == Run(f, FOUR, run) && Bench(c, "a")
    ensures forall s :: s in {"a", "d"} ==> Blank(c.nodes[s], s, 0)
    ensures forall v, term :: v in {"b", "c"} && term > 0 ==>
      Ready(f, c.nodes[v], term) && c.nodes[v].mem.log == [SENTINEL] && c.nodes[v].commitIndex == 0
  {
    run, c := [], Start(FOUR);
  }

  lemma ReadyAgain(f: Fixes, n: Node, term: nat, next: nat)
    requires Follows(f, n, term) && (f.comparesLogs ==> n.mem.log == [SENTINEL])
    requires term < next || (term == next && n.mem.votedFor == None)
    ensures Ready(f, n, next)
  {
  }

  /** Two leaders of one term apply one command each. */
  lemma BothApply(f: Fixes, run: seq<Event>, c: Cluster, term: nat) returns (run': seq<Event>, c': Cluster)
    requires Replicating(f) && c == Run(f, FOUR, run) && Bench(c, "a") && term > 0
    requires forall s :: s in {"a", "d"} ==> Leads(c.nodes[s], s, term)
    requires forall v :: v in {"b", "c"} ==> Follows(f, c.nodes[v], term)
    ensures c' == Run(f, FOUR, run') && Contradicts(c')
  {
    hide Run, Replicating, Leads, Follows;
    run', c' := Applies(f, run, c, "a", term, [1]);
    run', c' := Applies(f, run', c', "d", term, [2]);
  }

  /** a and d both stand in term 1, and b and c have granted a. */
  lemma GrantedOnce(f: Fixes) returns (run: seq<Event>, c: Cluster)
    ensures c == Run(f, FOUR, run) && Bench(c, "a")
    ensures forall s :: s in {"a", "d"} ==> Stands(c.nodes[s], s, 1)
    ensures forall v :: v in {"b", "c"} ==>
      && Follows(f, c.nodes[v], 1) && c.nodes[v].mem.log == [SENTINEL] && (!f.recordsGrant ==>
          c.nodes[v].mem.votedFor == None)
      && Yes(v, "a", 1) in c.network && Ask("d", v, 1) in c.network
  {
    hide Run, Stands, Follows, Ready, Blank;
    run, c := Begins(f);
    run, c := Standing(f, run, c, "a", 0);
    run, c := Standing(f, run, c, "d", 0);
    run, c := BothGrant(f, run, c, "a", 1);
  }

  /** They grant d in the same term too. */
  lemma GrantedTwice(f: Fixes, run: seq<Event>, c: Cluster) returns (run': seq<Event>, c': Cluster)
    requires Replicating(f) && c == Run(f, FOUR, run) && Bench(c, "a")
    requires forall s :: s in {"a", "d"} ==> Stands(c.nodes[s], s, 1)
    requires forall v :: v in {"b", "c"} ==>
      && Follows(f, c.nodes[v], 1) && c.nodes[v].mem.log == [SENTINEL] && c.nodes[v].mem.votedFor == None
      && Yes(v, "a", 1) in c.network && Ask("d", v, 1) in c.network
    ensures c' == Run(f, FOUR, run') && Contradicts(c')
  {
    hide Run, Replicating, Stands, Leads, Follows, Ready;
    ReadyAgain(f, c.nodes["b"], 1, 1);
    ReadyAgain(f, c.nodes["c"], 1, 1);
    run', c' := BothGrant(f, run, c, "d", 1);
    run', c' := Wins(f, run', c', "a", 1, 1);
    run', c' := Wins(f, run', c', "d", 1, 1);
    run', c' := BothApply(f, run', c', 1);
  }

  lemma WithoutRecordedGrant(f: Fixes) returns (run: seq<Event>, c: Cluster)
    requires Replicating(f) && !f.recordsGrant
    ensures c == Run(f, FOUR, run) && Contradicts(c)
  {
    hide Run, Replicating, Stands, Follows, Contradicts;
    run, c := GrantedOnce(f);
    run, c := GrantedTwice(f, run, c);
  }

  lemma WithoutReloadedVote(f: Fixes) returns (run: seq<Event>, c: Cluster)
    requires Replicating(f) && !f.reloadsVote
    ensures c == Run(f, FOUR, run) && Contradicts(c)
  {
    hide Run, Replicating, Stands, Follows, Contradicts;
    run, c := GrantedOnce(f);
    run, c := BothRestart(f, run, c, 1);
    run, c := GrantedTwice(f, run, c);
  }

  /** a stands again and counts the votes of term 1 in term 2, which d wins as well. */
  lemma WithoutTermCheck(f: Fixes) returns (run: seq<Event>, c: Cluster)
    requires Replicating(f) && !f.countsOwnTerm
    ensures c == Run(f, FOUR, run) && Contradicts(c)
  {
    hide Run, Replicating, Stands, Leads, Follows, Ready, Blank, Contradicts;
    run, c := GrantedOnce(f);
    StandsId(c.nodes["a"], "a", 1);
    StandsId(c.nodes["d"], "d", 1);
    run, c := Standing(f, run, c, "a", 1);
    run, c := Standing(f, run, c, "d", 1);
    ReadyAgain(f, c.nodes["b"], 1, 2);
    ReadyAgain(f, c.nodes["c"], 1, 2);
    run, c := BothGrant(f, run, c, "d", 2);
    run, c := Wins(f, run, c, "a", 2, 1);
    run, c := Wins(f, run, c, "d", 2, 2);
    run, c := BothApply(f, run, c, 2);
  }

  /** a leads term 1 and applies its command; d stands twice. */
  lemma FirstReign(f: Fixes) returns (run: seq<Event>, c: Cluster)
    requires Replicating(f)
    ensures c == Run(f, FOUR, run) && Bench(c, "a") && Applied("a", 1, [1]) in c.history.applied
    ensures Stands(c.nodes["d"], "d", 2) && Ask("d", "b", 2) in c.network && Ask("d", "c", 2) in c.network
    ensures forall v :: v in {"b", "c"} ==> Follows(f, c.nodes[v], 1)
  {
    hide Run, Replicating, Stands, Leads, Follows, Ready, Blank;
    run, c := GrantedOnce(f);
    StandsId(c.nodes["d"], "d", 1);
    run, c := Wins(f, run, c, "a", 1, 1);
    run, c := Applies(f, run, c, "a", 1, [1]);
    run, c := Standing(f, run, c, "d", 1);
  }

  lemma SecondReign(f: Fixes, run: seq<Event>, c: Cluster) returns (run': seq<Event>, c': Cluster)
    requires Replicating(f) && c == Run(f, FOUR, run) && Bench(c, "a") && Applied("a", 1, [1]) in c.history.applied
    requires Stands(c.nodes["d"], "d", 2) && Ask("d", "b", 2) in c.network && Ask("d", "c", 2) in c.network
    requires forall v :: v in {"b", "c"} ==> Ready(f, c.nodes[v], 2)
    ensures c' == Run(f, FOUR, run') && Contradicts(c')
  {
    hide Run, Replicating, Stands, Leads, Follows, Ready;
    run', c' := BothGrant(f, run, c, "d", 2);
    run', c' := Wins(f, run', c', "d", 2, 2);
    run', c' := Applies(f, run', c', "d", 2, [2]);
  }

  /** The logs of b and c are lost in a crash. */
  lemma WithoutKeptLog(f: Fixes) returns (run: seq<Event>, c: Cluster)
    requires Replicating(f) && !f.keepsLog
    ensures c == Run(f, FOUR, run) && Contradicts(c)
  {
    hide Run, Replicating, Stands, Follows, Ready, Contradicts;
    run, c := FirstReign(f);
    run, c := BothRestart(f, run, c, 1);
    ReadyAgain(f, c.nodes["b"], 1, 2);
    ReadyAgain(f, c.nodes["c"], 1, 2);
    run, c := SecondReign(f, run, c);
  }

  /** Section 5.4.1: b and c elect d, whose log is empty. */
  lemma WithoutComparison(f: Fixes) returns (run: seq<Event>, c: Cluster)
    requires Replicating(f) && !f.comparesLogs
    ensures c == Run(f, FOUR, run) && Contradicts(c)
  {
    hide Run, Replicating, Stands, Follows, Ready, Contradicts;
    run, c := FirstReign(f);
    ReadyAgain(f, c.nodes["b"], 1, 2);
    ReadyAgain(f, c.nodes["c"], 1, 2);
    run, c := SecondReign(f, run, c);
  }
}
