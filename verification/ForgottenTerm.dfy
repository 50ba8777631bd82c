/** A run of three servers that applies two different commands at index 1 because a leader
    forgot its own term: its entry survives at a follower, below the entries of a later leader
    that never had it. The write before requests is missing, whatever else is or is not. */
module ForgottenTerm {
  import opened RaftTypes
  import opened Logs
  import opened Medians
  import opened Nodes
  import opened Clusters
  import opened RunSteps
  import opened ElectionRuns
  import SafetyRuns

  /** a's entry and b's, both of term 1, and b's of term 2. */
  const X := Entry([1], 1, 1)
  const Y := Entry([2], 1, 1)
  const Z := Entry([3], 2, 2)

  ghost predicate Holds(n: Node, id: ServerId, term: nat, log: seq<Entry>, commitIndex: nat) {
    n.id == id && n.mem.term == term && n.mem.log == log && n.commitIndex == commitIndex && n.lastApplied == 0
  }

  /** b's tables as a leader: nextIndex and matchIndex of a and c. */
  function Tables(nextA: nat, nextC: nat, matchA: nat, matchC: nat): State {
    Leader(map["a" := Num(nextA), "c" := Num(nextC)], Table(["a", "c"], map["a" := matchA, "c" := matchC]))
  }

  lemma PeersOfB()
    ensures Peers(THREE, "b") == ["a", "c"]
  {
    assert THREE[1..] == ["b", "c"] && THREE[1..][1..] == ["c"] && THREE[1..][1..][1..] == [];
  }

  // ----- what each event does -----

  lemma CopyReaction(f: Fixes, n: Node, leader: Node, command: Bytes)
    requires Holds(n, n.id, 1, [SENTINEL], 0) && n.state.Follower? && leader.mem.term == 1 && leader.commitIndex == 0
    ensures var o := React(f, THREE, n, Deliver(Copying(leader, n.id, command)));
      Holds(o.node, n.id, 1, [SENTINEL, Entry(command, 1, 1)], 0) && o.node.state.Follower?
  {
    var e := Entry(command, 1, 1);
    assert [e][..0] == [] && Merge(f.mergesByPosition, [SENTINEL], []) == [SENTINEL];
    assert Merge(f.mergesByPosition, [SENTINEL], [e]) == [SENTINEL] + [e];
  }

  lemma StandReaction(f: Fixes, n: Node)
    requires Holds(n, "b", 1, [SENTINEL, Y], 0)
    ensures var o := React(f, THREE, n, Timeout("b"));
      && Holds(o.node, "b", 2, [SENTINEL, Y], 0) && o.node.state == Candidate({"b"})
      && Packet("b", "c", RequestVote(2, "b", 1, 1)) in o.out
  {
    hide BecomeLeader;
    PeersOfB();
    assert !IsMajority(THREE, {"b"});
    var n1 := PersistForRequest(f, n.(mem := Stable(2, Some("b"), [SENTINEL, Y]), state := Candidate({"b"})));
    assert VoteRequests(THREE, n1)[1] == Packet("b", "c", RequestVote(2, "b", 1, 1));
    assert Packet("b", "c", RequestVote(2, "b", 1, 1)) in VoteRequests(THREE, n1);
  }

  lemma GrantReaction(f: Fixes, n: Node)
    requires Holds(n, "c", 1, [SENTINEL, X], 0) && n.state.Follower?
    ensures var o := React(f, THREE, n, Deliver(Packet("b", "c", RequestVote(2, "b", 1, 1))));
      && Holds(o.node, "c", 2, [SENTINEL, X], 0) && o.node.state.Follower? && Yes("c", "b", 2) in o.out
  {
    var o := React(f, THREE, n, Deliver(Packet("b", "c", RequestVote(2, "b", 1, 1))));
    assert o.out[0] == Yes("c", "b", 2);
  }

  lemma WinReaction(f: Fixes, n: Node)
    requires SafetyRuns.Replicating(f) && Holds(n, "b", 2, [SENTINEL, Y], 0) && n.state == Candidate({"b"})
    ensures var o := React(f, THREE, n, Deliver(Yes("c", "b", 2)));
      Holds(o.node, "b", 2, [SENTINEL, Y], 0) && o.node.state == Tables(2, 2, 0, 0)
  {
    PeersOfB();
    assert |{"b"} + {"c"}| == 2;
    var keys := ["a", "c"];
    assert (map k | k in keys :: Num(2)) == map["a" := Num(2), "c" := Num(2)];
    assert FreshTable(keys) == Table(keys, map["a" := 0, "c" := 0]);
  }

  /** Z, sent on top of the entry at index 1. */
  function Sending(v: ServerId): Packet {
    Packet("b", v, AppendEntries(2, "b", [Z], 1, 1, 0))
  }

  function Stored(v: ServerId): Packet {
    Packet(v, "b", AppendResponse(2, v, 0, true, 2))
  }

  lemma RequestReaction(f: Fixes, n: Node)
    requires SafetyRuns.Replicating(f) && Holds(n, "b", 2, [SENTINEL, Y], 0) && n.state == Tables(2, 2, 0, 0)
    ensures var o := React(f, THREE, n, Request("b", [3]));
      && Holds(o.node, "b", 2, [SENTINEL, Y, Z], 0) && o.node.state == n.state
      && Sending("a") in o.out && Sending("c") in o.out
  {
    PeersOfB();
    var log := [SENTINEL, Y, Z];
    assert [SENTINEL, Y] + [Z] == log && log[2..] == [Z];
    var out := SendAppendEntries(f, THREE, n.(mem := n.mem.(log := log))).out;
    assert out[0] == Sending("a") && out[1] == Sending("c");
  }

  lemma ExtendReaction(f: Fixes, n: Node, term: nat, e: Entry)
    requires SafetyRuns.Replicating(f) && Holds(n, n.id, term, [SENTINEL, e], 0) && n.state.Follower? && term <= 2
    requires e.index == 1 && e.term == 1
    ensures var o := React(f, THREE, n, Deliver(Sending(n.id)));
      Holds(o.node, n.id, 2, [SENTINEL, e, Z], 0) && o.node.state.Follower? && Stored(n.id) in o.out
  {
    assert [Z][..0] == [] && Merge(f.mergesByPosition, [SENTINEL, e], []) == [SENTINEL, e];
    assert Merge(f.mergesByPosition, [SENTINEL, e], [Z]) == [SENTINEL, e] + [Z] == [SENTINEL, e, Z];
    var o := React(f, THREE, n, Deliver(Sending(n.id)));
    assert o.out[0] == Stored(n.id);
  }

  lemma MedianOfTwo(x: nat, y: nat)
    ensures Median(true, [x, y]) == if x <= y then x else y
  {
    assert [x, y][1..] == [y] && [y][1..] == [];
    assert Sort(true, [y]) == [y];
    assert Sort(true, [x, y]) == Insert(true, x, [y]);
    assert x > y ==> Insert(true, x, [y]) == [y] + Insert(true, x, []);
  }

  lemma Updated(f: Fixes, v: ServerId, nextA: nat, matchA: nat)
    requires SafetyRuns.Replicating(f)
    requires (v == "a" && nextA == 2 && matchA == 0) || (v == "c" && nextA == 3 && matchA == 2)
    ensures UpdateIndexes(f, Tables(nextA, 2, matchA, 0), Stored(v).msg) ==
        if v == "a" then Tables(3, 2, 2, 0) else Tables(3, 3, 2, 2)
  {
    assert map["a" := 0, "c" := 0]["a" := 2] == map["a" := 2, "c" := 0];
    assert map["a" := 2, "c" := 0]["c" := 2] == map["a" := 2, "c" := 2];
    assert map["a" := Num(2), "c" := Num(2)]["a" := Num(3)] == map["a" := Num(3), "c" := Num(2)];
    assert map["a" := Num(3), "c" := Num(2)]["c" := Num(3)] == map["a" := Num(3), "c" := Num(3)];
  }

  lemma AnswerReaction(f: Fixes, n: Node, v: ServerId)
    requires SafetyRuns.Replicating(f) && Holds(n, "b", 2, [SENTINEL, Y, Z], 0)
    requires (v == "a" && n.state == Tables(2, 2, 0, 0)) || (v == "c" && n.state == Tables(3, 2, 2, 0))
    ensures var o := React(f, THREE, n, Deliver(Stored(v)));
      if v == "a" then Holds(o.node, "b", 2, [SENTINEL, Y, Z], 0) && o.node.state == Tables(3, 2, 2, 0)
      else Holds(o.node, "b", 2, [SENTINEL, Y, Z], 2) && o.node.state == Tables(3, 3, 2, 2)
  {
    hide Median, UpdateIndexes;
    if v == "a" {
      Updated(f, v, 2, 0);
      MedianOfTwo(2, 0);
      assert Values(Tables(3, 2, 2, 0).matchIndex) == [2, 0];
    } else {
      Updated(f, v, 3, 2);
      MedianOfTwo(2, 2);
      assert Values(Tables(3, 3, 2, 2).matchIndex) == [2, 2];
    }
  }

  function Committing(): Packet {
    Packet("b", "c", AppendEntries(2, "b", [], 2, 2, 2))
  }

  lemma HeartbeatReaction(f: Fixes, n: Node)
    requires SafetyRuns.Replicating(f) && Holds(n, "b", 2, [SENTINEL, Y, Z], 2) && n.state == Tables(3, 3, 2, 2)
    ensures n.state.Leader?
    ensures var o := React(f, THREE, n, Heartbeat("b"));
      o.node == n.(disk := o.node.disk) && Committing() in o.out
  {
    PeersOfB();
    assert n.mem.log[3..] == [];
    assert SendAppendEntries(f, THREE, n).out[1] == Committing();
  }

  lemma CommitReaction(f: Fixes, n: Node)
    requires SafetyRuns.Replicating(f) && Holds(n, "c", 2, [SENTINEL, X, Z], 0) && n.state.Follower?
    ensures Holds(React(f, THREE, n, Deliver(Committing())).node, "c", 2, [SENTINEL, X, Z], 2)
  {
    assert Merge(f.mergesByPosition, n.mem.log, []) == n.mem.log;
  }

  lemma ApplyReaction(f: Fixes, n: Node, id: ServerId, log: seq<Entry>)
    requires Holds(n, id, 2, log, 2) && |log| == 3
    ensures CanApply(n) && React(f, THREE, n, Apply(id)) == Outcome(ApplyNext(n), []) && ApplyNext(n).id == id
  {
  }

  // ----- the run -----

  ghost predicate Trio(c: Cluster) {
    c.nodes.Keys == {"a", "b", "c"} && forall s :: s in c.nodes ==> c.nodes[s].id == s
  }

  /** a and b hold b's entry of term 1, c holds a's. */
  lemma Splits(f: Fixes) returns (run: seq<Event>, c: Cluster)
    requires SafetyRuns.Replicating(f) && !f.persistsFirst
    ensures c == Run(f, THREE, run) && Trio(c)
    ensures Holds(c.nodes["a"], "a", 1, [SENTINEL, Y], 0) && c.nodes["a"].state.Follower?
    ensures Holds(c.nodes["b"], "b", 1, [SENTINEL, Y], 0)
    ensures Holds(c.nodes["c"], "c", 1, [SENTINEL, X], 0) && c.nodes["c"].state.Follower?
  {
    hide Run, React, Record, InOffice, Copying, Quorate;
    var a;
    run, c, a := WithoutPersistedRequest(f);
    QuorateBare(c);
    var b := c.nodes["b"];
    CopyReaction(f, c.nodes["c"], a, [1]);
    AppendsOnly(f, b, "a", [2]);
    CopyReaction(f, c.nodes["a"], b, [2]);
    CopyingTo(a, "c", [1]);
    CopyingTo(b, "a", [2]);
    var toC, toA := Deliver(Copying(a, "c", [1])), Deliver(Copying(b, "a", [2]));
    run, c := Turn(f, THREE, run, c, toC, React(f, THREE, c.nodes["c"], toC));
    run, c := Turn(f, THREE, run, c, Request("b", [2]), React(f, THREE, b, Request("b", [2])));
    run, c := Turn(f, THREE, run, c, toA, React(f, THREE, c.nodes["a"], toA));
  }

  lemma CopyingTo(n: Node, v: ServerId, command: Bytes)
    ensures Copying(n, v, command).dst == v
  {
  }

  /** b is elected in term 2 by c, which cannot tell the two entries apart. */
  lemma Reelects(f: Fixes) returns (run: seq<Event>, c: Cluster)
    requires SafetyRuns.Replicating(f) && !f.persistsFirst
    ensures c == Run(f, THREE, run) && Trio(c)
    ensures Holds(c.nodes["a"], "a", 1, [SENTINEL, Y], 0) && c.nodes["a"].state.Follower?
    ensures Holds(c.nodes["b"], "b", 2, [SENTINEL, Y, Z], 0) && c.nodes["b"].state == Tables(2, 2, 0, 0)
    ensures Holds(c.nodes["c"], "c", 2, [SENTINEL, X], 0) && c.nodes["c"].state.Follower?
    ensures Sending("a") in c.network && Sending("c") in c.network
  {
    hide Run, React, Record, SafetyRuns.Replicating, Tables;
    run, c := Splits(f);
    var ask := Packet("b", "c", RequestVote(2, "b", 1, 1));
    StandReaction(f, c.nodes["b"]);
    run, c := Turn(f, THREE, run, c, Timeout("b"), React(f, THREE, c.nodes["b"], Timeout("b")));
    GrantReaction(f, c.nodes["c"]);
    run, c := Turn(f, THREE, run, c, Deliver(ask), React(f, THREE, c.nodes["c"], Deliver(ask)));
    WinReaction(f, c.nodes["b"]);
    var yes := Deliver(Yes("c", "b", 2));
    run, c := Turn(f, THREE, run, c, yes, React(f, THREE, c.nodes["b"], yes));
    RequestReaction(f, c.nodes["b"]);
    run, c := Turn(f, THREE, run, c, Request("b", [3]), React(f, THREE, c.nodes["b"], Request("b", [3])));
  }

  /** Both followers store Z, each on top of its own entry, and b commits. */
  lemma Commits(f: Fixes) returns (run: seq<Event>, c: Cluster)
    requires SafetyRuns.Replicating(f) && !f.persistsFirst
    ensures c == Run(f, THREE, run) && Trio(c)
    ensures Holds(c.nodes["b"], "b", 2, [SENTINEL, Y, Z], 2) && c.nodes["b"].state == Tables(3, 3, 2, 2)
    ensures Holds(c.nodes["c"], "c", 2, [SENTINEL, X, Z], 0) && c.nodes["c"].state.Follower?
  {
    hide Run, React, Record, SafetyRuns.Replicating, Tables;
    run, c := Reelects(f);
    ExtendReaction(f, c.nodes["a"], 1, Y);
    run, c := Turn(f, THREE, run, c, Deliver(Sending("a")), React(f, THREE, c.nodes["a"], Deliver(Sending("a"))));
    ExtendReaction(f, c.nodes["c"], 2, X);
    run, c := Turn(f, THREE, run, c, Deliver(Sending("c")), React(f, THREE, c.nodes["c"], Deliver(Sending("c"))));
    AnswerReaction(f, c.nodes["b"], "a");
    run, c := Turn(f, THREE, run, c, Deliver(Stored("a")), React(f, THREE, c.nodes["b"], Deliver(Stored("a"))));
    AnswerReaction(f, c.nodes["b"], "c");
    run, c := Turn(f, THREE, run, c, Deliver(Stored("c")), React(f, THREE, c.nodes["b"], Deliver(Stored("c"))));
  }

  /** b tells c, and b and c apply their first entries. */
  lemma {:induction false} WithoutPersistedRequests(f: Fixes) returns (run: seq<Event>)
    requires SafetyRuns.Replicating(f) && !f.persistsFirst
    ensures !StateMachineSafe(Run(f, THREE, run))
  {
    hide Run, React, Record, SafetyRuns.Replicating, Tables, StateMachineSafe;
    var c;
    run, c := Commits(f);
    HeartbeatReaction(f, c.nodes["b"]);
    run, c := Turn(f, THREE, run, c, Heartbeat("b"), React(f, THREE, c.nodes["b"], Heartbeat("b")));
    CommitReaction(f, c.nodes["c"]);
    run, c := Turn(f, THREE, run, c, Deliver(Committing()), React(f, THREE, c.nodes["c"], Deliver(Committing())));
    run, c := Applies(f, run, c, "b", [SENTINEL, Y, Z]);
    run, c := Applies(f, run, c, "c", [SENTINEL, X, Z]);
    var x, y := Applied("c", 1, X.command), Applied("b", 1, Y.command);
    assert x.command[0] != y.command[0];
    Disagree(c, x, y);
  }

  lemma Disagree(c: Cluster, x: Applied, y: Applied)
    requires x in c.history.applied && y in c.history.applied && x.index == y.index && x.command != y.command
    ensures !StateMachineSafe(c)
  {
  }

  lemma Applies(f: Fixes, run: seq<Event>, c: Cluster, id: ServerId, log: seq<Entry>)
    returns (run': seq<Event>, c': Cluster)
    requires c == Run(f, THREE, run) && Trio(c) && id in c.nodes && Holds(c.nodes[id], id, 2, log, 2) && |log| == 3
    ensures c' == Run(f, THREE, run') && Moved(c, c', id) && Trio(c')
    ensures Applied(id, 1, log[1].command) in c'.history.applied
  {
    hide Run, React, Record;
    var n := c.nodes[id];
    ApplyReaction(f, n, id, log);
    run', c' := Turn(f, THREE, run, c, Apply(id), Outcome(ApplyNext(n), []));
    RecordAddsApplied(c.history, n, Apply(id), Outcome(ApplyNext(n), []));
  }
}
