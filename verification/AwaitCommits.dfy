/** Two leaders of one term, elected because handlers overlap, files are written in the wrong order
    or a failed write went unnoticed, apply two commands at one index. And so exactly what State
    Machine Safety needs, with every await taken apart. */
module AwaitCommits {
  import opened RaftTypes
  import opened Medians
  import opened Nodes
  import opened Clusters
  import opened RunSteps
  import opened Awaits
  import opened AwaitRuns
  import AwaitReduction
  import Commitless
  import Election
  import Necessity
  import Safety
  import SafetyRuns

  /** c, e or f, which follow whoever sends. */
  ghost predicate Follows(n: Node, v: ServerId) {
    n.id == v && n.mem.term == 2 && n.state.Follower? && |n.mem.log| > 0 && n.mem.log[0] == SENTINEL
    && n.commitIndex == 0
  }

  /** matchIndex of those that confirmed is 1, of the others 0. */
  ghost predicate Matched(n: Node, done: set<ServerId>) {
    && n.state.Leader? && n.state.matchIndex.keys == Peers(SIX, n.id)
    && (forall k :: k in n.state.matchIndex.at <==> k in Peers(SIX, n.id))
    && (forall k :: k in n.state.matchIndex.at ==> n.state.matchIndex.at[k] == SafetyRuns.Bit(k, done))
  }

  /** The leader with its entry, and those that confirmed it. */
  ghost predicate Progress(n: Node, id: ServerId, command: Bytes, done: set<ServerId>) {
    && n.id == id && Matched(n, done) && n.lastApplied == 0
    && n.mem.term == 2 && n.mem.log == [SENTINEL, FirstEntry(command, 2)]
    && n.commitIndex == if done == {"c", "e", "f"} then 1 else 0
  }

  function Copying(id: ServerId, v: ServerId, command: Bytes): Packet {
    SafetyRuns.Copying(id, v, 2, command)
  }

  function Copied(id: ServerId, v: ServerId): Packet {
    SafetyRuns.Copied(id, v, 2, 0)
  }

  // ----- what each event does -----

  lemma RequestReaction(id: ServerId, command: Bytes)
    requires id in {"a", "b"}
    ensures var o := React(CORRECTED, SIX, Elected(id), Request(id, command));
      && Progress(o.node, id, command, {})
      && (forall v :: v in {"c", "e", "f"} ==> Copying(id, v, command) in o.out)
  {
    hide React, SendAppendEntries, Matched, Copying;
    var n1 := Appended(id, command);
    RequestIsSend(id, command);
    FreshMatched(id, command);
    Safety.SendGains(CORRECTED, SIX, n1);
    StillMatched(n1, SendAppendEntries(CORRECTED, SIX, n1).node, {});
    forall v | v in {"c", "e", "f"} ensures Copying(id, v, command) in SendAppendEntries(CORRECTED, SIX, n1).out {
      RequestSent(id, v, command);
    }
  }

  /** The leader with its first entry. */
  function Appended(id: ServerId, command: Bytes): Node {
    var n := Elected(id);
    n.(mem := n.mem.(log := [SENTINEL, FirstEntry(command, 2)]))
  }

  lemma RequestIsSend(id: ServerId, command: Bytes)
    ensures Appended(id, command).state.Leader?
    ensures React(CORRECTED, SIX, Elected(id), Request(id, command))
         == SendAppendEntries(CORRECTED, SIX, Appended(id, command))
  {
    hide SendAppendEntries;
    assert [SENTINEL] + [FirstEntry(command, 2)] == [SENTINEL, FirstEntry(command, 2)];
  }

  lemma FreshMatched(id: ServerId, command: Bytes)
    ensures Matched(Appended(id, command), {})
  {
  }

  lemma RequestSent(id: ServerId, v: ServerId, command: Bytes)
    requires v in SIX && v != id
    ensures Appended(id, command).state.Leader?
    ensures Copying(id, v, command) in SendAppendEntries(CORRECTED, SIX, Appended(id, command)).out
  {
    var n1, peers := Appended(id, command), Peers(SIX, id);
    var i :| 0 <= i < |peers| && peers[i] == v;
    assert n1.mem.log[1..] == [FirstEntry(command, 2)];
    assert SendAppendEntries(CORRECTED, SIX, n1).out[i] == Copying(id, v, command);
  }

  lemma AppendReaction(n: Node, v: ServerId, id: ServerId, command: Bytes)
    requires Follows(n, v)
    ensures var o := React(CORRECTED, SIX, n, Deliver(Copying(id, v, command)));
      Follows(o.node, v) && Copied(id, v) in o.out
  {
    var o := React(CORRECTED, SIX, n, Deliver(Copying(id, v, command)));
    SafetyRuns.FirstKept(true, n.mem.log, FirstEntry(command, 2));
    assert o.out[0] == Copied(id, v);
  }

  lemma PeersOfSix(id: ServerId)
    requires id in {"a", "b"}
    ensures Peers(SIX, id) == [if id == "a" then "b" else "a", "c", "d", "e", "f"]
  {
    assert SIX[1..] == ["b", "c", "d", "e", "f"] && SIX[1..][1..] == ["c", "d", "e", "f"];
    assert SIX[1..][1..][1..] == ["d", "e", "f"] && SIX[1..][1..][1..][1..] == ["e", "f"];
    assert SIX[1..][1..][1..][1..][1..] == ["f"] && SIX[1..][1..][1..][1..][1..][1..] == [];
  }

  lemma MatchedValues(n: Node, done: set<ServerId>)
    requires n.id in {"a", "b"} && Matched(n, done) && done <= {"c", "e", "f"}
    ensures Values(n.state.matchIndex)
         == [0, SafetyRuns.Bit("c", done), 0, SafetyRuns.Bit("e", done), SafetyRuns.Bit("f", done)]
  {
    hide Peers;
    PeersOfSix(n.id);
    assert "a" !in done && "b" !in done && "d" !in done;
    var keys, table := n.state.matchIndex.keys, n.state.matchIndex;
    forall i | 0 <= i < 5 ensures table.Get(keys[i]) == SafetyRuns.Bit(keys[i], done) {
      assert keys[i] in keys;
    }
  }

  lemma ReachingFive(x: nat, y: nat, z: nat)
    ensures Reaching([0, x, 0, y, z], 1)
         == (if x >= 1 then 1 else 0) + (if y >= 1 then 1 else 0) + if z >= 1 then 1 else 0
  {
    assert [0, x, 0, y, z][1..] == [x, 0, y, z] && [x, 0, y, z][1..] == [0, y, z];
    assert [0, y, z][1..] == [y, z] && [y, z][1..] == [z] && [z][1..] == [];
    assert Reaching([z], 1) == if z >= 1 then 1 else 0;
    assert Reaching([y, z], 1) == (if y >= 1 then 1 else 0) + Reaching([z], 1);
    assert Reaching([0, y, z], 1) == Reaching([y, z], 1);
    assert Reaching([x, 0, y, z], 1) == (if x >= 1 then 1 else 0) + Reaching([0, y, z], 1);
  }

  lemma MedianOfFive(xs: seq<nat>)
    requires |xs| == 5 && forall x :: x in xs ==> x <= 1
    ensures Median(true, xs) == if Reaching(xs, 1) >= 3 then 1 else 0
  {
    MajorityIndexIff(xs, 1);
    Commitless.MedianIsMember(true, xs);
  }

  lemma MatchedMedian(n: Node, done: set<ServerId>)
    requires n.id in {"a", "b"} && Matched(n, done) && done <= {"c", "e", "f"}
    ensures Values(n.state.matchIndex) != []
    ensures Median(true, Values(n.state.matchIndex)) == if done == {"c", "e", "f"} then 1 else 0
  {
    hide Median, Matched, Values;
    SafetyMatched(n, done);
    MatchedValues(n, done);
    var xs := Values(n.state.matchIndex);
    ReachingFive(xs[1], xs[3], xs[4]);
    assert xs == [0, xs[1], 0, xs[3], xs[4]];
    MedianOfFive(xs);
    if "c" in done && "e" in done && "f" in done {
      assert done == {"c", "e", "f"};
    }
  }

  lemma SafetyMatched(n: Node, done: set<ServerId>)
    requires Matched(n, done)
    ensures n.state.Leader?
  {
  }

  lemma UpdateReaction(n: Node, v: ServerId, done: set<ServerId>)
    requires Matched(n, done) && v in Peers(SIX, n.id)
    ensures Matched(n.(state := UpdateIndexes(CORRECTED, n.state, Copied(n.id, v).msg)), done + {v})
  {
    hide Peers;
  }

  lemma AnswerReaction(n: Node, id: ServerId, command: Bytes, v: ServerId, done: set<ServerId>)
    requires id in {"a", "b"} && Progress(n, id, command, done)
    requires done <= {"c", "e", "f"} && v in {"c", "e", "f"} - done
    ensures var n' := React(CORRECTED, SIX, n, Deliver(Copied(id, v))).node; Progress(n', id, command, done + {v})
  {
    hide Median, UpdateIndexes, Matched, CommitScan, Peers, Values, Median;
    SafetyRuns.ScanOne(n.mem.log, 2);
    SafetyMatched(n, done);
    PeersOfSix(id);
    assert v in Peers(SIX, n.id);
    UpdateReaction(n, v, done);
    var n1 := n.(state := UpdateIndexes(CORRECTED, n.state, Copied(id, v).msg));
    SafetyMatched(n1, done + {v});
    assert done != {"c", "e", "f"};
    MatchedMedian(n1, done + {v});
    StillMatched(n1, AdvanceCommit(CORRECTED, n1), done + {v});
  }

  lemma StillMatched(n: Node, n': Node, done: set<ServerId>)
    requires Matched(n, done) && n'.id == n.id && n'.state == n.state
    ensures Matched(n', done)
  {
  }

  // ----- the run -----

  ghost predicate Idle(p: Policy, moves: seq<Move>, c: Cluster) {
    AtRest(SIX, AsyncRun(p, SIX, moves), c) && Election.Placed(SIX, c)
  }

  /** The other servers stay as they are; packets and applied commands are only added. */
  ghost predicate Kept(c: Cluster, c': Cluster, moved: set<ServerId>) {
    && c'.nodes.Keys == c.nodes.Keys
    && (forall s :: s in c.nodes && s in c'.nodes && s !in moved ==> c'.nodes[s] == c.nodes[s])
    && c.network <= c'.network && c.history.applied <= c'.history.applied
  }

  /** One follower stores the entry and the leader hears of it. */
  lemma Copies(p: Policy, moves: seq<Move>, c: Cluster, id: ServerId, command: Bytes, v: ServerId, done: set<ServerId>)
    returns (moves': seq<Move>, c': Cluster)
    requires p.fixes == CORRECTED && Idle(p, moves, c) && id in {"a", "b"} && id in c.nodes && v in c.nodes
    requires Progress(c.nodes[id], id, command, done) && done <= {"c", "e", "f"} && v in {"c", "e", "f"} - done
    requires Follows(c.nodes[v], v) && Copying(id, v, command) in c.network
    ensures Steady(moves) ==> Steady(moves')
    ensures Idle(p, moves', c') && Kept(c, c', {id, v})
    ensures Progress(c'.nodes[id], id, command, done + {v}) && Follows(c'.nodes[v], v)
  {
    hide AsyncRun, React, Record, Progress, Follows, Steady, Election.Placed, AtRest;
    var copying, copied := Deliver(Copying(id, v, command)), Deliver(Copied(id, v));
    AppendReaction(c.nodes[v], v, id, command);
    moves', c' := WholeTurn(p, SIX, moves, c, copying, React(p.fixes, SIX, c.nodes[v], copying));
    AnswerReaction(c'.nodes[id], id, command, v, done);
    moves', c' := WholeTurn(p, SIX, moves', c', copied, React(p.fixes, SIX, c'.nodes[id], copied));
  }

  /** The leader appends a command, c, e and f store it, and it is applied. */
  lemma Applies(p: Policy, moves: seq<Move>, c: Cluster, id: ServerId, command: Bytes)
    returns (moves': seq<Move>, c': Cluster)
    requires p.fixes == CORRECTED && Idle(p, moves, c) && id in {"a", "b"}
    requires id in c.nodes && c.nodes[id] == Elected(id)
    requires forall v :: v in {"c", "e", "f"} ==> v in c.nodes && Follows(c.nodes[v], v)
    ensures Steady(moves) ==> Steady(moves')
    ensures Idle(p, moves', c') && Kept(c, c', {id, "c", "e", "f"})
    ensures forall v :: v in {"c", "e", "f"} ==> v in c'.nodes && Follows(c'.nodes[v], v)
    ensures Applied(id, 1, command) in c'.history.applied
  {
    hide AsyncRun, React, Record, Progress, Follows, Steady, Elected, Election.Placed, AtRest;
    var e := Request(id, command);
    RequestReaction(id, command);
    moves', c' := WholeTurn(p, SIX, moves, c, e, React(p.fixes, SIX, c.nodes[id], e));
    moves', c' := AllCopy(p, moves', c', id, command);
    var n, c1 := c'.nodes[id], c';
    ProgressApplies(n, id, command);
    moves', c' := WholeTurn(p, SIX, moves', c', Apply(id), Outcome(ApplyNext(n), []));
    RecordAddsApplied(c1.history, n, Apply(id), Outcome(ApplyNext(n), []));
  }

  lemma AllCopy(p: Policy, moves: seq<Move>, c: Cluster, id: ServerId, command: Bytes)
    returns (moves': seq<Move>, c': Cluster)
    requires p.fixes == CORRECTED && Idle(p, moves, c) && id in {"a", "b"} && id in c.nodes
    requires Progress(c.nodes[id], id, command, {})
    requires forall v :: v in {"c", "e", "f"} ==>
      v in c.nodes && Follows(c.nodes[v], v) && Copying(id, v, command) in c.network
    ensures Steady(moves) ==> Steady(moves')
    ensures Idle(p, moves', c') && Kept(c, c', {id, "c", "e", "f"})
    ensures forall v :: v in {"c", "e", "f"} ==> v in c'.nodes && Follows(c'.nodes[v], v)
    ensures Progress(c'.nodes[id], id, command, {"c", "e", "f"})
  {
    hide Idle, Progress, Follows, Steady;
    assert {} + {"c"} == {"c"} && {"c"} + {"e"} == {"c", "e"} && {"c", "e"} + {"f"} == {"c", "e", "f"};
    moves', c' := Copies(p, moves, c, id, command, "c", {});
    moves', c' := Copies(p, moves', c', id, command, "e", {"c"});
    moves', c' := Copies(p, moves', c', id, command, "f", {"c", "e"});
  }

  lemma ProgressApplies(n: Node, id: ServerId, command: Bytes)
    requires Progress(n, id, command, {"c", "e", "f"})
    ensures CanApply(n) && n.mem.log[1].command == command && n.lastApplied == 0 && n.id == id
    ensures React(CORRECTED, SIX, n, Apply(id)) == Outcome(ApplyNext(n), [])
  {
  }

  lemma VoterFollows(v: ServerId)
    ensures Follows(Voter(v, 2, Some("b"), 2, Some("b")), v)
  {
  }

  /** a and b, both elected in term 2, apply one command each. */
  lemma {:induction false} TwoCommands(p: Policy) returns (moves: seq<Move>)
    requires p.fixes == CORRECTED && !(p.serial && p.termFirst && p.checked)
    ensures !StateMachineSafe(AsyncRun(p, SIX, moves).cluster)
    ensures !(p.serial && p.termFirst) ==> Steady(moves)
  {
    hide AsyncRun, Follows, Elected, Voter, Steady, ElectionSafe, Election.Placed, Leading, Truthful;
    var c;
    moves, c := TwoLeaders(p);
    SixThere(c);
    VoterFollows("c");
    VoterFollows("e");
    VoterFollows("f");
    moves, c := Applies(p, moves, c, "a", [1]);
    moves, c := Applies(p, moves, c, "b", [2]);
    var x, y := Applied("a", 1, [1]), Applied("b", 1, [2]);
    assert x.command[0] != y.command[0];
    assert x in c.history.applied && y in c.history.applied;
  }

  // ----- line 99 as written -----

  ghost predicate Barren(a: Async) {
    && Commitless.Barren(a.cluster)
    && (forall s, b, x :: s in a.waiting && b in a.waiting[s] && x in b.out ==> Commitless.NothingTold(x))
  }

  lemma HandleBarren(p: Policy, servers: seq<ServerId>, a: Async, e: Event)
    requires !p.fixes.matchesReplicated && Barren(a) && CanHandle(p, a, e)
    ensures Barren(HandleEvent(p, servers, a, e))
  {
    hide React, Record, Waits, Commitless.NothingTold, CanApply, Lower;
    var n := a.cluster.nodes[Actor(e)];
    EnabledFacts(a.cluster, e);
    Commitless.EventBarren(p.fixes, servers, a.cluster, e);
    var o := React(p.fixes, servers, n, e);
    Commitless.RecordKeepsApplied(a.cluster.history, n, e, o);
    DiskAside(n, o.node);
  }

  lemma DiskAside(n: Node, n': Node)
    requires Commitless.NothingCommitted(n')
    ensures Commitless.NothingCommitted(n'.(disk := n.disk))
  {
  }

  lemma MoveBarren(p: Policy, servers: seq<ServerId>, a: Async, m: Move)
    requires !p.fixes.matchesReplicated && Barren(a)
    ensures Barren(Take(p, servers, a, m))
  {
    hide HandleEvent, CanHandle, Commitless.NothingTold, CanFail, WriteNext;
    match m
    case Handle(e) =>
      if CanHandle(p, a, e) {
        HandleBarren(p, servers, a, e);
      }
    case Write(s, i) => WriteBarren(p, servers, a, s, i);
    case Fail(s, i) =>
    case Send(s, i) =>
      if HasBatch(a, s, i) {
        assert a.waiting[s][i] in a.waiting[s];
      }
    case Crash(s) =>
  }

  lemma WriteBarren(p: Policy, servers: seq<ServerId>, a: Async, s: ServerId, i: nat)
    requires Barren(a)
    ensures Barren(Take(p, servers, a, Write(s, i)))
  {
    hide Commitless.NothingTold;
    if HasBatch(a, s, i) && a.waiting[s][i].files < 3 {
      assert a.waiting[s][i] in a.waiting[s];
    }
  }

  lemma {:induction false} RunBarren(p: Policy, servers: seq<ServerId>, moves: seq<Move>)
    requires !p.fixes.matchesReplicated
    ensures Barren(AsyncRun(p, servers, moves))
  {
    hide Barren, Take;
    if moves == [] {
      StartBarren(p, servers);
    } else {
      RunBarren(p, servers, moves[..|moves| - 1]);
      MoveBarren(p, servers, AsyncRun(p, servers, moves[..|moves| - 1]), moves[|moves| - 1]);
    }
  }

  lemma StartBarren(p: Policy, servers: seq<ServerId>)
    ensures Barren(Begin(p, servers))
  {
    Commitless.StartIsBarren(servers);
  }

  /** Already in whole steps. */
  lemma UnsafeMoves(p: Policy) returns (servers: seq<ServerId>, moves: seq<Move>)
    requires p.fixes.matchesReplicated && p.fixes != CORRECTED
    ensures Distinct(servers) && Steady(moves) && !StateMachineSafe(AsyncRun(p, servers, moves).cluster)
  {
    hide AsyncRun, StateMachineSafe, Run;
    var events;
    servers, events := Necessity.UnsafeRun(p.fixes);
    moves := Simulates(p, servers, events);
  }

  lemma BarrenMoves(p: Policy, servers: seq<ServerId>, moves: seq<Move>)
    requires !p.fixes.matchesReplicated
    ensures StateMachineSafe(AsyncRun(p, servers, moves).cluster)
  {
    hide AsyncRun, StateMachineSafe;
    RunBarren(p, servers, moves);
    BarrenIsSafe(AsyncRun(p, servers, moves).cluster);
  }

  /** With every await taken apart, writes that may fail and crashes at any moment, over every
      cluster and every run: State Machine Safety holds exactly when nothing can be applied at all,
      or every correction is in, no handler of a server runs while something of it waits for its
      writes, the term is written before the vote, and a write that fails raises no flag. */
  lemma {:induction false} StateMachineSafetyIff(p: Policy)
    ensures (forall servers, moves :: Distinct(servers) ==> StateMachineSafe(AsyncRun(p, servers, moves).cluster))
       <==> !p.fixes.matchesReplicated || (p.fixes == CORRECTED && p.serial && p.termFirst && p.checked)
  {
    hide AsyncRun, StateMachineSafe, Steady;
    if !p.fixes.matchesReplicated {
      forall servers, moves | Distinct(servers) ensures StateMachineSafe(AsyncRun(p, servers, moves).cluster) {
        BarrenMoves(p, servers, moves);
      }
    } else if p.fixes != CORRECTED {
      var servers, moves := UnsafeMoves(p);
    } else if p.serial && p.termFirst && p.checked {
      forall servers, moves | Distinct(servers) ensures StateMachineSafe(AsyncRun(p, servers, moves).cluster) {
        AwaitReduction.StateMachineSafety(p, servers, moves);
      }
    } else {
      var moves := TwoCommands(p);
      assert Distinct(SIX);
    }
  }

  /** Over the runs in which no write fails the callback does not matter. */
  lemma {:induction false} SteadyStateMachineSafetyIff(p: Policy)
    ensures (forall servers, moves :: Distinct(servers) && Steady(moves) ==>
               StateMachineSafe(AsyncRun(p, servers, moves).cluster))
       <==> !p.fixes.matchesReplicated || (p.fixes == CORRECTED && p.serial && p.termFirst)
  {
    hide AsyncRun, StateMachineSafe, Steady;
    if !p.fixes.matchesReplicated {
      forall servers, moves | Distinct(servers) ensures StateMachineSafe(AsyncRun(p, servers, moves).cluster) {
        BarrenMoves(p, servers, moves);
      }
    } else if p.fixes != CORRECTED {
      var servers, moves := UnsafeMoves(p);
    } else if p.serial && p.termFirst {
      forall servers, moves | Distinct(servers) && Steady(moves)
        ensures StateMachineSafe(AsyncRun(p, servers, moves).cluster)
      {
        AwaitReduction.StateMachineSafety(p, servers, moves);
      }
    } else {
      var moves := TwoCommands(p);
      assert Distinct(SIX);
    }
  }

  lemma BarrenIsSafe(c: Cluster)
    requires Commitless.Barren(c)
    ensures StateMachineSafe(c)
  {
  }
}
