/** Exactly what Log Matching needs with every await taken apart. */
module AwaitMatching {
  import opened RaftTypes
  import opened Nodes
  import opened Clusters
  import opened RunSteps
  import opened Awaits
  import opened AwaitRuns
  import AwaitAuthors
  import AwaitReduction
  import Election
  import KeptConflict
  import MatchingRuns

  lemma AppendReaction(f: Fixes, n: Node, id: ServerId, command: Bytes)
    requires Leading(n, id)
    ensures var o := React(f, SIX, n, Request(id, command));
      o.node.id == id && o.node.mem.log == [SENTINEL, FirstEntry(command, 2)]
  {
    hide SendAppendEntries;
    var n1 := n.(mem := n.mem.(log := n.mem.log + [Entry(command, |n.mem.log|, n.mem.term)]));
    Election.SendEffect(f, SIX, n1);
    assert [SENTINEL] + [FirstEntry(command, 2)] == [SENTINEL, FirstEntry(command, 2)];
  }

  /** Two leaders of term 2 append different first entries. */
  lemma LeadersDisagree(p: Policy) returns (moves: seq<Move>)
    requires GrantsBind(p.fixes) && !(p.serial && p.termFirst && p.checked)
    ensures !LogsMatch(AsyncRun(p, SIX, moves).cluster)
    ensures !(p.serial && p.termFirst) ==> Steady(moves)
  {
    hide AsyncRun, React, Record, Election.Placed, ElectionSafe, Leading, Steady, Truthful, LogsMatch, Elected, Voter;
    var c;
    moves, c := TwoLeaders(p);
    SixThere(c);
    var x, y := Request("a", [1]), Request("b", [2]);
    AppendReaction(p.fixes, c.nodes["a"], "a", [1]);
    moves, c := WholeTurn(p, SIX, moves, c, x, React(p.fixes, SIX, c.nodes["a"], x));
    AppendReaction(p.fixes, c.nodes["b"], "b", [2]);
    moves, c := WholeTurn(p, SIX, moves, c, y, React(p.fixes, SIX, c.nodes["b"], y));
    assert [1] != [2] by { assert [1 as Byte][0] != [2 as Byte][0]; }
    MatchingRuns.Mismatch(c, "a", "b", [1], [2], 2);
  }

  /** Already in whole steps. */
  lemma WholeDisagree(p: Policy) returns (servers: seq<ServerId>, moves: seq<Move>)
    requires !MatchingRuns.KeepsMatching(p.fixes)
    ensures Distinct(servers) && Steady(moves) && !LogsMatch(AsyncRun(p, servers, moves).cluster)
  {
    hide AsyncRun, LogsMatch, Run;
    var events;
    servers, events := MatchingRuns.LogsDisagree(p.fixes);
    moves := Simulates(p, servers, events);
  }

  /** The corrections Log Matching needs when a crash may come between any two files: either the
      state is written before requests, or requests can only cut a log and no log is written. */
  predicate KeepsMatching(f: Fixes) {
    GrantsBind(f) && (f.persistsFirst || (!f.sendsFromNextIndex && !f.mergesByPosition && !f.keepsLog))
  }

  /** Without them, or with handlers that overlap, files in the wrong order or, if need be, a failed
      write that goes unnoticed, logs disagree. */
  lemma Disagree(p: Policy) returns (servers: seq<ServerId>, moves: seq<Move>)
    requires !(KeepsMatching(p.fixes) && p.serial && p.termFirst && p.checked)
    ensures Distinct(servers) && !LogsMatch(AsyncRun(p, servers, moves).cluster)
    ensures !(KeepsMatching(p.fixes) && p.serial && p.termFirst) ==> Steady(moves)
  {
    hide AsyncRun, LogsMatch, Steady;
    if !MatchingRuns.KeepsMatching(p.fixes) {
      servers, moves := WholeDisagree(p);
    } else if !KeepsMatching(p.fixes) {
      servers := KeptConflict.THREE;
      moves := KeptConflict.LogsDisagree(p);
    } else {
      servers := SIX;
      moves := LeadersDisagree(p);
      assert Distinct(SIX);
    }
  }

  lemma Agree(p: Policy, servers: seq<ServerId>, moves: seq<Move>)
    requires KeepsMatching(p.fixes) && p.serial && p.termFirst && (p.checked || Steady(moves)) && Distinct(servers)
    ensures LogsMatch(AsyncRun(p, servers, moves).cluster)
  {
    hide AsyncRun, LogsMatch, Steady;
    if p.fixes.persistsFirst {
      AwaitReduction.LogMatching(p, servers, moves);
    } else {
      AwaitAuthors.LogMatching(p, servers, moves);
    }
  }

  /** Log Matching, over every order of handlers, single file writes, failed writes, sends and
      crashes, holds exactly under those corrections, if no handler of a server runs while
      something of it waits for its writes, the term is written before the vote, and a write that
      fails raises no flag. */
  lemma {:induction false} LogMatchingIff(p: Policy)
    ensures (forall servers, moves :: Distinct(servers) ==> LogsMatch(AsyncRun(p, servers, moves).cluster))
       <==> KeepsMatching(p.fixes) && p.serial && p.termFirst && p.checked
  {
    hide AsyncRun, LogsMatch, KeepsMatching, Steady;
    if KeepsMatching(p.fixes) && p.serial && p.termFirst && p.checked {
      forall servers, moves | Distinct(servers) ensures LogsMatch(AsyncRun(p, servers, moves).cluster) {
        Agree(p, servers, moves);
      }
    } else {
      var servers, moves := Disagree(p);
    }
  }

  /** Over the runs in which no write fails the callback does not matter. */
  lemma {:induction false} SteadyLogMatchingIff(p: Policy)
    ensures (forall servers, moves :: Distinct(servers) && Steady(moves) ==>
               LogsMatch(AsyncRun(p, servers, moves).cluster))
       <==> KeepsMatching(p.fixes) && p.serial && p.termFirst
  {
    hide AsyncRun, LogsMatch, KeepsMatching, Steady;
    if KeepsMatching(p.fixes) && p.serial && p.termFirst {
      forall servers, moves | Distinct(servers) && Steady(moves)
        ensures LogsMatch(AsyncRun(p, servers, moves).cluster)
      {
        Agree(p, servers, moves);
      }
    } else {
      var servers, moves := Disagree(p);
    }
  }
}
