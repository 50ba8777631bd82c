/** Runs in which two logs disagree below an entry of the same term, and so exactly which
    corrections Log Matching needs. */
module MatchingRuns {
  import opened RaftTypes
  import opened Logs
  import opened Nodes
  import opened Clusters
  import opened RunSteps
  import opened ElectionRuns
  import CopiedConflict
  import Matching
  import SoleAuthors

  /** A leader in office appends its first entry. */
  lemma AppendsFirst(f: Fixes, run: seq<Event>, c: Cluster, s: ServerId, command: Bytes)
    returns (run': seq<Event>, c': Cluster)
    requires c == Run(f, THREE, run) && s in c.nodes && c.nodes[s].id == s && s in {"a", "b"} && InOffice(f, c.nodes[s])
    ensures c' == Run(f, THREE, run') && c'.nodes.Keys == c.nodes.Keys
    ensures c'.nodes[s].id == s && c'.nodes[s].mem.log == [SENTINEL, FirstEntry(command, c.nodes[s].mem.term)]
    ensures forall t :: t in c.nodes && t in c'.nodes && t != s ==> c'.nodes[t] == c.nodes[t]
  {
    hide Run, React, Record, InOffice;
    AppendsOnly(f, c.nodes[s], "c", command);
    run', c' := run + [Request(s, command)], Step(f, THREE, c, Request(s, command));
    RunOneMore(f, THREE, run, Request(s, command));
  }

  lemma CopiesOnly(f: Fixes, n: Node, a: Node, command: Bytes)
    requires n.state.Follower? && n.mem.term == a.mem.term && n.mem.log == [SENTINEL]
    ensures var o := React(f, THREE, n, Deliver(Copying(a, n.id, command)));
      o.node.id == n.id && o.node.mem.log == [SENTINEL, FirstEntry(command, a.mem.term)]
  {
    var e := FirstEntry(command, a.mem.term);
    assert [e][..0] == [] && Merge(f.mergesByPosition, [SENTINEL], []) == [SENTINEL];
    assert Merge(f.mergesByPosition, [SENTINEL], [e]) == [SENTINEL] + [e];
  }

  /** c, of the leader's term, receives the first entry. */
  lemma CopiesFirst(f: Fixes, run: seq<Event>, c: Cluster, a: Node, command: Bytes)
    returns (run': seq<Event>, c': Cluster)
    requires c == Run(f, THREE, run) && Quorate(c) && Copying(a, "c", command) in c.network
    requires c.nodes["c"].state.Follower? && c.nodes["c"].mem.term == a.mem.term
    ensures c' == Run(f, THREE, run') && c'.nodes.Keys == c.nodes.Keys
    ensures c'.nodes["c"].mem.log == [SENTINEL, FirstEntry(command, a.mem.term)]
    ensures forall t :: t in c.nodes && t in c'.nodes && t != "c" ==> c'.nodes[t] == c.nodes[t]
  {
    hide Run, React, Record;
    var e := Deliver(Copying(a, "c", command));
    CopiesOnly(f, c.nodes["c"], a, command);
    run', c' := run + [e], Step(f, THREE, c, e);
    RunOneMore(f, THREE, run, e);
  }

  lemma Mismatch(c: Cluster, s: ServerId, t: ServerId, x: Bytes, y: Bytes, term: nat)
    requires s in c.nodes && t in c.nodes && x != y
    requires c.nodes[s].mem.log == [SENTINEL, FirstEntry(x, term)]
    requires c.nodes[t].mem.log == [SENTINEL, FirstEntry(y, term)]
    ensures !LogsMatch(c)
  {
    assert c.nodes[s].mem.log[..2][1] != c.nodes[t].mem.log[..2][1];
    assert c.nodes[s].mem.log[1].term == c.nodes[t].mem.log[1].term;
  }

  lemma {:induction false} LeadersDisagree(f: Fixes, run: seq<Event>, c: Cluster, term: nat) returns (run': seq<Event>)
    requires c == Run(f, THREE, run) && TwoLeaders(f, c, term)
    ensures !LogsMatch(Run(f, THREE, run'))
  {
    hide Run, InOffice;
    var c';
    run', c' := AppendsFirst(f, run, c, "a", [1]);
    run', c' := AppendsFirst(f, run', c', "b", [2]);
    assert [1] != [2] by { assert [1 as Byte][0] != [2 as Byte][0]; }
    Mismatch(c', "a", "b", [1], [2], term);
  }

  /** a's entry reached c, and b is elected in the same term after a has forgotten all of it. */
  lemma {:induction false} FollowerDisagrees(f: Fixes) returns (run: seq<Event>)
    requires !f.persistsFirst && f.sendsFromNextIndex
    ensures !LogsMatch(Run(f, THREE, run))
  {
    hide Run, InOffice, Copying;
    var c, a;
    run, c, a := WithoutPersistedRequest(f);
    run, c := CopiesFirst(f, run, c, a, [1]);
    run, c := AppendsFirst(f, run, c, "b", [2]);
    assert [1] != [2] by { assert [1 as Byte][0] != [2 as Byte][0]; }
    Mismatch(c, "c", "b", [1], [2], 1);
  }

  /** The corrections Log Matching needs: a vote given is stored, read back and counted in its own
      term; and the state is written before requests, unless no request can make a log grow. */
  predicate KeepsMatching(f: Fixes) {
    && f.recordsGrant && f.reloadsVote && f.countsOwnTerm
    && (f.persistsFirst || (!f.sendsFromNextIndex && !f.mergesByPosition))
  }

  lemma {:induction false} LogsDisagree(f: Fixes) returns (servers: seq<ServerId>, run: seq<Event>)
    requires !KeepsMatching(f)
    ensures Distinct(servers) && !LogsMatch(Run(f, servers, run))
  {
    hide Run, LogsMatch, TwoLeaders;
    var c;
    servers := THREE;
    if !f.recordsGrant {
      run, c := WithoutRecordedGrant(f);
      run := LeadersDisagree(f, run, c, 1);
    } else if !f.reloadsVote {
      run, c := WithoutReloadedVote(f);
      run := LeadersDisagree(f, run, c, 1);
    } else if !f.countsOwnTerm {
      run, c := WithoutTermCheck(f);
      run := LeadersDisagree(f, run, c, 2);
    } else if f.sendsFromNextIndex {
      run := FollowerDisagrees(f);
    } else {
      servers := CopiedConflict.FIVE;
      run := CopiedConflict.LogsDisagree(f);
    }
  }

  /** Log Matching holds of every run of every cluster exactly under those corrections, whatever
      else is corrected or left as written; in particular not for AS_WRITTEN. */
  lemma LogMatchingIff(f: Fixes)
    ensures (forall servers, events :: Distinct(servers) ==> LogsMatch(Run(f, servers, events))) <==> KeepsMatching(f)
  {
    hide Run, LogsMatch;
    if !KeepsMatching(f) {
      var servers, events := LogsDisagree(f);
    } else if f.persistsFirst {
      forall servers, events | Distinct(servers) ensures LogsMatch(Run(f, servers, events)) {
        Matching.LogMatching(f, servers, events);
      }
    } else {
      forall servers, events | Distinct(servers) ensures LogsMatch(Run(f, servers, events)) {
        SoleAuthors.LogMatching(f, servers, events);
      }
    }
  }
}
