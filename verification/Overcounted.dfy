/** A run of three servers, one of them named like a position, that applies two different commands
    at index 1. Requests are as written, so they describe the leader's last entry but carry what
    stands at nextIndex and after; once an old refusal has lowered nextIndex, a follower confirms
    an entry it was never sent. No correction but the one of the requests would help. */
module Overcounted {
  import opened RaftTypes
  import opened Logs
  import opened Medians
  import opened Nodes
  import opened Clusters
  import opened RunSteps
  import Decimals

  const NAMED: seq<ServerId> := ["0", "x", "y"]

  /** Line 99 of the leader is corrected, the requests are not. */
  predicate CountsBlindly(f: Fixes) {
    f.matchesReplicated && !f.sendsFromNextIndex
  }

  function Other(id: ServerId): ServerId {
    if id == "x" then "y" else "x"
  }

  /** x or y, before it has an entry. */
  ghost predicate Blank(n: Node, id: ServerId, term: nat) {
    && n.id == id && id in {"x", "y"} && n.mem.term == term && n.mem.log == [SENTINEL]
    && n.commitIndex == 0 && n.lastApplied == 0
  }

  /** Server 0, which votes for both and follows both. */
  ghost predicate Voter(n: Node, term: nat) {
    n.id == "0" && n.mem.term == term && n.mem.log == [SENTINEL] && n.commitIndex == 0 && n.state.Follower?
  }

  /** The tables of x or y as leader: nextIndex and matchIndex of server 0. */
  function Office(next: int, known: nat): State {
    Leader(map["0" := Num(next), "1" := Num(1)], Table(["0", "1"], map["0" := known, "1" := 0]))
  }

  function Beat(id: ServerId, to: ServerId, term: nat, entries: seq<Entry>): Packet {
    Packet(id, to, AppendEntries(term, id, entries, 0, 0, 0))
  }

  function Refusal(id: ServerId, term: nat): Packet {
    Packet("0", id, AppendResponse(term, "0", 0, false, 0))
  }

  /** The answer to a request that carries the empty entry and describes it too. */
  function Confirmed(from: ServerId, id: ServerId, term: nat, commitIndex: nat): Packet {
    Packet(from, id, AppendResponse(term, from, commitIndex, true, 1))
  }

  lemma PeersOf(id: ServerId)
    requires id in {"x", "y"}
    ensures Peers(NAMED, id) == ["0", Other(id)]
  {
    assert NAMED[1..] == ["x", "y"] && NAMED[1..][1..] == ["y"] && NAMED[1..][1..][1..] == [];
  }

  // ----- what each event does -----

  lemma StandReaction(f: Fixes, n: Node, id: ServerId, term: nat)
    requires Blank(n, id, term)
    ensures var o := React(f, NAMED, n, Timeout(id));
      Blank(o.node, id, term + 1) && o.node.state == Candidate({id}) && Ask(id, "0", term + 1) in o.out
  {
    hide BecomeLeader;
    PeersOf(id);
    assert !IsMajority(NAMED, {id});
    assert VoteRequests(NAMED, Stand(f, n))[0] == Ask(id, "0", term + 1);
  }

  lemma GrantReaction(f: Fixes, n: Node, id: ServerId, earlier: nat, term: nat)
    requires Voter(n, earlier) && earlier < term
    ensures var o := React(f, NAMED, n, Deliver(Ask(id, "0", term)));
      Voter(o.node, term) && Yes("0", id, term) in o.out
  {
    var o := React(f, NAMED, n, Deliver(Ask(id, "0", term)));
    assert o.out[0] == Yes("0", id, term);
  }

  lemma OfficeTables(f: Fixes, id: ServerId)
    requires CountsBlindly(f) && id in {"x", "y"}
    ensures var keys := IndexKeys(f, Peers(NAMED, id));
      Leader(map k | k in keys :: Num(1), FreshTable(keys)) == Office(1, 0)
  {
    PeersOf(id);
    var keys := IndexKeys(f, Peers(NAMED, id));
    assert Decimals.Decimal(0) == "0" && Decimals.Decimal(1) == "1";
    assert keys == ["0", "1"];
    assert (map k | k in keys :: Num(1)) == map["0" := Num(1), "1" := Num(1)];
    assert (map k | k in keys :: 0) == map["0" := 0, "1" := 0];
  }

  lemma WinReaction(f: Fixes, n: Node, id: ServerId, term: nat)
    requires CountsBlindly(f) && Blank(n, id, term) && n.state == Candidate({id})
    ensures var o := React(f, NAMED, n, Deliver(Yes("0", id, term)));
      && Blank(o.node, id, term) && o.node.state == Office(1, 0)
      && Beat(id, "0", term, []) in o.out && Beat(id, Other(id), term, [SENTINEL]) in o.out
  {
    hide BecomeLeader;
    var votes := {id} + {"0"};
    assert |votes| == 2 && IsMajority(NAMED, votes);
    LeadReaction(f, n.(state := Candidate(votes)), id, term);
  }

  lemma LeadReaction(f: Fixes, n: Node, id: ServerId, term: nat)
    requires CountsBlindly(f) && Blank(n, id, term)
    ensures var o := BecomeLeader(f, NAMED, n);
      && Blank(o.node, id, term) && o.node.state == Office(1, 0)
      && Beat(id, "0", term, []) in o.out && Beat(id, Other(id), term, [SENTINEL]) in o.out
  {
    OfficeTables(f, id);
    BeatReaction(f, n.(state := Office(1, 0)), id, term, 1);
  }

  /** A heartbeat to server 0 carries what stands at nextIndex and after, and to the other server,
      whose nextIndex is undefined, the whole log. */
  lemma BeatReaction(f: Fixes, n: Node, id: ServerId, term: nat, next: nat)
    requires CountsBlindly(f) && Blank(n, id, term) && n.state == Office(next, 0) && next <= 1
    ensures var o := SendAppendEntries(f, NAMED, n);
      && Blank(o.node, id, term) && o.node.state == n.state
      && Beat(id, "0", term, if next == 0 then [SENTINEL] else []) in o.out
      && Beat(id, Other(id), term, [SENTINEL]) in o.out
  {
    PeersOf(id);
    var out := SendAppendEntries(f, NAMED, n).out;
    assert out[0] == AppendRequest(f, n, "0") && out[1] == AppendRequest(f, n, Other(id));
    assert [SENTINEL][0..] == [SENTINEL] && [SENTINEL][1..] == [];
  }

  lemma RefuseReaction(f: Fixes, n: Node, id: ServerId, earlier: nat, term: nat)
    requires Voter(n, term) && earlier < term
    ensures var o := React(f, NAMED, n, Deliver(Beat(id, "0", earlier, [])));
      Voter(o.node, term) && Refusal(id, term) in o.out
  {
    var o := React(f, NAMED, n, Deliver(Beat(id, "0", earlier, [])));
    assert o.out[0] == Refusal(id, term);
  }

  lemma NoneYet(log: seq<Entry>, term: nat, x: nat)
    ensures CommitScan(log, term, 0, Median(true, [x, 0])) == 0
  {
    assert [x, 0][1..] == [0] && [0][1..] == [];
    assert Sort(true, [0]) == [0];
    assert Sort(true, [x, 0]) == Insert(true, x, [0]);
    assert x > 0 ==> Insert(true, x, [0]) == [0] + Insert(true, x, []);
    assert Median(true, [x, 0]) == 0;
  }

  lemma TwoOfThree()
    ensures Median(true, [1, 0, 1]) == 1
  {
    assert [1, 0, 1][1..] == [0, 1] && [0, 1][1..] == [1] && [1][1..] == [];
    assert Sort(true, [1]) == [1];
    assert Sort(true, [0, 1]) == Insert(true, 0, [1]) == [0, 1];
    assert Sort(true, [1, 0, 1]) == Insert(true, 1, [0, 1]) == [0] + Insert(true, 1, [1]) == [0, 1, 1];
  }

  /** The refusal of the old heartbeat counts in the new term. */
  lemma BackReaction(f: Fixes, n: Node, id: ServerId, term: nat)
    requires CountsBlindly(f) && Blank(n, id, term) && n.state == Office(1, 0)
    ensures var o := React(f, NAMED, n, Deliver(Refusal(id, term)));
      Blank(o.node, id, term) && o.node.state == Office(0, 0)
  {
    hide Median, CommitScan;
    var updated := UpdateIndexes(f, n.state, Refusal(id, term).msg);
    assert updated.nextIndex == map["0" := Num(0), "1" := Num(1)];
    assert Values(updated.matchIndex) == [0, 0];
    NoneYet(n.mem.log, term, 0);
  }

  /** A server that still has the first entry accepts a heartbeat that carries it. */
  lemma AcceptReaction(f: Fixes, n: Node, id: ServerId, term: nat)
    requires n.mem.term < term || (n.mem.term == term && n.state.Follower?)
    requires |n.mem.log| > 0 && n.mem.log[0].term == 0
    ensures var o := React(f, NAMED, n, Deliver(Beat(id, n.id, term, [SENTINEL])));
      && o.node.id == n.id && o.node.mem.term == term && o.node.state.Follower?
      && o.node.commitIndex == n.commitIndex && o.node.lastApplied == n.lastApplied
      && (n.mem.log == [SENTINEL] ==> o.node.mem.log == [SENTINEL])
      && Confirmed(n.id, id, term, n.commitIndex) in o.out
  {
    assert [SENTINEL][..0] == [] && Merge(f.mergesByPosition, n.mem.log, []) == n.mem.log;
    var o := React(f, NAMED, n, Deliver(Beat(id, n.id, term, [SENTINEL])));
    assert o.out[0] == Confirmed(n.id, id, term, n.commitIndex);
  }

  /** The leader with its first entry. */
  ghost predicate Holding(n: Node, id: ServerId, term: nat, command: Bytes) {
    && n.id == id && id in {"x", "y"} && n.mem.term == term && n.mem.log == [SENTINEL, FirstEntry(command, term)]
    && n.lastApplied == 0
  }

  lemma RequestReaction(f: Fixes, n: Node, id: ServerId, term: nat, command: Bytes)
    requires Blank(n, id, term) && n.state == Office(0, 0)
    ensures var o := React(f, NAMED, n, Request(id, command));
      Holding(o.node, id, term, command) && o.node.state == n.state && o.node.commitIndex == 0
  {
    assert [SENTINEL] + [FirstEntry(command, term)] == [SENTINEL, FirstEntry(command, term)];
  }

  lemma FirstCount(f: Fixes, n: Node, id: ServerId, term: nat, command: Bytes)
    requires CountsBlindly(f) && Holding(n, id, term, command) && n.state == Office(0, 0) && n.commitIndex == 0
    ensures var o := React(f, NAMED, n, Deliver(Confirmed("0", id, term, 0)));
      Holding(o.node, id, term, command) && o.node.state == Office(2, 1) && o.node.commitIndex == 0
  {
    hide Median, CommitScan;
    var updated := UpdateIndexes(f, n.state, Confirmed("0", id, term, 0).msg);
    assert updated.nextIndex == map["0" := Num(2), "1" := Num(1)];
    assert updated.matchIndex.at == map["0" := 1, "1" := 0];
    assert Values(updated.matchIndex) == [1, 0];
    NoneYet(n.mem.log, term, 1);
  }

  lemma SecondCount(f: Fixes, n: Node, id: ServerId, term: nat, command: Bytes, commitIndex: nat)
    requires CountsBlindly(f) && Holding(n, id, term, command) && n.state == Office(2, 1) && n.commitIndex == 0
    ensures var o := React(f, NAMED, n, Deliver(Confirmed(Other(id), id, term, commitIndex)));
      Holding(o.node, id, term, command) && o.node.commitIndex == 1
  {
    hide Median;
    var updated := UpdateIndexes(f, n.state, Confirmed(Other(id), id, term, commitIndex).msg);
    assert updated.matchIndex.keys == ["0", "1"] + [Other(id)] == ["0", "1", Other(id)];
    assert Values(updated.matchIndex) == [1, 0, 1];
    TwoOfThree();
  }

  // ----- one leader, from standing to applying -----

  /** The leader's entry is about to be asked for; server 0 and the other one have their logs. */
  ghost predicate Scene(c: Cluster, id: ServerId, term: nat) {
    && c.nodes.Keys == {"0", "x", "y"} && (forall s :: s in c.nodes ==> c.nodes[s].id == s)
    && id in c.nodes && Blank(c.nodes[id], id, term)
  }

  ghost predicate Third(n: Node, term: nat) {
    n.mem.term < term && |n.mem.log| > 0 && n.mem.log[0].term == 0
  }

  lemma Stands(f: Fixes, run: seq<Event>, c: Cluster, id: ServerId, term: nat) returns (run': seq<Event>, c': Cluster)
    requires c == Run(f, NAMED, run) && id in {"x", "y"} && Scene(c, id, term)
    ensures c' == Run(f, NAMED, run') && Moved(c, c', id) && Scene(c', id, term + 1)
    ensures c'.nodes[id].state == Candidate({id}) && Ask(id, "0", term + 1) in c'.network
  {
    hide Run, React;
    StandReaction(f, c.nodes[id], id, term);
    run', c' := Turn(f, NAMED, run, c, Timeout(id), React(f, NAMED, c.nodes[id], Timeout(id)));
  }

  /** Server 0 grants the vote and the candidate leads. */
  lemma Elects(f: Fixes, run: seq<Event>, c: Cluster, id: ServerId, earlier: nat, term: nat)
    returns (run': seq<Event>, c': Cluster)
    requires CountsBlindly(f) && c == Run(f, NAMED, run) && id in {"x", "y"} && Scene(c, id, term)
    requires c.nodes[id].state == Candidate({id}) && Ask(id, "0", term) in c.network
    requires Voter(c.nodes["0"], earlier) && earlier < term
    ensures c' == Run(f, NAMED, run') && Scene(c', id, term) && c.network <= c'.network
    ensures c'.nodes[id].state == Office(1, 0) && Voter(c'.nodes["0"], term)
    ensures Beat(id, "0", term, []) in c'.network && Beat(id, Other(id), term, [SENTINEL]) in c'.network
    ensures c'.nodes[Other(id)] == c.nodes[Other(id)] && c.history.applied <= c'.history.applied
  {
    hide Run, React, Office;
    var ask, yes := Deliver(Ask(id, "0", term)), Deliver(Yes("0", id, term));
    GrantReaction(f, c.nodes["0"], id, earlier, term);
    run', c' := Turn(f, NAMED, run, c, ask, React(f, NAMED, c.nodes["0"], ask));
    WinReaction(f, c'.nodes[id], id, term);
    run', c' := Turn(f, NAMED, run', c', yes, React(f, NAMED, c'.nodes[id], yes));
  }

  lemma StandsAndWins(f: Fixes, run: seq<Event>, c: Cluster, id: ServerId, term: nat)
    returns (run': seq<Event>, c': Cluster)
    requires CountsBlindly(f) && c == Run(f, NAMED, run) && id in {"x", "y"} && Scene(c, id, term)
    requires Voter(c.nodes["0"], term)
    ensures c' == Run(f, NAMED, run') && Scene(c', id, term + 1) && c.network <= c'.network
    ensures c'.nodes[id].state == Office(1, 0) && Voter(c'.nodes["0"], term + 1)
    ensures Beat(id, "0", term + 1, []) in c'.network && Beat(id, Other(id), term + 1, [SENTINEL]) in c'.network
    ensures c'.nodes[Other(id)] == c.nodes[Other(id)] && c.history.applied <= c'.history.applied
  {
    hide Run, React, Office, Blank, Voter;
    run', c' := Stands(f, run, c, id, term);
    run', c' := Elects(f, run', c', id, term, term + 1);
  }

  /** In office in one term, the leader is elected in the next, and a heartbeat of the first is
      refused in the second. */
  lemma ElectedTwice(f: Fixes, run: seq<Event>, c: Cluster, id: ServerId, term: nat)
    returns (run': seq<Event>, c': Cluster)
    requires CountsBlindly(f) && c == Run(f, NAMED, run) && id in {"x", "y"} && Scene(c, id, term)
    requires Voter(c.nodes["0"], term)
    ensures c' == Run(f, NAMED, run') && Scene(c', id, term + 2)
    ensures c'.nodes[id].state == Office(1, 0) && Voter(c'.nodes["0"], term + 2)
    ensures Refusal(id, term + 2) in c'.network && Beat(id, Other(id), term + 2, [SENTINEL]) in c'.network
    ensures c'.nodes[Other(id)] == c.nodes[Other(id)] && c.history.applied <= c'.history.applied
  {
    hide Run, React, Office;
    run', c' := StandsAndWins(f, run, c, id, term);
    run', c' := StandsAndWins(f, run', c', id, term + 1);
    var beat := Deliver(Beat(id, "0", term + 1, []));
    RefuseReaction(f, c'.nodes["0"], id, term + 1, term + 2);
    run', c' := Turn(f, NAMED, run', c', beat, React(f, NAMED, c'.nodes["0"], beat));
  }

  lemma HeartbeatIs(f: Fixes, n: Node, id: ServerId)
    requires n.state.Leader?
    ensures React(f, NAMED, n, Heartbeat(id)) == SendAppendEntries(f, NAMED, n)
  {
  }

  lemma OfficeLeads(next: int, known: nat)
    ensures Office(next, known).Leader?
  {
  }

  /** It goes one entry back, and both followers confirm one entry more than they were sent. */
  lemma Overcounts(f: Fixes, run: seq<Event>, c: Cluster, id: ServerId, term: nat)
    returns (run': seq<Event>, c': Cluster)
    requires CountsBlindly(f) && c == Run(f, NAMED, run) && id in {"x", "y"} && Scene(c, id, term)
    requires c.nodes[id].state == Office(1, 0) && Voter(c.nodes["0"], term) && Third(c.nodes[Other(id)], term)
    requires Refusal(id, term) in c.network && Beat(id, Other(id), term, [SENTINEL]) in c.network
    ensures c' == Run(f, NAMED, run') && Scene(c', id, term)
    ensures c'.nodes[id].state == Office(0, 0) && Voter(c'.nodes["0"], term)
    ensures Confirmed("0", id, term, 0) in c'.network && c.history.applied <= c'.history.applied
    ensures Confirmed(Other(id), id, term, c.nodes[Other(id)].commitIndex) in c'.network
    ensures Blank(c.nodes[Other(id)], Other(id), 0) ==> Blank(c'.nodes[Other(id)], Other(id), term)
  {
    hide Run, React, Office, SendAppendEntries;
    var w := Other(id);
    var refusal := Deliver(Refusal(id, term));
    var first, second := Deliver(Beat(id, "0", term, [SENTINEL])), Deliver(Beat(id, w, term, [SENTINEL]));
    BackReaction(f, c.nodes[id], id, term);
    run', c' := Turn(f, NAMED, run, c, refusal, React(f, NAMED, c.nodes[id], refusal));
    OfficeLeads(0, 0);
    HeartbeatIs(f, c'.nodes[id], id);
    BeatReaction(f, c'.nodes[id], id, term, 0);
    run', c' := Turn(f, NAMED, run', c', Heartbeat(id), React(f, NAMED, c'.nodes[id], Heartbeat(id)));
    AcceptReaction(f, c'.nodes["0"], id, term);
    run', c' := Turn(f, NAMED, run', c', first, React(f, NAMED, c'.nodes["0"], first));
    AcceptReaction(f, c'.nodes[w], id, term);
    run', c' := Turn(f, NAMED, run', c', second, React(f, NAMED, c'.nodes[w], second));
  }

  /** The entry it appends then is committed and applied at once, with no copy anywhere. */
  lemma AppliesAlone(f: Fixes, run: seq<Event>, c: Cluster, id: ServerId, term: nat, command: Bytes, commitIndex: nat)
    returns (run': seq<Event>, c': Cluster)
    requires CountsBlindly(f) && c == Run(f, NAMED, run) && id in {"x", "y"} && Scene(c, id, term)
    requires c.nodes[id].state == Office(0, 0)
    requires Confirmed("0", id, term, 0) in c.network && Confirmed(Other(id), id, term, commitIndex) in c.network
    ensures c' == Run(f, NAMED, run') && Moved(c, c', id)
    ensures Applied(id, 1, command) in c'.history.applied
    ensures c'.nodes[id].mem.term == term && c'.nodes[id].mem.log == [SENTINEL, FirstEntry(command, term)]
  {
    hide Run, React, Office;
    var request, first := Request(id, command), Deliver(Confirmed("0", id, term, 0));
    var second := Deliver(Confirmed(Other(id), id, term, commitIndex));
    RequestReaction(f, c.nodes[id], id, term, command);
    run', c' := Turn(f, NAMED, run, c, request, React(f, NAMED, c.nodes[id], request));
    FirstCount(f, c'.nodes[id], id, term, command);
    run', c' := Turn(f, NAMED, run', c', first, React(f, NAMED, c'.nodes[id], first));
    SecondCount(f, c'.nodes[id], id, term, command, commitIndex);
    run', c' := Turn(f, NAMED, run', c', second, React(f, NAMED, c'.nodes[id], second));
    var n, c1 := c'.nodes[id], c';
    ApplyIs(f, n, id);
    run', c' := Turn(f, NAMED, run', c', Apply(id), Outcome(ApplyNext(n), []));
    RecordAddsApplied(c1.history, n, Apply(id), Outcome(ApplyNext(n), []));
  }

  lemma ApplyIs(f: Fixes, n: Node, id: ServerId)
    requires CanApply(n)
    ensures React(f, NAMED, n, Apply(id)) == Outcome(ApplyNext(n), [])
  {
  }

  /** All of it, for x or for y. */
  lemma {:induction false} Reigns(f: Fixes, run: seq<Event>, c: Cluster, id: ServerId, term: nat, command: Bytes)
    returns (run': seq<Event>, c': Cluster)
    requires CountsBlindly(f) && c == Run(f, NAMED, run) && id in {"x", "y"} && Scene(c, id, term)
    requires Voter(c.nodes["0"], term) && Third(c.nodes[Other(id)], term + 2)
    ensures c' == Run(f, NAMED, run') && c'.nodes.Keys == c.nodes.Keys && c.history.applied <= c'.history.applied
    ensures forall s :: s in c'.nodes ==> c'.nodes[s].id == s
    ensures Applied(id, 1, command) in c'.history.applied
    ensures Voter(c'.nodes["0"], term + 2)
    ensures Third(c'.nodes[id], term + 3)
    ensures Blank(c.nodes[Other(id)], Other(id), 0) ==> Blank(c'.nodes[Other(id)], Other(id), term + 2)
  {
    hide Run, Office;
    var commitIndex := c.nodes[Other(id)].commitIndex;
    run', c' := ElectedTwice(f, run, c, id, term);
    run', c' := Overcounts(f, run', c', id, term + 2);
    run', c' := AppliesAlone(f, run', c', id, term + 2, command, commitIndex);
  }

  /** x applies its command at index 1 and y, elected later, its own. */
  lemma {:induction false} AppliesTwoCommands(f: Fixes) returns (run: seq<Event>)
    requires CountsBlindly(f)
    ensures var c := Run(f, NAMED, run); c.history.applied != {} && !StateMachineSafe(c)
  {
    hide Run, Office;
    var c;
    run, c := Begins(f);
    run, c := Reigns(f, run, c, "x", 0, [1]);
    run, c := Reigns(f, run, c, "y", 2, [2]);
    var a, b := Applied("x", 1, [1]), Applied("y", 1, [2]);
    assert a.command[0] != b.command[0];
    assert a in c.history.applied && b in c.history.applied;
  }

  lemma Begins(f: Fixes) returns (run: seq<Event>, c: Cluster)
    ensures c == Run(f, NAMED, run) && Scene(c, "x", 0) && Voter(c.nodes["0"], 0)
    ensures Blank(c.nodes["y"], "y", 0) && Third(c.nodes["y"], 2)
  {
    run, c := [], Start(NAMED);
  }
}
