/** A run of four servers that applies two different commands at index 1 because of the merge
    loop as written: a request delivered twice makes a follower drop entries it has already
    confirmed, and the leader has committed. */
module LostCopies {
  import opened RaftTypes
  import opened Logs
  import opened Medians
  import opened Nodes
  import opened Clusters
  import opened RunSteps
  import opened SafetyRuns
  import Safety

  /** d's entries of its terms 1 and 2. */
  const X := Entry([2], 1, 1)
  const Y := Entry([3], 2, 2)

  /** d's tables as a leader: nextIndex and matchIndex of b and c; a never answers. */
  function Tables(nextB: nat, nextC: nat, matchB: nat, matchC: nat): State {
    Leader(map["a" := Num(2), "b" := Num(nextB), "c" := Num(nextC)],
           Table(["a", "b", "c"], map["a" := 0, "b" := matchB, "c" := matchC]))
  }

  ghost predicate Has(n: Node, term: nat, log: seq<Entry>, commitIndex: nat) {
    n.id == "d" && n.mem.term == term && n.mem.log == log && n.commitIndex == commitIndex && n.lastApplied == 0
  }

  /** b or c, a follower of term 2 with that log. */
  ghost predicate Stores(f: Fixes, n: Node, log: seq<Entry>) {
    && n.mem.term == 2 && n.mem.log == log && n.state.Follower? && n.commitIndex == 0
    && n.disk.term == 2 && (!f.keepsLog ==> n.disk.log == [SENTINEL])
  }

  function AskTwo(v: ServerId): Packet {
    Packet("d", v, RequestVote(2, "d", 1, 1))
  }

  /** The request that b and c must refuse, and the one they accept. */
  function Above(v: ServerId): Packet {
    Packet("d", v, AppendEntries(2, "d", [Y], 1, 1, 0))
  }

  function Whole(v: ServerId): Packet {
    Packet("d", v, AppendEntries(2, "d", [X, Y], 0, 0, 0))
  }

  function Refusal(v: ServerId): Packet {
    Packet(v, "d", AppendResponse(2, v, 0, false, 0))
  }

  function Success(v: ServerId): Packet {
    Packet(v, "d", AppendResponse(2, v, 0, true, 2))
  }

  // ----- what each event does -----

  lemma StandTwo(f: Fixes, n: Node)
    requires Has(n, 1, [SENTINEL, X], 0)
    ensures var o := React(f, FOUR, n, Timeout("d"));
      && Has(o.node, 2, [SENTINEL, X], 0) && o.node.state == Candidate({"d"})
      && AskTwo("b") in o.out && AskTwo("c") in o.out
  {
    hide BecomeLeader;
    PeersOfFour();
    assert !IsMajority(FOUR, {"d"});
    var n1 := PersistForRequest(f, n.(mem := Stable(2, Some("d"), [SENTINEL, X]), state := Candidate({"d"})));
    var asks := VoteRequests(FOUR, n1);
    assert asks[1] == AskTwo("b") && asks[2] == AskTwo("c");
  }

  lemma GrantTwo(f: Fixes, n: Node)
    requires Follows(f, n, 1) && n.mem.log == [SENTINEL] && n.commitIndex == 0
    ensures var o := React(f, FOUR, n, Deliver(AskTwo(n.id)));
      o.node.id == n.id && Stores(f, o.node, [SENTINEL]) && Yes(n.id, "d", 2) in o.out
  {
    var o := React(f, FOUR, n, Deliver(AskTwo(n.id)));
    assert o.out[0] == Yes(n.id, "d", 2);
  }

  lemma FreshTables(keys: seq<ServerId>)
    requires keys == ["a", "b", "c"]
    ensures Leader(map k | k in keys :: Num(2), FreshTable(keys)) == Tables(2, 2, 0, 0)
  {
    assert (map k | k in keys :: Num(2)) == map["a" := Num(2), "b" := Num(2), "c" := Num(2)];
    assert FreshTable(keys) == Table(keys, map["a" := 0, "b" := 0, "c" := 0]);
  }

  lemma OfficeTwo(f: Fixes, n: Node)
    requires Replicating(f) && Has(n, 2, [SENTINEL, X], 0)
    ensures var n' := BecomeLeader(f, FOUR, n).node; Has(n', 2, [SENTINEL, X], 0) && n'.state == Tables(2, 2, 0, 0)
  {
    hide SendAppendEntries, Tables, Peers, FreshTable;
    PeersOfFour();
    FreshTables(["a", "b", "c"]);
    TablesLead(2, 2, 0, 0);
    Safety.SendGains(f, FOUR, n.(state := Tables(2, 2, 0, 0)));
  }

  lemma TablesLead(nextB: nat, nextC: nat, matchB: nat, matchC: nat)
    ensures Tables(nextB, nextC, matchB, matchC).Leader?
  {
  }

  lemma LeadTwo(f: Fixes, n: Node)
    requires Replicating(f) && Has(n, 2, [SENTINEL, X], 0) && n.state == Candidate({"d", "b"})
    ensures var o := React(f, FOUR, n, Deliver(Yes("c", "d", 2)));
      Has(o.node, 2, [SENTINEL, X], 0) && o.node.state == Tables(2, 2, 0, 0)
  {
    hide BecomeLeader;
    assert |{"d", "b"} + {"c"}| == 3;
    OfficeTwo(f, n.(state := Candidate({"d", "b"} + {"c"})));
  }

  lemma RequestTwo(f: Fixes, n: Node)
    requires Replicating(f) && Has(n, 2, [SENTINEL, X], 0) && n.state == Tables(2, 2, 0, 0)
    ensures var o := React(f, FOUR, n, Request("d", [3]));
      && Has(o.node, 2, [SENTINEL, X, Y], 0) && o.node.state == n.state && Above("b") in o.out && Above("c") in o.out
  {
    PeersOfFour();
    var log := [SENTINEL, X, Y];
    assert [SENTINEL, X] + [Y] == log && log[2..] == [Y];
    var out := SendAppendEntries(f, FOUR, n.(mem := n.mem.(log := log))).out;
    assert out[1] == Above("b") && out[2] == Above("c");
  }

  lemma Refuses(f: Fixes, n: Node)
    requires Stores(f, n, [SENTINEL])
    ensures var o := React(f, FOUR, n, Deliver(Above(n.id)));
      o.node.id == n.id && Stores(f, o.node, [SENTINEL]) && Refusal(n.id) in o.out
  {
    var o := React(f, FOUR, n, Deliver(Above(n.id)));
    assert o.out[0] == Refusal(n.id);
  }

  lemma MedianOfThree(y: nat, z: nat)
    requires (y == 0 && z == 0) || (y == 2 && z == 0) || (y == 2 && z == 2)
    ensures Median(true, [0, y, z]) == if z == 2 then 2 else 0
  {
    assert [0, y, z][1..] == [y, z] && [y, z][1..] == [z] && [z][1..] == [];
    assert Sort(true, [z]) == [z];
    assert Sort(true, [y, z]) == Insert(true, y, [z]) == [z, y];
    assert Sort(true, [0, y, z]) == Insert(true, 0, [z, y]) == [0, z, y];
  }

  lemma Lowers(f: Fixes, n: Node, v: ServerId)
    requires Replicating(f) && Has(n, 2, [SENTINEL, X, Y], 0)
    requires (v == "b" && n.state == Tables(2, 2, 0, 0)) || (v == "c" && n.state == Tables(1, 2, 0, 0))
    ensures var o := React(f, FOUR, n, Deliver(Refusal(v)));
      Has(o.node, 2, [SENTINEL, X, Y], 0) && o.node.state == if v == "b" then Tables(1, 2, 0, 0) else Tables(1, 1, 0, 0)
  {
    hide Median;
    MedianOfThree(0, 0);
    assert Values(n.state.matchIndex) == [0, 0, 0];
    assert map["a" := Num(2), "b" := Num(2), "c" := Num(2)]["b" := Num(1)] == map["a" := Num(2), "b" := Num(1),
        "c" := Num(2)];
    assert map["a" := Num(2), "b" := Num(1), "c" := Num(2)]["c" := Num(1)] == map["a" := Num(2), "b" := Num(1),
        "c" := Num(1)];
  }

  lemma Beats(f: Fixes, n: Node)
    requires Replicating(f) && Has(n, 2, [SENTINEL, X, Y], 0) && n.state == Tables(1, 1, 0, 0)
    ensures n.state.Leader?
    ensures var o := React(f, FOUR, n, Heartbeat("d"));
      o.node == n.(disk := o.node.disk) && Whole("b") in o.out && Whole("c") in o.out
  {
    PeersOfFour();
    assert n.mem.log[1..] == [X, Y];
    var out := SendAppendEntries(f, FOUR, n).out;
    assert out[1] == Whole("b") && out[2] == Whole("c");
  }

  /** First both entries are stored; delivered again, the first is taken for a conflict. */
  lemma StoresThenDrops(f: Fixes, n: Node, log: seq<Entry>)
    requires !f.mergesByPosition && Stores(f, n, log) && (log == [SENTINEL] || log == [SENTINEL, X, Y])
    requires log == [SENTINEL] ==> n.disk.log == [SENTINEL] || f.keepsLog
    ensures var o := React(f, FOUR, n, Deliver(Whole(n.id)));
      && o.node.id == n.id && Success(n.id) in o.out
      && Stores(f, o.node, if log == [SENTINEL] then [SENTINEL, X, Y] else [SENTINEL])
      && (f.keepsLog ==> o.node.disk.log == o.node.mem.log)
  {
    assert [X, Y][..1] == [X] && [X][..0] == [];
    assert Merge(false, log, []) == log;
    if log == [SENTINEL] {
      assert Merge(false, log, [X]) == [SENTINEL] + [X] == [SENTINEL, X];
      assert Merge(false, log, [X, Y]) == [SENTINEL, X] + [Y] == [SENTINEL, X, Y];
    } else {
      assert Merge(false, log, [X]) == log[..1] == [SENTINEL];
      assert Merge(false, log, [X, Y]) == [SENTINEL];
    }
    var o := React(f, FOUR, n, Deliver(Whole(n.id)));
    assert o.out[0] == Success(n.id);
  }

  lemma Updated(f: Fixes, v: ServerId)
    requires Replicating(f) && v in {"b", "c"}
    ensures UpdateIndexes(f, if v == "b" then Tables(1, 1, 0, 0) else Tables(3, 1, 2, 0), Success(v).msg)
         == if v == "b" then Tables(3, 1, 2, 0) else Tables(3, 3, 2, 2)
  {
    assert map["a" := 0, "b" := 0, "c" := 0]["b" := 2] == map["a" := 0, "b" := 2, "c" := 0];
    assert map["a" := Num(2), "b" := Num(1), "c" := Num(1)]["b" := Num(3)] == map["a" := Num(2), "b" := Num(3),
        "c" := Num(1)];
    assert map["a" := 0, "b" := 2, "c" := 0]["c" := 2] == map["a" := 0, "b" := 2, "c" := 2];
    assert map["a" := Num(2), "b" := Num(3), "c" := Num(1)]["c" := Num(3)] == map["a" := Num(2), "b" := Num(3),
        "c" := Num(3)];
  }

  lemma Counts(f: Fixes, n: Node, v: ServerId)
    requires Replicating(f) && Has(n, 2, [SENTINEL, X, Y], 0)
    requires (v == "b" && n.state == Tables(1, 1, 0, 0)) || (v == "c" && n.state == Tables(3, 1, 2, 0))
    ensures var o := React(f, FOUR, n, Deliver(Success(v)));
      if v == "b" then Has(o.node, 2, [SENTINEL, X, Y], 0) && o.node.state == Tables(3, 1, 2, 0)
      else Has(o.node, 2, [SENTINEL, X, Y], 2)
  {
    hide Median, UpdateIndexes;
    Updated(f, v);
    if v == "b" {
      MedianOfThree(2, 0);
      assert Values(Tables(3, 1, 2, 0).matchIndex) == [0, 2, 0];
    } else {
      MedianOfThree(2, 2);
      assert Values(Tables(3, 3, 2, 2).matchIndex) == [0, 2, 2];
    }
  }

  // ----- the run -----

  /** What does not concern the two that act. */
  ghost predicate Others(f: Fixes, c: Cluster, logB: seq<Entry>, logC: seq<Entry>) {
    && Bench(c, "a") && Blank(c.nodes["a"], "a", 0)
    && Stores(f, c.nodes["b"], logB) && Stores(f, c.nodes["c"], logC)
  }

  /** d is elected in term 1. */
  lemma Starts(f: Fixes) returns (run: seq<Event>, c: Cluster)
    requires Replicating(f)
    ensures c == Run(f, FOUR, run) && Bench(c, "a") && Blank(c.nodes["a"], "a", 0) && Leads(c.nodes["d"], "d", 1)
    ensures forall v :: v in {"b", "c"} ==>
        Follows(f, c.nodes[v], 1) && c.nodes[v].mem.log == [SENTINEL] && c.nodes[v].commitIndex == 0
  {
    hide Run, Replicating, Follows, Ready, Leads, Stands, Blank;
    run, c := Begins(f);
    run, c := Standing(f, run, c, "d", 0);
    run, c := BothGrant(f, run, c, "d", 1);
    run, c := Wins(f, run, c, "d", 1, 1);
  }

  lemma LeadsIs(n: Node, id: ServerId, term: nat)
    requires Leads(n, id, term)
    ensures n.id == id && n.mem.term == term && n.mem.log == [SENTINEL] && n.state == Elected(id)
    ensures n.commitIndex == 0 && n.lastApplied == 0
  {
  }

  /** It appends an entry nobody else gets, and stands again. */
  lemma StandsAgain(f: Fixes) returns (run: seq<Event>, c: Cluster)
    requires Replicating(f)
    ensures c == Run(f, FOUR, run) && Bench(c, "a") && Blank(c.nodes["a"], "a", 0)
    ensures Has(c.nodes["d"], 2, [SENTINEL, X], 0) && c.nodes["d"].state == Candidate({"d"})
    ensures forall v :: v in {"b", "c"} ==>
      Follows(f, c.nodes[v], 1) && c.nodes[v].mem.log == [SENTINEL] && c.nodes[v].commitIndex == 0 &&
          AskTwo(v) in c.network
  {
    hide Run, React, Record, Replicating, Follows, Elected, Blank;
    run, c := Starts(f);
    LeadsIs(c.nodes["d"], "d", 1);
    RequestReaction(f, c.nodes["d"], [2]);
    run, c := Turn(f, FOUR, run, c, Request("d", [2]), React(f, FOUR, c.nodes["d"], Request("d", [2])));
    StandTwo(f, c.nodes["d"]);
    run, c := Turn(f, FOUR, run, c, Timeout("d"), React(f, FOUR, c.nodes["d"], Timeout("d")));
  }

  /** b and c elect it in term 2. */
  lemma LeadsAgain(f: Fixes) returns (run: seq<Event>, c: Cluster)
    requires Replicating(f)
    ensures c == Run(f, FOUR, run) && Others(f, c, [SENTINEL], [SENTINEL])
    ensures Has(c.nodes["d"], 2, [SENTINEL, X], 0) && c.nodes["d"].state == Tables(2, 2, 0, 0)
  {
    hide Run, React, Record, Replicating, Follows, Blank, Stores, Tables;
    run, c := StandsAgain(f);
    GrantTwo(f, c.nodes["b"]);
    run, c := Turn(f, FOUR, run, c, Deliver(AskTwo("b")), React(f, FOUR, c.nodes["b"], Deliver(AskTwo("b"))));
    GrantTwo(f, c.nodes["c"]);
    run, c := Turn(f, FOUR, run, c, Deliver(AskTwo("c")), React(f, FOUR, c.nodes["c"], Deliver(AskTwo("c"))));
    CountReaction(f, c.nodes["d"], "b", 2);
    run, c := Turn(f, FOUR, run, c, Deliver(Yes("b", "d", 2)), React(f, FOUR, c.nodes["d"], Deliver(Yes("b", "d", 2))));
    LeadTwo(f, c.nodes["d"]);
    run, c := Turn(f, FOUR, run, c, Deliver(Yes("c", "d", 2)), React(f, FOUR, c.nodes["d"], Deliver(Yes("c", "d", 2))));
  }

  /** They refuse its second entry, since they lack the first. */
  lemma Probes(f: Fixes) returns (run: seq<Event>, c: Cluster)
    requires Replicating(f)
    ensures c == Run(f, FOUR, run) && Others(f, c, [SENTINEL], [SENTINEL])
    ensures Has(c.nodes["d"], 2, [SENTINEL, X, Y], 0) && c.nodes["d"].state == Tables(1, 1, 0, 0)
  {
    hide Run, React, Record, Replicating, Blank, Stores, Tables;
    run, c := LeadsAgain(f);
    RequestTwo(f, c.nodes["d"]);
    run, c := Turn(f, FOUR, run, c, Request("d", [3]), React(f, FOUR, c.nodes["d"], Request("d", [3])));
    Refuses(f, c.nodes["b"]);
    run, c := Turn(f, FOUR, run, c, Deliver(Above("b")), React(f, FOUR, c.nodes["b"], Deliver(Above("b"))));
    Refuses(f, c.nodes["c"]);
    run, c := Turn(f, FOUR, run, c, Deliver(Above("c")), React(f, FOUR, c.nodes["c"], Deliver(Above("c"))));
    Lowers(f, c.nodes["d"], "b");
    run, c := Turn(f, FOUR, run, c, Deliver(Refusal("b")), React(f, FOUR, c.nodes["d"], Deliver(Refusal("b"))));
    Lowers(f, c.nodes["d"], "c");
    run, c := Turn(f, FOUR, run, c, Deliver(Refusal("c")), React(f, FOUR, c.nodes["d"], Deliver(Refusal("c"))));
  }

  /** A follower gets the whole log twice. */
  lemma Twice(f: Fixes, run: seq<Event>, c: Cluster, v: ServerId) returns (run': seq<Event>, c': Cluster)
    requires !f.mergesByPosition && c == Run(f, FOUR, run) && Bench(c, "a") && v in {"b", "c"}
    requires Stores(f, c.nodes[v], [SENTINEL]) && Whole(v) in c.network
    ensures c' == Run(f, FOUR, run') && Moved(c, c', v) && Bench(c', "a")
    ensures Stores(f, c'.nodes[v], [SENTINEL]) && Success(v) in c'.network
    ensures c'.nodes[v].disk.log == [SENTINEL]
  {
    hide Run, React, Record;
    var e := Deliver(Whole(v));
    StoresThenDrops(f, c.nodes[v], [SENTINEL]);
    run', c' := Turn(f, FOUR, run, c, e, React(f, FOUR, c.nodes[v], e));
    StoresThenDrops(f, c'.nodes[v], [SENTINEL, X, Y]);
    run', c' := Turn(f, FOUR, run', c', e, React(f, FOUR, c'.nodes[v], e));
  }

  /** Both confirm both entries, and keep neither. */
  lemma Confirms(f: Fixes) returns (run: seq<Event>, c: Cluster)
    requires Replicating(f) && !f.mergesByPosition
    ensures c == Run(f, FOUR, run) && Others(f, c, [SENTINEL], [SENTINEL])
    ensures Has(c.nodes["d"], 2, [SENTINEL, X, Y], 0) && c.nodes["d"].state == Tables(1, 1, 0, 0)
    ensures forall v :: v in {"b", "c"} ==> c.nodes[v].disk.log == [SENTINEL] && Success(v) in c.network
  {
    hide Run, React, Record, Replicating, Blank, Stores, Tables;
    run, c := Probes(f);
    Beats(f, c.nodes["d"]);
    run, c := Turn(f, FOUR, run, c, Heartbeat("d"), React(f, FOUR, c.nodes["d"], Heartbeat("d")));
    run, c := Twice(f, run, c, "b");
    run, c := Twice(f, run, c, "c");
  }

  /** d commits both entries and applies the first, which only d still has. */
  lemma AppliesAlone(f: Fixes) returns (run: seq<Event>, c: Cluster)
    requires Replicating(f) && !f.mergesByPosition
    ensures c == Run(f, FOUR, run) && Others(f, c, [SENTINEL], [SENTINEL]) && Applied("d", 1, [2]) in c.history.applied
    ensures forall v :: v in {"b", "c"} ==> c.nodes[v].disk.log == [SENTINEL]
  {
    hide Run, React, Record, Replicating, Blank, Stores, Tables;
    run, c := Confirms(f);
    Counts(f, c.nodes["d"], "b");
    run, c := Turn(f, FOUR, run, c, Deliver(Success("b")), React(f, FOUR, c.nodes["d"], Deliver(Success("b"))));
    Counts(f, c.nodes["d"], "c");
    run, c := Turn(f, FOUR, run, c, Deliver(Success("c")), React(f, FOUR, c.nodes["d"], Deliver(Success("c"))));
    var n, h := c.nodes["d"], c.history;
    ApplyIs(f, n, "d");
    run, c := Turn(f, FOUR, run, c, Apply("d"), Outcome(ApplyNext(n), []));
    RecordAddsApplied(h, n, Apply("d"), Outcome(ApplyNext(n), []));
  }

  lemma StoresReady(f: Fixes, n: Node)
    requires Stores(f, n, [SENTINEL]) && n.disk.log == [SENTINEL]
    ensures Ready(f, n, 3)
  {
  }

  /** b and c elect a, which never had an entry, and it applies its own. */
  lemma WithoutMergeByPosition(f: Fixes) returns (run: seq<Event>, c: Cluster)
    requires Replicating(f) && !f.mergesByPosition
    ensures c == Run(f, FOUR, run) && Contradicts(c)
  {
    hide Run, Replicating, Blank, Stands, Leads, Stores, Ready, Follows;
    run, c := AppliesAlone(f);
    StoresReady(f, c.nodes["b"]);
    StoresReady(f, c.nodes["c"]);
    run, c := Standing(f, run, c, "a", 0);
    StandsId(c.nodes["a"], "a", 1);
    run, c := Standing(f, run, c, "a", 1);
    StandsId(c.nodes["a"], "a", 2);
    run, c := Standing(f, run, c, "a", 2);
    run, c := BothGrant(f, run, c, "a", 3);
    run, c := Wins(f, run, c, "a", 3, 3);
    run, c := Applies(f, run, c, "a", 3, [1]);
  }
}
