/** Where nothing is written before requests, writing the log is what breaks Log Matching: a crash
    after the log and before the term leaves entries of a term the server has forgotten, and it
    votes once more in that term. Every handler here runs alone, and no write fails. */
module KeptConflict {
  import opened RaftTypes
  import opened Logs
  import opened Nodes
  import opened Clusters
  import opened RunSteps
  import opened Awaits
  import opened AwaitRuns
  import Election
  import ElectionRuns

  const THREE: seq<ServerId> := ElectionRuns.THREE

  // ----- what each event does -----

  predicate Unwritten(f: Fixes) {
    GrantsBind(f) && !f.persistsFirst && f.keepsLog
  }

  function AskWith(id: ServerId, v: ServerId, term: nat, log: seq<Entry>): Packet
    requires |log| > 0
  {
    Packet(id, v, RequestVote(term, id, |log| - 1, LastTerm(log)))
  }

  /** A server that has just stood. */
  function Stood(n: Node): Node {
    n.(mem := Stable(n.mem.term + 1, Some(n.id), n.mem.log), state := Candidate({n.id}))
  }

  lemma StandReaction(f: Fixes, n: Node, v: ServerId)
    requires !f.persistsFirst && n.id in THREE && v in THREE && v != n.id && |n.mem.log| > 0
    ensures var o := React(f, THREE, n, Timeout(n.id));
      o.node == Stood(n) && AskWith(n.id, v, n.mem.term + 1, n.mem.log) in o.out
  {
    hide BecomeLeader;
    assert !IsMajority(THREE, {n.id});
    var peers, m := Peers(THREE, n.id), Stood(n);
    var i :| 0 <= i < |peers| && peers[i] == v;
    assert VoteRequests(THREE, m)[i] == AskWith(n.id, v, n.mem.term + 1, n.mem.log);
  }

  /** A follower that grants, its whole state on disk. */
  function Granted(n: Node, term: nat, x: ServerId): Node {
    var st := Stable(term, Some(x), n.mem.log);
    n.(mem := st, disk := st)
  }

  lemma GrantReaction(f: Fixes, n: Node, p: Packet)
    requires Unwritten(f) && n.state.Follower? && p.dst == n.id && p.msg.RequestVote? && p.msg.term > n.mem.term
    requires p.msg.candidateId == p.src && UpToDate(p.msg.lastLogTerm, p.msg.lastLogIndex, n.mem.log)
    ensures React(f, THREE, n, Deliver(p))
         == Outcome(Granted(n, p.msg.term, p.src), [Yes(n.id, p.src, p.msg.term)])
  {
  }

  /** Two of three votes. */
  lemma WinReaction(f: Fixes, n: Node, v: ServerId)
    requires Unwritten(f) && n.state == Candidate({n.id}) && v != n.id && |n.mem.log| > 0
    ensures var o := React(f, THREE, n, Deliver(Yes(v, n.id, n.mem.term)));
      o.node.state.Leader? && o.node == n.(state := o.node.state)
  {
    assert |{n.id} + {v}| == 2;
  }

  lemma AppendReaction(f: Fixes, n: Node, command: Bytes)
    requires !f.persistsFirst && n.state.Leader?
    ensures React(f, THREE, n, Request(n.id, command)).node
         == n.(mem := n.mem.(log := n.mem.log + [Entry(command, |n.mem.log|, n.mem.term)]))
  {
    hide AppendRequest;
  }

  /** A vote request of a later term is answered, whatever the answer. */
  lemma AnswerReaction(f: Fixes, n: Node, p: Packet)
    requires p.msg.RequestVote? && p.msg.term > n.mem.term
    ensures var o := React(f, THREE, n, Deliver(p));
      o.node.mem.log == n.mem.log && o.node.id == n.id && Waits(f, n, o)
  {
    hide GrantsVote;
  }

  // ----- a crash after the log -----

  /** Back with its log, and the term and vote of before. */
  function Fallen(n: Node): Node {
    Node(n.id, n.disk.(log := n.mem.log), n.disk.(log := n.mem.log), 0, 0, Follower(None))
  }

  /** What is kept of a cluster in which one server moved. */
  ghost predicate Onward(c: Cluster, c': Cluster, s: ServerId) {
    && c'.nodes.Keys == c.nodes.Keys && c.network <= c'.network
    && (forall t :: t in c.nodes && t in c'.nodes && t != s ==> c'.nodes[t] == c.nodes[t])
  }

  /** The answer waits. */
  lemma Answers(p: Policy, moves: seq<Move>, c: Cluster, s: ServerId, packet: Packet)
    returns (moves': seq<Move>, a: Async, m: Node, out: seq<Packet>)
    requires AtRest(THREE, AsyncRun(p, THREE, moves), c) && Election.Placed(THREE, c)
    requires s in c.nodes && packet in c.network && packet.dst == s
    requires packet.msg.RequestVote? && packet.msg.term > c.nodes[s].mem.term
    ensures Steady(moves) ==> Steady(moves')
    ensures a == AsyncRun(p, THREE, moves') && Truthful(a) && a.waiting == Idle(THREE)[s := [Batch(out, 0)]]
    ensures a.cluster.nodes == c.nodes[s := m] && c.network <= a.cluster.network
    ensures m.id == s && m.mem.log == c.nodes[s].mem.log && m.disk == c.nodes[s].disk
  {
    hide AsyncRun, React, Record, Waits, Truthful, Lower;
    var a0, e, n := AsyncRun(p, THREE, moves), Deliver(packet), c.nodes[s];
    var o := React(p.fixes, THREE, n, e);
    AnswerReaction(p.fixes, n, packet);
    HandledState(p, THREE, a0, c, e);
    TakeTruthful(p, THREE, a0, Handle(e));
    AsyncOneMore(p, THREE, moves, Handle(e));
    moves', a, m, out := moves + [Handle(e)], HandleEvent(p, THREE, a0, e), o.node.(disk := n.disk), o.out;
  }

  /** Its log is written. */
  lemma WritesLog(p: Policy, moves: seq<Move>, a: Async, s: ServerId, out: seq<Packet>)
    returns (moves': seq<Move>, a': Async)
    requires a == AsyncRun(p, THREE, moves) && Truthful(a) && a.waiting == Idle(THREE)[s := [Batch(out, 0)]]
    requires s in a.cluster.nodes
    ensures Steady(moves) ==> Steady(moves')
    ensures a' == AsyncRun(p, THREE, moves') && Truthful(a') && a'.waiting == Idle(THREE)[s := [Batch(out, 1)]]
    ensures a'.cluster == SetNode(a.cluster, s, WriteFile(p.fixes, a.cluster.nodes[s], FileAt(p, 0)))
  {
    hide AsyncRun, WriteFile, FileAt, Truthful;
    TruthfulKeys(a);
    moves', a' := NextFile(p, THREE, moves, a, s, out, 0);
    assert a'.waiting == Idle(THREE)[s := [Batch(out, 1)]];
  }

  lemma CrashesNow(p: Policy, moves: seq<Move>, a: Async, s: ServerId, out: seq<Packet>)
    returns (moves': seq<Move>, a': Async)
    requires a == AsyncRun(p, THREE, moves) && Truthful(a) && a.waiting == Idle(THREE)[s := [Batch(out, 1)]]
    requires s in a.cluster.nodes && s in THREE
    ensures Steady(moves) ==> Steady(moves')
    ensures a' == AsyncRun(p, THREE, moves')
    ensures AtRest(THREE, a', SetNode(a.cluster, s, Restart(p.fixes, a.cluster.nodes[s])))
  {
    hide AsyncRun, Restart, Truthful;
    TruthfulKeys(a);
    TakeTruthful(p, THREE, a, Crash(s));
    AsyncOneMore(p, THREE, moves, Crash(s));
    moves', a' := moves + [Crash(s)], Take(p, THREE, a, Crash(s));
    assert a'.waiting == Idle(THREE);
  }

  lemma FallReaction(p: Policy, n: Node, m: Node)
    requires p.fixes.keepsLog && p.fixes.reloadsVote
    requires m.id == n.id && m.mem.log == n.mem.log && m.disk == n.disk
    ensures Restart(p.fixes, WriteFile(p.fixes, m, FileAt(p, 0))) == Fallen(n) && Fallen(n).id == n.id
  {
  }

  lemma SetTwice(c: Cluster, s: ServerId, n: Node, n': Node)
    ensures SetNode(SetNode(c, s, n), s, n') == SetNode(c, s, n')
  {
    assert c.nodes[s := n][s := n'] == c.nodes[s := n'];
  }

  /** A server hears of a later term, its answer's log is written, and it crashes. */
  lemma Falls(p: Policy, moves: seq<Move>, c: Cluster, s: ServerId, packet: Packet)
    returns (moves': seq<Move>, c': Cluster)
    requires Unwritten(p.fixes) && AtRest(THREE, AsyncRun(p, THREE, moves), c) && Election.Placed(THREE, c)
    requires s in c.nodes && packet in c.network && packet.dst == s
    requires packet.msg.RequestVote? && packet.msg.term > c.nodes[s].mem.term
    ensures Steady(moves) ==> Steady(moves')
    ensures AtRest(THREE, AsyncRun(p, THREE, moves'), c') && Election.Placed(THREE, c')
    ensures Onward(c, c', s) && c'.nodes[s] == Fallen(c.nodes[s])
  {
    hide AsyncRun, Truthful, Restart, WriteFile, FileAt, Fallen, AtRest, Idle;
    var a, m, out;
    moves', a, m, out := Answers(p, moves, c, s, packet);
    FallReaction(p, c.nodes[s], m);
    c' := SetNode(a.cluster, s, Fallen(c.nodes[s]));
    SetTwice(a.cluster, s, WriteFile(p.fixes, m, FileAt(p, 0)), Fallen(c.nodes[s]));
    moves', a := WritesLog(p, moves', a, s, out);
    moves', a := CrashesNow(p, moves', a, s, out);
  }

  // ----- elections and entries, in whole steps -----

  /** Nothing waits. */
  ghost predicate Rests(p: Policy, moves: seq<Move>, c: Cluster) {
    AtRest(THREE, AsyncRun(p, THREE, moves), c) && Election.Placed(THREE, c) && Steady(moves)
  }

  lemma Stands(p: Policy, moves: seq<Move>, c: Cluster, id: ServerId) returns (moves': seq<Move>, c': Cluster)
    requires Unwritten(p.fixes) && Rests(p, moves, c) && id in c.nodes && id in THREE && c.nodes[id].id == id
    requires |c.nodes[id].mem.log| > 0
    ensures Rests(p, moves', c') && Onward(c, c', id) && c'.nodes[id] == Stood(c.nodes[id])
    ensures var n := c.nodes[id];
      forall v :: v in THREE && v != id ==> AskWith(id, v, n.mem.term + 1, n.mem.log) in c'.network
  {
    hide AsyncRun, React, Record, AtRest, Election.Placed, Steady, AskWith;
    var n, e := c.nodes[id], Timeout(id);
    var w := if id == "a" then "b" else "a";
    StandReaction(p.fixes, n, w);
    moves', c' := WholeTurn(p, THREE, moves, c, e, React(p.fixes, THREE, n, e));
    forall v | v in THREE && v != id ensures AskWith(id, v, n.mem.term + 1, n.mem.log) in c'.network {
      StandReaction(p.fixes, n, v);
    }
  }

  /** A candidate that one of the other two can vote for. */
  ghost predicate CanElect(n: Node, m: Node) {
    && |n.mem.log| > 0 && m.state.Follower? && m.mem.term <= n.mem.term
    && UpToDate(LastTerm(n.mem.log), |n.mem.log| - 1, m.mem.log)
  }

  ghost predicate Elected(n: Node, n': Node) {
    n'.state.Leader? && n' == Stood(n).(state := n'.state)
  }

  /** id stands, v votes for it, and it leads. */
  lemma Elects(p: Policy, moves: seq<Move>, c: Cluster, id: ServerId, v: ServerId)
    returns (moves': seq<Move>, c': Cluster)
    requires Unwritten(p.fixes) && Rests(p, moves, c) && id in THREE && v in THREE && id != v
    requires id in c.nodes && v in c.nodes && c.nodes[id].id == id && c.nodes[v].id == v
    requires CanElect(c.nodes[id], c.nodes[v])
    ensures Rests(p, moves', c') && c'.nodes.Keys == c.nodes.Keys && c.network <= c'.network
    ensures forall t :: t in c.nodes && t !in {id, v} ==> c'.nodes[t] == c.nodes[t]
    ensures Elected(c.nodes[id], c'.nodes[id])
    ensures c'.nodes[v] == Granted(c.nodes[v], c.nodes[id].mem.term + 1, id)
  {
    hide AsyncRun, React, Record, AtRest, Election.Placed, Steady;
    var n, m := c.nodes[id], c.nodes[v];
    moves', c' := Stands(p, moves, c, id);
    var ask, yes := Deliver(AskWith(id, v, n.mem.term + 1, n.mem.log)), Deliver(Yes(v, id, n.mem.term + 1));
    GrantReaction(p.fixes, m, ask.packet);
    moves', c' := WholeTurn(p, THREE, moves', c', ask, React(p.fixes, THREE, m, ask));
    WinReaction(p.fixes, Stood(n), v);
    moves', c' := WholeTurn(p, THREE, moves', c', yes, React(p.fixes, THREE, Stood(n), yes));
  }

  lemma Appends(p: Policy, moves: seq<Move>, c: Cluster, id: ServerId, command: Bytes)
    returns (moves': seq<Move>, c': Cluster)
    requires Unwritten(p.fixes) && Rests(p, moves, c) && id in c.nodes && c.nodes[id].id == id
    requires c.nodes[id].state.Leader?
    ensures Rests(p, moves', c') && Onward(c, c', id)
    ensures var n := c.nodes[id];
      c'.nodes[id] == n.(mem := n.mem.(log := n.mem.log + [Entry(command, |n.mem.log|, n.mem.term)]))
  {
    hide AsyncRun, React, Record, AtRest, Election.Placed, Steady;
    var e := Request(id, command);
    AppendReaction(p.fixes, c.nodes[id], command);
    moves', c' := WholeTurn(p, THREE, moves, c, e, React(p.fixes, THREE, c.nodes[id], e));
  }

  lemma Falling(p: Policy, moves: seq<Move>, c: Cluster, s: ServerId, packet: Packet)
    returns (moves': seq<Move>, c': Cluster)
    requires Unwritten(p.fixes) && Rests(p, moves, c) && s in c.nodes && packet in c.network && packet.dst == s
    requires packet.msg.RequestVote? && packet.msg.term > c.nodes[s].mem.term
    ensures Rests(p, moves', c') && Onward(c, c', s) && c'.nodes[s] == Fallen(c.nodes[s])
  {
    hide AsyncRun, AtRest, Election.Placed, Steady;
    moves', c' := Falls(p, moves, c, s, packet);
  }

  // ----- the run -----

  const BLANK: Stable := Stable(0, None, [SENTINEL])

  /** A server whose disk is as at first boot. */
  ghost predicate Holds(n: Node, id: ServerId, term: nat, log: seq<Entry>) {
    n.id == id && n.mem.term == term && n.mem.log == log && n.disk == BLANK
  }

  function LogOfA(): seq<Entry> {
    [SENTINEL, Entry([1], 1, 1), Entry([2], 2, 1)]
  }

  function LogOfB(): seq<Entry> {
    [SENTINEL, Entry([3], 1, 2)]
  }

  lemma Begins(p: Policy) returns (moves: seq<Move>, c: Cluster)
    ensures Rests(p, moves, c) && c.nodes.Keys == {"a", "b", "c"} && forall s :: s in c.nodes ==> c.nodes[s] == Boot(s)
  {
    BeginTruthful(p, THREE);
    moves, c := [], Start(THREE);
  }

  /** a leads term 1 and has two entries; c has voted for it. */
  lemma FirstReign(p: Policy) returns (moves: seq<Move>, c: Cluster)
    requires Unwritten(p.fixes)
    ensures Rests(p, moves, c) && c.nodes.Keys == {"a", "b", "c"}
    ensures Holds(c.nodes["a"], "a", 1, LogOfA()) && c.nodes["b"] == Boot("b")
    ensures c.nodes["c"].id == "c" && c.nodes["c"].mem.term == 1 && c.nodes["c"].mem.log == [SENTINEL]
    ensures c.nodes["c"].state.Follower?
  {
    hide AsyncRun, Rests;
    moves, c := Begins(p);
    moves, c := Elects(p, moves, c, "a", "c");
    moves, c := Appends(p, moves, c, "a", [1]);
    moves, c := Appends(p, moves, c, "a", [2]);
    assert [SENTINEL] + [Entry([1], 1, 1)] + [Entry([2], 2, 1)] == LogOfA();
  }

  /** b leads term 2 and has one entry; c, which has voted for it, stands in term 3. */
  lemma SecondReign(p: Policy) returns (moves: seq<Move>, c: Cluster)
    requires Unwritten(p.fixes)
    ensures Rests(p, moves, c) && c.nodes.Keys == {"a", "b", "c"}
    ensures Holds(c.nodes["a"], "a", 1, LogOfA()) && Holds(c.nodes["b"], "b", 2, LogOfB())
    ensures forall v :: v in {"a", "b"} ==> AskWith("c", v, 3, [SENTINEL]) in c.network
  {
    hide AsyncRun, Rests;
    moves, c := FirstReign(p);
    moves, c := Stands(p, moves, c, "b");
    moves, c := Elects(p, moves, c, "b", "c");
    moves, c := Appends(p, moves, c, "b", [3]);
    assert [SENTINEL] + [Entry([3], 1, 2)] == LogOfB();
    moves, c := Stands(p, moves, c, "c");
    assert "a" in THREE && "b" in THREE;
  }

  /** Both have fallen back to term 0 with their logs. */
  lemma BothFallen(p: Policy) returns (moves: seq<Move>, c: Cluster)
    requires Unwritten(p.fixes)
    ensures Rests(p, moves, c) && c.nodes.Keys == {"a", "b", "c"}
    ensures c.nodes["a"].id == "a" && c.nodes["a"].mem == BLANK.(log := LogOfA()) && c.nodes["a"].state.Follower?
    ensures c.nodes["b"].id == "b" && c.nodes["b"].mem == BLANK.(log := LogOfB()) && c.nodes["b"].state.Follower?
  {
    hide AsyncRun, Rests, AskWith;
    moves, c := SecondReign(p);
    AskIs("c", "a", 3);
    AskIs("c", "b", 3);
    moves, c := Falling(p, moves, c, "b", AskWith("c", "b", 3, [SENTINEL]));
    moves, c := Falling(p, moves, c, "a", AskWith("c", "a", 3, [SENTINEL]));
  }

  lemma AskIs(id: ServerId, v: ServerId, term: nat)
    ensures var x := AskWith(id, v, term, [SENTINEL]); x.dst == v && x.msg.RequestVote? && x.msg.term == term
  {
  }

  /** b is elected in term 1 by a, which has led it, and appends an entry of that term at the index
      of a's. */
  lemma {:induction false} LogsDisagree(p: Policy) returns (moves: seq<Move>)
    requires Unwritten(p.fixes)
    ensures Distinct(THREE) && Steady(moves) && !LogsMatch(AsyncRun(p, THREE, moves).cluster)
  {
    hide AsyncRun, Rests, Truthful;
    var c;
    moves, c := BothFallen(p);
    moves, c := Elects(p, moves, c, "b", "a");
    moves, c := Appends(p, moves, c, "b", [4]);
    SameTerm(c, c.nodes["a"].mem.log, c.nodes["b"].mem.log);
    RestsIs(p, moves, c);
  }

  lemma RestsIs(p: Policy, moves: seq<Move>, c: Cluster)
    requires Rests(p, moves, c)
    ensures AsyncRun(p, THREE, moves).cluster == c && Steady(moves) && Distinct(THREE)
  {
  }

  lemma SameTerm(c: Cluster, x: seq<Entry>, y: seq<Entry>)
    requires "a" in c.nodes && "b" in c.nodes && c.nodes["a"].mem.log == x && c.nodes["b"].mem.log == y
    requires x == LogOfA() && y == LogOfB() + [Entry([4], 2, 1)]
    ensures !LogsMatch(c)
  {
    assert x[2].term == 1 == y[2].term;
    assert x[..3][1] != y[..3][1];
  }
}
