/** Runs with two leaders in one term although every handler is right: a handler runs between
    another one's writes, a crash comes between the vote and the term, or a write that failed has
    raised its flag. And so exactly what Election Safety needs of the awaits. */
module AwaitRuns {
  import opened RaftTypes
  import opened Nodes
  import opened Clusters
  import opened RunSteps
  import opened Awaits
  import Election
  import ElectionRuns
  import AwaitSafety

  const SIX: seq<ServerId> := ["a", "b", "c", "d", "e", "f"]

  /** A vote given is stored, read back, and counted in its own term. */
  predicate GrantsBind(f: Fixes) {
    f.recordsGrant && f.reloadsVote && f.countsOwnTerm
  }

  // ----- the beginning, in whole steps -----

  /** A server that has stood for the term and knows nothing else. */
  function Standing(f: Fixes, id: ServerId, term: nat): Node {
    var st := Stable(term, Some(id), [SENTINEL]);
    Node(id, st, if f.persistsFirst then st else Stable(0, None, [SENTINEL]), 0, 0, Candidate({id}))
  }

  ghost predicate Blank(f: Fixes, n: Node, id: ServerId, term: nat) {
    (n == Boot(id) && term == 0) || n == Standing(f, id, term)
  }

  lemma StandReaction(f: Fixes, n: Node, id: ServerId, term: nat, v: ServerId)
    requires Blank(f, n, id, term) && id in SIX && v in SIX && v != id
    ensures var o := React(f, SIX, n, Timeout(id));
      o.node == Standing(f, id, term + 1) && Ask(id, v, term + 1) in o.out
  {
    hide Peers, BecomeLeader;
    assert !IsMajority(SIX, {id});
    AskedOf(f, id, term + 1, v);
  }

  lemma AskedOf(f: Fixes, id: ServerId, term: nat, v: ServerId)
    requires id in SIX && v in SIX && v != id
    ensures Ask(id, v, term) in VoteRequests(SIX, Standing(f, id, term))
  {
    var peers := Peers(SIX, id);
    var i :| 0 <= i < |peers| && peers[i] == v;
    assert VoteRequests(SIX, Standing(f, id, term))[i] == Ask(id, v, term);
  }

  lemma Stands(f: Fixes, run: seq<Event>, c: Cluster, id: ServerId, term: nat) returns (run': seq<Event>, c': Cluster)
    requires c == Run(f, SIX, run) && id in SIX && id in c.nodes && Blank(f, c.nodes[id], id, term)
    ensures c' == Run(f, SIX, run') && Moved(c, c', id) && c'.nodes[id] == Standing(f, id, term + 1)
    ensures forall v :: v in SIX && v != id ==> Ask(id, v, term + 1) in c'.network
  {
    hide Run, React, Record;
    var n := c.nodes[id];
    var o := React(f, SIX, n, Timeout(id));
    var w := if id == "a" then "b" else "a";
    StandReaction(f, n, id, term, w);
    run', c' := Turn(f, SIX, run, c, Timeout(id), o);
    forall v | v in SIX && v != id ensures Ask(id, v, term + 1) in c'.network {
      StandReaction(f, n, id, term, v);
    }
  }

  /** A refusal by d, of term 3. */
  function No(v: ServerId): Packet {
    Packet("d", v, VoteResponse(3, false))
  }

  /** A follower with an empty log: its term and vote, in memory and on disk. */
  function Voter(v: ServerId, term: nat, vote: Option<ServerId>, diskTerm: nat, diskVote: Option<ServerId>): Node {
    Node(v, Stable(term, vote, [SENTINEL]), Stable(diskTerm, diskVote, [SENTINEL]), 0, 0, Follower(None))
  }

  /** Back from its own candidacy in term 3, or having voted in it. */
  function Refuser(f: Fixes): Node {
    var vote := Some(if f.persistsFirst then "d" else "a");
    Voter("d", 3, vote, 3, vote)
  }

  lemma RefuseReaction(f: Fixes, v: ServerId)
    ensures React(f, SIX, Refuser(f), Deliver(Ask(v, "d", 1))) == Outcome(Refuser(f), [No(v)])
  {
  }

  lemma RestartReaction(f: Fixes)
    requires GrantsBind(f)
    ensures f.persistsFirst ==> React(f, SIX, Standing(f, "d", 3), Restarted("d")) == Outcome(Refuser(f), [])
    ensures !f.persistsFirst ==> React(f, SIX, Standing(f, "a", 3), Restarted("a")) == Outcome(Boot("a"), [])
  {
  }

  lemma VoteReaction(f: Fixes)
    requires GrantsBind(f) && !f.persistsFirst
    ensures React(f, SIX, Boot("d"), Deliver(Ask("a", "d", 3))).node == Refuser(f)
  {
  }

  lemma StandsThrice(f: Fixes, run: seq<Event>, c: Cluster, id: ServerId) returns (run': seq<Event>, c': Cluster)
    requires c == Run(f, SIX, run) && id in SIX && id in c.nodes && c.nodes[id] == Boot(id)
    ensures c' == Run(f, SIX, run') && Moved(c, c', id) && c'.nodes[id] == Standing(f, id, 3)
    ensures forall v :: v in SIX && v != id ==> Ask(id, v, 3) in c'.network
  {
    hide Run, React;
    run', c' := Stands(f, run, c, id, 0);
    run', c' := Stands(f, run', c', id, 1);
    run', c' := Stands(f, run', c', id, 2);
  }

  /** d reaches term 3 and is a follower: it stands itself and restarts, or, when a has not written
      its term, votes for a, which restarts and has forgotten. */
  lemma Refuses(f: Fixes, run: seq<Event>, c: Cluster) returns (run': seq<Event>, c': Cluster)
    requires GrantsBind(f) && c == Run(f, SIX, run) && "d" in c.nodes && c.nodes["d"] == Boot("d")
    requires "a" in c.nodes && c.nodes["a"] == Boot("a")
    ensures c' == Run(f, SIX, run') && c'.nodes == c.nodes["d" := Refuser(f)]
  {
    hide Run, React, Standing, Refuser, Boot;
    RestartReaction(f);
    if f.persistsFirst {
      run', c' := StandsThrice(f, run, c, "d");
      RefuserIs(f);
      run', c' := Turn(f, SIX, run', c', Restarted("d"), Outcome(Refuser(f), []));
      assert c'.nodes == c.nodes["d" := Refuser(f)];
    } else {
      run', c' := VotesForThird(f, run, c);
    }
  }

  lemma RefuserIs(f: Fixes)
    ensures Refuser(f).id == "d" && Standing(f, "d", 3).id == "d" && Standing(f, "a", 3).id == "a"
    ensures Boot("a").id == "a" && Boot("d").id == "d"
  {
  }

  lemma VotesForThird(f: Fixes, run: seq<Event>, c: Cluster) returns (run': seq<Event>, c': Cluster)
    requires GrantsBind(f) && !f.persistsFirst && c == Run(f, SIX, run)
    requires "d" in c.nodes && c.nodes["d"] == Boot("d") && "a" in c.nodes && c.nodes["a"] == Boot("a")
    ensures c' == Run(f, SIX, run') && c'.nodes == c.nodes["d" := Refuser(f)]
  {
    hide Run, React, Standing, Refuser, Boot;
    RefuserIs(f);
    RestartReaction(f);
    VoteReaction(f);
    run', c' := StandsThrice(f, run, c, "a");
    assert "d" in SIX;
    var ask := Deliver(Ask("a", "d", 3));
    run', c' := Turn(f, SIX, run', c', ask, React(f, SIX, Boot("d"), ask));
    run', c' := Turn(f, SIX, run', c', Restarted("a"), Outcome(Boot("a"), []));
    assert c'.nodes == c.nodes["d" := Refuser(f)];
  }

  /** The refuser answers a voter. */
  lemma Told(f: Fixes, run: seq<Event>, c: Cluster, v: ServerId) returns (run': seq<Event>, c': Cluster)
    requires c == Run(f, SIX, run) && "d" in c.nodes && c.nodes["d"] == Refuser(f) && Ask(v, "d", 1) in c.network
    ensures c' == Run(f, SIX, run') && Moved(c, c', "d") && c'.nodes == c.nodes && No(v) in c'.network
  {
    hide Run, React;
    RefuseReaction(f, v);
    run', c' := Turn(f, SIX, run, c, Deliver(Ask(v, "d", 1)), Outcome(Refuser(f), [No(v)]));
    assert No(v) in [No(v)];
    assert c'.nodes == c.nodes;
  }

  /** A voter stands in term 1 and is told of term 3. */
  lemma Warned(f: Fixes, run: seq<Event>, c: Cluster, v: ServerId) returns (run': seq<Event>, c': Cluster)
    requires GrantsBind(f) && c == Run(f, SIX, run) && c.nodes.Keys == Members(SIX) && v in {"c", "e", "f"}
    requires c.nodes["d"] == Refuser(f) && c.nodes[v] == Boot(v)
    ensures c' == Run(f, SIX, run') && Moved(c, c', v) && c'.nodes[v] == Standing(f, v, 1) && No(v) in c'.network
  {
    hide Run, Standing, Refuser, Boot;
    assert v in SIX && "d" in SIX && "d" in Members(SIX);
    assert Blank(f, c.nodes[v], v, 0);
    run', c' := Stands(f, run, c, v, 0);
    run', c' := Told(f, run', c', v);
  }

  /** Two candidates of term 2, and three voters that have heard of neither. */
  ghost predicate Contest(f: Fixes, c: Cluster) {
    && c.nodes.Keys == Members(SIX)
    && c.nodes["a"] == Standing(f, "a", 2) && c.nodes["b"] == Standing(f, "b", 2)
    && (forall v :: v in {"c", "e", "f"} ==>
          && c.nodes[v] == Standing(f, v, 1)
          && Ask("a", v, 2) in c.network && Ask("b", v, 2) in c.network && No(v) in c.network)
    && c.nodes["d"] == Refuser(f)
  }

  lemma RefuserReady(f: Fixes) returns (run: seq<Event>, c: Cluster)
    requires GrantsBind(f)
    ensures c == Run(f, SIX, run) && c.nodes.Keys == Members(SIX) && c.nodes["d"] == Refuser(f)
    ensures forall s :: s in c.nodes && s != "d" ==> c.nodes[s] == Boot(s)
  {
    hide Run, Refuser, Boot;
    run, c := Begins(f);
    assert "d" in Members(SIX);
    run, c := Refuses(f, run, c);
  }

  /** The voters have been told. */
  lemma AllWarned(f: Fixes) returns (run: seq<Event>, c: Cluster)
    requires GrantsBind(f)
    ensures c == Run(f, SIX, run) && c.nodes.Keys == Members(SIX) && c.nodes["a"] == Boot("a")
    ensures c.nodes["b"] == Boot("b")
    ensures forall v :: v in {"c", "e", "f"} ==> c.nodes[v] == Standing(f, v, 1) && No(v) in c.network
    ensures c.nodes["d"] == Refuser(f)
  {
    hide Run, Standing, Refuser, Boot, No;
    run, c := RefuserReady(f);
    SixMembers();
    run, c := Warned(f, run, c, "c");
    run, c := Warned(f, run, c, "e");
    run, c := Warned(f, run, c, "f");
  }

  lemma SixMembers()
    ensures Members(SIX) == {"a", "b", "c", "d", "e", "f"}
  {
  }

  lemma StandsTwice(f: Fixes, run: seq<Event>, c: Cluster, id: ServerId) returns (run': seq<Event>, c': Cluster)
    requires c == Run(f, SIX, run) && id in {"a", "b"} && id in c.nodes && c.nodes[id] == Boot(id)
    ensures c' == Run(f, SIX, run') && Moved(c, c', id) && c'.nodes[id] == Standing(f, id, 2)
    ensures forall v :: v in {"c", "e", "f"} ==> Ask(id, v, 2) in c'.network
  {
    hide Run, Standing;
    run', c' := Stands(f, run, c, id, 0);
    run', c' := Stands(f, run', c', id, 1);
    forall v | v in {"c", "e", "f"} ensures Ask(id, v, 2) in c'.network {
      assert v in SIX && v != id;
    }
  }

  lemma Contests(f: Fixes) returns (run: seq<Event>, c: Cluster)
    requires GrantsBind(f)
    ensures c == Run(f, SIX, run) && Contest(f, c)
  {
    hide Run, Standing, Boot, Refuser;
    run, c := AllWarned(f);
    run, c := StandsTwice(f, run, c, "a");
    run, c := StandsTwice(f, run, c, "b");
  }

  lemma Begins(f: Fixes) returns (run: seq<Event>, c: Cluster)
    ensures c == Run(f, SIX, run) && c.nodes.Keys == Members(SIX)
    ensures forall s :: s in c.nodes ==> c.nodes[s] == Boot(s)
  {
    run, c := [], Start(SIX);
  }

  // ----- single moves -----

  /** Only one server moved; packets and wins are only added. */
  ghost predicate Only(a: Async, a': Async, v: ServerId) {
    && a'.cluster.nodes.Keys == a.cluster.nodes.Keys && a'.waiting.Keys == a.waiting.Keys
    && a'.inSync.Keys == a.inSync.Keys
    && (forall s :: s in a.cluster.nodes && s in a'.cluster.nodes && s != v ==>
        a'.cluster.nodes[s] == a.cluster.nodes[s])
    && (forall s :: s in a.waiting && s in a'.waiting && s != v ==> a'.waiting[s] == a.waiting[s])
    && (forall s :: s in a.inSync && s in a'.inSync && s != v ==> a'.inSync[s] == a.inSync[s])
    && a.cluster.network <= a'.cluster.network && a.cluster.history.wins.Keys <= a'.cluster.history.wins.Keys
  }

  lemma OnlyTwice(a: Async, b: Async, c: Async, v: ServerId)
    requires Only(a, b, v) && Only(b, c, v)
    ensures Only(a, c, v) && b.cluster.network <= c.cluster.network
  {
  }

  lemma OnlyGrows(a: Async, b: Async, v: ServerId)
    requires Only(a, b, v)
    ensures a.cluster.network <= b.cluster.network
  {
  }

  ghost predicate Holds(a: Async, v: ServerId, n: Node, waiting: seq<Batch>) {
    && v in a.cluster.nodes && a.cluster.nodes[v] == n && n.id == v && v in a.waiting && a.waiting[v] == waiting
    && v in a.inSync
  }

  /** And its flags tell the truth. */
  ghost predicate At(a: Async, v: ServerId, n: Node, waiting: seq<Batch>) {
    Holds(a, v, n, waiting) && InSync(n, a.inSync[v])
  }

  lemma RecordAddsWins(h: History, n: Node, e: Event, o: Outcome)
    requires e.Apply? ==> CanApply(n)
    ensures h.wins.Keys <= Record(h, n, e, o).wins.Keys
  {
  }

  lemma Handles(p: Policy, moves: seq<Move>, a: Async, v: ServerId, n: Node, waiting: seq<Batch>, packet: Packet,
                o: Outcome)
    returns (moves': seq<Move>, a': Async)
    requires a == AsyncRun(p, SIX, moves) && Holds(a, v, n, waiting) && packet in a.cluster.network && packet.dst == v
    requires p.serial ==> waiting == []
    requires o == React(p.fixes, SIX, n, Deliver(packet)) && o.node.id == v
    ensures Steady(moves) ==> Steady(moves')
    ensures a' == AsyncRun(p, SIX, moves') && Only(a, a', v)
    ensures Holds(a', v, o.node.(disk := n.disk), if Waits(p.fixes, n, o) then waiting + [Batch(o.out, 0)] else waiting)
    ensures a'.inSync[v] == Lower(p.fixes, n, o, a.inSync[v])
    ensures InSync(n, a.inSync[v]) ==> InSync(o.node.(disk := n.disk), a'.inSync[v])
  {
    hide AsyncRun, React, Record, Waits, SetsVote;
    AsyncOneMore(p, SIX, moves, Handle(Deliver(packet)));
    RecordAddsWins(a.cluster.history, n, Deliver(packet), o);
    UnsetVote(p.fixes, SIX, n, Deliver(packet));
    moves', a' := moves + [Handle(Deliver(packet))], HandleEvent(p, SIX, a, Deliver(packet));
  }

  lemma Writes(p: Policy, moves: seq<Move>, a: Async, v: ServerId, n: Node, b: Batch)
    returns (moves': seq<Move>, a': Async)
    requires a == AsyncRun(p, SIX, moves) && Holds(a, v, n, [b]) && b.files < 3
    ensures Steady(moves) ==> Steady(moves')
    ensures a' == AsyncRun(p, SIX, moves') && Only(a, a', v)
    ensures var file := FileAt(p, b.files);
      var skips := Skips(a.inSync[v], file);
      && Holds(a', v, if skips then n else WriteFile(p.fixes, n, file), [Batch(b.out, b.files + 1)])
      && a'.inSync[v] == if skips then a.inSync[v] else Raise(a.inSync[v], file)
    ensures InSync(n, a.inSync[v]) ==> At(a', v, WriteFile(p.fixes, n, FileAt(p, b.files)), [Batch(b.out, b.files + 1)])
  {
    hide AsyncRun;
    AsyncOneMore(p, SIX, moves, Write(v, 0));
    assert [b][0 := Batch(b.out, b.files + 1)] == [Batch(b.out, b.files + 1)];
    moves', a' := moves + [Write(v, 0)], Take(p, SIX, a, Write(v, 0));
  }

  lemma Leaves(p: Policy, moves: seq<Move>, a: Async, v: ServerId, n: Node, out: seq<Packet>)
    returns (moves': seq<Move>, a': Async)
    requires a == AsyncRun(p, SIX, moves) && Holds(a, v, n, [Batch(out, 3)])
    ensures Steady(moves) ==> Steady(moves')
    ensures a' == AsyncRun(p, SIX, moves') && Only(a, a', v) && Holds(a', v, n, []) && a'.inSync[v] == a.inSync[v]
    ensures forall x :: x in out ==> x in a'.cluster.network
  {
    hide AsyncRun;
    AsyncOneMore(p, SIX, moves, Send(v, 0));
    assert Without([Batch(out, 3)], 0) == [];
    moves', a' := moves + [Send(v, 0)], Take(p, SIX, a, Send(v, 0));
  }

  /** A failed write of the term raises its flag all the same. */
  lemma FailsTerm(p: Policy, moves: seq<Move>, a: Async, v: ServerId, n: Node, out: seq<Packet>)
    returns (moves': seq<Move>, a': Async)
    requires !p.checked && p.termFirst && a == AsyncRun(p, SIX, moves) && Holds(a, v, n, [Batch(out, 1)])
    requires a.inSync[v] == Flags(false, false)
    ensures a' == AsyncRun(p, SIX, moves') && Only(a, a', v)
    ensures Holds(a', v, n, []) && a'.inSync[v] == Flags(true, false)
  {
    hide AsyncRun;
    AsyncOneMore(p, SIX, moves, Fail(v, 0));
    assert Without([Batch(out, 1)], 0) == [];
    moves', a' := moves + [Fail(v, 0)], Take(p, SIX, a, Fail(v, 0));
  }

  lemma Crashes(p: Policy, moves: seq<Move>, a: Async, v: ServerId, n: Node, waiting: seq<Batch>)
    returns (moves': seq<Move>, a': Async)
    requires a == AsyncRun(p, SIX, moves) && Holds(a, v, n, waiting)
    ensures Steady(moves) ==> Steady(moves')
    ensures a' == AsyncRun(p, SIX, moves') && Only(a, a', v) && At(a', v, Restart(p.fixes, n), [])
  {
    hide AsyncRun;
    AsyncOneMore(p, SIX, moves, Crash(v));
    moves', a' := moves + [Crash(v)], Take(p, SIX, a, Crash(v));
  }

  lemma LeavesAndCrashes(p: Policy, moves: seq<Move>, a: Async, v: ServerId, n: Node, out: seq<Packet>)
    returns (moves': seq<Move>, a': Async)
    requires a == AsyncRun(p, SIX, moves) && Holds(a, v, n, [Batch(out, 3)])
    ensures Steady(moves) ==> Steady(moves')
    ensures a' == AsyncRun(p, SIX, moves') && Only(a, a', v) && At(a', v, Restart(p.fixes, n), [])
    ensures forall x :: x in out ==> x in a'.cluster.network
  {
    hide AsyncRun, Restart, Only, InSync, Steady;
    moves', a' := Leaves(p, moves, a, v, n, out);
    var a1 := a';
    moves', a' := Crashes(p, moves', a', v, n, []);
    OnlyTwice(a, a1, a', v);
  }

  // ----- one voter -----

  /** What a voter that has stood in term 1 has on disk. */
  function First(f: Fixes, v: ServerId): Stable {
    Standing(f, v, 1).disk
  }

  /** Back in that term, with a vote of term 2 beside it. */
  function Back(f: Fixes, v: ServerId): Node {
    Voter(v, First(f, v).term, Some("a"), First(f, v).term, Some("a"))
  }

  /** It will vote in term 2. */
  ghost predicate Free(f: Fixes, n: Node, v: ServerId) {
    n == Standing(f, v, 1) || n == Voter(v, 2, None, 2, None) || n == Back(f, v)
  }

  lemma GrantReaction(f: Fixes, n: Node, v: ServerId, x: ServerId)
    requires GrantsBind(f) && Free(f, n, v)
    ensures var o := React(f, SIX, n, Deliver(Ask(x, v, 2)));
      && o.node.(disk := n.disk) == Voter(v, 2, Some(x), n.disk.term, n.disk.votedFor)
      && o.out == [Yes(v, x, 2)] && Waits(f, n, o)
      && (n.mem.term == 1 ==> Lower(f, n, o, Flags(true, true)) == Flags(false, false))
  {
  }

  /** The same request once more: granted again, the vote stored again, the term let alone. */
  lemma GrantsAgain(f: Fixes, v: ServerId, x: ServerId, diskTerm: nat, diskVote: Option<ServerId>)
    requires GrantsBind(f)
    ensures var n := Voter(v, 2, Some(x), diskTerm, diskVote);
      var o := React(f, SIX, n, Deliver(Ask(x, v, 2)));
      && o.node.(disk := n.disk) == n && o.out == [Yes(v, x, 2)] && Waits(f, n, o)
      && Lower(f, n, o, Flags(true, false)) == Flags(true, false)
  {
  }

  lemma WarnReaction(f: Fixes, v: ServerId, n: Node)
    requires n.mem.term == 2 && n.state == Follower(None) && n.id == v
    ensures var o := React(f, SIX, n, Deliver(No(v)));
      o == Outcome(n.(mem := n.mem.(term := 3, votedFor := None)), []) && !Waits(f, n, o)
  {
  }

  lemma DenyReaction(f: Fixes, v: ServerId, n: Node, x: ServerId)
    requires n.mem.term == 3 && n.state == Follower(None) && n.id == v
    ensures var o := React(f, SIX, n, Deliver(Ask(x, v, 2)));
      o.node.(disk := n.disk) == n && o.out == [Packet(v, x, VoteResponse(3, false))] && Waits(f, n, o)
  {
  }

  lemma WritesOf(p: Policy, v: ServerId, term: nat, vote: Option<ServerId>, diskTerm: nat, diskVote: Option<ServerId>)
    ensures var f, n := p.fixes, Voter(v, term, vote, diskTerm, diskVote);
      && WriteFile(f, n, FileAt(p, 0)) == n
      && WriteFile(f, n, FileAt(p, if p.termFirst then 1 else 2)) == Voter(v, term, vote, term, diskVote)
      && WriteFile(f, n, FileAt(p, if p.termFirst then 2 else 1)) == Voter(v, term, vote, diskTerm, vote)
  {
  }

  /** All three files written in a row. */
  lemma WritesAll(p: Policy, moves: seq<Move>, a: Async, n: Node, out: seq<Packet>)
    returns (moves': seq<Move>, a': Async)
    requires n == Voter(n.id, n.mem.term, n.mem.votedFor, n.disk.term, n.disk.votedFor)
    requires a == AsyncRun(p, SIX, moves) && At(a, n.id, n, [Batch(out, 0)])
    ensures Steady(moves) ==> Steady(moves')
    ensures a' == AsyncRun(p, SIX, moves') && Only(a, a', n.id)
    ensures At(a', n.id, Voter(n.id, n.mem.term, n.mem.votedFor, n.mem.term, n.mem.votedFor), [Batch(out, 3)])
  {
    hide AsyncRun, WriteFile, FileAt, Skips, Raise, Only;
    var v, t, x, dt, dv := n.id, n.mem.term, n.mem.votedFor, n.disk.term, n.disk.votedFor;
    WritesOf(p, v, t, x, dt, dv);
    WritesOf(p, v, t, x, t, dv);
    WritesOf(p, v, t, x, dt, x);
    moves', a' := Writes(p, moves, a, v, n, Batch(out, 0));
    var a1 := a';
    moves', a' := Writes(p, moves', a', v, n, Batch(out, 1));
    var a2 := a';
    OnlyTwice(a, a1, a2, v);
    var half := if p.termFirst then Voter(v, t, x, t, dv) else Voter(v, t, x, dt, x);
    moves', a' := Writes(p, moves', a', v, half, Batch(out, 2));
    OnlyTwice(a, a2, a', v);
  }

  /** A vote given, written and sent with nothing in between. */
  lemma Votes(p: Policy, moves: seq<Move>, a: Async, v: ServerId, n: Node, x: ServerId)
    returns (moves': seq<Move>, a': Async)
    requires GrantsBind(p.fixes) && a == AsyncRun(p, SIX, moves) && At(a, v, n, []) && Free(p.fixes, n, v)
    requires Ask(x, v, 2) in a.cluster.network
    ensures Steady(moves) ==> Steady(moves')
    ensures a' == AsyncRun(p, SIX, moves') && Only(a, a', v)
    ensures At(a', v, Voter(v, 2, Some(x), 2, Some(x)), []) && Yes(v, x, 2) in a'.cluster.network
  {
    hide AsyncRun, React, Waits, Free, Lower;
    GrantReaction(p.fixes, n, v, x);
    var o := React(p.fixes, SIX, n, Deliver(Ask(x, v, 2)));
    moves', a' := Handles(p, moves, a, v, n, [], Ask(x, v, 2), o);
    assert [] + [Batch(o.out, 0)] == [Batch(o.out, 0)];
    moves', a' := WritesAll(p, moves', a', Voter(v, 2, Some(x), n.disk.term, n.disk.votedFor), o.out);
    moves', a' := Leaves(p, moves', a', v, Voter(v, 2, Some(x), 2, Some(x)), o.out);
    assert Yes(v, x, 2) in o.out;
  }

  /** The grant to a is under way: the log is written, term and vote are not. */
  lemma Begun(p: Policy, moves: seq<Move>, a: Async, v: ServerId) returns (moves': seq<Move>, a': Async)
    requires GrantsBind(p.fixes)
    requires a == AsyncRun(p, SIX, moves) && At(a, v, Standing(p.fixes, v, 1), [])
    requires Ask("a", v, 2) in a.cluster.network
    ensures Steady(moves) ==> Steady(moves')
    ensures a' == AsyncRun(p, SIX, moves') && Only(a, a', v) && a'.inSync[v] == Flags(false, false)
    ensures At(a', v, Voter(v, 2, Some("a"), First(p.fixes, v).term, First(p.fixes, v).votedFor),
               [Batch([Yes(v, "a", 2)], 1)])
  {
    hide AsyncRun, React, Waits, WriteFile;
    var n, disk, ask := Standing(p.fixes, v, 1), First(p.fixes, v), Ask("a", v, 2);
    var n1 := Voter(v, 2, Some("a"), disk.term, disk.votedFor);
    GrantReaction(p.fixes, n, v, "a");
    var o := React(p.fixes, SIX, n, Deliver(ask));
    moves', a' := Handles(p, moves, a, v, n, [], ask, o);
    assert [] + [Batch(o.out, 0)] == [Batch(o.out, 0)];
    WritesOf(p, v, 2, Some("a"), disk.term, disk.votedFor);
    moves', a' := Writes(p, moves', a', v, n1, Batch(o.out, 0));
  }

  lemma RestartedVoter(f: Fixes, v: ServerId, term: nat, vote: Option<ServerId>, diskTerm: nat,
                       diskVote: Option<ServerId>)
    requires f.reloadsVote
    ensures Restart(f, Voter(v, term, vote, diskTerm, diskVote)) == Voter(v, diskTerm, diskVote, diskTerm, diskVote)
  {
  }

  /** Then the term is written, a message of term 3 is handled, the vote is written, which is null
      by now, and the grant leaves. */
  lemma ForgetsBetweenWrites(p: Policy, moves: seq<Move>, a: Async, v: ServerId) returns (moves': seq<Move>, a': Async)
    requires GrantsBind(p.fixes) && !p.serial && p.termFirst
    requires a == AsyncRun(p, SIX, moves) && At(a, v, Standing(p.fixes, v, 1), [])
    requires Ask("a", v, 2) in a.cluster.network && No(v) in a.cluster.network
    ensures Steady(moves) ==> Steady(moves')
    ensures a' == AsyncRun(p, SIX, moves') && Only(a, a', v)
    ensures At(a', v, Voter(v, 2, None, 2, None), []) && Yes(v, "a", 2) in a'.cluster.network
  {
    hide AsyncRun, React, Waits, WriteFile, Restart, Lower, FileAt, Skips, Raise, Only;
    moves', a' := Begun(p, moves, a, v);
    var a1 := a';
    OnlyGrows(a, a1, v);
    var out, disk := [Yes(v, "a", 2)], First(p.fixes, v);
    var n2, n3 := Voter(v, 2, Some("a"), 2, disk.votedFor), Voter(v, 3, None, 2, disk.votedFor);
    WritesOf(p, v, 2, Some("a"), disk.term, disk.votedFor);
    moves', a' := Writes(p, moves', a', v, Voter(v, 2, Some("a"), disk.term, disk.votedFor), Batch(out, 1));
    var a2 := a';
    OnlyTwice(a, a1, a2, v);
    WarnReaction(p.fixes, v, n2);
    moves', a' := Handles(p, moves', a', v, n2, [Batch(out, 2)], No(v), Outcome(n3, []));
    var a3 := a';
    OnlyTwice(a, a2, a3, v);
    WritesOf(p, v, 3, None, 2, disk.votedFor);
    moves', a' := Writes(p, moves', a', v, n3, Batch(out, 2));
    var a4 := a';
    OnlyTwice(a, a3, a4, v);
    moves', a' := LeavesAndCrashes(p, moves', a', v, Voter(v, 3, None, 2, None), out);
    OnlyTwice(a, a4, a', v);
    assert Yes(v, "a", 2) in out;
    RestartedVoter(p.fixes, v, 3, None, 2, None);
  }

  /** A refusal of term 3 begins to write and a crash comes. */
  lemma WritesVoteOnly(p: Policy, moves: seq<Move>, a: Async, v: ServerId) returns (moves': seq<Move>, a': Async)
    requires p.fixes.reloadsVote && !p.termFirst && a == AsyncRun(p, SIX, moves)
    requires At(a, v, Voter(v, 3, None, 2, Some("a")), []) && Ask("b", v, 2) in a.cluster.network
    ensures Steady(moves) ==> Steady(moves')
    ensures a' == AsyncRun(p, SIX, moves') && Only(a, a', v) && At(a', v, Voter(v, 2, None, 2, None), [])
  {
    hide AsyncRun, React, Waits, WriteFile, Restart, Lower, FileAt, Skips, Raise, Only;
    var n := Voter(v, 3, None, 2, Some("a"));
    DenyReaction(p.fixes, v, n, "b");
    var o := React(p.fixes, SIX, n, Deliver(Ask("b", v, 2)));
    moves', a' := Handles(p, moves, a, v, n, [], Ask("b", v, 2), o);
    var a1 := a';
    assert [] + [Batch(o.out, 0)] == [Batch(o.out, 0)];
    WritesOf(p, v, 3, None, 2, Some("a"));
    moves', a' := Writes(p, moves', a', v, n, Batch(o.out, 0));
    var a2 := a';
    OnlyTwice(a, a1, a2, v);
    moves', a' := Writes(p, moves', a', v, n, Batch(o.out, 1));
    var a3 := a';
    OnlyTwice(a, a2, a3, v);
    RestartedVoter(p.fixes, v, 3, None, 2, None);
    moves', a' := Crashes(p, moves', a', v, Voter(v, 3, None, 2, None), [Batch(o.out, 2)]);
    OnlyTwice(a, a3, a', v);
  }

  /** With the vote written before the term: after a grant, a message of term 3 clears the vote,
      a refusal starts to write, and a crash comes between vote and term. */
  lemma ForgetsBetweenFiles(p: Policy, moves: seq<Move>, a: Async, v: ServerId) returns (moves': seq<Move>, a': Async)
    requires GrantsBind(p.fixes) && !p.termFirst
    requires a == AsyncRun(p, SIX, moves) && At(a, v, Standing(p.fixes, v, 1), [])
    requires Ask("a", v, 2) in a.cluster.network && Ask("b", v, 2) in a.cluster.network && No(v) in a.cluster.network
    ensures Steady(moves) ==> Steady(moves')
    ensures a' == AsyncRun(p, SIX, moves') && Only(a, a', v)
    ensures At(a', v, Voter(v, 2, None, 2, None), []) && Yes(v, "a", 2) in a'.cluster.network
  {
    hide AsyncRun, React, Waits, WriteFile, Restart, Lower, FileAt, Skips, Raise, Only;
    moves', a' := Votes(p, moves, a, v, Standing(p.fixes, v, 1), "a");
    var a1 := a';
    OnlyGrows(a, a1, v);
    var n1, n2 := Voter(v, 2, Some("a"), 2, Some("a")), Voter(v, 3, None, 2, Some("a"));
    WarnReaction(p.fixes, v, n1);
    moves', a' := Handles(p, moves', a', v, n1, [], No(v), Outcome(n2, []));
    var a2 := a';
    OnlyTwice(a, a1, a2, v);
    moves', a' := WritesVoteOnly(p, moves', a', v);
    OnlyTwice(a, a2, a', v);
  }

  /** The second grant, with the flag of the term up, and a crash after it. */
  lemma Regrants(p: Policy, moves: seq<Move>, a: Async, v: ServerId) returns (moves': seq<Move>, a': Async)
    requires GrantsBind(p.fixes) && p.termFirst && a == AsyncRun(p, SIX, moves)
    requires Holds(a, v, Voter(v, 2, Some("a"), First(p.fixes, v).term, First(p.fixes, v).votedFor), [])
    requires a.inSync[v] == Flags(true, false)
    requires Ask("a", v, 2) in a.cluster.network
    ensures a' == AsyncRun(p, SIX, moves') && Only(a, a', v)
    ensures At(a', v, Back(p.fixes, v), []) && Yes(v, "a", 2) in a'.cluster.network
  {
    hide AsyncRun, React, Waits, WriteFile, Lower, Only, Restart;
    var out, disk, ask := [Yes(v, "a", 2)], First(p.fixes, v), Ask("a", v, 2);
    var n := Voter(v, 2, Some("a"), disk.term, disk.votedFor);
    GrantsAgain(p.fixes, v, "a", disk.term, disk.votedFor);
    moves', a' := Handles(p, moves, a, v, n, [], ask, React(p.fixes, SIX, n, Deliver(ask)));
    var a1 := a';
    assert [] + [Batch(out, 0)] == [Batch(out, 0)];
    WritesOf(p, v, 2, Some("a"), disk.term, disk.votedFor);
    moves', a' := Writes(p, moves', a', v, n, Batch(out, 0));
    var a2 := a';
    OnlyTwice(a, a1, a2, v);
    moves', a' := Writes(p, moves', a', v, n, Batch(out, 1));
    var a3 := a';
    OnlyTwice(a, a2, a3, v);
    moves', a' := Writes(p, moves', a', v, n, Batch(out, 2));
    var a4 := a';
    OnlyTwice(a, a3, a4, v);
    moves', a' := LeavesAndCrashes(p, moves', a', v, Voter(v, 2, Some("a"), disk.term, Some("a")), out);
    OnlyTwice(a, a4, a', v);
    RestartedVoter(p.fixes, v, 2, Some("a"), disk.term, Some("a"));
    assert Yes(v, "a", 2) in out;
  }

  /** With a callback that does not look at the error: the write of the term fails and raises the
      flag, the request comes again, the grant writes the vote beside the old term and leaves. */
  lemma ForgetsAfterFailure(p: Policy, moves: seq<Move>, a: Async, v: ServerId) returns (moves': seq<Move>, a': Async)
    requires GrantsBind(p.fixes) && p.termFirst && !p.checked
    requires a == AsyncRun(p, SIX, moves) && At(a, v, Standing(p.fixes, v, 1), [])
    requires Ask("a", v, 2) in a.cluster.network
    ensures a' == AsyncRun(p, SIX, moves') && Only(a, a', v)
    ensures At(a', v, Back(p.fixes, v), []) && Yes(v, "a", 2) in a'.cluster.network
  {
    hide AsyncRun, React, Waits, WriteFile, Restart, Lower, Only;
    var out, disk := [Yes(v, "a", 2)], First(p.fixes, v);
    var n := Voter(v, 2, Some("a"), disk.term, disk.votedFor);
    moves', a' := Begun(p, moves, a, v);
    var a1 := a';
    OnlyGrows(a, a1, v);
    moves', a' := FailsTerm(p, moves', a', v, n, out);
    var a2 := a';
    OnlyTwice(a, a1, a2, v);
    moves', a' := Regrants(p, moves', a', v);
    OnlyTwice(a, a2, a', v);
  }

  /** It has voted for a and then for b. */
  ghost predicate Voted(a: Async, v: ServerId) {
    && At(a, v, Voter(v, 2, Some("b"), 2, Some("b")), [])
    && Yes(v, "a", 2) in a.cluster.network && Yes(v, "b", 2) in a.cluster.network
  }

  /** A voter that has heard of neither candidate, and can hear of both. */
  ghost predicate Fresh(f: Fixes, a: Async, v: ServerId) {
    At(a, v, Standing(f, v, 1), [])
    && Ask("a", v, 2) in a.cluster.network && Ask("b", v, 2) in a.cluster.network && No(v) in a.cluster.network
  }

  /** In each of the three ways the voter votes twice in term 2; only the last needs a failed write. */
  lemma VotesTwice(p: Policy, moves: seq<Move>, a: Async, v: ServerId) returns (moves': seq<Move>, a': Async)
    requires GrantsBind(p.fixes) && !(p.serial && p.termFirst && p.checked)
    requires a == AsyncRun(p, SIX, moves) && Fresh(p.fixes, a, v)
    ensures Steady(moves) && !(p.serial && p.termFirst) ==> Steady(moves')
    ensures a' == AsyncRun(p, SIX, moves') && Only(a, a', v)
    ensures Voted(a', v)
  {
    hide AsyncRun, At, Only;
    var n := Voter(v, 2, None, 2, None);
    if !p.termFirst {
      moves', a' := ForgetsBetweenFiles(p, moves, a, v);
    } else if !p.serial {
      moves', a' := ForgetsBetweenWrites(p, moves, a, v);
    } else {
      n := Back(p.fixes, v);
      moves', a' := ForgetsAfterFailure(p, moves, a, v);
    }
    var a1 := a';
    OnlyGrows(a, a1, v);
    moves', a' := Votes(p, moves', a', v, n, "b");
    OnlyTwice(a, a1, a', v);
  }

  ghost predicate Candidates(f: Fixes, a: Async) {
    && At(a, "a", Standing(f, "a", 2), []) && At(a, "b", Standing(f, "b", 2), []) && At(a, "d", Refuser(f), [])
    && a.cluster.nodes.Keys == a.waiting.Keys == a.inSync.Keys == Members(SIX)
  }

  lemma StillSo(f: Fixes, a: Async, a': Async, v: ServerId, w: ServerId)
    requires Only(a, a', v) && Candidates(f, a) && v in {"c", "e", "f"} && w != v
    ensures Candidates(f, a') && (Fresh(f, a, w) ==> Fresh(f, a', w)) && (Voted(a, w) ==> Voted(a', w))
  {
  }

  lemma RestAt(a: Async, c: Cluster, s: ServerId)
    requires AtRest(SIX, a, c) && s in SIX && s in c.nodes && c.nodes[s].id == s
    ensures At(a, s, c.nodes[s], [])
  {
  }

  lemma ContestFresh(f: Fixes, a: Async, c: Cluster, v: ServerId)
    requires AtRest(SIX, a, c) && Contest(f, c) && v in {"c", "e", "f"}
    ensures Fresh(f, a, v)
  {
    hide Truthful, Standing, At;
    assert v in SIX && v in c.nodes;
    StandingId(f, v, 1);
    RestAt(a, c, v);
  }

  lemma StandingId(f: Fixes, id: ServerId, term: nat)
    ensures Standing(f, id, term).id == id && Refuser(f).id == "d"
  {
  }

  lemma ContestCandidates(f: Fixes, a: Async, c: Cluster)
    requires AtRest(SIX, a, c) && Contest(f, c)
    ensures Candidates(f, a)
  {
    hide Standing, Refuser, At, Idle, Truthful;
    assert "a" in SIX && "b" in SIX && "d" in SIX;
    StandingId(f, "a", 2);
    StandingId(f, "b", 2);
    RestAt(a, c, "a");
    RestAt(a, c, "b");
    RestAt(a, c, "d");
    TruthfulKeys(a);
  }

  lemma Opens(p: Policy) returns (moves: seq<Move>, a: Async)
    requires GrantsBind(p.fixes)
    ensures a == AsyncRun(p, SIX, moves) && Steady(moves) && Candidates(p.fixes, a)
    ensures Fresh(p.fixes, a, "c") && Fresh(p.fixes, a, "e") && Fresh(p.fixes, a, "f")
  {
    hide AsyncRun, Run, AtRest, Contest, Candidates, Fresh;
    var run, c := Contests(p.fixes);
    assert Distinct(SIX);
    moves := Simulates(p, SIX, run);
    a := AsyncRun(p, SIX, moves);
    ContestCandidates(p.fixes, a, c);
    ContestFresh(p.fixes, a, c, "c");
    ContestFresh(p.fixes, a, c, "e");
    ContestFresh(p.fixes, a, c, "f");
  }

  lemma AllVoteTwice(p: Policy) returns (moves: seq<Move>, a: Async)
    requires GrantsBind(p.fixes) && !(p.serial && p.termFirst && p.checked)
    ensures a == AsyncRun(p, SIX, moves) && (!(p.serial && p.termFirst) ==> Steady(moves)) && Candidates(p.fixes, a)
    ensures Voted(a, "c") && Voted(a, "e") && Voted(a, "f")
  {
    hide AsyncRun, Candidates, At, Standing, Voter, Only, Steady;
    moves, a := Opens(p);
    var a0 := a;
    moves, a := VotesTwice(p, moves, a, "c");
    StillSo(p.fixes, a0, a, "c", "e");
    StillSo(p.fixes, a0, a, "c", "f");
    a0 := a;
    moves, a := VotesTwice(p, moves, a, "e");
    StillSo(p.fixes, a0, a, "e", "c");
    StillSo(p.fixes, a0, a, "e", "f");
    a0 := a;
    moves, a := VotesTwice(p, moves, a, "f");
    StillSo(p.fixes, a0, a, "f", "c");
    StillSo(p.fixes, a0, a, "f", "e");
  }

  // ----- both candidates win, nothing waiting any more -----

  /** One whole step of a cluster in which nothing waits. */
  lemma WholeTurn(p: Policy, servers: seq<ServerId>, moves: seq<Move>, c: Cluster, e: Event, o: Outcome)
    returns (moves': seq<Move>, c': Cluster)
    requires AtRest(servers, AsyncRun(p, servers, moves), c) && Election.Placed(servers, c) && Enabled(c, e)
    requires o == React(p.fixes, servers, c.nodes[Actor(e)], e)
    ensures Steady(moves) ==> Steady(moves')
    ensures AtRest(servers, AsyncRun(p, servers, moves'), c') && Election.Placed(servers, c')
    ensures Moved(c, c', Actor(e)) && c'.nodes[Actor(e)] == o.node && (forall x :: x in o.out ==> x in c'.network)
    ensures c'.history == Record(c.history, c.nodes[Actor(e)], e, o)
  {
    hide AsyncRun, React, Record, CanApply, AtRest;
    EnabledFacts(c, e);
    ReactKeepsId(p.fixes, servers, c.nodes[Actor(e)], e);
    RecordAddsApplied(c.history, c.nodes[Actor(e)], e, o);
    moves' := SimulatesStep(p, servers, moves, c, e);
    c' := Step(p.fixes, servers, c, e);
  }

  /** Every candidate has the grants of c, e and f, and nothing waits. */
  ghost predicate Polled(f: Fixes, c: Cluster) {
    && Election.Placed(SIX, c)
    && (forall x :: x in {"a", "b"} ==> x in c.nodes && c.nodes[x] == Standing(f, x, 2))
    && (forall v :: v in {"c", "e", "f"} ==> v in c.nodes && c.nodes[v] == Voter(v, 2, Some("b"), 2, Some("b")))
    && (forall v, x :: v in {"c", "e", "f"} && x in {"a", "b"} ==> Yes(v, x, 2) in c.network)
  }

  /** Where each server is by then. */
  ghost function PolledAt(f: Fixes, v: ServerId): Node {
    if v == "a" || v == "b" then Standing(f, v, 2)
    else if v == "d" then Refuser(f)
    else Voter(v, 2, Some("b"), 2, Some("b"))
  }

  lemma SixMean(v: ServerId)
    requires v in SIX
    ensures v == "a" || v == "b" || v == "c" || v == "d" || v == "e" || v == "f"
  {
  }

  /** All six are at rest. */
  lemma VotedAt(f: Fixes, a: Async, v: ServerId)
    requires Candidates(f, a) && Voted(a, "c") && Voted(a, "e") && Voted(a, "f") && v in SIX
    ensures At(a, v, PolledAt(f, v), [])
  {
    hide At, Standing, Voter, Refuser;
    SixMean(v);
  }

  lemma CandidatesKeys(f: Fixes, a: Async)
    requires Candidates(f, a)
    ensures a.cluster.nodes.Keys == a.waiting.Keys == a.inSync.Keys == Members(SIX)
  {
  }

  lemma VotedRests(f: Fixes, a: Async)
    requires Candidates(f, a) && Voted(a, "c") && Voted(a, "e") && Voted(a, "f")
    ensures AtRest(SIX, a, a.cluster) && Election.Placed(SIX, a.cluster)
  {
    hide Standing, Voter, Refuser, InSync, Candidates, Voted, PolledAt;
    forall v | v in SIX ensures At(a, v, PolledAt(f, v), []) {
      VotedAt(f, a, v);
    }
    assert a.cluster.nodes.Keys == a.waiting.Keys == a.inSync.Keys == Members(SIX) by { CandidatesKeys(f, a); }
    assert a.waiting == Awaits.Idle(SIX);
    assert Distinct(SIX);
  }

  lemma Polls(p: Policy) returns (moves: seq<Move>, c: Cluster)
    requires GrantsBind(p.fixes) && !(p.serial && p.termFirst && p.checked)
    ensures AtRest(SIX, AsyncRun(p, SIX, moves), c) && Polled(p.fixes, c)
    ensures !(p.serial && p.termFirst) ==> Steady(moves)
  {
    hide AsyncRun, Standing, Voter, Refuser, Steady, InSync, AtRest, Election.Placed;
    var a;
    moves, a := AllVoteTwice(p);
    c := a.cluster;
    VotedRests(p.fixes, a);
  }

  lemma SixThere(c: Cluster)
    requires Election.Placed(SIX, c)
    ensures c.nodes.Keys == {"a", "b", "c", "d", "e", "f"}
  {
    assert forall s :: s in SIX <==> s in {"a", "b", "c", "d", "e", "f"};
  }

  function Counting(f: Fixes, id: ServerId, votes: set<ServerId>): Node {
    Standing(f, id, 2).(state := Candidate(votes))
  }

  /** The leader as it enters office, all tables fresh. */
  function Elected(id: ServerId): Node {
    var peers := Peers(SIX, id);
    Standing(CORRECTED, id, 2).(state := Leader(map k | k in peers :: Num(1), FreshTable(peers)))
  }

  /** Whatever else it keeps as a leader. */
  ghost predicate Leading(n: Node, id: ServerId) {
    n.id == id && n.state.Leader? && n.mem == Stable(2, Some(id), [SENTINEL])
  }

  lemma CountReaction(f: Fixes, id: ServerId, votes: set<ServerId>, v: ServerId)
    requires id in votes && v !in votes && |votes| <= 2
    ensures React(f, SIX, Counting(f, id, votes), Deliver(Yes(v, id, 2))) == Outcome(Counting(f, id, votes + {v}), [])
  {
  }

  lemma LeadReaction(f: Fixes, h: History, id: ServerId)
    requires id in {"a", "b"}
    ensures var n, e := Counting(f, id, {id, "c", "e"}), Deliver(Yes("f", id, 2));
      var o := React(f, SIX, n, e);
      && Win(2, id) in Record(h, n, e, o).wins && h.wins.Keys <= Record(h, n, e, o).wins.Keys && Leading(o.node, id)
      && (f == CORRECTED ==> o.node == Elected(id))
  {
    hide BecomeLeader, Elected;
    var n := Counting(f, id, {id, "c", "e"} + {"f"});
    assert |{id, "c", "e"} + {"f"}| == 4;
    Election.LeadEffect(f, SIX, n);
    if f == CORRECTED {
      LeadsCorrected(id, n);
    }
  }

  lemma LeadsCorrected(id: ServerId, n: Node)
    requires n.state.Candidate? && n == Counting(CORRECTED, id, n.state.votes)
    ensures BecomeLeader(CORRECTED, SIX, n).node == Elected(id)
  {
  }

  lemma CountingIs(f: Fixes, id: ServerId)
    ensures Counting(f, id, {id}) == Standing(f, id, 2)
  {
  }

  lemma Counts(p: Policy, moves: seq<Move>, c: Cluster, id: ServerId, votes: set<ServerId>, v: ServerId)
    returns (moves': seq<Move>, c': Cluster)
    requires AtRest(SIX, AsyncRun(p, SIX, moves), c) && Election.Placed(SIX, c)
    requires id in c.nodes && c.nodes[id] == Counting(p.fixes, id, votes) && id in votes && v !in votes && |votes| <= 2
    requires Yes(v, id, 2) in c.network
    ensures Steady(moves) ==> Steady(moves')
    ensures AtRest(SIX, AsyncRun(p, SIX, moves'), c') && Election.Placed(SIX, c') && Moved(c, c', id)
    ensures c'.nodes[id] == Counting(p.fixes, id, votes + {v}) && c.history.wins.Keys <= c'.history.wins.Keys
  {
    hide AsyncRun, React, Record, Steady, Counting, AtRest;
    var e, o := Deliver(Yes(v, id, 2)), Outcome(Counting(p.fixes, id, votes + {v}), []);
    CountReaction(p.fixes, id, votes, v);
    moves', c' := WholeTurn(p, SIX, moves, c, e, o);
    QuietWins(c.history, Counting(p.fixes, id, votes), e, o);
  }

  /** A candidate counts its grants and leads. */
  lemma Wins(p: Policy, moves: seq<Move>, c: Cluster, id: ServerId) returns (moves': seq<Move>, c': Cluster)
    requires AtRest(SIX, AsyncRun(p, SIX, moves), c) && Election.Placed(SIX, c)
    requires id in {"a", "b"} && id in c.nodes && c.nodes[id] == Standing(p.fixes, id, 2)
    requires forall v :: v in {"c", "e", "f"} ==> Yes(v, id, 2) in c.network
    ensures Steady(moves) ==> Steady(moves')
    ensures AtRest(SIX, AsyncRun(p, SIX, moves'), c') && Election.Placed(SIX, c') && Moved(c, c', id)
    ensures Win(2, id) in c'.history.wins && c.history.wins.Keys <= c'.history.wins.Keys
    ensures Leading(c'.nodes[id], id) && (p.fixes == CORRECTED ==> c'.nodes[id] == Elected(id))
  {
    hide AsyncRun, React, Record, Elected, Steady, Counting, Standing, Election.Placed, AtRest, Leading;
    CountingIs(p.fixes, id);
    assert {id} + {"c"} == {id, "c"} && {id, "c"} + {"e"} == {id, "c", "e"} && |{id, "c"}| == 2;
    moves', c' := Counts(p, moves, c, id, {id}, "c");
    moves', c' := Counts(p, moves', c', id, {id, "c"}, "e");
    var third := Deliver(Yes("f", id, 2));
    LeadReaction(p.fixes, c'.history, id);
    moves', c' := WholeTurn(p, SIX, moves', c', third, React(p.fixes, SIX, c'.nodes[id], third));
  }

  lemma QuietWins(h: History, n: Node, e: Event, o: Outcome)
    requires e.Deliver? && e.packet.msg.VoteResponse?
    ensures h.wins.Keys <= Record(h, n, e, o).wins.Keys
  {
  }

  lemma {:induction false} TwoLeaders(p: Policy) returns (moves: seq<Move>, c: Cluster)
    requires GrantsBind(p.fixes) && !(p.serial && p.termFirst && p.checked)
    ensures AtRest(SIX, AsyncRun(p, SIX, moves), c) && Election.Placed(SIX, c) && !ElectionSafe(c)
    ensures !(p.serial && p.termFirst) ==> Steady(moves)
    ensures Leading(c.nodes["a"], "a") && Leading(c.nodes["b"], "b")
    ensures p.fixes == CORRECTED ==> c.nodes["a"] == Elected("a") && c.nodes["b"] == Elected("b")
    ensures forall v :: v in {"c", "e", "f"} ==> c.nodes[v] == Voter(v, 2, Some("b"), 2, Some("b"))
  {
    hide AsyncRun, Standing, Voter, Elected, Steady, AtRest, Leading;
    moves, c := Polls(p);
    moves, c := Wins(p, moves, c, "a");
    moves, c := Wins(p, moves, c, "b");
    ElectionRuns.SameTermWins(c, Win(2, "a"), Win(2, "b"));
  }

  /** Two winners already in whole steps. */
  lemma UnboundVotes(p: Policy) returns (moves: seq<Move>)
    requires !Election.VotesBind(p.fixes)
    ensures Steady(moves) && !ElectionSafe(AsyncRun(p, ElectionRuns.THREE, moves).cluster)
    ensures Distinct(ElectionRuns.THREE)
  {
    hide AsyncRun, ElectionSafe;
    var events, term := ElectionRuns.TwoWinners(p.fixes);
    ElectionRuns.SameTermWins(Run(p.fixes, ElectionRuns.THREE, events), Win(term, "a"), Win(term, "b"));
    ThreeDistinct();
    moves := Simulates(p, ElectionRuns.THREE, events);
  }

  /** Election Safety, with every await taken apart, writes that may fail and crashes between any
      two file writes, over every cluster and every run, holds exactly when the four vote
      corrections are in, no handler of a server runs while something of it waits for its writes,
      the term is written before the vote, and a write that fails raises no flag. */
  lemma {:induction false} ElectionSafetyIff(p: Policy)
    ensures (forall servers, moves :: Distinct(servers) ==> ElectionSafe(AsyncRun(p, servers, moves).cluster))
       <==> Election.VotesBind(p.fixes) && p.serial && p.termFirst && p.checked
  {
    hide AsyncRun, ElectionSafe;
    if !Election.VotesBind(p.fixes) {
      var moves := UnboundVotes(p);
    } else if p.serial && p.termFirst && p.checked {
      forall servers, moves | Distinct(servers) ensures ElectionSafe(AsyncRun(p, servers, moves).cluster) {
        AwaitSafety.ElectionSafety(p, servers, moves);
      }
    } else {
      var moves, c := TwoLeaders(p);
      assert Distinct(SIX);
    }
  }

  /** Over the runs in which no write fails the callback does not matter. */
  lemma {:induction false} SteadyElectionSafetyIff(p: Policy)
    ensures (forall servers, moves :: Distinct(servers) && Steady(moves) ==>
               ElectionSafe(AsyncRun(p, servers, moves).cluster))
       <==> Election.VotesBind(p.fixes) && p.serial && p.termFirst
  {
    hide AsyncRun, ElectionSafe, Steady;
    if !Election.VotesBind(p.fixes) {
      var moves := UnboundVotes(p);
    } else if p.serial && p.termFirst {
      forall servers, moves | Distinct(servers) && Steady(moves)
        ensures ElectionSafe(AsyncRun(p, servers, moves).cluster)
      {
        AwaitSafety.ElectionSafety(p, servers, moves);
      }
    } else {
      var moves, c := TwoLeaders(p);
      assert Distinct(SIX);
    }
  }

  lemma ThreeDistinct()
    ensures Distinct(ElectionRuns.THREE)
  {
  }
}
