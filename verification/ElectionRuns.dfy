/** Runs that elect two leaders in one term when one of the four corrections is missing,
    whatever the other corrections are, and so exactly which corrections Election Safety needs. */
module ElectionRuns {
  import opened RaftTypes
  import opened Nodes
  import opened Clusters
  import opened RunSteps
  import Election

  const THREE: seq<ServerId> := ["a", "b", "c"]

  /** A server whose log holds nothing yet. */
  ghost predicate Bare(n: Node) {
    n.mem.log == [SENTINEL] == n.disk.log && n.commitIndex == 0 == n.lastApplied
  }

  /** Three such servers. */
  ghost predicate Quorate(c: Cluster) {
    && c.nodes.Keys == {"a", "b", "c"}
    && (forall s :: s in c.nodes ==> c.nodes[s].id == s && Bare(c.nodes[s]))
  }

  /** Only server s changed; packets and wins are only added. */
  ghost predicate OnlyMoves(c: Cluster, c': Cluster, s: ServerId) {
    && Quorate(c') && c'.nodes.Keys == {"a", "b", "c"} && s in c'.nodes
    && (forall t :: t in c.nodes && t in c'.nodes && t != s ==> c'.nodes[t] == c.nodes[t])
    && c.network <= c'.network
    && c.history.wins.Keys <= c'.history.wins.Keys
  }

  lemma AskSent(f: Fixes, n: Node, v: ServerId)
    requires n.mem.log == [SENTINEL] && v in THREE && v != n.id
    ensures Ask(n.id, v, n.mem.term + 1) in React(f, THREE, n, Timeout(n.id)).out
  {
    var peers := Peers(THREE, n.id);
    var n1 := Stand(f, n);
    var i :| 0 <= i < |peers| && peers[i] == v;
    assert VoteRequests(THREE, n1)[i] == Ask(n.id, v, n.mem.term + 1);
  }

  lemma StartsOnly(f: Fixes, h: History, n: Node)
    requires Bare(n)
    ensures var o := React(f, THREE, n, Timeout(n.id));
      && o.node.id == n.id && o.node.mem == Stable(n.mem.term + 1, Some(n.id), [SENTINEL])
      && o.node.state == Candidate({n.id})
      && Bare(o.node)
      && (!f.persistsFirst ==> o.node.disk == n.disk)
      && Record(h, n, Timeout(n.id), o).wins == h.wins
  {
    assert !IsMajority(THREE, {n.id});
  }

  /** How one enabled event moves the cluster, once it is known what its server does. */
  lemma Moves(f: Fixes, c: Cluster, e: Event, o: Outcome, h': History)
    requires Quorate(c) && Enabled(c, e)
    requires o == React(f, THREE, c.nodes[Actor(e)], e) && h' == Record(c.history, c.nodes[Actor(e)], e, o)
    requires o.node.id == Actor(e) && Bare(o.node)
    requires c.history.wins.Keys <= h'.wins.Keys
    ensures var c' := Step(f, THREE, c, e);
      && OnlyMoves(c, c', Actor(e)) && c'.nodes[Actor(e)] == o.node && c'.history == h'
      && (forall p :: p in o.out ==> p in c'.network)
  {
    hide React, Record;
  }

  lemma Campaign(f: Fixes, run: seq<Event>, c: Cluster, s: ServerId, v: ServerId)
    returns (run': seq<Event>, c': Cluster)
    requires c == Run(f, THREE, run) && Quorate(c) && s in c.nodes && v in c.nodes && s != v
    ensures c' == Run(f, THREE, run') && OnlyMoves(c, c', s)
    ensures c'.nodes[s].mem == Stable(c.nodes[s].mem.term + 1, Some(s), [SENTINEL])
    ensures c'.nodes[s].state == Candidate({s})
    ensures !f.persistsFirst ==> c'.nodes[s].disk == c.nodes[s].disk
    ensures Ask(s, v, c.nodes[s].mem.term + 1) in c'.network
  {
    hide Run, Step, React, Record;
    var e, n := Timeout(s), c.nodes[s];
    var o := React(f, THREE, n, e);
    run', c' := run + [e], Step(f, THREE, c, e);
    RunOneMore(f, THREE, run, e);
    StartsOnly(f, c.history, n);
    AskSent(f, n, v);
    Moves(f, c, e, o, Record(c.history, n, e, o));
  }

  /** A follower, or any server of an earlier term, that has not voted grants the request. */
  lemma GrantsOnly(f: Fixes, h: History, n: Node, s: ServerId, term: nat)
    requires Bare(n)
    requires n.mem.term < term || (n.mem.term == term && n.state.Follower? && n.mem.votedFor == None)
    ensures var e := Deliver(Ask(s, n.id, term));
      var o := React(f, THREE, n, e);
      && o.node.id == n.id && Bare(o.node)
      && o.node.mem.term == o.node.disk.term == term && o.node.state.Follower?
      && (!f.recordsGrant ==> o.node.mem.votedFor == None)
      && o.out == [Yes(n.id, s, term)]
      && Record(h, n, e, o).wins == h.wins
  {
  }

  lemma Grants(f: Fixes, run: seq<Event>, c: Cluster, v: ServerId, s: ServerId, term: nat)
    returns (run': seq<Event>, c': Cluster)
    requires c == Run(f, THREE, run) && Quorate(c) && s in c.nodes && v in c.nodes && Ask(s, v, term) in c.network
    requires var n := c.nodes[v];
      n.mem.term < term || (n.mem.term == term && n.state.Follower? && n.mem.votedFor == None)
    ensures c' == Run(f, THREE, run') && OnlyMoves(c, c', v)
    ensures c'.nodes[v].mem.term == c'.nodes[v].disk.term == term && c'.nodes[v].state.Follower?
    ensures !f.recordsGrant ==> c'.nodes[v].mem.votedFor == None
    ensures Yes(v, s, term) in c'.network
  {
    hide Run, Step, React, Record;
    var e, n := Deliver(Ask(s, v, term)), c.nodes[v];
    var o := React(f, THREE, n, e);
    run', c' := run + [e], Step(f, THREE, c, e);
    RunOneMore(f, THREE, run, e);
    GrantsOnly(f, c.history, n, s, term);
    Moves(f, c, e, o, Record(c.history, n, e, o));
    assert o.out[0] in o.out;
  }

  /** A leader that has not sent anything but heartbeats. */
  ghost predicate InOffice(f: Fixes, n: Node) {
    && n.state.Leader? && n.mem.log == [SENTINEL]
    && (f.sendsFromNextIndex ==> forall p :: p in THREE && p != n.id ==>
        p in n.state.nextIndex && n.state.nextIndex[p] == Num(1))
  }

  lemma WinsOnly(f: Fixes, h: History, n: Node, v: ServerId, term: nat)
    requires Bare(n) && n.state == Candidate({n.id}) && v != n.id
    requires term == n.mem.term || (!f.countsOwnTerm && term < n.mem.term)
    ensures var e := Deliver(Yes(v, n.id, term));
      var o := React(f, THREE, n, e);
      && o.node.id == n.id && o.node.mem == n.mem && Bare(o.node)
      && (!f.persistsFirst ==> o.node.disk == n.disk)
      && InOffice(f, o.node)
      && Record(h, n, e, o).wins.Keys == h.wins.Keys + {Win(n.mem.term, n.id)}
  {
    var votes := {n.id} + {v};
    assert |votes| == 2 && IsMajority(THREE, votes);
    Election.LeadEffect(f, THREE, n.(state := Candidate(votes)));
  }

  /** A candidate with its own vote counts a grant of its own term, or of an earlier one. */
  lemma Wins(f: Fixes, run: seq<Event>, c: Cluster, v: ServerId, s: ServerId, term: nat)
    returns (run': seq<Event>, c': Cluster)
    requires c == Run(f, THREE, run) && Quorate(c) && s in c.nodes && v != s && Yes(v, s, term) in c.network
    requires c.nodes[s].state == Candidate({s})
    requires term == c.nodes[s].mem.term || (!f.countsOwnTerm && term < c.nodes[s].mem.term)
    ensures c' == Run(f, THREE, run') && OnlyMoves(c, c', s)
    ensures Win(c.nodes[s].mem.term, s) in c'.history.wins
    ensures c'.nodes[s].mem == c.nodes[s].mem && InOffice(f, c'.nodes[s])
    ensures !f.persistsFirst ==> c'.nodes[s].disk == c.nodes[s].disk
  {
    hide Run, Step, React, Record, InOffice;
    var e, n := Deliver(Yes(v, s, term)), c.nodes[s];
    var o := React(f, THREE, n, e);
    run', c' := run + [e], Step(f, THREE, c, e);
    RunOneMore(f, THREE, run, e);
    WinsOnly(f, c.history, n, v, term);
    Moves(f, c, e, o, Record(c.history, n, e, o));
  }

  lemma RebootsOnly(f: Fixes, h: History, n: Node)
    requires n.disk.log == [SENTINEL]
    ensures var e := Restarted(n.id);
      var o := React(f, THREE, n, e);
      && o.node.id == n.id && o.node.disk == n.disk && o.node.state == Follower(None)
      && Bare(o.node) && o.node.mem.term == n.disk.term
      && (!f.reloadsVote ==> o.node.mem.votedFor == None)
      && Record(h, n, e, o) == h
  {
  }

  lemma Reboots(f: Fixes, run: seq<Event>, c: Cluster, s: ServerId) returns (run': seq<Event>, c': Cluster)
    requires c == Run(f, THREE, run) && Quorate(c) && s in c.nodes
    ensures c' == Run(f, THREE, run') && OnlyMoves(c, c', s)
    ensures c'.nodes[s].state == Follower(None) && c'.nodes[s].mem.term == c.nodes[s].disk.term
    ensures !f.reloadsVote ==> c'.nodes[s].mem.votedFor == None
  {
    hide Run, Step, React, Record;
    var e, n := Restarted(s), c.nodes[s];
    var o := React(f, THREE, n, e);
    run', c' := run + [e], Step(f, THREE, c, e);
    RunOneMore(f, THREE, run, e);
    RebootsOnly(f, c.history, n);
    Moves(f, c, e, o, Record(c.history, n, e, o));
  }

  lemma Boots(f: Fixes) returns (run: seq<Event>, c: Cluster)
    ensures c == Run(f, THREE, run) && Quorate(c) && c.nodes.Keys == {"a", "b", "c"}
    ensures forall s :: s in c.nodes ==> c.nodes[s] == Boot(s)
  {
    run, c := [], Start(THREE);
  }

  /** a and b both stand in term 1. */
  lemma TwoCandidates(f: Fixes) returns (run: seq<Event>, c: Cluster)
    ensures c == Run(f, THREE, run) && Quorate(c) && c.nodes.Keys == {"a", "b", "c"}
    ensures c.nodes["c"] == Boot("c")
    ensures Candidates(c, 1) && Ask("a", "c", 1) in c.network && Ask("b", "c", 1) in c.network
  {
    hide Run, Quorate;
    run, c := Boots(f);
    run, c := Campaign(f, run, c, "a", "c");
    run, c := Campaign(f, run, c, "b", "c");
  }

  ghost predicate Candidates(c: Cluster, term: nat) {
    forall s :: s in {"a", "b"} ==> s in c.nodes && c.nodes[s].mem.term == term && c.nodes[s].state == Candidate({s})
  }

  /** Two leaders of one term, neither with an entry yet. */
  ghost predicate TwoLeaders(f: Fixes, c: Cluster, term: nat) {
    && Quorate(c) && term > 0
    && (forall s :: s in {"a", "b"} ==>
          s in c.nodes && InOffice(f, c.nodes[s]) && c.nodes[s].mem.term == term && Win(term, s) in c.history.wins)
  }

  /** Both candidates count the grant c gave them. */
  lemma BothWin(f: Fixes, run: seq<Event>, c: Cluster, term: nat, granted: nat)
    returns (run': seq<Event>, c': Cluster)
    requires c == Run(f, THREE, run) && Quorate(c) && c.nodes.Keys == {"a", "b", "c"} && Candidates(c, term) && term > 0
    requires Yes("c", "a", granted) in c.network && Yes("c", "b", term) in c.network
    requires granted == term || (!f.countsOwnTerm && granted < term)
    ensures c' == Run(f, THREE, run') && TwoLeaders(f, c', term)
  {
    hide Run, InOffice, Quorate;
    run', c' := Wins(f, run, c, "c", "a", granted);
    run', c' := Wins(f, run', c', "c", "b", term);
  }

  /** c grants a, forgets, and grants b. */
  lemma {:induction false} WithoutRecordedGrant(f: Fixes) returns (run: seq<Event>, c: Cluster)
    requires !f.recordsGrant
    ensures c == Run(f, THREE, run) && TwoLeaders(f, c, 1)
  {
    hide Run, TwoLeaders, Quorate;
    run, c := TwoCandidates(f);
    run, c := Grants(f, run, c, "c", "a", 1);
    run, c := Grants(f, run, c, "c", "b", 1);
    run, c := BothWin(f, run, c, 1, 1);
  }

  /** c grants a in term 1, restarts without its vote, and grants b in term 1. */
  lemma {:induction false} WithoutReloadedVote(f: Fixes) returns (run: seq<Event>, c: Cluster)
    requires !f.reloadsVote
    ensures c == Run(f, THREE, run) && TwoLeaders(f, c, 1)
  {
    hide Run, TwoLeaders, Quorate;
    run, c := TwoCandidates(f);
    run, c := Grants(f, run, c, "c", "a", 1);
    run, c := Reboots(f, run, c, "c");
    run, c := Grants(f, run, c, "c", "b", 1);
    run, c := BothWin(f, run, c, 1, 1);
  }

  /** c grants a in term 1 and b in term 2; a, by then a candidate of term 2, counts the old grant. */
  lemma {:induction false} WithoutTermCheck(f: Fixes) returns (run: seq<Event>, c: Cluster)
    requires !f.countsOwnTerm
    ensures c == Run(f, THREE, run) && TwoLeaders(f, c, 2)
  {
    hide Run, TwoLeaders, Quorate;
    run, c := TwoCandidates(f);
    run, c := Grants(f, run, c, "c", "a", 1);
    run, c := Campaign(f, run, c, "a", "c");
    run, c := Campaign(f, run, c, "b", "c");
    run, c := Grants(f, run, c, "c", "b", 2);
    run, c := BothWin(f, run, c, 2, 1);
  }

  /** The request that carries the first entry of a leader's term. */
  function Copying(n: Node, v: ServerId, command: Bytes): Packet {
    Packet(n.id, v, AppendEntries(n.mem.term, n.id, [Entry(command, 1, n.mem.term)], 0, 0, n.commitIndex))
  }

  lemma AppendsOnly(f: Fixes, n: Node, v: ServerId, command: Bytes)
    requires InOffice(f, n) && v in THREE && v != n.id
    ensures var o := React(f, THREE, n, Request(n.id, command));
      && o.node.id == n.id && o.node.mem == n.mem.(log := [SENTINEL, Entry(command, 1, n.mem.term)])
      && o.node.commitIndex == n.commitIndex && o.node.lastApplied == n.lastApplied && o.node.state == n.state
      && (!f.persistsFirst ==> o.node.disk == n.disk)
      && (f.sendsFromNextIndex ==> Copying(n, v, command) in o.out)
  {
    var log := [SENTINEL, Entry(command, 1, n.mem.term)];
    assert [SENTINEL] + [Entry(command, 1, n.mem.term)] == log && log[1..] == [Entry(command, 1, n.mem.term)];
    var peers := Peers(THREE, n.id);
    var i :| 0 <= i < |peers| && peers[i] == v;
    var n1 := n.(mem := n.mem.(log := log));
    assert SendAppendEntries(f, THREE, n1).out[i] == AppendRequest(f, n1, v);
  }

  /** A leader that appends an entry, sends it and crashes is back without it, but the request
      is under way. */
  lemma AppendsAndReboots(f: Fixes, run: seq<Event>, c: Cluster, s: ServerId, v: ServerId, command: Bytes)
    returns (run': seq<Event>, c': Cluster)
    requires !f.persistsFirst && c == Run(f, THREE, run) && Quorate(c)
    requires s in c.nodes && v in c.nodes && v != s && InOffice(f, c.nodes[s])
    ensures c' == Run(f, THREE, run') && OnlyMoves(c, c', s) && c'.nodes[s].mem.term == c.nodes[s].disk.term
    ensures f.sendsFromNextIndex ==> Copying(c.nodes[s], v, command) in c'.network
  {
    hide Run, React, Record, InOffice;
    var n, first, second := c.nodes[s], Request(s, command), Restarted(s);
    AppendsOnly(f, n, v, command);
    RequestAddsWins(c.history, n, first, React(f, THREE, n, first));
    var c1 := Step(f, THREE, c, first);
    RunOneMore(f, THREE, run, first);
    RebootsOnly(f, c1.history, c1.nodes[s]);
    c' := Step(f, THREE, c1, second);
    RunOneMore(f, THREE, run + [first], second);
    run' := run + [first] + [second];
  }

  lemma RequestAddsWins(h: History, n: Node, e: Event, o: Outcome)
    requires e.Request?
    ensures h.wins.Keys <= Record(h, n, e, o).wins.Keys
  {
  }

  /** a wins term 1 with nothing on disk, sends an entry to c and restarts in term 0. */
  lemma ForgottenWin(f: Fixes) returns (run: seq<Event>, c: Cluster, a: Node)
    requires !f.persistsFirst
    ensures c == Run(f, THREE, run) && Quorate(c) && c.nodes.Keys == {"a", "b", "c"}
    ensures Win(1, "a") in c.history.wins && c.nodes["a"].mem.term == 0 && c.nodes["b"].mem.term == 0
    ensures c.nodes["c"].mem.term == 1 && c.nodes["c"].state.Follower?
    ensures a.id == "a" && a.mem.term == 1 && a.commitIndex == 0
    ensures f.sendsFromNextIndex ==> Copying(a, "c", [1]) in c.network
  {
    hide Run, InOffice, Quorate, Copying;
    run, c := Boots(f);
    run, c := Campaign(f, run, c, "a", "c");
    run, c := Grants(f, run, c, "c", "a", 1);
    run, c := Wins(f, run, c, "c", "a", 1);
    a := c.nodes["a"];
    QuorateBare(c);
    run, c := AppendsAndReboots(f, run, c, "a", "c", [1]);
  }

  lemma QuorateBare(c: Cluster)
    requires Quorate(c)
    ensures forall s :: s in c.nodes ==> c.nodes[s].id == s && Bare(c.nodes[s])
  {
  }

  /** ... and then votes for b in term 1. */
  lemma {:induction false} WithoutPersistedRequest(f: Fixes) returns (run: seq<Event>, c: Cluster, a: Node)
    requires !f.persistsFirst
    ensures c == Run(f, THREE, run) && Quorate(c) && c.nodes.Keys == {"a", "b", "c"}
    ensures Win(1, "a") in c.history.wins && Win(1, "b") in c.history.wins
    ensures InOffice(f, c.nodes["b"]) && c.nodes["b"].mem.term == 1
    ensures forall s :: s in {"a", "c"} ==> c.nodes[s].mem.term == 1 && c.nodes[s].state.Follower?
    ensures a.id == "a" && a.mem.term == 1 && a.commitIndex == 0
    ensures f.sendsFromNextIndex ==> Copying(a, "c", [1]) in c.network
  {
    hide Run, InOffice, Quorate, Copying;
    run, c, a := ForgottenWin(f);
    run, c := Campaign(f, run, c, "b", "a");
    run, c := Grants(f, run, c, "a", "b", 1);
    run, c := Wins(f, run, c, "a", "b", 1);
  }

  /** Without one of the four, two servers win one term. */
  lemma {:induction false} TwoWinners(f: Fixes) returns (run: seq<Event>, term: nat)
    requires !Election.VotesBind(f)
    ensures var wins := Run(f, THREE, run).history.wins; Win(term, "a") in wins && Win(term, "b") in wins
  {
    hide Run, InOffice, Quorate;
    var c, a;
    term := 1;
    if !f.recordsGrant {
      run, c := WithoutRecordedGrant(f);
    } else if !f.persistsFirst {
      run, c, a := WithoutPersistedRequest(f);
    } else if !f.reloadsVote {
      run, c := WithoutReloadedVote(f);
    } else {
      run, c := WithoutTermCheck(f);
      term := 2;
    }
  }

  /** Election Safety holds of every run of every cluster exactly when the four corrections
      are in; in particular not for the source as written, AS_WRITTEN. */
  lemma ElectionSafetyIff(f: Fixes)
    ensures (forall servers, events :: Distinct(servers) ==> ElectionSafe(Run(f, servers, events)))
       <==> f.recordsGrant && f.persistsFirst && f.reloadsVote && f.countsOwnTerm
  {
    if Election.VotesBind(f) {
      forall servers, events | Distinct(servers) ensures ElectionSafe(Run(f, servers, events)) {
        Election.ElectionSafety(f, servers, events);
      }
    } else {
      var events, term := TwoWinners(f);
      SameTermWins(Run(f, THREE, events), Win(term, "a"), Win(term, "b"));
      assert Distinct(THREE);
    }
  }

  lemma SameTermWins(c: Cluster, v: Win, w: Win)
    requires v in c.history.wins && w in c.history.wins && v.term == w.term && v.leader != w.leader
    ensures !ElectionSafe(c)
  {
  }
}
