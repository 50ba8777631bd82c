/** A run of five servers after which two logs hold different entries of term 1 at index 1, with
    requests as written, the merge corrected and no write before requests. A leader that is to
    forget everything leaves behind a request that describes its last entry and carries its whole
    log; a server that led the same term meets the description and takes the log over. */
module CopiedConflict {
  import opened RaftTypes
  import opened Logs
  import opened Nodes
  import opened Clusters
  import opened RunSteps
  import Decimals

  const FIVE: seq<ServerId> := ["a", "b", "g", "q", "r"]

  /** What decides: requests as written leave before the state is on disk, and the merge copies. */
  predicate CopiesForgotten(f: Fixes) {
    !f.persistsFirst && !f.sendsFromNextIndex && f.mergesByPosition
  }

  const A := Entry([1], 1, 1)
  const B := Entry([2], 1, 1)
  const X := Entry([3], 1, 2)
  const E := Entry([4], 2, 3)
  const Q := Entry([5], 2, 3)

  ghost predicate Sits(c: Cluster, id: ServerId, term: nat, log: seq<Entry>) {
    && c.nodes.Keys == Members(FIVE) && id in c.nodes && |log| > 0 && At(c.nodes[id], id, term, log)
  }

  ghost predicate At(n: Node, id: ServerId, term: nat, log: seq<Entry>) {
    n.id == id && n.mem.term == term && n.mem.log == log && |log| > 0 && n.commitIndex == 0
  }

  function AskWith(id: ServerId, v: ServerId, term: nat, log: seq<Entry>): Packet
    requires |log| > 0
  {
    Packet(id, v, RequestVote(term, id, |log| - 1, LastTerm(log)))
  }

  /** The first request of a new leader, to a server whose nextIndex is undefined. */
  function Announce(id: ServerId, v: ServerId, term: nat, log: seq<Entry>): Packet
    requires |log| > 0
  {
    Packet(id, v, AppendEntries(term, id, log, |log| - 1, LastTerm(log), 0))
  }

  // ----- what each event does -----

  lemma StandReaction(f: Fixes, n: Node, id: ServerId, term: nat, log: seq<Entry>, v: ServerId)
    requires At(n, id, term, log) && v in FIVE && v != id
    ensures var o := React(f, FIVE, n, Timeout(id));
      && At(o.node, id, term + 1, log) && o.node.state == Candidate({id})
      && (!f.persistsFirst ==> o.node.disk == n.disk)
      && AskWith(id, v, term + 1, log) in o.out
  {
    hide BecomeLeader;
    assert !IsMajority(FIVE, {id});
    var peers := Peers(FIVE, id);
    var i :| 0 <= i < |peers| && peers[i] == v;
    assert VoteRequests(FIVE, Stand(f, n))[i] == AskWith(id, v, term + 1, log);
  }

  lemma GrantReaction(f: Fixes, n: Node, v: ServerId, voted: nat, log: seq<Entry>, id: ServerId, term: nat,
                      theirs: seq<Entry>)
    requires At(n, v, voted, log) && voted < term && |theirs| > 0 && UpToDate(LastTerm(theirs), |theirs| - 1, log)
    ensures var o := React(f, FIVE, n, Deliver(AskWith(id, v, term, theirs)));
      At(o.node, v, term, log) && Yes(v, id, term) in o.out
  {
    var o := React(f, FIVE, n, Deliver(AskWith(id, v, term, theirs)));
    assert o.out[0] == Yes(v, id, term);
  }

  lemma CountReaction(f: Fixes, n: Node, id: ServerId, v: ServerId)
    requires n.id == id && n.state == Candidate({id}) && v != id
    ensures React(f, FIVE, n, Deliver(Yes(v, id, n.mem.term))) == Outcome(n.(state := Candidate({id, v})), [])
  {
    assert {id} + {v} == {id, v} && |{id, v}| == 2;
  }

  lemma NotAPosition(f: Fixes, n: Node, v: ServerId)
    requires !f.sendsFromNextIndex && v in FIVE
    ensures v !in IndexKeys(f, Peers(FIVE, n.id))
  {
    var keys := IndexKeys(f, Peers(FIVE, n.id));
    forall i | 0 <= i < |keys| ensures keys[i] != v {
      assert Decimals.IsDigit(Decimals.Decimal(i)[0]) && !Decimals.IsDigit(v[0]);
    }
  }

  lemma LeadReaction(f: Fixes, n: Node, id: ServerId, v: ServerId, w: ServerId, term: nat, log: seq<Entry>,
                     to: ServerId)
    requires CopiesForgotten(f) && At(n, id, term, log) && n.state == Candidate({id, v})
    requires v != id && w != id && v != w && to in FIVE && to != id
    ensures var o := React(f, FIVE, n, Deliver(Yes(w, id, term)));
      && At(o.node, id, term, log) && o.node.state.Leader? && o.node.disk == n.disk
      && Announce(id, to, term, log) in o.out
  {
    hide BecomeLeader;
    var votes := {id, v} + {w};
    assert votes == {id, v, w} && |votes| == 3;
    AnnounceSent(f, n.(state := Candidate(votes)), id, term, log, to);
  }

  lemma AnnounceSent(f: Fixes, n: Node, id: ServerId, term: nat, log: seq<Entry>, to: ServerId)
    requires CopiesForgotten(f) && At(n, id, term, log) && to in FIVE && to != id
    ensures var o := BecomeLeader(f, FIVE, n);
      && At(o.node, id, term, log) && o.node.state.Leader? && o.node.disk == n.disk
      && Announce(id, to, term, log) in o.out
  {
    NotAPosition(f, n, to);
    var peers, keys := Peers(FIVE, id), IndexKeys(f, Peers(FIVE, id));
    var n1 := n.(state := Leader(map k | k in keys :: Num(|log|), FreshTable(keys)));
    var i :| 0 <= i < |peers| && peers[i] == to;
    assert SendAppendEntries(f, FIVE, n1).out[i] == AppendRequest(f, n1, to) == Announce(id, to, term, log);
  }

  lemma RequestReaction(f: Fixes, n: Node, id: ServerId, term: nat, log: seq<Entry>, command: Bytes)
    requires !f.persistsFirst && At(n, id, term, log) && n.state.Leader?
    ensures var o := React(f, FIVE, n, Request(id, command));
      At(o.node, id, term, log + [Entry(command, |log|, term)]) && o.node.disk == n.disk
  {
  }

  lemma RestartReaction(f: Fixes, n: Node)
    requires n.id == "a" && n.disk == Boot("a").disk
    ensures var o := React(f, FIVE, n, Restarted("a")); At(o.node, "a", 0, [SENTINEL])
  {
  }

  /** The description fits g's last entry, and the log it comes with replaces g's. */
  lemma CopyReaction(f: Fixes, n: Node)
    requires CopiesForgotten(f) && At(n, "g", 3, [SENTINEL, X, Q])
    ensures var o := React(f, FIVE, n, Deliver(Announce("a", "g", 4, [SENTINEL, A, E])));
      o.node.id == "g" && o.node.mem.log == [SENTINEL, A, E]
  {
    var entries := [SENTINEL, A, E];
    assert entries[..2] == [SENTINEL, A] && [SENTINEL, A][..1] == [SENTINEL] && [SENTINEL][..0] == [];
    assert Merge(true, n.mem.log, []) == n.mem.log;
    assert Merge(true, n.mem.log, [SENTINEL]) == n.mem.log;
    assert Merge(true, n.mem.log, [SENTINEL, A]) == n.mem.log[..1] + [A] == [SENTINEL, A];
    assert Merge(true, n.mem.log, entries) == [SENTINEL, A] + [E] == entries;
  }

  // ----- single events of the run -----

  lemma Stands(f: Fixes, run: seq<Event>, c: Cluster, id: ServerId, term: nat, log: seq<Entry>, v: ServerId,
               w: ServerId)
    returns (run': seq<Event>, c': Cluster)
    requires c == Run(f, FIVE, run) && Sits(c, id, term, log) && v in FIVE && w in FIVE && v != id && w != id
    ensures c' == Run(f, FIVE, run') && Moved(c, c', id) && Sits(c', id, term + 1, log)
    ensures c'.nodes[id].state == Candidate({id}) && (!f.persistsFirst ==> c'.nodes[id].disk == c.nodes[id].disk)
    ensures AskWith(id, v, term + 1, log) in c'.network && AskWith(id, w, term + 1, log) in c'.network
  {
    hide Run, React;
    StandReaction(f, c.nodes[id], id, term, log, v);
    StandReaction(f, c.nodes[id], id, term, log, w);
    run', c' := Turn(f, FIVE, run, c, Timeout(id), React(f, FIVE, c.nodes[id], Timeout(id)));
  }

  lemma Grants(f: Fixes, run: seq<Event>, c: Cluster, v: ServerId, voted: nat, log: seq<Entry>, id: ServerId, term: nat,
               theirs: seq<Entry>)
    returns (run': seq<Event>, c': Cluster)
    requires c == Run(f, FIVE, run) && Sits(c, v, voted, log) && voted < term && |theirs| > 0
    requires UpToDate(LastTerm(theirs), |theirs| - 1, log) && AskWith(id, v, term, theirs) in c.network
    ensures c' == Run(f, FIVE, run') && Moved(c, c', v) && Sits(c', v, term, log) && Yes(v, id, term) in c'.network
  {
    hide Run, React;
    var e := Deliver(AskWith(id, v, term, theirs));
    GrantReaction(f, c.nodes[v], v, voted, log, id, term, theirs);
    run', c' := Turn(f, FIVE, run, c, e, React(f, FIVE, c.nodes[v], e));
  }

  /** A candidate counts two grants, leads, and appends a command. */
  lemma Leads(f: Fixes, run: seq<Event>, c: Cluster, id: ServerId, term: nat, log: seq<Entry>, v: ServerId, w: ServerId,
              to: ServerId)
    returns (run': seq<Event>, c': Cluster)
    requires CopiesForgotten(f) && c == Run(f, FIVE, run) && Sits(c, id, term, log)
    requires c.nodes[id].state == Candidate({id}) && v != id && w != id && v != w && to in FIVE && to != id
    requires Yes(v, id, term) in c.network && Yes(w, id, term) in c.network
    ensures c' == Run(f, FIVE, run') && Moved(c, c', id) && Sits(c', id, term, log)
    ensures c'.nodes[id].state.Leader? && c'.nodes[id].disk == c.nodes[id].disk
    ensures Announce(id, to, term, log) in c'.network
  {
    hide Run, React;
    var first, second := Deliver(Yes(v, id, term)), Deliver(Yes(w, id, term));
    CountReaction(f, c.nodes[id], id, v);
    run', c' := Turn(f, FIVE, run, c, first, React(f, FIVE, c.nodes[id], first));
    LeadReaction(f, c'.nodes[id], id, v, w, term, log, to);
    run', c' := Turn(f, FIVE, run', c', second, React(f, FIVE, c'.nodes[id], second));
  }

  lemma Appends(f: Fixes, run: seq<Event>, c: Cluster, id: ServerId, term: nat, log: seq<Entry>, command: Bytes)
    returns (run': seq<Event>, c': Cluster)
    requires !f.persistsFirst && c == Run(f, FIVE, run) && Sits(c, id, term, log) && c.nodes[id].state.Leader?
    ensures c' == Run(f, FIVE, run') && Moved(c, c', id) && Sits(c', id, term, log + [Entry(command, |log|, term)])
    ensures c'.nodes[id].disk == c.nodes[id].disk
  {
    hide Run, React;
    var e := Request(id, command);
    RequestReaction(f, c.nodes[id], id, term, log, command);
    run', c' := Turn(f, FIVE, run, c, e, React(f, FIVE, c.nodes[id], e));
  }

  // ----- the run -----

  /** Servers other than those named stayed as they were. */
  ghost predicate Only(c: Cluster, c': Cluster, moved: set<ServerId>) {
    && c'.nodes.Keys == c.nodes.Keys && c.network <= c'.network
    && (forall t :: t in c.nodes && t in c'.nodes && t !in moved ==> c'.nodes[t] == c.nodes[t])
  }

  /** A server stands, q and r grant, and it leads. */
  lemma Elected(f: Fixes, run: seq<Event>, c: Cluster, id: ServerId, term: nat, log: seq<Entry>, voted: nat,
                to: ServerId)
    returns (run': seq<Event>, c': Cluster)
    requires CopiesForgotten(f) && c == Run(f, FIVE, run) && id in {"a", "g"} && Sits(c, id, term, log) && voted <= term
    requires Sits(c, "q", voted, [SENTINEL]) && Sits(c, "r", voted, [SENTINEL]) && to in FIVE && to != id
    ensures c' == Run(f, FIVE, run') && Only(c, c', {id, "q", "r"})
    ensures Sits(c', id, term + 1, log) && c'.nodes[id].state.Leader? && c'.nodes[id].disk == c.nodes[id].disk
    ensures Sits(c', "q", term + 1, [SENTINEL]) && Sits(c', "r", term + 1, [SENTINEL])
    ensures Announce(id, to, term + 1, log) in c'.network
  {
    hide Run, At, LastTerm, UpToDate, Members;
    FreshLogAccepts(log);
    assert "q" in FIVE && "r" in FIVE;
    run', c' := Stands(f, run, c, id, term, log, "q", "r");
    run', c' := Grants(f, run', c', "q", voted, [SENTINEL], id, term + 1, log);
    run', c' := Grants(f, run', c', "r", voted, [SENTINEL], id, term + 1, log);
    run', c' := Leads(f, run', c', id, term + 1, log, "q", "r", to);
  }

  lemma FreshLogAccepts(log: seq<Entry>)
    requires |log| > 0
    ensures UpToDate(LastTerm(log), |log| - 1, [SENTINEL])
  {
  }

  lemma Begins(f: Fixes) returns (run: seq<Event>, c: Cluster)
    ensures c == Run(f, FIVE, run) && c.nodes.Keys == Members(FIVE)
    ensures forall s :: s in FIVE ==> Sits(c, s, 0, [SENTINEL]) && c.nodes[s].disk == Boot(s).disk
  {
    run, c := [], Start(FIVE);
  }

  /** a leads term 1 and appends A. */
  lemma AppendsA(f: Fixes) returns (run: seq<Event>, c: Cluster)
    requires CopiesForgotten(f)
    ensures c == Run(f, FIVE, run) && Sits(c, "a", 1, [SENTINEL, A]) && c.nodes["a"].disk == Boot("a").disk
    ensures Sits(c, "q", 1, [SENTINEL]) && Sits(c, "r", 1, [SENTINEL])
    ensures Sits(c, "g", 0, [SENTINEL]) && Sits(c, "b", 0, [SENTINEL])
  {
    hide Run, At, Boot, Members;
    run, c := Begins(f);
    assert "a" in FIVE && "b" in FIVE && "g" in FIVE && "q" in FIVE && "r" in FIVE;
    run, c := Elected(f, run, c, "a", 0, [SENTINEL], 0, "g");
    run, c := Appends(f, run, c, "a", 1, [SENTINEL], [1]);
    assert [SENTINEL] + [A] == [SENTINEL, A];
  }

  /** Then b stands in term 1 and has g's grant. */
  lemma FirstTerm(f: Fixes) returns (run: seq<Event>, c: Cluster)
    requires CopiesForgotten(f)
    ensures c == Run(f, FIVE, run) && Sits(c, "a", 1, [SENTINEL, A]) && c.nodes["a"].disk == Boot("a").disk
    ensures Sits(c, "q", 1, [SENTINEL]) && Sits(c, "r", 1, [SENTINEL]) && Sits(c, "g", 1, [SENTINEL])
    ensures Sits(c, "b", 1, [SENTINEL]) && c.nodes["b"].state == Candidate({"b"})
    ensures Yes("g", "b", 1) in c.network && AskWith("b", "a", 1, [SENTINEL]) in c.network
  {
    hide Run, At, Boot, Members, UpToDate;
    run, c := AppendsA(f);
    FreshLogAccepts([SENTINEL]);
    assert "a" in FIVE && "g" in FIVE;
    run, c := Stands(f, run, c, "b", 0, [SENTINEL], "g", "a");
    run, c := Grants(f, run, c, "g", 0, [SENTINEL], "b", 1, [SENTINEL]);
  }

  /** What is still to come to b. */
  ghost predicate Waiting(c: Cluster) {
    && Sits(c, "b", 1, [SENTINEL]) && c.nodes["b"].state == Candidate({"b"})
    && Yes("g", "b", 1) in c.network && AskWith("b", "a", 1, [SENTINEL]) in c.network
  }

  lemma StillWaiting(c: Cluster, c': Cluster)
    requires Waiting(c) && c'.nodes.Keys == c.nodes.Keys && c.network <= c'.network
    requires "b" in c.nodes && c'.nodes["b"] == c.nodes["b"]
    ensures Waiting(c')
  {
  }

  /** g leads term 2 and appends X. */
  lemma AppendsX(f: Fixes) returns (run: seq<Event>, c: Cluster)
    requires CopiesForgotten(f)
    ensures c == Run(f, FIVE, run) && Sits(c, "a", 1, [SENTINEL, A]) && c.nodes["a"].disk == Boot("a").disk
    ensures Sits(c, "q", 2, [SENTINEL]) && Sits(c, "r", 2, [SENTINEL]) && Sits(c, "g", 2, [SENTINEL, X]) && Waiting(c)
    ensures "b" in c.nodes
  {
    hide Run, At, Boot, Members;
    run, c := FirstTerm(f);
    assert "a" in FIVE;
    run, c := Elected(f, run, c, "g", 1, [SENTINEL], 1, "a");
    run, c := Appends(f, run, c, "g", 2, [SENTINEL], [3]);
    assert [SENTINEL] + [X] == [SENTINEL, X];
  }

  /** a leads term 3, appends E, leads term 4 and sends. */
  lemma LaterTerms(f: Fixes) returns (run: seq<Event>, c: Cluster)
    requires CopiesForgotten(f)
    ensures c == Run(f, FIVE, run) && Sits(c, "a", 4, [SENTINEL, A, E]) && c.nodes["a"].disk == Boot("a").disk
    ensures Sits(c, "g", 2, [SENTINEL, X]) && Waiting(c)
    ensures Announce("a", "g", 4, [SENTINEL, A, E]) in c.network
  {
    hide Run, At, Boot, Members, Waiting;
    run, c := AppendsX(f);
    var before := c;
    assert "q" in FIVE && "r" in FIVE && "g" in FIVE;
    run, c := Stands(f, run, c, "a", 1, [SENTINEL, A], "q", "r");
    run, c := Elected(f, run, c, "a", 2, [SENTINEL, A], 2, "g");
    run, c := Appends(f, run, c, "a", 3, [SENTINEL, A], [4]);
    assert [SENTINEL, A] + [E] == [SENTINEL, A, E];
    run, c := Elected(f, run, c, "a", 3, [SENTINEL, A, E], 3, "g");
    StillWaiting(before, c);
  }

  lemma SitsIs(c: Cluster, id: ServerId, term: nat, log: seq<Entry>)
    requires Sits(c, id, term, log)
    ensures c.nodes[id].id == id && c.nodes[id].mem.log == log
  {
  }

  /** a forgets all of it and votes for b in term 1; b appends B. */
  lemma Forgotten(f: Fixes) returns (run: seq<Event>, c: Cluster)
    requires CopiesForgotten(f)
    ensures c == Run(f, FIVE, run) && Sits(c, "a", 1, [SENTINEL]) && Sits(c, "b", 1, [SENTINEL, B])
    ensures Sits(c, "g", 2, [SENTINEL, X]) && Announce("a", "g", 4, [SENTINEL, A, E]) in c.network
  {
    hide Run, At, Boot, React, Members, UpToDate;
    run, c := LaterTerms(f);
    SitsIs(c, "a", 4, [SENTINEL, A, E]);
    RestartReaction(f, c.nodes["a"]);
    AtId(React(f, FIVE, c.nodes["a"], Restarted("a")).node, "a", 0, [SENTINEL]);
    run, c := Turn(f, FIVE, run, c, Restarted("a"), React(f, FIVE, c.nodes["a"], Restarted("a")));
    FreshLogAccepts([SENTINEL]);
    run, c := Grants(f, run, c, "a", 0, [SENTINEL], "b", 1, [SENTINEL]);
    run, c := Leads(f, run, c, "b", 1, [SENTINEL], "g", "a", "q");
    run, c := Appends(f, run, c, "b", 1, [SENTINEL], [2]);
    assert [SENTINEL] + [B] == [SENTINEL, B];
  }

  lemma AtId(n: Node, id: ServerId, term: nat, log: seq<Entry>)
    requires At(n, id, term, log)
    ensures n.id == id && n.mem.log == log
  {
  }

  /** g has the votes of a and b for term 3. */
  lemma VotedForG(f: Fixes) returns (run: seq<Event>, c: Cluster)
    requires CopiesForgotten(f)
    ensures c == Run(f, FIVE, run) && Sits(c, "g", 3, [SENTINEL, X]) && c.nodes["g"].state == Candidate({"g"})
    ensures Sits(c, "b", 3, [SENTINEL, B]) && Yes("a", "g", 3) in c.network && Yes("b", "g", 3) in c.network
    ensures Announce("a", "g", 4, [SENTINEL, A, E]) in c.network
  {
    hide Run, At, Members, UpToDate;
    run, c := Forgotten(f);
    XIsLater();
    assert "a" in FIVE && "b" in FIVE;
    run, c := Stands(f, run, c, "g", 2, [SENTINEL, X], "a", "b");
    run, c := Grants(f, run, c, "a", 1, [SENTINEL], "g", 3, [SENTINEL, X]);
    run, c := Grants(f, run, c, "b", 1, [SENTINEL, B], "g", 3, [SENTINEL, X]);
  }

  /** It leads and appends Q. */
  lemma AppendsQ(f: Fixes) returns (run: seq<Event>, c: Cluster)
    requires CopiesForgotten(f)
    ensures c == Run(f, FIVE, run) && Sits(c, "g", 3, [SENTINEL, X, Q]) && Sits(c, "b", 3, [SENTINEL, B])
    ensures Announce("a", "g", 4, [SENTINEL, A, E]) in c.network
  {
    hide Run, At, Members;
    run, c := VotedForG(f);
    assert "q" in FIVE;
    run, c := Leads(f, run, c, "g", 3, [SENTINEL, X], "a", "b", "q");
    run, c := Appends(f, run, c, "g", 3, [SENTINEL, X], [5]);
    assert [SENTINEL, X] + [Q] == [SENTINEL, X, Q];
  }

  lemma XIsLater()
    ensures var mine := [SENTINEL, X];
      UpToDate(LastTerm(mine), |mine| - 1, [SENTINEL]) && UpToDate(LastTerm(mine), |mine| - 1, [SENTINEL, B])
  {
  }

  /** a's old request reaches g. */
  lemma {:induction false} LogsDisagree(f: Fixes) returns (run: seq<Event>)
    requires CopiesForgotten(f)
    ensures !LogsMatch(Run(f, FIVE, run))
  {
    hide Run, At, React, Members;
    var c;
    run, c := AppendsQ(f);
    var e := Deliver(Announce("a", "g", 4, [SENTINEL, A, E]));
    CopyReaction(f, c.nodes["g"]);
    SitsIs(c, "g", 3, [SENTINEL, X, Q]);
    SitsIs(c, "b", 3, [SENTINEL, B]);
    run, c := Turn(f, FIVE, run, c, e, React(f, FIVE, c.nodes["g"], e));
    Mismatch(c);
  }

  lemma Mismatch(c: Cluster)
    requires "b" in c.nodes && c.nodes["b"].mem.log == [SENTINEL, B]
    requires "g" in c.nodes && c.nodes["g"].mem.log == [SENTINEL, A, E]
    ensures !LogsMatch(c)
  {
    assert A.command[0] != B.command[0];
    assert c.nodes["g"].mem.log[1].term == c.nodes["b"].mem.log[1].term;
    assert c.nodes["g"].mem.log[..2][1] != c.nodes["b"].mem.log[..2][1];
  }
}
