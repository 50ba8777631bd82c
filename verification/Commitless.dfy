/** What line 99 of the leader costs: while matchIndex is taken from the follower's commit
    index nothing is ever committed, whatever else is corrected. */
module Commitless {
  import opened RaftTypes
  import opened Logs
  import opened Medians
  import opened Nodes
  import opened Clusters

  ghost predicate NoMatches(table: Table) {
    forall k :: k in table.at ==> table.at[k] == 0
  }

  ghost predicate NothingCommitted(n: Node) {
    n.commitIndex == 0 && (n.state.Leader? ==> NoMatches(n.state.matchIndex))
  }

  ghost predicate NothingTold(p: Packet) {
    && (p.msg.AppendEntries? ==> p.msg.leaderCommit == 0)
    && (p.msg.AppendResponse? ==> p.msg.followerCommit == 0)
  }

  ghost predicate Barren(c: Cluster) {
    && (forall s :: s in c.nodes ==> c.nodes[s].id == s && NothingCommitted(c.nodes[s]))
    && (forall p :: p in c.network ==> NothingTold(p))
    && c.history.applied == {}
  }

  ghost predicate BarrenStep(n: Node, o: Outcome) {
    o.node.id == n.id && NothingCommitted(o.node) && forall p :: p in o.out ==> NothingTold(p)
  }

  lemma MedianIsMember(numeric: bool, xs: seq<nat>)
    requires |xs| > 0
    ensures Median(numeric, xs) in xs
  {
    var sorted := Sort(numeric, xs);
    SortSorts(numeric, xs);
    assert Median(numeric, xs) in sorted;
    assert Median(numeric, xs) in multiset(sorted);
  }

  lemma SendBarren(f: Fixes, servers: seq<ServerId>, n: Node)
    requires n.state.Leader? && NothingCommitted(n)
    ensures BarrenStep(n, SendAppendEntries(f, servers, n))
  {
  }

  lemma LeadBarren(f: Fixes, servers: seq<ServerId>, n: Node)
    requires n.commitIndex == 0
    ensures BarrenStep(n, BecomeLeader(f, servers, n))
  {
    var keys := IndexKeys(f, Peers(servers, n.id));
    SendBarren(f, servers, n.(state := Leader(map k | k in keys :: Num(|n.mem.log|), FreshTable(keys))));
  }

  lemma StartBarren(f: Fixes, servers: seq<ServerId>, n: Node)
    requires n.commitIndex == 0
    ensures BarrenStep(n, StartElection(f, servers, n))
  {
    hide BecomeLeader;
    var n1 := Stand(f, n);
    LeadBarren(f, servers, n1);
  }

  lemma AppendResponseBarren(f: Fixes, n: Node, m: Message)
    requires !f.matchesReplicated && n.state.Leader? && NothingCommitted(n)
    requires m.AppendResponse? && m.followerCommit == 0
    ensures BarrenStep(n, OnAppendResponse(f, n, m))
  {
    var n1 := n.(state := UpdateIndexes(f, n.state, m));
    var values := Values(n1.state.matchIndex);
    assert NothingCommitted(n1);
    assert forall v :: v in values ==> v == 0;
    if values != [] {
      MedianIsMember(false, values);
    }
  }

  lemma ReceiveBarren(f: Fixes, servers: seq<ServerId>, n: Node, src: ServerId, m: Message)
    requires !f.matchesReplicated && NothingCommitted(n)
    requires m.AppendEntries? ==> m.leaderCommit == 0
    requires m.AppendResponse? ==> m.followerCommit == 0
    ensures BarrenStep(n, Receive(f, servers, n, src, m))
  {
    hide BecomeLeader, OnAppendResponse, Merge, Matches, GrantsVote;
    var b := Bump(n, m);
    assert NothingCommitted(b) && b.id == n.id;
    if b.state.Candidate? && m.VoteResponse? {
      LeadBarren(f, servers, b.(state := Candidate(b.state.votes + {src})));
    } else if b.state.Leader? && m.AppendResponse? {
      AppendResponseBarren(f, b, m);
    }
  }

  lemma EventBarren(f: Fixes, servers: seq<ServerId>, c: Cluster, e: Event)
    requires !f.matchesReplicated && Barren(c) && Enabled(c, e)
    ensures BarrenStep(c.nodes[Actor(e)], React(f, servers, c.nodes[Actor(e)], e)) && !e.Apply?
  {
    hide StartElection, Receive, SendAppendEntries, Restart;
    var n := c.nodes[Actor(e)];
    assert NothingCommitted(n);
    match e
    case Timeout(_) => StartBarren(f, servers, n);
    case Deliver(p) =>
      assert NothingTold(p);
      ReceiveBarren(f, servers, n, p.src, p.msg);
    case Heartbeat(_) => SendBarren(f, servers, n);
    case Request(_, command) =>
      if n.state.Leader? {
        SendBarren(f, servers, n.(mem := n.mem.(log := n.mem.log + [Entry(command, |n.mem.log|, n.mem.term)])));
      }
    case Apply(_) =>
    case Restarted(_) => RestartBarren(f, n);
  }

  lemma RestartBarren(f: Fixes, n: Node)
    ensures BarrenStep(n, Outcome(Restart(f, n), []))
  {
  }

  lemma RecordKeepsApplied(h: History, n: Node, e: Event, o: Outcome)
    requires !e.Apply?
    ensures Record(h, n, e, o).applied == h.applied
  {
  }

  /** Every commit index is 0 after every run, and nothing was applied. */
  lemma {:induction false} NothingIsEverCommitted(f: Fixes, servers: seq<ServerId>, events: seq<Event>)
    requires !f.matchesReplicated
    ensures Barren(Run(f, servers, events))
  {
    hide React, Record, NothingCommitted, NothingTold;
    if events == [] {
      StartIsBarren(servers);
    } else {
      var c, e := Run(f, servers, events[..|events| - 1]), events[|events| - 1];
      NothingIsEverCommitted(f, servers, events[..|events| - 1]);
      if Enabled(c, e) {
        EventBarren(f, servers, c, e);
        RecordKeepsApplied(c.history, c.nodes[Actor(e)], e, React(f, servers, c.nodes[Actor(e)], e));
      }
    }
  }

  lemma StartIsBarren(servers: seq<ServerId>)
    ensures Barren(Start(servers))
  {
  }

  /** The source as written: on no server of any cluster, in no run, is anything committed or
      applied. */
  lemma AsWrittenNeverApplies(servers: seq<ServerId>, events: seq<Event>)
    ensures var c := Run(AS_WRITTEN, servers, events);
      c.history.applied == {} && forall s :: s in c.nodes ==> c.nodes[s].commitIndex == 0
  {
    hide Run;
    NothingIsEverCommitted(AS_WRITTEN, servers, events);
  }
}
