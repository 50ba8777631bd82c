/** What the history of a run records, exactly, and what the servers' own records say of it: the
    leader a follower names to its clients. */
module Histories {
  import opened RaftTypes
  import opened Nodes
  import opened Clusters
  import Rules

  // ----- what a run is -----

  /** Any server may time out, restart or be asked by a client at any moment, and any packet ever
      sent may be delivered at any moment after; a heartbeat comes from a leader, and a command is
      applied when one is committed, stored and not applied yet. */
  lemma EnabledIff(c: Cluster, s: ServerId, p: Packet, command: Bytes)
    ensures Enabled(c, Timeout(s)) <==> s in c.nodes
    ensures Enabled(c, Restarted(s)) <==> s in c.nodes
    ensures Enabled(c, Request(s, command)) <==> s in c.nodes
    ensures Enabled(c, Deliver(p)) <==> p in c.network && p.dst in c.nodes
    ensures Enabled(c, Heartbeat(s)) <==> s in c.nodes && c.nodes[s].state.Leader?
    ensures Enabled(c, Apply(s))
       <==> s in c.nodes && var n := c.nodes[s]; n.lastApplied < n.commitIndex && n.lastApplied + 1 < |n.mem.log|
  {
  }

  lemma OneMore(f: Fixes, servers: seq<ServerId>, events: seq<Event>, e: Event)
    ensures Run(f, servers, events + [e]) == Step(f, servers, Run(f, servers, events), e)
  {
    assert (events + [e])[..|events|] == events;
  }

  // ----- wins -----

  ghost predicate Leads(c: Cluster, term: nat, s: ServerId) {
    s in c.nodes && c.nodes[s].state.Leader? && c.nodes[s].mem.term == term
  }

  /** Every server is stored under its id, and every leader's win is recorded. */
  ghost predicate LeadersRecorded(c: Cluster) {
    && (forall s :: s in c.nodes ==> c.nodes[s].id == s)
    && (forall s, term :: Leads(c, term, s) ==> Win(term, s) in c.history.wins)
  }

  /** How a server comes to lead, or to lead on, and how long a step leaves it its id. */
  lemma LeadsBy(f: Fixes, servers: seq<ServerId>, n: Node, e: Event)
    requires e.Heartbeat? ==> n.state.Leader?
    requires e.Apply? ==> CanApply(n)
    ensures var n' := React(f, servers, n, e).node;
      && n'.id == n.id
      && (n'.state.Leader? ==>
            || (n.state.Leader? && n'.mem.term == n.mem.term && !e.Timeout?)
            || e.Timeout? || (e.Deliver? && e.packet.msg.VoteResponse? && n.state.Candidate?))
      && (e.Timeout? ==> n'.mem.term == n.mem.term + 1)
  {
    hide Rules.Announces, Rules.Updates, Rules.LeaderCommits, React;
    Rules.StepIff(f, servers, n, e, React(f, servers, n, e));
  }

  /** Which wins a step records. */
  lemma RecordsWin(h: History, n: Node, e: Event, o: Outcome, w: Win)
    requires e.Apply? ==> CanApply(n)
    ensures var records := e.Timeout? || e.Request? || (e.Deliver? && e.packet.msg.VoteResponse? && n.state.Candidate?);
      && (w in h.wins ==> w in Record(h, n, e, o).wins)
      && (w in Record(h, n, e, o).wins && w !in h.wins ==>
            records && o.node.state.Leader? && w == Win(o.node.mem.term, o.node.id))
      && (records && o.node.state.Leader? && !(n.state.Leader? && n.mem.term == o.node.mem.term) ==>
            Win(o.node.mem.term, o.node.id) in Record(h, n, e, o).wins)
  {
  }

  /** A win is recorded by exactly the steps after which the server leads. */
  lemma StepWins(f: Fixes, servers: seq<ServerId>, c: Cluster, e: Event, w: Win)
    requires LeadersRecorded(c)
    ensures LeadersRecorded(Step(f, servers, c, e)) && Step(f, servers, c, e).nodes.Keys == c.nodes.Keys
    ensures w in Step(f, servers, c, e).history.wins
       <==> w in c.history.wins || Leads(Step(f, servers, c, e), w.term, w.leader)
  {
    hide React, Record, CanApply, Enabled;
    var c' := Step(f, servers, c, e);
    if Enabled(c, e) {
      EnabledFacts(c, e);
      var n := c.nodes[Actor(e)];
      var o := React(f, servers, n, e);
      LeadsBy(f, servers, n, e);
      RecordsWin(c.history, n, e, o, w);
      forall s, term | Leads(c', term, s) ensures Win(term, s) in c'.history.wins {
        RecordsWin(c.history, n, e, o, Win(term, s));
        assert s != n.id ==> Leads(c, term, s);
        assert n.state.Leader? ==> Leads(c, n.mem.term, n.id);
      }
    }
  }

  lemma StartRecorded(servers: seq<ServerId>)
    ensures LeadersRecorded(Start(servers)) && Start(servers).history.wins == map[]
    ensures forall s :: s in Start(servers).nodes <==> s in servers
    ensures forall term, s :: !Leads(Start(servers), term, s)
  {
  }

  ghost predicate LedAt(f: Fixes, servers: seq<ServerId>, events: seq<Event>, k: nat, w: Win)
    requires k <= |events|
  {
    Leads(Run(f, servers, events[..k]), w.term, w.leader)
  }

  /** Over every run, under every policy: the wins recorded are those of the servers that have
      led, in the terms in which they did. */
  lemma {:induction false} WonIff(f: Fixes, servers: seq<ServerId>, events: seq<Event>, w: Win)
    ensures LeadersRecorded(Run(f, servers, events))
    ensures forall s :: s in Run(f, servers, events).nodes <==> s in servers
    ensures w in Run(f, servers, events).history.wins
       <==> exists k: nat :: k <= |events| && LedAt(f, servers, events, k, w)
  {
    hide Step, LeadersRecorded, Leads;
    var n := |events|;
    assert events[..n] == events;
    if events == [] {
      StartRecorded(servers);
      assert forall k: nat :: k <= 0 ==> events[..k] == [];
      assert Run(f, servers, []) == Start(servers);
    } else {
      var init := events[..n - 1];
      WonIff(f, servers, init, w);
      StepWins(f, servers, Run(f, servers, init), events[n - 1], w);
      assert forall k: nat :: k < n ==> init[..k] == events[..k];
      assert forall k: nat :: k < n ==> (LedAt(f, servers, events, k, w) <==> LedAt(f, servers, init, k, w));
      assert LedAt(f, servers, events, n, w) <==> Leads(Run(f, servers, events), w.term, w.leader);
    }
  }

  // ----- what a step changes, and what is sent -----

  lemma StepChanges(f: Fixes, servers: seq<ServerId>, c: Cluster, e: Event, s: ServerId)
    requires LeadersRecorded(c) && s in c.nodes
    ensures var c' := Step(f, servers, c, e);
      && s in c'.nodes
      && if Enabled(c, e) && s == Actor(e) then
           c'.nodes[s] == React(f, servers, c.nodes[s], e).node
         else c'.nodes[s] == c.nodes[s]
  {
    hide React, Record;
    if Enabled(c, e) {
      EnabledFacts(c, e);
      LeadsBy(f, servers, c.nodes[Actor(e)], e);
    }
  }

  /** Over every run an event changes the server it is about, as the Rules say, and no other. */
  lemma OnlyTheActorMoves(f: Fixes, servers: seq<ServerId>, events: seq<Event>, e: Event, s: ServerId)
    requires s in servers
    ensures var c, c' := Run(f, servers, events), Run(f, servers, events + [e]);
      && s in c.nodes && s in c'.nodes
      && if Enabled(c, e) && s == Actor(e) then
           exists out :: Rules.Figure2(f, servers, c.nodes[s], e, Outcome(c'.nodes[s], out))
         else c'.nodes[s] == c.nodes[s]
  {
    hide React, Step, LeadersRecorded, Enabled, Rules.Figure2;
    var c := Run(f, servers, events);
    OneMore(f, servers, events, e);
    WonIff(f, servers, events, Win(0, s));
    StepChanges(f, servers, c, e, s);
    if Enabled(c, e) && s == Actor(e) {
      EnabledFacts(c, e);
      var o := React(f, servers, c.nodes[s], e);
      Rules.StepIff(f, servers, c.nodes[s], e, o);
      assert Rules.Figure2(f, servers, c.nodes[s], e, Outcome(o.node, o.out));
    }
  }

  /** The event makes its server send the packet. */
  ghost predicate Sends(f: Fixes, servers: seq<ServerId>, c: Cluster, e: Event, p: Packet) {
    Enabled(c, e) && p in React(f, servers, c.nodes[Actor(e)], e).out
  }

  ghost predicate SentAt(f: Fixes, servers: seq<ServerId>, events: seq<Event>, k: nat, p: Packet)
    requires k < |events|
  {
    Sends(f, servers, Run(f, servers, events[..k]), events[k], p)
  }

  lemma StepSends(f: Fixes, servers: seq<ServerId>, c: Cluster, e: Event, p: Packet)
    ensures p in Step(f, servers, c, e).network <==> p in c.network || Sends(f, servers, c, e, p)
  {
    hide React, Record;
  }

  /** Over every run, under every policy: the packets that may be delivered are those that some
      step has sent, all of them and for good. */
  lemma {:induction false} SentIff(f: Fixes, servers: seq<ServerId>, events: seq<Event>, p: Packet)
    ensures p in Run(f, servers, events).network <==> exists k: nat :: k < |events| && SentAt(f, servers, events, k, p)
  {
    hide Step, Sends;
    if events != [] {
      var n := |events| - 1;
      var init := events[..n];
      SentIff(f, servers, init, p);
      StepSends(f, servers, Run(f, servers, init), events[n], p);
      assert forall k: nat :: k < n ==> init[..k] == events[..k];
      assert forall k: nat :: k < n ==> (SentAt(f, servers, events, k, p) <==> SentAt(f, servers, init, k, p));
      assert SentAt(f, servers, events, n, p) <==> Sends(f, servers, Run(f, servers, init), events[n], p);
    }
  }

  // ----- applied commands -----

  /** The event makes a server apply its next entry. */
  ghost predicate Applies(c: Cluster, e: Event, a: Applied) {
    && e == Apply(a.server) && Enabled(c, e)
    && var n := c.nodes[a.server];
    && a.index == n.lastApplied + 1 && a.command == n.mem.log[a.index].command
  }

  ghost predicate AppliedAt(f: Fixes, servers: seq<ServerId>, events: seq<Event>, k: nat, a: Applied)
    requires k < |events|
  {
    Applies(Run(f, servers, events[..k]), events[k], a)
  }

  lemma RecordsApplied(h: History, n: Node, e: Event, o: Outcome, a: Applied)
    requires e.Apply? ==> CanApply(n)
    ensures a in Record(h, n, e, o).applied
       <==> || a in h.applied
            || (e.Apply? && a == Applied(n.id, n.lastApplied + 1, n.mem.log[n.lastApplied + 1].command))
  {
  }

  lemma StepApplies(f: Fixes, servers: seq<ServerId>, c: Cluster, e: Event, a: Applied)
    requires LeadersRecorded(c)
    ensures a in Step(f, servers, c, e).history.applied <==> a in c.history.applied || Applies(c, e, a)
  {
    hide React, Record;
    if Enabled(c, e) {
      var n := c.nodes[Actor(e)];
      RecordsApplied(c.history, n, e, React(f, servers, n, e), a);
    }
  }

  /** Over every run, under every policy: the commands recorded as applied are the entries the
      servers had next in their logs when they applied them. */
  lemma {:induction false} AppliedIff(f: Fixes, servers: seq<ServerId>, events: seq<Event>, a: Applied)
    ensures a in Run(f, servers, events).history.applied
       <==> exists k: nat :: k < |events| && AppliedAt(f, servers, events, k, a)
  {
    hide Step, LeadersRecorded, Applies;
    if events != [] {
      var n := |events| - 1;
      var init := events[..n];
      AppliedIff(f, servers, init, a);
      WonIff(f, servers, init, Win(0, a.server));
      StepApplies(f, servers, Run(f, servers, init), events[n], a);
      assert forall k: nat :: k < n ==> init[..k] == events[..k];
      assert forall k: nat :: k < n ==> (AppliedAt(f, servers, events, k, a) <==> AppliedAt(f, servers, init, k, a));
      assert AppliedAt(f, servers, events, n, a) <==> Applies(Run(f, servers, init), events[n], a);
    }
  }

  // ----- the leader a follower names -----

  ghost predicate NamesWinner(h: History, n: Node) {
    n.state.Follower? && n.state.leaderId.Some? ==>
      exists term: nat :: term <= n.mem.term && Win(term, n.state.leaderId.value) in h.wins
  }

  ghost predicate FromWinner(h: History, p: Packet) {
    p.msg.AppendEntries? ==> Win(p.msg.term, p.msg.leaderId) in h.wins && p.src == p.msg.leaderId
  }

  ghost predicate Named(c: Cluster) {
    && LeadersRecorded(c)
    && (forall s :: s in c.nodes ==> NamesWinner(c.history, c.nodes[s]))
    && (forall p :: p in c.network ==> FromWinner(c.history, p))
  }

  /** What a step names, and what it sends in a leader's name. */
  lemma NamesBy(f: Fixes, servers: seq<ServerId>, n: Node, e: Event)
    requires e.Heartbeat? ==> n.state.Leader?
    requires e.Apply? ==> CanApply(n)
    ensures var o := React(f, servers, n, e);
      && (o.node.state.Follower? && o.node.state.leaderId.Some? ==>
            || (e.Deliver? && e.packet.msg.AppendEntries? && e.packet.msg.term <= o.node.mem.term
                && o.node.state.leaderId.value == e.packet.msg.leaderId)
            || (n.state == o.node.state && n.mem.term <= o.node.mem.term))
      && (forall p :: p in o.out && p.msg.AppendEntries? ==>
            o.node.state.Leader? && p.src == o.node.id && p.msg.leaderId == o.node.id && p.msg.term == o.node.mem.term)
  {
    hide Rules.Updates, Rules.LeaderCommits, React;
    Rules.StepIff(f, servers, n, e, React(f, servers, n, e));
  }

  lemma StepNames(f: Fixes, servers: seq<ServerId>, c: Cluster, e: Event)
    requires Named(c)
    ensures Named(Step(f, servers, c, e))
  {
    hide React, Record, CanApply, Enabled;
    var c' := Step(f, servers, c, e);
    forall w ensures w in c'.history.wins <==> w in c.history.wins || Leads(c', w.term, w.leader) {
      StepWins(f, servers, c, e, w);
    }
    StepWins(f, servers, c, e, Win(0, Actor(e)));
    if Enabled(c, e) {
      EnabledFacts(c, e);
      NamesBy(f, servers, c.nodes[Actor(e)], e);
      LeadsBy(f, servers, c.nodes[Actor(e)], e);
      assert c'.nodes[Actor(e)].state.Leader? ==> Leads(c', c'.nodes[Actor(e)].mem.term, Actor(e));
      forall s | s in c'.nodes ensures NamesWinner(c'.history, c'.nodes[s]) {
        assert NamesWinner(c.history, c.nodes[s]);
        assert e.Deliver? ==> FromWinner(c.history, e.packet);
      }
      forall p | p in c'.network ensures FromWinner(c'.history, p) {
        assert p in c.network ==> FromWinner(c.history, p);
      }
    }
  }

  /** Over every run, under every policy: the server that a follower names to its clients as the
      leader has won a term no later than the follower's own, and so has the sender of every
      append-entries request in the term of the request. */
  lemma {:induction false} FollowersNameWinners(f: Fixes, servers: seq<ServerId>, events: seq<Event>)
    ensures Named(Run(f, servers, events))
  {
    hide Step, Named;
    if events == [] {
      StartNamed(servers);
    } else {
      FollowersNameWinners(f, servers, events[..|events| - 1]);
      StepNames(f, servers, Run(f, servers, events[..|events| - 1]), events[|events| - 1]);
    }
  }

  lemma StartNamed(servers: seq<ServerId>)
    ensures Named(Start(servers))
  {
  }

  /** The answer a request gets. */
  ghost predicate Answered(c: Cluster, p: Packet)
    requires p.msg.AppendEntries?
  {
    exists x :: x in c.network && x.src == p.dst && x.dst == p.src && x.msg.AppendResponse? && x.msg.term == p.msg.term
      && x.msg.followerId == p.dst
  }

  lemma DeliverFollowed(f: Fixes, servers: seq<ServerId>, c: Cluster, p: Packet)
    requires LeadersRecorded(c) && p in c.network && p.dst in c.nodes && p.msg.AppendEntries?
    requires c.nodes[p.dst].mem.term <= p.msg.term && !Leads(c, p.msg.term, p.dst)
    ensures var n, c' := c.nodes[p.dst], Step(f, servers, c, Deliver(p));
      && p in c'.network && p.dst in c'.nodes
      && c'.nodes[p.dst].state == Follower(Some(p.msg.leaderId)) && c'.nodes[p.dst].mem.term == p.msg.term
      && (Rules.Obeys(n, p.msg) ==> Answered(c', p))
  {
    hide Rules.Updates, Rules.LeaderCommits, React, Record;
    var o := React(f, servers, c.nodes[p.dst], Deliver(p));
    Rules.StepIff(f, servers, c.nodes[p.dst], Deliver(p), o);
    if Rules.Obeys(c.nodes[p.dst], p.msg) {
      assert o.out[0] in Step(f, servers, c, Deliver(p)).network;
    }
  }

  /** After any run, under any policy, delivering a leader's request to a server of an earlier
      term, or to a follower or candidate of its own, makes the server a follower that names
      that leader, in its term; delivered once more, the request is answered. */
  lemma LeadersAreFollowed(f: Fixes, servers: seq<ServerId>, events: seq<Event>, p: Packet)
    requires var c := Run(f, servers, events);
      && p in c.network && p.dst in c.nodes && p.msg.AppendEntries?
      && c.nodes[p.dst].mem.term <= p.msg.term && !Leads(c, p.msg.term, p.dst)
    ensures var c' := Run(f, servers, events + [Deliver(p)]);
      && p.dst in c'.nodes && c'.nodes[p.dst].mem.term == p.msg.term
      && c'.nodes[p.dst].state == Follower(Some(p.src)) && Win(p.msg.term, p.src) in c'.history.wins
    ensures Answered(Run(f, servers, events + [Deliver(p)] + [Deliver(p)]), p)
  {
    hide Step, LeadersRecorded, Answered;
    var e := Deliver(p);
    FollowersNameWinners(f, servers, events);
    WonIff(f, servers, events, Win(0, p.dst));
    OneMore(f, servers, events, e);
    DeliverFollowed(f, servers, Run(f, servers, events), p);
    FollowersNameWinners(f, servers, events + [e]);
    WonIff(f, servers, events + [e], Win(0, p.dst));
    OneMore(f, servers, events + [e], e);
    DeliverFollowed(f, servers, Run(f, servers, events + [e]), p);
  }
}
