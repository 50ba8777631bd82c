/** Log Matching where crashes may find a server ahead of its disk, for every policy under which
    votes bind: whatever a lost memory held, the log it leaves on disk is a copy of leaders' logs. */
module TornMatching {
  import opened RaftTypes
  import opened Logs
  import opened Medians
  import opened Nodes
  import opened Clusters
  import opened Awaits
  import Durability
  import Election
  import opened Matching
  import Steps
  import opened TornWrites

  // ----- a memory nobody has heard of -----

  ghost predicate Grounded(h: History, n: Node) {
    && Traced(h, n.mem.log) && Traced(h, n.disk.log)
    && StoodUpTo(h, n.id, n.mem.term) && StoodUpTo(h, n.id, n.disk.term)
    && n.disk.term <= n.mem.term && Election.Remembers(h, n.id, n.disk.term, n.disk.votedFor)
  }

  /** If it stands for election nobody knows of it, and if it leads it did before. */
  ghost predicate InMemory(h: History, n: Node) {
    && Grounded(h, n)
    && (n.state.Candidate? ==> n.state.votes == {n.id} && Candidacy(n.id, n.mem.term) !in h.candidacies)
    && (n.state.Leader? ==>
          n.mem.term in h.reigns && h.reigns[n.mem.term].leader == n.id && h.reigns[n.mem.term].log == n.mem.log)
  }

  /** Whoever was voted for had stood. */
  ghost predicate StoodFor(h: History) {
    forall b :: b in h.ballots ==> Candidacy(b.candidate, b.term) in h.candidacies
  }

  ghost predicate Reliable(servers: seq<ServerId>, h: History) {
    Distinct(servers) && Election.HistoryOk(servers, h) && ReignsOk(h) && StoodFor(h)
  }

  lemma QuietInMemory(h: History, n: Node, n': Node)
    requires Grounded(h, n) && n'.id == n.id && n'.disk == n.disk && n.mem.term <= n'.mem.term
    requires Traced(h, n'.mem.log)
    requires !n'.state.Follower? ==> InMemory(h, n) && n'.mem.term == n.mem.term && n'.mem.log == n.mem.log
    requires (n'.state.Candidate? ==> n'.state == n.state) && (n'.state.Leader? ==> n.state.Leader?)
    ensures InMemory(h, n')
  {
    hide Traced;
  }

  lemma TimeoutInMemory(f: Fixes, servers: seq<ServerId>, h: History, n: Node)
    requires f.persistsFirst && Grounded(h, n) && |servers| > 1
    ensures InMemory(h, StartElection(f, servers, n).node.(disk := n.disk))
  {
    hide Traced, StartElection;
    Election.StartEffect(f, servers, n);
    assert !IsMajority(servers, {n.id});
    assert Candidacy(n.id, n.mem.term + 1) !in h.candidacies;
  }

  lemma FollowerInMemory(f: Fixes, servers: seq<ServerId>, h: History, b: Node, p: Packet)
    requires ReignsOk(h) && InMemory(h, b) && PacketOk(h, p) && b.state.Follower?
    ensures InMemory(h, Dispatch(f, servers, b, p.src, p.msg).node.(disk := b.disk))
  {
    hide Traced, ReignsOk, Carries, Nodes.Matches, Merge, FollowerCommit;
    if p.msg.AppendEntries? && Nodes.Matches(b.mem.log, p.msg) {
      AcceptTraced(f, h, b, p);
    }
    var n' := Dispatch(f, servers, b, p.src, p.msg).node.(disk := b.disk);
    assert n'.state.Follower? && n'.mem.term == b.mem.term;
    QuietInMemory(h, b, n');
  }

  /** Nobody votes for a candidate nobody has heard of. */
  lemma NoVote(servers: seq<ServerId>, h: History, n: Node, p: Packet)
    requires StoodFor(h) && n.state.Candidate? && Candidacy(n.id, n.mem.term) !in h.candidacies
    requires Election.PacketOk(servers, h, p) && p.dst == n.id && p.msg.VoteResponse? && p.msg.term == n.mem.term
    ensures !p.msg.voteGranted
  {
  }

  lemma CandidateInMemory(f: Fixes, servers: seq<ServerId>, h: History, b: Node, p: Packet)
    requires f.countsOwnTerm && StoodFor(h) && InMemory(h, b) && b.state.Candidate?
    requires Election.PacketOk(servers, h, p) && p.dst == b.id
    ensures InMemory(h, Dispatch(f, servers, b, p.src, p.msg).node.(disk := b.disk))
  {
    hide Traced, BecomeLeader, StoodFor, Election.PacketOk;
    if p.msg.VoteResponse? && p.msg.term == b.mem.term {
      NoVote(servers, h, b, p);
    }
    QuietInMemory(h, b, Dispatch(f, servers, b, p.src, p.msg).node.(disk := b.disk));
  }

  lemma LeaderInMemory(f: Fixes, servers: seq<ServerId>, h: History, b: Node, p: Packet)
    requires InMemory(h, b) && b.state.Leader?
    ensures InMemory(h, Dispatch(f, servers, b, p.src, p.msg).node.(disk := b.disk))
  {
    hide Traced, UpdateIndexes, CommitScan, Median, Values;
    if p.msg.AppendResponse? {
      UpdateLeads(f, b.state, p.msg);
    }
    QuietInMemory(h, b, Dispatch(f, servers, b, p.src, p.msg).node.(disk := b.disk));
  }

  lemma DeliverInMemory(f: Fixes, servers: seq<ServerId>, h: History, n: Node, p: Packet)
    requires f.countsOwnTerm && ReignsOk(h) && StoodFor(h) && Grounded(h, n)
    requires InMemory(h, n) || p.msg.term > n.mem.term
    requires Election.PacketOk(servers, h, p) && PacketOk(h, p) && p.dst == n.id
    ensures InMemory(h, Receive(f, servers, n, p.src, p.msg).node.(disk := n.disk))
  {
    hide Traced, Dispatch, ReignsOk, StoodFor, Election.PacketOk, PacketOk;
    var b := Bump(n, p.msg);
    if p.msg.term > n.mem.term {
      QuietInMemory(h, n, b);
    }
    match b.state
    case Follower(_) => FollowerInMemory(f, servers, h, b, p);
    case Candidate(_) => CandidateInMemory(f, servers, h, b, p);
    case Leader(_, _) => LeaderInMemory(f, servers, h, b, p);
  }

  /** A leader's own entry. */
  lemma RequestInMemory(h: History, h': History, n: Node, n': Node)
    requires ReignsOk(h) && InMemory(h, n) && n.state.Leader?
    requires n' == n.(mem := n.mem.(log := n'.mem.log)) && Steps.OneMore(n, n'.mem.log)
    requires Steps.Lengthened(h, h', n, n'.mem.log) && h'.copies == h.copies && h'.applied == h.applied
    ensures Outgrown(h, h', n.id) && ReignsOk(h') && InMemory(h', n')
  {
    hide Traced, ReignsOk;
    GrownOk(h, n, n', h');
  }

  lemma ApplyInMemory(h: History, n: Node)
    requires ReignsOk(h) && InMemory(h, n) && CanApply(n)
    ensures var h' := RecordApplied(h, n);
      Outgrown(h, h', n.id) && ReignsOk(h') && InMemory(h', ApplyNext(n))
  {
    hide Traced;
    SameReigns(h, RecordApplied(h, n));
  }

  // ----- each doing -----

  ghost predicate Sent(servers: seq<ServerId>, h: History, e: Event) {
    e.Deliver? ==> Election.PacketOk(servers, h, e.packet) && PacketOk(h, e.packet)
  }

  lemma RanInMemory(p: Policy, servers: seq<ServerId>, h: History, n: Node, e: Event)
    requires Election.VotesBind(p.fixes) && |servers| > 1
    requires ReignsOk(h) && StoodFor(h) && InMemory(h, n) && Runs(n, e) && Sent(servers, h, e)
    ensures var h', n' := Leave(p, servers, h, n, Ran(e)), Do(p, servers, n, Ran(e));
      Outgrown(h, h', n.id) && ReignsOk(h') && InMemory(h', n')
  {
    hide Traced, ReignsOk, StoodFor, StartElection, Receive, Election.PacketOk, PacketOk, SendAppendEntries, CanApply;
    match e
    case Timeout(_) => TimeoutInMemory(p.fixes, servers, h, n);
    case Deliver(packet) => DeliverInMemory(p.fixes, servers, h, n, packet);
    case Heartbeat(_) => QuietShape(p, servers, n, e);
    case Request(_, command) =>
      if n.state.Leader? {
        RequestShape(p, servers, h, n, command);
        RequestInMemory(h, Leave(p, servers, h, n, Ran(e)), n, Do(p, servers, n, Ran(e)));
      } else {
        QuietShape(p, servers, n, e);
      }
    case Apply(_) => ApplyInMemory(h, n);
  }

  lemma WroteInMemory(p: Policy, servers: seq<ServerId>, h: History, n: Node, file: File)
    requires p.termFirst && InMemory(h, n)
    ensures InMemory(h, Do(p, servers, n, Wrote(file)))
  {
    hide Traced;
  }

  lemma OutgrownReliable(servers: seq<ServerId>, h: History, h': History, id: ServerId)
    requires Reliable(servers, h) && Outgrown(h, h', id) && ReignsOk(h')
    ensures Reliable(servers, h')
  {
    hide ReignsOk;
    forall w | w in h'.wins ensures Election.WinOk(servers, h', w) {
      assert Election.WinOk(servers, h, w);
    }
  }

  lemma DoInMemory(p: Policy, servers: seq<ServerId>, h: History, n: Node, d: Doing)
    requires Election.VotesBind(p.fixes) && p.termFirst && |servers| > 1
    requires Reliable(servers, h) && InMemory(h, n) && (d.Ran? ==> Sent(servers, h, d.event))
    ensures var h', n' := Leave(p, servers, h, n, d), Do(p, servers, n, d);
      Outgrown(h, h', n.id) && Reliable(servers, h') && InMemory(h', n') && n'.id == n.id
  {
    hide ReignsOk, InMemory, Sent, Runs, WriteFile;
    DoKeepsId(p, servers, n, d);
    if d.Wrote? {
      WroteInMemory(p, servers, h, n, d.file);
      OutgrownSame(h, n.id);
    } else if Runs(n, d.event) {
      RanInMemory(p, servers, h, n, d.event);
      OutgrownReliable(servers, h, Leave(p, servers, h, n, d), n.id);
    } else {
      OutgrownSame(h, n.id);
    }
  }

  // ----- the first of them -----

  lemma NodeInMemory(servers: seq<ServerId>, h: History, n: Node)
    requires Matching.NodeOk(h, n) && Election.NodeOk(servers, h, n) && n.disk.term <= n.mem.term
    ensures Grounded(h, n) && (!n.state.Candidate? ==> InMemory(h, n))
  {
    hide Traced;
  }

  lemma FirstInMemory(p: Policy, servers: seq<ServerId>, h: History, n: Node, d: Doing)
    requires Election.VotesBind(p.fixes) && p.termFirst && |servers| > 1
    requires Reliable(servers, h) && Matching.NodeOk(h, n) && Election.NodeOk(servers, h, n) && OnDisk(p.fixes, n)
    requires Begins(p, servers, n, d) && Sent(servers, h, d.event)
    ensures var h', n' := Leave(p, servers, h, n, d), Do(p, servers, n, d);
      Outgrown(h, h', n.id) && Reliable(servers, h') && InMemory(h', n') && n'.id == n.id
  {
    hide ReignsOk, Matching.NodeOk, Election.NodeOk, InMemory, Grounded, PacketOk, Election.PacketOk, StartElection,
      Receive, Durability.SelfVoted;
    NodeInMemory(servers, h, n);
    if n.state.Candidate? {
      CandidateBegins(p.fixes, servers, n, d.event);
      DoKeepsId(p, servers, n, d);
      OutgrownSame(h, n.id);
      if d.event.Timeout? {
        TimeoutInMemory(p.fixes, servers, h, n);
      } else {
        DeliverInMemory(p.fixes, servers, h, n, d.event.packet);
      }
    } else {
      DoInMemory(p, servers, h, n, d);
    }
  }

  // ----- all of them -----

  lemma OutgrownGrows(h: History, h': History, id: ServerId)
    requires Outgrown(h, h', id)
    ensures Grows(h, h', id) && Election.Extends(h, h', id)
  {
  }

  lemma SentStays(servers: seq<ServerId>, h: History, h': History, id: ServerId, e: Event)
    requires Outgrown(h, h', id) && Sent(servers, h, e)
    ensures Sent(servers, h', e)
  {
    hide PacketOk, Grows, Outgrown, Election.Extends, Election.PacketOk;
    OutgrownGrows(h, h', id);
    if e.Deliver? {
      PacketStaysOk(h, h', id, e.packet);
      Election.PacketStaysOk(servers, h, h', id, e.packet);
    }
  }

  lemma {:induction false} HalfwayInMemory(p: Policy, servers: seq<ServerId>, h: History, n: Node, doings: seq<Doing>)
    requires Election.VotesBind(p.fixes) && p.termFirst && |servers| > 1
    requires Reliable(servers, h) && Matching.NodeOk(h, n) && Election.NodeOk(servers, h, n) && OnDisk(p.fixes, n)
    requires doings != [] && Begins(p, servers, n, doings[0])
    requires forall e :: Ran(e) in doings ==> Sent(servers, h, e)
    ensures var h', n' := Traces(p, servers, h, n, doings), Halfway(p, servers, n, doings);
      Outgrown(h, h', n.id) && Reliable(servers, h') && InMemory(h', n') && n'.id == n.id
  {
    hide Reliable, Matching.NodeOk, Election.NodeOk, OnDisk, Begins, Sent, Outgrown, InMemory, Do, Leave;
    var init, d := doings[..|doings| - 1], doings[|doings| - 1];
    assert d in doings && forall x :: x in init ==> x in doings;
    if init == [] {
      BeginsMeans(p, servers, n, d);
      FirstInMemory(p, servers, h, n, d);
    } else {
      HalfwayInMemory(p, servers, h, n, init);
      var h1, n1 := Traces(p, servers, h, n, init), Halfway(p, servers, n, init);
      if d.Ran? {
        SentStays(servers, h, h1, n.id, d.event);
      }
      DoInMemory(p, servers, h1, n1, d);
      OutgrownTwice(h, h1, Leave(p, servers, h1, n1, d), n.id);
    }
  }

  lemma RestartedOk(f: Fixes, servers: seq<ServerId>, h: History, n: Node)
    requires f.reloadsVote && Grounded(h, n)
    ensures var r := Restart(f, n);
      Matching.NodeOk(h, r) && Election.NodeOk(servers, h, r) && OnDisk(f, r) && r.id == n.id
  {
    hide Traced;
  }

  // ----- whole steps -----

  /** A vote request comes from a server that stood. */
  ghost predicate Announced(h: History, p: Packet) {
    p.msg.RequestVote? ==> Candidacy(p.src, p.msg.term) in h.candidacies
  }

  ghost predicate StoodOk(h: History, h': History, out: seq<Packet>) {
    StoodFor(h') && h.candidacies.Keys <= h'.candidacies.Keys && forall p :: p in out ==> Announced(h', p)
  }

  lemma TimeoutStood(f: Fixes, servers: seq<ServerId>, h: History, n: Node)
    requires f.persistsFirst && StoodFor(h)
    ensures var o := StartElection(f, servers, n);
      StoodOk(h, RecordReign(RecordCandidacy(h, n, o.node), n, o.node, {n.id}), o.out)
  {
    hide StartElection;
    Election.StartEffect(f, servers, n);
  }

  lemma DeliverStood(f: Fixes, servers: seq<ServerId>, h: History, n: Node, p: Packet)
    requires Election.VotesBind(f) && StoodFor(h) && Announced(h, p) && Election.PacketOk(servers, h, p)
    ensures var o := Receive(f, servers, n, p.src, p.msg); StoodOk(h, Record(h, n, Deliver(p), o), o.out)
  {
    hide BecomeLeader, Merge, Nodes.Matches, UpdateIndexes, CommitScan, Median, Values, FollowerCommit, RecordReign;
    var b := Bump(n, p.msg);
    var o := Receive(f, servers, n, p.src, p.msg);
    if p.msg.VoteResponse? {
      ReignKeepsVotes(h, n, o.node, if n.state.Candidate? then n.state.votes + {p.src} else {});
      if b.state.Candidate? {
        Election.LeadEffect(f, servers, b.(state := Candidate(b.state.votes + {p.src})));
      }
    } else if p.msg.RequestVote? {
      if b.state.Follower? {
        hide OnRequestVote, RecordGrant;
        Election.GrantShape(f, h, b, p);
      }
    }
  }

  lemma SendStood(f: Fixes, servers: seq<ServerId>, h: History, n: Node, h': History)
    requires StoodFor(h) && n.state.Leader? && h'.ballots == h.ballots && h'.candidacies == h.candidacies
    ensures StoodOk(h, h', SendAppendEntries(f, servers, n).out)
  {
    hide SendAppendEntries;
    Election.SendEffect(f, servers, n);
  }

  lemma EventStood(f: Fixes, servers: seq<ServerId>, h: History, n: Node, e: Event)
    requires Election.VotesBind(f) && StoodFor(h)
    requires e.Deliver? ==> Announced(h, e.packet) && Election.PacketOk(servers, h, e.packet)
    requires e.Heartbeat? ==> n.state.Leader?
    requires e.Apply? ==> CanApply(n)
    ensures var o := React(f, servers, n, e); StoodOk(h, Record(h, n, e, o), o.out)
  {
    hide StartElection, Receive, SendAppendEntries, Announced, RecordReign;
    match e
    case Timeout(_) =>
      hide *;
      TimeoutStood(f, servers, h, n);
    case Deliver(p) => DeliverStood(f, servers, h, n, p);
    case Heartbeat(_) => SendStood(f, servers, h, n, h);
    case Request(_, command) =>
      var o := React(f, servers, n, e);
      ReignKeepsVotes(h, n, o.node, {});
      if n.state.Leader? {
        var n1 := n.(mem := n.mem.(log := n.mem.log + [Entry(command, |n.mem.log|, n.mem.term)]));
        SendStood(f, servers, h, n1, Record(h, n, e, o));
      }
    case Apply(_) =>
    case Restarted(_) =>
  }

  lemma ReignKeepsVotes(h: History, n: Node, n': Node, quorum: set<ServerId>)
    ensures var h' := RecordReign(h, n, n', quorum); h'.ballots == h.ballots && h'.candidacies == h.candidacies
  {
  }

  // ----- every run -----

  ghost predicate Inv(f: Fixes, servers: seq<ServerId>, c: Cluster) {
    && Matching.Inv(servers, c) && StoodFor(c.history)
    && (forall s :: s in c.nodes ==> OnDisk(f, c.nodes[s]))
    && (forall p :: p in c.network ==> Announced(c.history, p))
  }

  lemma WholeOk(f: Fixes, servers: seq<ServerId>, c: Cluster, e: Event)
    requires Election.VotesBind(f) && Inv(f, servers, c) && Enabled(c, e)
    ensures Inv(f, servers, Step(f, servers, c, e))
  {
    hide Matching.Inv, OnDisk, React, Record, Election.PacketOk, CanApply, StoodFor;
    var h, n, c' := c.history, c.nodes[Actor(e)], Step(f, servers, c, e);
    EnabledFacts(c, e);
    ActorHeard(servers, c, e);
    NodeIs(f, servers, c, Actor(e));
    StepKeepsInv(f, servers, c, e);
    ReactOnDisk(f, servers, n, e);
    EventStood(f, servers, h, n, e);
  }

  lemma ActorHeard(servers: seq<ServerId>, c: Cluster, e: Event)
    requires Matching.Inv(servers, c) && Enabled(c, e)
    ensures c.nodes[Actor(e)].id == Actor(e)
    ensures e.Deliver? ==> Election.PacketOk(servers, c.history, e.packet)
  {
    hide ReignsOk, Matching.NodeOk, PacketOk, Election.NodeOk, Election.PacketOk, Election.HistoryOk;
  }

  lemma NodeIs(f: Fixes, servers: seq<ServerId>, c: Cluster, s: ServerId)
    requires Inv(f, servers, c) && s in c.nodes
    ensures c.nodes[s].disk.term <= c.nodes[s].mem.term
  {
    hide Matching.Inv;
    assert OnDisk(f, c.nodes[s]);
  }

  lemma InvIsReliable(f: Fixes, servers: seq<ServerId>, c: Cluster, s: ServerId)
    requires Inv(f, servers, c) && s in c.nodes
    ensures Reliable(servers, c.history) && c.nodes[s].id == s && OnDisk(f, c.nodes[s])
    ensures Matching.NodeOk(c.history, c.nodes[s]) && Election.NodeOk(servers, c.history, c.nodes[s])
  {
    hide ReignsOk, Matching.NodeOk, PacketOk, Election.NodeOk, Election.PacketOk, Election.HistoryOk, OnDisk;
  }

  lemma InvIsSent(f: Fixes, servers: seq<ServerId>, c: Cluster, e: Event)
    requires Inv(f, servers, c) && (e.Deliver? ==> e.packet in c.network)
    ensures Sent(servers, c.history, e)
  {
    hide ReignsOk, Matching.NodeOk, PacketOk, Election.NodeOk, Election.PacketOk, Election.HistoryOk, OnDisk;
  }

  /** The lost memory and the history it leaves. */
  lemma LostOk(p: Policy, servers: seq<ServerId>, c: Cluster, s: ServerId, doings: seq<Doing>)
    requires Election.VotesBind(p.fixes) && p.termFirst && |servers| > 1
    requires Inv(p.fixes, servers, c) && Tears(p, servers, c, s, doings)
    ensures var n := c.nodes[s];
      var h', n' := Traces(p, servers, c.history, n, doings), Halfway(p, servers, n, doings);
      n'.id == s && Outgrown(c.history, h', s) && Reliable(servers, h') && Grounded(h', n')
  {
    hide Inv, Reliable, Matching.NodeOk, Election.NodeOk, InMemory, Grounded, Outgrown, Begins, Sent,
      Durability.SelfVoted;
    var h, n := c.history, c.nodes[s];
    InvIsReliable(p.fixes, servers, c, s);
    if doings == [] {
      NodeInMemory(servers, h, n);
      OutgrownSame(h, s);
    } else {
      forall e | Ran(e) in doings ensures Sent(servers, h, e) {
        InvIsSent(p.fixes, servers, c, e);
      }
      HalfwayInMemory(p, servers, h, n, doings);
      IsGrounded(Traces(p, servers, h, n, doings), Halfway(p, servers, n, doings));
    }
  }

  lemma IsGrounded(h: History, n: Node)
    requires InMemory(h, n)
    ensures Grounded(h, n)
  {
  }

  /** The other servers and the packets sent. */
  lemma RestOk(f: Fixes, servers: seq<ServerId>, c: Cluster, h': History, s: ServerId)
    requires Inv(f, servers, c) && Outgrown(c.history, h', s)
    ensures forall t :: t in c.nodes && t != s ==>
      Matching.NodeOk(h', c.nodes[t]) && Election.NodeOk(servers, h', c.nodes[t])
    ensures forall p :: p in c.network ==>
      PacketOk(h', p) && Election.PacketOk(servers, h', p) && Announced(h', p)
  {
    hide ReignsOk, Matching.NodeOk, Election.NodeOk, OnDisk, PacketOk, Election.PacketOk, Election.HistoryOk, Grows,
      Election.Extends;
    var h := c.history;
    OutgrownGrows(h, h', s);
    forall t | t in c.nodes && t != s
      ensures Matching.NodeOk(h', c.nodes[t]) && Election.NodeOk(servers, h', c.nodes[t])
    {
      OtherNodeOk(h, h', s, c.nodes[t]);
      Election.OtherNodeOk(servers, h, h', s, c.nodes[t]);
    }
    forall p | p in c.network ensures PacketOk(h', p) && Election.PacketOk(servers, h', p) && Announced(h', p) {
      PacketStaysOk(h, h', s, p);
      Election.PacketStaysOk(servers, h, h', s, p);
    }
  }

  lemma InvIsPlaced(f: Fixes, servers: seq<ServerId>, c: Cluster)
    requires Inv(f, servers, c)
    ensures Election.Placed(servers, c) && forall s :: s in c.nodes ==> OnDisk(f, c.nodes[s])
  {
    hide OnDisk;
  }

  lemma Assembled(f: Fixes, servers: seq<ServerId>, c: Cluster, r: Node, h': History)
    requires Election.Placed(servers, c) && r.id in c.nodes && Reliable(servers, h')
    requires Matching.NodeOk(h', r) && Election.NodeOk(servers, h', r) && OnDisk(f, r)
    requires forall t :: t in c.nodes && t != r.id ==>
      Matching.NodeOk(h', c.nodes[t]) && Election.NodeOk(servers, h', c.nodes[t])
    requires forall t :: t in c.nodes ==> OnDisk(f, c.nodes[t])
    requires forall p :: p in c.network ==> PacketOk(h', p) && Election.PacketOk(servers, h', p) && Announced(h', p)
    ensures Inv(f, servers, Cluster(c.nodes[r.id := r], c.network, h'))
  {
    hide ReignsOk, Matching.NodeOk, Election.NodeOk, Election.HistoryOk, OnDisk, PacketOk, Election.PacketOk, StoodFor,
      Announced;
  }

  /** A crash in the middle keeps the invariant. */
  lemma TornOk(p: Policy, servers: seq<ServerId>, c: Cluster, s: ServerId, doings: seq<Doing>)
    requires Election.VotesBind(p.fixes) && p.termFirst && |servers| > 1 && Inv(p.fixes, servers, c)
    ensures Inv(p.fixes, servers, Happen(p, servers, c, TornWrites.Torn(s, doings)))
  {
    hide Traces, Halfway, Inv, Matching.NodeOk, Election.NodeOk, OnDisk, Grounded, Outgrown, PacketOk,
      Election.PacketOk, Restart, Tears, Reliable, Announced, Election.Placed;
    if Tears(p, servers, c, s, doings) {
      TearsAt(p, servers, c, s, doings);
      var f, h' := p.fixes, Traces(p, servers, c.history, c.nodes[s], doings);
      InvIsPlaced(f, servers, c);
      LostOk(p, servers, c, s, doings);
      RestartedOk(f, servers, h', Halfway(p, servers, c.nodes[s], doings));
      RestOk(f, servers, c, h', s);
      Assembled(f, servers, c, Restart(f, Halfway(p, servers, c.nodes[s], doings)), h');
    }
  }

  lemma {:induction false} RunKeepsInv(p: Policy, servers: seq<ServerId>, happenings: seq<Happening>)
    requires Election.VotesBind(p.fixes) && p.termFirst && Distinct(servers) && |servers| > 1
    ensures Inv(p.fixes, servers, TornRun(p, servers, happenings))
  {
    hide Inv, Step, Tears, Enabled;
    if happenings == [] {
      StartOk(p.fixes, servers);
    } else {
      var c := TornRun(p, servers, happenings[..|happenings| - 1]);
      RunKeepsInv(p, servers, happenings[..|happenings| - 1]);
      match happenings[|happenings| - 1]
      case Whole(e) =>
        if Enabled(c, e) {
          WholeOk(p.fixes, servers, c, e);
        } else {
          NothingHappens(p.fixes, servers, c, e);
        }
      case Torn(s, doings) => TornOk(p, servers, c, s, doings);
    }
  }

  lemma StartOk(f: Fixes, servers: seq<ServerId>)
    requires Election.VotesBind(f) && Distinct(servers)
    ensures Inv(f, servers, Start(servers))
  {
    hide Matching.Inv;
    Matching.StartOk(f, servers);
  }

  lemma InvMatches(servers: seq<ServerId>, c: Cluster)
    requires Matching.Inv(servers, c)
    ensures LogsMatch(c)
  {
    hide Traced, ReignsOk, Election.Inv;
    forall s, t, i | s in c.nodes && t in c.nodes && 0 <= i < |c.nodes[s].mem.log| && i < |c.nodes[t].mem.log|
      && c.nodes[s].mem.log[i].term == c.nodes[t].mem.log[i].term
      ensures c.nodes[s].mem.log[..i + 1] == c.nodes[t].mem.log[..i + 1]
    {
      assert Matching.NodeOk(c.history, c.nodes[s]) && Matching.NodeOk(c.history, c.nodes[t]);
      SameTermSamePrefix(c.history, c.nodes[s].mem.log, c.nodes[t].mem.log, i);
    }
  }

  /** Log Matching whatever replication does, crashes of servers ahead of their disks included. */
  lemma {:induction false} LogMatching(p: Policy, servers: seq<ServerId>, happenings: seq<Happening>)
    requires Election.VotesBind(p.fixes) && p.termFirst && Distinct(servers) && |servers| > 1
    ensures LogsMatch(TornRun(p, servers, happenings))
  {
    hide TornRun, Matching.Inv;
    RunKeepsInv(p, servers, happenings);
    InvMatches(servers, TornRun(p, servers, happenings));
  }
}
