/** Election Safety with every await taken apart, and crashes between any two file writes: it
    holds when no handler runs while something of its server waits, the term is written before
    the vote, and no failed write raises a flag, because none fails or because the callback checks. */
module AwaitSafety {
  import opened RaftTypes
  import opened Medians
  import opened Nodes
  import opened Clusters
  import Election
  import opened Awaits

  /** The handlers are corrected, wait for their writes, and the writes are in the right order. */
  predicate Guarded(p: Policy) {
    Election.VotesBind(p.fixes) && p.serial && p.termFirst
  }

  // ----- votes, as far as anybody else can know of them -----

  ghost predicate Asked(net: set<Packet>, id: ServerId, term: nat) {
    exists p :: p in net && p.src == id && p.msg.RequestVote? && p.msg.term == term
  }

  /** A vote that has left its server: a grant, or the candidate's own, told by its requests. */
  ghost predicate Voted(net: set<Packet>, voter: ServerId, term: nat, candidate: ServerId) {
    || Packet(voter, candidate, VoteResponse(term, true)) in net
    || (voter == candidate && Asked(net, candidate, term))
  }

  ghost predicate Remembers(net: set<Packet>, id: ServerId, term: nat, vote: Option<ServerId>) {
    forall t: nat, x :: Voted(net, id, t, x) ==> t < term || (t == term && vote == Some(x))
  }

  ghost predicate OneVote(net: set<Packet>) {
    forall v, t: nat, x, y :: Voted(net, v, t, x) && Voted(net, v, t, y) ==> x == y
  }

  ghost predicate PacketOk(servers: seq<ServerId>, net: set<Packet>, p: Packet) {
    && p.src in servers
    && (p.msg.VoteResponse? && p.msg.voteGranted ==> Asked(net, p.dst, p.msg.term))
    && (p.msg.RequestVote? ==> p.msg.candidateId == p.src)
  }

  ghost predicate RoleOk(servers: seq<ServerId>, net: set<Packet>, h: History, n: Node) {
    && (n.state.Candidate? ==> n.state.votes <= Members(servers) && Elects(net, n.state.votes, n.mem.term, n.id))
    && (n.state.Leader? ==> n.mem.term in h.reigns)
  }

  /** All but the candidate's own vote have left. */
  ghost predicate Elects(net: set<Packet>, voters: set<ServerId>, term: nat, candidate: ServerId) {
    forall v :: v in voters ==> v == candidate || Voted(net, v, term, candidate)
  }

  ghost predicate WinOk(servers: seq<ServerId>, net: set<Packet>, h: History, w: Win)
    requires w in h.wins
  {
    w.leader in servers && h.wins[w] <= Members(servers) && IsMajority(servers, h.wins[w])
    && Elects(net, h.wins[w], w.term, w.leader)
  }

  ghost predicate WinsOk(servers: seq<ServerId>, net: set<Packet>, h: History) {
    forall w :: w in h.wins ==> WinOk(servers, net, h, w)
  }

  ghost predicate NodeOk(servers: seq<ServerId>, net: set<Packet>, h: History, n: Node) {
    && Remembers(net, n.id, n.mem.term, n.mem.votedFor)
    && Remembers(net, n.id, n.disk.term, n.disk.votedFor)
    && n.disk.term <= n.mem.term
    && RoleOk(servers, net, h, n)
  }

  /** A packet that waits: it says what the server still holds. */
  ghost predicate WaitingOk(net: set<Packet>, n: Node, p: Packet) {
    && p.src == n.id
    && (p.msg.VoteResponse? && p.msg.voteGranted ==>
          p.msg.term == n.mem.term && n.mem.votedFor == Some(p.dst) && Asked(net, p.dst, p.msg.term))
    && (p.msg.RequestVote? ==>
          p.msg.term == n.mem.term && n.mem.votedFor == Some(n.id) && p.msg.candidateId == n.id)
  }

  ghost predicate BatchOk(net: set<Packet>, n: Node, b: Batch) {
    && b.files <= 3
    && (b.files >= 2 ==> n.disk.term == n.mem.term)
    && (b.files == 3 ==> n.disk.votedFor == n.mem.votedFor)
    && (forall p :: p in b.out ==> WaitingOk(net, n, p))
  }

  ghost predicate QueueOk(net: set<Packet>, n: Node, waiting: seq<Batch>) {
    waiting == [] || (|waiting| == 1 && BatchOk(net, n, waiting[0]))
  }

  ghost predicate Inv(servers: seq<ServerId>, a: Async) {
    && Election.Placed(servers, a.cluster)
    && a.waiting.Keys == a.cluster.nodes.Keys
    && OneVote(a.cluster.network)
    && WinsOk(servers, a.cluster.network, a.cluster.history)
    && (forall s :: s in a.cluster.nodes ==>
          && NodeOk(servers, a.cluster.network, a.cluster.history, a.cluster.nodes[s])
          && QueueOk(a.cluster.network, a.cluster.nodes[s], a.waiting[s]))
    && (forall p :: p in a.cluster.network ==> PacketOk(servers, a.cluster.network, p))
  }

  // ----- a handler -----

  /** The vote in a term stands, once given. */
  ghost predicate VoteKept(n: Node, n': Node) {
    && n'.id == n.id && n.mem.term <= n'.mem.term
    && (n'.mem.term == n.mem.term && n.mem.votedFor != None ==> n'.mem.votedFor == n.mem.votedFor)
  }

  ghost predicate HandledOk(servers: seq<ServerId>, net: set<Packet>, h: History, n: Node, h': History, o: Outcome) {
    && VoteKept(n, o.node) && RoleOk(servers, net, h', o.node)
    && (forall p :: p in o.out ==> WaitingOk(net, o.node, p))
    && WinsOk(servers, net, h') && (forall t :: t in h.reigns ==> t in h'.reigns)
  }

  /** Recording a reign adds at most this server's win. */
  lemma ReignOk(servers: seq<ServerId>, net: set<Packet>, h: History, n: Node, n': Node, quorum: set<ServerId>)
    requires WinsOk(servers, net, h) && n'.id in servers
    requires n'.state.Leader? ==>
      || (n.state.Leader? && n.mem.term == n'.mem.term && n'.mem.term in h.reigns)
      || (quorum <= Members(servers) && IsMajority(servers, quorum) && Elects(net, quorum, n'.mem.term, n'.id))
    ensures var h' := RecordReign(h, n, n', quorum);
      && WinsOk(servers, net, h') && (n'.state.Leader? ==> n'.mem.term in h'.reigns)
      && (forall t :: t in h.reigns ==> t in h'.reigns)
  {
    var h' := RecordReign(h, n, n', quorum);
    forall w | w in h'.wins ensures WinOk(servers, net, h', w) {
      assert w in h.wins ==> WinOk(servers, net, h, w);
    }
  }

  lemma SameWinsOk(servers: seq<ServerId>, net: set<Packet>, h: History, h': History)
    requires WinsOk(servers, net, h) && h'.wins == h.wins && h'.reigns == h.reigns
    ensures WinsOk(servers, net, h')
  {
    forall w | w in h'.wins ensures WinOk(servers, net, h', w) {
      assert WinOk(servers, net, h, w);
    }
  }

  lemma TimeoutOk(f: Fixes, servers: seq<ServerId>, net: set<Packet>, h: History, n: Node)
    requires f.persistsFirst && n.id in servers && WinsOk(servers, net, h)
    ensures var o := StartElection(f, servers, n);
      HandledOk(servers, net, h, n, RecordReign(RecordCandidacy(h, n, o.node), n, o.node, {n.id}), o)
  {
    hide StartElection, Remembers, Voted, RecordReign;
    var o := StartElection(f, servers, n);
    Election.StartEffect(f, servers, n);
    var h1 := RecordCandidacy(h, n, o.node);
    SameWinsOk(servers, net, h, h1);
    ReignOk(servers, net, h1, n, o.node, {n.id});
  }

  lemma GrantOk(f: Fixes, servers: seq<ServerId>, net: set<Packet>, h: History, n: Node, p: Packet)
    requires Election.VotesBind(f) && WinsOk(servers, net, h) && p in net && PacketOk(servers, net, p)
    requires n.state.Follower? && p.msg.RequestVote? && n.mem.term >= p.msg.term
    ensures var o := OnRequestVote(f, n, p.src, p.msg); HandledOk(servers, net, h, n, RecordGrant(h, o.node, o.out), o)
  {
    hide OnRequestVote, RecordGrant;
    var o := OnRequestVote(f, n, p.src, p.msg);
    Election.GrantShape(f, h, n, p);
    SameWinsOk(servers, net, h, RecordGrant(h, o.node, o.out));
    assert Asked(net, p.src, p.msg.term);
    assert GrantsVote(f, n, p.msg) ==> p.msg.term == n.mem.term;
  }

  lemma AppendOk(f: Fixes, servers: seq<ServerId>, net: set<Packet>, h: History, n: Node, p: Packet)
    requires WinsOk(servers, net, h) && n.state.Follower? && p.msg.AppendEntries?
    ensures var o := OnAppendEntries(f, n, p.src, p.msg); HandledOk(servers, net, h, n, RecordCopy(h, o.node, o.out), o)
  {
    hide Nodes.Matches, FollowerCommit;
    var o := OnAppendEntries(f, n, p.src, p.msg);
    SameWinsOk(servers, net, h, RecordCopy(h, o.node, o.out));
  }

  lemma VoteOk(f: Fixes, servers: seq<ServerId>, net: set<Packet>, h: History, n: Node, p: Packet)
    requires f.countsOwnTerm && WinsOk(servers, net, h) && RoleOk(servers, net, h, n) && n.id in servers
    requires p in net && PacketOk(servers, net, p) && p.dst == n.id && n.state.Candidate? && p.msg.VoteResponse?
    ensures var o := OnVoteResponse(f, servers, n, p.src, p.msg);
      HandledOk(servers, net, h, n, RecordReign(h, n, o.node, n.state.votes + {p.src}), o)
  {
    hide BecomeLeader, RecordReign;
    var o, votes := OnVoteResponse(f, servers, n, p.src, p.msg), n.state.votes + {p.src};
    Election.LeadEffect(f, servers, n.(state := Candidate(votes)));
    if p.msg.voteGranted && p.msg.term == n.mem.term {
      assert p == Packet(p.src, n.id, VoteResponse(n.mem.term, true));
      assert Elects(net, votes, n.mem.term, n.id);
    }
    ReignOk(servers, net, h, n, o.node, votes);
  }

  lemma ResponseOk(f: Fixes, servers: seq<ServerId>, net: set<Packet>, h: History, n: Node, m: Message)
    requires WinsOk(servers, net, h) && RoleOk(servers, net, h, n) && n.state.Leader? && m.AppendResponse?
    ensures HandledOk(servers, net, h, n, h, OnAppendResponse(f, n, m))
  {
    hide UpdateIndexes, CommitScan, Median, Values;
    UpdateLeads(f, n.state, m);
  }

  lemma UpdateLeads(f: Fixes, leader: State, m: Message)
    requires leader.Leader? && m.AppendResponse?
    ensures UpdateIndexes(f, leader, m).Leader?
  {
  }

  lemma BumpKeeps(servers: seq<ServerId>, net: set<Packet>, h: History, n: Node, m: Message)
    requires RoleOk(servers, net, h, n)
    ensures var b := Bump(n, m);
      && RoleOk(servers, net, h, b) && VoteKept(n, b) && b.mem.term >= m.term && b.disk == n.disk
      && (b.state.Candidate? || b.state.Leader? ==> b == n)
  {
  }

  lemma KeptTwice(n: Node, b: Node, n': Node)
    requires VoteKept(n, b) && VoteKept(b, n')
    ensures VoteKept(n, n')
  {
  }

  lemma HandledFrom(servers: seq<ServerId>, net: set<Packet>, h: History, n: Node, b: Node, h': History, o: Outcome)
    requires HandledOk(servers, net, h, b, h', o) && VoteKept(n, b)
    ensures HandledOk(servers, net, h, n, h', o)
  {
    hide RoleOk, WinsOk, WaitingOk;
    KeptTwice(n, b, o.node);
  }

  lemma NothingOk(servers: seq<ServerId>, net: set<Packet>, h: History, n: Node, o: Outcome)
    requires WinsOk(servers, net, h) && RoleOk(servers, net, h, n) && o.out == []
    requires o.node == n.(state := o.node.state, lastApplied := o.node.lastApplied, commitIndex := o.node.commitIndex)
    requires o.node.state == n.state || o.node.state.Follower?
    ensures HandledOk(servers, net, h, n, h, o)
  {
  }

  lemma DeliverOk(f: Fixes, servers: seq<ServerId>, net: set<Packet>, h: History, n: Node, p: Packet)
    requires Election.VotesBind(f) && WinsOk(servers, net, h) && RoleOk(servers, net, h, n) && n.id in servers
    requires p in net && PacketOk(servers, net, p) && p.dst == n.id
    ensures var o := Receive(f, servers, n, p.src, p.msg); HandledOk(servers, net, h, n, Record(h, n, Deliver(p), o), o)
  {
    hide WinsOk, RoleOk, HandledOk, VoteKept, PacketOk, OnVoteResponse, OnAppendResponse, OnAppendEntries,
      OnRequestVote, RecordReign, RecordGrant, RecordCopy;
    var b := Bump(n, p.msg);
    BumpKeeps(servers, net, h, n, p.msg);
    BumpRole(n, p.msg);
    var o := Receive(f, servers, n, p.src, p.msg);
    if b.state.Follower? && p.msg.AppendEntries? {
      AppendOk(f, servers, net, h, b, p);
      HandledFrom(servers, net, h, n, b, Record(h, n, Deliver(p), o), o);
    } else if b.state.Follower? && p.msg.RequestVote? {
      GrantOk(f, servers, net, h, b, p);
      HandledFrom(servers, net, h, n, b, Record(h, n, Deliver(p), o), o);
    } else if b.state.Candidate? && p.msg.VoteResponse? {
      VoteOk(f, servers, net, h, b, p);
    } else if b.state.Leader? && p.msg.AppendResponse? {
      ResponseOk(f, servers, net, h, b, p.msg);
    } else {
      Dropped(f, servers, h, n, b, p);
      NothingOk(servers, net, h, b, o);
      HandledFrom(servers, net, h, n, b, h, o);
    }
  }

  lemma BumpRole(n: Node, m: Message)
    ensures n.state.Candidate? ==> Bump(n, m) == n || Bump(n, m).state.Follower?
    ensures Bump(n, m).id == n.id && (Bump(n, m).state.Candidate? || Bump(n, m).state.Leader? ==> Bump(n, m) == n)
  {
  }

  /** A message without a handler, or an append-entries request to a candidate. */
  lemma Dropped(f: Fixes, servers: seq<ServerId>, h: History, n: Node, b: Node, p: Packet)
    requires b == Bump(n, p.msg)
    requires b.state.Follower? ==> !p.msg.AppendEntries? && !p.msg.RequestVote?
    requires b.state.Candidate? ==> !p.msg.VoteResponse?
    requires b.state.Leader? ==> !p.msg.AppendResponse?
    ensures var o := Receive(f, servers, n, p.src, p.msg);
      && o.out == [] && o.node == b.(state := o.node.state) && (o.node.state == b.state || o.node.state.Follower?)
      && Record(h, n, Deliver(p), o) == h
  {
  }

  lemma SendsOk(f: Fixes, servers: seq<ServerId>, net: set<Packet>, h: History, h': History, n: Node, n1: Node)
    requires n.state.Leader? && n1 == n.(mem := n.mem.(log := n1.mem.log)) && RoleOk(servers, net, h, n)
    requires WinsOk(servers, net, h') && forall t :: t in h.reigns ==> t in h'.reigns
    ensures HandledOk(servers, net, h, n, h', SendAppendEntries(f, servers, n1))
  {
    hide SendAppendEntries, WinsOk;
    Election.SendEffect(f, servers, n1);
  }

  lemma RequestOk(f: Fixes, servers: seq<ServerId>, net: set<Packet>, h: History, n: Node, command: Bytes)
    requires WinsOk(servers, net, h) && RoleOk(servers, net, h, n) && n.id in servers
    ensures var o := ClientRequest(f, servers, n, command);
      HandledOk(servers, net, h, n, RecordReign(h, n, o.node, {}), o)
  {
    hide SendAppendEntries, RecordReign;
    var o := ClientRequest(f, servers, n, command);
    if n.state.Leader? {
      var n1 := n.(mem := n.mem.(log := n.mem.log + [Entry(command, |n.mem.log|, n.mem.term)]));
      Election.SendEffect(f, servers, n1);
      ReignOk(servers, net, h, n, o.node, {});
      SendsOk(f, servers, net, h, RecordReign(h, n, o.node, {}), n, n1);
    } else {
      NotLeading(h, n);
      NothingOk(servers, net, h, n, o);
    }
  }

  lemma NotLeading(h: History, n: Node)
    requires !n.state.Leader?
    ensures RecordReign(h, n, n, {}) == h
  {
  }

  lemma ApplyOk(servers: seq<ServerId>, net: set<Packet>, h: History, n: Node)
    requires WinsOk(servers, net, h) && RoleOk(servers, net, h, n) && CanApply(n)
    ensures HandledOk(servers, net, h, n, RecordApplied(h, n), Outcome(ApplyNext(n), []))
  {
    SameWinsOk(servers, net, h, RecordApplied(h, n));
  }

  /** Any handler, as far as votes go. */
  lemma EventOk(f: Fixes, servers: seq<ServerId>, net: set<Packet>, h: History, n: Node, e: Event)
    requires Election.VotesBind(f) && WinsOk(servers, net, h) && RoleOk(servers, net, h, n) && n.id in servers
    requires !e.Restarted? && Actor(e) == n.id
    requires e.Deliver? ==> e.packet in net && PacketOk(servers, net, e.packet)
    requires e.Heartbeat? ==> n.state.Leader?
    requires e.Apply? ==> CanApply(n)
    ensures var o := React(f, servers, n, e); HandledOk(servers, net, h, n, Record(h, n, e, o), o)
  {
    hide WinsOk, RoleOk, HandledOk, PacketOk, StartElection, Receive, SendAppendEntries, ClientRequest, RecordReign,
      RecordCandidacy, RecordApplied, CanApply;
    match e
    case Timeout(_) => TimeoutOk(f, servers, net, h, n);
    case Deliver(p) => DeliverOk(f, servers, net, h, n, p);
    case Heartbeat(_) => HeartbeatOk(f, servers, net, h, n);
    case Request(_, command) => RequestOk(f, servers, net, h, n, command);
    case Apply(_) => ApplyOk(servers, net, h, n);
  }

  lemma HeartbeatOk(f: Fixes, servers: seq<ServerId>, net: set<Packet>, h: History, n: Node)
    requires WinsOk(servers, net, h) && RoleOk(servers, net, h, n) && n.state.Leader?
    ensures HandledOk(servers, net, h, n, h, SendAppendEntries(f, servers, n))
  {
    hide WinsOk, SendAppendEntries;
    SendsOk(f, servers, net, h, h, n, n);
  }

  // ----- moves -----

  lemma HandledNodeOk(servers: seq<ServerId>, net: set<Packet>, h: History, n: Node, h': History, o: Outcome)
    requires NodeOk(servers, net, h, n) && HandledOk(servers, net, h, n, h', o)
    ensures var n' := o.node.(disk := n.disk);
      NodeOk(servers, net, h', n') && BatchOk(net, n', Batch(o.out, 0))
  {
    hide Voted, Asked, WinsOk, Elects;
  }

  lemma OtherNodeOk(servers: seq<ServerId>, net: set<Packet>, h: History, h': History, n: Node)
    requires NodeOk(servers, net, h, n) && forall t :: t in h.reigns ==> t in h'.reigns
    ensures NodeOk(servers, net, h', n)
  {
    hide Remembers, Elects;
  }

  lemma AllWaits(f: Fixes, n: Node, o: Outcome)
    requires f.persistsFirst && !Waits(f, n, o)
    ensures o.out == []
  {
  }

  lemma OrderedOk(servers: seq<ServerId>, net: set<Packet>, h: History, n: Node, h': History, o: Outcome)
    requires HandledOk(servers, net, h, n, h', o)
    ensures o.node.id == n.id && WinsOk(servers, net, h') && forall t :: t in h.reigns ==> t in h'.reigns
  {
    hide WinsOk;
  }

  lemma HandleOk(p: Policy, servers: seq<ServerId>, a: Async, e: Event)
    requires Guarded(p) && Inv(servers, a) && CanHandle(p, a, e)
    ensures Inv(servers, HandleEvent(p, servers, a, e))
  {
    hide React, Record, Waits, Enabled, WinsOk, NodeOk, PacketOk, BatchOk, OneVote, HandledOk, Lower, QueueOk, CanApply;
    var c, s := a.cluster, Actor(e);
    var h, net, n := c.history, c.network, c.nodes[s];
    HandleFacts(c, e);
    EventOk(p.fixes, servers, net, h, n, e) by {
      NodeRoleOk(servers, net, h, n);
    }
    var o := React(p.fixes, servers, n, e);
    var h' := Record(h, n, e, o);
    OrderedOk(servers, net, h, n, h', o);
    HandledNodeOk(servers, net, h, n, h', o);
    var a' := HandleEvent(p, servers, a, e);
    if !Waits(p.fixes, n, o) {
      AllWaits(p.fixes, n, o);
    }
    assert a'.cluster.network == net;
    QueueAfter(p, servers, net, n, e, a.waiting[s]);
    forall t | t in a'.cluster.nodes
      ensures NodeOk(servers, net, h', a'.cluster.nodes[t]) && QueueOk(net, a'.cluster.nodes[t], a'.waiting[t])
    {
      if t != s {
        OtherNodeOk(servers, net, h, h', c.nodes[t]);
      }
    }
  }

  /** Only the apply loop runs while something waits, and it leaves term, vote and disk alone. */
  lemma QueueAfter(p: Policy, servers: seq<ServerId>, net: set<Packet>, n: Node, e: Event, waiting: seq<Batch>)
    requires QueueOk(net, n, waiting) && (!e.Apply? ==> waiting == [])
    requires e.Heartbeat? ==> n.state.Leader?
    requires e.Apply? ==> CanApply(n)
    ensures var o := React(p.fixes, servers, n, e);
      var n' := o.node.(disk := n.disk);
      if Waits(p.fixes, n, o) then BatchOk(net, n', Batch(o.out, 0)) ==> QueueOk(net, n', waiting + [Batch(o.out, 0)])
      else QueueOk(net, n', waiting)
  {
    hide BatchOk;
    if e.Apply? {
      assert ApplyNext(n).disk == n.disk;
      if waiting != [] {
        AppliedBatchOk(net, n, waiting[0]);
      }
    } else {
      hide React;
      var o := React(p.fixes, servers, n, e);
      assert waiting + [Batch(o.out, 0)] == [Batch(o.out, 0)];
    }
  }

  lemma AppliedBatchOk(net: set<Packet>, n: Node, b: Batch)
    requires BatchOk(net, n, b) && CanApply(n)
    ensures BatchOk(net, ApplyNext(n), b)
  {
  }

  lemma NodeRoleOk(servers: seq<ServerId>, net: set<Packet>, h: History, n: Node)
    requires NodeOk(servers, net, h, n)
    ensures RoleOk(servers, net, h, n)
  {
  }

  lemma HandleFacts(c: Cluster, e: Event)
    requires Enabled(c, e)
    ensures Actor(e) in c.nodes
    ensures e.Heartbeat? ==> c.nodes[Actor(e)].state.Leader?
    ensures e.Apply? ==> CanApply(c.nodes[Actor(e)])
    ensures e.Deliver? ==> e.packet in c.network
  {
    EnabledFacts(c, e);
  }

  /** Only one server's node and queue changed. */
  lemma ReplacedOk(servers: seq<ServerId>, a: Async, s: ServerId, n: Node, waiting: seq<Batch>, a': Async)
    requires Inv(servers, a) && s in a.cluster.nodes && n.id == s
    requires NodeOk(servers, a.cluster.network, a.cluster.history, n) && QueueOk(a.cluster.network, n, waiting)
    requires a'.cluster == SetNode(a.cluster, s, n) && a'.waiting == a.waiting[s := waiting]
    ensures Inv(servers, a')
  {
    hide WinsOk, NodeOk, PacketOk, QueueOk, OneVote;
  }

  /** The next file; between term and vote the disk holds the new term with an older vote. */
  lemma WriteNodeOk(p: Policy, servers: seq<ServerId>, net: set<Packet>, h: History, n: Node, b: Batch)
    requires p.termFirst && NodeOk(servers, net, h, n) && BatchOk(net, n, b) && b.files < 3
    ensures var n' := WriteFile(p.fixes, n, FileAt(p, b.files));
      n'.id == n.id && NodeOk(servers, net, h, n') && BatchOk(net, n', Batch(b.out, b.files + 1))
  {
    hide Voted, Asked, Elects;
  }

  lemma CrashNodeOk(f: Fixes, servers: seq<ServerId>, net: set<Packet>, h: History, n: Node)
    requires f.reloadsVote && NodeOk(servers, net, h, n)
    ensures NodeOk(servers, net, h, Restart(f, n)) && Restart(f, n).id == n.id
  {
    hide Voted;
  }

  // ----- what leaves -----

  lemma NewVotes(net: set<Packet>, net': set<Packet>, n: Node, b: Batch, v: ServerId, t: nat, x: ServerId)
    requires net' == net + (set p | p in b.out) && BatchOk(net, n, b)
    requires Voted(net', v, t, x) && !Voted(net, v, t, x)
    ensures v == n.id && t == n.mem.term && n.mem.votedFor == Some(x)
  {
    var grant := Packet(v, x, VoteResponse(t, true));
    if grant in net' {
      assert WaitingOk(net, n, grant);
    } else {
      var p :| p in net' && p.src == x && p.msg.RequestVote? && p.msg.term == t;
      assert WaitingOk(net, n, p);
    }
  }

  ghost predicate Sends(net: set<Packet>, net': set<Packet>, n: Node, b: Batch) {
    net' == net + (set p | p in b.out) && BatchOk(net, n, b) && b.files == 3
  }

  lemma AskedStays(net: set<Packet>, net': set<Packet>)
    requires net <= net'
    ensures forall id, term: nat :: Asked(net, id, term) ==> Asked(net', id, term)
    ensures forall v, t: nat, x :: Voted(net, v, t, x) ==> Voted(net', v, t, x)
  {
    forall id, term: nat | Asked(net, id, term) ensures Asked(net', id, term) {
      var p :| p in net && p.src == id && p.msg.RequestVote? && p.msg.term == term;
      assert p in net';
    }
  }

  lemma RememberedStays(net: set<Packet>, net': set<Packet>, n: Node, b: Batch, id: ServerId, term: nat,
                        vote: Option<ServerId>)
    requires Sends(net, net', n, b) && Remembers(net, id, term, vote)
    requires id == n.id ==> term == n.mem.term && vote == n.mem.votedFor
    ensures Remembers(net', id, term, vote)
  {
    forall t: nat, x | Voted(net', id, t, x) ensures t < term || (t == term && vote == Some(x)) {
      if !Voted(net, id, t, x) {
        NewVotes(net, net', n, b, id, t, x);
      }
    }
  }

  lemma OneVoteStays(net: set<Packet>, net': set<Packet>, n: Node, b: Batch)
    requires Sends(net, net', n, b) && OneVote(net) && Remembers(net, n.id, n.mem.term, n.mem.votedFor)
    ensures OneVote(net')
  {
    hide Voted;
    forall v, t: nat, x, y | Voted(net', v, t, x) && Voted(net', v, t, y) ensures x == y {
      if !Voted(net, v, t, x) {
        NewVotes(net, net', n, b, v, t, x);
      }
      if !Voted(net, v, t, y) {
        NewVotes(net, net', n, b, v, t, y);
      }
    }
  }

  lemma ElectsStays(net: set<Packet>, net': set<Packet>, voters: set<ServerId>, term: nat, candidate: ServerId)
    requires net <= net' && Elects(net, voters, term, candidate)
    ensures Elects(net', voters, term, candidate)
  {
    hide Voted;
    AskedStays(net, net');
  }

  lemma NodeStaysOk(servers: seq<ServerId>, net: set<Packet>, net': set<Packet>, h: History, s: Node, b: Batch, n: Node)
    requires Sends(net, net', s, b) && NodeOk(servers, net, h, n)
    requires n.id == s.id ==> n == s
    ensures NodeOk(servers, net', h, n)
  {
    hide Voted, Elects, Remembers;
    RememberedStays(net, net', s, b, n.id, n.mem.term, n.mem.votedFor);
    RememberedStays(net, net', s, b, n.id, n.disk.term, n.disk.votedFor);
    if n.state.Candidate? {
      ElectsStays(net, net', n.state.votes, n.mem.term, n.id);
    }
  }

  lemma QueueStaysOk(net: set<Packet>, net': set<Packet>, n: Node, waiting: seq<Batch>)
    requires net <= net' && QueueOk(net, n, waiting)
    ensures QueueOk(net', n, waiting)
  {
    hide Asked;
    AskedStays(net, net');
    if waiting != [] {
      forall p | p in waiting[0].out ensures WaitingOk(net', n, p) {
        assert WaitingOk(net, n, p);
      }
    }
  }

  lemma PacketsOk(servers: seq<ServerId>, net: set<Packet>, net': set<Packet>, n: Node, b: Batch, p: Packet)
    requires Sends(net, net', n, b) && n.id in servers && p in net' && (p in net ==> PacketOk(servers, net, p))
    ensures PacketOk(servers, net', p)
  {
    hide Asked;
    AskedStays(net, net');
    if p !in net {
      assert WaitingOk(net, n, p);
    }
  }

  lemma WinsStayOk(servers: seq<ServerId>, net: set<Packet>, net': set<Packet>, h: History)
    requires net <= net' && WinsOk(servers, net, h)
    ensures WinsOk(servers, net', h)
  {
    hide Elects;
    forall w | w in h.wins ensures WinOk(servers, net', h, w) {
      assert WinOk(servers, net, h, w);
      ElectsStays(net, net', h.wins[w], w.term, w.leader);
    }
  }

  lemma SendOk(servers: seq<ServerId>, a: Async, s: ServerId)
    requires Inv(servers, a) && s in a.cluster.nodes && |a.waiting[s]| == 1 && a.waiting[s][0].files == 3
    ensures Inv(servers, a.(cluster := a.cluster.(network := a.cluster.network + set x | x in a.waiting[s][0].out),
        waiting := a.waiting[s := []]))
  {
    hide WinsOk, NodeOk, PacketOk, OneVote, BatchOk, Sends;
    var c, b, n := a.cluster, a.waiting[s][0], a.cluster.nodes[s];
    var net, net' := c.network, c.network + set x | x in b.out;
    assert Sends(net, net', n, b) by { SendsIs(net, n, b); }
    NodeRemembers(servers, net, c.history, n);
    OneVoteStays(net, net', n, b);
    WinsStayOk(servers, net, net', c.history);
    forall t | t in c.nodes
      ensures NodeOk(servers, net', c.history, c.nodes[t]) && QueueOk(net', c.nodes[t], a.waiting[t])
    {
      NodeStaysOk(servers, net, net', c.history, n, b, c.nodes[t]);
      QueueStaysOk(net, net', c.nodes[t], a.waiting[t]);
    }
    forall p | p in net' ensures PacketOk(servers, net', p) {
      PacketsOk(servers, net, net', n, b, p);
    }
  }

  lemma SendsIs(net: set<Packet>, n: Node, b: Batch)
    requires BatchOk(net, n, b) && b.files == 3
    ensures Sends(net, net + (set x | x in b.out), n, b)
  {
  }

  lemma NodeRemembers(servers: seq<ServerId>, net: set<Packet>, h: History, n: Node)
    requires NodeOk(servers, net, h, n)
    ensures Remembers(net, n.id, n.mem.term, n.mem.votedFor)
  {
  }

  lemma QueueFacts(servers: seq<ServerId>, a: Async, s: ServerId, i: nat)
    requires Inv(servers, a) && HasBatch(a, s, i)
    ensures s in a.cluster.nodes && a.cluster.nodes[s].id == s && i == 0 && a.waiting[s] == [a.waiting[s][0]]
    ensures NodeOk(servers, a.cluster.network, a.cluster.history, a.cluster.nodes[s])
    ensures BatchOk(a.cluster.network, a.cluster.nodes[s], a.waiting[s][0]) && Without(a.waiting[s], 0) == []
  {
    hide NodeOk, BatchOk, WinsOk, PacketOk, OneVote;
    assert QueueOk(a.cluster.network, a.cluster.nodes[s], a.waiting[s]);
  }

  lemma WriteOk(p: Policy, servers: seq<ServerId>, a: Async, s: ServerId, i: nat)
    requires Guarded(p) && Inv(servers, a) && Truthful(a) && HasBatch(a, s, i)
    ensures Inv(servers, Take(p, servers, a, Write(s, i)))
  {
    hide Inv, NodeOk, BatchOk, WriteFile, FileAt, Truthful;
    QueueFacts(servers, a, s, i);
    WriteIsWrite(p, a, s, i);
    var n, b := a.cluster.nodes[s], a.waiting[s][0];
    if b.files < 3 {
      WriteNodeOk(p, servers, a.cluster.network, a.cluster.history, n, b);
      assert a.waiting[s][0 := Batch(b.out, b.files + 1)] == [Batch(b.out, b.files + 1)];
      ReplacedOk(servers, a, s, WriteFile(p.fixes, n, FileAt(p, b.files)), [Batch(b.out, b.files + 1)],
                 Take(p, servers, a, Write(s, i)));
    }
  }

  lemma FailOk(p: Policy, servers: seq<ServerId>, a: Async, s: ServerId, i: nat)
    requires Inv(servers, a) && HasBatch(a, s, i) && CanFail(p, a, s, i)
    ensures Inv(servers, Take(p, servers, a, Fail(s, i)))
  {
    hide Inv, NodeOk, BatchOk, CanFail, FileAt;
    QueueFacts(servers, a, s, i);
    assert a.cluster.nodes[s := a.cluster.nodes[s]] == a.cluster.nodes;
    assert SetNode(a.cluster, s, a.cluster.nodes[s]) == a.cluster;
    ReplacedOk(servers, a, s, a.cluster.nodes[s], [], Take(p, servers, a, Fail(s, i)));
  }

  lemma CrashOk(p: Policy, servers: seq<ServerId>, a: Async, s: ServerId)
    requires Guarded(p) && Inv(servers, a) && s in a.cluster.nodes && s in a.inSync
    ensures Inv(servers, Take(p, servers, a, Crash(s)))
  {
    hide NodeOk, QueueOk, WinsOk, PacketOk, OneVote, Restart;
    assert NodeOk(servers, a.cluster.network, a.cluster.history, a.cluster.nodes[s]);
    CrashNodeOk(p.fixes, servers, a.cluster.network, a.cluster.history, a.cluster.nodes[s]);
    EmptyQueue(a.cluster.network, Restart(p.fixes, a.cluster.nodes[s]));
    ReplacedOk(servers, a, s, Restart(p.fixes, a.cluster.nodes[s]), [], Take(p, servers, a, Crash(s)));
  }

  lemma EmptyQueue(net: set<Packet>, n: Node)
    ensures QueueOk(net, n, [])
  {
  }

  /** From truthful flags every move keeps the invariant, a failed write and a crash between any
      two writes included. */
  lemma {:induction false} TakeOk(p: Policy, servers: seq<ServerId>, a: Async, m: Move)
    requires Guarded(p) && Inv(servers, a) && Truthful(a)
    ensures Inv(servers, Take(p, servers, a, m))
  {
    hide Inv, HandleEvent, WriteNext, FailNext, CanFail, Restart, CanHandle, Truthful;
    match m
    case Handle(e) =>
      if CanHandle(p, a, e) {
        HandleOk(p, servers, a, e);
      }
    case Write(s, i) =>
      if HasBatch(a, s, i) {
        WriteOk(p, servers, a, s, i);
      }
    case Fail(s, i) =>
      if HasBatch(a, s, i) && CanFail(p, a, s, i) {
        FailOk(p, servers, a, s, i);
      }
    case Send(s, i) =>
      if HasBatch(a, s, i) && a.waiting[s][i].files == 3 {
        QueueFacts(servers, a, s, i);
        SendOk(servers, a, s);
      }
    case Crash(s) =>
      if s in a.cluster.nodes && s in a.inSync {
        CrashOk(p, servers, a, s);
      }
  }

  lemma StartOk(p: Policy, servers: seq<ServerId>)
    requires Distinct(servers)
    ensures Inv(servers, Begin(p, servers))
  {
    var a := Begin(p, servers);
    assert forall v, t: nat, x :: !Voted(a.cluster.network, v, t, x);
  }

  lemma {:induction false} RunKeepsInv(p: Policy, servers: seq<ServerId>, moves: seq<Move>)
    requires Guarded(p) && Distinct(servers) && (p.checked || Steady(moves))
    ensures Inv(servers, AsyncRun(p, servers, moves))
  {
    hide Inv, Take, Truthful;
    if moves == [] {
      StartOk(p, servers);
    } else {
      assert forall m :: m in moves[..|moves| - 1] ==> m in moves;
      RunKeepsInv(p, servers, moves[..|moves| - 1]);
      RunTruthful(p, servers, moves[..|moves| - 1]);
      TakeOk(p, servers, AsyncRun(p, servers, moves[..|moves| - 1]), moves[|moves| - 1]);
    }
  }

  // ----- safety -----

  /** With more than one server a winner's own vote has left too: somebody answered it. */
  lemma OwnVoteLeft(servers: seq<ServerId>, net: set<Packet>, h: History, w: Win)
    requires w in h.wins && WinOk(servers, net, h, w) && |servers| > 1 && Distinct(servers)
    requires forall p :: p in net ==> PacketOk(servers, net, p)
    ensures forall v :: v in h.wins[w] ==> Voted(net, v, w.term, w.leader)
  {
    var others := h.wins[w] - {w.leader};
    assert h.wins[w] <= others + {w.leader};
    Election.SubsetCount(h.wins[w], others + {w.leader});
    assert |others + {w.leader}| <= |others| + 1;
    var v :| v in others;
    assert Voted(net, v, w.term, w.leader);
    assert PacketOk(servers, net, Packet(v, w.leader, VoteResponse(w.term, true)));
  }

  lemma InvGivesSafety(servers: seq<ServerId>, a: Async)
    requires Inv(servers, a)
    ensures ElectionSafe(a.cluster)
  {
    hide Voted, NodeOk, QueueOk, PacketOk;
    var net, h := a.cluster.network, a.cluster.history;
    forall v, w | v in h.wins && w in h.wins && v.term == w.term ensures v.leader == w.leader {
      assert WinOk(servers, net, h, v) && WinOk(servers, net, h, w);
      if |servers| > 1 {
        OwnVoteLeft(servers, net, h, v);
        OwnVoteLeft(servers, net, h, w);
        var s := Election.QuorumsMeet(servers, h.wins[v], h.wins[w]);
        assert Voted(net, s, v.term, v.leader) && Voted(net, s, w.term, w.leader);
      } else {
        assert v.leader == servers[0] == w.leader;
      }
    }
  }

  /** Election Safety over every run: handlers, single file writes, failed writes, sends and
      crashes at any point between them, in any order the guard allows. */
  lemma {:induction false} ElectionSafety(p: Policy, servers: seq<ServerId>, moves: seq<Move>)
    requires Guarded(p) && Distinct(servers) && (p.checked || Steady(moves))
    ensures ElectionSafe(AsyncRun(p, servers, moves).cluster)
  {
    hide AsyncRun, Inv;
    RunKeepsInv(p, servers, moves);
    InvGivesSafety(servers, AsyncRun(p, servers, moves));
  }
}
