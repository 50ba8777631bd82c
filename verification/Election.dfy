/** Election Safety: which of the corrections it needs, for every cluster and every run. */
module Election {
  import opened RaftTypes
  import opened Nodes
  import opened Clusters

  /** The four corrections that make a vote a promise: it is stored when given, it is on
      disk before anyone can act on it, it is read back, and it counts in its own term only. */
  predicate VotesBind(f: Fixes) {
    f.recordsGrant && f.persistsFirst && f.reloadsVote && f.countsOwnTerm
  }

  // ----- invariant -----

  ghost predicate OneVoteEach(h: History) {
    forall a, b :: a in h.ballots && b in h.ballots && a.voter == b.voter && a.term == b.term
      ==> a.candidate == b.candidate
  }

  ghost predicate VotedFor(h: History, voters: set<ServerId>, term: nat, candidate: ServerId) {
    forall v :: v in voters ==> Cast(v, term, candidate) in h.ballots
  }

  ghost predicate WinOk(servers: seq<ServerId>, h: History, w: Win)
    requires w in h.wins
  {
    && h.wins[w] <= Members(servers)
    && IsMajority(servers, h.wins[w])
    && VotedFor(h, h.wins[w], w.term, w.leader)
  }

  ghost predicate WinsOk(servers: seq<ServerId>, h: History) {
    forall w :: w in h.wins ==> WinOk(servers, h, w)
  }

  /** A term and vote, in memory or on disk, remember every vote the server ever gave. */
  ghost predicate Remembers(h: History, id: ServerId, term: nat, vote: Option<ServerId>) {
    forall b :: b in h.ballots && b.voter == id ==> b.term < term || (b.term == term && vote == Some(b.candidate))
  }

  ghost predicate RoleOk(servers: seq<ServerId>, h: History, n: Node) {
    && (n.state.Candidate? ==> n.state.votes <= Members(servers) && VotedFor(h, n.state.votes, n.mem.term, n.id))
    && (n.state.Leader? ==> Win(n.mem.term, n.id) in h.wins && n.mem.term in h.reigns)
  }

  ghost predicate NodeOk(servers: seq<ServerId>, h: History, n: Node) {
    && Remembers(h, n.id, n.mem.term, n.mem.votedFor)
    && Remembers(h, n.id, n.disk.term, n.disk.votedFor)
    && RoleOk(servers, h, n)
  }

  ghost predicate PacketOk(servers: seq<ServerId>, h: History, p: Packet) {
    && p.src in servers
    && (p.msg.VoteResponse? && p.msg.voteGranted ==> Cast(p.src, p.msg.term, p.dst) in h.ballots)
    && (p.msg.RequestVote? ==> p.msg.candidateId == p.src)
  }

  ghost predicate HistoryOk(servers: seq<ServerId>, h: History) {
    OneVoteEach(h) && WinsOk(servers, h)
  }

  ghost predicate Placed(servers: seq<ServerId>, c: Cluster) {
    && Distinct(servers)
    && (forall s :: s in c.nodes <==> s in servers)
    && (forall s :: s in c.nodes ==> c.nodes[s].id == s)
  }

  ghost predicate Inv(servers: seq<ServerId>, c: Cluster) {
    && Placed(servers, c)
    && HistoryOk(servers, c.history)
    && (forall s :: s in c.nodes ==> NodeOk(servers, c.history, c.nodes[s]))
    && (forall p :: p in c.network ==> PacketOk(servers, c.history, p))
  }

  /** One server's step only adds its own votes, and forgets no win. */
  ghost predicate Extends(h: History, h': History, id: ServerId) {
    && (forall b :: b in h.ballots ==> b in h'.ballots)
    && (forall b :: b in h'.ballots && b !in h.ballots ==> b.voter == id)
    && (forall w :: w in h.wins ==> w in h'.wins)
    && (forall t :: t in h.reigns ==> t in h'.reigns)
  }

  lemma OtherNodeOk(servers: seq<ServerId>, h: History, h': History, id: ServerId, n: Node)
    requires Extends(h, h', id) && n.id != id && NodeOk(servers, h, n)
    ensures NodeOk(servers, h', n)
  {
  }

  lemma PacketStaysOk(servers: seq<ServerId>, h: History, h': History, id: ServerId, p: Packet)
    requires Extends(h, h', id) && PacketOk(servers, h, p)
    ensures PacketOk(servers, h', p)
  {
  }

  // ----- what each handler does, as far as votes go -----

  /** The packets are append-entries requests of this server. */
  ghost predicate OnlyAppends(id: ServerId, out: seq<Packet>) {
    forall p :: p in out ==> p.src == id && p.msg.AppendEntries?
  }

  /** The disk is as before, or holds the term and vote in memory. */
  ghost predicate DiskKept(n: Node, n': Node) {
    || (n'.disk.term == n.disk.term && n'.disk.votedFor == n.disk.votedFor)
    || (n'.disk.term == n'.mem.term && n'.disk.votedFor == n'.mem.votedFor)
  }

  lemma SendEffect(f: Fixes, servers: seq<ServerId>, n: Node)
    requires n.state.Leader?
    ensures var o := SendAppendEntries(f, servers, n);
      && OnlyAppends(n.id, o.out)
      && o.node.(disk := n.disk) == n && DiskKept(n, o.node)
  {
  }

  lemma LeadEffect(f: Fixes, servers: seq<ServerId>, n: Node)
    ensures var o := BecomeLeader(f, servers, n);
      && OnlyAppends(n.id, o.out)
      && o.node.state.Leader? && o.node.(disk := n.disk, state := n.state) == n && DiskKept(n, o.node)
  {
    var keys := IndexKeys(f, Peers(servers, n.id));
    SendEffect(f, servers, n.(state := Leader(map k | k in keys :: Num(|n.mem.log|), FreshTable(keys))));
  }

  /** A step that neither votes, nor starts or wins an election. */
  ghost predicate Quiet(n: Node, n': Node) {
    && n'.id == n.id && n'.mem.term == n.mem.term && n'.mem.votedFor == n.mem.votedFor
    && DiskKept(n, n')
    && (n'.state.Candidate? ==> n'.state == n.state)
    && (n'.state.Leader? ==> n.state.Leader?)
  }

  lemma QuietOk(servers: seq<ServerId>, h: History, h': History, n: Node, n': Node)
    requires NodeOk(servers, h, n) && Quiet(n, n')
    requires h'.ballots == h.ballots && Extends(h, h', n.id)
    ensures NodeOk(servers, h', n')
  {
  }

  lemma BumpOk(servers: seq<ServerId>, h: History, n: Node, m: Message)
    requires NodeOk(servers, h, n)
    ensures NodeOk(servers, h, Bump(n, m)) && Bump(n, m).id == n.id && Bump(n, m).disk == n.disk
    ensures Bump(n, m).mem.term >= m.term
  {
  }

  /** Recording a reign adds at most this server's win, with the given votes. */
  lemma ReignEffect(servers: seq<ServerId>, h: History, n: Node, n': Node, quorum: set<ServerId>)
    requires WinsOk(servers, h)
    requires n'.state.Leader? ==>
      || (n.state.Leader? && n.mem.term == n'.mem.term && n'.mem.term in h.reigns)
      || (quorum <= Members(servers) && IsMajority(servers, quorum) && VotedFor(h, quorum, n'.mem.term, n'.id))
    ensures var h' := RecordReign(h, n, n', quorum);
      && WinsOk(servers, h') && h'.ballots == h.ballots
      && Extends(h, h', n.id)
      && (n'.state.Leader? ==> n'.mem.term in h'.reigns)
      && (n'.state.Leader? ==> Win(n'.mem.term, n'.id) in h'.wins || (n.state.Leader? && n.mem.term == n'.mem.term))
  {
  }

  // ----- each event keeps the invariant -----

  /** What has to be shown of one server's step. */
  ghost predicate StepOk(servers: seq<ServerId>, h: History, n: Node, h': History, o: Outcome) {
    && HistoryOk(servers, h')
    && NodeOk(servers, h', o.node)
    && o.node.id == n.id
    && Extends(h, h', n.id)
    && (forall p :: p in o.out ==> PacketOk(servers, h', p))
  }

  lemma QuietStepOk(servers: seq<ServerId>, h: History, h': History, n: Node, o: Outcome)
    requires HistoryOk(servers, h) && NodeOk(servers, h, n) && Quiet(n, o.node)
    requires h'.ballots == h.ballots && h'.wins == h.wins && Extends(h, h', n.id)
    requires forall p :: p in o.out ==> PacketOk(servers, h, p)
    ensures StepOk(servers, h, n, h', o)
  {
    QuietOk(servers, h, h', n, o.node);
    assert WinsOk(servers, h') by {
      forall w | w in h'.wins ensures WinOk(servers, h', w) {
        assert WinOk(servers, h, w);
      }
    }
  }

  lemma NewBallotOk(servers: seq<ServerId>, h: History, n: Node, cast: Cast, log: seq<Entry>, h': History)
    requires HistoryOk(servers, h) && Remembers(h, n.id, n.mem.term, n.mem.votedFor)
    requires cast.voter == n.id
    requires cast.term > n.mem.term
          || (cast.term == n.mem.term && (n.mem.votedFor == None || n.mem.votedFor == Some(cast.candidate)))
    requires h'.ballots == h.ballots[cast := log] && h'.wins == h.wins
    ensures HistoryOk(servers, h')
    ensures Remembers(h', n.id, cast.term, Some(cast.candidate))
  {
    forall w | w in h'.wins ensures WinOk(servers, h', w) {
      assert WinOk(servers, h, w);
    }
  }

  /** A candidate, or the leader it became, with the votes it has. */
  ghost predicate Standing(servers: seq<ServerId>, h: History, n': Node, quorum: set<ServerId>) {
    && Remembers(h, n'.id, n'.mem.term, n'.mem.votedFor)
    && Remembers(h, n'.id, n'.disk.term, n'.disk.votedFor)
    && quorum <= Members(servers) && VotedFor(h, quorum, n'.mem.term, n'.id)
    && (n'.state.Candidate? ==> n'.state.votes == quorum)
    && (n'.state.Leader? ==> IsMajority(servers, quorum))
  }

  lemma StandingOk(servers: seq<ServerId>, h: History, h1: History, n: Node, o: Outcome, quorum: set<ServerId>)
    requires Extends(h, h1, n.id) && HistoryOk(servers, h1)
    requires o.node.id == n.id && Standing(servers, h1, o.node, quorum)
    requires n.state.Leader? ==> n.mem.term != o.node.mem.term
    requires forall p :: p in o.out ==> PacketOk(servers, h1, p)
    ensures StepOk(servers, h, n, RecordReign(h1, n, o.node, quorum), o)
  {
    ReignEffect(servers, h1, n, o.node, quorum);
    var h' := RecordReign(h1, n, o.node, quorum);
    forall p | p in o.out ensures PacketOk(servers, h', p) {
      PacketStaysOk(servers, h1, h', n.id, p);
    }
  }

  lemma StartEffect(f: Fixes, servers: seq<ServerId>, n: Node)
    requires f.persistsFirst
    ensures var o := StartElection(f, servers, n);
      && o.node.id == n.id && o.node.mem == Stable(n.mem.term + 1, Some(n.id), n.mem.log)
      && o.node.disk.term == n.mem.term + 1 && o.node.disk.votedFor == Some(n.id)
      && (o.node.state == Candidate({n.id}) || (o.node.state.Leader? && IsMajority(servers, {n.id})))
      && (forall p :: p in o.out ==> p.src == n.id)
      && (forall p :: p in o.out && !p.msg.AppendEntries? ==>
            p.msg.RequestVote? && p.msg.candidateId == n.id && p.msg.term == n.mem.term + 1)
  {
    var n1 := Persist(f, n.(mem := Stable(n.mem.term + 1, Some(n.id), n.mem.log), state := Candidate({n.id})));
    LeadEffect(f, servers, n1);
  }

  lemma TimeoutOk(f: Fixes, servers: seq<ServerId>, h: History, n: Node)
    requires VotesBind(f) && n.id in servers
    requires HistoryOk(servers, h) && NodeOk(servers, h, n)
    ensures var o := StartElection(f, servers, n);
      StepOk(servers, h, n, RecordReign(RecordCandidacy(h, n, o.node), n, o.node, {n.id}), o)
  {
    var o := StartElection(f, servers, n);
    StartEffect(f, servers, n);
    var h1 := RecordCandidacy(h, n, o.node);
    NewBallotOk(servers, h, n, Cast(n.id, n.mem.term + 1, n.id), n.mem.log, h1);
    assert {n.id} <= Members(servers);
    StandingOk(servers, h, h1, n, o, {n.id});
  }

  lemma GrantShape(f: Fixes, h: History, n: Node, p: Packet)
    requires VotesBind(f) && n.state.Follower? && p.msg.RequestVote? && p.msg.candidateId == p.src
    requires n.mem.term >= p.msg.term
    ensures var o := OnRequestVote(f, n, p.src, p.msg);
      var cast, h', granted := Cast(n.id, n.mem.term, p.src), RecordGrant(h, o.node, o.out), GrantsVote(f, n, p.msg);
      && o.out == [Packet(n.id, p.src, VoteResponse(n.mem.term, granted))]
      && o.node.id == n.id && o.node.state == n.state
      && o.node.mem == (if granted then n.mem.(votedFor := Some(p.src)) else n.mem)
      && DiskKept(n, o.node) && o.node.disk.term == o.node.mem.term && o.node.disk.votedFor == o.node.mem.votedFor
      && h' == if granted && cast !in h.ballots then h.(ballots := h.ballots[cast := n.mem.log]) else h
  {
  }

  lemma GrantOk(f: Fixes, servers: seq<ServerId>, h: History, n: Node, p: Packet)
    requires VotesBind(f) && n.id in servers && n.state.Follower?
    requires HistoryOk(servers, h) && NodeOk(servers, h, n) && PacketOk(servers, h, p)
    requires p.msg.RequestVote? && n.mem.term >= p.msg.term
    ensures var o := OnRequestVote(f, n, p.src, p.msg); StepOk(servers, h, n, RecordGrant(h, o.node, o.out), o)
  {
    hide HistoryOk, OnRequestVote, RecordGrant;
    var o := OnRequestVote(f, n, p.src, p.msg);
    var h' := RecordGrant(h, o.node, o.out);
    GrantShape(f, h, n, p);
    if h' != h {
      NewBallotOk(servers, h, n, Cast(n.id, n.mem.term, p.src), n.mem.log, h');
    } else {
      QuietStepOk(servers, h, h', n, o);
    }
  }

  lemma VoteOk(f: Fixes, servers: seq<ServerId>, h: History, n: Node, p: Packet)
    requires VotesBind(f) && n.state.Candidate? && n.id in servers && p.dst == n.id
    requires HistoryOk(servers, h) && NodeOk(servers, h, n) && PacketOk(servers, h, p)
    requires p.msg.VoteResponse?
    ensures var o := OnVoteResponse(f, servers, n, p.src, p.msg);
      StepOk(servers, h, n, RecordReign(h, n, o.node, n.state.votes + {p.src}), o)
  {
    var o := OnVoteResponse(f, servers, n, p.src, p.msg);
    if !p.msg.voteGranted || p.msg.term != n.mem.term {
      QuietStepOk(servers, h, h, n, o);
    } else {
      var votes := n.state.votes + {p.src};
      LeadEffect(f, servers, n.(state := Candidate(votes)));
      StandingOk(servers, h, h, n, o, votes);
    }
  }

  lemma AppendOk(f: Fixes, servers: seq<ServerId>, h: History, n: Node, p: Packet)
    requires n.state.Follower? && n.id in servers && p.msg.AppendEntries?
    requires HistoryOk(servers, h) && NodeOk(servers, h, n)
    ensures var o := OnAppendEntries(f, n, p.src, p.msg); StepOk(servers, h, n, RecordCopy(h, o.node, o.out), o)
  {
    var o := OnAppendEntries(f, n, p.src, p.msg);
    QuietStepOk(servers, h, RecordCopy(h, o.node, o.out), n, o);
  }

  /** A request or a heartbeat of a leader. */
  lemma LeaderActionOk(f: Fixes, servers: seq<ServerId>, h: History, h': History, n: Node, n1: Node)
    requires n.state.Leader? && n1.state == n.state && n1.id == n.id && n1.disk == n.disk && n.id in servers
    requires n1.mem.term == n.mem.term && n1.mem.votedFor == n.mem.votedFor
    requires HistoryOk(servers, h) && NodeOk(servers, h, n)
    requires h'.ballots == h.ballots && h'.wins == h.wins && Extends(h, h', n.id)
    ensures StepOk(servers, h, n, h', SendAppendEntries(f, servers, n1))
  {
    SendEffect(f, servers, n1);
    QuietStepOk(servers, h, h', n, SendAppendEntries(f, servers, n1));
  }

  lemma DeliverOk(f: Fixes, servers: seq<ServerId>, h: History, n: Node, p: Packet)
    requires VotesBind(f) && n.id in servers && p.dst == n.id
    requires HistoryOk(servers, h) && NodeOk(servers, h, n) && PacketOk(servers, h, p)
    ensures var o := Receive(f, servers, n, p.src, p.msg); StepOk(servers, h, n, Record(h, n, Deliver(p), o), o)
  {
    hide HistoryOk, OnRequestVote, OnAppendEntries, OnVoteResponse;
    var b := Bump(n, p.msg);
    BumpOk(servers, h, n, p.msg);
    var o := Receive(f, servers, n, p.src, p.msg);
    var h' := Record(h, n, Deliver(p), o);
    if b.state.Follower? && p.msg.RequestVote? {
      GrantOk(f, servers, h, b, p);
    } else if b.state.Follower? && p.msg.AppendEntries? {
      AppendOk(f, servers, h, b, p);
    } else if b.state.Candidate? && p.msg.VoteResponse? {
      VoteOk(f, servers, h, b, p);
    } else {
      assert Quiet(b, o.node) && o.out == [];
      QuietStepOk(servers, h, h, b, o);
    }
  }

  lemma EventOk(f: Fixes, servers: seq<ServerId>, c: Cluster, e: Event)
    requires VotesBind(f) && Inv(servers, c) && Enabled(c, e)
    ensures var n := c.nodes[Actor(e)];
      var o := React(f, servers, n, e);
      StepOk(servers, c.history, n, Record(c.history, n, e, o), o)
  {
    var h, n := c.history, c.nodes[Actor(e)];
    match e
    case Timeout(_) => TimeoutOk(f, servers, h, n);
    case Deliver(p) => DeliverOk(f, servers, h, n, p);
    case Heartbeat(_) => LeaderActionOk(f, servers, h, h, n, n);
    case Request(_, command) =>
      var o := ClientRequest(f, servers, n, command);
      var h' := RecordReign(h, n, o.node, {});
      if n.state.Leader? {
        var n1 := n.(mem := n.mem.(log := n.mem.log + [Entry(command, |n.mem.log|, n.mem.term)]));
        SendEffect(f, servers, n1);
        LeaderActionOk(f, servers, h, h', n, n1);
      } else {
        QuietStepOk(servers, h, h', n, o);
      }
    case Apply(_) => QuietStepOk(servers, h, RecordApplied(h, n), n, Outcome(ApplyNext(n), []));
    case Restarted(_) =>
  }

  /** Every event of every server keeps the invariant. */
  lemma StepKeepsInv(f: Fixes, servers: seq<ServerId>, c: Cluster, e: Event)
    requires VotesBind(f) && Inv(servers, c)
    ensures Inv(servers, Step(f, servers, c, e))
  {
    if Enabled(c, e) {
      EventOk(f, servers, c, e);
      var n := c.nodes[Actor(e)];
      var c' := Step(f, servers, c, e);
      forall s | s in c'.nodes ensures NodeOk(servers, c'.history, c'.nodes[s]) {
        if s != n.id {
          OtherNodeOk(servers, c.history, c'.history, n.id, c.nodes[s]);
        }
      }
      forall p | p in c'.network ensures PacketOk(servers, c'.history, p) {
        if p in c.network {
          PacketStaysOk(servers, c.history, c'.history, n.id, p);
        }
      }
    }
  }

  lemma {:induction false} RunKeepsInv(f: Fixes, servers: seq<ServerId>, events: seq<Event>)
    requires VotesBind(f) && Distinct(servers)
    ensures Inv(servers, Run(f, servers, events))
  {
    if events == [] {
      var c := Start(servers);
      assert forall s :: s in c.nodes ==> NodeOk(servers, c.history, c.nodes[s]);
    } else {
      RunKeepsInv(f, servers, events[..|events| - 1]);
      StepKeepsInv(f, servers, Run(f, servers, events[..|events| - 1]), events[|events| - 1]);
    }
  }

  // ----- quorums -----

  lemma {:induction false} MembersCount(servers: seq<ServerId>)
    requires Distinct(servers)
    ensures |Members(servers)| == |servers|
  {
    if servers == [] {
      assert Members(servers) == {};
    } else {
      var rest := servers[1..];
      MembersCount(rest);
      assert servers == [servers[0]] + rest;
      assert Members(servers) == {servers[0]} + Members(rest);
      assert servers[0] !in Members(rest);
    }
  }

  lemma SubsetCount<T>(a: set<T>, b: set<T>)
    requires a <= b
    ensures |a| <= |b|
  {
    assert b == a + (b - a);
  }

  /** Two majorities of one cluster share a server. */
  lemma QuorumsMeet(servers: seq<ServerId>, a: set<ServerId>, b: set<ServerId>) returns (s: ServerId)
    requires Distinct(servers) && a <= Members(servers) && b <= Members(servers)
    requires IsMajority(servers, a) && IsMajority(servers, b)
    ensures s in a && s in b
  {
    MembersCount(servers);
    SubsetCount(a + b, Members(servers));
    assert |a + b| + |a * b| == |a| + |b|;
    assert a * b != {};
    s :| s in a * b;
  }

  lemma InvGivesSafety(servers: seq<ServerId>, c: Cluster)
    requires Inv(servers, c)
    ensures ElectionSafe(c)
  {
    forall a, b | a in c.history.wins && b in c.history.wins && a.term == b.term ensures a.leader == b.leader {
      assert WinOk(servers, c.history, a) && WinOk(servers, c.history, b);
      var s := QuorumsMeet(servers, c.history.wins[a], c.history.wins[b]);
      assert Cast(s, a.term, a.leader) in c.history.ballots && Cast(s, b.term, b.leader) in c.history.ballots;
    }
  }

  /** With the four corrections at most one server is ever elected in a term: any cluster,
      any loss, duplication, reordering and crashes, whatever replication does. */
  lemma ElectionSafety(f: Fixes, servers: seq<ServerId>, events: seq<Event>)
    requires VotesBind(f) && Distinct(servers)
    ensures ElectionSafe(Run(f, servers, events))
  {
    RunKeepsInv(f, servers, events);
    InvGivesSafety(servers, Run(f, servers, events));
  }
}
