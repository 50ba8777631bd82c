/** In the corrected cluster, handlers and their writes being whole steps, a server holds all it
    has confirmed in its current term, whatever leaders of later terms there are. */
module Confirmed {
  import opened RaftTypes
  import opened Nodes
  import opened Clusters
  import Election
  import opened Replication
  import opened Completeness
  import Steps
  import Safety

  ghost predicate Holds(h: History, id: ServerId, term: nat, log: seq<Entry>) {
    Copy(id, term) in h.copies && term in h.reigns ==> Prefix(h, term, h.copies[Copy(id, term)]) <= log
  }

  /** In the term in memory, and in the one on disk. */
  ghost predicate Keeps(h: History, n: Node) {
    Holds(h, n.id, n.mem.term, n.mem.log) && Holds(h, n.id, n.disk.term, n.mem.log) && n.disk.log == n.mem.log
  }

  /** The log stays, and so do the server's copies, none of which is of a later term. */
  lemma SameKeeps(servers: seq<ServerId>, h: History, h': History, n: Node, n': Node)
    requires NodeOk(servers, h, n) && Keeps(h, n) && h'.copies == h.copies && h'.reigns == h.reigns
    requires n'.id == n.id && n'.mem.log == n.mem.log == n'.disk.log && n.mem.term <= n'.mem.term
    requires n'.disk.term == n.disk.term || n'.disk.term == n'.mem.term
    ensures Keeps(h', n')
  {
    hide LogOk, KeepsCopy, CandidateOk, LeaderOk, CommitOk;
    assert ViewOk(h, n.id, n.mem);
  }

  lemma OtherKeeps(servers: seq<ServerId>, h: History, h': History, id: ServerId, n: Node)
    requires HistoryOk(servers, h) && Extends(h, h', id) && n.id != id && Keeps(h, n)
    ensures Keeps(h', n)
  {
    hide ReignOk, CandidacyOk, BallotOk, BallotKeeps, AppliedOk;
    forall t | Copy(n.id, t) in h'.copies && t in h'.reigns && Holds(h, n.id, t, n.mem.log)
      ensures Holds(h', n.id, t, n.mem.log)
    {
      assert CopyOk(h, Copy(n.id, t));
      PrefixStays(h, h', id, t, h.copies[Copy(n.id, t)]);
    }
  }

  lemma RestartKeeps(h: History, n: Node)
    requires Keeps(h, n)
    ensures Keeps(h, Restart(CORRECTED, n))
  {
  }

  /** A leader's own log is the log of its reign. */
  lemma OwnReignKeeps(h: History, n: Node)
    requires n.mem.term in h.reigns && h.reigns[n.mem.term].log == n.mem.log && n.disk == n.mem
    requires Copy(n.id, n.mem.term) in h.copies && h.copies[Copy(n.id, n.mem.term)] == |n.mem.log|
    ensures Keeps(h, n)
  {
  }

  lemma RaisedKeeps(servers: seq<ServerId>, h: History, h': History, n: Node, n': Node, end: nat)
    requires HistoryOk(servers, h) && Keeps(h, n) && n.mem.term in h.reigns
    requires Steps.CopyRaised(h, h', Copy(n.id, n.mem.term), end) && end <= |h.reigns[n.mem.term].log|
    requires Steps.Merged(n.mem.log, h.reigns[n.mem.term].log, end, n'.mem.log)
    requires n'.id == n.id && n'.mem.term == n.mem.term && n'.disk == n'.mem
    ensures Keeps(h', n')
  {
    hide ReignOk, CandidacyOk, BallotOk, BallotKeeps, AppliedOk;
    var key, leader := Copy(n.id, n.mem.term), h.reigns[n.mem.term].log;
    if h'.copies[key] != end || (key in h.copies && h.copies[key] == end) {
      assert CopyOk(h, key);
      Steps.SharedPartStays(n.mem.log, leader, end, n'.mem.log, Prefix(h, n.mem.term, h.copies[key]));
    }
  }

  // ----- each event -----

  lemma AcceptKeeps(servers: seq<ServerId>, h: History, n: Node, p: Packet)
    requires Sound(servers, h) && NodeOk(servers, h, n) && Keeps(h, n) && PacketOk(servers, h, p)
    requires n.state.Follower? && p.msg.AppendEntries? && p.msg.term == n.mem.term && Matches(n.mem.log, p.msg)
    ensures var o := OnAppendEntries(CORRECTED, n, p.src, p.msg); Keeps(RecordCopy(h, o.node, o.out), o.node)
  {
    hide Sound, HistoryOk, NodeOk, Keeps, LogOk, RecordCopy, Matches, OnAppendEntries;
    var o, end := OnAppendEntries(CORRECTED, n, p.src, p.msg), p.msg.prevLogIndex + 1 + |p.msg.entries|;
    Steps.SoundHistory(servers, h);
    Steps.AcceptShape(h, n, p, end);
    Steps.BatchOk(servers, h, p);
    Safety.LogsOk(servers, h, n);
    Safety.MatchesTerm(n.mem.log, p.msg);
    Steps.MergeStretch(h, n.mem.log, h.reigns[n.mem.term].log, p.msg.entries, p.msg.prevLogIndex);
    RaisedKeeps(servers, h, RecordCopy(h, o.node, o.out), n, o.node, end);
  }

  lemma CrownedKeeps(servers: seq<ServerId>, h: History, h': History, n: Node, quorum: set<ServerId>)
    requires Steps.Crowned(h, h', n, quorum) && |n.mem.log| > 0
    ensures Keeps(h', BecomeLeader(CORRECTED, servers, n).node)
  {
    hide BecomeLeader;
    Steps.EnthronedSends(servers, n);
    OwnReignKeeps(h', Steps.Enthroned(servers, n));
  }

  lemma TimeoutKeeps(servers: seq<ServerId>, h: History, n: Node)
    requires NodeOk(servers, h, n) && Keeps(h, n)
    ensures var o := StartElection(CORRECTED, servers, n);
      Keeps(RecordReign(RecordCandidacy(h, n, o.node), n, o.node, {n.id}), o.node)
  {
    hide NodeOk, Keeps, StartElection, BecomeLeader, VoteRequests, Steps.Crowned, RecordReign;
    Safety.LogsOk(servers, h, n);
    assert |n.mem.log| > 0;
    Steps.StartShape(servers, n);
    var c, h1 := Steps.Standing(n), RecordCandidacy(h, n, StartElection(CORRECTED, servers, n).node);
    if IsMajority(servers, {n.id}) {
      Steps.CrownedBy(servers, h1, n, c, {n.id});
      CrownedKeeps(servers, h1, RecordReign(h1, n, BecomeLeader(CORRECTED, servers, c).node, {n.id}), c, {n.id});
    } else {
      StandingKeeps(servers, h, h1, n);
      NoReign(h1, n, c, {n.id});
    }
  }

  lemma StandingKeeps(servers: seq<ServerId>, h: History, h1: History, n: Node)
    requires NodeOk(servers, h, n) && Keeps(h, n) && h1.copies == h.copies && h1.reigns == h.reigns
    ensures Keeps(h1, Steps.Standing(n))
  {
    hide NodeOk, Keeps;
    LogOnDisk(h, n);
    SameKeeps(servers, h, h1, n, Steps.Standing(n));
  }

  lemma LogOnDisk(h: History, n: Node)
    requires Keeps(h, n)
    ensures n.disk.log == n.mem.log
  {
  }

  lemma NoReign(h: History, n: Node, n': Node, quorum: set<ServerId>)
    requires !n'.state.Leader?
    ensures RecordReign(h, n, n', quorum) == h
  {
  }

  lemma VoteKeeps(servers: seq<ServerId>, h: History, n: Node, p: Packet)
    requires NodeOk(servers, h, n) && Keeps(h, n) && n.state.Candidate? && p.msg.VoteResponse?
    ensures var o := OnVoteResponse(CORRECTED, servers, n, p.src, p.msg);
      Keeps(RecordReign(h, n, o.node, n.state.votes + {p.src}), o.node)
  {
    hide NodeOk, Keeps, OnVoteResponse, BecomeLeader, Steps.Crowned, RecordReign;
    var votes := n.state.votes + {p.src};
    var c, o := n.(state := Candidate(votes)), OnVoteResponse(CORRECTED, servers, n, p.src, p.msg);
    Safety.LogsOk(servers, h, n);
    assert |n.mem.log| > 0;
    Steps.CountVoteShape(servers, h, n, p);
    if p.msg.voteGranted && p.msg.term == n.mem.term && IsMajority(servers, votes) {
      Steps.CrownedBy(servers, h, n, c, votes);
      CrownedKeeps(servers, h, RecordReign(h, n, BecomeLeader(CORRECTED, servers, c).node, votes), c, votes);
    } else {
      NoReign(h, n, o.node, votes);
      LogOnDisk(h, n);
      SameKeeps(servers, h, h, n, o.node);
    }
  }

  lemma RequestKeeps(servers: seq<ServerId>, h: History, n: Node, command: Bytes)
    requires NodeOk(servers, h, n) && Keeps(h, n)
    ensures var o := ClientRequest(CORRECTED, servers, n, command); Keeps(RecordReign(h, n, o.node, {}), o.node)
  {
    hide ViewOk, CommitOk, Keeps, IndexesOk, CandidateOk;
    if n.state.Leader? {
      Safety.LogsOk(servers, h, n);
      Steps.RequestShape(servers, h, n, command);
      GrownKeeps(servers, h, n, command);
    } else {
      NoReign(h, n, n, {});
    }
  }

  lemma GrownKeeps(servers: seq<ServerId>, h: History, n: Node, command: Bytes)
    requires n.state.Leader? && n.mem.term in h.reigns && |n.mem.log| > 0
    requires var o := ClientRequest(CORRECTED, servers, n, command);
      var log := n.mem.log + [Entry(command, |n.mem.log|, n.mem.term)];
      && Steps.Grown(h, RecordReign(h, n, o.node, {}), n, log)
      && o == SendAppendEntries(CORRECTED, servers, n.(mem := n.mem.(log := log), disk := n.mem.(log := log)))
    ensures var o := ClientRequest(CORRECTED, servers, n, command); Keeps(RecordReign(h, n, o.node, {}), o.node)
  {
    hide ClientRequest, RecordReign;
    var o := ClientRequest(CORRECTED, servers, n, command);
    OwnReignKeeps(RecordReign(h, n, o.node, {}), o.node);
  }

  lemma FollowerKeeps(servers: seq<ServerId>, h: History, b: Node, p: Packet)
    requires Sound(servers, h) && NodeOk(servers, h, b) && Keeps(h, b) && b.state.Follower? && b.mem.term >= p.msg.term
    requires PacketOk(servers, h, p) && Election.PacketOk(servers, h, p) && p.dst == b.id
    ensures p.msg.AppendEntries? ==>
      var o := OnAppendEntries(CORRECTED, b, p.src, p.msg); Keeps(RecordCopy(h, o.node, o.out), o.node)
    ensures p.msg.RequestVote? ==>
      var o := OnRequestVote(CORRECTED, b, p.src, p.msg); Keeps(RecordGrant(h, o.node, o.out), o.node)
  {
    hide Sound, NodeOk, Keeps, HistoryOk, RecordGrant, OnRequestVote, AppendOk, RequestOk;
    LogOnDisk(h, b);
    if p.msg.AppendEntries? {
      if p.msg.term == b.mem.term && Matches(b.mem.log, p.msg) {
        AcceptKeeps(servers, h, b, p);
      } else {
        var o := OnAppendEntries(CORRECTED, b, p.src, p.msg);
        assert RecordCopy(h, o.node, o.out) == h;
        SameKeeps(servers, h, h, b, o.node);
      }
    } else if p.msg.RequestVote? {
      var o := OnRequestVote(CORRECTED, b, p.src, p.msg);
      Steps.GrantShape(h, b, p);
      SameKeeps(servers, h, RecordGrant(h, o.node, o.out), b, o.node);
    }
  }

  lemma DeliverKeeps(servers: seq<ServerId>, h: History, n: Node, p: Packet)
    requires Sound(servers, h) && NodeOk(servers, h, n) && Keeps(h, n)
    requires PacketOk(servers, h, p) && Election.PacketOk(servers, h, p) && p.dst == n.id
    ensures var o := Receive(CORRECTED, servers, n, p.src, p.msg); Keeps(Record(h, n, Deliver(p), o), o.node)
  {
    hide Sound, NodeOk, Keeps, HistoryOk, PacketOk, Election.PacketOk, OnAppendEntries, OnRequestVote, OnVoteResponse,
        OnAppendResponse, RecordCopy, RecordGrant, RecordReign;
    var b := Bump(n, p.msg);
    LogOnDisk(h, n);
    Steps.BumpOk(servers, h, n, p.msg);
    SameKeeps(servers, h, h, n, b);
    if b.state.Follower? {
      FollowerKeeps(servers, h, b, p);
      QuietRecord(h, n, b, p);
    } else {
      Steps.BumpKeepsRole(n, p.msg);
      if b.state.Candidate? && p.msg.VoteResponse? {
        VoteKeeps(servers, h, n, p);
      } else if b.state.Leader? && p.msg.AppendResponse? {
        ResponseOnly(n, p.msg);
        SameKeeps(servers, h, h, n, OnAppendResponse(CORRECTED, n, p.msg).node);
      } else {
        var o := Receive(CORRECTED, servers, n, p.src, p.msg);
        QuietRecord(h, n, o.node, p);
        SameKeeps(servers, h, h, n, o.node);
      }
    }
  }

  lemma QuietRecord(h: History, n: Node, n': Node, p: Packet)
    requires !n'.state.Leader? || !p.msg.VoteResponse? || !n.state.Candidate?
    ensures p.msg.VoteResponse? || p.msg.AppendResponse? ==> Record(h, n, Deliver(p), Outcome(n', [])) == h
    ensures Record(h, n, Deliver(p), Outcome(n', [])) == h
  {
  }

  lemma ResponseOnly(n: Node, m: Message)
    requires n.state.Leader? && m.AppendResponse?
    ensures var n' := OnAppendResponse(CORRECTED, n, m).node; n'.id == n.id && n'.mem == n.mem && n'.disk == n.disk
  {
  }

  lemma EventKeeps(servers: seq<ServerId>, h: History, n: Node, e: Event)
    requires Sound(servers, h) && NodeOk(servers, h, n) && Keeps(h, n) && n.id == Actor(e)
    requires e.Deliver? ==> PacketOk(servers, h, e.packet) && Election.PacketOk(servers, h, e.packet)
    requires e.Heartbeat? ==> n.state.Leader?
    requires e.Apply? ==> CanApply(n)
    ensures var o := React(CORRECTED, servers, n, e); Keeps(Record(h, n, e, o), o.node)
  {
    hide Sound, NodeOk, Keeps, PacketOk, Election.PacketOk, StartElection, Receive, ClientRequest, RecordReign;
    LogOnDisk(h, n);
    match e
    case Timeout(_) => TimeoutKeeps(servers, h, n);
    case Deliver(p) => DeliverKeeps(servers, h, n, p);
    case Heartbeat(_) => SameKeeps(servers, h, h, n, SendAppendEntries(CORRECTED, servers, n).node);
    case Request(_, command) => RequestKeeps(servers, h, n, command);
    case Apply(_) => SameKeeps(servers, h, RecordApplied(h, n), n, ApplyNext(n));
    case Restarted(_) => RestartKeeps(h, n);
  }

  ghost predicate AllKeep(c: Cluster) {
    forall s :: s in c.nodes ==> Keeps(c.history, c.nodes[s])
  }

  /** After every run every server holds what it has confirmed in its term. */
  lemma {:induction false} RunKeeps(servers: seq<ServerId>, events: seq<Event>)
    requires Distinct(servers)
    ensures AllKeep(Run(CORRECTED, servers, events))
  {
    hide Safety.Inv, Keeps, React, Record, HistoryOk, Sound, NodeOk, PacketOk, Extends, Election.PacketOk,
        Election.NodeOk;
    if events == [] {
      StartKeeps(servers);
    } else {
      var c, e := Run(CORRECTED, servers, events[..|events| - 1]), events[|events| - 1];
      RunKeeps(servers, events[..|events| - 1]);
      Safety.RunKeepsInv(servers, events[..|events| - 1]);
      if Enabled(c, e) {
        StepKeeps(servers, c, e);
      }
    }
  }

  lemma StepKeeps(servers: seq<ServerId>, c: Cluster, e: Event)
    requires Safety.Inv(servers, c) && AllKeep(c) && Enabled(c, e)
    ensures AllKeep(Step(CORRECTED, servers, c, e))
  {
    hide Keeps, React, Record, HistoryOk, Sound, NodeOk, PacketOk, Extends, Election.PacketOk, Election.NodeOk,
        Election.Inv;
    Safety.ActorOk(servers, c, e);
    EnabledFacts(c, e);
    var n, c' := c.nodes[Actor(e)], Step(CORRECTED, servers, c, e);
    Safety.StepKeepsReplication(servers, c, e);
    Steps.SoundHistory(servers, c.history);
    EventKeeps(servers, c.history, n, e);
    forall s | s in c'.nodes ensures Keeps(c'.history, c'.nodes[s]) {
      if s != n.id {
        Placed(servers, c, s);
        OtherKeeps(servers, c.history, c'.history, n.id, c.nodes[s]);
      }
    }
  }

  lemma Placed(servers: seq<ServerId>, c: Cluster, s: ServerId)
    requires Safety.Inv(servers, c) && s in c.nodes
    ensures c.nodes[s].id == s
  {
    hide HistoryOk, NodeOk, PacketOk;
  }

  lemma StartKeeps(servers: seq<ServerId>)
    ensures AllKeep(Start(servers))
  {
  }
}
