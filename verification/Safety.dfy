/** The safety properties of Figure 3 of the Raft paper, for every run of the corrected
    cluster: any number of servers, any loss, duplication and reordering of packets, any
    timeouts, and servers that crash and restart from disk at any point. */
module Safety {
  import opened RaftTypes
  import opened Nodes
  import Medians
  import opened Clusters
  import opened RunSteps
  import ApplyLoop
  import Election
  import opened Replication
  import opened Completeness
  import Steps

  ghost predicate Inv(servers: seq<ServerId>, c: Cluster) {
    && Election.Inv(servers, c)
    && HistoryOk(servers, c.history)
    && (forall s :: s in c.nodes ==> NodeOk(servers, c.history, c.nodes[s]))
    && (forall p :: p in c.network ==> PacketOk(servers, c.history, p))
  }

  lemma InvIsSound(servers: seq<ServerId>, c: Cluster)
    requires Inv(servers, c)
    ensures Sound(servers, c.history)
  {
    hide HistoryOk, Election.HistoryOk;
  }

  lemma ActorOk(servers: seq<ServerId>, c: Cluster, e: Event)
    requires Inv(servers, c) && Enabled(c, e)
    ensures var n := c.nodes[Actor(e)];
      && n.id == Actor(e) && n.id in servers && Sound(servers, c.history)
      && Election.NodeOk(servers, c.history, n) && NodeOk(servers, c.history, n)
      && (e.Deliver? ==> Election.PacketOk(servers, c.history, e.packet) && PacketOk(servers, c.history, e.packet))
  {
    hide HistoryOk, Election.HistoryOk, NodeOk, PacketOk, Election.NodeOk, Election.PacketOk;
  }

  lemma StepKeepsReplication(servers: seq<ServerId>, c: Cluster, e: Event)
    requires Inv(servers, c) && Enabled(c, e)
    ensures var c' := Step(CORRECTED, servers, c, e);
      && HistoryOk(servers, c'.history)
      && (forall s :: s in c'.nodes ==> NodeOk(servers, c'.history, c'.nodes[s]))
      && (forall p :: p in c'.network ==> PacketOk(servers, c'.history, p))
      && Extends(c.history, c'.history, Actor(e))
  {
    hide HistoryOk, NodeOk, PacketOk, Extends, Sound, React, Record, CanApply, Election.NodeOk, Election.PacketOk;
    ActorOk(servers, c, e);
    var h, n := c.history, c.nodes[Actor(e)];
    EnabledFacts(c, e);
    Steps.EventOk(servers, h, n, e);
    var c' := Step(CORRECTED, servers, c, e);
    forall s | s in c'.nodes ensures NodeOk(servers, c'.history, c'.nodes[s]) {
      if s != n.id {
        OtherNodeOk(servers, h, c'.history, n.id, c.nodes[s]);
      }
    }
    forall p | p in c'.network ensures PacketOk(servers, c'.history, p) {
      if p in c.network {
        PacketStaysOk(servers, h, c'.history, n.id, p);
      }
    }
  }

  lemma StepKeepsInv(servers: seq<ServerId>, c: Cluster, e: Event)
    requires Inv(servers, c)
    ensures Inv(servers, Step(CORRECTED, servers, c, e))
  {
    hide HistoryOk, NodeOk, PacketOk, Extends, Election.Inv;
    Election.StepKeepsInv(CORRECTED, servers, c, e);
    if Enabled(c, e) {
      StepKeepsReplication(servers, c, e);
    }
  }

  lemma StartOk(servers: seq<ServerId>)
    requires Distinct(servers)
    ensures Inv(servers, Start(servers))
  {
    Election.RunKeepsInv(CORRECTED, servers, []);
    var c := Start(servers);
    forall s | s in c.nodes ensures NodeOk(servers, c.history, c.nodes[s]) {
      assert c.nodes[s].mem.log[..1] == [SENTINEL];
    }
  }

  /** The invariant holds after every run. */
  lemma {:induction false} RunKeepsInv(servers: seq<ServerId>, events: seq<Event>)
    requires Distinct(servers)
    ensures Inv(servers, Run(CORRECTED, servers, events))
  {
    hide Inv, Step;
    if events == [] {
      StartOk(servers);
    } else {
      RunKeepsInv(servers, events[..|events| - 1]);
      StepKeepsInv(servers, Run(CORRECTED, servers, events[..|events| - 1]), events[|events| - 1]);
    }
  }

  // ----- Figure 3 -----

  /** Leader Completeness: after every run, an entry copied by a majority in its leader's term
      was in the log of every leader of a later term when that leader was elected. */
  lemma {:induction false} LeadersAreComplete(servers: seq<ServerId>, events: seq<Event>)
    requires Distinct(servers)
    ensures LeadersComplete(servers, Run(CORRECTED, servers, events).history)
  {
    hide Run, Inv, LeadersComplete, Sound;
    RunKeepsInv(servers, events);
    InvIsSound(servers, Run(CORRECTED, servers, events));
    SoundIsComplete(servers, Run(CORRECTED, servers, events).history);
  }

  /** So all that any server holds committed is in the log of every leader
      of the same or a later term. */
  lemma LeadersHoldCommitted(servers: seq<ServerId>, events: seq<Event>, s: ServerId, leader: ServerId)
    requires Distinct(servers)
    requires var c := Run(CORRECTED, servers, events);
      && s in c.nodes && leader in c.nodes && c.nodes[leader].state.Leader?
      && c.nodes[s].mem.term <= c.nodes[leader].mem.term
    ensures var c := Run(CORRECTED, servers, events);
      && c.nodes[s].commitIndex < |c.nodes[s].mem.log|
      && c.nodes[s].mem.log[..c.nodes[s].commitIndex + 1] <= c.nodes[leader].mem.log
  {
    hide Run, HistoryOk, Election.Inv, ViewOk, Committed, IndexesOk, Sound;
    var c := Run(CORRECTED, servers, events);
    RunKeepsInv(servers, events);
    InvIsSound(servers, c);
    var n, l := c.nodes[s], c.nodes[leader];
    assert NodeOk(servers, c.history, n) && NodeOk(servers, c.history, l);
    WithLaterTerm(servers, c.history, n.mem.log[..n.commitIndex + 1], n.mem.term, l.mem.term);
    LeaderHoldsCommitted(servers, c.history, n.mem.log[..n.commitIndex + 1], l.mem.term);
  }

  lemma WithLaterTerm(servers: seq<ServerId>, h: History, log: seq<Entry>, upTo: nat, upTo': nat)
    requires Committed(servers, h, log, upTo) && upTo <= upTo'
    ensures Committed(servers, h, log, upTo')
  {
  }

  /** State Machine Safety: no two servers ever apply different commands at one index, and no
      server applies another command there after a restart. */
  lemma StateMachineSafety(servers: seq<ServerId>, events: seq<Event>)
    requires Distinct(servers)
    ensures StateMachineSafe(Run(CORRECTED, servers, events))
  {
    hide Run, Inv, StateMachineSafe;
    RunKeepsInv(servers, events);
    InvIsSafe(servers, Run(CORRECTED, servers, events));
  }

  lemma InvIsSafe(servers: seq<ServerId>, c: Cluster)
    requires Inv(servers, c)
    ensures StateMachineSafe(c)
  {
    hide Election.Inv, ReignOk, CandidacyOk, BallotOk, CopyOk, BallotKeeps, AppliedOk, NodeOk, PacketOk, Sound;
    InvIsSound(servers, c);
    forall a, b | a in c.history.applied && b in c.history.applied && a.index == b.index
      ensures a.command == b.command
    {
      AppliedAgree(servers, c.history, a, b);
    }
  }

  /** On every server 0 <= lastApplied <= commitIndex <= lastIndex. */
  lemma CommitWithinLog(servers: seq<ServerId>, events: seq<Event>, s: ServerId)
    requires Distinct(servers) && s in Run(CORRECTED, servers, events).nodes
    ensures var n := Run(CORRECTED, servers, events).nodes[s]; n.lastApplied <= n.commitIndex <= |n.mem.log| - 1
  {
    hide Run, HistoryOk, Election.Inv, ViewOk, LeaderOk, Committed;
    RunKeepsInv(servers, events);
    assert NodeOk(servers, Run(CORRECTED, servers, events).history, Run(CORRECTED, servers, events).nodes[s]);
  }

  /** A leader's tables: 0 <= matchIndex < nextIndex <= lastIndex + 1 for every peer. */
  lemma IndexesWithinLog(servers: seq<ServerId>, events: seq<Event>, s: ServerId, peer: ServerId)
    requires Distinct(servers) && s in Run(CORRECTED, servers, events).nodes && peer in servers && peer != s
    requires Run(CORRECTED, servers, events).nodes[s].state.Leader?
    ensures var n := Run(CORRECTED, servers, events).nodes[s];
      && peer in n.state.matchIndex.at && peer in n.state.nextIndex && n.state.nextIndex[peer].Num?
      && n.state.matchIndex.at[peer] < n.state.nextIndex[peer].value <= |n.mem.log|
  {
    hide Run, HistoryOk, ViewOk, CommitOk;
    RunKeepsInv(servers, events);
    var c := Run(CORRECTED, servers, events);
    assert NodeOk(servers, c.history, c.nodes[s]);
    assert IndexOk(c.history, c.nodes[s], peer);
  }

  // ----- what no step takes back -----

  /** Terms and commit indexes do not fall, a vote given in a term stands, and the log up to
      the commit index is not touched. */
  ghost predicate Advances(n: Node, n': Node) {
    && n.mem.term <= n'.mem.term
    && (n'.mem.term == n.mem.term && n.mem.votedFor != None ==> n'.mem.votedFor == n.mem.votedFor)
    && n.lastApplied <= n'.lastApplied
    && n.commitIndex <= n'.commitIndex && n.commitIndex < |n.mem.log| && n.commitIndex < |n'.mem.log|
    && n'.mem.log[..n.commitIndex + 1] == n.mem.log[..n.commitIndex + 1]
  }

  /** Nothing but the role, the disk, the tables and later entries changes. */
  ghost predicate Gains(n: Node, n': Node) {
    && n'.mem == n.mem.(log := n'.mem.log) && n.mem.log <= n'.mem.log
    && n'.commitIndex == n.commitIndex && n'.lastApplied == n.lastApplied
  }

  lemma SendGains(f: Fixes, servers: seq<ServerId>, n: Node)
    requires n.state.Leader?
    ensures var n' := SendAppendEntries(f, servers, n).node;
      Gains(n, n') && n'.id == n.id && n'.state == n.state && n'.mem == n.mem
  {
  }

  lemma AppendAdvances(servers: seq<ServerId>, h: History, n: Node, p: Packet)
    requires Sound(servers, h) && NodeOk(servers, h, n) && PacketOk(servers, h, p)
    requires n.state.Follower? && p.msg.AppendEntries?
    requires p.msg.term == n.mem.term
    ensures Advances(n, OnAppendEntries(CORRECTED, n, p.src, p.msg).node)
  {
    LogsOk(servers, h, n);
    if Nodes.Matches(n.mem.log, p.msg) {
      AcceptAdvances(servers, h, n, p);
    }
  }

  lemma AcceptAdvances(servers: seq<ServerId>, h: History, n: Node, p: Packet)
    requires Sound(servers, h) && NodeOk(servers, h, n) && PacketOk(servers, h, p)
    requires n.state.Follower? && p.msg.AppendEntries? && p.msg.term == n.mem.term && Nodes.Matches(n.mem.log, p.msg)
    ensures Advances(n, OnAppendEntries(CORRECTED, n, p.src, p.msg).node)
  {
    hide Sound, HistoryOk, ViewOk, LeaderOk, Committed, LogOk, RecordCopy, Nodes.Matches, OnAppendEntries;
    var end := p.msg.prevLogIndex + 1 + |p.msg.entries|;
    var merged := OnAppendEntries(CORRECTED, n, p.src, p.msg).node.mem.log;
    Steps.SoundHistory(servers, h);
    Steps.AcceptShape(h, n, p, end);
    Steps.BatchOk(servers, h, p);
    LogsOk(servers, h, n);
    MatchesTerm(n.mem.log, p.msg);
    Steps.MergeStretch(h, n.mem.log, h.reigns[n.mem.term].log, p.msg.entries, p.msg.prevLogIndex);
    Steps.FollowerCommitOk(servers, h, n, p.msg, end, merged);
    Steps.CommitIndexStays(servers, h, n.mem.log, n.commitIndex, n.mem.term, end, merged);
  }

  lemma LogsOk(servers: seq<ServerId>, h: History, n: Node)
    requires NodeOk(servers, h, n)
    ensures LogOk(h, n.mem.log) && n.commitIndex < |n.mem.log|
  {
  }

  lemma MatchesTerm(log: seq<Entry>, m: Message)
    requires m.AppendEntries? && Nodes.Matches(log, m)
    ensures m.prevLogIndex < |log| && log[m.prevLogIndex].term == m.prevLogTerm
  {
  }

  lemma DispatchAdvances(servers: seq<ServerId>, h: History, b: Node, p: Packet)
    requires Sound(servers, h) && NodeOk(servers, h, b) && PacketOk(servers, h, p)
    requires b.id in servers && b.mem.term >= p.msg.term
    ensures Advances(b, Dispatch(CORRECTED, servers, b, p.src, p.msg).node)
  {
    hide Sound, NodeOk, HistoryOk, PacketOk, OnAppendEntries, BecomeLeader, AdvanceCommit, UpdateIndexes;
    LogsOk(servers, h, b);
    match b.state
    case Follower(_) =>
      if p.msg.AppendEntries? {
        if p.msg.term == b.mem.term {
          AppendAdvances(servers, h, b, p);
        } else {
          StaleGains(b, p);
        }
      }
    case Candidate(votes) =>
      if p.msg.VoteResponse? {
        Election.LeadEffect(CORRECTED, servers, b.(state := Candidate(votes + {p.src})));
      }
    case Leader(_, _) =>
      if p.msg.AppendResponse? && p.msg.term == b.mem.term {
        Steps.UpdateKeepsRole(b.state, p.msg);
        CommitGrows(b.(state := UpdateIndexes(CORRECTED, b.state, p.msg)));
      }
  }

  lemma StaleGains(n: Node, p: Packet)
    requires n.state.Follower? && p.msg.AppendEntries? && p.msg.term < n.mem.term && n.commitIndex < |n.mem.log|
    ensures Advances(n, OnAppendEntries(CORRECTED, n, p.src, p.msg).node)
  {
  }

  lemma CommitGrows(n: Node)
    requires n.state.Leader?
    ensures var n' := AdvanceCommit(CORRECTED, n);
      n' == n.(commitIndex := n'.commitIndex) && n.commitIndex <= n'.commitIndex
  {
    var values := Values(n.state.matchIndex);
    if values != [] {
      Steps.CommitScanBounds(n.mem.log, n.mem.term, n.commitIndex, Medians.Median(true, values));
    }
  }

  lemma ReactionAdvances(servers: seq<ServerId>, h: History, n: Node, e: Event)
    requires Sound(servers, h) && NodeOk(servers, h, n) && n.id in servers && !e.Restarted?
    requires e.Deliver? ==> PacketOk(servers, h, e.packet)
    requires e.Heartbeat? ==> n.state.Leader?
    requires e.Apply? ==> CanApply(n)
    ensures Advances(n, React(CORRECTED, servers, n, e).node)
  {
    hide Sound, NodeOk, HistoryOk, PacketOk, Dispatch, StartElection, SendAppendEntries;
    LogsOk(servers, h, n);
    match e
    case Timeout(_) => Election.StartEffect(CORRECTED, servers, n); StartKeeps(servers, n);
    case Deliver(p) =>
      Steps.BumpOk(servers, h, n, p.msg);
      DispatchAdvances(servers, h, Bump(n, p.msg), p);
    case Heartbeat(_) => SendGains(CORRECTED, servers, n);
    case Request(_, command) =>
      if n.state.Leader? {
        SendGains(CORRECTED, servers, n.(mem := n.mem.(log := n.mem.log + [Entry(command, |n.mem.log|, n.mem.term)])));
      }
    case Apply(_) =>
  }

  lemma StartKeeps(servers: seq<ServerId>, n: Node)
    ensures var n' := StartElection(CORRECTED, servers, n).node;
      n'.commitIndex == n.commitIndex && n'.lastApplied == n.lastApplied
  {
    hide BecomeLeader;
    Election.LeadEffect(CORRECTED, servers, Steps.Standing(n));
  }

  /** No step of any server, other than its own restart, lowers a term, a commit index or
      lastApplied, changes a vote given in the current term, or removes or overwrites an entry
      at or below the commit index. */
  lemma {:induction false} NothingTakenBack(servers: seq<ServerId>, events: seq<Event>, e: Event, s: ServerId)
    requires Distinct(servers) && s in Run(CORRECTED, servers, events).nodes && e != Restarted(s)
    ensures var c := Run(CORRECTED, servers, events);
      s in Step(CORRECTED, servers, c, e).nodes && Advances(c.nodes[s], Step(CORRECTED, servers, c, e).nodes[s])
  {
    hide Run, HistoryOk, Election.Inv, NodeOk, PacketOk, React, Record, Sound, CanApply;
    var c := Run(CORRECTED, servers, events);
    RunKeepsInv(servers, events);
    LogsOk(servers, c.history, c.nodes[s]);
    if Enabled(c, e) && Actor(e) == s {
      ActorOk(servers, c, e);
      EnabledFacts(c, e);
      ReactionAdvances(servers, c.history, c.nodes[s], e);
    } else if Enabled(c, e) {
      ActorOk(servers, c, e);
    }
  }

  /** So every step of a server, other than its own restart, is lawful for its apply loop: the log
      changes above the commit index only, and then the commit index rises within the log. */
  lemma {:induction false} StepsAreLawful(servers: seq<ServerId>, events: seq<Event>, e: Event, s: ServerId,
                                          l: ApplyLoop.Loops)
    requires Distinct(servers) && s in Run(CORRECTED, servers, events).nodes && e != Restarted(s)
    requires var n := Run(CORRECTED, servers, events).nodes[s]; l.log == n.mem.log && l.commitIndex == n.commitIndex
    ensures var c' := Run(CORRECTED, servers, events + [e]);
      && s in c'.nodes && ApplyLoop.Lawful(l, ApplyLoop.Logged(c'.nodes[s].mem.log))
      && ApplyLoop.Lawful(l.(log := c'.nodes[s].mem.log), ApplyLoop.Called(c'.nodes[s].commitIndex))
  {
    hide Run, Step;
    RunOneMore(CORRECTED, servers, events, e);
    NothingTakenBack(servers, events, e, s);
    CommitWithinLog(servers, events + [e], s);
  }
}
