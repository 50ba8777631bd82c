/** A cluster of servers and every run it can make. The network is the set of all packets
    ever sent: a packet may be delivered never, once or many times, in any order. Any server
    may time out, crash and restart at any moment. The history records what the safety
    properties speak about; no step reads it. */
module Clusters {
  import opened RaftTypes
  import opened Nodes

  datatype Event =
    | Timeout(server: ServerId)   // the election timer fires, in whatever state the server is
    | Deliver(packet: Packet)
    | Heartbeat(server: ServerId)
    | Request(server: ServerId, command: Bytes)
    | Apply(server: ServerId)
    | Restarted(server: ServerId)

  datatype Cast = Cast(voter: ServerId, term: nat, candidate: ServerId)
  datatype Candidacy = Candidacy(server: ServerId, term: nat)
  datatype Win = Win(term: nat, leader: ServerId)
  datatype Copy = Copy(server: ServerId, term: nat)
  datatype Applied = Applied(server: ServerId, index: nat, command: Bytes)

  /** A leader's term: the votes it won with, the log it won with, its log now, and the terms
      that had been won before. */
  datatype Reign = Reign(leader: ServerId, quorum: set<ServerId>, base: seq<Entry>, log: seq<Entry>,
                         earlier: set<nat>)

  datatype History = History(
    ballots: map<Cast, seq<Entry>>,         // each vote given, and the voter's log at that moment
    candidacies: map<Candidacy, seq<Entry>>, // each election started, and the log it was started with
    wins: map<Win, set<ServerId>>,          // each time a server became leader, and the votes it had
    reigns: map<nat, Reign>,
    copies: map<Copy, nat>,                 // how many entries of the term's leader log a server confirmed
    applied: set<Applied>
  )

  datatype Cluster = Cluster(nodes: map<ServerId, Node>, network: set<Packet>, history: History)

  // ----- history -----

  function RecordCandidacy(h: History, n: Node, n': Node): History {
    h.(candidacies := h.candidacies[Candidacy(n.id, n'.mem.term) := n.mem.log],
       ballots := h.ballots[Cast(n.id, n'.mem.term, n.id) := n.mem.log])
  }

  /** A vote granted again to the same candidate in the same term is not a new vote. */
  function RecordGrant(h: History, n': Node, out: seq<Packet>): History {
    if |out| == 1 && out[0].msg.VoteResponse? && out[0].msg.voteGranted then
      var key := Cast(n'.id, out[0].msg.term, out[0].dst);
      if key in h.ballots then h else h.(ballots := h.ballots[key := n'.mem.log])
    else h
  }

  /** A server that is now leader: a new reign, or its reign's log grew. */
  function RecordReign(h: History, n: Node, n': Node, quorum: set<ServerId>): History {
    if !n'.state.Leader? then h
    else
      var term := n'.mem.term;
      var h' := h.(copies := h.copies[Copy(n'.id, term) := |n'.mem.log|]);
      if n.state.Leader? && n.mem.term == term && term in h.reigns then
        h'.(reigns := h.reigns[term := h.reigns[term].(log := n'.mem.log)])
      else
        h'.(wins := h.wins[Win(term, n'.id) := quorum],
            reigns := h.reigns[term := Reign(n'.id, quorum, n'.mem.log, n'.mem.log, h.reigns.Keys)])
  }

  function RecordCopy(h: History, n': Node, out: seq<Packet>): History {
    if |out| == 1 && out[0].msg.AppendResponse? && out[0].msg.success then
      var key, length := Copy(n'.id, out[0].msg.term), out[0].msg.replicatedTo + 1;
      if key in h.copies && h.copies[key] >= length then h else h.(copies := h.copies[key := length])
    else h
  }

  function RecordApplied(h: History, n: Node): History
    requires CanApply(n)
  {
    var index := n.lastApplied + 1;
    h.(applied := h.applied + {Applied(n.id, index, n.mem.log[index].command)})
  }

  // ----- steps -----

  function Actor(e: Event): ServerId {
    if e.Deliver? then e.packet.dst else e.server
  }

  predicate Enabled(c: Cluster, e: Event) {
    && Actor(e) in c.nodes
    && (e.Deliver? ==> e.packet in c.network)
    && (e.Heartbeat? ==> c.nodes[e.server].state.Leader?)
    && (e.Apply? ==> CanApply(c.nodes[e.server]))
  }

  lemma EnabledFacts(c: Cluster, e: Event)
    requires Enabled(c, e)
    ensures Actor(e) in c.nodes && (e.Deliver? ==> e.packet in c.network)
    ensures e.Heartbeat? ==> c.nodes[Actor(e)].state.Leader?
    ensures e.Apply? ==> CanApply(c.nodes[Actor(e)])
  {
  }

  function React(f: Fixes, servers: seq<ServerId>, n: Node, e: Event): Outcome
    requires e.Heartbeat? ==> n.state.Leader?
    requires e.Apply? ==> CanApply(n)
  {
    match e
    case Timeout(_) => StartElection(f, servers, n)
    case Deliver(p) => Receive(f, servers, n, p.src, p.msg)
    case Heartbeat(_) => SendAppendEntries(f, servers, n)
    case Request(_, command) => ClientRequest(f, servers, n, command)
    case Apply(_) => Outcome(ApplyNext(n), [])
    case Restarted(_) => Outcome(Restart(f, n), [])
  }

  function Record(h: History, n: Node, e: Event, o: Outcome): History
    requires e.Apply? ==> CanApply(n)
  {
    match e
    case Timeout(_) => RecordReign(RecordCandidacy(h, n, o.node), n, o.node, {n.id})
    case Deliver(p) =>
      (match p.msg
       case RequestVote(_, _, _, _) => RecordGrant(h, o.node, o.out)
       case VoteResponse(_, _) =>
         if n.state.Candidate? then RecordReign(h, n, o.node, n.state.votes + {p.src}) else h
       case AppendEntries(_, _, _, _, _, _) => RecordCopy(h, o.node, o.out)
       case AppendResponse(_, _, _, _, _) => h)
    case Heartbeat(_) => h
    case Request(_, _) => RecordReign(h, n, o.node, {})
    case Apply(_) => RecordApplied(h, n)
    case Restarted(_) => h
  }

  function Step(f: Fixes, servers: seq<ServerId>, c: Cluster, e: Event): Cluster {
    if !Enabled(c, e) then c
    else
      var n := c.nodes[Actor(e)];
      var o := React(f, servers, n, e);
      Cluster(c.nodes[n.id := o.node], c.network + (set p | p in o.out), Record(c.history, n, e, o))
  }

  function Start(servers: seq<ServerId>): Cluster {
    Cluster(map s | s in servers :: Boot(s), {}, History(map[], map[], map[], map[], map[], {}))
  }

  /** The cluster after a run of events; an event that is not enabled does nothing. */
  function Run(f: Fixes, servers: seq<ServerId>, events: seq<Event>): Cluster {
    if events == [] then Start(servers)
    else Step(f, servers, Run(f, servers, events[..|events| - 1]), events[|events| - 1])
  }

  // ----- the properties -----

  /** Section 5.2: at most one leader is ever elected in a term. */
  ghost predicate ElectionSafe(c: Cluster) {
    forall a, b :: a in c.history.wins && b in c.history.wins && a.term == b.term ==> a.leader == b.leader
  }

  /** Section 5.3: logs that agree on the term at an index are identical up to it. */
  ghost predicate LogsMatch(c: Cluster) {
    forall s, t, i :: s in c.nodes && t in c.nodes && 0 <= i < |c.nodes[s].mem.log| && i < |c.nodes[t].mem.log|
      && c.nodes[s].mem.log[i].term == c.nodes[t].mem.log[i].term
      ==> c.nodes[s].mem.log[..i + 1] == c.nodes[t].mem.log[..i + 1]
  }

  /** Section 5.4.3: two servers never apply different commands at the same index, whether
      before or after crashes. */
  ghost predicate StateMachineSafe(c: Cluster) {
    forall a, b :: a in c.history.applied && b in c.history.applied && a.index == b.index ==> a.command == b.command
  }
}
