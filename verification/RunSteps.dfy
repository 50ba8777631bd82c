/** Building a run one event at a time, for the runs that serve as examples. */
module RunSteps {
  import opened RaftTypes
  import opened Nodes
  import opened Clusters

  /** The vote request of a candidate whose log is empty, and a grant. */
  function Ask(candidate: ServerId, v: ServerId, term: nat): Packet {
    Packet(candidate, v, RequestVote(term, candidate, 0, 0))
  }

  function Yes(v: ServerId, candidate: ServerId, term: nat): Packet {
    Packet(v, candidate, VoteResponse(term, true))
  }

  function FirstEntry(command: Bytes, term: nat): Entry {
    Entry(command, 1, term)
  }

  lemma RunOneMore(f: Fixes, servers: seq<ServerId>, events: seq<Event>, e: Event)
    ensures Run(f, servers, events + [e]) == Step(f, servers, Run(f, servers, events), e)
  {
    assert (events + [e])[..|events|] == events;
  }

  /** Packets and applied commands are only added; only the named server moved. */
  ghost predicate Moved(c: Cluster, c': Cluster, s: ServerId) {
    && c'.nodes.Keys == c.nodes.Keys && s in c'.nodes && c'.nodes[s].id == s
    && (forall t :: t in c.nodes && t in c'.nodes && t != s ==> c'.nodes[t] == c.nodes[t])
    && c.network <= c'.network && c.history.applied <= c'.history.applied
  }

  lemma RecordAddsApplied(h: History, n: Node, e: Event, o: Outcome)
    requires e.Apply? ==> CanApply(n)
    ensures h.applied <= Record(h, n, e, o).applied
    ensures e.Apply? ==>
      Applied(n.id, n.lastApplied + 1, n.mem.log[n.lastApplied + 1].command) in Record(h, n, e, o).applied
  {
  }

  /** One event, once it is known what its server does. */
  lemma Turn(f: Fixes, servers: seq<ServerId>, events: seq<Event>, c: Cluster, e: Event, o: Outcome)
    returns (events': seq<Event>, c': Cluster)
    requires c == Run(f, servers, events) && Enabled(c, e)
    requires o == React(f, servers, c.nodes[Actor(e)], e) && o.node.id == Actor(e) == c.nodes[Actor(e)].id
    ensures c' == Run(f, servers, events') && Moved(c, c', Actor(e)) && c'.nodes[Actor(e)] == o.node
    ensures forall p :: p in o.out ==> p in c'.network
    ensures c'.history == Record(c.history, c.nodes[Actor(e)], e, o)
  {
    hide Run, React, Record;
    RecordAddsApplied(c.history, c.nodes[Actor(e)], e, o);
    events', c' := events + [e], Step(f, servers, c, e);
    RunOneMore(f, servers, events, e);
  }
}
