/** What the disk is good for, over every run: terms already sent are never forgotten, and no
    log entry is ever lost, each exactly under the corrections named. */
module Durability {
  import opened RaftTypes
  import opened Nodes
  import opened Clusters

  /** A candidate or leader has voted for itself, and a candidate counts that vote. */
  ghost predicate SelfVoted(n: Node) {
    && (!n.state.Follower? ==> n.mem.votedFor == Some(n.id))
    && (n.state.Candidate? ==> n.id in n.state.votes)
  }

  /** The server keeps its id and its vote for itself; if persistsFirst its disk never falls
      behind a term it sends; if the log is kept too, its disk holds its log. */
  ghost predicate StepOk(f: Fixes, n: Node, o: Outcome) {
    && o.node.id == n.id && SelfVoted(o.node)
    && n.disk.term <= o.node.disk.term <= o.node.mem.term
    && (forall p :: p in o.out ==> p.src == n.id && (f.persistsFirst ==> p.msg.term <= o.node.disk.term))
    && (f.persistsFirst && f.keepsLog ==> o.node.disk.log == o.node.mem.log)
  }

  ghost predicate NodeOk(f: Fixes, n: Node) {
    && SelfVoted(n) && n.disk.term <= n.mem.term
    && (f.persistsFirst && f.keepsLog ==> n.disk.log == n.mem.log)
  }

  lemma SendOk(f: Fixes, servers: seq<ServerId>, n: Node)
    requires n.state.Leader? && SelfVoted(n) && n.disk.term <= n.mem.term
    requires n.mem.log == [] ==> NodeOk(f, n)
    ensures StepOk(f, n, SendAppendEntries(f, servers, n))
  {
  }

  lemma LeadOk(f: Fixes, servers: seq<ServerId>, n: Node)
    requires n.mem.votedFor == Some(n.id) && n.disk.term <= n.mem.term
    requires f.persistsFirst && f.keepsLog ==> n.disk.log == n.mem.log
    ensures StepOk(f, n, BecomeLeader(f, servers, n))
  {
    var keys := IndexKeys(f, Peers(servers, n.id));
    SendOk(f, servers, n.(state := Leader(map k | k in keys :: Num(|n.mem.log|), FreshTable(keys))));
  }

  lemma StartOk(f: Fixes, servers: seq<ServerId>, n: Node)
    requires NodeOk(f, n)
    ensures StepOk(f, n, StartElection(f, servers, n))
  {
    hide BecomeLeader;
    var n1 := Stand(f, n);
    LeadOk(f, servers, n1);
  }

  lemma ReceiveOk(f: Fixes, servers: seq<ServerId>, n: Node, src: ServerId, m: Message)
    requires NodeOk(f, n)
    ensures StepOk(f, n, Receive(f, servers, n, src, m))
  {
    hide BecomeLeader, AdvanceCommit, UpdateIndexes, Matches, GrantsVote;
    var b := Bump(n, m);
    assert NodeOk(f, b) && b.id == n.id && b.disk == n.disk;
    if b.state.Candidate? && m.VoteResponse? {
      LeadOk(f, servers, b.(state := Candidate(b.state.votes + {src})));
    } else if b.state.Leader? && m.AppendResponse? {
      ResponseOk(f, b, m);
    }
  }

  lemma ResponseOk(f: Fixes, n: Node, m: Message)
    requires n.state.Leader? && m.AppendResponse? && NodeOk(f, n)
    ensures StepOk(f, n, OnAppendResponse(f, n, m))
  {
  }

  lemma EventOk(f: Fixes, servers: seq<ServerId>, n: Node, e: Event)
    requires NodeOk(f, n)
    requires e.Heartbeat? ==> n.state.Leader?
    requires e.Apply? ==> CanApply(n)
    ensures StepOk(f, n, React(f, servers, n, e))
  {
    hide StartElection, Receive, SendAppendEntries;
    match e
    case Timeout(_) => StartOk(f, servers, n);
    case Deliver(p) => ReceiveOk(f, servers, n, p.src, p.msg);
    case Heartbeat(_) => SendOk(f, servers, n);
    case Request(_, command) =>
      if n.state.Leader? {
        SendOk(f, servers, n.(mem := n.mem.(log := n.mem.log + [Entry(command, |n.mem.log|, n.mem.term)])));
      }
    case Apply(_) =>
    case Restarted(_) =>
  }

  ghost predicate Inv(f: Fixes, c: Cluster) {
    && (forall s :: s in c.nodes ==> c.nodes[s].id == s && NodeOk(f, c.nodes[s]))
    && (f.persistsFirst ==> SentBelowDisk(c))
  }

  ghost predicate SentBelowDisk(c: Cluster) {
    forall p :: p in c.network ==> p.src in c.nodes && p.msg.term <= c.nodes[p.src].disk.term
  }

  lemma {:induction false} RunKeepsInv(f: Fixes, servers: seq<ServerId>, events: seq<Event>)
    ensures Inv(f, Run(f, servers, events))
  {
    hide React, Record, NodeOk;
    if events == [] {
      BootOk(f, servers);
    } else {
      var c, e := Run(f, servers, events[..|events| - 1]), events[|events| - 1];
      RunKeepsInv(f, servers, events[..|events| - 1]);
      if Enabled(c, e) {
        EventOk(f, servers, c.nodes[Actor(e)], e);
        StepOkIsOk(f, c.nodes[Actor(e)], React(f, servers, c.nodes[Actor(e)], e));
      }
    }
  }

  lemma StepOkIsOk(f: Fixes, n: Node, o: Outcome)
    requires StepOk(f, n, o)
    ensures NodeOk(f, o.node)
  {
  }

  lemma DiskIsNotAhead(f: Fixes, n: Node)
    requires NodeOk(f, n)
    ensures n.disk.term <= n.mem.term
  {
  }

  lemma BootOk(f: Fixes, servers: seq<ServerId>)
    ensures Inv(f, Start(servers))
  {
  }

  /** As written or corrected in any way: a candidate or leader has voted for itself in its
      current term. */
  lemma CandidatesVoteForThemselves(f: Fixes, servers: seq<ServerId>, events: seq<Event>, s: ServerId)
    requires s in Run(f, servers, events).nodes
    ensures SelfVoted(Run(f, servers, events).nodes[s])
  {
    hide Run, SelfVoted;
    RunKeepsInv(f, servers, events);
  }

  // ----- exactly which corrections -----

  /** No server has ever sent a term above the one it is in. */
  ghost predicate TermsRemembered(c: Cluster) {
    forall p :: p in c.network ==> p.src in c.nodes && p.msg.term <= c.nodes[p.src].mem.term
  }

  /** A crash would lose no entry of any log. */
  ghost predicate LogsOnDisk(c: Cluster) {
    forall s :: s in c.nodes ==> c.nodes[s].disk.log == c.nodes[s].mem.log
  }

  lemma TermsAreRemembered(f: Fixes, servers: seq<ServerId>, events: seq<Event>)
    requires f.persistsFirst
    ensures TermsRemembered(Run(f, servers, events))
  {
    hide Run, SelfVoted;
    RunKeepsInv(f, servers, events);
  }

  lemma LogsAreOnDisk(f: Fixes, servers: seq<ServerId>, events: seq<Event>)
    requires f.persistsFirst && f.keepsLog
    ensures LogsOnDisk(Run(f, servers, events))
  {
    hide Run, SelfVoted;
    RunKeepsInv(f, servers, events);
  }

  const TWO: seq<ServerId> := ["a", "b"]
  const ONE: seq<ServerId> := ["a"]

  lemma RunTwo(f: Fixes, servers: seq<ServerId>, first: Event, second: Event)
    ensures Run(f, servers, [first, second]) == Step(f, servers, Step(f, servers, Start(servers), first), second)
  {
    assert [first, second][..1] == [first] && [first][..0] == [];
    assert Run(f, servers, [first]) == Step(f, servers, Start(servers), first);
  }

  lemma AsksInTermOne(f: Fixes)
    requires !f.persistsFirst
    ensures var o := React(f, TWO, Boot("a"), Timeout("a"));
      && o.node == Boot("a").(mem := Stable(1, Some("a"), [SENTINEL]), state := Candidate({"a"}))
      && Packet("a", "b", RequestVote(1, "a", 0, 0)) in o.out
  {
    hide BecomeLeader;
    assert !IsMajority(TWO, {"a"});
    assert TWO[1..] == ["b"] && TWO[1..][1..] == [];
    assert Peers(TWO, "a") == ["b"];
    var n1 := Boot("a").(mem := Stable(1, Some("a"), [SENTINEL]), state := Candidate({"a"}));
    assert VoteRequests(TWO, n1)[0] == Packet("a", "b", RequestVote(1, "a", 0, 0));
    assert Packet("a", "b", RequestVote(1, "a", 0, 0)) in VoteRequests(TWO, n1);
  }

  lemma RestartsInTermZero(f: Fixes)
    ensures React(f, TWO, Boot("a").(mem := Stable(1, Some("a"), [SENTINEL]), state := Candidate({"a"})),
        Restarted("a"))
         == Outcome(Boot("a"), [])
  {
  }

  /** A candidate asks for votes in term 1, crashes, and is back in term 0. */
  lemma TermForgotten(f: Fixes)
    requires !f.persistsFirst
    ensures !TermsRemembered(Run(f, TWO, [Timeout("a"), Restarted("a")]))
  {
    hide Run, React, Record;
    RunTwo(f, TWO, Timeout("a"), Restarted("a"));
    AsksInTermOne(f);
    RestartsInTermZero(f);
    var c := Step(f, TWO, Step(f, TWO, Start(TWO), Timeout("a")), Restarted("a"));
    assert Packet("a", "b", RequestVote(1, "a", 0, 0)) in c.network && c.nodes["a"] == Boot("a");
  }

  lemma LeadsAlone(f: Fixes)
    ensures var n := React(f, ONE, Boot("a"), Timeout("a")).node;
      n.id == "a" && n.state.Leader? && n.mem.log == [SENTINEL] == n.disk.log
  {
    assert |{"a"}| == 1;
  }

  lemma AppendsInMemory(f: Fixes, n: Node, command: Bytes)
    requires (!f.persistsFirst || !f.keepsLog) && n.state.Leader? && n.mem.log == [SENTINEL] == n.disk.log
    ensures var o := React(f, ONE, n, Request("a", command)); o.node.id == n.id && o.node.disk.log != o.node.mem.log
  {
  }

  /** A server alone leads at once; the entry it appends is not on disk. */
  lemma EntryNotOnDisk(f: Fixes, command: Bytes)
    requires !f.persistsFirst || !f.keepsLog
    ensures !LogsOnDisk(Run(f, ONE, [Timeout("a"), Request("a", command)]))
  {
    hide Run, React, Record;
    RunTwo(f, ONE, Timeout("a"), Request("a", command));
    LeadsAlone(f);
    AppendsInMemory(f, React(f, ONE, Boot("a"), Timeout("a")).node, command);
    var c := Step(f, ONE, Step(f, ONE, Start(ONE), Timeout("a")), Request("a", command));
    assert c.nodes["a"].disk.log != c.nodes["a"].mem.log;
  }

  /** A term once sent is never forgotten, over every run, exactly when the state is written
      before requests too. */
  lemma TermsRememberedIff(f: Fixes)
    ensures (forall servers, events :: Distinct(servers) ==> TermsRemembered(Run(f, servers, events)))
       <==> f.persistsFirst
  {
    hide Run, TermsRemembered;
    if f.persistsFirst {
      forall servers, events | Distinct(servers) ensures TermsRemembered(Run(f, servers, events)) {
        TermsAreRemembered(f, servers, events);
      }
    } else {
      TermForgotten(f);
      assert Distinct(TWO);
    }
  }

  /** No entry could ever be lost by a crash exactly when writing the log writes it, and the
      state is written before requests too. */
  lemma LogsOnDiskIff(f: Fixes)
    ensures (forall servers, events :: Distinct(servers) ==> LogsOnDisk(Run(f, servers, events)))
       <==> f.persistsFirst && f.keepsLog
  {
    hide Run, LogsOnDisk;
    if f.persistsFirst && f.keepsLog {
      forall servers, events | Distinct(servers) ensures LogsOnDisk(Run(f, servers, events)) {
        LogsAreOnDisk(f, servers, events);
      }
    } else {
      EntryNotOnDisk(f, []);
      assert Distinct(ONE);
    }
  }
}
