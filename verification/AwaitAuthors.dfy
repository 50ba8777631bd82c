/** Log Matching with every await taken apart where requests can only cut a log and the log is never
    written: a log holds what its server appended since it started, in terms in which it votes for
    nobody else, and a vote for another server leaves only when it is on disk. */
module AwaitAuthors {
  import opened RaftTypes
  import opened Logs
  import opened Medians
  import opened Nodes
  import opened Clusters
  import opened Awaits
  import Durability
  import Election
  import opened SoleAuthors

  /** Nothing but votes is remembered over a crash, and these are. */
  predicate Forgetful(p: Policy) {
    CutsOnly(p.fixes) && !p.fixes.keepsLog && p.serial && p.termFirst
  }

  // ----- the votes others can know of -----

  predicate AsksVote(e: Event) {
    e.Deliver? && e.packet.msg.RequestVote?
  }

  /** A handler adds everything at once but a vote for another server. */
  function Told(f: Fixes, servers: seq<ServerId>, g: History, n: Node, e: Event): History
    requires e.Heartbeat? ==> n.state.Leader?
    requires e.Apply? ==> CanApply(n)
  {
    if AsksVote(e) then g else Record(g, n, e, React(f, servers, n, e))
  }

  predicate Grants(x: Packet) {
    x.msg.VoteResponse? && x.msg.voteGranted
  }

  /** That is added when it leaves. */
  ghost function Leave(g: History, n: Node, out: seq<Packet>): History {
    if n.mem.votedFor.Some? && exists x :: x in out && Grants(x) then
      g.(ballots := g.ballots[Cast(n.id, n.mem.term, n.mem.votedFor.value) := n.mem.log])
    else g
  }

  // ----- the invariant -----

  /** A packet that waits: it says what the server still holds. */
  ghost predicate ToldOk(n: Node, x: Packet) {
    && x.src == n.id
    && (Grants(x) ==> x.msg.term == n.mem.term && n.mem.votedFor == Some(x.dst))
    && (x.msg.RequestVote? ==> x.msg.candidateId == x.src)
    && (x.msg.AppendEntries? ==> EndsAt(x.msg.entries, x.msg.prevLogIndex))
  }

  ghost predicate BatchOk(n: Node, b: Batch) {
    && b.files <= 3
    && (b.files >= 2 ==> n.disk.term == n.mem.term)
    && (b.files == 3 ==> n.disk.votedFor == n.mem.votedFor)
    && (forall x :: x in b.out ==> ToldOk(n, x))
  }

  ghost predicate QueueOk(n: Node, waiting: seq<Batch>) {
    waiting == [] || (|waiting| == 1 && BatchOk(n, waiting[0]))
  }

  ghost predicate ServerOk(f: Fixes, servers: seq<ServerId>, g: History, n: Node) {
    NodeOk(f, servers, g, n) && Durability.SelfVoted(n) && n.disk.term <= n.mem.term
  }

  ghost predicate Inv(f: Fixes, servers: seq<ServerId>, a: Async, g: History) {
    && Election.Placed(servers, a.cluster) && a.waiting.Keys == a.cluster.nodes.Keys
    && HistoryOk(servers, g)
    && (forall s :: s in a.cluster.nodes ==>
          ServerOk(f, servers, g, a.cluster.nodes[s]) && QueueOk(a.cluster.nodes[s], a.waiting[s]))
    && (forall p :: p in a.cluster.network ==> PacketOk(servers, g, p))
  }

  // ----- a handler -----

  lemma TermRises(f: Fixes, servers: seq<ServerId>, n: Node, e: Event)
    requires !e.Restarted?
    requires e.Heartbeat? ==> n.state.Leader?
    requires e.Apply? ==> CanApply(n)
    ensures n.mem.term <= React(f, servers, n, e).node.mem.term
  {
    hide BecomeLeader, Merge, Nodes.Matches, GrantsVote, UpdateIndexes, CommitScan, Median, Values, FollowerCommit,
      SendAppendEntries;
    match e
    case Timeout(_) => Election.LeadEffect(f, servers, Stand(f, n));
    case Deliver(p) =>
      var b := Bump(n, p.msg);
      if b.state.Candidate? && p.msg.VoteResponse? {
        Election.LeadEffect(f, servers, b.(state := Candidate(b.state.votes + {p.src})));
      }
    case Heartbeat(_) => Election.SendEffect(f, servers, n);
    case Request(_, command) =>
      if n.state.Leader? {
        var log := n.mem.log + [Entry(command, |n.mem.log|, n.mem.term)];
        Election.SendEffect(f, servers, n.(mem := n.mem.(log := log)));
      }
    case Apply(_) =>
  }

  /** Only a vote request is answered with a vote. */
  lemma NoGrants(f: Fixes, servers: seq<ServerId>, n: Node, e: Event)
    requires !AsksVote(e) && !e.Restarted?
    requires e.Heartbeat? ==> n.state.Leader?
    requires e.Apply? ==> CanApply(n)
    ensures forall x :: x in React(f, servers, n, e).out ==> !x.msg.VoteResponse?
  {
    hide BecomeLeader, Merge, Nodes.Matches, GrantsVote, UpdateIndexes, CommitScan, Median, Values, FollowerCommit,
      SendAppendEntries;
    match e
    case Timeout(_) => Election.LeadEffect(f, servers, Stand(f, n));
    case Deliver(p) =>
      var b := Bump(n, p.msg);
      if b.state.Candidate? && p.msg.VoteResponse? {
        Election.LeadEffect(f, servers, b.(state := Candidate(b.state.votes + {p.src})));
      }
    case Heartbeat(_) => Election.SendEffect(f, servers, n);
    case Request(_, command) =>
      if n.state.Leader? {
        var log := n.mem.log + [Entry(command, |n.mem.log|, n.mem.term)];
        Election.SendEffect(f, servers, n.(mem := n.mem.(log := log)));
      }
    case Apply(_) =>
  }

  /** An answered vote request: a follower's answer of its term, to the candidate it votes for. */
  lemma AnswerShape(f: Fixes, servers: seq<ServerId>, g: History, n: Node, e: Event)
    requires CutsOnly(f) && AsksVote(e) && e.packet.msg.candidateId == e.packet.src
    ensures var o := React(f, servers, n, e);
      var h' := Record(g, n, e, o);
      && h'.wins == g.wins && h'.reigns == g.reigns && (forall b :: b in g.ballots ==> b in h'.ballots)
      && (o.out == [] ==> h' == g) && (o.out != [] ==> o.node.state.Follower? && Waits(f, n, o))
      && (forall x :: x in o.out && Grants(x) ==> x.msg.term == o.node.mem.term && o.node.mem.votedFor == Some(x.dst))
  {
    hide GrantsVote, Merge, Nodes.Matches, BecomeLeader, UpdateIndexes, CommitScan, Median, Values;
    var b := Bump(n, e.packet.msg);
    if b.state.Follower? {
      hide OnRequestVote, RecordGrant, Waits;
      GrantShape(f, g, b, e.packet);
      AnswerWaits(f, servers, n, e);
    }
  }

  lemma AnswerWaits(f: Fixes, servers: seq<ServerId>, n: Node, e: Event)
    requires AsksVote(e)
    ensures var o := React(f, servers, n, e); o.out != [] ==> Waits(f, n, o)
  {
    hide GrantsVote;
  }

  lemma FewerVotes(h: History, g: History, id: ServerId, st: Stable)
    requires StableOk(h, id, st) && g.wins == h.wins && forall b :: b in g.ballots ==> b in h.ballots
    ensures StableOk(g, id, st)
  {
  }

  lemma RecordSelfVotes(f: Fixes, servers: seq<ServerId>, g: History, n: Node, e: Event, o: Outcome)
    requires e.Apply? ==> CanApply(n)
    requires !AsksVote(e) && Election.Extends(g, Record(g, n, e, o), n.id)
    ensures OnlySelfVotes(g, Record(g, n, e, o), n.id)
  {
  }

  /** What a handler leaves in memory, its disk as before. */
  lemma HandlerOk(f: Fixes, servers: seq<ServerId>, g: History, n: Node, e: Event)
    requires CutsOnly(f) && !f.keepsLog && n.id in servers && HistoryOk(servers, g) && ServerOk(f, servers, g, n)
    requires !e.Restarted?
    requires e.Heartbeat? ==> n.state.Leader?
    requires e.Apply? ==> CanApply(n)
    requires e.Deliver? ==> e.packet.dst == n.id && PacketOk(servers, g, e.packet)
    ensures var o, g' := React(f, servers, n, e), Told(f, servers, g, n, e);
      && o.node.id == n.id && HistoryOk(servers, g') && Election.Extends(g, g', n.id)
      && ServerOk(f, servers, g', o.node.(disk := n.disk))
      && (forall x :: x in o.out ==> ToldOk(o.node.(disk := n.disk), x))
      && (!Waits(f, n, o) ==> forall x :: x in o.out ==> PacketOk(servers, g', x))
  {
    hide React, Record, HistoryOk, StableOk, Waits, CanApply, EndsAt;
    var o := React(f, servers, n, e);
    var h' := Record(g, n, e, o);
    EventOk(f, servers, g, n, e);
    SelfVotes(f, servers, n, e);
    TermRises(f, servers, n, e);
    if AsksVote(e) {
      AnswerShape(f, servers, g, n, e);
      FewerVotes(h', g, n.id, o.node.mem);
    } else {
      NoGrants(f, servers, n, e);
      RecordSelfVotes(f, servers, g, n, e, o);
      StableStays(g, h', n.id, n.disk);
    }
  }

  lemma SelfVotes(f: Fixes, servers: seq<ServerId>, n: Node, e: Event)
    requires Durability.SelfVoted(n) && n.disk.term <= n.mem.term && !e.Restarted? && !f.keepsLog
    requires e.Heartbeat? ==> n.state.Leader?
    requires e.Apply? ==> CanApply(n)
    ensures var o := React(f, servers, n, e); Durability.SelfVoted(o.node) && forall x :: x in o.out ==> x.src == n.id
  {
    Durability.EventOk(f, servers, n, e);
  }

  // ----- moves -----

  lemma OtherOk(f: Fixes, servers: seq<ServerId>, g: History, g': History, id: ServerId, n: Node)
    requires Election.Extends(g, g', id) && n.id != id && ServerOk(f, servers, g, n)
    ensures ServerOk(f, servers, g', n)
  {
    hide NodeOk;
    OtherStays(f, servers, g, g', id, n);
  }

  /** One server moved, and the votes others know of are more. */
  lemma MovedOk(f: Fixes, servers: seq<ServerId>, a: Async, g: History, a': Async, g': History, s: ServerId)
    requires Inv(f, servers, a, g) && s in a.cluster.nodes && s in a'.cluster.nodes && s in a'.waiting
    requires a'.cluster.nodes == a.cluster.nodes[s := a'.cluster.nodes[s]]
    requires a'.waiting == a.waiting[s := a'.waiting[s]]
    requires a'.cluster.nodes[s].id == s && HistoryOk(servers, g') && Election.Extends(g, g', s)
    requires ServerOk(f, servers, g', a'.cluster.nodes[s]) && QueueOk(a'.cluster.nodes[s], a'.waiting[s])
    requires forall p :: p in a'.cluster.network ==> p in a.cluster.network || PacketOk(servers, g', p)
    ensures Inv(f, servers, a', g')
  {
    hide HistoryOk, ServerOk, QueueOk, PacketOk, Election.Extends;
    forall t | t in a'.cluster.nodes
      ensures ServerOk(f, servers, g', a'.cluster.nodes[t]) && QueueOk(a'.cluster.nodes[t], a'.waiting[t])
    {
      if t != s {
        OtherOk(f, servers, g, g', s, a.cluster.nodes[t]);
      }
    }
    forall p | p in a'.cluster.network ensures PacketOk(servers, g', p) {
      if p in a.cluster.network {
        PacketStays(servers, g, g', s, p);
      }
    }
  }

  lemma ExtendsSame(g: History, id: ServerId)
    ensures Election.Extends(g, g, id)
  {
  }

  /** Only the apply loop runs while something waits, and it leaves term, vote and disk alone. */
  lemma QueueAfter(p: Policy, servers: seq<ServerId>, n: Node, e: Event, waiting: seq<Batch>)
    requires QueueOk(n, waiting) && (!e.Apply? ==> waiting == [])
    requires e.Heartbeat? ==> n.state.Leader?
    requires e.Apply? ==> CanApply(n)
    requires var o := React(p.fixes, servers, n, e); forall x :: x in o.out ==> ToldOk(o.node.(disk := n.disk), x)
    ensures var o := React(p.fixes, servers, n, e);
      QueueOk(o.node.(disk := n.disk), if Waits(p.fixes, n, o) then waiting + [Batch(o.out, 0)] else waiting)
  {
    hide ToldOk;
    if e.Apply? {
      assert ApplyNext(n).(disk := n.disk) == ApplyNext(n);
      if waiting != [] {
        AppliedOk(n, waiting[0]);
      }
    } else {
      hide React;
      var o := React(p.fixes, servers, n, e);
      assert waiting + [Batch(o.out, 0)] == [Batch(o.out, 0)];
    }
  }

  lemma AppliedOk(n: Node, b: Batch)
    requires BatchOk(n, b) && CanApply(n)
    ensures BatchOk(ApplyNext(n), b)
  {
  }

  lemma ServerIs(f: Fixes, servers: seq<ServerId>, a: Async, g: History, s: ServerId)
    requires Inv(f, servers, a, g) && s in a.cluster.nodes
    ensures s in a.waiting && a.cluster.nodes[s].id == s && s in servers && HistoryOk(servers, g)
    ensures ServerOk(f, servers, g, a.cluster.nodes[s]) && QueueOk(a.cluster.nodes[s], a.waiting[s])
  {
    hide HistoryOk, ServerOk, QueueOk, PacketOk;
  }

  lemma HeardIs(f: Fixes, servers: seq<ServerId>, a: Async, g: History, e: Event)
    requires Inv(f, servers, a, g) && Enabled(a.cluster, e)
    ensures Actor(e) in a.cluster.nodes
    ensures e.Heartbeat? ==> a.cluster.nodes[Actor(e)].state.Leader?
    ensures e.Apply? ==> CanApply(a.cluster.nodes[Actor(e)])
    ensures e.Deliver? ==> PacketOk(servers, g, e.packet)
  {
    hide HistoryOk, ServerOk, QueueOk, PacketOk;
    EnabledFacts(a.cluster, e);
  }

  lemma HandleOk(p: Policy, servers: seq<ServerId>, a: Async, g: History, e: Event) returns (g': History)
    requires Forgetful(p) && Inv(p.fixes, servers, a, g) && CanHandle(p, a, e)
    ensures Inv(p.fixes, servers, HandleEvent(p, servers, a, e), g')
  {
    hide React, Record, Waits, Lower, CanApply, Inv, ServerOk, QueueOk, PacketOk, ToldOk, HistoryOk, Told, Enabled,
      Election.Extends;
    var s, a' := Actor(e), HandleEvent(p, servers, a, e);
    HeardIs(p.fixes, servers, a, g, e);
    ServerIs(p.fixes, servers, a, g, s);
    var n := a.cluster.nodes[s];
    HandlerOk(p.fixes, servers, g, n, e);
    QueueAfter(p, servers, n, e, a.waiting[s]);
    g' := Told(p.fixes, servers, g, n, e);
    MovedOk(p.fixes, servers, a, g, a', g', s);
  }

  /** The next file; between term and vote the disk holds the new term with an older vote. */
  lemma WriteNodeOk(p: Policy, servers: seq<ServerId>, g: History, n: Node, b: Batch)
    requires Forgetful(p) && ServerOk(p.fixes, servers, g, n) && BatchOk(n, b) && b.files < 3
    ensures var n' := WriteFile(p.fixes, n, FileAt(p, b.files));
      n'.id == n.id && ServerOk(p.fixes, servers, g, n') && BatchOk(n', Batch(b.out, b.files + 1))
  {
    hide ToldOk;
    var n' := WriteFile(p.fixes, n, FileAt(p, b.files));
    assert forall x :: x in b.out ==> ToldOk(n', x) by {
      forall x | x in b.out ensures ToldOk(n', x) {
        SameTold(n, n', x);
      }
    }
  }

  lemma SameTold(n: Node, n': Node, x: Packet)
    requires ToldOk(n, x) && n'.id == n.id && n'.mem == n.mem
    ensures ToldOk(n', x)
  {
  }

  lemma TheBatch(f: Fixes, servers: seq<ServerId>, a: Async, g: History, s: ServerId, i: nat)
    requires Inv(f, servers, a, g) && HasBatch(a, s, i)
    ensures i == 0 && a.waiting[s] == [a.waiting[s][0]] && BatchOk(a.cluster.nodes[s], a.waiting[s][0])
    ensures Without(a.waiting[s], 0) == []
  {
    hide HistoryOk, ServerOk, PacketOk, BatchOk;
    assert QueueOk(a.cluster.nodes[s], a.waiting[s]);
  }

  lemma WriteOk(p: Policy, servers: seq<ServerId>, a: Async, g: History, s: ServerId, i: nat)
    requires Forgetful(p) && Inv(p.fixes, servers, a, g) && Truthful(a)
    requires HasBatch(a, s, i) && a.waiting[s][i].files < 3
    ensures Inv(p.fixes, servers, Take(p, servers, a, Write(s, i)), g)
  {
    hide Inv, ServerOk, BatchOk, WriteFile, FileAt, Truthful, Forgetful, Election.Extends;
    TheBatch(p.fixes, servers, a, g, s, i);
    ServerIs(p.fixes, servers, a, g, s);
    WriteIsWrite(p, a, s, i);
    var n, b := a.cluster.nodes[s], a.waiting[s][0];
    WriteNodeOk(p, servers, g, n, b);
    assert a.waiting[s][0 := Batch(b.out, b.files + 1)] == [Batch(b.out, b.files + 1)];
    ExtendsSame(g, s);
    MovedOk(p.fixes, servers, a, g, Take(p, servers, a, Write(s, i)), g, s);
  }

  lemma FailOk(p: Policy, servers: seq<ServerId>, a: Async, g: History, s: ServerId, i: nat)
    requires Inv(p.fixes, servers, a, g) && HasBatch(a, s, i) && CanFail(p, a, s, i)
    ensures Inv(p.fixes, servers, Take(p, servers, a, Fail(s, i)), g)
  {
    hide Inv, ServerOk, BatchOk, CanFail, FileAt, Election.Extends;
    TheBatch(p.fixes, servers, a, g, s, i);
    ServerIs(p.fixes, servers, a, g, s);
    ExtendsSame(g, s);
    assert a.cluster.nodes[s := a.cluster.nodes[s]] == a.cluster.nodes;
    MovedOk(p.fixes, servers, a, g, Take(p, servers, a, Fail(s, i)), g, s);
  }

  lemma CrashNodeOk(f: Fixes, servers: seq<ServerId>, g: History, n: Node)
    requires CutsOnly(f) && ServerOk(f, servers, g, n)
    ensures ServerOk(f, servers, g, Restart(f, n)) && Restart(f, n).id == n.id
  {
    hide StableOk;
    RestartOk(f, servers, g, n);
  }

  lemma CrashOk(p: Policy, servers: seq<ServerId>, a: Async, g: History, s: ServerId)
    requires Forgetful(p) && Inv(p.fixes, servers, a, g) && s in a.cluster.nodes && s in a.waiting && s in a.inSync
    ensures Inv(p.fixes, servers, Take(p, servers, a, Crash(s)), g)
  {
    hide Inv, ServerOk, BatchOk, Restart, Election.Extends;
    ServerIs(p.fixes, servers, a, g, s);
    CrashNodeOk(p.fixes, servers, g, a.cluster.nodes[s]);
    ExtendsSame(g, s);
    MovedOk(p.fixes, servers, a, g, Take(p, servers, a, Crash(s)), g, s);
  }

  // ----- what leaves -----

  lemma LeaveOk(f: Fixes, servers: seq<ServerId>, g: History, n: Node, b: Batch)
    requires HistoryOk(servers, g) && ServerOk(f, servers, g, n) && BatchOk(n, b) && b.files == 3 && !f.keepsLog
    ensures var g' := Leave(g, n, b.out);
      && HistoryOk(servers, g') && Election.Extends(g, g', n.id) && ServerOk(f, servers, g', n)
      && (forall x :: x in b.out && Grants(x) ==> Cast(n.id, x.msg.term, x.dst) in g'.ballots)
  {
    hide HistoryOk, Tidy, EndsAt;
    var g' := Leave(g, n, b.out);
    if g' != g {
      NewGrant(servers, g, n, n.mem.votedFor.value, n.mem.log, g');
    }
  }

  lemma SentOk(servers: seq<ServerId>, g': History, n: Node, x: Packet)
    requires ToldOk(n, x) && n.id in servers && (Grants(x) ==> Cast(n.id, x.msg.term, x.dst) in g'.ballots)
    ensures PacketOk(servers, g', x)
  {
  }

  lemma SendOk(p: Policy, servers: seq<ServerId>, a: Async, g: History, s: ServerId, i: nat) returns (g': History)
    requires Forgetful(p) && Inv(p.fixes, servers, a, g) && HasBatch(a, s, i) && a.waiting[s][i].files == 3
    ensures Inv(p.fixes, servers, Take(p, servers, a, Send(s, i)), g')
  {
    hide Inv, ServerOk, HistoryOk, PacketOk, ToldOk, Leave, Grants, Election.Extends;
    TheBatch(p.fixes, servers, a, g, s, i);
    ServerIs(p.fixes, servers, a, g, s);
    var n, b := a.cluster.nodes[s], a.waiting[s][0];
    LeaveOk(p.fixes, servers, g, n, b);
    g' := Leave(g, n, b.out);
    forall x | x in b.out ensures PacketOk(servers, g', x) {
      SentOk(servers, g', n, x);
    }
    assert a.cluster.nodes[s := a.cluster.nodes[s]] == a.cluster.nodes;
    MovedOk(p.fixes, servers, a, g, Take(p, servers, a, Send(s, i)), g', s);
  }

  // ----- every run -----

  lemma MoveOk(p: Policy, servers: seq<ServerId>, a: Async, g: History, m: Move) returns (g': History)
    requires Forgetful(p) && Inv(p.fixes, servers, a, g) && Truthful(a)
    ensures Inv(p.fixes, servers, Take(p, servers, a, m), g')
  {
    hide Inv, Forgetful, HandleEvent, CanHandle, WriteNext, FailNext, CanFail, Restart, Truthful;
    g' := g;
    match m
    case Handle(e) =>
      if CanHandle(p, a, e) {
        g' := HandleOk(p, servers, a, g, e);
      }
    case Write(s, i) =>
      if HasBatch(a, s, i) && a.waiting[s][i].files < 3 {
        WriteOk(p, servers, a, g, s, i);
      }
    case Fail(s, i) =>
      if HasBatch(a, s, i) && CanFail(p, a, s, i) {
        FailOk(p, servers, a, g, s, i);
      }
    case Send(s, i) =>
      if HasBatch(a, s, i) && a.waiting[s][i].files == 3 {
        g' := SendOk(p, servers, a, g, s, i);
      }
    case Crash(s) =>
      if s in a.cluster.nodes && s in a.waiting && s in a.inSync {
        CrashOk(p, servers, a, g, s);
      }
  }

  /** Every move keeps it: each log entry was appended by its own server in a term it won and in
      which no vote of it for anybody else has left or will. */
  lemma {:induction false} RunKeepsInv(p: Policy, servers: seq<ServerId>, moves: seq<Move>) returns (g: History)
    requires Forgetful(p) && Distinct(servers) && (p.checked || Steady(moves))
    ensures Inv(p.fixes, servers, AsyncRun(p, servers, moves), g)
  {
    if moves == [] {
      BeginOk(p, servers);
      g := Start(servers).history;
    } else {
      hide Inv, Take, Truthful, Forgetful;
      var init := moves[..|moves| - 1];
      assert forall m :: m in init ==> m in moves;
      g := RunKeepsInv(p, servers, init);
      RunTruthful(p, servers, init);
      g := MoveOk(p, servers, AsyncRun(p, servers, init), g, moves[|moves| - 1]);
    }
  }

  lemma BeginOk(p: Policy, servers: seq<ServerId>)
    requires Distinct(servers)
    ensures Inv(p.fixes, servers, Begin(p, servers), Start(servers).history)
  {
    StartIsOk(p.fixes, servers);
  }

  /** Two logs that agree on a term at an index. */
  lemma PairMatches(servers: seq<ServerId>, g: History, s: ServerId, t: ServerId, x: Stable, y: Stable, i: nat)
    requires Distinct(servers) && HistoryOk(servers, g) && StableOk(g, s, x) && StableOk(g, t, y)
    requires i < |x.log| && i < |y.log| && x.log[i].term == y.log[i].term && (s == t ==> x == y)
    ensures x.log[..i + 1] == y.log[..i + 1]
  {
    hide HistoryOk, Recalls, Authored;
    if x.log[i].term > 0 {
      SoleAuthor(servers, g, s, t, x.log[i], y.log[i], x, y);
    } else {
      assert i == 0;
    }
  }

  lemma InvMatches(f: Fixes, servers: seq<ServerId>, a: Async, g: History)
    requires Inv(f, servers, a, g)
    ensures LogsMatch(a.cluster)
  {
    hide HistoryOk, StableOk, PacketOk, QueueOk, Inv;
    var c := a.cluster;
    forall s, t, i | s in c.nodes && t in c.nodes && 0 <= i < |c.nodes[s].mem.log| && i < |c.nodes[t].mem.log|
        && c.nodes[s].mem.log[i].term == c.nodes[t].mem.log[i].term
      ensures c.nodes[s].mem.log[..i + 1] == c.nodes[t].mem.log[..i + 1]
    {
      ServerIs(f, servers, a, g, s);
      ServerIs(f, servers, a, g, t);
      assert Distinct(servers) by { InvDistinct(f, servers, a, g); }
      PairMatches(servers, g, s, t, c.nodes[s].mem, c.nodes[t].mem, i);
    }
  }

  lemma InvDistinct(f: Fixes, servers: seq<ServerId>, a: Async, g: History)
    requires Inv(f, servers, a, g)
    ensures Distinct(servers)
  {
  }

  lemma {:induction false} LogMatching(p: Policy, servers: seq<ServerId>, moves: seq<Move>)
    requires Forgetful(p) && Distinct(servers) && (p.checked || Steady(moves))
    ensures LogsMatch(AsyncRun(p, servers, moves).cluster)
  {
    hide AsyncRun, Inv;
    var g := RunKeepsInv(p, servers, moves);
    InvMatches(p.fixes, servers, AsyncRun(p, servers, moves), g);
  }
}
