/** The same servers with the awaits of sendRpcMessage and updatePersistentState taken apart:
    what a handler wants to send waits while log, term and vote are written one file after
    another, other handlers may run meanwhile, and a crash may come between any two writes. */
module Awaits {
  import opened RaftTypes
  import opened Logs
  import opened Medians
  import opened Nodes
  import opened Clusters
  import Election

  /** The corrections, and three about the awaits: no handler of a server runs while something of
      it waits, but for the apply loop, which a handler starts and does not wait for (serial);
      the term is written before the vote, as in the source (termFirst); and a write that fails
      does not raise the in-sync flag (checked). */
  datatype Policy = Policy(fixes: Fixes, serial: bool, termFirst: bool, checked: bool)

  /** Packets that leave once all three files are written, and how many of them are. */
  datatype Batch = Batch(out: seq<Packet>, files: nat)

  datatype Move =
    | Handle(event: Event)                   // a handler up to its first await
    | Write(server: ServerId, batch: nat)    // the next file, with what the server holds by now
    | Fail(server: ServerId, batch: nat)     // the next write, or the send, is rejected: nothing is sent
    | Send(server: ServerId, batch: nat)
    | Crash(server: ServerId)

  datatype File = LogFile | TermFile | VoteFile

  /** The in-sync flags of the two durable values. */
  datatype Flags = Flags(term: bool, vote: bool)

  datatype Async = Async(cluster: Cluster, waiting: map<ServerId, seq<Batch>>, inSync: map<ServerId, Flags>)

  predicate IsResponse(m: Message) {
    m.VoteResponse? || m.AppendResponse?
  }

  /** Responses wait for the write; requests only under persistsFirst. */
  predicate Waits(f: Fixes, n: Node, o: Outcome) {
    o.node.disk != n.disk || (o.out != [] && (f.persistsFirst || IsResponse(o.out[0].msg)))
  }

  // ----- files and flags -----

  /** log.write(), currentTerm.write(), votedFor.write(), the last two in either order. */
  function FileAt(p: Policy, k: nat): File {
    if k == 0 then LogFile else if (k == 1) == p.termFirst then TermFile else VoteFile
  }

  function WriteFile(f: Fixes, n: Node, file: File): Node {
    match file
    case LogFile => n.(disk := n.disk.(log := if f.keepsLog then n.mem.log else n.disk.log))
    case TermFile => n.(disk := n.disk.(term := n.mem.term))
    case VoteFile => n.(disk := n.disk.(votedFor := n.mem.votedFor))
  }

  /** write() returns at once when the flag is up; the log has none. */
  predicate Skips(flags: Flags, file: File) {
    match file
    case LogFile => false
    case TermFile => flags.term
    case VoteFile => flags.vote
  }

  function Raise(flags: Flags, file: File): Flags {
    match file
    case LogFile => flags
    case TermFile => flags.(term := true)
    case VoteFile => flags.(vote := true)
  }

  /** setVotedFor is called with every new term, and when a grant is stored, a repeated one too. */
  predicate SetsVote(f: Fixes, n: Node, o: Outcome) {
    || o.node.mem.term != n.mem.term
    || (f.recordsGrant && |o.out| == 1 && o.out[0].msg.VoteResponse? && o.out[0].msg.voteGranted)
  }

  /** setValue lowers the flag. */
  function Lower(f: Fixes, n: Node, o: Outcome, flags: Flags): Flags {
    Flags(flags.term && o.node.mem.term == n.mem.term, flags.vote && !SetsVote(f, n, o))
  }

  /** read() raises it: of the term at start, of the vote only if that is read back. */
  function Loaded(f: Fixes): Flags {
    Flags(true, f.reloadsVote)
  }

  // ----- moves -----

  function Without(waiting: seq<Batch>, batch: nat): seq<Batch>
    requires batch < |waiting|
  {
    waiting[..batch] + waiting[batch + 1..]
  }

  predicate CanHandle(p: Policy, a: Async, e: Event) {
    && Enabled(a.cluster, e) && !e.Restarted? && Actor(e) in a.waiting && Actor(e) in a.inSync
    && (p.serial && !e.Apply? ==> a.waiting[Actor(e)] == [])
  }

  function HandleEvent(p: Policy, servers: seq<ServerId>, a: Async, e: Event): Async
    requires CanHandle(p, a, e)
  {
    var c, s := a.cluster, Actor(e);
    var n := c.nodes[s];
    var o := React(p.fixes, servers, n, e);
    var waits := Waits(p.fixes, n, o);
    Async(Cluster(c.nodes[s := o.node.(disk := n.disk)],
                  c.network + (if waits then {} else set x | x in o.out),
                  Record(c.history, n, e, o)),
          if waits then a.waiting[s := a.waiting[s] + [Batch(o.out, 0)]] else a.waiting,
          a.inSync[s := Lower(p.fixes, n, o, a.inSync[s])])
  }

  predicate HasBatch(a: Async, server: ServerId, batch: nat) {
    server in a.cluster.nodes && server in a.waiting && server in a.inSync && batch < |a.waiting[server]|
  }

  function SetNode(c: Cluster, s: ServerId, n: Node): Cluster {
    c.(nodes := c.nodes[s := n])
  }

  function WriteNext(p: Policy, a: Async, s: ServerId, i: nat): Async
    requires HasBatch(a, s, i)
  {
    var b := a.waiting[s][i];
    var file := FileAt(p, b.files);
    var a1 := a.(waiting := a.waiting[s := a.waiting[s][i := Batch(b.out, b.files + 1)]]);
    if Skips(a.inSync[s], file) then a1
    else a1.(cluster := SetNode(a.cluster, s, WriteFile(p.fixes, a.cluster.nodes[s], file)),
             inSync := a.inSync[s := Raise(a.inSync[s], file)])
  }

  /** The send may fail, and a write that is really made; log.write() as written never does. */
  predicate CanFail(p: Policy, a: Async, s: ServerId, i: nat)
    requires HasBatch(a, s, i)
  {
    var b := a.waiting[s][i];
    var file := FileAt(p, b.files);
    b.files >= 3 || (!Skips(a.inSync[s], file) && (file.LogFile? ==> p.fixes.keepsLog))
  }

  /** The callback of the source raises the flag all the same. */
  function FailNext(p: Policy, a: Async, s: ServerId, i: nat): Async
    requires HasBatch(a, s, i)
  {
    var b := a.waiting[s][i];
    a.(waiting := a.waiting[s := Without(a.waiting[s], i)],
       inSync := if b.files >= 3 || p.checked then a.inSync
                 else a.inSync[s := Raise(a.inSync[s], FileAt(p, b.files))])
  }

  function Take(p: Policy, servers: seq<ServerId>, a: Async, m: Move): Async {
    match m
    case Handle(e) => if CanHandle(p, a, e) then HandleEvent(p, servers, a, e) else a
    case Write(s, i) => if HasBatch(a, s, i) && a.waiting[s][i].files < 3 then WriteNext(p, a, s, i) else a
    case Fail(s, i) => if HasBatch(a, s, i) && CanFail(p, a, s, i) then FailNext(p, a, s, i) else a
    case Send(s, i) =>
      if HasBatch(a, s, i) && a.waiting[s][i].files == 3 then
        a.(cluster := a.cluster.(network := a.cluster.network + set x | x in a.waiting[s][i].out),
           waiting := a.waiting[s := Without(a.waiting[s], i)])
      else a
    case Crash(s) =>
      if s in a.cluster.nodes && s in a.waiting && s in a.inSync then
        Async(SetNode(a.cluster, s, Restart(p.fixes, a.cluster.nodes[s])), a.waiting[s := []],
              a.inSync[s := Loaded(p.fixes)])
      else a
  }

  function Idle(servers: seq<ServerId>): map<ServerId, seq<Batch>> {
    map s | s in servers :: []
  }

  function Begin(p: Policy, servers: seq<ServerId>): Async {
    Async(Start(servers), Idle(servers), map s | s in servers :: Loaded(p.fixes))
  }

  function AsyncRun(p: Policy, servers: seq<ServerId>, moves: seq<Move>): Async {
    if moves == [] then Begin(p, servers)
    else Take(p, servers, AsyncRun(p, servers, moves[..|moves| - 1]), moves[|moves| - 1])
  }

  lemma AsyncOneMore(p: Policy, servers: seq<ServerId>, moves: seq<Move>, m: Move)
    ensures AsyncRun(p, servers, moves + [m]) == Take(p, servers, AsyncRun(p, servers, moves), m)
  {
    assert (moves + [m])[..|moves|] == moves;
  }

  /** No write fails. */
  ghost predicate Steady(moves: seq<Move>) {
    forall m :: m in moves ==> !m.Fail?
  }

  // ----- what the flags say -----

  /** A flag that is up says that the file holds the value. */
  ghost predicate InSync(n: Node, flags: Flags) {
    (flags.term ==> n.disk.term == n.mem.term) && (flags.vote ==> n.disk.votedFor == n.mem.votedFor)
  }

  ghost predicate Truthful(a: Async) {
    && a.cluster.nodes.Keys == a.waiting.Keys == a.inSync.Keys
    && (forall s :: s in a.cluster.nodes ==> InSync(a.cluster.nodes[s], a.inSync[s]))
  }

  lemma ResponseKeepsId(f: Fixes, n: Node, m: Message)
    requires n.state.Leader? && m.AppendResponse?
    ensures OnAppendResponse(f, n, m).node.id == n.id
  {
  }

  lemma ReactKeepsId(f: Fixes, servers: seq<ServerId>, n: Node, e: Event)
    requires e.Heartbeat? ==> n.state.Leader?
    requires e.Apply? ==> CanApply(n)
    ensures React(f, servers, n, e).node.id == n.id
  {
    hide BecomeLeader, OnAppendResponse, Merge, Matches, GrantsVote;
    match e
    case Timeout(_) => Election.LeadEffect(f, servers, Stand(f, n));
    case Deliver(p) =>
      var b := Bump(n, p.msg);
      if b.state.Candidate? && p.msg.VoteResponse? {
        Election.LeadEffect(f, servers, b.(state := Candidate(b.state.votes + {p.src})));
      } else if b.state.Leader? && p.msg.AppendResponse? {
        ResponseKeepsId(f, b, p.msg);
      }
    case _ =>
  }

  /** A vote that is not set does not change. */
  lemma UnsetVote(f: Fixes, servers: seq<ServerId>, n: Node, e: Event)
    requires !e.Restarted?
    requires e.Heartbeat? ==> n.state.Leader?
    requires e.Apply? ==> CanApply(n)
    ensures var o := React(f, servers, n, e);
      o.node.id == n.id && (!SetsVote(f, n, o) ==> o.node.mem.votedFor == n.mem.votedFor)
  {
    hide BecomeLeader, Merge, Matches, GrantsVote, UpdateIndexes, CommitScan, Median, Values, FollowerCommit, Peers;
    ReactKeepsId(f, servers, n, e);
    match e
    case Timeout(_) => Election.LeadEffect(f, servers, Stand(f, n));
    case Deliver(p) =>
      var b := Bump(n, p.msg);
      if b.state.Candidate? && p.msg.VoteResponse? {
        Election.LeadEffect(f, servers, b.(state := Candidate(b.state.votes + {p.src})));
      }
    case _ =>
  }

  lemma HandleTruthful(p: Policy, servers: seq<ServerId>, a: Async, e: Event)
    requires Truthful(a) && CanHandle(p, a, e)
    ensures Truthful(HandleEvent(p, servers, a, e))
  {
    hide React, Record, Waits, SetsVote, CanApply, Enabled;
    var s, a' := Actor(e), HandleEvent(p, servers, a, e);
    EnabledFacts(a.cluster, e);
    UnsetVote(p.fixes, servers, a.cluster.nodes[s], e);
    forall t | t in a'.cluster.nodes ensures InSync(a'.cluster.nodes[t], a'.inSync[t]) {
      assert InSync(a.cluster.nodes[t], a.inSync[t]);
    }
  }

  /** While no failed write raises a flag, every flag that is up tells the truth. */
  lemma TakeTruthful(p: Policy, servers: seq<ServerId>, a: Async, m: Move)
    requires Truthful(a) && (p.checked || !m.Fail?)
    ensures Truthful(Take(p, servers, a, m))
  {
    hide HandleEvent, CanHandle;
    match m
    case Handle(e) =>
      if CanHandle(p, a, e) {
        HandleTruthful(p, servers, a, e);
      }
    case _ =>
  }

  lemma BeginTruthful(p: Policy, servers: seq<ServerId>)
    ensures Truthful(Begin(p, servers))
  {
  }

  lemma {:induction false} RunTruthful(p: Policy, servers: seq<ServerId>, moves: seq<Move>)
    requires p.checked || Steady(moves)
    ensures Truthful(AsyncRun(p, servers, moves))
  {
    hide Truthful, Take;
    if moves == [] {
      BeginTruthful(p, servers);
    } else {
      var init, last := moves[..|moves| - 1], moves[|moves| - 1];
      assert last in moves && forall m :: m in init ==> m in moves;
      RunTruthful(p, servers, init);
      TakeTruthful(p, servers, AsyncRun(p, servers, init), last);
    }
  }

  /** With truthful flags, write() leaves the value in the file whether it writes or not. */
  lemma WriteIsWrite(p: Policy, a: Async, s: ServerId, i: nat)
    requires Truthful(a) && HasBatch(a, s, i)
    ensures WriteNext(p, a, s, i).cluster
         == SetNode(a.cluster, s, WriteFile(p.fixes, a.cluster.nodes[s], FileAt(p, a.waiting[s][i].files)))
  {
    var n, file := a.cluster.nodes[s], FileAt(p, a.waiting[s][i].files);
    if Skips(a.inSync[s], file) {
      assert InSync(n, a.inSync[s]);
      assert WriteFile(p.fixes, n, file) == n;
      assert a.cluster.nodes[s := n] == a.cluster.nodes;
    }
  }

  // ----- every run of whole steps is one of these runs -----

  /** What a handler that writes leaves on disk. */
  function Persisted(f: Fixes, n: Node, o: Outcome): Stable {
    Stable(o.node.mem.term, o.node.mem.votedFor, if f.keepsLog then o.node.mem.log else n.disk.log)
  }

  lemma LeadDisk(f: Fixes, servers: seq<ServerId>, n: Node)
    ensures var o := BecomeLeader(f, servers, n);
      && (o.node.disk == n.disk || o.node.disk == Persisted(f, n, o))
      && (o.out != [] && f.persistsFirst ==> o.node.disk == Persisted(f, n, o))
      && (forall x :: x in o.out ==> x.msg.AppendEntries?)
  {
  }

  lemma StartDisk(f: Fixes, servers: seq<ServerId>, n: Node)
    ensures var o := StartElection(f, servers, n);
      && (o.node.disk == n.disk || o.node.disk == Persisted(f, n, o))
      && (o.out != [] && (f.persistsFirst || IsResponse(o.out[0].msg)) ==> o.node.disk == Persisted(f, n, o))
  {
    hide BecomeLeader;
    var n1 := Stand(f, n);
    LeadDisk(f, servers, n1);
    Election.LeadEffect(f, servers, n1);
  }

  lemma ReceiveDisk(f: Fixes, servers: seq<ServerId>, n: Node, src: ServerId, m: Message)
    ensures var o := Receive(f, servers, n, src, m);
      && (o.node.disk == n.disk || o.node.disk == Persisted(f, n, o))
      && (o.out != [] && (f.persistsFirst || IsResponse(o.out[0].msg)) ==> o.node.disk == Persisted(f, n, o))
  {
    hide BecomeLeader, Merge, Matches, GrantsVote, UpdateIndexes, CommitScan, Median, Values, FollowerCommit;
    var b := Bump(n, m);
    if b.state.Candidate? && m.VoteResponse? {
      LeadDisk(f, servers, b.(state := Candidate(b.state.votes + {src})));
    }
  }

  lemma ReactDisk(f: Fixes, servers: seq<ServerId>, n: Node, e: Event)
    requires !e.Restarted?
    requires e.Heartbeat? ==> n.state.Leader?
    requires e.Apply? ==> CanApply(n)
    ensures var o := React(f, servers, n, e); o.node.disk == if Waits(f, n, o) then Persisted(f, n, o) else n.disk
  {
    hide BecomeLeader, StartElection, Receive;
    match e
    case Timeout(_) => StartDisk(f, servers, n);
    case Deliver(p) => ReceiveDisk(f, servers, n, p.src, p.msg);
    case Heartbeat(_) =>
    case Request(_, _) =>
    case Apply(_) =>
  }

  lemma ThreeWrites(p: Policy, n: Node)
    ensures var f := p.fixes;
      WriteFile(f, WriteFile(f, WriteFile(f, n, FileAt(p, 0)), FileAt(p, 1)), FileAt(p, 2)).disk
        == Stable(n.mem.term, n.mem.votedFor, if f.keepsLog then n.mem.log else n.disk.log)
    ensures forall file :: WriteFile(p.fixes, n, file).(disk := n.disk) == n
  {
  }

  lemma TruthfulKeys(a: Async)
    requires Truthful(a)
    ensures a.cluster.nodes.Keys == a.waiting.Keys == a.inSync.Keys
  {
  }

  /** A batch alone: one more file. */
  lemma NextFile(p: Policy, servers: seq<ServerId>, moves: seq<Move>, a: Async, s: ServerId, out: seq<Packet>, k: nat)
    returns (moves': seq<Move>, a': Async)
    requires a == AsyncRun(p, servers, moves) && Truthful(a) && s in a.cluster.nodes
    requires a.waiting[s] == [Batch(out, k)] && k < 3
    ensures Steady(moves) ==> Steady(moves')
    ensures a' == AsyncRun(p, servers, moves') && Truthful(a')
    ensures a'.cluster == SetNode(a.cluster, s, WriteFile(p.fixes, a.cluster.nodes[s], FileAt(p, k)))
    ensures a'.waiting == a.waiting[s := [Batch(out, k + 1)]]
  {
    hide AsyncRun, WriteFile, FileAt;
    WriteIsWrite(p, a, s, 0);
    TakeTruthful(p, servers, a, Write(s, 0));
    AsyncOneMore(p, servers, moves, Write(s, 0));
    assert [Batch(out, k)][0 := Batch(out, k + 1)] == [Batch(out, k + 1)];
    moves', a' := moves + [Write(s, 0)], Take(p, servers, a, Write(s, 0));
  }

  /** It goes through its writes and leaves. */
  lemma Leaves(p: Policy, servers: seq<ServerId>, moves: seq<Move>, a: Async, s: ServerId, out: seq<Packet>)
    returns (moves': seq<Move>, a': Async)
    requires a == AsyncRun(p, servers, moves) && Truthful(a) && s in a.cluster.nodes
    requires a.waiting[s] == [Batch(out, 0)]
    ensures Steady(moves) ==> Steady(moves')
    ensures a' == AsyncRun(p, servers, moves') && Truthful(a') && a'.waiting == a.waiting[s := []]
    ensures var n := a.cluster.nodes[s];
      var disk := Stable(n.mem.term, n.mem.votedFor, if p.fixes.keepsLog then n.mem.log else n.disk.log);
      a'.cluster
        == Cluster(a.cluster.nodes[s := n.(disk := disk)], a.cluster.network + (set x | x in out), a.cluster.history)
  {
    hide AsyncRun, WriteFile, FileAt, Truthful;
    var n := a.cluster.nodes[s];
    ThreeWrites(p, n);
    TruthfulKeys(a);
    moves', a' := NextFile(p, servers, moves, a, s, out, 0);
    TruthfulKeys(a');
    ThreeWrites(p, a'.cluster.nodes[s]);
    moves', a' := NextFile(p, servers, moves', a', s, out, 1);
    TruthfulKeys(a');
    ThreeWrites(p, a'.cluster.nodes[s]);
    moves', a' := NextFile(p, servers, moves', a', s, out, 2);
    TruthfulKeys(a');
    TakeTruthful(p, servers, a', Send(s, 0));
    AsyncOneMore(p, servers, moves', Send(s, 0));
    assert Without([Batch(out, 3)], 0) == [];
    assert a'.cluster.nodes[s] == n.(disk := a'.cluster.nodes[s].disk);
    moves', a' := moves' + [Send(s, 0)], Take(p, servers, a', Send(s, 0));
  }

  /** Nothing waits, and the flags tell the truth. */
  ghost predicate AtRest(servers: seq<ServerId>, a: Async, c: Cluster) {
    a.cluster == c && a.waiting == Idle(servers) && Truthful(a)
  }

  lemma HandledState(p: Policy, servers: seq<ServerId>, a: Async, c: Cluster, e: Event)
    requires AtRest(servers, a, c) && Enabled(c, e) && !e.Restarted? && Election.Placed(servers, c)
    ensures var s := Actor(e);
      var n := c.nodes[s];
      var o := React(p.fixes, servers, n, e);
      && CanHandle(p, a, e) && o.node.id == s
      && o.node.disk == (if Waits(p.fixes, n, o) then Persisted(p.fixes, n, o) else n.disk)
      && HandleEvent(p, servers, a, e).cluster.nodes == c.nodes[s := o.node.(disk := n.disk)]
      && HandleEvent(p, servers, a, e).waiting ==
           (if Waits(p.fixes, n, o) then Idle(servers)[s := [Batch(o.out, 0)]] else Idle(servers))
  {
    hide React, Record, Waits, Enabled;
    EnabledFacts(c, e);
    var n := c.nodes[Actor(e)];
    ReactDisk(p.fixes, servers, n, e);
    ReactKeepsId(p.fixes, servers, n, e);
    var o := React(p.fixes, servers, n, e);
    assert Idle(servers)[Actor(e)] + [Batch(o.out, 0)] == [Batch(o.out, 0)];
  }

  lemma {:induction false} RunPlaced(f: Fixes, servers: seq<ServerId>, events: seq<Event>)
    requires Distinct(servers)
    ensures Election.Placed(servers, Run(f, servers, events))
  {
    hide React, Record;
    if events != [] {
      var c, e := Run(f, servers, events[..|events| - 1]), events[|events| - 1];
      RunPlaced(f, servers, events[..|events| - 1]);
      if Enabled(c, e) {
        EnabledFacts(c, e);
        ReactKeepsId(f, servers, c.nodes[Actor(e)], e);
      }
    }
  }

  lemma RestartedIs(f: Fixes, servers: seq<ServerId>, h: History, n: Node, e: Event)
    requires e.Restarted?
    ensures React(f, servers, n, e) == Outcome(Restart(f, n), []) && Restart(f, n).id == n.id
    ensures Record(h, n, e, Outcome(Restart(f, n), [])) == h
  {
  }

  lemma PersistedIs(f: Fixes, n: Node, o: Outcome)
    ensures Persisted(f, n, o) == Stable(o.node.mem.term, o.node.mem.votedFor,
        if f.keepsLog then o.node.mem.log else n.disk.log)
  {
  }

  lemma SimulatesStep(p: Policy, servers: seq<ServerId>, moves: seq<Move>, c: Cluster, e: Event)
    returns (moves': seq<Move>)
    requires AtRest(servers, AsyncRun(p, servers, moves), c) && Enabled(c, e) && Election.Placed(servers, c)
    ensures Steady(moves) ==> Steady(moves')
    ensures AtRest(servers, AsyncRun(p, servers, moves'), Step(p.fixes, servers, c, e))
  {
    hide AsyncRun, React, Record, CanHandle, Waits, Persisted, Truthful;
    var a, s := AsyncRun(p, servers, moves), Actor(e);
    var n := c.nodes[s];
    TruthfulKeys(a);
    EnabledFacts(c, e);
    var o := React(p.fixes, servers, n, e);
    if e.Restarted? {
      TakeTruthful(p, servers, a, Crash(s));
      AsyncOneMore(p, servers, moves, Crash(s));
      moves' := moves + [Crash(s)];
      RestartedIs(p.fixes, servers, c.history, n, e);
      assert Idle(servers)[s := []] == Idle(servers);
    } else {
      HandledState(p, servers, a, c, e);
      TakeTruthful(p, servers, a, Handle(e));
      AsyncOneMore(p, servers, moves, Handle(e));
      moves' := moves + [Handle(e)];
      if Waits(p.fixes, n, o) {
        PersistedIs(p.fixes, n, o);
        var a1, a2 := HandleEvent(p, servers, a, e), a;
        moves', a2 := Leaves(p, servers, moves', a1, s, o.out);
        assert a1.waiting[s := []] == Idle(servers);
        assert a1.cluster.nodes[s := o.node] == c.nodes[s := o.node];
      } else {
        assert o.node.(disk := n.disk) == o.node;
      }
    }
  }

  /** Whatever a cluster of whole steps can do, this one can, under every policy. */
  lemma {:induction false} Simulates(p: Policy, servers: seq<ServerId>, events: seq<Event>) returns (moves: seq<Move>)
    requires Distinct(servers)
    ensures Steady(moves) && AtRest(servers, AsyncRun(p, servers, moves), Run(p.fixes, servers, events))
  {
    if events == [] {
      moves := [];
      BeginTruthful(p, servers);
    } else {
      hide AsyncRun, AtRest;
      var c, e := Run(p.fixes, servers, events[..|events| - 1]), events[|events| - 1];
      moves := Simulates(p, servers, events[..|events| - 1]);
      RunPlaced(p.fixes, servers, events[..|events| - 1]);
      if Enabled(c, e) {
        moves := SimulatesStep(p, servers, moves, c, e);
      }
    }
  }
}
