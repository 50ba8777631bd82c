/** Whole steps, and crashes that find a server ahead of its disk: handlers have run in its memory,
    some of the first two files of some of them are written, nothing of theirs has left, and it
    restarts from what its disk holds by then. The corrected cluster stays safe: a log may then be
    ahead of the term beside it, and commands may have been applied by a memory that is lost, but
    nothing that was confirmed is lost before it is certain never to be committed, and nothing was
    applied that is not. */
module TornWrites {
  import opened RaftTypes
  import opened Logs
  import opened Medians
  import opened Nodes
  import opened Clusters
  import opened Awaits
  import Durability
  import Election
  import Matching
  import opened Replication
  import opened Completeness
  import Safety
  import Steps

  /** What a server does before all is written: a handler runs in memory, or a file is written. */
  datatype Doing = Ran(event: Event) | Wrote(file: File)

  datatype Happening = Whole(event: Event) | Torn(server: ServerId, doings: seq<Doing>)

  // ----- a server ahead of its disk -----

  predicate Runs(n: Node, e: Event) {
    Actor(e) == n.id && !e.Restarted? && (e.Heartbeat? ==> n.state.Leader?) && (e.Apply? ==> CanApply(n))
  }

  /** The last file is left out: when it is written the handler is done. */
  function Do(p: Policy, servers: seq<ServerId>, n: Node, d: Doing): Node {
    match d
    case Ran(e) => if Runs(n, e) then React(p.fixes, servers, n, e).node.(disk := n.disk) else n
    case Wrote(file) => if file != FileAt(p, 2) then WriteFile(p.fixes, n, file) else n
  }

  function Halfway(p: Policy, servers: seq<ServerId>, n: Node, doings: seq<Doing>): Node {
    if doings == [] then n
    else Do(p, servers, Halfway(p, servers, n, doings[..|doings| - 1]), doings[|doings| - 1])
  }

  /** What the history keeps of it: commands that were applied, and a leader's own entries. */
  function Leave(p: Policy, servers: seq<ServerId>, h: History, n: Node, d: Doing): History {
    if d.Wrote? || !Runs(n, d.event) then h
    else if d.event.Apply? then RecordApplied(h, n)
    else if d.event.Request? && n.state.Leader? && n.mem.term in h.reigns then
      h.(reigns := h.reigns[n.mem.term := h.reigns[n.mem.term].(log := Do(p, servers, n, d).mem.log)])
    else h
  }

  function Traces(p: Policy, servers: seq<ServerId>, h: History, n: Node, doings: seq<Doing>): History {
    if doings == [] then h
    else
      var init := doings[..|doings| - 1];
      Leave(p, servers, Traces(p, servers, h, n, init), Halfway(p, servers, n, init), doings[|doings| - 1])
  }

  // ----- whole steps and torn ones -----

  /** A handler that has something to write. */
  predicate Begins(p: Policy, servers: seq<ServerId>, n: Node, d: Doing) {
    d.Ran? && Runs(n, d.event) && React(p.fixes, servers, n, d.event).node.disk != n.disk
  }

  ghost predicate Heard(net: set<Packet>, doings: seq<Doing>) {
    forall e: Event :: Ran(e) in doings && e.Deliver? ==> e.packet in net
  }

  /** Before the first handler with something to write, steps are whole. */
  ghost predicate Tears(p: Policy, servers: seq<ServerId>, c: Cluster, s: ServerId, doings: seq<Doing>) {
    s in c.nodes && Heard(c.network, doings) && (doings != [] ==> Begins(p, servers, c.nodes[s], doings[0]))
  }

  ghost function Happen(p: Policy, servers: seq<ServerId>, c: Cluster, x: Happening): Cluster {
    match x
    case Whole(e) => Step(p.fixes, servers, c, e)
    case Torn(s, doings) =>
      if Tears(p, servers, c, s, doings) then
        Cluster(c.nodes[s := Restart(p.fixes, Halfway(p, servers, c.nodes[s], doings))], c.network,
                Traces(p, servers, c.history, c.nodes[s], doings))
      else c
  }

  ghost function TornRun(p: Policy, servers: seq<ServerId>, happenings: seq<Happening>): Cluster {
    if happenings == [] then Start(servers)
    else Happen(p, servers, TornRun(p, servers, happenings[..|happenings| - 1]), happenings[|happenings| - 1])
  }

  lemma TornOneMore(p: Policy, servers: seq<ServerId>, happenings: seq<Happening>, x: Happening)
    ensures TornRun(p, servers, happenings + [x]) == Happen(p, servers, TornRun(p, servers, happenings), x)
  {
    assert (happenings + [x])[..|happenings|] == happenings;
  }

  /** A candidate has its state on disk already. */
  ghost predicate OnDisk(f: Fixes, n: Node) {
    Durability.NodeOk(f, n) && (n.state.Candidate? ==> Persist(f, n) == n)
  }

  // ----- a memory nobody has heard of -----

  ghost predicate Secure(servers: seq<ServerId>, h: History, n: Node) {
    && ViewOk(h, n.id, n.mem) && ViewOk(h, n.id, n.disk) && CommitOk(servers, h, n)
    && n.disk.term <= n.mem.term && Election.Remembers(h, n.id, n.disk.term, n.disk.votedFor)
  }

  /** If it stands for election nobody knows of it, and if it leads it did before. */
  ghost predicate Ahead(servers: seq<ServerId>, h: History, n: Node) {
    && Secure(servers, h, n)
    && (n.state.Candidate? ==> n.state.votes == {n.id} && Candidacy(n.id, n.mem.term) !in h.candidacies)
    && (n.state.Leader? ==> Steps.Leads(servers, h, n))
  }

  /** Log, indexes and disk as they were, and no earlier term. */
  lemma QuietAhead(servers: seq<ServerId>, h: History, n: Node, n': Node)
    requires Secure(servers, h, n)
    requires n'.id == n.id && n'.disk == n.disk && n'.mem.log == n.mem.log && n.mem.term <= n'.mem.term
    requires n'.commitIndex == n.commitIndex && n'.lastApplied == n.lastApplied
    requires n'.state.Follower? || (n'.state == n.state && n'.mem.term == n.mem.term && Ahead(servers, h, n))
    ensures Ahead(servers, h, n')
  {
    hide Committed, LogOk, KeepsCopy;
    Steps.LaterViewOk(h, n.id, n.mem, n'.mem);
    Steps.LaterCommitOk(servers, h, n, n');
    if n'.state.Leader? {
      SameLeads(servers, h, n, n');
    }
  }

  lemma SameLeads(servers: seq<ServerId>, h: History, n: Node, n': Node)
    requires n.state.Leader? && Steps.Leads(servers, h, n)
    requires n'.id == n.id && n'.state == n.state && n'.mem.term == n.mem.term && n'.mem.log == n.mem.log
    ensures Steps.Leads(servers, h, n')
  {
    forall peer | peer in Peers(servers, n.id) ensures IndexOk(h, n', peer) {
      assert IndexOk(h, n, peer);
    }
  }

  lemma TimeoutAhead(servers: seq<ServerId>, h: History, n: Node)
    requires Secure(servers, h, n) && |servers| > 1
    ensures Ahead(servers, h, StartElection(CORRECTED, servers, n).node.(disk := n.disk))
  {
    hide Committed, LogOk, KeepsCopy, BecomeLeader, VoteRequests;
    var n' := StartElection(CORRECTED, servers, n).node.(disk := n.disk);
    assert !IsMajority(servers, {n.id});
    Steps.LaterViewOk(h, n.id, n.mem, n'.mem);
    Steps.LaterCommitOk(servers, h, n, n');
  }

  lemma BumpAhead(servers: seq<ServerId>, h: History, n: Node, m: Message)
    requires Secure(servers, h, n) && (Ahead(servers, h, n) || m.term > n.mem.term)
    ensures Ahead(servers, h, Bump(n, m)) && Bump(n, m).id == n.id && Bump(n, m).mem.term >= m.term
  {
    hide Secure, Ahead;
    if m.term > n.mem.term {
      QuietAhead(servers, h, n, Bump(n, m));
    }
  }

  lemma AcceptAhead(servers: seq<ServerId>, h: History, n: Node, p: Packet)
    requires Sound(servers, h) && Ahead(servers, h, n) && PacketOk(servers, h, p) && n.state.Follower?
    requires p.msg.AppendEntries? && p.msg.term == n.mem.term && Nodes.Matches(n.mem.log, p.msg)
    ensures Ahead(servers, h, OnAppendEntries(CORRECTED, n, p.src, p.msg).node.(disk := n.disk))
  {
    hide Sound, HistoryOk, Committed, LogOk, KeepsCopy, Nodes.Matches, Merge, AppendOk, OnAppendEntries, FollowerCommit;
    var t, end := n.mem.term, p.msg.prevLogIndex + 1 + |p.msg.entries|;
    var merged := Merge(true, n.mem.log, p.msg.entries);
    Steps.SoundHistory(servers, h);
    Steps.AcceptShape(h, n, p, end);
    Steps.BatchOk(servers, h, p);
    Safety.MatchesTerm(n.mem.log, p.msg);
    PrevTerm(servers, h, p);
    Steps.MergeStretch(h, n.mem.log, h.reigns[t].log, p.msg.entries, p.msg.prevLogIndex);
    Steps.MergedLogOk(servers, h, n.mem.log, merged, t, end);
    Steps.FollowerCommitOk(servers, h, n, p.msg, end, merged);
    forall c | c in h.copies && c.server == n.id ensures KeepsCopy(h, merged, c, None) {
      Steps.MergeKeepsCopy(servers, h, n.mem.log, merged, t, end, c);
    }
  }

  lemma PrevTerm(servers: seq<ServerId>, h: History, p: Packet)
    requires p.msg.AppendEntries? && PacketOk(servers, h, p)
    ensures p.msg.term in h.reigns && p.msg.prevLogIndex < |h.reigns[p.msg.term].log|
    ensures h.reigns[p.msg.term].log[p.msg.prevLogIndex].term == p.msg.prevLogTerm
  {
  }

  lemma RefuseShape(n: Node, p: Packet)
    requires n.state.Follower? && p.msg.AppendEntries?
    requires p.msg.term < n.mem.term || !Nodes.Matches(n.mem.log, p.msg)
    ensures var n' := OnAppendEntries(CORRECTED, n, p.src, p.msg).node.(disk := n.disk);
      n' == n.(state := n'.state) && n'.state.Follower?
  {
  }

  lemma AnswerShape(n: Node, p: Packet)
    requires n.state.Follower? && p.msg.RequestVote?
    ensures var n' := OnRequestVote(CORRECTED, n, p.src, p.msg).node.(disk := n.disk);
      n' == n.(mem := n.mem.(votedFor := n'.mem.votedFor))
  {
  }

  lemma FollowerAhead(servers: seq<ServerId>, h: History, b: Node, p: Packet)
    requires Sound(servers, h) && Ahead(servers, h, b) && PacketOk(servers, h, p) && b.state.Follower?
    requires b.mem.term >= p.msg.term
    ensures Ahead(servers, h, Dispatch(CORRECTED, servers, b, p.src, p.msg).node.(disk := b.disk))
  {
    hide Sound, PacketOk, Ahead, Nodes.Matches, OnAppendEntries, OnRequestVote, Secure;
    AheadSecure(servers, h, b);
    if p.msg.AppendEntries? {
      if p.msg.term == b.mem.term && Nodes.Matches(b.mem.log, p.msg) {
        AcceptAhead(servers, h, b, p);
      } else {
        RefuseShape(b, p);
        QuietAhead(servers, h, b, OnAppendEntries(CORRECTED, b, p.src, p.msg).node.(disk := b.disk));
      }
    } else if p.msg.RequestVote? {
      AnswerShape(b, p);
      QuietAhead(servers, h, b, OnRequestVote(CORRECTED, b, p.src, p.msg).node.(disk := b.disk));
    } else {
      assert b.(disk := b.disk) == b;
    }
  }

  lemma AheadSecure(servers: seq<ServerId>, h: History, n: Node)
    requires Ahead(servers, h, n)
    ensures Secure(servers, h, n)
  {
  }

  /** Nobody votes for a candidate nobody has heard of. */
  lemma NoGrant(servers: seq<ServerId>, h: History, n: Node, p: Packet)
    requires Sound(servers, h) && n.state.Candidate? && Candidacy(n.id, n.mem.term) !in h.candidacies
    requires Election.PacketOk(servers, h, p) && p.dst == n.id && p.msg.VoteResponse? && p.msg.term == n.mem.term
    ensures !p.msg.voteGranted
  {
    hide Sound;
    if p.msg.voteGranted {
      BallotStood(servers, h, Cast(p.src, p.msg.term, n.id));
    }
  }

  lemma BallotStood(servers: seq<ServerId>, h: History, b: Cast)
    requires Sound(servers, h) && b in h.ballots
    ensures Candidacy(b.candidate, b.term) in h.candidacies
  {
    assert BallotOk(h, b);
  }

  lemma CandidateAhead(servers: seq<ServerId>, h: History, b: Node, p: Packet)
    requires Sound(servers, h) && Ahead(servers, h, b) && b.state.Candidate? && b.mem.term >= p.msg.term
    requires Election.PacketOk(servers, h, p) && p.dst == b.id
    ensures Ahead(servers, h, Dispatch(CORRECTED, servers, b, p.src, p.msg).node.(disk := b.disk))
  {
    hide Sound, Secure, BecomeLeader, Election.PacketOk;
    if p.msg.VoteResponse? && p.msg.term == b.mem.term {
      NoGrant(servers, h, b, p);
    }
    if p.msg.AppendEntries? {
      QuietAhead(servers, h, b, OnAppendAsCandidate(b, p.msg).node);
    }
    assert b.(disk := b.disk) == b;
  }

  lemma LeaderAhead(servers: seq<ServerId>, h: History, b: Node, p: Packet)
    requires Sound(servers, h) && Ahead(servers, h, b) && b.state.Leader? && b.id in servers
    requires Election.PacketOk(servers, h, p) && PacketOk(servers, h, p) && p.dst == b.id
    ensures Ahead(servers, h, Dispatch(CORRECTED, servers, b, p.src, p.msg).node.(disk := b.disk))
  {
    hide Sound, ViewOk, Committed, UpdateIndexes, AdvanceCommit, Steps.Leads;
    if p.msg.AppendResponse? && p.msg.term == b.mem.term {
      Steps.SoundHistory(servers, h);
      var n1 := b.(state := UpdateIndexes(CORRECTED, b.state, p.msg));
      Steps.UpdateIndexesOk(servers, h, b, p);
      Steps.AdvanceCommitOk(servers, h, n1);
      SameLeads(servers, h, n1, AdvanceCommit(CORRECTED, n1));
    }
    assert b.(disk := b.disk) == b;
  }

  lemma DispatchAhead(servers: seq<ServerId>, h: History, b: Node, p: Packet)
    requires Sound(servers, h) && Ahead(servers, h, b) && b.id in servers && b.mem.term >= p.msg.term
    requires Election.PacketOk(servers, h, p) && PacketOk(servers, h, p) && p.dst == b.id
    ensures Ahead(servers, h, Dispatch(CORRECTED, servers, b, p.src, p.msg).node.(disk := b.disk))
  {
    hide Sound, Ahead, Dispatch, Election.PacketOk, PacketOk;
    match b.state
    case Follower(_) => FollowerAhead(servers, h, b, p);
    case Candidate(_) => CandidateAhead(servers, h, b, p);
    case Leader(_, _) => LeaderAhead(servers, h, b, p);
  }

  /** A history that differs in applied commands or in this server's own log. */
  ghost predicate Outgrown(h: History, h': History, id: ServerId) {
    h' == h.(applied := h'.applied, reigns := h'.reigns) && h.applied <= h'.applied && ReignsGrow(h, h', id)
  }

  lemma OutgrownExtends(h: History, h': History, id: ServerId)
    requires Outgrown(h, h', id)
    ensures Extends(h, h', id)
  {
  }

  lemma OutgrownView(servers: seq<ServerId>, h: History, h': History, id: ServerId, st: Stable)
    requires HistoryOk(servers, h) && Outgrown(h, h', id) && ViewOk(h, id, st)
    ensures ViewOk(h', id, st)
  {
    hide LogOk, KeepsCopy, ReignsGrow;
    LogStaysOk(h, h', id, st.log);
    forall c | c in h'.copies && c.server == id ensures KeepsCopy(h', st.log, c, None) {
      CopyIsOk(servers, h, c);
      KeepsCopyStays(h, h', id, st.log, c, None);
    }
  }

  lemma CopyIsOk(servers: seq<ServerId>, h: History, c: Copy)
    requires HistoryOk(servers, h) && c in h.copies
    ensures CopyOk(h, c)
  {
  }

  lemma OutgrownSound(servers: seq<ServerId>, h: History, h': History)
    requires Sound(servers, h) && HistoryOk(servers, h') && h'.ballots == h.ballots && h'.wins == h.wins
    ensures Sound(servers, h')
  {
    Steps.SoundStays(servers, h, h');
  }

  lemma ApplyAhead(servers: seq<ServerId>, h: History, n: Node)
    requires Sound(servers, h) && Ahead(servers, h, n) && CanApply(n)
    ensures var h' := RecordApplied(h, n);
      Outgrown(h, h', n.id) && Sound(servers, h') && Ahead(servers, h', ApplyNext(n))
  {
    hide ViewOk, Committed, AppliedOk, HistoryOk, Election.HistoryOk, IndexesOk, CanApply;
    var h' := RecordApplied(h, n);
    Steps.SoundHistory(servers, h);
    OutgrownExtends(h, h', n.id);
    AppliedHistoryOk(servers, h, n);
    OutgrownSound(servers, h, h');
    OutgrownView(servers, h, h', n.id, n.mem);
    OutgrownView(servers, h, h', n.id, n.disk);
    CommittedStays(servers, h, h', n.id, n.mem.log[..n.commitIndex + 1], n.mem.term, n.mem.term);
    AppliedLeads(servers, h, n);
    assert n.lastApplied < n.commitIndex by { CanApplyMeans(n); }
  }

  lemma CanApplyMeans(n: Node)
    requires CanApply(n)
    ensures n.lastApplied < n.commitIndex
  {
  }

  lemma AppliedHistoryOk(servers: seq<ServerId>, h: History, n: Node)
    requires HistoryOk(servers, h) && CommitOk(servers, h, n) && CanApply(n)
    ensures HistoryOk(servers, RecordApplied(h, n))
  {
    hide Committed, AppliedOk, HistoryOk;
    var h' := RecordApplied(h, n);
    OutgrownExtends(h, h', n.id);
    Steps.ApplyRecordOk(servers, h, n);
    AppliedStays(servers, h, h', n.id, Applied(n.id, n.lastApplied + 1, n.mem.log[n.lastApplied + 1].command));
    OutgrownHistoryOk(servers, h, h', n.id);
  }

  lemma OutgrownHistoryOk(servers: seq<ServerId>, h: History, h': History, id: ServerId)
    requires HistoryOk(servers, h) && Outgrown(h, h', id) && Steps.NewRecordsOk(servers, h, h')
    ensures HistoryOk(servers, h')
  {
    hide ReignOk, CandidacyOk, BallotOk, AppliedOk, BallotKeeps, Steps.NewRecordsOk;
    OutgrownExtends(h, h', id);
    Steps.RecordsStayOk(servers, h, h', id);
    forall c | c in h'.copies ensures CopyOk(h', c) {
      assert CopyOk(h, c);
    }
    forall b, c | b in h'.ballots && c in h'.copies ensures BallotKeeps(h', b, c) {
      BallotKeepsStays(h, h', id, b, c);
    }
  }

  lemma AppliedLeads(servers: seq<ServerId>, h: History, n: Node)
    requires CanApply(n) && (n.state.Leader? ==> Steps.Leads(servers, h, n))
    ensures n.state.Leader? ==> Steps.Leads(servers, RecordApplied(h, n), ApplyNext(n))
  {
    if n.state.Leader? {
      forall peer | peer in Peers(servers, n.id) ensures IndexOk(RecordApplied(h, n), ApplyNext(n), peer) {
        assert IndexOk(h, n, peer);
      }
    }
  }

  /** The leader's command: its log is longer, its copy is not. */
  lemma LongerHistoryOk(servers: seq<ServerId>, h: History, h': History, n: Node, log: seq<Entry>)
    requires HistoryOk(servers, h) && n.state.Leader? && Steps.Leads(servers, h, n)
    requires Steps.OneMore(n, log) && Steps.Lengthened(h, h', n, log) && h'.copies == h.copies
    ensures Outgrown(h, h', n.id) && HistoryOk(servers, h')
  {
    hide HistoryOk, ReignOk, IndexesOk;
    assert Outgrown(h, h', n.id);
    OutgrownExtends(h, h', n.id);
    Steps.GrownReignOk(servers, h, h', n, log);
    OutgrownHistoryOk(servers, h, h', n.id);
  }

  lemma LongerLeads(servers: seq<ServerId>, h: History, h': History, n: Node, n': Node)
    requires n.state.Leader? && Steps.Leads(servers, h, n) && n' == n.(mem := n.mem.(log := n'.mem.log))
    requires Steps.OneMore(n, n'.mem.log) && Steps.Lengthened(h, h', n, n'.mem.log) && h'.copies == h.copies
    ensures Steps.Leads(servers, h', n')
  {
    forall peer | peer in Peers(servers, n.id) ensures IndexOk(h', n', peer) {
      assert IndexOk(h, n, peer);
    }
  }

  lemma LongerView(servers: seq<ServerId>, h: History, h': History, n: Node, log: seq<Entry>)
    requires HistoryOk(servers, h) && Outgrown(h, h', n.id) && ViewOk(h, n.id, n.mem)
    requires Steps.OneMore(n, log) && Steps.Lengthened(h, h', n, log)
    ensures ViewOk(h', n.id, n.mem.(log := log))
  {
    hide HistoryOk, LogOk, KeepsCopy;
    OutgrownExtends(h, h', n.id);
    OutgrownView(servers, h, h', n.id, n.mem);
    Steps.GrownLogOk(servers, h, h', n, log);
    forall c | c in h'.copies && c.server == n.id ensures KeepsCopy(h', log, c, None) {
      Steps.KeepsCopyLonger(h', n.mem.log, log, c, None);
    }
  }

  lemma RequestAhead(servers: seq<ServerId>, h: History, h': History, n: Node, n': Node)
    requires Sound(servers, h) && Ahead(servers, h, n) && n.state.Leader?
    requires n' == n.(mem := n.mem.(log := n'.mem.log)) && Steps.OneMore(n, n'.mem.log)
    requires Steps.Lengthened(h, h', n, n'.mem.log) && h'.copies == h.copies && h'.applied == h.applied
    ensures Outgrown(h, h', n.id) && Sound(servers, h') && Ahead(servers, h', n')
  {
    hide HistoryOk, Election.HistoryOk, ViewOk, Committed, Steps.Leads, Steps.OneMore;
    Steps.SoundHistory(servers, h);
    LongerHistoryOk(servers, h, h', n, n'.mem.log);
    OutgrownExtends(h, h', n.id);
    OutgrownSound(servers, h, h');
    LongerView(servers, h, h', n, n'.mem.log);
    OutgrownView(servers, h, h', n.id, n.disk);
    LongerLeads(servers, h, h', n, n');
    var c := n.commitIndex;
    CommittedStays(servers, h, h', n.id, n.mem.log[..c + 1], n.mem.term, n.mem.term);
    assert n'.mem.log[..c + 1] == n.mem.log[..c + 1] by { OneMoreKeeps(n, n'.mem.log, c); }
  }

  lemma OneMoreKeeps(n: Node, log: seq<Entry>, c: nat)
    requires Steps.OneMore(n, log) && c < |n.mem.log|
    ensures c < |log| && log[..c + 1] == n.mem.log[..c + 1]
  {
  }

  lemma RequestShape(p: Policy, servers: seq<ServerId>, h: History, n: Node, command: Bytes)
    requires n.state.Leader? && n.mem.term in h.reigns
    ensures var d := Ran(Request(n.id, command));
      var n', h' := Do(p, servers, n, d), Leave(p, servers, h, n, d);
      && n' == n.(mem := n.mem.(log := n'.mem.log)) && Steps.OneMore(n, n'.mem.log)
      && Steps.Lengthened(h, h', n, n'.mem.log) && h'.copies == h.copies && h'.applied == h.applied
  {
    hide SendAppendEntries;
    var n1 := n.(mem := n.mem.(log := n.mem.log + [Entry(command, |n.mem.log|, n.mem.term)]));
    Election.SendEffect(p.fixes, servers, n1);
  }

  // ----- each doing -----

  lemma DeliverAhead(servers: seq<ServerId>, h: History, n: Node, p: Packet)
    requires Sound(servers, h) && Secure(servers, h, n) && (Ahead(servers, h, n) || p.msg.term > n.mem.term)
    requires n.id in servers && Election.PacketOk(servers, h, p) && PacketOk(servers, h, p) && p.dst == n.id
    ensures Ahead(servers, h, Receive(CORRECTED, servers, n, p.src, p.msg).node.(disk := n.disk))
  {
    hide Sound, Ahead, Secure, Dispatch, Election.PacketOk, PacketOk;
    BumpAhead(servers, h, n, p.msg);
    assert Bump(n, p.msg).disk == n.disk;
    DispatchAhead(servers, h, Bump(n, p.msg), p);
  }

  lemma QuietShape(p: Policy, servers: seq<ServerId>, n: Node, e: Event)
    requires Runs(n, e) && (e.Heartbeat? || (e.Request? && !n.state.Leader?))
    ensures Do(p, servers, n, Ran(e)) == n
  {
    hide SendAppendEntries;
    if e.Heartbeat? {
      Election.SendEffect(p.fixes, servers, n);
    }
  }

  ghost predicate PacketFine(servers: seq<ServerId>, h: History, e: Event) {
    e.Deliver? ==> Election.PacketOk(servers, h, e.packet) && PacketOk(servers, h, e.packet)
  }

  lemma RanAhead(p: Policy, servers: seq<ServerId>, h: History, n: Node, e: Event)
    requires p.fixes == CORRECTED && |servers| > 1 && n.id in servers
    requires Sound(servers, h) && Ahead(servers, h, n) && Runs(n, e) && PacketFine(servers, h, e)
    ensures var h', n' := Leave(p, servers, h, n, Ran(e)), Do(p, servers, n, Ran(e));
      Outgrown(h, h', n.id) && Sound(servers, h') && Ahead(servers, h', n')
  {
    hide Sound, Secure, StartElection, Receive, Election.PacketOk, PacketOk, Steps.Leads, SendAppendEntries, CanApply;
    match e
    case Timeout(_) => TimeoutAhead(servers, h, n);
    case Deliver(packet) => DeliverAhead(servers, h, n, packet);
    case Heartbeat(_) => QuietShape(p, servers, n, e);
    case Request(_, command) =>
      if n.state.Leader? {
        LeadsTerm(servers, h, n);
        RequestShape(p, servers, h, n, command);
        RequestAhead(servers, h, Leave(p, servers, h, n, Ran(e)), n, Do(p, servers, n, Ran(e)));
      } else {
        QuietShape(p, servers, n, e);
      }
    case Apply(_) => ApplyAhead(servers, h, n);
  }

  lemma LeadsTerm(servers: seq<ServerId>, h: History, n: Node)
    requires n.state.Leader? && Steps.Leads(servers, h, n)
    ensures n.mem.term in h.reigns
  {
  }

  /** The log or the term alone goes to disk. */
  lemma WroteAhead(p: Policy, servers: seq<ServerId>, h: History, n: Node, file: File)
    requires p.fixes == CORRECTED && p.termFirst && Ahead(servers, h, n)
    ensures Ahead(servers, h, Do(p, servers, n, Wrote(file)))
  {
    hide LogOk, KeepsCopy, Committed;
    var n' := Do(p, servers, n, Wrote(file));
    assert ViewOk(h, n.id, n'.disk);
    if n.state.Leader? {
      SameLeads(servers, h, n, n');
    }
  }

  lemma DoAhead(p: Policy, servers: seq<ServerId>, h: History, n: Node, d: Doing)
    requires p.fixes == CORRECTED && p.termFirst && |servers| > 1 && n.id in servers
    requires Sound(servers, h) && Ahead(servers, h, n) && (d.Ran? ==> PacketFine(servers, h, d.event))
    ensures var h', n' := Leave(p, servers, h, n, d), Do(p, servers, n, d);
      Outgrown(h, h', n.id) && Sound(servers, h') && Ahead(servers, h', n') && n'.id == n.id
  {
    hide Sound, Ahead, PacketFine, Runs, WriteFile;
    DoKeepsId(p, servers, n, d);
    if d.Wrote? {
      WroteAhead(p, servers, h, n, d.file);
      OutgrownSame(h, n.id);
    } else if Runs(n, d.event) {
      RanAhead(p, servers, h, n, d.event);
    } else {
      OutgrownSame(h, n.id);
    }
  }

  lemma OutgrownSame(h: History, id: ServerId)
    ensures Outgrown(h, h, id)
  {
  }

  lemma DoKeepsId(p: Policy, servers: seq<ServerId>, n: Node, d: Doing)
    ensures Do(p, servers, n, d).id == n.id
  {
    hide React, CanApply;
    if d.Ran? && Runs(n, d.event) {
      ReactKeepsId(p.fixes, servers, n, d.event);
    }
  }

  // ----- the first of them -----

  lemma NodeSecure(servers: seq<ServerId>, h: History, n: Node)
    requires HistoryOk(servers, h) && NodeOk(servers, h, n) && Election.NodeOk(servers, h, n)
    requires n.disk.term <= n.mem.term
    ensures Secure(servers, h, n) && (!n.state.Candidate? ==> Ahead(servers, h, n))
  {
    hide HistoryOk, ViewOk, Committed, LeaderOk, Steps.Leads;
    if n.state.Leader? {
      Steps.LeaderLeads(servers, h, n);
    }
  }

  /** A candidate whose state is on disk has something to write only if it stands again, or hears
      of a later term. */
  lemma CandidateBegins(f: Fixes, servers: seq<ServerId>, n: Node, e: Event)
    requires n.state.Candidate? && Persist(f, n) == n && Runs(n, e)
    requires React(f, servers, n, e).node.disk != n.disk
    ensures e.Timeout? || (e.Deliver? && e.packet.msg.term > n.mem.term)
  {
    hide BecomeLeader;
    if e.Deliver? && e.packet.msg.VoteResponse? && e.packet.msg.term <= n.mem.term {
      WinsOnDisk(f, servers, n.(state := Candidate(n.state.votes + {e.packet.src})));
    }
  }

  lemma WinsOnDisk(f: Fixes, servers: seq<ServerId>, n: Node)
    requires Persist(f, n) == n
    ensures BecomeLeader(f, servers, n).node.disk == n.disk
  {
  }

  lemma FirstAhead(p: Policy, servers: seq<ServerId>, h: History, n: Node, d: Doing)
    requires p.fixes == CORRECTED && p.termFirst && |servers| > 1 && n.id in servers
    requires Sound(servers, h) && NodeOk(servers, h, n) && Election.NodeOk(servers, h, n) && OnDisk(CORRECTED, n)
    requires Begins(p, servers, n, d) && PacketFine(servers, h, d.event)
    ensures var h', n' := Leave(p, servers, h, n, d), Do(p, servers, n, d);
      Outgrown(h, h', n.id) && Sound(servers, h') && Ahead(servers, h', n') && n'.id == n.id
  {
    hide Sound, HistoryOk, NodeOk, Election.NodeOk, Ahead, Secure, PacketOk, Election.PacketOk, StartElection, Receive;
    Steps.SoundHistory(servers, h);
    NodeSecure(servers, h, n);
    if n.state.Candidate? {
      CandidateBegins(CORRECTED, servers, n, d.event);
      DoKeepsId(p, servers, n, d);
      OutgrownSame(h, n.id);
      if d.event.Timeout? {
        TimeoutAhead(servers, h, n);
      } else {
        DeliverAhead(servers, h, n, d.event.packet);
      }
    } else {
      DoAhead(p, servers, h, n, d);
    }
  }

  // ----- all of them -----

  lemma OutgrownTwice(h: History, h1: History, h2: History, id: ServerId)
    requires Outgrown(h, h1, id) && Outgrown(h1, h2, id)
    ensures Outgrown(h, h2, id)
  {
    forall t | t in h.reigns ensures SameReign(h.reigns[t], h2.reigns[t], id) {
      assert SameReign(h.reigns[t], h1.reigns[t], id);
      assert SameReign(h1.reigns[t], h2.reigns[t], id);
    }
  }

  lemma FineStays(servers: seq<ServerId>, h: History, h': History, id: ServerId, e: Event)
    requires Outgrown(h, h', id) && PacketFine(servers, h, e)
    ensures PacketFine(servers, h', e)
  {
    hide PacketOk, Extends;
    OutgrownExtends(h, h', id);
    if e.Deliver? {
      PacketStaysOk(servers, h, h', id, e.packet);
    }
  }

  lemma {:induction false} HalfwayAhead(p: Policy, servers: seq<ServerId>, h: History, n: Node, doings: seq<Doing>)
    requires p.fixes == CORRECTED && p.termFirst && |servers| > 1 && n.id in servers
    requires Sound(servers, h) && NodeOk(servers, h, n) && Election.NodeOk(servers, h, n) && OnDisk(CORRECTED, n)
    requires doings != [] && Begins(p, servers, n, doings[0])
    requires forall e :: Ran(e) in doings ==> PacketFine(servers, h, e)
    ensures var h', n' := Traces(p, servers, h, n, doings), Halfway(p, servers, n, doings);
      Outgrown(h, h', n.id) && Sound(servers, h') && Ahead(servers, h', n') && n'.id == n.id
  {
    hide Sound, NodeOk, Election.NodeOk, OnDisk, Begins, PacketFine, Outgrown, Ahead, Do, Leave;
    var init, d := doings[..|doings| - 1], doings[|doings| - 1];
    assert d in doings && forall x :: x in init ==> x in doings;
    if init == [] {
      BeginsMeans(p, servers, n, d);
      FirstAhead(p, servers, h, n, d);
    } else {
      HalfwayAhead(p, servers, h, n, init);
      var h1, n1 := Traces(p, servers, h, n, init), Halfway(p, servers, n, init);
      if d.Ran? {
        FineStays(servers, h, h1, n.id, d.event);
      }
      DoAhead(p, servers, h1, n1, d);
      OutgrownTwice(h, h1, Leave(p, servers, h1, n1, d), n.id);
    }
  }

  lemma BeginsMeans(p: Policy, servers: seq<ServerId>, n: Node, d: Doing)
    requires Begins(p, servers, n, d)
    ensures d.Ran?
  {
  }

  lemma RestartedOk(servers: seq<ServerId>, h: History, n: Node)
    requires Secure(servers, h, n)
    ensures var r := Restart(CORRECTED, n);
      NodeOk(servers, h, r) && Election.NodeOk(servers, h, r) && OnDisk(CORRECTED, r) && r.id == n.id
  {
    hide KeepsCopy;
    var r := Restart(CORRECTED, n);
    assert r.mem == n.disk;
    assert r.mem.log[..1] == [SENTINEL];
  }

  // ----- every run -----

  lemma StandOnDisk(f: Fixes, servers: seq<ServerId>, n: Node)
    requires f.persistsFirst
    ensures var n' := StartElection(f, servers, n).node; n'.state.Candidate? ==> Persist(f, n') == n'
  {
    hide BecomeLeader, VoteRequests;
    Election.LeadEffect(f, servers, Stand(f, n));
  }

  lemma DispatchOnDisk(f: Fixes, servers: seq<ServerId>, n: Node, src: ServerId, m: Message)
    requires n.state.Candidate? ==> Persist(f, n) == n
    ensures var n' := Dispatch(f, servers, n, src, m).node; n'.state.Candidate? ==> Persist(f, n') == n'
  {
    hide BecomeLeader, Merge, Nodes.Matches, GrantsVote, UpdateIndexes, CommitScan, Median, Values, FollowerCommit;
    if n.state.Candidate? && m.VoteResponse? {
      Election.LeadEffect(f, servers, n.(state := Candidate(n.state.votes + {src})));
    } else if n.state.Leader? && m.AppendResponse? {
      Matching.UpdateLeads(f, n.state, m);
    }
  }

  lemma ReactOnDisk(f: Fixes, servers: seq<ServerId>, n: Node, e: Event)
    requires f.persistsFirst && OnDisk(f, n)
    requires e.Heartbeat? ==> n.state.Leader?
    requires e.Apply? ==> CanApply(n)
    ensures OnDisk(f, React(f, servers, n, e).node)
  {
    hide Dispatch, StartElection, SendAppendEntries, Durability.SelfVoted;
    Durability.EventOk(f, servers, n, e);
    match e
    case Timeout(_) => StandOnDisk(f, servers, n);
    case Deliver(p) => DispatchOnDisk(f, servers, Bump(n, p.msg), p.src, p.msg);
    case Heartbeat(_) => Election.SendEffect(f, servers, n);
    case Request(_, command) =>
      if n.state.Leader? {
        var log := n.mem.log + [Entry(command, |n.mem.log|, n.mem.term)];
        Election.SendEffect(f, servers, n.(mem := n.mem.(log := log)));
      }
    case Apply(_) =>
    case Restarted(_) =>
  }

  ghost predicate Inv(servers: seq<ServerId>, c: Cluster) {
    Safety.Inv(servers, c) && forall s :: s in c.nodes ==> OnDisk(CORRECTED, c.nodes[s])
  }

  lemma WholeOk(servers: seq<ServerId>, c: Cluster, e: Event)
    requires Inv(servers, c)
    ensures Inv(servers, Step(CORRECTED, servers, c, e))
  {
    hide Safety.Inv, OnDisk, React, Record, Sound, HistoryOk, NodeOk, Election.NodeOk, Election.PacketOk, PacketOk;
    Safety.StepKeepsInv(servers, c, e);
    if Enabled(c, e) {
      Safety.ActorOk(servers, c, e);
      EnabledFacts(c, e);
      ReactOnDisk(CORRECTED, servers, c.nodes[Actor(e)], e);
    }
  }

  /** The lost memory and the history it leaves. */
  lemma LostOk(p: Policy, servers: seq<ServerId>, c: Cluster, s: ServerId, doings: seq<Doing>)
    requires p.fixes == CORRECTED && p.termFirst && |servers| > 1 && Inv(servers, c) && Tears(p, servers, c, s, doings)
    ensures var n := c.nodes[s];
      var h', n' := Traces(p, servers, c.history, n, doings), Halfway(p, servers, n, doings);
      n.id == s && n'.id == s && Outgrown(c.history, h', s) && Sound(servers, h') && Secure(servers, h', n')
  {
    hide Sound, HistoryOk, NodeOk, Election.NodeOk, OnDisk, Ahead, Secure, Outgrown, Begins, PacketOk,
      Election.PacketOk;
    var h, n := c.history, c.nodes[s];
    Safety.InvIsSound(servers, c);
    assert NodeOk(servers, h, n) && Election.NodeOk(servers, h, n) && OnDisk(CORRECTED, n) && n.id in servers;
    if doings == [] {
      Steps.SoundHistory(servers, h);
      DiskBehind(n);
      NodeSecure(servers, h, n);
      OutgrownSame(h, s);
    } else {
      forall e | Ran(e) in doings ensures PacketFine(servers, h, e) {
        assert e.Deliver? ==> e.packet in c.network;
      }
      HalfwayAhead(p, servers, h, n, doings);
      AheadSecure(servers, Traces(p, servers, h, n, doings), Halfway(p, servers, n, doings));
    }
  }

  lemma DiskBehind(n: Node)
    requires OnDisk(CORRECTED, n)
    ensures n.disk.term <= n.mem.term
  {
  }

  /** A crash in the middle keeps the invariant. */
  lemma TornOk(p: Policy, servers: seq<ServerId>, c: Cluster, s: ServerId, doings: seq<Doing>)
    requires p.fixes == CORRECTED && p.termFirst && |servers| > 1 && Inv(servers, c)
    ensures Inv(servers, Happen(p, servers, c, Torn(s, doings)))
  {
    hide Traces, Halfway, Sound, HistoryOk, NodeOk, Election.NodeOk, Election.HistoryOk, OnDisk, Secure, Outgrown,
      PacketOk, Election.PacketOk, Restart, Tears, Extends;
    if Tears(p, servers, c, s, doings) {
      TearsAt(p, servers, c, s, doings);
      var h, h' := c.history, Traces(p, servers, c.history, c.nodes[s], doings);
      var n := Halfway(p, servers, c.nodes[s], doings);
      LostOk(p, servers, c, s, doings);
      RestartedOk(servers, h', n);
      Steps.SoundHistory(servers, h');
      OutgrownExtends(h, h', s);
      OutgrownRest(servers, c, h', s);
    }
  }

  lemma TearsAt(p: Policy, servers: seq<ServerId>, c: Cluster, s: ServerId, doings: seq<Doing>)
    requires Tears(p, servers, c, s, doings)
    ensures s in c.nodes
  {
  }

  /** The other servers and the packets sent. */
  lemma OutgrownRest(servers: seq<ServerId>, c: Cluster, h': History, s: ServerId)
    requires Inv(servers, c) && Outgrown(c.history, h', s)
    ensures forall t :: t in c.nodes && t != s ==>
      NodeOk(servers, h', c.nodes[t]) && Election.NodeOk(servers, h', c.nodes[t]) && c.nodes[t].id == t
    ensures forall p :: p in c.network ==> PacketOk(servers, h', p) && Election.PacketOk(servers, h', p)
  {
    hide HistoryOk, NodeOk, Election.NodeOk, Election.HistoryOk, OnDisk, PacketOk, Election.PacketOk, Extends;
    var h := c.history;
    OutgrownExtends(h, h', s);
    OutgrownVotes(h, h', s);
    forall t | t in c.nodes && t != s
      ensures NodeOk(servers, h', c.nodes[t]) && Election.NodeOk(servers, h', c.nodes[t]) && c.nodes[t].id == t
    {
      OtherNodeOk(servers, h, h', s, c.nodes[t]);
      Election.OtherNodeOk(servers, h, h', s, c.nodes[t]);
    }
    forall p | p in c.network ensures PacketOk(servers, h', p) && Election.PacketOk(servers, h', p) {
      PacketStaysOk(servers, h, h', s, p);
      Election.PacketStaysOk(servers, h, h', s, p);
    }
  }

  lemma OutgrownVotes(h: History, h': History, id: ServerId)
    requires Outgrown(h, h', id)
    ensures Election.Extends(h, h', id)
  {
  }

  lemma {:induction false} RunKeepsInv(p: Policy, servers: seq<ServerId>, happenings: seq<Happening>)
    requires p.fixes == CORRECTED && p.termFirst && Distinct(servers) && |servers| > 1
    ensures Inv(servers, TornRun(p, servers, happenings))
  {
    hide Inv, Step, Tears;
    if happenings == [] {
      StartOk(servers);
    } else {
      var c := TornRun(p, servers, happenings[..|happenings| - 1]);
      RunKeepsInv(p, servers, happenings[..|happenings| - 1]);
      match happenings[|happenings| - 1]
      case Whole(e) => WholeOk(servers, c, e);
      case Torn(s, doings) => TornOk(p, servers, c, s, doings);
    }
  }

  lemma StartOk(servers: seq<ServerId>)
    requires Distinct(servers)
    ensures Inv(servers, Start(servers))
  {
    hide Safety.Inv;
    Safety.StartOk(servers);
  }

  // ----- what follows -----

  lemma InvMatches(servers: seq<ServerId>, c: Cluster)
    requires Safety.Inv(servers, c)
    ensures LogsMatch(c)
  {
    hide HistoryOk, PacketOk, LogOk, Election.Inv;
    forall s, t, i | s in c.nodes && t in c.nodes && 0 <= i < |c.nodes[s].mem.log| && i < |c.nodes[t].mem.log|
        && c.nodes[s].mem.log[i].term == c.nodes[t].mem.log[i].term
      ensures c.nodes[s].mem.log[..i + 1] == c.nodes[t].mem.log[..i + 1]
    {
      assert NodeOk(servers, c.history, c.nodes[s]) && NodeOk(servers, c.history, c.nodes[t]);
      SameTermSamePrefix(c.history, c.nodes[s].mem.log, c.nodes[t].mem.log, i);
    }
  }

  /** Sections 5.3 and 5.4 of the paper for any number of servers above one, crashes of a server
      ahead of its disk included: logs match, every leader has what was decided before, and no two
      commands are applied at one index. */
  lemma {:induction false} TornSafety(p: Policy, servers: seq<ServerId>, happenings: seq<Happening>)
    requires p.fixes == CORRECTED && p.termFirst && Distinct(servers) && |servers| > 1
    ensures var c := TornRun(p, servers, happenings);
      LogsMatch(c) && LeadersComplete(servers, c.history) && StateMachineSafe(c)
  {
    hide TornRun, Safety.Inv, LogsMatch, LeadersComplete, StateMachineSafe, Sound;
    var c := TornRun(p, servers, happenings);
    RunKeepsInv(p, servers, happenings);
    InvMatches(servers, c);
    Safety.InvIsSound(servers, c);
    SoundIsComplete(servers, c.history);
    Safety.InvIsSafe(servers, c);
  }
}
