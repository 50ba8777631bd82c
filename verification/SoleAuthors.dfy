/** Log Matching when requests and merge are as written and the state is not written before
    requests. Such a request can only cut a follower's log, so a log holds nothing but what its
    own server appended as a leader; and although two servers may lead one term, the first has
    forgotten what it appended before the second is elected. */
module SoleAuthors {
  import opened RaftTypes
  import opened Logs
  import opened Nodes
  import opened Clusters
  import Awaits
  import Durability
  import Election

  predicate CutsOnly(f: Fixes) {
    f.recordsGrant && f.reloadsVote && f.countsOwnTerm && !f.sendsFromNextIndex && !f.mergesByPosition
  }

  // ----- the merge as written on a request as written -----

  /** The entries end at prevLogIndex. */
  ghost predicate EndsAt(entries: seq<Entry>, prev: nat) {
    forall k :: 0 <= k < |entries| ==> entries[k].index == prev + 1 - |entries| + k
  }

  ghost predicate Tidy(log: seq<Entry>) {
    forall i :: 0 <= i < |log| ==> log[i].index == i && (log[i].term == 0 ==> log[i] == SENTINEL)
  }

  lemma SliceEndsAt(log: seq<Entry>, from: Index)
    requires Tidy(log) && |log| > 0
    ensures EndsAt(SliceFrom(log, from), |log| - 1)
  {
  }

  /** The first entry whose term is not the last one cuts the log, and nothing is put back. */
  lemma {:induction false} MergeCuts(log: seq<Entry>, entries: seq<Entry>)
    requires forall k :: 0 <= k < |entries| ==> entries[k].index < |log|
    requires forall k :: 0 < k < |entries| ==> entries[k].index == entries[k - 1].index + 1
    ensures var merged := Merge(false, log, entries);
      merged <= log && (merged == log || (entries != [] && |merged| <= entries[|entries| - 1].index))
  {
    if entries != [] {
      MergeCuts(log, entries[..|entries| - 1]);
    }
  }

  lemma AcceptedCuts(log: seq<Entry>, m: Message)
    requires m.AppendEntries? && EndsAt(m.entries, m.prevLogIndex) && Matches(log, m)
    ensures Merge(false, log, m.entries) <= log
  {
    MergeCuts(log, m.entries);
  }

  // ----- the invariant -----

  /** The server has voted for nobody else in the term. */
  ghost predicate NoGrant(h: History, id: ServerId, term: nat) {
    forall b :: b in h.ballots && b.voter == id && b.term == term ==> b.candidate == id
  }

  /** Every vote given to another server is remembered; the own ones may be forgotten. */
  ghost predicate Recalls(h: History, id: ServerId, term: nat, vote: Option<ServerId>) {
    forall b :: b in h.ballots && b.voter == id && b.candidate != id
      ==> b.term < term || (b.term == term && vote == Some(b.candidate))
  }

  /** Every entry was appended by this server, in a term it won and in which it votes for nobody else. */
  ghost predicate Authored(h: History, id: ServerId, st: Stable) {
    forall e :: e in st.log && e.term > 0 ==>
      && Win(e.term, id) in h.wins && NoGrant(h, id, e.term)
      && e.term <= st.term && (e.term == st.term ==> st.votedFor == Some(id))
  }

  ghost predicate StableOk(h: History, id: ServerId, st: Stable) {
    Recalls(h, id, st.term, st.votedFor) && Authored(h, id, st) && Tidy(st.log)
  }

  ghost predicate RoleOk(servers: seq<ServerId>, h: History, n: Node) {
    Election.RoleOk(servers, h, n) && (n.state.Follower? || n.mem.term > 0)
  }

  ghost predicate NodeOk(f: Fixes, servers: seq<ServerId>, h: History, n: Node) {
    && StableOk(h, n.id, n.mem) && StableOk(h, n.id, n.disk)
    && (!f.keepsLog ==> n.disk.log == [SENTINEL])
    && RoleOk(servers, h, n)
  }

  ghost predicate PacketOk(servers: seq<ServerId>, h: History, p: Packet) {
    Election.PacketOk(servers, h, p) && (p.msg.AppendEntries? ==> EndsAt(p.msg.entries, p.msg.prevLogIndex))
  }

  ghost predicate OneGrantEach(h: History) {
    forall a, b :: a in h.ballots && b in h.ballots && a.voter == b.voter && a.term == b.term ==>
      a.candidate == a.voter || b.candidate == b.voter || a.candidate == b.candidate
  }

  ghost predicate HistoryOk(servers: seq<ServerId>, h: History) {
    OneGrantEach(h) && Election.WinsOk(servers, h)
  }

  ghost predicate Inv(f: Fixes, servers: seq<ServerId>, c: Cluster) {
    && Election.Placed(servers, c)
    && HistoryOk(servers, c.history)
    && (forall s :: s in c.nodes ==> NodeOk(f, servers, c.history, c.nodes[s]))
    && (forall p :: p in c.network ==> PacketOk(servers, c.history, p))
  }

  // ----- one server's step -----

  /** New votes, if any, are the server's own, for itself. */
  ghost predicate OnlySelfVotes(h: History, h': History, id: ServerId) {
    Election.Extends(h, h', id) && forall b :: b in h'.ballots && b !in h.ballots ==> b.candidate == id
  }

  lemma StableStays(h: History, h': History, id: ServerId, st: Stable)
    requires StableOk(h, id, st) && OnlySelfVotes(h, h', id)
    ensures StableOk(h', id, st)
  {
  }

  lemma OtherStays(f: Fixes, servers: seq<ServerId>, h: History, h': History, id: ServerId, n: Node)
    requires Election.Extends(h, h', id) && n.id != id && NodeOk(f, servers, h, n)
    ensures NodeOk(f, servers, h', n)
  {
    assert StableOk(h', n.id, n.mem) && StableOk(h', n.id, n.disk);
  }

  /** What is written: term and vote as in memory, and the log or the empty one. */
  lemma WrittenOk(h: History, id: ServerId, mem: Stable, log: seq<Entry>)
    requires StableOk(h, id, mem) && (log == mem.log || log == [SENTINEL])
    ensures StableOk(h, id, Stable(mem.term, mem.votedFor, log))
  {
  }

  ghost predicate StepOk(f: Fixes, servers: seq<ServerId>, h: History, n: Node, h': History, o: Outcome) {
    && HistoryOk(servers, h')
    && o.node.id == n.id && StableOk(h', n.id, o.node.mem)
    && RoleOk(servers, h', o.node)
    && Election.Extends(h, h', n.id)
    && (OnlySelfVotes(h, h', n.id) || Awaits.Waits(f, n, o))
    && (forall p :: p in o.out ==> PacketOk(servers, h', p))
  }

  lemma StepKeepsNode(f: Fixes, servers: seq<ServerId>, h: History, n: Node, h': History, o: Outcome)
    requires NodeOk(f, servers, h, n) && StepOk(f, servers, h, n, h', o)
    requires o.node.disk == if Awaits.Waits(f, n, o) then Awaits.Persisted(f, n, o) else n.disk
    ensures NodeOk(f, servers, h', o.node)
  {
    hide StableOk, Awaits.Waits;
    if Awaits.Waits(f, n, o) {
      WrittenOk(h', n.id, o.node.mem, o.node.disk.log);
    } else {
      StableStays(h, h', n.id, n.disk);
    }
  }

  lemma BumpOk(servers: seq<ServerId>, h: History, n: Node, m: Message)
    requires StableOk(h, n.id, n.mem) && RoleOk(servers, h, n)
    ensures var b := Bump(n, m);
      && StableOk(h, n.id, b.mem) && RoleOk(servers, h, b) && b.id == n.id && b.disk == n.disk
      && b.mem.log == n.mem.log && b.mem.term >= m.term && (m.term <= n.mem.term ==> b == n)
  {
  }

  /** Term and vote as before, the log cut or as before, no election. */
  ghost predicate Quiet(n: Node, n': Node) {
    && n'.id == n.id && n'.mem.term == n.mem.term && n'.mem.votedFor == n.mem.votedFor && n'.mem.log <= n.mem.log
    && (n'.state.Candidate? ==> n'.state == n.state)
    && (n'.state.Leader? ==> n.state.Leader?)
  }

  lemma PacketStays(servers: seq<ServerId>, h: History, h': History, id: ServerId, p: Packet)
    requires Election.Extends(h, h', id) && PacketOk(servers, h, p)
    ensures PacketOk(servers, h', p)
  {
  }

  lemma WinsStay(servers: seq<ServerId>, h: History, h': History)
    requires Election.WinsOk(servers, h) && h'.wins == h.wins && forall b :: b in h.ballots ==> b in h'.ballots
    ensures Election.WinsOk(servers, h')
  {
    forall w | w in h'.wins ensures Election.WinOk(servers, h', w) {
      assert Election.WinOk(servers, h, w);
    }
  }

  lemma QuietOk(f: Fixes, servers: seq<ServerId>, h: History, n: Node, h': History, o: Outcome)
    requires HistoryOk(servers, h) && StableOk(h, n.id, n.mem) && RoleOk(servers, h, n) && Quiet(n, o.node)
    requires h'.ballots == h.ballots && h'.wins == h.wins && Election.Extends(h, h', n.id)
    requires forall p :: p in o.out ==> PacketOk(servers, h', p)
    ensures StepOk(f, servers, h, n, h', o)
  {
    WinsStay(servers, h, h');
    assert forall e :: e in o.node.mem.log ==> e in n.mem.log;
  }

  // ----- elections -----

  /** A candidate or new leader with the votes it has. */
  lemma StandingOk(f: Fixes, servers: seq<ServerId>, h: History, h1: History, n: Node, o: Outcome,
                   quorum: set<ServerId>)
    requires OnlySelfVotes(h, h1, n.id) && HistoryOk(servers, h1)
    requires o.node.id == n.id && StableOk(h1, n.id, o.node.mem)
    requires quorum <= Members(servers) && Election.VotedFor(h1, quorum, o.node.mem.term, n.id)
    requires o.node.state == Candidate(quorum) || (o.node.state.Leader? && IsMajority(servers, quorum))
    requires o.node.mem.term > 0 && (n.state.Leader? ==> n.mem.term != o.node.mem.term)
    requires forall p :: p in o.out ==> PacketOk(servers, h1, p)
    ensures StepOk(f, servers, h, n, RecordReign(h1, n, o.node, quorum), o)
  {
    hide StableOk, PacketOk;
    Election.ReignEffect(servers, h1, n, o.node, quorum);
    var h' := RecordReign(h1, n, o.node, quorum);
    StableStays(h1, h', n.id, o.node.mem);
    forall p | p in o.out ensures PacketOk(servers, h', p) {
      PacketStays(servers, h1, h', n.id, p);
    }
  }

  lemma SendPackets(f: Fixes, servers: seq<ServerId>, h: History, n: Node)
    requires CutsOnly(f) && n.state.Leader? && n.id in servers && Tidy(n.mem.log)
    ensures forall p :: p in SendAppendEntries(f, servers, n).out ==> PacketOk(servers, h, p)
    ensures SendAppendEntries(f, servers, n).node.(disk := n.disk) == n
  {
    hide Tidy, EndsAt, SliceFrom;
    forall p | p in SendAppendEntries(f, servers, n).out ensures PacketOk(servers, h, p) {
      SliceEndsAt(n.mem.log, if p.dst in n.state.nextIndex then n.state.nextIndex[p.dst] else NotANumber);
    }
  }

  lemma LeadPackets(f: Fixes, servers: seq<ServerId>, h: History, n: Node)
    requires CutsOnly(f) && n.id in servers && Tidy(n.mem.log)
    ensures var o := BecomeLeader(f, servers, n);
      && (forall p :: p in o.out ==> PacketOk(servers, h, p))
      && o.node.state.Leader? && o.node.(disk := n.disk, state := n.state) == n
  {
    hide PacketOk, SendAppendEntries;
    var keys := IndexKeys(f, Peers(servers, n.id));
    SendPackets(f, servers, h, n.(state := Leader(map k | k in keys :: Num(|n.mem.log|), FreshTable(keys))));
  }

  lemma StartShape(f: Fixes, servers: seq<ServerId>, h: History, n: Node)
    requires CutsOnly(f) && n.id in servers && Tidy(n.mem.log)
    ensures var o := StartElection(f, servers, n);
      && o.node.id == n.id && o.node.mem == Stable(n.mem.term + 1, Some(n.id), n.mem.log)
      && (o.node.state == Candidate({n.id}) || (o.node.state.Leader? && IsMajority(servers, {n.id})))
      && (forall p :: p in o.out ==> PacketOk(servers, h, p))
  {
    hide BecomeLeader;
    LeadPackets(f, servers, h, Stand(f, n));
  }

  lemma TimeoutOk(f: Fixes, servers: seq<ServerId>, h: History, n: Node)
    requires CutsOnly(f) && n.id in servers && HistoryOk(servers, h) && StableOk(h, n.id, n.mem)
    ensures var o := StartElection(f, servers, n);
      StepOk(f, servers, h, n, RecordReign(RecordCandidacy(h, n, o.node), n, o.node, {n.id}), o)
  {
    hide PacketOk, StartElection;
    var o := StartElection(f, servers, n);
    var h1 := RecordCandidacy(h, n, o.node);
    StartShape(f, servers, h1, n);
    WinsStay(servers, h, h1);
    StableStays(h, h1, n.id, n.mem);
    StandingOk(f, servers, h, h1, n, o, {n.id});
  }

  lemma VoteOk(f: Fixes, servers: seq<ServerId>, h: History, n: Node, p: Packet)
    requires CutsOnly(f) && n.state.Candidate? && n.id in servers && p.dst == n.id && p.msg.VoteResponse?
    requires HistoryOk(servers, h) && StableOk(h, n.id, n.mem) && RoleOk(servers, h, n)
    requires PacketOk(servers, h, p)
    ensures var o := OnVoteResponse(f, servers, n, p.src, p.msg);
      StepOk(f, servers, h, n, RecordReign(h, n, o.node, n.state.votes + {p.src}), o)
  {
    hide StableOk, BecomeLeader;
    var o := OnVoteResponse(f, servers, n, p.src, p.msg);
    if !p.msg.voteGranted || p.msg.term != n.mem.term {
      QuietOk(f, servers, h, n, h, o);
    } else {
      var votes := n.state.votes + {p.src};
      TidyMem(h, n.id, n.mem);
      LeadPackets(f, servers, h, n.(state := Candidate(votes)));
      StandingOk(f, servers, h, h, n, o, votes);
    }
  }

  lemma TidyMem(h: History, id: ServerId, st: Stable)
    requires StableOk(h, id, st)
    ensures Tidy(st.log)
  {
  }

  // ----- votes given -----

  lemma GrantShape(f: Fixes, h: History, n: Node, p: Packet)
    requires CutsOnly(f) && n.state.Follower? && p.msg.RequestVote? && p.msg.candidateId == p.src
    requires n.mem.term >= p.msg.term
    ensures var o := OnRequestVote(f, n, p.src, p.msg);
      var cast, h', granted := Cast(n.id, n.mem.term, p.src), RecordGrant(h, o.node, o.out), GrantsVote(f, n, p.msg);
      && o.out == [Packet(n.id, p.src, VoteResponse(n.mem.term, granted))]
      && o.node.id == n.id && o.node.state == n.state && Awaits.Waits(f, n, o)
      && o.node.mem == (if granted then n.mem.(votedFor := Some(p.src)) else n.mem)
      && (granted ==> n.mem.votedFor == None || n.mem.votedFor == Some(p.src))
      && h' == if granted && cast !in h.ballots then h.(ballots := h.ballots[cast := n.mem.log]) else h
  {
  }

  lemma NewGrant(servers: seq<ServerId>, h: History, n: Node, candidate: ServerId, log: seq<Entry>, h': History)
    requires HistoryOk(servers, h) && StableOk(h, n.id, n.mem)
    requires n.mem.votedFor == None || n.mem.votedFor == Some(candidate)
    requires h'.ballots == h.ballots[Cast(n.id, n.mem.term, candidate) := log] && h'.wins == h.wins
    ensures HistoryOk(servers, h') && StableOk(h', n.id, n.mem.(votedFor := Some(candidate)))
  {
    WinsStay(servers, h, h');
  }

  lemma VoteAgain(h: History, n: Node, candidate: ServerId)
    requires StableOk(h, n.id, n.mem) && Cast(n.id, n.mem.term, candidate) in h.ballots
    requires n.mem.votedFor == None || n.mem.votedFor == Some(candidate)
    ensures StableOk(h, n.id, n.mem.(votedFor := Some(candidate)))
  {
  }

  lemma GrantOk(f: Fixes, servers: seq<ServerId>, h: History, n: Node, p: Packet)
    requires CutsOnly(f) && n.id in servers && n.state.Follower? && p.msg.RequestVote? && n.mem.term >= p.msg.term
    requires HistoryOk(servers, h) && StableOk(h, n.id, n.mem) && RoleOk(servers, h, n)
    requires PacketOk(servers, h, p)
    ensures var o := OnRequestVote(f, n, p.src, p.msg); StepOk(f, servers, h, n, RecordGrant(h, o.node, o.out), o)
  {
    hide HistoryOk, StableOk, OnRequestVote, RecordGrant, GrantsVote, Awaits.Waits;
    var o := OnRequestVote(f, n, p.src, p.msg);
    var h' := RecordGrant(h, o.node, o.out);
    GrantShape(f, h, n, p);
    if h' != h {
      NewGrant(servers, h, n, p.src, n.mem.log, h');
    } else if GrantsVote(f, n, p.msg) {
      VoteAgain(h, n, p.src);
    }
  }

  // ----- the other events -----

  lemma AppendOk(f: Fixes, servers: seq<ServerId>, h: History, n: Node, p: Packet)
    requires CutsOnly(f) && n.id in servers && n.state.Follower? && p.msg.AppendEntries?
    requires HistoryOk(servers, h) && StableOk(h, n.id, n.mem) && RoleOk(servers, h, n)
    requires PacketOk(servers, h, p)
    ensures var o := OnAppendEntries(f, n, p.src, p.msg); StepOk(f, servers, h, n, RecordCopy(h, o.node, o.out), o)
  {
    hide HistoryOk, StableOk, Merge, EndsAt, Matches, FollowerCommit;
    var o := OnAppendEntries(f, n, p.src, p.msg);
    if p.msg.term >= n.mem.term && Matches(n.mem.log, p.msg) {
      AcceptedCuts(n.mem.log, p.msg);
    }
    QuietOk(f, servers, h, n, RecordCopy(h, o.node, o.out), o);
  }

  lemma DeliverOk(f: Fixes, servers: seq<ServerId>, h: History, n: Node, p: Packet)
    requires CutsOnly(f) && n.id in servers && p.dst == n.id
    requires HistoryOk(servers, h) && StableOk(h, n.id, n.mem) && RoleOk(servers, h, n)
    requires PacketOk(servers, h, p)
    ensures var o := Receive(f, servers, n, p.src, p.msg);
      StepOk(f, servers, h, n, Record(h, n, Deliver(p), o), o)
  {
    hide HistoryOk, StableOk, OnRequestVote, OnAppendEntries, OnVoteResponse, EndsAt, OnAppendResponse;
    var b := Bump(n, p.msg);
    BumpOk(servers, h, n, p.msg);
    var o := Receive(f, servers, n, p.src, p.msg);
    if b.state.Follower? && p.msg.RequestVote? {
      GrantOk(f, servers, h, b, p);
    } else if b.state.Follower? && p.msg.AppendEntries? {
      AppendOk(f, servers, h, b, p);
    } else if b.state.Candidate? && p.msg.VoteResponse? {
      VoteOk(f, servers, h, b, p);
    } else {
      OtherwiseQuiet(f, servers, b, p.src, p.msg);
      QuietOk(f, servers, h, b, h, o);
    }
    SameStep(f, servers, h, n, b, Record(h, n, Deliver(p), o), o);
  }

  lemma SameStep(f: Fixes, servers: seq<ServerId>, h: History, n: Node, b: Node, h': History, o: Outcome)
    requires StepOk(f, servers, h, b, h', o) && b.id == n.id && b.disk == n.disk
    ensures StepOk(f, servers, h, n, h', o)
  {
  }

  lemma OtherwiseQuiet(f: Fixes, servers: seq<ServerId>, n: Node, src: ServerId, m: Message)
    requires !(n.state.Follower? && (m.RequestVote? || m.AppendEntries?)) && !(n.state.Candidate? && m.VoteResponse?)
    ensures var o := Dispatch(f, servers, n, src, m); Quiet(n, o.node) && o.out == []
  {
  }

  /** A leader appends an entry of its term. */
  lemma AuthorOk(servers: seq<ServerId>, h: History, n: Node, command: Bytes)
    requires StableOk(h, n.id, n.mem) && RoleOk(servers, h, n) && n.state.Leader? && n.mem.votedFor == Some(n.id)
    ensures StableOk(h, n.id, n.mem.(log := n.mem.log + [Entry(command, |n.mem.log|, n.mem.term)]))
  {
  }

  lemma RequestOk(f: Fixes, servers: seq<ServerId>, h: History, n: Node, command: Bytes)
    requires CutsOnly(f) && n.id in servers && HistoryOk(servers, h) && NodeOk(f, servers, h, n)
    requires Durability.SelfVoted(n)
    ensures var o := ClientRequest(f, servers, n, command);
      StepOk(f, servers, h, n, RecordReign(h, n, o.node, {}), o)
  {
    hide HistoryOk, StableOk, SendAppendEntries;
    var o := ClientRequest(f, servers, n, command);
    var h' := RecordReign(h, n, o.node, {});
    if n.state.Leader? {
      var n1 := n.(mem := n.mem.(log := n.mem.log + [Entry(command, |n.mem.log|, n.mem.term)]));
      AuthorOk(servers, h, n, command);
      TidyMem(h, n.id, n1.mem);
      SendPackets(f, servers, h', n1);
      ReignGrows(servers, h, n, o.node);
      StableStays(h, h', n.id, n1.mem);
    } else {
      QuietOk(f, servers, h, n, h', o);
    }
  }

  lemma ReignGrows(servers: seq<ServerId>, h: History, n: Node, n': Node)
    requires HistoryOk(servers, h) && RoleOk(servers, h, n) && n.state.Leader? && n'.id == n.id
    requires n'.state == n.state && n'.mem.term == n.mem.term
    ensures var h' := RecordReign(h, n, n', {});
      HistoryOk(servers, h') && OnlySelfVotes(h, h', n.id) && RoleOk(servers, h', n')
  {
    WinsStay(servers, h, RecordReign(h, n, n', {}));
  }

  lemma BeatOk(f: Fixes, servers: seq<ServerId>, h: History, n: Node)
    requires CutsOnly(f) && n.id in servers && n.state.Leader? && HistoryOk(servers, h) && NodeOk(f, servers, h, n)
    ensures StepOk(f, servers, h, n, h, SendAppendEntries(f, servers, n))
  {
    hide HistoryOk, StableOk, SendAppendEntries;
    TidyMem(h, n.id, n.mem);
    SendPackets(f, servers, h, n);
    QuietOk(f, servers, h, n, h, SendAppendEntries(f, servers, n));
  }

  lemma RestartOk(f: Fixes, servers: seq<ServerId>, h: History, n: Node)
    requires CutsOnly(f) && NodeOk(f, servers, h, n)
    ensures NodeOk(f, servers, h, Restart(f, n))
  {
  }

  lemma EventOk(f: Fixes, servers: seq<ServerId>, h: History, n: Node, e: Event)
    requires CutsOnly(f) && n.id in servers && HistoryOk(servers, h) && NodeOk(f, servers, h, n)
    requires Durability.SelfVoted(n) && !e.Restarted?
    requires e.Heartbeat? ==> n.state.Leader?
    requires e.Apply? ==> CanApply(n)
    requires e.Deliver? ==> e.packet.dst == n.id && PacketOk(servers, h, e.packet)
    ensures var o := React(f, servers, n, e); StepOk(f, servers, h, n, Record(h, n, e, o), o)
  {
    hide HistoryOk, StableOk, StepOk, PacketOk, Durability.SelfVoted, RecordReign, RecordCandidacy;
    match e
    case Timeout(_) => TimeoutOk(f, servers, h, n);
    case Deliver(p) => DeliverOk(f, servers, h, n, p);
    case Heartbeat(_) => BeatOk(f, servers, h, n);
    case Request(_, command) => RequestOk(f, servers, h, n, command);
    case Apply(_) => QuietOk(f, servers, h, n, RecordApplied(h, n), Outcome(ApplyNext(n), []));
  }

  /** Every event of every server keeps the invariant. */
  lemma {:induction false} StepKeepsInv(f: Fixes, servers: seq<ServerId>, c: Cluster, e: Event)
    requires CutsOnly(f) && Inv(f, servers, c) && forall s :: s in c.nodes ==> Durability.SelfVoted(c.nodes[s])
    ensures Inv(f, servers, Step(f, servers, c, e))
  {
    hide HistoryOk, NodeOk, PacketOk, React, Record, Durability.SelfVoted, StepOk;
    if Enabled(c, e) {
      var n, c' := c.nodes[Actor(e)], Step(f, servers, c, e);
      EnabledFacts(c, e);
      if e.Restarted? {
        Awaits.RestartedIs(f, servers, c.history, n, e);
        RestartOk(f, servers, c.history, n);
      } else {
        var o := React(f, servers, n, e);
        EventOk(f, servers, c.history, n, e);
        Awaits.ReactDisk(f, servers, n, e);
        StepKeepsNode(f, servers, c.history, n, c'.history, o);
        StepGives(f, servers, c.history, n, c'.history, o);
        forall s | s in c'.nodes && s != n.id ensures NodeOk(f, servers, c'.history, c'.nodes[s]) {
          OtherStays(f, servers, c.history, c'.history, n.id, c.nodes[s]);
        }
        forall p | p in c'.network ensures PacketOk(servers, c'.history, p) {
          if p in c.network {
            PacketStays(servers, c.history, c'.history, n.id, p);
          }
        }
      }
    }
  }

  lemma StepGives(f: Fixes, servers: seq<ServerId>, h: History, n: Node, h': History, o: Outcome)
    requires StepOk(f, servers, h, n, h', o)
    ensures HistoryOk(servers, h') && Election.Extends(h, h', n.id) && o.node.id == n.id
    ensures forall p :: p in o.out ==> PacketOk(servers, h', p)
  {
  }

  lemma {:induction false} RunKeepsInv(f: Fixes, servers: seq<ServerId>, events: seq<Event>)
    requires CutsOnly(f) && Distinct(servers)
    ensures Inv(f, servers, Run(f, servers, events))
  {
    hide Step, Inv, Durability.SelfVoted;
    if events == [] {
      StartIsOk(f, servers);
    } else {
      var init, e := events[..|events| - 1], events[|events| - 1];
      RunKeepsInv(f, servers, init);
      forall s | s in Run(f, servers, init).nodes ensures Durability.SelfVoted(Run(f, servers, init).nodes[s]) {
        Durability.CandidatesVoteForThemselves(f, servers, init, s);
      }
      StepKeepsInv(f, servers, Run(f, servers, init), e);
    }
  }

  lemma StartIsOk(f: Fixes, servers: seq<ServerId>)
    requires Distinct(servers)
    ensures Inv(f, servers, Start(servers))
  {
    var c := Start(servers);
    assert forall s :: s in c.nodes ==> NodeOk(f, servers, c.history, c.nodes[s]);
  }

  // ----- what follows -----

  /** No two servers hold entries of one term. */
  lemma SoleAuthor(servers: seq<ServerId>, h: History, s: ServerId, t: ServerId, a: Entry, b: Entry, mem: Stable,
                   mem': Stable)
    requires Distinct(servers) && HistoryOk(servers, h) && StableOk(h, s, mem) && StableOk(h, t, mem')
    requires a in mem.log && b in mem'.log && a.term == b.term > 0
    ensures s == t
  {
    var v, w := Win(a.term, s), Win(b.term, t);
    assert Election.WinOk(servers, h, v) && Election.WinOk(servers, h, w);
    var k := Election.QuorumsMeet(servers, h.wins[v], h.wins[w]);
    assert Cast(k, a.term, s) in h.ballots && Cast(k, b.term, t) in h.ballots;
    assert NoGrant(h, s, a.term) && NoGrant(h, t, b.term);
  }

  lemma InvGivesMatching(f: Fixes, servers: seq<ServerId>, c: Cluster)
    requires Inv(f, servers, c)
    ensures LogsMatch(c)
  {
    hide HistoryOk, StableOk, PacketOk;
    forall s, t, i | s in c.nodes && t in c.nodes && 0 <= i < |c.nodes[s].mem.log| && i < |c.nodes[t].mem.log|
        && c.nodes[s].mem.log[i].term == c.nodes[t].mem.log[i].term
      ensures c.nodes[s].mem.log[..i + 1] == c.nodes[t].mem.log[..i + 1]
    {
      var x, y := c.nodes[s], c.nodes[t];
      assert NodeOk(f, servers, c.history, x) && NodeOk(f, servers, c.history, y);
      if x.mem.log[i].term > 0 {
        SoleAuthor(servers, c.history, s, t, x.mem.log[i], y.mem.log[i], x.mem, y.mem);
      } else {
        TidyMem(c.history, s, x.mem);
        TidyMem(c.history, t, y.mem);
      }
    }
  }

  /** Requests and merge as written: no write before requests is needed for Log Matching. */
  lemma {:induction false} LogMatching(f: Fixes, servers: seq<ServerId>, events: seq<Event>)
    requires CutsOnly(f) && Distinct(servers)
    ensures LogsMatch(Run(f, servers, events))
  {
    hide Run, Inv, LogsMatch;
    RunKeepsInv(f, servers, events);
    InvGivesMatching(f, servers, Run(f, servers, events));
  }
}
