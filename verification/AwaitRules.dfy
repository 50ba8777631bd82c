/** What may happen to a server while its handlers wait for their writes, field by field: when its
    memory changes, when its files do, when a packet leaves, and what its in-sync flags say. Like
    Rules these leave nothing open: they are met by what a move of Awaits does, and by nothing
    else. */
module AwaitRules {
  import opened RaftTypes
  import opened Nodes
  import opened Clusters
  import opened Awaits
  import Rules

  // ----- which moves are possible -----

  function Mover(m: Move): ServerId {
    if m.Handle? then Actor(m.event) else m.server
  }

  ghost predicate Alive(a: Async, s: ServerId) {
    s in a.cluster.nodes && s in a.waiting && s in a.inSync
  }

  ghost predicate Batched(a: Async, m: Move)
    requires Alive(a, Mover(m))
  {
    (m.Write? || m.Fail? || m.Send?) && m.batch < |a.waiting[m.server]|
  }

  /** How many of its files a batch has been through. */
  ghost predicate Through(a: Async, m: Move, files: nat)
    requires Alive(a, Mover(m))
  {
    Batched(a, m) && a.waiting[m.server][m.batch].files == files
  }

  ghost predicate Handles(p: Policy, a: Async, m: Move)
    requires Alive(a, Mover(m))
  {
    && m.Handle? && Enabled(a.cluster, m.event) && !m.event.Restarted?
    && (p.serial ==> m.event.Apply? || a.waiting[Mover(m)] == [])
  }

  /** The log is written first, the term and the vote in the order of the policy. */
  ghost predicate Reaches(p: Policy, a: Async, m: Move, file: File)
    requires Alive(a, Mover(m))
  {
    match file
    case LogFile => Through(a, m, 0)
    case TermFile => Through(a, m, if p.termFirst then 1 else 2)
    case VoteFile => Through(a, m, if p.termFirst then 2 else 1)
  }

  /** A write is really made: of the log always, of a value when its flag is down. */
  ghost predicate Writes(p: Policy, a: Async, m: Move, file: File)
    requires Alive(a, Mover(m))
  {
    m.Write? && Reaches(p, a, m, file) && match file
      case LogFile => true
      case TermFile => !a.inSync[m.server].term
      case VoteFile => !a.inSync[m.server].vote
  }

  /** A write can fail that would really be made, and so can the send. */
  ghost predicate Fails(p: Policy, a: Async, m: Move)
    requires Alive(a, Mover(m))
  {
    m.Fail? && Batched(a, m) &&
    (|| (Reaches(p, a, m, LogFile) && p.fixes.keepsLog)
     || (Reaches(p, a, m, TermFile) && !a.inSync[m.server].term)
     || (Reaches(p, a, m, VoteFile) && !a.inSync[m.server].vote)
     || a.waiting[m.server][m.batch].files > 2)
  }

  // ----- the rules -----

  /** What a handler wants to send waits for the writes when it answers, when requests are
      written first, too, or when the disk is to change. */
  ghost predicate HasToWait(f: Fixes, n: Node, o: Outcome) {
    || o.node.disk != n.disk
    || (o.out != [] && (f.persistsFirst || o.out[0].msg.VoteResponse? || o.out[0].msg.AppendResponse?))
  }

  /** The vote is set with every new term, and by a grant that is stored. */
  ghost predicate VoteIsSet(f: Fixes, n: Node, o: Outcome) {
    || o.node.mem.term != n.mem.term
    || (f.recordsGrant && exists x :: x in o.out && x.msg.VoteResponse? && x.msg.voteGranted)
  }

  /** Memory is changed by handlers, and lost in a crash. */
  ghost predicate Memory(p: Policy, servers: seq<ServerId>, a: Async, m: Move, n': Node)
    requires Alive(a, Mover(m))
  {
    var n := a.cluster.nodes[Mover(m)];
    n'.(disk := n.disk) ==
      if Handles(p, a, m) then React(p.fixes, servers, n, m.event).node.(disk := n.disk)
      else if m.Crash? then Restart(p.fixes, n)
      else n
  }

  /** A file takes the value of that moment, when it is written. */
  ghost predicate Files(p: Policy, a: Async, m: Move, n': Node)
    requires Alive(a, Mover(m))
  {
    var n := a.cluster.nodes[Mover(m)];
    && n'.disk.log == (if Writes(p, a, m, LogFile) && p.fixes.keepsLog then n.mem.log else n.disk.log)
    && n'.disk.term == (if Writes(p, a, m, TermFile) then n.mem.term else n.disk.term)
    && n'.disk.votedFor == (if Writes(p, a, m, VoteFile) then n.mem.votedFor else n.disk.votedFor)
  }

  /** A flag falls when the value is set, and goes up when it is read back or written; also when
      the write fails, unless the callback checks. */
  ghost predicate FlagsSay(p: Policy, servers: seq<ServerId>, a: Async, m: Move, flags: Flags)
    requires Alive(a, Mover(m))
  {
    var n, before := a.cluster.nodes[Mover(m)], a.inSync[Mover(m)];
    var raises := (file: File) requires Alive(a, Mover(m)) =>
      Writes(p, a, m, file) || (!p.checked && Fails(p, a, m) && Reaches(p, a, m, file));
    if Handles(p, a, m) then
      var o := React(p.fixes, servers, n, m.event);
      && flags.term == (before.term && o.node.mem.term == n.mem.term)
      && flags.vote == (before.vote && !VoteIsSet(p.fixes, n, o))
    else if m.Crash? then flags.term && flags.vote == p.fixes.reloadsVote
    else flags.term == (before.term || raises(TermFile)) && flags.vote == (before.vote || raises(VoteFile))
  }

  /** The batch is through one more file after the write, made or not. */
  ghost predicate Advances(a: Async, m: Move)
    requires Alive(a, Mover(m))
  {
    m.Write? && Batched(a, m) && a.waiting[m.server][m.batch].files < 3
  }

  ghost predicate Goes(p: Policy, a: Async, m: Move)
    requires Alive(a, Mover(m))
  {
    Fails(p, a, m) || (m.Send? && Through(a, m, 3))
  }

  /** A handler's packets join the queue if they have to wait, advance with the writes, and go
      when they are sent, or something fails, or in a crash. */
  ghost predicate Queue(p: Policy, servers: seq<ServerId>, a: Async, m: Move, queue: seq<Batch>)
    requires Alive(a, Mover(m))
  {
    var n, before := a.cluster.nodes[Mover(m)], a.waiting[Mover(m)];
    && (Handles(p, a, m) ==>
          var o := React(p.fixes, servers, n, m.event);
          queue == if HasToWait(p.fixes, n, o) then before + [Batch(o.out, 0)] else before)
    && (m.Crash? ==> queue == [])
    && (Advances(a, m) ==>
          && |queue| == |before| && queue[m.batch] == Batch(before[m.batch].out, before[m.batch].files + 1)
          && forall i :: 0 <= i < |queue| && i != m.batch ==> queue[i] == before[i])
    && (Goes(p, a, m) ==> queue == before[..m.batch] + before[m.batch + 1..])
    && (Handles(p, a, m) || m.Crash? || Advances(a, m) || Goes(p, a, m) || queue == before)
  }

  /** A packet leaves with its handler, or after all three files. */
  ghost predicate Leaves(p: Policy, servers: seq<ServerId>, a: Async, m: Move, x: Packet)
    requires Alive(a, Mover(m))
  {
    var n := a.cluster.nodes[Mover(m)];
    if Handles(p, a, m) then
      var o := React(p.fixes, servers, n, m.event);
      x in o.out && !HasToWait(p.fixes, n, o)
    else m.Send? && Through(a, m, 3) && x in a.waiting[m.server][m.batch].out
  }

  ghost predicate Moves(p: Policy, servers: seq<ServerId>, a: Async, m: Move, a': Async) {
    var s := Mover(m);
    && a'.cluster.nodes.Keys == a.cluster.nodes.Keys
    && a'.waiting.Keys == a.waiting.Keys && a'.inSync.Keys == a.inSync.Keys
    && (forall t :: t in a.cluster.nodes && t != s ==> a'.cluster.nodes[t] == a.cluster.nodes[t])
    && (forall t :: t in a.waiting && t != s ==> a'.waiting[t] == a.waiting[t])
    && (forall t :: t in a.inSync && t != s ==> a'.inSync[t] == a.inSync[t])
    && if !Alive(a, s) then a' == a
       else
         && Memory(p, servers, a, m, a'.cluster.nodes[s]) && Files(p, a, m, a'.cluster.nodes[s])
         && Queue(p, servers, a, m, a'.waiting[s]) && FlagsSay(p, servers, a, m, a'.inSync[s])
         && (forall x :: x in a'.cluster.network <==> x in a.cluster.network || Leaves(p, servers, a, m, x))
         && a'.cluster.history == if Handles(p, a, m) then
              var n := a.cluster.nodes[s]; Record(a.cluster.history, n, m.event, React(p.fixes, servers, n, m.event))
            else a.cluster.history
  }

  // ----- every move meets them, and nothing else does -----

  /** A grant is sent alone. */
  lemma VoteIsSetIff(f: Fixes, servers: seq<ServerId>, n: Node, e: Event)
    requires e.Heartbeat? ==> n.state.Leader?
    requires e.Apply? ==> CanApply(n)
    ensures var o := React(f, servers, n, e); VoteIsSet(f, n, o) <==> SetsVote(f, n, o)
  {
    hide Rules.Updates, Rules.LeaderCommits, Rules.TakesOffice, React;
    var o := React(f, servers, n, e);
    Rules.StepIff(f, servers, n, e, o);
    if x :| x in o.out && x.msg.VoteResponse? && x.msg.voteGranted {
      assert |o.out| == 1;
    }
  }

  lemma CrashMet(p: Policy, servers: seq<ServerId>, a: Async, m: Move)
    requires Alive(a, Mover(m)) && m.Crash?
    ensures Moves(p, servers, a, m, Take(p, servers, a, m))
  {
    hide React, Record;
  }

  lemma HandleMet(p: Policy, servers: seq<ServerId>, a: Async, m: Move)
    requires Alive(a, Mover(m)) && m.Handle?
    ensures Moves(p, servers, a, m, Take(p, servers, a, m))
  {
    hide React, Record, Enabled, SetsVote, VoteIsSet;
    if Handles(p, a, m) {
      EnabledFacts(a.cluster, m.event);
      VoteIsSetIff(p.fixes, servers, a.cluster.nodes[Mover(m)], m.event);
    }
  }

  lemma FileWritten(p: Policy, a: Async, m: Move, file: File)
    requires Alive(a, Mover(m)) && m.Write? && Reaches(p, a, m, file)
    ensures Advances(a, m) && FileAt(p, a.waiting[m.server][m.batch].files) == file
    ensures Writes(p, a, m, file) <==> !Skips(a.inSync[m.server], file)
    ensures forall other :: other != file ==> !Reaches(p, a, m, other)
  {
  }

  /** The next file is written, or skipped. */
  lemma WriteOf(p: Policy, servers: seq<ServerId>, a: Async, m: Move, file: File)
    requires Alive(a, Mover(m)) && m.Write? && Reaches(p, a, m, file)
    ensures Moves(p, servers, a, m, Take(p, servers, a, m))
  {
    hide React, Record, Reaches, HandleEvent, FileAt, Enabled, Restart;
    FileWritten(p, a, m, file);
  }

  lemma WriteMet(p: Policy, servers: seq<ServerId>, a: Async, m: Move)
    requires Alive(a, Mover(m)) && m.Write?
    ensures Moves(p, servers, a, m, Take(p, servers, a, m))
  {
    if Advances(a, m) {
      hide Moves, Take;
      WriteOf(p, servers, a, m, FileAt(p, a.waiting[m.server][m.batch].files));
    } else {
      hide React, Record, WriteNext, HandleEvent, Enabled, Restart;
    }
  }

  lemma FailMet(p: Policy, servers: seq<ServerId>, a: Async, m: Move)
    requires Alive(a, Mover(m)) && m.Fail?
    ensures Moves(p, servers, a, m, Take(p, servers, a, m))
  {
    hide React, Record;
  }

  lemma SendMet(p: Policy, servers: seq<ServerId>, a: Async, m: Move)
    requires Alive(a, Mover(m)) && m.Send?
    ensures Moves(p, servers, a, m, Take(p, servers, a, m))
  {
    hide React, Record;
  }

  lemma SameNode(p: Policy, servers: seq<ServerId>, a: Async, m: Move, b: Node, c: Node)
    requires Alive(a, Mover(m))
    requires Memory(p, servers, a, m, b) && Files(p, a, m, b) && Memory(p, servers, a, m, c) && Files(p, a, m, c)
    ensures b == c
  {
    hide Handles, Writes, React, Restart;
    var n := a.cluster.nodes[Mover(m)];
    assert b.(disk := n.disk) == c.(disk := n.disk);
  }

  lemma SameQueue(p: Policy, servers: seq<ServerId>, a: Async, m: Move, b: seq<Batch>, c: seq<Batch>)
    requires Alive(a, Mover(m)) && Queue(p, servers, a, m, b) && Queue(p, servers, a, m, c)
    ensures b == c
  {
    hide Handles, Goes, React, HasToWait;
  }

  lemma SameFlags(p: Policy, servers: seq<ServerId>, a: Async, m: Move, b: Flags, c: Flags)
    requires Alive(a, Mover(m)) && FlagsSay(p, servers, a, m, b) && FlagsSay(p, servers, a, m, c)
    ensures b == c
  {
    hide Handles, Writes, Fails, Reaches, React, VoteIsSet;
  }

  lemma SameAsync(p: Policy, servers: seq<ServerId>, a: Async, m: Move, b: Async, c: Async)
    requires Moves(p, servers, a, m, b) && Moves(p, servers, a, m, c)
    ensures b == c
  {
    hide Memory, Files, Queue, FlagsSay, Leaves, Handles, React, Record;
    if Alive(a, Mover(m)) {
      var s := Mover(m);
      SameNode(p, servers, a, m, b.cluster.nodes[s], c.cluster.nodes[s]);
      SameQueue(p, servers, a, m, b.waiting[s], c.waiting[s]);
      SameFlags(p, servers, a, m, b.inSync[s], c.inSync[s]);
      assert b.cluster.nodes == c.cluster.nodes && b.waiting == c.waiting && b.inSync == c.inSync;
      assert b.cluster.network == c.cluster.network;
    }
  }

  /** Under every policy, from every state: what a move does is the one thing that meets the
      rules. */
  lemma MoveIff(p: Policy, servers: seq<ServerId>, a: Async, m: Move, a': Async)
    ensures a' == Take(p, servers, a, m) <==> Moves(p, servers, a, m, a')
  {
    hide Moves, Take;
    var taken := Take(p, servers, a, m);
    if Alive(a, Mover(m)) {
      match m
      case Handle(_) => HandleMet(p, servers, a, m);
      case Write(_, _) => WriteMet(p, servers, a, m);
      case Fail(_, _) => FailMet(p, servers, a, m);
      case Send(_, _) => SendMet(p, servers, a, m);
      case Crash(_) => CrashMet(p, servers, a, m);
    } else {
      NobodyMoves(p, servers, a, m);
    }
    if Moves(p, servers, a, m, a') {
      SameAsync(p, servers, a, m, a', taken);
    }
  }

  lemma NobodyMoves(p: Policy, servers: seq<ServerId>, a: Async, m: Move)
    requires !Alive(a, Mover(m))
    ensures Moves(p, servers, a, m, Take(p, servers, a, m))
  {
    hide React, Record;
  }

  /** At first boot nothing is under way, the term has been read, and the vote if it ever is. */
  lemma BeginsAtRest(p: Policy, servers: seq<ServerId>, s: ServerId)
    ensures var a := Begin(p, servers);
      && (Alive(a, s) <==> s in servers) && a.cluster.network == {} && a.cluster.history.wins == map[]
      && (s in servers ==>
            && a.cluster.nodes[s].mem == a.cluster.nodes[s].disk == Stable(0, None, [SENTINEL])
            && a.cluster.nodes[s].commitIndex == a.cluster.nodes[s].lastApplied == 0
            && a.cluster.nodes[s].id == s && a.cluster.nodes[s].state == Follower(None)
            && a.waiting[s] == [] && a.inSync[s].term && (a.inSync[s].vote <==> p.fixes.reloadsVote))
  {
  }
}
