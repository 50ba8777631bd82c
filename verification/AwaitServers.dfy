/** One server with its awaits apart, and the same server in whole steps: what it holds in memory
    ahead of its disk is what whole steps would have it hold, and with the last of a handler's files
    written the two are the same. */
module AwaitServers {
  import opened RaftTypes
  import opened Logs
  import opened Medians
  import opened Nodes
  import opened Clusters
  import Election
  import opened Awaits
  import opened TornWrites

  // ----- the disk does not matter -----

  /** What a handler leaves on disk does not hang on what the disk held: it writes or it does not. */
  ghost predicate SameBut(f: Fixes, n: Node, o: Outcome, n1: Node, o1: Outcome) {
    && o1.out == o.out && o1.node == o.node.(disk := o1.node.disk)
    && ((o.node.disk == n.disk && o1.node.disk == n1.disk)
        || (o.node.disk == Persisted(f, n, o) && o1.node.disk == Persisted(f, n1, o1)))
  }

  lemma RequestFree(f: Fixes, n: Node, d: Stable, peer: ServerId)
    requires n.state.Leader? && |n.mem.log| > 0
    ensures AppendRequest(f, n.(disk := d), peer) == AppendRequest(f, n, peer)
  {
  }

  lemma SendFree(f: Fixes, servers: seq<ServerId>, n: Node, d: Stable)
    requires n.state.Leader?
    ensures var n1 := n.(disk := d);
      SameBut(f, n, SendAppendEntries(f, servers, n), n1, SendAppendEntries(f, servers, n1))
  {
    hide AppendRequest;
    var n1, peers := n.(disk := d), Peers(servers, n.id);
    if n.mem.log != [] {
      forall i | 0 <= i < |peers| ensures AppendRequest(f, n1, peers[i]) == AppendRequest(f, n, peers[i]) {
        RequestFree(f, n, d, peers[i]);
      }
      assert SendAppendEntries(f, servers, n1).out == SendAppendEntries(f, servers, n).out;
    }
  }

  lemma LeadFree(f: Fixes, servers: seq<ServerId>, n: Node, d: Stable)
    ensures var n1 := n.(disk := d); SameBut(f, n, BecomeLeader(f, servers, n), n1, BecomeLeader(f, servers, n1))
  {
    hide SendAppendEntries;
    var keys := IndexKeys(f, Peers(servers, n.id));
    var lead := n.(state := Leader(map k | k in keys :: Num(|n.mem.log|), FreshTable(keys)));
    SendFree(f, servers, lead, d);
    assert lead.(disk := d) == n.(disk := d).(state := lead.state);
  }

  lemma StartFree(f: Fixes, servers: seq<ServerId>, n: Node, d: Stable)
    ensures var n1 := n.(disk := d); SameBut(f, n, StartElection(f, servers, n), n1, StartElection(f, servers, n1))
  {
    hide BecomeLeader, VoteRequests;
    var s, s1 := Stand(f, n), Stand(f, n.(disk := d));
    assert s1 == s.(disk := s1.disk);
    RequestsFree(servers, s, s1.disk);
    LeadFree(f, servers, s, s1.disk);
    Election.LeadEffect(f, servers, s);
  }

  lemma RequestsFree(servers: seq<ServerId>, n: Node, d: Stable)
    ensures VoteRequests(servers, n.(disk := d)) == VoteRequests(servers, n)
  {
  }

  lemma DispatchFree(f: Fixes, servers: seq<ServerId>, n: Node, d: Stable, src: ServerId, m: Message)
    ensures var n1 := n.(disk := d);
      SameBut(f, n, Dispatch(f, servers, n, src, m), n1, Dispatch(f, servers, n1, src, m))
  {
    hide BecomeLeader, Merge, Nodes.Matches, UpdateIndexes, CommitScan, Median, Values, FollowerCommit;
    if n.state.Candidate? && m.VoteResponse? {
      LeadFree(f, servers, n.(state := Candidate(n.state.votes + {src})), d);
    }
  }

  lemma DiskFree(f: Fixes, servers: seq<ServerId>, n: Node, e: Event, d: Stable)
    requires Runs(n, e)
    ensures var n1 := n.(disk := d); Runs(n1, e) && SameBut(f, n, React(f, servers, n, e), n1, React(f, servers, n1, e))
  {
    hide StartElection, Dispatch, SendAppendEntries;
    match e
    case Timeout(_) => StartFree(f, servers, n, d);
    case Deliver(p) =>
      DispatchFree(f, servers, Bump(n, p.msg), d, p.src, p.msg);
      BumpFree(n, d, p.msg);
    case Heartbeat(_) => SendFree(f, servers, n, d);
    case Request(_, command) =>
      if n.state.Leader? {
        var n2 := n.(mem := n.mem.(log := n.mem.log + [Entry(command, |n.mem.log|, n.mem.term)]));
        SendFree(f, servers, n2, d);
      }
    case Apply(_) =>
  }

  lemma BumpFree(n: Node, d: Stable, m: Message)
    ensures Bump(n.(disk := d), m) == Bump(n, m).(disk := d) && Bump(n, m).disk == n.disk
  {
  }

  // ----- the same handlers, with their writes -----

  /** The handlers of a server as whole steps. */
  function WholeNode(p: Policy, servers: seq<ServerId>, n: Node, doings: seq<Doing>): Node {
    if doings == [] then n
    else
      var w, d := WholeNode(p, servers, n, doings[..|doings| - 1]), doings[|doings| - 1];
      if d.Ran? && Runs(w, d.event) then React(p.fixes, servers, w, d.event).node else w
  }

  /** What they send. */
  function WholeOut(p: Policy, servers: seq<ServerId>, n: Node, doings: seq<Doing>): set<Packet> {
    if doings == [] then {}
    else
      var w, d := WholeNode(p, servers, n, doings[..|doings| - 1]), doings[|doings| - 1];
      WholeOut(p, servers, n, doings[..|doings| - 1])
      + if d.Ran? && Runs(w, d.event) then (set x | x in React(p.fixes, servers, w, d.event).out) else {}
  }

  /** What an event applies. */
  function Applies(n: Node, e: Event): set<Applied>
    requires e.Apply? ==> CanApply(n)
  {
    if e.Apply? then {Applied(n.id, n.lastApplied + 1, n.mem.log[n.lastApplied + 1].command)} else {}
  }

  function Did(p: Policy, servers: seq<ServerId>, n: Node, doings: seq<Doing>): set<Applied> {
    if doings == [] then {}
    else
      var m, d := Halfway(p, servers, n, doings[..|doings| - 1]), doings[|doings| - 1];
      Did(p, servers, n, doings[..|doings| - 1]) + if d.Ran? && Runs(m, d.event) then Applies(m, d.event) else {}
  }

  lemma {:induction false} TracesApply(p: Policy, servers: seq<ServerId>, h: History, n: Node, doings: seq<Doing>)
    ensures Traces(p, servers, h, n, doings).applied == h.applied + Did(p, servers, n, doings)
  {
    hide Do, CanApply;
    if doings != [] {
      TracesApply(p, servers, h, n, doings[..|doings| - 1]);
    }
  }

  /** Memory runs the same way whatever is on disk. */
  ghost predicate Alike(n: Node, m: Node) {
    m == n.(disk := m.disk)
  }

  lemma RunsAlike(n: Node, m: Node, e: Event)
    requires Alike(n, m)
    ensures Runs(n, e) == Runs(m, e)
    ensures Runs(n, e) ==> Applies(n, e) == Applies(m, e)
  {
  }

  lemma ReactAlike(p: Policy, servers: seq<ServerId>, n: Node, m: Node, e: Event)
    requires Alike(n, m) && Runs(n, e)
    ensures Runs(m, e)
    ensures SameBut(p.fixes, n, React(p.fixes, servers, n, e), m, React(p.fixes, servers, m, e))
  {
    DiskFree(p.fixes, servers, n, e, m.disk);
  }

  lemma {:induction false} HalfwayAlike(p: Policy, servers: seq<ServerId>, n: Node, doings: seq<Doing>)
    ensures Alike(WholeNode(p, servers, n, doings), Halfway(p, servers, n, doings))
  {
    hide React, Runs, WriteFile;
    if doings != [] {
      var init, d := doings[..|doings| - 1], doings[|doings| - 1];
      HalfwayAlike(p, servers, n, init);
      var w, m := WholeNode(p, servers, n, init), Halfway(p, servers, n, init);
      if d.Ran? {
        RunsAlike(w, m, d.event);
        if Runs(w, d.event) {
          ReactAlike(p, servers, w, m, d.event);
        }
      } else {
        WritesOnlyDisk(p.fixes, m, d.file);
      }
    }
  }

  lemma WritesOnlyDisk(f: Fixes, n: Node, file: File)
    ensures Alike(n, WriteFile(f, n, file))
  {
  }

  // ----- disks in step with memory -----

  ghost predicate Saved(f: Fixes, n: Node) {
    n.disk.term == n.mem.term && n.disk.votedFor == n.mem.votedFor && (f.keepsLog ==> n.disk.log == n.mem.log)
  }

  /** The first files are written. */
  ghost predicate Written(p: Policy, n: Node, files: nat) {
    forall i: nat :: i < files ==> WriteFile(p.fixes, n, FileAt(p, i)) == n
  }

  lemma WritesOne(p: Policy, n: Node, files: nat)
    requires Written(p, n, files) && files < 3
    ensures Written(p, WriteFile(p.fixes, n, FileAt(p, files)), files + 1)
  {
  }

  lemma WrittenSaved(p: Policy, n: Node)
    requires Written(p, n, 3)
    ensures Saved(p.fixes, n)
  {
    assert WriteFile(p.fixes, n, FileAt(p, 0)) == n && WriteFile(p.fixes, n, FileAt(p, 1)) == n;
    assert WriteFile(p.fixes, n, FileAt(p, 2)) == n;
  }

  lemma SavedWritten(p: Policy, n: Node, files: nat)
    requires Saved(p.fixes, n)
    ensures Written(p, n, files) && WriteFile(p.fixes, n, FileAt(p, files)) == n
  {
  }

  lemma AppliedWritten(p: Policy, n: Node, files: nat)
    requires CanApply(n) && Written(p, n, files)
    ensures Written(p, ApplyNext(n), files)
  {
    forall i: nat | i < files ensures WriteFile(p.fixes, ApplyNext(n), FileAt(p, i)) == ApplyNext(n) {
      assert WriteFile(p.fixes, n, FileAt(p, i)) == n;
    }
  }

  /** A handler that waits has all of its state on disk, once it is a whole step. */
  lemma WaitsSaved(p: Policy, servers: seq<ServerId>, w: Node, m: Node, e: Event)
    requires Alike(w, m) && Runs(m, e) && Waits(p.fixes, m, React(p.fixes, servers, m, e))
    ensures Runs(w, e) && Saved(p.fixes, React(p.fixes, servers, w, e).node)
  {
    hide React, Runs;
    RunsAlike(w, m, e);
    RunsMeans(w, e);
    RunsMeans(m, e);
    ReactAlike(p, servers, w, m, e);
    ReactDisk(p.fixes, servers, w, e);
    ReactDisk(p.fixes, servers, m, e);
  }

  lemma RunsMeans(n: Node, e: Event)
    requires Runs(n, e)
    ensures !e.Restarted? && (e.Heartbeat? ==> n.state.Leader?) && (e.Apply? ==> CanApply(n)) && Actor(e) == n.id
  {
  }

  lemma {:induction false} UnkeptLog(p: Policy, servers: seq<ServerId>, n: Node, doings: seq<Doing>)
    requires !p.fixes.keepsLog
    ensures Halfway(p, servers, n, doings).disk.log == n.disk.log
    ensures WholeNode(p, servers, n, doings).disk.log == n.disk.log
  {
    hide React, Runs;
    if doings != [] {
      var init, d := doings[..|doings| - 1], doings[|doings| - 1];
      UnkeptLog(p, servers, n, init);
      var w := WholeNode(p, servers, n, init);
      if d.Ran? && Runs(w, d.event) {
        RunsMeans(w, d.event);
        ReactDisk(p.fixes, servers, w, d.event);
      }
    }
  }

  /** With the last file written the server is where whole steps bring it. */
  lemma LastFile(p: Policy, servers: seq<ServerId>, n: Node, doings: seq<Doing>)
    requires var m := Halfway(p, servers, n, doings);
      Written(p, m, 2) && Saved(p.fixes, WholeNode(p, servers, n, doings))
    ensures WriteFile(p.fixes, Halfway(p, servers, n, doings), FileAt(p, 2)) == WholeNode(p, servers, n, doings)
  {
    hide Halfway, WholeNode, FileAt, Written;
    var m, w := Halfway(p, servers, n, doings), WholeNode(p, servers, n, doings);
    HalfwayAlike(p, servers, n, doings);
    WritesOne(p, m, 2);
    WrittenSaved(p, WriteFile(p.fixes, m, FileAt(p, 2)));
    WritesOnlyDisk(p.fixes, m, FileAt(p, 2));
    if !p.fixes.keepsLog {
      UnkeptLog(p, servers, n, doings);
    }
  }

  // ----- one server in both -----

  /** No file is written on the way. */
  ghost predicate Clean(doings: seq<Doing>) {
    forall d :: d in doings ==> d.Ran?
  }

  /** What waits on a server, which is ahead of the other cluster by some doings. */
  ghost predicate Waiting(p: Policy, servers: seq<ServerId>, net: set<Packet>, n: Node, m: Node, doings: seq<Doing>,
                          b: Batch) {
    && b.files <= 3 && (b.files == 3 ==> doings == [])
    && (forall x :: x in b.out ==> x in net + WholeOut(p, servers, n, doings))
    && Saved(p.fixes, WholeNode(p, servers, n, doings)) && Written(p, m, b.files)
  }

  /** Without failed writes a server is ahead only while something of it waits. */
  ghost predicate Prompt(waiting: seq<Batch>, doings: seq<Doing>) {
    doings != [] ==> waiting != [] && (waiting[0].files == 0 ==> Clean(doings))
  }

  ghost predicate Follows(p: Policy, servers: seq<ServerId>, steady: bool, net: set<Packet>, n: Node, m: Node,
                          waiting: seq<Batch>, doings: seq<Doing>) {
    && m == Halfway(p, servers, n, doings) && Heard(net, doings)
    && (doings != [] ==> Begins(p, servers, n, doings[0]))
    && |waiting| <= 1 && (waiting != [] ==> Waiting(p, servers, net, n, m, doings, waiting[0]))
    && (steady ==> Prompt(waiting, doings))
  }

  /** A server that does not move stays where it was, whatever the others do. */
  lemma FollowsStill(p: Policy, servers: seq<ServerId>, steady: bool, net: set<Packet>, net': set<Packet>, n: Node,
                     m: Node, waiting: seq<Batch>, doings: seq<Doing>)
    requires Follows(p, servers, steady, net, n, m, waiting, doings) && net <= net'
    ensures Follows(p, servers, steady, net', n, m, waiting, doings)
  {
    hide Halfway, Begins, WholeNode, WholeOut, Saved, Written;
  }

  // ----- a handler -----

  function NowWaiting(f: Fixes, n: Node, o: Outcome, waiting: seq<Batch>): seq<Batch> {
    if Waits(f, n, o) then waiting + [Batch(o.out, 0)] else waiting
  }

  /** A handler that leaves the disk alone, of a server that is not ahead, is a whole step. */
  lemma DirectFollows(p: Policy, servers: seq<ServerId>, steady: bool, net: set<Packet>, n: Node, waiting: seq<Batch>,
                      e: Event)
    requires Follows(p, servers, steady, net, n, n, waiting, []) && Runs(n, e) && (!e.Apply? ==> waiting == [])
    requires React(p.fixes, servers, n, e).node.disk == n.disk
    ensures var o := React(p.fixes, servers, n, e);
      Follows(p, servers, steady, net + (set x | x in o.out), o.node, o.node, NowWaiting(p.fixes, n, o, waiting), [])
  {
    hide Begins, Written;
    var o := React(p.fixes, servers, n, e);
    if e.Apply? {
      if waiting != [] {
        AppliedWritten(p, n, waiting[0].files);
      }
    } else {
      hide React, Runs;
      RunsMeans(n, e);
      ReactDisk(p.fixes, servers, n, e);
      SavedIfWaits(p, n, o);
      assert waiting + [Batch(o.out, 0)] == [Batch(o.out, 0)];
    }
  }

  lemma SavedIfWaits(p: Policy, n: Node, o: Outcome)
    requires Waits(p.fixes, n, o) ==> o.node.disk == Persisted(p.fixes, n, o)
    ensures Waits(p.fixes, n, o) ==> Saved(p.fixes, o.node)
    ensures Written(p, o.node, 0)
  {
  }

  lemma LastDoing(p: Policy, servers: seq<ServerId>, n: Node, doings: seq<Doing>, d: Doing)
    ensures Halfway(p, servers, n, doings + [d]) == Do(p, servers, Halfway(p, servers, n, doings), d)
    ensures var w := WholeNode(p, servers, n, doings);
      var runs := d.Ran? && Runs(w, d.event);
      && WholeNode(p, servers, n, doings + [d]) == (if runs then React(p.fixes, servers, w, d.event).node else w)
      && WholeOut(p, servers, n, doings + [d]) == WholeOut(p, servers, n, doings)
           + (if runs then (set x | x in React(p.fixes, servers, w, d.event).out) else {})
    ensures var m := Halfway(p, servers, n, doings);
      Did(p, servers, n, doings + [d])
        == Did(p, servers, n, doings) + if d.Ran? && Runs(m, d.event) then Applies(m, d.event) else {}
  {
    hide Do, React, Runs, Applies;
    assert (doings + [d])[..|doings|] == doings;
  }

  /** Any other handler of a server, once it is ahead, is put off. */
  lemma PendFollows(p: Policy, servers: seq<ServerId>, steady: bool, net: set<Packet>, n: Node, m: Node,
                    waiting: seq<Batch>, doings: seq<Doing>, e: Event)
    requires Follows(p, servers, steady, net, n, m, waiting, doings) && Runs(m, e) && (!e.Apply? ==> waiting == [])
    requires doings == [] ==> React(p.fixes, servers, m, e).node.disk != m.disk
    requires e.Deliver? ==> e.packet in net
    ensures var o := React(p.fixes, servers, m, e);
      Follows(p, servers, steady, net, n, o.node.(disk := m.disk), NowWaiting(p.fixes, m, o, waiting),
              doings + [Ran(e)])
  {
    hide React, Halfway, WholeNode, WholeOut, Did, Runs, Written, Saved, Waits;
    RunsMeans(m, e);
    var o, doings', m' := React(p.fixes, servers, m, e), doings + [Ran(e)], Do(p, servers, m, Ran(e));
    LastDoing(p, servers, n, doings, Ran(e));
    HalfwayNone(p, servers, n);
    if Waits(p.fixes, m, o) {
      WaitingFollows(p, servers, net, n, m, waiting, doings, e);
    } else {
      NotTheFirst(p, servers, m, doings, e);
      if waiting != [] {
        ApplyFollows(p, servers, net, n, m, waiting[0], doings, e);
      }
    }
    assert forall x :: x in doings' ==> x in doings || x == Ran(e);
  }

  lemma HalfwayNone(p: Policy, servers: seq<ServerId>, n: Node)
    ensures Halfway(p, servers, n, []) == n == WholeNode(p, servers, n, []) && WholeOut(p, servers, n, []) == {}
    ensures Did(p, servers, n, []) == {}
  {
  }

  /** A handler that does not wait has left the disk alone. */
  lemma NotTheFirst(p: Policy, servers: seq<ServerId>, m: Node, doings: seq<Doing>, e: Event)
    requires Runs(m, e) && !Waits(p.fixes, m, React(p.fixes, servers, m, e))
    requires doings == [] ==> React(p.fixes, servers, m, e).node.disk != m.disk
    ensures doings != []
  {
    hide React, Runs;
  }

  lemma WaitingFollows(p: Policy, servers: seq<ServerId>, net: set<Packet>, n: Node, m: Node, waiting: seq<Batch>,
                       doings: seq<Doing>, e: Event)
    requires m == Halfway(p, servers, n, doings) && Runs(m, e) && (!e.Apply? ==> waiting == [])
    requires Waits(p.fixes, m, React(p.fixes, servers, m, e))
    ensures var o := React(p.fixes, servers, m, e);
      && waiting == [] && NowWaiting(p.fixes, m, o, waiting) == [Batch(o.out, 0)]
      && Waiting(p, servers, net, n, o.node.(disk := m.disk), doings + [Ran(e)], Batch(o.out, 0))
  {
    hide React, Halfway, WholeNode, WholeOut, Runs, Saved, Waits;
    var w := WholeNode(p, servers, n, doings);
    LastDoing(p, servers, n, doings, Ran(e));
    HalfwayAlike(p, servers, n, doings);
    WaitsSaved(p, servers, w, m, e);
    RunsMeans(m, e);
    RunsAlike(w, m, e);
    ReactAlike(p, servers, w, m, e);
    if e.Apply? {
      ApplyNeverWaits(p.fixes, servers, m, e);
    }
    assert waiting + [Batch(React(p.fixes, servers, m, e).out, 0)] == [Batch(React(p.fixes, servers, m, e).out, 0)];
  }

  lemma ApplyNeverWaits(f: Fixes, servers: seq<ServerId>, n: Node, e: Event)
    requires e.Apply? && CanApply(n)
    ensures !Waits(f, n, React(f, servers, n, e)) && React(f, servers, n, e) == Outcome(ApplyNext(n), [])
  {
  }

  /** The apply loop goes on while something waits. */
  lemma ApplyFollows(p: Policy, servers: seq<ServerId>, net: set<Packet>, n: Node, m: Node, b: Batch,
                     doings: seq<Doing>, e: Event)
    requires m == Halfway(p, servers, n, doings) && Runs(m, e) && e.Apply?
    requires Waiting(p, servers, net, n, m, doings, b) && doings != []
    ensures Waiting(p, servers, net, n, React(p.fixes, servers, m, e).node.(disk := m.disk), doings + [Ran(e)], b)
  {
    hide React, Halfway, WholeNode, WholeOut, Runs;
    var w := WholeNode(p, servers, n, doings);
    LastDoing(p, servers, n, doings, Ran(e));
    HalfwayAlike(p, servers, n, doings);
    RunsMeans(m, e);
    RunsAlike(w, m, e);
    RunsMeans(w, e);
    ApplyNeverWaits(p.fixes, servers, m, e);
    ApplyNeverWaits(p.fixes, servers, w, e);
    AppliedWritten(p, m, b.files);
    assert ApplyNext(m).(disk := m.disk) == ApplyNext(m);
  }

  lemma FollowsHalfway(p: Policy, servers: seq<ServerId>, steady: bool, net: set<Packet>, n: Node, m: Node,
                       waiting: seq<Batch>, doings: seq<Doing>)
    requires Follows(p, servers, steady, net, n, m, waiting, doings)
    ensures m == Halfway(p, servers, n, doings)
  {
  }

  /** A server that is ahead sends nothing but through its writes. */
  lemma SendsNothing(p: Policy, servers: seq<ServerId>, steady: bool, net: set<Packet>, n: Node, m: Node,
                     waiting: seq<Batch>, doings: seq<Doing>, e: Event)
    requires Follows(p, servers, steady, net, n, m, waiting, doings) && Runs(m, e) && (!e.Apply? ==> waiting == [])
    requires steady || p.fixes.persistsFirst
    requires doings == [] ==> React(p.fixes, servers, m, e).node.disk != m.disk
    ensures var o := React(p.fixes, servers, m, e); !Waits(p.fixes, m, o) ==> o.out == []
  {
    var o := React(p.fixes, servers, m, e);
    if e.Apply? {
      ApplyNeverWaits(p.fixes, servers, m, e);
    } else {
      hide React, Runs;
      if !Waits(p.fixes, m, o) {
        NotTheFirst(p, servers, m, doings, e);
      }
    }
  }

  // ----- files, failures and crashes -----

  lemma {:induction false} HalfwayId(p: Policy, servers: seq<ServerId>, n: Node, doings: seq<Doing>)
    ensures Halfway(p, servers, n, doings).id == n.id
  {
    hide Do;
    if doings != [] {
      HalfwayId(p, servers, n, doings[..|doings| - 1]);
      DoKeepsId(p, servers, Halfway(p, servers, n, doings[..|doings| - 1]), doings[|doings| - 1]);
    }
  }

  /** One more of the first two files of a server that is ahead. */
  lemma WroteFollows(p: Policy, servers: seq<ServerId>, steady: bool, net: set<Packet>, n: Node, m: Node, b: Batch,
                     doings: seq<Doing>)
    requires Follows(p, servers, steady, net, n, m, [b], doings) && doings != [] && b.files < 2
    ensures var file := FileAt(p, b.files);
      Follows(p, servers, steady, net, n, WriteFile(p.fixes, m, file), [Batch(b.out, b.files + 1)],
              doings + [Wrote(file)])
  {
    hide Halfway, WholeNode, WholeOut, Written, Saved;
    var file := FileAt(p, b.files);
    LastDoing(p, servers, n, doings, Wrote(file));
    WritesOne(p, m, b.files);
    assert file != FileAt(p, 2);
  }

  /** A file of a server that is level is no news. */
  lemma LevelFollows(p: Policy, servers: seq<ServerId>, steady: bool, net: set<Packet>, n: Node, b: Batch)
    requires Follows(p, servers, steady, net, n, n, [b], []) && b.files < 3
    ensures WriteFile(p.fixes, n, FileAt(p, b.files)) == n
    ensures Follows(p, servers, steady, net, n, n, [Batch(b.out, b.files + 1)], [])
  {
    hide WriteFile;
    SavedWritten(p, n, b.files);
    SavedWritten(p, n, b.files + 1);
  }

  /** Nothing waits any more, whether it has failed or left. */
  lemma EmptyFollows(p: Policy, servers: seq<ServerId>, steady: bool, net: set<Packet>, n: Node, m: Node,
                     waiting: seq<Batch>, doings: seq<Doing>)
    requires Follows(p, servers, steady, net, n, m, waiting, doings) && (steady ==> doings == [])
    ensures Follows(p, servers, steady, net, n, m, [], doings)
  {
    hide Halfway, Begins, Heard;
  }

  /** What leaves has been sent by whole steps before. */
  lemma SentAlready(p: Policy, servers: seq<ServerId>, net: set<Packet>, n: Node, m: Node, doings: seq<Doing>, b: Batch)
    requires Waiting(p, servers, net, n, m, doings, b) && b.files == 3
    ensures doings == [] && forall x :: x in b.out ==> x in net
  {
    hide WholeNode, Saved, Written;
    HalfwayNone(p, servers, n);
  }

  lemma RestartFollows(p: Policy, servers: seq<ServerId>, steady: bool, net: set<Packet>, n: Node)
    ensures Follows(p, servers, steady, net, n, n, [], [])
  {
    HalfwayNone(p, servers, n);
  }

  lemma FollowsHeard(p: Policy, servers: seq<ServerId>, steady: bool, net: set<Packet>, n: Node, m: Node,
                     waiting: seq<Batch>, doings: seq<Doing>)
    requires Follows(p, servers, steady, net, n, m, waiting, doings)
    ensures Heard(net, doings) && m == Halfway(p, servers, n, doings)
  {
  }

  lemma {:induction false} CleanDisk(p: Policy, servers: seq<ServerId>, n: Node, doings: seq<Doing>)
    requires Clean(doings)
    ensures Halfway(p, servers, n, doings).disk == n.disk && Halfway(p, servers, n, doings).id == n.id
  {
    hide React, Runs;
    HalfwayId(p, servers, n, doings);
    if doings != [] {
      var init, d := doings[..|doings| - 1], doings[|doings| - 1];
      assert d in doings && forall x :: x in init ==> x in doings;
      CleanDisk(p, servers, n, init);
    }
  }

  /** A restart looks at the disk only. */
  lemma RestartForgets(f: Fixes, n: Node, n': Node)
    requires n.id == n'.id && n.disk == n'.disk
    ensures Restart(f, n) == Restart(f, n')
  {
  }
}
