/** When awaits can be left out: if no handler of a server runs while something of it waits, but for
    the apply loop, and the in-sync flags tell the truth, then whatever the servers do with their
    awaits apart they also do in whole steps, each taken when all its files are written, and in
    crashes of servers that are ahead of their disks. What is proved of such runs holds with the
    awaits apart too. */
module AwaitReduction {
  import opened RaftTypes
  import opened Nodes
  import opened Clusters
  import opened RunSteps
  import Commitless
  import Election
  import opened Awaits
  import opened AwaitServers
  import MatchingRuns
  import TornMatching
  import opened TornWrites

  lemma RecordApplies(h: History, n: Node, e: Event, o: Outcome)
    requires e.Apply? ==> CanApply(n)
    ensures Record(h, n, e, o).applied == h.applied + Applies(n, e)
  {
    hide Record, CanApply;
    if e.Apply? {
      RecordOfApply(h, n, e, o);
    } else {
      Commitless.RecordKeepsApplied(h, n, e, o);
    }
  }

  lemma RecordOfApply(h: History, n: Node, e: Event, o: Outcome)
    requires e.Apply? && CanApply(n)
    ensures Record(h, n, e, o).applied
         == h.applied + {Applied(n.id, n.lastApplied + 1, n.mem.log[n.lastApplied + 1].command)}
  {
  }

  // ----- the two clusters -----

  type Pending = map<ServerId, seq<Doing>>

  ghost predicate AppliedToo(p: Policy, servers: seq<ServerId>, c: Cluster, pending: Pending, x: Applied) {
    || x in c.history.applied
    || (exists s :: s in c.nodes && s in pending && x in Did(p, servers, c.nodes[s], pending[s]))
  }

  /** The cluster of whole steps is behind by what is not all written yet. */
  ghost predicate Shadows(p: Policy, servers: seq<ServerId>, steady: bool, a: Async, c: Cluster, pending: Pending) {
    && Election.Placed(servers, c)
    && a.cluster.nodes.Keys == c.nodes.Keys == a.waiting.Keys == pending.Keys
    && a.cluster.network <= c.network
    && (forall x :: x in a.cluster.history.applied ==> AppliedToo(p, servers, c, pending, x))
    && (forall s :: s in c.nodes ==>
          Follows(p, servers, steady, c.network, c.nodes[s], a.cluster.nodes[s], a.waiting[s], pending[s]))
  }

  /** Whatever one server's doings have applied stays applied, and no more is applied than they have. */
  ghost predicate AppliedKept(p: Policy, servers: seq<ServerId>, h: History, n: Node, doings: seq<Doing>, h': History,
                              n': Node, doings': seq<Doing>, more: set<Applied>) {
    && (forall x :: x in h.applied || x in Did(p, servers, n, doings)
          ==> x in h'.applied || x in Did(p, servers, n', doings'))
    && (forall x :: x in more ==> x in h'.applied || x in Did(p, servers, n', doings'))
  }

  lemma AppliedMoves(p: Policy, servers: seq<ServerId>, c: Cluster, pending: Pending, c': Cluster, s: ServerId,
                     doings: seq<Doing>, more: set<Applied>, x: Applied)
    requires AppliedToo(p, servers, c, pending, x) || x in more
    requires s in c.nodes && s in c'.nodes && s in pending && c'.nodes == c.nodes[s := c'.nodes[s]]
    requires AppliedKept(p, servers, c.history, c.nodes[s], pending[s], c'.history, c'.nodes[s], doings, more)
    ensures AppliedToo(p, servers, c', pending[s := doings], x)
  {
    hide Did;
    var pending' := pending[s := doings];
    if x !in c'.history.applied {
      assert pending'[s] == doings;
      if x !in Did(p, servers, c'.nodes[s], doings) {
        var t :| t in c.nodes && t in pending && x in Did(p, servers, c.nodes[t], pending[t]);
        assert t != s && pending'[t] == pending[t] && c'.nodes[t] == c.nodes[t];
      }
    }
  }

  lemma OthersFollow(p: Policy, servers: seq<ServerId>, steady: bool, a: Async, c: Cluster, pending: Pending,
                     a': Async, c': Cluster, s: ServerId, doings: seq<Doing>, t: ServerId)
    requires Shadows(p, servers, steady, a, c, pending) && s in c.nodes && t in c.nodes && t != s
    requires s in c'.nodes && s in a'.cluster.nodes && s in a'.waiting
    requires c'.nodes == c.nodes[s := c'.nodes[s]] && c.network <= c'.network
    requires a'.cluster.nodes == a.cluster.nodes[s := a'.cluster.nodes[s]]
    requires a'.waiting == a.waiting[s := a'.waiting[s]]
    ensures Follows(p, servers, steady, c'.network, c'.nodes[t], a'.cluster.nodes[t], a'.waiting[t],
                    pending[s := doings][t])
  {
    hide Follows, AppliedToo;
    FollowsStill(p, servers, steady, c.network, c'.network, c.nodes[t], a.cluster.nodes[t], a.waiting[t], pending[t]);
  }

  /** One server moved, in one cluster or both. */
  lemma OneMoved(p: Policy, servers: seq<ServerId>, steady: bool, a: Async, c: Cluster, pending: Pending, a': Async,
                 c': Cluster, s: ServerId, doings: seq<Doing>, more: set<Applied>)
    requires Shadows(p, servers, steady, a, c, pending) && s in c.nodes
    requires s in c'.nodes && s in a'.cluster.nodes && s in a'.waiting
    requires Election.Placed(servers, c') && c'.nodes == c.nodes[s := c'.nodes[s]] && c.network <= c'.network
    requires a'.cluster.nodes == a.cluster.nodes[s := a'.cluster.nodes[s]]
    requires a'.waiting == a.waiting[s := a'.waiting[s]] && a'.cluster.network <= c'.network
    requires a'.cluster.history.applied == a.cluster.history.applied + more
    requires AppliedKept(p, servers, c.history, c.nodes[s], pending[s], c'.history, c'.nodes[s], doings, more)
    requires Follows(p, servers, steady, c'.network, c'.nodes[s], a'.cluster.nodes[s], a'.waiting[s], doings)
    ensures Shadows(p, servers, steady, a', c', pending[s := doings])
  {
    hide Follows, Did, AppliedToo, AppliedKept, Election.Placed;
    forall t | t in c'.nodes && t != s
      ensures Follows(p, servers, steady, c'.network, c'.nodes[t], a'.cluster.nodes[t], a'.waiting[t],
                      pending[s := doings][t])
    {
      OthersFollow(p, servers, steady, a, c, pending, a', c', s, doings, t);
    }
    forall x | x in a'.cluster.history.applied ensures AppliedToo(p, servers, c', pending[s := doings], x) {
      AppliedMoves(p, servers, c, pending, c', s, doings, more, x);
    }
  }

  // ----- a handler -----

  // ----- every move -----

  /** No crash in the run has written a file on the way. */
  ghost predicate AllClean(run: seq<Happening>) {
    forall x :: x in run && x.Torn? ==> Clean(x.doings)
  }

  lemma HandleNodes(p: Policy, servers: seq<ServerId>, a: Async, e: Event)
    requires CanHandle(p, a, e) && a.cluster.nodes[Actor(e)].id == Actor(e)
    ensures var s := Actor(e);
      var m, a' := a.cluster.nodes[s], HandleEvent(p, servers, a, e);
      && Runs(m, e)
      && var o := React(p.fixes, servers, m, e);
      && a'.cluster.nodes == a.cluster.nodes[s := o.node.(disk := m.disk)]
      && a'.waiting == a.waiting[s := NowWaiting(p.fixes, m, o, a.waiting[s])]
      && a'.cluster.network == a.cluster.network + (if Waits(p.fixes, m, o) then {} else set x | x in o.out)
      && a'.cluster.history.applied == a.cluster.history.applied + Applies(m, e)
      && (e.Deliver? ==> e.packet in a.cluster.network)
  {
    hide React, Record, Waits, CanApply;
    EnabledFacts(a.cluster, e);
    var m := a.cluster.nodes[Actor(e)];
    RecordApplies(a.cluster.history, m, e, React(p.fixes, servers, m, e));
  }

  lemma StepNodes(f: Fixes, servers: seq<ServerId>, c: Cluster, e: Event)
    requires Actor(e) in c.nodes && c.nodes[Actor(e)].id == Actor(e) && Runs(c.nodes[Actor(e)], e)
    requires (e.Deliver? ==> e.packet in c.network) && Election.Placed(servers, c)
    ensures var n, c' := c.nodes[Actor(e)], Step(f, servers, c, e);
      var o := React(f, servers, n, e);
      && c'.nodes == c.nodes[Actor(e) := o.node] && c'.network == c.network + (set x | x in o.out)
      && c'.history.applied == c.history.applied + Applies(n, e) && Election.Placed(servers, c')
  {
    hide React, Record, CanApply;
    var n := c.nodes[Actor(e)];
    RecordApplies(c.history, n, e, React(f, servers, n, e));
    ReactKeepsId(f, servers, n, e);
  }

  lemma DirectFollowed(p: Policy, servers: seq<ServerId>, steady: bool, a: Async, c: Cluster, pending: Pending,
                       e: Event)
    requires p.serial && Shadows(p, servers, steady, a, c, pending) && CanHandle(p, a, e) && Actor(e) in c.nodes
    requires Actor(e) in pending && pending[Actor(e)] == [] && Runs(c.nodes[Actor(e)], e)
    requires React(p.fixes, servers, c.nodes[Actor(e)], e).node.disk == c.nodes[Actor(e)].disk
    ensures Shadows(p, servers, steady, HandleEvent(p, servers, a, e), Step(p.fixes, servers, c, e), pending)
  {
    hide React, Waits, Step, HandleEvent, Did, Runs, Follows, Applies, Enabled, AppliedToo, Shadows;
    var s, a', c' := Actor(e), HandleEvent(p, servers, a, e), Step(p.fixes, servers, c, e);
    var n := c.nodes[s];
    ShadowsNet(p, servers, steady, a, c, pending);
    ServerFollows(p, servers, steady, a, c, pending, s);
    HandleNodes(p, servers, a, e);
    RunsMeans(n, e);
    StepNodes(p.fixes, servers, c, e);
    DirectFollows(p, servers, steady, c.network, n, a.waiting[s], e);
    var o := React(p.fixes, servers, n, e);
    assert o.node.(disk := n.disk) == o.node;
    HalfwayNone(p, servers, n);
    HalfwayNone(p, servers, o.node);
    OneMoved(p, servers, steady, a, c, pending, a', c', s, [], Applies(n, e));
    assert pending[s := []] == pending;
  }

  lemma PendFollowed(p: Policy, servers: seq<ServerId>, steady: bool, a: Async, c: Cluster, pending: Pending, e: Event)
    requires p.serial && (steady || p.fixes.persistsFirst) && Shadows(p, servers, steady, a, c, pending)
    requires CanHandle(p, a, e) && Actor(e) in c.nodes && Runs(a.cluster.nodes[Actor(e)], e)
    requires var m := a.cluster.nodes[Actor(e)];
      pending[Actor(e)] == [] ==> React(p.fixes, servers, m, e).node.disk != m.disk
    ensures Shadows(p, servers, steady, HandleEvent(p, servers, a, e), c,
                    pending[Actor(e) := pending[Actor(e)] + [Ran(e)]])
  {
    hide React, Waits, HandleEvent, Did, Runs, Follows, Applies, Enabled, AppliedToo, Halfway, WholeNode, WholeOut,
      Shadows;
    var s, a' := Actor(e), HandleEvent(p, servers, a, e);
    ShadowsNet(p, servers, steady, a, c, pending);
    var n, m, doings := c.nodes[s], a.cluster.nodes[s], pending[s];
    ServerFollows(p, servers, steady, a, c, pending, s);
    HandleNodes(p, servers, a, e);
    RunsMeans(m, e);
    PendFollows(p, servers, steady, c.network, n, m, a.waiting[s], doings, e);
    FollowsHalfway(p, servers, steady, c.network, n, m, a.waiting[s], doings);
    LastDoing(p, servers, n, doings, Ran(e));
    SendsNothing(p, servers, steady, c.network, n, m, a.waiting[s], doings, e);
    assert c.nodes == c.nodes[s := c.nodes[s]];
    OneMoved(p, servers, steady, a, c, pending, a', c, s, doings + [Ran(e)], Applies(m, e));
  }

  lemma ShadowsNet(p: Policy, servers: seq<ServerId>, steady: bool, a: Async, c: Cluster, pending: Pending)
    requires Shadows(p, servers, steady, a, c, pending)
    ensures Election.Placed(servers, c) && a.cluster.network <= c.network
    ensures a.cluster.nodes.Keys == c.nodes.Keys == a.waiting.Keys == pending.Keys
  {
  }

  lemma HandleFollowed(p: Policy, servers: seq<ServerId>, steady: bool, a: Async, c: Cluster, pending: Pending,
                       e: Event, run: seq<Happening>)
    returns (run': seq<Happening>, c': Cluster, pending': Pending)
    requires p.serial && (steady || p.fixes.persistsFirst) && Shadows(p, servers, steady, a, c, pending)
    requires CanHandle(p, a, e) && c == TornRun(p, servers, run)
    ensures c' == TornRun(p, servers, run') && (AllClean(run) ==> AllClean(run'))
    ensures Shadows(p, servers, steady, HandleEvent(p, servers, a, e), c', pending')
  {
    hide TornRun, React, Step, HandleEvent, Runs, Follows, AppliedToo;
    var s := Actor(e);
    assert s in c.nodes by { EnabledFacts(a.cluster, e); }
    ServerFollows(p, servers, steady, a, c, pending, s);
    HandleNodes(p, servers, a, e);
    var m := a.cluster.nodes[s];
    RunsMeans(m, e);
    if pending[s] == [] && React(p.fixes, servers, m, e).node.disk == m.disk {
      DirectFollowed(p, servers, steady, a, c, pending, e);
      run', c', pending' := run + [Whole(e)], Step(p.fixes, servers, c, e), pending;
      TornOneMore(p, servers, run, Whole(e));
    } else {
      PendFollowed(p, servers, steady, a, c, pending, e);
      run', c', pending' := run, c, pending[s := pending[s] + [Ran(e)]];
    }
  }

  lemma ServerFollows(p: Policy, servers: seq<ServerId>, steady: bool, a: Async, c: Cluster, pending: Pending,
                      s: ServerId)
    requires Shadows(p, servers, steady, a, c, pending) && s in c.nodes
    ensures s in a.cluster.nodes && s in a.waiting && s in pending && c.nodes[s].id == s
    ensures Follows(p, servers, steady, c.network, c.nodes[s], a.cluster.nodes[s], a.waiting[s], pending[s])
    ensures a.cluster.nodes[s].id == s && (pending[s] == [] ==> a.cluster.nodes[s] == c.nodes[s])
  {
    hide Halfway, WholeNode, Heard, Begins, Waiting;
    HalfwayNone(p, servers, c.nodes[s]);
    HalfwayId(p, servers, c.nodes[s], pending[s]);
  }

  /** The cluster of whole steps runs what was put off: s comes level. */
  lemma {:induction false} CatchesUp(p: Policy, servers: seq<ServerId>, c: Cluster, s: ServerId, doings: seq<Doing>,
                                     run: seq<Happening>)
    returns (run': seq<Happening>, c': Cluster)
    requires c == TornRun(p, servers, run) && Election.Placed(servers, c) && s in c.nodes && Heard(c.network, doings)
    ensures c' == TornRun(p, servers, run') && (AllClean(run) ==> AllClean(run'))
    ensures Election.Placed(servers, c') && c'.nodes == c.nodes[s := WholeNode(p, servers, c.nodes[s], doings)]
    ensures c'.network == c.network + WholeOut(p, servers, c.nodes[s], doings)
    ensures c'.history.applied == c.history.applied + Did(p, servers, c.nodes[s], doings)
  {
    hide TornRun, React, Step, Runs, Applies, Halfway;
    var n := c.nodes[s];
    if doings == [] {
      run', c' := run, c;
    } else {
      var init, d := doings[..|doings| - 1], doings[|doings| - 1];
      assert d in doings && forall x :: x in init ==> x in doings;
      run', c' := CatchesUp(p, servers, c, s, init, run);
      var w, m := WholeNode(p, servers, n, init), Halfway(p, servers, n, init);
      HalfwayAlike(p, servers, n, init);
      if d.Ran? {
        RunsAlike(w, m, d.event);
        if Runs(w, d.event) {
          RunsMeans(w, d.event);
          var c1 := c';
          StepNodes(p.fixes, servers, c1, d.event);
          TornOneMore(p, servers, run', Whole(d.event));
          run', c' := run' + [Whole(d.event)], Step(p.fixes, servers, c1, d.event);
          assert c1.nodes[s := c'.nodes[s]] == c.nodes[s := c'.nodes[s]];
        }
      }
    }
  }

  // ----- a file, a failure, a send -----

  lemma TheBatch(p: Policy, servers: seq<ServerId>, steady: bool, a: Async, c: Cluster, pending: Pending, s: ServerId,
                 i: nat)
    requires Shadows(p, servers, steady, a, c, pending) && HasBatch(a, s, i)
    ensures s in c.nodes && s in pending && i == 0
    ensures a.waiting[s] == [a.waiting[s][0]] && Without(a.waiting[s], 0) == []
    ensures Waiting(p, servers, c.network, c.nodes[s], a.cluster.nodes[s], pending[s], a.waiting[s][0])
  {
    hide Waiting;
    ServerFollows(p, servers, steady, a, c, pending, s);
  }

  lemma WriteNodes(p: Policy, servers: seq<ServerId>, a: Async, s: ServerId, i: nat)
    requires Truthful(a) && HasBatch(a, s, i) && a.waiting[s][i].files < 3
    ensures var a', b := Take(p, servers, a, Write(s, i)), a.waiting[s][i];
      && a'.cluster == SetNode(a.cluster, s, WriteFile(p.fixes, a.cluster.nodes[s], FileAt(p, b.files)))
      && a'.waiting == a.waiting[s := a.waiting[s][i := Batch(b.out, b.files + 1)]]
  {
    hide Truthful;
    WriteIsWrite(p, a, s, i);
  }

  /** The last file of a server that is ahead: it comes level. */
  lemma LastFollows(p: Policy, servers: seq<ServerId>, steady: bool, c: Cluster, s: ServerId, m: Node, b: Batch,
                    doings: seq<Doing>, run: seq<Happening>)
    returns (run': seq<Happening>, c': Cluster)
    requires c == TornRun(p, servers, run) && Election.Placed(servers, c) && s in c.nodes && b.files == 2
    requires Follows(p, servers, steady, c.network, c.nodes[s], m, [b], doings)
    ensures c' == TornRun(p, servers, run') && (AllClean(run) ==> AllClean(run'))
    ensures Election.Placed(servers, c') && c.network <= c'.network
    ensures c'.nodes == c.nodes[s := WriteFile(p.fixes, m, FileAt(p, 2))]
    ensures AppliedKept(p, servers, c.history, c.nodes[s], doings, c'.history, c'.nodes[s], [], {})
    ensures Follows(p, servers, steady, c'.network, c'.nodes[s], c'.nodes[s], [Batch(b.out, 3)], [])
  {
    hide TornRun, WholeNode, WholeOut, Did, Halfway, WriteFile, FileAt, Saved, Written;
    run', c' := CatchesUp(p, servers, c, s, doings, run);
    LastFile(p, servers, c.nodes[s], doings);
    WritesOne(p, m, 2);
    HalfwayNone(p, servers, c'.nodes[s]);
  }

  lemma WriteFollowed(p: Policy, servers: seq<ServerId>, steady: bool, a: Async, c: Cluster, pending: Pending,
                      s: ServerId, i: nat, run: seq<Happening>)
    returns (run': seq<Happening>, c': Cluster, pending': Pending)
    requires Truthful(a) && Shadows(p, servers, steady, a, c, pending) && c == TornRun(p, servers, run)
    requires HasBatch(a, s, i) && a.waiting[s][i].files < 3
    ensures c' == TornRun(p, servers, run') && (AllClean(run) ==> AllClean(run'))
    ensures Shadows(p, servers, steady, Take(p, servers, a, Write(s, i)), c', pending')
  {
    hide TornRun, Take, Truthful, Shadows, Follows, Waiting, WriteFile, FileAt, Did, AppliedKept, AllClean;
    ShadowsNet(p, servers, steady, a, c, pending);
    TheBatch(p, servers, steady, a, c, pending, s, i);
    ServerFollows(p, servers, steady, a, c, pending, s);
    WriteNodes(p, servers, a, s, i);
    var a', b, doings := Take(p, servers, a, Write(s, i)), a.waiting[s][0], pending[s];
    assert [b][0 := Batch(b.out, b.files + 1)] == [Batch(b.out, b.files + 1)];
    assert c.nodes == c.nodes[s := c.nodes[s]];
    run', c' := run, c;
    if doings == [] {
      LevelFollows(p, servers, steady, c.network, c.nodes[s], b);
      SameApplied(p, servers, c.history, c.nodes[s], []);
    } else if b.files < 2 {
      WroteFollows(p, servers, steady, c.network, c.nodes[s], a.cluster.nodes[s], b, doings);
      WroteApplied(p, servers, c.history, c.nodes[s], doings, FileAt(p, b.files));
      doings := doings + [Wrote(FileAt(p, b.files))];
    } else {
      run', c' := LastFollows(p, servers, steady, c, s, a.cluster.nodes[s], b, doings, run);
      doings := [];
    }
    OneMoved(p, servers, steady, a, c, pending, a', c', s, doings, {});
    pending' := pending[s := doings];
  }

  lemma SameApplied(p: Policy, servers: seq<ServerId>, h: History, n: Node, doings: seq<Doing>)
    ensures AppliedKept(p, servers, h, n, doings, h, n, doings, {})
  {
  }

  lemma WroteApplied(p: Policy, servers: seq<ServerId>, h: History, n: Node, doings: seq<Doing>, file: File)
    ensures AppliedKept(p, servers, h, n, doings, h, n, doings + [Wrote(file)], {})
  {
    hide Did;
    LastDoing(p, servers, n, doings, Wrote(file));
  }

  lemma FailFollowed(p: Policy, servers: seq<ServerId>, a: Async, c: Cluster, pending: Pending, s: ServerId, i: nat)
    requires Shadows(p, servers, false, a, c, pending) && HasBatch(a, s, i) && CanFail(p, a, s, i)
    ensures Shadows(p, servers, false, Take(p, servers, a, Fail(s, i)), c, pending)
  {
    hide Shadows, Follows, Waiting, Did, AppliedKept, CanFail, FileAt;
    ShadowsNet(p, servers, false, a, c, pending);
    TheBatch(p, servers, false, a, c, pending, s, i);
    ServerFollows(p, servers, false, a, c, pending, s);
    EmptyFollows(p, servers, false, c.network, c.nodes[s], a.cluster.nodes[s], a.waiting[s], pending[s]);
    SameApplied(p, servers, c.history, c.nodes[s], pending[s]);
    OneMoved(p, servers, false, a, c, pending, Take(p, servers, a, Fail(s, i)), c, s, pending[s], {});
    assert pending[s := pending[s]] == pending;
  }

  lemma SendFollowed(p: Policy, servers: seq<ServerId>, steady: bool, a: Async, c: Cluster, pending: Pending,
                     s: ServerId, i: nat)
    requires Shadows(p, servers, steady, a, c, pending) && HasBatch(a, s, i) && a.waiting[s][i].files == 3
    ensures Shadows(p, servers, steady, Take(p, servers, a, Send(s, i)), c, pending)
  {
    hide Shadows, Follows, Waiting, Did, AppliedKept;
    ShadowsNet(p, servers, steady, a, c, pending);
    TheBatch(p, servers, steady, a, c, pending, s, i);
    ServerFollows(p, servers, steady, a, c, pending, s);
    HalfwayNone(p, servers, c.nodes[s]);
    SentAlready(p, servers, c.network, c.nodes[s], a.cluster.nodes[s], pending[s], a.waiting[s][0]);
    EmptyFollows(p, servers, steady, c.network, c.nodes[s], a.cluster.nodes[s], a.waiting[s], pending[s]);
    SameApplied(p, servers, c.history, c.nodes[s], pending[s]);
    OneMoved(p, servers, steady, a, c, pending, Take(p, servers, a, Send(s, i)), c, s, pending[s], {});
    assert pending[s := pending[s]] == pending;
  }

  // ----- a crash -----

  lemma RestartPlaced(f: Fixes, servers: seq<ServerId>, c: Cluster, n: Node, c': Cluster)
    requires Election.Placed(servers, c) && n.id in c.nodes && c'.nodes == c.nodes[n.id := Restart(f, n)]
    ensures Election.Placed(servers, c')
  {
  }

  lemma CrashFollowed(p: Policy, servers: seq<ServerId>, steady: bool, a: Async, c: Cluster, pending: Pending,
                      s: ServerId, run: seq<Happening>)
    returns (run': seq<Happening>, c': Cluster)
    requires Shadows(p, servers, steady, a, c, pending) && c == TornRun(p, servers, run)
    requires s in a.cluster.nodes && s in a.inSync
    ensures c' == TornRun(p, servers, run') && s in pending
    ensures AllClean(run) && Clean(pending[s]) ==> AllClean(run')
    ensures Shadows(p, servers, steady, Take(p, servers, a, Crash(s)), c', pending[s := []])
  {
    hide TornRun, Shadows, Follows, Did, AppliedKept, Restart, Halfway, Traces, Tears, Election.Placed;
    ShadowsNet(p, servers, steady, a, c, pending);
    ServerFollows(p, servers, steady, a, c, pending, s);
    var torn := Torn(s, pending[s]);
    FollowsTears(p, servers, steady, c, a.cluster.nodes[s], a.waiting[s], s, pending[s]);
    run', c' := run + [torn], Happen(p, servers, c, torn);
    TornOneMore(p, servers, run, torn);
    RestartPlaced(p.fixes, servers, c, a.cluster.nodes[s], c');
    RestartFollows(p, servers, steady, c'.network, c'.nodes[s]);
    TornApplied(p, servers, c.history, c.nodes[s], pending[s], c'.nodes[s]);
    OneMoved(p, servers, steady, a, c, pending, Take(p, servers, a, Crash(s)), c', s, [], {});
  }

  lemma FollowsTears(p: Policy, servers: seq<ServerId>, steady: bool, c: Cluster, m: Node, waiting: seq<Batch>,
                     s: ServerId, doings: seq<Doing>)
    requires s in c.nodes && Follows(p, servers, steady, c.network, c.nodes[s], m, waiting, doings)
    ensures Tears(p, servers, c, s, doings) && m == Halfway(p, servers, c.nodes[s], doings)
  {
    hide Begins, Halfway, Waiting;
  }

  lemma TornApplied(p: Policy, servers: seq<ServerId>, h: History, n: Node, doings: seq<Doing>, r: Node)
    ensures AppliedKept(p, servers, h, n, doings, Traces(p, servers, h, n, doings), r, [], {})
  {
    hide Did, Traces;
    TracesApply(p, servers, h, n, doings);
  }

  // ----- every run -----

  /** Every crash finds a write of three files done or not begun. */
  ghost predicate Untorn(p: Policy, servers: seq<ServerId>, moves: seq<Move>) {
    moves == [] ||
      var init, last := moves[..|moves| - 1], moves[|moves| - 1];
      Untorn(p, servers, init) && (last.Crash? ==> Finished(AsyncRun(p, servers, init), last.server))
  }

  ghost predicate Finished(a: Async, s: ServerId) {
    s in a.waiting ==> forall b :: b in a.waiting[s] ==> b.files == 0 || b.files == 3
  }

  lemma FinishedClean(p: Policy, servers: seq<ServerId>, a: Async, c: Cluster, pending: Pending, s: ServerId)
    requires Shadows(p, servers, true, a, c, pending) && s in c.nodes && Finished(a, s)
    ensures s in pending && Clean(pending[s])
  {
    hide Halfway, WholeNode, WholeOut, Heard, Begins, Saved, Written;
    ServerFollows(p, servers, true, a, c, pending, s);
  }

  lemma BeginFollowed(p: Policy, servers: seq<ServerId>, steady: bool)
    requires Distinct(servers)
    ensures Shadows(p, servers, steady, Begin(p, servers), Start(servers), map s | s in servers :: [])
  {
    hide Follows;
    forall s | s in Start(servers).nodes
      ensures Follows(p, servers, steady, {}, Start(servers).nodes[s], Start(servers).nodes[s], [], [])
    {
      RestartFollows(p, servers, steady, {}, Start(servers).nodes[s]);
    }
  }

  /** The conditions under which awaits can be left out. */
  ghost predicate Reducible(p: Policy, moves: seq<Move>) {
    p.serial && (Steady(moves) || (p.checked && p.fixes.persistsFirst))
  }

  lemma MoveFollowed(p: Policy, servers: seq<ServerId>, steady: bool, a: Async, c: Cluster, pending: Pending, m: Move,
                     run: seq<Happening>)
    returns (run': seq<Happening>, c': Cluster, pending': Pending)
    requires p.serial && Truthful(a) && Shadows(p, servers, steady, a, c, pending) && c == TornRun(p, servers, run)
    requires if steady then !m.Fail? else p.fixes.persistsFirst
    ensures c' == TornRun(p, servers, run') && Shadows(p, servers, steady, Take(p, servers, a, m), c', pending')
    ensures AllClean(run) && steady && (m.Crash? ==> Finished(a, m.server)) ==> AllClean(run')
  {
    hide TornRun, Shadows, HandleEvent, CanHandle, WriteNext, FailNext, CanFail, Restart, Finished, AllClean, Truthful;
    ShadowsNet(p, servers, steady, a, c, pending);
    run', c', pending' := run, c, pending;
    match m
    case Handle(e) =>
      if CanHandle(p, a, e) {
        run', c', pending' := HandleFollowed(p, servers, steady, a, c, pending, e, run);
      }
    case Write(s, i) =>
      if HasBatch(a, s, i) && a.waiting[s][i].files < 3 {
        run', c', pending' := WriteFollowed(p, servers, steady, a, c, pending, s, i, run);
      }
    case Fail(s, i) =>
      if HasBatch(a, s, i) && CanFail(p, a, s, i) {
        FailFollowed(p, servers, a, c, pending, s, i);
      }
    case Send(s, i) =>
      if HasBatch(a, s, i) && a.waiting[s][i].files == 3 {
        SendFollowed(p, servers, steady, a, c, pending, s, i);
      }
    case Crash(s) =>
      if s in a.cluster.nodes && s in a.waiting && s in a.inSync {
        run', c' := CrashFollowed(p, servers, steady, a, c, pending, s, run);
        pending' := pending[s := []];
        if steady && Finished(a, s) {
          FinishedClean(p, servers, a, c, pending, s);
        }
      }
  }

  /** The run behind a run with its awaits apart: of whole steps, but for crashes of servers that
      are ahead of their disks. */
  lemma {:induction false} Reduces(p: Policy, servers: seq<ServerId>, moves: seq<Move>)
    returns (run: seq<Happening>, c: Cluster, pending: Pending)
    requires Reducible(p, moves) && Distinct(servers)
    ensures c == TornRun(p, servers, run)
    ensures Shadows(p, servers, Steady(moves), AsyncRun(p, servers, moves), c, pending)
    ensures Steady(moves) && Untorn(p, servers, moves) ==> AllClean(run)
  {
    run, c, pending := FollowsRun(p, servers, Steady(moves), moves);
  }

  lemma {:induction false} FollowsRun(p: Policy, servers: seq<ServerId>, steady: bool, moves: seq<Move>)
    returns (run: seq<Happening>, c: Cluster, pending: Pending)
    requires p.serial && Distinct(servers) && if steady then Steady(moves) else p.checked && p.fixes.persistsFirst
    ensures c == TornRun(p, servers, run) && Shadows(p, servers, steady, AsyncRun(p, servers, moves), c, pending)
    ensures steady && Untorn(p, servers, moves) ==> AllClean(run)
  {
    if moves == [] {
      BeginFollowed(p, servers, steady);
      run, c, pending := [], Start(servers), map s | s in servers :: [];
    } else {
      hide TornRun, Shadows, Take, Finished, AllClean, Truthful;
      var init, last := moves[..|moves| - 1], moves[|moves| - 1];
      assert last in moves && forall m :: m in init ==> m in moves;
      run, c, pending := FollowsRun(p, servers, steady, init);
      RunTruthful(p, servers, init);
      run, c, pending := MoveFollowed(p, servers, steady, AsyncRun(p, servers, init), c, pending, last, run);
    }
  }

  // ----- a server alone -----

  /** It hears nothing and commits nothing. */
  ghost predicate Silent(servers: seq<ServerId>, a: Async) {
    && a.cluster.network == {} && a.cluster.history.applied == {}
    && (forall s :: s in a.cluster.nodes ==>
          s in servers && a.cluster.nodes[s].id == s && a.cluster.nodes[s].commitIndex == 0)
    && (forall s, b :: s in a.waiting && b in a.waiting[s] ==> b.out == [])
  }

  lemma ReactSilent(f: Fixes, servers: seq<ServerId>, n: Node, e: Event)
    requires |servers| <= 1 && n.id in servers && n.commitIndex == 0 && !e.Deliver? && !e.Restarted?
    requires (e.Heartbeat? ==> n.state.Leader?) && (e.Apply? ==> CanApply(n))
    ensures var o := React(f, servers, n, e); !e.Apply? && o.out == [] && o.node.commitIndex == 0 && o.node.id == n.id
  {
    assert servers == [n.id] && servers[1..] == [];
    assert Peers(servers, n.id) == [];
  }

  lemma HandleSilent(p: Policy, servers: seq<ServerId>, a: Async, e: Event)
    requires |servers| <= 1 && Silent(servers, a) && CanHandle(p, a, e)
    ensures Silent(servers, HandleEvent(p, servers, a, e))
  {
    hide React, Record, Waits, CanApply;
    var n := a.cluster.nodes[Actor(e)];
    EnabledFacts(a.cluster, e);
    ReactSilent(p.fixes, servers, n, e);
    RecordApplies(a.cluster.history, n, e, React(p.fixes, servers, n, e));
  }

  lemma MoveSilent(p: Policy, servers: seq<ServerId>, a: Async, m: Move)
    requires |servers| <= 1 && Silent(servers, a)
    ensures Silent(servers, Take(p, servers, a, m))
  {
    hide HandleEvent, CanHandle;
    match m
    case Handle(e) =>
      if CanHandle(p, a, e) {
        HandleSilent(p, servers, a, e);
      }
    case Write(s, i) =>
      if HasBatch(a, s, i) && a.waiting[s][i].files < 3 {
        assert a.waiting[s][i] in a.waiting[s];
      }
    case Fail(s, i) =>
    case Send(s, i) =>
      if HasBatch(a, s, i) {
        assert a.waiting[s][i] in a.waiting[s];
      }
    case Crash(s) =>
  }

  lemma {:induction false} RunSilent(p: Policy, servers: seq<ServerId>, moves: seq<Move>)
    requires |servers| <= 1
    ensures Silent(servers, AsyncRun(p, servers, moves))
  {
    hide Silent, Take;
    if moves == [] {
      BeginSilent(p, servers);
    } else {
      RunSilent(p, servers, moves[..|moves| - 1]);
      MoveSilent(p, servers, AsyncRun(p, servers, moves[..|moves| - 1]), moves[|moves| - 1]);
    }
  }

  lemma BeginSilent(p: Policy, servers: seq<ServerId>)
    ensures Silent(servers, Begin(p, servers))
  {
  }

  // ----- what follows -----

  /** A server that is ahead crashes; what it has applied is on record. */
  lemma Falls(p: Policy, servers: seq<ServerId>, c: Cluster, s: ServerId, doings: seq<Doing>, run: seq<Happening>)
    returns (run': seq<Happening>, c': Cluster)
    requires c == TornRun(p, servers, run) && Tears(p, servers, c, s, doings) && s in c.nodes
    ensures c' == TornRun(p, servers, run') && c'.network == c.network && s in c'.nodes
    ensures c'.nodes == c.nodes[s := c'.nodes[s]]
    ensures c'.history.applied == c.history.applied + Did(p, servers, c.nodes[s], doings)
  {
    hide TornRun, Did, Restart, Halfway, Traces, Tears;
    run', c' := run + [Torn(s, doings)], Happen(p, servers, c, Torn(s, doings));
    TornOneMore(p, servers, run, Torn(s, doings));
    TracesApply(p, servers, c.history, c.nodes[s], doings);
  }

  lemma TearsStill(p: Policy, servers: seq<ServerId>, c: Cluster, c': Cluster, s: ServerId, doings: seq<Doing>)
    requires Tears(p, servers, c, s, doings) && s in c'.nodes && c'.nodes[s] == c.nodes[s] && c'.network == c.network
    ensures Tears(p, servers, c', s, doings)
  {
    hide Begins;
  }

  /** Any two commands applied are applied in one run without awaits. */
  lemma BothApplied(p: Policy, servers: seq<ServerId>, steady: bool, a: Async, c: Cluster, pending: Pending,
                    run: seq<Happening>, x: Applied, y: Applied)
    returns (run': seq<Happening>)
    requires Shadows(p, servers, steady, a, c, pending) && c == TornRun(p, servers, run)
    requires x in a.cluster.history.applied && y in a.cluster.history.applied
    ensures var applied := TornRun(p, servers, run').history.applied; x in applied && y in applied
  {
    hide TornRun, Follows, Did, Tears;
    run' := run;
    var c' := c;
    assert AppliedToo(p, servers, c, pending, x) && AppliedToo(p, servers, c, pending, y);
    if x !in c.history.applied {
      var s :| s in c.nodes && s in pending && x in Did(p, servers, c.nodes[s], pending[s]);
      FollowsTears(p, servers, steady, c, a.cluster.nodes[s], a.waiting[s], s, pending[s]);
      run', c' := Falls(p, servers, c, s, pending[s], run);
    }
    if y !in c'.history.applied {
      var t :| t in c.nodes && t in pending && y in Did(p, servers, c.nodes[t], pending[t]);
      FollowsTears(p, servers, steady, c, a.cluster.nodes[t], a.waiting[t], t, pending[t]);
      TearsStill(p, servers, c, c', t, pending[t]);
      run', c' := Falls(p, servers, c', t, pending[t], run');
    }
  }

  lemma SameCommand(c: Cluster, x: Applied, y: Applied)
    requires StateMachineSafe(c) && x in c.history.applied && y in c.history.applied && x.index == y.index
    ensures x.command == y.command
  {
  }

  /** State Machine Safety with the awaits apart: commands applied before the handler's writes,
      failed writes and a crash at any moment included. */
  lemma {:induction false} StateMachineSafety(p: Policy, servers: seq<ServerId>, moves: seq<Move>)
    requires p.fixes == CORRECTED && p.serial && p.termFirst && Distinct(servers) && (p.checked || Steady(moves))
    ensures StateMachineSafe(AsyncRun(p, servers, moves).cluster)
  {
    hide TornRun, AsyncRun, Shadows, LogsMatch, StateMachineSafe;
    var a := AsyncRun(p, servers, moves);
    if |servers| <= 1 {
      RunSilent(p, servers, moves);
      SilentIsSafe(servers, a);
    } else {
      var run, c, pending := Reduces(p, servers, moves);
      forall x, y | x in a.cluster.history.applied && y in a.cluster.history.applied && x.index == y.index
        ensures x.command == y.command
      {
        var run' := BothApplied(p, servers, Steady(moves), a, c, pending, run, x, y);
        TornSafety(p, servers, run');
        SameCommand(TornRun(p, servers, run'), x, y);
      }
      SafeIf(a.cluster);
    }
  }

  lemma SilentIsSafe(servers: seq<ServerId>, a: Async)
    requires Silent(servers, a)
    ensures StateMachineSafe(a.cluster)
  {
  }

  lemma SafeIf(c: Cluster)
    requires forall x, y :: x in c.history.applied && y in c.history.applied && x.index == y.index ==>
      x.command == y.command
    ensures StateMachineSafe(c)
  {
  }

  /** Any two logs in memory are two logs of one run without awaits. */
  lemma BothLogs(p: Policy, servers: seq<ServerId>, steady: bool, a: Async, c: Cluster, pending: Pending,
                 run: seq<Happening>, s: ServerId, t: ServerId)
    returns (run': seq<Happening>)
    requires Shadows(p, servers, steady, a, c, pending) && s in c.nodes && t in c.nodes && c == TornRun(p, servers, run)
    ensures AllClean(run) ==> AllClean(run')
    ensures var c' := TornRun(p, servers, run');
      && s in c'.nodes && s in a.cluster.nodes && c'.nodes[s].mem.log == a.cluster.nodes[s].mem.log
      && t in c'.nodes && t in a.cluster.nodes && c'.nodes[t].mem.log == a.cluster.nodes[t].mem.log
  {
    hide TornRun, Follows, Halfway, WholeNode, AllClean, AppliedToo;
    var c';
    ShadowsNet(p, servers, steady, a, c, pending);
    ServerFollows(p, servers, steady, a, c, pending, s);
    ServerFollows(p, servers, steady, a, c, pending, t);
    FollowsHeard(p, servers, steady, c.network, c.nodes[s], a.cluster.nodes[s], a.waiting[s], pending[s]);
    FollowsHeard(p, servers, steady, c.network, c.nodes[t], a.cluster.nodes[t], a.waiting[t], pending[t]);
    HalfwayAlike(p, servers, c.nodes[s], pending[s]);
    HalfwayAlike(p, servers, c.nodes[t], pending[t]);
    run', c' := CatchesUp(p, servers, c, s, pending[s], run);
    if t != s {
      assert c'.nodes[t] == c.nodes[t];
      run', c' := CatchesUp(p, servers, c', t, pending[t], run');
    }
  }

  lemma MatchAt(c: Cluster, s: ServerId, t: ServerId, i: nat)
    requires LogsMatch(c) && s in c.nodes && t in c.nodes && i < |c.nodes[s].mem.log| && i < |c.nodes[t].mem.log|
    requires c.nodes[s].mem.log[i].term == c.nodes[t].mem.log[i].term
    ensures c.nodes[s].mem.log[..i + 1] == c.nodes[t].mem.log[..i + 1]
  {
  }

  lemma StepSame(f: Fixes, servers: seq<ServerId>, c: Cluster, d: Cluster, e: Event)
    requires c.nodes == d.nodes && c.network == d.network
    ensures Step(f, servers, c, e).nodes == Step(f, servers, d, e).nodes
    ensures Step(f, servers, c, e).network == Step(f, servers, d, e).network
  {
    hide React, Record, CanApply;
  }

  lemma CleanFall(p: Policy, servers: seq<ServerId>, c: Cluster, d: Cluster, s: ServerId, doings: seq<Doing>)
    requires Clean(doings) && Tears(p, servers, c, s, doings) && Election.Placed(servers, d)
    requires c.nodes == d.nodes && c.network == d.network
    ensures var c', d' := Happen(p, servers, c, Torn(s, doings)), Step(p.fixes, servers, d, Restarted(s));
      c'.nodes == d'.nodes && c'.network == d'.network
  {
    hide Traces, Halfway, Restart, Begins;
    CleanDisk(p, servers, c.nodes[s], doings);
    RestartForgets(p.fixes, c.nodes[s], Halfway(p, servers, c.nodes[s], doings));
  }

  /** Without a file on the way a crash is a restart: a run of whole steps has the same servers. */
  lemma {:induction false} WholeRun(p: Policy, servers: seq<ServerId>, run: seq<Happening>) returns (events: seq<Event>)
    requires AllClean(run) && Distinct(servers)
    ensures Run(p.fixes, servers, events).nodes == TornRun(p, servers, run).nodes
    ensures Run(p.fixes, servers, events).network == TornRun(p, servers, run).network
  {
    events := [];
    if run != [] {
      hide Step, Tears, Run;
      var init, x := run[..|run| - 1], run[|run| - 1];
      assert x in run && forall y :: y in init ==> y in run;
      events := WholeRun(p, servers, init);
      var c, d := TornRun(p, servers, init), Run(p.fixes, servers, events);
      RunPlaced(p.fixes, servers, events);
      match x
      case Whole(e) =>
        StepSame(p.fixes, servers, c, d, e);
        RunOneMore(p.fixes, servers, events, e);
        events := events + [e];
      case Torn(s, doings) =>
        if Tears(p, servers, c, s, doings) {
          CleanFall(p, servers, c, d, s, doings);
          RunOneMore(p.fixes, servers, events, Restarted(s));
          events := events + [Restarted(s)];
        }
    }
  }

  /** The policies and runs for which Log Matching is proved without awaits. */
  ghost predicate Matched(p: Policy, run: seq<Happening>) {
    || (Election.VotesBind(p.fixes) && p.termFirst)
    || (MatchingRuns.KeepsMatching(p.fixes) && AllClean(run))
  }

  lemma MatchedMatches(p: Policy, servers: seq<ServerId>, run: seq<Happening>)
    requires Matched(p, run) && Distinct(servers) && |servers| > 1
    ensures LogsMatch(TornRun(p, servers, run))
  {
    if Election.VotesBind(p.fixes) && p.termFirst {
      TornMatching.LogMatching(p, servers, run);
    } else {
      hide TornRun, Run;
      var events := WholeRun(p, servers, run);
      MatchingRuns.LogMatchingIff(p.fixes);
      assert LogsMatch(Run(p.fixes, servers, events));
    }
  }

  lemma AloneMatches(servers: seq<ServerId>, a: Async)
    requires Silent(servers, a) && |servers| <= 1
    ensures LogsMatch(a.cluster)
  {
  }

  /** Log Matching with the awaits apart, for every policy under which votes bind, failed writes and
      a crash at any moment included; and for every other policy that has it in whole steps, if no
      write fails and no crash comes in the middle of one. */
  lemma {:induction false} LogMatching(p: Policy, servers: seq<ServerId>, moves: seq<Move>)
    requires p.serial && Distinct(servers)
    requires || (Election.VotesBind(p.fixes) && p.termFirst && (p.checked || Steady(moves)))
             || (MatchingRuns.KeepsMatching(p.fixes) && Steady(moves) && Untorn(p, servers, moves))
    ensures LogsMatch(AsyncRun(p, servers, moves).cluster)
  {
    hide TornRun, AsyncRun, Shadows, AllClean, Silent;
    var a := AsyncRun(p, servers, moves);
    if |servers| <= 1 {
      RunSilent(p, servers, moves);
      AloneMatches(servers, a);
    } else {
      var run, c, pending := Reduces(p, servers, moves);
      ShadowsNet(p, servers, Steady(moves), a, c, pending);
      forall s, t, i | s in a.cluster.nodes && t in a.cluster.nodes && 0 <= i < |a.cluster.nodes[s].mem.log|
          && i < |a.cluster.nodes[t].mem.log|
          && a.cluster.nodes[s].mem.log[i].term == a.cluster.nodes[t].mem.log[i].term
        ensures a.cluster.nodes[s].mem.log[..i + 1] == a.cluster.nodes[t].mem.log[..i + 1]
      {
        var run' := BothLogs(p, servers, Steady(moves), a, c, pending, run, s, t);
        MatchedMatches(p, servers, run');
        MatchAt(TornRun(p, servers, run'), s, t, i);
      }
    }
  }
}
