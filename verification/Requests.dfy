/** Client requests and the one-shot listeners that answer them: over every interleaving of
    requests and executions, who is called, how often, and with whose result. */
module Requests {
  import opened RaftTypes

  /** The identity of a command object: listeners are kept by object, not by content. */
  type Ref = nat

  /** The listener of some request was called with the result of the entry at index. */
  datatype Reply = Reply(request: nat, index: nat, result: Bytes)

  /** The command objects of the leader's entries, request k having appended entry k; the
      listeners waiting for each object, in the order they came; and the calls made. */
  datatype Desk = Desk(log: seq<Ref>, waiting: map<Ref, seq<nat>>, replies: seq<Reply>)

  datatype Turn =
    | Requested(command: Ref)
    | Executed(index: nat, result: Bytes)   // the state machine answers for an entry

  function Replies(listeners: seq<nat>, index: nat, result: Bytes): seq<Reply> {
    seq(|listeners|, i requires 0 <= i < |listeners| => Reply(listeners[i], index, result))
  }

  /** onceExecuted. */
  function Register(d: Desk, command: Ref, listener: nat): Desk {
    d.(waiting := d.waiting[command := (if command in d.waiting then d.waiting[command] else []) + [listener]])
  }

  /** notifyExecuted: everyone waiting for the object is called once and forgotten. */
  function Notify(d: Desk, command: Ref, index: nat, result: Bytes): Desk {
    if command !in d.waiting then d
    else Desk(d.log, d.waiting - {command}, d.replies + Replies(d.waiting[command], index, result))
  }

  function Take(d: Desk, t: Turn): Desk {
    match t
    case Requested(command) => Register(d.(log := d.log + [command]), command, |d.log|)
    case Executed(index, result) => if index < |d.log| then Notify(d, d.log[index], index, result) else d
  }

  function After(turns: seq<Turn>): Desk {
    if turns == [] then Desk([], map[], []) else Take(After(turns[..|turns| - 1]), turns[|turns| - 1])
  }

  class ObservableStateMachine {
    var waiting: map<Ref, seq<nat>>
    var replies: seq<Reply>

    constructor ()
      ensures waiting == map[] && replies == []
    {
      waiting, replies := map[], [];
    }

    /** The listener joins those waiting for the object. */
    method OnceExecuted(command: Ref, listener: nat)
      modifies this
      ensures forall log ::
        Desk(log, waiting, replies) == Register(Desk(log, old(waiting), old(replies)), command, listener)
    {
      if command !in waiting {
        waiting := waiting[command := []];
      }
      waiting := waiting[command := waiting[command] + [listener]];
    }

    /** Everyone waiting for the object is called, in order, and forgotten. */
    method NotifyExecuted(command: Ref, index: nat, result: Bytes)
      modifies this
      ensures forall log ::
        Desk(log, waiting, replies) == Notify(Desk(log, old(waiting), old(replies)), command, index, result)
    {
      if command in waiting {
        var listeners := waiting[command];
        for i := 0 to |listeners|
          invariant waiting == old(waiting)
          invariant replies == old(replies) + Replies(listeners, index, result)[..i]
        {
          replies := replies + [Reply(listeners[i], index, result)];
        }
        waiting := waiting - {command};
      }
    }
  }

  // ----- each listener once -----

  ghost predicate Waits(d: Desk, request: nat) {
    request < |d.log| && d.log[request] in d.waiting && request in d.waiting[d.log[request]]
  }

  ghost predicate Answered(d: Desk, request: nat) {
    exists k :: 0 <= k < |d.replies| && d.replies[k].request == request
  }

  /** Every request is waiting or answered, not both; no request is answered twice. */
  ghost predicate OnceEach(d: Desk) {
    && (forall r :: 0 <= r < |d.log| ==> (Waits(d, r) <==> !Answered(d, r)))
    && (forall i, j :: 0 <= i < j < |d.replies| ==> d.replies[i].request != d.replies[j].request)
  }

  ghost predicate Queue(d: Desk, command: Ref)
    requires command in d.waiting
  {
    var q := d.waiting[command];
    && (forall i :: 0 <= i < |q| ==> q[i] < |d.log| && d.log[q[i]] == command)
    && (forall i, j :: 0 <= i < j < |q| ==> q[i] < q[j])
  }

  /** Every reply went to a request that had passed the object of the executed entry. */
  ghost predicate Inv(d: Desk) {
    && OnceEach(d)
    && (forall command :: command in d.waiting ==> Queue(d, command))
    && (forall k :: 0 <= k < |d.replies| ==>
          d.replies[k].request < |d.log| && d.replies[k].index < |d.log|
          && d.log[d.replies[k].request] == d.log[d.replies[k].index])
  }

  lemma RequestOk(d: Desk, command: Ref)
    requires Inv(d)
    ensures Inv(Take(d, Requested(command)))
  {
    var d' := Take(d, Requested(command));
    var q := d'.waiting[command];
    assert q[|q| - 1] == |d.log|;
    forall r | 0 <= r < |d'.log| ensures Waits(d', r) <==> !Answered(d', r) {
      if r < |d.log| {
        assert Waits(d, r) <==> !Answered(d, r);
        assert r in q <==> command in d.waiting && r in d.waiting[command];
      }
    }
    forall c | c in d'.waiting ensures Queue(d', c) {
      assert c in d.waiting ==> Queue(d, c);
    }
  }

  lemma NotifyReplies(d: Desk, command: Ref, index: nat, result: Bytes)
    requires Inv(d) && index < |d.log| && d.log[index] == command && command in d.waiting
    ensures var d', n := Notify(d, command, index, result), |d.replies|;
      && |d'.replies| == n + |d.waiting[command]| && d'.log == d.log
      && (forall k :: 0 <= k < |d'.replies| ==>
            d'.replies[k] == if k < n then d.replies[k] else Reply(d.waiting[command][k - n], index, result))
  {
  }

  lemma NotifyOnce(d: Desk, command: Ref, index: nat, result: Bytes, r: nat)
    requires Inv(d) && index < |d.log| && d.log[index] == command && command in d.waiting && r < |d.log|
    ensures var d' := Notify(d, command, index, result); Waits(d', r) <==> !Answered(d', r)
  {
    var d', n := Notify(d, command, index, result), |d.replies|;
    NotifyReplies(d, command, index, result);
    assert Queue(d, command);
    var q := d.waiting[command];
    assert Waits(d, r) <==> !Answered(d, r);
    if d.log[r] == command && r in q {
      var i :| 0 <= i < |q| && q[i] == r;
      assert d'.replies[n + i].request == r;
    } else {
      assert Answered(d', r) ==> Answered(d, r);
      if Answered(d, r) {
        var k :| 0 <= k < n && d.replies[k].request == r;
        assert d'.replies[k].request == r;
      }
    }
  }

  lemma NotifyOk(d: Desk, command: Ref, index: nat, result: Bytes)
    requires Inv(d) && index < |d.log| && d.log[index] == command
    ensures Inv(Notify(d, command, index, result))
  {
    if command in d.waiting {
      hide Waits, Answered;
      var d', n := Notify(d, command, index, result), |d.replies|;
      NotifyReplies(d, command, index, result);
      assert Queue(d, command);
      forall r | 0 <= r < |d'.log| ensures Waits(d', r) <==> !Answered(d', r) {
        NotifyOnce(d, command, index, result, r);
      }
      forall i, j | 0 <= i < j < |d'.replies| ensures d'.replies[i].request != d'.replies[j].request {
        if i < n <= j {
          NotAnsweredYet(d, command, i, j - n);
        }
      }
      forall c | c in d'.waiting ensures Queue(d', c) {
        assert Queue(d, c);
      }
    }
  }

  lemma NotAnsweredYet(d: Desk, command: Ref, k: nat, i: nat)
    requires Inv(d) && k < |d.replies| && command in d.waiting && i < |d.waiting[command]|
    ensures d.replies[k].request != d.waiting[command][i]
  {
    var r := d.waiting[command][i];
    assert Queue(d, command);
    assert Waits(d, r);
  }

  /** Over every run: every request is either still waiting or was answered, exactly once. */
  lemma {:induction false} EveryRequestIsAnsweredOnce(turns: seq<Turn>)
    ensures Inv(After(turns))
  {
    hide Inv, Take;
    if turns == [] {
      NobodyWaits();
    } else {
      var d, t := After(turns[..|turns| - 1]), turns[|turns| - 1];
      EveryRequestIsAnsweredOnce(turns[..|turns| - 1]);
      match t
      case Requested(command) => RequestOk(d, command);
      case Executed(index, result) =>
        ExecutedIs(d, index, result);
        if index < |d.log| {
          NotifyOk(d, d.log[index], index, result);
        }
    }
  }

  lemma ExecutedIs(d: Desk, index: nat, result: Bytes)
    ensures Take(d, Executed(index, result)) == if index < |d.log| then Notify(d, d.log[index], index, result) else d
  {
  }

  lemma NobodyWaits()
    ensures Inv(Desk([], map[], []))
  {
  }

  // ----- when, with what, in what order -----

  /** The state machine answers for an entry with the object that request r has passed before. */
  ghost predicate Serves(d: Desk, t: Turn, r: nat) {
    t.Executed? && t.index < |d.log| && r < |d.log| && d.log[t.index] == d.log[r]
  }

  lemma NotifyAnswers(d: Desk, command: Ref, index: nat, result: Bytes, r: nat)
    requires Inv(d) && index < |d.log| && d.log[index] == command && command in d.waiting
    ensures Answered(Notify(d, command, index, result), r) <==> Answered(d, r) || r in d.waiting[command]
  {
    var d', n := Notify(d, command, index, result), |d.replies|;
    NotifyReplies(d, command, index, result);
    if Answered(d, r) {
      var k :| 0 <= k < n && d.replies[k].request == r;
      assert d'.replies[k].request == r;
    } else if r in d.waiting[command] {
      var i :| 0 <= i < |d.waiting[command]| && d.waiting[command][i] == r;
      assert d'.replies[n + i].request == r;
    }
  }

  lemma TakeServes(d: Desk, t: Turn, r: nat)
    requires Inv(d)
    ensures Answered(Take(d, t), r) <==> Answered(d, r) || Serves(d, t, r)
  {
    hide Notify, Register;
    if t.Executed? && t.index < |d.log| {
      var command := d.log[t.index];
      assert Serves(d, t, r) ==> (Waits(d, r) <==> !Answered(d, r));
      if command in d.waiting {
        assert Queue(d, command);
        NotifyAnswers(d, command, t.index, t.result, r);
      } else {
        NotifiesNobody(d, command, t.index, t.result);
      }
    } else {
      RequestReplies(d, t);
    }
  }

  lemma NotifiesNobody(d: Desk, command: Ref, index: nat, result: Bytes)
    requires command !in d.waiting
    ensures Notify(d, command, index, result) == d
  {
  }

  lemma RequestReplies(d: Desk, t: Turn)
    requires t.Executed? ==> t.index >= |d.log|
    ensures Take(d, t).replies == d.replies
  {
  }

  ghost predicate ServedAt(turns: seq<Turn>, k: nat, r: nat)
    requires k < |turns|
  {
    Serves(After(turns[..k]), turns[k], r)
  }

  /** Over every run: a request is answered exactly when, after it came, the state machine has
      answered for some entry with its command object. */
  lemma {:induction false} AnsweredIff(turns: seq<Turn>, r: nat)
    ensures Answered(After(turns), r) <==> exists k: nat :: k < |turns| && ServedAt(turns, k, r)
  {
    hide Take, Answered, Serves, Inv;
    if turns == [] {
      NobodyAnswered(r);
    } else {
      var n := |turns| - 1;
      var init := turns[..n];
      AnsweredIff(init, r);
      EveryRequestIsAnsweredOnce(init);
      TakeServes(After(init), turns[n], r);
      assert forall k: nat :: k < n ==> init[..k] == turns[..k];
      assert forall k: nat :: k < n ==> (ServedAt(turns, k, r) <==> ServedAt(init, k, r));
      assert ServedAt(turns, n, r) <==> Serves(After(init), turns[n], r);
    }
  }

  lemma NobodyAnswered(r: nat)
    ensures !Answered(After([]), r)
  {
  }

  /** Each reply carries what the state machine answered for that entry, and requests with one
      object are answered in the order they came. */
  ghost predicate Faithful(d: Desk, turns: seq<Turn>) {
    && (forall k :: 0 <= k < |d.replies| ==> Executed(d.replies[k].index, d.replies[k].result) in turns)
    && (forall i, j :: 0 <= i < j < |d.replies| && d.replies[i].request < |d.log| && d.replies[j].request < |d.log|
          && d.log[d.replies[i].request] == d.log[d.replies[j].request]
          ==> d.replies[i].request < d.replies[j].request)
  }

  /** Whoever was answered came before all that wait for the same object. */
  ghost predicate AnsweredFirst(d: Desk) {
    forall k, command, i :: 0 <= k < |d.replies| && command in d.waiting && 0 <= i < |d.waiting[command]|
      && d.replies[k].request < |d.log| && d.log[d.replies[k].request] == command
      ==> d.replies[k].request < d.waiting[command][i]
  }

  lemma NotifyFaithful(d: Desk, command: Ref, index: nat, result: Bytes, turns: seq<Turn>)
    requires Inv(d) && Faithful(d, turns) && AnsweredFirst(d)
    requires index < |d.log| && d.log[index] == command && Executed(index, result) in turns
    ensures Faithful(Notify(d, command, index, result), turns) && AnsweredFirst(Notify(d, command, index, result))
  {
    if command in d.waiting {
      NotifyReplies(d, command, index, result);
      assert Queue(d, command);
    }
  }

  lemma RequestFaithful(d: Desk, command: Ref, turns: seq<Turn>)
    requires Inv(d) && Faithful(d, turns) && AnsweredFirst(d)
    ensures var d' := Take(d, Requested(command)); Faithful(d', turns) && AnsweredFirst(d')
  {
  }

  lemma FaithfulLater(d: Desk, turns: seq<Turn>, more: seq<Turn>)
    requires Faithful(d, turns) && turns <= more
    ensures Faithful(d, more)
  {
    forall k | 0 <= k < |d.replies| ensures Executed(d.replies[k].index, d.replies[k].result) in more {
      assert Executed(d.replies[k].index, d.replies[k].result) in turns;
    }
  }

  lemma {:induction false} RepliesAreFaithful(turns: seq<Turn>)
    ensures Faithful(After(turns), turns) && AnsweredFirst(After(turns))
  {
    hide Inv, Take, Faithful, AnsweredFirst;
    if turns == [] {
      NothingSaid();
    } else {
      var init, t := turns[..|turns| - 1], turns[|turns| - 1];
      var d := After(init);
      RepliesAreFaithful(init);
      FaithfulLater(d, init, turns);
      EveryRequestIsAnsweredOnce(init);
      match t
      case Requested(command) => RequestFaithful(d, command, turns);
      case Executed(index, result) =>
        ExecutedIs(d, index, result);
        if index < |d.log| {
          NotifyFaithful(d, d.log[index], index, result, turns);
        }
    }
  }

  lemma NothingSaid()
    ensures Faithful(Desk([], map[], []), []) && AnsweredFirst(Desk([], map[], []))
  {
  }

  // ----- with the result of its own entry -----

  ghost predicate OwnResults(d: Desk) {
    forall k :: 0 <= k < |d.replies| ==> d.replies[k].request == d.replies[k].index
  }

  ghost predicate AllDistinct(commands: seq<Ref>) {
    forall i, j :: 0 <= i < j < |commands| ==> commands[i] != commands[j]
  }

  function AllRequested(commands: seq<Ref>): seq<Turn> {
    seq(|commands|, i requires 0 <= i < |commands| => Requested(commands[i]))
  }

  lemma {:induction false} RequestsQueueUp(commands: seq<Ref>)
    ensures var d := After(AllRequested(commands));
      d.log == commands && d.replies == [] && forall r :: 0 <= r < |commands| ==> Waits(d, r)
  {
    if commands != [] {
      var init, n := commands[..|commands| - 1], |commands| - 1;
      RequestsQueueUp(init);
      assert AllRequested(commands)[..n] == AllRequested(init);
      var d, d' := After(AllRequested(init)), After(AllRequested(commands));
      assert init + [commands[n]] == commands;
      forall r | 0 <= r <= n ensures Waits(d', r) {
        if r < n {
          assert Waits(d, r);
        } else {
          assert d'.waiting[commands[n]][|d'.waiting[commands[n]]| - 1] == n;
        }
      }
    }
  }

  /** Two requests with one command object: the first execution answers both. */
  lemma SharedObject(commands: seq<Ref>, i: nat, j: nat)
    requires i < j < |commands| && commands[i] == commands[j]
    ensures var turns := AllRequested(commands) + [Executed(i, [])];
      After(turns).log == commands && !OwnResults(After(turns))
  {
    var first := AllRequested(commands);
    var turns := first + [Executed(i, [])];
    assert turns[..|first|] == first;
    RequestsQueueUp(commands);
    var d := After(first);
    assert Waits(d, j);
    var q := d.waiting[commands[i]];
    var k :| 0 <= k < |q| && q[k] == j;
    assert After(turns).replies == Replies(q, i, []);
    assert After(turns).replies[k] == Reply(j, i, []);
  }

  /** Whatever the state machine answers and whenever: every resolved request got the result
      of the entry it appended, exactly when no two requests passed the same command object. */
  lemma OwnResultsIff(commands: seq<Ref>)
    ensures (forall turns :: After(turns).log == commands ==> OwnResults(After(turns))) <==> AllDistinct(commands)
  {
    hide After, Waits, OnceEach;
    if AllDistinct(commands) {
      forall turns | After(turns).log == commands ensures OwnResults(After(turns)) {
        EveryRequestIsAnsweredOnce(turns);
        var d := After(turns);
        forall k | 0 <= k < |d.replies| ensures d.replies[k].request == d.replies[k].index {
          assert d.log[d.replies[k].request] == d.log[d.replies[k].index];
        }
      }
    } else {
      var i, j :| 0 <= i < j < |commands| && commands[i] == commands[j];
      SharedObject(commands, i, j);
    }
  }
}
