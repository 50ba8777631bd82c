/** setCommitIndexAndExecuteUnapplied, whose loop gives up control at its await: what happens
    when it is called again before an earlier call has finished, over every interleaving. */
module ApplyLoop {
  import opened RaftTypes

  /** The calls in flight, each waiting for the state machine to answer for one index; every
      index handed to the state machine so far, in order, and the command handed over. */
  datatype Loops = Loops(log: seq<Entry>, commitIndex: nat, lastApplied: nat, waiting: seq<nat>,
                         executed: seq<nat>, commands: seq<Bytes>)

  datatype Turn =
    | Called(index: nat)        // the leader or follower calls with a new commit index
    | Answered(call: nat)       // the state machine answers one of the calls in flight
    | Logged(log: seq<Entry>)   // the log grows, or loses entries that are not committed

  const IDLE := Loops([SENTINEL], 0, 0, [], [], [])

  /** What every run of a corrected server keeps (Safety.CommitWithinLog and
      Safety.NothingTakenBack): the commit index does not fall, stays within the log, and the
      log up to it does not change. */
  predicate Lawful(l: Loops, t: Turn) {
    match t
    case Called(index) => l.commitIndex <= index < |l.log|
    case Answered(call) => call < |l.waiting|
    case Logged(log) =>
      l.commitIndex < |log| && l.commitIndex < |l.log| && log[..l.commitIndex + 1] == l.log[..l.commitIndex + 1]
  }

  /** getEntry(index).command, handed to the state machine. */
  function Execute(l: Loops, index: nat): Loops {
    l.(executed := l.executed + [index],
        commands := l.commands + [if index < |l.log| then l.log[index].command else []])
  }

  /** A call up to its first await. As written every call starts its own loop; corrected
      (oneLoop) a call leaves the work to the loop in flight. */
  function Call(oneLoop: bool, l: Loops, index: nat): Loops {
    if index > l.lastApplied && !(oneLoop && l.waiting != []) then
      Execute(l.(commitIndex := index, waiting := l.waiting + [l.lastApplied + 1]), l.lastApplied + 1)
    else
      l.(commitIndex := index)
  }

  /** A call from its await to the next one, or to its end. */
  function Answer(l: Loops, call: nat): Loops
    requires call < |l.waiting|
  {
    var applied := l.waiting[call];
    if l.commitIndex > applied then
      Execute(l.(lastApplied := applied, waiting := l.waiting[call := applied + 1]), applied + 1)
    else
      l.(lastApplied := applied, waiting := l.waiting[..call] + l.waiting[call + 1..])
  }

  function Take(oneLoop: bool, l: Loops, t: Turn): Loops {
    if !Lawful(l, t) then l
    else
      match t
      case Called(index) => Call(oneLoop, l, index)
      case Answered(call) => Answer(l, call)
      case Logged(log) => l.(log := log)
  }

  function After(oneLoop: bool, turns: seq<Turn>): Loops {
    if turns == [] then IDLE
    else Take(oneLoop, After(oneLoop, turns[..|turns| - 1]), turns[|turns| - 1])
  }

  /** The same steps on the server's fields. */
  class Applier {
    const oneLoop: bool
    var log: seq<Entry>
    var commitIndex: nat
    var lastApplied: nat
    var waiting: seq<nat>
    var executed: seq<nat>
    var commands: seq<Bytes>

    function View(): Loops
      reads this
    {
      Loops(log, commitIndex, lastApplied, waiting, executed, commands)
    }

    constructor (oneLoop: bool)
      ensures this.oneLoop == oneLoop && View() == IDLE
    {
      this.oneLoop := oneLoop;
      log, commitIndex, lastApplied := [SENTINEL], 0, 0;
      waiting, executed, commands := [], [], [];
    }

    /** stateMachine.execute up to its await. */
    method ExecuteEntry(index: nat)
      requires index < |log|
      modifies this`executed, this`commands
      ensures View() == Execute(old(View()), index)
    {
      executed := executed + [index];
      commands := commands + [log[index].command];
    }

    /** A call up to its first await. */
    method SetCommitIndexAndExecuteUnapplied(index: nat)
      requires index < |log|
      modifies this
      ensures View() == Call(oneLoop, old(View()), index)
    {
      commitIndex := index;
      if oneLoop && waiting != [] {
        return;
      }
      if commitIndex > lastApplied {
        var next := lastApplied + 1;
        waiting := waiting + [next];
        ExecuteEntry(next);
      }
    }

    /** The state machine has answered a call. */
    method Resume(call: nat)
      requires call < |waiting| && commitIndex < |log|
      modifies this
      ensures View() == Answer(old(View()), call)
    {
      lastApplied := waiting[call];
      if commitIndex > lastApplied {
        var next := lastApplied + 1;
        waiting := waiting[call := next];
        ExecuteEntry(next);
      } else {
        waiting := waiting[..call] + waiting[call + 1..];
      }
    }
  }

  /** Every command handed over is the command the log holds, for good, at its index. */
  ghost predicate FromLog(l: Loops) {
    && l.lastApplied <= l.commitIndex < |l.log| && (forall w :: w in l.waiting ==> w <= l.commitIndex)
    && |l.commands| == |l.executed|
    && (forall k :: 0 <= k < |l.executed| ==>
          0 < l.executed[k] <= l.commitIndex && l.commands[k] == l.log[l.executed[k]].command)
  }

  lemma CallFromLog(oneLoop: bool, l: Loops, index: nat)
    requires FromLog(l) && l.commitIndex <= index < |l.log|
    ensures FromLog(Call(oneLoop, l, index))
  {
  }

  lemma AnswerFromLog(l: Loops, call: nat)
    requires FromLog(l) && call < |l.waiting|
    ensures FromLog(Answer(l, call))
  {
    var applied, l' := l.waiting[call], Answer(l, call);
    assert applied in l.waiting;
    forall w | w in l'.waiting ensures w <= l.commitIndex {
      assert w in l.waiting || w == applied + 1;
    }
  }

  lemma LoggedFromLog(l: Loops, log: seq<Entry>)
    requires FromLog(l) && Lawful(l, Logged(log))
    ensures FromLog(l.(log := log))
  {
    forall k | 0 <= k < |l.executed| ensures log[l.executed[k]] == l.log[l.executed[k]] {
      assert log[..l.commitIndex + 1][l.executed[k]] == l.log[..l.commitIndex + 1][l.executed[k]];
    }
  }

  lemma FromLogStays(oneLoop: bool, l: Loops, t: Turn)
    requires FromLog(l)
    ensures FromLog(Take(oneLoop, l, t))
  {
    hide FromLog, Call, Answer;
    if Lawful(l, t) {
      match t
      case Called(index) => CallFromLog(oneLoop, l, index);
      case Answered(call) => AnswerFromLog(l, call);
      case Logged(log) => LoggedFromLog(l, log);
    }
  }

  /** As written or corrected, over every interleaving: what is executed for an index is the
      command the log holds there. */
  lemma {:induction false} ExecutesTheLog(oneLoop: bool, turns: seq<Turn>)
    ensures FromLog(After(oneLoop, turns))
  {
    if turns != [] {
      ExecutesTheLog(oneLoop, turns[..|turns| - 1]);
      FromLogStays(oneLoop, After(oneLoop, turns[..|turns| - 1]), turns[|turns| - 1]);
    }
  }

  // ----- a call ends when everything is applied -----

  ghost predicate IdleIsDone(l: Loops) {
    l.waiting == [] ==> l.lastApplied == l.commitIndex
  }

  /** As written or corrected, over every interleaving: when no call is in flight, everything up
      to commitIndex is applied. */
  lemma {:induction false} IdleHasApplied(oneLoop: bool, turns: seq<Turn>)
    ensures IdleIsDone(After(oneLoop, turns))
  {
    if turns != [] {
      var l, t := After(oneLoop, turns[..|turns| - 1]), turns[|turns| - 1];
      IdleHasApplied(oneLoop, turns[..|turns| - 1]);
      ExecutesTheLog(oneLoop, turns[..|turns| - 1]);
      assert Lawful(l, t) && t.Answered? ==> l.waiting[t.call] in l.waiting;
    }
  }

  /** Over every interleaving an answered call has applied its entry; it ends exactly when that
      was the last committed one, and goes on with the next otherwise. The others wait on. */
  lemma CallEndsAtCommitIndex(oneLoop: bool, turns: seq<Turn>, call: nat)
    requires call < |After(oneLoop, turns).waiting|
    ensures var l := After(oneLoop, turns);
      var l', next := Take(oneLoop, l, Answered(call)), l.waiting[call] + 1;
      && l'.lastApplied == l.waiting[call] && l'.commitIndex == l.commitIndex && l'.log == l.log
      && (l'.lastApplied == l'.commitIndex ==>
            l'.waiting == l.waiting[..call] + l.waiting[call + 1..] && l'.executed == l.executed)
      && (l'.lastApplied != l'.commitIndex ==>
            l'.waiting == l.waiting[call := next] && l'.executed == l.executed + [next])
  {
    hide After, FromLog;
    ExecutesTheLog(oneLoop, turns);
    WithinCommit(After(oneLoop, turns), call);
  }

  lemma WithinCommit(l: Loops, call: nat)
    requires FromLog(l) && call < |l.waiting|
    ensures l.waiting[call] <= l.commitIndex
  {
    assert l.waiting[call] in l.waiting;
  }

  /** How many answers the calls in flight still wait for. */
  ghost function Due(commitIndex: nat, waiting: seq<nat>): nat {
    if waiting == [] then 0
    else (if waiting[0] <= commitIndex then commitIndex - waiting[0] + 1 else 0) + Due(commitIndex, waiting[1..])
  }

  lemma AnswerIsProgress(l: Loops)
    requires FromLog(l) && l.waiting != []
    ensures Due(l.commitIndex, Answer(l, 0).waiting) + 1 == Due(l.commitIndex, l.waiting)
    ensures Answer(l, 0).commitIndex == l.commitIndex
  {
    assert l.waiting[0] in l.waiting;
    assert l.waiting[..0] + l.waiting[1..] == l.waiting[1..];
    assert l.waiting[0 := l.waiting[0] + 1][1..] == l.waiting[1..];
  }

  lemma OneMore(oneLoop: bool, turns: seq<Turn>, t: Turn)
    ensures After(oneLoop, turns + [t]) == Take(oneLoop, After(oneLoop, turns), t)
  {
    assert (turns + [t])[..|turns|] == turns;
  }

  /** After any run the state machine's answers alone, as many as are due, bring every call to
      its end, and then everything up to commitIndex is applied. */
  lemma {:induction false} AnswersFinish(oneLoop: bool, turns: seq<Turn>) returns (answers: seq<Turn>)
    ensures |answers| == Due(After(oneLoop, turns).commitIndex, After(oneLoop, turns).waiting)
    ensures forall t :: t in answers ==> t == Answered(0)
    ensures var l' := After(oneLoop, turns + answers);
      l'.waiting == [] && l'.lastApplied == l'.commitIndex == After(oneLoop, turns).commitIndex
    decreases Due(After(oneLoop, turns).commitIndex, After(oneLoop, turns).waiting)
  {
    hide Take, Answer, FromLog;
    var l := After(oneLoop, turns);
    if l.waiting == [] {
      answers := [];
      assert turns + [] == turns;
      IdleHasApplied(oneLoop, turns);
    } else {
      ExecutesTheLog(oneLoop, turns);
      AnswerIsProgress(l);
      OneMore(oneLoop, turns, Answered(0));
      AnswerIsTaken(oneLoop, l);
      var rest := AnswersFinish(oneLoop, turns + [Answered(0)]);
      answers := [Answered(0)] + rest;
      assert turns + answers == turns + [Answered(0)] + rest;
    }
  }

  lemma AnswerIsTaken(oneLoop: bool, l: Loops)
    requires l.waiting != []
    ensures Take(oneLoop, l, Answered(0)) == Answer(l, 0)
  {
  }

  /** After any run a call with a lawful index makes it the commit index at once, whoever works
      on it, leaves the calls in flight as they are, and once all are answered it is applied. */
  lemma CalledIsApplied(oneLoop: bool, turns: seq<Turn>, index: nat) returns (answers: seq<Turn>)
    requires Lawful(After(oneLoop, turns), Called(index))
    ensures var l, l' := After(oneLoop, turns), After(oneLoop, turns + [Called(index)]);
      l'.commitIndex == index && l'.lastApplied == l.lastApplied && l.waiting <= l'.waiting && l.executed <= l'.executed
    ensures forall t :: t in answers ==> t == Answered(0)
    ensures After(oneLoop, turns + [Called(index)] + answers).lastApplied == index
  {
    OneMore(oneLoop, turns, Called(index));
    answers := AnswersFinish(oneLoop, turns + [Called(index)]);
  }

  /** Indexes 1, 2, 3, ... each once. */
  ghost predicate InOrder(executed: seq<nat>) {
    forall k :: 0 <= k < |executed| ==> executed[k] == k + 1
  }

  /** A call that would start a loop while another is in flight. */
  ghost predicate Overlaps(l: Loops, t: Turn) {
    t.Called? && Lawful(l, t) && t.index > l.lastApplied && l.waiting != []
  }

  ghost predicate NeverOverlaps(turns: seq<Turn>) {
    forall k :: 0 <= k < |turns| ==> !Overlaps(After(false, turns[..k]), turns[k])
  }

  /** At most one call in flight, for the next index; all before it applied. */
  ghost predicate Orderly(l: Loops) {
    && InOrder(l.executed)
    && |l.executed| == l.lastApplied + |l.waiting|
    && (l.waiting == [] || l.waiting == [l.lastApplied + 1])
  }

  lemma CallOrderly(oneLoop: bool, l: Loops, index: nat)
    requires Orderly(l) && (oneLoop || index <= l.lastApplied || l.waiting == [])
    ensures Orderly(Call(oneLoop, l, index))
  {
  }

  lemma AnswerOrderly(l: Loops, call: nat)
    requires Orderly(l) && call < |l.waiting|
    ensures Orderly(Answer(l, call))
  {
    assert call == 0 && l.waiting[0] == l.lastApplied + 1;
  }

  lemma OrderlyStays(oneLoop: bool, l: Loops, t: Turn)
    requires Orderly(l) && (oneLoop || !Overlaps(l, t))
    ensures Orderly(Take(oneLoop, l, t))
  {
    hide Call, Answer;
    if Lawful(l, t) {
      match t
      case Called(index) => CallOrderly(oneLoop, l, index);
      case Answered(call) => AnswerOrderly(l, call);
      case Logged(_) =>
    }
  }

  lemma OverlapRepeats(l: Loops, t: Turn)
    requires Orderly(l) && Overlaps(l, t)
    ensures !InOrder(Take(false, l, t).executed)
  {
    var executed := Take(false, l, t).executed;
    assert executed[|l.executed|] == l.lastApplied + 1 == |l.executed|;
  }

  /** Once an index was executed out of order, it was for good. */
  lemma DisorderStays(l: Loops, t: Turn)
    requires !InOrder(l.executed)
    ensures !InOrder(Take(false, l, t).executed)
  {
    var k :| 0 <= k < |l.executed| && l.executed[k] != k + 1;
    assert Take(false, l, t).executed[k] == l.executed[k];
  }

  lemma OverlapEarlier(turns: seq<Turn>)
    requires |turns| > 0
    ensures NeverOverlaps(turns)
       <==> NeverOverlaps(turns[..|turns| - 1]) && !Overlaps(After(false, turns[..|turns| - 1]), turns[|turns| - 1])
  {
    var init := turns[..|turns| - 1];
    assert forall k :: 0 <= k < |init| ==> turns[..k] == init[..k];
  }

  /** As written, over every interleaving: the state machine executes 1, 2, 3, ... each once
      exactly when no call starts a loop while another call is waiting. */
  lemma {:induction false} ExecutesInOrderIff(turns: seq<Turn>)
    ensures InOrder(After(false, turns).executed) <==> NeverOverlaps(turns)
    ensures NeverOverlaps(turns) ==> Orderly(After(false, turns))
  {
    if turns != [] {
      var n := |turns| - 1;
      var l := After(false, turns[..n]);
      ExecutesInOrderIff(turns[..n]);
      OverlapEarlier(turns);
      if !NeverOverlaps(turns[..n]) {
        DisorderStays(l, turns[n]);
      } else if Overlaps(l, turns[n]) {
        OverlapRepeats(l, turns[n]);
      } else {
        OrderlyStays(false, l, turns[n]);
      }
    }
  }

  /** The commands of the first entries, in order. */
  function CommandsOf(log: seq<Entry>, count: nat): seq<Bytes>
    requires count < |log|
  {
    seq(count, i requires 0 <= i < count => log[i + 1].command)
  }

  lemma OrderlyCommands(l: Loops)
    requires FromLog(l) && InOrder(l.executed)
    ensures |l.executed| < |l.log| && l.commands == CommandsOf(l.log, |l.executed|)
  {
    if l.executed != [] {
      assert l.executed[|l.executed| - 1] == |l.executed|;
    }
  }

  /** With one loop at a time, over every interleaving: the commands executed are those of
      log[1], log[2], ... each once and in order, up to lastApplied or the index in flight, and
      those of every committed entry when no call is in flight. */
  lemma {:induction false} OneLoopExecutesInOrder(turns: seq<Turn>)
    ensures var l := After(true, turns);
      && |l.executed| == l.lastApplied + |l.waiting| <= l.lastApplied + 1 && |l.executed| < |l.log|
      && InOrder(l.executed) && l.commands == CommandsOf(l.log, |l.executed|)
      && (l.waiting == [] ==> |l.executed| == l.lastApplied == l.commitIndex)
  {
    OneLoopOrderly(turns);
    ExecutesTheLog(true, turns);
    IdleHasApplied(true, turns);
    OrderlyCommands(After(true, turns));
  }

  lemma {:induction false} OneLoopOrderly(turns: seq<Turn>)
    ensures Orderly(After(true, turns))
  {
    if turns != [] {
      OneLoopOrderly(turns[..|turns| - 1]);
      OrderlyStays(true, After(true, turns[..|turns| - 1]), turns[|turns| - 1]);
    }
  }

  /** Two heartbeats, the second before the state machine answered: entry 1 is executed twice. */
  lemma AsWrittenExecutesTwice(e: Entry)
    ensures var l := After(false, [Logged([SENTINEL, e]), Called(1), Called(1)]);
      l.executed == [1, 1] && l.commands == [e.command, e.command]
  {
    var one, two := [Logged([SENTINEL, e])], [Logged([SENTINEL, e]), Called(1)];
    var three := [Logged([SENTINEL, e]), Called(1), Called(1)];
    assert one[..0] == [] && two[..1] == one && three[..2] == two;
    assert [SENTINEL, e][..1] == [SENTINEL] == [SENTINEL][..1];
    assert After(false, one) == IDLE.(log := [SENTINEL, e]);
    assert After(false, two) == Loops([SENTINEL, e], 1, 0, [1], [1], [e.command]);
  }
}
