/** A durable value: what its in-sync flag promises when writes finish later than they start,
    and what reading back a written value returns. */
module Storage {
  import opened RaftTypes
  import opened Decimals

  // ----- serialised forms -----

  /** A number as DurableInteger holds it: null before it is set, NaN when read from text
      that is no number. */
  datatype Number = Null | NaN | Int(n: int)

  /** null is written as nothing, anything else as its text. */
  function WriteInteger(value: Number): string {
    match value
    case Null => ""
    case NaN => "NaN"
    case Int(n) => IntText(n)
  }

  function ReadInteger(text: string): Number {
    match ParseInt(text)
    case None => NaN
    case Some(i) => Int(i)
  }

  /** DurableString: null is written as nothing too. */
  function WriteString(value: Option<string>): string {
    match value
    case None => ""
    case Some(s) => s
  }

  function ReadString(text: string): Option<string> {
    Some(text)
  }

  /** Every term reads back as it was written; null does not, it comes back as NaN. */
  lemma IntegerRoundTripIff(value: Number)
    ensures ReadInteger(WriteInteger(value)) == value <==> value != Null
  {
    if value.Int? {
      ParseIntText(value.n);
    }
  }

  /** A vote reads back as it was written exactly when it is not null: null comes back as the
      empty string, which the vote check no longer takes for "has not voted". */
  lemma StringRoundTripIff(value: Option<string>)
    ensures ReadString(WriteString(value)) == value <==> value != None
    ensures ReadString(WriteString(None)) == Some("")
  {
  }

  /** Two votes share a file exactly when they are equal, or one is null and the other empty. */
  lemma StringsShareFileIff(v: Option<string>, w: Option<string>)
    ensures WriteString(v) == WriteString(w)
       <==> v == w || (v == None && w == Some("")) || (v == Some("") && w == None)
  {
  }

  /** No two terms share a file; the file of a null vote is that of the null term only, and the
      text NaN that of the term NaN. Null comes back as NaN, which is above and below no term. */
  lemma IntegersShareFileIff(v: Number, w: Number)
    ensures WriteInteger(v) == WriteInteger(w) <==> v == w
    ensures WriteInteger(v) == WriteString(None) <==> v == Null
    ensures WriteInteger(v) == WriteString(Some("NaN")) <==> v == NaN
    ensures ReadInteger(WriteInteger(Null)) == NaN
  {
    IntegerRoundTripIff(v);
    IntegerRoundTripIff(w);
  }

  // ----- the in-sync flag -----

  /** A value by its serialised text, its file, and the texts of the writes under way. */
  datatype Cell = Cell(text: string, inSync: bool, disk: string, writing: seq<string>)

  datatype Action =
    | Set(text: string)
    | StartWrite                          // write() up to fs.writeFile
    | FinishWrite(write: nat, ok: bool)   // the callback of one of the writes under way
    | Await                               // the caller goes on after every write it began has finished
    | Read                                // read(), as at start
    | Crash(landed: Option<nat>)          // a write under way may still have reached the file

  /** setValue. */
  function SetValue(c: Cell, text: string): Cell {
    c.(text := text, inSync := false)
  }

  /** write(): nothing when the flag is up, otherwise a write of the value as it is now. */
  function BeginWrite(c: Cell): Cell {
    if c.inSync then c else c.(writing := c.writing + [c.text])
  }

  /** The callback. As written it raises the flag whatever happened; checked, only when the
      write succeeded, wrote the current value, and was the only one under way. */
  function EndWrite(checked: bool, c: Cell, write: nat, ok: bool): Cell
    requires write < |c.writing|
  {
    Cell(c.text,
         !checked || (ok && c.writing == [c.text]),
         if ok then c.writing[write] else c.disk,
         c.writing[..write] + c.writing[write + 1..])
  }

  /** read(): the value is what the file holds, and the flag goes up. */
  function ReadBack(c: Cell): Cell {
    c.(text := c.disk, inSync := true)
  }

  /** A crash: the value is null again, and nobody hears of the writes under way. */
  function Lose(c: Cell, landed: Option<nat>): Cell {
    Cell("", false, if landed.Some? && landed.value < |c.writing| then c.writing[landed.value] else c.disk, [])
  }

  function Act(checked: bool, c: Cell, a: Action): Cell {
    match a
    case Set(text) => SetValue(c, text)
    case StartWrite => BeginWrite(c)
    case FinishWrite(write, ok) => if write < |c.writing| then EndWrite(checked, c, write, ok) else c
    case Await => c
    case Read => ReadBack(c)
    case Crash(landed) => Lose(c, landed)
  }

  function Perform(checked: bool, start: Cell, actions: seq<Action>): Cell {
    if actions == [] then start
    else Act(checked, Perform(checked, start, actions[..|actions| - 1]), actions[|actions| - 1])
  }

  /** BaseDurableValue, its writes split at the call and the callback. */
  class DurableValue {
    const checked: bool
    var text: string
    var inSync: bool
    var disk: string
    var writing: seq<string>

    function View(): Cell
      reads this
    {
      Cell(text, inSync, disk, writing)
    }

    constructor (checked: bool, text: string, disk: string)
      ensures this.checked == checked && View() == Cell(text, false, disk, [])
    {
      this.checked := checked;
      this.text, inSync, this.disk, writing := text, false, disk, [];
    }

    /** setValue. */
    method SetText(newText: string)
      modifies this
      ensures View() == SetValue(old(View()), newText)
    {
      inSync := false;
      text := newText;
    }

    /** write() up to fs.writeFile. */
    method Write()
      modifies this
      ensures View() == BeginWrite(old(View()))
    {
      if inSync {
        return;
      }
      writing := writing + [text];
    }

    /** read(). */
    method ReadFile()
      modifies this
      ensures View() == ReadBack(old(View()))
    {
      text := disk;
      inSync := true;
    }

    /** The callback of fs.writeFile. */
    method Written(write: nat, ok: bool)
      requires write < |writing|
      modifies this
      ensures View() == EndWrite(checked, old(View()), write, ok)
    {
      var alone := writing == [text];
      if ok {
        disk := writing[write];
      }
      writing := writing[..write] + writing[write + 1..];
      inSync := !checked || (ok && alone);
    }
  }

  /** What the flag promises. */
  ghost predicate Truthful(c: Cell) {
    c.inSync ==> c.disk == c.text
  }

  /** Checked, the flag is never wrong: from any truthful state, whatever is set, written, read,
      lost in a crash or fails, in any order. */
  lemma {:induction false} CheckedFlagIsTruthful(start: Cell, actions: seq<Action>)
    requires Truthful(start)
    ensures Truthful(Perform(true, start, actions))
  {
    if actions != [] {
      CheckedFlagIsTruthful(start, actions[..|actions| - 1]);
    }
  }

  /** Checked or not, with nothing under way a write that succeeds settles the value: the file
      holds it and the flag is up, if the flag was not up wrongly before. */
  lemma AWriteSettles(checked: bool, start: Cell, actions: seq<Action>)
    requires var c := Perform(checked, start, actions); c.writing == [] && Truthful(c)
    ensures var c, c' := Perform(checked, start, actions),
          Perform(checked, start, actions + [StartWrite] + [FinishWrite(0, true)]);
      c' == Cell(c.text, true, c.text, [])
  {
    var begun := actions + [StartWrite];
    assert begun[..|actions|] == actions;
    assert (begun + [FinishWrite(0, true)])[..|begun|] == begun;
  }

  /** A crash loses the value and everything under way, and may leave in the file what it held or
      any of the texts under way, and nothing else. A write begun joins those under way. */
  lemma CrashLeavesIff(checked: bool, start: Cell, actions: seq<Action>, text: string)
    ensures (exists landed :: Perform(checked, start, actions + [Crash(landed)]) == Cell("", false, text, []))
       <==> var c := Perform(checked, start, actions); text == c.disk || text in c.writing
    ensures var c, c' := Perform(checked, start, actions), Perform(checked, start, actions + [StartWrite]);
      c'.writing == c.writing + if c.inSync then [] else [c.text]
  {
    var c := Perform(checked, start, actions);
    assert (actions + [StartWrite])[..|actions|] == actions;
    forall landed ensures Perform(checked, start, actions + [Crash(landed)]) == Lose(c, landed) {
      assert (actions + [Crash(landed)])[..|actions|] == actions;
    }
    if text == c.disk {
      assert Lose(c, None) == Cell("", false, text, []);
    } else if text in c.writing {
      var k :| 0 <= k < |c.writing| && c.writing[k] == text;
      assert Lose(c, Some(k)) == Cell("", false, text, []);
    }
  }

  // ----- as written: what the caller has to do -----

  /** What the caller does; when its writes finish, and whether they reach the file before a
      crash, it does not decide. */
  datatype CallerStep = Sets(text: string) | Writes | Awaits | Reads | Crashes

  function StepOf(a: Action): Option<CallerStep> {
    match a
    case Set(text) => Some(Sets(text))
    case StartWrite => Some(Writes)
    case FinishWrite(_, _) => None
    case Await => Some(Awaits)
    case Read => Some(Reads)
    case Crash(_) => Some(Crashes)
  }

  /** The caller's part of what happened. */
  function CallerSteps(actions: seq<Action>): seq<CallerStep> {
    if actions == [] then []
    else
      var steps := CallerSteps(actions[..|actions| - 1]);
      match StepOf(actions[|actions| - 1])
      case None => steps
      case Some(step) => steps + [step]
  }

  /** An await, and the read at start, come when nothing is under way. */
  ghost predicate Possible(start: Cell, actions: seq<Action>) {
    actions == [] ||
      var init, last := actions[..|actions| - 1], actions[|actions| - 1];
      Possible(start, init) && (last.Await? || last.Read? ==> Perform(false, start, init).writing == [])
  }

  ghost predicate NoneFails(actions: seq<Action>) {
    forall a :: a in actions && a.FinishWrite? ==> a.ok
  }

  /** What the caller knows: the value, whether it is set and not written since, and whether a
      write may be under way. */
  datatype Ledger = Ledger(text: string, unwritten: bool, open: bool)

  function Note(l: Ledger, step: CallerStep): Ledger {
    match step
    case Sets(text) => Ledger(text, true, l.open)
    case Writes => Ledger(l.text, false, l.open || l.unwritten)
    case Awaits => l.(open := false)
    case Reads => Ledger("", false, false)
    case Crashes => Ledger("", true, false)
  }

  function Notes(start: Cell, steps: seq<CallerStep>): Ledger {
    if steps == [] then Ledger(start.text, !start.inSync && start.writing == [], start.writing != [])
    else Note(Notes(start, steps[..|steps| - 1]), steps[|steps| - 1])
  }

  /** No other value is set while a write may be under way. */
  ghost predicate Disciplined(start: Cell, steps: seq<CallerStep>) {
    steps == [] ||
      var init, last := steps[..|steps| - 1], steps[|steps| - 1];
      && Disciplined(start, init)
      && (last.Sets? && Notes(start, init).open ==> last.text == Notes(start, init).text)
  }

  /** No write is begun of a value the file does not hold already. */
  ghost predicate NothingNew(start: Cell, steps: seq<CallerStep>) {
    steps == [] ||
      var init, last := steps[..|steps| - 1], steps[|steps| - 1];
      && NothingNew(start, init)
      && (last.Writes? && Notes(start, init).unwritten ==> Notes(start, init).text == start.disk)
  }

  /** The cell is as the caller thinks. */
  ghost predicate Matches(c: Cell, l: Ledger) {
    && Truthful(c)
    && (l.unwritten || l.open ==> c.text == l.text)
    && (c.writing != [] ==> l.open)
    && (!c.inSync && c.writing == [] ==> l.unwritten)
    && (forall w :: w in c.writing ==> w == c.text)
  }

  lemma FinishMatches(c: Cell, l: Ledger, write: nat, ok: bool)
    requires Matches(c, l) && write < |c.writing| && (ok || c.disk == c.text)
    ensures Matches(EndWrite(false, c, write, ok), l)
  {
    assert c.writing[write] in c.writing;
    var rest := c.writing[..write] + c.writing[write + 1..];
    forall w | w in rest ensures w == c.text {
      assert w in c.writing;
    }
  }

  lemma ActMatches(c: Cell, l: Ledger, a: Action, step: CallerStep)
    requires Matches(c, l) && StepOf(a) == Some(step)
    requires a.Await? || a.Read? ==> c.writing == []
    requires step.Sets? && l.open ==> step.text == l.text
    ensures Matches(Act(false, c, a), Note(l, step))
  {
  }

  lemma {:induction false} DisciplinedEarlier(start: Cell, steps: seq<CallerStep>, more: seq<CallerStep>)
    requires Disciplined(start, more) && steps <= more
    ensures Disciplined(start, steps) && (NothingNew(start, more) ==> NothingNew(start, steps))
  {
    if steps != more {
      DisciplinedEarlier(start, steps, more[..|more| - 1]);
    }
  }

  /** Neither the file nor a write under way holds anything but that text. */
  ghost predicate Holds(c: Cell, text: string) {
    c.disk == text && forall w :: w in c.writing ==> w == text
  }

  lemma FinishHolds(c: Cell, text: string, write: nat, ok: bool)
    requires Holds(c, text) && write < |c.writing|
    ensures Holds(EndWrite(false, c, write, ok), text)
  {
    assert c.writing[write] in c.writing;
    var rest := c.writing[..write] + c.writing[write + 1..];
    forall w | w in rest ensures w == text {
      assert w in c.writing;
    }
  }

  lemma ActHolds(c: Cell, l: Ledger, a: Action, text: string)
    requires Matches(c, l) && Holds(c, text) && !a.FinishWrite?
    requires a.StartWrite? && l.unwritten ==> l.text == text
    ensures Holds(Act(false, c, a), text)
  {
    if a.StartWrite? && c.writing != [] {
      assert c.writing[0] in c.writing;
    } else if a.Crash? && a.landed.Some? && a.landed.value < |c.writing| {
      assert c.writing[a.landed.value] in c.writing;
    }
  }

  /** Where a run starts: the flag tells the truth, and what is under way is the value, which,
      if writes may fail, the file holds already. A value just created or read is settled. */
  ghost predicate Settled(start: Cell, mayFail: bool) {
    Truthful(start) && forall w :: w in start.writing ==> w == start.text && (mayFail ==> w == start.disk)
  }

  lemma LastAction(start: Cell, actions: seq<Action>)
    requires |actions| > 0 && Possible(start, actions)
    ensures var init, a := actions[..|actions| - 1], actions[|actions| - 1];
      && Possible(start, init) && (NoneFails(actions) ==> NoneFails(init) && (a.FinishWrite? ==> a.ok))
      && Perform(false, start, actions) == Act(false, Perform(false, start, init), a)
      && (a.Await? || a.Read? ==> Perform(false, start, init).writing == [])
      && CallerSteps(actions) == if a.FinishWrite? then CallerSteps(init) else CallerSteps(init) + [StepOf(a).value]
  {
    hide Act;
    var init := actions[..|actions| - 1];
    assert forall x :: x in init ==> x in actions;
  }

  lemma LastStep(start: Cell, steps: seq<CallerStep>, step: CallerStep)
    requires Disciplined(start, steps + [step])
    ensures Disciplined(start, steps) && (step.Sets? && Notes(start, steps).open ==>
        step.text == Notes(start, steps).text)
    ensures Notes(start, steps + [step]) == Note(Notes(start, steps), step)
    ensures NothingNew(start, steps + [step]) ==>
      NothingNew(start, steps) && (step.Writes? && Notes(start, steps).unwritten ==>
          Notes(start, steps).text == start.disk)
  {
    assert (steps + [step])[..|steps|] == steps;
  }

  /** Every possible run of disciplined steps leaves the cell as the caller thinks, if no write
      fails; if writes may fail, when nothing new is written either: then the file never
      changes. */
  lemma {:induction false} RunMatches(start: Cell, actions: seq<Action>, mayFail: bool)
    requires Settled(start, mayFail) && Possible(start, actions) && Disciplined(start, CallerSteps(actions))
    requires if mayFail then NothingNew(start, CallerSteps(actions)) else NoneFails(actions)
    ensures Matches(Perform(false, start, actions), Notes(start, CallerSteps(actions)))
    ensures mayFail ==> Holds(Perform(false, start, actions), start.disk)
  {
    hide *;
    if actions == [] {
      StartMatches(start, mayFail);
    } else {
      var init, a := actions[..|actions| - 1], actions[|actions| - 1];
      LastAction(start, actions);
      var c, steps := Perform(false, start, init), CallerSteps(init);
      if a.FinishWrite? {
        RunMatches(start, init, mayFail);
        FinishedMatches(start, c, Notes(start, steps), a, mayFail);
      } else {
        StepOfCaller(a);
        var step := StepOf(a).value;
        LastStep(start, steps, step);
        RunMatches(start, init, mayFail);
        ActMatches(c, Notes(start, steps), a, step);
        if mayFail {
          ActHolds(c, Notes(start, steps), a, start.disk);
        }
      }
    }
  }

  lemma StartMatches(start: Cell, mayFail: bool)
    requires Settled(start, mayFail)
    ensures Matches(Perform(false, start, []), Notes(start, CallerSteps([])))
    ensures mayFail ==> Holds(Perform(false, start, []), start.disk)
  {
  }

  lemma StepOfCaller(a: Action)
    requires !a.FinishWrite?
    ensures StepOf(a).Some? && (StepOf(a).value.Writes? <==> a.StartWrite?)
  {
  }

  lemma FinishedMatches(start: Cell, c: Cell, l: Ledger, a: Action, nothingNew: bool)
    requires Matches(c, l) && a.FinishWrite? && (a.ok || nothingNew) && (nothingNew ==> Holds(c, start.disk))
    ensures Matches(Act(false, c, a), l) && (nothingNew ==> Holds(Act(false, c, a), start.disk))
  {
    if a.write < |c.writing| {
      assert c.writing[a.write] in c.writing;
      FinishMatches(c, l, a.write, a.ok);
      if nothingNew {
        FinishHolds(c, start.disk, a.write, a.ok);
      }
    }
  }

  // ----- runs that show what can happen -----

  /** A run of these steps. */
  ghost predicate RunOf(start: Cell, steps: seq<CallerStep>, actions: seq<Action>) {
    Possible(start, actions) && NoneFails(actions) && CallerSteps(actions) == steps
  }

  lemma OneMore(start: Cell, steps: seq<CallerStep>, actions: seq<Action>, a: Action)
    requires RunOf(start, steps, actions)
    requires a.Await? || a.Read? ==> Perform(false, start, actions).writing == []
    requires a.FinishWrite? ==> a.ok
    ensures RunOf(start, if a.FinishWrite? then steps else steps + [StepOf(a).value], actions + [a])
    ensures Perform(false, start, actions + [a]) == Act(false, Perform(false, start, actions), a)
  {
    assert (actions + [a])[..|actions|] == actions;
  }

  /** All writes under way finish. */
  lemma {:induction false} Drain(start: Cell, steps: seq<CallerStep>, actions: seq<Action>)
    returns (drained: seq<Action>)
    requires RunOf(start, steps, actions)
    ensures RunOf(start, steps, drained) && Perform(false, start, drained).writing == []
    decreases |Perform(false, start, actions).writing|
  {
    drained := actions;
    if Perform(false, start, actions).writing != [] {
      OneMore(start, steps, actions, FinishWrite(0, true));
      drained := Drain(start, steps, actions + [FinishWrite(0, true)]);
    }
  }

  function ActionOf(step: CallerStep): Action {
    match step
    case Sets(text) => Set(text)
    case Writes => StartWrite
    case Awaits => Await
    case Reads => Read
    case Crashes => Crash(None)
  }

  lemma {:induction false} Idle(start: Cell, steps: seq<CallerStep>) returns (actions: seq<Action>)
    ensures RunOf(start, steps, actions) && Perform(false, start, actions).writing == []
  {
    if steps == [] {
      actions := Drain(start, [], []);
    } else {
      hide RunOf, Perform;
      var init, step := steps[..|steps| - 1], steps[|steps| - 1];
      actions := Idle(start, init);
      OneMore(start, init, actions, ActionOf(step));
      assert init + [step] == steps;
      actions := Drain(start, steps, actions + [ActionOf(step)]);
    }
  }

  lemma UnwrittenBy(start: Cell, steps: seq<CallerStep>)
    requires |steps| > 0 && Notes(start, steps).unwritten
    ensures var init, step := steps[..|steps| - 1], steps[|steps| - 1];
      step.Sets? || step.Crashes? || (step.Awaits? && Notes(start, init).unwritten)
  {
  }

  lemma StaysUnwritten(c: Cell, step: CallerStep)
    requires c.writing == [] && (step.Sets? || step.Crashes? || (step.Awaits? && !c.inSync))
    ensures var c' := Act(false, c, ActionOf(step)); !c'.inSync && c'.writing == []
    ensures StepOf(ActionOf(step)) == Some(step) && !ActionOf(step).FinishWrite?
  {
  }

  lemma UnwrittenAtStart(start: Cell)
    requires Notes(start, []).unwritten
    ensures RunOf(start, [], []) && !Perform(false, start, []).inSync && Perform(false, start, []).writing == []
  {
  }

  lemma UnwrittenNext(start: Cell, steps: seq<CallerStep>, actions: seq<Action>) returns (actions': seq<Action>)
    requires |steps| > 0
    requires var init, step, c := steps[..|steps| - 1], steps[|steps| - 1], Perform(false, start, actions);
      && RunOf(start, init, actions) && c.writing == []
      && (step.Sets? || step.Crashes? || (step.Awaits? && !c.inSync))
    ensures RunOf(start, steps, actions')
    ensures var c := Perform(false, start, actions'); !c.inSync && c.writing == []
  {
    hide *;
    var init, step := steps[..|steps| - 1], steps[|steps| - 1];
    StaysUnwritten(Perform(false, start, actions), step);
    OneMore(start, init, actions, ActionOf(step));
    assert init + [step] == steps;
    actions' := actions + [ActionOf(step)];
  }

  /** What may be unwritten can be, with nothing under way. */
  lemma {:induction false} Unwritten(start: Cell, steps: seq<CallerStep>) returns (actions: seq<Action>)
    requires Notes(start, steps).unwritten
    ensures RunOf(start, steps, actions)
    ensures var c := Perform(false, start, actions); !c.inSync && c.writing == []
  {
    hide *;
    if steps == [] {
      UnwrittenAtStart(start);
      actions := [];
    } else {
      var init, step := steps[..|steps| - 1], steps[|steps| - 1];
      UnwrittenBy(start, steps);
      if step.Sets? || step.Crashes? {
        actions := Idle(start, init);
      } else {
        actions := Unwritten(start, init);
      }
      actions := UnwrittenNext(start, steps, actions);
    }
  }

  lemma OpenBy(start: Cell, steps: seq<CallerStep>)
    requires Notes(start, steps).open
    ensures steps == [] ==> RunOf(start, [], []) && Perform(false, start, []).writing != []
    ensures |steps| > 0 ==>
      var init, step := steps[..|steps| - 1], steps[|steps| - 1];
      (step.Writes? && Notes(start, init).unwritten) || ((step.Sets? || step.Writes?) && Notes(start, init).open)
  {
  }

  lemma StaysOpen(c: Cell, step: CallerStep)
    requires (step.Writes? && !c.inSync) || ((step.Sets? || step.Writes?) && c.writing != [])
    ensures Act(false, c, ActionOf(step)).writing != []
    ensures StepOf(ActionOf(step)) == Some(step) && (ActionOf(step).Set? || ActionOf(step).StartWrite?)
  {
  }

  /** What may be under way can be. */
  lemma {:induction false} Open(start: Cell, steps: seq<CallerStep>) returns (actions: seq<Action>)
    requires Notes(start, steps).open
    ensures RunOf(start, steps, actions) && Perform(false, start, actions).writing != []
  {
    hide *;
    OpenBy(start, steps);
    if steps == [] {
      actions := [];
    } else {
      var init, step := steps[..|steps| - 1], steps[|steps| - 1];
      if step.Writes? && Notes(start, init).unwritten {
        actions := Unwritten(start, init);
      } else {
        actions := Open(start, init);
      }
      StaysOpen(Perform(false, start, actions), step);
      OneMore(start, init, actions, ActionOf(step));
      assert init + [step] == steps;
      actions := actions + [ActionOf(step)];
    }
  }

  /** The flag says what is in the file, at every moment of every run of the steps. */
  ghost predicate AlwaysTruthful(start: Cell, steps: seq<CallerStep>, mayFail: bool) {
    forall actions :: Possible(start, actions) && CallerSteps(actions) <= steps && (mayFail || NoneFails(actions))
      ==> Truthful(Perform(false, start, actions))
  }

  /** The value is changed and a write under way finishes. */
  lemma ThenLies(c: Cell, l: Ledger, text: string)
    requires Matches(c, l) && c.writing != [] && text != l.text
    ensures !Truthful(Act(false, Act(false, c, Set(text)), FinishWrite(0, true)))
  {
    assert c.writing[0] in c.writing;
  }

  lemma RunOfEarlier(start: Cell, steps: seq<CallerStep>, actions: seq<Action>)
    requires RunOf(start, steps, actions)
    ensures Possible(start, actions) && NoneFails(actions) && CallerSteps(actions) == steps
  {
  }

  /** Another value set while a write is under way: the write finishes, and the flag lies. */
  lemma {:induction false} UndisciplinedLies(start: Cell, steps: seq<CallerStep>) returns (actions: seq<Action>)
    requires Settled(start, false) && !Disciplined(start, steps)
    ensures Possible(start, actions) && NoneFails(actions) && CallerSteps(actions) <= steps
    ensures !Truthful(Perform(false, start, actions))
  {
    var init, step := steps[..|steps| - 1], steps[|steps| - 1];
    if !Disciplined(start, init) {
      actions := UndisciplinedLies(start, init);
    } else {
      hide RunOf, Perform, Act, Matches, Truthful, CallerSteps, Possible, NoneFails, Notes;
      actions := Open(start, init);
      RunOfEarlier(start, init, actions);
      RunMatches(start, actions, false);
      ThenLies(Perform(false, start, actions), Notes(start, init), step.text);
      OneMore(start, init, actions, Set(step.text));
      assert init + [step] == steps;
      OneMore(start, steps, actions + [Set(step.text)], FinishWrite(0, true));
      actions := actions + [Set(step.text)] + [FinishWrite(0, true)];
      RunOfEarlier(start, steps, actions);
    }
  }

  /** A run may start badly, too. */
  lemma UnsettledLies(start: Cell, mayFail: bool) returns (actions: seq<Action>)
    requires !Settled(start, mayFail)
    ensures Possible(start, actions) && CallerSteps(actions) == [] && (mayFail || NoneFails(actions))
    ensures !Truthful(Perform(false, start, actions))
  {
    actions := [];
    if Truthful(start) {
      var k :| 0 <= k < |start.writing|
        && (start.writing[k] != start.text || (mayFail && start.writing[k] != start.disk));
      var finish := FinishWrite(k, start.writing[k] != start.text);
      actions := [finish];
      assert actions[..0] == [];
      assert Perform(false, start, []) == start;
    }
  }

  /** As written, and if no write fails: over every order in which writes finish, every crash
      and every read at start, the flag is truthful at every moment exactly when it starts well
      and the caller never sets another value while a write it began may still be under way. */
  lemma {:induction false} FlagIsTruthfulIff(start: Cell, steps: seq<CallerStep>)
    ensures AlwaysTruthful(start, steps, false) <==> Settled(start, false) && Disciplined(start, steps)
  {
    if !Settled(start, false) {
      var actions := UnsettledLies(start, false);
    } else if Disciplined(start, steps) {
      forall actions | Possible(start, actions) && CallerSteps(actions) <= steps && NoneFails(actions)
        ensures Truthful(Perform(false, start, actions))
      {
        DisciplinedEarlier(start, CallerSteps(actions), steps);
        RunMatches(start, actions, false);
      }
    } else {
      var actions := UndisciplinedLies(start, steps);
    }
  }

  lemma ThenFailsLies(c: Cell, l: Ledger, text: string)
    requires Matches(c, l) && Holds(c, text) && l.unwritten && l.text != text && !c.inSync && c.writing == []
    ensures !Truthful(Act(false, Act(false, c, StartWrite), FinishWrite(0, false)))
  {
  }

  /** A value the file does not hold yet, and a write of it that fails. */
  lemma {:induction false} FailureLies(start: Cell, steps: seq<CallerStep>) returns (actions: seq<Action>)
    requires Settled(start, true) && Disciplined(start, steps) && !NothingNew(start, steps)
    ensures Possible(start, actions) && CallerSteps(actions) <= steps
    ensures !Truthful(Perform(false, start, actions))
  {
    var init, step := steps[..|steps| - 1], steps[|steps| - 1];
    if !NothingNew(start, init) {
      actions := FailureLies(start, init);
    } else {
      hide RunOf, Perform, Act, Matches, Holds, Truthful, CallerSteps, NoneFails, Notes;
      actions := Unwritten(start, init);
      RunOfEarlier(start, init, actions);
      RunMatches(start, actions, true);
      ThenFailsLies(Perform(false, start, actions), Notes(start, init), start.disk);
      OneMore(start, init, actions, StartWrite);
      assert init + [step] == steps;
      var begun := actions + [StartWrite];
      RunOfEarlier(start, steps, begun);
      FailsLast(start, begun);
      actions := begun + [FinishWrite(0, false)];
    }
  }

  lemma FailsLast(start: Cell, actions: seq<Action>)
    requires Possible(start, actions)
    ensures var more := actions + [FinishWrite(0, false)];
      && Possible(start, more) && CallerSteps(more) == CallerSteps(actions)
      && Perform(false, start, more) == Act(false, Perform(false, start, actions), FinishWrite(0, false))
  {
    assert (actions + [FinishWrite(0, false)])[..|actions|] == actions;
  }

  /** If writes may fail, the flag is truthful at every moment exactly when, besides, nothing is
      ever written that the file does not hold already. */
  lemma {:induction false} FlagIsTruthfulDespiteFailuresIff(start: Cell, steps: seq<CallerStep>)
    ensures AlwaysTruthful(start, steps, true)
       <==> Settled(start, true) && Disciplined(start, steps) && NothingNew(start, steps)
  {
    if !Settled(start, true) {
      var actions := UnsettledLies(start, true);
    } else if !Disciplined(start, steps) {
      var actions := UndisciplinedLies(start, steps);
    } else if NothingNew(start, steps) {
      forall actions | Possible(start, actions) && CallerSteps(actions) <= steps
        ensures Truthful(Perform(false, start, actions))
      {
        DisciplinedEarlier(start, CallerSteps(actions), steps);
        RunMatches(start, actions, true);
      }
    } else {
      var actions := FailureLies(start, steps);
    }
  }

  lemma LostUpdateBegins()
    ensures Perform(false, Cell("", false, "", []), [Set("1"), StartWrite, Set("2"), FinishWrite(0, true)])
         == Cell("2", true, "1", [])
  {
    var start := Cell("", false, "", []);
    var one, two, three := [Set("1")], [Set("1"), StartWrite], [Set("1"), StartWrite, Set("2")];
    var four := three + [FinishWrite(0, true)];
    assert one[..0] == [] && two[..1] == one && three[..2] == two && four[..3] == three;
    assert Perform(false, start, []) == start;
    assert Perform(false, start, one) == Cell("1", false, "", []);
    assert Perform(false, start, two) == Cell("1", false, "", ["1"]);
    assert Perform(false, start, three) == Cell("2", false, "", ["1"]);
    assert four == [Set("1"), StartWrite, Set("2"), FinishWrite(0, true)];
  }

  /** A term set while the previous one is being written is never written: the flag is up, so
      later writes do nothing. */
  lemma {:induction false} LostUpdate(writes: nat)
    ensures var c := Perform(false, Cell("", false, "", []),
                             [Set("1"), StartWrite, Set("2"), FinishWrite(0, true)] + seq(writes, _ => StartWrite));
      c.text == "2" && c.disk == "1" && c.inSync
  {
    var begin := [Set("1"), StartWrite, Set("2"), FinishWrite(0, true)];
    var start := Cell("", false, "", []);
    var actions := begin + seq(writes, _ => StartWrite);
    if writes == 0 {
      assert actions == begin;
      LostUpdateBegins();
    } else {
      LostUpdate(writes - 1);
      assert actions[..|actions| - 1] == begin + seq(writes - 1, _ => StartWrite);
    }
  }
}
