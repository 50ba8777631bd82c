/** The election timer, its timeout listeners, and the three states that register them: who is
    listening at any moment, what one firing does, and whether it can unseat a leader. */
module Timers {
  import opened RaftTypes

  datatype Role = Following | Standing | Leading

  /** A bound onTimeout method; every state object binds its own. */
  datatype Listener = OnFollower(obj: nat) | OnCandidate(obj: nat)

  /** Whether exit() removes the function that enter() added, and whether the server is the
      only one of its cluster, so that its own vote elects it. */
  datatype Setting = Setting(removes: bool, alone: bool)

  /** The server's role and state object (by number), the timer, the timer's listeners as a JavaScript Set
      holds them (deleting leaves a hole), its term, and the votes it granted whose delayed
      timer reset is still to come. */
  datatype Watch = Watch(role: Role, obj: nat, running: bool, listeners: seq<Option<Listener>>, term: nat, resets: nat)

  // ----- transitions -----

  function Own(w: Watch): Listener {
    if w.role.Following? then OnFollower(w.obj) else OnCandidate(w.obj)
  }

  function Delete(listeners: seq<Option<Listener>>, l: Listener): (r: seq<Option<Listener>>)
    ensures |r| == |listeners|
  {
    seq(|listeners|, i requires 0 <= i < |listeners| => if listeners[i] == Some(l) then None else listeners[i])
  }

  /** exit(): followers and candidates stop the timer. As written off() is passed another
      function than on() was, and deletes nothing. */
  function Exit(s: Setting, w: Watch): Watch {
    if w.role.Leading? then w
    else w.(running := false, listeners := if s.removes then Delete(w.listeners, Own(w)) else w.listeners)
  }

  function EnterFollower(w: Watch): Watch {
    w.(role := Following, obj := w.obj + 1, running := true, listeners := w.listeners + [Some(OnFollower(w.obj + 1))])
  }

  function ToFollower(s: Setting, w: Watch): Watch {
    if w.role.Following? then w else EnterFollower(Exit(s, w))
  }

  function ToLeader(s: Setting, w: Watch): Watch {
    if w.role.Leading? then w else Exit(s, w).(role := Leading, obj := w.obj + 1)
  }

  /** startElection: next term, own vote, which may win at once, then the timer is reset. */
  function StartElection(s: Setting, w: Watch): Watch {
    var w1 := w.(term := w.term + 1);
    (if s.alone then ToLeader(s, w1) else w1).(running := true)
  }

  function ToCandidate(s: Setting, w: Watch): Watch {
    if w.role.Standing? then w
    else
      var w1 := Exit(s, w);
      StartElection(s, w1.(role := Standing, obj := w.obj + 1,
          listeners := w1.listeners + [Some(OnCandidate(w.obj + 1))]))
  }

  /** off() deletes one listener and no other. */
  lemma DeletesOne(listeners: seq<Option<Listener>>, l: Listener, other: Listener)
    ensures Some(other) in Delete(listeners, l) <==> Some(other) in listeners && other != l
  {
    var rest := Delete(listeners, l);
    if Some(other) in listeners && other != l {
      var i :| 0 <= i < |listeners| && listeners[i] == Some(other);
      assert rest[i] == Some(other);
    }
  }

  /** transitionTo does nothing exactly when the server is in that state already. */
  lemma TransitionIff(s: Setting, w: Watch)
    ensures ToFollower(s, w) == w <==> w.role == Following
    ensures ToLeader(s, w) == w <==> w.role == Leading
    ensures ToCandidate(s, w) == w <==> w.role == Standing
  {
  }

  // ----- firing -----

  function Call(s: Setting, w: Watch, l: Listener): Watch {
    match l
    case OnFollower(_) => ToCandidate(s, w)
    case OnCandidate(_) => StartElection(s, w)
  }

  /** How many elections the listeners from some place on can still start. */
  function Left(listeners: seq<Option<Listener>>): nat {
    if listeners == [] then 0
    else
      (match listeners[0]
       case None => 0
       case Some(OnFollower(_)) => 2
       case Some(OnCandidate(_)) => 1) + Left(listeners[1..])
  }

  lemma {:induction false} LeftAppend(a: seq<Option<Listener>>, b: seq<Option<Listener>>)
    ensures Left(a + b) == Left(a) + Left(b)
  {
    if a == [] {
      assert a + b == b;
    } else {
      LeftAppend(a[1..], b);
      assert (a + b)[1..] == a[1..] + b;
    }
  }

  /** Some entries deleted, and at most one candidate's listener added at the end. */
  ghost predicate Adds(before: seq<Option<Listener>>, after: seq<Option<Listener>>, added: seq<Option<Listener>>) {
    && |added| <= 1 && (forall x :: x in added ==> x == None || x.value.OnCandidate?)
    && |after| == |before| + |added| && after[|before|..] == added
    && (forall i :: 0 <= i < |before| ==> after[i] == before[i] || after[i] == None)
  }

  lemma {:induction false} LeftPointwise(a: seq<Option<Listener>>, b: seq<Option<Listener>>)
    requires |a| == |b| && forall i :: 0 <= i < |a| ==> b[i] == a[i] || b[i] == None
    ensures Left(b) <= Left(a)
  {
    if a != [] {
      LeftPointwise(a[1..], b[1..]);
    }
  }

  lemma LeftAdds(before: seq<Option<Listener>>, after: seq<Option<Listener>>, added: seq<Option<Listener>>, i: nat)
    requires Adds(before, after, added) && i <= |before|
    ensures Left(after[i..]) <= Left(before[i..]) + |added|
  {
    var kept := after[i..|before|];
    assert after[i..] == kept + added;
    LeftAppend(kept, added);
    LeftPointwise(before[i..], kept);
    assert |added| == 1 ==> added[1..] == [];
  }

  lemma CallAdds(s: Setting, w: Watch, l: Listener) returns (added: seq<Option<Listener>>)
    ensures Adds(w.listeners, Call(s, w, l).listeners, added)
    ensures l.OnCandidate? ==> added == []
  {
    added := Call(s, w, l).listeners[|w.listeners|..];
  }

  /** A call leaves less to do. */
  lemma CallLeaves(s: Setting, w: Watch, l: Listener, i: nat)
    requires i < |w.listeners| && w.listeners[i] == Some(l)
    ensures |Call(s, w, l).listeners| > i
    ensures Left(Call(s, w, l).listeners[i + 1..]) < Left(w.listeners[i..])
  {
    hide Call;
    var added := CallAdds(s, w, l);
    LeftAdds(w.listeners, Call(s, w, l).listeners, added, i + 1);
    assert w.listeners[i..][1..] == w.listeners[i + 1..];
  }

  /** notifyListeners('timeout') from place i on. A Set is iterated live: what a listener adds
      is visited, what it deletes is not. */
  function Notify(s: Setting, w: Watch, i: nat): Watch
    requires i <= |w.listeners|
    decreases Left(w.listeners[i..]), |w.listeners| - i
  {
    if i == |w.listeners| then w
    else
      assert w.listeners[i..][1..] == w.listeners[i + 1..];
      match w.listeners[i]
      case None => Notify(s, w, i + 1)
      case Some(l) =>
        CallLeaves(s, w, l, i);
        Notify(s, Call(s, w, l), i + 1)
  }

  /** The timer fires: it stops, and the listeners are called. */
  function Fire(s: Setting, w: Watch): Watch {
    if w.running then Notify(s, w.(running := false), 0) else w
  }

  // ----- the same as objects -----

  class ElectionTimer {
    var running: bool
    var listeners: seq<Option<Listener>>

    constructor ()
      ensures !running && listeners == []
    {
      running, listeners := false, [];
    }

    method On(l: Listener)
      modifies this`listeners
      ensures listeners == old(listeners) + [Some(l)]
    {
      listeners := listeners + [Some(l)];
    }

    method Off(l: Listener)
      modifies this`listeners
      ensures listeners == Delete(old(listeners), l)
    {
      listeners := Delete(listeners, l);
    }

    method Start()
      modifies this`running
      ensures running
    {
      running := true;
    }

    method Stop()
      modifies this`running
      ensures !running
    {
      running := false;
    }

    method Reset()
      modifies this`running
      ensures running
    {
      Stop();
      Start();
    }
  }

  class TimedServer {
    const setting: Setting
    const timer: ElectionTimer
    var role: Role
    var obj: nat
    var term: nat
    var resets: nat

    function View(): Watch
      reads this, timer
    {
      Watch(role, obj, timer.running, timer.listeners, term, resets)
    }

    constructor (setting: Setting)
      ensures this.setting == setting && fresh(timer) && View() == BEGIN
    {
      this.setting := setting;
      timer := new ElectionTimer();
      role, obj, term, resets := Following, 1, 0, 0;
      new;
      timer.On(OnFollower(1));
      timer.Start();
    }

    method ExitState()
      modifies timer
      ensures View() == Exit(setting, old(View()))
    {
      if role.Leading? {
        return;
      }
      timer.Stop();
      if setting.removes {
        timer.Off(Own(View()));
      }
    }

    /** transitionTo('follower'). */
    method TransitionToFollower()
      modifies this, timer
      ensures View() == ToFollower(setting, old(View()))
    {
      if role.Following? {
        return;
      }
      ExitState();
      role, obj := Following, obj + 1;
      timer.On(OnFollower(obj));
      timer.Start();
    }

    method TransitionToLeader()
      modifies this, timer
      ensures View() == ToLeader(setting, old(View()))
    {
      if role.Leading? {
        return;
      }
      ExitState();
      role, obj := Leading, obj + 1;
    }

    /** startElection. */
    method BeginElection()
      modifies this, timer
      ensures View() == StartElection(setting, old(View()))
    {
      term := term + 1;
      if setting.alone {
        TransitionToLeader();
      }
      timer.Reset();
    }

    /** transitionTo('candidate'). */
    method TransitionToCandidate()
      modifies this, timer
      ensures View() == ToCandidate(setting, old(View()))
    {
      if role.Standing? {
        return;
      }
      ExitState();
      role, obj := Standing, obj + 1;
      timer.On(OnCandidate(obj));
      BeginElection();
    }

    /** The timeout callback of the timer. */
    method Elapse()
      modifies this, timer
      ensures View() == Fire(setting, old(View()))
    {
      if !timer.running {
        return;
      }
      timer.Stop();
      var i := 0;
      while i < |timer.listeners|
        invariant i <= |timer.listeners| && Notify(setting, View(), i) == Fire(setting, old(View()))
        decreases Left(timer.listeners[i..]), |timer.listeners| - i
      {
        ghost var w := View();
        assert w.listeners[i..][1..] == w.listeners[i + 1..];
        if timer.listeners[i].Some? {
          var l := timer.listeners[i].value;
          CallLeaves(setting, w, l, i);
          if l.OnFollower? {
            TransitionToCandidate();
          } else {
            BeginElection();
          }
        }
        i := i + 1;
      }
    }
  }

  // ----- runs -----

  datatype Moment =
    | HigherTerm(term: nat)   // a message of a higher term
    | Heard                   // an append-entries request; a follower's timer is reset even by a stale one
    | Granted                 // a vote is granted; the reset follows once the answer is sent
    | LateReset
    | Won                     // the deciding vote arrives
    | Fired

  /** start() has entered the follower state. */
  const BEGIN := Watch(Following, 1, true, [Some(OnFollower(1))], 0, 0)

  function Take(s: Setting, w: Watch, m: Moment): Watch {
    match m
    case HigherTerm(term) => if term > w.term then ToFollower(s, w.(term := term)) else w
    case Heard =>
      if w.role.Following? then w.(running := true) else if w.role.Standing? then ToFollower(s, w) else w
    case Granted => if w.role.Following? then w.(resets := w.resets + 1) else w
    case LateReset => if w.resets > 0 then w.(resets := w.resets - 1, running := true) else w
    case Won => if w.role.Standing? then ToLeader(s, w) else w
    case Fired => Fire(s, w)
  }

  function After(s: Setting, moments: seq<Moment>): Watch {
    if moments == [] then BEGIN else Take(s, After(s, moments[..|moments| - 1]), moments[|moments| - 1])
  }

  // ----- listeners removed: exactly the current state listens -----

  ghost predicate OnlyAt(w: Watch, i: nat) {
    && i < |w.listeners| && w.listeners[i] == Some(Own(w))
    && forall j :: 0 <= j < |w.listeners| && j != i ==> w.listeners[j] == None
  }

  /** One listener, the current state's, unless it is a leader, who has none. */
  ghost predicate Tidy(w: Watch) {
    if w.role.Leading? then forall j :: 0 <= j < |w.listeners| ==> w.listeners[j] == None
    else exists i: nat :: OnlyAt(w, i)
  }

  lemma ExitTidy(s: Setting, w: Watch)
    requires s.removes && Tidy(w)
    ensures forall j :: 0 <= j < |w.listeners| ==> Exit(s, w).listeners[j] == None
  {
  }

  lemma EnterTidy(w: Watch, n: nat)
    requires |w.listeners| == n + 1 && !w.role.Leading? && w.listeners[n] == Some(Own(w))
    requires forall j :: 0 <= j < n ==> w.listeners[j] == None
    ensures Tidy(w)
  {
    assert OnlyAt(w, n);
  }

  lemma LeadTidy(s: Setting, w: Watch)
    requires s.removes && Tidy(w)
    ensures Tidy(ToLeader(s, w)) && Tidy(StartElection(s, w))
  {
    hide Own;
    ExitTidy(s, w);
    TidyTerm(w, w.(term := w.term + 1));
    ExitTidy(s, w.(term := w.term + 1));
    if !s.alone {
      TidyTerm(w, StartElection(s, w));
    }
  }

  lemma CallTidy(s: Setting, w: Watch, l: Listener)
    requires s.removes && Tidy(w)
    ensures Tidy(Call(s, w, l))
  {
    hide Own, Tidy;
    LeadTidy(s, w);
    if l.OnFollower? && !w.role.Standing? {
      ExitTidy(s, w);
      var w1 := Exit(s, w);
      var w2 := w1.(role := Standing, obj := w.obj + 1, listeners := w1.listeners + [Some(OnCandidate(w.obj + 1))]);
      OwnIs(w2);
      EnterTidy(w2, |w.listeners|);
      LeadTidy(s, w2);
    }
  }

  lemma OwnIs(w: Watch)
    ensures Own(w) == if w.role.Following? then OnFollower(w.obj) else OnCandidate(w.obj)
  {
  }

  lemma {:induction false} NotifyTidy(s: Setting, w: Watch, i: nat)
    requires s.removes && Tidy(w) && i <= |w.listeners|
    ensures Tidy(Notify(s, w, i))
    decreases Left(w.listeners[i..]), |w.listeners| - i
  {
    hide Tidy, Call;
    if i < |w.listeners| {
      assert w.listeners[i..][1..] == w.listeners[i + 1..];
      match w.listeners[i]
      case None => NotifyTidy(s, w, i + 1);
      case Some(l) =>
        CallLeaves(s, w, l, i);
        CallTidy(s, w, l);
        NotifyTidy(s, Call(s, w, l), i + 1);
    }
  }

  lemma FollowTidy(s: Setting, w: Watch)
    requires s.removes && Tidy(w)
    ensures Tidy(ToFollower(s, w))
  {
    hide Own;
    if !w.role.Following? {
      ExitTidy(s, w);
      OwnIs(ToFollower(s, w));
      EnterTidy(ToFollower(s, w), |w.listeners|);
    }
  }

  lemma TakeTidy(s: Setting, w: Watch, m: Moment)
    requires s.removes && Tidy(w)
    ensures Tidy(Take(s, w, m))
  {
    hide Tidy, ToFollower, ToLeader, Notify;
    match m
    case HigherTerm(term) =>
      TidyTerm(w, w.(term := term));
      FollowTidy(s, w.(term := term));
    case Heard =>
      TidyTerm(w, w.(running := true));
      FollowTidy(s, w);
    case Granted => TidyTerm(w, w.(resets := w.resets + 1));
    case LateReset =>
      if w.resets > 0 {
        TidyTerm(w, w.(resets := w.resets - 1, running := true));
      }
    case Won => LeadTidy(s, w);
    case Fired =>
      TidyTerm(w, w.(running := false));
      NotifyTidy(s, w.(running := false), 0);
  }

  /** Over every run: exactly the current follower or candidate listens, and nobody while the
      server leads. */
  lemma {:induction false} OnlyTheCurrentStateListens(s: Setting, moments: seq<Moment>)
    requires s.removes
    ensures Tidy(After(s, moments))
  {
    hide Take;
    if moments == [] {
      assert OnlyAt(BEGIN, 0);
    } else {
      OnlyTheCurrentStateListens(s, moments[..|moments| - 1]);
      TakeTidy(s, After(s, moments[..|moments| - 1]), moments[|moments| - 1]);
    }
  }

  /** Places without a listener are passed over. */
  lemma {:induction false} NotifySkips(s: Setting, w: Watch, i: nat, j: nat)
    requires i <= j <= |w.listeners| && forall k :: i <= k < j ==> w.listeners[k] == None
    ensures Notify(s, w, i) == Notify(s, w, j)
    decreases j - i
  {
    if i < j {
      NotifySkips(s, w, i + 1, j);
    }
  }

  /** With the listeners removed and other servers to ask, a firing starts two elections from
      a follower (the candidate that takes over is called too) and one from a candidate. */
  lemma FiringCorrected(s: Setting, moments: seq<Moment>)
    requires s.removes && !s.alone && After(s, moments).running
    ensures var w := After(s, moments);
      var w' := Take(s, w, Fired);
      && w'.role == (if w.role.Leading? then Leading else Standing) && w'.resets == w.resets
      && w'.term == w.term + match w.role { case Following => 2 case Standing => 1 case Leading => 0 }
  {
    hide Notify;
    OnlyTheCurrentStateListens(s, moments);
    var w := After(s, moments).(running := false);
    var n := |w.listeners|;
    if w.role.Leading? {
      NotifySkips(s, w, 0, n);
      NotifyEnds(s, w);
    } else {
      var i: nat :| OnlyAt(After(s, moments), i);
      var l, w1 := Own(w), Call(s, w, Own(w));
      NotifySkips(s, w, 0, i);
      NotifyCalls(s, w, i);
      NotifySkips(s, w1, i + 1, n);
      if w.role.Following? {
        NotifyCalls(s, w1, n);
        NotifyEnds(s, Call(s, w1, Own(w1)));
      } else {
        NotifyEnds(s, w1);
      }
    }
  }

  lemma NotifyEnds(s: Setting, w: Watch)
    ensures Notify(s, w, |w.listeners|) == w
  {
  }

  lemma NotifyCalls(s: Setting, w: Watch, i: nat)
    requires i < |w.listeners| && w.listeners[i] == Some(Own(w))
    ensures i + 1 <= |Call(s, w, Own(w)).listeners| && Notify(s, w, i) == Notify(s, Call(s, w, Own(w)), i + 1)
  {
    hide Call;
    CallLeaves(s, w, Own(w), i);
  }

  lemma TidyTerm(w: Watch, w': Watch)
    requires Tidy(w) && w'.role == w.role && w'.obj == w.obj && w'.listeners == w.listeners
    ensures Tidy(w')
  {
    if !w.role.Leading? {
      var i :| OnlyAt(w, i);
      assert OnlyAt(w', i);
    }
  }

  // ----- as written: every listener stays -----

  ghost function CandidatesIn(listeners: seq<Option<Listener>>): nat {
    if listeners == [] then 0
    else (if listeners[0].Some? && listeners[0].value.OnCandidate? then 1 else 0) + CandidatesIn(listeners[1..])
  }

  ghost predicate FollowerIn(listeners: seq<Option<Listener>>) {
    listeners != [] && ((listeners[0].Some? && listeners[0].value.OnFollower?) || FollowerIn(listeners[1..]))
  }

  lemma {:induction false} OneCandidateMore(listeners: seq<Option<Listener>>, l: Listener)
    requires l.OnCandidate?
    ensures CandidatesIn(listeners + [Some(l)]) == CandidatesIn(listeners) + 1
  {
    if listeners == [] {
      assert listeners + [Some(l)] == [Some(l)];
      assert [Some(l)][1..] == [];
    } else {
      OneCandidateMore(listeners[1..], l);
      assert (listeners + [Some(l)])[1..] == listeners[1..] + [Some(l)];
    }
  }

  /** A firing from some place on: one election for every candidate ever entered, and two more
      if a follower's listener meets a server that does not stand yet. */
  lemma {:induction false} NotifyAsWritten(s: Setting, w: Watch, i: nat)
    requires !s.removes && !s.alone && i <= |w.listeners|
    ensures var w', rest := Notify(s, w, i), w.listeners[i..];
      && w'.term == w.term + CandidatesIn(rest) + (if FollowerIn(rest) && !w.role.Standing? then 2 else 0)
      && w'.role == (if FollowerIn(rest) then Standing else w.role)
      && w'.resets == w.resets
    decreases Left(w.listeners[i..]), |w.listeners| - i
  {
    if i < |w.listeners| {
      var rest := w.listeners[i + 1..];
      assert w.listeners[i..][1..] == rest;
      match w.listeners[i]
      case None => NotifyAsWritten(s, w, i + 1);
      case Some(l) =>
        CallLeaves(s, w, l, i);
        NotifyAsWritten(s, Call(s, w, l), i + 1);
        CallAsWritten(s, w, l, i);
    }
  }

  lemma CallAsWritten(s: Setting, w: Watch, l: Listener, i: nat)
    requires !s.removes && !s.alone && i < |w.listeners|
    ensures var w', rest := Call(s, w, l), w.listeners[i + 1..];
      && |w'.listeners| > i && w'.resets == w.resets
      && if l.OnFollower? && !w.role.Standing?
         then w'.role == Standing && w'.term == w.term + 1 &&
             CandidatesIn(w'.listeners[i + 1..]) == CandidatesIn(rest) + 1
         else w'.role == w.role && w'.term == w.term + (if l.OnCandidate? then 1 else 0) && w'.listeners == w.listeners
  {
    var rest, next := w.listeners[i + 1..], OnCandidate(w.obj + 1);
    OneCandidateMore(rest, next);
    assert (w.listeners + [Some(next)])[i + 1..] == rest + [Some(next)];
  }

  ghost predicate FirstStays(w: Watch) {
    |w.listeners| > 0 && w.listeners[0] == Some(OnFollower(1))
  }

  lemma CallFirstStays(s: Setting, w: Watch, l: Listener)
    requires !s.removes && FirstStays(w)
    ensures FirstStays(Call(s, w, l)) && Call(s, w, l).term >= w.term
  {
  }

  lemma {:induction false} NotifyFirstStays(s: Setting, w: Watch, i: nat)
    requires !s.removes && FirstStays(w) && i <= |w.listeners|
    ensures FirstStays(Notify(s, w, i)) && Notify(s, w, i).term >= w.term
    decreases Left(w.listeners[i..]), |w.listeners| - i
  {
    hide Call;
    if i < |w.listeners| {
      assert w.listeners[i..][1..] == w.listeners[i + 1..];
      match w.listeners[i]
      case None => NotifyFirstStays(s, w, i + 1);
      case Some(l) =>
        CallLeaves(s, w, l, i);
        CallFirstStays(s, w, l);
        NotifyFirstStays(s, Call(s, w, l), i + 1);
    }
  }

  /** The listener of the first follower state stays for good. */
  lemma {:induction false} TheFirstListenerStays(s: Setting, moments: seq<Moment>)
    requires !s.removes
    ensures FirstStays(After(s, moments))
  {
    hide Notify;
    if moments != [] {
      var w := After(s, moments[..|moments| - 1]);
      TheFirstListenerStays(s, moments[..|moments| - 1]);
      NotifyFirstStays(s, w.(running := false), 0);
    }
  }

  /** As written, with other servers to ask: each firing starts an election for every time the
      server has ever stood, and two more unless it stands now, so terms rise ever faster. */
  lemma FiringAsWritten(s: Setting, moments: seq<Moment>)
    requires !s.removes && !s.alone && After(s, moments).running
    ensures var w := After(s, moments);
      var w' := Take(s, w, Fired);
      && w'.role == Standing && w'.resets == w.resets
      && w'.term == w.term + CandidatesIn(w.listeners) + (if w.role.Standing? then 0 else 2)
  {
    hide Notify;
    var w := After(s, moments).(running := false);
    TheFirstListenerStays(s, moments);
    NotifyAsWritten(s, w, 0);
    assert w.listeners[0..] == w.listeners;
  }

  /** As written a leader is moved to a new term by its own timer exactly when the timer is
      running: there always is someone listening. */
  lemma LeaderMovedIff(s: Setting, moments: seq<Moment>)
    requires !s.removes && After(s, moments).role.Leading?
    ensures var w := After(s, moments); Take(s, w, Fired).term != w.term <==> w.running
  {
    hide Notify;
    var w := After(s, moments).(running := false);
    TheFirstListenerStays(s, moments);
    if After(s, moments).running {
      var first := OnFollower(1);
      assert Notify(s, w, 0) == Notify(s, Call(s, w, first), 1) by { NotifyFirst(s, w); }
      CallFirstStays(s, w, first);
      NotifyFirstStays(s, Call(s, w, first), 1);
    }
  }

  lemma NotifyFirst(s: Setting, w: Watch)
    requires FirstStays(w)
    ensures |Call(s, w, OnFollower(1)).listeners| > 0 && Notify(s, w, 0) == Notify(s, Call(s, w, OnFollower(1)), 1)
  {
    hide Call;
    CallLeaves(s, w, OnFollower(1), 0);
  }

  // ----- a cluster of one -----

  /** As written, alone: every follower's listener starts two elections, every candidate's one. */
  lemma {:induction false} NotifyAlone(s: Setting, w: Watch, i: nat)
    requires !s.removes && s.alone && !w.role.Standing? && i <= |w.listeners|
    ensures var w', due := Notify(s, w, i), Left(w.listeners[i..]);
      w'.term == w.term + due && w'.role == (if due > 0 then Leading else w.role) && w'.resets == w.resets
    decreases Left(w.listeners[i..]), |w.listeners| - i
  {
    hide Call;
    if i < |w.listeners| {
      assert w.listeners[i..][1..] == w.listeners[i + 1..];
      match w.listeners[i]
      case None => NotifyAlone(s, w, i + 1);
      case Some(l) =>
        CallLeaves(s, w, l, i);
        CallAlone(s, w, l, i);
        NotifyAlone(s, Call(s, w, l), i + 1);
    }
  }

  lemma CallAlone(s: Setting, w: Watch, l: Listener, i: nat)
    requires !s.removes && s.alone && !w.role.Standing? && i < |w.listeners|
    ensures var w' := Call(s, w, l);
      && w'.role == Leading && w'.term == w.term + 1 && w'.resets == w.resets && i + 1 <= |w'.listeners|
      && Left(w'.listeners[i + 1..]) == Left(w.listeners[i + 1..]) + (if l.OnFollower? then 1 else 0)
  {
    if l.OnFollower? {
      var more := [Some(OnCandidate(w.obj + 1))];
      assert (w.listeners + more)[i + 1..] == w.listeners[i + 1..] + more;
      LeftAppend(w.listeners[i + 1..], more);
      assert more[1..] == [];
    }
  }

  lemma {:induction false} NeverStandsAlone(s: Setting, moments: seq<Moment>)
    requires s.alone && !s.removes
    ensures !After(s, moments).role.Standing?
  {
    hide Notify;
    if moments != [] {
      NeverStandsAlone(s, moments[..|moments| - 1]);
      NotifyAlone(s, After(s, moments[..|moments| - 1]).(running := false), 0);
    }
  }

  /** As written, in a cluster of one: a firing starts two elections for every time the server
      ever was a follower, and one for every time it stood, and wins them all. */
  lemma FiringAloneAsWritten(s: Setting, moments: seq<Moment>)
    requires !s.removes && s.alone && After(s, moments).running
    ensures var w := After(s, moments);
      var w' := Take(s, w, Fired);
      && w'.role == Leading && w'.resets == w.resets
      && w'.term == w.term + Left(w.listeners) && w'.term >= w.term + 2
  {
    hide Notify;
    var w := After(s, moments).(running := false);
    NeverStandsAlone(s, moments);
    TheFirstListenerStays(s, moments);
    NotifyAlone(s, w, 0);
    assert w.listeners[0..] == w.listeners;
  }

  lemma CallAloneCorrected(s: Setting, w: Watch)
    requires s.removes && s.alone && Tidy(w) && !w.role.Leading?
    ensures var w' := Call(s, w, Own(w)); w'.role == Leading && w'.term == w.term + 1 && w'.resets == w.resets
  {
  }

  /** With the listeners removed it starts one, from a follower or a candidate, and wins it. */
  lemma FiringAloneCorrected(s: Setting, moments: seq<Moment>)
    requires s.removes && s.alone && After(s, moments).running
    ensures var w := After(s, moments);
      var w' := Take(s, w, Fired);
      w'.role == Leading && w'.resets == w.resets && w'.term == w.term + if w.role.Leading? then 0 else 1
  {
    hide Notify, Call;
    OnlyTheCurrentStateListens(s, moments);
    var w := After(s, moments).(running := false);
    var n := |w.listeners|;
    if w.role.Leading? {
      NotifySkips(s, w, 0, n);
      NotifyEnds(s, w);
    } else {
      var i: nat :| OnlyAt(After(s, moments), i);
      var w1 := Call(s, w, Own(w));
      TidyTerm(After(s, moments), w);
      NotifySkips(s, w, 0, i);
      NotifyCalls(s, w, i);
      CallAloneCorrected(s, w);
      CallTidy(s, w, Own(w));
      NotifySkips(s, w1, i + 1, |w1.listeners|);
      NotifyEnds(s, w1);
    }
  }

  // ----- when the timer runs -----

  /** Whoever does not lead has a listener. */
  ghost predicate Listens(w: Watch) {
    !w.role.Leading? ==> Some(Own(w)) in w.listeners
  }

  ghost predicate Timed(w: Watch) {
    w.role.Leading? || w.running
  }

  lemma CallTimed(s: Setting, w: Watch, l: Listener)
    requires Listens(w)
    ensures Listens(Call(s, w, l)) && (Timed(w) || l == Own(w) ==> Timed(Call(s, w, l)))
    ensures Timed(Call(s, w, l)) || Call(s, w, l) == w
  {
    var w' := Call(s, w, l);
    if w' != w && !w'.role.Leading? && l.OnFollower? {
      assert w'.listeners[|w.listeners|] == Some(Own(w'));
    }
  }

  lemma {:induction false} NotifyTimed(s: Setting, w: Watch, i: nat)
    requires i <= |w.listeners| && Listens(w)
    requires Timed(w) || Some(Own(w)) in w.listeners[i..]
    ensures Listens(Notify(s, w, i)) && Timed(Notify(s, w, i))
    decreases Left(w.listeners[i..]), |w.listeners| - i
  {
    hide Call, Listens, Own;
    if i < |w.listeners| {
      assert w.listeners[i..][1..] == w.listeners[i + 1..];
      match w.listeners[i]
      case None => NotifyTimed(s, w, i + 1);
      case Some(l) =>
        CallLeaves(s, w, l, i);
        CallTimed(s, w, l);
        NotifyTimed(s, Call(s, w, l), i + 1);
    }
  }

  lemma TakeTimed(s: Setting, w: Watch, m: Moment)
    requires Listens(w) && Timed(w)
    ensures Listens(Take(s, w, m)) && Timed(Take(s, w, m))
  {
    hide Notify;
    var w' := Take(s, w, m);
    if m.Fired? {
      assert w.listeners[0..] == w.listeners;
      NotifyTimed(s, w.(running := false), 0);
    } else if w'.role.Following? && !w.role.Following? {
      assert w'.listeners[|w.listeners|] == Some(Own(w'));
    }
  }

  /** Over every run, as written and corrected: the timer of every follower and candidate runs,
      so that each of them will stand if it hears from no leader. */
  lemma {:induction false} EveryoneElseIsTimed(s: Setting, moments: seq<Moment>)
    ensures Listens(After(s, moments)) && Timed(After(s, moments))
  {
    hide Take, Timed, Listens;
    if moments == [] {
      BeginTimed();
    } else {
      EveryoneElseIsTimed(s, moments[..|moments| - 1]);
      TakeTimed(s, After(s, moments[..|moments| - 1]), moments[|moments| - 1]);
    }
  }

  lemma BeginTimed()
    ensures Listens(BEGIN) && Timed(BEGIN)
  {
  }

  /** What anything but a firing does, field by field. A higher term, or a leader's request unless
      the server leads, makes it a follower; a new follower's timer starts, a new leader's stops,
      and a delayed reset starts it in whatever role the server is by then. */
  lemma MomentEffects(s: Setting, w: Watch, m: Moment)
    requires !m.Fired?
    ensures var w', higher := Take(s, w, m), m.HigherTerm? && m.term > w.term;
      && w'.term == (if higher then m.term else w.term)
      && w'.role == (if higher || (m.Heard? && !w.role.Leading?) then Following
                     else if m.Won? && w.role.Standing? then Leading else w.role)
      && w'.obj == w.obj + (if w'.role == w.role then 0 else 1)
      && w'.resets + (if m.LateReset? && w.resets > 0 then 1 else 0)
           == w.resets + (if m.Granted? && w.role.Following? then 1 else 0)
      && w'.running == (if w'.role != w.role then w'.role.Following?
                        else w.running || (m.Heard? && !w.role.Leading?) || w'.resets < w.resets)
      && (!s.removes ==>
            w'.listeners == w.listeners + if w'.role.Following? && !w.role.Following? then [Some(Own(w'))] else [])
  {
  }

  /** A delayed reset at one moment, an unbroken office since, and no firing. */
  ghost predicate ResetInOffice(s: Setting, moments: seq<Moment>, k: nat)
    requires k < |moments|
  {
    && moments[k].LateReset? && After(s, moments[..k]).resets > 0
    && forall j: nat :: k <= j < |moments| ==> After(s, moments[..j]).role.Leading? && !moments[j].Fired?
  }

  lemma ResetEarlier(s: Setting, moments: seq<Moment>, k: nat)
    requires k < |moments| - 1
    ensures var n := |moments| - 1;
      ResetInOffice(s, moments, k)
      <==> ResetInOffice(s, moments[..n], k) && After(s, moments[..n]).role.Leading? && !moments[n].Fired?
  {
    hide After;
    var n := |moments| - 1;
    assert forall j: nat :: j <= n ==> moments[..n][..j] == moments[..j];
    assert forall j: nat :: j < n ==> moments[..n][j] == moments[j];
  }

  lemma LeaderFires(s: Setting, w: Watch)
    requires s.removes && Tidy(w) && w.role.Leading?
    ensures !Take(s, w, Fired).running
  {
    hide Notify;
    NotifySkips(s, w.(running := false), 0, |w.listeners|);
    NotifyEnds(s, w.(running := false));
  }

  /** A firing after which the server leads leaves its timer stopped. */
  lemma FiredLeads(s: Setting, moments: seq<Moment>)
    requires !s.alone && Take(s, After(s, moments), Fired).role.Leading?
    ensures !Take(s, After(s, moments), Fired).running
  {
    hide Notify;
    var w := After(s, moments);
    if w.running {
      if s.removes {
        FiringCorrected(s, moments);
        OnlyTheCurrentStateListens(s, moments);
        LeaderFires(s, w);
      } else {
        FiringAsWritten(s, moments);
      }
    }
  }

  /** Over every run of a server that is not alone, as written and corrected: a leader's timer
      runs exactly when a reset delayed since some granted vote has come while it led. */
  lemma {:induction false} LeaderTimerIff(s: Setting, moments: seq<Moment>)
    requires !s.alone && After(s, moments).role.Leading?
    ensures After(s, moments).running <==> exists k: nat :: k < |moments| && ResetInOffice(s, moments, k)
  {
    hide Take;
    var n := |moments| - 1;
    var w, m := After(s, moments[..n]), moments[n];
    forall k: nat | k < n ensures ResetInOffice(s, moments, k)
        <==> ResetInOffice(s, moments[..n], k) && w.role.Leading? && !m.Fired? {
      ResetEarlier(s, moments, k);
    }
    if m.Fired? {
      FiredLeads(s, moments[..n]);
    } else {
      MomentEffects(s, w, m);
      if w.role.Leading? {
        LeaderTimerIff(s, moments[..n]);
      }
      assert ResetInOffice(s, moments, n) <==> m.LateReset? && w.resets > 0 && w.role.Leading?;
    }
  }

  // ----- who can unseat a leader -----

  ghost predicate KeepsOffice(s: Setting, w: Watch, m: Moment) {
    w.role.Leading? && !m.HigherTerm? ==> Take(s, w, m).role.Leading? && Take(s, w, m).term == w.term
  }

  lemma TidyKeepsOffice(s: Setting, moments: seq<Moment>, m: Moment)
    requires s.removes
    ensures KeepsOffice(s, After(s, moments), m)
  {
    hide Notify;
    OnlyTheCurrentStateListens(s, moments);
    var w := After(s, moments).(running := false);
    if w.role.Leading? {
      NotifySkips(s, w, 0, |w.listeners|);
      NotifyEnds(s, w);
    }
  }

  /** A vote granted, an election won before the grant's answer is sent, and the delayed reset
      runs the timer while the server leads. */
  lemma LateResetUnseats()
    ensures exists moments, m :: !KeepsOffice(Setting(false, false), After(Setting(false, false), moments), m)
  {
    hide Take, After;
    var s := Setting(false, false);
    var one, two, three := [Granted], [Granted, Fired], [Granted, Fired, Won];
    var four := [Granted, Fired, Won, LateReset];
    assert one[..0] == [] && two[..1] == one && three[..2] == two && four[..3] == three;
    AfterSteps(s, []);
    AfterSteps(s, one);
    GrantedRuns(s);
    FiringAsWritten(s, one);
    AfterSteps(s, two);
    AfterSteps(s, three);
    WonThenReset(s, After(s, two));
    AfterSteps(s, four);
    FiringAsWritten(s, four);
    assert !KeepsOffice(s, After(s, four), Fired);
  }

  lemma AfterSteps(s: Setting, moments: seq<Moment>)
    ensures if moments == [] then After(s, moments) == BEGIN
            else After(s, moments) == Take(s, After(s, moments[..|moments| - 1]), moments[|moments| - 1])
  {
    hide Take;
  }

  lemma GrantedRuns(s: Setting)
    ensures Take(s, BEGIN, Granted).running && Take(s, BEGIN, Granted).resets == 1
  {
  }

  lemma WonThenReset(s: Setting, w: Watch)
    requires w.role.Standing? && w.resets > 0
    ensures var w' := Take(s, Take(s, w, Won), LateReset); w'.role.Leading? && w'.running
  {
  }

  /** Only a message of a higher term ends a leader's office, over every run, exactly when
      exit() removes the listener that enter() added. */
  lemma OnlyHigherTermsUnseatIff(removes: bool)
    ensures (forall alone, moments, m ::
               KeepsOffice(Setting(removes, alone), After(Setting(removes, alone), moments), m)) <==> removes
  {
    hide After, KeepsOffice;
    if removes {
      forall alone, moments, m
        ensures KeepsOffice(Setting(removes, alone), After(Setting(removes, alone), moments), m)
      {
        TidyKeepsOffice(Setting(removes, alone), moments, m);
      }
    } else {
      LateResetUnseats();
      var moments, m :| !KeepsOffice(Setting(false, false), After(Setting(false, false), moments), m);
      assert Setting(removes, false) == Setting(false, false);
    }
  }
}
