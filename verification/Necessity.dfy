/** What it takes to apply commands, and to apply the same ones everywhere: State Machine Safety
    needs each of the corrections that guard votes, terms, logs and merging. */
module Necessity {
  import opened RaftTypes
  import opened Nodes
  import opened Clusters
  import Commitless
  import ElectionRuns
  import ForgottenTerm
  import LostCopies
  import Overcounted
  import Safety
  import SafetyRuns

  /** Without one of the corrections, some run applies two commands at one index. */
  lemma {:induction false} UnsafeRun(f: Fixes) returns (servers: seq<ServerId>, run: seq<Event>)
    requires f.matchesReplicated && f != CORRECTED
    ensures Distinct(servers) && !StateMachineSafe(Run(f, servers, run))
  {
    hide Run, StateMachineSafe, SafetyRuns.Contradicts;
    var c;
    servers := SafetyRuns.FOUR;
    if !f.sendsFromNextIndex {
      servers := Overcounted.NAMED;
      run := Overcounted.AppliesTwoCommands(f);
    } else if !f.recordsGrant {
      run, c := SafetyRuns.WithoutRecordedGrant(f);
      SafetyRuns.ContradictionIsUnsafe(c);
    } else if !f.reloadsVote {
      run, c := SafetyRuns.WithoutReloadedVote(f);
      SafetyRuns.ContradictionIsUnsafe(c);
    } else if !f.countsOwnTerm {
      run, c := SafetyRuns.WithoutTermCheck(f);
      SafetyRuns.ContradictionIsUnsafe(c);
    } else if !f.keepsLog {
      run, c := SafetyRuns.WithoutKeptLog(f);
      SafetyRuns.ContradictionIsUnsafe(c);
    } else if !f.comparesLogs {
      run, c := SafetyRuns.WithoutComparison(f);
      SafetyRuns.ContradictionIsUnsafe(c);
    } else if !f.mergesByPosition {
      run, c := LostCopies.WithoutMergeByPosition(f);
      SafetyRuns.ContradictionIsUnsafe(c);
    } else {
      servers := ElectionRuns.THREE;
      run := ForgottenTerm.WithoutPersistedRequests(f);
    }
  }

  lemma Uneventful(f: Fixes, servers: seq<ServerId>, run: seq<Event>)
    requires !f.matchesReplicated
    ensures Run(f, servers, run).history.applied == {} && StateMachineSafe(Run(f, servers, run))
  {
    hide Run;
    Commitless.NothingIsEverCommitted(f, servers, run);
  }

  /** Some run applies a command exactly when the leader learns what was replicated. */
  lemma AppliesIff(f: Fixes)
    ensures (exists servers, events :: Distinct(servers) && Run(f, servers, events).history.applied != {})
       <==> f.matchesReplicated
  {
    hide Run;
    if f.matchesReplicated && f.sendsFromNextIndex {
      var run, c := SafetyRuns.FirstReign(f);
      assert Distinct(SafetyRuns.FOUR);
    } else if f.matchesReplicated {
      var run := Overcounted.AppliesTwoCommands(f);
      assert Distinct(Overcounted.NAMED);
    } else {
      forall servers, events ensures Run(f, servers, events).history.applied == {} {
        Uneventful(f, servers, events);
      }
    }
  }

  /** State Machine Safety holds of every run of every cluster exactly when nothing can be
      applied at all, or every correction is in. */
  lemma StateMachineSafetyIff(f: Fixes)
    ensures (forall servers, events :: Distinct(servers) ==> StateMachineSafe(Run(f, servers, events)))
       <==> !f.matchesReplicated || f == CORRECTED
  {
    hide Run, StateMachineSafe;
    if !f.matchesReplicated {
      forall servers, events ensures StateMachineSafe(Run(f, servers, events)) {
        Uneventful(f, servers, events);
      }
    } else if f == CORRECTED {
      forall servers, events | Distinct(servers) ensures StateMachineSafe(Run(f, servers, events)) {
        Safety.StateMachineSafety(servers, events);
      }
    } else {
      var servers, run := UnsafeRun(f);
    }
  }
}
