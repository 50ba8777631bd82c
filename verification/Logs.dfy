/** The log and the follower's merge of the entries of an append-entries request:
    the merge the source does, the merge Figure 2 of the Raft paper asks for, and
    exactly when they agree. */
module Logs {
  import opened RaftTypes

  predicate HasEntry(log: seq<Entry>, index: nat) {
    |log| - 1 >= index
  }

  function LastTerm(log: seq<Entry>): nat
    requires |log| > 0
  {
    log[|log| - 1].term
  }

  /** Array.prototype.slice(index): a negative index counts from the end, and
      undefined or NaN count as 0. */
  function SliceFrom(log: seq<Entry>, index: Index): seq<Entry> {
    match index
    case NotANumber => log
    case Num(i) =>
      if i >= |log| then [] else if i >= 0 then log[i..] else if |log| + i >= 0 then log[|log| + i..] else log
  }

  /** One round of the merge loop. The source compares the new entry with the term of
      the LAST entry, and appends nothing after it truncates. */
  function MergeEntry(byPosition: bool, log: seq<Entry>, e: Entry): seq<Entry> {
    if HasEntry(log, e.index) then
      if e.term != (if byPosition then log[e.index].term else LastTerm(log)) then
        if byPosition then log[..e.index] + [e] else log[..e.index]
      else
        log
    else if e.index == |log| then log + [e] else log
  }

  /** The whole merge loop. */
  function Merge(byPosition: bool, log: seq<Entry>, entries: seq<Entry>): seq<Entry> {
    if entries == [] then log
    else MergeEntry(byPosition, Merge(byPosition, log, entries[..|entries| - 1]), entries[|entries| - 1])
  }

  /** The stored entry has the new one's place and another term; as written it is the log's last
      entry whose term counts. */
  ghost predicate Conflicts(byPosition: bool, log: seq<Entry>, e: Entry) {
    e.index < |log| && e.term != log[if byPosition then e.index else |log| - 1].term
  }

  /** Whatever the entry: it is appended exactly when it is the next one, the log is cut at a
      conflict, where the corrected loop goes on with the new entry, and in no other case does
      anything change, not for an entry beyond the end either. */
  lemma EntryIff(byPosition: bool, log: seq<Entry>, e: Entry)
    ensures var merged := MergeEntry(byPosition, log, e);
      && (merged == log + [e] <==> e.index == |log|)
      && (merged == log <==> e.index != |log| && !Conflicts(byPosition, log, e))
      && (Conflicts(byPosition, log, e) ==> merged == log[..e.index] + if byPosition then [e] else [])
  {
  }

  /** Whatever the batch, with either loop: every entry of the log stays at the place its index says. */
  lemma {:induction false} MergeKeepsPlaces(byPosition: bool, log: seq<Entry>, entries: seq<Entry>, k: nat)
    requires forall i :: 0 <= i < |log| ==> log[i].index == i
    ensures k < |Merge(byPosition, log, entries)| ==> Merge(byPosition, log, entries)[k].index == k
  {
    if entries != [] {
      MergeKeepsPlaces(byPosition, log, entries[..|entries| - 1], k);
    }
  }

  /** The entries of a request that follow position prev, in order. */
  ghost predicate Contiguous(entries: seq<Entry>, prev: nat) {
    forall k :: 0 <= k < |entries| ==> entries[k].index == prev + 1 + k
  }

  /** The stored entry at the place of entries[k], if there is one, has another term. */
  ghost predicate ConflictAt(log: seq<Entry>, prev: nat, entries: seq<Entry>, k: nat)
    requires k < |entries|
  {
    prev + 1 + k < |log| && log[prev + 1 + k].term != entries[k].term
  }

  ghost predicate NoConflict(log: seq<Entry>, prev: nat, entries: seq<Entry>) {
    forall k :: 0 <= k < |entries| ==> !ConflictAt(log, prev, entries, k)
  }

  /** Figure 2, "if an existing entry conflicts with a new one (same index but different
      terms), delete the existing entry and all that follow it; append any new entries not
      already in the log": without a conflict nothing stored is lost; at the first conflict
      the log is cut and continues with the new entries. */
  ghost predicate MeetsFigure2(log: seq<Entry>, prev: nat, entries: seq<Entry>, merged: seq<Entry>)
    requires prev < |log|
  {
    && (NoConflict(log, prev, entries) ==>
          merged == if |log| > prev + |entries| then log else log + entries[|log| - prev - 1..])
    && (forall k :: 0 <= k < |entries| && ConflictAt(log, prev, entries, k) && NoConflict(log, prev, entries[..k]) ==>
          merged == log[..prev + 1 + k] + entries[k..])
  }

  lemma SnocRest(log: seq<Entry>, entries: seq<Entry>, from: nat)
    requires from < |entries|
    ensures log + entries[..|entries| - 1][from..] + [entries[|entries| - 1]] == log + entries[from..]
  {
    var n := |entries| - 1;
    assert entries[..n][from..] + [entries[n]] == entries[from..];
    assert log + entries[..n][from..] + [entries[n]] == log + (entries[..n][from..] + [entries[n]]);
  }

  lemma InitHasNoConflict(log: seq<Entry>, prev: nat, entries: seq<Entry>)
    requires |entries| > 0 && NoConflict(log, prev, entries)
    ensures NoConflict(log, prev, entries[..|entries| - 1])
  {
    var init := entries[..|entries| - 1];
    forall k | 0 <= k < |init| ensures !ConflictAt(log, prev, init, k) {
      assert !ConflictAt(log, prev, entries, k);
    }
  }

  lemma {:induction false} MergeWithoutConflict(log: seq<Entry>, prev: nat, entries: seq<Entry>)
    requires prev < |log| && Contiguous(entries, prev) && NoConflict(log, prev, entries)
    ensures Merge(true, log, entries) == if |log| > prev + |entries| then log else log + entries[|log| - prev - 1..]
  {
    if entries != [] {
      var n := |entries| - 1;
      InitHasNoConflict(log, prev, entries);
      MergeWithoutConflict(log, prev, entries[..n]);
      assert !ConflictAt(log, prev, entries, n);
      if |log| <= prev + n + 1 {
        SnocRest(log, entries, |log| - prev - 1);
      }
    }
  }

  lemma {:induction false} MergeFromConflict(log: seq<Entry>, prev: nat, entries: seq<Entry>, k: nat)
    requires prev < |log| && Contiguous(entries, prev)
    requires k < |entries| && ConflictAt(log, prev, entries, k) && NoConflict(log, prev, entries[..k])
    ensures Merge(true, log, entries) == log[..prev + 1 + k] + entries[k..]
  {
    var n := |entries| - 1;
    if k == n {
      MergeWithoutConflict(log, prev, entries[..n]);
    } else {
      assert entries[..n][..k] == entries[..k];
      MergeFromConflict(log, prev, entries[..n], k);
      SnocRest(log[..prev + 1 + k], entries, k);
    }
  }

  /** The corrected loop is Figure 2, for every log and every contiguous batch. */
  lemma {:induction false} MergeMeetsFigure2(log: seq<Entry>, prev: nat, entries: seq<Entry>)
    requires prev < |log| && Contiguous(entries, prev)
    ensures MeetsFigure2(log, prev, entries, Merge(true, log, entries))
  {
    if NoConflict(log, prev, entries) {
      MergeWithoutConflict(log, prev, entries);
    }
    forall k | 0 <= k < |entries| && ConflictAt(log, prev, entries, k) && NoConflict(log, prev, entries[..k])
      ensures Merge(true, log, entries) == log[..prev + 1 + k] + entries[k..]
    {
      MergeFromConflict(log, prev, entries, k);
    }
  }

  /** Either there is no conflict or there is a first one. */
  lemma {:induction false} FirstConflict(log: seq<Entry>, prev: nat, entries: seq<Entry>) returns (k: nat)
    ensures k <= |entries| && NoConflict(log, prev, entries[..k])
    ensures k < |entries| ==> ConflictAt(log, prev, entries, k)
  {
    k := 0;
    while k < |entries| && !ConflictAt(log, prev, entries, k)
      invariant k <= |entries| && NoConflict(log, prev, entries[..k])
    {
      var next := entries[..k + 1];
      forall j | 0 <= j < |next| ensures !ConflictAt(log, prev, next, j) {
        assert j < k ==> !ConflictAt(log, prev, entries[..k], j);
      }
      k := k + 1;
    }
  }

  /** What a leader needs from the merge: the prefix stays, every new entry is found at its
      own position with its own term, and stored entries go only at a real term conflict. */
  ghost predicate HoldsTheBatch(log: seq<Entry>, prev: nat, entries: seq<Entry>, merged: seq<Entry>)
    requires prev < |log|
  {
    && |merged| > prev + |entries|
    && merged[..prev + 1] == log[..prev + 1]
    && (forall k :: 0 <= k < |entries| ==> merged[prev + 1 + k].term == entries[k].term)
    && (log <= merged <==> NoConflict(log, prev, entries))
  }

  lemma HoldsWithoutConflict(log: seq<Entry>, prev: nat, entries: seq<Entry>)
    requires prev < |log| && Contiguous(entries, prev) && NoConflict(log, prev, entries)
    ensures HoldsTheBatch(log, prev, entries, Merge(true, log, entries))
  {
    MergeWithoutConflict(log, prev, entries);
    forall k | 0 <= k < |entries| ensures Merge(true, log, entries)[prev + 1 + k].term == entries[k].term {
      assert !ConflictAt(log, prev, entries, k);
    }
  }

  lemma SplicedAt(log: seq<Entry>, prev: nat, entries: seq<Entry>, k: nat, j: nat)
    requires prev + 1 + k <= |log| && k <= |entries| && j < |entries|
    ensures (log[..prev + 1 + k] + entries[k..])[prev + 1 + j] == if j < k then log[prev + 1 + j] else entries[j]
  {
  }

  lemma HoldsFromConflict(log: seq<Entry>, prev: nat, entries: seq<Entry>, k: nat)
    requires prev < |log| && Contiguous(entries, prev)
    requires k < |entries| && ConflictAt(log, prev, entries, k) && NoConflict(log, prev, entries[..k])
    ensures HoldsTheBatch(log, prev, entries, Merge(true, log, entries))
  {
    var merged := log[..prev + 1 + k] + entries[k..];
    MergeFromConflict(log, prev, entries, k);
    forall j | 0 <= j < |entries| ensures merged[prev + 1 + j].term == entries[j].term {
      SplicedAt(log, prev, entries, k, j);
      if j < k {
        assert !ConflictAt(log, prev, entries[..k], j);
      }
    }
    SplicedAt(log, prev, entries, k, k);
    assert merged[..prev + 1] == log[..prev + 1];
    assert !(log <= merged) by {
      assert merged[prev + 1 + k] != log[prev + 1 + k];
    }
  }

  /** The corrected loop gives the leader what it needs. */
  lemma {:induction false} MergeHoldsTheBatch(log: seq<Entry>, prev: nat, entries: seq<Entry>)
    requires prev < |log| && Contiguous(entries, prev)
    ensures HoldsTheBatch(log, prev, entries, Merge(true, log, entries))
  {
    var k := FirstConflict(log, prev, entries);
    if k == |entries| {
      assert entries[..k] == entries;
      HoldsWithoutConflict(log, prev, entries);
    } else {
      HoldsFromConflict(log, prev, entries, k);
    }
  }

  /** A batch, or any earlier part of it, delivered again changes nothing. */
  lemma {:induction false} MergeAgain(log: seq<Entry>, prev: nat, entries: seq<Entry>, part: nat)
    requires prev < |log| && Contiguous(entries, prev) && part <= |entries|
    ensures Merge(true, Merge(true, log, entries), entries[..part]) == Merge(true, log, entries)
  {
    var merged := Merge(true, log, entries);
    MergeHoldsTheBatch(log, prev, entries);
    assert NoConflict(merged, prev, entries[..part]);
    MergeWithoutConflict(merged, prev, entries[..part]);
  }

  // ----- the loop as the source has it -----

  /** The source's loop up to its first truncation: it only compares with the last term. */
  ghost predicate AllOfLastTerm(log: seq<Entry>, prev: nat, entries: seq<Entry>)
    requires |log| > 0
  {
    forall k :: 0 <= k < |entries| && prev + 1 + k < |log| ==> entries[k].term == LastTerm(log)
  }

  lemma {:induction false} AsWrittenWithoutTruncation(log: seq<Entry>, prev: nat, entries: seq<Entry>)
    requires prev < |log| && Contiguous(entries, prev) && AllOfLastTerm(log, prev, entries)
    ensures Merge(false, log, entries) == if |log| > prev + |entries| then log else log + entries[|log| - prev - 1..]
  {
    if entries != [] {
      var n := |entries| - 1;
      AsWrittenWithoutTruncation(log, prev, entries[..n]);
      if |log| <= prev + n + 1 {
        SnocRest(log, entries, |log| - prev - 1);
      }
    }
  }

  /** Once the source's loop truncates, it never appends again: the batch is lost. */
  lemma {:induction false} AsWrittenTruncates(log: seq<Entry>, prev: nat, entries: seq<Entry>)
    requires prev < |log| && Contiguous(entries, prev) && !AllOfLastTerm(log, prev, entries)
    ensures |Merge(false, log, entries)| <= prev + |entries|
  {
    var n := |entries| - 1;
    if AllOfLastTerm(log, prev, entries[..n]) {
      AsWrittenWithoutTruncation(log, prev, entries[..n]);
      assert entries[n].term != LastTerm(log);
    } else {
      AsWrittenTruncates(log, prev, entries[..n]);
    }
  }

  /** Every stored entry the loop meets has the new entry's term, which is also the term of
      the last stored entry. */
  ghost predicate OneTermOverlap(log: seq<Entry>, prev: nat, entries: seq<Entry>)
    requires |log| > 0
  {
    forall k :: 0 <= k < |entries| && prev + 1 + k < |log| ==>
        entries[k].term == log[prev + 1 + k].term == LastTerm(log)
  }

  lemma AsWrittenMeetsIf(log: seq<Entry>, prev: nat, entries: seq<Entry>)
    requires prev < |log| && Contiguous(entries, prev) && OneTermOverlap(log, prev, entries)
    ensures MeetsFigure2(log, prev, entries, Merge(false, log, entries))
  {
    AsWrittenWithoutTruncation(log, prev, entries);
  }

  lemma AsWrittenMissesConflict(log: seq<Entry>, prev: nat, entries: seq<Entry>, k: nat)
    requires prev < |log| && Contiguous(entries, prev) && AllOfLastTerm(log, prev, entries)
    requires k < |entries| && ConflictAt(log, prev, entries, k) && NoConflict(log, prev, entries[..k])
    ensures Merge(false, log, entries) != log[..prev + 1 + k] + entries[k..]
  {
    AsWrittenWithoutTruncation(log, prev, entries);
    assert (log[..prev + 1 + k] + entries[k..])[prev + 1 + k] == entries[k];
  }

  lemma Figure2Length(log: seq<Entry>, prev: nat, entries: seq<Entry>, merged: seq<Entry>)
    requires prev < |log| && MeetsFigure2(log, prev, entries, merged)
    ensures |merged| > prev + |entries|
  {
    var k := FirstConflict(log, prev, entries);
    assert k == |entries| ==> entries[..k] == entries;
  }

  lemma AsWrittenMeetsOnlyIf(log: seq<Entry>, prev: nat, entries: seq<Entry>)
    requires prev < |log| && Contiguous(entries, prev)
    requires MeetsFigure2(log, prev, entries, Merge(false, log, entries))
    ensures OneTermOverlap(log, prev, entries)
  {
    Figure2Length(log, prev, entries, Merge(false, log, entries));
    if !AllOfLastTerm(log, prev, entries) {
      AsWrittenTruncates(log, prev, entries);
    }
    var k := FirstConflict(log, prev, entries);
    if k < |entries| {
      AsWrittenMissesConflict(log, prev, entries, k);
    } else {
      assert entries[..k] == entries;
      forall j | 0 <= j < |entries| && prev + 1 + j < |log| ensures entries[j].term == log[prev + 1 + j].term {
        assert !ConflictAt(log, prev, entries, j);
      }
    }
  }

  /** Exactly when the loop as written is Figure 2, for every log and contiguous batch. */
  lemma {:induction false} AsWrittenMeetsFigure2Iff(log: seq<Entry>, prev: nat, entries: seq<Entry>)
    requires prev < |log| && Contiguous(entries, prev)
    ensures MeetsFigure2(log, prev, entries, Merge(false, log, entries)) <==> OneTermOverlap(log, prev, entries)
  {
    if OneTermOverlap(log, prev, entries) {
      AsWrittenMeetsIf(log, prev, entries);
    }
    if MeetsFigure2(log, prev, entries, Merge(false, log, entries)) {
      AsWrittenMeetsOnlyIf(log, prev, entries);
    }
  }

  /** A two-term log and a heartbeat carrying an entry already stored: the source drops
      both stored entries it should have kept and stores nothing. */
  lemma AsWrittenLosesEntries()
    ensures var one, two := Entry([1], 1, 1), Entry([2], 2, 2);
      && Merge(false, [SENTINEL, one, two], [one, two]) == [SENTINEL]
      && Merge(true, [SENTINEL, one, two], [one, two]) == [SENTINEL, one, two]
  {
    var one, two := Entry([1], 1, 1), Entry([2], 2, 2);
    var log, batch := [SENTINEL, one, two], [one, two];
    assert batch[..1] == [one] && batch[..1][..0] == [];
    assert log[..1] == [SENTINEL];
    assert Merge(false, log, []) == log && Merge(false, log, [one]) == [SENTINEL] by {
      assert [one][..0] == [];
    }
    assert Merge(true, log, [one]) == log by {
      assert [one][..0] == [];
    }
  }
}
