/** The arguments of section 5.4 of the Raft paper, on any state that satisfies the invariant:
    Log Matching, Leader Completeness by induction over the order in which leaders were elected
    (not the order of their terms: a vote may come late), and agreement on what is
    committed. */
module Completeness {
  import opened RaftTypes
  import opened Logs
  import opened Nodes
  import opened Clusters
  import Election
  import opened Replication

  /** Both invariants of the history. */
  ghost predicate Sound(servers: seq<ServerId>, h: History) {
    Distinct(servers) && Election.HistoryOk(servers, h) && HistoryOk(servers, h)
  }

  // ----- log matching -----

  lemma SameTermSamePrefix(h: History, a: seq<Entry>, b: seq<Entry>, i: nat)
    requires LogOk(h, a) && LogOk(h, b) && i < |a| && i < |b| && a[i].term == b[i].term
    ensures a[..i + 1] == b[..i + 1]
  {
    if i == 0 {
      assert a[..1] == [SENTINEL] == b[..1];
    } else {
      assert FromLeader(h, a, i) && FromLeader(h, b, i);
    }
  }

  /** Terms never decrease along a log. */
  lemma TermsAscend(servers: seq<ServerId>, h: History, log: seq<Entry>, i: nat, k: nat)
    requires HistoryOk(servers, h) && LogOk(h, log) && i <= k < |log|
    ensures log[i].term <= log[k].term
  {
    if 0 < i < k {
      var t := log[k].term;
      assert FromLeader(h, log, k);
      assert ReignOk(h, t);
      assert log[i] == log[..k + 1][i] == h.reigns[t].log[i];
      assert i < |h.reigns[t].base| ==> h.reigns[t].base[i] == h.reigns[t].log[i];
    }
  }

  // ----- leader completeness -----

  /** A log at least as up-to-date, by the leader's vote request, holds every decided prefix
      the voter's log holds, unless its last term is that of another leader of a later term. */
  lemma UpToDateHolds(servers: seq<ServerId>, h: History, log: seq<Entry>, voter: seq<Entry>, t: nat, length: nat)
    requires HistoryOk(servers, h) && LogOk(h, log) && LogOk(h, voter) && LogUpToDate(log, voter)
    requires Decided(servers, h, t, length) && Prefix(h, t, length) <= voter
    ensures Prefix(h, t, length) <= log || t < LastTerm(log)
  {
    hide ReignOk;
    var last := |voter| - 1;
    assert voter[length - 1] == Prefix(h, t, length)[length - 1];
    TermsAscend(servers, h, voter, length - 1, last);
    if LastTerm(log) == LastTerm(voter) {
      assert UpToDate(LastTerm(log), |log| - 1, voter);
      if last > 0 {
        assert FromLeader(h, voter, last) && FromLeader(h, log, |log| - 1);
        assert voter[..last + 1] == voter && log[..|log|] == log;
      }
    }
  }

  /** A log whose last entry is of term w holds all the leader of w was elected with. */
  lemma LastTermHoldsBase(servers: seq<ServerId>, h: History, log: seq<Entry>)
    requires HistoryOk(servers, h) && LogOk(h, log) && LastTerm(log) > 0
    ensures LastTerm(log) in h.reigns && h.reigns[LastTerm(log)].base <= log
  {
    var k := |log| - 1;
    assert FromLeader(h, log, k) && ReignOk(h, log[k].term);
    var r := h.reigns[log[k].term];
    assert log[..k + 1] == log;
    assert |r.base| <= k;
  }

  /** One voter of the later leader that also holds the decided prefix. */
  lemma SharedVoter(servers: seq<ServerId>, h: History, t: nat, length: nat, u: nat) returns (b: Cast, copy: Copy)
    requires Sound(servers, h) && Decided(servers, h, t, length) && u in h.reigns && t < u
    ensures b in h.ballots && copy in h.copies && b.voter == copy.server
    ensures b == Cast(copy.server, u, h.reigns[u].leader) && copy.term == t && h.copies[copy] >= length
    ensures Counts(h, b)
  {
    var r := h.reigns[u];
    assert ReignOk(h, u);
    assert Election.WinOk(servers, h, Win(u, r.leader));
    var s := Election.QuorumsMeet(servers, Holders(servers, h, t, length), r.quorum);
    b, copy := Cast(s, u, r.leader), Copy(s, t);
  }

  /** Every leader of a later term elected before that of u has the prefix. */
  ghost predicate BetweenHold(h: History, t: nat, length: nat, u: nat) {
    forall w :: t < w && w in h.reigns && Before(h, w, Some(u)) ==> Prefix(h, t, length) <= h.reigns[w].base
  }

  lemma KeptMeansHeld(h: History, log: seq<Entry>, t: nat, length: nat, u: nat)
    requires Kept(h, log, t, length, Some(u)) && BetweenHold(h, t, length, u)
    ensures Prefix(h, t, length) <= log
  {
  }

  lemma BallotHolds(h: History, b: Cast, copy: Copy, length: nat)
    requires b in h.ballots && copy in h.copies && BallotKeeps(h, b, copy) && Counts(h, b)
    requires copy.server == b.voter && copy.term < b.term && 0 < length <= h.copies[copy]
    requires BetweenHold(h, copy.term, length, b.term)
    ensures Prefix(h, copy.term, length) <= h.ballots[b]
  {
    KeptMeansHeld(h, h.ballots[b], copy.term, length, b.term);
  }

  lemma VoterHolds(servers: seq<ServerId>, h: History, t: nat, length: nat, u: nat) returns (b: Cast)
    requires Sound(servers, h) && Decided(servers, h, t, length) && u in h.reigns && t < u
    requires BetweenHold(h, t, length, u)
    ensures b in h.ballots && b.term == u && b.candidate == h.reigns[u].leader
    ensures Prefix(h, t, length) <= h.ballots[b]
  {
    var copy;
    b, copy := SharedVoter(servers, h, t, length, u);
    assert BallotKeeps(h, b, copy);
    BallotHolds(h, b, copy, length);
  }

  lemma CompletenessStep(servers: seq<ServerId>, h: History, t: nat, length: nat, u: nat)
    requires Sound(servers, h) && Decided(servers, h, t, length) && u in h.reigns && t < u
    requires BetweenHold(h, t, length, u)
    ensures Prefix(h, t, length) <= h.reigns[u].base
  {
    var b := VoterHolds(servers, h, t, length, u);
    var base := h.reigns[u].base;
    assert ReignOk(h, u) && BallotOk(h, b);
    UpToDateHolds(servers, h, base, h.ballots[b], t, length);
    if t < LastTerm(base) {
      LastTermHoldsBase(servers, h, base);
      assert base[|base| - 1].term in h.reigns[u].earlier;
    }
  }

  lemma WonBefore(servers: seq<ServerId>, h: History, w: nat, u: nat)
    requires HistoryOk(servers, h) && w in h.reigns && u in h.reigns && Before(h, w, Some(u))
    ensures h.reigns[w].earlier < h.reigns[u].earlier
  {
    assert ReignOk(h, w) && ReignOk(h, u);
  }

  /** Figure 3, Leader Completeness: a decided entry is in the log of every leader of a later
      term, and was there when that leader was elected. */
  lemma {:induction false} LeaderCompleteness(servers: seq<ServerId>, h: History, t: nat, length: nat, u: nat)
    requires Sound(servers, h) && Decided(servers, h, t, length) && u in h.reigns && t < u
    ensures Prefix(h, t, length) <= h.reigns[u].base
    decreases h.reigns[u].earlier
  {
    forall w | t < w && w in h.reigns && Before(h, w, Some(u)) ensures Prefix(h, t, length) <= h.reigns[w].base {
      WonBefore(servers, h, w, u);
      LeaderCompleteness(servers, h, t, length, w);
    }
    CompletenessStep(servers, h, t, length, u);
  }

  /** The same for all terms at once. */
  ghost predicate LeadersComplete(servers: seq<ServerId>, h: History) {
    forall t: nat, length: nat, u: nat :: Decided(servers, h, t, length) && u in h.reigns && t < u
      ==> Prefix(h, t, length) <= h.reigns[u].base <= h.reigns[u].log
  }

  lemma SoundIsComplete(servers: seq<ServerId>, h: History)
    requires Sound(servers, h)
    ensures LeadersComplete(servers, h)
  {
    forall t: nat, length: nat, u: nat | Decided(servers, h, t, length) && u in h.reigns && t < u
      ensures Prefix(h, t, length) <= h.reigns[u].base <= h.reigns[u].log
    {
      LeaderCompleteness(servers, h, t, length, u);
      assert ReignOk(h, u);
    }
  }

  // ----- agreement -----

  lemma LaterLeaderHolds(servers: seq<ServerId>, h: History, t: nat, length: nat, u: nat)
    requires Sound(servers, h) && Decided(servers, h, t, length) && u in h.reigns && t <= u
    ensures Prefix(h, t, length) <= h.reigns[u].log
  {
    if t < u {
      LeaderCompleteness(servers, h, t, length, u);
      assert ReignOk(h, u);
    }
  }

  /** Two decided prefixes never contradict each other. */
  lemma DecidedAgree(servers: seq<ServerId>, h: History, t: nat, n: nat, u: nat, m: nat, i: nat)
    requires Sound(servers, h) && Decided(servers, h, t, n) && Decided(servers, h, u, m) && i < n && i < m
    ensures Prefix(h, t, n)[i] == Prefix(h, u, m)[i]
  {
    var top := if t < u then u else t;
    LaterLeaderHolds(servers, h, t, n, top);
    LaterLeaderHolds(servers, h, u, m, top);
    assert Prefix(h, t, n)[i] == h.reigns[top].log[i] == Prefix(h, u, m)[i];
  }

  /** What is committed by a leader up to term u, the leader of u has. */
  lemma LeaderHoldsCommitted(servers: seq<ServerId>, h: History, log: seq<Entry>, u: nat)
    requires Sound(servers, h) && Committed(servers, h, log, u) && u in h.reigns
    ensures log <= h.reigns[u].log
  {
    assert ReignOk(h, u);
    if !(log <= [SENTINEL]) {
      var t: nat, length: nat :| t <= u && DecidedBy(servers, h, log, t, length);
      LaterLeaderHolds(servers, h, t, length, u);
    }
  }

  lemma AppliedAgree(servers: seq<ServerId>, h: History, a: Applied, b: Applied)
    requires Sound(servers, h) && AppliedOk(servers, h, a) && AppliedOk(servers, h, b) && a.index == b.index
    ensures a.command == b.command
  {
    var t: nat, n: nat :| Decided(servers, h, t, n) && 0 < a.index < n && Prefix(h, t, n)[a.index].command == a.command;
    var u: nat, m: nat :| Decided(servers, h, u, m) && 0 < b.index < m && Prefix(h, u, m)[b.index].command == b.command;
    DecidedAgree(servers, h, t, n, u, m, a.index);
  }
}
