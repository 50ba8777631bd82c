/** What every reachable state of the corrected cluster satisfies about logs, and how it is
    kept when other servers move. Every log is measured against the logs of the leaders:
    an entry of term t sits where the leader of t put it, on top of the same prefix. */
module Replication {
  import opened RaftTypes
  import opened Logs
  import opened Nodes
  import opened Clusters
  import Election

  // ----- logs and reigns -----

  /** Up to position k the log is the log of the leader of its k-th entry's term. */
  ghost predicate FromLeader(h: History, log: seq<Entry>, k: nat)
    requires k < |log|
  {
    log[k].term in h.reigns && log[..k + 1] <= h.reigns[log[k].term].log
  }

  ghost predicate LogOk(h: History, log: seq<Entry>) {
    && |log| > 0 && log[0] == SENTINEL
    && (forall k :: 0 <= k < |log| ==> log[k].index == k)
    && (forall k :: 0 < k < |log| ==> FromLeader(h, log, k))
  }

  ghost predicate TermsUpTo(log: seq<Entry>, term: int) {
    forall k :: 0 <= k < |log| ==> log[k].term <= term
  }

  /** The terms won before, and what had been won before them; the leader's first log is made
      of theirs. */
  ghost predicate Timely(h: History, t: nat)
    requires t in h.reigns
  {
    var r := h.reigns[t];
    && t !in r.earlier && r.earlier <= h.reigns.Keys
    && (forall w :: w in r.earlier ==> h.reigns[w].earlier <= r.earlier)
    && (forall k :: 0 < k < |r.base| ==> r.base[k].term in r.earlier)
  }

  ghost predicate ReignOk(h: History, t: nat)
    requires t in h.reigns
  {
    var r := h.reigns[t];
    && r.base <= r.log && LogOk(h, r.log) && LogOk(h, r.base)
    && TermsUpTo(r.base, t - 1)
    && Timely(h, t)
    && (forall k :: |r.base| <= k < |r.log| ==> r.log[k].term == t)
    && Win(t, r.leader) in h.wins && h.wins[Win(t, r.leader)] == r.quorum
    && Candidacy(r.leader, t) in h.candidacies && h.candidacies[Candidacy(r.leader, t)] == r.base
  }

  // ----- copies: what a server confirmed to a leader, it keeps -----

  /** The first entries of the log of the leader of term t. */
  ghost function Prefix(h: History, t: nat, length: nat): seq<Entry> {
    if t in h.reigns && length <= |h.reigns[t].log| then h.reigns[t].log[..length] else []
  }

  /** The leader of term w was elected without that prefix. */
  ghost predicate Lacks(h: History, w: nat, t: nat, length: nat) {
    w in h.reigns && !(Prefix(h, t, length) <= h.reigns[w].base)
  }

  /** Term w was won before term u, if u was won at all. */
  ghost predicate Before(h: History, w: nat, u: Option<nat>) {
    u.Some? && u.value in h.reigns ==> w in h.reigns[u.value].earlier
  }

  /** The log has the prefix, unless some leader of a later term, elected before that of term u,
      lacked it. */
  ghost predicate Kept(h: History, log: seq<Entry>, t: nat, length: nat, u: Option<nat>) {
    Prefix(h, t, length) <= log || exists w :: t < w && Lacks(h, w, t, length) && Before(h, w, u)
  }

  ghost predicate CopyOk(h: History, copy: Copy)
    requires copy in h.copies
  {
    copy.term in h.reigns && 0 < h.copies[copy] <= |h.reigns[copy.term].log|
  }

  ghost predicate KeepsCopy(h: History, log: seq<Entry>, copy: Copy, u: Option<nat>)
    requires copy in h.copies
  {
    forall length :: 0 < length <= h.copies[copy] ==> Kept(h, log, copy.term, length, u)
  }

  // ----- votes -----

  ghost predicate CandidacyOk(h: History, c: Candidacy)
    requires c in h.candidacies
  {
    LogOk(h, h.candidacies[c]) && c.term > 0
  }

  ghost predicate LogUpToDate(log: seq<Entry>, voter: seq<Entry>) {
    |log| > 0 && UpToDate(LastTerm(log), |log| - 1, voter)
  }

  /** No leader of a later term that the log has entries of owes its election to the server. */
  ghost predicate Unseated(h: History, voter: ServerId, log: seq<Entry>, term: nat) {
    forall k :: 0 < k < |log| && log[k].term > term && log[k].term in h.reigns
      ==> voter !in h.reigns[log[k].term].quorum
  }

  ghost predicate BallotOk(h: History, b: Cast)
    requires b in h.ballots
  {
    && LogOk(h, h.ballots[b])
    && Candidacy(b.candidate, b.term) in h.candidacies
    && LogUpToDate(h.candidacies[Candidacy(b.candidate, b.term)], h.ballots[b])
    && Unseated(h, b.voter, h.candidacies[Candidacy(b.candidate, b.term)], b.term)
  }

  /** The vote could count for the leader of its term. */
  ghost predicate Counts(h: History, b: Cast) {
    b.term in h.reigns ==> b.voter in h.reigns[b.term].quorum
  }

  /** When a server gave a vote that could count, its log had what it had confirmed before. */
  ghost predicate BallotKeeps(h: History, b: Cast, copy: Copy)
    requires b in h.ballots && copy in h.copies
  {
    copy.server == b.voter && copy.term < b.term && Counts(h, b)
    ==> KeepsCopy(h, h.ballots[b], copy, Some(b.term))
  }

  // ----- commitment -----

  ghost function Holders(servers: seq<ServerId>, h: History, t: nat, length: nat): set<ServerId> {
    set s | s in servers && Copy(s, t) in h.copies && h.copies[Copy(s, t)] >= length
  }

  /** Section 5.4.2: an entry of the leader's own term, copied by a majority, with all before it. */
  ghost predicate Decided(servers: seq<ServerId>, h: History, t: nat, length: nat) {
    && t in h.reigns && 0 < length <= |h.reigns[t].log|
    && h.reigns[t].log[length - 1].term == t
    && IsMajority(servers, Holders(servers, h, t, length))
  }

  ghost predicate DecidedBy(servers: seq<ServerId>, h: History, log: seq<Entry>, t: nat, length: nat) {
    Decided(servers, h, t, length) && log <= Prefix(h, t, length)
  }

  /** A prefix that is committed, by a leader of a term up to the given one. */
  ghost predicate Committed(servers: seq<ServerId>, h: History, log: seq<Entry>, upTo: nat) {
    log <= [SENTINEL] || exists t: nat, length: nat :: t <= upTo && DecidedBy(servers, h, log, t, length)
  }

  ghost predicate AppliedOk(servers: seq<ServerId>, h: History, a: Applied) {
    exists t: nat, length: nat :: Decided(servers, h, t, length) && 0 < a.index < length
      && Prefix(h, t, length)[a.index].command == a.command
  }

  // ----- the invariant -----

  ghost predicate HistoryOk(servers: seq<ServerId>, h: History) {
    && (forall t :: t in h.reigns ==> ReignOk(h, t))
    && (forall w :: w in h.wins ==> w.term in h.reigns && h.reigns[w.term].leader == w.leader)
    && (forall c :: c in h.candidacies ==> CandidacyOk(h, c))
    && (forall b :: b in h.ballots ==> BallotOk(h, b))
    && (forall c :: c in h.copies ==> CopyOk(h, c))
    && (forall b, c :: b in h.ballots && c in h.copies ==> BallotKeeps(h, b, c))
    && (forall a :: a in h.applied ==> AppliedOk(servers, h, a))
  }

  /** What a server has in memory, or what it would restart with. */
  ghost predicate ViewOk(h: History, id: ServerId, st: Stable) {
    && LogOk(h, st.log)
    && (forall c :: c in h.copies && c.server == id ==> c.term <= st.term && KeepsCopy(h, st.log, c, None))
    && (forall c :: c in h.candidacies && c.server == id ==> c.term <= st.term)
  }

  ghost predicate CandidateOk(h: History, n: Node) {
    n.state.Candidate? ==>
      && Candidacy(n.id, n.mem.term) in h.candidacies
      && h.candidacies[Candidacy(n.id, n.mem.term)] == n.mem.log
      && Win(n.mem.term, n.id) !in h.wins
  }

  /** matchIndex of a peer is backed by a copy, and 0 <= matchIndex < nextIndex <= lastIndex + 1. */
  ghost predicate IndexOk(h: History, n: Node, peer: ServerId)
    requires n.state.Leader?
  {
    && peer in n.state.matchIndex.at && peer in n.state.nextIndex && n.state.nextIndex[peer].Num?
    && n.state.matchIndex.at[peer] < n.state.nextIndex[peer].value <= |n.mem.log|
    && (n.state.matchIndex.at[peer] > 0 ==>
          Copy(peer, n.mem.term) in h.copies && n.state.matchIndex.at[peer] < h.copies[Copy(peer, n.mem.term)])
  }

  ghost predicate IndexesOk(servers: seq<ServerId>, h: History, n: Node)
    requires n.state.Leader?
  {
    && n.state.matchIndex.keys == Peers(servers, n.id)
    && (forall k :: k in n.state.matchIndex.at <==> k in Peers(servers, n.id))
    && (forall peer :: peer in Peers(servers, n.id) ==> IndexOk(h, n, peer))
  }

  ghost predicate LeaderOk(servers: seq<ServerId>, h: History, n: Node) {
    n.state.Leader? ==>
      && n.mem.term in h.reigns && h.reigns[n.mem.term].leader == n.id
      && h.reigns[n.mem.term].log == n.mem.log
      && Copy(n.id, n.mem.term) in h.copies && h.copies[Copy(n.id, n.mem.term)] == |n.mem.log|
      && IndexesOk(servers, h, n)
  }

  ghost predicate CommitOk(servers: seq<ServerId>, h: History, n: Node) {
    && n.lastApplied <= n.commitIndex < |n.mem.log|
    && Committed(servers, h, n.mem.log[..n.commitIndex + 1], n.mem.term)
  }

  ghost predicate NodeOk(servers: seq<ServerId>, h: History, n: Node) {
    && ViewOk(h, n.id, n.mem) && ViewOk(h, n.id, n.disk)
    && CandidateOk(h, n) && LeaderOk(servers, h, n) && CommitOk(servers, h, n)
  }

  ghost predicate AppendOk(servers: seq<ServerId>, h: History, p: Packet)
    requires p.msg.AppendEntries?
  {
    var m := p.msg;
    && m.leaderId == p.src && m.term in h.reigns
    && var log := h.reigns[m.term].log;
    && m.prevLogIndex + |m.entries| < |log|
    && m.entries == log[m.prevLogIndex + 1..m.prevLogIndex + 1 + |m.entries|]
    && m.prevLogTerm == log[m.prevLogIndex].term
    && m.leaderCommit <= m.prevLogIndex + |m.entries|
    && Committed(servers, h, log[..m.leaderCommit + 1], m.term)
  }

  ghost predicate RequestOk(h: History, p: Packet)
    requires p.msg.RequestVote?
  {
    var m := p.msg;
    && Candidacy(m.candidateId, m.term) in h.candidacies
    && var log := h.candidacies[Candidacy(m.candidateId, m.term)];
    && |log| > 0 && m.lastLogIndex == |log| - 1 && m.lastLogTerm == LastTerm(log)
  }

  ghost predicate PacketOk(servers: seq<ServerId>, h: History, p: Packet) {
    && p.src != p.dst
    && (p.msg.AppendEntries? ==> AppendOk(servers, h, p))
    && (p.msg.RequestVote? ==> RequestOk(h, p))
    && (p.msg.AppendResponse? ==> p.msg.followerId == p.src)
    && (p.msg.AppendResponse? && p.msg.success ==>
          Copy(p.src, p.msg.term) in h.copies && p.msg.replicatedTo < h.copies[Copy(p.src, p.msg.term)])
  }

  // ----- what a step of one server may do to the history -----

  ghost predicate SameReign(r: Reign, r': Reign, id: ServerId) {
    && r'.leader == r.leader && r'.quorum == r.quorum && r'.base == r.base && r'.earlier == r.earlier
    && r.log <= r'.log && (r.leader != id ==> r'.log == r.log)
  }

  ghost predicate ReignsGrow(h: History, h': History, id: ServerId) {
    && (forall t :: t in h.reigns ==> t in h'.reigns && SameReign(h.reigns[t], h'.reigns[t], id))
    && (forall t :: t in h'.reigns && t !in h.reigns ==> h.reigns.Keys <= h'.reigns[t].earlier)
  }

  ghost predicate CopiesGrow(h: History, h': History, id: ServerId) {
    && (forall c :: c in h.copies ==> c in h'.copies && h.copies[c] <= h'.copies[c])
    && (forall c :: c in h'.copies && c.server != id ==> c in h.copies && h'.copies[c] == h.copies[c])
  }

  ghost predicate RecordsGrow(h: History, h': History, id: ServerId) {
    && (forall b :: b in h.ballots ==> b in h'.ballots && h'.ballots[b] == h.ballots[b])
    && (forall c :: c in h.candidacies ==> c in h'.candidacies && h'.candidacies[c] == h.candidacies[c])
    && (forall c :: c in h'.candidacies && c !in h.candidacies ==> c.server == id)
    && (forall w :: w in h.wins ==> w in h'.wins && h'.wins[w] == h.wins[w])
    && (forall w :: w in h'.wins && w !in h.wins ==> w.leader == id)
    && h.applied <= h'.applied
  }

  ghost predicate Extends(h: History, h': History, id: ServerId) {
    ReignsGrow(h, h', id) && CopiesGrow(h, h', id) && RecordsGrow(h, h', id)
  }

  // ----- facts that survive growth -----

  lemma LogStaysOk(h: History, h': History, id: ServerId, log: seq<Entry>)
    requires ReignsGrow(h, h', id) && LogOk(h, log)
    ensures LogOk(h', log)
  {
    forall k | 0 < k < |log| ensures FromLeader(h', log, k) {
      assert FromLeader(h, log, k);
    }
  }

  lemma PrefixStays(h: History, h': History, id: ServerId, t: nat, length: nat)
    requires ReignsGrow(h, h', id) && t in h.reigns && length <= |h.reigns[t].log|
    ensures Prefix(h', t, length) == Prefix(h, t, length)
  {
  }

  lemma KeptStays(h: History, h': History, id: ServerId, log: seq<Entry>, t: nat, length: nat,
                  u: Option<nat>)
    requires ReignsGrow(h, h', id) && t in h.reigns && length <= |h.reigns[t].log|
    requires Kept(h, log, t, length, u)
    ensures Kept(h', log, t, length, u)
  {
    PrefixStays(h, h', id, t, length);
    if !(Prefix(h, t, length) <= log) {
      var w :| t < w && Lacks(h, w, t, length) && Before(h, w, u);
      assert Lacks(h', w, t, length) && Before(h', w, u);
    }
  }

  lemma KeepsCopyStays(h: History, h': History, id: ServerId, log: seq<Entry>, copy: Copy, u: Option<nat>)
    requires ReignsGrow(h, h', id) && copy in h.copies && copy in h'.copies && h'.copies[copy] == h.copies[copy]
    requires CopyOk(h, copy) && KeepsCopy(h, log, copy, u)
    ensures KeepsCopy(h', log, copy, u)
  {
    forall length | 0 < length <= h'.copies[copy] ensures Kept(h', log, copy.term, length, u) {
      KeptStays(h, h', id, log, copy.term, length, u);
    }
  }

  lemma DecidedStays(servers: seq<ServerId>, h: History, h': History, id: ServerId, t: nat, length: nat)
    requires ReignsGrow(h, h', id) && CopiesGrow(h, h', id) && Decided(servers, h, t, length)
    ensures Decided(servers, h', t, length) && Prefix(h', t, length) == Prefix(h, t, length)
  {
    PrefixStays(h, h', id, t, length);
    assert Prefix(h', t, length)[length - 1] == h.reigns[t].log[length - 1];
    Election.SubsetCount(Holders(servers, h, t, length), Holders(servers, h', t, length));
  }

  lemma CommittedStays(servers: seq<ServerId>, h: History, h': History, id: ServerId, log: seq<Entry>, upTo: nat,
                       upTo': nat)
    requires ReignsGrow(h, h', id) && CopiesGrow(h, h', id) && Committed(servers, h, log, upTo) && upTo <= upTo'
    ensures Committed(servers, h', log, upTo')
  {
    if !(log <= [SENTINEL]) {
      var t: nat, length: nat :| t <= upTo && DecidedBy(servers, h, log, t, length);
      DecidedStays(servers, h, h', id, t, length);
      assert DecidedBy(servers, h', log, t, length);
    }
  }

  lemma AppliedStays(servers: seq<ServerId>, h: History, h': History, id: ServerId, a: Applied)
    requires ReignsGrow(h, h', id) && CopiesGrow(h, h', id) && AppliedOk(servers, h, a)
    ensures AppliedOk(servers, h', a)
  {
    var t: nat, length: nat :| Decided(servers, h, t, length) && 0 < a.index < length
      && Prefix(h, t, length)[a.index].command == a.command;
    DecidedStays(servers, h, h', id, t, length);
  }

  lemma ViewStaysOk(servers: seq<ServerId>, h: History, h': History, id: ServerId, other: ServerId, st: Stable)
    requires HistoryOk(servers, h) && Extends(h, h', id) && other != id && ViewOk(h, other, st)
    ensures ViewOk(h', other, st)
  {
    LogStaysOk(h, h', id, st.log);
    forall c | c in h'.copies && c.server == other ensures c.term <= st.term && KeepsCopy(h', st.log, c, None) {
      KeepsCopyStays(h, h', id, st.log, c, None);
    }
  }

  lemma LeaderStaysOk(servers: seq<ServerId>, h: History, h': History, id: ServerId, n: Node)
    requires Extends(h, h', id) && n.id != id && LeaderOk(servers, h, n)
    ensures LeaderOk(servers, h', n)
  {
    if n.state.Leader? {
      forall peer | peer in Peers(servers, n.id) ensures IndexOk(h', n, peer) {
        assert IndexOk(h, n, peer);
      }
    }
  }

  lemma ReignStaysOk(h: History, h': History, id: ServerId, t: nat)
    requires Extends(h, h', id) && t in h.reigns && ReignOk(h, t) && h'.reigns[t] == h.reigns[t]
    ensures ReignOk(h', t)
  {
    LogStaysOk(h, h', id, h.reigns[t].log);
    LogStaysOk(h, h', id, h.reigns[t].base);
  }

  lemma CandidacyStaysOk(h: History, h': History, id: ServerId, c: Candidacy)
    requires Extends(h, h', id) && c in h.candidacies && CandidacyOk(h, c)
    ensures CandidacyOk(h', c)
  {
    LogStaysOk(h, h', id, h.candidacies[c]);
  }

  lemma BallotStaysOk(h: History, h': History, id: ServerId, b: Cast)
    requires Extends(h, h', id) && b in h.ballots && BallotOk(h, b)
    requires LogOk(h, h.candidacies[Candidacy(b.candidate, b.term)])
    ensures BallotOk(h', b)
  {
    LogStaysOk(h, h', id, h.ballots[b]);
    var log := h.candidacies[Candidacy(b.candidate, b.term)];
    forall k | 0 < k < |log| ensures log[k].term in h.reigns {
      assert FromLeader(h, log, k);
    }
  }

  lemma BallotKeepsStays(h: History, h': History, id: ServerId, b: Cast, copy: Copy)
    requires Extends(h, h', id) && b in h.ballots && copy in h.copies && CopyOk(h, copy)
    requires BallotKeeps(h, b, copy) && h'.copies[copy] == h.copies[copy]
    ensures BallotKeeps(h', b, copy)
  {
    if copy.server == b.voter && copy.term < b.term && Counts(h', b) {
      assert Counts(h, b);
      KeepsCopyStays(h, h', id, h.ballots[b], copy, Some(b.term));
    }
  }

  /** The other servers are still in order after one server's step. */
  lemma OtherNodeOk(servers: seq<ServerId>, h: History, h': History, id: ServerId, n: Node)
    requires HistoryOk(servers, h) && Extends(h, h', id) && n.id != id && NodeOk(servers, h, n)
    ensures NodeOk(servers, h', n)
  {
    hide HistoryOk, ViewOk, LeaderOk, Committed;
    ViewStaysOk(servers, h, h', id, n.id, n.mem);
    ViewStaysOk(servers, h, h', id, n.id, n.disk);
    LeaderStaysOk(servers, h, h', id, n);
    CommittedStays(servers, h, h', id, n.mem.log[..n.commitIndex + 1], n.mem.term, n.mem.term);
  }

  /** So are the packets already sent. */
  lemma PacketStaysOk(servers: seq<ServerId>, h: History, h': History, id: ServerId, p: Packet)
    requires Extends(h, h', id) && PacketOk(servers, h, p)
    ensures PacketOk(servers, h', p)
  {
    if p.msg.AppendEntries? {
      var m := p.msg;
      var log, log' := h.reigns[m.term].log, h'.reigns[m.term].log;
      assert log[m.prevLogIndex] == log'[m.prevLogIndex];
      assert log'[m.prevLogIndex + 1..m.prevLogIndex + 1 + |m.entries|] ==
          log[m.prevLogIndex + 1..m.prevLogIndex + 1 + |m.entries|];
      assert log'[..m.leaderCommit + 1] == log[..m.leaderCommit + 1];
      CommittedStays(servers, h, h', id, log[..m.leaderCommit + 1], m.term, m.term);
    }
  }
}
