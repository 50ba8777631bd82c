/** How a leader finds where a follower's log agrees with its own: every rejection by a
    follower of the same term lowers nextIndex, the search cannot miss the last index known
    to match, and one request from there gives the follower the leader's whole log. */
module Probing {
  import opened RaftTypes
  import opened Logs
  import opened Nodes
  import opened Clusters
  import opened Replication
  import Steps
  import Confirmed
  import Safety

  function Rejection(term: nat, peer: ServerId): Message {
    AppendResponse(term, peer, 0, false, 0)
  }

  /** The leader after so many rejections in a row. */
  function Rejected(n: Node, peer: ServerId, times: nat): (r: Node)
    requires n.state.Leader?
    ensures r.state.Leader?
  {
    if times == 0 then n
    else OnAppendResponse(CORRECTED, Rejected(n, peer, times - 1), Rejection(n.mem.term, peer)).node
  }

  ghost predicate Tracked(n: Node, peer: ServerId) {
    && n.state.Leader? && peer in n.state.matchIndex.at && peer in n.state.nextIndex && n.state.nextIndex[peer].Num?
    && n.state.matchIndex.at[peer] < n.state.nextIndex[peer].value <= |n.mem.log|
  }

  lemma {:induction false} RejectedLowers(n: Node, peer: ServerId, times: nat)
    requires Tracked(n, peer)
    ensures var r, next, matched := Rejected(n, peer, times), n.state.nextIndex[peer].value,
        n.state.matchIndex.at[peer];
      && r.id == n.id && r.mem == n.mem && r.state.Leader? && r.state.matchIndex == n.state.matchIndex
      && Tracked(r, peer)
      && r.state.nextIndex[peer].value == if next - times > matched then next - times else matched + 1
  {
    hide AdvanceCommit;
    if times > 0 {
      RejectedLowers(n, peer, times - 1);
      var before := Rejected(n, peer, times - 1);
      CommitOnly(before.(state := UpdateIndexes(CORRECTED, before.state, Rejection(n.mem.term, peer))));
    }
  }

  lemma CommitOnly(n: Node)
    requires n.state.Leader?
    ensures var n' := AdvanceCommit(CORRECTED, n); n' == n.(commitIndex := n'.commitIndex)
  {
  }

  /** What a leader knows to match does: the follower confirmed it in this term. */
  lemma KnownMatches(servers: seq<ServerId>, h: History, n: Node, w: Node)
    requires HistoryOk(servers, h) && LeaderOk(servers, h, n) && n.state.Leader?
    requires Confirmed.Keeps(h, w) && LogOk(h, w.mem.log)
    requires w.id in Peers(servers, n.id) && w.mem.term == n.mem.term
    ensures Tracked(n, w.id)
    ensures var matched := n.state.matchIndex.at[w.id];
      matched < |w.mem.log| && w.mem.log[matched].term == n.mem.log[matched].term
  {
    hide CandidacyOk, BallotOk, BallotKeeps, AppliedOk, FromLeader, Timely;
    assert IndexOk(h, n, w.id);
    var matched, t := n.state.matchIndex.at[w.id], n.mem.term;
    if matched > 0 {
      assert CopyOk(h, Copy(w.id, t));
      PrefixMatches(h, n.mem.log, w.mem.log, t, h.copies[Copy(w.id, t)], matched);
    } else {
      assert ReignOk(h, t);
    }
  }

  lemma PrefixMatches(h: History, leader: seq<Entry>, log: seq<Entry>, t: nat, length: nat, index: nat)
    requires t in h.reigns && h.reigns[t].log == leader && index < length <= |leader| && Prefix(h, t, length) <= log
    ensures index < |log| && log[index] == leader[index]
  {
    assert Prefix(h, t, length)[index] == leader[index];
  }

  /** The pair of a leader and a follower of its term, after any run. */
  ghost predicate InTouch(c: Cluster, s: ServerId, peer: ServerId) {
    && s in c.nodes && peer in c.nodes && peer != s
    && c.nodes[s].state.Leader? && c.nodes[peer].state.Follower?
    && c.nodes[s].mem.term == c.nodes[peer].mem.term
  }

  lemma InTouchMatches(servers: seq<ServerId>, events: seq<Event>, s: ServerId, peer: ServerId)
    requires Distinct(servers) && InTouch(Run(CORRECTED, servers, events), s, peer)
    ensures var c := Run(CORRECTED, servers, events);
      var n, w := c.nodes[s], c.nodes[peer];
      && n.id == s && w.id == peer && Tracked(n, peer)
      && LogOk(c.history, n.mem.log) && LogOk(c.history, w.mem.log)
      && n.state.matchIndex.at[peer] < |w.mem.log|
      && w.mem.log[n.state.matchIndex.at[peer]].term == n.mem.log[n.state.matchIndex.at[peer]].term
  {
    hide Run, HistoryOk, LogOk, LeaderOk, CommitOk, Tracked, KeepsCopy, Confirmed.Keeps;
    var c := Run(CORRECTED, servers, events);
    Safety.RunKeepsInv(servers, events);
    Confirmed.RunKeeps(servers, events);
    assert NodeOk(servers, c.history, c.nodes[s]) && NodeOk(servers, c.history, c.nodes[peer]);
    KnownMatches(servers, c.history, c.nodes[s], c.nodes[peer]);
  }

  /** A request sent from just above the last known match. */
  lemma FloorMatches(n: Node, w: Node)
    requires Tracked(n, w.id) && n.state.nextIndex[w.id].value == n.state.matchIndex.at[w.id] + 1
    requires var matched := n.state.matchIndex.at[w.id];
      matched < |w.mem.log| && w.mem.log[matched].term == n.mem.log[matched].term
    ensures Matches(w.mem.log, AppendRequest(CORRECTED, n, w.id).msg)
  {
  }

  /** After every run: when a follower of the leader's term rejects the leader's request,
      nextIndex becomes exactly one lower and is still above matchIndex. */
  lemma RejectionLowers(servers: seq<ServerId>, events: seq<Event>, s: ServerId, peer: ServerId)
    requires Distinct(servers) && InTouch(Run(CORRECTED, servers, events), s, peer)
    requires var c := Run(CORRECTED, servers, events);
      |c.nodes[s].mem.log| > 0 && !Matches(c.nodes[peer].mem.log, AppendRequest(CORRECTED, c.nodes[s], peer).msg)
    ensures var n := Run(CORRECTED, servers, events).nodes[s];
      && Tracked(n, peer) && Tracked(Rejected(n, peer, 1), peer)
      && Rejected(n, peer, 1).state.nextIndex[peer].value == n.state.nextIndex[peer].value - 1
  {
    hide Run, LogOk, AppendRequest, Matches, Rejected;
    var c := Run(CORRECTED, servers, events);
    InTouchMatches(servers, events, s, peer);
    RejectedLowers(c.nodes[s], peer, 1);
    if c.nodes[s].state.nextIndex[peer].value == c.nodes[s].state.matchIndex.at[peer] + 1 {
      FloorMatches(c.nodes[s], c.nodes[peer]);
    }
  }

  /** A matching request gives the follower all the leader has, and its answer tells so. */
  lemma RequestCatchesUp(servers: seq<ServerId>, h: History, n: Node, w: Node)
    requires LogOk(h, n.mem.log) && LogOk(h, w.mem.log) && Tracked(n, w.id)
    requires w.state.Follower? && w.mem.term == n.mem.term
    requires Matches(w.mem.log, AppendRequest(CORRECTED, n, w.id).msg)
    ensures var p := AppendRequest(CORRECTED, n, w.id);
      var o := Receive(CORRECTED, servers, w, n.id, p.msg);
      && n.mem.log <= o.node.mem.log
      && o.out == [Packet(w.id, n.id, AppendResponse(n.mem.term, w.id, o.node.commitIndex, true, |n.mem.log| - 1))]
  {
    hide LogOk, Merge, OnAppendEntries;
    var m := AppendRequest(CORRECTED, n, w.id).msg;
    var next := n.state.nextIndex[w.id].value;
    Steps.SuffixIs(n.mem.log, next);
    Steps.MergeStretch(h, w.mem.log, n.mem.log, m.entries, m.prevLogIndex);
    Steps.AcceptShape(h, w, AppendRequest(CORRECTED, n, w.id).(src := n.id), |n.mem.log|);
    assert n.mem.log[..|n.mem.log|] == n.mem.log;
  }

  lemma AnswerMatchesAll(n: Node, peer: ServerId, commit: nat)
    requires Tracked(n, peer)
    ensures var m := AppendResponse(n.mem.term, peer, commit, true, |n.mem.log| - 1);
      var n' := OnAppendResponse(CORRECTED, n, m).node;
      n'.state.Leader? && n'.mem == n.mem && n'.state.matchIndex.Get(peer) == |n.mem.log| - 1
  {
    hide AdvanceCommit;
    var m := AppendResponse(n.mem.term, peer, commit, true, |n.mem.log| - 1);
    CommitOnly(n.(state := UpdateIndexes(CORRECTED, n.state, m)));
  }

  /** After every run: once a follower of the leader's term has rejected often enough to bring
      nextIndex down to matchIndex + 1, the next request makes its log begin with the leader's
      whole log, and its answer raises matchIndex to the leader's last index. */
  lemma CatchesUp(servers: seq<ServerId>, events: seq<Event>, s: ServerId, peer: ServerId, times: nat)
    requires Distinct(servers) && InTouch(Run(CORRECTED, servers, events), s, peer)
    requires Tracked(Run(CORRECTED, servers, events).nodes[s], peer)
    requires var n := Run(CORRECTED, servers, events).nodes[s];
      times >= n.state.nextIndex[peer].value - n.state.matchIndex.at[peer] - 1
    ensures var c := Run(CORRECTED, servers, events);
      var n, w := Rejected(c.nodes[s], peer, times), c.nodes[peer];
      && Tracked(n, peer) && n.mem == c.nodes[s].mem
      && var o := Receive(CORRECTED, servers, w, s, AppendRequest(CORRECTED, n, peer).msg);
      && n.mem.log <= o.node.mem.log
      && |o.out| == 1 && o.out[0].msg.AppendResponse?
      && var n' := OnAppendResponse(CORRECTED, n, o.out[0].msg).node;
      n'.state.Leader? && n'.state.matchIndex.Get(peer) == |n.mem.log| - 1
  {
    hide Run, LogOk, AppendRequest, Matches, Rejected, Receive, OnAppendResponse;
    var c := Run(CORRECTED, servers, events);
    InTouchMatches(servers, events, s, peer);
    RejectedLowers(c.nodes[s], peer, times);
    var n, w := Rejected(c.nodes[s], peer, times), c.nodes[peer];
    FloorMatches(n, w);
    RequestCatchesUp(servers, c.history, n, w);
    var o := Receive(CORRECTED, servers, w, s, AppendRequest(CORRECTED, n, peer).msg);
    AnswerMatchesAll(n, peer, o.node.commitIndex);
  }
}
