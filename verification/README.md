# raftjs, modelled and proved in Dafny

A model of a raftjs server and of a cluster of raftjs servers, with proofs of the properties the
Raft paper (Ongaro and Ousterhout, "In Search of an Understandable Consensus Algorithm", extended
version) lists in Figure 3, and of what the source as it stands does instead.

`dafny verify dfyconfig.toml` checks everything.

## The source and its corrections

The comments of the source quote the paper line by line, but in a number of places the code does
something else. `RaftTypes.Fixes` lists those places, one boolean each. With `AS_WRITTEN` (all false)
the handlers are those of the source; with `CORRECTED` (all true) they do what the comments beside the
code ask for. Every function and method of a server takes such a policy, so the same definitions serve
both, and a theorem says for which policies it holds.

| correction | the code | corrected |
|---|---|---|
| recordsGrant | `follower.ts:185-212` grants a vote and does not store it | the vote is stored |
| comparesLogs | `follower.ts:185-187` ignores lastLogIndex and lastLogTerm | section 5.4.1 is checked |
| countsOwnTerm | `candidate.ts:70-73` counts a grant of any term | grants of the own term only |
| persistsFirst | `server.ts:139-141` writes state before responses only | before requests too |
| reloadsVote | `server.ts:202` reads back the term, not the vote | both |
| keepsLog | `log.ts:60-62` writing the log writes nothing | the log is written |
| sendsFromNextIndex | `leader.ts:40-45` keys the tables by position, `leader.ts:142-143` sends the last entry as prevLog*, `leader.ts:102` has no floor | keyed by server id, prevLog* at nextIndex - 1, nextIndex stays above matchIndex |
| mergesByPosition | `follower.ts:127-141` compares a new entry with the last term and appends nothing after truncating | compares at the entry's own index, and appends |
| matchesReplicated | `leader.ts:99` takes the follower's commit index as matchIndex, `leader.ts:80` sorts as text | own-term responses carry the index replicated up to, matchIndex never falls, numeric order |

Three more concern the awaits of `sendRpcMessage` and are in `Awaits.Policy`: no handler of a server runs
while something of it waits for its writes, the apply loop apart (serial); the term is written before the
vote, as the source has it (termFirst); and the callback of a write checks for an error before it raises
the in-sync flag, which `storage.ts:98` does not (checked; `Storage` has the same correction). Two concern
one module each: one apply loop at a time (`ApplyLoop`, for `server.ts:151-160`), and an exit that removes
the listener enter added (`Timers`, for `candidate.ts:33,45` and `follower.ts:35,59`).

The source's own README says replication is missing (README.md:14-20); `leader.ts`, `follower.ts` and
`log.ts` contain it, and it is modelled here.

## The main results

Over every cluster, every run and every combination of the corrections, none left open:

- Election Safety holds exactly when a vote is stored, on disk, read back and counted in its own term
  (`ElectionRuns.ElectionSafetyIff`). With every await taken apart, writes that may fail and crashes between
  any two file writes it needs, besides, serial, termFirst and checked, and no more
  (`AwaitRuns.ElectionSafetyIff`); if no write fails, serial and termFirst
  (`AwaitRuns.SteadyElectionSafetyIff`).
- Log Matching holds exactly when a vote is stored, read back and counted in its own term and either the
  state is on disk before requests leave, or requests and merge are both as written, so that a request
  can only cut a log (`MatchingRuns.LogMatchingIff`). With the awaits apart it needs the same three besides,
  and of the two ways out the second is one only while writing the log writes nothing: a log on disk ahead
  of its term breaks it (`AwaitMatching.LogMatchingIff`, `KeptConflict.LogsDisagree`).
- Commands are ever applied exactly when line 99 of the leader is corrected (`Necessity.AppliesIff`), and
  then the same ones everywhere exactly when every other correction is in too
  (`Necessity.StateMachineSafetyIff`). With the awaits apart, commands applied before their handler's writes,
  failed writes and crashes at any moment that takes, again, serial, termFirst and checked
  (`AwaitCommits.StateMachineSafetyIff`).
- A step of a server does what the rules of Figure 2 say, field by field, and nothing else; where a policy departs
  from the figure, or the source whatever is corrected (candidates and leaders leave requests unanswered, a follower
  names a stale sender), the rule says so (`Rules.StepIff`). The corrected rules are met by every step exactly when
  every correction is in (`Rules.AlwaysFigure2Iff`).
- In the corrected cluster Leader Completeness holds (`Safety.LeadersAreComplete`), no step takes back a
  term, a vote or a committed entry (`Safety.NothingTakenBack`), and a leader brings any follower of its
  term up to date (`Probing.CatchesUp`).

## The parts

- `RaftTypes`, `Nodes`: a server's state and, as functions on it, all it does on a message, a timeout, a
  client request, a heartbeat and a restart. `Servers`: the same as objects updated in place, loops
  included; each method is proved equal to its function.
- `Logs`, `Medians`, `Decimals`: the merge of a request's entries, the median of matchIndex, and the
  decimal text the source sorts by and stores.
- `Clusters`: any number of servers and every run they can make, a handler with its writes being one
  step. The network is the set of all packets ever sent, so packets are lost, repeated and reordered; any
  server may time out, crash and restart at any moment. A history beside the cluster records votes, wins,
  leaders' logs and applied commands.
- `Rules`: Figure 2 and section 5 as rules for each field of a server and for what it sends, met by the steps of
  `Nodes` and by nothing else. `AwaitRules`: the same for the moves of `Awaits`. `Histories`: what the history of
  a run records, exactly, and that the leader a follower names has won.
- `Election`, `Matching`, `SoleAuthors`: Election Safety and Log Matching, the latter also where nothing is
  written before requests. `ElectionRuns`, `MatchingRuns`, `CopiedConflict`: runs without one of the
  corrections, and what follows.
- `Replication`, `Completeness`, `Steps`, `Safety`: the invariant of the corrected cluster, Leader
  Completeness, State Machine Safety, and what no step takes back.
- `Commitless`: with line 99 as written nothing is ever committed. `SafetyRuns`, `ForgottenTerm`,
  `LostCopies`, `Overcounted`: runs that apply different commands at one index, one for each missing
  correction. `Necessity`: what follows.
- `Awaits`: the same servers with the awaits apart: handlers, single file writes, failed writes, sends and
  crashes are moves of their own, and each file has its in-sync flag. `AwaitSafety`, `AwaitRuns`: Election
  Safety there, and runs that break it. `TornWrites`: the corrected cluster in whole steps and crashes of
  servers that are ahead of their disks; `TornMatching`: Log Matching there, for every policy under which
  votes bind. `AwaitServers`, `AwaitReduction`: a run with the awaits apart is such a run. `AwaitAuthors`: Log
  Matching where nothing is written before requests; `KeptConflict`: a run that breaks it there.
  `AwaitMatching`, `AwaitCommits`: two leaders' logs disagree, or two commands are applied, all the same, and
  what follows.
- `RunSteps`: how the runs that serve as examples are built, one event at a time.
- `Probing`: the leader's search for the point where a follower's log agrees. `Confirmed`: what a follower
  has confirmed in its term, it holds.
- `Durability`: what is on disk when.
- `ApplyLoop`: overlapping calls of the apply loop, and the commands they execute. `Timers`: the election
  timer and its listeners. `Requests`: the listeners that answer clients. `Storage`: durable values,
  written, read and lost in crashes. `Registry`: endpoints as text and the registry keyed by it.

## Assumptions

- In `Clusters` a received message is one step, up to the handler's first await, including the write of
  log, term and vote before the answer leaves. `Awaits` takes that apart for Election Safety, Log Matching
  and State Machine Safety. The other theorems are about whole steps. `Storage` has a single write in steps,
  `ApplyLoop` the apply loop, `Timers` the delayed timer reset.
- In `Awaits` the write of one file is one move: it takes the value of that moment, and a write that fails
  leaves the file as it was.
- An endpoint is the server listening on it, so votes and followers are counted by server id.
- A timeout may hit a server in any state. That covers the listeners the source leaks: a firing of the
  timer calls several of them, which is several timeouts in a row (`Timers.FiringAsWritten`).
- A vote of null read back is null; `Storage.StringRoundTripIff` shows that the file gives the empty
  string instead.
- No log has 2^53 entries: where the source falls back to MAX_SAFE_INTEGER the model has no bound.
- A handler that throws, as on a log emptied by the merge as written, does what it did before throwing.

## Model

| member | source | states |
|---|---|---|
| ElectionRuns.ElectionSafetyIff | src/state/candidate.ts:163-181 | Section 5.2, all 512 policies, a handler with its writes as one step: in every run of every cluster at most one server wins each term if and only if recordsGrant, persistsFirst, reloadsVote and countsOwnTerm are in |
| AwaitRuns.ElectionSafetyIff | src/server.ts:134-143 | Section 5.2 with the awaits apart, all 4096 policies: over every order of handlers, single file writes, failed writes, sends and crashes at most one server wins each term if and only if those four are in, handlers of one server do not overlap, the term is written before the vote, and a failed write raises no in-sync flag |
| AwaitRuns.SteadyElectionSafetyIff | src/server.ts:134-143 | over the runs in which no write fails, the same without the last condition |
| AwaitSafety.ElectionSafety | src/server.ts:248-255 | the sufficient half, a crash between any two of the three file writes included, and failed writes if the callback checks |
| AwaitSafety.TakeOk | src/server.ts:248-255 | while the in-sync flags tell the truth every move, a failed write included, keeps: one vote per server and term among the packets that have left, remembered in memory and, once its writes are done, on disk |
| Awaits.RunTruthful | src/storage/storage.ts:80-102 | they do after every run in which no write fails, and after every run if the callback checks |
| AwaitRuns.ForgetsBetweenWrites | src/server.ts:248-255 | a message of a later term, handled between the writes of term and vote, leaves the old term with no vote on disk, and the grant is sent |
| AwaitRuns.ForgetsBetweenFiles | src/server.ts:248-255 | with the vote written first, a crash before the term is written does the same |
| AwaitRuns.ForgetsAfterFailure | src/storage/storage.ts:80-102 | a failed write of the term raises its flag, the request is granted again, the grant writes the vote beside the old term and leaves, and a restart is back in that term |
| Awaits.Simulates | src/server.ts:134-143 | every run of whole steps is a run with the awaits apart, under every policy |
| AwaitRules.MoveIff | src/server.ts:134-143 | every policy and every state, as a reference definition: a move is the one thing that meets the rules that say when memory, a file or a flag changes, what waits, and when a packet leaves |
| AwaitRules.BeginsAtRest | src/server.ts:192-216 | at first boot nothing is under way and what has been read is in sync |
| AwaitCommits.StateMachineSafetyIff | src/server.ts:134-161 | Section 5.4.3 with the awaits apart, all 4096 policies: over every order of handlers, applied commands, single file writes, failed writes, sends and crashes no two different commands are ever applied at one index if and only if nothing can be applied at all (line 99 as written), or every correction is in, handlers of one server do not overlap, the term is written before the vote, and a failed write raises no in-sync flag |
| AwaitCommits.SteadyStateMachineSafetyIff | src/server.ts:134-161 | over the runs in which no write fails, the same without the last condition |
| AwaitCommits.TwoCommands | src/server.ts:248-255 | with every handler corrected, two leaders of term 2 apply different commands at index 1 when handlers overlap, the vote is written first, or a failed write raises its flag |
| AwaitMatching.LogMatchingIff | src/server.ts:134-143 | Section 5.3 with the awaits apart, all 4096 policies: over every order of handlers, single file writes, failed writes, sends and crashes logs match if and only if recordsGrant, reloadsVote and countsOwnTerm are in, either persistsFirst is or sendsFromNextIndex, mergesByPosition and keepsLog all are not, handlers of one server do not overlap, the term is written before the vote, and a failed write raises no in-sync flag |
| AwaitMatching.SteadyLogMatchingIff | src/server.ts:134-143 | over the runs in which no write fails, the same without the last condition |
| KeptConflict.LogsDisagree | src/server.ts:248-255 | when the log is written and nothing is before requests: two leaders crash after their logs are written and before their terms, are back in term 0 with logs of terms 1 and 2, and one elects the other in term 1 again, so that entries of term 1 at index 2 sit on different ones |
| AwaitAuthors.RunKeepsInv | src/state/follower.ts:127-141 | where requests only cut logs and logs are not written, every run with the awaits apart keeps: each log entry was appended by its own server in a term it won and in which no vote of it for another leaves, failed writes and a crash at any moment included |
| TornWrites.TornSafety | src/server.ts:248-255 | Sections 5.3 and 5.4 for any corrected cluster of more than one server, with crashes that find a server ahead of its disk, commands it applied by then included: logs match, leaders are complete, and no two different commands are applied at one index |
| TornWrites.TornOk | src/server.ts:248-255 | a restart keeps the invariant, whatever handlers had run in memory alone, whatever they had applied, and whichever log and term of theirs were written, beside the old vote |
| TornWrites.RanAhead | src/server.ts:147-161 | a handler of a server that is ahead of its disk commits and applies only what is committed without it, and wins no election |
| TornMatching.LogMatching | src/server.ts:248-255 | Section 5.3 with such crashes, for every policy under which votes bind and the term is written first |
| AwaitReduction.Reduces | src/server.ts:134-143 | behind every run with the awaits apart there is one of whole steps and of such crashes, which has sent every packet sent, and which each server has run ahead of only by handlers whose files are not all written, if handlers of one server do not overlap and no write fails, or the callback checks and the state is written before requests |
| AwaitReduction.StateMachineSafety | src/server.ts:134-161 | the sufficient half: a command applied before its handler's writes, failed writes and a crash at any moment included |
| AwaitReduction.LogMatching | src/server.ts:134-143 | Section 5.3 over those runs for every policy under which votes bind, failed writes and a crash at any moment included; for the others that have it in whole steps, if no write fails and no crash comes in the middle of a write |
| Election.ElectionSafety | src/state/follower.ts:176-213 | the sufficient half in whole steps, under any loss, duplication, reordering, crashes between steps and any replication |
| Election.StepKeepsInv | src/server.ts:113-132 | every event of every server keeps: votes counted were cast, one vote per server and term, memory and disk both remember every vote given |
| Election.QuorumsMeet | src/state/candidate.ts:96-100 | two majorities of floor(n/2)+1 servers of one cluster share a server |
| ElectionRuns.WithoutRecordedGrant | src/state/follower.ts:185-212 | a run of three servers with two leaders in term 1 when the grant is not stored, whatever else is corrected |
| ElectionRuns.WithoutReloadedVote | src/server.ts:202 | the same when the vote is not read back at start |
| ElectionRuns.WithoutTermCheck | src/state/candidate.ts:70-73 | the same in term 2 when grants of other terms count |
| ElectionRuns.WithoutPersistedRequest | src/server.ts:134-143 | a run in which two servers win term 1, the first having forgotten it, when a candidate's own vote is not on disk before its requests leave |
| Matching.LogMatching | src/state/follower.ts:103-141 | Section 5.3: logs agreeing on the term at an index are identical up to it, in every run, given the four vote corrections alone; requests and merge as written included |
| Matching.MergeTraced | src/state/follower.ts:127-141 | whichever merge loop and whichever request, after the consistency check the merged log consists of leaders' prefixes again |
| Matching.StepKeepsInv | src/state/leader.ts:127-145 | every event keeps: every log and every request in flight is a copy of the logs of the leaders of its terms |
| MatchingRuns.LogMatchingIff | src/state/follower.ts:103-141 | Section 5.3, all 512 policies: Log Matching holds of every run of every cluster if and only if recordsGrant, reloadsVote and countsOwnTerm are in and either persistsFirst is, or both sendsFromNextIndex and mergesByPosition are not |
| SoleAuthors.LogMatching | src/state/follower.ts:127-141 | the half without persistsFirst: no two servers ever hold entries of one term |
| SoleAuthors.MergeCuts | src/state/follower.ts:127-141 | the merge loop as written, on entries that end at prevLogIndex, leaves a prefix of the log |
| SoleAuthors.StepKeepsInv | src/state/leader.ts:127-145 | every event keeps: each log entry was appended by its own server in a term it won and in which it voted for nobody else, although own votes may be forgotten |
| CopiedConflict.LogsDisagree | src/state/leader.ts:139-143 | a run of five servers with different entries of term 1 at index 1, when requests are as written, the merge is corrected and nothing is written before requests |
| Completeness.LeaderCompleteness | src/state/leader.ts:105-114 | Section 5.4, Figure 3: an entry of the leader's own term copied by a majority, with all before it, was in the log of every later leader when it was elected (induction over the order of the elections, commit quorum meets vote quorum) |
| Safety.LeadersAreComplete | src/state/leader.ts:105-114 | Leader Completeness after every run of every corrected cluster, for all terms at once |
| Completeness.UpToDateHolds | src/state/candidate.ts:114-127 | what the up-to-date check buys: the candidate holds the committed prefix, or its last term is that of a leader in between |
| Completeness.DecidedAgree | src/state/leader.ts:105-114 | two committed prefixes never contradict each other |
| Safety.RunKeepsInv | src/server.ts:113-132 | the whole invariant holds after every run of the corrected cluster |
| Safety.LeadersHoldCommitted | src/state/leader.ts:105-114 | after every run, all that any server holds committed is a prefix of the log of every leader of the same or a later term |
| Safety.StateMachineSafety | src/server.ts:147-161 | Section 5.4.3: no two servers, and no server before and after a crash, ever apply different commands at one index |
| Safety.NothingTakenBack | src/state/follower.ts:127-150 | no step but a server's own restart lowers its term, commit index or lastApplied, changes a vote within a term, or removes or overwrites an entry up to its commit index |
| Safety.CommitWithinLog | src/state/follower.ts:143-150 | lastApplied <= commitIndex <= lastIndex on every server after every run, heartbeats without entries included |
| Safety.IndexesWithinLog | src/state/leader.ts:97-103 | 0 <= matchIndex < nextIndex <= lastIndex + 1 for every peer of every leader after every run |
| Steps.EventOk | src/server.ts:113-132 | each event of one server keeps the invariant of logs, votes, copies and commitment |
| Steps.AcceptOk | src/state/follower.ts:103-165 | so does accepting a request: what the follower confirmed to any leader it still has |
| Steps.GrantOk | src/state/follower.ts:176-213 | so does granting a vote: the voter's log holds all it had confirmed to earlier leaders |
| Steps.MergeStretch | src/state/follower.ts:127-141 | merging a stretch of the leader's log leaves the old log if it had it all, and else exactly the leader's log up to the end of the stretch |
| Steps.FollowerCommitOk | src/state/follower.ts:143-150 | min(leaderCommit, index of last new entry) never lowers the commit index, stays within the log, and only covers committed entries |
| Steps.MedianDecides | src/state/leader.ts:79-114 | an own-term entry at or below the numeric median of matchIndex is stored by a majority of the servers |
| Steps.ElectedLogIsOlder | src/state/candidate.ts:163-175 | the log a majority elects holds entries of earlier terms only, even if a crash left it ahead of its server's term |
| Steps.CommitScanGreatest | src/state/leader.ts:105-114 | the commit loop ends at the greatest own-term index above the old commit index and not above the median, or changes nothing |
| Necessity.StateMachineSafetyIff | src/server.ts:147-161 | all 512 policies: no two different commands are ever applied at one index, in every run of every cluster, if and only if nothing can be applied at all (line 99 as written) or every other correction is in |
| SafetyRuns.WithoutComparison | src/state/follower.ts:185-187 | a run of four servers that applies two different commands at index 1 when candidates' logs are not compared, whatever else is corrected |
| SafetyRuns.WithoutRecordedGrant | src/state/follower.ts:185-212 | such a run when the grant is not stored |
| SafetyRuns.WithoutTermCheck | src/state/candidate.ts:70-73 | such a run when grants of other terms count |
| SafetyRuns.WithoutReloadedVote | src/server.ts:202 | such a run when the vote is not read back |
| SafetyRuns.WithoutKeptLog | src/log/log.ts:60-62 | such a run when the log is not written |
| LostCopies.WithoutMergeByPosition | src/state/follower.ts:127-141 | such a run with the merge loop as written: a request delivered twice drops entries the leader has counted and commits |
| ForgottenTerm.WithoutPersistedRequests | src/server.ts:134-143 | such a run of three servers when the state is not written before requests |
| Overcounted.AppliesTwoCommands | src/state/leader.ts:127-145 | such a run of three servers when requests are as written: a refusal of the leader's earlier term lowers nextIndex in its new one, and a follower confirms an entry it was never sent |
| Necessity.UnsafeRun | src/state/leader.ts:105-114 | with line 99 corrected, every policy but CORRECTED has such a run |
| Commitless.NothingIsEverCommitted | src/state/leader.ts:97-103 | with line 99 as written every commit index is 0 in every run of every cluster, whatever else is corrected |
| Commitless.AsWrittenNeverApplies | src/server.ts:147-161 | the source as written never applies a command |
| Necessity.AppliesIff | src/state/leader.ts:97-114 | all 512 policies: some run applies a command if and only if line 99 is corrected |
| Probing.RejectionLowers | src/state/leader.ts:101-103 | after every run, a rejection by a follower of the leader's term lowers nextIndex by exactly one and leaves it above matchIndex |
| Probing.CatchesUp | src/state/leader.ts:97-103 | after nextIndex - matchIndex - 1 rejections in a row, or more, one request makes the follower's log begin with the leader's whole log, and the answer raises matchIndex to the leader's last index |
| Confirmed.RunKeeps | src/state/follower.ts:103-165 | after every run each server holds all it confirmed in its term, in memory and after a restart |
| Probing.KnownMatches | src/state/follower.ts:103-106 | a follower of the leader's term holds the leader's entry at matchIndex |
| Durability.TermsRememberedIff | src/server.ts:134-143 | no server is ever in a term below one it has sent, in every run, if and only if the state is written before requests too |
| Durability.LogsOnDiskIff | src/log/log.ts:60-62 | every log is on disk after every step of every run if and only if the log is written and is written before requests too |
| Durability.CandidatesVoteForThemselves | src/state/candidate.ts:178-181 | under every policy a candidate or leader has voted for itself in its current term |
| Logs.EntryIff | src/state/follower.ts:127-141 | one round of either loop, for any log and entry: appended if and only if it is the next one, the log cut at a conflict, and unchanged in every other case |
| Logs.MergeKeepsPlaces | src/state/follower.ts:127-141 | whatever the batch, with either loop, every log entry stays at the place its index says |
| Logs.MergeMeetsFigure2 | src/state/follower.ts:127-141 | Figure 2, for every log and contiguous batch: nothing lost without a conflict, cut and continued with the new entries at the first one |
| Logs.MergeHoldsTheBatch | src/state/follower.ts:127-141 | the prefix stays, each new entry's term is found at its index, and the old log survives if and only if no term conflicts |
| Logs.MergeAgain | src/state/follower.ts:127-141 | a batch, or any earlier part of it, merged again changes nothing |
| Logs.AsWrittenMeetsFigure2Iff | src/state/follower.ts:127-141 | the loop as written does what Figure 2 asks if and only if every stored entry it meets has the new entry's term and the log's last term |
| Logs.AsWrittenLosesEntries | src/state/follower.ts:127-141 | a log and a batch it already holds: the loop as written drops both entries |
| Medians.MedianIsMajorityIndex | src/state/leader.ts:79-87 | for any number of peers the leader and the peers at or above the numeric median are a majority; it is the largest such index if and only if the number is odd or the two middle values are equal |
| Medians.TextSortIsNumericIff | src/state/leader.ts:80 | sorting as text gives the numeric order if and only if no two of the numbers are ordered differently as text |
| Medians.TextMedianOvershoots | src/state/leader.ts:79-87 | with 2 and 10 the text median is 10, an index one of three servers stores besides the leader |
| Rules.StepIff | src/server.ts:113-132 | every policy, cluster, server and event, as a reference definition: a step is the one thing that meets the rules of Figure 2, which say for each field of a server, and for what it sends, when it changes and to what |
| Rules.MessageIff | src/server.ts:113-132 | the part for a received message: term and vote, log and commit index, role and tables, the disk, and the answer |
| Rules.AppendEntriesHandles | src/state/follower.ts:71-165 | a request to a follower: who is accepted, what the log and the commit index become, and the one answer |
| Rules.RequestVoteHandles | src/state/follower.ts:176-213 | a vote request to a follower: who gets the vote, whether it is stored, and the one answer |
| Rules.CandidateHandles | src/state/candidate.ts:56-83 | a candidate: whom it follows, which votes it counts, and when it wins |
| Rules.CandidateFollows | src/state/candidate.ts:56-68 | under every policy a candidate that gets an append-entries request of its own term becomes a follower of the sender, changes nothing else and answers nothing |
| Rules.OfficeIff | src/state/leader.ts:31-52 | a new leader: nextIndex is the last index + 1 and matchIndex 0 for every key, and one request leaves for every other server |
| Rules.BeatsIff | src/state/leader.ts:127-145 | one request to every other server in order: the entry at prevLogIndex and what follows it, or as written the last entry and a slice |
| Rules.UpdatesIff | src/state/leader.ts:97-103 | the tables after a response, other followers' rows untouched |
| Rules.SuccessSetsNext | src/state/leader.ts:97-103 | under every policy a success leaves nextIndex one above matchIndex, and a failure leaves matchIndex alone |
| Rules.LeaderCommitsIff | src/state/leader.ts:79-115 | the commit index after a response is the greatest own-term index above it and not above the middle of the sorted table |
| Rules.StandsIff | src/state/candidate.ts:138-157 | an election: next term, own vote, the requests, and the office at once in a cluster of one |
| Rules.AlwaysFigure2Iff | src/server.ts:113-132 | every step of every server meets the corrected rules if and only if every correction is in: without any one of them, whatever the others, some step does not |
| Nodes.PeersInOrder | src/server.ts:97-101 | the other servers come in the order of the cluster map |
| Histories.EnabledIff | src/server.ts:113-132 | which events a run may contain: timeouts, restarts, client requests and the delivery of any packet ever sent at any moment, heartbeats of leaders, and the next committed entry |
| Histories.OnlyTheActorMoves | src/server.ts:113-132 | over every run an event changes the server it is about, as the rules say, and no other |
| Histories.SentIff | src/server.ts:134-143 | over every run the packets that may be delivered are exactly those that some step has sent |
| Histories.WonIff | src/state/candidate.ts:163-175 | over every run the wins recorded are exactly those of the servers that have led, in the terms in which they did |
| Histories.AppliedIff | src/server.ts:147-161 | over every run the commands recorded as applied are exactly the next entries that servers applied |
| Histories.FollowersNameWinners | src/state/follower.ts:43-64 | over every run, under every policy: the leader a follower names to its clients has won a term no later than its own, and so has the sender of every append-entries request in the term of the request |
| Histories.LeadersAreFollowed | src/state/candidate.ts:56-68 | after every run, under every policy, a leader's request makes a server of an earlier term, or a follower or candidate of its own, a follower of that leader in its term, and delivered once more it is answered |
| Servers.Log.TruncateAt | src/log/log.ts:56-58 | everything from the index on is dropped, nothing when the index is past the end |
| Servers.Server.constructor | src/server.ts:45-63 | a new server is the blank server of Nodes |
| Servers.Server.Start | src/server.ts:192-216 | restart from disk, volatile state reset |
| Servers.Server.SetCurrentTerm | src/server.ts:168-177 | the term is set and the vote cleared, nothing else |
| Servers.Server.SendRpcMessage | src/server.ts:134-143 | one packet is sent, and the state is on disk before responses (before requests only when corrected) |
| Servers.Server.UpdatePersistentState | src/server.ts:248-255 | the three files hold what memory does, the log only when writing it is no no-op |
| Servers.Server.WriteLog | src/log/log.ts:60-62 | the first file write of Awaits |
| Servers.Server.WriteTerm | src/server.ts:248-255 | the second |
| Servers.Server.WriteVote | src/server.ts:248-255 | the third |
| Servers.Server.HandleRpcMessage | src/server.ts:113-132 | the state after any message in any role, and the packets sent, are those of Nodes.Receive |
| Servers.Server.EnterLeader | src/state/leader.ts:31-52 | the tables of a new leader and its first requests |
| Servers.Server.Execute | src/state/leader.ts:54-73 | the entry appended and the requests sent |
| Servers.Server.GetMedianMatchIndex | src/state/leader.ts:79-87 | the median of the table, in numeric order one that the leader and a majority with it store |
| Servers.Server.HandleAppendEntriesRpcResponse | src/state/leader.ts:97-115 | the tables and the commit index after a response |
| Servers.Server.CommitFrom | src/state/leader.ts:105-114 | the downward loop, whose bound is read again after each change, ends at CommitScan |
| Servers.Server.SendAppendRequests | src/state/leader.ts:127-150 | one request to each peer, in order |
| Servers.Server.Timeout | src/state/candidate.ts:138-157 | next term, own vote, a won election at once when alone, one vote request to each peer |
| Servers.Server.SendVoteRequests | src/state/candidate.ts:114-132 | one vote request to each peer, none from an emptied log |
| Servers.Server.TallyVote | src/state/candidate.ts:163-175 | the vote is counted, and with a majority the candidate leads |
| Servers.Server.HandleRequestVoteRpcResponse | src/state/candidate.ts:70-74 | which responses count |
| Servers.Server.HandleRequestVoteRpcRequest | src/state/follower.ts:176-213 | whether the vote is granted, stored and answered |
| Servers.Server.HandleAppendEntriesRpcRequest | src/state/follower.ts:71-165 | both rejections, the merge, the commit index and the answer |
| Servers.Server.MergeEntries | src/state/follower.ts:127-141 | the loop over the entries leaves the log Logs.Merge gives |
| ApplyLoop.ExecutesInOrderIff | src/server.ts:147-161 | as written, over every interleaving, the state machine executes the entries 1, 2, 3, ... each once if and only if no call starts a loop while another waits |
| ApplyLoop.ExecutesTheLog | src/server.ts:151-160 | as written or corrected, over every interleaving of calls, answers and log changes above the commit index, the command executed for an index is the one the log holds there for good |
| Safety.StepsAreLawful | src/server.ts:147-161 | every step of a server of the corrected cluster, its own restart apart, changes log and commit index only in the ways the apply loop's theorems allow |
| ApplyLoop.OneLoopExecutesInOrder | src/server.ts:147-161 | with one loop at a time the commands executed are those of log[1], log[2], ... each once and in order, up to lastApplied or the index in flight, and up to commitIndex when no call is in flight |
| ApplyLoop.IdleHasApplied | src/server.ts:151-160 | as written or corrected, over every interleaving, when no call is in flight everything up to commitIndex is applied |
| ApplyLoop.CallEndsAtCommitIndex | src/server.ts:151-160 | an answered call has applied its entry; it ends exactly when that was the last committed one and goes on with the next otherwise |
| ApplyLoop.AnswersFinish | src/server.ts:147-161 | after every run the answers of the state machine alone, as many as are due, bring every call to its end |
| ApplyLoop.CalledIsApplied | src/server.ts:147-161 | after every run the index of a call is the commit index at once, whoever works on it, and applied once all calls are answered |
| ApplyLoop.AsWrittenExecutesTwice | src/state/follower.ts:144-150 | two calls in a row execute the command of entry 1 twice |
| ApplyLoop.Applier.SetCommitIndexAndExecuteUnapplied | src/server.ts:147-161 | a call up to its first await |
| ApplyLoop.Applier.Resume | src/server.ts:151-160 | a call from its await to the next |
| ApplyLoop.Applier.ExecuteEntry | src/server.ts:155-157 | the command at the index is handed to the state machine |
| Timers.OnlyHigherTermsUnseatIff | src/state/candidate.ts:32-46 | in every run only a message of a higher term moves a leader out of office or to another term, if and only if exit() removes the listener that enter() added |
| Timers.OnlyTheCurrentStateListens | src/state/follower.ts:34-60 | with that correction exactly the current follower or candidate listens, and nobody while the server leads |
| Timers.FiringCorrected | src/election-timer/election-timer.ts:34-93 | a firing then starts two elections from a follower, because a Set is iterated live, one from a candidate and none from a leader |
| Timers.FiringAsWritten | src/election-timer/election-timer.ts:34-93 | as written a firing starts one election for every time the server ever stood, and two more unless it stands now |
| Timers.LeaderMovedIff | src/state/follower.ts:210-212 | as written a leader's own timer moves it to a new term if and only if it is running, as after a delayed reset |
| Timers.EveryoneElseIsTimed | src/state/follower.ts:34-40 | over every run, as written and corrected, every follower and candidate has a listener and a running timer |
| Timers.LeaderTimerIff | src/state/follower.ts:210-212 | over every run of a server that is not alone, a leader's timer runs if and only if a reset delayed since some granted vote has come while it led |
| Timers.MomentEffects | src/state/follower.ts:71-76 | what anything but a firing does to role, term, timer, listeners and delayed resets |
| Timers.FiringAloneAsWritten | src/election-timer/election-timer.ts:34-93 | in a cluster of one a firing as written wins two elections for every time the server ever was a follower and one for every time it stood |
| Timers.FiringAloneCorrected | src/election-timer/election-timer.ts:34-93 | with the listeners removed it wins one, and none if the server leads already |
| Timers.TransitionIff | src/server.ts:236-246 | a transition does nothing exactly when the server is in that state already |
| Timers.DeletesOne | src/election-timer/election-timer.ts:56-65 | off() deletes one listener and no other |
| Timers.TimedServer.Elapse | src/election-timer/election-timer.ts:75-85 | the loop over the listeners is Timers.Fire |
| Timers.TimedServer.BeginElection | src/state/candidate.ts:138-157 | term, early win and timer reset of an election |
| Timers.TimedServer.TransitionToCandidate | src/server.ts:236-246 | exit of the old state, then entry of a candidate |
| Timers.TimedServer.TransitionToFollower | src/server.ts:236-246 | exit of the old state, then entry of a follower, nothing for a follower |
| Requests.EveryRequestIsAnsweredOnce | src/state-machine/observable-state-machine.ts:12-33 | over every run each request is still waiting or was answered, not both, and never answered twice |
| Requests.OwnResultsIff | src/state/leader.ts:54-73 | every resolved request got the result of the entry it appended, in every run, if and only if no two requests passed the same command object |
| Requests.AnsweredIff | src/state-machine/observable-state-machine.ts:12-33 | over every run a request is answered if and only if, after it came, the state machine has answered for an entry with its command object |
| Requests.RepliesAreFaithful | src/state-machine/observable-state-machine.ts:12-33 | over every run each reply carries what the state machine answered for that entry, and requests with one object are answered in the order they came |
| Requests.ObservableStateMachine.OnceExecuted | src/state-machine/observable-state-machine.ts:28-33 | the listener joins those waiting for the object |
| Requests.ObservableStateMachine.NotifyExecuted | src/state-machine/observable-state-machine.ts:19-26 | everyone waiting is called once, in order, and forgotten |
| Storage.FlagIsTruthfulIff | src/storage/storage.ts:45-102 | as written, for every sequence of the caller's sets, writes, awaits, reads and crashes: over every order in which its writes finish, and whether or not they reach the file before a crash, inSync means the file holds the value at every moment if and only if it starts so and no other value is set while a write may be under way |
| Storage.FlagIsTruthfulDespiteFailuresIff | src/storage/storage.ts:80-102 | with writes that may fail, if and only if, besides, no write is ever begun of a value the file does not hold already |
| Storage.CheckedFlagIsTruthful | src/storage/storage.ts:45-102 | a callback that raises the flag only after a successful write of the current value, the only one under way, is never wrong, from any truthful start and whatever is set, written, read, failed or lost in a crash |
| Storage.LostUpdate | src/storage/storage.ts:80-102 | a value set while another is being written is never written, however often write() is called |
| Storage.AWriteSettles | src/storage/storage.ts:80-102 | with nothing else under way a write that succeeds leaves the value in the file and the flag up, checked or not |
| Storage.CrashLeavesIff | src/storage/storage.ts:80-102 | after a crash the file holds what it held or a text whose write was under way, any of them and nothing else |
| Storage.IntegerRoundTripIff | src/storage/storage.ts:122-138 | an integer or NaN reads back as it was written; null does not |
| Storage.IntegersShareFileIff | src/storage/storage.ts:122-138 | no two terms share a file, the empty file is that of null alone, and it reads back as NaN |
| Storage.StringRoundTripIff | src/storage/storage.ts:142-158 | a string reads back as it was written; null does not, it comes back as the empty string |
| Storage.StringsShareFileIff | src/storage/storage.ts:142-158 | two votes share a file if and only if they are equal, or one is null and the other the empty string |
| Storage.DurableValue.ReadFile | src/storage/storage.ts:45-60 | the value is what the file holds and the flag is up |
| Storage.DurableValue.Write | src/storage/storage.ts:80-102 | nothing is begun when the flag is up, otherwise a write of the value as it is now |
| Storage.DurableValue.Written | src/storage/storage.ts:90-99 | the callback's effect on file and flag |
| Storage.DurableValue.SetText | src/storage/storage.ts:114-117 | the value changes and the flag falls |
| Decimals.ParseIntText | src/storage/storage.ts:122-138 | parseInt of an integer's decimal text is the integer |
| Decimals.ParseIntIff | src/storage/storage.ts:122-138 | parseInt ignores what follows the number, and gives NaN exactly for text that does not start with a digit, or with a sign and a digit |
| Registry.EndpointRoundTripIff | src/net/endpoint/helpers.ts:20-33 | a printed endpoint parses back to itself if and only if its host has no ':', and otherwise parsing throws |
| Registry.ParseIff | src/net/endpoint/helpers.ts:20-33 | text parses to an endpoint if and only if it is its host, one ':' and text that parseInt takes for its port |
| Registry.PrintInjective | src/net/endpoint/endpoint.ts:15-21 | two endpoints have the same text only if they are equal |
| Registry.RegistryIsMapIff | src/net/transport/connection-registry/connection-registry.ts:16-82 | for every sequence of save, remove and removeEach the registry agrees at every moment with a map keyed by endpoint if and only if removeEach is never called with an IPv6 host stored |
| Registry.RemoveEachEmpties | src/net/transport/connection-registry/connection-registry.ts:61-74 | with plain hosts removeEach empties the registry and calls back once per connection, in the order saved |
| Registry.RemoveEachThrows | src/net/transport/connection-registry/connection-registry.ts:61-74 | with an IPv6 host stored it throws and leaves that connection |
| Registry.RemoveEachStops | src/net/transport/connection-registry/connection-registry.ts:61-74 | for every registry keyed by endpoints: removeEach calls back and removes the connections in order up to the first key with more than one ':', throws there if there is one, and leaves the rest |
| Registry.KeysInOrderSaved | src/net/transport/connection-registry/connection-registry.ts:54-82 | after every sequence of operations the next one keeps the order of the connections that stay and puts a new one last |
| Registry.CountIsStoredIff | src/net/transport/connection-registry/connection-registry.ts:54-57 | count() is the number stored if and only if no stored connection was ever removed, and never less |
| Registry.ConnectionRegistry.SaveConnection | src/net/transport/connection-registry/connection-registry.ts:76-82 | whether it was saved, and the new state |
| Registry.ConnectionRegistry.RemoveConnection | src/net/transport/connection-registry/connection-registry.ts:54-57 | the new state, the counter unchanged |
| Registry.ConnectionRegistry.RemoveEachConnection | src/net/transport/connection-registry/connection-registry.ts:61-74 | the for..in loop with deletion on the way is Registry.RemoveEach |

## Left out

- ElectionRuns.ElectionSafetyIff: a handler and its three writes are one step there; AwaitRuns.ElectionSafetyIff has them apart.
- Election.ElectionSafety: the same.
- AwaitReduction.LogMatching: for policies under which votes do not bind failed writes and crashes in the middle of a write are left out; AwaitMatching.LogMatchingIff covers all.
- AwaitReduction.Reduces: for policies that send requests before their writes failed writes are left out.
- TornWrites.TornSafety: a cluster of one server is left out; AwaitReduction.StateMachineSafety covers it.
- TornMatching.LogMatching: the same; AwaitReduction.LogMatching covers it.
- AwaitRuns.ElectionSafetyIff: the write of a file is one move, here and in every member with the awaits apart, so no value is set while it is under way; Storage.LostUpdate has that.
- Probing.CatchesUp: a handler and its three writes are one step.
- Servers.Server.SendRpcMessage: the three writes and the send are one call; Awaits has each as a move of its own.
- Storage.IntegerRoundTripIff: integers are unbounded; the decimal text of a number above 2^53 is not modelled, nor is parseInt on text the program does not print (white space, 0x).
- Requests.OwnResultsIff: the listeners' promises and the network in front of execute() are not modelled, nor a leader that loses office with requests waiting.
- Storage.FlagIsTruthfulIff: a write that fails leaves the file as it was, and one that finishes leaves all of it; torn writes are not modelled, nor a read() while a write is under way.
- Storage.FlagIsTruthfulDespiteFailuresIff: the same.
- Liveness, real time and timeouts: no claim that an election ends or an entry is committed in time.
- FlatBuffers encoding (including the vote request that encodes only its term), the RPC service and the TCP transport: messages are values delivered whole or not at all.
- UTF-8: text is a sequence of characters.
- The `noop` state and stop(): a stopped server is one that takes no more steps.
- The heartbeat interval: a heartbeat may be sent at any moment by a leader.
- Callbacks that use the registry while removeEach runs, and forEach, getAll, get and has, which only read.
- The state machine itself, the client API's error answers, logging, configuration files and the command line.
- Membership change and log compaction, which the source does not have.
