# 2t1-Waf: a verified model of its stateful core

This project models the state machines at the heart of a layer-7 web application firewall and proves what
they promise. Each of them stands in for something simpler: a ring of buckets for a log of timestamps, a map
of signed counts for the set of live requests, a channel and a batching writer for a queue, a bounded list for
a set, a table that is swept for one that never forgets. The specification of each machine is that simpler
thing, kept as ghost history, and the theorems say that the two agree over every run.

Code that changes state in place is modelled by classes and loops whose contracts equate the new state with a
function of the old one; the theorems are then proved about that function. Concurrent protocols are step
machines in which every access to shared state that another step depends on is a step of its own, so that a run is an
interleaving; a bump of a counter that is only displayed goes with the step before it, and two loads in a row that
nothing relates are one step. Hash values and
keyed hashes are opaque values or functions; clock readings, DNS answers and write failures are parameters.

| file | what it holds |
|---|---|
| Words, Text, Net | machine-word arithmetic, number and string formats, addresses and subnets |
| Storage | the event pipeline: submitters, channel, batching writer |
| Window, RateLimit, Subnet, Metrics | bucket rings against logs, the limiter, subnet counters, the live chart |
| TopTable | the bounded hit counters of the dashboard |
| Sweep | why sweeping a table can go unnoticed, for any tracker |
| Reputation, Bans | auto-ban windows for one address; the ban table, its file and restarts |
| Connections, Lifecycle | in-flight counts; request lifecycles interleaved |
| Decision, Engine, Verdicts | the decision pipeline and its under-attack levels; what it answers, in one list |
| AutoUam | the controller of the under-attack level |
| Signature, Behavior, Regularity, Trackers | replay, shared User-Agents, per-address behaviour; the trackers a scored request is shown to |
| GoodBot | crawler verification with asynchronous lookups |
| Events | the bounded event log and the stream cursor over it |
| Tokens, Cookies | signed cookies and tokens, proof of work, the Cookie header |

What turned out not to hold, each with an input that shows it:

- the severity of an answer can fall when the level rises (`Engine.SeverityNotMonotone` and
  `Engine.TarpitFallsToBlock`, exactly as in `Engine.SeverityFalls`), and the stored level is not the one to compare by (`Engine.StoredLevelMisleads`, exactly as
  in `Engine.StoredMonotoneExactly`);
- the limiter admits twice its limit in some 52 seconds (`RateLimit.TwiceTheLimit`);
- the door check overshoots the global cap, by as much as the bound allows (`Lifecycle.TotalBoundIsTight`), and
  so does the queue check (`Storage.BoundIsTight`), which also refuses events while channel and buffer have room
  (`Storage.RefusedWithRoom`);
- a forced ban counts as offences never committed (`Reputation.ForcedBansInflate`, exactly as in
  `Reputation.ForcedBanCounts`);
- with a ban window of zero seconds and a threshold above one sweeps change verdicts
  (`Reputation.SweepsInvisibleExactly`);
- a pardon can be forgotten by a restart (`Bans.PardonForgotten`, exactly as in `Bans.PardonOutlivesRestart`);
- an operator's write of the level is lost when it falls between load and store of a turn of the controller that
  stores (`AutoUam.PanicIsLost`, exactly as in `AutoUam.WritesLostExactly`), and the store then need not move the level
  by one (exactly as in `AutoUam.StoreMovesByOne`);
- rows the database turns down are counted as written (`Storage.RejectedRowsCount`);
- the dashboard's table drops entries that are not the least hit (`TopTable.DroppedIsNotLeast`);
- an escalation threshold of zero makes the top level unstable (`AutoUam.TopIsStable`);
- an address may be called a spoofer of a crawler whose domains its answer passes (`GoodBot.SourceTableUnfair`,
  exactly as in `GoodBot.FairExactly`);
- an event that shares its millisecond with the stream's cursor is skipped (`Events.TiesAreSkipped`);
- the payloads signed for tokens and cookies are not all distinct, since a token comes back with any string for its
  challenge (`Tokens.TokenMeetsClearance`, `Tokens.TokenMeetsBic` with `Tokens.MarkerReadsAsTime`), and those of the two kinds of token are formed
  alike (`Tokens.TokensInterchange`).

The comment on `Engine` says that checks stop as soon as the score crosses the block threshold
(crates/waf-core/src/engine.rs:1-4). The code collects all reasons before it looks at the thresholds, and so
does the model. The comment on `RateLimiter` speaks of a 60 second window; the six slots cover between 51 and 60
seconds, depending on where in its slot the request falls. The comment on the top-N tables says that the entry with the
smallest count is evicted (crates/waf-core/src/metrics.rs:12-15); the code takes the smallest of 32 that it comes upon.

Assumptions, stated as preconditions: the clock does not run backwards and does not stand at the value that
means "unset"; what one 32-bit counter holds at a time - the hits of six slots, the records of one second and band, the
requests of one session - is less than 32 bits can count; memory is sequentially
consistent, an operation on one map entry is atomic, and so is the total over the connection table.

## Model

| member | source | states |
|---|---|---|
| Storage.DepthBounded | crates/waf-core/src/storage.rs:44-55 | in every interleaving of n submitters and the writer, queued minus drained never exceeds 16384 + n while the writer lives, although the check and the increment are separate steps |
| Storage.BoundIsTight | crates/waf-core/src/storage.rs:44-55 | some interleaving reaches 16384 + n, so the bound cannot be improved |
| Storage.FirstInFirstOut | crates/waf-core/src/storage.rs:182-251 | while the writer lives, committed, buffered and queued events together are the accepted ones in sending order, submits are accepted or dropped exactly once, and no batch is empty or larger than 512 |
| Storage.CleanCloseCommitsAll | crates/waf-core/src/storage.rs:205-220 | when the channel closes and the writer ends, every accepted event has been committed |
| Storage.FullBatchFlushes | crates/waf-core/src/storage.rs:209-215 | a receipt starts a flush exactly when it fills the batch to 512 |
| Storage.TickCommits | crates/waf-core/src/storage.rs:206-207 | the tick lets whatever is in the buffer be committed, behind what was committed before, and both counters rise by its length |
| Storage.WriterCatchesUp | crates/waf-core/src/storage.rs:195-216 | from wherever it waits, a writer whose flushes succeed comes by itself to where every accepted event is committed and reported |
| Storage.SubmitDelivers | crates/waf-core/src/storage.rs:44-55 | an undisturbed submit puts its event at the end of the channel up to a depth of 16384 and drops it beyond |
| Storage.FailureLosesSilently | crates/waf-core/src/storage.rs:222-251 | when a flush fails, exactly the buffered and queued events are lost, and no counter shows it |
| Storage.RejectedRowsCount | crates/waf-core/src/storage.rs:232-248 | the table holds, in order, the committed events the database took, and the written counter exceeds it by exactly those it did not take |
| Storage.RefusalMeansFull | crates/waf-core/src/storage.rs:45-50 | an event is refused only at a depth above the limit that is there at that moment; with a live writer that leaves more than 16384 events in channel and buffer but for the batch being reported and one event per other submitter |
| Storage.DepthExact | crates/waf-core/src/storage.rs:44-55 | the difference of the two counters is exactly what is buffered, queued, counted but unsent, committed but unreported, lost, and refused by a dead channel |
| Storage.RefusedWithRoom | crates/waf-core/src/storage.rs:44-55 | a refusal with no more than 16384 events in channel and buffer does happen |
| Storage.RefusalAfterFailure | crates/waf-core/src/storage.rs:52-54 | after a failed flush nothing waits any more, and refusals come of what was lost and refused alone |
| Storage.Pipeline.ReadDrained | crates/waf-core/src/storage.rs:46-50 | one atomic step of a submitter in place: the second load and the refusal |
| Storage.Pipeline.SendEvent | crates/waf-core/src/storage.rs:52-54 | the send, and the drop count when the receiver is gone |
| Storage.Pipeline.Receive | crates/waf-core/src/storage.rs:209-215 | one receipt, and the flush when the batch is full |
| Storage.Pipeline.CommitBatch | crates/waf-core/src/storage.rs:222-247 | the loop over the batch commits exactly its events in order; the table gains the rows the database takes, and what it says to the others is not looked at |
| Storage.Pipeline.WriterLoopAfterClose | crates/waf-core/src/storage.rs:195-220 | run to the end after the close, the loop commits the buffer and the channel in order and nothing else |
| Sweep.SweepsAreInvisible | crates/waf-core/src/reputation.rs:167-175 | for any tracker whose dropped entries behave like fresh ones, sweeps inserted anywhere in a run change no verdict |
| Sweep.SelfSweeping | crates/waf-core/src/signature.rs:66-76 | a sound tracker that sweeps itself, on whatever schedule, answers every run of uses as if it never swept |
| Window.Counter.Hit | crates/waf-core/src/ratelimit.rs:24-40 | the ring returns exactly the number of logged hits in the current and the five previous ten-second slots |
| Window.RingTotal | crates/waf-core/src/ratelimit.rs:39-39 | six consecutive slots meet each bucket of the ring exactly once |
| Window.Counter.IdleIsCold | crates/waf-core/src/subnet.rs:106-109 | empty buckets mean that nothing ever logged can still count |
| Window.SixtyIsExact | crates/waf-core/src/ratelimit.rs:122-129 | sixty seconds is the shortest sweep age at which every dropped counter has gone cold |
| Window.CounterTable.Bump | crates/waf-core/src/ratelimit.rs:109-119 | the count returned is a function of every hit ever made on the key, whatever was swept in between |
| Window.CounterTable.Gc | crates/waf-core/src/ratelimit.rs:122-129 | the sweep keeps exactly the younger counters and keeps the table faithful to the log |
| Window.CounterTable.GcIdle | crates/waf-core/src/subnet.rs:100-109 | so does the subnet tracker's stricter sweep |
| RateLimit.AtMostLimitPerWindow | crates/waf-core/src/ratelimit.rs:83-119 | over any run, with the scale changing from request to request, each key admits in any six consecutive slots at most the limit under which it made its last admission there |
| RateLimit.AtMostLimitPerInterval | crates/waf-core/src/ratelimit.rs:83-119 | at most that limit in any 51 seconds and two such limits in any 60 |
| RateLimit.AtOneScale | crates/waf-core/src/ratelimit.rs:83-119 | at a scale that stands still: at most the limit in any 51 seconds and at most twice the limit in any 60 |
| RateLimit.TwiceTheLimit | crates/waf-core/src/ratelimit.rs:83-119 | at 52 seconds, on every path and at one scale throughout, some run admits twice the binding limit under every key it concerns, so 51 is the longest such interval |
| RateLimit.BindingIsLeast | crates/waf-core/src/ratelimit.rs:88-105 | the binding limit of a path is the least of the limits of the keys a request for it concerns, and one of them |
| RateLimit.WellBehavedNeverLimited | crates/waf-core/src/ratelimit.rs:83-119 | a client that on none of its keys has attempted more in six slots than the limit in force at a request is not refused at that request |
| RateLimit.LimitMonotone | crates/waf-core/src/ratelimit.rs:132-141 | up to full scale a tighter scale never raises a limit |
| RateLimit.WithinExactly | crates/waf-core/src/ratelimit.rs:132-141 | a count is within the limit in force exactly when, the burst taken off, it is at most the share of the configured rate that the scale leaves, one percent at the least, and fits 32 bits |
| RateLimit.FullLimit | crates/waf-core/src/ratelimit.rs:77-79 | at full scale the limit is rate plus burst |
| RateLimit.AtMostConfigured | crates/waf-core/src/ratelimit.rs:83-119 | at a scale that stands still each key admits in any 51 seconds at most that share and the burst, and in any 60 at most twice that |
| RateLimit.WithinConfiguredPasses | crates/waf-core/src/ratelimit.rs:83-119 | a client that keeps to its share of the configured rates and bursts in every six slots is not refused |
| RateLimit.CheckExactly | crates/waf-core/src/ratelimit.rs:83-119 | one check, hit for hit: what is counted under route and client, and who refuses |
| RateLimit.RateLimiter.CheckScaled | crates/waf-core/src/ratelimit.rs:83-119 | the route and global checks in place, equal to the check as a function of all hits ever made |
| Subnet.CountsTheSubnet | crates/waf-core/src/subnet.rs:56-66 | the counter of an address counts exactly the requests of its whole /24 or /64 |
| Subnet.ReasonsInRequests | crates/waf-core/src/subnet.rs:56-80 | each reason with its weight is given exactly when more requests of the subnet were made, or are in flight, than the cap allows, and a cap of zero allows any number |
| Subnet.SubnetTracker.Observe | crates/waf-core/src/subnet.rs:56-111 | rate and concurrency reasons depend on all hits ever made and on who is in flight, not on what the sweep before dropped |
| Net.SubnetKeyPartition | crates/waf-core/src/subnet.rs:118-132 | two addresses share a key exactly when they share a subnet and a family |
| Metrics.Ring.Record | crates/waf-core/src/metrics.rs:69-91 | the sixty buckets hold, second by second and band by band, exactly the records of the sixty seconds up to the head |
| Metrics.Metrics.Record | crates/waf-core/src/metrics.rs:57-92 | the totals per action are those of the log, with a tarpit counted apart but charted as a block, and each top-N table takes one observation |
| TopTable.Bump | crates/waf-core/src/metrics.rs:115-134 | the loop over the entries scanned, the removal and the count, equal to the observation as a function |
| TopTable.ObservedIsIn | crates/waf-core/src/metrics.rs:115-134 | the observed key is in the table afterwards, full or not, with one hit more, and only an entry making room for it is gone |
| TopTable.Bounded | crates/waf-core/src/metrics.rs:115-134 | over any run a table has at most 4096 keys, and none is credited with more hits than it had |
| TopTable.ExactExactly | crates/waf-core/src/metrics.rs:115-134 | a table holds every key with every hit exactly as long as no more than 4096 keys have been seen |
| TopTable.DroppedIsLeastScanned | crates/waf-core/src/metrics.rs:123-131 | what is dropped has the least count of the 32 entries scanned and is the first of those |
| TopTable.DroppedIsNotLeast | crates/waf-core/src/metrics.rs:123-131 | but not always the least of all |
| Metrics.ShowsNext | crates/waf-core/src/metrics.rs:82-91 | one record raises its own band of its own second by one and no other |
| Metrics.ChartedAs | crates/waf-core/src/metrics.rs:82-91 | which band each decision raises, a tarpit that of the blocked ones |
| Metrics.RecordedUnderEach | crates/waf-core/src/metrics.rs:64-67 | a decision is counted once under its own address, path, country and rule, and under no country or rule if it has none |
| Reputation.EnoughOffencesBan | crates/waf-core/src/reputation.rs:117-139 | from any state, 2T - 1 offences within one window's length, or 2T - 2 if the open window has a hit, leave the address banned at one of them, with forced bans and sweeps anywhere between |
| Reputation.FewerOffencesDoNot | crates/waf-core/src/reputation.rs:117-139 | one offence fewer is not enough in either case |
| Reputation.OpenWindowHasHit | crates/waf-core/src/reputation.rs:117-175 | throughout any run without an unban, an open window has a hit |
| Reputation.OffenceBansWhen | crates/waf-core/src/reputation.rs:125-131 | an offence bans exactly when no ban is on and it is the T-th hit of a window at most W seconds old |
| Reputation.OffenceBansFor | crates/waf-core/src/reputation.rs:130-131 | such a ban lasts for exactly the configured time, and an offence that does not ban leaves the ban as it is |
| Reputation.ForceBansFor | crates/waf-core/src/reputation.rs:149-152 | a forced ban lasts for the time asked for, or as long as the ban already on |
| Reputation.PardonEnds | crates/waf-core/src/reputation.rs:158-164 | a pardon ends the ban and clears the hits, and the window stays open |
| Reputation.SweepDrops | crates/waf-core/src/reputation.rs:167-175 | a sweep drops exactly the entries without a ban whose window began two windows ago or longer |
| Reputation.BansAreEarned | crates/waf-core/src/reputation.rs:117-139 | with no forced ban since the count of hits last started afresh, an offence bans only after T offences in the last W seconds |
| Reputation.ForcedBanCounts | crates/waf-core/src/reputation.rs:142-156 | once a forced ban has run out, the next offence bans exactly when the window open before it still is, or one offence is enough anyway |
| Reputation.ForcedBansInflate | crates/waf-core/src/reputation.rs:142-156 | with the default settings one offence can ban again after a forced ban, on two offences in all |
| Reputation.SweepsAreInvisible | crates/waf-core/src/reputation.rs:117-175 | with a window of at least one second, or a threshold of at most one, sweeps change neither which offence bans nor who is banned when |
| Reputation.ZeroWindowSweepsShow | crates/waf-core/src/reputation.rs:167-175 | with a window of zero seconds and any threshold above one some run shows its sweep |
| Reputation.SweepsInvisibleExactly | crates/waf-core/src/reputation.rs:117-175 | sweeps change no verdict of any run exactly when the window is at least one second or the threshold at most one |
| Bans.BanHolds | crates/waf-core/src/reputation.rs:63-175 | a ban until u holds until u through offences and bans of anyone, sweeps, writes that succeed or fail and restarts, unless the address is pardoned or on the allow list |
| Bans.BanIsHeld | crates/waf-core/src/reputation.rs:130-156 | an offence that bans and a forced ban put the ban on, in memory and, if the write succeeds, in the file |
| Bans.BanEnds | crates/waf-core/src/reputation.rs:63-175 | over any run without a new charge an unlisted address is unknown again from the end of its ban on, across sweeps, writes, pardons and restarts |
| Bans.BanLastsExactly | crates/waf-core/src/reputation.rs:117-135 | an offence that bans has its address denied until exactly the configured time has passed |
| Bans.ListsDecide | crates/waf-core/src/reputation.rs:100-114 | the allow list wins over the deny list, and that over the absence of a ban |
| Bans.ReloadFaithful | crates/waf-core/src/reputation.rs:63-98 | a file written and read back denies exactly the same addresses for exactly as long |
| Bans.FileExactly | crates/waf-core/src/reputation.rs:63-98 | a file holds exactly the bans with time left when it is written, and exactly those with time left are read back, each with its hits in a window of its own; a failed write changes nothing |
| Bans.PardonOutlivesRestart | crates/waf-core/src/reputation.rs:63-78 | whatever but a new charge happens between pardon and restart, the pardon survives exactly when the file did not list the address with time left or is rewritten before the restart |
| Bans.PardonForgotten | crates/waf-core/src/reputation.rs:158-164 | a ban, a pardon and a restart in three seconds leave the address banned |
| Bans.Reputations.RecordOffence | crates/waf-core/src/reputation.rs:117-139 | the offence in place, with the allow list, the window reset, the ban and the write |
| Bans.Reputations.ForceBan | crates/waf-core/src/reputation.rs:142-156 | the forced ban in place: it extends, never shortens |
| Bans.Reputations.BindPersistFile | crates/waf-core/src/reputation.rs:63-78 | the reload loop enters exactly the bans with time left |
| Bans.Reputations.Standing | crates/waf-core/src/reputation.rs:100-114 | allow list, deny list, live ban, in that order |
| Connections.SumRemove | crates/waf-core/src/connections.rs:46-48 | the total does not depend on the order of the visit |
| Connections.DecCounts | crates/waf-core/src/connections.rs:26-33 | a holder that leaves finds a positive count, so the repair branch is not taken, and the counts remain those of the holders |
| Connections.SweepCounts | crates/waf-core/src/connections.rs:40-43 | sweeping idle entries changes no count |
| Connections.SweepLeaves | crates/waf-core/src/connections.rs:40-43 | a sweep leaves exactly the keys with a holder |
| Connections.InFlight.Total | crates/waf-core/src/connections.rs:46-48 | the loop computes the sum of all counts |
| Lifecycle.CountsAreExact | crates/waf-proxy/src/proxy.rs:44-63 | in every interleaving each per-address and per-subnet count is the number of live requests that hold it |
| Lifecycle.TotalBounded | crates/waf-core/src/engine.rs:130-134 | with at most w requests between the door check and the increment, the total never exceeds cap + w - 1 |
| Lifecycle.TotalBoundIsTight | crates/waf-core/src/engine.rs:130-134 | some interleaving reaches that |
| Lifecycle.DoorCountsLive | crates/waf-core/src/engine.rs:130-134 | the door is shut exactly when there is a cap and that many requests are between their two counts |
| Lifecycle.ReleaseUndoes | crates/waf-core/src/connections.rs:15-33 | a release undoes its own increment exactly when the count was not negative before |
| Lifecycle.WafProxy.RequestFilter | crates/waf-proxy/src/proxy.rs:44-63 | turned away untracked, or counted under address and subnet and remembered |
| Lifecycle.WafProxy.Logging | crates/waf-proxy/src/proxy.rs:159-163 | what was remembered is released, once |
| Decision.AddAll | crates/waf-core/src/decision.rs:68-71 | however the reasons are added, the score is their sum cut off at 32 bits |
| Engine.HigherLevelNeverAllowsMore | crates/waf-core/src/engine.rs:157-426 | from the same state, a request not let through at one effective level is not let through at a higher one, past connection cap, rate limits, forced challenge and both thresholds |
| Engine.ForcedChallenges | crates/waf-core/src/engine.rs:270-282 | at Medium and above a request is challenged exactly when nothing earlier decides it and it carries no clearance; its score is not looked at and no tracker sees it |
| Engine.SeverityNotMonotone | crates/waf-core/src/engine.rs:274-420 | a request blocked on its score at Low is only challenged at Medium |
| Engine.SeverityFalls | crates/waf-core/src/engine.rs:157-426 | as the level rises the answer gets milder exactly when the request is blocked on its score below and, above, either still gets as far and is challenged by force, or is refused by a tighter cap or limit while its score is one to be tarpitted |
| Engine.TarpitFallsToBlock | crates/waf-core/src/engine.rs:229-240 | the latter happens: a request tarpitted at Low is refused with 429 at High |
| Engine.HardLimitsExact | crates/waf-core/src/engine.rs:467-517 | a request is turned down exactly when it breaks a limit, by one reason of score 100, and the status says which limit |
| Engine.HardLimitsMonotone | crates/waf-core/src/engine.rs:467-517 | raising limits or trimming a request turns down nothing that was let through |
| Engine.StoredLevelMisleads | crates/waf-core/src/engine.rs:137-155 | with the older flag set, a request challenged at stored level Off is let through at stored level Low |
| Engine.StoredOrder | crates/waf-core/src/engine.rs:137-142 | stored levels order the levels in force, except Off against Low under the older flag |
| Engine.StoredMonotoneExactly | crates/waf-core/src/engine.rs:137-155 | raising the stored level never lets more through, for all requests and states, exactly for every pair of levels but that one |
| Engine.LegacyScaleUnused | crates/waf-core/src/engine.rs:251-255 | the separate rate scale of the older flag is never in force |
| Engine.EvaluateCharges | crates/waf-core/src/engine.rs:218-225 | the ban table changes only by a forced ban at a trap and an offence at a block on the score, and such a request is blocked or tarpitted |
| Engine.BanIsLasting | crates/waf-core/src/engine.rs:167-225 | after a trap or a banning offence every request of the address is refused with 403 for the length of the ban, whatever requests, settings, sweeps, writes, other pardons and restarts come between, and whatever changes outside the ban table |
| Engine.BanIsExact | crates/waf-core/src/reputation.rs:115-135 | and no longer: over the same runs, with nobody else charging the address, it is turned away as banned exactly until the time of the ban is up |
| Verdicts.OutcomeIsAnswer | crates/waf-core/src/engine.rs:157-426 | the staged pipeline answers every request in every state under every setting as one flat list does, with every rule, status, reason and number of every level in its place |
| Verdicts.ScoreIsPoints | crates/waf-core/src/engine.rs:284-387 | the score is the sum of the points of the sources that fire, each counted once under its switch with its weight, and nothing else |
| Verdicts.ReasonsExactly | crates/waf-core/src/engine.rs:284-387 | the reasons given are those of the sources that fire, each as often as its source gives it |
| Verdicts.LeadIsFirst | crates/waf-core/src/engine.rs:284-402 | the reason a block names is that of the first source that fires, a spoofed crawler before all else |
| Verdicts.AttackIsBlocked | crates/waf-core/src/engine.rs:367-421 | a request that is scored and carries an injection, script, command, traversal or inclusion that is looked for is blocked or tarpitted once that pattern alone reaches the threshold, and is held against its address |
| Verdicts.TracesExactly | crates/waf-core/src/engine.rs:157-426 | a lookup begins exactly when a crawler is claimed and nothing is known, the limiter counts exactly what gets so far, the trackers see exactly what is scored, and the connection counts are left alone |
| Verdicts.ShownToTrackers | crates/waf-core/src/engine.rs:312-354 | each tracker that is switched on is shown the address and its own part of the request once, and one that is switched off nothing |
| Engine.Engine.Evaluate | crates/waf-core/src/engine.rs:157-426 | the whole pipeline in place over the running ban table, limiter, connection counts, crawler cache and trackers: answer and new state are those of the pipeline as a function |
| Engine.Engine.Judge | crates/waf-core/src/engine.rs:284-426 | the trackers asked each in its turn, all reasons collected and added up, the thresholds applied, the offence recorded |
| Trackers.Panel.ShowBehavior | crates/waf-core/src/engine.rs:312-317 | the behaviour tracker sees the request once if it is switched on |
| Trackers.Panel.ShowFloods | crates/waf-core/src/engine.rs:335-354 | the flood trackers see it once each if they are switched on, and the others do not |
| AutoUam.LevelInRange | crates/waf-proxy/src/admin.rs:130-163 | the level stays in 0..4 under any interleaving of the loop's loads and stores with the operator's writes, and what the loop has in hand does too |
| AutoUam.StoreMovesByOne | crates/waf-proxy/src/admin.rs:145-160 | a store moves the level by exactly one exactly when the operator's last write since the load, if any, wrote the level loaded or the one beyond the level stored |
| AutoUam.WritesLostExactly | crates/waf-proxy/src/admin.rs:145-160 | a turn leaves the level one step from the one it loaded if it stores, losing every write since the load, and at the operator's last write since the load if it does not |
| AutoUam.WriteBetweenIsLost | crates/waf-proxy/src/admin.rs:145-160 | whatever is written between load and store of a turn that stores is lost; written before the load, it is the level the turn goes by |
| AutoUam.PanicIsLost | crates/waf-proxy/src/admin.rs:145-160 | a panic write of 4 ends at 1 when it falls between load and store of a turn down from 2, at 3 when it falls before the load |
| AutoUam.TurnsAreSteps | crates/waf-proxy/src/admin.rs:130-163 | turns taken step by step with no write in between come to the turns taken whole |
| AutoUam.RateInBlocks | crates/waf-proxy/src/admin.rs:135-137 | the rate reaches k exactly when five times k requests were blocked since the previous turn |
| AutoUam.TurnInBlocks | crates/waf-proxy/src/admin.rs:130-160 | one turn in blocked requests: when the level goes up, when down, when it stays, and from where the next turn counts |
| AutoUam.CountFollows | crates/waf-proxy/src/admin.rs:131-138 | every turn that begins, switched off or cooling down included, leaves the count at what it saw |
| AutoUam.FewChanges | crates/waf-proxy/src/admin.rs:141-160 | at most 1 + T / 30 automatic changes in any T seconds, wherever the operator's writes fall |
| AutoUam.DrivenHome | crates/waf-proxy/src/admin.rs:130-163 | a rate sustained at or above the threshold reaches level 4, one at or below a quarter of it level 0, within four cooldowns and four turns, and stays |
| AutoUam.DrivenByBlocks | crates/waf-proxy/src/admin.rs:130-163 | the same in blocked requests: five times the threshold from turn to turn, or fewer than five times what is just above a quarter of it |
| AutoUam.SteadyInBetween | crates/waf-proxy/src/admin.rs:147-154 | in between the level stays, for as long as that lasts |
| AutoUam.OperatorSets | crates/waf-proxy/src/admin.rs:493-502 | the operator sets any level up to the top, and nothing else with it |
| AutoUam.TopIsStable | crates/waf-proxy/src/admin.rs:147-154 | the top level is stable under every escalating rate exactly when the threshold is at least 1 |
| AutoUam.AutoUamService.Turn | crates/waf-proxy/src/admin.rs:130-163 | one undisturbed turn of the loop in place, from its four accesses |
| AutoUam.AutoUamService.ReadThreshold | crates/waf-proxy/src/admin.rs:146-154 | the access after which the loop decides what to store |
| AutoUam.AutoUamService.WriteLevel | crates/waf-proxy/src/admin.rs:156-160 | the store, of what was decided on the level loaded before |
| Signature.ReplaySweepsAreInvisible | crates/waf-core/src/signature.rs:66-76 | sweeps of the replay table change no verdict |
| Signature.ReplayRunsUnswept | crates/waf-core/src/signature.rs:42-76 | over any run the running tracker, sweeping itself, reports just what one that never forgets would |
| Signature.ReplayIsEarned | crates/waf-core/src/signature.rs:42-64 | a replay is reported only when the last 25 requests of the address were the same and came within 30 seconds |
| Signature.ReplayIsCaught | crates/waf-core/src/signature.rs:42-64 | of 48 identical requests in a row within 30 seconds at least one is reported |
| Signature.FortySevenUnreported | crates/waf-core/src/signature.rs:42-64 | forty-seven can go unreported |
| Signature.ReplayInNumbers | crates/waf-core/src/signature.rs:42-76 | what a report is worth, when a sweep comes and which entries it drops |
| Signature.ReplayStaysBrief | crates/waf-core/src/signature.rs:66-76 | no entry is kept for 90 seconds after its row began |
| Signature.RequestReplay.Observe | crates/waf-core/src/signature.rs:42-76 | the tracker in place, sweep included, is a step of the sweeping machine |
| Signature.UaSweepsAreInvisible | crates/waf-core/src/signature.rs:117-127 | sweeps of the User-Agent table change no verdict |
| Signature.UaRunsUnswept | crates/waf-core/src/signature.rs:93-127 | so does the tracker of shared User-Agents |
| Signature.CapIsInvisible | crates/waf-core/src/signature.rs:93-115 | keeping at most 256 addresses gives the verdicts of an unbounded set |
| Signature.UaIsEarned | crates/waf-core/src/signature.rs:93-115 | a User-Agent is reported only when at least eight addresses have shown it in the last 60 seconds |
| Signature.UaIsCaught | crates/waf-core/src/signature.rs:93-115 | of visits from fifteen addresses within 60 seconds at least one is reported, whatever the bucket held before |
| Signature.FourteenUnreported | crates/waf-core/src/signature.rs:93-115 | fourteen addresses that straddle two buckets go unreported |
| Signature.UaInNumbers | crates/waf-core/src/signature.rs:93-127 | what a report is worth, when a sweep comes and which buckets it drops; an empty User-Agent is not looked at |
| Signature.UaStaysBrief | crates/waf-core/src/signature.rs:117-127 | no bucket is kept for three minutes after it was opened |
| Signature.BucketFull | crates/waf-core/src/signature.rs:105-105 | a bucket keeps all its addresses up to 256 |
| Signature.DistributedUa.Observe | crates/waf-core/src/signature.rs:93-127 | the tracker in place, sweep included, is a step of the sweeping machine |
| Behavior.SweepsAreInvisible | crates/waf-core/src/behavior.rs:154-159 | sweeps of the behaviour table change no report |
| Behavior.RunsUnswept | crates/waf-core/src/behavior.rs:51-159 | and the behaviour tracker, reason for reason |
| Behavior.BoundedMemoryIsInvisible | crates/waf-core/src/behavior.rs:65-149 | with 32 paths, 4 User-Agents and 16 intervals remembered, all four signals are those of the whole session |
| Behavior.IntervalsAreGaps | crates/waf-core/src/behavior.rs:72-76 | the queue of intervals holds the last sixteen gaps of the session |
| Regularity.RegularExactly | crates/waf-core/src/behavior.rs:111-127 | the regularity test, multiplied out, is the one on mean, variance and count |
| Regularity.CheckRegular | crates/waf-core/src/behavior.rs:111-127 | the loop over the intervals decides it |
| Behavior.RememberedMirrors | crates/waf-core/src/behavior.rs:80-84 | a list that forgets its oldest member when full has the size min(cap, distinct members shown) |
| Behavior.MethodsAddUp | crates/waf-core/src/behavior.rs:86-87 | the method counters add up to the request count until that reaches its 32-bit limit |
| Behavior.ReasonsInSession | crates/waf-core/src/behavior.rs:99-149 | which reasons a request is given, with their weights, in the paths, gaps, methods and User-Agents of its session |
| Behavior.SessionsExactly | crates/waf-core/src/behavior.rs:65-68 | a session ends with a gap of more than 60 seconds and with nothing else |
| Behavior.SessionDated | crates/waf-core/src/behavior.rs:65-77 | the first and the latest second on record are those of the session |
| Behavior.MemoryInNumbers | crates/waf-core/src/behavior.rs:70-97 | of a session exactly min(32, paths), min(4, User-Agents) and min(16, gaps) are remembered |
| Behavior.SweepsInNumbers | crates/waf-core/src/behavior.rs:55-62 | a sweep comes when more than 30 seconds have passed since the last, and drops exactly the addresses quiet for more than 120 |
| Behavior.StaysBrief | crates/waf-core/src/behavior.rs:154-159 | so no address is kept that has been quiet for more than 150 seconds |
| Behavior.BehaviorTracker.Observe | crates/waf-core/src/behavior.rs:51-152 | the tracker in place, field by field, is a step of the sweeping machine |
| GoodBot.VerifyBlocking | crates/waf-core/src/goodbot.rs:190-208 | a lookup passes exactly when the name lies in one of the domains and maps back to the address |
| GoodBot.PassesExactly | crates/waf-core/src/goodbot.rs:190-208 | in raw text: both queries are answered, the name ends in one of the domains whatever its case, and the address is among those of the name |
| GoodBot.ClaimExactly | crates/waf-core/src/goodbot.rs:95-101 | a request claims to be the first crawler of the table whose token its User-Agent contains whatever its case, and none exactly when it contains no token |
| GoodBot.AnswerSettles | crates/waf-core/src/goodbot.rs:155-184 | an answer settles its address for an hour if it passes and for five minutes if not, and no other address |
| GoodBot.PendingLasts | crates/waf-core/src/goodbot.rs:111-123 | without an answer the next lookup starts with the first claim after 30 seconds |
| GoodBot.SettledStays | crates/waf-core/src/goodbot.rs:95-187 | over any run in which no lookup of it is under way a settled address stays so until its time is up |
| GoodBot.VerdictsAreEarned | crates/waf-core/src/goodbot.rs:95-187 | however requests and completions interleave, an address taken for crawler n passed a lookup against n's domains less than an hour ago, and one taken for a spoofer failed one less than five minutes ago |
| GoodBot.LookupsSpacedOut | crates/waf-core/src/goodbot.rs:102-123 | lookups of one address begin at least 30 seconds apart, whatever User-Agents it sends |
| GoodBot.SpoofedUnasked | crates/waf-core/src/goodbot.rs:103-111 | a failure as one crawler is held against the address when it claims to be another, which nothing was looked up against |
| GoodBot.FairExactly | crates/waf-core/src/goodbot.rs:95-187 | over all runs, an address is called a spoofer of b only if its latest answer does not pass as b, exactly when every answer that passes for one crawler of the table passes for all |
| GoodBot.SourceTableUnfair | crates/waf-core/src/goodbot.rs:35-55 | a table that begins as the source's does is not such |
| GoodBot.GoodBotVerifier.Classify | crates/waf-core/src/goodbot.rs:95-123 | the cache in place: verdict, pending entry, and whether a lookup begins |
| Events.StreamIsFaithful | crates/waf-proxy/src/admin.rs:617-623 | the batches of a stream are a subsequence of the record, nothing twice, and of the events the cursor has passed the unsent ones are exactly those evicted before the poll that would have returned them and those that tie with the last event of an earlier batch |
| Events.TiesAreSkipped | crates/waf-proxy/src/admin.rs:622-623 | a tied event is skipped though it was in the log all along |
| Events.NewerIsSlice | crates/waf-core/src/events.rs:101-104 | in a log ordered by time the filtered, limited answer is one contiguous stretch |
| Events.PollSends | crates/waf-proxy/src/admin.rs:617-623 | a poll sends the oldest of the newer events still in the log, all of them or 200, and leaves nothing newer behind if there were no more |
| Events.EventLog.Add | crates/waf-core/src/events.rs:89-91 | the log is the last cap records, or all of them when cap is zero |
| Events.EventLog.Since | crates/waf-core/src/events.rs:101-104 | the loop returns the newer events, oldest first, up to the limit |
| Events.EventLog.Recent | crates/waf-core/src/events.rs:95-98 | the last n events, newest first |
| Events.ReversedAt | crates/waf-core/src/events.rs:95-98 | which puts the k-th from the end k-th |
| Events.KeepsLatest | crates/waf-core/src/events.rs:89-91 | the log is the latest cap events, or all with a capacity of zero |
| Events.Stream.Tick | crates/waf-proxy/src/admin.rs:619-623 | one turn returns one stretch of the record and moves the cursor to its last event |
| Tokens.BicRoundTrip | crates/waf-core/src/bic.rs:77-102 | a cookie minted for ip at t0 is accepted from ip' at t exactly when t < t0 + 1800 and the two share a /24 or /64 |
| Tokens.BicAcceptance | crates/waf-core/src/bic.rs:89-102 | of all strings exactly those are accepted that carry the keyed hash of an unexpired time and the client's own subnet |
| Tokens.MarkerPartition | crates/waf-core/src/bic.rs:202-213 | the marker separates addresses exactly as the subnet does, and as the subnet tracker's key does |
| Tokens.ClearanceRoundTrip | crates/waf-core/src/challenge.rs:87-108 | a clearance is accepted exactly until its time is up |
| Tokens.ClearancePayloadInjective | crates/waf-core/src/challenge.rs:87-95 | a clearance's signature vouches for its time and no other |
| Tokens.ClearanceIsNoBic | crates/waf-core/src/bic.rs:89-93 | a clearance cookie never passes for an integrity cookie |
| Tokens.BicIsNoClearance | crates/waf-core/src/challenge.rs:97-108 | nor the other way round |
| Tokens.BicPayloadInjective | crates/waf-core/src/bic.rs:80-80 | two signed integrity payloads are equal only for the same time and subnet |
| Tokens.TokenPayloadInjective | crates/waf-core/src/challenge.rs:113-118 | a token's signature vouches for its challenge and time and no others, whatever strings clients send as challenges |
| Tokens.TokenMeetsClearance | crates/waf-core/src/challenge.rs:89-118 | a token's payload is that of a clearance exactly when its challenge is clr and the times agree |
| Tokens.TokenMeetsBic | crates/waf-core/src/bic.rs:80-112 | a token's payload is that of an integrity cookie exactly when its challenge is the cookie's head and its time prints as the subnet marker |
| Tokens.MarkerReadsAsTime | crates/waf-core/src/bic.rs:202-213 | which the marker is for some time exactly when none of its hexadecimal digits is a letter |
| Tokens.SomeMarkerReadsAsTime | crates/waf-core/src/bic.rs:202-213 | as is the marker of 1.2.3.0/24 |
| Tokens.CookiesSeparate | crates/waf-core/src/bic.rs:80-80 | the two cookies never sign the same payload |
| Tokens.IssuedMeetsNoCookie | crates/waf-core/src/challenge.rs:62-70 | no challenge the source hands out meets either cookie |
| Tokens.ClearanceReadsAsToken | crates/waf-core/src/challenge.rs:73-83 | put forward as a token for the challenge clr, a clearance is accepted with a solution for as long as it lasts |
| Tokens.BrowserRoundTrip | crates/waf-core/src/bic.rs:46-72 | a browser-check token is accepted with its proof for 60 seconds, inclusive, and turned down with the right error otherwise |
| Tokens.BrowserAcceptance | crates/waf-core/src/bic.rs:55-72 | and of all browser tokens exactly those in time with a genuine signature whose proof reads as the first eight bytes of the digest |
| Tokens.TokensInterchange | crates/waf-core/src/bic.rs:107-112 | browser and challenge tokens are signed alike: each passes the other's check of time and signature |
| Tokens.TokenRoundTrip | crates/waf-core/src/challenge.rs:62-83 | an issued token is accepted with a solution for 120 seconds, inclusive, and turned down with the right error otherwise |
| Tokens.TokenAcceptance | crates/waf-core/src/challenge.rs:73-83 | of all tokens exactly those in time with a genuine signature and a solution are accepted; the time is looked at before the signature |
| Tokens.VerifyPow | crates/waf-core/src/challenge.rs:229-244 | the byte-and-nibble loop accepts exactly the digests whose hex string starts with d zeroes |
| Tokens.WorkInNibbles | crates/waf-core/src/challenge.rs:229-244 | the work is done exactly when the first d half-bytes of the digest are zero |
| Text.CtEq | crates/waf-core/src/challenge.rs:246-251 | the accumulating comparison is equality |
| Text.ParseDecimal | crates/waf-core/src/bic.rs:94-94 | a printed 64-bit number is read back |
| Text.ParsedExactly | crates/waf-core/src/bic.rs:94-94 | read as n is exactly the print of n, if n fits 64 bits, after any zeroes and at most one plus sign |
| Text.HexReadsBack | crates/waf-core/src/bic.rs:64-68 | a printed digest is lower-case hexadecimal and reads back as its bytes |
| Text.HexUnique | crates/waf-core/src/bic.rs:64-68 | and no other string does |
| Cookies.RoundTrip | crates/waf-core/src/request.rs:50-60 | printing well-formed pairs and parsing the header yields their dictionary |
| Cookies.LastValueWins | crates/waf-core/src/request.rs:49-60 | the dictionary has for each name the value that comes last |
| Cookies.OnlyListedNames | crates/waf-core/src/request.rs:50-60 | and no other names |
| Cookies.QuotesRemoved | crates/waf-core/src/request.rs:56-56 | any number of quotes on either side of a text that has none at its ends go, and nothing of the text does |
| Cookies.QuotesAndCore | crates/waf-core/src/request.rs:56-56 | every value is such a text between such quotes |
| Cookies.ParseCookieHeader | crates/waf-core/src/request.rs:50-60 | the loop over the parts builds the same map as the parts entered one by one |
| Cookies.EnteredExactly | crates/waf-core/src/request.rs:52-57 | a part enters what stands before its first equals sign as the name and the rest as the value, without the blanks around them and the quotes |
| Cookies.NothingEntered | crates/waf-core/src/request.rs:53-55 | a part without an equals sign enters nothing |
| Cookies.TrimIgnoresBlanks | crates/waf-core/src/request.rs:53-56 | blanks around a text do not matter, whatever the text |

## Left out

- Engine.Engine.Evaluate: what the stateless tables, pattern rules and header checks on strings say comes with the
  request, as do its hashes and the validity of its cookies. The event that each decision leaves in the log and the
  store is the subject of Events and Storage, not of the pipeline.
- RateLimit.RateLimiter.CheckScaled: the map lookup and the hit are one step; a sweep between them, on a counter about
  to be hit, is not modelled.
- Bans.Reputations.RecordOffence: the write of the ban file is taken after the entry is released, with the new ban
  in it; lock re-entrancy is not modelled.
- Behavior.BehaviorTracker.Observe: the regularity and method-bias tests are decided in exact arithmetic; the rounding
  of the source's 32-bit floats is left out.
- Metrics.Metrics.Record: one record is one step; two of them at once may find a top-N table full together and leave it
  above its cap. The sorting of the tables for display is left out.
- Storage.Pipeline.WriterLoopAfterClose: the 24-hour retention sweep, which deletes rows, is left out.
- The refusals of the maps beyond 150 000 entries.
- Overflow of 64-bit sums of clock and duration.
- Relaxed memory ordering and shard locks.
- SQLite, JSON and TOML: the database is a sequence of batches, the ban file a map.
- DNS, TLS, the challenge pages, the tarpit, redirects and the admin HTTP parser.
- HMAC, SHA-256 and FNV: functions and values without structure; two inputs with one hash are one input.
- The pattern rules, the datacenter table, the bot and flood scores and honeypot path matching.
- The field-by-field copy of runtime settings to and from their file.
