# The lease engine of resourceful, verified

`resourceful` hands out leases on finite resources. A guardian keeps, for each resource, a sorted list of
leases: *active* ones, *released* ones that go on counting until they have decayed, and *queued* ones that
wait. This project models the engine behind it in Dafny 4.11 and proves what it promises, from the in-place
edits of one transaction up to every interleaving of any number of clients.

`dafny verify dfyconfig.toml` checks everything.

## How the model is laid out

| file | what it holds |
|---|---|
| `lease.dfy`, `leaseset.dfy`, `projection.dfy` | leases and their times, the sort order, lookups, counting by consumer |
| `tx.dfy`, `oneedit.dfy`, `replay.dfy` | class `Tx`: the list edited while it is iterated, its operation log, and what replaying the log gives |
| `accumulator.dfy`, `refresh.dfy` | class `Accumulator` with its maps, and the two-pass scheduler `Refresh` that drives it |
| `firstpass.dfy`, `firstpasscounts.dfy`, `secondpass.dfy`, `refreshlaws.dfy`, `refreshservice.dfy`, `direct.dfy` | what a refresh keeps, whom it serves, and the one-pass reference it refines |
| `guardian.dfy`, `guardianlaws.dfy`, `guardianservice.dfy` | acquire, release and purge: one attempt, what every step keeps, what a client can count on |
| `slots.dfy`, `conservation.dfy` | over whole steps: slots that are held until they have decayed, and nobody left waiting for what is free |
| `fates.dfy`, `admission.dfy` | what becomes of each lease by its own times, who is served before whom, and who is let in under mixed limits and strategies |
| `providers.dfy`, `server.dfy`, `system.dfy`, `systemlaws.dfy` | the two stores, the retry loops, all interleavings of requests in flight, and what holds in every reachable state |
| `logprov.dfy`, `loglaws.dfy`, `logruns.dfy` | the transaction log with its checkpoints, written by concurrent commits |
| `maintainer.dfy`, `clientrun.dfy` | the client's state and renewal timing, and the client as one more process in the system: keeping its place in the queue, and staying active, over whole runs |
| `stats.dfy` | consumption statistics against the accumulator |

Code that changes state is a method on a class, with loops, and is proved against functions (`Run`,
`FirstPass`, `SecondPass`, `Replay`, `RecordLines`, ...); the laws are lemmas about those functions and about
the step relations built from them (`Refreshes`, `Acquires`, `Releases`, `Step`, `Next`, `LogNext`). The step
relations leave the order of sorting ties open, because `sort.Sort` is not stable.

Times are integers, in nanoseconds since Go's zero time, so that `IsZero` is equality with 0. Counting keys are
strings, `host + " " + user`, as in the code. The two-pass result is compared as a multiset of leases, which is
the list up to the order of ties. Stored leases are assumed to start from an empty store, with policies whose
duration and decay are not negative and a clock past the zero time.

## What was found

* `ProcessReverse` goes forward (lease/tx.go:40-46), whatever its comment says. A queued lease that replaces a
  decaying one in a refresh therefore takes the slot of its consumer that decays *last* (`BestSlotDecaysLast`),
  while acquire takes the one that decays *first* (`EarliestSlotTaken`).
* A slot is not always held until it has decayed. `SlotsHeldExactly` says when it is, for every step: unless a
  release finds its subject's lease released in the set it has just refreshed, or an acquire does and the set
  exceeds its limit as well (`LoweredLimitFrees`), which takes policies that lower the limit. In stored terms the
  first is a lease that has been released already, or one that is active and past its expiration
  (`ReleaseFreesExactly`): releasing such a lease deletes it (lease/tx.go:121-127), although the server reports a second release as ignored
  (guardian/server.go:605-606). A lease of the same consumer that waits in the queue may take the slot over first;
  under one limit it always takes the consumer's only slot, which is then not lost (`OnlySlotFreedExactly`).
* Acquire counts the subject's released leases twice, once by key and once by host and user, and panics when
  the counts differ (guardian/server.go:465-468). It panics exactly when the subject is new, the limit is not
  exceeded and a released lease of the refreshed set has the subject's key but another host or user
  (`PanicsExactly`, `AcquirePanicsExactly`). While no acquire comes from a host with a space in its name this is met
  in no reachable state (`NeverPanics`); with one, two requests are enough to get there: host `x y` with user `z`
  acquires and releases, then host `x` with user `y z` acquires (`PanicReachable`).
* For a strategy that is neither of the two known ones the accumulator counts instances
  (lease/leaseutil/accumulator.go:114-121) and the statistics panic (lease/stats.go:55-64), so their agreement
  holds exactly for the two known strategies (`TotalIsReported`).
* Replaying by first match is only right because no subject ever has two leases: `ReplayNeedsUnique` gives the
  input on which it goes wrong, `AlwaysStored` shows that it is never met.
* The client waits at least a second between requests, even when less is left of its lease. Waiting
  `interval()` renews in time exactly under the condition of `InTimeExactly`, and a client stays active through
  failed requests as long as its leases are long enough for the tries (`Affords`, `ClientStaysActive`).

## Model

| member | source | states |
|---|---|---|
| Leases.LessIsStrictWeakOrder | lease/set.go:166-208 | The sort order is irreflexive, transitive and has transitive ties over leases of mixed statuses, which is what sorting and picking the last lease rely on. |
| Leases.HostUserInjective | lease/subject.go:10-12 | While hosts hold no space, two subjects share a counting key if and only if they have the same host and the same user. |
| Leases.HostUserCollides | lease/subject.go:10-12 | With a space in a host, two subjects of different hosts share a key. |
| LeaseSets.Sort | lease/tx.go:35 | Sorting gives some sorted permutation; the order of ties is not promised. |
| LeaseSets.SortedMeans | lease/set.go:166-208 | Being sorted means: active before released before queued; active and queued leases by their start, earliest first; released ones by the end of their decay, latest first, then by their release and their start, earliest first. |
| LeaseSets.EarlierFirst | lease/set.go:197-205 | Of two queued leases the one that started earlier comes first. |
| LeaseSets.Index | lease/set.go:55-62 | The index is that of the first lease for the resource and instance, or -1 when there is none. |
| LeaseSets.HostUser | lease/set.go:23-30 | The leases of the resource, host and user, in order, and no others. |
| LeaseSets.WithStatus | lease/set.go:80-87 | The leases with the status, in order, and no others. |
| LeaseSets.DecayTime | lease/set.go:132-143 | The time is that of some lease and none decays earlier; the zero time for an empty set. |
| Transactions.Tx.Apply | lease/tx.go:49-67 | An edit at an index replaces or removes exactly that lease, logs exactly that, and the shift returned accounts for the removal. |
| Transactions.Tx.Process | lease/tx.go:29-36 | Iterating while deleting in place ends, and amounts to showing every original lease to the processor in order, with its captured variables threaded through; then the list is sorted. |
| Transactions.Tx.ProcessReverse | lease/tx.go:40-47 | The same, first to last: not in reverse. |
| Transactions.Tx.Create | lease/tx.go:96-104 | The lease is added, the list sorted, one creation logged. |
| Transactions.Tx.Update | lease/tx.go:107-115 | Every lease of the instance is replaced and each replacement logged. |
| Transactions.Tx.Release | lease/tx.go:118-131 | An active lease of the instance becomes released at the time given; one of any other status is deleted at once. |
| Transactions.Tx.Delete | lease/tx.go:134-141 | Every lease of the instance is removed and each removal logged. |
| Transactions.ReplacingLeaves | lease/tx.go:107-115 | What an update leaves: the leases of others, and the new lease if the instance had one. |
| Transactions.ReleasingLeaves | lease/tx.go:118-131 | What a release leaves: the leases of others, and the instance's as released at the time given if it was active. |
| Transactions.DeletingLeaves | lease/tx.go:134-141 | What a deletion leaves: the leases of others. |
| Transactions.UpdateTypeMeans | lease/op.go:87-104 | An update is a renewal if and only if subject and status stay the same; an upgrade or downgrade if and only if only the status changes, to a more or less permanent one; a replacement if and only if only the instance's id does; a transmutation if and only if the resource does. |
| Transactions.RunVisitsEachOnce | lease/tx.go:29-36 | Whatever the processor deletes, it is shown each original lease exactly once, in the original order. |
| Transactions.RunBalanced | lease/tx.go:29-67 | Whatever the processor, the log applied to the original multiset of leases gives the final one. |
| Replays.ApplyEdit | provider/memprov/provider.go:79-94 | Among unique leases, applying a logged edit by first match removes exactly the lease it was logged for, whatever the order of the list. |
| Replays.ApplyAbsent | provider/memprov/provider.go:83-93 | An update or deletion of a lease that is not there is passed over. |
| Replays.RunReplays | provider/memprov/provider.go:79-96 | If no subject is ever doubled on the way, replaying the log of a run by first match on any permutation of its base gives what the run made. |
| Replays.ReplayNeedsUnique | provider/memprov/provider.go:83-93 | With two leases for one subject a replay can give a different multiset. |
| Accumulators.Accumulator.Add | lease/leaseutil/accumulator.go:33-44 | The maps and the total go on holding the multiplicities of a ledger of held leases, which grows by the lease added. |
| Accumulators.Accumulator.StartReplacement | lease/leaseutil/accumulator.go:50-60 | Given a released lease of the consumer, one moves from released to active, a replacement is outstanding, and what the consumer holds is unchanged. |
| Accumulators.Accumulator.FinishReplacement | lease/leaseutil/accumulator.go:66-74 | Given an outstanding replacement, exactly one of the consumer's is taken off, and its entry disappears with the last. |
| Accumulators.Accumulator.ReplacementsRecorded | lease/leaseutil/accumulator.go:108-110 | True exactly when some replacement is outstanding, since entries that reach zero are deleted. |
| Accumulators.Accumulator.Total | lease/leaseutil/accumulator.go:114-121 | The number of held leases, or of distinct consumers holding one under the consumer strategy. |
| Refreshing.Refresh | lease/leaseutil/refresh.go:13-93 | The whole scheduler, with in-place edits, running counts and an index into the replacements, carries out exactly a first pass, a sort, and where replacements were started a second pass and a sort; every precondition that stands for a panic is met. |
| Refreshing.FirstLoop | lease/leaseutil/refresh.go:16-72 | The first loop leaves the leases, the log, the counts and the replacements of the first pass. |
| Refreshing.QueuedBody | lease/leaseutil/refresh.go:40-70 | What happens to one queued lease: expired, blocked, fitted into a slot of its consumer, activated, or left. |
| Refreshing.SecondLoop | lease/leaseutil/refresh.go:77-89 | The second loop, entered with as many replacements as are outstanding, never indexes past them. |
| Refreshing.FirstPassAgrees | lease/leaseutil/refresh.go:18-72 | At the end of the first pass the counts equal a recount of the leases, with each replacement counted as active while its slot is still released. |
| FirstPasses.BlockedStable | lease/leaseutil/refresh.go:46-70 | Once a queued lease is blocked it stays blocked while the rest of the queue is dealt with, whatever limits and strategies the others carry. |
| FirstPasses.FirstPassOrigins | lease/leaseutil/refresh.go:18-72 | Every lease kept was there before: unchanged and still valid, expired with its release time set to its expiration, or activated from the queue. |
| FirstPasses.FirstPassWaiting | lease/leaseutil/refresh.go:40-71 | Every queued lease that the first pass keeps is blocked by the final counts, not only by the counts it met. |
| FirstPassCounts.FirstPassCapacity | lease/leaseutil/refresh.go:46-70 | Under one limit and strategy, starting within the limit, the count is within the limit at every point of the pass. |
| FirstPassCounts.FirstComeFirstServed | lease/leaseutil/refresh.go:40-70 | A queued lease is granted ahead of an earlier one left waiting only if its consumer already holds a slot: more released leases than are promised to earlier replacements of its own, or, under the consumer strategy, an active lease or such a promise. |
| FirstPassCounts.AgingComposes | lease/leaseutil/refresh.go:20-39 | Expiring late keeps the decay time: aging a lease twice is aging it once at the later time. |
| SecondPasses.NoPanic | lease/leaseutil/refresh.go:74-90 | The index into the replacements is in range whenever it is used, and all of them have been used at the end. |
| SecondPasses.SecondPassCounts | lease/leaseutil/refresh.go:77-89 | Each consumer gives up as many released slots as it has replacements and gains as many active leases, although a replacement may go into another consumer's slot. |
| RefreshLaws.AccumulatorRecounts | lease/leaseutil/accumulator.go:33-121 | After a refresh the incremental accumulator equals a recount of the resulting set: per consumer, and in total under every strategy. |
| RefreshLaws.RefreshBalanced | lease/leaseutil/refresh.go:13-93 | The log of a refresh accounts exactly for what it changed. |
| RefreshLaws.RefreshSubjects | lease/leaseutil/refresh.go:13-93 | A refresh brings up no subject and doubles none. |
| RefreshLaws.RefreshReplays | provider/memprov/provider.go:79-96 | Replaying a refresh's log after any earlier log of the transaction gives what the refresh made. |
| RefreshLaws.RefreshWellFormed | lease/leaseutil/refresh.go:26-30 | A refresh keeps the release time set exactly when the lease is released, keeps uniform limits uniform, and leaves waiting leases as they were. |
| RefreshLaws.SettledIsFixed | lease/leaseutil/refresh.go:13-93 | On a set with nothing expired or decayed and every queued lease blocked, a refresh records nothing. |
| RefreshLaws.RefreshIdempotent | lease/leaseutil/refresh.go:13-93 | A second refresh at the same time on the first one's result records no operation and leaves the same leases and counts, even with mixed limits and strategies. |
| RefreshService.RefreshCapacity | lease/leaseutil/refresh.go:46-70 | Under one limit and strategy a refresh never takes consumption past the limit. |
| RefreshService.WorkConserved | lease/leaseutil/refresh.go:46-70 | If a lease is left waiting, the limit is fully consumed and its consumer holds no slot it could use. |
| RefreshService.UnexpiredActiveStays | lease/leaseutil/refresh.go:20-32 | An unexpired active lease comes out of a refresh unchanged. |
| RefreshService.ServiceOutcome | lease/leaseutil/refresh.go:40-90 | A lease the first pass grants is active in the final set, directly or by way of the second pass; one it leaves waiting is still queued there. |
| RefreshService.PollingFrequencyIrrelevant | lease/leaseutil/refresh.go:20-39 | Without a queue, refreshing at one time and again later leaves what one refresh at the later time leaves. |
| Fates.RefreshOnlyAges | lease/leaseutil/refresh.go:18-90 | A refresh changes nothing of a lease but its status and release time: what is active or queued afterwards has not run out, what is released is within its decay and, if it was active, released as of when it ran out, and only queued leases turn active. |
| Fates.ActiveFate | lease/lease.go:55-62 | An active lease is kept as it is up to its renewal plus its duration. |
| Fates.ReleasedFate | lease/lease.go:64-78 | A released lease of a consumer with nothing waiting is kept if and only if the time is no later than its release plus its decay. |
| Fates.ExpiredFate | lease/leaseutil/refresh.go:20-32 | An active lease of such a consumer is released, as of its renewal plus its duration, if and only if the time is past that and no later than its decay after it; later the subject has no lease. |
| Fates.QueuedFate | lease/leaseutil/refresh.go:40-44 | A queued lease stays, waiting or activated, up to its renewal plus its duration; later the subject has no lease. |
| Fates.EarlierServedFirst | lease/leaseutil/refresh.go:40-70 | First come, first served by start times: of two queued leases with one limit and strategy, the later one is served while the earlier one waits only if its consumer had an open slot, or, where consumers are counted, was active or became so through a lease that started no later. |
| Fates.OvertakingGainsNothing | lease/leaseutil/refresh.go:54-64 | Where instances are counted, a consumer so served ends up with exactly as many slots as it held. |
| Admission.WaitingNotAdmissible | lease/leaseutil/refresh.go:46-70 | With any mix of limits and strategies, a lease that a refresh leaves waiting is one with which its limit would be exceeded. |
| Admission.GrantedWithin | lease/leaseutil/func.go:11-24 | A lease that the first pass grants does not take the count past its own limit. |
| DirectRefresh.TwoPassesRefineOne | lease/leaseutil/refresh.go:54-90 | The two passes, with replacements matched to slots by a global index, leave exactly the leases of a one-pass reference in which every queued lease takes a slot of its own consumer. |
| DirectRefresh.BestSlotDecaysLast | lease/tx.go:40-46 | The slot given up is the one of the consumer that decays last. |
| Guardian.AttemptAcquire | guardian/server.go:437-481 | One attempt at an acquire carries out a refresh and the decision taken on its result, or panics exactly in the cases of the decision. |
| Guardian.AcquireRefreshed | guardian/server.go:440-481 | The branches of acquire: renewal, revival of a released lease, takeover of a slot, creation as active or queued, and the panic. |
| Guardian.AttemptRelease | guardian/server.go:572-577 | One attempt at a release is a refresh, the release, and a second refresh on the same log. |
| Guardian.AttemptPurge | guardian/server.go:684-686 | One attempt at a purge is a refresh. |
| GuardianLaws.AcquireSwaps | guardian/server.go:443-481 | After its refresh an acquire takes out at most one lease, its subject's or a released slot of its consumer, and puts in exactly the lease it returns. |
| GuardianLaws.ReleaseSwaps | lease/tx.go:118-131 | A release changes its subject's lease alone: active turns released, anything else goes; an unknown subject changes nothing. |
| GuardianLaws.StepStored | guardian/server.go:437-481 | Every step keeps each set sorted, with one lease per subject, all of that resource, and the release time set exactly when released. |
| GuardianLaws.StepCapped | guardian/server.go:443-481 | Every step keeps consumption within the one limit that acquires of the resource carry, whatever their durations, decays and refresh rates and whatever policy a release or purge comes with, and although a renewal stays active whatever the limit. |
| GuardianLaws.StepLogs | provider/memprov/provider.go:79-96 | For every step, replaying its log on the leases it started from gives the leases it ended with, and the log accounts for the change. |
| GuardianLaws.StepResorted | lease/tx.go:35 | Any other order of ties is also a result of the same step. |
| GuardianService.CountsDiffer | guardian/server.go:465-468 | The count by host and user never exceeds the count by key, and differs exactly when some released lease has the subject's key but another host or user. |
| GuardianService.PanicsExactly | guardian/server.go:462-468 | On the refreshed set the check fails if and only if the subject is new, the limit is not exceeded, and there is such a collision. |
| GuardianService.AcquirePanicsExactly | guardian/server.go:437-468 | An acquire can panic on a stored set if and only if some refresh of it leaves a set of which that is true. |
| GuardianService.NoSpaceNoPanic | guardian/server.go:465-468 | On a stored set whose hosts hold no space, for a host that holds none, the check always agrees. |
| GuardianService.CollisionPanics | guardian/server.go:465-468 | On any set that has nothing left to refresh, an acquire panics if and only if its subject is new, the limit is not exceeded, and a released lease has the subject's key but another host or user. |
| SystemLaws.NeverPanics | guardian/server.go:465-468 | In every state of every run in which acquires of the resource come from hosts without a space, no acquire in flight can panic on what it has viewed, however old and at whatever time. |
| SystemLaws.AlwaysHosts | guardian/server.go:412-422 | In every such state no stored lease is of a host with a space. |
| SystemLaws.LeftBehind | guardian/server.go:552-597 | An acquire and a release carried out one after the other leave the subject's lease, released. |
| SystemLaws.PanicReachable | guardian/server.go:465-468 | With a space in a host the panic is reached on the set that an acquire and a release leave. |
| GuardianService.EarliestSlotTaken | guardian/server.go:465-471 | The slot taken over is a released lease of the subject's host and user, and none of theirs decays earlier. |
| GuardianService.AcquireLeavesOne | guardian/server.go:410-481 | A successful acquire leaves exactly one lease for its subject: the one returned, active or queued, renewed now, with the properties of the request and the strategy, limit, duration, decay and refresh rates of the policy, but for a rate that is not shorter than the duration, which is dropped. |
| GuardianService.ReleasedAgain | lease/tx.go:118-131 | Releasing a lease that had been released, or that was active and past its expiration, leaves no lease of the subject. |
| Slots.RefreshSlots | lease/leaseutil/refresh.go:18-90 | A refresh leaves every consumer all its undecayed slots, and counts no more for a consumer while it has a released one left. |
| Slots.SlotsHeldExactly | lease/tx.go:118-131 | Over every step, each consumer keeps all its undecayed slots if and only if the request is not a release that finds its subject's lease released in the refreshed set, nor an acquire that does so with the limit exceeded. Limits and strategies may be mixed. |
| Slots.LoweredLimitFrees | guardian/server.go:445-453 | On a settled set an acquire for a subject whose lease is released gives the slot up whenever the limit it comes with is exceeded. |
| Slots.SlotsHeldUnder | guardian/server.go:443-481 | Under one limit and strategy, only the release is left. |
| Slots.ReleaseFreesExactly | guardian/server.go:574-577 | In stored terms, when its consumer has nothing waiting: a release frees an undecayed slot if and only if its subject's lease is released already, or active and past its expiration. |
| Slots.OnlySlotFreedExactly | guardian/server.go:574-577 | Under one limit, for a consumer's only slot: that, and no unexpired lease of the consumer is waiting, since the refresh would put it into the slot. |
| GuardianService.ActiveLeftAlone | guardian/server.go:437-481 | No acquire or release of others, purge or refresh changes an unexpired active lease. |
| GuardianService.QueuedLeftAlone | guardian/server.go:437-481 | No acquire or release of others, purge or refresh does anything to an unexpired queued lease but activate it. |
| GuardianService.ActiveRenewed | guardian/server.go:454-459 | Renewing an unexpired active lease keeps it active since it was started, whatever the limit. |
| GuardianService.QueuedRenewed | guardian/server.go:454-459 | Renewing an unexpired queued lease keeps its place in the queue, even when the refresh activates it on the way. |
| GuardianService.AcquireQueuesExactly | guardian/server.go:443-481 | Under one policy an acquire returns a queued lease if and only if the refreshed set consumes the whole limit and neither the subject has an active lease in it nor its consumer a slot to go on from. |
| Admission.AcquireAdmitsExactly | guardian/server.go:443-481 | With any mix of limits and strategies, a subject with an active or queued lease in the refreshed set goes on with its status and start; any other becomes active, as of now, if and only if with it the limit is not exceeded. |
| Admission.AcquireStarted | guardian/server.go:412-458 | The lease returned started when the stored lease did that it renews, if that was active or queued and had not run out, and else now. |
| GuardianService.NewcomerWaits | guardian/server.go:462-479 | A newcomer that holds no slot is put in the queue whenever anyone is queued. |
| Conservation.StepConserves | guardian/server.go:437-481 | Under one limit and strategy every step leaves a set in which a lease waits only while the limit is fully consumed and its consumer has no slot of its own. |
| Providers.MemProvider.LeaseView | provider/memprov/provider.go:52-61 | A view returns the page's revision and leases, and changes no page's content even when it creates one. |
| Providers.MemProvider.LeaseCommit | provider/memprov/provider.go:65-99 | An empty log succeeds and writes nothing; a stale revision is refused; otherwise the log is replayed, the page sorted and its revision advanced, and no other page changes. |
| Providers.ReplayOps | provider/memprov/provider.go:79-94 | The replay loop applies the operations in order by first match, skipping those whose lease is not there. |
| Providers.BoltProvider.LeaseView | provider/boltprov/provider.go:69-91 | A view returns the shared sequence and the resource's leases, none for a missing key. |
| Providers.BoltProvider.LeaseCommit | provider/boltprov/provider.go:95-135 | The same outcomes under a sequence shared by all resources; the final list is stored, or its key deleted when it is empty. |
| Providers.CommitMeans | provider/boltprov/provider.go:115-133 | Both providers refine one store: a commit succeeds if and only if there is nothing to write or the revision still matches; then the resource holds the transaction's leases up to ties and its revision has moved, and in the bucket it has a key if and only if it has leases; otherwise nothing has changed. |
| Servers.Server.Acquire | guardian/server.go:401-513 | With other requests writing at will between view and commit, an acquire that succeeds was one whole step, at the time its last try read off the clock, from the leases stored just before that try's commit, and its lease is stored; otherwise the store is what the others made of it, after five contended tries or a panic. |
| Servers.Server.Release | guardian/server.go:552-617 | The tries follow one another, each on what the others made of the store. A release that succeeds was one whole step, with something to write, at the time its last try read, or found nothing to write for what it viewed; uncontended, it leaves its subject no lease but a released one. One that fails met five contended tries. |
| Servers.Server.Purge | guardian/server.go:671-701 | The same for the purge of one resource; uncontended, it leaves nothing that has run out or decayed. |
| Servers.CommittedStep | guardian/server.go:590-597 | A commit that succeeds after interference is a step from exactly the leases it replaced. |
| Servers.StepLeaves | guardian/server.go:571-594 | A release leaves its subject only a released lease and a purge nothing stale, and if they have nothing to write that was so of the set they were given. |
| Systems.NextSound | provider/memprov/provider.go:75-78 | Every transition keeps: an in-flight transaction whose revision still matches was computed from exactly the stored leases. |
| Systems.NextWrites | guardian/server.go:494-498 | A transition leaves a resource alone or takes it through one whole step of a request that was in flight. |
| SystemLaws.TriesBounded | guardian/server.go:401 | No request is tried more than five times. |
| Systems.Linearizable | provider/boltprov/provider.go:115-122 | In every reachable state of any interleaving, on either store, each resource holds what its committed requests leave when carried out whole, one after the other, at times that never go back. |
| Systems.SequentialStored | guardian/server.go:437-481 | Every sequential run keeps the representation invariant. |
| Systems.AlwaysStored | guardian/server.go:401-501 | The representation invariant holds in every reachable state, whatever policies requests carry. |
| Systems.CapacitySafe | guardian/server.go:401-501 | When all acquires of a resource carry one limit and one strategy, its consumption never exceeds the limit in any reachable state of any interleaving of acquires, releases, purges and refreshes. |
| SystemLaws.AlwaysConserving | guardian/server.go:401-501 | Then in every reachable state, too, a lease waits only while the limit is fully consumed and its consumer has no slot of its own. |
| Maintainers.LeaseMaintainer.Acquire | guardian/maintainer.go:247-287 | The state after each kind of response, field by field: a granted lease and the set sent with it are kept, a lease no longer required and its set are cleared, and a failure keeps lease, set and the subject to ask for. |
| Maintainers.ReceiveMeans | guardian/maintainer.go:262-281 | The same of the function that stands for it in the runs. |
| Maintainers.LeaseMaintainer.Release | guardian/maintainer.go:289-313 | A release that fails changes only the error recorded; without a lease none is sent. |
| Maintainers.EffectiveRefreshMeans | lease/lease.go:88-105 | The refresh interval is the rate for the status, or half the duration when there is none, and at least a second. |
| Maintainers.LeaseMaintainer.Interval | guardian/maintainer.go:321-380 | Online with an active lease the wait is that interval, or what is left of the lease but for eight tenths of a second when that is less; with a queued lease it is that interval, or the time to the first decay in the set that was sent when that is less; never below a second. |
| Maintainers.QueuedIntervalMeans | guardian/maintainer.go:364-377 | The queued wait is below the interval only because it ends at a decay, and past decays do not shorten it. |
| Maintainers.OfflineIntervalMeans | guardian/maintainer.go:339-344 | Offline the retry interval takes the place of the refresh interval when it is shorter. |
| Maintainers.GrantedWaitsForDecay | guardian/maintainer.go:263-269 | From the response to the next request: a client granted a queued lease waits no longer than for the first decay in the set sent with it. |
| Maintainers.QueuedRenewsInTime | guardian/maintainer.go:364-377 | A queued lease is renewed before it runs out if interval and delays fit into its duration. |
| Maintainers.InTimeExactly | guardian/maintainer.go:346-377 | Waiting that long renews before expiration if and only if the minimum wait fits in what is left, and the request takes no longer than the transport time or the refresh interval leaves room for it. |
| ClientRuns.SequentialRenewed | guardian/server.go:410-415 | No stored lease is renewed later than the last committed request, so that renewals never go back in time. |
| ClientRuns.NextContinues | guardian/server.go:454-459 | No transition of the whole system takes an unexpired lease, active or queued, from a client that is not releasing it: it leaves the lease alone, activates it, or renews it from the same start. |
| ClientRuns.CommitsRenew | guardian/maintainer.go:260-269 | The lease sent back for a request that the client had committed is stored, since the old start, renewed no earlier, and active if the old one was. |
| ClientRuns.WorldKeeps | guardian/maintainer.go:236-243 | Every transition, the client's own included, keeps: the lease stored is at least as new as what the client knows, and the client's next renewal comes before what it knows expires. |
| ClientRuns.Punctual | guardian/maintainer.go:346-377 | So the clock never passes the expiration of the lease that is stored. |
| ClientRuns.AffordsMeans | guardian/maintainer.go:346-377 | What the duration of a lease has to leave room for: the refresh interval and the delays; or, active and with requests of at most eight tenths of a second, one second and the delays. |
| ClientRuns.ClientKeepsPlace | guardian/maintainer.go:234-313 | A client that has been told of a lease, active or queued, and waits as the interval says after every response and every failure, has a lease since the same start, not run out, in every later state of every run: with bounded delays, and no more failures in a row than its durations afford. |
| ClientRuns.ClientStaysActive | guardian/maintainer.go:234-313 | Once that lease is active it stays active. |
| TransactionLogs.LogProvider.LeaseCommit | provider/logprov/provider.go:76-85 | A commit that succeeds at the source writes the lines of its log, counts them, and starts a checkpoint exactly when one has become due; one that fails, or that only renews, writes, counts and starts nothing. |
| TransactionLogs.OpLinesMean | provider/logprov/provider.go:107-120 | An update that leaves subject and status as they were writes nothing; any other drops the old entry and then adds the new one, each if it is active or released. |
| TransactionLogs.RenewalsAreSilent | provider/logprov/provider.go:108-111 | A log of renewals writes nothing. |
| TransactionLogs.LogProvider.RecordOp | provider/logprov/provider.go:107-120 | What one operation appends to the log, entry by entry, and how many lines that is. |
| TransactionLogs.LogProvider.Record | provider/logprov/provider.go:104-123 | Operations are written in order, and as many lines are counted as were written; a log of renewals changes neither log, counter nor tasks. |
| TransactionLogs.LogProvider.Add | provider/logprov/provider.go:128-142 | A checkpoint is started if and only if something was recorded and some schedule's number has been reached since the last one. |
| TransactionLogs.LogProvider.OpsSchedule | provider/logprov/provider.go:232-250 | The smallest positive number among the schedules, if any. |
| TransactionLogs.LogProvider.OpsCheckpoint | provider/logprov/provider.go:146-156 | A started checkpoint writes nothing if a quicker one came first, and otherwise a block of what is stored. |
| TransactionLogs.LogProvider.Checkpoint | provider/logprov/provider.go:199-230 | The block lists every held lease of every resource exactly once and nothing else, and the counters of the last checkpoint are advanced. |
| LogLaws.OpAccounts | lease/op.go:87-139 | The lines of an operation account for what it does to the listing of held leases; a renewal does nothing to it. |
| LogLaws.LinesAccount | provider/logprov/provider.go:104-120 | The lines recorded for a transaction account exactly for the difference between the held leases before and after. |
| LogLaws.ListingMeans | lease/lease.go:44-52 | An entry is listed once if the subject has an active or released lease of that status, and else not at all. |
| LogLaws.ReadBlock | provider/logprov/provider.go:208-224 | Reading a block sets a new base and notes whether it equals the old base and the lines since. |
| LogRuns.CommitAccounts | provider/logprov/provider.go:80-83 | The lines of any commit of the system account for the change in what is stored under every subject and status. |
| LogRuns.LogNextSound | provider/logprov/provider.go:76-156 | Every transition keeps: the log and the lines still to come add up to what is stored, and the counter lags behind the log by the lines of commits under way. |
| LogRuns.CheckpointsAgree | provider/logprov/provider.go:199-230 | In every run, whatever the order in which concurrent commits write their lines, a checkpoint lists exactly what the previous one and the lines between add up to. |
| LogRuns.CheckpointPending | provider/logprov/provider.go:133-141 | In every reachable state, when the operations counted since the last checkpoint have reached a schedule's number, a checkpoint has been started and not yet run. |
| LogRuns.NeverEarly | provider/logprov/provider.go:146-156 | A checkpoint started by operations writes its block if and only if that many lines have been logged since the last one. |
| LogRuns.AlwaysOwn | provider/logprov/provider.go:210-222 | In every reachable state each resource holds leases of its own only, so that a checkpoint can list it. |
| Statistics.Tally.Add | lease/stats.go:98-113 | The tally goes on holding the counts of the leases it was shown, by status and by user of active ones. |
| Statistics.UsersAre | lease/stats.go:100-106 | A user is counted if and only if an active lease is held in its name. |
| Statistics.StatsOf | lease/set.go:93-113 | One tally is of all leases, the other of the first lease of each consumer. |
| Statistics.ConsumerTally | lease/set.go:100-110 | On a sorted set each consumer counts once: as active if it has an active lease, else as released if it has one, else as queued. |
| Statistics.ConsumedIsConsumption | lease/stats.go:55-64 | What the two tallies report as consumed is the consumption under the two strategies. |
| Statistics.Stats.Consumed | lease/stats.go:55-64 | Of the tallies of a set it answers what they report: the leases held or the consumers holding, and nothing for an unknown strategy. |
| Statistics.TotalIsReported | lease/leaseutil/accumulator.go:114-121 | After a refresh the accumulator's total is what the statistics report, if and only if the strategy is a known one. |

## Left out

- Retries on a failed view, and errors of the stores other than a stale revision: a request that meets one ends, in the system of interleavings, without a commit.
- Refreshing.Refresh: the loops of `Process` and `ProcessReverse` are written out in it, because a Dafny function value cannot change the accumulator; `Transactions.Tx.Process` covers all processors that thread their variables.
- Transactions.Op: one constructor per type of operation, in place of a record with unused fields.
- LeaseSets.Sort: an insertion sort stands in for the standard library's; only the contract is relied on.
- Properties of leases are carried and never looked at, so cloning is the identity.
- Providers.MemProvider.LeaseCommit: revisions, sequences and counters do not wrap around at 64 bits.
- Providers.BoltProvider.LeaseCommit: the bucket is a map with a counter; encoding as JSON and the file are not modelled.
- A status that is none of the three known ones never enters a store, and the representation invariant excludes it.
- Servers.Server.Purge: goes through one resource; the loop over all of them, and the periodic refresh without retries, are the same steps in the system of interleavings.
- ClientRuns.ClientStaysActive: the client shares its clock with the server, its leases are all for one duration, nobody releases its lease for it, and its program goes on needing one; bounds on its delays and on failures in a row are assumed. Goroutines, channels and locks of the maintainer are not modelled.
- TransactionLogs.LogProvider.Checkpoint: listing resources and viewing them is taken to succeed; lines are values, and their text and that the printing tells them apart are not modelled.
- TransactionLogs.LogProvider.OpsCheckpoint: the timer loop that starts checkpoints by duration is left out; in the runs a checkpoint by the timer or on demand may happen whenever no commit holds the lock.
- The readers of the other counts of the statistics are the same switch as `Consumed`.
- Policies: merging, matching and hashing of policy sets; a request comes with its strategy, limit, durations and refresh intervals.
- HTTP, event streams, snapshots published to listeners, logging of messages, the enforcer, the user interfaces and the Windows service.
- `Accumulator.Consumed` is not called anywhere.
