# Octoproxy client: a verified model

This project models the client side of Octoproxy in Dafny and proves what the
proxy promises about it: how a backend goes up and down while many activities
share it, how a connection fails over, how load is counted and balanced, and
how the bytes of a handshake and of a connect head are read back. `dafny verify
dfyconfig.toml` checks everything.

## How it is built

- **Lifecycle of a backend** (`Backends`, `Lifecycle`). `Backends.Backend` is
  the object behind the reader/writer lock; each method is a stretch of code
  without an await, and its contract is the pure function that the step machine
  uses. `Lifecycle.Step` is that machine: connection attempts, retries,
  transfers and the three administrator requests are tasks with a program
  counter over the shared fields, with explicit holders of the reader/writer
  lock and of the client's mutex. A dial, the start of a stream, a copy and the
  loss of a connection are events with any outcome at any time.
- **Its theorems** (`Runs`, `StepLaws`, `Progress`, `LifecycleTheorems`,
  `RetryTheorems`, `Alone`, `Recovery`, `Revival`, `Renewal`, `Scenarios`): who
  stores a status, spawns a task or changes a token, and that neither the other
  tasks nor preemption change what a step does; the lock is given back, tokens
  and cancelling, closing, the retrying flag and poisoned clients, whole
  activities, who restores a backend and when nobody can, and concrete runs.
- **Atomicity.** The runtime has many threads. An event is the code between two
  awaits; one marked `fine` is preempted: after the load of the status, after
  the load of the retrying flag, after its connection attempt has ended, and, at
  the end of a retry, between the store of the status and that of the flag. The
  results hold for both kinds, but where they say await level, as those on whole
  activities do. What preemption breaks has a reachable counterexample and an
  exact condition: the retrying flag (`RetryTheorems.OneRetryIffNoClash`), that
  a poisoned client is not Normal (`RetryTheorems.PoisonedNeverNormalIff`), and
  that a backend that is down is being retried (`Recovery.DownIsBeingRetried`).
- **Cancelling.** An operation under a cancelled token is dropped by the end of
  the poll that finds it cancelled, unless the network has answered within that
  poll. It can: a QUIC dial with early data and the stream of a retry make
  nothing wait (client/src/connector.rs:142-146, 214). So the machine allows such
  answers, and what holds of every run holds with them. `Prompt` runs are those
  without, and the results that need it say so. Every run that is shown to exist
  has no wait that even begins under a cancelled token (`NeverLingers`), except
  for `Scenarios.CutOffComesBackAtOnce` and `Renewal.DownStaysIffNoHope`, which
  are about that.
- **The client's connection** (`Connector`, `ClientHistory`): the loop of
  `new_stream_fut` on a class, with a ghost history that the results speak of;
  and a refinement, by which a client that many tasks share has such a history
  in every run of the step machine.
- **Failover** (`Config`, `Failover`): the loop of one connection over all
  backends, where other tasks change any status at any time.
- **Accounting** (`Metric`, `MetricTheorems`, `PeakEwma`, `Balance`): the log of
  operations and its two copies, the moving average over the reals with an
  abstract decay, and the balancers.
- **Bytes** (`PeerInfo`, `ConnectHead`, `ConnectRequest`, `Tunnel`): hosts and
  host rules, the length-prefixed head, and the CONNECT handshake (section 9.3.6
  of RFC 9110, with the authority form of section 3.2.3 of RFC 9112) over every
  schedule of partial writes and reads.

## Where the code and its comments differ

- `ForceClosed` is described as never coming up automatically. It can: a retry
  whose stream is ready when an administrator cancels and closes makes it
  `Normal` (`Scenarios.ForceClosedComesBack`), and an attempt that was handed
  the backend before marks it `Closed`. The exact condition under which it stays
  closed is `LifecycleTheorems.ForceClosedStaysIffQuiescent`.
- A failed switch of protocol keeps the new protocol in the configuration and
  leaves the cancelled token in place (`LifecycleTheorems.RenewedTokenIsLive`),
  so that a backend that is down stays down until a token is renewed
  (`LifecycleTheorems.FailedSwitchCutsOff`), unless the network answers within
  the poll that would drop a retry (`Scenarios.CutOffComesBackAtOnce`).
- `retry_forever` is described as the way back to `Normal`. There is none once
  the last such task has used up its tries (`Scenarios.GivenUpIsAbandoned`), or
  has left the backend, with all of its tries to go, to a retry that has already
  succeeded and still has the flag to clear (`Scenarios.YieldedIsAbandoned`).
  The exact condition under which a step leads there is
  `Recovery.RecoveryBreaksIff`; those under which a backend stays down are
  `Renewal.DownStaysIffNoHope`, for any network, and
  `Renewal.DownStaysIffHopeless`.
- A rule that names a backend which is not configured blocks the connection; the
  comment on `next_available_backend` says that nothing is returned.
- The server reads the host with a single read; the head is recovered exactly
  when that read delivers all of it (`ConnectHead.HeadRoundTrip`).

## Model

| member | source | states |
|---|---|---|
| LifecycleTheorems.ForceClosedStaysIffQuiescent | client/src/proxy.rs:123-160 | A reachable ForceClosed backend stays ForceClosed in every run without an administrator's toggle if and only if no attempt (pick to status write) or retry (check to status write) is pending on it; and already if it does in the await-level runs in which no wait begins under a cancelled token |
| LifecycleTheorems.QuiescentStays | client/src/backends.rs:379-425 | From a quiescent ForceClosed backend every toggle-free run, at any interleaving, stays quiescent and never hands the backend out |
| LifecycleTheorems.ConfiguredForceClosed | client/src/backends.rs:329-336 | A backend configured force_closed stays so and is not handed out in any run without a toggle |
| Scenarios.ForceClosedComesBack | lib/src/metric.rs:27-28 | A concrete reachable ForceClosed backend and a toggle-free run that makes it Normal: a retry whose stream is ready when it next polls |
| LifecycleTheorems.InFlightIsCurrent | client/src/backends.rs:427-468 | In every reachable state an attempt or transfer in flight holds a read guard and uses the current token, and an attempt the current client |
| LifecycleTheorems.CancelReachesAll | client/src/metric.rs:108-166 | A cancel by any of the three requests cancels the token of every operation in flight; each can end at once, and in every run that follows it ends by its first step, or by its second within the same poll, unless the network answers within that poll |
| LifecycleTheorems.CutOffStaysDown | client/src/backends.rs:436-449 | With a cancelled token that is not renewed, a backend that is not Normal, and whose retries have no result or stream from before, never becomes Normal, at any interleaving, with a network that answers no wait within the poll that would drop it; for every other network see `Renewal.DownStaysIffNoHope` |
| LifecycleTheorems.FailedSwitchCutsOff | client/src/backends.rs:351-361 | So, with such a network, a switch of protocol whose client fails to build leaves a backend that is down to stay down until a renewal |
| Scenarios.CutOffComesBackAtOnce | client/src/connector.rs:142-166 | A reachable QUIC backend that is cut off, whose client has connected before, and a run of three steps of one retry that makes it Normal, with a dial and a stream that are answered within the poll |
| LifecycleTheorems.ReplacedOnlyWhenIdle | client/src/backends.rs:531-536 | A step that replaces the token, the client or the protocol finds no operation begun under the old one |
| LifecycleTheorems.RenewedTokenIsLive | client/src/backends.rs:351-367 | After a renewal the token is not cancelled; after a switch of protocol that fails to build it is cancelled exactly when it was before |
| LifecycleTheorems.ShownProtocol | client/src/backends.rs:351-367 | In every run the metric shows the configured protocol if and only if the switches that have failed since the last success are even in number |
| Progress.NoDeadlock | client/src/metric.rs:113-123 | From every reachable state the tasks that hold the lock have a run of their own, taking no new guard, after which nothing holds it |
| Progress.ReaderOrMutexHolderGoes | client/src/connector.rs:374-376 | Every holder of a read guard can take a step of its own that gives it back or brings it closer to that, or waits for the client's mutex, whose holder has a guard and can |
| Progress.OnlyLocksHold | client/src/proxy.rs:144-170 | A task that is not done waits for nothing but the lock, the client's mutex and the network's answer, in whatever state the backend is |
| RetryTheorems.OneRetryIffNoClash | client/src/backends.rs:389-422 | At any interleaving, throughout a run, the flag is set exactly while a retry attempt runs and at most one does, if and only if no retry stores the flag that finds it set since it loaded it |
| RetryTheorems.FlagBreaksIff | client/src/backends.rs:390-394 | A step breaks that if and only if it is such a store |
| RetryTheorems.RetryingIffOneRetry | client/src/backends.rs:389-422 | So it holds in every run in which no check of the flag is preempted, as at await level |
| RetryTheorems.RenewalInterruptsNoRetry | client/src/backends.rs:531-536 | In every reachable state, at any interleaving, a renewal, which clears the flag, does not find it set |
| Scenarios.PreemptionBreaksRetryFlag | client/src/backends.rs:390-394 | With preemption between the load and the store of the flag a reachable state has two retries running |
| RetryTheorems.PoisonedIsNotNormal | client/src/connector.rs:348-403 | In every await-level run in which retries connect alone, a poisoned client implies that the status is not Normal |
| RetryTheorems.HandedOutNotPoisoned | client/src/proxy.rs:149-159 | In such runs an attempt that starts at once on a backend handed out does not fail merely for a poisoned client |
| RetryTheorems.PoisonedNormalOnlyBy | client/src/backends.rs:399-407 | At any interleaving a step enters Normal with a poisoned client if and only if it is the success of a retry's stream, or its preempted store, on a client poisoned meanwhile, or a failed dial of a Normal backend preempted before it is marked |
| RetryTheorems.PoisonedNeverNormalIff | client/src/proxy.rs:149-160 | Throughout a run, at any interleaving, a poisoned client implies that the status is not Normal if and only if no such step is taken |
| RetryTheorems.PoisonedNormalOnlyByRetry | client/src/backends.rs:399-407 | At await level the one such step is the success of a retry's stream on a client poisoned meanwhile |
| Scenarios.PoisonedNormalWhenNotAlone | client/src/proxy.rs:149-159 | A reachable state where that has happened |
| Scenarios.PoisonedNormalBeforeMarked | client/src/proxy.rs:153-158 | And one where a failed dial alone has done it, preempted before the backend is marked Closed |
| RetryTheorems.NormalOnlyByRetry | client/src/proxy.rs:194-195 | Normal is entered only by a retry whose connection attempt succeeded |
| RetryTheorems.RetryResetFirst | client/src/backends.rs:397-399 | A retry that connects reset the client earlier in the run, and has not checked or reset again since |
| StepLaws.RetryResetsOnlyDown | client/src/backends.rs:380-397 | In every run, at any interleaving, a retry resets the client only after its last check has found the backend Closed or Unknown, and then the flag clear |
| StepLaws.StatusOnlyBy | client/src/backends.rs:399-412 | At any interleaving a step marks a backend Closed, Normal, or ForceClosed or Unknown if and only if it is the report of a failed attempt or retry, the report of a retry that succeeded, or an administrator's toggle; every other step leaves the status |
| StepLaws.StatusIsLastTold | client/src/backends.rs:329-336 | In every run the status is what the last of those steps told it, and the configured one before any |
| StepLaws.SpawnsOnlyBy | client/src/proxy.rs:157-159 | At any interleaving a step moves no task but its own, and spawns a retry_forever task if and only if it fails a peer's attempt or reopens the backend; a new activity changes nothing else |
| StepLaws.OnlyAdministrators | client/src/metric.rs:108-166 | At any interleaving a token is cancelled or renewed, the client replaced, the protocol changed or the metric reset by exactly the steps of an administrator's requests that do so |
| StepLaws.AdministratorCounts | client/src/backends.rs:351-373 | In every run the metric has been reset once for each reset of the client by an administrator or by a switch that built its client, and the protocol is the configured one if and only if the switches are even in number |
| StepLaws.TransferKeeps | client/src/backends.rs:482-496 | At any interleaving the beginning and the end of a transfer, however it ends, change nothing of the backend and of the other tasks |
| StepLaws.WriterExcludes | client/src/backends.rs:351-367 | While a task holds the write guard no other task goes on |
| StepLaws.StepIsLocal | client/src/proxy.rs:144-160 | What a step does to the backend and to its own task depends on these alone: the results on uninterrupted activities hold step by step among other tasks |
| StepLaws.PreemptionOnlyDelays | client/src/backends.rs:380-422 | A step that is preempted and resumed before any other task moves does what it does unpreempted |
| Alone.RetryAlone | client/src/backends.rs:389-422 | Every uninterrupted retry of a down backend with a live token ends Normal if and only if its last event is its stream's success, else Closed; it leaves the client poisoned if and only if that event is a failed dial, whatever connections were dead on arrival before |
| Alone.RetryTurnsAway | client/src/backends.rs:380-393 | Every uninterrupted run of a retry that finds the backend Normal, ForceClosed or being retried ends at its check, and leaves the backend, its client and the flag as they were |
| Alone.AttemptAlone | client/src/proxy.rs:144-160 | Every uninterrupted attempt with a live token opens a stream if and only if its last event is the stream's success, else marks the backend Closed and spawns one retry; it leaves the client poisoned if and only if it was, or that event is a failed dial |
| Alone.CancelledAttemptFails | client/src/backends.rs:441-449 | Every uninterrupted attempt under a cancelled token fails, unless the network answers within one poll |
| Alone.CancelledRetryFails | client/src/backends.rs:441-449 | And so does every such retry, which leaves the backend Closed |
| Alone.AttemptCanEnd | client/src/proxy.rs:149-160 | Such attempts exist that end by the stream's success, and by its failure |
| Alone.RetryCanEnd | client/src/backends.rs:397-422 | And such retries |
| Alone.TransferAlone | client/src/proxy.rs:161-176 | Every uninterrupted transfer leaves the backend and the other tasks as they were, its guard given back, and is dropped only under a cancelled token |
| Alone.TransferCanEnd | client/src/backends.rs:482-489 | Such transfers exist that end by themselves, and that are dropped |
| Alone.ResetAlone | client/src/metric.rs:139-154 | Every uninterrupted reset keeps status and protocol, disconnects the client, cancels the old token and leaves a live one |
| Alone.SwitchProtocolAlone | client/src/metric.rs:156-166 | Every uninterrupted switch of protocol flips the protocol, and brings a new disconnected client and a live token if and only if its client builds |
| Alone.SwitchStatusAlone | client/src/metric.rs:108-132 | Every uninterrupted switch of status reopens a ForceClosed backend, with a live token and one task to retry it, and closes any other, with a cancelled token |
| RetryTheorems.RetriesAreBounded | client/src/proxy.rs:195-223 | A retry_forever task makes at most max_retries connection attempts, or 2^32 - 1 when max_retries is 0 |
| Alone.RetriesAreAllMade | client/src/proxy.rs:195-223 | In every uninterrupted run in which each dial that ends fails, it is done, between tries, exactly when it has made that many, and then leaves the backend Closed |
| Alone.RetriesRunOut | client/src/proxy.rs:210-223 | And such a run to its end exists |
| Recovery.RecoveryBreaksIff | client/src/proxy.rs:157-159 | At any interleaving, a step leaves a down backend with no task at work to restore it if and only if it is one of the last such task, which gives up after its last try, or returns because it finds the retrying flag set |
| Recovery.YieldsToSuccess | client/src/backends.rs:390-405 | In the second case some retry has already succeeded, and is preempted between its store of the status and that of the flag |
| Recovery.DownIsBeingRetried | client/src/proxy.rs:157-160 | At any interleaving, a backend has a task at work to restore it whenever it is down, throughout a run, if and only if it is not configured down and the last such task neither gives up nor returns for the flag |
| Renewal.DownStaysIffNoHope | client/src/proxy.rs:195-224 | A reachable down backend stays down in every run in which no administrator asks or toggles anything, at any interleaving and whatever the network answers, if and only if no task can restore it: the exact condition, which is the same at await level |
| Renewal.DownStaysIffHopeless | client/src/backends.rs:436-449 | The exact condition with a network that answers no wait within the poll that would drop it, for live and cancelled tokens, at any interleaving and at await level |
| Scenarios.GivenUpIsAbandoned | client/src/proxy.rs:210-223 | A reachable Closed backend, every retry task of which has given up: every task is done, and no event but an administrator's request is possible |
| Scenarios.YieldedIsAbandoned | client/src/backends.rs:390-405 | For every max_retries, a reachable state in which the last retry task at work, with all of its tries left, finds the flag of a retry that has stored Normal before another attempt failed; and the two steps after which the backend is Closed, its token live, every task done, and no event but an administrator's request possible |
| ClientHistory.SharedClientRefines | client/src/backends.rs:427-452 | At any interleaving of the tasks, what an observer of a client sees is a legal history of one client, which leads to the state of that client |
| ClientHistory.StreamsAsSeen | client/src/connector.rs:381-391 | A task comes to wait for a stream exactly when its client was just seen unfinished and started one |
| ClientHistory.DialsAsSeen | client/src/connector.rs:378-400 | A step shows a dial of a client if and only if its task was dialing that client, and a rejection if and only if its task found that client poisoned |
| ClientHistory.MutexExcludes | client/src/connector.rs:348-376 | While a task dials a client no other task is seen by that client: resets and attempts wait for its mutex |
| ClientHistory.NoConcurrentRedial | client/src/connector.rs:392-396 | At any interleaving a failed dial of a client is followed by no dial of it until it is reset |
| Lifecycle.LockInvStep | client/src/backends.rs:379-536 | Every step, preempted or not, keeps the invariant of readers, writer, client mutex, tokens and clients |
| Backends.Backend.RetryBegin | client/src/backends.rs:379-394 | The start of retry_connect: goes on, and sets the flag, exactly for a Closed or Unknown backend that is not retrying |
| Backends.Backend.RetryFinish | client/src/backends.rs:399-422 | The end of retry_connect: status, flag and whether to continue |
| Backends.Backend.SwitchProtocol | client/src/backends.rs:351-364 | Flips the configured protocol, and when the client builds replaces client and token, clears the flag and tells the metric the protocol |
| Backends.Backend.RenewCancellationToken | client/src/backends.rs:531-536 | Replaces the token and clears the flag |
| Backends.Backend.Toggle | client/src/metric.rs:114-132 | ForceClosed becomes Unknown, any other status ForceClosed |
| Backends.Backend.constructor | client/src/backends.rs:329-348 | A backend starts with the configured status, a live token, a client that is not connected, and no retry |
| Backends.Backend.ResetClient | client/src/backends.rs:370-373 | Disconnects the current client and no other, and resets the metric once |
| Backends.Backend.SetStatus | client/src/backends.rs:375-377 | Replaces the status and nothing else |
| Connector.Client.NewStreamFut | client/src/connector.rs:370-403 | The call's observations are those the network's answers call for, the state follows them, and the call ends when dead-on-arrival connections are finitely many |
| Connector.Client.ResetClient | client/src/connector.rs:348-365 | Leaves the client disconnected, from any state |
| Connector.Client.constructor | client/src/connector.rs:341-346 | A client starts disconnected |
| Connector.DialsPerCall | client/src/connector.rs:376-402 | One call dials at most once more than it sees connections finished |
| Connector.NoRedialBeforeReset | client/src/connector.rs:392-396 | In every history a failed dial is followed by no dial until a reset |
| Connector.StreamsOnlyOnLiveConnection | client/src/connector.rs:381-391 | In every history a stream starts only right after the connection was seen unfinished, on a dialed connection that nothing has ended |
| Connector.FinishedEndsConnection | client/src/connector.rs:385-388 | In every history a connection found finished is one that was dialed before and that nothing has ended since |
| Connector.RejectedIffPoisoned | client/src/connector.rs:378-380 | In every history, what is not a reset is a rejection if and only if a dial has failed since the last reset |
| Config.HandsOutNormal | client/src/config.rs:192-227 | Only a Normal backend is handed out, the named one if a rule names one; when a connection is blocked or sent directly |
| Config.DirectIffAsked | client/src/config.rs:209-211 | For every rule table and peer the decision is a direct connection if and only if the peer's section asks for one |
| Config.NamedIffNormal | client/src/config.rs:195-208 | Where the section names a backend, the peer gets the first of that name if and only if it is Normal, and is blocked otherwise |
| Config.OthersAreBalanced | client/src/config.rs:192-227 | Every other peer gets what a peer without a rule gets, and is never blocked |
| Config.BalancedFindsNormal | client/src/config.rs:214-226 | A balanced connection gets no backend if and only if none is Normal, or there are several and the balancer picks none |
| Config.AvailableInOrder | client/src/config.rs:175-186 | The available backends keep the configured order |
| Config.AvailableBackends | client/src/config.rs:175-186 | A backend is available if and only if its status is Normal |
| Config.RoundRobinSpreads | client/src/config.rs:214-226 | Of any n consecutive balanced connections while the same n backends are up, each of these gets exactly one and no other backend any |
| Config.FilteredRulesDecideTheSame | client/src/config.rs:84-112 | With the filtered rule table, or none, every peer gets the decision that it gets with the original |
| Failover.HandleConnection | client/src/proxy.rs:123-160 | The loop ends, after at most (backends) + (transitions to Normal during the run) failed attempts, with the outcome of its last pick; a direct route ends it with no attempt; and a balanced one that no other task disturbs ends without a backend exactly when as many attempts have failed as backends were Normal |
| Failover.ClosesOnlyTried | client/src/proxy.rs:157-159 | After a failed turn the backend that was tried is Closed, and every other has the status that the other tasks gave it last |
| Failover.TriesEveryNormal | client/src/proxy.rs:123-160 | A balanced connection that no other task disturbs tries each backend that was Normal once and no other, until one connects or all have failed |
| Failover.DirectPeersTryNothing | client/src/proxy.rs:134-137 | A connection is sent directly if and only if its peer's section asks for that, and then with no attempt made |
| Failover.NamedPeersTryOnce | client/src/proxy.rs:127-129 | An undisturbed connection whose section names a backend tries that one at most once, and is blocked when it has failed or was not Normal |
| Failover.FailuresBounded | client/src/proxy.rs:157-160 | After n failed turns, n plus the Normal backends is at most the backends plus the recoveries, under arbitrary concurrent changes |
| Failover.TriedAgainOnlyIfRestored | client/src/proxy.rs:149-159 | A backend is tried again after a failure only if another task restored it in between |
| Metric.MetricWriter.Append | client/src/metric.rs:388-391 | Appending in the middle of a batch changes nothing that a reader sees |
| Metric.MetricWriter.Publish | client/src/metric.rs:378-426 | Publishing a batch makes the readers' copy, average included, that of all whole batches in order, each operation at the time on the copy's own clock |
| Metric.MetricWriter.Shows | client/src/metric.rs:327-335 | In every snapshot the counters are the fold of the whole batches, and the average is over the connection times of the finished transfers, all of them and no other, resets or not |
| Metric.MetricWriter.GetPeakEwma | client/src/metric.rs:509-514 | The balancer reads the cost of that average for the active connections |
| Metric.MetricWriter.IncrConnection | client/src/metric.rs:388-392 | Publishes the opening of a connection as one batch |
| Metric.MetricWriter.Summarize | client/src/metric.rs:410-427 | Publishes the end of a transfer as one batch |
| Metric.MetricWriter.AddFailure | client/src/metric.rs:429-434 | Publishes the failure of a transfer as one batch |
| Metric.MetricWriter.SetProtocol | client/src/metric.rs:394-397 | Publishes a change of protocol as one batch |
| Metric.MetricWriter.SetStatus | client/src/metric.rs:399-402 | Publishes a change of status as one batch |
| Metric.MetricWriter.Clear | client/src/metric.rs:404-407 | Publishes a reset as one batch |
| MetricTheorems.SnapshotsConserve | client/src/metric.rs:318-376 | When each close follows its own open since the last reset, in every snapshot the peers' counters sum to the active connections, each counts its own, and none is zero |
| MetricTheorems.ConservedIffWellFormed | client/src/metric.rs:318-376 | Every snapshot of a run conserves connections, with no zero entry, if and only if each close follows its own open since the last reset and fewer than 2^32 connections are ever open at once |
| MetricTheorems.MidBatchUnbalanced | client/src/metric.rs:388-392 | In the middle of that batch the sum is wrong |
| MetricTheorems.LateOpenLeaks | client/src/proxy.rs:165-175 | An open that lands after its own close leaves a peer counted with no active connection |
| MetricTheorems.ActiveIsNet | client/src/metric.rs:319-353 | For every order of calls active_connections is opens minus closes since the last reset, modulo 2^32 |
| MetricTheorems.StatusIsLastSet | client/src/metric.rs:348-373 | A reader sees the status set last, and the failures since the last reset modulo 2^32 |
| MetricTheorems.TransferIsLastFinished | client/src/metric.rs:327-374 | A reader sees the protocol set last, and the times and bytes of the transfer that finished last, resets or not |
| MetricTheorems.AverageCoversShown | client/src/metric.rs:333-335 | The average in a snapshot is never below the connection time in it, nor above the first estimate and all connection times |
| MetricTheorems.CostCountsOpen | client/src/metric.rs:509-514 | When each close follows its own open, the cost that the balancer reads is the decayed average for each open connection and one more, but for 2^32 - 1 of them |
| MetricTheorems.TotalNeverFalls | client/src/metric.rs:340-346 | Byte totals never decrease or wrap, resets included |
| MetricTheorems.TotalIsTrueSum | client/src/metric.rs:327-347 | A byte total is the true sum if and only if that fits in 64 bits, and otherwise is within the largest transfer of the maximum |
| MetricTheorems.TotalCountsWhole | client/src/metric.rs:340-346 | A byte total counts each transfer whole or not at all, and leaves out exactly those that would have made it overflow |
| PeakEwma.PeakEWMA.Observe | lib/src/metric.rs:119-133 | The estimate jumps to a higher sample and else decays towards it |
| PeakEwma.PeakEWMA.constructor | lib/src/metric.rs:107-117 | The first estimate is 50 ms |
| PeakEwma.PeakEWMA.Get | lib/src/metric.rs:135-140 | Answers the decayed cost, and changes nothing |
| PeakEwma.PeakEWMA.GetMut | lib/src/metric.rs:142-148 | Observes a zero sample, and answers the cost of the new estimate |
| PeakEwma.ObserveBetween | lib/src/metric.rs:119-133 | After a sample the estimate is between the sample and the larger of it and the old estimate |
| PeakEwma.ExcessDecays | lib/src/metric.rs:123-130 | A higher sample is taken at once; over a lower one the excess decays as an idle estimate does, by the factor of the elapsed time, and not at all when the clock has not advanced |
| PeakEwma.EqualSamplesCompose | lib/src/metric.rs:119-133 | Repeated samples of one value leave the excess over it that one idle decay over the whole time leaves |
| PeakEwma.RunBetween | lib/src/metric.rs:107-133 | Over any run it is never below the latest sample nor above the largest of the initial value and all samples |
| PeakEwma.GetIsGetMut | lib/src/metric.rs:135-148 | get and get_mut answer the same at the same time if and only if the estimate is not negative or its factor is zero |
| PeakEwma.IdleStepsCompose | lib/src/metric.rs:142-148 | Decaying in two idle steps is decaying once |
| PeakEwma.CostIsPerConnection | lib/src/metric.rs:135-148 | The cost is the decayed estimate for each active connection and one more, except at the largest 32-bit count, where it is zero |
| Balance.LeastLoadedTime | client/src/balance.rs:67-89 | Returns the leftmost backend of minimal sampled cost, and none only for an empty list |
| Balance.LeastIsPerConnection | client/src/balance.rs:73-86 | The chosen backend has the least decayed average for each active connection and one more; of equal averages it has the fewest connections |
| Balance.ChoiceIsStable | client/src/balance.rs:73-86 | With costs sampled at one instant the choice does not change as time passes without events |
| Balance.RoundRobin.NextAvailableBackend | client/src/balance.rs:48-54 | Yields the stored index if it is in the list, and advances it |
| Balance.RoundRobin.constructor | client/src/balance.rs:38-42 | The first index is 0 |
| Balance.RoundRobinFair | client/src/balance.rs:46-55 | Any n consecutive hits yield each of n items exactly once, and counts after k calls differ by at most one |
| Balance.MissesOnlyAfterShrinking | client/src/balance.rs:46-55 | Over changing non-empty lists a call misses only if the list shrank, and the next call on a list no shorter hits |
| Balance.UriHash | client/src/balance.rs:102-121 | Ends within two probes, in range, at the list position that is the ring's backend id, or the next one wrapped when the list is too short for it; reaches the fallback only for an empty ring |
| Balance.BeyondSpreads | client/src/balance.rs:108-116 | Ring ids beyond the list lead on from one to the next, wrapped, so that any n in a row lead to each of n positions once |
| Config.RingGetsOwnBackend | client/src/config.rs:214-226 | With the hash ring a balanced connection gets the ring's own backend if and only if that is up and is the only one, or the number of backends up before it is the position probed; for an id within the list that is when every backend up to it is up |
| Config.RingChoosesWhenAllUp | client/src/config.rs:245-251 | With every backend up it gets the ring's own backend |
| Tunnel.Tunnel.Poll | lib/src/proxy_client/tunnel.rs:59-105 | One poll carries the handshake on by the answers it uses, up to a pending one or the end |
| Tunnel.Tunnel.constructor | lib/src/proxy_client/tunnel.rs:24-54 | A handshake starts by writing the request |
| ConnectRequest.RequestNamesHost | lib/src/proxy_client/tunnel.rs:48-54 | A recipient reads the host back from the target and from the Host field if and only if it holds no space, CR or LF |
| ConnectRequest.RequestIsConnect | lib/src/proxy_client/tunnel.rs:48-50 | For such a host the request is read as a CONNECT of HTTP/1.1 with the one field Host, and ends with its header |
| Tunnel.AfterAppends | lib/src/proxy_client/tunnel.rs:59-105 | Successive polls are one run over the joined schedule |
| Tunnel.RequestWrittenOnce | lib/src/proxy_client/tunnel.rs:48-77 | For every schedule what is written is a prefix of the request, and all of it before anything is read |
| Tunnel.OverStays | lib/src/proxy_client/tunnel.rs:75-100 | Once the handshake is over nothing more is written or read |
| Tunnel.ErrorIffCaused | lib/src/proxy_client/tunnel.rs:68-84 | It ends with a stream error, a write EOF or a read EOF if and only if an answer that found it undecided was a failure, took nothing, or had nothing to deliver |
| Tunnel.CutShortIsEof | lib/src/proxy_client/tunnel.rs:81-84 | A reply no part of which decides is reported as a read EOF, under every schedule with enough progress |
| Tunnel.GoodReplyOpens | lib/src/proxy_client/tunnel.rs:78-104 | However a 200 header block whose only end is its end is split, the handshake never fails and opens having consumed exactly it, after at most as many productive answers as there are bytes |
| Tunnel.EstablishedIsGood | lib/src/proxy_client/tunnel.rs:88-91 | A 200 status line of HTTP/1.1 or HTTP/1.0, with any reason that holds no LF and no fields, is such a reply |
| Tunnel.OpensIffGoodReply | lib/src/proxy_client/tunnel.rs:78-104 | A reply opens the tunnel and is consumed exactly under every schedule with enough progress if and only if it is a 200 header block whose only end is its end |
| Tunnel.RejectedByFirst12 | lib/src/proxy_client/tunnel.rs:86-99 | The reply is rejected if and only if more than 12 bytes have arrived and the first 12 are not a 200 status, and is reported by its first 16 bytes or what there is |
| Tunnel.OpenedAfterHeader | lib/src/proxy_client/tunnel.rs:88-91 | A success has consumed a 200 header that ends in an empty line, after the whole request |
| ConnectHead.NewConnectHeadBuf | lib/src/proxy.rs:45-61 | The frame of a host: its length modulo 2^16, high byte first, and the host, which the sender reads back |
| ConnectHead.ReadHead | lib/src/proxy.rs:17-26 | What the server connects to and passes on, for the bytes that its read delivers |
| ConnectHead.HeadRoundTrip | lib/src/proxy.rs:13-61 | The server recovers host and payload if and only if the read delivers the whole host, which is possible if and only if the host has at most 65535 bytes |
| ConnectHead.EmptyHostTakesPayload | lib/src/proxy.rs:17-22 | After an empty host the server takes up to 64 bytes of the payload for it |
| ConnectHead.RequestedHostArrives | client/src/metric.rs:243-260 | The host that a rule asks for, a name and a port, reaches the server whole, and parses there as the rewrite or the peer's own name, with the peer's port |
| PeerInfo.LastColon | client/src/metric.rs:295-304 | The position found is a colon with none after it, and nothing is found only in a host without one |
| PeerInfo.PortWhenUnsaid | client/src/metric.rs:211-229 | A host without a colon is asked for at port 80, and any other as it stands |
| PeerInfo.ValidHostRoundTrip | client/src/metric.rs:201-229 | Re-parsing the printed host gives the same name, port and print |
| PeerInfo.RewriteRoundTrip | client/src/metric.rs:243-260 | Re-parsing a rewritten host gives the rewrite, colons and all, and the original port |
| PeerInfo.HostRuler.Filter | client/src/config.rs:84-100 | Keeps the sections that ask for something, and no table when none does |
| PeerInfo.HostRuler.FindRule | client/src/config.rs:102-112 | Sets the rule of a peer from its name |
| PeerInfo.PeerInfo.constructor | client/src/metric.rs:190-199 | A peer starts with its host and no rule looked up |
| PeerInfo.InertSectionsUnobservable | client/src/config.rs:84-112 | With the filtered table, or none, host and route are what they are with the original |
| PeerInfo.SectionUnobservableIff | client/src/config.rs:89-91 | A section could go unobserved by every peer if and only if it asks for nothing, or only rewrites its name to itself |
| PeerInfo.KeptIffObserved | client/src/config.rs:87-93 | The filter keeps exactly the sections that some peer can observe, and those that rewrite a name to itself |
| PeerInfo.NoSectionNoChange | client/src/config.rs:107-111 | A peer without a ruler, or without a section in it, keeps its host and is balanced; only without a ruler is it left as not looked up |
| PeerInfo.FindRuleIdempotent | client/src/config.rs:102-112 | Finding the rule twice is finding it once, and a peer known to have none is not looked up again |

## Left out

- TLS, certificates, sockets, hyper, quinn and axum: a dial, a stream, a copy and a read are events or parameters with any outcome.
- The queueing of the reader/writer lock and of the client's mutex: any waiting task may be next; fairness and starvation are not modelled. `Progress.ReaderOrMutexHolderGoes` holds for every order.
- Preemption where it leads to nothing new: after the load of the status at the end of a failed retry (client/src/backends.rs:410), which decides only whether Closed is stored over Closed; and between the store of Closed and the spawn of its retry (client/src/proxy.rs:158-159), for the attempt does nothing in between, and the retry is counted from the store on.
- Backends: counts the resets of the metric, and has the protocol that it was told; the counters that a reset clears are modelled in `Metric`, for which it is the call `Cleared`.
- The left-right library: only two copies, the log, and publishing as catch-up and swap; its first-publish shortcut and its wait for readers are not modelled.
- MetricTheorems.SnapshotsConserve: states fewer than 2^32 connections open at once, because the 32-bit counters of a release build wrap beyond that; `MetricTheorems.ConservedIffWellFormed` shows the bound to be exact.
- IEEE floating point: the average and the costs are reals, and the decay is any function with the laws of an exponential.
- The hash ring and the random choice: the ring's answer is a parameter, and random and first choice would add only easy members.
- PeerInfo and ConnectHead work on bytes; the check that they are UTF-8, and decoding errors, are not modelled.
- ConnectHead.HeadRoundTrip: takes the room for the server's read to be exactly the announced length, because that is what an allocation of that capacity gives; a shorter frame than two bytes is an error of the read before it.
- Lifecycle.Step: models the asynchronous functions on values, as steps between awaits, because other tasks run between them; `Backends.Backend` has the code of the steps in place.
- Failover.HandleConnection: takes the other tasks' changes of status and the outcome of each attempt as parameters, and stops at the connection; the transfer is part of `Lifecycle`.
- Connector.Client.NewStreamFut: is given a bound on the dead-on-arrival connections, without which the loop need not end.
- The client's QUIC write and read loop, the direct connection, requests other than CONNECT, configuration files, the TUI and the certificate tools.
