# Nstance in Dafny

Nstance keeps groups of virtual machines at their size across zone shards, puts whole
clusters to sleep, supervises leased tunnels and proxies traffic that wakes them. This
project models the parts of it whose correctness is hardest to see and proves what they
promise:

- **The all-shard sleep transaction** (`SleepMachine`, `SleepSafety`, `SleepCompensation`,
  `SleepRetries`, `SleepStory`, `SleepReconciler`, `SleepSchedule`). A machine of atomic steps with
  crashes, lost replies and shards acting on their own; invariants over every run; what one
  reconcile does, told from outside; and the controller itself as methods whose ghost trace is
  a run of that machine.
- **The leased tunnel supervisor** (`TunnelMachine`, `TunnelSafety`, `TunnelTheorems`,
  `TunnelEffects`, `TunnelRecords`, `TunnelService`). A machine of critical sections with a log
  of what happened; theorems about the log of every interleaving; and the mutex-protected
  records as a class that refines the machine section by section, inherits the theorems, and
  says of each section what it does to records, timers and log.
- **Revocation of a tunnel Pod** (`TunnelNode`, `TunnelRuntime`) against a kubelet that
  moves at will between any two operations.
- **Proxy routing** (`HostPort`, `ProxyDerivation`, `ProxyRouting`, `ProxyServer`,
  `ProxyTheorems`): derivation of listeners, routing tables, and swapping them in place.
- **Group overlays and subnet exclusivity** (`ShardConfig`, `Groups`, `Subnets`).
- **Replica distribution and the group cache** (`Replicas`, `SyncCache`), **names**
  (`Identifiers`), **TOPSIS** (`Topsis`) and **file patches** (`ReceiverDisk`, `Receiver`).

`Common` and `Strings` hold shared vocabulary and sorting. `dafny verify dfyconfig.toml`
checks everything.

## Assumptions about the environment

- Sleep: annotations are read and written linearizably, one reconcile runs at a time, a
  call has no effect after it returned, the shard configuration is fixed and connections
  are configured shards. Users edit the request only while no transaction is recorded and
  no reconcile is at work; `EditOrphansWhatSlept` and `EditDuringReconcileOrphans` show
  what happens otherwise. `mayCrash` only says whether a call may be the controller's last;
  a crash around a patch is a patch whose outcome nobody saw.
- Tunnels: each section under the mutex is atomic. Only `NoRunOutlivesItsLease` needs
  timers to fire when due. Generations of one Pod name are numbered in the order drawn,
  where the program draws random UIDs.
- Kubelet: a Pod's sandbox is created only once the workers of all older Pods of its name
  have retired, and only a Pod's own worker brings its sandboxes and containers to life.
- Proxy: parsing and printing of addresses is an arbitrary function; which ports the
  operating system grants is a parameter of each call.
- TOPSIS: exact reals; the square root is any function with `r >= 0` and `r * r == x`. The
  running maximum starts at the first row, where the program starts at minus infinity.
- File patches: a rename is atomic and directories are on one file system. `GoodName` is
  the name test of a system that separates paths with a slash.

## Findings

The model follows the code where the code and what is written about it differ.

- An update of a dynamic group is documented to merge all fields that are set
  (`internal/server/config/groups.go:203`); drain timeout and load balancers are not
  (`DrainTimeoutLost`). `UpdateShowsUnlessExtras` gives the exact condition.
- Exclusive subnet routing for NAT tenants is not enforced for a tenant whose name is empty
  (`NamelessTenantShares`); tenant names are validated elsewhere, and then it is
  (`AcceptedIsExclusive`).
- Frontend addresses that differ only in spelling pass the derivation of listeners and
  cannot be loaded (`TwoSpellingsDoNotLoad`); `DerivedIsLoadable` gives the exact condition.
- A request edited in the middle of a transaction leaves shards asleep that nobody wakes
  (`EditOrphansWhatSlept`, `EditDuringReconcileOrphans`).
- A negative number of replicas is not conserved unless the shards divide it
  (`Conservation`).
- The wake lead has no influence on whether a CronJob keeps a cluster awake
  (`DueWithinLookAhead`).

## Model

| member | source | states |
|---|---|---|
| SleepSafety.StepKeepsInv | internal/operator/controller/sleep_controller.go:83-220 | every step of the controller, the shards and the users, and a crash at any point, keeps the saga invariant: the record on the Cluster names what the request put to sleep, forward progress names exactly the shards called and affirmed |
| SleepSafety.RunKeepsInv | internal/operator/controller/sleep_controller.go:83-220 | the invariant holds after every run of such steps in which edits of the request keep the rule |
| SleepSafety.WriteAheadSafety | internal/operator/controller/sleep_controller.go:163-218 | in every reachable state a shard asleep because of the current request is durably accepted, or the record is finalizing and names it as final shard |
| SleepSafety.NoOrphanedSleep | internal/operator/controller/sleep_controller.go:133-146 | whenever the request is cleared, by rejection or finished compensation, no shard is still asleep because of it; a cleared request leaves no progress record |
| SleepSafety.OneCallEachCoordinatorLast | internal/operator/controller/sleep_controller.go:157-217 | over any run each shard gets at most one SleepTenant call per request, and the last shard is called only after every other connected shard affirmed |
| SleepSafety.EditOrphansWhatSlept | internal/operator/controller/sleep_controller.go:117-120 | editing the request of a recorded transaction orphans exactly the shards it put to sleep, so the edit is harmless if and only if there are none |
| SleepSafety.EditDuringReconcileOrphans | internal/operator/controller/sleep_controller.go:117-120 | an edit while a reconcile of the old request is under way orphans the shard called next, though nothing was recorded at the edit |
| SleepCompensation.RetryNeverGrows | internal/operator/controller/sleep_controller.go:395-430 | across retries, crashes and lost replies the accepted shards of a compensating transaction are some of those it started with, in order, until it is cleared |
| SleepCompensation.CompensationOnlyShrinks | internal/operator/controller/sleep_controller.go:395-430 | once compensation is recorded, at any later time it is cleared or some of its accepted shards are left, in order |
| SleepRetries.KeptExactly | internal/operator/controller/sleep_controller.go:397-415 | the filter keeps exactly the shards whose wake was not confirmed, in order; it shortens the list if and only if one was confirmed and empties it if and only if all were |
| SleepRetries.WakesLeaveUnconfirmed | internal/operator/controller/sleep_controller.go:399-415 | whatever the shards answer, connected or not, with or without effect, and whatever they do meanwhile, the wake calls leave exactly the unconfirmed shards |
| SleepRetries.RetryLeaves | internal/operator/controller/sleep_controller.go:395-430 | a retry whose last patch takes effect leaves the unconfirmed shards on record, or clears the request if there are none |
| SleepRetries.RetryPossible | internal/operator/controller/sleep_controller.go:395-430 | from any recorded compensation, for any answers shards can give, a retry can run to its end and wakes exactly the shards the calls had an effect on |
| SleepRetries.CompensationCompletes | internal/operator/controller/sleep_controller.go:395-430 | if every accepted shard confirms, one retry clears the request, orphans none and leaves exactly those shards awake |
| SleepRetries.RetryShrinks | internal/operator/controller/sleep_controller.go:395-430 | a recorded retry with a confirmation, interleaved with anything the shards do, clears the request or leaves strictly fewer shards |
| SleepRetries.RetriesClear | internal/operator/controller/sleep_controller.go:395-430 | whatever attempts crash, fail to store or go unanswered in between, as many effective retries as there are shards left clear the request |
| SleepCompensation.ForwardCompletes | internal/operator/controller/sleep_controller.go:163-219 | if every shard affirms, a fresh transaction ends in the finalizing checkpoint with the coordinating shard final, the others accepted in order, and all of them asleep |
| SleepReconciler.OrderedShards | internal/operator/controller/sleep_controller.go:553-565 | every connected shard once, sorted, the coordinating shard last if connected |
| SleepReconciler.AllAsleep | internal/operator/controller/sleep_controller.go:470-483 | tells whether all connected configured shards are asleep; gives no answer exactly when connections are missing altogether or a status read fails |
| SleepReconciler.Reconciler.Reconcile | internal/operator/controller/sleep_controller.go:83-220 | one reconcile is a complete disciplined run of the machine that begins by deciding on the cluster as read; unless it crashes, what it writes and whom it calls is the story of what it was told, and the annotations are what those writes leave; the safety properties hold afterwards |
| SleepStory.ReconcileTells | internal/operator/controller/sleep_controller.go:83-220 | every uninterrupted reconcile, whatever shards do meanwhile, does exactly this: asks an idle eligible cluster to sleep, removes a malformed request, wakes all configured shards once one of a sleeping cluster is seen awake, goes on with a recorded compensation, undoes or removes a request neither forced nor eligible, and else puts shards to sleep in order, each after the record that says what to undo and before the record of progress or the compensation its answer calls for |
| SleepStory.DeedsLeave | internal/operator/controller/sleep_controller.go:433-452 | over any run without edits the annotations are what the writes that took effect leave |
| SleepStory.CallsNobody | internal/operator/controller/sleep_controller.go:127-146 | no shard is put to sleep for a request that is neither forced nor eligible, or that is past going forward |
| SleepStory.RestoreWakesAll | internal/operator/controller/sleep_controller.go:465-501 | a finalizing record with a shard seen awake: the record to wake every configured shard is written first; if all goes well each shard confirms and the request is gone |
| SleepStory.RestoreCompletes | internal/operator/controller/sleep_controller.go:465-501 | there is such a run, and it leaves no configured shard asleep, none orphaned and the request cleared |
| SleepStory.UndoesAll | internal/operator/controller/sleep_controller.go:395-430 | a compensation that reaches every accepted shard and finds it awake removes the request |
| SleepReconciler.Reconciler.SleepShard | internal/operator/controller/sleep_controller.go:163-218 | one turn of the shard loop: checkpoint, call, and forward record or compensation |
| SleepReconciler.Reconciler.SleepShards | internal/operator/controller/sleep_controller.go:157-219 | the whole shard loop takes the machine from the loop head to idle |
| SleepReconciler.Reconciler.Sleep | internal/operator/controller/sleep_controller.go:127-219 | guards and shard loop of the forward transaction follow the machine, over the connected shards sorted with the coordinating one last |
| SleepReconciler.Reconciler.WakeEach | internal/operator/controller/sleep_controller.go:397-415 | filtering the accepted list in its own storage while walking it gives what the machine collects |
| SleepReconciler.Reconciler.WakeAccepted | internal/operator/controller/sleep_controller.go:395-415 | the filter returns exactly the shards whose wake was not confirmed by the answers heard, in order |
| SleepReconciler.Reconciler.Compensate | internal/operator/controller/sleep_controller.go:395-430 | wakes, then stores the remainder or clears, as the machine does |
| SleepReconciler.Reconciler.RestoreAfterWake | internal/operator/controller/sleep_controller.go:465-501 | changes nothing while all connected shards sleep or a read fails; otherwise the first thing it does is to record all configured shards, sorted, as to be woken; if all goes well and all are reachable, each confirms that it is awake and both annotations are gone |
| SleepReconciler.Reconciler.StoreProgress | internal/operator/controller/sleep_controller.go:433-444 | a reported success means the record is stored; a failure may or may not have stored it |
| SleepReconciler.Reconciler.Finish | internal/operator/controller/sleep_controller.go:447-452 | a reported success means both annotations are gone |
| SleepReconciler.Reconciler.Reject | internal/operator/controller/sleep_controller.go:455-461 | a malformed request or record is cleared as the machine allows |
| SleepReconciler.Reconciler.RequestSleep | internal/operator/controller/sleep_controller.go:95-112 | nothing changes unless connected and eligible; then an automatic request is patched |
| SleepReconciler.Reconciler.SafeNow | internal/operator/controller/sleep_controller.go:163-218 | the safety properties hold of the durable state between any two external operations of the program |
| SleepSchedule.NextWake | internal/operator/controller/sleep_controller.go:362-392 | the earliest enabled CronJob run less the lead; fails exactly when an enabled job cannot be evaluated |
| SleepSchedule.DueWithinLookAhead | internal/operator/controller/sleep_controller.go:309-315 | sleep is refused exactly when an enabled job runs within the look-ahead window; the wake lead cancels out |
| TunnelSafety.StepKeepsInv | internal/tunnel/service.go:184-355 | every critical section of control session, runner, timer, finisher and shutdown keeps the supervisor invariant and extends the log only by events its past allows |
| TunnelTheorems.RunsDoNotOverlap | internal/tunnel/service.go:184-242 | in every interleaving an earlier run of a name has finished before a later one starts |
| TunnelTheorems.OneUnfinishedRun | internal/tunnel/service.go:184-242 | at most one run per name is unfinished, and it is the one the supervisor owns |
| TunnelTheorems.StoppedMeansDrained | internal/tunnel/service.go:308-321 | STOPPED is emitted only when every run of that name started before has finished |
| TunnelTheorems.ReadyMeansHealthy | internal/tunnel/service.go:346-355 | READY is emitted only after a run reported healthy with no stop of the name since and no stop of that run before |
| TunnelTheorems.FencedNamesStayDown | internal/tunnel/service.go:257-264 | after a failed drain no run of that name ever starts, after shutdown began none at all |
| TunnelTheorems.ShutdownDrainsAll | internal/tunnel/service.go:324-343 | when shutdown has waited for its runs, no run of any tunnel is executing |
| TunnelTheorems.QuietForever | internal/tunnel/service.go:324-343 | after that, whatever timers and finishers still do, nothing runs and nothing starts |
| TunnelTheorems.LeaseIsArmed | internal/tunnel/service.go:201-242 | a run that is neither cancelled nor drain-failed has a timer of its present generation, due when the latest granted lease ends |
| TunnelTheorems.NoRunOutlivesItsLease | internal/tunnel/service.go:278-292 | if timers fire when due, no uncancelled run outlives the expiry of the latest RUNNING request |
| TunnelTheorems.NoTimerStopsARenewedLease | internal/tunnel/service.go:278-292 | a timer stops a live run only once the latest lease has ended; a stale one changes no run |
| TunnelService.Service.Apply | internal/tunnel/service.go:184-229 | takes the machine step on the records; refuses exactly invalid requests and names with a failed drain |
| TunnelService.Service.RenewCurrent | internal/tunnel/service.go:206-220 | renews or revokes the current run in place as the machine does |
| TunnelService.Service.StartLocked | internal/tunnel/service.go:232-242 | registers, announces and leases a new run as the machine does |
| TunnelService.Service.StopLocked | internal/tunnel/service.go:295-305 | cancels, and begins at most one stop of a run, as the machine does |
| TunnelService.Service.TimerFires | internal/tunnel/service.go:278-292 | an elapsed timer stops its run only while current and of that generation |
| TunnelService.Service.FinishStop | internal/tunnel/service.go:308-321 | the finisher takes the machine step on the records |
| TunnelService.Service.SetStatus | internal/tunnel/service.go:346-355 | a draining or replaced run can only report a fatal failure, as in the machine |
| TunnelService.Service.StopAll | internal/tunnel/service.go:324-332 | stops every owned tunnel in whatever order the map gives and remembers which runs to wait for |
| TunnelService.Service.OnRequest | internal/tunnel/service.go:184-229 | a request is a step of the run so far; refused, with no record and no word changed, exactly if invalid or the name has a failed drain; otherwise the owned run gets its revision, its lease and a new generation, RUNNING arms that generation, STOPPED tells the run to end, the status is said under the revision of the request, RUNNING starts an unowned tunnel, STOPPED of one is answered at once |
| TunnelService.Service.OnTimer | internal/tunnel/service.go:278-292 | an elapsed timer is a step of the run so far; it ends the run exactly if that is current and of the timer's generation, and changes nothing else |
| TunnelService.Service.OnFinished | internal/tunnel/service.go:308-321 | a finisher is a step of the run so far; a current run drained without failure is replaced by a new record with its revision and expiry, announced with STARTING and no STOPPED said, exactly if it is wanted and its lease lasts; otherwise its name is free and STOPPED of its revision is all that is said; a former or failed run changes nothing |
| TunnelService.Service.OnShutdown | internal/tunnel/service.go:324-332 | shutdown is a step of the run so far; every owned run is told to end, no longer wanted and awaited, no other record changes, and nothing else is said |
| TunnelService.Service.OnReport | internal/tunnel/service.go:249-256 | a readiness report is a step of the run so far; only the first healthy one of a start counts, it is stored and said only of a current run not being stopped |
| TunnelService.Service.OnReturn | internal/tunnel/service.go:250-267 | the return of the runner is a step of the run so far; a failed drain is noted at once, another error of a cancelled run is no failure |
| TunnelService.Service.OnProceed | internal/tunnel/service.go:257-275 | recording a failure, starting over and ending the goroutine are steps of the run so far; FAILED and STARTING are stored and said of a current run only, and of one being stopped only a failed drain |
| TunnelService.Service.OnWaitEnd | internal/tunnel/service.go:269-271 | the end of the back-off is a step of the run so far; a run starts over exactly if it waited to the end and is still current |
| TunnelRecords.RequestRecords | internal/tunnel/service.go:184-229 | the machine step of a request, told of records, timers and log: which run, which revision, which generation, what is said |
| TunnelRecords.DrainRecords | internal/tunnel/service.go:308-321 | the machine step of a finisher, told of records, timers and log: replaced, released or ignored |
| TunnelRecords.TimerRecords | internal/tunnel/service.go:278-292 | the machine step of a timer, told of records, timers and log |
| TunnelRecords.ShutdownRecords | internal/tunnel/service.go:324-332 | the machine step of shutdown, told of records, finishers and log |
| TunnelEffects.StopsMean | internal/tunnel/service.go:324-332 | stopping the owned tunnels one after the other tells each to end once, in whatever order |
| TunnelEffects.ReportMeans | internal/tunnel/service.go:249-256 | READY counts once per start, the loss of readiness always; both only of a current run not being stopped |
| TunnelEffects.FailureMeans | internal/tunnel/service.go:257-268 | FAILED is stored and said of a current run, of one being stopped only for a failed drain; then the run ends or backs off |
| TunnelService.Service.RecordsSafe | internal/tunnel/service.go:184-242 | between sections, of the records: an unfinished run is the owned one and the only one of its name, and a live run has a timer of its generation due when the latest lease ends |
| TunnelService.Service.LogSafe | internal/tunnel/service.go:295-355 | between sections, of the log: runs of a name do not overlap, STOPPED only once drained, READY only of a healthy run not being stopped, no start after a failed drain or shutdown |
| TunnelService.Service.DownMeansDrained | internal/tunnel/service.go:333-342 | once shutdown has waited for the runs it stopped, every record is finished |
| TunnelNode.MoveKeepsInv | internal/tunnel/runtime.go:167-169 | whatever the kubelet does, a sandbox belongs to a generation all of whose predecessors are superseded |
| TunnelNode.AbsenceIsNotRevocation | internal/tunnel/runtime.go:167-169 | finding nothing alive proves nothing: an active worker can recreate the sandbox |
| TunnelNode.GoneForever | internal/tunnel/runtime.go:167-169 | a revoked generation stays dead over every later history in which its own manifest is not published again |
| TunnelRuntime.Classify | internal/tunnel/runtime.go:229-246 | ready, running and stopped mean what the lists say about sandboxes and containers, both directions |
| TunnelRuntime.Host.PodState | internal/tunnel/runtime.go:211-247 | with kubelet moves before each of the two listings: the answer is exactly what the sandboxes at the first and the containers at the second listing say; a ready sandbox proves older generations superseded, a stopped answer about a superseded generation proves it dead |
| TunnelRuntime.Host.Drain | internal/tunnel/runtime.go:170-208 | with the kubelet moving before every operation: success means nothing of the old generation is alive, nothing can revive it, and no manifest is left; it fails only on a failed operation or if none of its polls saw the barrier ready and then the old generation stopped; generations revoked before stay revoked |
| TunnelRuntime.Host.WaitReady | internal/tunnel/runtime.go:296-318 | ready exactly when the last look at this generation saw a running tunnel in a ready sandbox and the probe right after it succeeded, and then no older generation can run any more; otherwise a look failed or none of its polls found that |
| TunnelRuntime.Host.MonitorReady | internal/tunnel/runtime.go:321-341 | returns before its last round only on a failed look, lost readiness or a failed probe, and every earlier round found the tunnel serving; meanwhile nothing superseded comes back |
| TunnelRuntime.Host.Run | internal/tunnel/runtime.go:133-165 | readiness is reported exactly if a look at this generation and the probe after it found it serving, and withdrawn before draining; a run that does not end in a drain failure leaves nothing of its generation alive or revivable and revives none revoked before; a drain failure is a failed operation or a revocation never seen |
| ProxyRouting.BuildTable | internal/proxy/server.go:143-173 | in any map order, accepts exactly when each port has one exclusive listener or only distinct valid frontends, and builds the one table of the configuration |
| ProxyRouting.New | internal/proxy/server.go:116-175 | fails exactly without a waker, without a hold timeout or on a configuration that is not loadable; timeouts not set get their defaults |
| ProxyRouting.TableUnique | internal/proxy/server.go:143-173 | a configuration has at most one table, so the walk order cannot show |
| ProxyRouting.SelectIsOwner | internal/proxy/connection.go:59-74 | a connection is routed to a listener exactly when the listener owns the port, or the port and local address |
| ProxyServer.Server.BindAdded | internal/proxy/server.go:57-71 | binds exactly the new ports; a failed bind closes those bound before, so the open sockets are as they were |
| ProxyServer.Server.SwapCurrent | internal/proxy/server.go:72-83 | drops exactly the ports the candidate lacks, closing their sockets, and changes the routes of the others in place |
| ProxyServer.Server.Install | internal/proxy/server.go:84-89 | adds exactly the newly bound ports, each with its own listeners object |
| ProxyServer.Server.Start | internal/proxy/server.go:178-202 | succeeds exactly when not started yet, the options are good, the configuration loads and every port is granted; a failure changes nothing |
| ProxyServer.Server.Reconcile | internal/proxy/server.go:47-91 | succeeds exactly when started, loadable and bindable; a failure changes no port, route, socket or configuration; surviving ports keep object and socket; open sockets and ports stay in one-to-one step |
| ProxyServer.Server.ServesFreshBuild | internal/proxy/server.go:47-91 | after any sequence of reconciles the served routes are those of a fresh build of the current configuration |
| ProxyDerivation.CollectRefs | internal/server/config/proxy.go:18-33 | fails exactly on an unknown reference; otherwise lists, without repeats, the groups of each tenant that reference each balancer |
| ProxyDerivation.CountGooglePorts | internal/server/config/proxy.go:51-58 | a port counts as shared exactly when two different Google frontends use it |
| ProxyDerivation.AddedFits | internal/server/config/proxy.go:72-104 | the checks made on adding a listener are exactly that it fits every listener added before |
| ProxyDerivation.AddedIsTracked | internal/server/config/proxy.go:72-104 | the tables of ports, selectors and listeners keep describing exactly the items added |
| ProxyDerivation.ProxyConfig | internal/server/config/proxy.go:17-136 | in any map order, succeeds exactly when references are known, each balancer has one tenant, no server port is taken, ports are shared only by Google frontends of different addresses and keys differ; then each target group and tunnel listener has its proxy and target port under balancer and proxy port, each frontend its own port, with its address in key and listener exactly if another frontend uses the port, and there is no other key |
| ProxyDerivation.ItemsAreEntries | internal/server/config/proxy.go:106-131 | what is derived from are the target groups of AWS balancers, the listeners of tunnel balancers and the frontends of Google balancers, and nothing else |
| ProxyDerivation.ReusedIsShared | internal/server/config/proxy.go:51-58 | a port is shared exactly when another frontend, of this or another balancer, uses it |
| ProxyTheorems.SelectorOwnedAlone | internal/server/config/proxy.go:92-97 | two derived listeners on one port have different frontends |
| ProxyTheorems.DerivedIsLoadable | internal/server/config/proxy.go:122-130 | an accepted configuration loads into the proxy if and only if ports are in range and frontends sharing a port have valid addresses that differ once normalized |
| ProxyTheorems.CanonicalLoads | internal/server/config/proxy.go:122-130 | with addresses in normal form and ports in range, everything accepted loads |
| ProxyTheorems.TwoSpellingsDoNotLoad | internal/server/config/proxy.go:122-130 | two spellings of one IPv6 address are accepted and yet do not load |
| ProxyTheorems.KeysDiffer | internal/server/config/proxy.go:100-102 | while no address contains a slash, listeners that do not clash on a port never clash on their identity |
| HostPort.JoinInjective | internal/server/config/proxy.go:93-93 | host and port can be told from the joined selector text |
| HostPort.ItoaValue | internal/server/config/proxy.go:93-93 | the text of a port is its decimal number |
| Topsis.Rank | pkg/topsis/topsis.go:31-69 | fails exactly when the shapes of alternatives, weights and flags disagree; otherwise one score per alternative under its own ID |
| Topsis.Normalize | pkg/topsis/topsis.go:71-97 | every entry over the root of its column's sum of squares, or over one for a zero column |
| Topsis.ApplyWeights | pkg/topsis/topsis.go:99-115 | every entry times its column's weight |
| Topsis.FindIdealSolutions | pkg/topsis/topsis.go:117-142 | the largest and the smallest value of each column, best and worst by its flag |
| Topsis.CalculateScores | pkg/topsis/topsis.go:144-171 | the distance to the worst over the sum of both distances, zero if both are zero |
| Topsis.ScoresInRange | pkg/topsis/topsis.go:144-171 | every score lies in [0, 1] |
| Topsis.BetterNeverScoresLower | pkg/topsis/topsis.go:71-171 | with nonnegative weights an alternative at least as good on every criterion never scores lower, also where both distances vanish |
| Topsis.ScoresUnique | pkg/topsis/topsis.go:31-69 | the input decides the scores |
| Topsis.ScaleInvariance | pkg/topsis/topsis.go:71-97 | scaling one criterion by a positive constant changes no score, also of a zero column |
| Topsis.WeightlessIgnored | pkg/topsis/topsis.go:99-115 | a criterion of weight zero changes no score, whatever it reads |
| Topsis.ScoreEnds | pkg/topsis/topsis.go:144-171 | where best and worst differ, exactly the best row scores 1 and exactly the worst scores 0 |
| Groups.MergeGroups | internal/server/config/groups.go:255-292 | in any map order gives the overlay of dynamic over static groups |
| Groups.MergeGroupConfig | internal/server/config/groups.go:205-235 | a static group takes size, instance type and vars; a dynamic one also template, pool and args; `UpdateKeepsRest` says what readers then see |
| Groups.Loader.UpsertGroup | internal/server/config/groups.go:150-201 | taken exactly by the rules for static, stored and new groups; a refused or unwritten request changes nothing |
| Groups.Loader.DeleteGroup | internal/server/config/groups.go:239-249 | removes the stored group, and with the last one its tenant; deleting what is not stored changes nothing |
| Groups.Loader.GetGroups | internal/server/config/groups.go:48-70 | readers see the overlay of a tenant's groups |
| Groups.StepSeen | internal/server/config/groups.go:150-235 | storing a request and merging shows what applying it to the merged view shows |
| Groups.RunSeen | internal/server/config/groups.go:150-235 | the overlay is a homomorphism over every sequence of upserts and deletes, from any store |
| Groups.StaticFieldsKept | internal/server/config/groups.go:262-285 | after any run a static group is still there with everything but size, instance type and vars as configured |
| Groups.RunKeepsSound | internal/server/config/groups.go:173-195 | after any run every dynamic-only group names a template and an allowed subnet pool |
| Groups.UpdateShowsUnlessExtras | internal/server/config/groups.go:205-235 | a taken update shows in every field it sets if and only if the drain timeout and load balancers it sets are those the group had |
| Groups.UpdateKeepsRest | internal/server/config/groups.go:150-235 | on the readers' view: a taken update leaves every field, every entry of vars and args and every group it does not set as it was and adds no other; a new group starts empty, in its template's pool if it names none |
| Groups.TakenIfSound | internal/server/config/groups.go:161-195 | an update of a dynamic group is taken exactly if it leaves the group with a template and an allowed pool, its own, the former or the template's |
| Groups.StaticTaken | internal/server/config/groups.go:161-172 | an update of a static group is taken exactly if it sets nothing but size, instance type, vars, load balancers or the same template |
| Groups.OneSideSeen | internal/server/config/groups.go:239-292 | groups only one side has are seen as they are; a delete shows the static group again, or none |
| Groups.DrainTimeoutLost | internal/server/config/groups.go:205-235 | a new group that asks for a drain timeout is taken and does not get it |
| Groups.DynamicExtrasDropped | internal/server/config/groups.go:205-235 | of a dynamic group a drain timeout or load balancers are not stored |
| Groups.DeleteUndoesUpsert | internal/server/config/groups.go:239-249 | deleting a group restores every view as it was before the upsert that first stored it |
| Subnets.CheckPools | internal/server/config/subnets.go:63-82 | pools have valid names and subnets and no subnet ID repeats within or across pools, decided in any map order |
| Subnets.CheckReferences | internal/server/config/subnets.go:84-112 | every pool named by the dynamic list, a template or a group exists |
| Subnets.ClaimPools | internal/server/config/subnets.go:117-135 | succeeds exactly when no two NAT tenants use one pool, and tells the owner of each used pool |
| Subnets.CheckOthers | internal/server/config/subnets.go:136-149 | succeeds exactly when no group uses a pool that a named NAT tenant of another name owns |
| Subnets.ValidateSubnetConfig | internal/server/config/subnets.go:57-152 | in any map order, succeeds exactly on the order-free condition |
| Subnets.AcceptedIsExclusive | internal/server/config/subnets.go:145-147 | what is accepted is exclusive unless a NAT tenant with the empty name shares a pool; with valid tenant names it always is |
| Subnets.UsesMeans | internal/server/config/subnets.go:117-135 | a tenant uses a pool through a group other than its NAT group that names it, or names none and has a template that does |
| Subnets.AllowedPools | internal/server/config/subnets.go:28-55 | in an accepted configuration the pools open to outside requests are those listed, or all if none is |
| Subnets.NamelessTenantShares | internal/server/config/subnets.go:145-147 | a configuration with a nameless NAT tenant that is accepted though its pool is shared |
| Replicas.DistributeReplicas | internal/operator/controller/nstancemachinepool_controller.go:475-493 | no sizes for no shards; otherwise one size per shard, for distinct shards by position |
| Replicas.Conservation | internal/operator/controller/nstancemachinepool_controller.go:481-492 | sizes add up to the total if and only if it is not negative or divisible by the number of shards |
| Replicas.Balanced | internal/operator/controller/nstancemachinepool_controller.go:485-491 | sizes differ by at most one, earlier shards never smaller, none negative for a nonnegative total |
| Replicas.OneMoreReplica | internal/operator/controller/nstancemachinepool_controller.go:481-491 | one more replica grows exactly one shard by one |
| Replicas.NegativeTotalLost | internal/operator/controller/nstancemachinepool_controller.go:481-492 | a negative total that is not conserved |
| SyncCache.Refill | internal/operator/sync/manager.go:347-363 | listing over a cache leaves exactly the listing |
| SyncCache.ListingMeans | internal/operator/sync/manager.go:347-363 | a listing holds exactly its keys, each with its last entry |
| SyncCache.Manager.SyncShard | internal/operator/sync/manager.go:328-366 | a listing becomes the shard's whole cache, a failed one changes nothing, other shards are untouched |
| SyncCache.Manager.ApplyGroupEvent | internal/operator/sync/manager.go:295-312 | an upsert event sets its group in its shard, a delete event removes it, and nothing else changes |
| SyncCache.Manager.UpdateShardGroup | internal/operator/sync/manager.go:112-119 | sets one group of one shard and touches nothing else |
| SyncCache.Manager.AggregateGroups | internal/operator/sync/manager.go:451-477 | in any map order, each group is aggregated over exactly the shards that have it: total size, all instances, shards without repeats, static if one says so, settings of the first shard met |
| SyncCache.DistributionComesBack | internal/operator/sync/manager.go:451-477 | sizes spread over distinct shards, cached and aggregated, give the total and the shards back |
| SyncCache.RunComesBack | internal/operator/sync/manager.go:295-366 | whatever listings and events arrive, if each shard's own leave the group with its size, aggregation gives the total and the shards back |
| SyncCache.ListingsComeBack | internal/operator/sync/manager.go:328-366 | listing each shard with the size it was given and aggregating gives the total and the shards back |
| SyncCache.EventsComeBack | internal/operator/sync/manager.go:295-312 | telling each shard its size by an upsert event and aggregating gives the total back |
| SyncCache.ShardsIndependent | internal/operator/sync/manager.go:295-366 | over any run of listings and events a shard's cache is decided by its own alone |
| SyncCache.ListingForgets | internal/operator/sync/manager.go:328-366 | over any run that contains a listing of a shard, what the shard's cache held before the run does not matter |
| Receiver.FileReceiver.ReceiveFiles | internal/agent/receiver/receiver.go:44-107 | refuses exactly bad requests without a trace, rejects patches with faults after reporting them, else leaves everything of the patch on disk; leaves alone files it does not name; makes only steps in the commit order, so a crash leaves a prefix; fails only on an I/O error |
| Receiver.FileReceiver.CheckNames | internal/agent/receiver/receiver.go:51-58 | passes exactly plain visible names other than the marker's |
| Receiver.GoodNameIs | internal/agent/receiver/receiver.go:51-58 | the good names are those that are not blank, not absolute, their own last path element, not hidden and not the marker's |
| Receiver.FileReceiver.Validate | internal/agent/receiver/receiver.go:59-85 | every faulty file, and no other, is reported |
| Receiver.FileReceiver.ReplaceFile | internal/agent/receiver/receiver.go:110-138 | success changes the target in one step and leaves no temporary file |
| ReceiverDisk.CommitOrder | internal/agent/receiver/receiver.go:87-104 | for any sequence of patches, each cut off anywhere: a hash of patch k on disk means every file of patch k is there from patch k or later, and a marker is never newer than the hash |
| ReceiverDisk.NeverOlder | internal/agent/receiver/receiver.go:87-104 | files, hash and marker never go back to an older patch |
| ReceiverDisk.SetFilesStay | internal/agent/receiver/receiver.go:87-91 | a file a patch wrote is ever after from that patch or a later one |
| ReceiverDisk.RejectedChangesNothing | internal/agent/receiver/receiver.go:59-85 | a patch that fails validation changes no received file, hash or marker |
| ReceiverDisk.OthersLeftAlone | internal/agent/receiver/receiver.go:87-97 | however far a patch gets, files it does not name and the errors reported of them stay as they are |
| Identifiers.ValidIsWellSpelled | internal/identifiers/validate.go:12-31 | the pattern and length check accept exactly lowercase alphanumerics and hyphens without leading, trailing or consecutive hyphens, up to 32 characters |
| Identifiers.NameDecodes | api/v1beta1/nstanceshardgroup_types.go:146-148 | splitting a name at its first double hyphen gives back group and shard |
| Identifiers.NameInjective | api/v1beta1/nstanceshardgroup_types.go:146-148 | different pairs of identifiers have different names |
| Identifiers.UnvalidatedNamesClash | api/v1beta1/nstanceshardgroup_types.go:146-148 | without validation two pairs can share a name |

## Left out

- TunnelRuntime.Host.Drain: says what success means, not that it is reached, which depends on the kubelet ever moving.
- TunnelRuntime.Host.WaitReady: polls are bounded by a count instead of a clock; the HTTP probe is any answer, and is recorded.
- TunnelRuntime.Host.MonitorReady: rounds are bounded by a count instead of running until cancellation.
- ProxyServer.Server.Start: takes the configuration, as creating and starting a server are one operation here; accept loops, connection tracking and closing are not modelled.
- Replicas.DistributeReplicas: int32 overflow of the number of shards is not modelled.
- Groups.Loader.UpsertGroup: storage tags, group hashes and the local cache are one answer, written or not.
- The runner goroutine of a tunnel appears as one method per step; its back-off times are not modelled.
- Delivery of statuses: the log records what is handed to delivery, which may drop it.
- The guards of normal sleep other than the CronJob arithmetic are one arbitrary answer; events and reasons are not modelled.
- Cron expressions and time zones: the next run of a job is an arbitrary value.
- The control session, tunnel files, Pod specifications and the clean-up of a restarted supervisor.
- Accept and relay loops of the proxy; only the choice of a listener is modelled.
- The difference between a nil and an empty map of vars or args, which no reader of the overlay can see.
- Content validators of received files, file modes and directory creation beyond success or failure.
- Pausing of reconciliation, Kubernetes resources of machine pools, and statuses of shard groups.
- Provider drivers, storage, election, certificates, health collection and the command-line programs.
- Floating-point rounding in TOPSIS.
