# Dynamic Torque: the controller and its planner

Dynamic Torque keeps a Torque cluster elastic: it reads the job queue, plans how many virtual machines are
missing, starts them in a cloud, adds them to Torque, shuts idle ones down, and keeps a configured number of
static ones alive. This project models its two linked cores and two supporting ones, and proves what they
promise.

* **The VM lifecycle.** `ResourceCenter` moves VMs between `existing_instances`, `starting_instances` and
  `deleting_instances`, keeps a list of waiting requests, a `provisioning` flag, the free nodes of each resource
  and the static VMs still missing at each location. `Lifecycle.dfy` and `Loading.dfy` describe every pass as a
  function on the state, with the answers of the cloud, Torque and Maui as arbitrary arguments.
  `ResourceCenter.dfy` is the object itself: its methods update the lists, the flags, the VMs and the resources
  in place, with the loops and the `remove` calls of the original, and are proved to take exactly the described
  step. `LifecycleInvariant.dfy`, `LifecycleLaws.dfy`, `CleanupLaws.dfy`, `NodeLaws.dfy`, `RunLaws.dfy`,
  `ProgressLaws.dfy`, `CoverageLaws.dfy` and `LoadLaws.dfy` prove what steps, passes and whole runs keep.
  `FateLaws.dfy`, `NodeActionLaws.dfy`, `CollectLaws.dfy`, `CommandLaws.dfy` and `LoadFateLaws.dfy` say, in both
  directions and from the records and answers alone, what happens to which VM. `LoopTraces.dfy` links the loops to
  the descriptions.
* **The capacity planner.** `JobScheduler.dfy` is the greedy bin packer and `JobRequests.dfy` says which jobs it can
  read and what they ask for; `PackingLaws.dfy`, `PlannerLaws.dfy`, `PlanBounds.dfy` and `SpreadBounds.dfy` prove conservation, soundness,
  maximality, bounds on the number of nodes, and when the loop as written fails. `Planning.dfy` runs it on the
  controller's state.
* **The merge join of jobs and priorities** is `Priorities.dfy`; the lists it reads are built in `JobQuery.dfy`.
* **The node file** is `NodeFile.dfy`.

`CloudTools.dfy` holds the records of `cloud_tools.py`, `Sequences.dfy` Python's list operations, `Strings.dfy` its
string operations and `Outcomes.dfy` results and exceptions.

The main results are `Controller.ResourceCenter.Serve` (whatever the pollers and the administrator ask for, in any
order, the object goes through a run), `RunLaws.RunKeeps` (every run keeps the partition of the VMs, strands
nothing while the flag is down, conserves the static VMs of each resource and respects the batch),
`FateLaws.StartEndsExactly`, `FateLaws.CleanupEndsExactly` and `NodeActionLaws.OneRecordDecides` (which VM a pass
starts, gives up, destroys, takes back, shuts down or retires), `CollectLaws.PlansExactlyWhen` (when a plan is made,
and for which jobs in which order), `CoverageLaws.RunUncovers` (how far static requests and starting VMs cover the missing static VMs in every run) with
the run of `CoverageLaws.DeficitIsLost`, `RunLaws.RunPlansExactly`, `Planning.RunPlansFewerThanTwice` and
`Planning.RunPlansFew` (what the planner sees and how much it plans, in every run), `PlannerLaws.PlanIsSound` with
`PlannerLaws.PackedIsDemanded` and `PlannerLaws.EveryPieceIsServed`, `PlanBounds.JobGoesExactly`, `PlanBounds.GreedyIsMaximal` with
`PlanBounds.RefusedAtTheEnd`, `PlanBounds.AsWritten`, `Priorities.MatchPriorities`, `LoadLaws.LoadEstablishes` and
`NodeFile.RoundTrip`.

## What is taken for granted

* The batch holds at least one VM, the iteration order of the dictionary of resources lists exactly its keys (once
  each, at loading), every location of a static requirement has a zone, and the default zone is the zone of some
  location (`dynamic_torque.conf:166` calls the list of locations mandatory). For planning, every resource has
  flavors and there is a resource called `default`.
* Each pass is one step. Lines 364 and 392 of `res_management.py` write the flag outside the lock, so the flag
  invariant is claimed for runs of whole passes, not for finer interleavings. `update_provision_status` is called
  only while the flag is up (`cloud_management.py:44-48`).
* What vm_check, vm_destroy, vm_start, pbsnodes, qstat and Maui answer, and every comparison with the clock, is an
  arbitrary argument. `vm_destroy` succeeding is the same as it setting the deletion time.
* At loading, the VMs found in the cloud are dynamic and none is starting or being deleted yet.

## How the code was read

* `job_scheduler.py:74` looks the next piece up also when none is left. The planner is modelled with a guard and,
  by the argument `guarded`, as written; `RunsPastEndExactly` and `AsWritten` say exactly when the two differ.
* One job that cannot be read ends the planning of all: `job_scheduler.py:115` calls int() on a text that may be
  `1:ppn=2`, which `scripts/qsub_filter:30-41` accepts (`JobRequests.PpnEndsPlanning`). `ReadExactly` says which jobs
  can be read, and `PlanningSucceeds` that the guarded planner succeeds if and only if all can.
* A job that asks for a negative number of nodes gives cores back, so a job turned away before it may fit the final
  plan (`PlanBounds.NegativeGivesBack`); `RefusedAtTheEnd` says exactly when it does not.
* `res_management.py:238` pops from the list of VMs also when it is empty. `Victims` stops there,
  `VictimsAsWritten` raises; `TrimAsWritten` says exactly when, and `BusyOveruseFails` gives a case.
* `local_commands.py:480` stores the default under `Priority`, while `res_management.py:314` and
  `job_scheduler.py:24` read `job_priority`. The default -1 is taken to be the default of `job_priority`.
* `res_management.py:633` takes the seconds of a negative time difference; the retry is an arbitrary boolean.
* `res_management.py:230` reads an attribute the resource does not have, and line 684 a field the controller does
  not have. Which VMs have the flavor of static ones is an arbitrary predicate, and a static VM has a flavor.
* A VM that is starting is always dynamic, so line 593 asks for a failed static VM again as a dynamic one
  (`ProgressLaws.RetriesAreDynamic`). The missing static VM is still counted, and the next VM that becomes ready in
  its zone takes its place. If the batch is full, the dynamic request is dropped, and then nothing is done about the
  missing VM (`CoverageLaws.DeficitIsLost`).
* One malformed record in the output of qstat hides all jobs, since every exception ends in the same empty answer
  (`local_commands.py:493-495`); `JobQuery.IsReading` models that.
* A job without cores is planned a node even when no node is free (`PlanBounds.ZeroCoresTakeANode`); with that
  exception the bound of `PlanBounds.FewerThanTwice` holds if and only if a node is free. The bound is attained for
  every number of free nodes (`SpreadBounds.TwiceIsAttained`), so a plan can be larger than the quota allows.
* `state_time` starts as `None` and is compared with numbers before it is set; it starts as 0 here.
* When the planner raises, the poller's thread ends; the state is the one after the nodes were checked.
* The CloudResource objects and their StaticVMs are reached only through the dictionary of resources, so
  `CloudTools.CloudResources` keeps what they hold by resource. The fields of a VM that change are one record.
  ProvisionVM and ResAllocation are values: nothing changes a ProvisionVM, and the planner owns its nodes.

## Model

| member | source | states |
|---|---|---|
| Controller.ResourceCenter.Serve | dynamictorque/cloud_management.py:38-55 | whatever the pollers and the administrator ask for in whatever order, the object's states form a run, so the partition, the flag invariant, the static VMs of every resource and the batch bound hold after it |
| Controller.ResourceCenter.Take | dynamictorque/cloud_management.py:44-48 | each request is one possible step of a run; the provision status is updated only while the flag is up |
| Controller.ReadAnswers | dynamictorque/local_commands.py:72-112 | what the queries answer comes ordered by number, so it can be joined and served; a failed or empty qstat lists no jobs |
| Controller.ResourceCenter.constructor | dynamictorque/res_management.py:39-63 | the object starts with the VMs of the cloud as existing ones, takes the loading step, and so starts with the invariant of every run and with the static VMs configured |
| Controller.ResourceCenter.VmDestroy | dynamictorque/openstack_cloud.py:77-99 | the request is logged; the deletion time is set exactly if the cloud accepts |
| Controller.ResourceCenter.VmCheck | dynamictorque/openstack_cloud.py:128-171 | a VM that is active gets the default zone whatever zone it was started in; one that is gone is left alone |
| Controller.ResourceCenter.UpdateAvailableCores | dynamictorque/res_management.py:429-433 | the free nodes of each resource are its quota less the existing and deleting dynamic VMs; nothing else changes |
| Controller.ResourceCenter.StartWaiting | dynamictorque/res_management.py:441-459 | new VMs are started for a prefix of the requests, one each, at most one per slot, and the requests collected for removal are that prefix and, when the batch is full, all later dynamic ones |
| Controller.ResourceCenter.LaunchInstances | dynamictorque/res_management.py:435-463 | the collect-then-remove loops leave exactly what `Launch` says, although requests repeat, and no `remove` misses its element |
| Controller.ResourceCenter.InspectVm | dynamictorque/res_management.py:473-578 | the fate of a starting VM by its cloud, Torque and Maui answers, and what is written to it |
| Controller.ResourceCenter.InspectStarting | dynamictorque/res_management.py:471-578 | the ready and failed lists depend only on the records before the pass, in list order |
| Controller.ResourceCenter.MarkIfNeeded | dynamictorque/res_management.py:586-588 | the VM becomes static exactly if one is missing in its zone, and then one fewer is missing |
| Controller.ResourceCenter.ReadyAll | dynamictorque/res_management.py:583-590 | every ready VM leaves the starting list for the existing one; no `remove` misses |
| Controller.ResourceCenter.FailAll | dynamictorque/res_management.py:591-597 | every failed VM is asked for again, destroyed and moved to the deleting list; no `remove` misses |
| Controller.ResourceCenter.UpdateProvisionStatus | dynamictorque/res_management.py:466-606 | the pass is the provisioning step of the run and keeps the invariant |
| Controller.ResourceCenter.SweepVm | dynamictorque/res_management.py:617-656 | the fate of a VM being deleted, its destroy requests and its deletion time |
| Controller.ResourceCenter.SweepDeleting | dynamictorque/res_management.py:615-656 | the deleted and cancelled lists depend only on the records before the pass, in list order |
| Controller.ResourceCenter.DeleteAll | dynamictorque/res_management.py:662-687 | each deleted VM is forgotten, and a static one is missing again at its location and asked for |
| Controller.ResourceCenter.CancelAll | dynamictorque/res_management.py:688-691 | each cancelled VM returns to the existing ones; no `remove` misses |
| Controller.ResourceCenter.CheckCleanup | dynamictorque/res_management.py:609-696 | the pass is the cleanup step of the run and keeps the invariant |
| Controller.ResourceCenter.FindPartner | dynamictorque/res_management.py:370-373 | the VM found is the one of the first other busy node that is dynamic and of the same size, zone and resource |
| Controller.ResourceCenter.ActOnNode | dynamictorque/res_management.py:343-411 | an idle dynamic VM is shut down, an idle static one hands its role over first, a drained or long-down one is retired, a busy one is left |
| Controller.ResourceCenter.CheckExistingWorkerNodes | dynamictorque/res_management.py:317-413 | the pass goes through the worker nodes in order, each seeing the effects of the ones before |
| Controller.ResourceCenter.QueryCluster | dynamictorque/res_management.py:267-276 | what each failed or successful query leaves in the state: the jobs with their priorities in order when qstat and Maui answer, and the nodes |
| Controller.ResourceCenter.HasAvailableCores | dynamictorque/res_management.py:285-290 | true exactly if some resource has a free node |
| Controller.ResourceCenter.DetermineRequiredInstancesNumbers | dynamictorque/res_management.py:415-427 | the waiting list grows by exactly the planner's requests, all dynamic and of configured resources, and the flag goes up |
| Controller.ResourceCenter.CollectClusterInformation | dynamictorque/res_management.py:265-283 | the pass is the collecting step of the run; if it plans, the plan is the planner's for the state after the nodes were checked, or none and the exception; whatever it does, the idle jobs carry their priorities, in order |
| Controller.ResourceCenter.KillVm | dynamictorque/res_management.py:88-112 | refused with the reason and without effect if unknown, not a node, or busy and not forced; else the VM is retired with its force mark |
| Controller.ResourceCenter.ForceOff | dynamictorque/res_management.py:130-152 | every existing and starting VM is destroyed and moved to the deleting list |
| Controller.ResourceCenter.ToggleSleepMode | dynamictorque/res_management.py:82-86 | only the sleep mode changes |
| Controller.ResourceCenter.JudgeExisting | dynamictorque/res_management.py:169-195 | which VMs of the cloud go on starting and which are destroyed |
| Controller.ResourceCenter.DropOrphans | dynamictorque/res_management.py:197-208 | exactly the broken nodes without a VM leave the list; no `remove` misses |
| Controller.ResourceCenter.MarkBase | dynamictorque/res_management.py:228-232 | VMs of the wanted flavor become static as long as any is missing in their zone |
| Controller.ResourceCenter.TrimVms | dynamictorque/res_management.py:235-247 | the loop ends and gives up exactly the victims, in order |
| Controller.ResourceCenter.TrimOveruse | dynamictorque/res_management.py:234-248 | the victims are destroyed and moved, and the free nodes are the quota less the dynamic VMs that are left |
| Controller.ResourceCenter.LoadExistingWorkerNodes | dynamictorque/res_management.py:155-257 | loading takes exactly the described step, establishes the invariant of every run and conserves the static VMs |
| LifecycleInvariant.MarkStep | dynamictorque/cloud_tools.py:165-172 | marking an existing dynamic VM static meets one missing static VM of its resource and conserves all others |
| LifecycleInvariant.ReadyStep | dynamictorque/res_management.py:584-590 | a VM that becomes ready keeps the partition and conserves the static VMs |
| LifecycleInvariant.FailStep | dynamictorque/res_management.py:591-597 | so does one that fails |
| LifecycleInvariant.DeleteStep | dynamictorque/res_management.py:662-687 | a deleted VM leaves the books, and a static one is missing again, so the sum of missing and held is the same |
| LifecycleInvariant.CancelStep | dynamictorque/res_management.py:688-691 | a cancelled deletion conserves the static VMs |
| LifecycleInvariant.SwapStep | dynamictorque/res_management.py:373-377 | handing the static role over keeps the static VMs of every resource, zone and size |
| LifecycleLaws.ProvisionMovesOnly | dynamictorque/res_management.py:579-597 | before launching, a pass only moves VMs: ready ones to the existing, failed ones to the deleting list and the destroy log, the rest stay in order |
| LifecycleLaws.ProvisionMovesConserve | dynamictorque/res_management.py:466-598 | no VM comes or goes, and the static VMs of every resource are conserved |
| LifecycleLaws.LaunchStep | dynamictorque/res_management.py:435-463 | a launch adds exactly the new VMs to the books and keeps partition and static VMs |
| LifecycleLaws.ProvisionPassKeeps | dynamictorque/res_management.py:466-606 | the pass keeps the invariant, and lowers the flag only when nothing is starting or waiting |
| CleanupLaws.CleanupMovesExactly | dynamictorque/res_management.py:661-691 | the cancelled VMs return to the existing list, the deleted ones are gone, the others stay in order |
| CleanupLaws.CleanupMovesConserve | dynamictorque/res_management.py:609-692 | the static VMs of every resource are conserved, and exactly the deleted VMs leave the books |
| CleanupLaws.ForgottenOnlyWhenGone | dynamictorque/res_management.py:617-631 | a VM is forgotten if and only if it was being deleted, is gone from the cloud, and is unknown to Torque or has no hostname |
| CleanupLaws.CleanupPassKeeps | dynamictorque/res_management.py:609-696 | the pass keeps the invariant and the flag invariant, also when it launches |
| NodeLaws.FindVmFinds | dynamictorque/res_management.py:262-263 | a VM is found if and only if one has the name, and then it has it |
| NodeLaws.PartnerFinds | dynamictorque/res_management.py:369-373 | the partner is another existing VM that can take over the role |
| NodeLaws.CheckExistingKeepsKinds | dynamictorque/res_management.py:332-413 | a pass preserves the number of static VMs of every resource, zone and size over existing and deleting |
| NodeLaws.CheckExistingTouchesOnlyIdle | dynamictorque/res_management.py:332-413 | a pass destroys, drops or retires a VM only if a record of its node lists no jobs, and leaves starting VMs and requests alone |
| NodeLaws.CollectKeeps | dynamictorque/res_management.py:265-283 | collecting keeps the invariant and the flag invariant |
| NodeLaws.KillKeeps | dynamictorque/res_management.py:88-112 | kill_vm keeps the invariant and the static VMs |
| NodeLaws.ForceOffKeeps | dynamictorque/res_management.py:130-152 | forceoff keeps the invariant and the static VMs of every kind, and brings no VM in or out |
| FateLaws.StartEndsExactly | dynamictorque/res_management.py:471-597 | a starting VM joins the existing ones if and only if it was ready in the cloud and Torque can use it; it is destroyed, once, and joins the deleting ones if and only if it is gone or in error, cannot be added or seen, is too late, or has been unusable for too long; else it goes on starting; no other VM is touched |
| FateLaws.StartRecord | dynamictorque/res_management.py:473-497 | what the pass writes to a starting VM: cloud state, readiness, zone, and whether its destroy request was accepted |
| FateLaws.RetriesExactly | dynamictorque/res_management.py:591-593 | the waiting list grows by one request for each VM that is given up and has a zone, in order, with its own flavor, zone and resource |
| FateLaws.UsableIsTaken | dynamictorque/res_management.py:586-588 | a VM that becomes usable is taken as static unless no static VM of its resource is missing in its zone |
| FateLaws.NodesAreRefreshed | dynamictorque/res_management.py:511-512 | the nodes are asked for anew exactly if some VM has just joined Torque |
| FateLaws.CleanupEndsExactly | dynamictorque/res_management.py:617-660 | a VM being deleted returns to service if and only if it has a hostname, its node has jobs, it is not gone and was not forced off; it is destroyed in the pass if and only if it has a hostname, is not gone, and its node has no jobs or Torque does not know it and its request is missing or due again; and what is written to it |
| FateLaws.CleanupByReport | dynamictorque/res_management.py:617-656 | also when its node is taken out of Torque |
| FateLaws.ForcedStaysDeleting | dynamictorque/res_management.py:643-648 | a VM that was forced off and is still in the cloud is not taken back |
| FateLaws.ReplacementsExactly | dynamictorque/res_management.py:671-687 | the waiting list grows by one static request for each static VM that is forgotten, in order, with its own flavor, zone and resource |
| FateLaws.MissingInItsZone | dynamictorque/res_management.py:673-680 | a deleted static VM is missing again in its own zone and nowhere else |
| NodeActionLaws.NodeStepExactly | dynamictorque/res_management.py:332-411 | a look at a node shuts its VM down if and only if the node has no jobs, has been free for too long, and the VM is dynamic or can hand its role over; it retires the VM if and only if the node has no jobs and is drained or has been down for too long; else lists, log, flag and free nodes stay |
| NodeActionLaws.NodeStepWrites | dynamictorque/res_management.py:337-377 | the state time grows while the state repeats and else starts at 0; a stopped VM is marked; the first VM in node order that can stand in for a stopped static one becomes static; no other record changes |
| NodeActionLaws.PartnerTakesOver | dynamictorque/res_management.py:370-373 | there is a partner if and only if some other busy node carries a dynamic VM of the same size, zone and resource, and it is that of the first such node |
| NodeActionLaws.OneRecordDecides | dynamictorque/res_management.py:317-413 | the same for a whole pass and a VM whose node has one record |
| CollectLaws.PrioritisedIs | dynamictorque/res_management.py:292-315 | the order: each job with the priority of the entry of its number and rank, or its default, higher priorities first, ties by number |
| CollectLaws.PlansExactlyWhen | dynamictorque/res_management.py:265-283 | a plan is made if and only if all queries succeed, the controller is awake, the flag is down, some resource has fewer dynamic VMs than its quota once the nodes are checked, and some job is idle; and it is made for the jobs in that order |
| CollectLaws.OnlyLooks | dynamictorque/res_management.py:267-279 | if a query fails, the controller sleeps or the flag is up, only the answers are taken over |
| CollectLaws.AsksForPlan | dynamictorque/res_management.py:279-283 | else the nodes are checked, the plan, if one is made, is asked for, and then the flag goes up |
| CommandLaws.KillExactly | dynamictorque/res_management.py:88-112 | kill_vm refuses without effect exactly if the VM or its node is unknown, or the node is busy and the kill is not forced; else only the lists and the force mark of this kill change |
| CommandLaws.ForceOffExactly | dynamictorque/res_management.py:130-152 | every existing and then every starting VM is destroyed once; the existing ones are marked as forced off |
| LoadFateLaws.ScreenedExactly | dynamictorque/res_management.py:168-222 | which VMs of the cloud go on starting, which are destroyed, and which stay, by the reports |
| LoadFateLaws.OrphansGo | dynamictorque/res_management.py:197-208 | a node leaves the list if and only if it is down or offline and has no VM |
| LoadFateLaws.MarkedExactly | dynamictorque/res_management.py:228-232 | every VM of the wanted flavor becomes static unless none is missing in its zone, and no other VM |
| LoadFateLaws.LoadResourceSettles | dynamictorque/res_management.py:225-252 | after loading a resource, each VM of it with the wanted flavor is static or none is missing in its zone |
| LoadFateLaws.VictimsAreLast | dynamictorque/res_management.py:238-241 | the VMs given up are the last dynamic ones without jobs, from the end of the list |
| LoadFateLaws.TrimCounts | dynamictorque/res_management.py:234-248 | the free nodes are as many as VMs were given up, less the dynamic VMs beyond the quota |
| RunLaws.StepKeeps | dynamictorque/res_management.py:82-696 | every step keeps the partition, the flag invariant and the static VMs of every resource |
| RunLaws.StepWithinBatch | dynamictorque/res_management.py:437-440 | no step leaves more VMs starting than a batch, or than before |
| RunLaws.RunKeeps | dynamictorque/res_management.py:82-696 | in every state of every run: no VM twice or in two lists, nothing starting or waiting while the flag is down, as many static VMs held or missing as at the start, and the batch bound |
| RunLaws.ChainIsRun | dynamictorque/cloud_management.py:38-55 | states that follow each other by possible steps are a run |
| RunLaws.PlanningIsExact | dynamictorque/res_management.py:278-283 | when the planner runs nothing is starting or waiting, and the free nodes are exactly the quota less all dynamic VMs on the books |
| RunLaws.RunPlansExactly | dynamictorque/res_management.py:413-433 | the same in every state of every run |
| ProgressLaws.LaunchLeaves | dynamictorque/res_management.py:446-463 | after a refused start exactly the untouched rest is left; when the batch is full, each static request of the rest as often as it was there, and no dynamic one |
| ProgressLaws.StaticRequestsSurvive | dynamictorque/res_management.py:446-463 | no static request is lost unlaunched, and their order stays |
| ProgressLaws.RetriesAreDynamic | dynamictorque/res_management.py:591-593 | whatever a failed VM was started for, it is asked for again as a dynamic one |
| CoverageLaws.StepUncovers | dynamictorque/res_management.py:441-463 | what a step uncovers of the missing static VMs of a resource is exactly the starting VMs of it that fail, become ready without being needed, or are forced off; what it covers is exactly the dynamic VMs of it that it starts |
| CoverageLaws.RunUncovers | dynamictorque/res_management.py:82-696 | in every state of every run the missing static VMs are covered by static requests and starting VMs, except for what the run has uncovered and not covered again |
| CoverageLaws.StaysCovered | dynamictorque/res_management.py:441-463 | what is covered stays covered as long as no start is lost |
| CoverageLaws.LoadCovers | dynamictorque/res_management.py:249-257 | after loading all that is missing is asked for or starting |
| CoverageLaws.DeficitIsLost | dynamictorque/res_management.py:446-463 | a failed static start is asked for as a dynamic VM and dropped when the batch is full: a run that ends with the flag down, nothing waiting or starting, and a static VM missing |
| CoverageLaws.LoadsTwoMissing | dynamictorque/res_management.py:225-257 | loading leads to the state in which that run begins |
| ProgressLaws.SmoothPassDecreases | dynamictorque/res_management.py:466-606 | without failures a pass lowers the flag or strictly lowers 3 per waiting, 2 per not ready and 1 per ready starting VM |
| ProgressLaws.ProvisioningEnds | dynamictorque/res_management.py:602-606 | so the flag goes down after at most one pass more than there is work |
| ProgressLaws.DeletionProgress | dynamictorque/res_management.py:609-691 | a VM with a hostname and without jobs leaves the books within two passes if requests take effect in between |
| ProgressLaws.BusyVmReturns | dynamictorque/res_management.py:643-646 | a busy VM that was not forced off and is still in the cloud returns to the existing ones |
| LoadLaws.TrimsExactly | dynamictorque/res_management.py:234-247 | the VMs given up are exactly min(excess, idle dynamic ones) many, and none is static or busy |
| LoadLaws.TrimAsWritten | dynamictorque/res_management.py:236-247 | the loop as written raises IndexError if and only if the excess is larger than the number of idle dynamic VMs, and else gives up the same VMs |
| LoadLaws.BusyOveruseFails | dynamictorque/res_management.py:236-241 | two busy dynamic VMs and a quota of one are enough for the loop as written to fail |
| LoadLaws.LoadResourceKeeps | dynamictorque/res_management.py:225-252 | marking, trimming and asking for one resource keep the partition and the static VMs of all |
| LoadLaws.LoadEstablishes | dynamictorque/res_management.py:155-257 | loading establishes the invariant of every run and conserves the static VMs |
| LoadLaws.LoadMeetsConfiguration | dynamictorque/res_management.py:224-252 | after loading, the static VMs held or missing are as many as configured |
| LoopTraces.CollectedLeaves | dynamictorque/res_management.py:460-463 | removing the collected requests one by one leaves the rest, or its static requests, also when one request repeats |
| Sequences.RemoveCollected | dynamictorque/res_management.py:462-463 | collecting elements and calling `remove` for each leaves exactly the others in order, for any equality |
| CloudTools.TakeOneMeetsOne | dynamictorque/cloud_tools.py:165-172 | a VM is taken exactly if a requirement for its zone is open, and then exactly one is met |
| CloudTools.AddReqAdds | dynamictorque/cloud_tools.py:151-159 | the number of missing static VMs grows by exactly the count |
| CloudTools.ProvisionListMeetsDeficit | dynamictorque/cloud_tools.py:173-180 | the requests are all static and as many as are missing |
| CloudTools.TakeOneInZone | dynamictorque/cloud_tools.py:165-172 | a VM is taken exactly if some static VM is missing in its zone; then one fewer is missing there and as many as before elsewhere |
| CloudTools.AddReqInZone | dynamictorque/cloud_tools.py:151-159 | a new requirement adds to the zone of its location only |
| CloudTools.ProvisionListInZone | dynamictorque/cloud_tools.py:173-180 | the requests are as many in each zone as are missing there |
| CloudTools.CloudResources.AddStaticReq | dynamictorque/cloud_tools.py:151-159 | the first requirement of the location grows, or a new one is appended; other resources are left alone |
| CloudTools.CloudResources.NeedVm | dynamictorque/cloud_tools.py:165-172 | the first open requirement for the zone is met, if there is one |
| CloudTools.CloudResources.GetProvisionList | dynamictorque/cloud_tools.py:173-180 | one static request for each missing VM, in order, with the zone of its location |
| CloudTools.CloudResources.AvailableCores | dynamictorque/cloud_tools.py:112-115 | the flavors are sorted in place, the first one is the largest, and the cores, those the planner counts with, are the free nodes times its size |
| Priorities.MatchPriorities | dynamictorque/res_management.py:299-313 | for both lists non-decreasing by number, the i-th job of a number gets the i-th priority entry of it, or keeps its default; the index stays in range |
| Priorities.PrioritiseJobs | dynamictorque/res_management.py:292-315 | the jobs with their looked-up priorities, sorted |
| Priorities.MatchIsLookup | dynamictorque/res_management.py:304-306 | a match of the two indices is the lookup of the next entry of that number |
| Priorities.MissIsLookup | dynamictorque/res_management.py:302-309 | when the indices do not match, the number has no entry left |
| Priorities.PriorityOrder | dynamictorque/res_management.py:314 | the order is a permutation, of non-increasing priority, with ties in job number order |
| JobQuery.QstatToJobList | dynamictorque/local_commands.py:456-495 | all idle jobs of the monitored queues are counted, those within the limit are kept and ordered by number, stably, and the running ones are listed; if the output or one record cannot be parsed, there are none at all |
| JobQuery.ReadsExactly | dynamictorque/local_commands.py:470-487 | of complete records, those in state Q of the monitored queues are counted and read from the front up to the limit, and those in state R are listed |
| JobQuery.GetJobPriorities | dynamictorque/local_commands.py:497-509 | a permutation ordered by number, entries of one number in their order |
| JobScheduler.PlacePieces | dynamictorque/job_scheduler.py:69-76 | the loop places the pieces as described; without the guard it raises exactly if a node of the location is reached with no piece left |
| JobScheduler.AddNewRequirement | dynamictorque/job_scheduler.py:61-79 | the packed nodes, or IndexError exactly when the unguarded loop runs past the end |
| JobRequests.ReadExactly | dynamictorque/job_scheduler.py:100-119 | a job is read exactly if it is passed over by its priority, or has an account or a queue and either nodes and cores, or no total, or a total that is a number; else the exception says which is missing |
| JobRequests.AsksExactly | dynamictorque/job_scheduler.py:22-33 | a job that is read is passed over exactly if it has no priority while there are worker nodes, or asks for nothing; else it asks for as many pieces as neednodes says, each of as many cores as ncpus says, or for one piece of the total or of one core, on account of Account_Name or else its queue |
| JobRequests.DecimalIsRead | dynamictorque/job_scheduler.py:116 | int(str(n)) is n for every integer |
| JobRequests.PlanningSucceeds | dynamictorque/job_scheduler.py:19-47 | the guarded planner succeeds if and only if every job can be read |
| JobRequests.FirstUnreadableDecides | dynamictorque/job_scheduler.py:22-26 | the first job that cannot be read decides the exception, whatever the others are |
| JobRequests.PpnEndsPlanning | dynamictorque/job_scheduler.py:115-116 | a job for `1:ppn=2` without a number of cores ends the planning of all |
| JobScheduler.PlanJobs | dynamictorque/job_scheduler.py:19-44 | the plan after all jobs, or the first exception |
| JobScheduler.BestFlavorFromNode | dynamictorque/job_scheduler.py:89-98 | the first covering flavor in ascending order |
| JobScheduler.ConvertReqListToFlavor | dynamictorque/job_scheduler.py:81-87 | one request for each planned node and one node for each request, whatever the order of the dictionary |
| JobScheduler.CalculateNewInstances | dynamictorque/job_scheduler.py:19-47 | the requests list the planned nodes one for one, or the exception is passed on |
| PackingLaws.PackAddsPieces | dynamictorque/job_scheduler.py:61-79 | packing grows the multiset of packed pieces by exactly the job's pieces |
| PackingLaws.PackAddsCores | dynamictorque/job_scheduler.py:61-79 | and the cores by exactly theirs |
| PackingLaws.BestFit | dynamictorque/job_scheduler.py:68-79 | a job with n equal pieces uses exactly the first n fullest nodes of its location with room, one piece each, and opens one new node for each piece left |
| PackingLaws.FullestFirst | dynamictorque/job_scheduler.py:69 | no node with room is passed over for a less full one |
| PackingLaws.RunsPastEndExactly | dynamictorque/job_scheduler.py:71-76 | the unguarded loop fails if and only if a node of the location comes after the one that took the last piece |
| PackingLaws.RunsPastEndExample | dynamictorque/job_scheduler.py:74 | two one-core nodes and a one-core job are enough |
| PlannerLaws.RequirementIsUniform | dynamictorque/job_scheduler.py:100-119 | all pieces of a job are equal, so checking the first one is enough |
| PlannerLaws.CapIsLargest | dynamictorque/cloud_tools.py:112-115 | the first flavor after sorting is a largest one |
| PlannerLaws.BestFlavorIsSmallest | dynamictorque/job_scheduler.py:89-98 | cores that fit the largest flavor get the smallest covering one; the fallback is not reached |
| PlannerLaws.PlannedOk | dynamictorque/job_scheduler.py:49-79 | in every plan each node fits the largest flavor, holds at most one piece of a job, all of its location, and each resource stays within its available cores |
| PlannerLaws.ConsideredAdds | dynamictorque/job_scheduler.py:38-43 | a job adds its pieces, all or none, to the nodes of the one resource it goes to |
| PlannerLaws.PackedIsDemanded | dynamictorque/job_scheduler.py:38-43 | the nodes of each resource hold exactly the pieces, counted by the jobs' attributes, of the jobs that went to it: jobs are placed all or nothing |
| PlannerLaws.PlanIsSound | dynamictorque/job_scheduler.py:19-98 | every request is for one planned node of its resource, with the smallest flavor that covers the node's pieces, which are of different jobs |
| PlannerLaws.EveryPieceIsServed | dynamictorque/job_scheduler.py:38-87 | each piece of a job that is placed lies on the node of a request for the job's resource, different pieces on nodes of different requests |
| PlannerLaws.SortingIsHarmless | dynamictorque/cloud_tools.py:112-115 | sorting the flavors of any resources in place changes no plan |
| PlanBounds.NegativeOnlyFromNodes | dynamictorque/job_scheduler.py:115-116 | only the total read by int() can be a negative number of cores |
| PlanBounds.JobGoesExactly | dynamictorque/job_scheduler.py:24-59 | a job goes to its own resource if and only if that has the cores for all its nodes and a flavor for one, to the default one if and only if its own does not and that one does and its location is not named like its resource, and else nowhere |
| PlanBounds.TotalsAdd | dynamictorque/job_scheduler.py:38-79 | between two plans the cores of a resource change by exactly those of the jobs that went to it in between, and no earlier job moves |
| PlanBounds.RefusedAtTheEnd | dynamictorque/job_scheduler.py:38-59 | the final plan refuses a job if and only if each resource that may take it is too small for it, or lacked more cores when it was considered than the later jobs have given back |
| PlanBounds.GreedyIsMaximal | dynamictorque/job_scheduler.py:38-59 | if no later job asks for a negative number of cores, a job turned away is turned away by the final plan too |
| PlanBounds.NegativeGivesBack | dynamictorque/job_scheduler.py:115-116 | a job turned away and then one for -1 nodes: the final plan would take the first |
| PlanBounds.FewerThanTwice | dynamictorque/job_scheduler.py:49-79 | with one location and single-node jobs any two nodes of a resource together exceed its largest flavor, and the plan has fewer than twice the free nodes if and only if a node is free |
| PlanBounds.ZeroCoresTakeANode | dynamictorque/job_scheduler.py:54-59 | a job without cores is planned a node although none is free |
| PlanBounds.FailsExactly | dynamictorque/job_scheduler.py:71-76 | for a job that can be read, the unguarded step raises IndexError if and only if the job is placed and, in the plan so far, a node of its location comes after the one that takes its last piece; else it does what the guarded step does |
| PlanBounds.AsWritten | dynamictorque/job_scheduler.py:19-79 | on every list of jobs, readable or not, the planner as written raises IndexError if and only if some job that is reached fails in that way, and else does exactly what the guarded one does |
| PlanBounds.WrittenSucceeds | dynamictorque/job_scheduler.py:19-79 | so it makes a plan if and only if every job can be read and none fails, and the plan is the guarded one |
| SpreadBounds.FewerThanTwiceAndLight | dynamictorque/job_scheduler.py:49-79 | with jobs of at most m nodes at given locations, the plan has fewer nodes than twice the free ones and m for each location |
| SpreadBounds.TwiceIsAttained | dynamictorque/job_scheduler.py:49-79 | for every number f of free nodes some jobs are planned 2 f - 1 nodes |
| Planning.PlansUnlessUnreadable | dynamictorque/res_management.py:415-427 | the planner fails if and only if some idle job cannot be read, and then nothing is asked for |
| Planning.RunPlansFewerThanTwice | dynamictorque/res_management.py:413-427 | in every run the nodes planned for a resource are fewer than twice its quota less all its dynamic VMs, if and only if the quota is not used up |
| Planning.RunPlansFew | dynamictorque/res_management.py:413-427 | in every run, with jobs of several nodes and several locations: fewer than twice the quota less all dynamic VMs, and for each location as many as the largest job asks for |
| NodeFile.DumpNodesToPersistentFile | dynamictorque/local_commands.py:414-422 | the file has one line for each VM, in order |
| NodeFile.ReadNodesFromPersistentFile | dynamictorque/local_commands.py:424-431 | the stripped first words of the lines; a missing file has none |
| NodeFile.RoundTrip | dynamictorque/local_commands.py:414-431 | reading a dumped file gives the hostnames back if and only if no hostname has a blank, a line break or outer white space and the node property has no line break |
| NodeFile.LineSaysCores | dynamictorque/local_commands.py:420 | the line of a VM says its number of cores, and no other |

## Left out

- OpenStack, sockets, templates and security groups of `openstack_cloud.py`: foreign calls; only result codes and
  the zone written by vm_check are modelled. Because of that zone the static law is per resource.
- Commands, XML, /etc/hosts and known_hosts edits, node properties and reservations of `local_commands.py`: I/O;
  parsed records are arguments, and what is only written to Torque or Maui is not part of the state.
- Threads, sleeping, the XML-RPC server, signals and logging: the order and the gating of the passes remain.
- Reading the configuration and the random choice of a zone: the configuration is fixed, and the location of each
  job and the conversion of locations to zones are arbitrary functions.
- Clock arithmetic: timeouts are booleans; `state_time` counts poller intervals as in the code.
- `admin.py`, `dt_info.py`, ganglia and nagios scripts, `get_info` and `get_detail`: display.
- The count of free nodes between forceoff, or loading, and the next pass: the code does not refresh it there, so
  the count is stated when the planner runs.
- The memory requirement of jobs: the code returns nothing for it.
- Line ends of other systems and other white space than that of ASCII in the node file.
- Sorting of a resource's flavors during planning: the planner reads them sorted; `PlannerLaws.SortingIsHarmless`
  proves that the sort in place of `CloudTools.CloudResources.AvailableCores` changes no plan.
- Output of Maui that cannot be parsed: `_get_job_priorities` raises, and the poller's thread ends.
- ProgressLaws.DeletionProgress: does not cover a VM without hostname that Torque never knew, because the cleanup pass never destroys such a VM and only waits for the cloud.
- Controller.ResourceCenter.VmCheck: does not model the writes to start_time, image_id and ip, which nothing here reads, nor those to vcpu_number and flavor, which are constants of a VM here because a server keeps its size.
