# DockerScheduler: a verified model of the Rundeck Mesos plugin's scheduler

The plugin runs a Docker image on a Mesos cluster. Its `DockerScheduler` is a Mesos framework
scheduler that keeps two lists of task IDs, `pendingInstances` and `runningInstances`, and changes
them in two driver callbacks:

- `resourceOffers` walks a batch of offers. It skips offers the constraints checker rejects. It
  answers every other offer with exactly one `launchTasks` call that carries a one-second refuse
  filter. That call holds one new task while `running + pending < desiredInstances`, and no task
  otherwise. The new task's ID is appended to the pending list.
- `statusUpdate` is a transition table over the reported task state. `TASK_RUNNING` moves the ID from
  pending to running. `TASK_FAILED`, `TASK_LOST`, `TASK_KILLED` and `TASK_FINISHED` remove it from
  both lists and stop the driver without failover. Every other state changes nothing.

The model is split by concern:

- `mesos.dfy` (module `Mesos`): the protocol messages as datatypes. It also holds the driver, a class
  that records the calls made on it in a ghost log.
- `lists.dfy` (module `Lists`): the two `ArrayList` operations used. `add` appends, duplicates
  included. `remove(Object)` deletes the first occurrence only.
- `state.dfy` (module `SchedulerState`): the configuration and the pair of lists.
- `offers.dfy` (module `Offers`): the offer loop as a function of the state before the batch (`Step`
  for one offer, `Run` for a batch), with what it guarantees over a whole batch.
- `status.dfy` (module `Status`): the status transition table and its properties.
- `scheduler.dfy` (module `Scheduling`): the scheduler object itself. `pendingInstances` and
  `runningInstances` are `seq` fields. `ResourceOffers` is a loop proved equal to `Run`, and
  `StatusUpdate` is proved equal to `Status.Apply`, the transition table as a function. The lifecycle hooks are no-ops.

The constraints checker is a constant `Offer -> bool` chosen when the scheduler is built. The task ID
generator is a `TaskIdSource` object: the k-th ID it hands out is `stream(k)` for an arbitrary
`stream`. Where a property needs fresh IDs, the lemma says so in its `requires` (`FreshIds`).

### Behaviour worth knowing

- A rejected offer gets no driver call at all, not even an explicit decline: the loop moves on at
  line 79.
- The lists are `ArrayList`s, not sets. RUNNING is not idempotent: a second `TASK_RUNNING` for the
  same ID appends it to the running list again (`Status.RepeatedRunningDuplicates`). A
  `TASK_RUNNING` for an ID that is not pending still adds it, so a status update can take
  `pending + running` past the desired count (`Status.RunningMayExceedTarget`).
- A terminal state stops the driver. Nothing in the lists keeps later offers from launching tasks if
  the driver still delivered them.

## Model

| member | source | states |
|---|---|---|
| Lists.IndexOf | src/main/java/com/farmaprom/DockerScheduler.java:146 | the index found holds the ID and no earlier position does: the first occurrence that `List.remove` deletes |
| Lists.RemoveFirst | src/main/java/com/farmaprom/DockerScheduler.java:146 | `remove(Object)` shortens the list by one when it holds the ID and leaves a list without the ID unchanged |
| Lists.RemoveFirstCount | src/main/java/com/farmaprom/DockerScheduler.java:146 | exactly one copy of the ID is taken away, if there is one; every other element keeps its number of copies |
| Lists.RemoveFirstKeepsOrder | src/main/java/com/farmaprom/DockerScheduler.java:146 | elements before the first occurrence stay in place and the ones after it move down by one, so list order is kept |
| Lists.RemoveFirstNoDuplicates | src/main/java/com/farmaprom/DockerScheduler.java:152-153 | on a duplicate-free list, removal leaves no copy of the ID and the list stays duplicate-free |
| Mesos.SchedulerDriver.LaunchTasks | src/main/java/com/farmaprom/DockerScheduler.java:127 | the driver records one launch call with the offer ID, the task list and the filters |
| Mesos.SchedulerDriver.Stop | src/main/java/com/farmaprom/DockerScheduler.java:155 | the driver records one stop call with the failover flag |
| Offers.BuildTask | src/main/java/com/farmaprom/DockerScheduler.java:91-120 | the task carries the generated ID, the name "task " + ID, the offer's agent, cpus and mem scalar resources equal to the configured amounts, and a DOCKER container with the configured image, BRIDGE network and force-pull flag. It also carries the configured volumes (none when the list is empty) and the configured command |
| Offers.Accepted | src/main/java/com/farmaprom/DockerScheduler.java:77-80 | the offers kept are offers of the batch that the constraints checker allows, no more of them than the batch has |
| Offers.AcceptedKeepsAllowedOffers | src/main/java/com/farmaprom/DockerScheduler.java:77-80 | every allowed offer of the batch is kept, as many times as it occurs in the batch, and every rejected offer is dropped |
| Offers.Step | src/main/java/com/farmaprom/DockerScheduler.java:78-127 | one loop iteration adds one driver call for an allowed offer and none for a rejected one. It takes one ID from the generator exactly when the offer is allowed and running + pending < desiredInstances, and never changes the running list |
| Offers.Run | src/main/java/com/farmaprom/DockerScheduler.java:77-129 | a batch adds at most one driver call per offer, keeps the calls already made and never changes the running list |
| Offers.Launches | src/main/java/com/farmaprom/DockerScheduler.java:82 | the number of launches in a batch never exceeds the accepted offers. It never takes the total past the desired count. It is the largest such number: it stops short of the accepted offers only once the target is reached |
| Offers.RunInstances | src/main/java/com/farmaprom/DockerScheduler.java:82-89 | after a batch, the pending list is the old one followed by the next n generated IDs, where n = Launches(desired, total, accepted offers). The running list is untouched and exactly n IDs are used |
| Offers.RunCalls | src/main/java/com/farmaprom/DockerScheduler.java:77-129 | a batch keeps the earlier driver calls and adds exactly one call per accepted offer, in order. The first n calls hold one task built under the next n generated IDs, and the rest hold an empty task list |
| Offers.OneAnswerPerAcceptedOffer | src/main/java/com/farmaprom/DockerScheduler.java:81-127 | a batch adds exactly as many driver calls as it has accepted offers. Each is a launch on that offer with the one-second refuse filter and at most one task |
| Offers.StepLaunchRule | src/main/java/com/farmaprom/DockerScheduler.java:81-127 | an accepted offer gets one call. Its task list has one task exactly when running + pending < desired at that point. In that case the next generated ID is appended to pending and the task conforms to the configuration; otherwise the list is empty. Running never changes |
| Offers.RejectedOfferIsIgnored | src/main/java/com/farmaprom/DockerScheduler.java:77-80 | removing a rejected offer from anywhere in a batch changes neither the lists, the driver calls nor the IDs used |
| Offers.ReplicaBound | src/main/java/com/farmaprom/DockerScheduler.java:77-89 | a batch never lowers running + pending. It never raises it above the larger of its starting value and desiredInstances |
| Offers.RunKeepsWellFormed | src/main/java/com/farmaprom/DockerScheduler.java:84-89 | when the generator's IDs are distinct and not yet tracked, a batch keeps pending and running apart and pending free of duplicates |
| Offers.TwoOffersOneInstance | src/main/java/com/farmaprom/DockerScheduler.java:77-129 | with one wanted instance and empty lists, two accepted offers give a one-task launch on the first and an empty task list on the second, with one pending ID |
| Offers.AtTargetAnswersEmpty | src/main/java/com/farmaprom/DockerScheduler.java:81-127 | with one wanted instance already running, an accepted offer gets an empty task list and the lists are unchanged |
| Status.StopsDriver | src/main/java/com/farmaprom/DockerScheduler.java:149-157 | the four case labels that stop the driver (FAILED, LOST, KILLED, FINISHED); RUNNING is not one of them |
| Status.Apply | src/main/java/com/farmaprom/DockerScheduler.java:144-163 | only RUNNING can raise running + pending, and by one at most. A state that is neither RUNNING nor a stopping state leaves both lists as they were |
| Status.RunningTransition | src/main/java/com/farmaprom/DockerScheduler.java:145-148 | RUNNING removes one copy of the ID from pending (none if absent) and appends the ID to running, whatever running held |
| Status.StoppingTransition | src/main/java/com/farmaprom/DockerScheduler.java:149-162 | FAILED, LOST, KILLED and FINISHED remove one copy of the ID from each list. For an ID in neither list, both lists are unchanged |
| Status.OtherStatesChangeNothing | src/main/java/com/farmaprom/DockerScheduler.java:144-163 | every other state, such as STAGING, STARTING or ERROR, leaves both lists unchanged: the switch has no default |
| Status.StatusChangesTotal | src/main/java/com/farmaprom/DockerScheduler.java:144-163 | RUNNING raises running + pending by one unless the ID was pending. A stopping state lowers it by one per list that held the ID. No state but RUNNING raises it |
| Status.StatusKeepsWellFormed | src/main/java/com/farmaprom/DockerScheduler.java:144-163 | every status update keeps pending and running apart and pending free of duplicates |
| Status.RepeatedRunningDuplicates | src/main/java/com/farmaprom/DockerScheduler.java:145-148 | RUNNING is not idempotent: a second RUNNING appends the ID to running again |
| Status.RunningMayExceedTarget | src/main/java/com/farmaprom/DockerScheduler.java:145-148 | RUNNING for an ID that is not pending takes running + pending one past its value, so past the desired count when it was at it |
| Status.PendingThenRunning | src/main/java/com/farmaprom/DockerScheduler.java:145-148 | a pending task reported RUNNING ends up running and no longer pending |
| Status.RunningThenFinished | src/main/java/com/farmaprom/DockerScheduler.java:157-162 | a running task that finishes leaves both lists empty |
| Scheduling.TaskIdSource.Next | src/main/java/com/farmaprom/DockerScheduler.java:85-86 | each call hands out the next ID of the generator's stream |
| Scheduling.DockerScheduler.constructor | src/main/java/com/farmaprom/DockerScheduler.java:35-55 | the scheduler starts with the given configuration, constraints checker and ID generator and with both lists empty |
| Scheduling.DockerScheduler.Registered | src/main/java/com/farmaprom/DockerScheduler.java:57-63 | registration leaves both lists as they were and makes no driver call |
| Scheduling.DockerScheduler.Reregistered | src/main/java/com/farmaprom/DockerScheduler.java:65-70 | re-registration does not reset the lists and makes no driver call |
| Scheduling.DockerScheduler.ResourceOffers | src/main/java/com/farmaprom/DockerScheduler.java:72-130 | the new lists, driver log and number of IDs used are exactly what `Run` gives from the old ones, so every property proved of `Run` holds of the method |
| Scheduling.DockerScheduler.OfferRescinded | src/main/java/com/farmaprom/DockerScheduler.java:132-135 | no change to the lists, no driver call |
| Scheduling.DockerScheduler.StatusUpdate | src/main/java/com/farmaprom/DockerScheduler.java:137-170 | the new lists are `Status.Apply` of the old ones. The driver gets exactly one `stop(false)` for FAILED, LOST, KILLED or FINISHED, even for an unknown ID, and no call otherwise |
| Scheduling.DockerScheduler.FrameworkMessage | src/main/java/com/farmaprom/DockerScheduler.java:172-175 | no change to the lists, no driver call |
| Scheduling.DockerScheduler.Disconnected | src/main/java/com/farmaprom/DockerScheduler.java:177-180 | no change to the lists, no driver call |
| Scheduling.DockerScheduler.SlaveLost | src/main/java/com/farmaprom/DockerScheduler.java:182-185 | no change to the lists, no driver call |
| Scheduling.DockerScheduler.ExecutorLost | src/main/java/com/farmaprom/DockerScheduler.java:187-190 | no change to the lists, no driver call |
| Scheduling.DockerScheduler.Error | src/main/java/com/farmaprom/DockerScheduler.java:192-195 | no change to the lists, no driver call |

## Left out

- Configuration parsing in the constructor (lines 50-54): the image, CPU, memory and force-pull flag
  are constructor parameters. CPU and memory are `real` values passed through unchanged, with no
  floating-point arithmetic and no parse errors.
- `ConstraintsChecker` is not part of this model. Its verdict is an arbitrary `Offer -> bool`.
- `TaskIdGeneratorHelper` is not part of this model. Its IDs are an arbitrary stream, and their
  freshness is an assumption in `Offers.RunKeepsWellFormed`.
- Protobuf builder mechanics: messages are plain datatypes holding only the fields the scheduler sets
  or reads.
- Logging and the fields written only for logging (`loggerWrapper.masterInfo`, `frameworkID`, `task`,
  `taskStatus`).
- The unused `AtomicInteger taskIDGenerator` (line 33) and the plugin step context.
- The Mesos driver's transport, and what it does once stopped. Callbacks are assumed to arrive one at
  a time, as the driver delivers them.
- Scheduling.DockerScheduler.ResourceOffers: a null or malformed offer cannot be expressed, so the
  exception the Java loop would raise on one is not modelled.
