/** The transition table of `statusUpdate`: how a reported task state changes the two lists and
    whether the driver is stopped. */
module Status {
  import opened Mesos
  import opened Lists
  import opened SchedulerState

  /** The states on which the scheduler stops its driver: failed, lost, killed and finished. */
  predicate StopsDriver(state: TaskState): (stops: bool)
    ensures stops ==> state != TaskRunning
  {
    state == TaskFailed || state == TaskLost || state == TaskKilled || state == TaskFinished
  }

  /** The lists after a status update for task `id` in `state`. */
  function Apply(inst: Instances, id: TaskId, state: TaskState): (r: Instances)
    ensures state != TaskRunning ==> r.Total() <= inst.Total()
    ensures state != TaskRunning && !StopsDriver(state) ==> r == inst
    ensures r.Total() <= inst.Total() + 1
  {
    if state == TaskRunning then
      Instances(RemoveFirst(inst.pending, id), inst.running + [id])
    else if StopsDriver(state) then
      Instances(RemoveFirst(inst.pending, id), RemoveFirst(inst.running, id))
    else
      inst
  }

  /** RUNNING takes one copy of the ID out of the pending list and appends it to the running list. */
  lemma {:induction false} RunningTransition(inst: Instances, id: TaskId)
    ensures var r := Apply(inst, id, TaskRunning);
            && multiset(r.pending) == multiset(inst.pending) - multiset{id}
            && r.running == inst.running + [id]
  {
    RemoveFirstCount(inst.pending, id);
  }

  /** FAILED, LOST, KILLED and FINISHED take one copy of the ID out of each list; an ID in
      neither list leaves both unchanged. */
  lemma {:induction false} StoppingTransition(inst: Instances, id: TaskId, state: TaskState)
    requires StopsDriver(state)
    ensures var r := Apply(inst, id, state);
            && multiset(r.pending) == multiset(inst.pending) - multiset{id}
            && multiset(r.running) == multiset(inst.running) - multiset{id}
            && (id !in inst.pending && id !in inst.running ==> r == inst)
  {
    RemoveFirstCount(inst.pending, id);
    RemoveFirstCount(inst.running, id);
  }

  /** Every other state (staging, starting, killing, error, ...) leaves both lists unchanged. */
  lemma OtherStatesChangeNothing(inst: Instances, id: TaskId, state: TaskState)
    requires state != TaskRunning && !StopsDriver(state)
    ensures Apply(inst, id, state) == inst
  {
  }

  /** How a status update changes `pending + running`: RUNNING adds one unless the task was pending,
      a stopping state subtracts one per list that held the task, any other state changes nothing. */
  lemma StatusChangesTotal(inst: Instances, id: TaskId, state: TaskState)
    ensures var r := Apply(inst, id, state);
            && (state == TaskRunning ==> r.Total() == inst.Total() + (if id in inst.pending then 0 else 1))
            && (StopsDriver(state) ==>
                  r.Total() == inst.Total() - (if id in inst.pending then 1 else 0) - (if id in inst.running then 1 else 0))
            && (state != TaskRunning ==> r.Total() <= inst.Total())
  {
  }

  /** A status update keeps the pending and running lists apart and the pending list free of duplicates. */
  lemma StatusKeepsWellFormed(inst: Instances, id: TaskId, state: TaskState)
    requires inst.WellFormed()
    ensures Apply(inst, id, state).WellFormed()
  {
  }

  /** RUNNING is not idempotent: a second RUNNING for the same task appends it to the running list again. */
  lemma RepeatedRunningDuplicates(inst: Instances, id: TaskId)
    ensures var once := Apply(inst, id, TaskRunning);
            var twice := Apply(once, id, TaskRunning);
            && twice.running == inst.running + [id, id]
            && twice != once
  {
  }

  /** A RUNNING for a task that is not pending is still added, so a status update can take
      `pending + running` past the desired number of instances. */
  lemma RunningMayExceedTarget(inst: Instances, id: TaskId, desired: int)
    requires id !in inst.pending && inst.Total() == desired
    ensures Apply(inst, id, TaskRunning).Total() == desired + 1
  {
  }

  /** A task that is pending and then reported RUNNING ends up running and no longer pending. */
  lemma PendingThenRunning(id: TaskId)
    ensures Apply(Instances([id], []), id, TaskRunning) == Instances([], [id])
  {
  }

  /** A running task that finishes leaves both lists empty. */
  lemma RunningThenFinished(id: TaskId)
    ensures Apply(Instances([], [id]), id, TaskFinished) == Instances([], [])
  {
  }
}
