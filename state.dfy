/** The scheduler's configuration and its replica-tracking state. */
module SchedulerState {
  import opened Mesos
  import opened Lists

  /** What the scheduler is constructed with, taken as already parsed: the image, the number of
      instances wanted, CPU and memory amounts, the force-pull flag, the command and the volumes. */
  datatype Config = Config(
    imageName: string,
    desiredInstances: int,
    cpu: real,
    memory: real,
    forcePullImage: bool,
    command: CommandInfo,
    volumes: seq<Volume>)

  /** The contents of the two lists `pendingInstances` and `runningInstances`, in list order. */
  datatype Instances = Instances(pending: seq<TaskId>, running: seq<TaskId>) {

    /** `runningInstances.size() + pendingInstances.size()` */
    function Total(): nat {
      |pending| + |running|
    }

    ghost predicate Disjoint() {
      forall id :: id in pending ==> id !in running
    }

    /** No task ID is both pending and running, and none is pending twice. */
    ghost predicate WellFormed() {
      Disjoint() && NoDuplicates(pending)
    }
  }
}
