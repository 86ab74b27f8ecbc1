/** The `DockerScheduler` object: its two lists of task IDs and the callbacks the Mesos driver
    invokes on it, one at a time. */
module Scheduling {
  import opened Mesos
  import opened Lists
  import opened SchedulerState
  import opened Offers
  import opened Status

  /** The task ID generator, seen as a stream of IDs: the k-th ID it hands out is `stream(k)`. */
  class TaskIdSource {
    const stream: nat -> TaskId
    var issued: nat

    constructor (stream: nat -> TaskId)
      ensures this.stream == stream && issued == 0
    {
      this.stream := stream;
      issued := 0;
    }

    method Next() returns (id: TaskId)
      modifies this
      ensures id == stream(old(issued)) && issued == old(issued) + 1
    {
      id := stream(issued);
      issued := issued + 1;
    }
  }

  class DockerScheduler {
    const config: Config
    /** The constraints checker's verdict on an offer. */
    const constraintsAllow: Offer -> bool
    const taskIds: TaskIdSource
    var pendingInstances: seq<TaskId>
    var runningInstances: seq<TaskId>

    function State(): Instances
      reads this
    {
      Instances(pendingInstances, runningInstances)
    }

    constructor (config: Config, constraintsAllow: Offer -> bool, taskIds: TaskIdSource)
      ensures this.config == config && this.constraintsAllow == constraintsAllow && this.taskIds == taskIds
      ensures pendingInstances == [] && runningInstances == []
    {
      this.config := config;
      this.constraintsAllow := constraintsAllow;
      this.taskIds := taskIds;
      pendingInstances := [];
      runningInstances := [];
    }

    /** Registration records the master for logging only: the lists survive it. */
    method Registered(driver: SchedulerDriver, frameworkId: FrameworkId, master: MasterInfo)
      ensures State() == old(State()) && driver.log == old(driver.log)
    {
    }

    method Reregistered(driver: SchedulerDriver, master: MasterInfo)
      ensures State() == old(State()) && driver.log == old(driver.log)
    {
    }

    /** Answers each offer the constraints checker lets through with one `launchTasks` call, holding
        a new task while fewer instances than desired are pending or running; other offers get no call. */
    method ResourceOffers(driver: SchedulerDriver, offers: seq<Offer>)
      modifies this, driver, taskIds
      ensures Outcome(State(), driver.log, taskIds.issued)
           == Run(config, constraintsAllow, taskIds.stream,
                  Outcome(old(State()), old(driver.log), old(taskIds.issued)), offers)
    {
      ghost var start := Outcome(State(), driver.log, taskIds.issued);
      for i := 0 to |offers|
        invariant Outcome(State(), driver.log, taskIds.issued)
               == Run(config, constraintsAllow, taskIds.stream, start, offers[..i])
      {
        var offer := offers[i];
        ghost var before := Outcome(State(), driver.log, taskIds.issued);
        assert offers[..i + 1][..i] == offers[..i];
        assert Run(config, constraintsAllow, taskIds.stream, start, offers[..i + 1])
            == Step(config, constraintsAllow, taskIds.stream, before, offer);
        if !constraintsAllow(offer) {
          continue;
        }
        var tasks: seq<TaskInfo> := [];
        if |runningInstances| + |pendingInstances| < config.desiredInstances {
          var taskId := taskIds.Next();
          pendingInstances := pendingInstances + [taskId];
          var task := BuildTask(config, offer, taskId);
          tasks := tasks + [task];
          assert tasks == [task];
        }
        driver.LaunchTasks(offer.id, tasks, RefuseOneSecond);
      }
      assert offers[..|offers|] == offers;
    }

    method OfferRescinded(driver: SchedulerDriver, offerId: OfferId)
      ensures State() == old(State()) && driver.log == old(driver.log)
    {
    }

    /** Applies the transition table to the reported task, and stops the driver, without failover,
        when the task failed, was lost, was killed or finished. */
    method StatusUpdate(driver: SchedulerDriver, status: TaskStatus)
      modifies this, driver
      ensures State() == Apply(old(State()), status.taskId, status.state)
      ensures driver.log == old(driver.log) + if StopsDriver(status.state) then [StopCall(false)] else []
    {
      var taskId, state := status.taskId, status.state;
      if state == TaskRunning {
        pendingInstances := RemoveFirst(pendingInstances, taskId);
        runningInstances := runningInstances + [taskId];
      } else if state == TaskFailed || state == TaskLost || state == TaskKilled {
        pendingInstances := RemoveFirst(pendingInstances, taskId);
        runningInstances := RemoveFirst(runningInstances, taskId);
        driver.Stop(false);
      } else if state == TaskFinished {
        pendingInstances := RemoveFirst(pendingInstances, taskId);
        runningInstances := RemoveFirst(runningInstances, taskId);
        driver.Stop(false);
      }
    }

    method FrameworkMessage(driver: SchedulerDriver, executorId: ExecutorId, slaveId: SlaveId, data: seq<bv8>)
      ensures State() == old(State()) && driver.log == old(driver.log)
    {
    }

    method Disconnected(driver: SchedulerDriver)
      ensures State() == old(State()) && driver.log == old(driver.log)
    {
    }

    method SlaveLost(driver: SchedulerDriver, slaveId: SlaveId)
      ensures State() == old(State()) && driver.log == old(driver.log)
    {
    }

    method ExecutorLost(driver: SchedulerDriver, executorId: ExecutorId, slaveId: SlaveId, status: int)
      ensures State() == old(State()) && driver.log == old(driver.log)
    {
    }

    method Error(driver: SchedulerDriver, message: string)
      ensures State() == old(State()) && driver.log == old(driver.log)
    {
    }
  }
}
