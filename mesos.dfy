/** The Mesos protocol messages the scheduler reads or builds, reduced to the fields it touches,
    and the scheduler driver it talks back to. Protobuf builders become plain datatypes. */
module Mesos {

  type OfferId = string
  type SlaveId = string
  type TaskId = string
  type FrameworkId = string
  type ExecutorId = string

  /** A resource offer: the scheduler reads its id and its agent ("slave"); the attributes are
      only looked at by the constraints checker. */
  datatype Offer = Offer(id: OfferId, slaveId: SlaveId, hostname: string, attributes: map<string, string>)

  datatype MasterInfo = MasterInfo(ip: string, port: int)

  datatype Network = Host | Bridge | NoNetwork
  datatype ContainerType = Docker | MesosContainer
  datatype VolumeMode = ReadWrite | ReadOnly
  datatype Volume = Volume(containerPath: string, hostPath: string, mode: VolumeMode)
  datatype DockerInfo = DockerInfo(image: string, network: Network, forcePullImage: bool)
  datatype ContainerInfo = ContainerInfo(containerType: ContainerType, docker: DockerInfo, volumes: seq<Volume>)

  datatype ValueType = Scalar | Ranges | SetValue | Text
  /** A resource request; CPU and memory amounts are passed through, never computed with. */
  datatype Resource = Resource(name: string, valueType: ValueType, scalar: real)

  /** The command given to the scheduler by its caller, passed through unchanged. */
  datatype CommandInfo = CommandInfo(shell: bool, value: string, arguments: seq<string>)

  datatype TaskInfo = TaskInfo(
    name: string,
    taskId: TaskId,
    slaveId: SlaveId,
    resources: seq<Resource>,
    container: ContainerInfo,
    command: CommandInfo)

  datatype Filters = Filters(refuseSeconds: real)

  /** The task states of the Mesos protocol. */
  datatype TaskState =
    | TaskStaging | TaskStarting | TaskRunning | TaskKilling | TaskFinished | TaskFailed
    | TaskKilled | TaskError | TaskLost | TaskDropped | TaskUnreachable | TaskGone
    | TaskGoneByOperator | TaskUnknown

  datatype TaskStatus = TaskStatus(taskId: TaskId, state: TaskState)

  /** One call the scheduler makes on its driver. */
  datatype DriverCall =
    | LaunchTasksCall(offerId: OfferId, tasks: seq<TaskInfo>, filters: Filters)
    | StopCall(failover: bool)

  /** The driver, seen only through the calls the scheduler makes on it. */
  class SchedulerDriver {
    ghost var log: seq<DriverCall>

    constructor ()
      ensures log == []
    {
      log := [];
    }

    method LaunchTasks(offerId: OfferId, tasks: seq<TaskInfo>, filters: Filters)
      modifies this
      ensures log == old(log) + [LaunchTasksCall(offerId, tasks, filters)]
    {
      log := log + [LaunchTasksCall(offerId, tasks, filters)];
    }

    method Stop(failover: bool)
      modifies this
      ensures log == old(log) + [StopCall(failover)]
    {
      log := log + [StopCall(failover)];
    }
  }
}
