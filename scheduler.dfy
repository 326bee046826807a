/**
 * The part of the cooperative task scheduler that the firmware relies on:
 * the seven tasks it registers, the record the scheduler keeps per task
 * (enabled flag, interval, iteration kind, pending delay) and the two
 * record updates every scheduler primitive is built from.
 * Tick timing and the scheduler's own bookkeeping are not modelled.
 */
module Scheduler {

  /** The seven tasks, in the order in which they are constructed and
      therefore registered with the scheduler. */
  datatype TaskId =
    | ShadowUpdate      // publishes the thing shadow once
    | SensorsPublish    // publishes the sensor measurements once
    | WaterPump         // its lifetime is the watering duration
    | ServiceLoop       // services MQTT traffic or reconnects, forever
    | PeriodicPublish   // restarts SensorsPublish every ten minutes
    | MoistureCheck     // every fifteen minutes, may start watering
    | LightCheck        // every thirty minutes, sets the lamp

  /** TASK_ONCE or TASK_FOREVER. */
  datatype Iterations = Once | Forever

  /** What the scheduler keeps per task. `delay` is the pending delay
      recorded when it was last (re)started; nothing here counts it down. */
  datatype TaskRecord = TaskRecord(enabled: bool, interval: nat, iterations: Iterations, delay: nat)

  const TaskImmediate: nat := 0
  const TaskSecond: nat := 1000
  const TaskMinute: nat := 60 * TaskSecond
  const TaskCount: nat := 7

  /** Position of a task in registration order. */
  function Index(t: TaskId): (i: nat)
    ensures i < TaskCount
  {
    match t
    case ShadowUpdate => 0
    case SensorsPublish => 1
    case WaterPump => 2
    case ServiceLoop => 3
    case PeriodicPublish => 4
    case MoistureCheck => 5
    case LightCheck => 6
  }

  /** The task registered at position `i`. */
  function TaskAt(i: nat): (t: TaskId)
    requires i < TaskCount
    ensures Index(t) == i
  {
    if i == 0 then ShadowUpdate
    else if i == 1 then SensorsPublish
    else if i == 2 then WaterPump
    else if i == 3 then ServiceLoop
    else if i == 4 then PeriodicPublish
    else if i == 5 then MoistureCheck
    else LightCheck
  }

  /** Distinct tasks occupy distinct positions. */
  lemma IndexInjective(t: TaskId, u: TaskId)
    ensures Index(t) == Index(u) ==> t == u
  {
    assert TaskAt(Index(t)) == t;
    assert TaskAt(Index(u)) == u;
  }

  /** The record each task is constructed with: interval, iteration kind,
      and disabled (every task passes `false` for "is enabled"). */
  function Declared(t: TaskId): (r: TaskRecord)
    ensures !r.enabled && r.delay == r.interval
    ensures r.iterations == Once <==> t in {ShadowUpdate, SensorsPublish, WaterPump}
  {
    match t
    case ShadowUpdate => TaskRecord(false, TaskImmediate, Once, TaskImmediate)
    case SensorsPublish => TaskRecord(false, TaskImmediate, Once, TaskImmediate)
    case WaterPump => TaskRecord(false, 5 * TaskSecond, Once, 5 * TaskSecond)
    case ServiceLoop => TaskRecord(false, TaskImmediate, Forever, TaskImmediate)
    case PeriodicPublish => TaskRecord(false, 10 * TaskMinute, Forever, 10 * TaskMinute)
    case MoistureCheck => TaskRecord(false, 15 * TaskMinute, Forever, 15 * TaskMinute)
    case LightCheck => TaskRecord(false, 30 * TaskMinute, Forever, 30 * TaskMinute)
  }

  /** A table of seven records whose fixed parts (interval and iteration
      kind) are the declared ones; only `enabled` and `delay` ever vary. */
  predicate Registered(tasks: seq<TaskRecord>)
  {
    |tasks| == TaskCount &&
    forall t: TaskId ::
      tasks[Index(t)].interval == Declared(t).interval &&
      tasks[Index(t)].iterations == Declared(t).iterations
  }

  /** Two tables agree on every task outside `changed`. */
  predicate AgreeOutside(a: seq<TaskRecord>, b: seq<TaskRecord>, changed: set<TaskId>)
    requires |a| == TaskCount && |b| == TaskCount
  {
    forall u: TaskId :: u !in changed ==> a[Index(u)] == b[Index(u)]
  }

  /** The scheduler's table right after the seven tasks are constructed. */
  function Registry(): (r: seq<TaskRecord>)
    ensures Registered(r)
    ensures forall t: TaskId :: r[Index(t)] == Declared(t)
    ensures forall t: TaskId :: !r[Index(t)].enabled
  {
    var r := [Declared(ShadowUpdate), Declared(SensorsPublish), Declared(WaterPump),
              Declared(ServiceLoop), Declared(PeriodicPublish), Declared(MoistureCheck),
              Declared(LightCheck)];
    RegistryInOrder(r);
    r
  }

  /** The literal table lists the declared records in registration order. */
  lemma RegistryInOrder(r: seq<TaskRecord>)
    requires r == [Declared(ShadowUpdate), Declared(SensorsPublish), Declared(WaterPump),
                   Declared(ServiceLoop), Declared(PeriodicPublish), Declared(MoistureCheck),
                   Declared(LightCheck)]
    ensures forall t: TaskId :: r[Index(t)] == Declared(t)
  {
    forall t: TaskId ensures r[Index(t)] == Declared(t) {
      match t
      case ShadowUpdate =>
      case SensorsPublish =>
      case WaterPump =>
      case ServiceLoop =>
      case PeriodicPublish =>
      case MoistureCheck =>
      case LightCheck =>
    }
  }

  /** Updating the record at one task's position leaves every other task's
      position alone. */
  lemma OthersKeepPosition(t: TaskId)
    ensures forall u: TaskId :: u != t ==> Index(u) != Index(t)
  {
    forall u: TaskId | u != t ensures Index(u) != Index(t) {
      IndexInjective(t, u);
    }
  }

  /** The outcome of an enable attempt on task `t`: the task is enabled
      exactly when the attempt was `accepted` (an onEnable hook may veto
      it), and a pending delay of `delay` is recorded; nothing else
      in the table changes. */
  function AfterEnable(tasks: seq<TaskRecord>, t: TaskId, accepted: bool, delay: nat): (r: seq<TaskRecord>)
    requires Registered(tasks)
    ensures Registered(r)
    ensures r[Index(t)].enabled == accepted && r[Index(t)].delay == delay
    ensures AgreeOutside(r, tasks, {t})
  {
    var r := tasks[Index(t) := tasks[Index(t)].(enabled := accepted, delay := delay)];
    OthersKeepPosition(t);
    r
  }

  /** The task is disabled; nothing else in the table changes. */
  function Disarm(tasks: seq<TaskRecord>, t: TaskId): (r: seq<TaskRecord>)
    requires Registered(tasks)
    ensures Registered(r)
    ensures !r[Index(t)].enabled && r[Index(t)].delay == tasks[Index(t)].delay
    ensures AgreeOutside(r, tasks, {t})
  {
    var r := tasks[Index(t) := tasks[Index(t)].(enabled := false)];
    OthersKeepPosition(t);
    r
  }
}
