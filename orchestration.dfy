/**
 * The task-orchestration graph of the herb-garden firmware, as pure state
 * transitions. A Snapshot is the device state (lamp, pump, the two
 * thresholds), the broker connection flag, the scheduler's seven task
 * records and a log of the externally visible events so far.
 *
 * Every hook and callback wired in the firmware's task definitions is a
 * function from the snapshot before it runs to the snapshot after it; the
 * scheduler primitives it calls (restart, restartDelayed, enable, and the
 * execution of a due task) are functions too. Sensor readings and the
 * result of a connection attempt are parameters.
 */
module Orchestration {
  import opened Scheduler

  /** What the task graph does that can be observed from outside. */
  datatype Event =
    | Restarted(task: TaskId)                    // task.restart()
    | RestartedDelayed(task: TaskId, delay: nat) // task.restartDelayed(delay)
    | EnableCalled(task: TaskId)                 // task.enable()
    | Expired(task: TaskId)                      // a one-shot task ran its last iteration
    | LampWritten(on: bool)                      // writeLampPinID
    | PumpWritten(on: bool)                      // writePumpPinID
    | LightThresholdSet(lux: real)               // setLightThreshold
    | MoistureThresholdSet(level: int)           // setMoistureThreshold
    | ConnectAttempted(ok: bool)                 // service connect() and its result
    | ServiceLooped                              // service loop()
    | ShadowPublished                            // service publishShadowUpdate()
    | SensorsPublished                           // service publishSensorsMeasurements()
    | ThingNameSet(present: bool)                // service setThingName, with or without a name read

  /** The outside world as one task execution sees it: the light level, the
      soil-moisture level and what a connection attempt would return. */
  datatype Readings = Readings(light: real, moisture: int, connectOk: bool)

  /** One due execution picked by the scheduler. */
  datatype Firing = Firing(task: TaskId, readings: Readings)

  datatype Snapshot = Snapshot(
    lamp: bool,
    pump: bool,
    lightThreshold: real,
    moistureThreshold: int,
    connected: bool,
    tasks: seq<TaskRecord>,
    log: seq<Event>)

  /** How `setup()` ends: one of its early returns, or completion (with or
      without a thing name read from storage). */
  datatype SetupOutcome =
    | NoFileSystem
    | NoEndpoint
    | NoRootCaCert
    | NoClientCert
    | NoClientKey
    | Completed(thingNamePresent: bool)

  /** Delay before the shadow is announced after a successful connection. */
  const ConnectAnnounceDelay: nat := 500

  predicate Valid(s: Snapshot)
  {
    Registered(s.tasks)
  }

  function Rec(s: Snapshot, t: TaskId): TaskRecord
    requires Valid(s)
  {
    s.tasks[Index(t)]
  }

  /** Lamp, thresholds and connection flag agree (the pump is left out). */
  predicate SameDevice(a: Snapshot, b: Snapshot)
  {
    a.lamp == b.lamp && a.lightThreshold == b.lightThreshold &&
    a.moistureThreshold == b.moistureThreshold && a.connected == b.connected
  }

  // ---------------------------------------------------------------------
  // Device-state accessors

  function Emit(s: Snapshot, e: Event): Snapshot
  {
    s.(log := s.log + [e])
  }

  /** The lamp output shows `on`, the write is logged, and nothing else
      changes. */
  function WriteLamp(s: Snapshot, on: bool): (r: Snapshot)
    ensures r.lamp == on && r.log == s.log + [LampWritten(on)]
    ensures r.(lamp := s.lamp, log := s.log) == s
  {
    s.(lamp := on, log := s.log + [LampWritten(on)])
  }

  /** The pump output shows `on`, the write is logged, and nothing else
      changes. */
  function WritePump(s: Snapshot, on: bool): (r: Snapshot)
    ensures r.pump == on && r.log == s.log + [PumpWritten(on)]
    ensures r.(pump := s.pump, log := s.log) == s
  {
    s.(pump := on, log := s.log + [PumpWritten(on)])
  }

  // ---------------------------------------------------------------------
  // Scheduler primitives. Only the water-pump task has hooks; a task
  // without an onEnable hook is always enabled by an enable attempt.

  /** Rank used to order the mutual recursion: restarting the pump task
      runs its onEnable hook, which restarts the shadow-update task. */
  function HookRank(t: TaskId): nat
  {
    if t == WaterPump then 1 else 0
  }

  /** `t.restart()`: the task is enabled through its onEnable hook and a
      pending delay of one interval is recorded. */
  function Restart(s: Snapshot, t: TaskId): (r: Snapshot)
    requires Valid(s)
    decreases HookRank(t), 2
    ensures Valid(r) && SameDevice(r, s)
    ensures Rec(r, t).enabled && Rec(r, t).delay == Declared(t).interval
    ensures t != WaterPump ==>
      r.pump == s.pump && AgreeOutside(r.tasks, s.tasks, {t}) &&
      r.log == s.log + [Restarted(t)]
    ensures t == WaterPump ==>
      r.pump && Rec(r, ShadowUpdate).enabled && Rec(r, ShadowUpdate).delay == 0 &&
      AgreeOutside(r.tasks, s.tasks, {WaterPump, ShadowUpdate}) &&
      r.log == s.log + [Restarted(WaterPump)] + [PumpWritten(true)] + [Restarted(ShadowUpdate)]
  {
    Start(Emit(s, Restarted(t)), t, Declared(t).interval)
  }

  /** `t.restartDelayed(d)`: as restart, but the pending delay recorded is
      `d`. */
  function RestartDelayed(s: Snapshot, t: TaskId, d: nat): (r: Snapshot)
    requires Valid(s)
    ensures Valid(r) && SameDevice(r, s)
    ensures Rec(r, t).enabled && Rec(r, t).delay == d
    ensures t != WaterPump ==>
      r.pump == s.pump && AgreeOutside(r.tasks, s.tasks, {t}) &&
      r.log == s.log + [RestartedDelayed(t, d)]
  {
    Start(Emit(s, RestartedDelayed(t, d)), t, d)
  }

  /** `t.enable()`, as setup uses it on tasks without hooks. */
  function Enable(s: Snapshot, t: TaskId): (r: Snapshot)
    requires Valid(s)
    ensures Valid(r) && SameDevice(r, s)
    ensures Rec(r, t).enabled && Rec(r, t).delay == Declared(t).interval
    ensures t != WaterPump ==>
      r.pump == s.pump && AgreeOutside(r.tasks, s.tasks, {t}) &&
      r.log == s.log + [EnableCalled(t)]
  {
    Start(Emit(s, EnableCalled(t)), t, Declared(t).interval)
  }

  /** The common part of every enable attempt: run the onEnable hook, if
      any, and enable the task iff the hook accepts. */
  function Start(s: Snapshot, t: TaskId, delay: nat): (r: Snapshot)
    requires Valid(s)
    decreases HookRank(t), 1
    ensures Valid(r) && SameDevice(r, s)
    ensures Rec(r, t).enabled && Rec(r, t).delay == delay
    ensures t != WaterPump ==>
      r.pump == s.pump && AgreeOutside(r.tasks, s.tasks, {t}) && r.log == s.log
    ensures t == WaterPump ==>
      r.pump && Rec(r, ShadowUpdate).enabled && Rec(r, ShadowUpdate).delay == 0 &&
      AgreeOutside(r.tasks, s.tasks, {WaterPump, ShadowUpdate}) &&
      r.log == s.log + [PumpWritten(true)] + [Restarted(ShadowUpdate)]
  {
    if t == WaterPump then
      var (s1, accepted) := PumpOnEnable(s);
      s1.(tasks := AfterEnable(s1.tasks, t, accepted, delay))
    else
      s.(tasks := AfterEnable(s.tasks, t, true, delay))
  }

  // ---------------------------------------------------------------------
  // Hooks and callbacks of the seven tasks

  /** onEnable of the water-pump task: pump on, announce the new state, and
      accept the enable. */
  function PumpOnEnable(s: Snapshot): (r: (Snapshot, bool))
    requires Valid(s)
    decreases 0, 3
    ensures Valid(r.0) && SameDevice(r.0, s)
    ensures r.1
    ensures r.0.pump
    ensures Rec(r.0, ShadowUpdate).enabled && Rec(r.0, ShadowUpdate).delay == 0
    ensures AgreeOutside(r.0.tasks, s.tasks, {ShadowUpdate})
    ensures r.0.log == s.log + [PumpWritten(true)] + [Restarted(ShadowUpdate)]
  {
    (Restart(WritePump(s, true), ShadowUpdate), true)
  }

  /** onDisable of the water-pump task: pump off, announce the new state. */
  function PumpOnDisable(s: Snapshot): (r: Snapshot)
    requires Valid(s)
    ensures Valid(r) && SameDevice(r, s)
    ensures !r.pump
    ensures Rec(r, ShadowUpdate).enabled && Rec(r, ShadowUpdate).delay == 0
    ensures AgreeOutside(r.tasks, s.tasks, {ShadowUpdate})
    ensures r.log == s.log + [PumpWritten(false)] + [Restarted(ShadowUpdate)]
  {
    Restart(WritePump(s, false), ShadowUpdate)
  }

  /** Callback of the shadow-update task. There is no connectivity check. */
  function ShadowUpdateRun(s: Snapshot): (r: Snapshot)
    ensures r.(log := s.log) == s && r.log == s.log + [ShadowPublished]
  {
    Emit(s, ShadowPublished)
  }

  /** Callback of the sensors-publish task. There is no connectivity check. */
  function SensorsPublishRun(s: Snapshot): (r: Snapshot)
    ensures r.(log := s.log) == s && r.log == s.log + [SensorsPublished]
  {
    Emit(s, SensorsPublished)
  }

  /** Callback of the service-loop task: service traffic when connected,
      otherwise try to connect and, on success, announce the shadow after a
      delay. */
  function ServiceLoopRun(s: Snapshot, connectOk: bool): (r: Snapshot)
    requires Valid(s)
    ensures Valid(r)
    ensures s.connected ==> r == s.(log := s.log + [ServiceLooped])
    ensures !s.connected ==> r.connected == connectOk
    ensures !s.connected && !connectOk ==>
      r == s.(log := s.log + [ConnectAttempted(false)])
    ensures !s.connected && connectOk ==>
      r.(tasks := s.tasks, log := s.log, connected := false) == s &&
      Rec(r, ShadowUpdate).enabled && Rec(r, ShadowUpdate).delay == ConnectAnnounceDelay &&
      AgreeOutside(r.tasks, s.tasks, {ShadowUpdate}) &&
      r.log == s.log + [ConnectAttempted(true)] + [RestartedDelayed(ShadowUpdate, ConnectAnnounceDelay)]
  {
    if s.connected then
      Emit(s, ServiceLooped)
    else
      var s1 := Emit(s, ConnectAttempted(connectOk)).(connected := connectOk);
      if connectOk then RestartDelayed(s1, ShadowUpdate, ConnectAnnounceDelay) else s1
  }

  /** Callback of the periodic-publish task: restart the one-shot sensors
      publish, and nothing else. */
  function PeriodicPublishRun(s: Snapshot): (r: Snapshot)
    requires Valid(s)
    ensures Valid(r) && SameDevice(r, s) && r.pump == s.pump
    ensures Rec(r, SensorsPublish).enabled && Rec(r, SensorsPublish).delay == 0
    ensures AgreeOutside(r.tasks, s.tasks, {SensorsPublish})
    ensures r.log == s.log + [Restarted(SensorsPublish)]
  {
    Restart(s, SensorsPublish)
  }

  /** Callback of the moisture-check task: start watering iff the soil is
      drier than the threshold. */
  function MoistureCheckRun(s: Snapshot, moisture: int): (r: Snapshot)
    requires Valid(s)
    ensures Valid(r)
    ensures moisture < s.moistureThreshold ==>
      SameDevice(r, s) && r.pump &&
      Rec(r, WaterPump).enabled && Rec(r, WaterPump).delay == 5 * TaskSecond &&
      Rec(r, ShadowUpdate).enabled && Rec(r, ShadowUpdate).delay == 0 &&
      AgreeOutside(r.tasks, s.tasks, {WaterPump, ShadowUpdate}) &&
      r.log == s.log + [Restarted(WaterPump)] + [PumpWritten(true)] + [Restarted(ShadowUpdate)]
    ensures moisture >= s.moistureThreshold ==> r == s
  {
    if moisture < s.moistureThreshold then Restart(s, WaterPump) else s
  }

  /** Callback of the light-check task: lamp off, then on again if it is
      darker than the threshold; announce the state in either case. */
  function LightCheckRun(s: Snapshot, light: real): (r: Snapshot)
    requires Valid(s)
    ensures Valid(r)
    ensures r.lamp == (light < s.lightThreshold)
    ensures r.pump == s.pump && r.lightThreshold == s.lightThreshold &&
            r.moistureThreshold == s.moistureThreshold && r.connected == s.connected
    ensures Rec(r, ShadowUpdate).enabled && Rec(r, ShadowUpdate).delay == 0
    ensures AgreeOutside(r.tasks, s.tasks, {ShadowUpdate})
    ensures r.log == s.log + [LampWritten(false)] +
                     (if light < s.lightThreshold then [LampWritten(true)] else []) +
                     [Restarted(ShadowUpdate)]
  {
    var off := WriteLamp(s, false);
    var lit := if light < off.lightThreshold then WriteLamp(off, true) else off;
    Restart(lit, ShadowUpdate)
  }

  /** The callback registered for each task. The pump task has none, so
      running it changes nothing; no callback writes a threshold, only the
      light check writes the lamp, only the moisture check (through the
      pump task's onEnable) writes the pump, and only the service loop
      changes the connection flag. */
  function Callback(s: Snapshot, t: TaskId, r: Readings): (s': Snapshot)
    requires Valid(s)
    ensures Valid(s')
    ensures t == WaterPump ==> s' == s
    ensures s'.lightThreshold == s.lightThreshold && s'.moistureThreshold == s.moistureThreshold
    ensures t != LightCheck ==> s'.lamp == s.lamp
    ensures t != MoistureCheck ==> s'.pump == s.pump
    ensures t != ServiceLoop ==> s'.connected == s.connected
  {
    match t
    case ShadowUpdate => ShadowUpdateRun(s)
    case SensorsPublish => SensorsPublishRun(s)
    case WaterPump => s
    case ServiceLoop => ServiceLoopRun(s, r.connectOk)
    case PeriodicPublish => PeriodicPublishRun(s)
    case MoistureCheck => MoistureCheckRun(s, r.moisture)
    case LightCheck => LightCheckRun(s, r.light)
  }

  /** A one-shot task that has run its only iteration is disabled, and its
      onDisable hook (only the pump task has one) runs. */
  function Expire(s: Snapshot, t: TaskId): (r: Snapshot)
    requires Valid(s)
    ensures Valid(r) && SameDevice(r, s)
    ensures !Rec(r, t).enabled
    ensures Rec(r, t).delay == Rec(s, t).delay
    ensures t != WaterPump ==>
      r.pump == s.pump && AgreeOutside(r.tasks, s.tasks, {t}) && r.log == s.log + [Expired(t)]
    ensures t == WaterPump ==>
      !r.pump && Rec(r, ShadowUpdate).enabled && Rec(r, ShadowUpdate).delay == 0 &&
      AgreeOutside(r.tasks, s.tasks, {WaterPump, ShadowUpdate}) &&
      r.log == s.log + [Expired(WaterPump)] + [PumpWritten(false)] + [Restarted(ShadowUpdate)]
  {
    var s1 := Emit(s, Expired(t)).(tasks := Disarm(s.tasks, t));
    if t == WaterPump then PumpOnDisable(s1) else s1
  }

  /** The scheduler executes task `t` when it is due: a disabled task is
      skipped; otherwise its callback runs, and a one-shot task expires. */
  function Execute(s: Snapshot, t: TaskId, r: Readings): (s': Snapshot)
    requires Valid(s)
    ensures Valid(s')
    ensures !Rec(s, t).enabled ==> s' == s
    ensures Rec(s, t).enabled && Declared(t).iterations == Forever ==> Rec(s', t).enabled
    ensures Rec(s, t).enabled && Declared(t).iterations == Once ==> !Rec(s', t).enabled
  {
    if !Rec(s, t).enabled then s
    else
      var ran := Callback(s, t, r);
      if Declared(t).iterations == Once then Expire(ran, t) else ran
  }

  /** A sequence of due executions, in order: what the main loop's repeated
      calls to the scheduler amount to. */
  function RunAll(s: Snapshot, fs: seq<Firing>): (r: Snapshot)
    requires Valid(s)
    ensures Valid(r)
    decreases |fs|
  {
    if fs == [] then s else RunAll(Execute(s, fs[0].task, fs[0].readings), fs[1..])
  }

  // ---------------------------------------------------------------------
  // Construction and setup

  /** Right after the global objects are constructed: every task disabled
      with its declared record, not connected, nothing logged; the actuator
      and threshold values are whatever the device state started with. */
  function Initial(lamp: bool, pump: bool, lightThreshold: real, moistureThreshold: int): (s: Snapshot)
    ensures Valid(s) && !s.connected && s.log == []
    ensures forall t: TaskId :: Rec(s, t) == Declared(t)
  {
    Snapshot(lamp, pump, lightThreshold, moistureThreshold, false, Registry(), [])
  }

  /** The state-and-service part of `setup()`. An early return leaves the
      task graph untouched; completion hands the thing name (present or
      not) to the service, writes both actuators off, sets the default
      thresholds and enables the four periodic tasks in order. */
  function Setup(s: Snapshot, outcome: SetupOutcome, defaultLight: real, defaultMoisture: int): (r: Snapshot)
    requires Valid(s)
    ensures Valid(r)
    ensures !outcome.Completed? ==> r == s
  {
    if !outcome.Completed? then s
    else
      var named := Emit(s, ThingNameSet(outcome.thingNamePresent));
      var s3 := InstallDefaults(named, defaultLight, defaultMoisture);
      Enable(Enable(Enable(Enable(s3, ServiceLoop), PeriodicPublish), LightCheck), MoistureCheck)
  }

  /** A completed setup: the thing name handed over, lamp and pump off,
      the default thresholds installed, the four periodic tasks enabled in
      source order with a pending delay of one interval each, and the other
      three tasks untouched. */
  lemma SetupCompletes(s: Snapshot, thingNamePresent: bool, defaultLight: real, defaultMoisture: int)
    requires Valid(s)
    ensures var r := Setup(s, Completed(thingNamePresent), defaultLight, defaultMoisture);
      !r.lamp && !r.pump && r.lightThreshold == defaultLight &&
      r.moistureThreshold == defaultMoisture && r.connected == s.connected &&
      Rec(r, ServiceLoop).enabled && Rec(r, PeriodicPublish).enabled &&
      Rec(r, LightCheck).enabled && Rec(r, MoistureCheck).enabled &&
      (forall u: TaskId :: u in {ServiceLoop, PeriodicPublish, LightCheck, MoistureCheck} ==>
        Rec(r, u).delay == Declared(u).interval) &&
      AgreeOutside(r.tasks, s.tasks, {ServiceLoop, PeriodicPublish, LightCheck, MoistureCheck}) &&
      r.log == s.log + [ThingNameSet(thingNamePresent), LampWritten(false), PumpWritten(false),
                        LightThresholdSet(defaultLight), MoistureThresholdSet(defaultMoisture),
                        EnableCalled(ServiceLoop), EnableCalled(PeriodicPublish),
                        EnableCalled(LightCheck), EnableCalled(MoistureCheck)]
  {
    var named := Emit(s, ThingNameSet(thingNamePresent));
    var s3 := InstallDefaults(named, defaultLight, defaultMoisture);
    var e1 := Enable(s3, ServiceLoop);
    var e2 := Enable(e1, PeriodicPublish);
    var e3 := Enable(e2, LightCheck);
    var e4 := Enable(e3, MoistureCheck);
    assert Setup(s, Completed(thingNamePresent), defaultLight, defaultMoisture) == e4;
    assert Rec(e4, ServiceLoop) == Rec(e3, ServiceLoop) == Rec(e2, ServiceLoop) == Rec(e1, ServiceLoop);
    assert Rec(e4, PeriodicPublish) == Rec(e3, PeriodicPublish) == Rec(e2, PeriodicPublish);
    assert Rec(e4, LightCheck) == Rec(e3, LightCheck);
    assert s3.log == s.log + [ThingNameSet(thingNamePresent), LampWritten(false), PumpWritten(false),
                              LightThresholdSet(defaultLight), MoistureThresholdSet(defaultMoisture)];
  }

  /** Both actuators written off, then both thresholds set: the part of
      setup that comes before the four tasks are enabled. */
  function InstallDefaults(s: Snapshot, defaultLight: real, defaultMoisture: int): (r: Snapshot)
    requires Valid(s)
    ensures Valid(r) && r.tasks == s.tasks && r.connected == s.connected
  {
    var s1 := WritePump(WriteLamp(s, false), false);
    var s2 := s1.(lightThreshold := defaultLight, log := s1.log + [LightThresholdSet(defaultLight)]);
    s2.(moistureThreshold := defaultMoisture, log := s2.log + [MoistureThresholdSet(defaultMoisture)])
  }
}
