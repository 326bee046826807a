/**
 * The firmware's global state as one object: the device state, the
 * service's connection flag, the scheduler's seven task records and the
 * event log. Each hook and callback of the task graph is a method that
 * changes these fields step by step, in the order the firmware does, and
 * is proved to leave exactly the state the matching Orchestration
 * function describes.
 */
module Firmware {
  import opened Scheduler
  import O = Orchestration

  class Appliance {
    var lamp: bool
    var pump: bool
    var lightThreshold: real
    var moistureThreshold: int
    var connected: bool
    var tasks: seq<TaskRecord>
    var log: seq<O.Event>

    /** DEFAULT_LIGHT_THRESHOLD and DEFAULT_MOISTURE_THRESHOLD. */
    const defaultLightThreshold: real
    const defaultMoistureThreshold: int

    /** The abstract value of the object. */
    function State(): O.Snapshot
      reads this
    {
      O.Snapshot(lamp, pump, lightThreshold, moistureThreshold, connected, tasks, log)
    }

    predicate Valid()
      reads this
    {
      Registered(tasks)
    }

    /** Construction of the global objects: the seven tasks are registered
        disabled; the actuators and thresholds hold whatever the device
        state starts with. */
    constructor (lamp0: bool, pump0: bool, light0: real, moisture0: int,
                 defaultLight: real, defaultMoisture: int)
      ensures Valid()
      ensures State() == O.Initial(lamp0, pump0, light0, moisture0)
      ensures defaultLightThreshold == defaultLight && defaultMoistureThreshold == defaultMoisture
    {
      lamp, pump := lamp0, pump0;
      lightThreshold, moistureThreshold := light0, moisture0;
      connected := false;
      tasks := Registry();
      log := [];
      defaultLightThreshold, defaultMoistureThreshold := defaultLight, defaultMoisture;
    }

    // -------------------------------------------------------------------
    // Device-state accessors

    method Emit(e: O.Event)
      modifies this
      ensures State() == O.Emit(old(State()), e)
    {
      log := log + [e];
    }

    method WriteLamp(on: bool)
      modifies this
      ensures State() == O.WriteLamp(old(State()), on)
    {
      lamp := on;
      log := log + [O.LampWritten(on)];
    }

    method WritePump(on: bool)
      modifies this
      ensures State() == O.WritePump(old(State()), on)
    {
      pump := on;
      log := log + [O.PumpWritten(on)];
    }

    // -------------------------------------------------------------------
    // Scheduler primitives

    method Restart(t: TaskId)
      requires Valid()
      modifies this
      decreases O.HookRank(t), 2
      ensures Valid() && State() == O.Restart(old(State()), t)
    {
      Emit(O.Restarted(t));
      Start(t, Declared(t).interval);
    }

    method RestartDelayed(t: TaskId, d: nat)
      requires Valid()
      modifies this
      ensures Valid() && State() == O.RestartDelayed(old(State()), t, d)
    {
      Emit(O.RestartedDelayed(t, d));
      Start(t, d);
    }

    method Enable(t: TaskId)
      requires Valid()
      modifies this
      ensures Valid() && State() == O.Enable(old(State()), t)
    {
      Emit(O.EnableCalled(t));
      Start(t, Declared(t).interval);
    }

    /** Run the onEnable hook, if the task has one, and record whether the
        task is now enabled. */
    method Start(t: TaskId, delay: nat)
      requires Valid()
      modifies this
      decreases O.HookRank(t), 1
      ensures Valid() && State() == O.Start(old(State()), t, delay)
    {
      if t == WaterPump {
        var accepted := PumpOnEnable();
        tasks := AfterEnable(tasks, t, accepted, delay);
      } else {
        tasks := AfterEnable(tasks, t, true, delay);
      }
    }

    /** Disable a one-shot task after its last iteration and run its
        onDisable hook, if it has one. */
    method Expire(t: TaskId)
      requires Valid()
      modifies this
      ensures Valid() && State() == O.Expire(old(State()), t)
    {
      Emit(O.Expired(t));
      tasks := Disarm(tasks, t);
      if t == WaterPump {
        PumpOnDisable();
      }
    }

    // -------------------------------------------------------------------
    // Hooks and callbacks

    method PumpOnEnable() returns (accepted: bool)
      requires Valid()
      modifies this
      decreases 0, 3
      ensures Valid()
      ensures (State(), accepted) == O.PumpOnEnable(old(State()))
    {
      WritePump(true);
      Restart(ShadowUpdate);
      accepted := true;
    }

    method PumpOnDisable()
      requires Valid()
      modifies this
      ensures Valid() && State() == O.PumpOnDisable(old(State()))
    {
      WritePump(false);
      Restart(ShadowUpdate);
    }

    method ShadowUpdateRun()
      modifies this
      ensures State() == O.ShadowUpdateRun(old(State()))
    {
      Emit(O.ShadowPublished);
    }

    method SensorsPublishRun()
      modifies this
      ensures State() == O.SensorsPublishRun(old(State()))
    {
      Emit(O.SensorsPublished);
    }

    /** `connectOk` is what the service's connect() returns, should it be
        called. */
    method ServiceLoopRun(connectOk: bool)
      requires Valid()
      modifies this
      ensures Valid() && State() == O.ServiceLoopRun(old(State()), connectOk)
    {
      if connected {
        Emit(O.ServiceLooped);
        return;
      }
      Emit(O.ConnectAttempted(connectOk));
      connected := connectOk;
      if connectOk {
        RestartDelayed(ShadowUpdate, O.ConnectAnnounceDelay);
      }
    }

    method PeriodicPublishRun()
      requires Valid()
      modifies this
      ensures Valid() && State() == O.PeriodicPublishRun(old(State()))
    {
      Restart(SensorsPublish);
    }

    method MoistureCheckRun(moisture: int)
      requires Valid()
      modifies this
      ensures Valid() && State() == O.MoistureCheckRun(old(State()), moisture)
    {
      if moisture < moistureThreshold {
        Restart(WaterPump);
      }
    }

    /** The lamp is written twice in a row when it is dark: first off, then
        on. */
    method LightCheckRun(light: real)
      requires Valid()
      modifies this
      ensures Valid() && State() == O.LightCheckRun(old(State()), light)
    {
      WriteLamp(false);
      if light < lightThreshold {
        WriteLamp(true);
      }
      Restart(ShadowUpdate);
    }

    /** The scheduler executes task `t`, which has come due. */
    method Execute(t: TaskId, r: O.Readings)
      requires Valid()
      modifies this
      ensures Valid() && State() == O.Execute(old(State()), t, r)
    {
      if !tasks[Index(t)].enabled {
        return;
      }
      match t {
        case ShadowUpdate => ShadowUpdateRun();
        case SensorsPublish => SensorsPublishRun();
        case WaterPump =>  // no callback: the pump task only has hooks
        case ServiceLoop => ServiceLoopRun(r.connectOk);
        case PeriodicPublish => PeriodicPublishRun();
        case MoistureCheck => MoistureCheckRun(r.moisture);
        case LightCheck => LightCheckRun(r.light);
      }
      if Declared(t).iterations == Once {
        Expire(t);
      }
    }

    /** The main loop calling the scheduler again and again, here for a
        finite sequence of due executions. */
    method Run(fs: seq<O.Firing>)
      requires Valid()
      modifies this
      ensures Valid() && State() == O.RunAll(old(State()), fs)
    {
      var i := 0;
      while i < |fs|
        invariant 0 <= i <= |fs|
        invariant Valid()
        invariant O.RunAll(State(), fs[i..]) == O.RunAll(old(State()), fs)
      {
        assert fs[i..][0] == fs[i] && fs[i..][1..] == fs[i + 1..];
        Execute(fs[i].task, fs[i].readings);
        i := i + 1;
      }
    }

    /** The state-and-service part of `setup()`, once its earlier steps
        have ended with `outcome`. */
    method Setup(outcome: O.SetupOutcome)
      requires Valid()
      modifies this
      ensures Valid() && State() == O.Setup(old(State()), outcome, defaultLightThreshold, defaultMoistureThreshold)
    {
      if !outcome.Completed? {
        return;
      }
      Emit(O.ThingNameSet(outcome.thingNamePresent));
      WriteLamp(false);
      WritePump(false);
      lightThreshold := defaultLightThreshold;
      log := log + [O.LightThresholdSet(defaultLightThreshold)];
      moistureThreshold := defaultMoistureThreshold;
      log := log + [O.MoistureThresholdSet(defaultMoistureThreshold)];
      assert State() == O.InstallDefaults(O.Emit(old(State()), O.ThingNameSet(outcome.thingNamePresent)), defaultLightThreshold, defaultMoistureThreshold);
      Enable(ServiceLoop);
      Enable(PeriodicPublish);
      Enable(LightCheck);
      Enable(MoistureCheck);
    }
  }
}
