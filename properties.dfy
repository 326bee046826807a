/**
 * Properties of the orchestration graph that relate several steps, or the
 * log a step leaves behind: how often a step restarts, writes or connects,
 * the invariant that the actuators show their last write, the one-shot
 * discipline, and the setup and watering scenarios.
 */
module Properties {
  import opened Scheduler
  import opened Orchestration

  // ---------------------------------------------------------------------
  // Counting events in the log

  /** How many times `e` occurs in `log`. */
  function Count(log: seq<Event>, e: Event): nat
  {
    if log == [] then 0
    else (if log[0] == e then 1 else 0) + Count(log[1..], e)
  }

  lemma {:induction false} CountAppend(a: seq<Event>, b: seq<Event>, e: Event)
    ensures Count(a + b, e) == Count(a, e) + Count(b, e)
  {
    if a == [] {
      assert a + b == b;
    } else {
      assert (a + b)[0] == a[0];
      assert (a + b)[1..] == a[1..] + b;
      CountAppend(a[1..], b, e);
    }
  }

  /** One more event in the log adds one to its own count only. */
  lemma CountSnoc(a: seq<Event>, x: Event, e: Event)
    ensures Count(a + [x], e) == Count(a, e) + (if x == e then 1 else 0)
  {
    CountAppend(a, [x], e);
    assert [x][1..] == [];
  }

  /** CountSnoc, for every event at once. */
  lemma CountSnocEvery(a: seq<Event>, x: Event)
    ensures forall e: Event :: Count(a + [x], e) == Count(a, e) + (if x == e then 1 else 0)
  {
    forall e: Event ensures Count(a + [x], e) == Count(a, e) + (if x == e then 1 else 0) {
      CountSnoc(a, x, e);
    }
  }

  /** The number of connection attempts in a log, successful or not. */
  function Attempts(log: seq<Event>): nat
  {
    Count(log, ConnectAttempted(true)) + Count(log, ConnectAttempted(false))
  }

  // ---------------------------------------------------------------------
  // Actuator outputs reflect the last explicit write

  /** The value of the last lamp write in `log`, or `current` if there is
      none. */
  function LastLampWrite(log: seq<Event>, current: bool): bool
  {
    if log == [] then current
    else LastLampWrite(log[1..], if log[0].LampWritten? then log[0].on else current)
  }

  /** The value of the last pump write in `log`, or `current` if there is
      none. */
  function LastPumpWrite(log: seq<Event>, current: bool): bool
  {
    if log == [] then current
    else LastPumpWrite(log[1..], if log[0].PumpWritten? then log[0].on else current)
  }

  lemma {:induction false} LastWriteAppend(a: seq<Event>, b: seq<Event>, lamp: bool, pump: bool)
    ensures LastLampWrite(a + b, lamp) == LastLampWrite(b, LastLampWrite(a, lamp))
    ensures LastPumpWrite(a + b, pump) == LastPumpWrite(b, LastPumpWrite(a, pump))
  {
    if a == [] {
      assert a + b == b;
    } else {
      assert (a + b)[0] == a[0];
      assert (a + b)[1..] == a[1..] + b;
      LastWriteAppend(a[1..], b,
        if a[0].LampWritten? then a[0].on else lamp,
        if a[0].PumpWritten? then a[0].on else pump);
    }
  }

  /** Adding one event to the log: a lamp or pump write becomes the last
      write, any other event leaves the last writes alone. */
  lemma LastWriteSnoc(a: seq<Event>, x: Event, lamp: bool, pump: bool)
    ensures LastLampWrite(a + [x], lamp) == if x.LampWritten? then x.on else LastLampWrite(a, lamp)
    ensures LastPumpWrite(a + [x], pump) == if x.PumpWritten? then x.on else LastPumpWrite(a, pump)
  {
    LastWriteAppend(a, [x], lamp, pump);
    assert [x][1..] == [];
  }

  /** A log without actuator writes leaves the last writes where they were. */
  lemma {:induction false} LastWriteUntouched(log: seq<Event>, lamp: bool, pump: bool)
    requires forall i | 0 <= i < |log| :: !log[i].LampWritten? && !log[i].PumpWritten?
    ensures LastLampWrite(log, lamp) == lamp && LastPumpWrite(log, pump) == pump
  {
    if log != [] {
      LastWriteUntouched(log[1..], lamp, pump);
    }
  }

  /** The task table is well formed and both actuator outputs equal the
      value their last logged write put there (writes are synchronous,
      nothing else touches the outputs). */
  predicate Consistent(s: Snapshot)
  {
    Valid(s) && LastLampWrite(s.log, s.lamp) == s.lamp && LastPumpWrite(s.log, s.pump) == s.pump
  }

  /** A step that only appends events that are not actuator writes and
      leaves both outputs alone keeps the snapshot consistent. */
  lemma NeutralKeepsConsistent(s: Snapshot, r: Snapshot, x: Event)
    requires Consistent(s) && Valid(r)
    requires r.lamp == s.lamp && r.pump == s.pump && r.log == s.log + [x]
    requires !x.LampWritten? && !x.PumpWritten?
    ensures Consistent(r)
  {
    LastWriteSnoc(s.log, x, s.lamp, s.pump);
  }

  /** Every due execution keeps the snapshot consistent. */
  lemma ExecuteKeepsConsistent(s: Snapshot, t: TaskId, rd: Readings)
    requires Consistent(s)
    ensures Consistent(Execute(s, t, rd))
  {
    var r := Execute(s, t, rd);
    if !Rec(s, t).enabled {
      return;
    }
    var ran := Callback(s, t, rd);
    match t
    case ShadowUpdate =>
      NeutralKeepsConsistent(s, ran, ShadowPublished);
      NeutralKeepsConsistent(ran, r, Expired(ShadowUpdate));
    case SensorsPublish =>
      NeutralKeepsConsistent(s, ran, SensorsPublished);
      NeutralKeepsConsistent(ran, r, Expired(SensorsPublish));
    case WaterPump =>
      var pre := s.log + [Expired(WaterPump)];
      LastWriteSnoc(s.log, Expired(WaterPump), s.lamp, s.pump);
      LastWriteSnoc(pre, PumpWritten(false), s.lamp, s.pump);
      LastWriteSnoc(pre + [PumpWritten(false)], Restarted(ShadowUpdate), s.lamp, s.pump);
      LastWriteSnoc(s.log, Expired(WaterPump), s.lamp, false);
      LastWriteSnoc(pre, PumpWritten(false), s.lamp, false);
      LastWriteSnoc(pre + [PumpWritten(false)], Restarted(ShadowUpdate), s.lamp, false);
    case ServiceLoop =>
      if s.connected {
        NeutralKeepsConsistent(s, r, ServiceLooped);
      } else if !rd.connectOk {
        NeutralKeepsConsistent(s, r, ConnectAttempted(false));
      } else {
        var mid := Emit(s, ConnectAttempted(true));
        NeutralKeepsConsistent(s, mid, ConnectAttempted(true));
        NeutralKeepsConsistent(mid, r, RestartedDelayed(ShadowUpdate, ConnectAnnounceDelay));
      }
    case PeriodicPublish =>
      NeutralKeepsConsistent(s, r, Restarted(SensorsPublish));
    case MoistureCheck =>
      if rd.moisture < s.moistureThreshold {
        var pre := s.log + [Restarted(WaterPump)];
        LastWriteSnoc(s.log, Restarted(WaterPump), s.lamp, true);
        LastWriteSnoc(pre, PumpWritten(true), s.lamp, true);
        LastWriteSnoc(pre + [PumpWritten(true)], Restarted(ShadowUpdate), s.lamp, true);
        LastWriteSnoc(s.log, Restarted(WaterPump), s.lamp, s.pump);
        LastWriteSnoc(pre, PumpWritten(true), s.lamp, s.pump);
        LastWriteSnoc(pre + [PumpWritten(true)], Restarted(ShadowUpdate), s.lamp, s.pump);
      }
    case LightCheck =>
      var lit := rd.light < s.lightThreshold;
      var off := s.log + [LampWritten(false)];
      var on := if lit then off + [LampWritten(true)] else off;
      assert r.log == on + [Restarted(ShadowUpdate)];
      LastWriteSnoc(s.log, LampWritten(false), s.lamp, s.pump);
      LastWriteSnoc(s.log, LampWritten(false), lit, s.pump);
      LastWriteSnoc(off, LampWritten(true), lit, s.pump);
      LastWriteSnoc(off, LampWritten(true), s.lamp, s.pump);
      LastWriteSnoc(on, Restarted(ShadowUpdate), lit, s.pump);
      LastWriteSnoc(on, Restarted(ShadowUpdate), s.lamp, s.pump);
  }

  /** Any sequence of due executions keeps the snapshot consistent. */
  lemma {:induction false} RunAllKeepsConsistent(s: Snapshot, fs: seq<Firing>)
    requires Consistent(s)
    ensures Consistent(RunAll(s, fs))
    decreases |fs|
  {
    if fs != [] {
      ExecuteKeepsConsistent(s, fs[0].task, fs[0].readings);
      RunAllKeepsConsistent(Execute(s, fs[0].task, fs[0].readings), fs[1..]);
    }
  }

  // ---------------------------------------------------------------------
  // Per-callback counts

  /** The light check restarts the shadow-update task exactly once, whether
      or not the lamp changed, and restarts nothing else; the lamp ends up
      on iff it is darker than the threshold. */
  lemma LightCheckRestartsShadowOnce(s: Snapshot, light: real)
    requires Valid(s)
    ensures LightCheckRun(s, light).lamp == (light < s.lightThreshold)
    ensures forall u: TaskId ::
      Count(LightCheckRun(s, light).log, Restarted(u)) ==
      Count(s.log, Restarted(u)) + (if u == ShadowUpdate then 1 else 0)
  {
    var r := LightCheckRun(s, light);
    var off := s.log + [LampWritten(false)];
    var on := if light < s.lightThreshold then off + [LampWritten(true)] else off;
    assert r.log == on + [Restarted(ShadowUpdate)];
    forall u: TaskId
      ensures Count(r.log, Restarted(u)) == Count(s.log, Restarted(u)) + (if u == ShadowUpdate then 1 else 0)
    {
      CountSnoc(s.log, LampWritten(false), Restarted(u));
      CountSnoc(off, LampWritten(true), Restarted(u));
      CountSnoc(on, Restarted(ShadowUpdate), Restarted(u));
    }
  }

  /** When connected, the service loop only services traffic: it makes no
      connection attempt and restarts no shadow update. When disconnected
      it makes exactly one attempt, and schedules the shadow update (with a
      delay, never by an immediate restart) iff the attempt succeeds. */
  lemma ServiceLoopConnectDiscipline(s: Snapshot, ok: bool)
    requires Valid(s)
    ensures var r := ServiceLoopRun(s, ok);
      var announce := RestartedDelayed(ShadowUpdate, ConnectAnnounceDelay);
      Count(r.log, Restarted(ShadowUpdate)) == Count(s.log, Restarted(ShadowUpdate)) &&
      Attempts(r.log) == Attempts(s.log) + (if s.connected then 0 else 1) &&
      Count(r.log, ServiceLooped) == Count(s.log, ServiceLooped) + (if s.connected then 1 else 0) &&
      Count(r.log, announce) == Count(s.log, announce) + (if !s.connected && ok then 1 else 0)
  {
    var r := ServiceLoopRun(s, ok);
    if s.connected {
      assert r.log == s.log + [ServiceLooped];
      CountSnocEvery(s.log, ServiceLooped);
    } else if !ok {
      assert r.log == s.log + [ConnectAttempted(false)];
      CountSnocEvery(s.log, ConnectAttempted(false));
    } else {
      assert r.log == s.log + [ConnectAttempted(true)] + [RestartedDelayed(ShadowUpdate, ConnectAnnounceDelay)];
      CountSnocEvery(s.log, ConnectAttempted(true));
      CountSnocEvery(s.log + [ConnectAttempted(true)], RestartedDelayed(ShadowUpdate, ConnectAnnounceDelay));
    }
  }

  // ---------------------------------------------------------------------
  // The pump

  /** Inside the task graph the pump changes only through the water-pump
      hooks: it goes on when a due moisture check finds the soil dry (the
      pump task's onEnable) and off when the pump task expires (its
      onDisable); every other execution leaves it alone. */
  lemma PumpOnlyWrittenByHooks(s: Snapshot, t: TaskId, rd: Readings)
    requires Valid(s)
    ensures var r := Execute(s, t, rd);
      r.pump == (
        if !Rec(s, t).enabled then s.pump
        else if t == WaterPump then false
        else if t == MoistureCheck && rd.moisture < s.moistureThreshold then true
        else s.pump)
  {
  }

  /** The watering cycle: a due moisture check that finds the soil dry
      turns the pump on; when the pump task then expires the pump is off
      again. Each of the two writes happens exactly once, and the shadow
      update is restarted exactly twice, once by each hook. */
  lemma WateringCycle(s: Snapshot, r1: Readings, r2: Readings)
    requires Valid(s) && Rec(s, MoistureCheck).enabled
    requires r1.moisture < s.moistureThreshold
    ensures var on := Execute(s, MoistureCheck, r1);
      var off := Execute(on, WaterPump, r2);
      on.pump && Rec(on, WaterPump).enabled &&
      !off.pump && !Rec(off, WaterPump).enabled &&
      Count(off.log, Restarted(ShadowUpdate)) == Count(s.log, Restarted(ShadowUpdate)) + 2 &&
      Count(off.log, PumpWritten(true)) == Count(s.log, PumpWritten(true)) + 1 &&
      Count(off.log, PumpWritten(false)) == Count(s.log, PumpWritten(false)) + 1
  {
    var on := Execute(s, MoistureCheck, r1);
    WateringStarts(s, r1);
    var off := Execute(on, WaterPump, r2);
    WateringStops(on, r2);
    var a := s.log + [Restarted(WaterPump)];
    var b := a + [PumpWritten(true)];
    var c := b + [Restarted(ShadowUpdate)];
    var d := c + [Expired(WaterPump)];
    var e := d + [PumpWritten(false)];
    CountSnocEvery(s.log, Restarted(WaterPump));
    CountSnocEvery(a, PumpWritten(true));
    CountSnocEvery(b, Restarted(ShadowUpdate));
    CountSnocEvery(c, Expired(WaterPump));
    CountSnocEvery(d, PumpWritten(false));
    CountSnocEvery(e, Restarted(ShadowUpdate));
  }

  /** The first half of a watering cycle: the dry-soil check restarts the
      pump task, whose onEnable turns the pump on and restarts the shadow
      update. */
  lemma WateringStarts(s: Snapshot, rd: Readings)
    requires Valid(s) && Rec(s, MoistureCheck).enabled
    requires rd.moisture < s.moistureThreshold
    ensures var on := Execute(s, MoistureCheck, rd);
      Valid(on) && on.pump && Rec(on, WaterPump).enabled &&
      on.log == s.log + [Restarted(WaterPump)] + [PumpWritten(true)] + [Restarted(ShadowUpdate)]
  {
    var m := MoistureCheckRun(s, rd.moisture);
    assert Execute(s, MoistureCheck, rd) == m;
  }

  /** The second half: the expiring pump task's onDisable turns the pump
      off and restarts the shadow update. */
  lemma WateringStops(on: Snapshot, rd: Readings)
    requires Valid(on) && Rec(on, WaterPump).enabled
    ensures var off := Execute(on, WaterPump, rd);
      !off.pump && !Rec(off, WaterPump).enabled &&
      off.log == on.log + [Expired(WaterPump)] + [PumpWritten(false)] + [Restarted(ShadowUpdate)]
  {
    assert Execute(on, WaterPump, rd) == Expire(on, WaterPump);
  }

  // ---------------------------------------------------------------------
  // The pump's lifetime

  /** The pump is on exactly while its one-shot task is alive. */
  predicate PumpTracksTask(s: Snapshot)
  {
    Valid(s) && s.pump == Rec(s, WaterPump).enabled
  }

  /** Every due execution keeps the pump tied to its task: only the pump
      task's onEnable (at its restart) turns it on, and only its onDisable
      (at its expiry) turns it off. */
  lemma ExecuteKeepsPumpTracking(s: Snapshot, t: TaskId, rd: Readings)
    requires PumpTracksTask(s)
    ensures PumpTracksTask(Execute(s, t, rd))
  {
  }

  /** Over any run, the pump is on exactly while the pump task is alive. */
  lemma {:induction false} RunAllKeepsPumpTracking(s: Snapshot, fs: seq<Firing>)
    requires PumpTracksTask(s)
    ensures PumpTracksTask(RunAll(s, fs))
    decreases |fs|
  {
    if fs != [] {
      ExecuteKeepsPumpTracking(s, fs[0].task, fs[0].readings);
      RunAllKeepsPumpTracking(Execute(s, fs[0].task, fs[0].readings), fs[1..]);
    }
  }

  /** A completed boot starts with the pump off and its task disabled, so
      from then on the pump is on exactly while the pump task is alive. */
  lemma BootTracksPump(lamp: bool, pump: bool, light: real, moisture: int,
                       thingNamePresent: bool, defaultLight: real, defaultMoisture: int,
                       fs: seq<Firing>)
    ensures var booted := Setup(Initial(lamp, pump, light, moisture), Completed(thingNamePresent),
                                defaultLight, defaultMoisture);
      PumpTracksTask(booted) && PumpTracksTask(RunAll(booted, fs))
  {
    var init := Initial(lamp, pump, light, moisture);
    SetupCompletes(init, thingNamePresent, defaultLight, defaultMoisture);
    var booted := Setup(init, Completed(thingNamePresent), defaultLight, defaultMoisture);
    assert Rec(booted, WaterPump) == Rec(init, WaterPump);
    RunAllKeepsPumpTracking(booted, fs);
  }

  /** A moisture check on soil that is not drier than the threshold changes
      nothing at all: no restart, no write, no log entry. */
  lemma MoistSoilChangesNothing(s: Snapshot, rd: Readings)
    requires Valid(s) && rd.moisture >= s.moistureThreshold
    ensures Execute(s, MoistureCheck, rd) == s
  {
  }

  // ---------------------------------------------------------------------
  // One-shot tasks

  /** A one-shot task runs its callback once and is then disabled, so a
      second execution without a restart in between does nothing. */
  lemma OneShotRunsOnce(s: Snapshot, t: TaskId, r1: Readings, r2: Readings)
    requires Valid(s) && Declared(t).iterations == Once
    ensures var once := Execute(s, t, r1);
      !Rec(once, t).enabled && Execute(once, t, r2) == once
  {
  }

  /** The two publish tasks have no connectivity guard: once restarted,
      their execution calls the service's publish method whatever the
      connection state, and changes nothing but the log and their own
      enabled flag. */
  lemma PublishHasNoGuard(s: Snapshot, t: TaskId, rd: Readings)
    requires Valid(s) && t in {ShadowUpdate, SensorsPublish} && Rec(s, t).enabled
    ensures var r := Execute(s, t, rd);
      var published := if t == ShadowUpdate then ShadowPublished else SensorsPublished;
      r.log == s.log + [published] + [Expired(t)] &&
      SameDevice(r, s) && r.pump == s.pump && !Rec(r, t).enabled &&
      AgreeOutside(r.tasks, s.tasks, {t})
  {
  }

  /** The periodic publish only restarts the sensors publish; one tick later
      that publish has happened exactly once and its task is idle again. */
  lemma PeriodicPublishCycle(s: Snapshot, r1: Readings, r2: Readings)
    requires Valid(s) && Rec(s, PeriodicPublish).enabled
    ensures var restarted := Execute(s, PeriodicPublish, r1);
      var published := Execute(restarted, SensorsPublish, r2);
      Rec(restarted, PeriodicPublish).enabled && Rec(restarted, SensorsPublish).enabled &&
      Count(published.log, SensorsPublished) == Count(s.log, SensorsPublished) + 1 &&
      Count(published.log, Restarted(SensorsPublish)) == Count(s.log, Restarted(SensorsPublish)) + 1 &&
      !Rec(published, SensorsPublish).enabled
  {
    var restarted := Execute(s, PeriodicPublish, r1);
    var published := Execute(restarted, SensorsPublish, r2);
    var a := s.log + [Restarted(SensorsPublish)];
    var b := a + [SensorsPublished];
    assert published.log == b + [Expired(SensorsPublish)];
    forall x | x in [SensorsPublished, Restarted(SensorsPublish)]
      ensures Count(published.log, x) == Count(s.log, x) + 1
    {
      CountSnoc(s.log, Restarted(SensorsPublish), x);
      CountSnoc(a, SensorsPublished, x);
      CountSnoc(b, Expired(SensorsPublish), x);
    }
  }

  // ---------------------------------------------------------------------
  // Connection

  /** The service loop never disables itself: after a failed attempt it is
      still enabled and still disconnected, so its next execution starts
      with another connection attempt. */
  lemma ReconnectRetries(s: Snapshot, r1: Readings, r2: Readings)
    requires Valid(s) && Rec(s, ServiceLoop).enabled && !s.connected && !r1.connectOk
    ensures var failed := Execute(s, ServiceLoop, r1);
      var again := Execute(failed, ServiceLoop, r2);
      Rec(failed, ServiceLoop).enabled && !failed.connected &&
      failed.log == s.log + [ConnectAttempted(false)] &&
      |again.log| > |failed.log| && again.log[|failed.log|] == ConnectAttempted(r2.connectOk) &&
      again.connected == r2.connectOk
  {
  }

  /** No execution disables a task that repeats forever once it is
      enabled: only one-shot tasks are ever disabled. */
  lemma ExecuteKeepsForeverEnabled(s: Snapshot, u: TaskId, rd: Readings, t: TaskId)
    requires Valid(s) && Declared(t).iterations == Forever && Rec(s, t).enabled
    ensures Rec(Execute(s, u, rd), t).enabled
  {
    if u != t && Rec(s, u).enabled {
      var ran := Callback(s, u, rd);
      assert Rec(ran, t).enabled by {
        match u
        case ShadowUpdate =>
        case SensorsPublish =>
        case WaterPump =>
        case ServiceLoop =>
        case PeriodicPublish =>
        case MoistureCheck =>
        case LightCheck =>
      }
    }
  }

  /** The same over any run. */
  lemma {:induction false} RunAllKeepsForeverEnabled(s: Snapshot, fs: seq<Firing>, t: TaskId)
    requires Valid(s) && Declared(t).iterations == Forever && Rec(s, t).enabled
    ensures Rec(RunAll(s, fs), t).enabled
    decreases |fs|
  {
    if fs != [] {
      ExecuteKeepsForeverEnabled(s, fs[0].task, fs[0].readings, t);
      RunAllKeepsForeverEnabled(Execute(s, fs[0].task, fs[0].readings), fs[1..], t);
    }
  }

  /** Only the service loop changes the connection flag, so a run of other
      tasks leaves a disconnected service disconnected. */
  lemma {:induction false} OthersKeepConnection(s: Snapshot, fs: seq<Firing>)
    requires Valid(s)
    requires forall i :: 0 <= i < |fs| ==> fs[i].task != ServiceLoop
    ensures RunAll(s, fs).connected == s.connected
    decreases |fs|
  {
    if fs != [] {
      assert fs[0].task != ServiceLoop;
      var next := Execute(s, fs[0].task, fs[0].readings);
      assert forall i :: 0 <= i < |fs[1..]| ==> fs[1..][i].task != ServiceLoop by {
        forall i | 0 <= i < |fs[1..]| ensures fs[1..][i].task != ServiceLoop {
          assert fs[1..][i] == fs[i + 1];
        }
      }
      OthersKeepConnection(next, fs[1..]);
    }
  }

  /** Retrying on later ticks: once the service loop is enabled and the
      service disconnected, whatever other tasks run meanwhile, the loop is
      still enabled and its next execution attempts to connect again. */
  lemma RetriesAfterAnyRun(s: Snapshot, fs: seq<Firing>, rd: Readings)
    requires Valid(s) && Rec(s, ServiceLoop).enabled && !s.connected
    requires forall i :: 0 <= i < |fs| ==> fs[i].task != ServiceLoop
    ensures var r := RunAll(s, fs);
      var next := Execute(r, ServiceLoop, rd);
      Rec(r, ServiceLoop).enabled && !r.connected &&
      |next.log| > |r.log| && next.log[|r.log|] == ConnectAttempted(rd.connectOk) &&
      next.connected == rd.connectOk
  {
    RunAllKeepsForeverEnabled(s, fs, ServiceLoop);
    OthersKeepConnection(s, fs);
  }

  /** A successful reconnection marks the service connected and schedules
      the shadow update after the fixed announce delay rather than
      immediately; nothing else in the task table changes. */
  lemma ConnectAnnouncesShadowLater(s: Snapshot, rd: Readings)
    requires Valid(s) && Rec(s, ServiceLoop).enabled && !s.connected && rd.connectOk
    ensures var r := Execute(s, ServiceLoop, rd);
      r.connected && Rec(r, ShadowUpdate).enabled &&
      Rec(r, ShadowUpdate).delay == ConnectAnnounceDelay && ConnectAnnounceDelay > 0 &&
      AgreeOutside(r.tasks, s.tasks, {ShadowUpdate})
  {
  }

  // ---------------------------------------------------------------------
  // Thresholds

  /** No task of the graph changes a threshold, over any number of
      executions. */
  lemma {:induction false} ThresholdsSurviveRuns(s: Snapshot, fs: seq<Firing>)
    requires Valid(s)
    ensures RunAll(s, fs).lightThreshold == s.lightThreshold
    ensures RunAll(s, fs).moistureThreshold == s.moistureThreshold
    decreases |fs|
  {
    if fs != [] {
      var next := Execute(s, fs[0].task, fs[0].readings);
      assert next.lightThreshold == s.lightThreshold && next.moistureThreshold == s.moistureThreshold by {
        match fs[0].task
        case ShadowUpdate =>
        case SensorsPublish =>
        case WaterPump =>
        case ServiceLoop =>
        case PeriodicPublish =>
        case MoistureCheck =>
        case LightCheck =>
      }
      ThresholdsSurviveRuns(next, fs[1..]);
    }
  }

  // ---------------------------------------------------------------------
  // Boot

  /** Construction disables every task, and an early return from setup
      leaves them all disabled and the device untouched. */
  lemma EarlyReturnLeavesTasksDisabled(lamp: bool, pump: bool, light: real, moisture: int,
                                       outcome: SetupOutcome, defaultLight: real, defaultMoisture: int)
    requires !outcome.Completed?
    ensures var booted := Setup(Initial(lamp, pump, light, moisture), outcome, defaultLight, defaultMoisture);
      (forall t: TaskId :: !Rec(booted, t).enabled) &&
      booted.lamp == lamp && booted.pump == pump && booted.log == [] && !booted.connected
  {
  }

  /** A completed setup turns both actuators off, installs the default
      thresholds and enables exactly the service loop, the periodic
      publish, the light check and the moisture check; the shadow update,
      the sensors publish and the water pump stay disabled. */
  lemma CompletedSetupEnablesPeriodicTasks(lamp: bool, pump: bool, light: real, moisture: int,
                                           outcome: SetupOutcome, defaultLight: real, defaultMoisture: int)
    requires outcome.Completed?
    ensures var booted := Setup(Initial(lamp, pump, light, moisture), outcome, defaultLight, defaultMoisture);
      !booted.lamp && !booted.pump && !booted.connected &&
      booted.lightThreshold == defaultLight && booted.moistureThreshold == defaultMoisture &&
      forall t: TaskId :: Rec(booted, t).enabled <==>
        t in {ServiceLoop, PeriodicPublish, LightCheck, MoistureCheck}
  {
    var init := Initial(lamp, pump, light, moisture);
    var booted := Setup(init, outcome, defaultLight, defaultMoisture);
    SetupCompletes(init, outcome.thingNamePresent, defaultLight, defaultMoisture);
    forall t: TaskId
      ensures Rec(booted, t).enabled <==> t in {ServiceLoop, PeriodicPublish, LightCheck, MoistureCheck}
    {
      if t !in {ServiceLoop, PeriodicPublish, LightCheck, MoistureCheck} {
        assert Rec(booted, t) == Rec(init, t) == Declared(t);
      }
    }
  }

  /** A missing thing name does not stop setup from enabling the tasks: the
      device state and the task table are the same as with a name; only
      what the service was handed differs. */
  lemma ThingNameDoesNotMatter(s: Snapshot, defaultLight: real, defaultMoisture: int)
    requires Valid(s)
    ensures var unnamed := Setup(s, Completed(false), defaultLight, defaultMoisture);
      var named := Setup(s, Completed(true), defaultLight, defaultMoisture);
      unnamed.(log := named.log) == named &&
      unnamed.log[|s.log|] == ThingNameSet(false) && named.log[|s.log|] == ThingNameSet(true) &&
      named.log == unnamed.log[|s.log| := ThingNameSet(true)]
  {
    SetupCompletes(s, false, defaultLight, defaultMoisture);
    SetupCompletes(s, true, defaultLight, defaultMoisture);
  }

  /** The log a completed setup appends, whatever came before it, ends
      with both actuators written off. */
  lemma SetupLogWritesBothOff(log: seq<Event>, defaultLight: real, defaultMoisture: int, lamp: bool, pump: bool)
    ensures var head := [LampWritten(false), PumpWritten(false)];
      var rest := [LightThresholdSet(defaultLight), MoistureThresholdSet(defaultMoisture),
                   EnableCalled(ServiceLoop), EnableCalled(PeriodicPublish),
                   EnableCalled(LightCheck), EnableCalled(MoistureCheck)];
      !LastLampWrite(log + head + rest, lamp) && !LastPumpWrite(log + head + rest, pump)
  {
    var head := [LampWritten(false), PumpWritten(false)];
    var rest := [LightThresholdSet(defaultLight), MoistureThresholdSet(defaultMoisture),
                 EnableCalled(ServiceLoop), EnableCalled(PeriodicPublish),
                 EnableCalled(LightCheck), EnableCalled(MoistureCheck)];
    var l1 := LastLampWrite(log, lamp);
    var p1 := LastPumpWrite(log, pump);
    LastWriteSnoc(log, LampWritten(false), lamp, pump);
    LastWriteSnoc(log + [LampWritten(false)], PumpWritten(false), lamp, pump);
    assert log + head == log + [LampWritten(false)] + [PumpWritten(false)];
    LastWriteAppend(log + head, rest, lamp, pump);
    LastWriteUntouched(rest, false, false);
  }

  /** The log of a completed setup, as its setThingName entry, the two
      actuator writes and the rest. */
  lemma SetupLogShape(log: seq<Event>, present: bool, defaultLight: real, defaultMoisture: int)
    ensures log + [ThingNameSet(present), LampWritten(false), PumpWritten(false),
                   LightThresholdSet(defaultLight), MoistureThresholdSet(defaultMoisture),
                   EnableCalled(ServiceLoop), EnableCalled(PeriodicPublish),
                   EnableCalled(LightCheck), EnableCalled(MoistureCheck)] ==
            log + [ThingNameSet(present)] + [LampWritten(false), PumpWritten(false)] +
            [LightThresholdSet(defaultLight), MoistureThresholdSet(defaultMoisture),
             EnableCalled(ServiceLoop), EnableCalled(PeriodicPublish),
             EnableCalled(LightCheck), EnableCalled(MoistureCheck)]
  {
  }

  /** A completed setup leaves the device consistent whatever the
      actuators showed before it, and an early return keeps a consistent
      device consistent. */
  lemma SetupKeepsConsistent(s: Snapshot, outcome: SetupOutcome, defaultLight: real, defaultMoisture: int)
    requires Valid(s)
    requires !outcome.Completed? ==> Consistent(s)
    ensures Consistent(Setup(s, outcome, defaultLight, defaultMoisture))
  {
    if outcome.Completed? {
      var r := Setup(s, outcome, defaultLight, defaultMoisture);
      SetupCompletes(s, outcome.thingNamePresent, defaultLight, defaultMoisture);
      var head := [LampWritten(false), PumpWritten(false)];
      var rest := [LightThresholdSet(defaultLight), MoistureThresholdSet(defaultMoisture),
                   EnableCalled(ServiceLoop), EnableCalled(PeriodicPublish),
                   EnableCalled(LightCheck), EnableCalled(MoistureCheck)];
      var named := s.log + [ThingNameSet(outcome.thingNamePresent)];
      SetupLogShape(s.log, outcome.thingNamePresent, defaultLight, defaultMoisture);
      assert r.log == named + head + rest;
      SetupLogWritesBothOff(named, defaultLight, defaultMoisture, false, false);
    }
  }

  /** Whatever the actuators showed at power-on, the booted device is
      consistent: each output equals its last logged write. */
  lemma BootIsConsistent(lamp: bool, pump: bool, light: real, moisture: int,
                         outcome: SetupOutcome, defaultLight: real, defaultMoisture: int)
    ensures Consistent(Setup(Initial(lamp, pump, light, moisture), outcome, defaultLight, defaultMoisture))
  {
    SetupKeepsConsistent(Initial(lamp, pump, light, moisture), outcome, defaultLight, defaultMoisture);
  }
}
