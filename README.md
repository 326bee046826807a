# Herb-garden firmware: the task-orchestration graph

This project models the control logic of the ESP32 firmware for a networked
herb-garden appliance. The appliance reads light and soil moisture, drives a
lamp and a water pump, and mirrors its state to a cloud "thing shadow" over
MQTT. All of its behaviour is wired as seven cooperative scheduler tasks
(`esp32/src/main.cpp`), registered in this order:

| task | interval | iterations | wiring |
|---|---|---|---|
| ShadowUpdate (`tPublishShadowUpdate`) | immediate | once | callback publishes the shadow |
| SensorsPublish (`tPublishSensorsMeasurements`) | immediate | once | callback publishes the measurements |
| WaterPump (`tTurnOnWaterPump`) | 5 s | once | no callback; onEnable: pump on + restart ShadowUpdate, returns true; onDisable: pump off + restart ShadowUpdate |
| ServiceLoop (`tHappyHerbsServiceLoop`) | immediate | forever | connected: service `loop()`; otherwise `connect()`, and on success `ShadowUpdate.restartDelayed(500)` |
| PeriodicPublish (`tPeriodicSensorsMeasurementsPublish`) | 10 min | forever | restart SensorsPublish |
| MoistureCheck (`tTurnOnWaterPumpBaseOnMoisture`) | 15 min | forever | moisture < threshold: restart WaterPump |
| LightCheck (`tTurnOnLampBaseOnLightMeter`) | 30 min | forever | lamp off, lamp on if light < threshold, restart ShadowUpdate |

`setup()` either returns early (file system or a credential file missing) or
writes both actuators off, installs the default thresholds and enables
ServiceLoop, PeriodicPublish, LightCheck and MoistureCheck.

The project has four modules:

- `Scheduler` (scheduler.dfy): the task identifiers, the record the scheduler
  keeps per task (enabled, interval, iteration kind, pending delay), the
  declared records and the registration table.
- `Orchestration` (orchestration.dfy): a `Snapshot` of the whole state
  (lamp, pump, both thresholds, the connection flag, the seven task records
  and a log of externally visible events). Each hook, each callback and each
  scheduler primitive used by the firmware (`restart`, `restartDelayed`,
  `enable`, executing a due task) is a function from one snapshot to the next.
- `Properties` (properties.dfy): lemmas that relate several steps or count
  events in the log. Examples: the light check restarts the shadow update
  exactly once, a watering cycle restarts it exactly twice, and the
  actuators always show their last write.
- `Firmware` (firmware.dfy): class `Appliance`. Its fields are the global
  state. Its methods are the hooks and callbacks, written as field updates in
  the firmware's own order. Each method is proved to end in exactly the
  snapshot its `Orchestration` function gives.

Sensor readings and the result of `connect()` are inputs (`Readings`). The
service's publish, loop, connect and setThingName calls are events in the
log; what the service does inside them is not modelled.

Two points about the code that the model follows:
- ShadowUpdate and SensorsPublish are constructed without an onEnable hook
  (lines 44-60), so nothing vetoes them while the service is disconnected:
  their callbacks call the service's publish method whatever the connection
  state (`Properties.PublishHasNoGuard`).
- Whether `restart()` runs a task's onDisable hook before onEnable is
  behaviour of the scheduler library, not of this file (see Left out).

## Model

| member | source | states |
|---|---|---|
| Scheduler.Declared | esp32/src/main.cpp:44-146 | each task's declared interval (0, 0, 5 s, 0, 10 min, 15 min, 30 min) and iteration kind; it is constructed disabled; exactly the two publish tasks and the pump task are one-shot |
| Scheduler.Registry | esp32/src/main.cpp:44-146 | the table after construction holds the seven declared records in registration order, all disabled |
| Orchestration.Initial | esp32/src/main.cpp:44-146 | after construction every task has its declared record (so is disabled), the service is not connected and nothing has been logged |
| Orchestration.WriteLamp | esp32/src/main.cpp:139-141 | `writeLampPinID(on)`: the lamp shows `on`, the write is logged, nothing else changes |
| Orchestration.WritePump | esp32/src/main.cpp:74-80 | `writePumpPinID(on)`: the pump shows `on`, the write is logged, nothing else changes |
| Orchestration.Start | esp32/src/main.cpp:72-77 | the common step of every enable attempt: the onEnable hook runs (only the pump task has one) and the task is enabled with the given pending delay; the frame of the pump hook's changes, or none |
| Orchestration.Restart | esp32/src/main.cpp:72-77 | restart enables the task and records a pending delay of one interval; for the pump task it runs onEnable (pump on, ShadowUpdate restarted); nothing else changes |
| Orchestration.RestartDelayed | esp32/src/main.cpp:98 | restartDelayed(d) enables the task and records a pending delay of d; for a hookless task nothing else changes |
| Orchestration.Enable | esp32/src/main.cpp:229-232 | enable() on a hookless task enables it, records a pending delay of one interval and changes nothing else |
| Orchestration.PumpOnEnable | esp32/src/main.cpp:72-77 | pump on, ShadowUpdate restarted with a pending delay of 0, the enable accepted (never vetoed); lamp, thresholds, connection and other tasks unchanged |
| Orchestration.PumpOnDisable | esp32/src/main.cpp:78-82 | pump off and ShadowUpdate restarted with a pending delay of 0; nothing else changes |
| Orchestration.ShadowUpdateRun | esp32/src/main.cpp:47 | the callback calls the shadow publish exactly once and changes nothing else |
| Orchestration.SensorsPublishRun | esp32/src/main.cpp:58 | the callback calls the measurements publish exactly once and changes nothing else |
| Orchestration.ServiceLoopRun | esp32/src/main.cpp:89-100 | connected: only `loop()` is logged. Disconnected and connect fails: only the attempt is logged. Disconnected and connect succeeds: connected, and ShadowUpdate enabled with a 500 ms delay, nothing else changed |
| Orchestration.PeriodicPublishRun | esp32/src/main.cpp:107-112 | only SensorsPublish is restarted (pending delay 0); device, connection and every other task unchanged |
| Orchestration.MoistureCheckRun | esp32/src/main.cpp:119-128 | moisture < threshold: the pump task is enabled with a pending delay of 5 s, the pump is on and ShadowUpdate is restarted. Otherwise the snapshot is unchanged |
| Orchestration.LightCheckRun | esp32/src/main.cpp:135-146 | lamp == (light < threshold) whatever it was before; the lamp is written off then, if dark, on; ShadowUpdate restarted; pump, thresholds and other tasks unchanged |
| Orchestration.Expire | esp32/src/main.cpp:62-65 | after its one iteration a one-shot task is disabled, its pending delay kept; for the pump task onDisable then turns the pump off and restarts ShadowUpdate with a pending delay of 0; no other task changes |
| Orchestration.Callback | esp32/src/main.cpp:44-146 | the callback table: the pump task has none (NULL), so running it changes nothing; no callback writes a threshold; only the light check writes the lamp, only the moisture check the pump, only the service loop the connection flag |
| Orchestration.Execute | esp32/src/main.cpp:235 | a disabled task is not executed (nothing changes); a due forever task stays enabled; a due one-shot task is disabled afterwards |
| Orchestration.RunAll | esp32/src/main.cpp:235 | any sequence of due executions keeps the task table well formed |
| Orchestration.Setup | esp32/src/main.cpp:157-206 | each early return of setup leaves the state unchanged; the task table stays well formed |
| Orchestration.InstallDefaults | esp32/src/main.cpp:224-227 | writing both actuators and both thresholds touches no task and not the connection |
| Orchestration.SetupCompletes | esp32/src/main.cpp:218-232 | a completed setup: the thing name handed to the service, lamp and pump off, default thresholds, the four periodic tasks enabled in source order with a pending delay of one interval, the other three tasks untouched, and the logged device, service and scheduler calls exactly in source order |
| Properties.ExecuteKeepsConsistent | esp32/src/main.cpp:66-146 | after every due execution, lamp and pump each equal the value of their last logged write |
| Properties.RunAllKeepsConsistent | esp32/src/main.cpp:235 | the same for any sequence of due executions |
| Properties.LightCheckRestartsShadowOnce | esp32/src/main.cpp:139-143 | lamp == (light < threshold), and the restart count rises by one for ShadowUpdate and by zero for every other task, even when the lamp value did not change |
| Properties.ServiceLoopConnectDiscipline | esp32/src/main.cpp:89-100 | connected: no connect attempt, no shadow restart, one `loop()`. Disconnected: exactly one attempt, and one delayed shadow restart iff the attempt succeeded, never an immediate one |
| Properties.PumpOnlyWrittenByHooks | esp32/src/main.cpp:66-82 | inside the task graph, after any due execution the pump is off if the pump task expired, on if a moisture check found dry soil, and unchanged otherwise |
| Properties.WateringCycle | esp32/src/main.cpp:62-128 | dry soil turns the pump on with the pump task enabled; its expiry turns it off; one on-write, one off-write and exactly two ShadowUpdate restarts |
| Properties.WateringStarts | esp32/src/main.cpp:72-77 | a dry-soil check restarts the pump task; its onEnable writes the pump on and restarts ShadowUpdate, in that order |
| Properties.WateringStops | esp32/src/main.cpp:78-82 | the pump task's expiry disables it; its onDisable writes the pump off and restarts ShadowUpdate, in that order |
| Properties.ExecuteKeepsPumpTracking | esp32/src/main.cpp:62-82 | if the pump is on exactly while the pump task is enabled before an execution, that still holds after it |
| Properties.RunAllKeepsPumpTracking | esp32/src/main.cpp:62-82 | the same over any sequence of due executions: the pump is on exactly while its one-shot task is alive |
| Properties.BootTracksPump | esp32/src/main.cpp:224-232 | a completed boot leaves the pump off with its task disabled, so after boot and any run the pump is on exactly while the pump task is alive |
| Properties.MoistSoilChangesNothing | esp32/src/main.cpp:123-125 | a moisture check with reading >= threshold leaves the whole snapshot, log included, unchanged |
| Properties.OneShotRunsOnce | esp32/src/main.cpp:44-71 | a one-shot task is disabled after one execution, so a second execution without a restart changes nothing |
| Properties.PublishHasNoGuard | esp32/src/main.cpp:44-60 | an enabled publish task calls the service's publish method whether or not the service is connected, then is disabled; nothing else changes |
| Properties.PeriodicPublishCycle | esp32/src/main.cpp:107-112 | the periodic task stays enabled and restarts SensorsPublish once; the next execution publishes the measurements exactly once and leaves that task disabled |
| Properties.ReconnectRetries | esp32/src/main.cpp:88-102 | after a failed connect the service loop is still enabled and disconnected, and its next execution starts with a new connect attempt |
| Properties.ExecuteKeepsForeverEnabled | esp32/src/main.cpp:44-146 | no execution of any task disables an enabled forever task |
| Properties.RunAllKeepsForeverEnabled | esp32/src/main.cpp:235 | an enabled forever task stays enabled over any run |
| Properties.OthersKeepConnection | esp32/src/main.cpp:89-100 | a run that does not execute the service loop leaves the connection flag unchanged |
| Properties.RetriesAfterAnyRun | esp32/src/main.cpp:88-102 | disconnected with the service loop enabled: whatever other tasks run meanwhile, the loop is still enabled and disconnected, and its next execution logs a new connect attempt and takes on its result |
| Properties.ConnectAnnouncesShadowLater | esp32/src/main.cpp:97-99 | a successful connect marks the service connected and enables ShadowUpdate with a 500 ms (non-zero) delay; no other task changes |
| Properties.ThresholdsSurviveRuns | esp32/src/main.cpp:44-146 | no task callback or hook in this file writes a threshold, so no sequence of task executions changes either one |
| Properties.EarlyReturnLeavesTasksDisabled | esp32/src/main.cpp:157-206 | after construction and an early return from setup every task is disabled and the actuators are untouched |
| Properties.CompletedSetupEnablesPeriodicTasks | esp32/src/main.cpp:224-232 | a completed boot leaves lamp and pump off and the default thresholds set. A task is enabled iff it is ServiceLoop, PeriodicPublish, LightCheck or MoistureCheck |
| Properties.ThingNameDoesNotMatter | esp32/src/main.cpp:218-222 | a missing thing name gives the same device state and task table as a present one (enabling still happens); the logs differ only in the setThingName call's argument |
| Properties.SetupKeepsConsistent | esp32/src/main.cpp:224-227 | a completed setup leaves each actuator equal to its last write, whatever it showed before |
| Properties.BootIsConsistent | esp32/src/main.cpp:224-227 | construction then setup, with any outcome, gives a consistent device |
| Firmware.Appliance.constructor | esp32/src/main.cpp:44-146 | the object starts in the constructed snapshot: all tasks disabled with their declared records |
| Firmware.Appliance.WriteLamp | esp32/src/main.cpp:139-141 | the fields end up as the snapshot of a lamp write |
| Firmware.Appliance.WritePump | esp32/src/main.cpp:74-80 | the fields end up as the snapshot of a pump write |
| Firmware.Appliance.Start | esp32/src/main.cpp:72-77 | runs the pump task's onEnable when it has one, then stores whether the task was enabled: the snapshot of an enable attempt |
| Firmware.Appliance.Restart | esp32/src/main.cpp:75 | the fields end up as the snapshot of a restart |
| Firmware.Appliance.RestartDelayed | esp32/src/main.cpp:98 | the fields end up as the snapshot of a delayed restart |
| Firmware.Appliance.Enable | esp32/src/main.cpp:229 | the fields end up as the snapshot of enable() |
| Firmware.Appliance.Expire | esp32/src/main.cpp:62-65 | the fields end up as the snapshot of a one-shot task's expiry |
| Firmware.Appliance.PumpOnEnable | esp32/src/main.cpp:72-77 | pump write, then shadow restart, return true: the state and result of the onEnable hook |
| Firmware.Appliance.PumpOnDisable | esp32/src/main.cpp:78-82 | pump write then shadow restart: the state of the onDisable hook |
| Firmware.Appliance.ShadowUpdateRun | esp32/src/main.cpp:47 | the state after the shadow-publish callback |
| Firmware.Appliance.SensorsPublishRun | esp32/src/main.cpp:58 | the state after the measurements-publish callback |
| Firmware.Appliance.ServiceLoopRun | esp32/src/main.cpp:91-100 | the early-return branch and the connect branch end in the snapshot of the service-loop callback |
| Firmware.Appliance.PeriodicPublishRun | esp32/src/main.cpp:110 | the state after the periodic-publish callback |
| Firmware.Appliance.MoistureCheckRun | esp32/src/main.cpp:122-126 | the state after the moisture-check callback |
| Firmware.Appliance.LightCheckRun | esp32/src/main.cpp:138-144 | two lamp writes in sequence and the restart end in the snapshot of the light-check callback |
| Firmware.Appliance.Execute | esp32/src/main.cpp:235 | the fields end up as the snapshot of one due execution |
| Firmware.Appliance.Run | esp32/src/main.cpp:235 | the main loop, as a loop over a finite sequence of due executions, ends in the snapshot given by RunAll |
| Firmware.Appliance.Setup | esp32/src/main.cpp:218-232 | the fields end up as the snapshot of setup's state-and-service section for the given outcome |

## Left out

- Serial output, I2C and pin setup, SPIFFS, `loadFile`, the JSON credential parsing, the WiFi busy-wait, NTP `configTime`, TLS certificates and the MQTT client setup (lines 149-215). These are I/O plumbing. Setup takes only their outcome (`SetupOutcome`): one of the five early returns, or completion.
- A failed start of the light sensor (lines 162-164) only logs a message and does not return, so it does not appear in the model.
- The sensor drivers and pin reads. Readings are inputs. The light level is a `real`: the driver's float NaN is not modelled.
- `happy_herbs.h` is not part of this model. `publishShadowUpdate`, `publishSensorsMeasurements`, `loop`, `connect` and `setThingName` are events in the log, with no payloads.
- The MQTT message callback `handleCallback` (lines 213-215) is not modelled. It runs inside the service's `loop()` (line 93), and the model treats `loop()` as having no effect on the device. Whatever thresholds or actuator overrides it applies are therefore outside the model. `Properties.ThresholdsSurviveRuns` and `Properties.PumpOnlyWrittenByHooks` speak only of the task graph in this file.
- Losing the broker connection is not modelled. In the model, the service's connected flag is set only by the result of `connect()`.
- `constants.h` is not part of this model. The default thresholds are constructor parameters.
- The scheduler library is not part of this model: tick timing, `millis()` arithmetic and how an interval elapses. The pending delay is recorded and never counted down. Which task is due is chosen by the caller, as a sequence of `Firing`s. Execution does not check that the delay has elapsed, so a firing of the pump task may follow its restart with no time passing.
- Orchestration.Restart: does not say whether restarting an already enabled task also runs its onDisable hook, because that behaviour is in the scheduler library. The model runs only onEnable.
- Orchestration.Expire: the library disables a one-shot task on the scheduler pass after its iteration. The model disables it within the same execution.
- Orchestration.RestartDelayed: the library's special case of a zero delay is not modelled. The firmware only ever passes 500.
- The duration of watering is stated as the pump task's lifetime (`Properties.RunAllKeepsPumpTracking`): the pump is on exactly while that task is enabled, over any run. No wall-clock duration is proved, because the pending delay is never counted down.
- Logging through `Serial.println` inside the hooks.
