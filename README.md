# Security service alarm coordinator, in Dafny

This project models `SecurityService`, the coordinator of a home security panel. It turns three inputs into one of three alarm statuses (`NoAlarm`, `PendingAlarm`, `Alarm`):

- the arming status (`Disarmed`, `ArmedHome`, `ArmedAway`);
- each sensor's active flag;
- the remembered "cat detected" flag.

The model has three modules:

- `AlarmLogic` (`alarm_logic.dfy`) holds the decision tables as pure functions. Each entry point's alarm write is an `Option<AlarmStatus>`: `None` means `setAlarmStatus` is not called at all. The module also holds the fold that the bulk sensor reset performs, and its closed form.
- `SecurityLog` (`security_log.dfy`) holds the `Sensor` class and the ghost event log. A sensor is an object whose `active` flag is changed in place. Each call that persists something (`setAlarmStatus`, `setArmingStatus`, and `updateSensor` with the sensor's flag at that moment) and each listener broadcast becomes one `Event`. `addSensor` and `removeSensor` change the `sensors` field without an event, and the getters are plain field reads. The functions give the events of each entry point, and the lemmas read back which alarm statuses and which sensors those events persist.
- `Security` (`security_service.dfy`) holds the `SecurityService` class.
  - Its fields `armingStatus`, `alarmStatus` and `sensors` stand for the repository. `listeners` and `catDetected` are the service's own fields, and `log` records the events.
  - Each method of the source is a method with the same branches, with three exceptions:
    - `processImage` and the private `catDetected` (SecurityService.java:71-79, 165-167) are one method, `ProcessImage`, which takes the image service's verdict as its parameter.
    - `isAllTheSensorsHaveTheSameState` is the predicate `AllSensorsInState`.
    - The getters are fields.
  - The invariant `Valid()` says two things. The stored alarm status is always the last status written through `SetAlarmStatus`. Every write is broadcast to the listeners by the very next event.

`changeSensorStatus` visits the sensors in the order its set stream yields them. That order is not fixed by the code, so `EncounterOrder` picks any enumeration of the set. The bulk methods return it as `order`, together with the flags the sensors had before (`flags`). `BulkDeactivateClosedForm` and `BulkDeactivateOrderFree` show that the order cannot change what arming writes.

The model follows the code where the service's written description differs from it:

- During the bulk reset of `setArmingStatus`, each sensor goes through `changeSensorActivationStatus`. That method is guarded by `alarm != ALARM` (SecurityService.java:133). So a raised alarm is never lowered to `PendingAlarm` by arming; only a pending alarm can drop, to `NoAlarm`.
- An unknown sensor is not rejected. No lock is taken around an operation.

## Model

| member | source | states |
|---|---|---|
| AlarmLogic.SensorActivated | service-security/src/main/java/com/udacity/security/service/SecurityService.java:105-113 | a write happens iff the system is not disarmed and the alarm is not already `Alarm`; the write is exactly one step up the ladder (`NoAlarm`→`PendingAlarm`, `PendingAlarm`→`Alarm`) |
| AlarmLogic.SensorDeactivated | service-security/src/main/java/com/udacity/security/service/SecurityService.java:118-123 | a write happens iff the alarm is not `NoAlarm`; it is exactly one step down the ladder |
| AlarmLogic.ActivationChange | service-security/src/main/java/com/udacity/security/service/SecurityService.java:130-142 | no write when the alarm is `Alarm`, and none when an inactive sensor is deactivated again; otherwise a write iff activation while armed or deactivation of an active sensor from `PendingAlarm`; activation goes one step up and deactivation lands on `NoAlarm` |
| AlarmLogic.DeactivationCheck | service-security/src/main/java/com/udacity/security/service/SecurityService.java:148-158 | an inactive sensor with `PendingAlarm` gives `NoAlarm`; disarmed with `Alarm` gives `PendingAlarm`; a write happens iff one of these two holds, and it is one step down |
| AlarmLogic.CatResult | service-security/src/main/java/com/udacity/security/service/SecurityService.java:71-79 | writes `Alarm` iff armed home and a cat is seen; writes `NoAlarm` iff all sensors are inactive and no cat is seen; never writes `PendingAlarm`, otherwise leaves the alarm alone |
| AlarmLogic.DeactivateAllWrites | service-security/src/main/java/com/udacity/security/service/SecurityService.java:44-48 | deactivating every sensor writes at most once and never raises the alarm level |
| AlarmLogic.BulkDeactivateClosedForm | service-security/src/main/java/com/udacity/security/service/SecurityService.java:53-64 | for any number of sensors, the sequential per-sensor deactivation writes exactly `DeactivateAllWrites`: a single `NoAlarm` when the alarm was pending and some sensor was active, nothing otherwise |
| AlarmLogic.BulkDeactivateOrderFree | service-security/src/main/java/com/udacity/security/service/SecurityService.java:59 | two visiting orders of the same sensors (equal multisets of flags) give the same alarm writes |
| AlarmLogic.CatArmingWrites | service-security/src/main/java/com/udacity/security/service/SecurityService.java:41-43 | arming writes `Alarm` first iff the target is `ArmedHome` and the cat flag is set, and writes nothing first otherwise |
| AlarmLogic.ArmingWrites | service-security/src/main/java/com/udacity/security/service/SecurityService.java:40-48 | arming writes at most once: `NoAlarm` when disarming, `Alarm` when arming home with a cat, otherwise the bulk deactivation's closed form; an armed target never raises the level except through the cat write |
| AlarmLogic.BulkChangeWrites | service-security/src/main/java/com/udacity/security/service/SecurityService.java:53-64 | the alarm writes of the per-sensor fold, each visit starting from the status the earlier visits left; activating sensors of a disarmed system writes nothing |
| AlarmLogic.BulkChangeWritesBound | service-security/src/main/java/com/udacity/security/service/SecurityService.java:59 | each visit of the bulk change writes at most once: no more writes than sensors |
| SecurityLog.AllInState | service-security/src/main/java/com/udacity/security/service/SecurityService.java:82 | every sensor of the set has the flag; like `allMatch`, true of an empty set |
| SecurityLog.AllInStateExclusive | service-security/src/main/java/com/udacity/security/service/SecurityService.java:81-83 | on a non-empty sensor set, all-active and all-inactive cannot both hold |
| SecurityLog.AlarmTrace | service-security/src/main/java/com/udacity/security/service/SecurityService.java:97-100 | a run of `setAlarmStatus` calls is two events per write, the last write stored and then broadcast at the end |
| SecurityLog.ActivationTrace | service-security/src/main/java/com/udacity/security/service/SecurityService.java:130-142 | one or three events: three exactly when `ActivationChange` writes; the last event persists the sensor with its new flag `active` |
| SecurityLog.DeactivationTrace | service-security/src/main/java/com/udacity/security/service/SecurityService.java:148-158 | one or three events: three exactly when `DeactivationCheck` writes; the last event persists the sensor with its current flag |
| SecurityLog.BulkChangeTrace | service-security/src/main/java/com/udacity/security/service/SecurityService.java:53-64 | between one and three events per visited sensor; the last event persists the last visited sensor with the flag `active` |
| SecurityLog.ResetTrace | service-security/src/main/java/com/udacity/security/service/SecurityService.java:44-48 | disarming is the two events of the `NoAlarm` write, stored first; arming is one to three events per sensor reset |
| SecurityLog.ArmingAlarmTrace | service-security/src/main/java/com/udacity/security/service/SecurityService.java:41-48 | arming home with a cat starts by storing `Alarm`; disarming ends with the `NoAlarm` store and its broadcast |
| SecurityLog.ArmingTrace | service-security/src/main/java/com/udacity/security/service/SecurityService.java:40-51 | arming home with a cat starts by storing `Alarm`; the arming status is stored after all alarm writes and is followed by exactly one sensor-change broadcast, which ends the call |
| Security.SecurityService.AllSensorsInState | service-security/src/main/java/com/udacity/security/service/SecurityService.java:81-83 | whether every sensor in the repository has the flag; true when there is no sensor |
| SecurityLog.ActivationTraceQuiet | service-security/src/main/java/com/udacity/security/service/SecurityService.java:133-141 | with the alarm already raised, or an inactive sensor deactivated again, the call's only event is the one sensor update |
| SecurityLog.ActivationTraceStores | service-security/src/main/java/com/udacity/security/service/SecurityService.java:130-142 | one sensor activation change persists exactly its alarm write (if any) and exactly one update of that sensor, persisted with the new flag `active` |
| SecurityLog.DeactivationTraceStores | service-security/src/main/java/com/udacity/security/service/SecurityService.java:148-158 | `deactivateSensor` persists exactly its alarm write (if any) and exactly one update of that sensor, with the flag it has |
| SecurityLog.AlarmTraceStores | service-security/src/main/java/com/udacity/security/service/SecurityService.java:97-100 | a run of `setAlarmStatus` calls persists exactly the statuses written, in order, and no sensor |
| SecurityLog.AlarmTraceAnnounced | service-security/src/main/java/com/udacity/security/service/SecurityService.java:97-100 | every status persisted by `setAlarmStatus` is broadcast to the listeners right after it is stored |
| SecurityLog.ActivationTraceAnnounced | service-security/src/main/java/com/udacity/security/service/SecurityService.java:130-142 | a sensor activation change announces every alarm status it persists |
| SecurityLog.BulkChangeTraceAlarms | service-security/src/main/java/com/udacity/security/service/SecurityService.java:53-64 | the bulk change persists exactly the alarm writes of the sequential fold `BulkChangeWrites` |
| SecurityLog.BulkChangeTraceSensors | service-security/src/main/java/com/udacity/security/service/SecurityService.java:59 | the bulk change persists each visited sensor once, in visiting order, each with the new flag `active` |
| SecurityLog.BulkChangeTraceAnnounced | service-security/src/main/java/com/udacity/security/service/SecurityService.java:53-64 | the bulk change announces every alarm status it persists |
| SecurityLog.ArmingAlarmTraceStores | service-security/src/main/java/com/udacity/security/service/SecurityService.java:41-48 | the alarm part of arming persists exactly `ArmingWrites`, whatever order the sensors are reset in |
| SecurityLog.ArmingTraceAlarms | service-security/src/main/java/com/udacity/security/service/SecurityService.java:40-51 | all events of arming persist exactly `ArmingWrites`; storing the arming status and the sensor-change broadcast persist no alarm status |
| SecurityLog.ArmingTraceAnnounced | service-security/src/main/java/com/udacity/security/service/SecurityService.java:40-51 | arming announces every alarm status it persists |
| SecurityLog.EnumeratesDistinct | service-security/src/main/java/com/udacity/security/service/SecurityService.java:59 | a stream's encounter order over the sensor set visits every sensor of the set, and none twice |
| SecurityLog.EnumeratesAnyActive | service-security/src/main/java/com/udacity/security/service/SecurityService.java:81-83 | some flag in the encounter order is set iff not all sensors of the set are inactive |
| SecurityLog.EnumeratesAllInState | service-security/src/main/java/com/udacity/security/service/SecurityService.java:81-83 | once every sensor of the encounter order has a flag, every sensor of the set has it |
| Security.EncounterOrder | service-security/src/main/java/com/udacity/security/service/SecurityService.java:59 | returns an enumeration of the sensor set: each element of the set occurs exactly once |
| Security.SecurityService.constructor | service-security/src/main/java/com/udacity/security/service/SecurityService.java:30-33 | a new service has no listeners, the cat flag false, an empty log, and the repository's statuses and sensors |
| Security.SecurityService.AddStatusListener | service-security/src/main/java/com/udacity/security/service/SecurityService.java:90 | the listener set gains the listener (set semantics: adding twice is adding once) |
| Security.SecurityService.RemoveStatusListener | service-security/src/main/java/com/udacity/security/service/SecurityService.java:91 | the listener set loses the listener |
| Security.SecurityService.AddSensor | service-security/src/main/java/com/udacity/security/service/SecurityService.java:177-179 | the repository's sensor set gains the sensor |
| Security.SecurityService.RemoveSensor | service-security/src/main/java/com/udacity/security/service/SecurityService.java:181-183 | the repository's sensor set loses the sensor |
| Security.SecurityService.SetAlarmStatus | service-security/src/main/java/com/udacity/security/service/SecurityService.java:97-100 | the stored status becomes `status`; the log gains the store, then one broadcast of `status` to the current listeners; `Valid` is kept |
| Security.SecurityService.HandleSensorActivated | service-security/src/main/java/com/udacity/security/service/SecurityService.java:105-113 | the alarm becomes the result of `SensorActivated` (unchanged when disarmed or already `Alarm`), written through `SetAlarmStatus` only when it changes |
| Security.SecurityService.HandleSensorDeactivated | service-security/src/main/java/com/udacity/security/service/SecurityService.java:118-123 | the alarm becomes the result of `SensorDeactivated`, written through `SetAlarmStatus` only when it changes |
| Security.SecurityService.ChangeSensorActivationStatus | service-security/src/main/java/com/udacity/security/service/SecurityService.java:130-142 | the sensor's flag ends equal to `active`; the alarm follows `ActivationChange` of the old alarm and the sensor's old flag; the log gains exactly that alarm write and one sensor update |
| Security.SecurityService.AlarmForActivation | service-security/src/main/java/com/udacity/security/service/SecurityService.java:131-139 | the guarded alarm step of a sensor change: the alarm follows `ActivationChange`, and the log gains exactly its write |
| Security.SecurityService.ChangeSensorStatus | service-security/src/main/java/com/udacity/security/service/SecurityService.java:53-64 | every target sensor ends with flag `active`; the visit order enumerates the targets; the alarm is the last write of the per-sensor fold over the old flags; the log is the per-sensor traces in visit order |
| Security.SecurityService.ChangeEach | service-security/src/main/java/com/udacity/security/service/SecurityService.java:59 | the loop over the encounter order keeps `Valid`, and ends with every visited sensor set and the fold's alarm and log |
| Security.SecurityService.Visit | service-security/src/main/java/com/udacity/security/service/SecurityService.java:59 | one loop step: the visited sensor is set, the sensors visited earlier keep their new flag, the later ones keep their old flag, and alarm and log advance by one fold step |
| Security.SecurityService.ProcessImage | service-security/src/main/java/com/udacity/security/service/SecurityService.java:71-79 | the cat flag becomes the detector's result; the alarm follows `CatResult` over the arming status and whether all sensors are inactive; the log gains that write and then one cat broadcast |
| Security.SecurityService.DeactivateSensor | service-security/src/main/java/com/udacity/security/service/SecurityService.java:148-158 | the sensor is not changed; the alarm follows `DeactivationCheck` of the sensor's flag; the log gains that write and one update of the sensor |
| Security.SecurityService.SetArmingStatus | service-security/src/main/java/com/udacity/security/service/SecurityService.java:40-51 | the arming status becomes the target. Disarming ends in `NoAlarm` and leaves the sensors alone. Arming home with a cat ends in `Alarm`. Arming ends with every sensor inactive. The persisted writes are exactly `ArmingWrites` and the alarm is their last. The log is the full arming trace, ending with the stored status and one sensor-change broadcast |
| Security.SecurityService.UpdateAlarmForArming | service-security/src/main/java/com/udacity/security/service/SecurityService.java:41-48 | the cat-alarm step, then disarm or reset, have together written exactly `ArmingWrites`; the arming status, listeners and cat flag are untouched |
| Security.SecurityService.RaiseForArming | service-security/src/main/java/com/udacity/security/service/SecurityService.java:41-43 | arming home with a cat writes `Alarm`; nothing else is written and no sensor changes |
| Security.SecurityService.ResetForArming | service-security/src/main/java/com/udacity/security/service/SecurityService.java:44-48 | disarming writes `NoAlarm` and leaves the sensors alone; any other target deactivates every sensor through the bulk change |
| Security.SecurityService.StoreArmingStatus | service-security/src/main/java/com/udacity/security/service/SecurityService.java:49-50 | the arming status is stored and one sensor-change broadcast follows; no alarm status is persisted and no sensor changes |

## Left out

- Console output: the `printf`/`println` calls of `changeSensorStatus` (SecurityService.java:54-58, 61-63) have no effect on state.
- The image service: `imageContainsCat` and its `50.0f` threshold (SecurityService.java:166) are a foreign call over a floating-point score. `ProcessImage` takes the detector's boolean result as its parameter, which is what `catDetected` (:71) receives.
- Parallelism: `parallelStream().forEachOrdered` (:59) runs the per-sensor calls one after another in encounter order. It is modelled as a sequential loop over an arbitrary enumeration of the set. No locking exists in the code and none is modelled.
- Listener rendering: `notify`, `catDetected` and `sensorStatusChanged` are recorded as one broadcast event naming the listener set. What a listener does with it is not part of this model. Listeners are identified by a number.
- Repository internals: the repository is the three fields. `updateSensor` is recorded as an event and does not change the sensor set, since the repository's implementation is not part of this model.
- Getters (:169-175, :185-187) read the fields directly.
- Sensor identity: sensors are compared as objects. The sensor id is not modelled. Name and type are carried but never inspected by the service.
- Return values: `changeSensorStatus` returns nothing. The model's `ChangeSensorStatus` returns the encounter order it used, so that its contract can name it.
