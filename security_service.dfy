/**
 The security service: the coordinator that turns sensor changes, arming changes and camera
 results into alarm statuses. The repository it forwards to is represented by the fields
 `armingStatus`, `alarmStatus` and `sensors`; the listener set and the cat flag are the
 service's own fields. Every call that persists a status or a sensor, and every listener
 broadcast, is appended to the ghost `log`; adding and removing sensors change `sensors` alone.
 */
module Security {
  import opened AlarmLogic
  import opened SecurityLog

  /** The order in which a stream over the sensor set yields its elements: each exactly once. */
  method EncounterOrder(sensors: set<Sensor>) returns (order: seq<Sensor>)
    ensures Enumerates(order, sensors)
  {
    order := [];
    var remaining := sensors;
    while remaining != {}
      invariant remaining <= sensors
      invariant forall i | 0 <= i < |order| :: order[i] in sensors
      invariant multiset(order) + multiset(remaining) == multiset(sensors)
      decreases remaining
    {
      var x :| x in remaining;
      assert multiset(remaining) == multiset(remaining - {x}) + multiset{x};
      order := order + [x];
      remaining := remaining - {x};
    }
  }

  class SecurityService {
    // repository state
    var armingStatus: ArmingStatus
    var alarmStatus: AlarmStatus
    var sensors: set<Sensor>
    // service state
    var listeners: set<ListenerId>
    var catDetected: bool

    ghost var log: seq<Event>
    ghost const initialAlarm: AlarmStatus

    /** The persisted alarm status is always the last one written through `SetAlarmStatus`
        (or the repository's initial one), and every write was announced right after it. */
    ghost predicate Valid()
      reads this`alarmStatus, this`log
    {
      alarmStatus == Settle(initialAlarm, StoredAlarms(log)) && AlarmsAnnounced(log)
    }

    /** A service over a repository holding the given statuses and sensors. */
    constructor (arming: ArmingStatus, alarm: AlarmStatus, sensors: set<Sensor>)
      ensures Valid()
      ensures armingStatus == arming && alarmStatus == alarm && this.sensors == sensors
      ensures listeners == {} && !catDetected && log == []
    {
      armingStatus := arming;
      alarmStatus := alarm;
      this.sensors := sensors;
      listeners := {};
      catDetected := false;
      log := [];
      initialAlarm := alarm;
    }

    /** Whether every known sensor has the flag `state`; true when there is no sensor. */
    predicate AllSensorsInState(state: bool)
      reads this`sensors, sensors
      ensures sensors == {} ==> AllSensorsInState(state)
    {
      AllInState(sensors, state)
    }

    method AddStatusListener(listener: ListenerId)
      modifies this`listeners
      ensures listeners == old(listeners) + {listener}
    {
      listeners := listeners + {listener};
    }

    method RemoveStatusListener(listener: ListenerId)
      modifies this`listeners
      ensures listeners == old(listeners) - {listener}
    {
      listeners := listeners - {listener};
    }

    method AddSensor(sensor: Sensor)
      modifies this`sensors
      ensures sensors == old(sensors) + {sensor}
    {
      sensors := sensors + {sensor};
    }

    method RemoveSensor(sensor: Sensor)
      modifies this`sensors
      ensures sensors == old(sensors) - {sensor}
    {
      sensors := sensors - {sensor};
    }

    /** The single path for alarm writes: persist `status`, then tell every listener. */
    method SetAlarmStatus(status: AlarmStatus)
      requires Valid()
      modifies this`alarmStatus, this`log
      ensures Valid()
      ensures alarmStatus == status
      ensures log == old(log) + AlarmTrace([status], listeners)
    {
      alarmStatus := status;
      log := log + [AlarmStored(status)];
      log := log + [Broadcast(AlarmChanged(status), listeners)];
      assert [status][..0] == [];
      assert log == old(log) + AlarmTrace([status], listeners);
      AlarmTraceAppend(old(log), [status], listeners);
    }

    method HandleSensorActivated()
      requires Valid()
      modifies this`alarmStatus, this`log
      ensures Valid()
      ensures alarmStatus == Apply(old(alarmStatus), SensorActivated(armingStatus, old(alarmStatus)))
      ensures log == old(log) + AlarmTrace(Written(SensorActivated(armingStatus, old(alarmStatus))), listeners)
    {
      if armingStatus == Disarmed {
        assert log == log + AlarmTrace([], listeners);
        return;
      }
      match alarmStatus {
        case NoAlarm => SetAlarmStatus(PendingAlarm);
        case PendingAlarm => SetAlarmStatus(Alarm);
        case Alarm =>
          assert log == log + AlarmTrace([], listeners);
      }
    }

    method HandleSensorDeactivated()
      requires Valid()
      modifies this`alarmStatus, this`log
      ensures Valid()
      ensures alarmStatus == Apply(old(alarmStatus), SensorDeactivated(old(alarmStatus)))
      ensures log == old(log) + AlarmTrace(Written(SensorDeactivated(old(alarmStatus))), listeners)
    {
      match alarmStatus {
        case PendingAlarm => SetAlarmStatus(NoAlarm);
        case Alarm => SetAlarmStatus(PendingAlarm);
        case NoAlarm =>
          assert log == log + AlarmTrace([], listeners);
      }
    }

    /** Set `sensor`'s flag to `active`, moving the alarm one step when the change calls for it,
        and persist the sensor. */
    method ChangeSensorActivationStatus(sensor: Sensor, active: bool)
      requires Valid()
      modifies this`alarmStatus, this`log, sensor
      ensures Valid()
      ensures sensor.active == active
      ensures alarmStatus == Apply(old(alarmStatus), ActivationChange(armingStatus, old(alarmStatus), old(sensor.active), active))
      ensures log == old(log) + ActivationTrace(armingStatus, old(alarmStatus), old(sensor.active), active, sensor, listeners)
    {
      var wasActive := sensor.active;
      AlarmForActivation(wasActive, active);
      ghost var mid := log;
      sensor.active := active;
      log := log + [SensorStored(sensor, sensor.active)];
      QuietAppend(mid, [SensorStored(sensor, active)]);
      AppendAssoc(old(log), AlarmTrace(Written(ActivationChange(armingStatus, old(alarmStatus), wasActive, active)), listeners),
                  [SensorStored(sensor, active)]);
    }

    /** The alarm step of `ChangeSensorActivationStatus` for a sensor whose flag goes from
        `wasActive` to `active`: none once the alarm is raised. */
    method AlarmForActivation(wasActive: bool, active: bool)
      requires Valid()
      modifies this`alarmStatus, this`log
      ensures Valid()
      ensures alarmStatus == Apply(old(alarmStatus), ActivationChange(armingStatus, old(alarmStatus), wasActive, active))
      ensures log == old(log) + AlarmTrace(Written(ActivationChange(armingStatus, old(alarmStatus), wasActive, active)), listeners)
    {
      if alarmStatus != Alarm {
        if active {
          HandleSensorActivated();
        } else if wasActive {
          HandleSensorDeactivated();
        } else {
          assert log == log + AlarmTrace([], listeners);
        }
      } else {
        assert log == log + AlarmTrace([], listeners);
      }
    }

    /** Apply `ChangeSensorActivationStatus(s, active)` to every sensor of `targets`, one after
        another, in the order the set's stream yields them (`order`); `flags` are the sensors'
        flags before the change. */
    method ChangeSensorStatus(targets: set<Sensor>, active: bool) returns (order: seq<Sensor>, ghost flags: seq<bool>)
      requires Valid()
      modifies this`alarmStatus, this`log, targets
      ensures Valid()
      ensures Enumerates(order, targets)
      ensures flags == old(ActiveFlags(order))
      ensures (true in flags) <==> !old(AllInState(targets, false))
      ensures AllInState(targets, active)
      ensures alarmStatus == Settle(old(alarmStatus), BulkChangeWrites(armingStatus, old(alarmStatus), flags, active))
      ensures log == old(log) + BulkChangeTrace(armingStatus, old(alarmStatus), order, flags, active, listeners)
      ensures unchanged(this`armingStatus, this`sensors, this`listeners, this`catDetected)
    {
      order := EncounterOrder(targets);
      EnumeratesAnyActive(order, targets);
      flags := ActiveFlags(order);
      ghost var anyActive := !AllInState(targets, false);
      ChangeEach(targets, order, flags, active);
      assert old(ActiveFlags(order)) == flags && old(!AllInState(targets, false)) == anyActive;
      EnumeratesAllInState(order, targets, active);
    }

    /** The visits of `ChangeSensorStatus`, in the order `order`; `flags` are the flags the
        sensors have on entry. */
    method ChangeEach(targets: set<Sensor>, order: seq<Sensor>, ghost flags: seq<bool>, active: bool)
      requires Valid() && Enumerates(order, targets)
      requires |flags| == |order| && forall k | 0 <= k < |order| :: flags[k] == order[k].active
      modifies this`alarmStatus, this`log, targets
      ensures Valid()
      ensures forall k | 0 <= k < |order| :: order[k].active == active
      ensures alarmStatus == Settle(old(alarmStatus), BulkChangeWrites(armingStatus, old(alarmStatus), flags, active))
      ensures log == old(log) + BulkChangeTrace(armingStatus, old(alarmStatus), order, flags, active, listeners)
    {
      ghost var alarm0, log0 := alarmStatus, log;
      for i := 0 to |order|
        invariant Valid()
        invariant forall k | 0 <= k < i :: order[k].active == active
        invariant forall k | i <= k < |order| :: order[k].active == flags[k]
        invariant alarmStatus == Settle(alarm0, BulkChangeWrites(armingStatus, alarm0, flags[..i], active))
        invariant log == log0 + BulkChangeTrace(armingStatus, alarm0, order[..i], flags[..i], active, listeners)
      {
        EnumeratesNoRepeat(order, targets, i);
        Visit(order, flags, i, active, alarm0, log0);
      }
      assert order[..|order|] == order && flags[..|flags|] == flags;
    }

    /** One visit of `ChangeEach`: the sensor `order[i]`, after `order[..i]` have been visited. */
    method Visit(order: seq<Sensor>, ghost flags: seq<bool>, i: nat, active: bool, ghost alarm0: AlarmStatus, ghost log0: seq<Event>)
      requires Valid() && i < |order| == |flags|
      requires forall k | i < k < |order| :: order[k] != order[i]
      requires forall k | 0 <= k < i :: order[k].active == active
      requires forall k | i <= k < |order| :: order[k].active == flags[k]
      requires alarmStatus == Settle(alarm0, BulkChangeWrites(armingStatus, alarm0, flags[..i], active))
      requires log == log0 + BulkChangeTrace(armingStatus, alarm0, order[..i], flags[..i], active, listeners)
      modifies this`alarmStatus, this`log, order[i]
      ensures Valid()
      ensures forall k | 0 <= k < i + 1 :: order[k].active == active
      ensures forall k | i + 1 <= k < |order| :: order[k].active == flags[k]
      ensures alarmStatus == Settle(alarm0, BulkChangeWrites(armingStatus, alarm0, flags[..i + 1], active))
      ensures log == log0 + BulkChangeTrace(armingStatus, alarm0, order[..i + 1], flags[..i + 1], active, listeners)
    {
      ghost var alarm, logBefore := alarmStatus, log;
      ChangeSensorActivationStatus(order[i], active);
      forall k | 0 <= k < i
        ensures order[k].active == active
      {
        if order[k] != order[i] {
          assert order[k].active == old(order[k].active);
        }
      }
      BulkChangeStep(armingStatus, alarm0, log0, order, flags, i, active, listeners, alarm, logBefore);
    }

    /** Record the camera's verdict and let it raise or clear the alarm. */
    method ProcessImage(cat: bool)
      requires Valid()
      modifies this`alarmStatus, this`log, this`catDetected
      ensures Valid()
      ensures catDetected == cat
      ensures alarmStatus == Apply(old(alarmStatus), CatResult(armingStatus, AllSensorsInState(false), cat))
      ensures log == old(log) + AlarmTrace(Written(CatResult(armingStatus, AllSensorsInState(false), cat)), listeners)
                     + [Broadcast(CatSeen(cat), listeners)]
    {
      catDetected := cat;
      if armingStatus == ArmedHome && cat {
        SetAlarmStatus(Alarm);
      } else if AllSensorsInState(false) && !cat {
        SetAlarmStatus(NoAlarm);
      } else {
        assert log == log + AlarmTrace([], listeners);
      }
      ghost var mid := log;
      log := log + [Broadcast(CatSeen(cat), listeners)];
      QuietAppend(mid, [Broadcast(CatSeen(cat), listeners)]);
    }

    /** Re-examine the alarm for a sensor that went inactive, and persist the sensor. */
    method DeactivateSensor(sensor: Sensor)
      requires Valid()
      modifies this`alarmStatus, this`log
      ensures Valid()
      ensures unchanged(sensor)
      ensures alarmStatus == Apply(old(alarmStatus), DeactivationCheck(armingStatus, old(alarmStatus), sensor.active))
      ensures log == old(log) + DeactivationTrace(armingStatus, old(alarmStatus), sensor.active, sensor, listeners)
    {
      var alarm := alarmStatus;
      var arming := armingStatus;
      if !sensor.active && alarm == PendingAlarm {
        HandleSensorDeactivated();
      } else if arming == Disarmed && alarm == Alarm {
        HandleSensorDeactivated();
      } else {
        assert log == log + AlarmTrace([], listeners);
      }
      ghost var mid := log;
      log := log + [SensorStored(sensor, sensor.active)];
      QuietAppend(mid, [SensorStored(sensor, sensor.active)]);
    }

    /** Change the arming status: the `ArmedHome`-with-cat alarm, then disarm or reset every
        sensor, then persist the new status and tell the listeners. `order` is the order in
        which the sensors are reset and `flags` their flags before it. */
    method SetArmingStatus(target: ArmingStatus) returns (ghost order: seq<Sensor>, ghost flags: seq<bool>)
      requires Valid()
      modifies this`alarmStatus, this`armingStatus, this`log, sensors
      ensures Valid()
      ensures armingStatus == target
      ensures target == Disarmed ==> alarmStatus == NoAlarm
      ensures target == ArmedHome && catDetected ==> alarmStatus == Alarm
      ensures target == Disarmed ==> order == [] && unchanged(sensors)
      ensures target != Disarmed ==> Enumerates(order, sensors) && AllSensorsInState(false)
      ensures |flags| == |order| && forall i | 0 <= i < |order| :: flags[i] == old(order[i].active)
      ensures StoredAlarms(log) == StoredAlarms(old(log)) + ArmingWrites(target, catDetected, old(alarmStatus), !old(AllSensorsInState(false)))
      ensures alarmStatus == Settle(old(alarmStatus), ArmingWrites(target, catDetected, old(alarmStatus), !old(AllSensorsInState(false))))
      ensures log == old(log) + ArmingTrace(old(armingStatus), old(alarmStatus), catDetected, target, order, flags, listeners)
    {
      ghost var others: set<object> := sensors;
      assert this !in others;
      order, flags := UpdateAlarmForArming(target);
      assert ArmingWrites(target, catDetected, old(alarmStatus), true in flags)
          == ArmingWrites(target, catDetected, old(alarmStatus), !old(AllSensorsInState(false)));
      StoreArmingStatus(target);
      AppendAssoc(old(log), ArmingAlarmTrace(old(armingStatus), old(alarmStatus), catDetected, target, order, flags, listeners),
                  [ArmingStored(target), Broadcast(SensorsChanged, listeners)]);
    }

    /** The alarm part of `SetArmingStatus(target)`, before the new status is stored: the
        `ArmedHome`-with-cat alarm, then the disarm write or the reset of every sensor. */
    method UpdateAlarmForArming(target: ArmingStatus) returns (ghost order: seq<Sensor>, ghost flags: seq<bool>)
      requires Valid()
      modifies this`alarmStatus, this`log, sensors
      ensures Valid()
      ensures target == Disarmed ==> order == [] && unchanged(sensors)
      ensures target != Disarmed ==> Enumerates(order, sensors) && AllInState(sensors, false)
      ensures |flags| == |order| && forall i | 0 <= i < |order| :: flags[i] == old(order[i].active)
      ensures target != Disarmed ==> ((true in flags) <==> !old(AllInState(sensors, false)))
      ensures StoredAlarms(log) == StoredAlarms(old(log)) + ArmingWrites(target, catDetected, old(alarmStatus), true in flags)
      ensures alarmStatus == Settle(old(alarmStatus), ArmingWrites(target, catDetected, old(alarmStatus), true in flags))
      ensures log == old(log) + ArmingAlarmTrace(armingStatus, old(alarmStatus), catDetected, target, order, flags, listeners)
      ensures unchanged(this`armingStatus, this`sensors, this`listeners, this`catDetected)
    {
      ghost var others: set<object> := sensors;
      assert this !in others;
      ghost var allOff := AllInState(sensors, false);
      RaiseForArming(target);
      assert unchanged(this`armingStatus, this`sensors, this`listeners, this`catDetected);
      ghost var logMid := log;
      assert AllInState(sensors, false) == allOff;
      label raised:
      order, flags := ResetForArming(target);
      forall i | 0 <= i < |order|
        ensures flags[i] == old(order[i].active)
      {
        assert flags[i] == old@raised(order[i].active) == old(order[i].active);
      }
      ArmingAlarmSteps(initialAlarm, old(log), logMid, log, armingStatus, old(alarmStatus), catDetected, target,
                       order, flags, true in flags, listeners);
    }

    /** The last step of `SetArmingStatus(target)`: persist the new status and tell every
        listener that the sensors may have changed. */
    method StoreArmingStatus(target: ArmingStatus)
      requires Valid()
      modifies this`armingStatus, this`log
      ensures Valid()
      ensures armingStatus == target
      ensures StoredAlarms(log) == StoredAlarms(old(log))
      ensures log == old(log) + [ArmingStored(target), Broadcast(SensorsChanged, listeners)]
      ensures unchanged(this`alarmStatus, this`sensors, this`listeners, this`catDetected)
      ensures unchanged(sensors)
    {
      armingStatus := target;
      log := log + [ArmingStored(target), Broadcast(SensorsChanged, listeners)];
      QuietAppend(old(log), [ArmingStored(target), Broadcast(SensorsChanged, listeners)]);
    }

    /** The first step of `SetArmingStatus(target)`: arming for home with a cat in view raises
        the alarm. */
    method RaiseForArming(target: ArmingStatus)
      requires Valid()
      modifies this`alarmStatus, this`log
      ensures Valid()
      ensures alarmStatus == Settle(old(alarmStatus), CatArmingWrites(target, catDetected))
      ensures log == old(log) + AlarmTrace(CatArmingWrites(target, catDetected), listeners)
      ensures unchanged(sensors)
    {
      if target == ArmedHome && catDetected {
        SetAlarmStatus(Alarm);
      } else {
        assert log == log + AlarmTrace([], listeners);
      }
    }

    /** The second step of `SetArmingStatus(target)`: disarming clears the alarm; arming resets
        every sensor to inactive, one after another. */
    method ResetForArming(target: ArmingStatus) returns (ghost order: seq<Sensor>, ghost flags: seq<bool>)
      requires Valid()
      modifies this`alarmStatus, this`log, sensors
      ensures Valid()
      ensures target == Disarmed ==> order == [] && unchanged(sensors)
      ensures target != Disarmed ==> Enumerates(order, sensors) && AllInState(sensors, false)
      ensures |flags| == |order| && forall i | 0 <= i < |order| :: flags[i] == old(order[i].active)
      ensures target != Disarmed ==> ((true in flags) <==> !old(AllInState(sensors, false)))
      ensures log == old(log) + ResetTrace(armingStatus, old(alarmStatus), target, order, flags, listeners)
      ensures unchanged(this`armingStatus, this`sensors, this`listeners, this`catDetected)
    {
      var all := sensors;
      if target == Disarmed {
        SetAlarmStatus(NoAlarm);
        order, flags := [], [];
      } else {
        order, flags := ChangeSensorStatus(all, false);
      }
    }
  }
}
