/**
 The entities the security service works on besides its statuses: the sensors, whose flag
 it changes in place, and a record of everything it hands to its collaborators. Each call
 through which the service persists a status or a sensor (`setAlarmStatus`, `setArmingStatus`,
 `updateSensor`) and each broadcast over its listener set becomes one `Event`; the service keeps them in a
 ghost log, in the order they happen. The functions below give the events each entry point
 produces, and the lemmas read the alarm writes and sensor updates back out of them.
 */
module SecurityLog {
  import opened AlarmLogic

  datatype SensorType = Door | Window | Motion

  /** A door, window or motion sensor; its `active` flag is the only thing that changes. */
  class Sensor {
    const name: string
    const sensorType: SensorType
    var active: bool

    constructor (name: string, sensorType: SensorType)
      ensures this.name == name && this.sensorType == sensorType && !active
    {
      this.name := name;
      this.sensorType := sensorType;
      active := false;
    }
  }

  /** The identity of a registered status listener. */
  type ListenerId = nat

  /** What a broadcast tells each listener: `notify(status)`, `catDetected(cat)` or
      `sensorStatusChanged()`. */
  datatype Notice = AlarmChanged(status: AlarmStatus) | CatSeen(cat: bool) | SensorsChanged

  datatype Event =
    | AlarmStored(alarm: AlarmStatus)
    | ArmingStored(arming: ArmingStatus)
    | SensorStored(sensor: Sensor, active: bool)
    | Broadcast(notice: Notice, to: set<ListenerId>)

  /** The events of `setAlarmStatus(s)` for each `s` in `writes`: persist, then tell every listener. */
  function AlarmTrace(writes: seq<AlarmStatus>, listeners: set<ListenerId>): (r: seq<Event>)
    ensures |r| == 2 * |writes|
    ensures writes != [] ==> r[|r| - 2] == AlarmStored(writes[|writes| - 1]) && r[|r| - 1] == Broadcast(AlarmChanged(writes[|writes| - 1]), listeners)
    decreases |writes|
  {
    if writes == [] then []
    else
      var n := |writes| - 1;
      AlarmTrace(writes[..n], listeners) + [AlarmStored(writes[n]), Broadcast(AlarmChanged(writes[n]), listeners)]
  }

  /** The events of one `changeSensorActivationStatus(sensor, active)` call on a sensor whose
      flag was `wasActive`: the alarm write, if any, then exactly one `updateSensor`, which
      persists the sensor with its new flag. */
  function ActivationTrace(arming: ArmingStatus, alarm: AlarmStatus, wasActive: bool, active: bool,
                           sensor: Sensor, listeners: set<ListenerId>): (r: seq<Event>)
    ensures |r| == 1 || |r| == 3
    ensures r[|r| - 1] == SensorStored(sensor, active)
    ensures |r| == 3 <==> ActivationChange(arming, alarm, wasActive, active).Some?
  {
    AlarmTrace(Written(ActivationChange(arming, alarm, wasActive, active)), listeners) + [SensorStored(sensor, active)]
  }

  /** The events of `deactivateSensor(sensor)` when the sensor's flag is `isActive`: the alarm
      write of `DeactivationCheck`, if any, then the sensor update. */
  function DeactivationTrace(arming: ArmingStatus, alarm: AlarmStatus, isActive: bool,
                             sensor: Sensor, listeners: set<ListenerId>): (r: seq<Event>)
    ensures |r| == 1 || |r| == 3
    ensures r[|r| - 1] == SensorStored(sensor, isActive)
    ensures |r| == 3 <==> DeactivationCheck(arming, alarm, isActive).Some?
  {
    AlarmTrace(Written(DeactivationCheck(arming, alarm, isActive)), listeners) + [SensorStored(sensor, isActive)]
  }

  /** `changeSensorActivationStatus` on a raised alarm, or deactivating a sensor that is
      already inactive, writes no alarm status and persists the sensor exactly once. */
  lemma ActivationTraceQuiet(arming: ArmingStatus, alarm: AlarmStatus, wasActive: bool, active: bool,
                             sensor: Sensor, listeners: set<ListenerId>)
    requires alarm == Alarm || (!wasActive && !active)
    ensures ActivationTrace(arming, alarm, wasActive, active, sensor, listeners) == [SensorStored(sensor, active)]
  {
    assert AlarmTrace([], listeners) == [];
  }

  /** The events of `changeSensorStatus` visiting the sensors of `order`, whose flags were
      `flags`, one `changeSensorActivationStatus` call after another. */
  function BulkChangeTrace(arming: ArmingStatus, alarm: AlarmStatus, order: seq<Sensor>, flags: seq<bool>,
                           active: bool, listeners: set<ListenerId>): (r: seq<Event>)
    requires |order| == |flags|
    ensures |order| <= |r| <= 3 * |order|
    ensures order != [] ==> r[|r| - 1] == SensorStored(order[|order| - 1], active)
    decreases |order|
  {
    if order == [] then []
    else
      var n := |order| - 1;
      BulkChangeTrace(arming, alarm, order[..n], flags[..n], active, listeners)
      + ActivationTrace(arming, Settle(alarm, BulkChangeWrites(arming, alarm, flags[..n], active)), flags[n], active, order[n], listeners)
  }

  /** The alarm statuses persisted in `log`, in order. */
  function StoredAlarms(log: seq<Event>): seq<AlarmStatus>
    decreases |log|
  {
    if log == [] then []
    else
      var n := |log| - 1;
      StoredAlarms(log[..n]) + (if log[n].AlarmStored? then [log[n].alarm] else [])
  }

  /** The sensors persisted with `updateSensor` in `log`, each with the flag it was persisted
      with, in order. */
  function StoredSensors(log: seq<Event>): seq<(Sensor, bool)>
    decreases |log|
  {
    if log == [] then []
    else
      var n := |log| - 1;
      StoredSensors(log[..n]) + (if log[n].SensorStored? then [(log[n].sensor, log[n].active)] else [])
  }

  /** Each sensor of `order` paired with the flag `active`. */
  function WithFlag(order: seq<Sensor>, active: bool): (r: seq<(Sensor, bool)>)
    ensures |r| == |order|
    ensures forall i | 0 <= i < |order| :: r[i] == (order[i], active)
    decreases |order|
  {
    if order == [] then [] else WithFlag(order[..|order| - 1], active) + [(order[|order| - 1], active)]
  }

  /** Every alarm status persisted in `log` is broadcast to the listeners by the very next event. */
  ghost predicate AlarmsAnnounced(log: seq<Event>)
  {
    forall i | 0 <= i < |log| && log[i].AlarmStored? ::
      i + 1 < |log| && log[i + 1].Broadcast? && log[i + 1].notice == AlarmChanged(log[i].alarm)
  }

  /** No sensor occurs twice in `order`. */
  ghost predicate Distinct(order: seq<Sensor>)
  {
    forall i, j | 0 <= i < j < |order| :: order[i] != order[j]
  }

  /** `order` lists each sensor of `s` exactly once. */
  ghost predicate Enumerates(order: seq<Sensor>, s: set<Sensor>)
  {
    && (forall i | 0 <= i < |order| :: order[i] in s)
    && multiset(order) == multiset(s)
  }

  /** An enumeration of `s` visits every sensor of `s`, and none twice. */
  lemma EnumeratesDistinct(order: seq<Sensor>, s: set<Sensor>)
    requires Enumerates(order, s)
    ensures Distinct(order)
    ensures forall x | x in s :: x in order
  {
    forall x | x in s
      ensures x in order
    {
      assert x in multiset(s);
    }
    forall i, j | 0 <= i < j < |order|
      ensures order[i] != order[j]
    {
      var x := order[j];
      assert order == order[..j] + [x] + order[j + 1..];
      assert multiset(order)[x] == multiset(order[..j])[x] + 1 + multiset(order[j + 1..])[x];
      assert multiset(s)[x] == 1;
      assert x !in multiset(order[..j]);
      assert order[..j][i] == order[i];
    }
  }

  /** Every sensor of `s` has the flag `state`; like a stream's `allMatch`, this holds of no
      sensors at all. */
  predicate AllInState(s: set<Sensor>, state: bool)
    reads s
    ensures s == {} ==> AllInState(s, state)
  {
    forall x | x in s :: x.active == state
  }

  /** When there is a sensor, not all sensors can be both active and inactive. */
  lemma AllInStateExclusive(s: set<Sensor>)
    requires s != {}
    ensures !(AllInState(s, true) && AllInState(s, false))
  {
    var x :| x in s;
  }

  /** The current flags of the sensors of `order`. */
  function ActiveFlags(order: seq<Sensor>): (r: seq<bool>)
    reads order
    ensures |r| == |order|
    ensures forall i | 0 <= i < |order| :: r[i] == order[i].active
    decreases |order|
  {
    if order == [] then [] else ActiveFlags(order[..|order| - 1]) + [order[|order| - 1].active]
  }

  /** In an enumeration, the sensor at `i` does not come back later. */
  lemma EnumeratesNoRepeat(order: seq<Sensor>, s: set<Sensor>, i: nat)
    requires Enumerates(order, s) && i < |order|
    ensures forall k | i < k < |order| :: order[k] != order[i]
  {
    EnumeratesDistinct(order, s);
  }

  /** Some sensor of `s` is active exactly when the flags of an enumeration of `s` hold a `true`. */
  lemma EnumeratesAnyActive(order: seq<Sensor>, s: set<Sensor>)
    requires Enumerates(order, s)
    ensures (true in ActiveFlags(order)) <==> !AllInState(s, false)
  {
    var flags := ActiveFlags(order);
    EnumeratesDistinct(order, s);
    if true in flags {
      var i :| 0 <= i < |flags| && flags[i];
      assert order[i] in s;
    }
    if x :| x in s && x.active {
      var i :| 0 <= i < |order| && order[i] == x;
      assert flags[i];
    }
  }

  /** When every sensor of an enumeration of `s` has the flag `state`, all of `s` has it. */
  lemma EnumeratesAllInState(order: seq<Sensor>, s: set<Sensor>, state: bool)
    requires Enumerates(order, s)
    requires forall k | 0 <= k < |order| :: order[k].active == state
    ensures AllInState(s, state)
  {
    EnumeratesDistinct(order, s);
    forall x | x in s
      ensures x.active == state
    {
      var k :| 0 <= k < |order| && order[k] == x;
    }
  }

  lemma {:induction false} StoredAlarmsAppend(a: seq<Event>, b: seq<Event>)
    ensures StoredAlarms(a + b) == StoredAlarms(a) + StoredAlarms(b)
    decreases |b|
  {
    if b == [] {
      assert a + b == a;
    } else {
      var n := |b| - 1;
      var last := if b[n].AlarmStored? then [b[n].alarm] else [];
      StoredAlarmsAppend(a, b[..n]);
      assert (a + b)[..|a| + n] == a + b[..n];
      calc {
        StoredAlarms(a + b);
        StoredAlarms(a + b[..n]) + last;
        (StoredAlarms(a) + StoredAlarms(b[..n])) + last;
        StoredAlarms(a) + (StoredAlarms(b[..n]) + last);
      }
    }
  }

  lemma {:induction false} StoredSensorsAppend(a: seq<Event>, b: seq<Event>)
    ensures StoredSensors(a + b) == StoredSensors(a) + StoredSensors(b)
    decreases |b|
  {
    if b == [] {
      assert a + b == a;
    } else {
      var n := |b| - 1;
      var last := if b[n].SensorStored? then [(b[n].sensor, b[n].active)] else [];
      StoredSensorsAppend(a, b[..n]);
      assert (a + b)[..|a| + n] == a + b[..n];
      calc {
        StoredSensors(a + b);
        StoredSensors(a + b[..n]) + last;
        (StoredSensors(a) + StoredSensors(b[..n])) + last;
        StoredSensors(a) + (StoredSensors(b[..n]) + last);
      }
    }
  }

  lemma AnnouncedAppend(a: seq<Event>, b: seq<Event>)
    requires AlarmsAnnounced(a) && AlarmsAnnounced(b)
    ensures AlarmsAnnounced(a + b)
  {
    forall i | 0 <= i < |a + b| && (a + b)[i].AlarmStored?
      ensures i + 1 < |a + b| && (a + b)[i + 1].Broadcast? && (a + b)[i + 1].notice == AlarmChanged((a + b)[i].alarm)
    {
      if i < |a| {
        assert a[i].AlarmStored?;
      } else {
        assert b[i - |a|].AlarmStored?;
      }
    }
  }

  /** The events of a run of `setAlarmStatus` calls persist exactly those statuses and update
      no sensor. */
  lemma {:induction false} AlarmTraceStores(writes: seq<AlarmStatus>, listeners: set<ListenerId>)
    ensures StoredAlarms(AlarmTrace(writes, listeners)) == writes
    ensures StoredSensors(AlarmTrace(writes, listeners)) == []
    decreases |writes|
  {
    if writes != [] {
      var n := |writes| - 1;
      var tail := [AlarmStored(writes[n]), Broadcast(AlarmChanged(writes[n]), listeners)];
      AlarmTraceStores(writes[..n], listeners);
      StoredAlarmsAppend(AlarmTrace(writes[..n], listeners), tail);
      StoredSensorsAppend(AlarmTrace(writes[..n], listeners), tail);
      assert AlarmTrace(writes, listeners) == AlarmTrace(writes[..n], listeners) + tail;
      assert tail[..1] == [AlarmStored(writes[n])] && tail[..1][..0] == [];
      assert StoredAlarms(tail[..1]) == [writes[n]] && StoredSensors(tail[..1]) == [];
      assert writes == writes[..n] + [writes[n]];
    }
  }

  /** A run of `setAlarmStatus` calls announces each status right after persisting it. */
  lemma {:induction false} AlarmTraceAnnounced(writes: seq<AlarmStatus>, listeners: set<ListenerId>)
    ensures AlarmsAnnounced(AlarmTrace(writes, listeners))
    decreases |writes|
  {
    if writes != [] {
      var n := |writes| - 1;
      AlarmTraceAnnounced(writes[..n], listeners);
      AnnouncedAppend(AlarmTrace(writes[..n], listeners), [AlarmStored(writes[n]), Broadcast(AlarmChanged(writes[n]), listeners)]);
    }
  }

  /** One `changeSensorActivationStatus` call persists its alarm write, if any, and the sensor,
      exactly once. */
  lemma ActivationTraceStores(arming: ArmingStatus, alarm: AlarmStatus, wasActive: bool, active: bool,
                              sensor: Sensor, listeners: set<ListenerId>)
    ensures StoredAlarms(ActivationTrace(arming, alarm, wasActive, active, sensor, listeners))
         == Written(ActivationChange(arming, alarm, wasActive, active))
    ensures StoredSensors(ActivationTrace(arming, alarm, wasActive, active, sensor, listeners)) == [(sensor, active)]
  {
    var writes := Written(ActivationChange(arming, alarm, wasActive, active));
    AlarmTraceStores(writes, listeners);
    StoredAlarmsAppend(AlarmTrace(writes, listeners), [SensorStored(sensor, active)]);
    StoredSensorsAppend(AlarmTrace(writes, listeners), [SensorStored(sensor, active)]);
  }

  lemma ActivationTraceAnnounced(arming: ArmingStatus, alarm: AlarmStatus, wasActive: bool, active: bool,
                                 sensor: Sensor, listeners: set<ListenerId>)
    ensures AlarmsAnnounced(ActivationTrace(arming, alarm, wasActive, active, sensor, listeners))
  {
    var writes := Written(ActivationChange(arming, alarm, wasActive, active));
    AlarmTraceAnnounced(writes, listeners);
    AnnouncedAppend(AlarmTrace(writes, listeners), [SensorStored(sensor, active)]);
  }

  /** One `deactivateSensor` call persists its alarm write, if any, and the sensor, exactly once. */
  lemma DeactivationTraceStores(arming: ArmingStatus, alarm: AlarmStatus, isActive: bool,
                                sensor: Sensor, listeners: set<ListenerId>)
    ensures StoredAlarms(DeactivationTrace(arming, alarm, isActive, sensor, listeners))
         == Written(DeactivationCheck(arming, alarm, isActive))
    ensures StoredSensors(DeactivationTrace(arming, alarm, isActive, sensor, listeners)) == [(sensor, isActive)]
  {
    var writes := Written(DeactivationCheck(arming, alarm, isActive));
    AlarmTraceStores(writes, listeners);
    StoredAlarmsAppend(AlarmTrace(writes, listeners), [SensorStored(sensor, isActive)]);
    StoredSensorsAppend(AlarmTrace(writes, listeners), [SensorStored(sensor, isActive)]);
  }

  /** The bulk change persists exactly the alarm writes of the sequential fold. */
  lemma {:induction false} BulkChangeTraceAlarms(arming: ArmingStatus, alarm: AlarmStatus, order: seq<Sensor>,
                                                 flags: seq<bool>, active: bool, listeners: set<ListenerId>)
    requires |order| == |flags|
    ensures StoredAlarms(BulkChangeTrace(arming, alarm, order, flags, active, listeners))
         == BulkChangeWrites(arming, alarm, flags, active)
    decreases |order|
  {
    if order != [] {
      var n := |order| - 1;
      var before := BulkChangeTrace(arming, alarm, order[..n], flags[..n], active, listeners);
      var now := Settle(alarm, BulkChangeWrites(arming, alarm, flags[..n], active));
      var step := ActivationTrace(arming, now, flags[n], active, order[n], listeners);
      BulkChangeTraceAlarms(arming, alarm, order[..n], flags[..n], active, listeners);
      ActivationTraceStores(arming, now, flags[n], active, order[n], listeners);
      StoredAlarmsAppend(before, step);
    }
  }

  /** The bulk change updates every visited sensor exactly once, in visiting order, with the
      flag `active`. */
  lemma {:induction false} BulkChangeTraceSensors(arming: ArmingStatus, alarm: AlarmStatus, order: seq<Sensor>,
                                                  flags: seq<bool>, active: bool, listeners: set<ListenerId>)
    requires |order| == |flags|
    ensures StoredSensors(BulkChangeTrace(arming, alarm, order, flags, active, listeners)) == WithFlag(order, active)
    decreases |order|
  {
    if order != [] {
      var n := |order| - 1;
      assert order[..n] == order[..|order| - 1];
      var before := BulkChangeTrace(arming, alarm, order[..n], flags[..n], active, listeners);
      var now := Settle(alarm, BulkChangeWrites(arming, alarm, flags[..n], active));
      var step := ActivationTrace(arming, now, flags[n], active, order[n], listeners);
      assert BulkChangeTrace(arming, alarm, order, flags, active, listeners) == before + step;
      BulkChangeTraceSensors(arming, alarm, order[..n], flags[..n], active, listeners);
      ActivationTraceStores(arming, now, flags[n], active, order[n], listeners);
      StoredSensorsAppend(before, step);
    }
  }

  /** The bulk change announces every alarm status it persists. */
  lemma {:induction false} BulkChangeTraceAnnounced(arming: ArmingStatus, alarm: AlarmStatus, order: seq<Sensor>,
                                                    flags: seq<bool>, active: bool, listeners: set<ListenerId>)
    requires |order| == |flags|
    ensures AlarmsAnnounced(BulkChangeTrace(arming, alarm, order, flags, active, listeners))
    decreases |order|
  {
    if order != [] {
      var n := |order| - 1;
      var before := BulkChangeTrace(arming, alarm, order[..n], flags[..n], active, listeners);
      var now := Settle(alarm, BulkChangeWrites(arming, alarm, flags[..n], active));
      var step := ActivationTrace(arming, now, flags[n], active, order[n], listeners);
      BulkChangeTraceAnnounced(arming, alarm, order[..n], flags[..n], active, listeners);
      ActivationTraceAnnounced(arming, now, flags[n], active, order[n], listeners);
      AnnouncedAppend(before, step);
    }
  }

  /** The events of the second step of `setArmingStatus(target)`, from the alarm status
      `alarm`: the disarm write, or the bulk deactivation of the sensors in `order` (whose
      flags were `flags`). */
  function ResetTrace(arming: ArmingStatus, alarm: AlarmStatus, target: ArmingStatus,
                      order: seq<Sensor>, flags: seq<bool>, listeners: set<ListenerId>): (r: seq<Event>)
    requires |order| == |flags|
    ensures target == Disarmed ==> |r| == 2 && r[0] == AlarmStored(NoAlarm)
    ensures target != Disarmed ==> |order| <= |r| <= 3 * |order|
  {
    if target == Disarmed then AlarmTrace([NoAlarm], listeners)
    else BulkChangeTrace(arming, alarm, order, flags, false, listeners)
  }

  /** The events of `setArmingStatus(target)` before the new status is stored, when the cat
      flag is `cat`: the `ArmedHome`-with-cat write, then the disarm write or the bulk
      deactivation of the sensors. */
  function ArmingAlarmTrace(arming: ArmingStatus, alarm: AlarmStatus, cat: bool, target: ArmingStatus,
                            order: seq<Sensor>, flags: seq<bool>, listeners: set<ListenerId>): (r: seq<Event>)
    requires |order| == |flags|
    ensures target == ArmedHome && cat ==> |r| >= 2 && r[0] == AlarmStored(Alarm)
    ensures target == Disarmed ==> |r| >= 2 && r[|r| - 2] == AlarmStored(NoAlarm)
  {
    var catWrites := CatArmingWrites(target, cat);
    AlarmTrace(catWrites, listeners) + ResetTrace(arming, Settle(alarm, catWrites), target, order, flags, listeners)
  }

  /** All the events of `setArmingStatus(target)`: the alarm part, then the new arming status
      and the `sensorStatusChanged` broadcast. */
  function ArmingTrace(arming: ArmingStatus, alarm: AlarmStatus, cat: bool, target: ArmingStatus,
                       order: seq<Sensor>, flags: seq<bool>, listeners: set<ListenerId>): (r: seq<Event>)
    requires |order| == |flags|
    ensures target == ArmedHome && cat ==> |r| >= 2 && r[0] == AlarmStored(Alarm)
    ensures |r| >= 2 && r[|r| - 2] == ArmingStored(target) && r[|r| - 1] == Broadcast(SensorsChanged, listeners)
  {
    ArmingAlarmTrace(arming, alarm, cat, target, order, flags, listeners)
    + [ArmingStored(target), Broadcast(SensorsChanged, listeners)]
  }

  /** The alarm part of `setArmingStatus(target)` persists exactly `ArmingWrites`, whatever the
      order in which the sensors are reset (`true in flags`: some sensor was active). */
  lemma ArmingAlarmTraceStores(arming: ArmingStatus, alarm: AlarmStatus, cat: bool, target: ArmingStatus,
                               order: seq<Sensor>, flags: seq<bool>, listeners: set<ListenerId>)
    requires |order| == |flags|
    ensures StoredAlarms(ArmingAlarmTrace(arming, alarm, cat, target, order, flags, listeners))
         == ArmingWrites(target, cat, alarm, true in flags)
  {
    var catWrites := CatArmingWrites(target, cat);
    var middle := ResetTrace(arming, Settle(alarm, catWrites), target, order, flags, listeners);
    AlarmTraceStores(catWrites, listeners);
    StoredAlarmsAppend(AlarmTrace(catWrites, listeners), middle);
    if target == Disarmed {
      AlarmTraceStores([NoAlarm], listeners);
    } else {
      BulkChangeTraceAlarms(arming, Settle(alarm, catWrites), order, flags, false, listeners);
      BulkDeactivateClosedForm(arming, Settle(alarm, catWrites), flags);
    }
  }

  /** All the events of `setArmingStatus(target)` persist exactly `ArmingWrites`: storing the
      arming status and the `sensorStatusChanged` broadcast persist no alarm status. */
  lemma ArmingTraceAlarms(arming: ArmingStatus, alarm: AlarmStatus, cat: bool, target: ArmingStatus,
                          order: seq<Sensor>, flags: seq<bool>, listeners: set<ListenerId>)
    requires |order| == |flags|
    ensures StoredAlarms(ArmingTrace(arming, alarm, cat, target, order, flags, listeners))
         == ArmingWrites(target, cat, alarm, true in flags)
  {
    QuietAppend(ArmingAlarmTrace(arming, alarm, cat, target, order, flags, listeners),
                [ArmingStored(target), Broadcast(SensorsChanged, listeners)]);
    ArmingAlarmTraceStores(arming, alarm, cat, target, order, flags, listeners);
  }

  /** The events of `setArmingStatus(target)` announce every alarm status they persist. */
  lemma ArmingTraceAnnounced(arming: ArmingStatus, alarm: AlarmStatus, cat: bool, target: ArmingStatus,
                             order: seq<Sensor>, flags: seq<bool>, listeners: set<ListenerId>)
    requires |order| == |flags|
    ensures AlarmsAnnounced(ArmingTrace(arming, alarm, cat, target, order, flags, listeners))
  {
    var catWrites := CatArmingWrites(target, cat);
    var middle := ResetTrace(arming, Settle(alarm, catWrites), target, order, flags, listeners);
    var tail := [ArmingStored(target), Broadcast(SensorsChanged, listeners)];
    AlarmTraceAnnounced(catWrites, listeners);
    if target == Disarmed {
      AlarmTraceAnnounced([NoAlarm], listeners);
    } else {
      BulkChangeTraceAnnounced(arming, Settle(alarm, catWrites), order, flags, false, listeners);
    }
    AnnouncedAppend(AlarmTrace(catWrites, listeners), middle);
    QuietAppend(AlarmTrace(catWrites, listeners) + middle, tail);
  }

  /** A log extended first by the `ArmedHome`-with-cat write and then by the disarm write or
      the bulk deactivation, from a state whose alarm status `alarm` is the last one persisted
      (`anyActive`: some sensor was active): together the two parts are the alarm part of
      `setArmingStatus(target)`, their writes are `ArmingWrites`, and the last of them is the new
      alarm status. */
  lemma ArmingAlarmSteps(initial: AlarmStatus, log0: seq<Event>, logMid: seq<Event>, log1: seq<Event>,
                         arming: ArmingStatus, alarm: AlarmStatus, cat: bool, target: ArmingStatus,
                         order: seq<Sensor>, flags: seq<bool>, anyActive: bool, listeners: set<ListenerId>)
    requires |order| == |flags|
    requires target != Disarmed ==> ((true in flags) <==> anyActive)
    requires alarm == Settle(initial, StoredAlarms(log0))
    requires logMid == log0 + AlarmTrace(CatArmingWrites(target, cat), listeners)
    requires log1 == logMid + ResetTrace(arming, Settle(alarm, CatArmingWrites(target, cat)), target, order, flags, listeners)
    ensures log1 == log0 + ArmingAlarmTrace(arming, alarm, cat, target, order, flags, listeners)
    ensures StoredAlarms(log1) == StoredAlarms(log0) + ArmingWrites(target, cat, alarm, anyActive)
    ensures Settle(initial, StoredAlarms(log1)) == Settle(alarm, ArmingWrites(target, cat, alarm, anyActive))
  {
    var trace := ArmingAlarmTrace(arming, alarm, cat, target, order, flags, listeners);
    AppendAssoc(log0, AlarmTrace(CatArmingWrites(target, cat), listeners),
                ResetTrace(arming, Settle(alarm, CatArmingWrites(target, cat)), target, order, flags, listeners));
    ArmingAlarmTraceStores(arming, alarm, cat, target, order, flags, listeners);
    assert ArmingWrites(target, cat, alarm, true in flags) == ArmingWrites(target, cat, alarm, anyActive);
    StoredAlarmsAppend(log0, trace);
    SettleAppend(initial, StoredAlarms(log0), StoredAlarms(trace));
  }

  /** One more visit of the bulk change: if `log` and `alarm` are what the visits of `order`
      left behind, then one more `changeSensorActivationStatus` call leaves what the visits of
      `order + [sensor]` leave behind. */
  lemma BulkChangeStep(arming: ArmingStatus, alarm0: AlarmStatus, log0: seq<Event>, order: seq<Sensor>, flags: seq<bool>, i: nat,
                       active: bool, listeners: set<ListenerId>, alarm: AlarmStatus, log: seq<Event>)
    requires i < |order| == |flags|
    requires alarm == Settle(alarm0, BulkChangeWrites(arming, alarm0, flags[..i], active))
    requires log == log0 + BulkChangeTrace(arming, alarm0, order[..i], flags[..i], active, listeners)
    ensures Apply(alarm, ActivationChange(arming, alarm, flags[i], active))
         == Settle(alarm0, BulkChangeWrites(arming, alarm0, flags[..i + 1], active))
    ensures log + ActivationTrace(arming, alarm, flags[i], active, order[i], listeners)
         == log0 + BulkChangeTrace(arming, alarm0, order[..i + 1], flags[..i + 1], active, listeners)
  {
    assert order[..i + 1][..i] == order[..i];
    assert flags[..i + 1][..i] == flags[..i];
    SettleWritten(alarm0, BulkChangeWrites(arming, alarm0, flags[..i], active), ActivationChange(arming, alarm, flags[i], active));
    AppendAssoc(log0, BulkChangeTrace(arming, alarm0, order[..i], flags[..i], active, listeners),
                ActivationTrace(arming, alarm, flags[i], active, order[i], listeners));
  }

  lemma AppendAssoc(a: seq<Event>, b: seq<Event>, c: seq<Event>)
    ensures (a + b) + c == a + (b + c)
  {
  }

  /** Events that persist no alarm status leave the persisted alarm statuses and their
      announcements as they were. */
  lemma {:induction false} QuietAppend(log: seq<Event>, more: seq<Event>)
    requires forall i | 0 <= i < |more| :: !more[i].AlarmStored?
    ensures StoredAlarms(log + more) == StoredAlarms(log)
    ensures AlarmsAnnounced(log) ==> AlarmsAnnounced(log + more)
    decreases |more|
  {
    if more == [] {
      assert log + more == log;
    } else {
      var n := |more| - 1;
      QuietAppend(log, more[..n]);
      assert (log + more)[..|log| + n] == log + more[..n];
    }
  }

  /** A run of `setAlarmStatus` calls appended to a log persists exactly its statuses, after
      those already persisted, and keeps every persisted status announced. */
  lemma AlarmTraceAppend(log: seq<Event>, writes: seq<AlarmStatus>, listeners: set<ListenerId>)
    ensures StoredAlarms(log + AlarmTrace(writes, listeners)) == StoredAlarms(log) + writes
    ensures AlarmsAnnounced(log) ==> AlarmsAnnounced(log + AlarmTrace(writes, listeners))
  {
    AlarmTraceStores(writes, listeners);
    StoredAlarmsAppend(log, AlarmTrace(writes, listeners));
    if AlarmsAnnounced(log) {
      AlarmTraceAnnounced(writes, listeners);
      AnnouncedAppend(log, AlarmTrace(writes, listeners));
    }
  }
}
