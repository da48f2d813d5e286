/**
 The decision logic of the security service, free of any state: the arming and alarm
 statuses, the alarm write (if any) that each entry point of the service performs,
 and the sequential fold that the bulk sensor reset of `setArmingStatus` applies.

 An alarm write is an `Option<AlarmStatus>`: `None` means the entry point does not call
 `setAlarmStatus` at all (so neither the repository nor any listener hears of it),
 `Some(s)` means it calls `setAlarmStatus(s)` exactly once.
 */
module AlarmLogic {

  datatype Option<T> = None | Some(value: T)

  datatype ArmingStatus = Disarmed | ArmedHome | ArmedAway

  datatype AlarmStatus = NoAlarm | PendingAlarm | Alarm

  /** Escalation level of an alarm status: the three statuses form a ladder. */
  function Level(a: AlarmStatus): nat
  {
    match a
    case NoAlarm => 0
    case PendingAlarm => 1
    case Alarm => 2
  }

  /** The value a sequence of writes leaves behind: the last one, or `init` when there is none. */
  function Settle<T>(init: T, writes: seq<T>): T
  {
    if writes == [] then init else writes[|writes| - 1]
  }

  /** The writes an optional write stands for. */
  function Written<T>(w: Option<T>): (r: seq<T>)
    ensures |r| <= 1
  {
    match w
    case None => []
    case Some(v) => [v]
  }

  /** The status after an optional write. */
  function Apply(alarm: AlarmStatus, w: Option<AlarmStatus>): AlarmStatus
  {
    match w
    case None => alarm
    case Some(s) => s
  }

  lemma SettleAppend<T>(init: T, w1: seq<T>, w2: seq<T>)
    ensures Settle(init, w1 + w2) == Settle(Settle(init, w1), w2)
  {
    if w2 == [] {
      assert w1 + w2 == w1;
    }
  }

  lemma SettleWritten(alarm: AlarmStatus, writes: seq<AlarmStatus>, w: Option<AlarmStatus>)
    ensures Settle(alarm, writes + Written(w)) == Apply(Settle(alarm, writes), w)
  {
    if w.None? {
      assert writes + Written(w) == writes;
    }
  }

  /** The write of `handleSensorActivated`: nothing when disarmed; otherwise one step up the
      ladder, except that `Alarm` has no step above it. */
  function SensorActivated(arming: ArmingStatus, alarm: AlarmStatus): (w: Option<AlarmStatus>)
    ensures w.Some? <==> arming != Disarmed && alarm != Alarm
    ensures w.Some? ==> Level(w.value) == Level(alarm) + 1
  {
    if arming == Disarmed then None
    else
      match alarm
      case NoAlarm => Some(PendingAlarm)
      case PendingAlarm => Some(Alarm)
      case Alarm => None
  }

  /** The write of `handleSensorDeactivated`: one step down the ladder, nothing at the bottom. */
  function SensorDeactivated(alarm: AlarmStatus): (w: Option<AlarmStatus>)
    ensures w.Some? <==> alarm != NoAlarm
    ensures w.Some? ==> Level(w.value) + 1 == Level(alarm)
  {
    match alarm
    case PendingAlarm => Some(NoAlarm)
    case Alarm => Some(PendingAlarm)
    case NoAlarm => None
  }

  /** The write of `changeSensorActivationStatus(sensor, active)` for a sensor whose flag was
      `wasActive`: never when the alarm is already raised, never when an inactive sensor is
      deactivated again, and otherwise one step up (activation) or down (deactivation). */
  function ActivationChange(arming: ArmingStatus, alarm: AlarmStatus, wasActive: bool, active: bool): (w: Option<AlarmStatus>)
    ensures alarm == Alarm ==> w == None
    ensures !wasActive && !active ==> w == None
    ensures w.Some? <==> alarm != Alarm && (if active then arming != Disarmed else wasActive && alarm == PendingAlarm)
    ensures w.Some? && active ==> Level(w.value) == Level(alarm) + 1
    ensures w.Some? && !active ==> w.value == NoAlarm
  {
    if alarm != Alarm then
      if active then SensorActivated(arming, alarm)
      else if wasActive then SensorDeactivated(alarm)
      else None
    else None
  }

  /** The write of `deactivateSensor(sensor)` where the sensor's flag is `isActive`. */
  function DeactivationCheck(arming: ArmingStatus, alarm: AlarmStatus, isActive: bool): (w: Option<AlarmStatus>)
    ensures !isActive && alarm == PendingAlarm ==> w == Some(NoAlarm)
    ensures arming == Disarmed && alarm == Alarm ==> w == Some(PendingAlarm)
    ensures w.Some? <==> (!isActive && alarm == PendingAlarm) || (arming == Disarmed && alarm == Alarm)
    ensures w.Some? ==> Level(w.value) + 1 == Level(alarm)
  {
    if !isActive && alarm == PendingAlarm then SensorDeactivated(alarm)
    else if arming == Disarmed && alarm == Alarm then SensorDeactivated(alarm)
    else None
  }

  /** The write of `catDetected(cat)` (reached through `processImage`), where `allInactive`
      says whether every known sensor is inactive. */
  function CatResult(arming: ArmingStatus, allInactive: bool, cat: bool): (w: Option<AlarmStatus>)
    ensures w == Some(Alarm) <==> arming == ArmedHome && cat
    ensures w == Some(NoAlarm) <==> allInactive && !cat
    ensures w != Some(PendingAlarm)
  {
    if arming == ArmedHome && cat then Some(Alarm)
    else if allInactive && !cat then Some(NoAlarm)
    else None
  }

  /** The alarm writes of `changeSensorStatus(sensors, active)` when it visits sensors whose
      flags were `flags`, in that order: each visit is one `changeSensorActivationStatus` call
      and starts from the status the previous visits left behind. Activating sensors of a
      disarmed system writes nothing. */
  function BulkChangeWrites(arming: ArmingStatus, alarm: AlarmStatus, flags: seq<bool>, active: bool): (r: seq<AlarmStatus>)
    ensures arming == Disarmed && active ==> r == []
    decreases |flags|
  {
    if flags == [] then []
    else
      var n := |flags| - 1;
      var before := BulkChangeWrites(arming, alarm, flags[..n], active);
      before + Written(ActivationChange(arming, Settle(alarm, before), flags[n], active))
  }

  /** Each visit of the bulk change writes at most once. */
  lemma {:induction false} BulkChangeWritesBound(arming: ArmingStatus, alarm: AlarmStatus, flags: seq<bool>, active: bool)
    ensures |BulkChangeWrites(arming, alarm, flags, active)| <= |flags|
    decreases |flags|
  {
    if flags != [] {
      BulkChangeWritesBound(arming, alarm, flags[..|flags| - 1], active);
    }
  }

  /** Deactivating every sensor, in closed form: only a pending alarm with some active sensor
      changes, and it then drops to `NoAlarm` with a single write. */
  function DeactivateAllWrites(alarm: AlarmStatus, anyActive: bool): (r: seq<AlarmStatus>)
    ensures |r| <= 1
    ensures Level(Settle(alarm, r)) <= Level(alarm)
  {
    if alarm == PendingAlarm && anyActive then [NoAlarm] else []
  }

  /** The sequential bulk deactivation agrees with its closed form, whatever the number of
      sensors: the first active sensor met clears a pending alarm and every later visit finds
      `NoAlarm` and writes nothing; a raised alarm is never touched. */
  lemma {:induction false} BulkDeactivateClosedForm(arming: ArmingStatus, alarm: AlarmStatus, flags: seq<bool>)
    ensures BulkChangeWrites(arming, alarm, flags, false) == DeactivateAllWrites(alarm, true in flags)
    decreases |flags|
  {
    if flags != [] {
      var n := |flags| - 1;
      BulkDeactivateClosedForm(arming, alarm, flags[..n]);
      assert flags == flags[..n] + [flags[n]];
      assert (true in flags) == ((true in flags[..n]) || flags[n]);
      DeactivateOneMore(arming, alarm, true in flags[..n], flags[n]);
    }
  }

  /** One more visit of the bulk deactivation, to a sensor whose flag is `last`, keeps the
      closed form. */
  lemma DeactivateOneMore(arming: ArmingStatus, alarm: AlarmStatus, earlier: bool, last: bool)
    ensures var before := DeactivateAllWrites(alarm, earlier);
            before + Written(ActivationChange(arming, Settle(alarm, before), last, false))
            == DeactivateAllWrites(alarm, earlier || last)
  {
  }

  /** The order in which the bulk deactivation visits the sensors cannot change its writes. */
  lemma BulkDeactivateOrderFree(arming: ArmingStatus, alarm: AlarmStatus, flags1: seq<bool>, flags2: seq<bool>)
    requires multiset(flags1) == multiset(flags2)
    ensures BulkChangeWrites(arming, alarm, flags1, false) == BulkChangeWrites(arming, alarm, flags2, false)
  {
    BulkDeactivateClosedForm(arming, alarm, flags1);
    BulkDeactivateClosedForm(arming, alarm, flags2);
    assert (true in flags1) <==> true in multiset(flags1);
    assert (true in flags2) <==> true in multiset(flags2);
  }

  /** The first alarm write of `setArmingStatus(target)`: arming for home with a cat in view
      raises the alarm at once. */
  function CatArmingWrites(target: ArmingStatus, cat: bool): (r: seq<AlarmStatus>)
    ensures r == [Alarm] <==> target == ArmedHome && cat
    ensures r != [Alarm] ==> r == []
  {
    if target == ArmedHome && cat then [Alarm] else []
  }

  /** The alarm writes of `setArmingStatus(target)`: the `ArmedHome`-with-cat write, then either
      the disarm write or the bulk deactivation of the sensors (`anyActive`: some sensor was
      active), which starts from the status the first write left behind. */
  function ArmingWrites(target: ArmingStatus, cat: bool, alarm: AlarmStatus, anyActive: bool): (r: seq<AlarmStatus>)
    ensures |r| <= 1
    ensures target == Disarmed ==> r == [NoAlarm]
    ensures target == ArmedHome && cat ==> r == [Alarm]
    ensures target != Disarmed && !(target == ArmedHome && cat) ==> r == DeactivateAllWrites(alarm, anyActive)
    ensures target != Disarmed ==> Level(Settle(alarm, r)) <= Level(alarm) || r == [Alarm]
  {
    var catWrites := CatArmingWrites(target, cat);
    catWrites + (if target == Disarmed then [NoAlarm] else DeactivateAllWrites(Settle(alarm, catWrites), anyActive))
  }
}
