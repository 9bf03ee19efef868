/**
  Alarm dispatch (AlarmService): storing an alarm and pushing a notice to the
  receiver's live connection, and opening a live connection.

  The dispatch state is a value, `Dispatch`, and each entry point is a
  function from state to state (`SendStep`, `ConnectStep`, `CompleteStep`,
  `TimeoutStep`); the `AlarmService` class below implements them with the
  source's ordered side effects. How a push to a handle ends is not decided
  here: it is an argument (`PushOutcome`).
 */
module Alarms {
  import opened Wrappers
  import opened JavaStrings
  import opened Emitters
  import opened Errors

  /** `ALARM_NAME`: the event name of every push. */
  const AlarmName: string := "alarm"

  /** `DEFAULT_TIMEOUT`: sixty minutes, in milliseconds. */
  const DefaultTimeout: int := 60 * 1000 * 60

  /** The alarm kinds (the enum itself is not part of this model). */
  datatype AlarmType = NewCommentOnPost | NewLikeOnPost

  datatype AlarmArgs = AlarmArgs(fromUserId: int, targetId: int)

  /** A stored alarm; the store assigns `id`. */
  datatype AlarmRecord = AlarmRecord(id: nat, alarmType: AlarmType, args: AlarmArgs, userId: int)

  /** The payload of a push: an `AlarmNoti` object (its content is not modelled) or a text. */
  datatype EventData = AlarmNoti | Text(text: string)

  /** A server-sent event: id, name and data. */
  datatype SseEvent = SseEvent(id: string, name: string, data: EventData)

  /** The notice pushed for a newly stored alarm: its id in decimal, name "alarm". */
  function NewAlarmNotice(alarmId: nat): SseEvent {
    SseEvent(IntToString(alarmId), AlarmName, AlarmNoti)
  }

  /** The handshake pushed on a new connection. */
  const ConnectNotice: SseEvent := SseEvent("id", AlarmName, Text("connect completed"))

  /** A registered callback: the lambda `() -> emitterRepository.delete(userId)`. */
  datatype Callback = DeleteEntry(userId: int)

  /** What is known of a live-push handle: its timeout and its two callbacks. */
  datatype Emitter = Emitter(timeout: int, onCompletion: Option<Callback>, onTimeout: Option<Callback>)

  /**
    How `SseEmitter.send` ends: the event is written, it fails with an
    `IOException`, or it throws an unchecked exception (an
    `IllegalStateException`, for instance on an emitter already completed).
   */
  datatype PushOutcome = Delivered | IoFailure | Unchecked

  /**
    What leaves `send` or `connectNotification` abnormally: this application's
    exception, or the unchecked exception of a push, which neither catches.
   */
  datatype Thrown = AppError(exception: AppException) | PushUnchecked

  /** The observable side effects, in the order they happen. */
  datatype Effect = Stored(record: AlarmRecord) | Pushed(target: Handle, event: SseEvent)

  /**
    The state the dispatch code reads and writes: the user store (ids only),
    the append-only alarm store, the registry's map, every handle created so
    far, the next handle id, and the trace of side effects.
   */
  datatype Dispatch = Dispatch(
    users: set<int>,
    alarms: seq<AlarmRecord>,
    registry: EmitterMap,
    emitters: map<Handle, Emitter>,
    nextHandle: nat,
    effects: seq<Effect>)

  /**
    Alarm ids are 1, 2, 3, ... in storage order (so each new one is fresh);
    every registered handle was created; handle ids below `nextHandle` are used.
   */
  predicate Valid(s: Dispatch) {
    && (forall i :: 0 <= i < |s.alarms| ==> s.alarms[i].id == i + 1)
    && (forall k :: k in s.registry ==> s.registry[k] in s.emitters)
    && (forall h :: h in s.emitters ==> h.id < s.nextHandle)
  }

  const InitialDispatch: Dispatch := Dispatch({}, [], map[], map[], 0, [])

  function WithUsers(users: set<int>): (s: Dispatch)
    ensures Valid(s)
  {
    InitialDispatch.(users := users)
  }

  /** The alarm `send` would store next. */
  function NextRecord(s: Dispatch, alarmType: AlarmType, args: AlarmArgs, receiverId: int): AlarmRecord {
    AlarmRecord(|s.alarms| + 1, alarmType, args, receiverId)
  }

  /**
    `send(type, args, receiverId)`: fail with USER_NOT_FOUND for an unknown
    receiver; otherwise store the alarm, then, if the receiver has a handle,
    push the new-alarm notice to it. An `IOException` from the push
    unregisters the receiver and does not fail the call; an unchecked
    exception leaves `send` after the store, with the registry untouched.
   */
  function SendStep(s: Dispatch, alarmType: AlarmType, args: AlarmArgs, receiverId: int, push: PushOutcome)
    : (Dispatch, Outcome<Thrown>)
  {
    if receiverId !in s.users then (s, Fail(AppError(OfCode(UserNotFound))))
    else
      var record := NextRecord(s, alarmType, args, receiverId);
      var stored := s.(alarms := s.alarms + [record], effects := s.effects + [Stored(record)]);
      match Lookup(s.registry, receiverId)
      case None => (stored, Pass)
      case Some(h) =>
        var pushed := stored.(effects := stored.effects + [Pushed(h, NewAlarmNotice(record.id))]);
        match push
        case Delivered => (pushed, Pass)
        case IoFailure => (pushed.(registry := Remove(pushed.registry, receiverId)), Pass)
        case Unchecked => (pushed, Fail(PushUnchecked))
  }

  /**
    `connectNotification(userId)`: create a handle with the default timeout,
    register it for the user, give it completion and timeout callbacks that
    delete the user's entry, and push the handshake. An `IOException` from the
    handshake becomes NOTIFICATION_CONNECT_ERROR; an unchecked exception leaves
    as itself; either way the registration stays in place.
   */
  function ConnectStep(s: Dispatch, userId: int, handshake: PushOutcome): (Dispatch, Result<Handle, Thrown>) {
    var h := Handle(s.nextHandle);
    var callback := Some(DeleteEntry(userId));
    var t := s.(
      nextHandle := s.nextHandle + 1,
      emitters := s.emitters[h := Emitter(DefaultTimeout, callback, callback)],
      registry := Put(s.registry, userId, h),
      effects := s.effects + [Pushed(h, ConnectNotice)]);
    match handshake
    case Delivered => (t, Success(h))
    case IoFailure => (t, Failure(AppError(OfCode(NotificationConnectError))))
    case Unchecked => (t, Failure(PushUnchecked))
  }

  function RunCallback(s: Dispatch, callback: Option<Callback>): Dispatch {
    match callback
    case None => s
    case Some(DeleteEntry(u)) => s.(registry := Remove(s.registry, u))
  }

  /** The handle's connection completed: run its completion callback. */
  function CompleteStep(s: Dispatch, h: Handle): Dispatch
    requires h in s.emitters
  {
    RunCallback(s, s.emitters[h].onCompletion)
  }

  /** The handle's connection timed out: run its timeout callback. */
  function TimeoutStep(s: Dispatch, h: Handle): Dispatch
    requires h in s.emitters
  {
    RunCallback(s, s.emitters[h].onTimeout)
  }

  // ---------------------------------------------------------------------
  // Properties of the dispatch steps
  // ---------------------------------------------------------------------

  /** An unknown receiver: USER_NOT_FOUND, and nothing is stored, pushed or unregistered. */
  lemma SendUnknownReceiver(s: Dispatch, alarmType: AlarmType, args: AlarmArgs, receiverId: int, push: PushOutcome)
    requires receiverId !in s.users
    ensures SendStep(s, alarmType, args, receiverId, push) == (s, Fail(AppError(OfCode(UserNotFound))))
  {
  }

  /**
    A known receiver: exactly one alarm, with a fresh id and the given fields,
    is appended; the call succeeds unless the push to a registered handle
    throws an unchecked exception, which then leaves `send` after the store.
   */
  lemma SendStoresOneAlarm(s: Dispatch, alarmType: AlarmType, args: AlarmArgs, receiverId: int, push: PushOutcome)
    requires Valid(s) && receiverId in s.users
    ensures var (t, r) := SendStep(s, alarmType, args, receiverId, push);
      var record := t.alarms[|t.alarms| - 1];
      && r == (if push == Unchecked && Lookup(s.registry, receiverId).Some? then Fail(PushUnchecked) else Pass)
      && |t.alarms| == |s.alarms| + 1
      && t.alarms[..|s.alarms|] == s.alarms
      && record.alarmType == alarmType && record.args == args && record.userId == receiverId
      && (forall a :: a in s.alarms ==> a.id != record.id)
      && t.users == s.users
  {
    var (t, r) := SendStep(s, alarmType, args, receiverId, push);
    assert t.alarms == s.alarms + [NextRecord(s, alarmType, args, receiverId)];
    assert t.alarms[..|s.alarms|] == s.alarms;
  }

  /**
    A registered receiver: after the store, exactly one push of the new alarm's
    notice goes to the registered handle. An `IOException` removes only the
    receiver's entry and the call still succeeds; an unchecked exception fails
    the call and leaves the registry as it was.
   */
  lemma SendPushesToRegistered(s: Dispatch, alarmType: AlarmType, args: AlarmArgs, receiverId: int, push: PushOutcome, h: Handle)
    requires receiverId in s.users && Lookup(s.registry, receiverId) == Some(h)
    ensures var (t, r) := SendStep(s, alarmType, args, receiverId, push);
      var record := NextRecord(s, alarmType, args, receiverId);
      && r == (if push == Unchecked then Fail(PushUnchecked) else Pass)
      && t.effects == s.effects + [Stored(record), Pushed(h, SseEvent(IntToString(record.id), "alarm", AlarmNoti))]
      && t.registry == (if push == IoFailure then Remove(s.registry, receiverId) else s.registry)
      && (push == IoFailure ==> Lookup(t.registry, receiverId) == None)
  {
  }

  /** No registered handle: the alarm is stored, nothing is pushed, the registry is unchanged and the call succeeds. */
  lemma SendWithoutHandle(s: Dispatch, alarmType: AlarmType, args: AlarmArgs, receiverId: int, push: PushOutcome)
    requires receiverId in s.users && Lookup(s.registry, receiverId) == None
    ensures var (t, r) := SendStep(s, alarmType, args, receiverId, push);
      && r == Pass
      && t.registry == s.registry
      && t.effects == s.effects + [Stored(NextRecord(s, alarmType, args, receiverId))]
  {
  }

  /**
    After `connectNotification(u)` the registry maps `u` to a newly created
    handle with a 3,600,000 ms timeout and both callbacks deleting `u`; the
    handshake went to it. An `IOException` from the handshake gives
    NOTIFICATION_CONNECT_ERROR and an unchecked one leaves as itself; the
    registration stays either way.
   */
  lemma ConnectRegisters(s: Dispatch, u: int, handshake: PushOutcome)
    requires Valid(s)
    ensures var (t, r) := ConnectStep(s, u, handshake);
      var h := Handle(s.nextHandle);
      && h !in s.emitters
      && t.registry == Put(s.registry, u, h)
      && Lookup(t.registry, u) == Some(h)
      && t.emitters[h] == Emitter(3600000, Some(DeleteEntry(u)), Some(DeleteEntry(u)))
      && t.effects == s.effects + [Pushed(h, SseEvent("id", "alarm", Text("connect completed")))]
      && (handshake == Delivered ==> r == Success(h))
      && (handshake == IoFailure ==> r == Failure(AppError(OfCode(NotificationConnectError))))
      && (handshake == Unchecked ==> r == Failure(PushUnchecked))
      && t.alarms == s.alarms && t.users == s.users
  {
  }

  /** `t` still knows every handle `s` knew, with the same timeout and callbacks. */
  predicate KeepsEmitters(s: Dispatch, t: Dispatch) {
    forall h :: h in s.emitters ==> h in t.emitters && t.emitters[h] == s.emitters[h]
  }

  // No entry point forgets or alters a handle once created; a connect only
  // adds the fresh handle `Handle(s.nextHandle)`.

  lemma SendKeepsEmitters(s: Dispatch, alarmType: AlarmType, args: AlarmArgs, receiverId: int, push: PushOutcome)
    ensures KeepsEmitters(s, SendStep(s, alarmType, args, receiverId, push).0)
  {
  }

  lemma ConnectKeepsEmitters(s: Dispatch, u: int, handshake: PushOutcome)
    requires Valid(s)
    ensures KeepsEmitters(s, ConnectStep(s, u, handshake).0)
    ensures ConnectStep(s, u, handshake).0.emitters.Keys == s.emitters.Keys + {Handle(s.nextHandle)}
  {
  }

  lemma CallbacksKeepEmitters(s: Dispatch, h: Handle)
    requires h in s.emitters
    ensures KeepsEmitters(s, CompleteStep(s, h)) && KeepsEmitters(s, TimeoutStep(s, h))
  {
  }

  lemma KeepsEmittersTransitive(s1: Dispatch, s2: Dispatch, s3: Dispatch)
    requires KeepsEmitters(s1, s2) && KeepsEmitters(s2, s3)
    ensures KeepsEmitters(s1, s3)
  {
  }

  /**
    A handle created for `u` deletes `u`'s entry when it completes or times
    out, in any later state that still knows it as created (by the lemmas
    above, any state reached by further steps), whatever handle is registered
    then.
   */
  lemma CallbacksDeleteOwner(s: Dispatch, u: int, handshake: PushOutcome, later: Dispatch)
    requires var (t, _) := ConnectStep(s, u, handshake);
      Handle(s.nextHandle) in later.emitters && later.emitters[Handle(s.nextHandle)] == t.emitters[Handle(s.nextHandle)]
    ensures var h := Handle(s.nextHandle);
      && CompleteStep(later, h).registry == Remove(later.registry, u)
      && TimeoutStep(later, h).registry == Remove(later.registry, u)
  {
  }

  /** The callbacks still apply after another user connects in between. */
  lemma CallbacksOutliveOtherConnects(s: Dispatch, u: int, handshake1: PushOutcome, v: int, handshake2: PushOutcome)
    requires Valid(s)
    ensures var (s1, _) := ConnectStep(s, u, handshake1);
      var (s2, _) := ConnectStep(s1, v, handshake2);
      var h := Handle(s.nextHandle);
      && h in s2.emitters
      && CompleteStep(s2, h).registry == Remove(s2.registry, u)
      && TimeoutStep(s2, h).registry == Remove(s2.registry, u)
  {
    var (s1, _) := ConnectStep(s, u, handshake1);
    ConnectPreservesValid(s, u, handshake1);
    ConnectKeepsEmitters(s1, v, handshake2);
    var (s2, _) := ConnectStep(s1, v, handshake2);
    CallbacksDeleteOwner(s, u, handshake1, s2);
  }

  /**
    Reconnecting replaces the registration, but the superseded handle's
    callbacks still delete by user id: when the first connection completes,
    the user's newer registration is gone too.
   */
  lemma SupersededCompletionEvictsReplacement(s: Dispatch, u: int, handshake1: PushOutcome, handshake2: PushOutcome)
    requires Valid(s)
    ensures var (s1, _) := ConnectStep(s, u, handshake1);
      var (s2, _) := ConnectStep(s1, u, handshake2);
      var h1, h2 := Handle(s.nextHandle), Handle(s1.nextHandle);
      && h1 != h2 && h1 in s2.emitters
      && Lookup(s2.registry, u) == Some(h2)
      && Lookup(CompleteStep(s2, h1).registry, u) == None
  {
  }

  // Each entry point keeps the state well formed.

  lemma SendPreservesValid(s: Dispatch, alarmType: AlarmType, args: AlarmArgs, receiverId: int, push: PushOutcome)
    requires Valid(s)
    ensures Valid(SendStep(s, alarmType, args, receiverId, push).0)
  {
  }

  lemma ConnectPreservesValid(s: Dispatch, u: int, handshake: PushOutcome)
    requires Valid(s)
    ensures Valid(ConnectStep(s, u, handshake).0)
  {
  }

  lemma CallbacksPreserveValid(s: Dispatch, h: Handle)
    requires Valid(s) && h in s.emitters
    ensures Valid(CompleteStep(s, h)) && Valid(TimeoutStep(s, h))
  {
  }

  // ---------------------------------------------------------------------
  // The service object
  // ---------------------------------------------------------------------

  class AlarmService {
    var users: set<int>
    var alarms: seq<AlarmRecord>
    const emitterRepository: EmitterRepository
    var emitters: map<Handle, Emitter>
    var nextHandle: nat
    var effects: seq<Effect>

    function State(): Dispatch
      reads this, emitterRepository
    {
      Dispatch(users, alarms, emitterRepository.emitterMap, emitters, nextHandle, effects)
    }

    constructor (users: set<int>)
      ensures State() == WithUsers(users) && fresh(emitterRepository)
    {
      this.users := users;
      alarms := [];
      emitterRepository := new EmitterRepository();
      emitters := map[];
      nextHandle := 0;
      effects := [];
    }

    method Send(alarmType: AlarmType, args: AlarmArgs, receiverId: int, push: PushOutcome)
      returns (r: Outcome<Thrown>)
      modifies this, emitterRepository
      ensures (State(), r) == SendStep(old(State()), alarmType, args, receiverId, push)
    {
      if receiverId !in users {
        return Fail(AppError(OfCode(UserNotFound)));
      }
      var record := AlarmRecord(|alarms| + 1, alarmType, args, receiverId);
      alarms := alarms + [record];
      effects := effects + [Stored(record)];
      var emitter := emitterRepository.Get(receiverId);
      if emitter.Some? {
        effects := effects + [Pushed(emitter.value, NewAlarmNotice(record.id))];
        match push {
          case Delivered =>
          case IoFailure => emitterRepository.Delete(receiverId);
          case Unchecked => return Fail(PushUnchecked);
        }
      }
      r := Pass;
    }

    method ConnectNotification(userId: int, handshake: PushOutcome)
      returns (r: Result<Handle, Thrown>)
      modifies this, emitterRepository
      ensures (State(), r) == ConnectStep(old(State()), userId, handshake)
    {
      var emitter := Handle(nextHandle);
      nextHandle := nextHandle + 1;
      emitters := emitters[emitter := Emitter(DefaultTimeout, None, None)];
      var saved := emitterRepository.Save(userId, emitter);
      emitters := emitters[emitter := emitters[emitter].(onCompletion := Some(DeleteEntry(userId)))];
      emitters := emitters[emitter := emitters[emitter].(onTimeout := Some(DeleteEntry(userId)))];
      effects := effects + [Pushed(emitter, ConnectNotice)];
      assert emitters == old(emitters)[emitter := Emitter(DefaultTimeout, Some(DeleteEntry(userId)), Some(DeleteEntry(userId)))];
      match handshake {
        case Delivered => r := Success(emitter);
        case IoFailure => r := Failure(AppError(OfCode(NotificationConnectError)));
        case Unchecked => r := Failure(PushUnchecked);
      }
    }

    /** The transport reports that handle `h`'s connection completed. */
    method Complete(h: Handle)
      requires h in emitters
      modifies emitterRepository
      ensures State() == CompleteStep(old(State()), h)
    {
      var callback := emitters[h].onCompletion;
      if callback.Some? {
        emitterRepository.Delete(callback.value.userId);
      }
    }

    /** The transport reports that handle `h`'s connection timed out. */
    method Timeout(h: Handle)
      requires h in emitters
      modifies emitterRepository
      ensures State() == TimeoutStep(old(State()), h)
    {
      var callback := emitters[h].onTimeout;
      if callback.Some? {
        emitterRepository.Delete(callback.value.userId);
      }
    }
  }
}
