/**
  The channel consumer (AlarmConsumer): hand each event to `send`, then
  acknowledge it. An error thrown by `send` skips the acknowledgement.
 */
module AlarmConsumers {
  import opened Wrappers
  import opened Errors
  import opened Emitters
  import opened Alarms

  /** The message carried by the channel. */
  datatype AlarmEvent = AlarmEvent(alarmType: AlarmType, args: AlarmArgs, receiverUserId: int)

  /**
    `consumeNotification(event, ack)`: the dispatch state after `send` with the
    event's own fields, the acknowledgement log, and how the call ended.
   */
  function ConsumeStep(s: Dispatch, acks: seq<AlarmEvent>, event: AlarmEvent, push: PushOutcome)
    : (Dispatch, seq<AlarmEvent>, Outcome<Thrown>)
  {
    var (t, r) := SendStep(s, event.alarmType, event.args, event.receiverUserId, push);
    match r
    case Fail(e) => (t, acks, r)
    case Pass => (t, acks + [event], Pass)
  }

  /** Consuming does to the dispatch state exactly what `send` with the event's type, args and receiver does. */
  lemma ConsumeDelegatesToSend(s: Dispatch, acks: seq<AlarmEvent>, event: AlarmEvent, push: PushOutcome)
    ensures var (t, _, r) := ConsumeStep(s, acks, event, push);
      (t, r) == SendStep(s, event.alarmType, event.args, event.receiverUserId, push)
  {
  }

  /** One acknowledgement, of this event, exactly when `send` returned normally; none otherwise. */
  lemma AckExactlyOnSuccess(s: Dispatch, acks: seq<AlarmEvent>, event: AlarmEvent, push: PushOutcome)
    ensures var (_, acks', r) := ConsumeStep(s, acks, event, push);
      && (r == Pass ==> acks' == acks + [event])
      && (r != Pass ==> acks' == acks)
  {
  }

  /** An event for a receiver that is not in the user store fails with USER_NOT_FOUND and is not acknowledged. */
  lemma UnknownReceiverNotAcknowledged(s: Dispatch, acks: seq<AlarmEvent>, event: AlarmEvent, push: PushOutcome)
    requires event.receiverUserId !in s.users
    ensures ConsumeStep(s, acks, event, push) == (s, acks, Fail(AppError(OfCode(UserNotFound))))
  {
  }

  /**
    An event for a known receiver is stored with its own fields, and it is
    acknowledged once unless the push to a registered handle throws an
    unchecked exception, which skips the acknowledgement.
   */
  lemma KnownReceiverAcknowledged(s: Dispatch, acks: seq<AlarmEvent>, event: AlarmEvent, push: PushOutcome)
    requires Valid(s) && event.receiverUserId in s.users
    ensures var (t, acks', r) := ConsumeStep(s, acks, event, push);
      var escapes := push == Unchecked && Lookup(s.registry, event.receiverUserId).Some?;
      && (escapes ==> r == Fail(PushUnchecked) && acks' == acks)
      && (!escapes ==> r == Pass && acks' == acks + [event])
      && |t.alarms| == |s.alarms| + 1
      && t.alarms[|s.alarms|].userId == event.receiverUserId
      && t.alarms[|s.alarms|].alarmType == event.alarmType
      && t.alarms[|s.alarms|].args == event.args
  {
    SendStoresOneAlarm(s, event.alarmType, event.args, event.receiverUserId, push);
  }

  /**
    A push to a registered receiver that throws an unchecked exception: the
    alarm is stored and the push attempted, but the event is not
    acknowledged and the registration stays.
   */
  lemma UncheckedPushNotAcknowledged(s: Dispatch, acks: seq<AlarmEvent>, event: AlarmEvent)
    requires event.receiverUserId in s.users && Lookup(s.registry, event.receiverUserId).Some?
    ensures var (t, acks', r) := ConsumeStep(s, acks, event, Unchecked);
      && r == Fail(PushUnchecked) && acks' == acks
      && t.alarms == s.alarms + [NextRecord(s, event.alarmType, event.args, event.receiverUserId)]
      && t.registry == s.registry
  {
    SendPushesToRegistered(s, event.alarmType, event.args, event.receiverUserId, Unchecked,
                           Lookup(s.registry, event.receiverUserId).value);
  }

  class AlarmConsumer {
    const alarmService: AlarmService
    var acks: seq<AlarmEvent>

    constructor (service: AlarmService)
      ensures alarmService == service && acks == []
    {
      alarmService := service;
      acks := [];
    }

    method ConsumeNotification(event: AlarmEvent, push: PushOutcome) returns (r: Outcome<Thrown>)
      modifies this, alarmService, alarmService.emitterRepository
      ensures (alarmService.State(), acks, r) == ConsumeStep(old(alarmService.State()), old(acks), event, push)
    {
      r := alarmService.Send(event.alarmType, event.args, event.receiverUserId, push);
      if r.Fail? {
        return;
      }
      acks := acks + [event];
    }
  }
}
