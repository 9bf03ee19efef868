/**
  The connection registry (EmitterRepository): a map from the key
  `"emitter:UID:" + userId` to the live-push handle registered for that user.
 */
module Emitters {
  import opened Wrappers
  import opened JavaStrings

  /** An opaque live-push handle (an `SseEmitter` object). */
  datatype Handle = Handle(id: nat)

  const KeyPrefix: string := "emitter:UID:"

  /** `getKey`. */
  function Key(userId: int): string {
    KeyPrefix + IntToString(userId)
  }

  /** Different users never share a key. */
  lemma KeyInjective(u: int, v: int)
    ensures Key(u) == Key(v) ==> u == v
  {
    if Key(u) == Key(v) {
      assert Key(u)[|KeyPrefix|..] == IntToString(u);
      assert Key(v)[|KeyPrefix|..] == IntToString(v);
      IntToStringInjective(u, v);
    }
  }

  // ---------------------------------------------------------------------
  // The registry's map, as a value, and what the three operations do to it
  // ---------------------------------------------------------------------

  type EmitterMap = map<string, Handle>

  /** What `get(userId)` returns. */
  function Lookup(m: EmitterMap, userId: int): Option<Handle> {
    if Key(userId) in m then Some(m[Key(userId)]) else None
  }

  /** The map after `save(userId, h)`. */
  function Put(m: EmitterMap, userId: int, h: Handle): EmitterMap {
    m[Key(userId) := h]
  }

  /** The map after `delete(userId)`. */
  function Remove(m: EmitterMap, userId: int): EmitterMap {
    m - {Key(userId)}
  }

  lemma LookupAfterPut(m: EmitterMap, u: int, h: Handle)
    ensures Lookup(Put(m, u, h), u) == Some(h)
  {
  }

  lemma PutReplaces(m: EmitterMap, u: int, h1: Handle, h2: Handle)
    ensures Put(Put(m, u, h1), u, h2) == Put(m, u, h2)
  {
  }

  lemma LookupAfterRemove(m: EmitterMap, u: int)
    ensures Lookup(Remove(m, u), u) == None
  {
  }

  /** Deleting an absent user changes nothing; deleting twice is deleting once. */
  lemma RemoveIdempotent(m: EmitterMap, u: int)
    ensures Lookup(m, u) == None ==> Remove(m, u) == m
    ensures Remove(Remove(m, u), u) == Remove(m, u)
  {
  }

  /** An operation on user `u` leaves every other user's entry as it was. */
  lemma OtherUsersUntouched(m: EmitterMap, u: int, v: int, h: Handle)
    requires u != v
    ensures Lookup(Put(m, u, h), v) == Lookup(m, v)
    ensures Lookup(Remove(m, u), v) == Lookup(m, v)
  {
    KeyInjective(u, v);
  }

  // ---------------------------------------------------------------------
  // Any sequence of saves and deletes: get answers with the latest write
  // ---------------------------------------------------------------------

  datatype RegistryOp = SaveOp(userId: int, handle: Handle) | DeleteOp(userId: int)

  function ApplyOp(m: EmitterMap, op: RegistryOp): EmitterMap {
    match op
    case SaveOp(u, h) => Put(m, u, h)
    case DeleteOp(u) => Remove(m, u)
  }

  function ApplyAll(m: EmitterMap, ops: seq<RegistryOp>): EmitterMap
    decreases |ops|
  {
    if |ops| == 0 then m else ApplyAll(ApplyOp(m, ops[0]), ops[1..])
  }

  /** The answer of the last operation on `u` in `ops`, or `initial` when there is none. */
  function LatestWrite(ops: seq<RegistryOp>, u: int, initial: Option<Handle>): Option<Handle>
    decreases |ops|
  {
    if |ops| == 0 then initial
    else
      var last := ops[|ops| - 1];
      if last.userId != u then LatestWrite(ops[..|ops| - 1], u, initial)
      else if last.SaveOp? then Some(last.handle)
      else None
  }

  lemma {:induction false} ApplyAllSnoc(m: EmitterMap, ops: seq<RegistryOp>, op: RegistryOp)
    ensures ApplyAll(m, ops + [op]) == ApplyOp(ApplyAll(m, ops), op)
    decreases |ops|
  {
    if |ops| > 0 {
      assert (ops + [op])[1..] == ops[1..] + [op];
      ApplyAllSnoc(ApplyOp(m, ops[0]), ops[1..], op);
    }
  }

  /**
    Registry exclusivity: after any sequence of saves and deletes, `get(u)` is
    empty or exactly the handle of the most recent save for `u`.
   */
  lemma {:induction false} GetReturnsLatestWrite(m: EmitterMap, ops: seq<RegistryOp>, u: int)
    ensures Lookup(ApplyAll(m, ops), u) == LatestWrite(ops, u, Lookup(m, u))
    decreases |ops|
  {
    if |ops| > 0 {
      var front, last := ops[..|ops| - 1], ops[|ops| - 1];
      assert ops == front + [last];
      ApplyAllSnoc(m, front, last);
      GetReturnsLatestWrite(m, front, u);
      if last.userId != u {
        OtherUsersUntouched(ApplyAll(m, front), last.userId, u,
                            if last.SaveOp? then last.handle else Handle(0));
      }
    }
  }

  // ---------------------------------------------------------------------
  // The repository object
  // ---------------------------------------------------------------------

  class EmitterRepository {
    var emitterMap: EmitterMap

    constructor ()
      ensures emitterMap == map[]
    {
      emitterMap := map[];
    }

    /** Registers `emitter` for `userId`, replacing any earlier one, and hands it back. */
    method Save(userId: int, emitter: Handle) returns (r: Handle)
      modifies this
      ensures emitterMap == Put(old(emitterMap), userId, emitter)
      ensures r == emitter
    {
      var key := Key(userId);
      emitterMap := emitterMap[key := emitter];
      r := emitter;
    }

    /** Unregisters `userId`; a no-op when nothing is registered. */
    method Delete(userId: int)
      modifies this
      ensures emitterMap == Remove(old(emitterMap), userId)
    {
      emitterMap := emitterMap - {Key(userId)};
    }

    /** The handle registered for `userId`, if any. */
    method Get(userId: int) returns (r: Option<Handle>)
      ensures r.Some? <==> Key(userId) in emitterMap
      ensures r.Some? ==> r.value == emitterMap[Key(userId)]
    {
      var key := Key(userId);
      if key in emitterMap {
        r := Some(emitterMap[key]);
      } else {
        r := None;
      }
    }
  }
}
