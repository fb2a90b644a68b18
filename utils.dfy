/**
 * `wrap_event` (src/dashgram/utils.py): decides whether a plain mapping is
 * already an update envelope and, when it is not and a handler kind is
 * given, puts it inside one under the kind's key with the synthetic update
 * id -1. It never fails.
 */
module Utils {

  import opened Wrappers
  import opened Json

  /**
   * `str(handler_type)`: the envelope key a bare payload of this kind goes
   * under ("message", "callback_query", ...). A kind spelled "update_id"
   * would collide with the envelope's own key, so it is excluded.
   */
  type HandlerKind = s: string | s != "update_id" witness "message"

  const UpdateIdKey: string := "update_id"
  const SyntheticUpdateId: int := -1

  /** `event.get("update_id") is not None`: a key that maps to `None` counts as absent. */
  predicate HasUpdateId(event: Dict): (b: bool)
    ensures b <==> UpdateIdKey in event && event[UpdateIdKey] != Null
  {
    Get(event, UpdateIdKey) != Null
  }

  function WrapEvent(event: Dict, hint: Option<HandlerKind>): (r: Dict)
    // unchanged when already an envelope, or when no hint says how to wrap it
    ensures HasUpdateId(event) || hint.None? ==> r == event
    // otherwise exactly two keys: the synthetic id and the kind holding the payload
    ensures !HasUpdateId(event) && hint.Some? ==>
              && r.Keys == {UpdateIdKey, hint.value}
              && r[UpdateIdKey] == Int(SyntheticUpdateId)
              && r[hint.value] == Object(event)
  {
    if HasUpdateId(event) || hint.None? then event
    else map[UpdateIdKey := Int(SyntheticUpdateId), hint.value := Object(event)]
  }

  /** The payload an envelope carries under `kind`, when the envelope is a synthetic one. */
  function Unwrap(envelope: Dict, kind: HandlerKind): Option<Dict> {
    if envelope.Keys == {UpdateIdKey, kind} && envelope[UpdateIdKey] == Int(SyntheticUpdateId)
       && envelope[kind].Object?
    then Some(envelope[kind].fields)
    else None
  }

  /** Wrapping loses nothing: the payload is stored whole and can be taken back out. */
  lemma UnwrapWrap(event: Dict, kind: HandlerKind)
    requires !HasUpdateId(event)
    ensures Unwrap(WrapEvent(event, Some(kind)), kind) == Some(event)
  {
  }

  /** With a hint, the result is always an envelope. */
  lemma WrapWithHintHasUpdateId(event: Dict, kind: HandlerKind)
    ensures HasUpdateId(WrapEvent(event, Some(kind)))
  {
  }

  /** Wrapping twice with the same hint is wrapping once. */
  lemma WrapIdempotent(event: Dict, hint: Option<HandlerKind>)
    ensures WrapEvent(WrapEvent(event, hint), hint) == WrapEvent(event, hint)
  {
    if hint.Some? {
      WrapWithHintHasUpdateId(event, hint.value);
    }
  }

  /**
   * The payload is nested, never merged: no key of a wrapped event other than
   * the kind and `update_id` reaches the top level of the envelope.
   */
  lemma WrapDoesNotMerge(event: Dict, kind: HandlerKind, key: string)
    requires !HasUpdateId(event)
    requires key in event && key != UpdateIdKey && key != kind
    ensures key !in WrapEvent(event, Some(kind))
  {
  }

  /** An `update_id` mapped to `None` is treated as missing: the event is wrapped. */
  lemma NullUpdateIdIsWrapped(event: Dict, kind: HandlerKind)
    requires UpdateIdKey in event && event[UpdateIdKey] == Null
    ensures WrapEvent(event, Some(kind)) != event
    ensures WrapEvent(event, Some(kind))[UpdateIdKey] == Int(SyntheticUpdateId)
  {
  }
}
