/**
 * Values shared by every part of the ride model: optional values, the
 * closed set of outcomes an operation reports, and JavaScript truthiness
 * of an optional string (the `!userId`, `!pickup` tests of the handlers).
 */
module Outcomes {

  /** An optional value: a missing request field, an unset schema path. */
  datatype Option<+T> = None | Some(value: T)

  /**
   * What an operation reports: 401, 400, 404, 403, or success (200/201)
   * carrying the document (or documents) sent back as `data`.
   */
  datatype Outcome<+T> = Unauthorized | BadRequest | NotFound | Forbidden | Ok(value: T)

  /** A document's id is its position in the collection (insertion order). */
  type RideId = nat

  /** A user identifier as the request carries it (an ObjectId's hex string). */
  type UserId = string

  /**
   * JavaScript truthiness of a string-valued request field: `undefined`
   * and `""` are falsy, every other string is truthy.
   */
  predicate Truthy(s: Option<string>) {
    s.Some? && s.value != ""
  }

  /**
   * `findById` on a collection whose ids are positions: the stored
   * document, or None for a missing or unknown id.
   */
  function Lookup<T>(docs: seq<T>, id: Option<RideId>): (r: Option<T>)
    ensures r.Some? <==> id.Some? && id.value < |docs|
    ensures r.Some? ==> r.value == docs[id.value]
  {
    if id.Some? && id.value < |docs| then Some(docs[id.value]) else None
  }

  /**
   * What `save` leaves in the collection after an operation on the
   * document `id`: the updated document on success, nothing changed
   * otherwise.
   */
  function Commit<T>(docs: seq<T>, id: Option<RideId>, out: Outcome<T>): (r: seq<T>)
    ensures |r| == |docs|
    ensures forall i | 0 <= i < |docs| && (id != Some(i) || !out.Ok?) :: r[i] == docs[i]
    ensures out.Ok? && Lookup(docs, id).Some? ==> r[id.value] == out.value
  {
    if out.Ok? && Lookup(docs, id).Some? then docs[id.value := out.value] else docs
  }
}
