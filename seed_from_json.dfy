/**
 * The user import transform of the JSON seeder
 * (backend/seed_from_json.js): each exported user object loses its `_id`
 * key, gains `id` holding the old `_id`, and is marked approved. Objects are
 * maps from key to JavaScript value; the order of keys inside an object is
 * not modelled. File reading and the database writes are not modelled.
 */
module SeedFromJson {
  import opened Json

  /** `transformUser`: `{ ...rest, id: _id, isApproved: true }` where `rest` is the object without `_id`. */
  function TransformUser(u: JsObject): (r: JsObject)
    ensures "_id" !in r
    ensures "id" in r && r["id"] == Get(u, "_id")
    ensures "isApproved" in r && r["isApproved"] == Bool(true)
    ensures r.Keys == u.Keys - {"_id"} + {"id", "isApproved"}
    ensures forall k :: k in u && k != "_id" && k != "id" && k != "isApproved" ==> r[k] == u[k]
  {
    (u - {"_id"})["id" := Get(u, "_id")]["isApproved" := Bool(true)]
  }

  /** `users.map(transformUser)`. */
  function TransformAll(users: seq<JsObject>): (r: seq<JsObject>)
    ensures |r| == |users|
    ensures forall i :: 0 <= i < |users| ==> r[i] == TransformUser(users[i])
  {
    if users == [] then [] else [TransformUser(users[0])] + TransformAll(users[1..])
  }

  /** Renaming back: `id` to `_id`, dropping the approval flag. */
  function Restore(r: JsObject): JsObject {
    (r - {"id", "isApproved"})["_id" := Get(r, "id")]
  }

  /** For a user that has an `_id` and neither `id` nor `isApproved` of its own, the transform loses nothing. */
  lemma RestoreTransform(u: JsObject)
    requires "_id" in u && "id" !in u && "isApproved" !in u
    ensures Restore(TransformUser(u)) == u
  {
    var r := Restore(TransformUser(u));
    assert r.Keys == u.Keys;
    forall k | k in u
      ensures r[k] == u[k]
    {
    }
  }

  /** A stored `isApproved: false` is overwritten: every imported user is approved. */
  lemma {:induction false} AllImportedApproved(users: seq<JsObject>)
    ensures forall i :: 0 <= i < |users| ==> TransformAll(users)[i]["isApproved"] == Bool(true)
  {
  }

  /** An `id` the export already carried is replaced by `_id` (undefined when `_id` is missing). */
  lemma OldIdOverwritten(u: JsObject)
    requires "id" in u && "_id" !in u
    ensures TransformUser(u)["id"] == Undefined
  {
  }

  /** The imported ids are exactly the exported `_id` values, in the same order. */
  lemma {:induction false} IdsPreserved(users: seq<JsObject>)
    ensures forall i :: 0 <= i < |users| ==> TransformAll(users)[i]["id"] == Get(users[i], "_id")
  {
  }

  /** The transform is not idempotent: applied twice, it erases the ids it had set. */
  lemma TransformTwiceErasesIds(u: JsObject)
    ensures TransformUser(TransformUser(u))["id"] == Undefined
  {
  }
}
