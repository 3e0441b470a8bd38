/** The Amenity views: `/amenities` and `/amenities/<amenity_id>`. */
module Amenities {
  import opened Wrappers
  import opened Models
  import opened Http
  import opened Storage
  import opened Relations
  import opened Views
  import Rules

  /** GET /amenities: always 200, one entry per stored amenity. */
  method GetAllAmenities(store: ObjectStore) returns (resp: Response, ghost order: seq<string>)
    requires store.Valid()
    ensures resp.status == 200 && resp.payload.Array?
    ensures Enumerates(resp.payload.items, order, store.objects[Amenity], store.objects[Amenity].Keys)
  {
    var amenities;
    amenities, order := Collect(store, Amenity, None);
    resp := Response(200, Array(amenities));
  }

  /** GET /amenities/<amenity_id>. */
  method GetAmenity(store: ObjectStore, amenityId: string) returns (resp: Response)
    requires store.Valid()
    ensures resp == Rules.Get(store.objects, Amenity, amenityId)
  {
    var a := store.Get(Amenity, amenityId);
    if a.None? {
      return NotFound;
    }
    resp := Response(200, Object(a.value));
  }

  /** DELETE /amenities/<amenity_id>. */
  method DeleteAmenity(store: ObjectStore, amenityId: string) returns (resp: Response)
    requires store.Valid()
    modifies store
    ensures store.Valid()
    ensures Rules.Outcome(resp, store.objects) == Rules.Delete(old(store.objects), Amenity, amenityId)
    ensures store.issued == old(store.issued)
  {
    var a := store.Get(Amenity, amenityId);
    if a.None? {
      return NotFound;
    }
    store.Remove(Amenity, amenityId);
    resp := Deleted;
  }

  /** POST /amenities. `newId` is the id the new amenity receives. */
  method PostAmenity(store: ObjectStore, body: Body) returns (resp: Response, ghost newId: string)
    requires store.Valid()
    modifies store
    ensures store.Valid()
    ensures Rules.Outcome(resp, store.objects) == Rules.Create(old(store.objects), Amenity, "", body, newId)
    ensures resp.status == 201 ==> newId !in old(store.objects)[Amenity]
    ensures resp.status == 201 ==> |newId| > 0
    ensures resp.status == 201 ==> (Amenity, newId) !in old(store.issued) && store.issued == old(store.issued) + {(Amenity, newId)}
    ensures resp.status != 201 ==> store.issued == old(store.issued)
  {
    newId := "";
    if Rules.NotJson(body) {
      resp := BadRequest("Not a JSON");
    } else if "name" !in body.value {
      resp := BadRequest("Missing name");
    } else {
      var id := store.FreshId(Amenity);
      newId := id;
      var a := body.value["id" := Str(id)];
      store.New(Amenity, id, a);
      resp := Response(201, Object(a));
    }
    Rules.CreateNamedOrder(old(store.objects), Amenity, body, newId);
  }

  /** PUT /amenities/<amenity_id>: every body key except `id`, `created_at`
      and `updated_at` is set on the stored amenity. */
  method PutAmenity(store: ObjectStore, amenityId: string, body: Body) returns (resp: Response)
    requires store.Valid()
    modifies store
    ensures store.Valid()
    ensures Rules.Outcome(resp, store.objects) == Rules.Update(old(store.objects), Amenity, amenityId, body)
    ensures store.issued == old(store.issued)
  {
    if Rules.NotJson(body) {
      return BadRequest("Not a JSON");
    }
    var a := store.Get(Amenity, amenityId);
    if a.None? {
      return NotFound;
    }
    ghost var db := store.objects;
    CopyAttrs(store, Amenity, amenityId, body.value, {"id", "created_at", "updated_at"});
    resp := Response(200, Object(store.objects[Amenity][amenityId]));
    Rules.UpdateCopyOutcome(db, Amenity, amenityId, body, {"id", "created_at", "updated_at"});
    Rules.UpdateKeepsWellFormed(db, Amenity, amenityId, body);
    RecordedAfterPut(db, store.issued, Amenity, amenityId, store.objects[Amenity][amenityId]);
  }
}
