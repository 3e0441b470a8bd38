/** The Place views: `/cities/<city_id>/places` and `/places/<place_id>`. */
module Places {
  import opened Wrappers
  import opened Models
  import opened Http
  import opened Storage
  import opened Relations
  import opened Views
  import Rules

  /** GET /cities/<city_id>/places: 404 for an unknown city, otherwise one
      entry per place whose `city_id` is the city's id. */
  method GetPlaces(store: ObjectStore, cityId: string) returns (resp: Response, ghost order: seq<string>)
    requires store.Valid()
    ensures cityId !in store.objects[City] ==> resp == NotFound
    ensures cityId in store.objects[City] ==>
      && resp.status == 200 && resp.payload.Array?
      && Enumerates(resp.payload.items, order, store.objects[Place],
                    Members(store.objects[Place], Some(Link("city_id", cityId))))
  {
    order := [];
    var ct := store.Get(City, cityId);
    if ct.None? {
      return NotFound, order;
    }
    var pl;
    pl, order := Collect(store, Place, Some(Link("city_id", cityId)));
    resp := Response(200, Array(pl));
  }

  /** GET /places/<place_id>. */
  method GetPlace(store: ObjectStore, placeId: string) returns (resp: Response)
    requires store.Valid()
    ensures resp == Rules.Get(store.objects, Place, placeId)
  {
    var pl := store.Get(Place, placeId);
    if pl.None? {
      return NotFound;
    }
    resp := Response(200, Object(pl.value));
  }

  /** DELETE /places/<place_id>. */
  method DeletePlace(store: ObjectStore, placeId: string) returns (resp: Response)
    requires store.Valid()
    modifies store
    ensures store.Valid()
    ensures Rules.Outcome(resp, store.objects) == Rules.Delete(old(store.objects), Place, placeId)
    ensures store.issued == old(store.issued)
  {
    var pl := store.Get(Place, placeId);
    if pl.None? {
      return NotFound;
    }
    store.Remove(Place, placeId);
    resp := Deleted;
  }

  /** POST /cities/<city_id>/places. `newId` is the id the new place
      receives. */
  method PostPlace(store: ObjectStore, cityId: string, body: Body) returns (resp: Response, ghost newId: string)
    requires store.Valid()
    modifies store
    ensures store.Valid()
    ensures Rules.Outcome(resp, store.objects) == Rules.Create(old(store.objects), Place, cityId, body, newId)
    ensures resp.status == 201 ==> newId !in old(store.objects)[Place]
    ensures resp.status == 201 ==> |newId| > 0
    ensures resp.status == 201 ==> (Place, newId) !in old(store.issued) && store.issued == old(store.issued) + {(Place, newId)}
    ensures resp.status != 201 ==> store.issued == old(store.issued)
  {
    newId := "";
    var ct := store.Get(City, cityId);
    if ct.None? {
      resp := NotFound;
    } else if Rules.NotJson(body) {
      resp := BadRequest("Not a JSON");
    } else if "user_id" !in body.value {
      resp := BadRequest("Missing user_id");
    } else {
      var data := body.value;
      var uid := data["user_id"];
      var user := if uid.Str? then store.Get(User, uid.s) else None;
      if user.None? {
        resp := NotFound;
      } else if "name" !in data {
        resp := BadRequest("Missing name");
      } else {
        var id := store.FreshId(Place);
        newId := id;
        var pl := data["id" := Str(id)];
        pl := pl["city_id" := Str(id)];
        store.New(Place, id, pl);
        resp := Response(201, Object(pl));
      }
    }
    Rules.CreatePlaceOrder(old(store.objects), cityId, body, newId);
  }

  /** PUT /places/<place_id>: every body key except `id`, `user_id`,
      `city_id`, `created_at` and `updated_at` is set on the stored place. */
  method PutPlace(store: ObjectStore, placeId: string, body: Body) returns (resp: Response)
    requires store.Valid()
    modifies store
    ensures store.Valid()
    ensures Rules.Outcome(resp, store.objects) == Rules.Update(old(store.objects), Place, placeId, body)
    ensures store.issued == old(store.issued)
  {
    if Rules.NotJson(body) {
      return BadRequest("Not a JSON");
    }
    var pl := store.Get(Place, placeId);
    if pl.None? {
      return NotFound;
    }
    ghost var db := store.objects;
    CopyAttrs(store, Place, placeId, body.value, {"id", "user_id", "city_id", "created_at", "updated_at"});
    resp := Response(200, Object(store.objects[Place][placeId]));
    Rules.UpdateCopyOutcome(db, Place, placeId, body, {"id", "user_id", "city_id", "created_at", "updated_at"});
    Rules.UpdateKeepsWellFormed(db, Place, placeId, body);
    RecordedAfterPut(db, store.issued, Place, placeId, store.objects[Place][placeId]);
  }
}
