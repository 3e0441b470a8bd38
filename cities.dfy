/** The City views: `/states/<state_id>/cities` and `/cities/<city_id>`. */
module Cities {
  import opened Wrappers
  import opened Models
  import opened Http
  import opened Storage
  import opened Relations
  import opened Views
  import Rules

  /** GET /states/<state_id>/cities: 404 for an unknown state, otherwise one
      entry per city whose `state_id` is the state's id. */
  method GetCities(store: ObjectStore, stateId: string) returns (resp: Response, ghost order: seq<string>)
    requires store.Valid()
    ensures stateId !in store.objects[State] ==> resp == NotFound
    ensures stateId in store.objects[State] ==>
      && resp.status == 200 && resp.payload.Array?
      && Enumerates(resp.payload.items, order, store.objects[City],
                    Members(store.objects[City], Some(Link("state_id", stateId))))
  {
    order := [];
    var st := store.Get(State, stateId);
    if st.None? {
      return NotFound, order;
    }
    var ct;
    ct, order := Collect(store, City, Some(Link("state_id", stateId)));
    resp := Response(200, Array(ct));
  }

  /** GET /cities/<city_id>. */
  method GetCity(store: ObjectStore, cityId: string) returns (resp: Response)
    requires store.Valid()
    ensures resp == Rules.Get(store.objects, City, cityId)
  {
    var ct := store.Get(City, cityId);
    if ct.None? {
      return NotFound;
    }
    resp := Response(200, Object(ct.value));
  }

  /** DELETE /cities/<city_id>. */
  method DeleteCity(store: ObjectStore, cityId: string) returns (resp: Response)
    requires store.Valid()
    modifies store
    ensures store.Valid()
    ensures Rules.Outcome(resp, store.objects) == Rules.Delete(old(store.objects), City, cityId)
    ensures store.issued == old(store.issued)
  {
    var ct := store.Get(City, cityId);
    if ct.None? {
      return NotFound;
    }
    store.Remove(City, cityId);
    resp := Deleted;
  }

  /** POST /states/<state_id>/cities. `newId` is the id the new city
      receives. */
  method PostCity(store: ObjectStore, stateId: string, body: Body) returns (resp: Response, ghost newId: string)
    requires store.Valid()
    modifies store
    ensures store.Valid()
    ensures Rules.Outcome(resp, store.objects) == Rules.Create(old(store.objects), City, stateId, body, newId)
    ensures resp.status == 201 ==> newId !in old(store.objects)[City]
    ensures resp.status == 201 ==> |newId| > 0
    ensures resp.status == 201 ==> (City, newId) !in old(store.issued) && store.issued == old(store.issued) + {(City, newId)}
    ensures resp.status != 201 ==> store.issued == old(store.issued)
  {
    newId := "";
    var st := store.Get(State, stateId);
    if st.None? {
      resp := NotFound;
    } else if Rules.NotJson(body) {
      resp := BadRequest("Not a JSON");
    } else if "name" !in body.value {
      resp := BadRequest("Missing name");
    } else {
      var id := store.FreshId(City);
      newId := id;
      var ct := body.value["id" := Str(id)];
      ct := ct["state_id" := Str(id)];
      store.New(City, id, ct);
      resp := Response(201, Object(ct));
    }
    Rules.CreateCityOrder(old(store.objects), stateId, body, newId);
  }

  /** PUT /cities/<city_id>: every body key except `id`, `state_id`,
      `created_at` and `updated_at` is set on the stored city. */
  method PutCity(store: ObjectStore, cityId: string, body: Body) returns (resp: Response)
    requires store.Valid()
    modifies store
    ensures store.Valid()
    ensures Rules.Outcome(resp, store.objects) == Rules.Update(old(store.objects), City, cityId, body)
    ensures store.issued == old(store.issued)
  {
    if Rules.NotJson(body) {
      return BadRequest("Not a JSON");
    }
    var ct := store.Get(City, cityId);
    if ct.None? {
      return NotFound;
    }
    ghost var db := store.objects;
    CopyAttrs(store, City, cityId, body.value, {"id", "state_id", "created_at", "updated_at"});
    resp := Response(200, Object(store.objects[City][cityId]));
    Rules.UpdateCopyOutcome(db, City, cityId, body, {"id", "state_id", "created_at", "updated_at"});
    Rules.UpdateKeepsWellFormed(db, City, cityId, body);
    RecordedAfterPut(db, store.issued, City, cityId, store.objects[City][cityId]);
  }
}
