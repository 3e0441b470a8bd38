/** The State views: `/states` and `/states/<state_id>`. */
module States {
  import opened Wrappers
  import opened Models
  import opened Http
  import opened Storage
  import opened Relations
  import Rules

  /** GET /states: always 200, one entry per stored state. */
  method ListStates(store: ObjectStore) returns (resp: Response, ghost order: seq<string>)
    requires store.Valid()
    ensures resp.status == 200 && resp.payload.Array?
    ensures Enumerates(resp.payload.items, order, store.objects[State], store.objects[State].Keys)
  {
    var result;
    result, order := Collect(store, State, None);
    resp := Response(200, Array(result));
  }

  /** GET /states/<state_id>. */
  method GetState(store: ObjectStore, stateId: string) returns (resp: Response)
    requires store.Valid()
    ensures resp == Rules.Get(store.objects, State, stateId)
  {
    var result := store.Get(State, stateId);
    if result.None? {
      return NotFound;
    }
    resp := Response(200, Object(result.value));
  }

  /** DELETE /states/<state_id>: the state alone goes; its cities stay. */
  method DeleteState(store: ObjectStore, stateId: string) returns (resp: Response)
    requires store.Valid()
    modifies store
    ensures store.Valid()
    ensures Rules.Outcome(resp, store.objects) == Rules.Delete(old(store.objects), State, stateId)
    ensures store.issued == old(store.issued)
  {
    var state := store.Get(State, stateId);
    if state.None? {
      return NotFound;
    }
    store.Remove(State, stateId);
    resp := Deleted;
  }

  /** POST /states. `newId` is the id the new state receives. */
  method CreateState(store: ObjectStore, body: Body) returns (resp: Response, ghost newId: string)
    requires store.Valid()
    modifies store
    ensures store.Valid()
    ensures Rules.Outcome(resp, store.objects) == Rules.Create(old(store.objects), State, "", body, newId)
    ensures resp.status == 201 ==> newId !in old(store.objects)[State]
    ensures resp.status == 201 ==> |newId| > 0
    ensures resp.status == 201 ==> (State, newId) !in old(store.issued) && store.issued == old(store.issued) + {(State, newId)}
    ensures resp.status != 201 ==> store.issued == old(store.issued)
  {
    newId := "";
    if Rules.NotJson(body) {
      resp := BadRequest("Not a JSON");
    } else if "name" !in body.value {
      resp := BadRequest("Missing name");
    } else {
      var id := store.FreshId(State);
      newId := id;
      var state := body.value["id" := Str(id)];
      store.New(State, id, state);
      resp := Response(201, Object(state));
    }
    Rules.CreateNamedOrder(old(store.objects), State, body, newId);
  }

  /** PUT /states/<state_id>: looks the state up before checking the body,
      then sets `name` alone, to `body.get("name")`. */
  method UpdateState(store: ObjectStore, stateId: string, body: Body) returns (resp: Response)
    requires store.Valid()
    modifies store
    ensures store.Valid()
    ensures Rules.Outcome(resp, store.objects) == Rules.Update(old(store.objects), State, stateId, body)
    ensures store.issued == old(store.issued)
  {
    var state := store.Get(State, stateId);
    if state.None? {
      return NotFound;
    }
    if Rules.NotJson(body) {
      return BadRequest("Not a JSON");
    }
    ghost var db := store.objects;
    var name := if "name" in body.value then body.value["name"] else Null;
    assert Rules.Patched(State, db[State][stateId], body.value) == db[State][stateId]["name" := name];
    store.SetAttr(State, stateId, "name", name);
    resp := Response(200, Object(store.objects[State][stateId]));
    Rules.UpdateKeepsWellFormed(db, State, stateId, body);
    RecordedAfterPut(db, store.issued, State, stateId, store.objects[State][stateId]);
  }
}
