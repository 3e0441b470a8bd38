/** The User views: `/users` and `/users/<user_id>`. */
module Users {
  import opened Wrappers
  import opened Models
  import opened Http
  import opened Storage
  import opened Relations
  import opened Views
  import Rules

  /** GET /users: always 200, one entry per stored user. */
  method GetAllUsers(store: ObjectStore) returns (resp: Response, ghost order: seq<string>)
    requires store.Valid()
    ensures resp.status == 200 && resp.payload.Array?
    ensures Enumerates(resp.payload.items, order, store.objects[User], store.objects[User].Keys)
  {
    var users;
    users, order := Collect(store, User, None);
    resp := Response(200, Array(users));
  }

  /** GET /users/<user_id>. */
  method GetUser(store: ObjectStore, userId: string) returns (resp: Response)
    requires store.Valid()
    ensures resp == Rules.Get(store.objects, User, userId)
  {
    var u := store.Get(User, userId);
    if u.None? {
      return NotFound;
    }
    resp := Response(200, Object(u.value));
  }

  /** DELETE /users/<user_id>. */
  method DeleteUser(store: ObjectStore, userId: string) returns (resp: Response)
    requires store.Valid()
    modifies store
    ensures store.Valid()
    ensures Rules.Outcome(resp, store.objects) == Rules.Delete(old(store.objects), User, userId)
    ensures store.issued == old(store.issued)
  {
    var u := store.Get(User, userId);
    if u.None? {
      return NotFound;
    }
    store.Remove(User, userId);
    resp := Deleted;
  }

  /** POST /users. `newId` is the id the new user receives. */
  method PostUser(store: ObjectStore, body: Body) returns (resp: Response, ghost newId: string)
    requires store.Valid()
    modifies store
    ensures store.Valid()
    ensures Rules.Outcome(resp, store.objects) == Rules.Create(old(store.objects), User, "", body, newId)
    ensures resp.status == 201 ==> newId !in old(store.objects)[User]
    ensures resp.status == 201 ==> |newId| > 0
    ensures resp.status == 201 ==> (User, newId) !in old(store.issued) && store.issued == old(store.issued) + {(User, newId)}
    ensures resp.status != 201 ==> store.issued == old(store.issued)
  {
    newId := "";
    if Rules.NotJson(body) {
      resp := BadRequest("Not a JSON");
    } else if "email" !in body.value {
      resp := BadRequest("Missing email");
    } else if "password" !in body.value {
      resp := BadRequest("Missing password");
    } else {
      var id := store.FreshId(User);
      newId := id;
      var u := body.value["id" := Str(id)];
      store.New(User, id, u);
      resp := Response(201, Object(u));
    }
    Rules.CreateUserOrder(old(store.objects), body, newId);
  }

  /** PUT /users/<user_id>: every body key except `id`, `email`,
      `created_at` and `updated_at` (so `password` too) is set on the stored
      user. */
  method PutUser(store: ObjectStore, userId: string, body: Body) returns (resp: Response)
    requires store.Valid()
    modifies store
    ensures store.Valid()
    ensures Rules.Outcome(resp, store.objects) == Rules.Update(old(store.objects), User, userId, body)
    ensures store.issued == old(store.issued)
  {
    if Rules.NotJson(body) {
      return BadRequest("Not a JSON");
    }
    var u := store.Get(User, userId);
    if u.None? {
      return NotFound;
    }
    ghost var db := store.objects;
    CopyAttrs(store, User, userId, body.value, {"id", "email", "created_at", "updated_at"});
    resp := Response(200, Object(store.objects[User][userId]));
    Rules.UpdateCopyOutcome(db, User, userId, body, {"id", "email", "created_at", "updated_at"});
    Rules.UpdateKeepsWellFormed(db, User, userId, body);
    RecordedAfterPut(db, store.issued, User, userId, store.objects[User][userId]);
  }
}
