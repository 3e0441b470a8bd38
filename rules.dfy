/** The request-handling contract shared by the six resource kinds, stated
    once as functions of the object table: which response a request gets,
    which check decides it, and what the table looks like afterwards. The
    view modules implement these rules step by step and are proved equal to
    them; the lemmas here spell out what the rules promise. */
module Rules {
  import opened Wrappers
  import opened Models
  import opened Http
  import opened Relations

  /** A response together with the object table after the request. */
  datatype Outcome = Outcome(resp: Response, db: Db)

  /** The views test `if not data`: an absent body and an empty JSON object
      are both rejected with "Not a JSON". */
  predicate NotJson(body: Body)
  {
    body.None? || body.value == map[]
  }

  /** Whether a `user_id` taken from a body names a stored user. */
  predicate UserResolves(db: Db, v: Value)
  {
    v.Str? && v.s in db[User]
  }

  // ---------------------------------------------------------------- create

  /** One validation step of a create request. */
  datatype Check =
    | ParentExists(parent: Kind)   // the parent named in the path is stored
    | IsJson                       // the body is a non-empty JSON object
    | Requires(key: string)        // the body has this key
    | UserExists                   // the body's `user_id` names a stored user

  /** The checks each create handler runs, in the order it runs them. */
  function CreateChecks(k: Kind): seq<Check>
  {
    match k
    case State => [IsJson, Requires("name")]
    case City => [ParentExists(State), IsJson, Requires("name")]
    case Place => [ParentExists(City), IsJson, Requires("user_id"), UserExists, Requires("name")]
    case Review => [ParentExists(Place), IsJson, Requires("user_id"), Requires("text"), UserExists]
    case User => [IsJson, Requires("email"), Requires("password")]
    case Amenity => [IsJson, Requires("name")]
  }

  /** The attribute that links a child kind to its parent. */
  function LinkField(k: Kind): Option<string>
  {
    match k
    case City => Some("state_id")
    case Place => Some("city_id")
    case Review => Some("place_id")
    case _ => None
  }

  predicate Fails(db: Db, c: Check, parentId: string, body: Body)
  {
    match c
    case ParentExists(p) => parentId !in db[p]
    case IsJson => NotJson(body)
    case Requires(key) => body.None? || key !in body.value
    case UserExists => body.None? || "user_id" !in body.value || !UserResolves(db, body.value["user_id"])
  }

  /** The response a failed check produces. */
  function FailureOf(c: Check): Response
  {
    match c
    case ParentExists(_) => NotFound
    case IsJson => BadRequest("Not a JSON")
    case Requires(key) => BadRequest("Missing " + key)
    case UserExists => NotFound
  }

  /** The response of the first failing check from position `i` on, if any:
      the handlers stop at the first failure. */
  function FirstFailure(db: Db, checks: seq<Check>, i: nat, parentId: string, body: Body): Option<Response>
    decreases |checks| - i
  {
    if i >= |checks| then None
    else if Fails(db, checks[i], parentId, body) then Some(FailureOf(checks[i]))
    else FirstFailure(db, checks, i + 1, parentId, body)
  }

  /** The object a successful create stores: every body key, then `id` set to
      the fresh id, then the child's link attribute set to that same fresh id
      (not to the parent id from the path). */
  function NewRecord(k: Kind, data: map<string, Value>, newId: string): Record
  {
    var rec := data["id" := Str(newId)];
    match LinkField(k)
    case None => rec
    case Some(f) => rec[f := Str(newId)]
  }

  /** A create request for kind `k` under parent `parentId` (ignored by the
      kinds without a parent); `newId` is the id the new object receives. */
  function Create(db: Db, k: Kind, parentId: string, body: Body, newId: string): Outcome
  {
    match FirstFailure(db, CreateChecks(k), 0, parentId, body)
    case Some(r) => Outcome(r, db)
    case None =>
      PassedChecksHaveBody(db, k, parentId, body);
      var rec := NewRecord(k, body.value, newId);
      Outcome(Response(201, Object(rec)), db[k := db[k][newId := rec]])
  }

  /** Every kind checks the body before anything can pass. */
  lemma PassedChecksHaveBody(db: Db, k: Kind, parentId: string, body: Body)
    requires FirstFailure(db, CreateChecks(k), 0, parentId, body).None?
    ensures body.Some? && body.value != map[]
  {
    var cs := CreateChecks(k);
    if k in {City, Place, Review} {
      assert FirstFailure(db, cs, 0, parentId, body) == FirstFailure(db, cs, 1, parentId, body);
    }
  }

  /** The messages of the "Missing <key>" failures. */
  lemma MissingMessages()
    ensures FailureOf(Requires("name")) == BadRequest("Missing name")
    ensures FailureOf(Requires("text")) == BadRequest("Missing text")
    ensures FailureOf(Requires("user_id")) == BadRequest("Missing user_id")
    ensures FailureOf(Requires("email")) == BadRequest("Missing email")
    ensures FailureOf(Requires("password")) == BadRequest("Missing password")
  {
    assert "Missing " + "name" == "Missing name";
    assert "Missing " + "text" == "Missing text";
    assert "Missing " + "user_id" == "Missing user_id";
    assert "Missing " + "email" == "Missing email";
    assert "Missing " + "password" == "Missing password";
  }

  /** Review create: unknown place, then "Not a JSON", then "Missing user_id",
      then "Missing text", then unknown user; otherwise one new review. */
  lemma CreateReviewOrder(db: Db, placeId: string, body: Body, newId: string)
    ensures var o := Create(db, Review, placeId, body, newId);
      && (placeId !in db[Place] ==> o == Outcome(NotFound, db))
      && (placeId in db[Place] && NotJson(body) ==> o == Outcome(BadRequest("Not a JSON"), db))
      && (placeId in db[Place] && !NotJson(body) && "user_id" !in body.value ==>
            o == Outcome(BadRequest("Missing user_id"), db))
      && (placeId in db[Place] && !NotJson(body) && "user_id" in body.value && "text" !in body.value ==>
            o == Outcome(BadRequest("Missing text"), db))
      && (placeId in db[Place] && !NotJson(body) && "user_id" in body.value && "text" in body.value &&
          !UserResolves(db, body.value["user_id"]) ==>
            o == Outcome(NotFound, db))
      && (placeId in db[Place] && !NotJson(body) && "user_id" in body.value && "text" in body.value &&
          UserResolves(db, body.value["user_id"]) ==>
            var rec := body.value["id" := Str(newId)]["place_id" := Str(newId)];
            o == Outcome(Response(201, Object(rec)), db[Review := db[Review][newId := rec]]))
  {
    var cs := CreateChecks(Review);
    assert FirstFailure(db, cs, 5, placeId, body) == None;
    assert FirstFailure(db, cs, 4, placeId, body) == if Fails(db, UserExists, placeId, body) then Some(NotFound) else None;
    assert FirstFailure(db, cs, 3, placeId, body) == if Fails(db, Requires("text"), placeId, body) then Some(FailureOf(Requires("text"))) else FirstFailure(db, cs, 4, placeId, body);
    assert FirstFailure(db, cs, 2, placeId, body) == if Fails(db, Requires("user_id"), placeId, body) then Some(FailureOf(Requires("user_id"))) else FirstFailure(db, cs, 3, placeId, body);
    assert FirstFailure(db, cs, 1, placeId, body) == if NotJson(body) then Some(BadRequest("Not a JSON")) else FirstFailure(db, cs, 2, placeId, body);
    MissingMessages();
  }

  /** Place create: unknown city, then "Not a JSON", then "Missing user_id",
      then unknown user, then "Missing name"; otherwise one new place. */
  lemma CreatePlaceOrder(db: Db, cityId: string, body: Body, newId: string)
    ensures var o := Create(db, Place, cityId, body, newId);
      && (cityId !in db[City] ==> o == Outcome(NotFound, db))
      && (cityId in db[City] && NotJson(body) ==> o == Outcome(BadRequest("Not a JSON"), db))
      && (cityId in db[City] && !NotJson(body) && "user_id" !in body.value ==>
            o == Outcome(BadRequest("Missing user_id"), db))
      && (cityId in db[City] && !NotJson(body) && "user_id" in body.value &&
          !UserResolves(db, body.value["user_id"]) ==>
            o == Outcome(NotFound, db))
      && (cityId in db[City] && !NotJson(body) && "user_id" in body.value &&
          UserResolves(db, body.value["user_id"]) && "name" !in body.value ==>
            o == Outcome(BadRequest("Missing name"), db))
      && (cityId in db[City] && !NotJson(body) && "user_id" in body.value &&
          UserResolves(db, body.value["user_id"]) && "name" in body.value ==>
            var rec := body.value["id" := Str(newId)]["city_id" := Str(newId)];
            o == Outcome(Response(201, Object(rec)), db[Place := db[Place][newId := rec]]))
  {
    var cs := CreateChecks(Place);
    assert FirstFailure(db, cs, 5, cityId, body) == None;
    assert FirstFailure(db, cs, 4, cityId, body) == if Fails(db, Requires("name"), cityId, body) then Some(FailureOf(Requires("name"))) else None;
    assert FirstFailure(db, cs, 3, cityId, body) == if Fails(db, UserExists, cityId, body) then Some(NotFound) else FirstFailure(db, cs, 4, cityId, body);
    assert FirstFailure(db, cs, 2, cityId, body) == if Fails(db, Requires("user_id"), cityId, body) then Some(FailureOf(Requires("user_id"))) else FirstFailure(db, cs, 3, cityId, body);
    assert FirstFailure(db, cs, 1, cityId, body) == if NotJson(body) then Some(BadRequest("Not a JSON")) else FirstFailure(db, cs, 2, cityId, body);
    MissingMessages();
  }

  /** City create: unknown state, then "Not a JSON", then "Missing name";
      otherwise one new city. */
  lemma CreateCityOrder(db: Db, stateId: string, body: Body, newId: string)
    ensures var o := Create(db, City, stateId, body, newId);
      && (stateId !in db[State] ==> o == Outcome(NotFound, db))
      && (stateId in db[State] && NotJson(body) ==> o == Outcome(BadRequest("Not a JSON"), db))
      && (stateId in db[State] && !NotJson(body) && "name" !in body.value ==>
            o == Outcome(BadRequest("Missing name"), db))
      && (stateId in db[State] && !NotJson(body) && "name" in body.value ==>
            var rec := body.value["id" := Str(newId)]["state_id" := Str(newId)];
            o == Outcome(Response(201, Object(rec)), db[City := db[City][newId := rec]]))
  {
    var cs := CreateChecks(City);
    assert FirstFailure(db, cs, 3, stateId, body) == None;
    assert FirstFailure(db, cs, 2, stateId, body) == if Fails(db, Requires("name"), stateId, body) then Some(FailureOf(Requires("name"))) else None;
    assert FirstFailure(db, cs, 1, stateId, body) == if NotJson(body) then Some(BadRequest("Not a JSON")) else FirstFailure(db, cs, 2, stateId, body);
    MissingMessages();
  }

  /** User create: "Not a JSON", then "Missing email", then "Missing
      password"; no lookup at all; otherwise one new user. */
  lemma CreateUserOrder(db: Db, body: Body, newId: string)
    ensures var o := Create(db, User, "", body, newId);
      && (NotJson(body) ==> o == Outcome(BadRequest("Not a JSON"), db))
      && (!NotJson(body) && "email" !in body.value ==> o == Outcome(BadRequest("Missing email"), db))
      && (!NotJson(body) && "email" in body.value && "password" !in body.value ==>
            o == Outcome(BadRequest("Missing password"), db))
      && (!NotJson(body) && "email" in body.value && "password" in body.value ==>
            var rec := body.value["id" := Str(newId)];
            o == Outcome(Response(201, Object(rec)), db[User := db[User][newId := rec]]))
  {
    var cs := CreateChecks(User);
    assert FirstFailure(db, cs, 3, "", body) == None;
    assert FirstFailure(db, cs, 2, "", body) == if Fails(db, Requires("password"), "", body) then Some(FailureOf(Requires("password"))) else None;
    assert FirstFailure(db, cs, 1, "", body) == if Fails(db, Requires("email"), "", body) then Some(FailureOf(Requires("email"))) else FirstFailure(db, cs, 2, "", body);
    MissingMessages();
  }

  /** State and Amenity create: "Not a JSON", then "Missing name"; otherwise
      one new object. */
  lemma CreateNamedOrder(db: Db, k: Kind, body: Body, newId: string)
    requires k == State || k == Amenity
    ensures var o := Create(db, k, "", body, newId);
      && (NotJson(body) ==> o == Outcome(BadRequest("Not a JSON"), db))
      && (!NotJson(body) && "name" !in body.value ==> o == Outcome(BadRequest("Missing name"), db))
      && (!NotJson(body) && "name" in body.value ==>
            var rec := body.value["id" := Str(newId)];
            o == Outcome(Response(201, Object(rec)), db[k := db[k][newId := rec]]))
  {
    var cs := CreateChecks(k);
    assert FirstFailure(db, cs, 2, "", body) == None;
    assert FirstFailure(db, cs, 1, "", body) == if Fails(db, Requires("name"), "", body) then Some(FailureOf(Requires("name"))) else None;
    MissingMessages();
  }

  /** A create never writes the table unless it answers 201, and then it adds
      exactly the new object: one more object of kind `k` under the fresh id,
      readable back with a get, every other kind untouched, and the table
      still well formed. */
  lemma CreateAddsOne(db: Db, k: Kind, parentId: string, body: Body, newId: string)
    requires WellFormed(db)
    requires newId !in db[k]
    ensures var o := Create(db, k, parentId, body, newId);
      && (o.resp.status != 201 ==> o.db == db)
      && (o.resp.status == 201 ==>
            && o.resp.payload.Object?
            && o.db[k] == db[k][newId := o.resp.payload.fields]
            && |o.db[k]| == |db[k]| + 1
            && Get(o.db, k, newId) == Response(200, o.resp.payload)
            && (forall k' | k' != k :: o.db[k'] == db[k']))
      && WellFormed(o.db)
  {
    var ff := FirstFailure(db, CreateChecks(k), 0, parentId, body);
    if ff.None? {
      PassedChecksHaveBody(db, k, parentId, body);
      var rec := NewRecord(k, body.value, newId);
      CreateStores(db, k, parentId, body, newId);
      PutKeepsWellFormed(db, k, newId, rec);
    } else {
      FailuresAreNot201(ff.value, db, CreateChecks(k), 0, parentId, body);
    }
  }

  /** The table a successful create leaves. */
  lemma CreateStores(db: Db, k: Kind, parentId: string, body: Body, newId: string)
    requires FirstFailure(db, CreateChecks(k), 0, parentId, body).None?
    ensures body.Some?
    ensures var rec := NewRecord(k, body.value, newId);
      && HasId(rec, newId)
      && Create(db, k, parentId, body, newId) == Outcome(Response(201, Object(rec)), db[k := db[k][newId := rec]])
  {
    PassedChecksHaveBody(db, k, parentId, body);
  }

  /** A failing check answers 404 or 400. */
  lemma {:induction false} FailuresAreNot201(r: Response, db: Db, checks: seq<Check>, i: nat, parentId: string, body: Body)
    requires FirstFailure(db, checks, i, parentId, body) == Some(r)
    ensures r.status == 404 || r.status == 400
    decreases |checks| - i
  {
    if !Fails(db, checks[i], parentId, body) {
      FailuresAreNot201(r, db, checks, i + 1, parentId, body);
    }
  }

  /** The created child links to itself: for every parent id `p`, the
      children of `p` after the create are those before plus the new object
      exactly when `p` is the new object's own id. So a child created under
      parent `parentId` is not listed under it (ids of different kinds are
      drawn independently, so nothing stops `parentId == newId`, but nothing
      makes it so either). */
  lemma CreatedChildLinkedToItself(db: Db, k: Kind, parentId: string, body: Body, newId: string, p: string)
    requires LinkField(k).Some?
    requires newId !in db[k]
    requires Create(db, k, parentId, body, newId).resp.status == 201
    ensures var o := Create(db, k, parentId, body, newId);
      var link := Some(Link(LinkField(k).value, p));
      Members(o.db[k], link) == Members(db[k], link) + (if p == newId then {newId} else {})
  {
    var o := Create(db, k, parentId, body, newId);
    var f := LinkField(k).value;
    var link := Some(Link(f, p));
    var ff := FirstFailure(db, CreateChecks(k), 0, parentId, body);
    if ff.Some? {
      FailuresAreNot201(ff.value, db, CreateChecks(k), 0, parentId, body);
    }
    PassedChecksHaveBody(db, k, parentId, body);
    var rec := NewRecord(k, body.value, newId);
    assert o.db[k] == db[k][newId := rec];
    assert f in rec && rec[f] == Str(newId);
    assert newId in Members(o.db[k], link) <==> p == newId;
    forall id | id != newId ensures id in Members(o.db[k], link) <==> id in Members(db[k], link) {
      if id in db[k] {
        assert o.db[k][id] == db[k][id];
      }
    }
  }

  // ---------------------------------------------------------------- update

  /** How an update applies the body: copy every key but the protected ones,
      or (State) set `name` alone. */
  datatype UpdateStyle = CopyExcept(protected: set<string>) | NameOnly

  function UpdateStyleOf(k: Kind): UpdateStyle
  {
    match k
    case State => NameOnly
    case City => CopyExcept({"id", "state_id", "created_at", "updated_at"})
    case Place => CopyExcept({"id", "user_id", "city_id", "created_at", "updated_at"})
    case Review => CopyExcept({"id", "user_id", "place_id", "created_at", "updated_at"})
    case User => CopyExcept({"id", "email", "created_at", "updated_at"})
    case Amenity => CopyExcept({"id", "created_at", "updated_at"})
  }

  /** The body keys among `keys` that an update may write. */
  function Writable(data: map<string, Value>, protected: set<string>, keys: set<string>): map<string, Value>
  {
    map key | key in data && key in keys && key !in protected :: data[key]
  }

  /** Writing no keys leaves a record as it was. */
  lemma WritableNone(rec: Record, data: map<string, Value>, protected: set<string>)
    ensures rec + Writable(data, protected, {}) == rec
  {
    assert Writable(data, protected, {}) == map[];
  }

  /** Writing one more body key: a `setattr` for an unprotected key, nothing
      for a protected one. */
  lemma WritableStep(rec: Record, data: map<string, Value>, protected: set<string>, done: set<string>, key: string)
    requires key in data
    ensures rec + Writable(data, protected, done + {key}) ==
      if key in protected then rec + Writable(data, protected, done)
      else (rec + Writable(data, protected, done))[key := data[key]]
  {
  }

  /** The stored record after an update with body `data`. */
  function Patched(k: Kind, rec: Record, data: map<string, Value>): Record
  {
    match UpdateStyleOf(k)
    case NameOnly => rec["name" := if "name" in data then data["name"] else Null]
    case CopyExcept(p) => rec + Writable(data, p, data.Keys)
  }

  /** Only the State handler looks the object up before checking the body. */
  predicate LooksUpFirst(k: Kind)
  {
    k == State
  }

  /** An update request for the object `id` of kind `k`. */
  function Update(db: Db, k: Kind, id: string, body: Body): Outcome
  {
    if LooksUpFirst(k) && id !in db[k] then Outcome(NotFound, db)
    else if NotJson(body) then Outcome(BadRequest("Not a JSON"), db)
    else if id !in db[k] then Outcome(NotFound, db)
    else
      var rec := Patched(k, db[k][id], body.value);
      Outcome(Response(200, Object(rec)), db[k := db[k][id := rec]])
  }

  // ------------------------------------------------------- get and delete

  function Get(db: Db, k: Kind, id: string): Response
  {
    if id in db[k] then Response(200, Object(db[k][id])) else NotFound
  }

  function Delete(db: Db, k: Kind, id: string): Outcome
  {
    if id in db[k] then Outcome(Deleted, db[k := db[k] - {id}]) else Outcome(NotFound, db)
  }

  // --------------------------------------------------------------- lemmas

  /** The five copying update handlers check the body before the lookup;
      the State handler looks the object up first. A rejected update leaves
      the table as it was. */
  lemma UpdateOrder(db: Db, k: Kind, id: string, body: Body)
    ensures var o := Update(db, k, id, body);
      && (k != State && NotJson(body) ==> o == Outcome(BadRequest("Not a JSON"), db))
      && (k == State && id !in db[k] ==> o == Outcome(NotFound, db))
      && (id in db[k] && NotJson(body) ==> o == Outcome(BadRequest("Not a JSON"), db))
      && (id !in db[k] && !NotJson(body) ==> o == Outcome(NotFound, db))
      && (id in db[k] && !NotJson(body) ==>
            o.resp == Response(200, Object(o.db[k][id])) && o.db == db[k := db[k][id := o.db[k][id]]])
  {
  }

  /** A copying update writes every unprotected body key verbatim, keeps the
      protected keys and the keys the body does not mention as they were, and
      touches no other object. */
  lemma UpdateCopies(db: Db, k: Kind, id: string, body: Body, protected: set<string>)
    requires UpdateStyleOf(k) == CopyExcept(protected)
    requires id in db[k] && !NotJson(body)
    ensures var old_ := db[k][id];
      var new_ := Update(db, k, id, body).db[k][id];
      var data := body.value;
      && new_.Keys == old_.Keys + (data.Keys - protected)
      && (forall key | key in data && key !in protected :: new_[key] == data[key])
      && (forall key | key in old_ && (key in protected || key !in data) :: new_[key] == old_[key])
  {
  }

  /** The outcome of a copying update that passes both checks. */
  lemma UpdateCopyOutcome(db: Db, k: Kind, id: string, body: Body, protected: set<string>)
    requires UpdateStyleOf(k) == CopyExcept(protected)
    requires id in db[k] && !NotJson(body)
    ensures var rec := db[k][id] + Writable(body.value, protected, body.value.Keys);
      Update(db, k, id, body) == Outcome(Response(200, Object(rec)), db[k := db[k][id := rec]])
  {
  }

  /** The State update sets `name` alone: to the body's `name`, or to null
      when the body has none; every other key of the body is ignored. */
  lemma UpdateStateNameOnly(db: Db, id: string, body: Body)
    requires id in db[State] && !NotJson(body)
    ensures var old_ := db[State][id];
      var new_ := Update(db, State, id, body).db[State][id];
      && new_ == old_["name" := if "name" in body.value then body.value["name"] else Null]
      && (forall key | key != "name" :: (key in new_ <==> key in old_) && (key in old_ ==> new_[key] == old_[key]))
  {
  }

  /** No update changes an object's `id`, so the table stays well formed. */
  lemma UpdateKeepsWellFormed(db: Db, k: Kind, id: string, body: Body)
    requires WellFormed(db)
    ensures WellFormed(Update(db, k, id, body).db)
  {
    if id in db[k] && !NotJson(body) {
      var rec := Patched(k, db[k][id], body.value);
      assert HasId(db[k][id], id);
      assert HasId(rec, id);
      PutKeepsWellFormed(db, k, id, rec);
    }
  }

  /** Delete: 404 and no change on an unknown id; otherwise `{}` with that one
      object gone and nothing else touched (no cascade to children). A get
      or a second delete of the same id then answers 404. */
  lemma DeleteThenGone(db: Db, k: Kind, id: string)
    requires WellFormed(db)
    ensures var o := Delete(db, k, id);
      && (id !in db[k] ==> o == Outcome(NotFound, db))
      && (id in db[k] ==> o.resp == Deleted && o.db[k] == db[k] - {id})
      && (forall k' | k' != k :: o.db[k'] == db[k'])
      && Get(o.db, k, id) == NotFound
      && Delete(o.db, k, id) == Outcome(NotFound, o.db)
      && WellFormed(o.db)
  {
    RemoveKeepsWellFormed(db, k, id);
  }
}
