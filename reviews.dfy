/** The Review views: `/places/<place_id>/reviews` and `/reviews/<review_id>`. */
module Reviews {
  import opened Wrappers
  import opened Models
  import opened Http
  import opened Storage
  import opened Relations
  import Rules
  import opened Views

  /** GET /places/<place_id>/reviews: 404 for an unknown place, otherwise
      one entry per review whose `place_id` is the place's id. */
  method GetReviews(store: ObjectStore, placeId: string) returns (resp: Response, ghost order: seq<string>)
    requires store.Valid()
    ensures placeId !in store.objects[Place] ==> resp == NotFound
    ensures placeId in store.objects[Place] ==>
      && resp.status == 200 && resp.payload.Array?
      && Enumerates(resp.payload.items, order, store.objects[Review],
                    Members(store.objects[Review], Some(Link("place_id", placeId))))
  {
    order := [];
    var pl := store.Get(Place, placeId);
    if pl.None? {
      return NotFound, order;
    }
    var rv;
    rv, order := Collect(store, Review, Some(Link("place_id", placeId)));
    resp := Response(200, Array(rv));
  }

  /** GET /reviews/<review_id>. */
  method GetReview(store: ObjectStore, reviewId: string) returns (resp: Response)
    requires store.Valid()
    ensures resp == Rules.Get(store.objects, Review, reviewId)
  {
    var rv := store.Get(Review, reviewId);
    if rv.None? {
      return NotFound;
    }
    resp := Response(200, Object(rv.value));
  }

  /** DELETE /reviews/<review_id>. */
  method DeleteReview(store: ObjectStore, reviewId: string) returns (resp: Response)
    requires store.Valid()
    modifies store
    ensures store.Valid()
    ensures Rules.Outcome(resp, store.objects) == Rules.Delete(old(store.objects), Review, reviewId)
    ensures store.issued == old(store.issued)
  {
    var rv := store.Get(Review, reviewId);
    if rv.None? {
      return NotFound;
    }
    store.Remove(Review, reviewId);
    resp := Deleted;
  }

  /** POST /places/<place_id>/reviews. `newId` is the id the new review
      receives. */
  method PostReview(store: ObjectStore, placeId: string, body: Body) returns (resp: Response, ghost newId: string)
    requires store.Valid()
    modifies store
    ensures store.Valid()
    ensures Rules.Outcome(resp, store.objects) == Rules.Create(old(store.objects), Review, placeId, body, newId)
    ensures resp.status == 201 ==> newId !in old(store.objects)[Review]
    ensures resp.status == 201 ==> |newId| > 0
    ensures resp.status == 201 ==> (Review, newId) !in old(store.issued) && store.issued == old(store.issued) + {(Review, newId)}
    ensures resp.status != 201 ==> store.issued == old(store.issued)
  {
    newId := "";
    var pl := store.Get(Place, placeId);
    if pl.None? {
      resp := NotFound;
    } else if Rules.NotJson(body) {
      resp := BadRequest("Not a JSON");
    } else if "user_id" !in body.value {
      resp := BadRequest("Missing user_id");
    } else if "text" !in body.value {
      resp := BadRequest("Missing text");
    } else {
      var data := body.value;
      var uid := data["user_id"];
      var us := if uid.Str? then store.Get(User, uid.s) else None;
      if us.None? {
        resp := NotFound;
      } else {
        var id := store.FreshId(Review);
        newId := id;
        var rv := data["id" := Str(id)];
        rv := rv["place_id" := Str(id)];
        store.New(Review, id, rv);
        resp := Response(201, Object(rv));
      }
    }
    Rules.CreateReviewOrder(old(store.objects), placeId, body, newId);
  }

  /** PUT /reviews/<review_id>: every body key except `id`, `user_id`,
      `place_id`, `created_at` and `updated_at` is set on the stored review. */
  method PutReview(store: ObjectStore, reviewId: string, body: Body) returns (resp: Response)
    requires store.Valid()
    modifies store
    ensures store.Valid()
    ensures Rules.Outcome(resp, store.objects) == Rules.Update(old(store.objects), Review, reviewId, body)
    ensures store.issued == old(store.issued)
  {
    if Rules.NotJson(body) {
      return BadRequest("Not a JSON");
    }
    var rv := store.Get(Review, reviewId);
    if rv.None? {
      return NotFound;
    }
    ghost var db := store.objects;
    CopyAttrs(store, Review, reviewId, body.value, {"id", "user_id", "place_id", "created_at", "updated_at"});
    resp := Response(200, Object(store.objects[Review][reviewId]));
    Rules.UpdateCopyOutcome(db, Review, reviewId, body, {"id", "user_id", "place_id", "created_at", "updated_at"});
    Rules.UpdateKeepsWellFormed(db, Review, reviewId, body);
    RecordedAfterPut(db, store.issued, Review, reviewId, store.objects[Review][reviewId]);
  }
}
