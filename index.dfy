/** The general routes: `/status` and `/stats`. */
module Index {
  import opened Models
  import opened Http
  import opened Storage

  /** The `classes` table: the name each kind is counted under. */
  const Classes: map<string, Kind> := map[
    "amenities" := Amenity,
    "cities" := City,
    "places" := Place,
    "reviews" := Review,
    "states" := State,
    "users" := User
  ]

  /** GET /status: a fixed answer that reads no state. */
  function Status(): (r: Response)
    ensures r.status == 200 && r.payload.Object?
    ensures r.payload.fields.Keys == {"status"} && r.payload.fields["status"] == Str("OK")
  {
    Response(200, Object(map["status" := Str("OK")]))
  }

  /** `fields` is a statistics answer for `db`: one entry per name in
      `classes`, holding the number of stored objects of that kind. */
  predicate Counts(fields: Record, db: Db)
  {
    fields.Keys == Classes.Keys &&
    forall key | key in Classes :: fields[key] == Num(|db[Classes[key]]|)
  }

  /** The names the `classes` table lists and the kind each one counts; a
      helper for `CountsByName`, kept apart so that each proof stays small. */
  lemma ClassTable()
    ensures Classes.Keys == {"amenities", "cities", "places", "reviews", "states", "users"}
    ensures Classes["amenities"] == Amenity && Classes["cities"] == City && Classes["places"] == Place
    ensures Classes["reviews"] == Review && Classes["states"] == State && Classes["users"] == User
  {
  }

  /** A statistics answer, name by name. */
  lemma CountsByName(fields: Record, db: Db)
    requires Counts(fields, db)
    ensures fields.Keys == {"amenities", "cities", "places", "reviews", "states", "users"}
    ensures fields["amenities"] == Num(|db[Amenity]|)
    ensures fields["cities"] == Num(|db[City]|)
    ensures fields["places"] == Num(|db[Place]|)
    ensures fields["reviews"] == Num(|db[Review]|)
    ensures fields["states"] == Num(|db[State]|)
    ensures fields["users"] == Num(|db[User]|)
  {
    ClassTable();
  }

  /** GET /stats: for each entry of `classes`, the number of stored objects
      of that kind; the store is only read. */
  method Stats(store: ObjectStore) returns (resp: Response)
    requires store.Valid()
    ensures resp.status == 200 && resp.payload.Object?
    ensures Counts(resp.payload.fields, store.objects)
  {
    var statistics: Record := map[];
    var todo := Classes.Keys;
    while todo != {}
      invariant todo <= Classes.Keys
      invariant statistics.Keys == Classes.Keys - todo
      invariant forall key | key in statistics :: statistics[key] == Num(store.Count(Classes[key]))
      decreases todo
    {
      var key :| key in todo;
      statistics := statistics[key := Num(store.Count(Classes[key]))];
      todo := todo - {key};
    }
    resp := Response(200, Object(statistics));
  }
}
