/** The objects the API serves: six kinds of resource, each stored as a flat
    key/value record under its id. */
module Models {
  import opened Wrappers

  /** The resource kinds. The views look objects up either by class (`City`)
      or by class name (`"City"`); both are the same lookup here. */
  datatype Kind = State | City | Place | Review | User | Amenity

  /** A JSON value as it arrives in a request body. */
  datatype Value =
    | Null
    | Bool(b: bool)
    | Num(n: int)
    | Str(s: string)
    | List(elems: seq<Value>)
    | Dict(fields: map<string, Value>)

  /** An object's attributes, as `to_dict` shows them. */
  type Record = map<string, Value>

  /** All objects of one kind, keyed by id. */
  type Table = map<string, Record>

  /** A parsed request body: absent, or a JSON object. */
  type Body = Option<map<string, Value>>

  const EmptyDb: map<Kind, Table> :=
    map[State := map[], City := map[], Place := map[], Review := map[], User := map[], Amenity := map[]]

  /** The whole object table: one (possibly empty) table per kind. The
      constraint lists every constructor of `Kind`, so each kind has a table. */
  type Db = m: map<Kind, Table>
    | forall k: Kind :: k.State? || k.City? || k.Place? || k.Review? || k.User? || k.Amenity? ==> k in m
    witness EmptyDb

  /** Every stored object carries its own key as its `id` attribute, so an id
      is unique within its kind and names exactly one object. */
  ghost predicate WellFormed(db: Db)
  {
    forall k: Kind, id: string | id in db[k] :: HasId(db[k][id], id)
  }

  /** The record's `id` attribute is `id`. */
  predicate HasId(rec: Record, id: string)
  {
    "id" in rec && rec["id"] == Str(id)
  }

  /** Storing a record whose `id` is its key keeps the table well formed. */
  lemma PutKeepsWellFormed(db: Db, k: Kind, id: string, rec: Record)
    requires WellFormed(db)
    requires HasId(rec, id)
    ensures WellFormed(db[k := db[k][id := rec]])
  {
    var db' := db[k := db[k][id := rec]];
    forall k': Kind, id': string | id' in db'[k'] ensures HasId(db'[k'][id'], id') {
      if k' != k || id' != id {
        assert id' in db[k'] && db'[k'][id'] == db[k'][id'];
      }
    }
  }

  /** Storing an object's own record again changes nothing. */
  lemma PutSame(db: Db, k: Kind, id: string)
    requires id in db[k]
    ensures db[k := db[k][id := db[k][id]]] == db
  {
    assert db[k][id := db[k][id]] == db[k];
  }

  /** Storing a record over one stored a moment earlier keeps only the later. */
  lemma PutAgain(db: Db, k: Kind, id: string, first: Record, second: Record)
    ensures var mid := db[k := db[k][id := first]];
      mid[k := mid[k][id := second]] == db[k := db[k][id := second]]
  {
    var mid := db[k := db[k][id := first]];
    assert mid[k][id := second] == db[k][id := second];
  }

  /** Removing an object keeps the table well formed. */
  lemma RemoveKeepsWellFormed(db: Db, k: Kind, id: string)
    requires WellFormed(db)
    ensures WellFormed(db[k := db[k] - {id}])
  {
    var db' := db[k := db[k] - {id}];
    forall k': Kind, id': string | id' in db'[k'] ensures HasId(db'[k'][id'], id') {
      assert id' in db[k'] && db'[k'][id'] == db[k'][id'];
    }
  }
}
