/** The storage gateway the views call through `models.storage`: lookup by
    kind and id, the table of a kind, counting, and the changes a view makes
    (`save` of a new object, `delete`, `setattr` on a stored object). The
    persistence behind it is not part of this model. */
module Storage {
  import opened Wrappers
  import opened Models

  /** Every stored object's id is among the ids handed out so far. */
  ghost predicate Recorded(db: Db, issued: set<(Kind, string)>)
  {
    forall k, id | id in db[k] :: (k, id) in issued
  }

  lemma RecordedAfterPut(db: Db, issued: set<(Kind, string)>, k: Kind, id: string, rec: Record)
    requires Recorded(db, issued) && (k, id) in issued
    ensures Recorded(db[k := db[k][id := rec]], issued)
  {
  }

  lemma RecordedAfterRemove(db: Db, issued: set<(Kind, string)>, k: Kind, id: string)
    requires Recorded(db, issued)
    ensures Recorded(db[k := db[k] - {id}], issued)
  {
  }

  class ObjectStore {
    var objects: Db
    /** Every (kind, id) the store has handed out: uuid4 ids never repeat, so
        an id once issued is never issued again, even after a delete. */
    var issued: set<(Kind, string)>

    ghost predicate Valid()
      reads this
    {
      WellFormed(objects) && Recorded(objects, issued)
    }

    constructor ()
      ensures Valid() && objects == EmptyDb && issued == {}
    {
      objects := EmptyDb;
      issued := {};
    }

    /** `storage.get(cls, id)`. */
    function Get(k: Kind, id: string): Option<Record>
      reads this
    {
      if id in objects[k] then Some(objects[k][id]) else None
    }

    /** `storage.count(cls)`. */
    function Count(k: Kind): nat
      reads this
    {
      |objects[k]|
    }

    /** The id a new object receives: non-empty, never issued before (so
        held by no stored object either), and recorded as issued. Built as a
        string longer than every id issued so far. */
    method FreshId(k: Kind) returns (id: string)
      requires Valid()
      modifies this
      ensures Valid()
      ensures |id| > 0 && (k, id) !in old(issued) && id !in objects[k]
      ensures objects == old(objects) && issued == old(issued) + {(k, id)}
    {
      var todo := issued;
      var longest: nat := 0;
      while todo != {}
        invariant todo <= issued
        invariant forall p | p in issued && p !in todo :: |p.1| <= longest
        decreases todo
      {
        var p :| p in todo;
        if |p.1| > longest {
          longest := |p.1|;
        }
        todo := todo - {p};
      }
      id := seq(longest + 1, _ => 'x');
      issued := issued + {(k, id)};
    }

    /** Saving a newly constructed object adds it under its id. */
    method New(k: Kind, id: string, rec: Record)
      requires Valid()
      requires HasId(rec, id) && (k, id) in issued
      modifies this
      ensures Valid()
      ensures objects == old(objects)[k := old(objects)[k][id := rec]] && issued == old(issued)
    {
      PutKeepsWellFormed(objects, k, id, rec);
      RecordedAfterPut(objects, issued, k, id, rec);
      objects := objects[k := objects[k][id := rec]];
    }

    /** `obj.delete()` followed by `storage.save()`. */
    method Remove(k: Kind, id: string)
      requires Valid()
      modifies this
      ensures Valid()
      ensures objects == old(objects)[k := old(objects)[k] - {id}] && issued == old(issued)
    {
      RemoveKeepsWellFormed(objects, k, id);
      RecordedAfterRemove(objects, issued, k, id);
      objects := objects[k := objects[k] - {id}];
    }

    /** `setattr(obj, key, v)` on a stored object. */
    method SetAttr(k: Kind, id: string, key: string, v: Value)
      requires id in objects[k]
      modifies this
      ensures objects == old(objects)[k := old(objects)[k][id := old(objects)[k][id][key := v]]]
      ensures issued == old(issued)
    {
      objects := objects[k := objects[k][id := objects[k][id][key := v]]];
    }
  }
}
