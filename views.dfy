/** The update loop the copying PUT handlers share:
    `for k, v in data.items(): if k not in skip: setattr(obj, k, v)`. */
module Views {
  import opened Models
  import opened Storage
  import Rules

  /** Sets every key of `data` outside `skip` on the stored object `id` of
      kind `k`, in place; nothing else in the store changes. */
  method CopyAttrs(store: ObjectStore, k: Kind, id: string, data: map<string, Value>, skip: set<string>)
    requires id in store.objects[k]
    modifies store
    ensures store.objects ==
      old(store.objects)[k := old(store.objects)[k][id := old(store.objects)[k][id] + Rules.Writable(data, skip, data.Keys)]]
    ensures store.issued == old(store.issued)
  {
    ghost var db := store.objects;
    ghost var cur := db[k][id];
    var todo := data.Keys;
    assert data.Keys - todo == {};
    Rules.WritableNone(cur, data, skip);
    PutSame(db, k, id);
    while todo != {}
      invariant todo <= data.Keys
      invariant cur == db[k][id] + Rules.Writable(data, skip, data.Keys - todo)
      invariant store.objects == db[k := db[k][id := cur]]
      invariant store.issued == old(store.issued)
      decreases todo
    {
      var key :| key in todo;
      Rules.WritableStep(db[k][id], data, skip, data.Keys - todo, key);
      assert data.Keys - (todo - {key}) == (data.Keys - todo) + {key};
      if key !in skip {
        store.SetAttr(k, id, key, data[key]);
        PutAgain(db, k, id, cur, cur[key := data[key]]);
        cur := cur[key := data[key]];
      }
      todo := todo - {key};
    }
    assert data.Keys - todo == data.Keys;
  }
}
