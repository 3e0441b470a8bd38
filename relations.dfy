/** Parent/child relationships and the listing loop the views share. A child
    belongs to a parent when its link attribute (`state_id`, `city_id`,
    `place_id`) holds the parent's id; `State.cities`, `City.places` and
    `Place.reviews` are that filter, computed when read. */
module Relations {
  import opened Wrappers
  import opened Models
  import opened Storage

  /** A child's link attribute and the parent id it must hold. */
  datatype Link = Link(field: string, parent: string)

  /** The ids a listing reports: every id of the table, or only the children
      of one parent. */
  function Members(tbl: Table, link: Option<Link>): set<string>
  {
    match link
    case None => tbl.Keys
    case Some(l) => set id | id in tbl && l.field in tbl[id] && tbl[id][l.field] == Str(l.parent)
  }

  /** `items` lists the records of exactly the ids in `ids`, each once, in the
      order `order` gives. */
  ghost predicate Enumerates(items: seq<Record>, order: seq<string>, tbl: Table, ids: set<string>)
  {
    && |items| == |order|
    && (forall i | 0 <= i < |order| :: order[i] in tbl && items[i] == tbl[order[i]])
    && (forall i, j | 0 <= i < j < |order| :: order[i] != order[j])
    && (forall id :: id in order <==> id in ids)
  }

  /** A sequence without repetitions has as many elements as its set. */
  lemma {:induction false} DistinctCount(order: seq<string>)
    requires forall i, j | 0 <= i < j < |order| :: order[i] != order[j]
    ensures |set id | id in order| == |order|
  {
    if order != [] {
      var last := |order| - 1;
      DistinctCount(order[..last]);
      assert (set id | id in order) == (set id | id in order[..last]) + {order[last]};
      assert order[last] !in (set id | id in order[..last]);
    }
  }

  /** A listing holds exactly one entry per selected id. */
  lemma EnumerationSize(items: seq<Record>, order: seq<string>, tbl: Table, ids: set<string>)
    requires Enumerates(items, order, tbl, ids)
    ensures |items| == |ids|
  {
    DistinctCount(order);
    assert (set id | id in order) == ids;
  }

  /** The views' `for obj in ...: result.append(obj.to_dict())` over the
      objects of one kind, optionally only the children of one parent. The
      table is a dictionary, so the order of the result is not fixed; `order`
      records the one this run produced. */
  method Collect(store: ObjectStore, k: Kind, link: Option<Link>) returns (items: seq<Record>, ghost order: seq<string>)
    ensures Enumerates(items, order, store.objects[k], Members(store.objects[k], link))
  {
    var tbl := store.objects[k];
    var todo := tbl.Keys;
    items, order := [], [];
    while todo != {}
      invariant todo <= tbl.Keys
      invariant Enumerates(items, order, tbl, Members(tbl, link) - todo)
      decreases todo
    {
      var id :| id in todo;
      if id in Members(tbl, link) {
        items := items + [tbl[id]];
        order := order + [id];
      }
      todo := todo - {id};
    }
  }
}
