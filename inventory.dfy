/**
 * The in-memory item store of the inventory service: a table from integer
 * ids to item records, three read-only handlers (list all, get by id,
 * filter by attributes) and three handlers that change the table (insert or
 * overwrite, partial update, remove).
 *
 * The readers are pure functions of the table; the table itself, and the
 * handlers that change it, live in the class `Store`.
 */
module Inventory {

  datatype Option<T> = None | Some(value: T)

  datatype Category = Tools | Consumables

  /** An item record. `price` is only ever compared for equality and
      assigned, so it is an exact `real` here. */
  datatype Item = Item(name: string, price: real, count: int, id: int, category: Category)

  /** What a handler answers: a value, or one of the failures it can raise.
      `KeyFault` is the uncaught lookup error of a dictionary access. */
  datatype Outcome<T> = Ok(value: T) | NotFound | BadRequest | KeyFault

  type Table = map<int, Item>

  /** The store invariant: every key maps to the item carrying that id. */
  ghost predicate KeyedById(t: Table)
  {
    forall k :: k in t ==> t[k].id == k
  }

  /** The three records the store holds when the process starts. */
  function SeedTable(): (t: Table)
    ensures KeyedById(t)
    ensures t.Keys == {0, 1, 2}
    ensures t[0].category == Tools && t[1].category == Tools && t[2].category == Consumables
  {
    map[
      0 := Item("Drill Machine", 9.99, 20, 0, Tools),
      1 := Item("Pliers", 5.99, 20, 1, Tools),
      2 := Item("Nails", 1.99, 100, 2, Consumables)
    ]
  }

  // ---------------------------------------------------------------------
  // Readers

  /** List all: a copy of the whole table, pair by pair. */
  function Index(t: Table): (r: Table)
    ensures r.Keys == t.Keys && |r| == |t|
    ensures forall k :: k in r ==> r[k] == t[k]
  {
    map k | k in t :: t[k]
  }

  /** Get by id. */
  function QueryItemById(t: Table, itemId: int): (r: Outcome<Item>)
    ensures r.NotFound? <==> itemId !in t
    ensures itemId in t ==> r == Ok(t[itemId])
    ensures r.Ok? || r.NotFound?
  {
    if itemId !in t then NotFound else Ok(t[itemId])
  }

  /** The optional filters of the attribute query; `None` leaves a field
      unconstrained. */
  datatype Filter = Filter(name: Option<string>, price: Option<real>, count: Option<int>, category: Option<Category>)

  const NoFilter := Filter(None, None, None, None)

  /** Python's `all` over a finite sequence of booleans: true iff every
      element is true. */
  function All(bs: seq<bool>): (r: bool)
    ensures r <==> forall i :: 0 <= i < |bs| ==> bs[i]
  {
    if |bs| == 0 then true
    else
      assert forall i :: 1 <= i < |bs| ==> bs[i] == bs[1..][i - 1];
      bs[0] && All(bs[1..])
  }

  /** One test per filter, in the order name, price, count, category: each
      passes iff its filter is omitted or equals the item's field. */
  function Tests(f: Filter, item: Item): (r: seq<bool>)
    ensures |r| == 4
    ensures r[0] <==> (f.name.Some? ==> item.name == f.name.value)
    ensures r[1] <==> (f.price.Some? ==> item.price == f.price.value)
    ensures r[2] <==> (f.count.Some? ==> item.count == f.count.value)
    ensures r[3] <==> (f.category.Some? ==> item.category == f.category.value)
  {
    [
      f.name.None? || item.name == f.name.value,
      f.price.None? || item.price == f.price.value,
      f.count.None? || item.count == f.count.value,
      f.category.None? || item.category == f.category.value
    ]
  }

  /** The filter's tests combined with `all`: an item passes iff every
      supplied filter equals its field. */
  function CheckItem(f: Filter, item: Item): (r: bool)
    ensures r <==>
      && (f.name.Some? ==> item.name == f.name.value)
      && (f.price.Some? ==> item.price == f.price.value)
      && (f.count.Some? ==> item.count == f.count.value)
      && (f.category.Some? ==> item.category == f.category.value)
  {
    var bs := Tests(f, item);
    assert (forall i :: 0 <= i < |bs| ==> bs[i]) <==> bs[0] && bs[1] && bs[2] && bs[3];
    All(bs)
  }

  /** The items that pass the filter, keyed by their own ids. */
  function Selection(t: Table, f: Filter): (s: Table)
    requires KeyedById(t)
    ensures forall k :: k in s <==> k in t && CheckItem(f, t[k])
    ensures forall k :: k in s ==> s[k] == t[k]
    ensures KeyedById(s)
  {
    // ranges over the stored records and keys each one by its own id
    map k | k in t && CheckItem(f, t[k]) :: t[k].id := t[k]
  }

  /** Query by attributes: the selection, or NotFound when it is empty. */
  function QueryItemByParameters(t: Table, f: Filter): (r: Outcome<Table>)
    requires KeyedById(t)
    ensures r.NotFound? <==> forall k :: k in t ==> !CheckItem(f, t[k])
    ensures r.Ok? || r.NotFound?
    ensures r.Ok? ==> r.value == Selection(t, f) && |r.value| > 0
  {
    var s := Selection(t, f);
    if |s| == 0 then
      assert forall k :: k !in s;
      NotFound
    else
      assert exists k :: k in s;
      Ok(s)
  }

  /** With no filter at all, the query selects the whole table. */
  lemma NoFilterSelectsAll(t: Table)
    requires KeyedById(t)
    ensures Selection(t, NoFilter) == t
    ensures t != map[] ==> QueryItemByParameters(t, NoFilter) == Ok(t)
  {
  }

  /** On the seeded table, a name filter finds the one record with that
      name. */
  lemma SeedNameQuery()
    ensures QueryItemByParameters(SeedTable(), Filter(Some("Pliers"), None, None, None))
            == Ok(map[1 := SeedTable()[1]])
  {
    var t := SeedTable();
    var pliers := Filter(Some("Pliers"), None, None, None);
    assert t[0].name[0] != 'P' && t[2].name[0] != 'P';
    var s := Selection(t, pliers);
    assert s.Keys == {1};
    assert s == map[1 := t[1]];
  }

  /** On the seeded table, a name no record carries finds nothing. */
  lemma SeedNoMatch(n: string)
    requires n != "Drill Machine" && n != "Pliers" && n != "Nails"
    ensures QueryItemByParameters(SeedTable(), Filter(Some(n), None, None, None)) == NotFound
  {
  }

  /** On the seeded table, the category filter for tools finds exactly the
      two tools. */
  lemma SeedCategoryQuery()
    ensures QueryItemByParameters(SeedTable(), Filter(None, None, None, Some(Tools)))
            == Ok(map[0 := SeedTable()[0], 1 := SeedTable()[1]])
  {
    var t := SeedTable();
    var s := Selection(t, Filter(None, None, None, Some(Tools)));
    assert s.Keys == {0, 1};
    assert s == map[0 := t[0], 1 := t[1]];
  }

  // ---------------------------------------------------------------------
  // What the mutators do to the table

  /** The table after storing `item` under its id, whether or not the id
      was already there. */
  function Inserted(t: Table, item: Item): (u: Table)
    ensures u.Keys == t.Keys + {item.id}
    ensures u[item.id] == item
    ensures forall k :: k in t && k != item.id ==> u[k] == t[k]
    ensures |u| == if item.id in t then |t| else |t| + 1
    ensures KeyedById(t) ==> KeyedById(u)
  {
    t[item.id := item]
  }

  /** The table after removing `itemId`. */
  function Removed(t: Table, itemId: int): (u: Table)
    ensures u.Keys == t.Keys - {itemId}
    ensures forall k :: k in u ==> u[k] == t[k]
    ensures |u| == if itemId in t then |t| - 1 else |t|
    ensures KeyedById(t) ==> KeyedById(u)
  {
    t - {itemId}
  }

  /** A record with exactly the supplied fields among name, price and count
      overwritten. */
  function Patched(item: Item, name: Option<string>, price: Option<real>, count: Option<int>): (r: Item)
    ensures r.id == item.id && r.category == item.category
    ensures r.name == (if name.Some? then name.value else item.name)
    ensures r.price == (if price.Some? then price.value else item.price)
    ensures r.count == (if count.Some? then count.value else item.count)
  {
    var r := if name.Some? then item.(name := name.value) else item;
    var r := if price.Some? then r.(price := price.value) else r;
    if count.Some? then r.(count := count.value) else r
  }

  /** Getting by id right after an insert returns the inserted record;
      right after a removal, the id is not found. */
  lemma LookupAfterInsertOrRemove(t: Table, item: Item, itemId: int)
    ensures QueryItemById(Inserted(t, item), item.id) == Ok(item)
    ensures QueryItemById(Removed(t, itemId), itemId) == NotFound
  {
  }

  /** Removing an id that an insert just added gives back the old table. */
  lemma RemoveUndoesFreshInsert(t: Table, item: Item)
    requires item.id !in t
    ensures Removed(Inserted(t, item), item.id) == t
  {
  }

  /** Applying the same partial update twice is the same as applying it once. */
  lemma PatchIdempotent(item: Item, name: Option<string>, price: Option<real>, count: Option<int>)
    ensures Patched(Patched(item, name, price, count), name, price, count) == Patched(item, name, price, count)
  {
  }

  // ---------------------------------------------------------------------
  // The store

  class Store {
    /** The module-level table of the service. */
    var items: Table

    ghost predicate Valid()
      reads this
    {
      KeyedById(items)
    }

    /** The table as seeded at process start. */
    constructor ()
      ensures Valid() && items == SeedTable()
    {
      items := SeedTable();
    }

    /** Insert or overwrite. The duplicate-id guard of the service builds
        an error but never raises it, so this handler always succeeds and
        always stores the item. */
    method AddItem(item: Item) returns (r: Outcome<Item>)
      requires Valid()
      modifies this
      ensures Valid()
      ensures r == Ok(item)
      ensures items == Inserted(old(items), item)
    {
      // the guard `item.id in items` has no effect
      items := items[item.id := item];
      r := Ok(item);
    }

    /** Partial update of name, price and count. The missing-id guard is
        never raised either: with at least one field supplied, a missing id
        reaches the dictionary lookup and fails there. */
    method UpdateItem(itemId: int, name: Option<string>, price: Option<real>, count: Option<int>)
      returns (r: Outcome<Item>)
      requires Valid()
      modifies this
      ensures Valid()
      ensures name.None? && price.None? && count.None? ==> r == BadRequest
      ensures (name.Some? || price.Some? || count.Some?) && itemId !in old(items) ==> r == KeyFault
      ensures !r.Ok? ==> items == old(items)
      ensures r.Ok? <==> (name.Some? || price.Some? || count.Some?) && itemId in old(items)
      ensures r.Ok? ==> r.value == Patched(old(items)[itemId], name, price, count)
      ensures r.Ok? ==> items == old(items)[itemId := r.value]
    {
      // the guard `itemId !in items` has no effect
      var omitted := [name.None?, price.None?, count.None?];
      assert All(omitted) <==> omitted[0] && omitted[1] && omitted[2];
      if All(omitted) {
        return BadRequest;
      }
      if itemId !in items {
        return KeyFault;
      }
      var item := items[itemId];
      if name.Some? {
        item := item.(name := name.value);
      }
      if price.Some? {
        item := item.(price := price.value);
      }
      if count.Some? {
        item := item.(count := count.value);
      }
      items := items[itemId := item];
      r := Ok(item);
    }

    /** Remove by id, answering the removed record. */
    method DeleteItem(itemId: int) returns (r: Outcome<Item>)
      requires Valid()
      modifies this
      ensures Valid()
      ensures itemId !in old(items) ==> r == NotFound && items == old(items)
      ensures itemId in old(items) ==> r == Ok(old(items)[itemId]) && items == Removed(old(items), itemId)
    {
      if itemId !in items {
        return NotFound;
      }
      r := Ok(items[itemId]);
      items := items - {itemId};
    }
  }
}
