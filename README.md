# Inventory item store

A Dafny model of the in-memory item store behind a small inventory HTTP
service. The store is a table from integer ids to item records (name,
price, count, id, category). It is seeded with three records and served by
six handlers: list all, get by id, filter by attributes, insert or
overwrite, partial update and remove.

`inventory.dfy` holds one module, `Inventory`:

- `Category`, `Item`, `Filter` and `Outcome` are datatypes. `Outcome` is
  either `Ok(value)` or one of the failures the handlers produce:
  `NotFound` (404), `BadRequest` (400) and `KeyFault`, the uncaught
  dictionary lookup error of the update handler.
- The three readers are pure functions of the table (`Index`,
  `QueryItemById`, `QueryItemByParameters` with `CheckItem` and
  `Selection`).
- The table lives in the class `Store` as the field `items`. Its three
  mutators (`AddItem`, `UpdateItem`, `DeleteItem`) are methods that
  reassign that field. `Store.Valid()` is the store invariant `KeyedById`:
  every key maps to the item whose id it is. The seed satisfies it and
  every mutator keeps it.
- `Inserted`, `Removed` and `Patched` say what the mutators do to the table
  and to a record. The lemmas relating several operations are stated over
  them.

Two guards in the source build an HTTP error and never raise it. The model
keeps that behaviour:

- Insert never fails. A record with an existing id overwrites the old one
  (main.py:71-74).
- Update on a missing id passes the inert 404 guard (main.py:86-87). It then
  fails with `BadRequest` if no field was supplied, and otherwise with
  `KeyFault` at the lookup on main.py:92. It never fails with `NotFound`.

## Model

| member | source | states |
|---|---|---|
| `Inventory.SeedTable` | main.py:18-22 | the seed holds exactly ids 0, 1 and 2, each under its own id, two tools and one consumable |
| `Inventory.Store.constructor` | main.py:18-22 | a new store holds the seed table and satisfies the store invariant |
| `Inventory.Index` | main.py:25-28 | list all returns every (key, item) pair of the table: same key set, same size, same item under each key |
| `Inventory.QueryItemById` | main.py:31-35 | NotFound exactly when the id is not a key; otherwise exactly the stored item; no other outcome |
| `Inventory.All` | main.py:48 | Python's `all` over a sequence of booleans holds iff every element holds |
| `Inventory.Tests` | main.py:49-54 | four tests in the order name, price, count, category; each passes iff its filter is omitted or equals the item's field |
| `Inventory.CheckItem` | main.py:47-55 | an item passes the filter iff every supplied filter equals the corresponding field (logical AND) |
| `Inventory.Selection` | main.py:58 | a key is selected iff it is in the table and its item passes the filter; each selected key maps to the stored item; the selection is keyed by id |
| `Inventory.QueryItemByParameters` | main.py:58-61 | NotFound iff no stored item passes the filter; otherwise the non-empty selection; no other outcome |
| `Inventory.NoFilterSelectsAll` | main.py:47-61 | with all four filters omitted the selection is the whole table, and a non-empty table is returned whole |
| `Inventory.SeedNameQuery` | main.py:47-61 | on the seed, filtering by name "Pliers" returns exactly record 1 |
| `Inventory.SeedNoMatch` | main.py:58-61 | on the seed, filtering by a name no record has fails with NotFound |
| `Inventory.SeedCategoryQuery` | main.py:53-61 | on the seed, filtering by category tools answers exactly records 0 and 1 |
| `Inventory.Inserted` | main.py:74 | storing an item puts it under its id and keeps every other entry; the size grows by one iff the id was absent; the store invariant is preserved |
| `Inventory.Store.AddItem` | main.py:68-75 | always succeeds and returns the item, whether or not the id existed; the new table is the old one with the item stored under its id |
| `Inventory.Patched` | main.py:94-99 | exactly the supplied fields among name, price and count are overwritten; omitted fields, id and category are kept |
| `Inventory.PatchIdempotent` | main.py:94-99 | applying the same partial update twice gives the same record as applying it once |
| `Inventory.Store.UpdateItem` | main.py:78-101 | BadRequest when no field is supplied (checked first); otherwise KeyFault when the id is absent; the table is unchanged on both failures; on success the stored record is replaced by the patched one, every other entry is kept, and the patched record is returned |
| `Inventory.Removed` | main.py:110 | removing an id drops exactly that key and keeps every other entry; the size drops by one iff the id was present; the store invariant is preserved |
| `Inventory.Store.DeleteItem` | main.py:104-111 | NotFound and an unchanged table when the id is absent; otherwise returns the previously stored item and removes exactly that key |
| `Inventory.LookupAfterInsertOrRemove` | main.py:31-35 | get by id right after an insert returns the inserted item; right after a removal of that id it is NotFound |
| `Inventory.RemoveUndoesFreshInsert` | main.py:74-110 | removing the id of an item just inserted under a fresh id restores the previous table |

## Left out

- HTTP routing, decorators, status codes and JSON serialisation: the handlers' outcomes are `Outcome` constructors instead.
- Input validation and parsing of the request (category strings, number formats): the web framework does them before a handler runs.
- The `.dict()` conversions at main.py:28, 35 and 58 turn a record into its field dictionary for the response. The model returns the `Item` record itself.
- The echoed query in the filter response, the `"added"`/`"Updated item"`/`"Deleted item"` wrappers and the error messages: presentation only.
- Floating-point semantics of `price` (NaN, rounding): the source only compares prices for equality and assigns them, so `price` is an exact `real`.
- In-place mutation of the stored record by the update handler: the model replaces the stored record with the patched one. The store owns its records exclusively and no caller keeps a reference, so the observable effect is the same.
- Insertion order of the table: order only matters for the order in which list all (main.py:28) and the filter (main.py:58) list their entries; the model's results are unordered maps. So the model does not capture that deleting an id and adding it again moves it to the end of those listings, while overwriting it keeps its place.
- `Selection` and `QueryItemByParameters` require the store invariant `KeyedById`. The source keys the selection by each item's own id; on a table where two items shared an id, the later one would win. The model's map comprehension needs the invariant to be well defined, and the store never reaches a table that breaks it: the seed satisfies it and every mutator keeps it.
- Concurrency between requests: the framework may run these plain-`def` handlers on several threads at once, and the source takes no lock. The model treats each handler as one atomic step. It does not capture interleavings, for example a delete between main.py:89 and main.py:92.
