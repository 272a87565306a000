# Shopping-list persistence core, in Dafny

This project models the persistence and aggregation layer of a personal
shopping-list manager. Users keep named lists (`Lista`), and each list holds
items (`Item`). An item has a name, a unit, a required quantity, a purchased
quantity (`cantidad_comprada`) and a unit price (`precio`). The layer is
`SQLiteConnector`, which implements the `DBConnector` operations. It stores
both tables, and when one list is fetched it returns the items in display
order (items still to buy first, then bought ones, each group by name)
together with the total spent. The project also models the conversion of a
submitted item form into an item, with its parse-or-zero policy, and the
view's rule that routes item id 0 to "create" and any other id to
"update".

The store is abstract: `listas` maps a row id to (nombre, modo_simple), and
`items` maps a row id to (id_lista, nombre, unidad, cantidad_requerida,
cantidad_comprada, precio). Each write is a method on the class
`Database.SqliteConnector` that changes these maps exactly as its SQL
statement does. Its contract states the whole new state. The only reads are
`GetListOfLists` and `GetList`. Quantities and prices are exact `real`s.
Ids are `nat`s. Row id 0 never occurs in the store (`Valid`).

Files and modules:

- `wrappers.dfy` (`Wrappers`): `Option` and `Result`.
- `strings.dfy` (`Strings`): Rust's `str::trim` and whitespace set, the blank-name test, and `String::cmp` as lexicographic order on scalar values, with its order laws.
- `sorting.dfy` (`Sorting`): `slice::sort_by` as an in-place insertion sort for any total preorder.
- `lista.dfy` (`Lista`): the records, `Item::default`, and `ItemForm::into_item`.
- `aggregation.dfy` (`Aggregation`): the comparator as written and as intended, the display order, and the total as a left fold, with reference definitions.
- `database.dfy` (`Database`): the store class and its operations.
- `lista_view.dfy` (`ListaView`): the create-vs-update routing of an item card.
- `scenarios.dfy` (`Scenarios`): a client that uses only the contracts. It creates "Groceries", adds "Milk", fetches the list, marks Milk bought and fetches it again.

Modelling choices:

- `get_list` on an id that names no list panics in the code (`unwrap`, src/model/database.rs:160). The model returns `Failure(NotFound)` there, and the contract states that this happens exactly when the id is absent.
- New row ids follow SQLite's rule for an `INTEGER PRIMARY KEY` without AUTOINCREMENT: one more than the largest id in use. The contract promises only that the id is nonzero, unused and above every id in use. It does not promise that ids are never reused: deleting the row with the largest id frees that id for the next insert.
- The write methods return the new row's id as a ghost out-parameter. The code returns `()`. The id is there only so the contracts can name the row.
- `create_new_list_item` does not check that its `id_lista` names a list. So `Referential` (every item belongs to a stored list) is preserved by every write except that one, which preserves it only when the list exists.
- The comparator the code hands to `sort_by` breaks the total-order contract that `sort_by` states (see Findings). The model sorts with the intended comparator `ItemCmp`: group first, then name. The two comparators answer `Less` on exactly the same pairs (`Aggregation.SourceItemCmpSameLess`). A sort that only asks whether one item is less than another therefore gives the same display order with either.
- Names ascend within a group. So unbought Bread and Carrots with bought Apples display as Bread, Carrots, Apples (`Aggregation.DisplayOrderExample`).
- The code does not promise that list ids are never reused or that every item references an existing list. Store failures are not modelled, so the two deletes of `delete_list` are one step here.

## Model

| member | source | states |
|---|---|---|
| `Strings.TrimStart` | src/model/database.rs:104 | `str::trim`'s first half: the result is a suffix of the input, it does not start with whitespace, and only whitespace was dropped |
| `Strings.TrimEnd` | src/model/database.rs:104 | `str::trim`'s second half: the result is a prefix of the input, it does not end with whitespace, and only whitespace was dropped |
| `Strings.BlankIffAllWhitespace` | src/model/database.rs:104 | a name fails the `trim().is_empty()` guard iff every character is whitespace (so the empty name is blank) |
| `Strings.CompareFlip` | src/model/database.rs:190 | name comparison is antisymmetric: swapping the arguments flips the answer |
| `Strings.CompareEqualIff` | src/model/database.rs:190 | name comparison answers `Equal` exactly for equal names |
| `Strings.NameLeTransitive` | src/model/database.rs:190 | the name order is transitive |
| `Strings.NameLeTotal` | src/model/database.rs:190 | the name order is total |
| `Sorting.SortBy` | src/model/database.rs:186 | an in-place sort under any total preorder: the array ends up ordered, and it holds the same multiset of elements as before |
| `Lista.DefaultItemIsUnsavedAndBlank` | src/model/lista.rs:23-34 | the default item has id 0, id_lista 0, a blank name, unidad "unidad", required 1.0, bought 0.0 and price 0.0 |
| `Lista.IntoItemCopiesText` | src/model/lista.rs:53-54 | `into_item` copies nombre and unidad verbatim |
| `Lista.IntoItemParseOrZero` | src/model/lista.rs:51-61 | each numeric field is the parsed value when its text parses and 0 when it does not, so an unparsable id gives the "new item" id 0 |
| `Lista.IntoItemAbsentPurchasedIsZero` | src/model/lista.rs:56-60 | an absent purchased quantity becomes 0.0 |
| `Aggregation.SourceItemCmpIsInconsistent` | src/model/database.rs:186-197 | the comparator as written says Less for (unbought, bought) but Equal, not Greater, for (bought, unbought) |
| `Aggregation.SourceItemCmpCounterexample` | src/model/database.rs:192-196 | there are two items on which the written comparator is not antisymmetric |
| `Aggregation.ItemCmpRepairsSource` | src/model/database.rs:186-197 | the intended comparator agrees with the written one except on (bought, unbought), where it answers Greater |
| `Aggregation.SourceItemCmpSameLess` | src/model/database.rs:186-197 | the written and the intended comparator answer `Less` on exactly the same pairs, so the display order is the same |
| `Aggregation.ItemCmpFlip` | src/model/database.rs:186-197 | the intended comparator is antisymmetric |
| `Aggregation.ItemLeIsTotalPreorder` | src/model/database.rs:186-197 | the intended comparator is a total preorder, as `sort_by` requires |
| `Aggregation.SortedIsDisplayOrder` | src/model/database.rs:186-197 | a sequence is sorted by the intended comparator iff every item with `cantidad_comprada < 0.001` comes before every bought item and names are non-decreasing within each group |
| `Aggregation.DisplayOrderExample` | src/model/database.rs:186-197 | with Bread and Carrots unbought and Apples bought, Bread, Carrots, Apples is the display order and Carrots, Bread, Apples is not |
| `Aggregation.FoldIsSum` | src/model/database.rs:199-204 | the left fold of `cantidad_comprada * precio` from `acc` is `acc` plus the sum of the costs |
| `Aggregation.SumPermutation` | src/model/database.rs:199-204 | the sum of the costs is the same for any reordering of the items |
| `Aggregation.SumOfEnumeration` | src/model/database.rs:199-204 | any sequence that lists a set of items once each sums to that set's total |
| `Database.NextRowId` | src/model/database.rs:35-39 | a new row id is nonzero, not in use, and greater than every id in use |
| `Database.NameOrderIsTotalPreorder` | src/model/database.rs:132 | ordering lists by name is a total preorder |
| `Database.SetTotalOfUnbought` | src/model/database.rs:237-243 | items that have bought nothing total 0 |
| `Database.SqliteConnector.constructor` | src/model/database.rs:31-67 | the store opens on the tables held in the database file |
| `Database.SqliteConnector.CreateNewList` | src/model/database.rs:103-111 | a blank name leaves both tables unchanged; otherwise exactly one list is added, under a fresh nonzero id, with that name and modo_simple 0, and items is untouched |
| `Database.SqliteConnector.UpdateList` | src/model/database.rs:113-127 | a blank name or an absent id changes nothing; otherwise only that list gets the new name and flag; items is untouched |
| `Database.SqliteConnector.SelectListas` | src/model/database.rs:130-148 | the rows read back are every list once, each made into an entry with no items, a zero total, and simple mode iff the flag is 1 |
| `Database.SqliteConnector.GetListOfLists` | src/model/database.rs:129-150 | every list exactly once, ordered by name; each entry has `items = None`, `total = 0`, and `modo_simple` true iff the stored flag is 1 |
| `Database.SqliteConnector.SelectItems` | src/model/database.rs:168-185 | the rows read back are exactly the items stored under that list id, each once, with `id_lista` set to that id |
| `Database.SqliteConnector.GetList` | src/model/database.rs:152-206 | `NotFound` iff the id names no list; otherwise the list's name and flag, and its items: exactly its stored rows once each (a permutation), with unbought before bought and names ascending in each group; the total is the sum of `cantidad_comprada * precio` over the stored rows, so it does not depend on their order |
| `Database.SqliteConnector.DeleteList` | src/model/database.rs:208-214 | afterwards no list has that id and no item has that id_lista; every other list and item is unchanged |
| `Database.SqliteConnector.CreateNewListItem` | src/model/database.rs:217-222 | a blank name stores nothing; otherwise exactly one new row under a fresh nonzero id, in the `id_lista` argument, whatever the item's own id and id_lista say; lists untouched |
| `Database.SqliteConnector.UpdateListItem` | src/model/database.rs:224-229 | a blank name or an absent id changes nothing; otherwise row `item.id` gets nombre, unidad, both quantities and precio, and keeps its id_lista |
| `Database.SqliteConnector.DeleteItem` | src/model/database.rs:231-235 | that row goes, if there is one; nothing else changes |
| `Database.SqliteConnector.ClearListItems` | src/model/database.rs:237-243 | that list's items get `cantidad_comprada = 0` and no other field or row changes; its total becomes 0 |
| `Scenarios.StoreDefaultItem` | src/model/lista.rs:23-34 | storing the default item unchanged is a no-op: creating it and then updating with it leaves both tables as they were |
| `ListaView.HandleChange` | src/views/lista.rs:84-91 | the form becomes an item; id 0 creates it in the form's list and any other id updates that row (a blank name stores nothing either way) |
| `Scenarios.GroceriesScenario` | src/model/database.rs:152-229 | from an empty store, list "Groceries" with "Milk" at 2.50 totals 0 with Milk unbought; after one unit is bought it totals 2.50 and Milk is in the bought group |

## Findings

| source | as written | input that shows it | evidently intended | confidence | as-written member | corrected member |
|---|---|---|---|---|---|---|
| src/model/database.rs:192-196 | the `sort_by` comparator returns `Equal` when `a` is bought and `b` is not | `a` = "Leche" with `cantidad_comprada` 1.0 and `b` = "Pan" with 0.0: `cmp(b, a)` is `Less` but `cmp(a, b)` is `Equal`, so the comparator is not a total order, which `sort_by` requires; the display order is not affected, since both comparators give the same `Less` answers | `Greater` in that case: group first, then name | not executed | `Aggregation.SourceItemCmpCounterexample` | `Aggregation.ItemLeIsTotalPreorder` |

## Left out

- Store failures: the `?` on every statement and the `unwrap`s inside `get_list` and `get_list_of_lists` are not modelled. Every operation other than `get_list` on a missing id succeeds here.
- Opening the database, the WAL pragma, and the two schema migrations (src/model/database.rs:31-67) are not modelled. They are storage-engine behaviour. The constructor takes the tables the file holds.
- `get_db_path`, with its Android JNI and channel code (src/model/database.rs:69-99), is not modelled. It is platform I/O.
- `f32` arithmetic is not modelled. Quantities and prices are exact reals, so the fold has no rounding.
- `usize` bounds and SQLite's 64-bit rowid limit are not modelled. Ids are unbounded naturals.
- The concrete behaviour of `str::parse` for `usize` and `f32` is not modelled. The parsers are function parameters that return `Option`.
- SQLite's `ORDER BY nombre` is modelled as lexicographic order on scalar values, which is SQLite's default BINARY collation of UTF-8 text. The order among lists with equal names is left open.
- Sorting.SortBy: it does not state that the sort is stable, which `sort_by` is. No property of the model depends on stability.
- The UI is not modelled: rendering, signals, routing, i18n, styling, and the `thread_local` connection (src/main.rs:22).
