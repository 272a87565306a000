/** A client of the store that uses nothing but the operations' contracts,
    the way the list view drives them: create a list, add an item to it,
    fetch it, mark the item bought and fetch it again. */
module Scenarios {
  import opened Wrappers
  import opened Strings
  import opened Lista
  import opened Aggregation
  import opened Database

  lemma NamesAreNotBlank()
    ensures !IsBlank("Groceries") && !IsBlank("Milk")
  {
    assert TrimStart("Groceries") == "Groceries";
    assert TrimStart("Milk") == "Milk";
  }

  lemma SingletonTotal(x: Item)
    ensures SetTotal({x}) == Cost(x)
  {
    assert SetSum({x}, Cost) == Cost(x) + SetSum({x} - {x}, Cost);
  }

  /** A sequence that enumerates a one-element set is that element alone. */
  lemma SingletonEnumeration<T>(q: seq<T>, x: T)
    requires multiset(q) == multiset({x})
    ensures q == [x]
  {
    assert multiset({x}) == multiset{x};
    assert |q| == |multiset(q)| == 1;
    assert q[0] in multiset(q);
  }

  lemma OneList(db: SqliteConnector, k: nat, row: ListaRow)
    requires db.listas == map[k := row]
    ensures db.SummariesAmong(db.listas.Keys) == {Summary(k, row)}
  {
    assert k in db.listas.Keys && db.listas[k] == row;
    assert Summary(k, row) in db.SummariesAmong(db.listas.Keys);
    forall x | x in db.SummariesAmong(db.listas.Keys) ensures x == Summary(k, row) {
      var j :| j in db.listas && x == Summary(j, db.listas[j]);
    }
  }

  lemma OneItem(db: SqliteConnector, id: nat, k: nat, row: ItemRow)
    requires db.items == map[k := row] && row.idLista == id
    ensures db.ItemsOf(id) == {RowItem(k, id, row)}
  {
    assert k in db.items.Keys && db.items[k] == row;
    assert RowItem(k, id, row) in db.ItemsOf(id);
    forall x | x in db.ItemsOf(id) ensures x == RowItem(k, id, row) {
      var j :| j in db.items && db.items[j].idLista == id && x == RowItem(j, id, db.items[j]);
    }
  }

  /** The blank card the view shows for a new item can be stored either way
      round without effect: creating it and updating with it both leave the
      store as it was, because its name is blank. */
  method StoreDefaultItem(db: SqliteConnector, idLista: nat)
    requires db.Valid()
    modifies db
    ensures db.listas == old(db.listas) && db.items == old(db.items)
  {
    DefaultItemIsUnsavedAndBlank();
    ghost var created := db.CreateNewListItem(idLista, DefaultItem());
    db.UpdateListItem(DefaultItem());
  }

  /** A fresh, empty store gets the list "Groceries"; the list of lists
      then shows it, and its id is the one the UI navigates to. */
  method CreateGroceries() returns (db: SqliteConnector, id: nat)
    ensures fresh(db) && db.Valid()
    ensures db.listas == map[id := ListaRow("Groceries", 0)] && db.items == map[]
  {
    db := new SqliteConnector(map[], map[]);
    NamesAreNotBlank();
    ghost var created := db.CreateNewList("Groceries");
    var lists := db.GetListOfLists();
    OneList(db, created.value, ListaRow("Groceries", 0));
    SingletonEnumeration(lists, Summary(created.value, ListaRow("Groceries", 0)));
    id := lists[0].id;
  }

  /** "Milk" is added to the list and the list is fetched. */
  method AddMilk(db: SqliteConnector, id: nat) returns (shown: Item, total: real, ghost milkId: nat)
    requires db.Valid()
    requires db.listas == map[id := ListaRow("Groceries", 0)] && db.items == map[]
    modifies db
    ensures db.Valid() && db.listas == old(db.listas)
    ensures db.items == map[milkId := NewItemRow(id, Item(0, 0, "Milk", "unidad", 1.0, 0.0, 2.5))]
    ensures shown == RowItem(milkId, id, db.items[milkId])
    ensures total == 0.0
  {
    var milk := Item(0, 0, "Milk", "unidad", 1.0, 0.0, 2.5);
    NamesAreNotBlank();
    ghost var created := db.CreateNewListItem(id, milk);
    milkId := created.value;
    ghost var stored := RowItem(milkId, id, NewItemRow(id, milk));
    OneItem(db, id, milkId, NewItemRow(id, milk));
    SingletonTotal(stored);
    var fetched := db.GetList(id);
    var items := fetched.value.items.value;
    SingletonEnumeration(items, stored);
    shown := items[0];
    total := fetched.value.total;
  }

  /** One unit of the shown item is marked bought and the list is fetched. */
  method BuyOne(db: SqliteConnector, id: nat, shown: Item, ghost milkId: nat)
    returns (again: Item, total: real)
    requires db.Valid()
    requires id in db.listas && shown.id == milkId && shown.idLista == id && !IsBlank(shown.nombre)
    requires db.items == map[milkId := NewItemRow(id, shown)]
    modifies db
    ensures again == shown.(cantidadComprada := 1.0)
    ensures total == 1.0 * shown.precio
  {
    var bought := shown.(cantidadComprada := 1.0);
    db.UpdateListItem(bought);
    ghost var updated := RowItem(milkId, id, NewItemRow(id, bought));
    OneItem(db, id, milkId, NewItemRow(id, bought));
    SingletonTotal(updated);
    var fetched := db.GetList(id);
    var items := fetched.value.items.value;
    SingletonEnumeration(items, updated);
    again := items[0];
    total := fetched.value.total;
  }

  /** Starting from an empty store: list "Groceries" with "Milk" (1 unit at
      2.50, nothing bought yet) totals 0 with Milk still to buy; after one
      unit is marked bought it totals 2.50 and Milk is in the bought group. */
  method GroceriesScenario() returns (before: real, after: real, boughtBefore: bool, boughtAfter: bool)
    ensures before == 0.0 && !boughtBefore
    ensures after == 2.5 && boughtAfter
  {
    var db, id := CreateGroceries();
    var shown, total, milkId := AddMilk(db, id);
    before := total;
    boughtBefore := !Unpurchased(shown);
    NamesAreNotBlank();
    var again, total2 := BuyOne(db, id, shown, milkId);
    after := total2;
    boughtAfter := !Unpurchased(again);
  }
}
