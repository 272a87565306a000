/** `SQLiteConnector`, the implementation of the `DBConnector` operations
    (src/model/database.rs:101-244), over an abstract store: the table
    `listas` maps a row id to (nombre, modo_simple) and the table `items`
    maps a row id to (id_lista, nombre, unidad, cantidad_requerida,
    cantidad_comprada, precio). Each write method changes the tables exactly
    as its SQL statement does. */
module Database {
  import opened Wrappers
  import opened Strings
  import opened Sorting
  import opened Lista
  import opened Aggregation

  datatype ListaRow = ListaRow(nombre: string, modoSimple: nat)

  datatype ItemRow = ItemRow(
    idLista: nat,
    nombre: string,
    unidad: string,
    cantidadRequerida: real,
    cantidadComprada: real,
    precio: real)

  /** `get_list` on an id that names no list. */
  datatype DbError = NotFound

  /** The row id SQLite gives an inserted row of a table whose key is an
      `INTEGER PRIMARY KEY` without AUTOINCREMENT: one more than the largest
      id in use, or 1 for an empty table. It is never 0 and never in use,
      but an id freed by deleting the largest row is handed out again. */
  method NextRowId(used: set<nat>) returns (id: nat)
    ensures 0 < id && id !in used
    ensures forall k :: k in used ==> k < id
  {
    id := 1;
    var rest := used;
    ghost var seen: set<nat> := {};
    while rest != {}
      invariant seen + rest == used
      invariant 0 < id
      invariant forall k :: k in seen ==> k < id
      decreases |rest|
    {
      var k :| k in rest;
      if id <= k {
        id := k + 1;
      }
      rest := rest - {k};
      seen := seen + {k};
    }
  }

  /** The row `create_new_list_item` inserts for `item` under `idLista`. */
  function NewItemRow(idLista: nat, item: Item): ItemRow {
    ItemRow(idLista, item.nombre, item.unidad, item.cantidadRequerida,
            item.cantidadComprada, item.precio)
  }

  /** The item `get_list` builds from row `id` of list `idLista`. */
  function RowItem(id: nat, idLista: nat, row: ItemRow): Item {
    Item(id, idLista, row.nombre, row.unidad, row.cantidadRequerida,
         row.cantidadComprada, row.precio)
  }

  /** The entry `get_list_of_lists` builds from row `id`: no items, a zero
      total, and simple mode exactly when the stored flag is 1. */
  function Summary(id: nat, row: ListaRow): Lista {
    Lista(id, row.nombre, None, 0.0, row.modoSimple == 1)
  }

  predicate NameOrder(a: Lista, b: Lista) {
    NameLe(a.nombre, b.nombre)
  }

  lemma NameOrderIsTotalPreorder()
    ensures TotalPreorder(NameOrder)
  {
    forall x, y ensures NameOrder(x, y) || NameOrder(y, x) {
      NameLeTotal(x.nombre, y.nombre);
    }
    forall x, y, z | NameOrder(x, y) && NameOrder(y, z) ensures NameOrder(x, z) {
      NameLeTransitive(x.nombre, y.nombre, z.nombre);
    }
  }

  lemma MultisetAddFresh<T>(s: set<T>, x: T)
    requires x !in s
    ensures multiset(s + {x}) == multiset(s) + multiset{x}
  {
  }

  /** After a list's items are cleared nothing of it has been spent. */
  lemma {:induction false} SetTotalOfUnbought(s: set<Item>)
    requires forall it :: it in s ==> it.cantidadComprada == 0.0
    ensures SetTotal(s) == 0.0
    decreases |s|
  {
    if s != {} {
      var x :| x in s && SetSum(s, Cost) == Cost(x) + SetSum(s - {x}, Cost);
      assert Cost(x) == 0.0 * x.precio == 0.0;
      SetTotalOfUnbought(s - {x});
    }
  }

  class SqliteConnector {
    var listas: map<nat, ListaRow>
    var items: map<nat, ItemRow>

    /** Row id 0 is never stored: an item with id 0 is one not yet saved. */
    ghost predicate Valid()
      reads this
    {
      0 !in listas && 0 !in items
    }

    /** Every item belongs to a stored list. No write breaks this, except
        `CreateNewListItem` under an id that names no list: the code does not
        check it. */
    ghost predicate Referential()
      reads this
    {
      forall k :: k in items ==> items[k].idLista in listas
    }

    /** The items of list `idLista` among the rows keyed by `keys`, as
        `get_list` builds them. */
    ghost function ItemsAmong(keys: set<nat>, idLista: nat): set<Item>
      reads this
    {
      set k | k in keys && k in items && items[k].idLista == idLista ::
        RowItem(k, idLista, items[k])
    }

    ghost function ItemsOf(idLista: nat): set<Item>
      reads this
    {
      ItemsAmong(items.Keys, idLista)
    }

    ghost function SummariesAmong(keys: set<nat>): set<Lista>
      reads this
    {
      set k | k in keys && k in listas :: Summary(k, listas[k])
    }

    lemma SummariesAmongStep(done: set<nat>, k: nat)
      requires k in listas && k !in done
      ensures multiset(SummariesAmong(done + {k}))
        == multiset(SummariesAmong(done)) + multiset{Summary(k, listas[k])}
    {
      var entry := Summary(k, listas[k]);
      assert SummariesAmong(done + {k}) == SummariesAmong(done) + {entry};
      MultisetAddFresh(SummariesAmong(done), entry);
    }

    lemma ItemsAmongStep(done: set<nat>, k: nat, idLista: nat)
      requires k in items && k !in done
      ensures items[k].idLista == idLista ==>
        multiset(ItemsAmong(done + {k}, idLista))
          == multiset(ItemsAmong(done, idLista)) + multiset{RowItem(k, idLista, items[k])}
      ensures items[k].idLista != idLista ==>
        ItemsAmong(done + {k}, idLista) == ItemsAmong(done, idLista)
    {
      if items[k].idLista == idLista {
        var it := RowItem(k, idLista, items[k]);
        assert ItemsAmong(done + {k}, idLista) == ItemsAmong(done, idLista) + {it};
        MultisetAddFresh(ItemsAmong(done, idLista), it);
      }
    }

    /** The store held in the database file that is opened; the schema
        migrations and the file itself are not modelled. */
    constructor (listas0: map<nat, ListaRow>, items0: map<nat, ItemRow>)
      requires 0 !in listas0 && 0 !in items0
      ensures Valid()
      ensures listas == listas0 && items == items0
    {
      listas := listas0;
      items := items0;
    }

    /** `create_new_list`: a blank name stores nothing; otherwise one new
        list with that name and simple mode off, under a fresh id. */
    method CreateNewList(nombre: string) returns (ghost created: Option<nat>)
      requires Valid()
      modifies this
      ensures Valid() && items == old(items)
      ensures IsBlank(nombre) ==> created == None && listas == old(listas)
      ensures !IsBlank(nombre) ==>
        && created.Some? && created.value != 0 && created.value !in old(listas)
        && listas == old(listas)[created.value := ListaRow(nombre, 0)]
      ensures old(Referential()) ==> Referential()
    {
      created := None;
      if !IsBlank(nombre) {
        var id := NextRowId(listas.Keys);
        listas := listas[id := ListaRow(nombre, 0)];
        created := Some(id);
      }
    }

    /** `update_list`: a blank name, or an id that names no list, changes
        nothing (and is not an error); otherwise that list alone gets the new
        name and flag. */
    method UpdateList(id: nat, nombre: string, modoSimple: nat)
      requires Valid()
      modifies this
      ensures Valid() && items == old(items)
      ensures IsBlank(nombre) || id !in old(listas) ==> listas == old(listas)
      ensures !IsBlank(nombre) && id in old(listas) ==>
        listas == old(listas)[id := ListaRow(nombre, modoSimple)]
      ensures old(Referential()) ==> Referential()
    {
      if !IsBlank(nombre) && id in listas {
        listas := listas[id := ListaRow(nombre, modoSimple)];
      }
    }

    /** The `SELECT ... FROM listas` of `get_list_of_lists`: every list once,
        in whatever order the store yields them. */
    method SelectListas() returns (rows: seq<Lista>)
      ensures multiset(rows) == multiset(SummariesAmong(listas.Keys))
    {
      rows := [];
      var rest := listas.Keys;
      ghost var done: set<nat> := {};
      while rest != {}
        invariant rest <= listas.Keys && done == listas.Keys - rest
        invariant multiset(rows) == multiset(SummariesAmong(done))
        decreases |rest|
      {
        var k :| k in rest;
        var entry := Summary(k, listas[k]);
        SummariesAmongStep(done, k);
        rows := rows + [entry];
        rest := rest - {k};
        done := done + {k};
      }
    }

    /** `get_list_of_lists`: every list exactly once, ordered by name, each
        without items, with a zero total and with simple mode on exactly when
        its stored flag is 1. */
    method GetListOfLists() returns (r: seq<Lista>)
      ensures multiset(r) == multiset(SummariesAmong(listas.Keys))
      ensures SortedBy(r, NameOrder)
      ensures forall i :: 0 <= i < |r| ==>
        && r[i].id in listas
        && r[i].nombre == listas[r[i].id].nombre
        && r[i].items == None && r[i].total == 0.0
        && r[i].modoSimple == (listas[r[i].id].modoSimple == 1)
    {
      var rows := SelectListas();
      var a := new Lista[|rows|](i requires 0 <= i < |rows| => rows[i]);
      assert a[..] == rows;
      NameOrderIsTotalPreorder();
      SortBy(a, NameOrder);
      r := a[..];
      forall i | 0 <= i < |r|
        ensures r[i] in SummariesAmong(listas.Keys)
      {
        assert r[i] in multiset(r);
      }
    }

    /** The `SELECT ... FROM items WHERE id_lista = ?` of `get_list`: the
        list's items once each, in whatever order the store yields them. */
    method SelectItems(idLista: nat) returns (rows: seq<Item>)
      ensures multiset(rows) == multiset(ItemsOf(idLista))
    {
      rows := [];
      var rest := items.Keys;
      ghost var done: set<nat> := {};
      while rest != {}
        invariant rest <= items.Keys && done == items.Keys - rest
        invariant multiset(rows) == multiset(ItemsAmong(done, idLista))
        decreases |rest|
      {
        var k :| k in rest;
        ItemsAmongStep(done, k, idLista);
        if items[k].idLista == idLista {
          rows := rows + [RowItem(k, idLista, items[k])];
        }
        rest := rest - {k};
        done := done + {k};
      }
    }

    /** `get_list`: fails with `NotFound` exactly when no list has that id
        (the code panics there). Otherwise the list with its items: exactly
        the rows stored under that id, each once, unbought ones first and each
        group by name, and the total spent over them, which depends only on
        the stored rows and not on their order. */
    method GetList(idLista: nat) returns (r: Result<Lista, DbError>)
      ensures r.Failure? <==> idLista !in listas
      ensures r.Failure? ==> r.error == NotFound
      ensures r.Success? ==>
        && r.value.id == idLista
        && r.value.nombre == listas[idLista].nombre
        && r.value.modoSimple == (listas[idLista].modoSimple == 1)
        && r.value.items.Some?
        && multiset(r.value.items.value) == multiset(ItemsOf(idLista))
        && DisplayOrder(r.value.items.value)
        && r.value.total == SetTotal(ItemsOf(idLista))
      ensures r.Success? ==> forall i :: 0 <= i < |r.value.items.value| ==>
        var it := r.value.items.value[i];
        && it.idLista == idLista
        && it.id in items && items[it.id].idLista == idLista
        && it == RowItem(it.id, idLista, items[it.id])
    {
      if idLista !in listas {
        return Failure(NotFound);
      }
      var row := listas[idLista];
      var rows := SelectItems(idLista);
      var a := new Item[|rows|](i requires 0 <= i < |rows| => rows[i]);
      assert a[..] == rows;
      ItemLeIsTotalPreorder();
      SortBy(a, ItemLe);
      var sorted := a[..];
      SortedIsDisplayOrder(sorted);
      var total := FoldTotal(0.0, sorted);
      FoldIsSum(0.0, sorted);
      SumOfEnumeration(sorted, ItemsOf(idLista), Cost);
      forall i | 0 <= i < |sorted|
        ensures sorted[i] in ItemsOf(idLista)
      {
        assert sorted[i] in multiset(sorted);
      }
      r := Success(Lista(idLista, row.nombre, Some(sorted), total, row.modoSimple == 1));
    }

    /** `delete_list`: the list's items go first, then the list; every other
        list and item stays as it was. */
    method DeleteList(idLista: nat)
      requires Valid()
      modifies this
      ensures Valid()
      ensures listas == old(listas) - {idLista}
      ensures forall k :: k in items <==> k in old(items) && old(items)[k].idLista != idLista
      ensures forall k :: k in items ==> items[k] == old(items)[k]
      ensures ItemsOf(idLista) == {}
      ensures old(Referential()) ==> Referential()
    {
      items := map k | k in items && items[k].idLista != idLista :: items[k];
      listas := listas - {idLista};
    }

    /** `create_new_list_item`: a blank name stores nothing; otherwise one new
        row under a fresh id, in list `idLista` whatever `item.id` and
        `item.idLista` say. The list is not checked to exist. */
    method CreateNewListItem(idLista: nat, item: Item) returns (ghost created: Option<nat>)
      requires Valid()
      modifies this
      ensures Valid() && listas == old(listas)
      ensures IsBlank(item.nombre) ==> created == None && items == old(items)
      ensures !IsBlank(item.nombre) ==>
        && created.Some? && created.value != 0 && created.value !in old(items)
        && items == old(items)[created.value := NewItemRow(idLista, item)]
      ensures old(Referential()) && idLista in listas ==> Referential()
    {
      created := None;
      if !IsBlank(item.nombre) {
        var id := NextRowId(items.Keys);
        items := items[id := NewItemRow(idLista, item)];
        created := Some(id);
      }
    }

    /** `update_list_item`: a blank name, or an id that names no row, changes
        nothing; otherwise row `item.id` gets the item's name, unit, both
        quantities and price but keeps its list. */
    method UpdateListItem(item: Item)
      requires Valid()
      modifies this
      ensures Valid() && listas == old(listas)
      ensures IsBlank(item.nombre) || item.id !in old(items) ==> items == old(items)
      ensures !IsBlank(item.nombre) && item.id in old(items) ==>
        items == old(items)[item.id := NewItemRow(old(items)[item.id].idLista, item)]
      ensures old(Referential()) ==> Referential()
    {
      if !IsBlank(item.nombre) && item.id in items {
        items := items[item.id := NewItemRow(items[item.id].idLista, item)];
      }
    }

    /** `delete_item`: that row goes, if there is one; nothing else changes. */
    method DeleteItem(id: nat)
      requires Valid()
      modifies this
      ensures Valid() && listas == old(listas)
      ensures items == old(items) - {id}
      ensures old(Referential()) ==> Referential()
    {
      items := items - {id};
    }

    /** `clear_list_items`: every item of the list has bought nothing again;
        no other field and no other row changes, and no row goes. */
    method ClearListItems(idLista: nat)
      requires Valid()
      modifies this
      ensures Valid() && listas == old(listas)
      ensures items.Keys == old(items).Keys
      ensures forall k :: k in items && old(items)[k].idLista == idLista ==>
        items[k] == old(items)[k].(cantidadComprada := 0.0)
      ensures forall k :: k in items && old(items)[k].idLista != idLista ==>
        items[k] == old(items)[k]
      ensures forall it :: it in ItemsOf(idLista) ==> Unpurchased(it)
      ensures SetTotal(ItemsOf(idLista)) == 0.0
      ensures old(Referential()) ==> Referential()
    {
      items := map k | k in items ::
        if items[k].idLista == idLista then items[k].(cantidadComprada := 0.0) else items[k];
      SetTotalOfUnbought(ItemsOf(idLista));
    }
  }
}
