/** The one piece of logic the list view adds on top of the store
    (src/views/lista.rs:84-91): a submitted item card is converted into an
    item, and item id 0 (a row not yet stored) means "create", any other id
    "update". Rendering and the re-fetch that follows are not modelled. */
module ListaView {
  import opened Wrappers
  import opened Strings
  import opened Lista
  import opened Database

  /** `handle_change`: store the card's item, creating it in the list the
      form names when its id is 0 and updating row `id` otherwise. An id
      whose text does not parse reads as 0, so such a card is created. */
  method HandleChange(db: SqliteConnector, f: ItemForm,
                      parseNat: string -> Option<nat>, parseReal: string -> Option<real>)
    returns (ghost created: Option<nat>)
    requires db.Valid()
    modifies db
    ensures db.Valid() && db.listas == old(db.listas)
    ensures var item := IntoItem(f, parseNat, parseReal);
      && (IsBlank(item.nombre) ==> created == None && db.items == old(db.items))
      && (item.id == 0 && !IsBlank(item.nombre) ==>
            && created.Some? && created.value != 0 && created.value !in old(db.items)
            && db.items == old(db.items)[created.value := NewItemRow(item.idLista, item)])
      && (item.id != 0 ==> created == None)
      && (item.id != 0 && item.id !in old(db.items) ==> db.items == old(db.items))
      && (item.id != 0 && item.id in old(db.items) && !IsBlank(item.nombre) ==>
            db.items == old(db.items)[item.id := NewItemRow(old(db.items)[item.id].idLista, item)])
  {
    var item := IntoItem(f, parseNat, parseReal);
    if item.id == 0 {
      created := db.CreateNewListItem(item.idLista, item);
    } else {
      db.UpdateListItem(item);
      created := None;
    }
  }
}
