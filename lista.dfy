/** The two records of the shopping-list model (src/model/lista.rs): a list
    (`Lista`) and an item on it (`Item`), the default item the UI appends as
    an empty row, and the conversion of a submitted form (`ItemForm`), whose
    fields are all text, into an item. */
module Lista {
  import opened Wrappers
  import opened Strings

  /** One purchasable entry. Rust's `usize` ids are `nat`s and its `f32`
      quantities and price are exact `real`s. */
  datatype Item = Item(
    id: nat,
    idLista: nat,
    nombre: string,
    unidad: string,
    cantidadRequerida: real,
    cantidadComprada: real,
    precio: real)

  /** A list as handed to the UI. `items` and `total` are filled in only by a
      full fetch of one list. */
  datatype Lista = Lista(
    id: nat,
    nombre: string,
    items: Option<seq<Item>>,
    total: real,
    modoSimple: bool)

  /** `Item::default()`: the unsaved placeholder row. */
  function DefaultItem(): Item {
    Item(0, 0, "", "unidad", 1.0, 0.0, 0.0)
  }

  /** The default item carries the "not yet stored" id 0 and a blank name,
      so handing it unchanged to the store's create or update operation
      stores nothing; it has bought nothing. */
  lemma DefaultItemIsUnsavedAndBlank()
    ensures DefaultItem().id == 0 && DefaultItem().idLista == 0
    ensures IsBlank(DefaultItem().nombre)
    ensures DefaultItem().unidad == "unidad"
    ensures DefaultItem().cantidadRequerida == 1.0
    ensures DefaultItem().cantidadComprada == 0.0 && DefaultItem().precio == 0.0
  {
  }

  /** The form posted by an item card: every field is the text of an input,
      and an unchecked checkbox sends no `cantidad_comprada` at all. */
  datatype ItemForm = ItemForm(
    id: string,
    idLista: string,
    nombre: string,
    unidad: string,
    cantidadRequerida: string,
    cantidadComprada: Option<string>,
    precio: string)

  /** `ItemForm::into_item`. String-to-number parsing (`str::parse` for
      `usize` and `f32`) is not modelled; it is passed in as `parseNat` and
      `parseReal`. Every numeric field falls back to zero when its text does
      not parse (`unwrap_or_default`), and a missing purchased quantity is
      read as the text "0.0". */
  function IntoItem(f: ItemForm, parseNat: string -> Option<nat>,
                    parseReal: string -> Option<real>): Item
  {
    Item(
      parseNat(f.id).UnwrapOr(0),
      parseNat(f.idLista).UnwrapOr(0),
      f.nombre,
      f.unidad,
      parseReal(f.cantidadRequerida).UnwrapOr(0.0),
      parseReal(f.cantidadComprada.UnwrapOr("0.0")).UnwrapOr(0.0),
      parseReal(f.precio).UnwrapOr(0.0))
  }

  /** The text fields are copied verbatim. */
  lemma IntoItemCopiesText(f: ItemForm, parseNat: string -> Option<nat>,
                           parseReal: string -> Option<real>)
    ensures IntoItem(f, parseNat, parseReal).nombre == f.nombre
    ensures IntoItem(f, parseNat, parseReal).unidad == f.unidad
  {
  }

  /** Parse-or-zero: a numeric field is the parsed value when its text
      parses and zero when it does not; conversion never fails. In
      particular an id that does not parse becomes 0, the "new item"
      sentinel. */
  lemma IntoItemParseOrZero(f: ItemForm, parseNat: string -> Option<nat>,
                            parseReal: string -> Option<real>)
    ensures var r := IntoItem(f, parseNat, parseReal);
      && (parseNat(f.id).Some? ==> r.id == parseNat(f.id).value)
      && (parseNat(f.id).None? ==> r.id == 0)
      && (parseNat(f.idLista).Some? ==> r.idLista == parseNat(f.idLista).value)
      && (parseNat(f.idLista).None? ==> r.idLista == 0)
      && (parseReal(f.cantidadRequerida).Some? ==>
            r.cantidadRequerida == parseReal(f.cantidadRequerida).value)
      && (parseReal(f.cantidadRequerida).None? ==> r.cantidadRequerida == 0.0)
      && (parseReal(f.precio).Some? ==> r.precio == parseReal(f.precio).value)
      && (parseReal(f.precio).None? ==> r.precio == 0.0)
      && (f.cantidadComprada.Some? && parseReal(f.cantidadComprada.value).Some? ==>
            r.cantidadComprada == parseReal(f.cantidadComprada.value).value)
      && (f.cantidadComprada.Some? && parseReal(f.cantidadComprada.value).None? ==>
            r.cantidadComprada == 0.0)
  {
  }

  /** An absent purchased quantity becomes 0.0, whether or not the parser
      reads the substituted text "0.0" (it may only read it as zero). */
  lemma IntoItemAbsentPurchasedIsZero(f: ItemForm, parseNat: string -> Option<nat>,
                                      parseReal: string -> Option<real>)
    requires f.cantidadComprada.None?
    requires parseReal("0.0") == None || parseReal("0.0") == Some(0.0)
    ensures IntoItem(f, parseNat, parseReal).cantidadComprada == 0.0
  {
  }
}
