/** The post-processing `get_list` applies to a list's item rows
    (src/model/database.rs:186-204): the display order (items still to buy
    first, then bought ones, each group by name) and the total spent. */
module Aggregation {
  import opened Strings
  import opened Sorting
  import opened Lista

  /** An item counts as bought from 0.001 up, so that text round-trips of a
      zero do not read as a purchase. */
  predicate Unpurchased(it: Item) {
    it.cantidadComprada < 0.001
  }

  /** The comparator passed to `sort_by`, as written. When `a` is bought and
      `b` is not it answers `Equal` where `Greater` is meant, so it is not
      the consistent total order `sort_by` demands of its comparator; the
      model sorts with `ItemCmp` instead. */
  function SourceItemCmp(a: Item, b: Item): Ordering {
    if (Unpurchased(a) && Unpurchased(b)) || (!Unpurchased(a) && !Unpurchased(b)) then
      Compare(a.nombre, b.nombre)
    else if Unpurchased(a) && !Unpurchased(b) then
      Less
    else
      Equal
  }

  /** The written comparator is not antisymmetric: for a bought `a` and an
      unbought `b` it says `b < a` one way round and `a == b` the other. */
  lemma SourceItemCmpIsInconsistent(a: Item, b: Item)
    requires !Unpurchased(a) && Unpurchased(b)
    ensures SourceItemCmp(b, a) == Less && SourceItemCmp(a, b) == Equal
    ensures SourceItemCmp(a, b) != SourceItemCmp(b, a).Flip()
  {
  }

  /** The concrete pair: "Pan" still to buy, "Leche" bought. */
  lemma SourceItemCmpCounterexample()
    ensures exists a: Item, b: Item :: SourceItemCmp(a, b) != SourceItemCmp(b, a).Flip()
  {
    var leche := Item(1, 1, "Leche", "unidad", 1.0, 1.0, 2.5);
    var pan := Item(2, 1, "Pan", "unidad", 1.0, 0.0, 1.0);
    SourceItemCmpIsInconsistent(leche, pan);
  }

  /** The intended comparator: the group (unbought before bought), then the
      name. */
  function ItemCmp(a: Item, b: Item): Ordering {
    if Unpurchased(a) == Unpurchased(b) then Compare(a.nombre, b.nombre)
    else if Unpurchased(a) then Less
    else Greater
  }

  /** `ItemCmp` differs from the written comparator only in the case the
      latter gets wrong. */
  lemma ItemCmpRepairsSource(a: Item, b: Item)
    ensures !Unpurchased(a) && Unpurchased(b) ==> ItemCmp(a, b) == Greater
    ensures Unpurchased(a) || !Unpurchased(b) ==> ItemCmp(a, b) == SourceItemCmp(a, b)
  {
  }

  /** Both comparators answer `Less` on exactly the same pairs. A sort that
      only ever asks whether one item is less than another therefore puts
      the items in the same order with either; the written comparator
      breaks the total-order contract but not the display order. */
  lemma SourceItemCmpSameLess(a: Item, b: Item)
    ensures SourceItemCmp(a, b) == Less <==> ItemCmp(a, b) == Less
  {
  }

  /** `ItemCmp` is antisymmetric: swapping the items flips the answer. */
  lemma ItemCmpFlip(a: Item, b: Item)
    ensures ItemCmp(b, a) == ItemCmp(a, b).Flip()
  {
    CompareFlip(a.nombre, b.nombre);
  }

  predicate ItemLe(a: Item, b: Item) {
    ItemCmp(a, b) != Greater
  }

  /** `ItemLe` is total and transitive, as `sort_by` requires. */
  lemma ItemLeIsTotalPreorder()
    ensures TotalPreorder(ItemLe)
  {
    forall x, y ensures ItemLe(x, y) || ItemLe(y, x) {
      ItemCmpFlip(x, y);
    }
    forall x, y, z | ItemLe(x, y) && ItemLe(y, z) ensures ItemLe(x, z) {
      if Unpurchased(x) == Unpurchased(y) == Unpurchased(z) {
        NameLeTransitive(x.nombre, y.nombre, z.nombre);
      }
    }
  }

  /** The order shown to the user: every unbought item before every bought
      one, and names non-decreasing among items of the same group. */
  ghost predicate DisplayOrder(s: seq<Item>) {
    && (forall i, j :: 0 <= i < j < |s| && Unpurchased(s[j]) ==> Unpurchased(s[i]))
    && (forall i, j :: 0 <= i < j < |s| && Unpurchased(s[i]) == Unpurchased(s[j]) ==>
          NameLe(s[i].nombre, s[j].nombre))
  }

  /** Sorting by `ItemCmp` gives exactly the display order. */
  lemma SortedIsDisplayOrder(s: seq<Item>)
    ensures SortedBy(s, ItemLe) <==> DisplayOrder(s)
  {
  }

  /** Two unbought items, "Bread" and "Carrots", and a bought one, "Apples",
      are shown as Bread, Carrots, Apples; Carrots before Bread is not the
      display order, since names ascend within a group. */
  lemma DisplayOrderExample()
    ensures var bread := Item(1, 1, "Bread", "unidad", 1.0, 0.0, 1.0);
      var carrots := Item(2, 1, "Carrots", "unidad", 1.0, 0.0, 1.0);
      var apples := Item(3, 1, "Apples", "kg", 1.0, 1.0, 2.0);
      && DisplayOrder([bread, carrots, apples])
      && !DisplayOrder([carrots, bread, apples])
  {
    var bread := Item(1, 1, "Bread", "unidad", 1.0, 0.0, 1.0);
    var carrots := Item(2, 1, "Carrots", "unidad", 1.0, 0.0, 1.0);
    var apples := Item(3, 1, "Apples", "kg", 1.0, 1.0, 2.0);
    assert Compare("Bread", "Carrots") == Less;
    assert Compare("Carrots", "Bread") == Greater;
    var good := [bread, carrots, apples];
    assert NameLe(good[0].nombre, good[1].nombre);
    assert !NameLe([carrots, bread, apples][0].nombre, [carrots, bread, apples][1].nombre);
  }

  /** What one item adds to the total. */
  function Cost(it: Item): real {
    it.cantidadComprada * it.precio
  }

  /** `iter().fold(acc, |acc, item| acc + cantidad_comprada * precio)`. */
  function FoldTotal(acc: real, s: seq<Item>): real
    decreases |s|
  {
    if s == [] then acc else FoldTotal(acc + Cost(s[0]), s[1..])
  }

  /** The sum of `f` over a sequence: the reference for the fold. The sum
      lemmas below hold for any `f`, so they never see the multiplication
      inside `Cost`. */
  function Sum<T>(s: seq<T>, f: T -> real): real {
    if s == [] then 0.0 else f(s[0]) + Sum(s[1..], f)
  }

  /** The left fold from `acc` adds the sum of the costs to `acc`. */
  lemma {:induction false} FoldIsSum(acc: real, s: seq<Item>)
    ensures FoldTotal(acc, s) == acc + Sum(s, Cost)
    decreases |s|
  {
    if s != [] {
      FoldIsSum(acc + Cost(s[0]), s[1..]);
    }
  }

  lemma {:induction false} SumConcat<T>(a: seq<T>, b: seq<T>, f: T -> real)
    ensures Sum(a + b, f) == Sum(a, f) + Sum(b, f)
  {
    if a == [] {
      assert a + b == b;
    } else {
      assert (a + b)[0] == a[0] && (a + b)[1..] == a[1..] + b;
      SumConcat(a[1..], b, f);
    }
  }

  lemma SumRemoveAt<T>(s: seq<T>, i: nat, f: T -> real)
    requires i < |s|
    ensures Sum(s, f) == f(s[i]) + Sum(s[..i] + s[i + 1..], f)
  {
    assert s == s[..i] + ([s[i]] + s[i + 1..]);
    SumConcat(s[..i], [s[i]] + s[i + 1..], f);
    SumConcat(s[..i], s[i + 1..], f);
  }

  lemma MultisetRemoveAt<T>(s: seq<T>, i: nat)
    requires i < |s|
    ensures multiset(s[..i] + s[i + 1..]) == multiset(s) - multiset{s[i]}
  {
    assert s == s[..i] + [s[i]] + s[i + 1..];
    assert multiset(s) == multiset(s[..i]) + multiset{s[i]} + multiset(s[i + 1..]);
  }

  lemma IndexOf<T>(s: seq<T>, x: T) returns (i: nat)
    requires x in multiset(s)
    ensures i < |s| && s[i] == x
  {
    i :| i < |s| && s[i] == x;
  }

  /** The sum, and so the total, does not depend on the order of the items. */
  lemma {:induction false} SumPermutation<T>(a: seq<T>, b: seq<T>, f: T -> real)
    requires multiset(a) == multiset(b)
    ensures Sum(a, f) == Sum(b, f)
    decreases |a|
  {
    if a == [] {
      assert |b| == |multiset(b)| == 0;
    } else {
      var i := IndexOf(b, a[0]);
      var restA, restB := a[1..], b[..i] + b[i + 1..];
      MultisetRemoveAt(a, 0);
      MultisetRemoveAt(b, i);
      assert a[..0] + a[1..] == restA;
      SumPermutation(restA, restB, f);
      SumRemoveAt(b, i, f);
    }
  }

  /** The sum of `f` over a set, independent of any enumeration. */
  ghost function SetSum<T>(s: set<T>, f: T -> real): real
    decreases |s|
  {
    if s == {} then 0.0 else var x :| x in s; f(x) + SetSum(s - {x}, f)
  }

  lemma {:induction false} SetSumRemove<T>(s: set<T>, y: T, f: T -> real)
    requires y in s
    ensures SetSum(s, f) == f(y) + SetSum(s - {y}, f)
    decreases |s|
  {
    var x :| x in s && SetSum(s, f) == f(x) + SetSum(s - {x}, f);
    if x != y {
      SetSumRemove(s - {x}, y, f);
      SetSumRemove(s - {y}, x, f);
      assert s - {x} - {y} == s - {y} - {x};
    }
  }

  /** Any enumeration of a set sums to the set's sum. */
  lemma {:induction false} SumOfEnumeration<T>(q: seq<T>, s: set<T>, f: T -> real)
    requires multiset(q) == multiset(s)
    ensures Sum(q, f) == SetSum(s, f)
    decreases |q|
  {
    if q == [] {
      assert |s| == |multiset(s)| == 0;
    } else {
      var y := q[0];
      assert q == [y] + q[1..];
      assert multiset(q) == multiset{y} + multiset(q[1..]);
      assert y in multiset(s);
      assert s == (s - {y}) + {y};
      assert multiset(s) == multiset(s - {y}) + multiset{y};
      assert multiset(q[1..]) == multiset(q) - multiset{y};
      assert multiset(s - {y}) == multiset(s) - multiset{y};
      SumOfEnumeration(q[1..], s - {y}, f);
      SetSumRemove(s, y, f);
    }
  }

  /** The total of a set of items: what the fold yields for every order in
      which the store may return them. */
  ghost function SetTotal(s: set<Item>): real {
    SetSum(s, Cost)
  }
}
