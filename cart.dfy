/**
 * The cart router: procedures over the table of bags (cart line items).
 * Every procedure first looks up the caller's cart; without one it answers
 * null and leaves the table as it is. The database calls are modelled by
 * a small filter-and-update layer (`BagWhere`, `BagData`, `UpdateMany`,
 * `DeleteMany`, `CountWhere`, `SumWhere`) so that each procedure's filter
 * is written here as the router writes it.
 */
module CartRouter {
  import opened Wrappers

  /** One line item: `itemCount` units of one product in one cart. */
  datatype Bag = Bag(
    id: int,
    cartId: int,
    productId: string,
    itemCount: int,
    selected: bool,
    checkedOut: bool)

  /** A bag that belongs to `cartId` and has not gone through checkout. */
  predicate IsOpen(b: Bag, cartId: int) {
    b.cartId == cartId && !b.checkedOut
  }

  // ---------------------------------------------------------------------
  // Filters, updates and aggregates over the bag table
  // ---------------------------------------------------------------------

  /** A `where` clause: every field that is present must equal the row's. */
  datatype BagWhere = BagWhere(
    id: Option<int>,
    cartId: Option<int>,
    productId: Option<string>,
    checkedOut: Option<bool>)

  predicate Matches(w: BagWhere, b: Bag) {
    && (w.id.Some? ==> b.id == w.id.value)
    && (w.cartId.Some? ==> b.cartId == w.cartId.value)
    && (w.productId.Some? ==> b.productId == w.productId.value)
    && (w.checkedOut.Some? ==> b.checkedOut == w.checkedOut.value)
  }

  /** What a `data` clause does to `itemCount`. */
  datatype CountChange = Keep | Increment(amount: int) | Decrement(amount: int) | Overwrite(value: int)

  function NewCount(change: CountChange, count: int): int {
    match change
    case Keep => count
    case Increment(n) => count + n
    case Decrement(n) => count - n
    case Overwrite(v) => v
  }

  /** A `data` clause: the fields it sets, each absent one left alone. */
  datatype BagData = BagData(
    cartId: Option<int>,
    productId: Option<string>,
    itemCount: CountChange,
    selected: Option<bool>)

  /** A `data` clause that only touches the count. */
  function CountData(change: CountChange): BagData {
    BagData(cartId := None, productId := None, itemCount := change, selected := None)
  }

  /** A `data` clause that only touches the selection flag. */
  function SelectData(selected: bool): BagData {
    BagData(cartId := None, productId := None, itemCount := Keep, selected := Some(selected))
  }

  function Apply(d: BagData, b: Bag): (r: Bag)
    ensures r.id == b.id && r.checkedOut == b.checkedOut
  {
    b.(cartId := d.cartId.GetOr(b.cartId),
       productId := d.productId.GetOr(b.productId),
       itemCount := NewCount(d.itemCount, b.itemCount),
       selected := d.selected.GetOr(b.selected))
  }

  /** `updateMany`: apply `d` to every row that matches `w`, in place. */
  function UpdateMany(bags: seq<Bag>, w: BagWhere, d: BagData): seq<Bag> {
    if bags == [] then []
    else [if Matches(w, bags[0]) then Apply(d, bags[0]) else bags[0]] + UpdateMany(bags[1..], w, d)
  }

  /** The number of rows matching `w` (the `count` that `updateMany` and `deleteMany` answer). */
  function CountWhere(bags: seq<Bag>, w: BagWhere): nat {
    if bags == [] then 0
    else (if Matches(w, bags[0]) then 1 else 0) + CountWhere(bags[1..], w)
  }

  /** `findMany`: the rows matching `w`, in table order. */
  function Select(bags: seq<Bag>, w: BagWhere): (r: seq<Bag>)
    ensures forall b :: b in r <==> b in bags && Matches(w, b)
  {
    if bags == [] then []
    else (if Matches(w, bags[0]) then [bags[0]] else []) + Select(bags[1..], w)
  }

  /** `deleteMany`: the table without the rows matching `w`. */
  function DeleteMany(bags: seq<Bag>, w: BagWhere): (r: seq<Bag>)
    ensures forall b :: b in r <==> b in bags && !Matches(w, b)
  {
    if bags == [] then []
    else (if Matches(w, bags[0]) then [] else [bags[0]]) + DeleteMany(bags[1..], w)
  }

  /** `aggregate` with `_sum: { itemCount }`: null when no row matches. */
  function SumWhere(bags: seq<Bag>, w: BagWhere): Option<int> {
    if bags == [] then None
    else
      var rest := SumWhere(bags[1..], w);
      if Matches(w, bags[0]) then Some(bags[0].itemCount + rest.GetOr(0)) else rest
  }

  /** The plain sum of the counts of a list of bags. */
  function Total(bags: seq<Bag>): int {
    if bags == [] then 0 else bags[0].itemCount + Total(bags[1..])
  }

  /** The position of the bag with this id, if there is one (the unique-key lookup of `update`). */
  function FindBag(bags: seq<Bag>, id: int): (r: Option<nat>)
    ensures r.Some? ==> r.value < |bags| && bags[r.value].id == id
    ensures r.None? <==> forall b :: b in bags ==> b.id != id
  {
    if bags == [] then None
    else if bags[0].id == id then Some(0)
    else match FindBag(bags[1..], id)
      case None => None
      case Some(i) => Some(i + 1)
  }

  /** `update` by id: apply `d` to the one bag with that id; nothing when there is none. */
  function UpdateById(bags: seq<Bag>, id: int, d: BagData): seq<Bag> {
    match FindBag(bags, id)
    case None => bags
    case Some(i) => bags[i := Apply(d, bags[i])]
  }

  /** Row ids are a unique key. */
  predicate DistinctIds(bags: seq<Bag>) {
    forall i, j :: 0 <= i < j < |bags| ==> bags[i].id != bags[j].id
  }

  predicate IdsBelow(bags: seq<Bag>, bound: int) {
    forall b :: b in bags ==> b.id < bound
  }

  // ---------------------------------------------------------------------
  // Facts about the layer
  // ---------------------------------------------------------------------

  /** `updateMany` rewrites exactly the matching rows and keeps the others and the order. */
  lemma {:induction false} UpdateManyAt(bags: seq<Bag>, w: BagWhere, d: BagData)
    ensures |UpdateMany(bags, w, d)| == |bags|
    ensures forall i :: 0 <= i < |bags| ==>
      UpdateMany(bags, w, d)[i] == if Matches(w, bags[i]) then Apply(d, bags[i]) else bags[i]
  {
    if bags != [] {
      UpdateManyAt(bags[1..], w, d);
      var r := UpdateMany(bags, w, d);
      forall i | 0 < i < |bags|
        ensures r[i] == if Matches(w, bags[i]) then Apply(d, bags[i]) else bags[i]
      {
        assert r[i] == UpdateMany(bags[1..], w, d)[i - 1];
        assert bags[i] == bags[1..][i - 1];
      }
    }
  }

  /** An `updateMany` that matches no row leaves the table as it is. */
  lemma {:induction false} UpdateManyNoMatch(bags: seq<Bag>, w: BagWhere, d: BagData)
    requires CountWhere(bags, w) == 0
    ensures UpdateMany(bags, w, d) == bags
  {
    if bags != [] {
      UpdateManyNoMatch(bags[1..], w, d);
      assert bags == [bags[0]] + bags[1..];
    }
  }

  /** `updateMany` keeps the id of every row, so the table stays keyed. */
  lemma {:induction false} UpdateManyKeepsIds(bags: seq<Bag>, w: BagWhere, d: BagData, bound: int)
    requires DistinctIds(bags)
    ensures DistinctIds(UpdateMany(bags, w, d))
    ensures IdsBelow(bags, bound) ==> IdsBelow(UpdateMany(bags, w, d), bound)
  {
    UpdateManyAt(bags, w, d);
    var r := UpdateMany(bags, w, d);
    if IdsBelow(bags, bound) {
      forall b | b in r ensures b.id < bound {
        var i :| 0 <= i < |r| && r[i] == b;
        assert bags[i] in bags;
      }
    }
  }

  /** `deleteMany` removes exactly as many rows as match. */
  lemma {:induction false} DeleteManyCount(bags: seq<Bag>, w: BagWhere)
    ensures |DeleteMany(bags, w)| + CountWhere(bags, w) == |bags|
  {
    if bags != [] {
      DeleteManyCount(bags[1..], w);
    }
  }

  /** `deleteMany` keeps the table keyed. */
  lemma {:induction false} DeleteManyKeepsIds(bags: seq<Bag>, w: BagWhere)
    requires DistinctIds(bags)
    ensures DistinctIds(DeleteMany(bags, w))
  {
    if bags != [] {
      DeleteManyKeepsIds(bags[1..], w);
      var rest := DeleteMany(bags[1..], w);
      forall b | b in rest ensures b.id != bags[0].id {
        var j :| 0 <= j < |bags[1..]| && bags[1..][j] == b;
        assert bags[j + 1] == b;
      }
    }
  }

  /** The table with a bag appended is keyed when the new id is the next one. */
  lemma {:induction false} AppendKeepsIds(bags: seq<Bag>, b: Bag, bound: int)
    requires DistinctIds(bags) && IdsBelow(bags, bound) && b.id == bound
    ensures DistinctIds(bags + [b]) && IdsBelow(bags + [b], bound + 1)
  {
    var r := bags + [b];
    forall i | 0 <= i < |bags| ensures r[i].id != b.id {
      assert bags[i] in bags;
    }
  }

  /** The number of rows `findMany` answers is the count of matching rows. */
  lemma {:induction false} SelectCount(bags: seq<Bag>, w: BagWhere)
    ensures |Select(bags, w)| == CountWhere(bags, w)
  {
    if bags != [] {
      SelectCount(bags[1..], w);
    }
  }

  /** The total over a table with one more row in front. */
  lemma {:induction false} TotalSelectCons(b: Bag, bags: seq<Bag>, w: BagWhere)
    ensures Total(Select([b] + bags, w)) == (if Matches(w, b) then b.itemCount else 0) + Total(Select(bags, w))
  {
    var all := [b] + bags;
    assert all[0] == b && all[1..] == bags;
    if Matches(w, b) {
      assert Select(all, w) == [b] + Select(bags, w);
      assert ([b] + Select(bags, w))[1..] == Select(bags, w);
    } else {
      assert Select(all, w) == [] + Select(bags, w);
      assert [] + Select(bags, w) == Select(bags, w);
    }
  }

  /** The aggregate is null exactly when no row matches, and otherwise the total of the matching rows. */
  lemma {:induction false} SumWhereIsTotal(bags: seq<Bag>, w: BagWhere)
    ensures SumWhere(bags, w) == if CountWhere(bags, w) == 0 then None else Some(Total(Select(bags, w)))
  {
    if bags != [] {
      SumWhereIsTotal(bags[1..], w);
      SelectCount(bags[1..], w);
      assert bags == [bags[0]] + bags[1..];
      TotalSelectCons(bags[0], bags[1..], w);
    }
  }

  /** Appending one bag adds its count to every total it is part of. */
  lemma {:induction false} TotalAppend(bags: seq<Bag>, w: BagWhere, b: Bag)
    ensures Total(Select(bags + [b], w)) == Total(Select(bags, w)) + (if Matches(w, b) then b.itemCount else 0)
  {
    if bags == [] {
      TotalSelectCons(b, [], w);
      assert [b] + [] == [b];
    } else {
      assert bags + [b] == [bags[0]] + (bags[1..] + [b]);
      assert bags == [bags[0]] + bags[1..];
      TotalAppend(bags[1..], w, b);
      TotalSelectCons(bags[0], bags[1..] + [b], w);
      TotalSelectCons(bags[0], bags[1..], w);
    }
  }

  /** A unique-key `update` is the `updateMany` filtered by that id. */
  lemma {:induction false} UpdateByIdIsUpdateMany(bags: seq<Bag>, id: int, d: BagData)
    requires DistinctIds(bags)
    ensures UpdateById(bags, id, d) == UpdateMany(bags, IdWhere(id), d)
  {
    UpdateManyAt(bags, IdWhere(id), d);
  }

  /** A unique-key `update` rewrites the bag with that id and no other. */
  lemma {:induction false} UpdateByIdAt(bags: seq<Bag>, id: int, d: BagData)
    requires DistinctIds(bags)
    ensures |UpdateById(bags, id, d)| == |bags|
    ensures forall i :: 0 <= i < |bags| ==>
      UpdateById(bags, id, d)[i] == if bags[i].id == id then Apply(d, bags[i]) else bags[i]
  {
    UpdateByIdIsUpdateMany(bags, id, d);
    UpdateManyAt(bags, IdWhere(id), d);
  }

  lemma {:induction false} UpdateByIdKeepsIds(bags: seq<Bag>, id: int, d: BagData, bound: int)
    requires DistinctIds(bags)
    ensures DistinctIds(UpdateById(bags, id, d))
    ensures IdsBelow(bags, bound) ==> IdsBelow(UpdateById(bags, id, d), bound)
  {
    UpdateByIdIsUpdateMany(bags, id, d);
    UpdateManyKeepsIds(bags, IdWhere(id), d, bound);
  }

  // ---------------------------------------------------------------------
  // The filters and updates each procedure issues
  // ---------------------------------------------------------------------

  /** The open bags of a cart (`getItemCount`, `getCartItems`, `toggleAllBagsSelect`). */
  function OpenWhere(cartId: int): BagWhere {
    BagWhere(id := None, cartId := Some(cartId), productId := None, checkedOut := Some(false))
  }

  /** The open bags of a cart holding one product (`addToCart`). */
  function ProductWhere(cartId: int, productId: string): BagWhere {
    BagWhere(id := None, cartId := Some(cartId), productId := Some(productId), checkedOut := Some(false))
  }

  /** One bag by id, whatever its cart (`incrementItemCount` and its siblings). */
  function IdWhere(id: int): BagWhere {
    BagWhere(id := Some(id), cartId := None, productId := None, checkedOut := None)
  }

  /** The cart's item count: the sum over its open bags, 0 when there is none. */
  function ItemCount(bags: seq<Bag>, cartId: int): int {
    SumWhere(bags, OpenWhere(cartId)).GetOr(0)
  }

  /** `addToCart`'s `updateMany`: raise every open bag of this product in this cart by `quantity`. */
  function MergeProduct(bags: seq<Bag>, cartId: int, productId: string, quantity: int): seq<Bag> {
    UpdateMany(bags, ProductWhere(cartId, productId),
      BagData(cartId := Some(cartId), productId := Some(productId), itemCount := Increment(quantity), selected := None))
  }

  /** `toggleBagSelect`'s `updateMany`. */
  function ToggleOne(bags: seq<Bag>, cartId: int, bagId: int, isSelected: bool): seq<Bag> {
    UpdateMany(bags,
      BagWhere(id := Some(bagId), cartId := Some(cartId), productId := None, checkedOut := Some(false)),
      SelectData(!isSelected))
  }

  /** `toggleAllBagsSelect`'s `updateMany`; an absent `shouldDeselect` selects. */
  function ToggleAll(bags: seq<Bag>, cartId: int, shouldDeselect: Option<bool>): seq<Bag> {
    UpdateMany(bags, OpenWhere(cartId), SelectData(if shouldDeselect == Some(true) then false else true))
  }

  function IncrementCount(bags: seq<Bag>, id: int): seq<Bag> {
    UpdateById(bags, id, CountData(Increment(1)))
  }

  function DecrementCount(bags: seq<Bag>, id: int): seq<Bag> {
    UpdateById(bags, id, CountData(Decrement(1)))
  }

  function OverwriteCount(bags: seq<Bag>, id: int, quantity: int): seq<Bag> {
    UpdateById(bags, id, CountData(Overwrite(quantity)))
  }

  /** `deleteItem`'s `deleteMany`: the bag with this id, if it is in this cart. */
  function RemoveBag(bags: seq<Bag>, cartId: int, id: int): seq<Bag> {
    DeleteMany(bags, BagWhere(id := Some(id), cartId := Some(cartId), productId := None, checkedOut := None))
  }

  // ---------------------------------------------------------------------
  // What each procedure does to the table
  // ---------------------------------------------------------------------

  /** The item count is the total of the cart's open bags, and 0 when it has none. */
  lemma {:induction false} ItemCountIsOpenTotal(bags: seq<Bag>, cartId: int)
    ensures ItemCount(bags, cartId) == Total(Select(bags, OpenWhere(cartId)))
    ensures (forall b :: b in bags ==> !IsOpen(b, cartId)) ==> ItemCount(bags, cartId) == 0
  {
    SumWhereIsTotal(bags, OpenWhere(cartId));
    SelectCount(bags, OpenWhere(cartId));
    var open := Select(bags, OpenWhere(cartId));
    if CountWhere(bags, OpenWhere(cartId)) == 0 {
      assert open == [];
    }
    if forall b :: b in bags ==> !IsOpen(b, cartId) {
      if open != [] {
        assert open[0] in open;
      }
    }
  }

  /** Merging raises each open bag of the product by exactly `quantity` and changes nothing else. */
  lemma {:induction false} MergeProductAt(bags: seq<Bag>, cartId: int, productId: string, quantity: int)
    ensures |MergeProduct(bags, cartId, productId, quantity)| == |bags|
    ensures forall i :: 0 <= i < |bags| ==>
      MergeProduct(bags, cartId, productId, quantity)[i] ==
        if IsOpen(bags[i], cartId) && bags[i].productId == productId
        then bags[i].(itemCount := bags[i].itemCount + quantity)
        else bags[i]
  {
    UpdateManyAt(bags, ProductWhere(cartId, productId),
      BagData(cartId := Some(cartId), productId := Some(productId), itemCount := Increment(quantity), selected := None));
  }

  /** What merging does to one row's share of the cart's item count. */
  lemma {:induction false} MergeRow(b: Bag, cartId: int, productId: string, quantity: int)
    ensures |MergeProduct([b], cartId, productId, quantity)| == 1
    ensures var m := MergeProduct([b], cartId, productId, quantity)[0];
      (if Matches(OpenWhere(cartId), m) then m.itemCount else 0)
        == (if Matches(OpenWhere(cartId), b) then b.itemCount else 0)
           + (if Matches(ProductWhere(cartId, productId), b) then quantity else 0)
  {
    MergeProductAt([b], cartId, productId, quantity);
  }

  /** Merging raises the cart's item count by `quantity` for each merged bag. */
  lemma {:induction false} MergeProductRaisesItemCount(bags: seq<Bag>, cartId: int, productId: string, quantity: int)
    ensures Total(Select(MergeProduct(bags, cartId, productId, quantity), OpenWhere(cartId)))
      == Total(Select(bags, OpenWhere(cartId))) + quantity * CountWhere(bags, ProductWhere(cartId, productId))
  {
    if bags != [] {
      var open, w := OpenWhere(cartId), ProductWhere(cartId, productId);
      var tail := MergeProduct(bags[1..], cartId, productId, quantity);
      var head := MergeProduct([bags[0]], cartId, productId, quantity)[0];
      MergeProductRaisesItemCount(bags[1..], cartId, productId, quantity);
      MergeRow(bags[0], cartId, productId, quantity);
      var n := CountWhere(bags[1..], w);
      var k := if Matches(w, bags[0]) then 1 else 0;
      assert CountWhere(bags, w) == k + n;
      assert MergeProduct(bags, cartId, productId, quantity) == [head] + tail;
      assert bags == [bags[0]] + bags[1..];
      TotalSelectCons(head, tail, open);
      TotalSelectCons(bags[0], bags[1..], open);
      Distribute(quantity, k, n);
    }
  }

  lemma {:induction false} Distribute(a: int, b: int, c: int)
    ensures a * (b + c) == a * b + a * c
  {
  }

  /** A new open bag of one unit raises the cart's item count by exactly 1. */
  lemma {:induction false} NewBagRaisesItemCount(bags: seq<Bag>, b: Bag, cartId: int)
    requires IsOpen(b, cartId) && b.itemCount == 1
    ensures Total(Select(bags + [b], OpenWhere(cartId))) == Total(Select(bags, OpenWhere(cartId))) + 1
  {
    TotalAppend(bags, OpenWhere(cartId), b);
  }

  /** `toggleBagSelect` sets the flag of that one open bag of the cart and changes nothing else. */
  lemma {:induction false} ToggleOneAt(bags: seq<Bag>, cartId: int, bagId: int, isSelected: bool)
    ensures |ToggleOne(bags, cartId, bagId, isSelected)| == |bags|
    ensures forall i :: 0 <= i < |bags| ==>
      ToggleOne(bags, cartId, bagId, isSelected)[i] ==
        if bags[i].id == bagId && IsOpen(bags[i], cartId)
        then bags[i].(selected := !isSelected)
        else bags[i]
  {
    UpdateManyAt(bags,
      BagWhere(id := Some(bagId), cartId := Some(cartId), productId := None, checkedOut := Some(false)),
      SelectData(!isSelected));
  }

  lemma {:induction false} ToggleOneIdempotent(bags: seq<Bag>, cartId: int, bagId: int, isSelected: bool)
    ensures ToggleOne(ToggleOne(bags, cartId, bagId, isSelected), cartId, bagId, isSelected)
      == ToggleOne(bags, cartId, bagId, isSelected)
  {
    var once := ToggleOne(bags, cartId, bagId, isSelected);
    ToggleOneAt(bags, cartId, bagId, isSelected);
    ToggleOneAt(once, cartId, bagId, isSelected);
  }

  /** `toggleAllBagsSelect` sets the flag of every open bag of the cart and changes nothing else. */
  lemma {:induction false} ToggleAllAt(bags: seq<Bag>, cartId: int, shouldDeselect: Option<bool>)
    ensures |ToggleAll(bags, cartId, shouldDeselect)| == |bags|
    ensures forall i :: 0 <= i < |bags| ==>
      ToggleAll(bags, cartId, shouldDeselect)[i] ==
        if IsOpen(bags[i], cartId)
        then bags[i].(selected := shouldDeselect != Some(true))
        else bags[i]
  {
    UpdateManyAt(bags, OpenWhere(cartId), SelectData(if shouldDeselect == Some(true) then false else true));
  }

  lemma {:induction false} ToggleAllIdempotent(bags: seq<Bag>, cartId: int, shouldDeselect: Option<bool>)
    ensures ToggleAll(ToggleAll(bags, cartId, shouldDeselect), cartId, shouldDeselect)
      == ToggleAll(bags, cartId, shouldDeselect)
  {
    var once := ToggleAll(bags, cartId, shouldDeselect);
    ToggleAllAt(bags, cartId, shouldDeselect);
    ToggleAllAt(once, cartId, shouldDeselect);
  }

  /** Changing only selection flags leaves every cart's item count as it is. */
  lemma {:induction false} SelectionKeepsItemCount(bags: seq<Bag>, w: BagWhere, selected: bool, cartId: int)
    ensures ItemCount(UpdateMany(bags, w, SelectData(selected)), cartId) == ItemCount(bags, cartId)
  {
    if bags != [] {
      SelectionKeepsItemCount(bags[1..], w, selected, cartId);
    }
  }

  /** `incrementItemCount` raises the bag with that id, in whatever cart, by exactly one. */
  lemma {:induction false} IncrementCountAt(bags: seq<Bag>, id: int)
    requires DistinctIds(bags)
    ensures |IncrementCount(bags, id)| == |bags|
    ensures forall i :: 0 <= i < |bags| ==>
      IncrementCount(bags, id)[i] ==
        if bags[i].id == id then bags[i].(itemCount := bags[i].itemCount + 1) else bags[i]
  {
    UpdateByIdAt(bags, id, CountData(Increment(1)));
  }

  /** `decrementItemCount` lowers the bag with that id, in whatever cart, by exactly one, with no floor. */
  lemma {:induction false} DecrementCountAt(bags: seq<Bag>, id: int)
    requires DistinctIds(bags)
    ensures |DecrementCount(bags, id)| == |bags|
    ensures forall i :: 0 <= i < |bags| ==>
      DecrementCount(bags, id)[i] ==
        if bags[i].id == id then bags[i].(itemCount := bags[i].itemCount - 1) else bags[i]
  {
    UpdateByIdAt(bags, id, CountData(Decrement(1)));
  }

  /** Decrementing undoes incrementing the same bag. */
  lemma {:induction false} DecrementUndoesIncrement(bags: seq<Bag>, id: int)
    requires DistinctIds(bags)
    ensures DecrementCount(IncrementCount(bags, id), id) == bags
  {
    IncrementCountAt(bags, id);
    UpdateByIdKeepsIds(bags, id, CountData(Increment(1)), 0);
    var up := IncrementCount(bags, id);
    assert DistinctIds(up);
    DecrementCountAt(up, id);
  }

  /** `updateItemCount` sets the count of the bag with that id, in whatever cart, and no other. */
  lemma {:induction false} OverwriteCountAt(bags: seq<Bag>, id: int, quantity: int)
    requires DistinctIds(bags)
    ensures |OverwriteCount(bags, id, quantity)| == |bags|
    ensures forall i :: 0 <= i < |bags| ==>
      OverwriteCount(bags, id, quantity)[i] ==
        if bags[i].id == id then bags[i].(itemCount := quantity) else bags[i]
  {
    UpdateByIdAt(bags, id, CountData(Overwrite(quantity)));
  }

  lemma {:induction false} OverwriteCountIdempotent(bags: seq<Bag>, id: int, quantity: int)
    requires DistinctIds(bags)
    ensures OverwriteCount(OverwriteCount(bags, id, quantity), id, quantity) == OverwriteCount(bags, id, quantity)
  {
    OverwriteCountAt(bags, id, quantity);
    var once := OverwriteCount(bags, id, quantity);
    assert DistinctIds(once);
    OverwriteCountAt(once, id, quantity);
  }

  /** `deleteItem` removes exactly the bags with that id in the caller's cart, checked out or not. */
  lemma {:induction false} RemoveBagEffect(bags: seq<Bag>, cartId: int, id: int)
    ensures forall b :: b in RemoveBag(bags, cartId, id) <==> b in bags && !(b.id == id && b.cartId == cartId)
    ensures |RemoveBag(bags, cartId, id)| + CountWhere(bags, BagWhere(Some(id), Some(cartId), None, None)) == |bags|
  {
    DeleteManyCount(bags, BagWhere(Some(id), Some(cartId), None, None));
  }

  // ---------------------------------------------------------------------
  // The router
  // ---------------------------------------------------------------------

  /** What `addToCart` answers: the `count` of merged bags, or the bag it created. */
  datatype AddResult = Merged(count: nat) | Created(bag: Bag)

  /** What a unique-key `update` answers: the updated bag, or the record-not-found error. */
  datatype UpdateResult = RecordNotFound | Updated(bag: Bag)

  /**
   * The bag table and the cart procedures over it. `cartId` is the
   * caller's cart as the identity lookup reports it; `None` stands for
   * every falsy answer.
   */
  class BagTable {
    var bags: seq<Bag>
    /** The id the database gives the next bag it creates. */
    var nextId: int
    /** The defaults the database gives a created bag. */
    const newSelected: bool
    const newCheckedOut: bool

    ghost predicate Valid()
      reads this
    {
      DistinctIds(bags) && IdsBelow(bags, nextId)
    }

    constructor (newSelected: bool, newCheckedOut: bool)
      ensures Valid() && bags == [] && nextId == 1
      ensures this.newSelected == newSelected && this.newCheckedOut == newCheckedOut
    {
      bags := [];
      nextId := 1;
      this.newSelected := newSelected;
      this.newCheckedOut := newCheckedOut;
    }

    /** `getItemCount`. */
    method GetItemCount(cartId: Option<int>) returns (r: Option<int>)
      ensures cartId.None? ==> r.None?
      ensures cartId.Some? ==> r == Some(Total(Select(bags, OpenWhere(cartId.value))))
      ensures cartId.Some? && (forall b :: b in bags ==> !IsOpen(b, cartId.value)) ==> r == Some(0)
    {
      if cartId.None? {
        return None;
      }
      ItemCountIsOpenTotal(bags, cartId.value);
      r := Some(SumWhere(bags, OpenWhere(cartId.value)).GetOr(0));
    }

    /** `getCartItems`: the open bags of the caller's cart, in table order. */
    method GetCartItems(cartId: Option<int>) returns (r: Option<seq<Bag>>)
      ensures cartId.None? ==> r.None?
      ensures cartId.Some? ==> r.Some? && forall b :: b in r.value <==> b in bags && IsOpen(b, cartId.value)
      ensures cartId.Some? ==> r == Some(Select(bags, OpenWhere(cartId.value)))
    {
      if cartId.None? {
        return None;
      }
      r := Some(Select(bags, OpenWhere(cartId.value)));
    }

    /** `addToCart`: merge into the open bags of the product, or create a bag of one unit. */
    method AddToCart(cartId: Option<int>, productId: string, quantity: int) returns (r: Option<AddResult>)
      requires Valid() && quantity >= 1
      modifies this
      ensures Valid()
      ensures cartId.None? ==> r.None? && bags == old(bags) && nextId == old(nextId)
      ensures cartId.Some? && CountWhere(old(bags), ProductWhere(cartId.value, productId)) > 0 ==>
        && r == Some(Merged(CountWhere(old(bags), ProductWhere(cartId.value, productId))))
        && bags == MergeProduct(old(bags), cartId.value, productId, quantity)
        && nextId == old(nextId)
      ensures cartId.Some? && CountWhere(old(bags), ProductWhere(cartId.value, productId)) == 0 ==>
        var created := Bag(old(nextId), cartId.value, productId, 1, newSelected, newCheckedOut);
        && r == Some(Created(created))
        && bags == old(bags) + [created]
        && nextId == old(nextId) + 1
    {
      if cartId.None? {
        return None;
      }
      var c := cartId.value;
      var count := CountWhere(bags, ProductWhere(c, productId));
      UpdateManyKeepsIds(bags, ProductWhere(c, productId),
        BagData(cartId := Some(c), productId := Some(productId), itemCount := Increment(quantity), selected := None), nextId);
      if count == 0 {
        UpdateManyNoMatch(bags, ProductWhere(c, productId),
          BagData(cartId := Some(c), productId := Some(productId), itemCount := Increment(quantity), selected := None));
      }
      bags := MergeProduct(bags, c, productId, quantity);
      if count == 0 {
        var created := Bag(nextId, c, productId, 1, newSelected, newCheckedOut);
        AppendKeepsIds(bags, created, nextId);
        bags := bags + [created];
        nextId := nextId + 1;
        return Some(Created(created));
      }
      r := Some(Merged(count));
    }

    /** `toggleBagSelect`: set that one open bag of the caller's cart to `!isSelected`. */
    method ToggleBagSelect(cartId: Option<int>, bagId: int, isSelected: bool) returns (r: Option<nat>)
      requires Valid()
      modifies this
      ensures Valid() && nextId == old(nextId)
      ensures cartId.None? ==> r.None? && bags == old(bags)
      ensures cartId.Some? ==>
        && bags == ToggleOne(old(bags), cartId.value, bagId, isSelected)
        && r == Some(CountWhere(old(bags), BagWhere(Some(bagId), Some(cartId.value), None, Some(false))))
    {
      if cartId.None? {
        return None;
      }
      var w := BagWhere(id := Some(bagId), cartId := Some(cartId.value), productId := None, checkedOut := Some(false));
      r := Some(CountWhere(bags, w));
      UpdateManyKeepsIds(bags, w, SelectData(!isSelected), nextId);
      bags := ToggleOne(bags, cartId.value, bagId, isSelected);
    }

    /** `toggleAllBagsSelect`: select (or, with `shouldDeselect` true, deselect) every open bag of the cart. */
    method ToggleAllBagsSelect(cartId: Option<int>, shouldDeselect: Option<bool>) returns (r: Option<nat>)
      requires Valid()
      modifies this
      ensures Valid() && nextId == old(nextId)
      ensures cartId.None? ==> r.None? && bags == old(bags)
      ensures cartId.Some? ==>
        && bags == ToggleAll(old(bags), cartId.value, shouldDeselect)
        && r == Some(CountWhere(old(bags), OpenWhere(cartId.value)))
    {
      if cartId.None? {
        return None;
      }
      var selected := if shouldDeselect == Some(true) then false else true;
      r := Some(CountWhere(bags, OpenWhere(cartId.value)));
      UpdateManyKeepsIds(bags, OpenWhere(cartId.value), SelectData(selected), nextId);
      bags := ToggleAll(bags, cartId.value, shouldDeselect);
    }

    /** The unique-key `update` behind the three count procedures. */
    method UpdateCount(id: int, change: CountChange) returns (r: UpdateResult)
      requires Valid()
      modifies this
      ensures Valid() && nextId == old(nextId)
      ensures bags == UpdateById(old(bags), id, CountData(change))
      ensures r.RecordNotFound? <==> forall b :: b in old(bags) ==> b.id != id
      ensures r.Updated? ==>
        && r.bag in bags && r.bag.id == id
        && exists b :: b in old(bags) && b.id == id && r.bag == b.(itemCount := NewCount(change, b.itemCount))
    {
      UpdateByIdKeepsIds(bags, id, CountData(change), nextId);
      match FindBag(bags, id)
      case None =>
        r := RecordNotFound;
      case Some(i) =>
        var updated := Apply(CountData(change), bags[i]);
        assert bags[i] in bags;
        bags := bags[i := updated];
        assert bags[i] == updated;
        r := Updated(updated);
    }

    /** `incrementItemCount`: the cart is only required to exist, not to hold the bag. */
    method IncrementItemCount(cartId: Option<int>, id: int) returns (r: Option<UpdateResult>)
      requires Valid()
      modifies this
      ensures Valid() && nextId == old(nextId)
      ensures cartId.None? ==> r.None? && bags == old(bags)
      ensures cartId.Some? ==> r.Some? && bags == IncrementCount(old(bags), id)
      ensures cartId.Some? ==> (r.value.RecordNotFound? <==> forall b :: b in old(bags) ==> b.id != id)
      ensures cartId.Some? && r.value.Updated? ==>
        r.value.bag in bags && r.value.bag.id == id
        && exists b :: b in old(bags) && b.id == id && r.value.bag == b.(itemCount := b.itemCount + 1)
    {
      if cartId.None? {
        return None;
      }
      var u := UpdateCount(id, Increment(1));
      r := Some(u);
    }

    /** `decrementItemCount`: as `incrementItemCount`, by minus one and without a lower bound. */
    method DecrementItemCount(cartId: Option<int>, id: int) returns (r: Option<UpdateResult>)
      requires Valid()
      modifies this
      ensures Valid() && nextId == old(nextId)
      ensures cartId.None? ==> r.None? && bags == old(bags)
      ensures cartId.Some? ==> r.Some? && bags == DecrementCount(old(bags), id)
      ensures cartId.Some? ==> (r.value.RecordNotFound? <==> forall b :: b in old(bags) ==> b.id != id)
      ensures cartId.Some? && r.value.Updated? ==>
        r.value.bag in bags && r.value.bag.id == id
        && exists b :: b in old(bags) && b.id == id && r.value.bag == b.(itemCount := b.itemCount - 1)
    {
      if cartId.None? {
        return None;
      }
      var u := UpdateCount(id, Decrement(1));
      r := Some(u);
    }

    /** `updateItemCount`: overwrite the count of the bag with that id. */
    method UpdateItemCount(cartId: Option<int>, id: int, quantity: int) returns (r: Option<UpdateResult>)
      requires Valid() && quantity >= 1
      modifies this
      ensures Valid() && nextId == old(nextId)
      ensures cartId.None? ==> r.None? && bags == old(bags)
      ensures cartId.Some? ==> r.Some? && bags == OverwriteCount(old(bags), id, quantity)
      ensures cartId.Some? ==> (r.value.RecordNotFound? <==> forall b :: b in old(bags) ==> b.id != id)
      ensures cartId.Some? && r.value.Updated? ==>
        r.value.bag in bags && r.value.bag.id == id && r.value.bag.itemCount == quantity
        && exists b :: b in old(bags) && b.id == id && r.value.bag == b.(itemCount := quantity)
    {
      if cartId.None? {
        return None;
      }
      var u := UpdateCount(id, Overwrite(quantity));
      r := Some(u);
    }

    /** `deleteItem`: delete the bag with that id if it is in the caller's cart. */
    method DeleteItem(cartId: Option<int>, id: int) returns (r: Option<nat>)
      requires Valid()
      modifies this
      ensures Valid() && nextId == old(nextId)
      ensures cartId.None? ==> r.None? && bags == old(bags)
      ensures cartId.Some? ==>
        && bags == RemoveBag(old(bags), cartId.value, id)
        && r == Some(|old(bags)| - |bags|)
    {
      if cartId.None? {
        return None;
      }
      var w := BagWhere(id := Some(id), cartId := Some(cartId.value), productId := None, checkedOut := None);
      DeleteManyKeepsIds(bags, w);
      DeleteManyCount(bags, w);
      var count := CountWhere(bags, w);
      bags := RemoveBag(bags, cartId.value, id);
      r := Some(count);
    }
  }
}
