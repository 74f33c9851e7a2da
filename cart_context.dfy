/** The shopping cart shared by the whole product page: a sequence of line
    items that `addItem` merges by an identity key, `removeItem` filters by
    product id, `clear` empties, and that is written to browser storage under
    the key "cartItems" after every change and read back when the page loads.
    Prices are integer cents. */
module CartContext {
  import opened Wrappers
  import opened Sequences

  /** A line of the cart as stored: a snapshot of the product taken when it
      was first added, and a quantity. `price` is absent when the caller
      supplied none. */
  datatype CartItem = CartItem(productId: int, name: string, color: Option<string>, size: Option<string>,
                               price: Option<int>, quantity: int)

  /** The argument of `addItem`: like a line, but the quantity may be missing. */
  datatype NewItem = NewItem(productId: int, name: string, color: Option<string>, size: Option<string>,
                             price: Option<int>, quantity: Option<int>)

  /** The identity key under which `addItem` merges lines: all four fields
      compared exactly, an absent colour or size matching only an absent one. */
  datatype Key = Key(productId: int, name: string, color: Option<string>, size: Option<string>)

  datatype CartTotals = CartTotals(count: int, amount: int)

  /** What storage holds under "cartItems": nothing (or the empty string),
      text that does not parse, or the serialized list of lines. */
  datatype Stored = Absent | Unparsable | Json(lines: seq<CartItem>)

  function KeyOf(line: CartItem): Key
  {
    Key(line.productId, line.name, line.color, line.size)
  }

  function RequestKey(item: NewItem): Key
  {
    Key(item.productId, item.name, item.color, item.size)
  }

  /** `item.quantity || 1`: a missing or zero quantity counts as one. */
  function DefaultedQuantity(quantity: Option<int>): (q: int)
    ensures q != 0
    ensures quantity.None? || quantity.value == 0 ==> q == 1
    ensures quantity.Some? && quantity.value >= 0 ==> q >= 1
    ensures quantity.Some? && quantity.value != 0 ==> q == quantity.value
  {
    if quantity.Some? && quantity.value != 0 then quantity.value else 1
  }

  /** `i.price || 0` */
  function UnitPrice(price: Option<int>): int
  {
    if price.Some? then price.value else 0
  }

  /** The line appended when no line has the item's key. */
  function NewLine(item: NewItem): CartItem
  {
    CartItem(item.productId, item.name, item.color, item.size, item.price, DefaultedQuantity(item.quantity))
  }

  /** An existing line after `item` was merged into it: only the quantity changes. */
  function Merged(line: CartItem, item: NewItem): CartItem
  {
    line.(quantity := line.quantity + DefaultedQuantity(item.quantity))
  }

  /** `findIndex` on the identity key: the first line with that key, if any. */
  function FindLine(items: seq<CartItem>, key: Key): (r: Option<nat>)
    ensures r.Some? ==> r.value < |items| && KeyOf(items[r.value]) == key
    ensures r.Some? ==> forall j :: 0 <= j < r.value ==> KeyOf(items[j]) != key
    ensures r.None? ==> forall j :: 0 <= j < |items| ==> KeyOf(items[j]) != key
  {
    if items == [] then None
    else if KeyOf(items[0]) == key then Some(0)
    else match FindLine(items[1..], key)
      case None => None
      case Some(i) => Some(i + 1)
  }

  /** The new item list computed by `addItem`. */
  function Added(items: seq<CartItem>, item: NewItem): (r: seq<CartItem>)
    ensures |items| <= |r| <= |items| + 1
    ensures forall i :: 0 <= i < |items| ==> KeyOf(r[i]) == KeyOf(items[i])
    ensures |r| == |items| + 1 ==> KeyOf(r[|items|]) == RequestKey(item)
    ensures exists i :: 0 <= i < |r| && KeyOf(r[i]) == RequestKey(item)
  {
    match FindLine(items, RequestKey(item))
    case Some(i) =>
      assert KeyOf(items[i := Merged(items[i], item)][i]) == RequestKey(item);
      items[i := Merged(items[i], item)]
    case None =>
      assert KeyOf((items + [NewLine(item)])[|items|]) == RequestKey(item);
      items + [NewLine(item)]
  }

  /** The new item list computed by `removeItem`: a filter on the product id
      alone, whatever the colour or size. */
  function Removed(items: seq<CartItem>, productId: int): (r: seq<CartItem>)
    ensures |r| <= |items|
    ensures forall i :: 0 <= i < |r| ==> r[i].productId != productId
  {
    if items == [] then []
    else if items[0].productId != productId then [items[0]] + Removed(items[1..], productId)
    else Removed(items[1..], productId)
  }

  function SumBy(items: seq<CartItem>, f: CartItem -> int): int
  {
    if items == [] then 0 else f(items[0]) + SumBy(items[1..], f)
  }

  function LineQuantity(line: CartItem): int
  {
    line.quantity
  }

  function LineAmount(line: CartItem): int
  {
    line.quantity * UnitPrice(line.price)
  }

  /** `totals.count`: the sum of the quantities. */
  function Count(items: seq<CartItem>): int
  {
    SumBy(items, LineQuantity)
  }

  /** `totals.amount`: the sum of quantity times price (a missing price is 0). */
  function Amount(items: seq<CartItem>): int
  {
    SumBy(items, LineAmount)
  }

  function TotalsOf(items: seq<CartItem>): CartTotals
  {
    CartTotals(Count(items), Amount(items))
  }

  /** The initial item list: absent or unparsable data falls back to empty. */
  function Load(stored: Stored): seq<CartItem>
  {
    match stored
    case Json(lines) => lines
    case _ => []
  }

  function Serialize(items: seq<CartItem>): (stored: Stored)
    ensures Load(stored) == items
  {
    Json(items)
  }

  /** No two lines share an identity key. */
  ghost predicate UniqueKeys(items: seq<CartItem>)
  {
    forall i, j :: 0 <= i < j < |items| ==> KeyOf(items[i]) != KeyOf(items[j])
  }

  ghost predicate PositiveQuantities(items: seq<CartItem>)
  {
    forall i :: 0 <= i < |items| ==> items[i].quantity >= 1
  }

  lemma {:induction false} SumByUpdate(items: seq<CartItem>, j: nat, line: CartItem, f: CartItem -> int)
    requires j < |items|
    ensures SumBy(items[j := line], f) == SumBy(items, f) - f(items[j]) + f(line)
  {
    if j == 0 {
      assert items[j := line][1..] == items[1..];
    } else {
      assert items[j := line][1..] == items[1..][j - 1 := line];
      SumByUpdate(items[1..], j - 1, line, f);
    }
  }

  lemma {:induction false} SumByAppend(items: seq<CartItem>, line: CartItem, f: CartItem -> int)
    ensures SumBy(items + [line], f) == SumBy(items, f) + f(line)
  {
    if items != [] {
      assert (items + [line])[1..] == items[1..] + [line];
      SumByAppend(items[1..], line, f);
    }
  }

  /** When a line already has the item's key, `addItem` keeps the length and
      the positions, raises that line's quantity by the defaulted quantity,
      keeps its price, name, colour and size snapshot, and leaves every other
      line alone; the totals grow by the added quantity, charged at the
      line's own price. */
  lemma AddMergesMatchingLine(items: seq<CartItem>, item: NewItem, j: nat)
    requires UniqueKeys(items)
    requires j < |items| && KeyOf(items[j]) == RequestKey(item)
    ensures |Added(items, item)| == |items|
    ensures Added(items, item)[j] == items[j].(quantity := items[j].quantity + DefaultedQuantity(item.quantity))
    ensures forall i :: 0 <= i < |items| && i != j ==> Added(items, item)[i] == items[i]
    ensures Count(Added(items, item)) == Count(items) + DefaultedQuantity(item.quantity)
    ensures Amount(Added(items, item)) == Amount(items) + DefaultedQuantity(item.quantity) * UnitPrice(items[j].price)
  {
    var found := FindLine(items, RequestKey(item));
    assert found.Some?;
    assert found.value == j;
    var q, p := DefaultedQuantity(item.quantity), UnitPrice(items[j].price);
    SumByUpdate(items, j, Merged(items[j], item), LineQuantity);
    SumByUpdate(items, j, Merged(items[j], item), LineAmount);
    assert LineAmount(Merged(items[j], item)) == (items[j].quantity + q) * p;
    assert (items[j].quantity + q) * p == items[j].quantity * p + q * p;
  }

  /** When no line has the item's key, `addItem` appends exactly one line
      holding the item's fields and its defaulted quantity, and keeps the
      prefix; the totals grow by that line. */
  lemma AddAppendsWhenNoMatch(items: seq<CartItem>, item: NewItem)
    requires forall i :: 0 <= i < |items| ==> KeyOf(items[i]) != RequestKey(item)
    ensures |Added(items, item)| == |items| + 1
    ensures Added(items, item)[..|items|] == items
    ensures KeyOf(Added(items, item)[|items|]) == RequestKey(item)
    ensures Added(items, item)[|items|].price == item.price
    ensures Added(items, item)[|items|].quantity == DefaultedQuantity(item.quantity)
    ensures Count(Added(items, item)) == Count(items) + DefaultedQuantity(item.quantity)
    ensures Amount(Added(items, item)) == Amount(items) + DefaultedQuantity(item.quantity) * UnitPrice(item.price)
  {
    assert FindLine(items, RequestKey(item)).None?;
    assert (items + [NewLine(item)])[..|items|] == items;
    SumByAppend(items, NewLine(item), LineQuantity);
    SumByAppend(items, NewLine(item), LineAmount);
  }

  /** Whatever the cart holds, `addItem` raises the count by exactly the
      defaulted quantity. */
  lemma AddGrowsCount(items: seq<CartItem>, item: NewItem)
    ensures Count(Added(items, item)) == Count(items) + DefaultedQuantity(item.quantity)
  {
    match FindLine(items, RequestKey(item))
    case Some(i) => SumByUpdate(items, i, Merged(items[i], item), LineQuantity);
    case None => SumByAppend(items, NewLine(item), LineQuantity);
  }

  /** `addItem` keeps the identity keys unique. */
  lemma AddKeepsKeysUnique(items: seq<CartItem>, item: NewItem)
    requires UniqueKeys(items)
    ensures UniqueKeys(Added(items, item))
  {
    var r := Added(items, item);
    match FindLine(items, RequestKey(item))
    case Some(i) =>
      assert forall k :: 0 <= k < |items| ==> KeyOf(r[k]) == KeyOf(items[k]);
    case None =>
      assert forall k :: 0 <= k < |items| ==> r[k] == items[k];
  }

  /** With non-negative supplied quantities every stored quantity stays at least one. */
  lemma AddKeepsQuantitiesPositive(items: seq<CartItem>, item: NewItem)
    requires PositiveQuantities(items)
    requires item.quantity.None? || item.quantity.value >= 0
    ensures PositiveQuantities(Added(items, item))
  {
  }

  /** A run of `addItem` calls, in order. */
  function AddAll(items: seq<CartItem>, requests: seq<NewItem>): (r: seq<CartItem>)
    ensures Count(r) == Count(items) + DefaultedSum(requests)
    decreases |requests|
  {
    if requests == [] then items
    else
      AddGrowsCount(items, requests[0]);
      AddAll(Added(items, requests[0]), requests[1..])
  }

  /** The sum of the defaulted quantities of a run of requests. */
  function DefaultedSum(requests: seq<NewItem>): int
  {
    if requests == [] then 0 else DefaultedQuantity(requests[0].quantity) + DefaultedSum(requests[1..])
  }

  /** Repeated adds under the key of an existing line all land on that line. */
  lemma {:induction false} RepeatedAddsMergeIntoLine(items: seq<CartItem>, requests: seq<NewItem>, j: nat)
    requires UniqueKeys(items)
    requires j < |items|
    requires forall k :: 0 <= k < |requests| ==> RequestKey(requests[k]) == KeyOf(items[j])
    ensures |AddAll(items, requests)| == |items|
    ensures AddAll(items, requests)[j] == items[j].(quantity := items[j].quantity + DefaultedSum(requests))
    ensures forall i :: 0 <= i < |items| && i != j ==> AddAll(items, requests)[i] == items[i]
    ensures UniqueKeys(AddAll(items, requests))
    decreases |requests|
  {
    if requests != [] {
      var next := Added(items, requests[0]);
      AddMergesMatchingLine(items, requests[0], j);
      AddKeepsKeysUnique(items, requests[0]);
      RepeatedAddsMergeIntoLine(next, requests[1..], j);
    }
  }

  /** Repeated adds of one key that the cart does not hold yet produce
      exactly one new line, at the end, whose quantity is the sum of the
      defaulted quantities. */
  lemma {:induction false} RepeatedAddsMakeOneLine(items: seq<CartItem>, requests: seq<NewItem>)
    requires UniqueKeys(items)
    requires requests != []
    requires forall k :: 0 <= k < |requests| ==> RequestKey(requests[k]) == RequestKey(requests[0])
    requires forall i :: 0 <= i < |items| ==> KeyOf(items[i]) != RequestKey(requests[0])
    ensures |AddAll(items, requests)| == |items| + 1
    ensures AddAll(items, requests)[..|items|] == items
    ensures KeyOf(AddAll(items, requests)[|items|]) == RequestKey(requests[0])
    ensures AddAll(items, requests)[|items|].quantity == DefaultedSum(requests)
    ensures UniqueKeys(AddAll(items, requests))
  {
    var first := Added(items, requests[0]);
    AddAppendsWhenNoMatch(items, requests[0]);
    AddKeepsKeysUnique(items, requests[0]);
    RepeatedAddsMergeIntoLine(first, requests[1..], |items|);
    var r := AddAll(first, requests[1..]);
    assert r == AddAll(items, requests);
    assert r[..|items|] == first[..|items|];
  }

  /** `removeItem(p)` keeps exactly the lines whose product id is not `p`,
      whatever their colour or size. */
  lemma {:induction false} RemovedMembers(items: seq<CartItem>, productId: int)
    ensures forall line :: line in Removed(items, productId) <==> line in items && line.productId != productId
  {
    if items != [] {
      RemovedMembers(items[1..], productId);
      assert items == [items[0]] + items[1..];
    }
  }

  /** `removeItem` keeps the remaining lines in their original relative order. */
  lemma {:induction false} RemovedKeepsOrder(items: seq<CartItem>, productId: int)
    ensures IsSubsequence(Removed(items, productId), items)
  {
    if items != [] {
      RemovedKeepsOrder(items[1..], productId);
      var rest := Removed(items[1..], productId);
      if items[0].productId != productId {
        assert ([items[0]] + rest)[1..] == rest;
      }
    }
  }

  /** `removeItem` keeps the identity keys unique. */
  lemma {:induction false} RemoveKeepsKeysUnique(items: seq<CartItem>, productId: int)
    requires UniqueKeys(items)
    ensures UniqueKeys(Removed(items, productId))
  {
    if items != [] {
      var rest := Removed(items[1..], productId);
      RemoveKeepsKeysUnique(items[1..], productId);
      RemovedMembers(items[1..], productId);
      if items[0].productId != productId {
        forall j | 0 <= j < |rest|
          ensures KeyOf(items[0]) != KeyOf(rest[j])
        {
          assert rest[j] in items[1..];
          var k :| 0 <= k < |items[1..]| && items[1..][k] == rest[j];
          assert items[k + 1] == rest[j];
        }
        var r := [items[0]] + rest;
        forall i, j | 0 <= i < j < |r|
          ensures KeyOf(r[i]) != KeyOf(r[j])
        {
          if i > 0 {
            assert r[i] == rest[i - 1] && r[j] == rest[j - 1];
          }
        }
      }
    }
  }

  /** `removeItem` keeps every stored quantity at least one. */
  lemma RemoveKeepsQuantitiesPositive(items: seq<CartItem>, productId: int)
    requires PositiveQuantities(items)
    ensures PositiveQuantities(Removed(items, productId))
  {
    RemovedMembers(items, productId);
    var r := Removed(items, productId);
    forall i | 0 <= i < |r|
      ensures r[i].quantity >= 1
    {
      assert r[i] in items;
    }
  }

  /** Saving a list and loading it back gives the same list; absent or
      unparsable data loads as the empty cart. */
  lemma LoadAfterSave(items: seq<CartItem>)
    ensures Load(Serialize(items)) == items
    ensures Load(Absent) == [] && Load(Unparsable) == []
  {
  }

  /** The cart provider's state: the item list and what storage holds
      under "cartItems". Every change is followed by a best-effort write of
      the whole list; `writeOk` says whether that write succeeded (a failed
      write is swallowed and leaves storage as it was). */
  class CartStore {
    var items: seq<CartItem>
    var saved: Stored

    /** Mount: load the stored list, then run the persist effect once. */
    constructor (stored: Stored, writeOk: bool)
      ensures items == Load(stored)
      ensures saved == (if writeOk then Serialize(items) else stored)
    {
      items := Load(stored);
      saved := stored;
      new;
      Persist(writeOk);
    }

    /** The effect that writes the list to storage after each change. */
    method Persist(writeOk: bool)
      modifies this
      ensures items == old(items)
      ensures saved == (if writeOk then Serialize(items) else old(saved))
    {
      if writeOk {
        saved := Serialize(items);
      }
    }

    method AddItem(item: NewItem, writeOk: bool)
      modifies this
      ensures items == Added(old(items), item)
      ensures saved == (if writeOk then Serialize(items) else old(saved))
      ensures UniqueKeys(old(items)) ==> UniqueKeys(items)
      ensures Count(items) == Count(old(items)) + DefaultedQuantity(item.quantity)
    {
      ghost var before := items;
      var existingIndex := FindLine(items, RequestKey(item));
      if existingIndex.Some? {
        var i := existingIndex.value;
        items := items[i := Merged(items[i], item)];
      } else {
        items := items + [NewLine(item)];
      }
      if UniqueKeys(before) {
        AddKeepsKeysUnique(before, item);
      }
      AddGrowsCount(before, item);
      Persist(writeOk);
    }

    method RemoveItem(productId: int, writeOk: bool)
      modifies this
      ensures items == Removed(old(items), productId)
      ensures forall line :: line in items <==> line in old(items) && line.productId != productId
      ensures saved == (if writeOk then Serialize(items) else old(saved))
      ensures UniqueKeys(old(items)) ==> UniqueKeys(items)
    {
      ghost var before := items;
      items := Removed(items, productId);
      RemovedMembers(before, productId);
      if UniqueKeys(before) {
        RemoveKeepsKeysUnique(before, productId);
      }
      Persist(writeOk);
    }

    method Clear(writeOk: bool)
      modifies this
      ensures items == []
      ensures saved == (if writeOk then Serialize([]) else old(saved))
    {
      items := [];
      Persist(writeOk);
    }

    /** Recomputed from the current list on every read. */
    function Totals(): CartTotals
      reads this
    {
      TotalsOf(items)
    }
  }

  /** The same variant added twice, first without a quantity and then with
      quantity 2, at 10.00: one line of quantity 3, totals 3 and 30.00. */
  method AddSameVariantTwice() returns (lines: seq<CartItem>, totals: CartTotals)
    ensures |lines| == 1 && lines[0].quantity == 3
    ensures totals == CartTotals(3, 3000)
  {
    var cart := new CartStore(Absent, true);
    var red := NewItem(1, "T", Some("Red"), Some("M"), Some(1000), None);
    cart.AddItem(red, true);
    assert cart.items == [NewLine(red)];
    cart.AddItem(red.(quantity := Some(2)), true);
    assert cart.items == [NewLine(red).(quantity := 3)];
    lines := cart.items;
    totals := cart.Totals();
    assert lines[1..] == [];
    assert Amount(lines) == LineAmount(lines[0]) + SumBy([], LineAmount);
    assert Count(lines) == 3 && Amount(lines) == 3000;
  }

  /** A red and a blue line of one product are two lines, and removing the
      product drops both. */
  method RemoveDropsEveryVariant() returns (before: seq<CartItem>, after: seq<CartItem>)
    ensures |before| == 2 && before[0].color != before[1].color
    ensures after == []
  {
    var cart := new CartStore(Absent, true);
    var red := NewItem(1, "T", Some("Red"), Some("M"), Some(1000), None);
    cart.AddItem(red, true);
    cart.AddItem(red.(color := Some("Blue")), true);
    before := cart.items;
    assert before == [NewLine(red), NewLine(red.(color := Some("Blue")))];
    cart.RemoveItem(1, true);
    assert Removed(before[1..], 1) == [];
    after := cart.items;
  }

  /** An add whose write succeeds survives a reload of the page. */
  method AddThenReload(stored: Stored, item: NewItem) returns (reloaded: seq<CartItem>)
    ensures reloaded == Added(Load(stored), item)
  {
    var cart := new CartStore(stored, true);
    cart.AddItem(item, true);
    var again := new CartStore(cart.saved, true);
    reloaded := again.items;
  }
}
