/**
 * The cart store of src/store/cartSlice.ts. The reducers update the draft
 * state in place, so the store is a class whose fields are the cart's items
 * and its stored total; the folds and the reducers' effect on the items are
 * functions, and the lemmas state what each reducer does to a well-formed cart.
 */
module Cart {
  import opened Wrappers
  import opened Types

  /** `item.price * item.quantity` */
  function LineTotal(item: CartItem): int
  {
    item.price * item.quantity
  }

  /** `items.reduce((sum, item) => sum + item.price * item.quantity, 0)`, folding from the left. */
  function Total(items: seq<CartItem>): int
  {
    if items == [] then 0 else Total(items[..|items| - 1]) + LineTotal(items[|items| - 1])
  }

  /** `items.reduce((count, item) => count + item.quantity, 0)` */
  function Count(items: seq<CartItem>): int
  {
    if items == [] then 0 else Count(items[..|items| - 1]) + items[|items| - 1].quantity
  }

  predicate HasId(items: seq<CartItem>, id: string)
  {
    exists i :: 0 <= i < |items| && items[i].id == id
  }

  predicate UniqueIds(items: seq<CartItem>)
  {
    forall i, j :: 0 <= i < j < |items| ==> items[i].id != items[j].id
  }

  predicate AllPositive(items: seq<CartItem>)
  {
    forall i :: 0 <= i < |items| ==> items[i].quantity >= 1
  }

  /** The item invariant: no two lines share an id and every quantity is at least 1. */
  predicate WellFormed(items: seq<CartItem>)
  {
    UniqueIds(items) && AllPositive(items)
  }

  /** A cart state whose stored total is the sum over its well-formed items. */
  predicate Consistent(state: CartState)
  {
    WellFormed(state.items) && state.total == Total(state.items)
  }

  /** `items.find(item => item.id === id)`, as the position of the first match. */
  function IndexOf(items: seq<CartItem>, id: string): (r: Option<nat>)
    ensures r.None? <==> !HasId(items, id)
    ensures r.Some? ==> r.value < |items| && items[r.value].id == id
    ensures r.Some? ==> forall j :: 0 <= j < r.value ==> items[j].id != id
  {
    if items == [] then None
    else if items[0].id == id then Some(0)
    else
      match IndexOf(items[1..], id)
      case None => None
      case Some(k) => Some(k + 1)
  }

  /** `items.filter(item => item.id !== id)` */
  function WithoutId(items: seq<CartItem>, id: string): (r: seq<CartItem>)
    ensures forall x {:trigger x in r} :: x in r <==> x in items && x.id != id
    ensures |r| <= |items|
  {
    if items == [] then []
    else (if items[0].id != id then [items[0]] else []) + WithoutId(items[1..], id)
  }

  /** The items after `addItem(item)`. */
  function AddedItems(items: seq<CartItem>, item: CartItem): seq<CartItem>
  {
    match IndexOf(items, item.id)
    case Some(k) => items[k := items[k].(quantity := items[k].quantity + 1)]
    case None => items + [item.(quantity := 1)]
  }

  /** The items after `removeItem(id)`. */
  function RemovedItems(items: seq<CartItem>, id: string): seq<CartItem>
  {
    match IndexOf(items, id)
    case Some(k) =>
      if items[k].quantity == 1 then WithoutId(items, id)
      else items[k := items[k].(quantity := items[k].quantity - 1)]
    case None => items
  }

  /** `addItem` applied `n` times with the same payload. */
  function AddedTimes(items: seq<CartItem>, item: CartItem, n: nat): seq<CartItem>
  {
    if n == 0 then items else AddedItems(AddedTimes(items, item, n - 1), item)
  }

  /** `selectCartItems`: what a reader sees of a consistent state is well-formed and sums to the stored total. */
  function SelectCartItems(state: CartState): (items: seq<CartItem>)
    ensures Consistent(state) ==> WellFormed(items) && Total(items) == SelectCartTotal(state)
  {
    state.items
  }

  /** `selectCartTotal`: the stored total, equal to the recomputed sum in a consistent state. */
  function SelectCartTotal(state: CartState): (total: int)
    ensures Consistent(state) ==> total == Total(state.items)
  {
    state.total
  }

  /** `selectCartItemCount`: the sum of quantities, zero exactly when a consistent cart is empty. */
  function SelectCartItemCount(state: CartState): (count: int)
    ensures Consistent(state) ==> count >= |state.items| && (count == 0 <==> state.items == [])
  {
    CountCoversLines(state.items);
    Count(state.items)
  }

  // ---------------------------------------------------------------------------
  // Folds over concatenations and single-line updates

  /** The total is never negative when no price or quantity is. */
  lemma {:induction false} TotalNonNegative(items: seq<CartItem>)
    requires forall i :: 0 <= i < |items| ==> items[i].price >= 0 && items[i].quantity >= 0
    ensures Total(items) >= 0
  {
    if items != [] {
      var last := items[|items| - 1];
      TotalNonNegative(items[..|items| - 1]);
      assert last.price * last.quantity >= 0;
    }
  }

  /** With every quantity at least 1, the count is at least the number of lines. */
  lemma {:induction false} CountCoversLines(items: seq<CartItem>)
    ensures AllPositive(items) ==> Count(items) >= |items|
  {
    if items != [] {
      CountCoversLines(items[..|items| - 1]);
    }
  }

  lemma {:induction false} TotalConcat(a: seq<CartItem>, b: seq<CartItem>)
    ensures Total(a + b) == Total(a) + Total(b)
  {
    if b != [] {
      var b' := b[..|b| - 1];
      assert (a + b)[..|a + b| - 1] == a + b';
      TotalConcat(a, b');
    } else {
      assert a + b == a;
    }
  }

  lemma {:induction false} CountConcat(a: seq<CartItem>, b: seq<CartItem>)
    ensures Count(a + b) == Count(a) + Count(b)
  {
    if b != [] {
      var b' := b[..|b| - 1];
      assert (a + b)[..|a + b| - 1] == a + b';
      CountConcat(a, b');
    } else {
      assert a + b == a;
    }
  }

  /** Changing a line's quantity by `d` changes its line total by `d` times its price. */
  lemma LineTotalShift(item: CartItem, d: int)
    ensures LineTotal(item.(quantity := item.quantity + d)) == LineTotal(item) + d * item.price
  {
  }

  /** The total splits around any one line. */
  lemma TotalSplit(items: seq<CartItem>, k: nat)
    requires k < |items|
    ensures Total(items) == Total(items[..k]) + LineTotal(items[k]) + Total(items[k + 1..])
  {
    var pre, line, post := items[..k], [items[k]], items[k + 1..];
    assert items == pre + line + post;
    TotalConcat(pre + line, post);
    TotalConcat(pre, line);
    assert line[..0] == [];
  }

  /** The count splits around any one line. */
  lemma CountSplit(items: seq<CartItem>, k: nat)
    requires k < |items|
    ensures Count(items) == Count(items[..k]) + items[k].quantity + Count(items[k + 1..])
  {
    var pre, line, post := items[..k], [items[k]], items[k + 1..];
    assert items == pre + line + post;
    CountConcat(pre + line, post);
    CountConcat(pre, line);
    assert line[..0] == [];
  }

  /** Replacing one line changes the total and the count by that line's difference alone. */
  lemma UpdateLine(items: seq<CartItem>, k: nat, x: CartItem)
    requires k < |items|
    ensures Total(items[k := x]) == Total(items) - LineTotal(items[k]) + LineTotal(x)
    ensures Count(items[k := x]) == Count(items) - items[k].quantity + x.quantity
  {
    var updated := items[k := x];
    assert updated[..k] == items[..k] && updated[k + 1..] == items[k + 1..];
    TotalSplit(items, k);
    TotalSplit(updated, k);
    CountSplit(items, k);
    CountSplit(updated, k);
  }

  /** Deleting one line removes exactly its contribution. */
  lemma DeleteLine(items: seq<CartItem>, k: nat)
    requires k < |items|
    ensures Total(items[..k] + items[k + 1..]) == Total(items) - LineTotal(items[k])
    ensures Count(items[..k] + items[k + 1..]) == Count(items) - items[k].quantity
  {
    TotalSplit(items, k);
    TotalConcat(items[..k], items[k + 1..]);
    CountSplit(items, k);
    CountConcat(items[..k], items[k + 1..]);
  }

  /** Filtering out an id that is absent changes nothing. */
  lemma {:induction false} WithoutAbsentId(items: seq<CartItem>, id: string)
    requires !HasId(items, id)
    ensures WithoutId(items, id) == items
  {
    if items != [] {
      assert !HasId(items[1..], id) by {
        forall i | 0 <= i < |items[1..]| ensures items[1..][i].id != id {
          assert items[1..][i] == items[i + 1];
        }
      }
      WithoutAbsentId(items[1..], id);
      assert items == [items[0]] + items[1..];
    }
  }

  /** Dropping the head keeps ids unique. */
  lemma TailUniqueIds(items: seq<CartItem>)
    requires UniqueIds(items) && items != []
    ensures UniqueIds(items[1..])
  {
    var tail := items[1..];
    forall i, j | 0 <= i < j < |tail| ensures tail[i].id != tail[j].id {
      assert tail[i] == items[i + 1] && tail[j] == items[j + 1];
    }
  }

  /** With unique ids, the filter deletes exactly the one matching line and keeps the others in order. */
  lemma {:induction false} WithoutUniqueId(items: seq<CartItem>, id: string, k: nat)
    requires UniqueIds(items) && k < |items| && items[k].id == id
    ensures WithoutId(items, id) == items[..k] + items[k + 1..]
  {
    var tail := items[1..];
    if k == 0 {
      assert !HasId(tail, id) by {
        forall i | 0 <= i < |tail| ensures tail[i].id != id {
          assert tail[i] == items[i + 1];
        }
      }
      WithoutAbsentId(tail, id);
      assert items[..0] + items[1..] == tail;
    } else {
      TailUniqueIds(items);
      assert tail[k - 1] == items[k];
      WithoutUniqueId(tail, id, k - 1);
      WithoutKeepsHead(items, id, k);
    }
  }

  /** One step of `WithoutUniqueId`: a head line whose id differs is kept in front of the filtered tail. */
  lemma WithoutKeepsHead(items: seq<CartItem>, id: string, k: nat)
    requires 0 < k < |items| && items[0].id != id
    requires WithoutId(items[1..], id) == items[1..][..k - 1] + items[1..][k..]
    ensures WithoutId(items, id) == items[..k] + items[k + 1..]
  {
    assert items[..k] == [items[0]] + items[1..][..k - 1];
    assert items[k + 1..] == items[1..][k..];
  }

  // ---------------------------------------------------------------------------
  // addItem

  /**
   * Adding an id already in the cart raises that line's quantity by exactly 1;
   * its name and price stay, the payload's are ignored, and every other line
   * stays where and what it was.
   */
  lemma AddExisting(items: seq<CartItem>, item: CartItem, k: nat)
    requires UniqueIds(items) && k < |items| && items[k].id == item.id
    ensures var r := AddedItems(items, item);
      && |r| == |items|
      && r[k].id == items[k].id && r[k].name == items[k].name && r[k].price == items[k].price
      && r[k].quantity == items[k].quantity + 1
      && (forall j :: 0 <= j < |items| && j != k ==> r[j] == items[j])
  {
    assert IndexOf(items, item.id) == Some(k);
  }

  /** Adding a new id appends one line with the payload's id, name and price and quantity 1. */
  lemma AddNew(items: seq<CartItem>, item: CartItem)
    requires !HasId(items, item.id)
    ensures AddedItems(items, item) == items + [CartItem(item.id, item.name, item.price, 1)]
  {
  }

  /**
   * `addItem` adds one unit to the count and one unit price to the total: the
   * stored line's price when the id is present, the payload's otherwise.
   */
  lemma AddTotals(items: seq<CartItem>, item: CartItem)
    ensures var r := AddedItems(items, item);
      && Count(r) == Count(items) + 1
      && Total(r) == Total(items) +
           match IndexOf(items, item.id)
           case Some(k) => items[k].price
           case None => item.price
  {
    match IndexOf(items, item.id)
    case Some(k) =>
      UpdateLine(items, k, items[k].(quantity := items[k].quantity + 1));
      LineTotalShift(items[k], 1);
    case None =>
      var line := item.(quantity := 1);
      TotalConcat(items, [line]);
      CountConcat(items, [line]);
      assert [line][..0] == [];
  }

  lemma AddPreservesWellFormed(items: seq<CartItem>, item: CartItem)
    requires WellFormed(items)
    ensures WellFormed(AddedItems(items, item))
  {
    var r := AddedItems(items, item);
    if HasId(items, item.id) {
      assert forall j :: 0 <= j < |r| ==> r[j].id == items[j].id;
    } else {
      assert forall j :: 0 <= j < |items| ==> r[j] == items[j];
    }
  }

  /** Adding a new id `n` times gives one line, at the end, with quantity `n`. */
  lemma {:induction false} AddRepeated(items: seq<CartItem>, item: CartItem, n: nat)
    requires !HasId(items, item.id) && n >= 1
    ensures AddedTimes(items, item, n) == items + [CartItem(item.id, item.name, item.price, n)]
  {
    if n > 1 {
      AddRepeated(items, item, n - 1);
      var prev := items + [CartItem(item.id, item.name, item.price, n - 1)];
      assert prev[|items|].id == item.id;
      assert forall j :: 0 <= j < |items| ==> prev[j] == items[j];
      assert IndexOf(prev, item.id) == Some(|items|);
      assert prev[|items| := CartItem(item.id, item.name, item.price, n)] ==
        items + [CartItem(item.id, item.name, item.price, n)];
    }
  }

  // ---------------------------------------------------------------------------
  // removeItem

  /** Removing an id that is not in the cart leaves the items as they are. */
  lemma RemoveAbsent(items: seq<CartItem>, id: string)
    requires !HasId(items, id)
    ensures RemovedItems(items, id) == items
  {
  }

  /**
   * Removing the last unit of a line deletes that line; the remaining lines
   * keep their order and contents.
   */
  lemma RemoveLastUnit(items: seq<CartItem>, id: string, k: nat)
    requires UniqueIds(items) && k < |items| && items[k].id == id && items[k].quantity == 1
    ensures var r := RemovedItems(items, id);
      && r == items[..k] + items[k + 1..]
      && !HasId(r, id)
  {
    assert IndexOf(items, id) == Some(k);
    WithoutUniqueId(items, id, k);
  }

  /** Removing one unit of a line with more than one lowers its quantity by exactly 1 and changes nothing else. */
  lemma RemoveOneUnit(items: seq<CartItem>, id: string, k: nat)
    requires UniqueIds(items) && k < |items| && items[k].id == id && items[k].quantity != 1
    ensures RemovedItems(items, id) == items[k := items[k].(quantity := items[k].quantity - 1)]
  {
    assert IndexOf(items, id) == Some(k);
  }

  /**
   * `removeItem` of an id in a cart with unique ids takes one unit off the
   * count and that line's price off the total.
   */
  lemma RemoveTotals(items: seq<CartItem>, id: string, k: nat)
    requires UniqueIds(items) && k < |items| && items[k].id == id
    ensures var r := RemovedItems(items, id);
      && Count(r) == Count(items) - 1
      && Total(r) == Total(items) - items[k].price
  {
    var r := RemovedItems(items, id);
    if items[k].quantity == 1 {
      RemoveLastUnit(items, id, k);
      DeleteLine(items, k);
    } else {
      var x := items[k].(quantity := items[k].quantity - 1);
      RemoveOneUnit(items, id, k);
      UpdateLine(items, k, x);
      LineTotalShift(items[k], -1);
      assert LineTotal(x) == LineTotal(items[k]) - items[k].price;
    }
  }

  /** Deleting a line from a well-formed cart leaves a well-formed cart. */
  lemma DeletePreservesWellFormed(items: seq<CartItem>, k: nat)
    requires WellFormed(items) && k < |items|
    ensures WellFormed(items[..k] + items[k + 1..])
  {
    var r := items[..k] + items[k + 1..];
    assert forall i :: 0 <= i < |r| ==> r[i] == items[if i < k then i else i + 1];
  }

  lemma RemovePreservesWellFormed(items: seq<CartItem>, id: string)
    requires WellFormed(items)
    ensures WellFormed(RemovedItems(items, id))
  {
    if HasId(items, id) {
      var k := IndexOf(items, id).value;
      if items[k].quantity == 1 {
        WithoutUniqueId(items, id, k);
        DeletePreservesWellFormed(items, k);
      }
    }
  }

  /**
   * `removeItem` then `addItem` of the same id: a line with more than one unit
   * comes back exactly as it was; a line with one unit is re-created at the end
   * from the payload, with quantity 1.
   */
  lemma RemoveThenAdd(items: seq<CartItem>, item: CartItem, k: nat)
    requires WellFormed(items) && k < |items| && items[k].id == item.id
    ensures items[k].quantity > 1 ==> AddedItems(RemovedItems(items, item.id), item) == items
    ensures items[k].quantity == 1 ==>
      AddedItems(RemovedItems(items, item.id), item) ==
        items[..k] + items[k + 1..] + [CartItem(item.id, item.name, item.price, 1)]
  {
    var r := RemovedItems(items, item.id);
    if items[k].quantity > 1 {
      RemoveOneUnit(items, item.id, k);
      assert forall j :: 0 <= j < |r| ==> r[j].id == items[j].id;
      assert IndexOf(r, item.id) == Some(k);
    } else {
      RemoveLastUnit(items, item.id, k);
      AddNew(r, item);
    }
  }

  /** Adding the same item twice to an empty cart: one line with quantity 2 and twice the price. */
  lemma AddTwiceExample()
    ensures var widget := CartItem("x", "Widget", 999, 1);
      var r := AddedItems(AddedItems([], widget), widget);
      r == [CartItem("x", "Widget", 999, 2)] && Total(r) == 1998
  {
    var widget := CartItem("x", "Widget", 999, 1);
    AddRepeated([], widget, 2);
    var r := AddedTimes([], widget, 2);
    assert r[..0] == [];
  }

  // ---------------------------------------------------------------------------
  // The store

  class CartSlice {
    var items: seq<CartItem>
    var total: int

    ghost predicate Valid()
      reads this
    {
      Consistent(State())
    }

    function State(): CartState
      reads this
    {
      CartState(items, total)
    }

    /** The slice's initial state: no items, total 0. */
    constructor ()
      ensures items == [] && total == 0 && Valid()
    {
      items := [];
      total := 0;
    }

    /** `addItem`: the total is recomputed whatever the state was before. */
    method AddItem(item: CartItem)
      modifies this
      ensures items == AddedItems(old(items), item)
      ensures total == Total(items)
      ensures old(Valid()) ==> Valid()
    {
      var found := IndexOf(items, item.id);
      if found.Some? {
        var k := found.value;
        items := items[k := items[k].(quantity := items[k].quantity + 1)];
      } else {
        items := items + [item.(quantity := 1)];
      }
      total := Total(items);
      if old(Valid()) {
        AddPreservesWellFormed(old(items), item);
      }
    }

    /** `removeItem`: an absent id changes neither the items nor the total. */
    method RemoveItem(id: string)
      modifies this
      ensures items == RemovedItems(old(items), id)
      ensures HasId(old(items), id) ==> total == Total(items)
      ensures !HasId(old(items), id) ==> items == old(items) && total == old(total)
      ensures old(Valid()) ==> Valid()
    {
      var found := IndexOf(items, id);
      if found.Some? {
        var k := found.value;
        if items[k].quantity == 1 {
          items := WithoutId(items, id);
        } else {
          items := items[k := items[k].(quantity := items[k].quantity - 1)];
        }
        total := Total(items);
      }
      if old(Valid()) {
        RemovePreservesWellFormed(old(items), id);
      }
    }

    /** `clearCart`: from any state, the initial state; so clearing twice is clearing once. */
    method ClearCart()
      modifies this
      ensures items == [] && total == 0 && Valid()
    {
      items := [];
      total := 0;
    }
  }

  /** The cart scenario: an item added twice, then removed twice, leaves the cart empty. */
  method CartExample()
  {
    var cart := new CartSlice();
    var widget := CartItem("x", "Widget", 999, 1);
    cart.AddItem(widget);
    cart.AddItem(widget);
    AddTwiceExample();
    var two := [CartItem("x", "Widget", 999, 2)];
    assert cart.items == two && cart.total == 1998;
    cart.RemoveItem("x");
    RemoveOneUnit(two, "x", 0);
    var one := [CartItem("x", "Widget", 999, 1)];
    assert cart.items == one;
    cart.RemoveItem("x");
    RemoveLastUnit(one, "x", 0);
    assert cart.items == [] && cart.total == 0;
  }
}
