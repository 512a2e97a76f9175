/**
 * The shopping cart as a value: its line records, the invariant the three
 * cart operations keep, the operations as functions of the old cart, and the
 * two totals the page shows.
 */
module CartModel {
  import opened Wrappers
  import opened Seqs
  import opened Catalog

  /**
   * One cart line. Name, price and image are copied from the product when the
   * line is created and are not looked up again.
   */
  datatype CartLine = CartLine(id: int, name: string, price: nat, image: string, quantity: int)

  /** The line `addToCart` appends for a product not yet in the cart. */
  function NewLine(p: Product): CartLine
  {
    CartLine(p.id, p.name, p.price, p.image, 1)
  }

  function HasLineId(id: int): CartLine -> bool
  {
    (l: CartLine) => l.id == id
  }

  function LacksLineId(id: int): CartLine -> bool
  {
    (l: CartLine) => l.id != id
  }

  predicate HasLine(lines: seq<CartLine>, id: int)
  {
    exists i :: 0 <= i < |lines| && lines[i].id == id
  }

  /** `lines[i]` is the first line carrying `id`, the one `cart.find` returns. */
  predicate FirstLine(lines: seq<CartLine>, id: int, i: int)
  {
    0 <= i < |lines| && lines[i].id == id && forall j :: 0 <= j < i ==> lines[j].id != id
  }

  /** There is only one first line of `id`. */
  lemma FirstLineUnique(lines: seq<CartLine>, id: int, i: int)
    requires FirstLine(lines, id, i)
    ensures forall j :: FirstLine(lines, id, j) ==> j == i
  {
  }

  predicate DistinctIds(lines: seq<CartLine>)
  {
    forall i, j :: 0 <= i < j < |lines| ==> lines[i].id != lines[j].id
  }

  predicate PositiveQuantities(lines: seq<CartLine>)
  {
    forall i :: 0 <= i < |lines| ==> lines[i].quantity >= 1
  }

  /** The cart invariant: at most one line per product, every quantity at least 1. */
  predicate WellFormed(lines: seq<CartLine>)
  {
    DistinctIds(lines) && PositiveQuantities(lines)
  }

  function LineIndex(lines: seq<CartLine>, id: int): (r: Option<nat>)
    ensures r.None? <==> !HasLine(lines, id)
    ensures r.Some? ==> FirstLine(lines, id, r.value)
  {
    FindIndex(lines, HasLineId(id))
  }

  function WithQuantity(lines: seq<CartLine>, i: nat, q: int): (r: seq<CartLine>)
    requires i < |lines|
  {
    lines[i := lines[i].(quantity := q)]
  }

  /** The cart after `addToCart(id)` with catalog `products`. */
  function AddItem(lines: seq<CartLine>, products: seq<Product>, id: int): (r: seq<CartLine>)
    ensures !InCatalog(products, id) ==> r == lines
    ensures forall i {:trigger FirstLine(lines, id, i)} :: InCatalog(products, id) && FirstLine(lines, id, i) ==>
      r == WithQuantity(lines, i, lines[i].quantity + 1)
    ensures forall k {:trigger FirstProduct(products, id, k)} :: FirstProduct(products, id, k) && !HasLine(lines, id) ==>
      r == lines + [NewLine(products[k])]
  {
    match FindProduct(products, id)
    case None => lines
    case Some(p) =>
      match LineIndex(lines, id)
      case Some(i) => FirstLineUnique(lines, id, i); WithQuantity(lines, i, lines[i].quantity + 1)
      case None => lines + [NewLine(p)]
  }

  /** The cart after `removeFromCart(id)`: every line of `id` dropped, the rest in order. */
  function RemoveLines(lines: seq<CartLine>, id: int): (r: seq<CartLine>)
    ensures forall j :: 0 <= j < |r| ==> r[j] in lines && r[j].id != id
    ensures forall j :: 0 <= j < |lines| && lines[j].id != id ==> lines[j] in r
    ensures !HasLine(lines, id) ==> r == lines
  {
    if !HasLine(lines, id) then FilterKeepsAll(lines, LacksLineId(id)); Filter(lines, LacksLineId(id))
    else Filter(lines, LacksLineId(id))
  }

  /** The cart after `updateQuantity(id, change)`. */
  function ChangeQuantity(lines: seq<CartLine>, id: int, change: int): (r: seq<CartLine>)
    ensures !HasLine(lines, id) ==> r == lines
    ensures forall i {:trigger FirstLine(lines, id, i)} :: FirstLine(lines, id, i) && lines[i].quantity + change <= 0 ==>
      r == RemoveLines(lines, id)
    ensures forall i {:trigger FirstLine(lines, id, i)} :: FirstLine(lines, id, i) && lines[i].quantity + change > 0 ==>
      r == WithQuantity(lines, i, lines[i].quantity + change)
  {
    match LineIndex(lines, id)
    case None => lines
    case Some(i) =>
      FirstLineUnique(lines, id, i);
      var q := lines[i].quantity + change;
      if q <= 0 then RemoveLines(lines, id) else WithQuantity(lines, i, q)
  }

  function LineQuantity(l: CartLine): int
  {
    l.quantity
  }

  function LineSubtotal(l: CartLine): int
  {
    l.price * l.quantity
  }

  /** The cart badge: `cart.reduce((sum, item) => sum + item.quantity, 0)`. */
  function ItemCount(lines: seq<CartLine>): (n: int)
    ensures n == Sum(lines, LineQuantity)
    ensures |lines| == 0 ==> n == 0
    ensures PositiveQuantities(lines) ==> n >= |lines|
  {
    ReduceIsSum(lines, LineQuantity, 0);
    if PositiveQuantities(lines) then SumAtLeastLength(lines, LineQuantity); Reduce(lines, LineQuantity, 0)
    else Reduce(lines, LineQuantity, 0)
  }

  /**
   * The cart total, the reduce over `item.price * item.quantity` that both the
   * cart panel and the order message compute.
   */
  function CartTotal(lines: seq<CartLine>): (t: int)
    ensures t == Sum(lines, LineSubtotal)
    ensures |lines| == 0 ==> t == 0
    ensures PositiveQuantities(lines) ==> t >= 0
  {
    ReduceIsSum(lines, LineSubtotal, 0);
    if PositiveQuantities(lines) then SumNonNegative(lines, LineSubtotal); Reduce(lines, LineSubtotal, 0)
    else Reduce(lines, LineSubtotal, 0)
  }

  /** The cart after `addToCart(id)` has been called `n` times. */
  function AddRepeatedly(lines: seq<CartLine>, products: seq<Product>, id: int, n: nat): seq<CartLine>
  {
    if n == 0 then lines else AddItem(AddRepeatedly(lines, products, id, n - 1), products, id)
  }

  // ----- The invariant is kept -----

  lemma AddItemKeepsWellFormed(lines: seq<CartLine>, products: seq<Product>, id: int)
    requires WellFormed(lines)
    ensures WellFormed(AddItem(lines, products, id))
  {
    if InCatalog(products, id) && !HasLine(lines, id) {
      var k := ProductIndex(products, id).value;
      assert AddItem(lines, products, id) == lines + [NewLine(products[k])];
    }
  }

  lemma {:induction false} RemoveLinesKeepsWellFormed(lines: seq<CartLine>, id: int)
    requires WellFormed(lines)
    ensures WellFormed(RemoveLines(lines, id))
  {
    if |lines| > 0 {
      var rest := lines[1..];
      RemoveLinesKeepsWellFormed(rest, id);
      var tail := RemoveLines(rest, id);
      assert RemoveLines(lines, id) == (if lines[0].id != id then [lines[0]] else []) + tail;
      forall j | 0 <= j < |tail| ensures tail[j].id != lines[0].id {
        assert tail[j] in rest;
      }
    }
  }

  lemma ChangeQuantityKeepsWellFormed(lines: seq<CartLine>, id: int, change: int)
    requires WellFormed(lines)
    ensures WellFormed(ChangeQuantity(lines, id, change))
  {
    if HasLine(lines, id) {
      var i := LineIndex(lines, id).value;
      if lines[i].quantity + change <= 0 {
        RemoveLinesKeepsWellFormed(lines, id);
      }
    }
  }

  // ----- Removal -----

  /** Lines of other products are untouched and stay in order: removal works piecewise. */
  lemma RemoveLinesAppend(a: seq<CartLine>, b: seq<CartLine>, id: int)
    ensures RemoveLines(a + b, id) == RemoveLines(a, id) + RemoveLines(b, id)
  {
    FilterAppend(a, b, LacksLineId(id));
  }

  lemma RemoveLinesIdempotent(lines: seq<CartLine>, id: int)
    ensures RemoveLines(RemoveLines(lines, id), id) == RemoveLines(lines, id)
  {
    FilterIdempotent(lines, LacksLineId(id));
  }

  /** In a well-formed cart, removal takes out exactly the one line of `id`. */
  lemma RemoveLinesSplit(lines: seq<CartLine>, id: int, i: nat)
    requires DistinctIds(lines) && i < |lines| && lines[i].id == id
    ensures RemoveLines(lines, id) == lines[..i] + lines[i + 1..]
  {
    var before, after := lines[..i], lines[i + 1..];
    assert lines == before + [lines[i]] + after;
    assert !HasLine(before, id) by {
      forall j | 0 <= j < |before| ensures before[j].id != id {
        assert before[j] == lines[j];
      }
    }
    assert !HasLine(after, id) by {
      forall j | 0 <= j < |after| ensures after[j].id != id {
        assert after[j] == lines[i + 1 + j];
      }
    }
    assert RemoveLines([lines[i]], id) == [] by {
      assert [lines[i]][1..] == [];
    }
    RemoveLinesAppend(before + [lines[i]], after, id);
    RemoveLinesAppend(before, [lines[i]], id);
  }

  /** Changing the quantity of a line of `id` before removing `id` makes no difference. */
  lemma RemoveIgnoresQuantity(lines: seq<CartLine>, id: int, i: nat, q: int)
    requires i < |lines| && lines[i].id == id
    ensures RemoveLines(WithQuantity(lines, i, q), id) == RemoveLines(lines, id)
  {
    var changed := WithQuantity(lines, i, q);
    assert lines == lines[..i] + [lines[i]] + lines[i + 1..];
    assert changed == lines[..i] + [changed[i]] + lines[i + 1..];
    RemoveLinesAppend(lines[..i] + [lines[i]], lines[i + 1..], id);
    RemoveLinesAppend(lines[..i], [lines[i]], id);
    RemoveLinesAppend(lines[..i] + [changed[i]], lines[i + 1..], id);
    RemoveLinesAppend(lines[..i], [changed[i]], id);
    assert [lines[i]][1..] == [] && [changed[i]][1..] == [];
  }

  /** `updateQuantity(id, -q)` where q is the line's quantity is `removeFromCart(id)`. */
  lemma ChangeByMinusQuantityRemoves(lines: seq<CartLine>, id: int, i: nat)
    requires FirstLine(lines, id, i)
    ensures ChangeQuantity(lines, id, -lines[i].quantity) == RemoveLines(lines, id)
    ensures !HasLine(ChangeQuantity(lines, id, -lines[i].quantity), id)
  {
  }

  // ----- Totals under the operations -----

  /** Setting one line's quantity to `q` moves the totals by that line's difference. */
  lemma WithQuantityTotals(lines: seq<CartLine>, i: nat, q: int)
    requires i < |lines|
    ensures ItemCount(WithQuantity(lines, i, q)) == ItemCount(lines) - lines[i].quantity + q
    ensures CartTotal(WithQuantity(lines, i, q)) == CartTotal(lines) + lines[i].price * (q - lines[i].quantity)
  {
    var l := lines[i];
    SumUpdate(lines, i, l.(quantity := q), LineQuantity);
    SumUpdate(lines, i, l.(quantity := q), LineSubtotal);
    assert LineSubtotal(l.(quantity := q)) == LineSubtotal(l) + l.price * (q - l.quantity);
  }

  /** Appending a line adds its quantity and its subtotal. */
  lemma AppendTotals(lines: seq<CartLine>, l: CartLine)
    ensures ItemCount(lines + [l]) == ItemCount(lines) + l.quantity
    ensures CartTotal(lines + [l]) == CartTotal(lines) + l.price * l.quantity
  {
    SumAppend(lines, [l], LineQuantity);
    SumAppend(lines, [l], LineSubtotal);
    assert [l][1..] == [];
  }

  lemma AddItemTotals(lines: seq<CartLine>, products: seq<Product>, id: int)
    ensures !InCatalog(products, id) ==>
      ItemCount(AddItem(lines, products, id)) == ItemCount(lines)
      && CartTotal(AddItem(lines, products, id)) == CartTotal(lines)
    ensures InCatalog(products, id) ==> ItemCount(AddItem(lines, products, id)) == ItemCount(lines) + 1
    ensures forall i {:trigger FirstLine(lines, id, i)} :: InCatalog(products, id) && FirstLine(lines, id, i) ==>
      CartTotal(AddItem(lines, products, id)) == CartTotal(lines) + lines[i].price
    ensures forall k {:trigger FirstProduct(products, id, k)} :: FirstProduct(products, id, k) && !HasLine(lines, id) ==>
      CartTotal(AddItem(lines, products, id)) == CartTotal(lines) + products[k].price
  {
    if InCatalog(products, id) {
      var k := ProductIndex(products, id).value;
      FirstProductUnique(products, id, k);
      if HasLine(lines, id) {
        var i := LineIndex(lines, id).value;
        FirstLineUnique(lines, id, i);
        WithQuantityTotals(lines, i, lines[i].quantity + 1);
      } else {
        AppendTotals(lines, NewLine(products[k]));
      }
    }
  }

  lemma RemoveLinesTotals(lines: seq<CartLine>, id: int, i: nat)
    requires DistinctIds(lines) && i < |lines| && lines[i].id == id
    ensures ItemCount(RemoveLines(lines, id)) == ItemCount(lines) - lines[i].quantity
    ensures CartTotal(RemoveLines(lines, id)) == CartTotal(lines) - lines[i].price * lines[i].quantity
  {
    RemoveLinesSplit(lines, id, i);
    assert lines == lines[..i] + [lines[i]] + lines[i + 1..];
    SumAppend(lines[..i] + [lines[i]], lines[i + 1..], LineQuantity);
    SumAppend(lines[..i], [lines[i]], LineQuantity);
    SumAppend(lines[..i], lines[i + 1..], LineQuantity);
    SumAppend(lines[..i] + [lines[i]], lines[i + 1..], LineSubtotal);
    SumAppend(lines[..i], [lines[i]], LineSubtotal);
    SumAppend(lines[..i], lines[i + 1..], LineSubtotal);
  }

  lemma ChangeQuantityTotals(lines: seq<CartLine>, id: int, change: int, i: nat)
    requires FirstLine(lines, id, i) && lines[i].quantity + change > 0
    ensures ItemCount(ChangeQuantity(lines, id, change)) == ItemCount(lines) + change
    ensures CartTotal(ChangeQuantity(lines, id, change)) == CartTotal(lines) + lines[i].price * change
  {
    FirstLineUnique(lines, id, i);
    WithQuantityTotals(lines, i, lines[i].quantity + change);
  }

  // ----- Repeated additions -----

  /** Adding a catalog product to the empty cart gives the one fresh line for it. */
  lemma AddItemToEmpty(products: seq<Product>, id: int, k: nat)
    requires FirstProduct(products, id, k)
    ensures AddItem([], products, id) == [NewLine(products[k])]
  {
    FirstProductUnique(products, id, k);
    assert !HasLine([], id);
    assert AddItem([], products, id) == [] + [NewLine(products[k])];
  }

  /** Adding a catalog product to the cart holding just its line bumps that line. */
  lemma AddItemToOneLine(products: seq<Product>, id: int, l: CartLine)
    requires InCatalog(products, id) && l.id == id
    ensures AddItem([l], products, id) == [l.(quantity := l.quantity + 1)]
  {
    assert FirstLine([l], id, 0);
    assert AddItem([l], products, id) == WithQuantity([l], 0, l.quantity + 1);
  }

  /** From an empty cart, n additions of a catalog product give one line of quantity n. */
  lemma {:induction false} AddRepeatedlyFromEmpty(products: seq<Product>, id: int, n: nat, k: nat)
    requires FirstProduct(products, id, k) && n >= 1
    ensures AddRepeatedly([], products, id, n) == [NewLine(products[k]).(quantity := n)]
  {
    var line := NewLine(products[k]);
    assert InCatalog(products, id);
    if n == 1 {
      assert AddRepeatedly([], products, id, 1) == AddItem([], products, id);
      AddItemToEmpty(products, id, k);
    } else {
      AddRepeatedlyFromEmpty(products, id, n - 1, k);
      var before := line.(quantity := n - 1);
      assert AddRepeatedly([], products, id, n) == AddItem([before], products, id);
      AddItemToOneLine(products, id, before);
      assert before.(quantity := before.quantity + 1) == line.(quantity := n);
    }
  }

  /** Additions of an identifier missing from the catalog never change the cart. */
  lemma {:induction false} AddRepeatedlyUnknown(lines: seq<CartLine>, products: seq<Product>, id: int, n: nat)
    requires !InCatalog(products, id)
    ensures AddRepeatedly(lines, products, id, n) == lines
  {
    if n > 0 {
      AddRepeatedlyUnknown(lines, products, id, n - 1);
    }
  }

  // ----- A worked case -----

  /**
   * Two additions of product 1 (price 50000) and one of product 2 (price
   * 30000) give two lines, 3 items and a total of 130000; taking 2 off
   * product 1 then removes its line.
   */
  lemma TwoProductsScenario(p1: Product, p2: Product)
    requires p1.id == 1 && p1.price == 50000 && p2.id == 2 && p2.price == 30000
    ensures var cart := AddItem(AddItem(AddItem([], [p1, p2], 1), [p1, p2], 1), [p1, p2], 2);
      cart == [NewLine(p1).(quantity := 2), NewLine(p2)]
      && ItemCount(cart) == 3 && CartTotal(cart) == 130000
      && ChangeQuantity(cart, 1, -2) == [NewLine(p2)]
  {
    var products := [p1, p2];
    assert FirstProduct(products, 1, 0) && FirstProduct(products, 2, 1);
    var one := AddItem([], products, 1);
    assert one == [NewLine(p1)];
    var two := AddItem(one, products, 1);
    assert FirstLine(one, 1, 0);
    assert two == [NewLine(p1).(quantity := 2)];
    var cart := AddItem(two, products, 2);
    assert !HasLine(two, 2);
    assert cart == [NewLine(p1).(quantity := 2), NewLine(p2)];
    assert cart[1..] == [NewLine(p2)] && cart[1..][1..] == [];
    assert Sum(cart, LineQuantity) == 2 + Sum(cart[1..], LineQuantity) == 3;
    assert Sum(cart, LineSubtotal) == 100000 + Sum(cart[1..], LineSubtotal) == 130000;
    assert FirstLine(cart, 1, 0);
    RemoveLinesSplit(cart, 1, 0);
  }
}
