/**
 * The cart the page holds and mutates: one object whose `lines` field the
 * three cart operations update in place. Persisting to storage and refreshing
 * the page after each operation are not part of this model.
 */
module CartStore {
  import Seqs
  import opened Catalog
  import opened CartModel

  class Cart {
    var lines: seq<CartLine>

    /** The session starts with an empty cart. */
    constructor ()
      ensures lines == []
    {
      lines := [];
    }

    /** `addToCart`: bump the product's line, or append a fresh line for it. */
    method AddToCart(products: seq<Product>, productId: int)
      modifies this
      ensures lines == AddItem(old(lines), products, productId)
      ensures WellFormed(old(lines)) ==> WellFormed(lines)
      ensures ItemCount(lines) == ItemCount(old(lines)) + (if InCatalog(products, productId) then 1 else 0)
    {
      ghost var before := lines;
      if WellFormed(before) {
        AddItemKeepsWellFormed(before, products, productId);
      }
      AddItemTotals(before, products, productId);
      var product := FindProduct(products, productId);
      if product.None? {
        return;
      }
      var existing := LineIndex(lines, productId);
      if existing.Some? {
        var i := existing.value;
        lines := lines[i := lines[i].(quantity := lines[i].quantity + 1)];
      } else {
        var p := product.value;
        lines := lines + [CartLine(p.id, p.name, p.price, p.image, 1)];
      }
    }

    /** `removeFromCart`: keep only the lines of other products. */
    method RemoveFromCart(productId: int)
      modifies this
      ensures lines == RemoveLines(old(lines), productId)
      ensures !HasLine(lines, productId)
      ensures WellFormed(old(lines)) ==> WellFormed(lines)
    {
      ghost var before := lines;
      if WellFormed(before) {
        RemoveLinesKeepsWellFormed(before, productId);
      }
      lines := Seqs.Filter(lines, LacksLineId(productId));
    }

    /**
     * `updateQuantity`: add `change` to the product's line; a line whose
     * quantity drops to zero or below is removed.
     */
    method UpdateQuantity(productId: int, change: int)
      modifies this
      ensures lines == ChangeQuantity(old(lines), productId, change)
      ensures WellFormed(old(lines)) ==> WellFormed(lines)
    {
      ghost var before := lines;
      if WellFormed(before) {
        ChangeQuantityKeepsWellFormed(before, productId, change);
      }
      var found := LineIndex(lines, productId);
      if found.None? {
        return;
      }
      var i := found.value;
      // The line is changed first, and only then is the new quantity looked at.
      lines := lines[i := lines[i].(quantity := lines[i].quantity + change)];
      if lines[i].quantity <= 0 {
        RemoveIgnoresQuantity(before, productId, i, lines[i].quantity);
        RemoveFromCart(productId);
        assert lines == RemoveLines(before, productId);
      } else {
        assert lines == WithQuantity(before, i, before[i].quantity + change);
      }
    }
  }
}
