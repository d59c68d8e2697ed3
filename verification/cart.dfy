/**
 * The buyer app's cart: a map from product to quantity, locked to one vendor
 * at a time. The buyer's product class is keyed by object identity and is not
 * part of this model; a product here is its id and its price (in paise).
 */
module Cart {
  import opened Common

  datatype Product = Product(id: ProductId, price: int)

  /** One line of the order the cart becomes: the product id and its quantity. */
  datatype OrderItemRequest = OrderItemRequest(productId: ProductId, requestedQty: int)

  /** `getOrDefault(product, 0)`. */
  function QuantityOf(items: map<Product, int>, product: Product): int
  {
    if product in items then items[product] else 0
  }

  /** What one cart line costs: price times quantity. */
  function Subtotal(items: map<Product, int>, p: Product): int
    requires p in items
  {
    p.price * items[p]
  }

  /** The sum of the subtotals of the given products of the cart, taken in any order. */
  ghost function SumOver(items: map<Product, int>, keys: set<Product>): int
    requires keys <= items.Keys
    decreases keys
  {
    if keys == {} then 0
    else
      var p :| p in keys;
      Subtotal(items, p) + SumOver(items, keys - {p})
  }

  /** `Σ price × quantity` over the whole cart. */
  ghost function CartTotal(items: map<Product, int>): int
  {
    SumOver(items, items.Keys)
  }

  /** The sum does not depend on which product is taken first. */
  lemma {:induction false} SumOverRemove(items: map<Product, int>, keys: set<Product>, p: Product)
    requires keys <= items.Keys && p in keys
    ensures SumOver(items, keys) == Subtotal(items, p) + SumOver(items, keys - {p})
    decreases keys
  {
    var q :| q in keys && SumOver(items, keys) == Subtotal(items, q) + SumOver(items, keys - {q});
    if q != p {
      SumOverRemove(items, keys - {q}, p);
      SumOverRemove(items, keys - {p}, q);
      assert keys - {q} - {p} == keys - {p} - {q};
    }
  }

  /** Two carts that agree on the given products have the same sum over them. */
  lemma {:induction false} SumOverAgree(a: map<Product, int>, b: map<Product, int>, keys: set<Product>)
    requires keys <= a.Keys && keys <= b.Keys
    requires forall p :: p in keys ==> a[p] == b[p]
    ensures SumOver(a, keys) == SumOver(b, keys)
    decreases keys
  {
    if keys != {} {
      var p :| p in keys && SumOver(a, keys) == Subtotal(a, p) + SumOver(a, keys - {p});
      SumOverRemove(b, keys, p);
      SumOverAgree(a, b, keys - {p});
      assert Subtotal(a, p) == Subtotal(b, p);
    }
  }

  /**
   * Storing a quantity for a product changes the cart total by the new
   * subtotal minus the old one (nothing, when the product was absent).
   */
  lemma CartTotalPut(items: map<Product, int>, p: Product, quantity: int)
    ensures CartTotal(items[p := quantity]) == CartTotal(items) - p.price * QuantityOf(items, p) + p.price * quantity
  {
    var after := items[p := quantity];
    var others := items.Keys - {p};
    assert after.Keys - {p} == others;
    SumOverRemove(after, after.Keys, p);
    SumOverAgree(after, items, others);
    if p in items {
      SumOverRemove(items, items.Keys, p);
    } else {
      assert items.Keys == others;
    }
  }

  /** Removing a product takes exactly its subtotal off the cart total. */
  lemma CartTotalRemove(items: map<Product, int>, p: Product)
    requires p in items
    ensures CartTotal(items - {p}) == CartTotal(items) - p.price * items[p]
  {
    var rest := items - {p};
    assert rest.Keys == items.Keys - {p};
    SumOverRemove(items, items.Keys, p);
    SumOverAgree(rest, items, rest.Keys);
  }

  /** With non-negative prices and quantities the total is never negative. */
  lemma {:induction false} SumOverNonNegative(items: map<Product, int>, keys: set<Product>)
    requires keys <= items.Keys
    requires forall p :: p in keys ==> p.price >= 0 && items[p] >= 0
    ensures SumOver(items, keys) >= 0
    decreases keys
  {
    if keys != {} {
      var p :| p in keys && SumOver(items, keys) == Subtotal(items, p) + SumOver(items, keys - {p});
      SumOverNonNegative(items, keys - {p});
      assert Subtotal(items, p) >= 0;
    }
  }

  /** The cart. A fresh cart is empty and locked to no vendor. */
  class CartManager {
    var items: map<Product, int>
    var vendorId: Option<VendorId>
    var vendorName: Option<string>

    /** A non-empty cart belongs to a vendor. */
    predicate Locked()
      reads this
    {
      items != map[] ==> vendorId.Some?
    }

    /** Every stored quantity is positive. */
    predicate PositiveQuantities()
      reads this
    {
      forall p :: p in items ==> items[p] > 0
    }

    constructor ()
      ensures items == map[] && vendorId.None? && vendorName.None?
      ensures Locked() && PositiveQuantities()
    {
      items := map[];
      vendorId := None;
      vendorName := None;
    }

    /**
     * `addItem`: refused, changing nothing, when the cart is locked to another
     * vendor; otherwise locks the cart to this vendor and adds the quantity to
     * what is there, whatever its sign.
     */
    method AddItem(vendor: VendorId, name: string, product: Product, quantity: int) returns (added: bool)
      modifies this
      ensures added <==> old(vendorId).None? || old(vendorId) == Some(vendor)
      ensures !added ==> items == old(items) && vendorId == old(vendorId) && vendorName == old(vendorName)
      ensures added ==> vendorId == Some(vendor) && vendorName == Some(name)
                        && items == old(items)[product := QuantityOf(old(items), product) + quantity]
      ensures old(Locked()) ==> Locked()
      ensures old(PositiveQuantities()) && quantity > 0 ==> PositiveQuantities()
    {
      if vendorId.Some? && vendorId.value != vendor {
        return false;
      }
      vendorId := Some(vendor);
      vendorName := Some(name);
      var current := QuantityOf(items, product);
      items := items[product := current + quantity];
      added := true;
    }

    /** `removeItem`: drops the product if present; emptying the cart also clears the vendor lock. */
    method RemoveItem(product: Product)
      modifies this
      ensures product !in old(items) ==>
                items == old(items) && vendorId == old(vendorId) && vendorName == old(vendorName)
      ensures product in old(items) ==> items == old(items) - {product}
      ensures product in old(items) && items == map[] ==> vendorId.None? && vendorName.None?
      ensures product in old(items) && items != map[] ==> vendorId == old(vendorId) && vendorName == old(vendorName)
      ensures old(Locked()) ==> Locked()
      ensures old(PositiveQuantities()) ==> PositiveQuantities()
    {
      if product in items {
        items := items - {product};
        if items == map[] {
          ClearCart();
        }
      }
    }

    /**
     * `setQuantity`: refused, changing nothing, when the cart is locked to
     * another vendor; otherwise locks an unlocked cart to this vendor, then
     * removes the product for a quantity of 0 or less and stores the quantity
     * otherwise.
     */
    method SetQuantity(vendor: VendorId, name: string, product: Product, quantity: int) returns (accepted: bool)
      modifies this
      ensures accepted <==> old(vendorId).None? || old(vendorId) == Some(vendor)
      ensures !accepted ==> items == old(items) && vendorId == old(vendorId) && vendorName == old(vendorName)
      ensures accepted && quantity > 0 ==> items == old(items)[product := quantity]
      ensures accepted && quantity <= 0 ==> items == old(items) - {product}
      ensures accepted && !(quantity <= 0 && product in old(items) && items == map[]) ==>
                && vendorId == (if old(vendorId).None? then Some(vendor) else old(vendorId))
                && vendorName == (if old(vendorId).None? then Some(name) else old(vendorName))
      ensures accepted && quantity <= 0 && product in old(items) && items == map[] ==> vendorId.None? && vendorName.None?
      ensures old(Locked()) ==> Locked()
      ensures old(PositiveQuantities()) ==> PositiveQuantities()
    {
      if vendorId.Some? && vendorId.value != vendor {
        return false;
      }
      if vendorId.None? {
        vendorId := Some(vendor);
        vendorName := Some(name);
      }
      if quantity <= 0 {
        RemoveItem(product);
      } else {
        items := items[product := quantity];
      }
      accepted := true;
    }

    /**
     * `updateQuantity`: as `setQuantity` but without looking at or setting the
     * vendor lock, so it can fill a cart that belongs to no vendor.
     */
    method UpdateQuantity(product: Product, quantity: int)
      modifies this
      ensures quantity > 0 ==> items == old(items)[product := quantity]
                               && vendorId == old(vendorId) && vendorName == old(vendorName)
      ensures quantity <= 0 ==> items == old(items) - {product}
      ensures quantity <= 0 && !(product in old(items) && items == map[]) ==>
                vendorId == old(vendorId) && vendorName == old(vendorName)
      ensures quantity <= 0 && product in old(items) && items == map[] ==> vendorId.None? && vendorName.None?
      ensures old(PositiveQuantities()) ==> PositiveQuantities()
    {
      if quantity <= 0 {
        RemoveItem(product);
      } else {
        items := items[product := quantity];
      }
    }

    /** `clearCart`: empty, and locked to no vendor. */
    method ClearCart()
      modifies this
      ensures items == map[] && vendorId.None? && vendorName.None?
    {
      items := map[];
      vendorId := None;
      vendorName := None;
    }

    /** `getTotalPrice`: walks the entries in the map's own order, summing price × quantity. */
    method GetTotalPrice() returns (total: int)
      ensures total == CartTotal(items)
    {
      total := 0;
      var rest := items.Keys;
      while rest != {}
        invariant rest <= items.Keys
        invariant total + SumOver(items, rest) == CartTotal(items)
        decreases rest
      {
        var p :| p in rest;
        SumOverRemove(items, rest, p);
        total := total + p.price * items[p];
        rest := rest - {p};
      }
    }

    /**
     * `getOrderItemsForApi`: one request line per cart product, with its
     * quantity, in the map's own order (`order`), no product twice.
     */
    method GetOrderItemsForApi() returns (requests: seq<OrderItemRequest>, ghost order: seq<Product>)
      ensures |requests| == |order| == |items|
      ensures forall i :: 0 <= i < |order| ==> order[i] in items
      ensures forall p :: p in items ==> p in order
      ensures forall i, j :: 0 <= i < j < |order| ==> order[i] != order[j]
      ensures forall i :: 0 <= i < |requests| ==> requests[i] == OrderItemRequest(order[i].id, items[order[i]])
    {
      requests := [];
      order := [];
      var rest := items.Keys;
      while rest != {}
        invariant rest <= items.Keys
        invariant |requests| == |order| && |order| + |rest| == |items.Keys|
        invariant forall i :: 0 <= i < |order| ==> order[i] in items && order[i] !in rest
        invariant forall p :: p in items && p !in rest ==> p in order
        invariant forall i, j :: 0 <= i < j < |order| ==> order[i] != order[j]
        invariant forall i :: 0 <= i < |requests| ==> requests[i] == OrderItemRequest(order[i].id, items[order[i]])
        decreases rest
      {
        var p :| p in rest;
        requests := requests + [OrderItemRequest(p.id, items[p])];
        order := order + [p];
        rest := rest - {p};
      }
    }
  }
}
