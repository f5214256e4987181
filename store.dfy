/** The page's mutable state and its event handlers: the catalog once loaded, the cart,
    the stored copy of the cart (storage key "carrito") and the purchase history (storage
    key "compras_historial"). */
module Store {
  import opened Wrappers
  import opened Catalog
  import opened Cart
  import opened Totals

  /** A confirmed purchase: the timestamp it was confirmed at and the lines bought. */
  datatype Purchase = Purchase(date: string, items: seq<Line>)

  class Store {
    var catalog: seq<Product>
    var lines: seq<Line>
    /** The last cart written to storage, `None` while the key is absent. */
    var saved: Option<seq<Line>>
    var history: seq<Purchase>

    /** Page start-up: the catalog is still empty, and the cart is read back from storage,
        an absent key giving the empty cart. */
    constructor (savedCart: Option<seq<Line>>, savedHistory: Option<seq<Purchase>>)
      ensures catalog == []
      ensures lines == savedCart.GetOr([])
      ensures saved == savedCart
      ensures history == savedHistory.GetOr([])
    {
      catalog := [];
      lines := savedCart.GetOr([]);
      saved := savedCart;
      history := savedHistory.GetOr([]);
    }

    /** Completion of the catalog fetch: the fetched products, or the empty catalog when the
        fetch or its parsing failed (`None`). */
    method LoadCatalog(fetched: Option<seq<Product>>)
      modifies this`catalog
      ensures fetched.Some? ==> catalog == fetched.value
      ensures fetched.None? ==> catalog == []
    {
      match fetched
      case Some(products) => catalog := products;
      case None => catalog := [];
    }

    /** `loadCart`: a stored cart replaces the current one; without one the cart is kept. */
    method LoadCart()
      modifies this`lines
      ensures old(saved).Some? ==> lines == old(saved).value
      ensures old(saved).None? ==> lines == old(lines)
    {
      if saved.Some? {
        lines := saved.value;
      }
    }

    /** `addToCart(id)`. An id missing from the catalog returns before anything is saved. */
    method Add(id: int)
      modifies this`lines, this`saved
      ensures lines == Added(old(lines), catalog, id)
      ensures ProductIndex(catalog, id).Some? ==> saved == Some(lines)
      ensures ProductIndex(catalog, id).None? ==> lines == old(lines) && saved == old(saved)
      ensures WellFormed(old(lines)) ==> WellFormed(lines)
      ensures ItemCount(lines) == ItemCount(old(lines)) + (if ProductIndex(catalog, id).Some? then 1 else 0)
    {
      if WellFormed(lines) {
        AddedWellFormed(lines, catalog, id);
      }
      AddedCount(lines, catalog, id);
      var product := ProductIndex(catalog, id);
      if product.None? {
        return;
      }
      var existing := LineIndex(lines, id);
      if existing.Some? {
        var k := existing.value;
        lines := lines[k := Incremented(lines[k])];
      } else {
        lines := lines + [NewLine(catalog[product.value])];
      }
      saved := Some(lines);
    }

    /** The `Eliminar` button: `carrito.splice(i, 1)`, which leaves the cart as it is when
        `i` is past its end; the cart is saved either way. */
    method Remove(i: nat)
      modifies this`lines, this`saved
      ensures i < |old(lines)| ==> lines == Removed(old(lines), i)
      ensures i >= |old(lines)| ==> lines == old(lines)
      ensures saved == Some(lines)
      ensures WellFormed(old(lines)) ==> WellFormed(lines)
      ensures i < |old(lines)| ==> ItemCount(lines) == ItemCount(old(lines)) - old(lines)[i].cantidad
    {
      if i < |lines| {
        if WellFormed(lines) {
          RemovedWellFormed(lines, i);
        }
        RemovedTotals(lines, i);
        lines := lines[..i] + lines[i + 1..];
      }
      saved := Some(lines);
    }

    /** The `-` button. Reading `carrito[i].cantidad` past the end throws, so the handler
        stops before changing or saving anything; `ok` tells which happened. */
    method Decrease(i: nat) returns (ok: bool)
      modifies this`lines, this`saved
      ensures ok == (i < |old(lines)|)
      ensures ok ==> lines == Decreased(old(lines), i) && saved == Some(lines)
      ensures !ok ==> lines == old(lines) && saved == old(saved)
      ensures WellFormed(old(lines)) ==> WellFormed(lines)
      ensures ok && WellFormed(old(lines)) ==> ItemCount(lines) == ItemCount(old(lines)) - 1
    {
      if i >= |lines| {
        return false;
      }
      if WellFormed(lines) {
        DecreasedWellFormed(lines, i);
        DecreasedTotals(lines, i);
      }
      if lines[i].cantidad > 1 {
        lines := lines[i := lines[i].(cantidad := lines[i].cantidad - 1)];
      } else {
        lines := lines[..i] + lines[i + 1..];
      }
      saved := Some(lines);
      ok := true;
    }

    /** The `+` button, failing like `Decrease` past the end of the cart. */
    method Increase(i: nat) returns (ok: bool)
      modifies this`lines, this`saved
      ensures ok == (i < |old(lines)|)
      ensures ok ==> lines == Increased(old(lines), i) && saved == Some(lines)
      ensures !ok ==> lines == old(lines) && saved == old(saved)
      ensures WellFormed(old(lines)) ==> WellFormed(lines)
      ensures ok ==> ItemCount(lines) == ItemCount(old(lines)) + 1
    {
      if i >= |lines| {
        return false;
      }
      if WellFormed(lines) {
        IncreasedWellFormed(lines, i);
      }
      IncreasedTotals(lines, i);
      lines := lines[i := Incremented(lines[i])];
      saved := Some(lines);
      ok := true;
    }

    /** The `Vaciar` button: the cart, and its stored copy, become empty. */
    method Clear()
      modifies this`lines, this`saved
      ensures lines == [] && saved == Some([])
      ensures WellFormed(lines) && ItemCount(lines) == 0
    {
      lines := [];
      saved := Some(lines);
    }

    /** The confirmation button. On an empty cart nothing changes; otherwise one purchase
        holding the cart's lines is appended to the history and the cart is emptied. */
    method Confirm(now: string) returns (bought: bool)
      modifies this`lines, this`saved, this`history
      ensures bought == (old(lines) != [])
      ensures !bought ==> lines == old(lines) && saved == old(saved) && history == old(history)
      ensures bought ==> history == old(history) + [Purchase(now, old(lines))]
      ensures bought ==> lines == [] && saved == Some([])
    {
      if |lines| == 0 {
        return false;
      }
      history := history + [Purchase(now, lines)];
      lines := [];
      saved := Some(lines);
      bought := true;
    }

    /** The figures `renderCart` shows: subtotal, IVA, total and the badge count. */
    method Figures() returns (subtotal: nat, iva: nat, total: nat, count: nat)
      ensures subtotal == Subtotal(lines)
      ensures 100 * iva - 50 <= 21 * subtotal < 100 * iva + 50
      ensures total == subtotal + iva
      ensures count == Sum(lines, Quantity)
    {
      subtotal, iva, total := ComputeTotals(lines);
      count := ItemCount(lines);
    }

    /** The products the `Ofertas` filter shows. */
    method Offers() returns (shown: seq<Product>)
      ensures shown == Ofertas(catalog)
      ensures |shown| <= |catalog|
      ensures forall p :: p in shown <==> p in catalog && OnOffer(p)
    {
      shown := Ofertas(catalog);
    }
  }
}
