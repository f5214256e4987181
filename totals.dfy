/** The figures `renderCart` derives from the cart: unit prices, subtotal, IVA, total and
    the item-count badge. Amounts are whole currency units. */
module Totals {
  import opened Wrappers
  import opened Catalog
  import opened Cart

  /** The offer price `Math.round(precio * 0.7)`: 70% of the price, rounded to the nearest
      unit with halves rounded up. */
  function Discounted(precio: nat): (r: nat)
    ensures 10 * r - 5 <= 7 * precio < 10 * r + 5
    ensures r <= precio
  {
    (7 * precio + 5) / 10
  }

  /** The tax `Math.round(subtotal * 0.21)`: 21% of the subtotal, rounded to the nearest unit
      with halves rounded up. */
  function Iva(subtotal: nat): (r: nat)
    ensures 100 * r - 50 <= 21 * subtotal < 100 * r + 50
  {
    (21 * subtotal + 50) / 100
  }

  /** The price charged per unit of a line: discounted when the line was added on offer. */
  function UnitPrice(l: Line): (r: nat)
    ensures r <= l.precio
    ensures !l.oferta ==> r == l.precio
    ensures l.oferta ==> 10 * r - 5 <= 7 * l.precio < 10 * r + 5
  {
    if l.oferta then Discounted(l.precio) else l.precio
  }

  function LineTotal(l: Line): nat {
    UnitPrice(l) * l.cantidad
  }

  function Quantity(l: Line): nat {
    l.cantidad
  }

  /** The sum of `f` over the lines. */
  function Sum(lines: seq<Line>, f: Line -> nat): nat {
    if lines == [] then 0 else f(lines[0]) + Sum(lines[1..], f)
  }

  function Subtotal(lines: seq<Line>): nat {
    Sum(lines, LineTotal)
  }

  lemma {:induction false} SumConcat(a: seq<Line>, b: seq<Line>, f: Line -> nat)
    ensures Sum(a + b, f) == Sum(a, f) + Sum(b, f)
  {
    if a == [] {
      assert a + b == b;
    } else {
      assert (a + b)[1..] == a[1..] + b;
      SumConcat(a[1..], b, f);
    }
  }

  lemma SumSingle(l: Line, f: Line -> nat)
    ensures Sum([l], f) == f(l)
  {
    assert [l][1..] == [];
  }

  /** The sum over `lines`, split around position `i`. */
  lemma SumSplit(lines: seq<Line>, i: nat, f: Line -> nat)
    requires i < |lines|
    ensures Sum(lines, f) == Sum(lines[..i], f) + f(lines[i]) + Sum(lines[i + 1..], f)
  {
    var pre, post := lines[..i], lines[i + 1..];
    assert lines == pre + ([lines[i]] + post);
    SumConcat(pre, [lines[i]] + post, f);
    SumConcat([lines[i]], post, f);
    SumSingle(lines[i], f);
  }

  /** Replacing the line at `i` changes the sum by exactly the difference on that line. */
  lemma SumUpdate(lines: seq<Line>, i: nat, l: Line, f: Line -> nat)
    requires i < |lines|
    ensures Sum(lines[i := l], f) == Sum(lines, f) - f(lines[i]) + f(l)
  {
    var u := lines[i := l];
    assert u[..i] == lines[..i] && u[i + 1..] == lines[i + 1..];
    SumSplit(lines, i, f);
    SumSplit(u, i, f);
  }

  /** Removing the line at `i` lowers the sum by exactly that line's share. */
  lemma SumRemoved(lines: seq<Line>, i: nat, f: Line -> nat)
    requires i < |lines|
    ensures Sum(Removed(lines, i), f) == Sum(lines, f) - f(lines[i])
  {
    assert Removed(lines, i) == lines[..i] + lines[i + 1..];
    SumConcat(lines[..i], lines[i + 1..], f);
    SumSplit(lines, i, f);
  }

  /** The badge count `carrito.reduce((s, i) => s + i.cantidad, 0)`: a left fold from `acc`. */
  function Reduce(lines: seq<Line>, acc: nat): nat {
    if lines == [] then acc else Reduce(lines[1..], acc + lines[0].cantidad)
  }

  lemma {:induction false} ReduceIsSum(lines: seq<Line>, acc: nat)
    ensures Reduce(lines, acc) == acc + Sum(lines, Quantity)
  {
    if lines != [] {
      ReduceIsSum(lines[1..], acc + lines[0].cantidad);
    }
  }

  /** The number shown on the cart badge is the total number of units in the cart. */
  function ItemCount(lines: seq<Line>): (r: nat)
    ensures r == Sum(lines, Quantity)
    ensures lines == [] ==> r == 0
  {
    ReduceIsSum(lines, 0);
    Reduce(lines, 0)
  }

  /** The totals block of `renderCart`: the subtotal accumulated line by line, the IVA on
      it and their sum. */
  method ComputeTotals(lines: seq<Line>) returns (subtotal: nat, iva: nat, total: nat)
    ensures subtotal == Subtotal(lines)
    ensures 100 * iva - 50 <= 21 * subtotal < 100 * iva + 50
    ensures total == subtotal + iva
  {
    subtotal := 0;
    for k := 0 to |lines|
      invariant subtotal == Sum(lines[..k], LineTotal)
    {
      var precioUnit := UnitPrice(lines[k]);
      var itemTotal := precioUnit * lines[k].cantidad;
      assert lines[..k + 1] == lines[..k] + [lines[k]];
      SumConcat(lines[..k], [lines[k]], LineTotal);
      subtotal := subtotal + itemTotal;
    }
    assert lines[..|lines|] == lines;
    iva := Iva(subtotal);
    total := subtotal + iva;
  }

  /** Adding a catalog product puts one more unit in the cart; an unknown id changes nothing. */
  lemma AddedCount(lines: seq<Line>, catalog: seq<Product>, id: int)
    ensures ItemCount(Added(lines, catalog, id))
         == ItemCount(lines) + (if ProductIndex(catalog, id).Some? then 1 else 0)
  {
    if ProductIndex(catalog, id).Some? {
      match LineIndex(lines, id)
      case Some(k) =>
        assert Added(lines, catalog, id) == lines[k := Incremented(lines[k])];
        SumUpdate(lines, k, Incremented(lines[k]), Quantity);
      case None =>
        var p := catalog[ProductIndex(catalog, id).value];
        assert Added(lines, catalog, id) == lines + [NewLine(p)];
        SumConcat(lines, [NewLine(p)], Quantity);
    }
  }

  /** One more unit on a line adds its unit price to its line total. */
  lemma IncrementedLineTotal(l: Line)
    ensures LineTotal(Incremented(l)) == LineTotal(l) + UnitPrice(l)
  {
    var u, c := UnitPrice(l), l.cantidad;
    assert UnitPrice(Incremented(l)) == u;
    assert u * (c + 1) == u * c + u;
  }

  /** Adding a catalog product raises the subtotal by one unit price: that of the product's
      existing line, or that of the new line when it was not in the cart. */
  lemma AddedSubtotal(lines: seq<Line>, catalog: seq<Product>, id: int)
    requires ProductIndex(catalog, id).Some?
    ensures Subtotal(Added(lines, catalog, id)) == Subtotal(lines) +
      (match LineIndex(lines, id)
       case Some(k) => UnitPrice(lines[k])
       case None => UnitPrice(NewLine(catalog[ProductIndex(catalog, id).value])))
  {
    match LineIndex(lines, id)
    case Some(k) =>
      assert Added(lines, catalog, id) == lines[k := Incremented(lines[k])];
      SumUpdate(lines, k, Incremented(lines[k]), LineTotal);
      IncrementedLineTotal(lines[k]);
    case None =>
      var l := NewLine(catalog[ProductIndex(catalog, id).value]);
      assert Added(lines, catalog, id) == lines + [l];
      SumConcat(lines, [l], LineTotal);
      SumSingle(l, LineTotal);
  }

  /** `+` adds one unit and that line's unit price to the subtotal. */
  lemma IncreasedTotals(lines: seq<Line>, i: nat)
    requires i < |lines|
    ensures ItemCount(Increased(lines, i)) == ItemCount(lines) + 1
    ensures Subtotal(Increased(lines, i)) == Subtotal(lines) + UnitPrice(lines[i])
  {
    var l := Incremented(lines[i]);
    assert Increased(lines, i) == lines[i := l];
    SumUpdate(lines, i, l, Quantity);
    SumUpdate(lines, i, l, LineTotal);
    IncrementedLineTotal(lines[i]);
  }

  /** `-` on a line holding at least one unit takes away one unit and that line's unit
      price, whether the line stays or goes. */
  lemma DecreasedTotals(lines: seq<Line>, i: nat)
    requires i < |lines| && lines[i].cantidad >= 1
    ensures ItemCount(Decreased(lines, i)) == ItemCount(lines) - 1
    ensures Subtotal(Decreased(lines, i)) == Subtotal(lines) - UnitPrice(lines[i])
  {
    if lines[i].cantidad > 1 {
      var l := lines[i].(cantidad := lines[i].cantidad - 1);
      assert Decreased(lines, i) == lines[i := l];
      assert Incremented(l) == lines[i];
      SumUpdate(lines, i, l, Quantity);
      SumUpdate(lines, i, l, LineTotal);
      IncrementedLineTotal(l);
    } else {
      assert LineTotal(lines[i]) == UnitPrice(lines[i]);
      SumRemoved(lines, i, Quantity);
      SumRemoved(lines, i, LineTotal);
    }
  }

  /** Removing a line takes away all its units and its whole line total. */
  lemma RemovedTotals(lines: seq<Line>, i: nat)
    requires i < |lines|
    ensures ItemCount(Removed(lines, i)) == ItemCount(lines) - lines[i].cantidad
    ensures Subtotal(Removed(lines, i)) == Subtotal(lines) - LineTotal(lines[i])
  {
    SumRemoved(lines, i, Quantity);
    SumRemoved(lines, i, LineTotal);
  }

  /** A two-product catalog: add product 1, then product 2 twice. The cart holds one line
      of product 1 and a line of two units of product 2 at the offer price 140, so the
      subtotal is 380, the IVA 80 and the total 460. */
  lemma TwoProductScenario()
    ensures var catalog := [Product(1, "A", 100, "", Some(false)), Product(2, "B", 200, "", Some(true))];
      var cart := Added(Added(Added([], catalog, 1), catalog, 2), catalog, 2);
      && cart == [Line(1, "A", 100, false, "", 1), Line(2, "B", 200, true, "", 2)]
      && UnitPrice(cart[1]) == 140
      && Subtotal(cart) == 380 && Iva(Subtotal(cart)) == 80
      && ItemCount(cart) == 3
  {
    var catalog := [Product(1, "A", 100, "", Some(false)), Product(2, "B", 200, "", Some(true))];
    var c1 := Added([], catalog, 1);
    assert c1 == [Line(1, "A", 100, false, "", 1)];
    var c2 := Added(c1, catalog, 2);
    assert LineIndex(c1, 2).None?;
    assert c2 == [Line(1, "A", 100, false, "", 1), Line(2, "B", 200, true, "", 1)];
    var c3 := Added(c2, catalog, 2);
    assert LineIndex(c2, 2) == Some(1);
    assert c3 == [Line(1, "A", 100, false, "", 1), Line(2, "B", 200, true, "", 2)];
    assert c3[1..][1..] == [];
    assert Sum(c3[1..][1..], LineTotal) == 0;
    assert LineTotal(c3[1]) == 280;
    assert Sum(c3[1..], LineTotal) == 280;
    assert Sum(c3[1..][1..], Quantity) == 0;
  }
}
