/** Cart lines (`carrito`) and the effect of each cart handler on the sequence of lines. */
module Cart {
  import opened Wrappers
  import opened Search
  import opened Catalog

  /** One cart line: a snapshot of the product's fields taken when it was first added,
      and the quantity held. */
  datatype Line = Line(id: int, nombre: string, precio: nat, oferta: bool, imagen: string, cantidad: nat)

  /** The line `addToCart` pushes for a product not yet in the cart. */
  function NewLine(p: Product): Line {
    Line(p.id, p.nombre, p.precio, OnOffer(p), p.imagen, 1)
  }

  /** The same line with one more unit. */
  function Incremented(l: Line): Line {
    l.(cantidad := l.cantidad + 1)
  }

  /** At most one line per product id. */
  predicate UniqueIds(lines: seq<Line>) {
    forall i, j :: 0 <= i < j < |lines| ==> lines[i].id != lines[j].id
  }

  /** No line is ever kept at quantity zero. */
  predicate PositiveQuantities(lines: seq<Line>) {
    forall i :: 0 <= i < |lines| ==> lines[i].cantidad >= 1
  }

  /** The cart invariant every handler preserves. */
  predicate WellFormed(lines: seq<Line>) {
    UniqueIds(lines) && PositiveQuantities(lines)
  }

  function LineId(l: Line): int {
    l.id
  }

  /** Position of the first line for product `id` (`carrito.find(i => i.id === id)`). */
  function LineIndex(lines: seq<Line>, id: int): Option<nat> {
    FirstIndex(lines, LineId, id)
  }

  /** `addToCart(id)`: an unknown id changes nothing; a product already in the cart gets one
      more unit on its line; any other product is appended as a new line of quantity one. */
  function Added(lines: seq<Line>, catalog: seq<Product>, id: int): (r: seq<Line>)
    ensures ProductIndex(catalog, id).None? ==> r == lines
    ensures ProductIndex(catalog, id).Some? && LineIndex(lines, id).Some? ==>
      var k := LineIndex(lines, id).value;
      && |r| == |lines|
      && r[k].cantidad == lines[k].cantidad + 1
      && r[k] == lines[k].(cantidad := r[k].cantidad)
      && forall j :: 0 <= j < |lines| && j != k ==> r[j] == lines[j]
    ensures ProductIndex(catalog, id).Some? && LineIndex(lines, id).None? ==>
      var p := catalog[ProductIndex(catalog, id).value];
      && |r| == |lines| + 1
      && r[..|lines|] == lines
      && r[|lines|].cantidad == 1
      && r[|lines|] == Line(p.id, p.nombre, p.precio, OnOffer(p), p.imagen, r[|lines|].cantidad)
  {
    match ProductIndex(catalog, id)
    case None => lines
    case Some(pk) =>
      match LineIndex(lines, id)
      case Some(k) => lines[k := Incremented(lines[k])]
      case None => lines + [NewLine(catalog[pk])]
  }

  /** The `+` button on line `i`. */
  function Increased(lines: seq<Line>, i: nat): (r: seq<Line>)
    requires i < |lines|
    ensures |r| == |lines|
    ensures r[i].cantidad == lines[i].cantidad + 1 && r[i] == lines[i].(cantidad := r[i].cantidad)
    ensures forall j :: 0 <= j < |lines| && j != i ==> r[j] == lines[j]
  {
    lines[i := Incremented(lines[i])]
  }

  /** The `Eliminar` button on line `i` (`carrito.splice(i, 1)` with `i` in range). */
  function Removed(lines: seq<Line>, i: nat): (r: seq<Line>)
    requires i < |lines|
    ensures |r| == |lines| - 1
    ensures forall j :: 0 <= j < i ==> r[j] == lines[j]
    ensures forall j :: i <= j < |r| ==> r[j] == lines[j + 1]
  {
    lines[..i] + lines[i + 1..]
  }

  /** The `-` button on line `i`: one unit less, or the line goes when it held only one. */
  function Decreased(lines: seq<Line>, i: nat): (r: seq<Line>)
    requires i < |lines|
    ensures lines[i].cantidad > 1 ==>
      && |r| == |lines|
      && r[i].cantidad == lines[i].cantidad - 1
      && r[i] == lines[i].(cantidad := r[i].cantidad)
      && forall j :: 0 <= j < |lines| && j != i ==> r[j] == lines[j]
    ensures lines[i].cantidad <= 1 ==> |r| == |lines| - 1 && r == Removed(lines, i)
  {
    if lines[i].cantidad > 1 then lines[i := lines[i].(cantidad := lines[i].cantidad - 1)]
    else Removed(lines, i)
  }

  /** After adding a catalog product, its line is the one found by id and holds one unit
      more than before (or exactly one when it was not in the cart). */
  lemma AddedLineFor(lines: seq<Line>, catalog: seq<Product>, id: int)
    requires ProductIndex(catalog, id).Some?
    ensures var r := Added(lines, catalog, id);
      && LineIndex(r, id).Some?
      && r[LineIndex(r, id).value].cantidad ==
           (match LineIndex(lines, id) case Some(k) => lines[k].cantidad + 1 case None => 1)
  {
    var r := Added(lines, catalog, id);
    match LineIndex(lines, id)
    case Some(k) =>
      assert r[k].id == id;
      assert forall j :: 0 <= j < k ==> r[j].id != id;
      assert LineIndex(r, id) == Some(k);
    case None =>
      assert r[|lines|].id == id;
      assert forall j :: 0 <= j < |lines| ==> r[j].id != id;
      assert LineIndex(r, id) == Some(|lines|);
  }

  /** Adding the same new product twice gives a single line of quantity two. */
  lemma AddedTwice(lines: seq<Line>, catalog: seq<Product>, id: int)
    requires ProductIndex(catalog, id).Some? && LineIndex(lines, id).None?
    ensures Added(Added(lines, catalog, id), catalog, id)
         == lines + [NewLine(catalog[ProductIndex(catalog, id).value]).(cantidad := 2)]
  {
    var p := catalog[ProductIndex(catalog, id).value];
    var once := lines + [NewLine(p)];
    assert Added(lines, catalog, id) == once;
    assert LineIndex(once, id) == Some(|lines|) by {
      AddedLineFor(lines, catalog, id);
    }
    assert Added(once, catalog, id) == once[|lines| := Incremented(NewLine(p))];
    assert once[|lines| := Incremented(NewLine(p))] == lines + [Incremented(NewLine(p))];
  }

  lemma AddedWellFormed(lines: seq<Line>, catalog: seq<Product>, id: int)
    requires WellFormed(lines)
    ensures WellFormed(Added(lines, catalog, id))
  {
    var r := Added(lines, catalog, id);
    if ProductIndex(catalog, id).Some? && LineIndex(lines, id).None? {
      forall i, j | 0 <= i < j < |r| ensures r[i].id != r[j].id {
        if j == |lines| {
          assert r[i] == lines[i];
        } else {
          assert r[i] == lines[i] && r[j] == lines[j];
        }
      }
    }
  }

  lemma IncreasedWellFormed(lines: seq<Line>, i: nat)
    requires i < |lines| && WellFormed(lines)
    ensures WellFormed(Increased(lines, i))
  {
  }

  lemma RemovedWellFormed(lines: seq<Line>, i: nat)
    requires i < |lines| && WellFormed(lines)
    ensures WellFormed(Removed(lines, i))
  {
    var r := Removed(lines, i);
    forall a, b | 0 <= a < b < |r| ensures r[a].id != r[b].id {
      var a' := if a < i then a else a + 1;
      var b' := if b < i then b else b + 1;
      assert r[a] == lines[a'] && r[b] == lines[b'] && a' < b';
    }
  }

  lemma DecreasedWellFormed(lines: seq<Line>, i: nat)
    requires i < |lines| && WellFormed(lines)
    ensures WellFormed(Decreased(lines, i))
  {
    if lines[i].cantidad <= 1 {
      RemovedWellFormed(lines, i);
    }
  }

  /** `-` undoes `+` on a line whose quantity is positive; with a zero quantity it would
      instead remove the line, which is why the quantity invariant matters. */
  lemma DecreaseUndoesIncrease(lines: seq<Line>, i: nat)
    requires i < |lines| && lines[i].cantidad >= 1
    ensures Decreased(Increased(lines, i), i) == lines
  {
  }

  /** `+` undoes `-` on a line holding more than one unit. */
  lemma IncreaseUndoesDecrease(lines: seq<Line>, i: nat)
    requires i < |lines| && lines[i].cantidad > 1
    ensures Increased(Decreased(lines, i), i) == lines
  {
  }
}
