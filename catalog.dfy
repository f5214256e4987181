/** The read-only product catalog (`productos`) and the lookups the page does on it. */
module Catalog {
  import opened Wrappers
  import opened Search

  /** A catalog product. The catalog data may omit `oferta`; `None` stands for that. */
  datatype Product = Product(id: int, nombre: string, precio: nat, imagen: string, oferta: Option<bool>)

  /** The truth value of the product's `oferta` field, an absent field reading as false. */
  predicate OnOffer(p: Product) {
    p.oferta == Some(true)
  }

  function ProductId(p: Product): int {
    p.id
  }

  /** Position of the first product whose id is `id` (`productos.find(x => x.id === id)`). */
  function ProductIndex(catalog: seq<Product>, id: int): Option<nat> {
    FirstIndex(catalog, ProductId, id)
  }

  /** The products on offer, in catalog order (`productos.filter(p => p.oferta)`). */
  function Ofertas(catalog: seq<Product>): (r: seq<Product>)
    ensures |r| <= |catalog|
    ensures forall p :: p in r <==> p in catalog && OnOffer(p)
  {
    if catalog == [] then []
    else
      assert catalog == [catalog[0]] + catalog[1..];
      (if OnOffer(catalog[0]) then [catalog[0]] else []) + Ofertas(catalog[1..])
  }

  /** Filtering distributes over concatenation: the order of the catalog is kept. */
  lemma {:induction false} OfertasConcat(a: seq<Product>, b: seq<Product>)
    ensures Ofertas(a + b) == Ofertas(a) + Ofertas(b)
  {
    if a == [] {
      assert a + b == b;
    } else {
      assert (a + b)[1..] == a[1..] + b;
      OfertasConcat(a[1..], b);
    }
  }

  /** A catalog made only of offers is returned whole; one without offers yields nothing. */
  lemma {:induction false} OfertasExtremes(catalog: seq<Product>)
    ensures (forall k :: 0 <= k < |catalog| ==> OnOffer(catalog[k])) ==> Ofertas(catalog) == catalog
    ensures (forall k :: 0 <= k < |catalog| ==> !OnOffer(catalog[k])) ==> Ofertas(catalog) == []
  {
    if catalog != [] {
      OfertasExtremes(catalog[1..]);
      assert forall k :: 1 <= k < |catalog| ==> catalog[1..][k - 1] == catalog[k];
      assert [catalog[0]] + catalog[1..] == catalog;
    }
  }
}
