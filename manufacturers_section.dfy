/** The home-page section listing every distributor of the catalogue once,
    each entry opening the manufacturers page with that distributor
    preselected. */
module ManufacturersSection {
  import opened Wrappers
  import opened Seqs
  import opened Text
  import opened Catalog
  import opened UriCodec

  function DistributorOf(p: Product): string { p.distributor }

  /** `Array.from(new Set(products.map(distributor)))`: each distributor
      once. The model's `distributor` is always a string, as every
      catalogue entry carries one. */
  function Entries(products: seq<Product>): (r: seq<string>)
    ensures NoDup(r)
    ensures forall m :: m in r <==> exists p :: p in products && p.distributor == m
    ensures |r| <= |products|
  {
    var ds := Map(products, DistributorOf);
    forall m ensures m in ds <==> exists p :: p in products && p.distributor == m {
      if m in ds {
        var i :| 0 <= i < |ds| && ds[i] == m;
        assert products[i] in products;
      }
      if exists p :: p in products && p.distributor == m {
        var p :| p in products && p.distributor == m;
        var i :| 0 <= i < |products| && products[i] == p;
        assert ds[i] == m;
      }
    }
    Dedup(ds)
  }

  /** Every product's distributor has exactly one entry. */
  lemma EachDistributorOnce(products: seq<Product>, p: Product)
    requires p in products
    ensures exists i :: 0 <= i < |Entries(products)| && Entries(products)[i] == p.distributor
    ensures forall i, j ::
      (0 <= i < |Entries(products)| && 0 <= j < |Entries(products)| &&
       Entries(products)[i] == p.distributor && Entries(products)[j] == p.distributor) ==> i == j
  {
    var r := Entries(products);
    assert p.distributor in r;
  }

  /** The entries appear in the order their distributors first occur in the
      catalogue. */
  lemma EntriesFirstSeen(products: seq<Product>)
    ensures forall i, j :: 0 <= i < j < |Entries(products)| ==>
      FirstIndex(Map(products, DistributorOf), Entries(products)[i]) < FirstIndex(Map(products, DistributorOf), Entries(products)[j])
  {
    DedupFirstSeen(Map(products, DistributorOf));
  }

  const ClickPrefix := "/manufacturers?manufacturer="

  /** handleManufacturerClick: the manufacturers page with the encoded name
      as its `manufacturer` parameter. */
  function ClickTarget(name: string, codec: Codec): (t: string)
    ensures |t| == |ClickPrefix| + |codec.encode(name)|
    ensures t[..|ClickPrefix|] == ClickPrefix && t[|ClickPrefix|..] == codec.encode(name)
  {
    ClickPrefix + codec.encode(name)
  }

  /** The parameter of the target decodes to the clicked name, and it is
      truthy, so that the manufacturers page preselects it, exactly when
      the name is non-empty. */
  lemma ClickTargetDecodes(name: string, codec: Codec)
    requires IsInverse(codec)
    ensures codec.decode(ClickTarget(name, codec)[|ClickPrefix|..]) == Some(name)
    ensures Truthy(codec.decode(ClickTarget(name, codec)[|ClickPrefix|..])) <==> name != ""
  {
  }
}
