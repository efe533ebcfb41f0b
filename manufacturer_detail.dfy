/** The page of one manufacturer: the products whose distributor matches
    the route's name regardless of case, or a message when there are
    none. */
module ManufacturerDetail {
  import opened Wrappers
  import opened Seqs
  import opened Text
  import opened Catalog
  import ManufacturersSection

  /** The filter: the distributor equals the route name once both are
      lower-cased. */
  function SameMaker(name: string): Product -> bool {
    (p: Product) => Lower(p.distributor) == Lower(name)
  }

  /** The products shown for `name`: in catalogue order, every matching
      product with all its copies and no other. */
  function ProductsFor(products: seq<Product>, name: string): (r: seq<Product>)
    ensures SubseqOf(r, products)
    ensures forall p :: p in r <==> p in products && Lower(p.distributor) == Lower(name)
    ensures forall p :: multiset(r)[p] == if Lower(p.distributor) == Lower(name) then multiset(products)[p] else 0
  {
    FilterSubseq(products, SameMaker(name));
    FilterMultiset(products, SameMaker(name));
    Filter(products, SameMaker(name))
  }

  datatype DetailView = ProductGrid(cards: seq<Product>) | NoProducts(message: string)

  /** The page body: the grid, or the message naming the manufacturer when
      nothing matches. */
  function View(products: seq<Product>, name: string): (v: DetailView)
    ensures v.NoProducts? <==> forall p :: p in products ==> Lower(p.distributor) != Lower(name)
    ensures v.NoProducts? ==> v.message == "No products found for " + name + "."
    ensures v.ProductGrid? ==> v.cards == ProductsFor(products, name) && v.cards != []
  {
    var shown := ProductsFor(products, name);
    if |shown| > 0 then ProductGrid(shown)
    else
      NoProducts("No products found for " + name + ".")
  }

  lemma LowerIdempotent(s: string)
    ensures Lower(Lower(s)) == Lower(s)
  {
  }

  lemma LowerOfUpper(s: string)
    ensures Lower(Upper(s)) == Lower(s)
  {
  }

  /** The case of the route name does not matter. */
  lemma RouteCaseIgnored(products: seq<Product>, name: string)
    ensures ProductsFor(products, Lower(name)) == ProductsFor(products, name)
    ensures ProductsFor(products, Upper(name)) == ProductsFor(products, name)
  {
    LowerIdempotent(name);
    LowerOfUpper(name);
    assert SameMaker(Lower(name)) == SameMaker(name);
    assert SameMaker(Upper(name)) == SameMaker(name);
  }

  /** Every entry of the manufacturers section has products on its page. */
  lemma SectionEntriesHaveProducts(products: seq<Product>, m: string)
    requires m in ManufacturersSection.Entries(products)
    ensures View(products, m).ProductGrid?
  {
    var p :| p in products && p.distributor == m;
    assert p in ProductsFor(products, m);
  }
}
