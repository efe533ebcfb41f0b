/** The category dropdown of the product offerings: a category select, a
    subcategory select for the chosen category, and the cards of the last
    subcategory chosen. */
module CategoryDropdown {
  import opened Wrappers
  import opened Seqs

  /** The fields of a catalogue record the dropdown reads; `subcategory`
      is None where a record has no such field. */
  datatype Item = Item(id: int, category: string, subcategory: Option<string>)

  function CategoryOf(p: Item): string { p.category }
  function SubcategoryOf(p: Item): Option<string> { p.subcategory }

  /** `[...new Set(products.map(category))]`. */
  function Categories(products: seq<Item>): (r: seq<string>)
    ensures NoDup(r)
    ensures forall c :: c in r <==> exists p :: p in products && p.category == c
  {
    var cs := Map(products, CategoryOf);
    forall c ensures c in cs <==> exists p :: p in products && p.category == c {
      if c in cs {
        var i :| 0 <= i < |cs| && cs[i] == c;
        assert products[i] in products;
      }
      if exists p :: p in products && p.category == c {
        var p :| p in products && p.category == c;
        var i :| 0 <= i < |products| && products[i] == p;
        assert cs[i] == c;
      }
    }
    Dedup(cs)
  }

  /** The categories appear in the order they first occur. */
  lemma CategoriesFirstSeen(products: seq<Item>)
    ensures forall i, j :: 0 <= i < j < |Categories(products)| ==>
      FirstIndex(Map(products, CategoryOf), Categories(products)[i]) < FirstIndex(Map(products, CategoryOf), Categories(products)[j])
  {
    DedupFirstSeen(Map(products, CategoryOf));
  }

  function InCategory(c: string): Item -> bool {
    (p: Item) => p.category == c
  }

  /** The subcategory options: the distinct `subcategory` values of the
      chosen category's products. */
  function SubcategoryOptions(products: seq<Item>, c: string): (r: seq<Option<string>>)
    ensures NoDup(r)
    ensures forall s :: s in r <==> exists p :: p in products && p.category == c && p.subcategory == s
  {
    var inCat := Filter(products, InCategory(c));
    var subs := Map(inCat, SubcategoryOf);
    forall s ensures s in subs <==> exists p :: p in products && p.category == c && p.subcategory == s {
      if s in subs {
        var i :| 0 <= i < |subs| && subs[i] == s;
        assert inCat[i] in inCat;
      }
      if exists p :: p in products && p.category == c && p.subcategory == s {
        var p :| p in products && p.category == c && p.subcategory == s;
        assert p in inCat;
        var i :| 0 <= i < |inCat| && inCat[i] == p;
        assert subs[i] == s;
      }
    }
    Dedup(subs)
  }

  function Matches(c: string, s: string): Item -> bool {
    (p: Item) => p.category == c && p.subcategory == Some(s)
  }

  /** handleSubcategoryChange's filter: the products of the category whose
      `subcategory` equals the chosen value, in catalogue order. */
  function Matching(products: seq<Item>, c: string, s: string): (r: seq<Item>)
    ensures SubseqOf(r, products)
    ensures forall p :: p in r <==> p in products && p.category == c && p.subcategory == Some(s)
  {
    FilterSubseq(products, Matches(c, s));
    Filter(products, Matches(c, s))
  }

  /** Every card shown belongs to a listed category and carries one of that
      category's subcategory options. */
  lemma MatchingAmongOptions(products: seq<Item>, c: string, s: string, p: Item)
    requires p in Matching(products, c, s)
    ensures c in Categories(products)
    ensures Some(s) in SubcategoryOptions(products, c)
  {
  }

  datatype ListView = Cards(items: seq<Item>) | NoProducts

  class Dropdown {
    const products: seq<Item>
    var selectedCategory: string
    var selectedSubcategory: string
    var filteredProducts: seq<Item>
    /** The category and subcategory of the last subcategory change. */
    ghost var queried: Option<(string, string)>

    /** The cards answer the last subcategory change, or there are none
        before the first. */
    ghost predicate Valid()
      reads this
    {
      match queried
      case None => filteredProducts == []
      case Some(q) => filteredProducts == Matching(products, q.0, q.1)
    }

    constructor (products: seq<Item>)
      ensures this.products == products
      ensures selectedCategory == "" && selectedSubcategory == "" && filteredProducts == []
      ensures Valid()
    {
      this.products := products;
      selectedCategory := "";
      selectedSubcategory := "";
      filteredProducts := [];
      queried := None;
    }

    /** handleCategoryChange: the subcategory is cleared and the cards stay
        as they were. */
    method CategoryChange(c: string)
      requires Valid()
      modifies this
      ensures selectedCategory == c && selectedSubcategory == ""
      ensures filteredProducts == old(filteredProducts) && queried == old(queried)
      ensures Valid()
    {
      selectedCategory := c;
      selectedSubcategory := "";
    }

    /** handleSubcategoryChange, from the subcategory select, which is only
        shown once a category is chosen. */
    method SubcategoryChange(s: string)
      requires Valid() && selectedCategory != ""
      modifies this
      ensures selectedCategory == old(selectedCategory) && selectedSubcategory == s
      ensures filteredProducts == Matching(products, selectedCategory, s)
      ensures Valid()
    {
      selectedSubcategory := s;
      filteredProducts := Filter(products, Matches(selectedCategory, s));
      queried := Some((selectedCategory, s));
    }

    /** The product list: the cards, or the "no products" message. */
    function Render(): (v: ListView)
      reads this
      ensures v.NoProducts? <==> filteredProducts == []
      ensures v.Cards? ==> v.items == filteredProducts
    {
      if |filteredProducts| > 0 then Cards(filteredProducts) else NoProducts
    }
  }
}
