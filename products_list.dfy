/** The catalogue list component: the search and filter predicate, the
    nine-per-page infinite scroll, the per-card colour swatches and the
    product modal with its image viewer. */
module ProductsList {
  import opened Wrappers
  import opened Seqs
  import opened Text
  import opened Catalog
  import opened QueryParams
  import opened GalleryViewer

  /** The five filter fields; "" means the filter is off. Colour and size
      come only from the URL. */
  datatype Filters = Filters(query: string, category: string, manufacturer: string, color: string, size: string)

  const NoFilters := Filters("", "", "", "", "")

  /** The mount effect: each filter is its query parameter, or "". */
  function FiltersFromQuery(q: seq<QueryParam>): Filters {
    Filters(ParamOrEmpty(q, "query"), ParamOrEmpty(q, "category"), ParamOrEmpty(q, "manufacturer"),
            ParamOrEmpty(q, "color"), ParamOrEmpty(q, "size"))
  }

  /** A product passes when its lower-cased name contains the lower-cased
      search term and it equals every filter that is set; the manufacturer
      filter compares the distributor field. */
  predicate Matches(p: Product, f: Filters) {
    Contains(Lower(p.name), Lower(f.query))
    && (f.category == "" || p.category == f.category)
    && (f.manufacturer == "" || p.distributor == f.manufacturer)
    && (f.color == "" || f.color in p.colors)
    && (f.size == "" || f.size in p.sizes)
  }

  function MatchesAll(f: Filters): Product -> bool {
    (p: Product) => Matches(p, f)
  }

  /** The filtered list: the matching products, in catalogue order. */
  function FilterCatalogue(products: seq<Product>, f: Filters): (r: seq<Product>)
    ensures SubseqOf(r, products)
    ensures forall p :: p in r <==> p in products && Matches(p, f)
  {
    FilterSubseq(products, MatchesAll(f));
    Filter(products, MatchesAll(f))
  }

  /** With every filter off the whole catalogue is listed. */
  lemma NoFiltersKeepAll(products: seq<Product>)
    ensures FilterCatalogue(products, NoFilters) == products
  {
    forall p | p in products ensures MatchesAll(NoFilters)(p) {
      assert StartsWith(Lower(p.name), Lower(""));
    }
    FilterAll(products, MatchesAll(NoFilters));
  }

  lemma LowerUpper(s: string)
    ensures Lower(Upper(s)) == Lower(s)
    ensures Lower(Lower(s)) == Lower(s)
  {
  }

  /** The search term is compared without regard to (Latin) letter case. */
  lemma SearchIgnoresCase(p: Product, f: Filters)
    ensures Matches(p, f.(query := Upper(f.query))) == Matches(p, f)
    ensures Matches(p, f.(query := Lower(f.query))) == Matches(p, f)
  {
    LowerUpper(f.query);
  }

  const ItemsPerPage := 9

  /** `filteredProducts.slice(0, page * itemsPerPage)`. */
  function Displayed(filtered: seq<Product>, page: nat): (r: seq<Product>)
    ensures |r| <= |filtered| && |r| <= page * ItemsPerPage
    ensures r == filtered[..|r|]
    ensures page * ItemsPerPage <= |filtered| ==> |r| == page * ItemsPerPage
    ensures |filtered| < page * ItemsPerPage ==> r == filtered
  {
    if page * ItemsPerPage <= |filtered| then filtered[..page * ItemsPerPage] else filtered
  }

  /** The infinite-scroll guard: another page exists. */
  predicate CanLoadMore(page: nat, filtered: seq<Product>) {
    page * ItemsPerPage < |filtered|
  }

  /** The modal's images: the product's gallery, or its single image. */
  function ModalGallery(p: Product): (g: seq<string>)
    ensures |g| > 0
    ensures |p.gallery| > 0 ==> g == p.gallery
    ensures |p.gallery| == 0 ==> g == [p.image]
  {
    if |p.gallery| > 0 then p.gallery else [p.image]
  }

  function NamedExactly(color: string): ColorVariant -> bool {
    (v: ColorVariant) => v.name == color
  }

  /** The colour a card shows: `cardColors[id] || ""`. */
  function ColorOf(cardColors: map<int, string>, id: int): string {
    if id in cardColors then cardColors[id] else ""
  }

  /** The card image: the first image of the first variant named exactly
      as the chosen colour when that variant has images, else the product
      image. */
  function CardImage(p: Product, color: string): (img: string)
    ensures color == "" ==> img == p.image
    ensures (forall v :: v in p.colorVariants ==> v.name != color) ==> img == p.image
    ensures forall i :: color != "" && IsFirst(p.colorVariants, NamedExactly(color), i) ==>
      img == (if |p.colorVariants[i].gallery| > 0 then p.colorVariants[i].gallery[0] else p.image)
  {
    if color != "" && |p.colorVariants| > 0 then
      match Find(p.colorVariants, NamedExactly(color))
      case Some(v) => if |v.gallery| > 0 then v.gallery[0] else p.image
      case None => p.image
    else p.image
  }

  /** The parameters handleSearch appends, in order: each name with its
      value, only when the value is non-empty. */
  function SearchQuery(t: string, c: string, m: string): (q: seq<QueryParam>)
    ensures |q| <= 3
  {
    AppendIfSet(AppendIfSet(AppendIfSet([], "query", t), "category", c), "manufacturer", m)
  }

  /** What reading the name `n` back from a search URL should give. */
  function SearchExpected(t: string, c: string, m: string, n: string): Option<string> {
    if n == "query" && t != "" then Some(t)
    else if n == "category" && c != "" then Some(c)
    else if n == "manufacturer" && m != "" then Some(m)
    else None
  }

  lemma SearchExpectedValues(t: string, c: string, m: string)
    ensures SearchExpected(t, c, m, "query") == (if t != "" then Some(t) else None)
    ensures SearchExpected(t, c, m, "category") == (if c != "" then Some(c) else None)
    ensures SearchExpected(t, c, m, "manufacturer") == (if m != "" then Some(m) else None)
    ensures SearchExpected(t, c, m, "color") == None && SearchExpected(t, c, m, "size") == None
  {
    assert |"query"| == 5 && |"category"| == 8 && |"manufacturer"| == 12 && |"size"| == 4;
    assert "color"[0] != "query"[0] && |"color"| == 5;
  }

  /** Each name reads back the value appended under it. */
  lemma SearchQueryReadName(t: string, c: string, m: string, n: string)
    ensures FirstValue(SearchQuery(t, c, m), n) == SearchExpected(t, c, m, n)
  {
    var q0: seq<QueryParam> := [];
    var q1 := AppendIfSet(q0, "query", t);
    var q2 := AppendIfSet(q1, "category", c);
    AppendRead(q0, "query", t, n);
    AppendRead(q1, "category", c, n);
    AppendRead(q2, "manufacturer", m, n);
  }

  /** The search, category and manufacturer read back as given when
      non-empty, and colour and size are never set. */
  lemma SearchQueryRead(t: string, c: string, m: string)
    ensures var q := SearchQuery(t, c, m);
      FirstValue(q, "query") == (if t != "" then Some(t) else None)
      && FirstValue(q, "category") == (if c != "" then Some(c) else None)
      && FirstValue(q, "manufacturer") == (if m != "" then Some(m) else None)
      && FirstValue(q, "color") == None && FirstValue(q, "size") == None
  {
    SearchExpectedValues(t, c, m);
    var q := SearchQuery(t, c, m);
    assert FirstValue(q, "query") == SearchExpected(t, c, m, "query") by { SearchQueryReadName(t, c, m, "query"); }
    assert FirstValue(q, "category") == SearchExpected(t, c, m, "category") by { SearchQueryReadName(t, c, m, "category"); }
    assert FirstValue(q, "manufacturer") == SearchExpected(t, c, m, "manufacturer") by { SearchQueryReadName(t, c, m, "manufacturer"); }
    assert FirstValue(q, "color") == SearchExpected(t, c, m, "color") by { SearchQueryReadName(t, c, m, "color"); }
    assert FirstValue(q, "size") == SearchExpected(t, c, m, "size") by { SearchQueryReadName(t, c, m, "size"); }
  }

  /** handleSearch: the trimmed search term, the category and the
      manufacturer, each only when non-empty, in that order; never colour or
      size. */
  function SearchParams(f: Filters): (q: seq<QueryParam>)
    ensures !Has(q, "color") && !Has(q, "size")
    ensures Has(q, "query") <==> Trim(f.query) != ""
    ensures Has(q, "category") <==> f.category != ""
    ensures Has(q, "manufacturer") <==> f.manufacturer != ""
    ensures |q| <= 3
  {
    var t := Trim(f.query);
    SearchQueryRead(t, f.category, f.manufacturer);
    SearchQuery(t, f.category, f.manufacturer)
  }

  /** Reading back the URL a search produced restores the search, category
      and manufacturer (the term trimmed) and clears colour and size. */
  lemma SearchRoundTrip(f: Filters)
    ensures FiltersFromQuery(SearchParams(f)) == Filters(Trim(f.query), f.category, f.manufacturer, "", "")
  {
    SearchQueryRead(Trim(f.query), f.category, f.manufacturer);
  }

  /** The options of the category and manufacturer selects: each value of
      the catalogue once, in first-seen order. */
  function CategoryOptions(products: seq<Product>): (r: seq<string>)
    ensures NoDup(r)
    ensures forall c :: c in r <==> exists p :: p in products && p.category == c
  {
    var cats := Map(products, (p: Product) => p.category);
    assert forall c :: c in cats <==> exists p :: p in products && p.category == c by {
      forall c ensures c in cats <==> exists p :: p in products && p.category == c {
        if c in cats {
          var i :| 0 <= i < |cats| && cats[i] == c;
          assert products[i] in products;
        }
        if exists p :: p in products && p.category == c {
          var p :| p in products && p.category == c;
          var i :| 0 <= i < |products| && products[i] == p;
          assert cats[i] == c;
        }
      }
    }
    Dedup(cats)
  }

  function ManufacturerOptions(products: seq<Product>): (r: seq<string>)
    ensures NoDup(r)
    ensures forall d :: d in r <==> exists p :: p in products && p.distributor == d
  {
    var ds := Map(products, (p: Product) => p.distributor);
    assert forall d :: d in ds <==> exists p :: p in products && p.distributor == d by {
      forall d ensures d in ds <==> exists p :: p in products && p.distributor == d {
        if d in ds {
          var i :| 0 <= i < |ds| && ds[i] == d;
          assert products[i] in products;
        }
        if exists p :: p in products && p.distributor == d {
          var p :| p in products && p.distributor == d;
          var i :| 0 <= i < |products| && products[i] == p;
          assert ds[i] == d;
        }
      }
    }
    Dedup(ds)
  }

  class ProductsView {
    const catalogue: seq<Product>
    var filters: Filters
    var filtered: seq<Product>
    var page: nat
    var cardColors: map<int, string>
    var selected: Option<Product>
    const viewer: Viewer

    /** The filter effect has run, the page count never runs past the
        last non-empty page, and an open modal's index addresses one of
        its images. */
    predicate Valid()
      reads this, viewer
    {
      filtered == FilterCatalogue(catalogue, filters)
      && page >= 1
      && (page == 1 || (page - 1) * ItemsPerPage < |filtered|)
      && (selected.Some? ==> viewer.Valid(|ModalGallery(selected.value)|))
    }

    /** Mounting: the filters come from the URL's query parameters. */
    constructor (catalogue: seq<Product>, query: seq<QueryParam>)
      ensures this.catalogue == catalogue && filters == FiltersFromQuery(query)
      ensures filtered == FilterCatalogue(catalogue, filters) && page == 1
      ensures cardColors == map[] && selected == None
      ensures Valid()
    {
      this.catalogue := catalogue;
      filters := FiltersFromQuery(query);
      filtered := FilterCatalogue(catalogue, FiltersFromQuery(query));
      page := 1;
      cardColors := map[];
      selected := None;
      viewer := new Viewer();
    }

    /** New filter values, from an input or from the URL. A state setter
        given the value it already holds changes nothing, so the filter
        effect, which recomputes the list and goes back to page 1, runs
        only when some filter value differs. */
    method SetFilters(f: Filters)
      requires Valid()
      modifies this
      ensures filters == f && filtered == FilterCatalogue(catalogue, f)
      ensures page == if f == old(filters) then old(page) else 1
      ensures cardColors == old(cardColors) && selected == old(selected)
      ensures Valid()
    {
      if f != filters {
        filters := f;
        filtered := FilterCatalogue(catalogue, f);
        page := 1;
      }
    }

    /** clearFilters: every filter off, then navigation to the bare
        products path. With every filter already off no effect runs, and
        the page scrolled to is kept. */
    method ClearFilters() returns (target: string)
      requires Valid()
      modifies this
      ensures target == "/products"
      ensures filters == NoFilters && filtered == catalogue
      ensures page == if old(filters) == NoFilters then old(page) else 1
      ensures cardColors == old(cardColors) && selected == old(selected)
      ensures Valid()
    {
      SetFilters(NoFilters);
      NoFiltersKeepAll(catalogue);
      target := "/products";
    }

    /** The intersection observer: one more page, while one exists. */
    method LoadMore(intersecting: bool)
      requires Valid()
      modifies this
      ensures page == if intersecting && CanLoadMore(old(page), filtered) then old(page) + 1 else old(page)
      ensures filters == old(filters) && filtered == old(filtered)
      ensures cardColors == old(cardColors) && selected == old(selected)
      ensures Valid()
    {
      if intersecting && page * ItemsPerPage < |filtered| {
        page := page + 1;
      }
    }

    /** Clicking a swatch changes only that product's entry. */
    method CardColorClick(id: int, color: string)
      requires Valid()
      modifies this
      ensures cardColors == old(cardColors)[id := color]
      ensures filters == old(filters) && filtered == old(filtered) && page == old(page) && selected == old(selected)
      ensures Valid()
    {
      cardColors := cardColors[id := color];
    }

    method OpenProduct(p: Product)
      requires Valid()
      modifies this, viewer
      ensures selected == Some(p)
      ensures viewer.index == 0 && !viewer.zoomed && viewer.pos == Origin
      ensures viewer.dragging == old(viewer.dragging) && viewer.dragStart == old(viewer.dragStart)
      ensures viewer.touchStart == old(viewer.touchStart)
      ensures filters == old(filters) && filtered == old(filtered) && page == old(page) && cardColors == old(cardColors)
      ensures Valid()
    {
      selected := Some(p);
      viewer.Reset();
    }

    method CloseModal()
      requires Valid()
      modifies this, viewer
      ensures selected == None
      ensures viewer.index == 0 && !viewer.zoomed && viewer.pos == Origin
      ensures viewer.dragging == old(viewer.dragging) && viewer.dragStart == old(viewer.dragStart)
      ensures viewer.touchStart == old(viewer.touchStart)
      ensures filters == old(filters) && filtered == old(filtered) && page == old(page) && cardColors == old(cardColors)
      ensures Valid()
    {
      selected := None;
      viewer.Reset();
    }

    method NextImage()
      requires Valid() && selected.Some?
      modifies viewer
      ensures viewer.index == Next(old(viewer.index), |ModalGallery(selected.value)|) && viewer.pos == Origin
      ensures viewer.zoomed == old(viewer.zoomed) && viewer.dragging == old(viewer.dragging)
      ensures viewer.dragStart == old(viewer.dragStart) && viewer.touchStart == old(viewer.touchStart)
      ensures Valid()
    {
      viewer.NextImage(|ModalGallery(selected.value)|);
    }

    method PrevImage()
      requires Valid() && selected.Some?
      modifies viewer
      ensures viewer.index == Prev(old(viewer.index), |ModalGallery(selected.value)|) && viewer.pos == Origin
      ensures viewer.zoomed == old(viewer.zoomed) && viewer.dragging == old(viewer.dragging)
      ensures viewer.dragStart == old(viewer.dragStart) && viewer.touchStart == old(viewer.touchStart)
      ensures Valid()
    {
      viewer.PrevImage(|ModalGallery(selected.value)|);
    }

    method TouchEnd(x: int)
      requires Valid() && selected.Some?
      modifies viewer
      ensures old(viewer.zoomed) || old(viewer.touchStart).None? ==>
        viewer.index == old(viewer.index) && viewer.pos == old(viewer.pos) && viewer.touchStart == old(viewer.touchStart)
      ensures !old(viewer.zoomed) && old(viewer.touchStart).Some? ==>
        viewer.touchStart == None &&
        viewer.index == SwipeTarget(old(viewer.index), |ModalGallery(selected.value)|, x - old(viewer.touchStart).value) &&
        viewer.pos == (if SwipeOf(x - old(viewer.touchStart).value) == NoSwipe then old(viewer.pos) else Origin)
      ensures viewer.zoomed == old(viewer.zoomed) && viewer.dragging == old(viewer.dragging)
      ensures viewer.dragStart == old(viewer.dragStart)
      ensures Valid()
    {
      viewer.TouchEnd(x, |ModalGallery(selected.value)|);
    }
  }

  /** Every displayed page past the first holds at least one product, and
      at most the whole filtered list is displayed. */
  lemma PagesNeverEmpty(filtered: seq<Product>, page: nat)
    requires page >= 1 && (page == 1 || (page - 1) * ItemsPerPage < |filtered|)
    ensures page > 1 ==> |Displayed(filtered, page)| > (page - 1) * ItemsPerPage
    ensures |Displayed(filtered, page)| == 0 <==> |filtered| == 0
  {
  }

  /** A colour choice for one card leaves every other card's image alone. */
  lemma CardColorsIndependent(cardColors: map<int, string>, id: int, color: string, p: Product)
    requires p.id != id
    ensures CardImage(p, ColorOf(cardColors[id := color], p.id)) == CardImage(p, ColorOf(cardColors, p.id))
  {
  }
}
