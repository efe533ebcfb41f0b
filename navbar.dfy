/** The navigation bar: the category and manufacturer options drawn from
    the catalogue, the search it sends to the products page, the
    sub-category selects driven by the category data, and the mobile
    menu. */
module Navbar {
  import opened Wrappers
  import opened Seqs
  import opened Text
  import opened Catalog
  import opened QueryParams
  import UriCodec
  import ProductsPage

  // ---------------------------------------------------------------------
  // The category and manufacturer options
  // ---------------------------------------------------------------------

  function IsSet(s: string): bool { s != "" }

  /** The non-blank values after trimming, in catalogue order:
      `filter(Boolean).map(trim).filter(length > 0)`. */
  function NonBlankTrimmed(values: seq<string>): (r: seq<string>)
    ensures forall x :: x in r <==> x != "" && exists v :: v in values && Trim(v) == x
  {
    var given := Filter(values, IsSet);
    forall x | x != ""
      ensures x in Map(given, Trim) <==> exists v :: v in values && Trim(v) == x
    {
      MapHas(given, Trim, x);
      if exists v :: v in values && Trim(v) == x {
        var v :| v in values && Trim(v) == x;
        assert v != "";
        assert v in given;
      }
    }
    Filter(Map(given, Trim), IsSet)
  }

  /** `[...new Set(...)]` over the non-blank trimmed values: each trimmed
      value once, no blank one. */
  function NavOptions(values: seq<string>): (r: seq<string>)
    ensures NoDup(r)
    ensures forall x :: x in r <==> x != "" && exists v :: v in values && Trim(v) == x
    ensures |r| <= |values|
  {
    Dedup(NonBlankTrimmed(values))
  }

  /** The options come in the order of their first non-blank occurrence. */
  lemma NavOptionsFirstSeen(values: seq<string>)
    ensures forall i, j :: 0 <= i < j < |NavOptions(values)| ==>
      FirstIndex(NonBlankTrimmed(values), NavOptions(values)[i]) < FirstIndex(NonBlankTrimmed(values), NavOptions(values)[j])
  {
    DedupFirstSeen(NonBlankTrimmed(values));
  }

  /** Values that are already trimmed, non-blank and distinct are offered
      as they are. */
  lemma NavOptionsOfClean(values: seq<string>)
    requires NoDup(values)
    requires forall i :: 0 <= i < |values| ==> values[i] != "" && Trim(values[i]) == values[i]
    ensures NavOptions(values) == values
  {
    var given := Filter(values, IsSet);
    FilterAll(values, IsSet);
    assert Map(given, Trim) == values;
    FilterAll(values, IsSet);
    DedupOfNoDup(values);
  }

  function CategoryOf(p: Product): string { p.category }
  function DistributorOf(p: Product): string { p.distributor }

  /** The category select's options. */
  function Categories(products: seq<Product>): (r: seq<string>)
    ensures NoDup(r)
    ensures forall x :: x in r <==> x != "" && exists p :: p in products && Trim(p.category) == x
  {
    var cs := Map(products, CategoryOf);
    forall v ensures v in cs <==> exists p :: p in products && CategoryOf(p) == v {
      MapHas(products, CategoryOf, v);
    }
    NavOptions(cs)
  }

  /** The manufacturer select's options, from the products' distributors. */
  function Manufacturers(products: seq<Product>): (r: seq<string>)
    ensures NoDup(r)
    ensures forall x :: x in r <==> x != "" && exists p :: p in products && Trim(p.distributor) == x
  {
    var ds := Map(products, DistributorOf);
    forall v ensures v in ds <==> exists p :: p in products && DistributorOf(p) == v {
      MapHas(products, DistributorOf, v);
    }
    NavOptions(ds)
  }

  // ---------------------------------------------------------------------
  // The search
  // ---------------------------------------------------------------------

  /** Every parameter the search can carry, in the order it appends them. */
  function AllNavParams(term: string, category: string, manufacturer: string, sub: string, subsub: string): seq<QueryParam> {
    [QueryParam("query", Trim(term)), QueryParam("category", category), QueryParam("manufacturer", manufacturer),
     QueryParam("subCategory", sub), QueryParam("subSubCategory", subsub)]
  }

  function HasValue(p: QueryParam): bool { p.value != "" }

  /** One `if (value) params.append(name, value)`. */
  function Keep(q: seq<QueryParam>, p: QueryParam): (r: seq<QueryParam>)
    ensures r == AppendIfSet(q, p.name, p.value)
  {
    if HasValue(p) then q + [p] else q
  }

  lemma KeepFilter(xs: seq<QueryParam>, x: QueryParam)
    ensures Keep(Filter(xs, HasValue), x) == Filter(xs + [x], HasValue)
  {
    FilterAppend(xs, x, HasValue);
  }

  /** Five conditional appends keep exactly the pairs with a value, in
      order. */
  lemma KeepFive(a: QueryParam, b: QueryParam, c: QueryParam, d: QueryParam, e: QueryParam)
    ensures Keep(Keep(Keep(Keep(Keep([], a), b), c), d), e) == Filter([a, b, c, d, e], HasValue)
  {
    var k1 := Keep([], a);
    var k2 := Keep(k1, b);
    var k3 := Keep(k2, c);
    var k4 := Keep(k3, d);
    assert k1 == Filter([a], HasValue) by {
      KeepFilter([], a);
      assert [] + [a] == [a];
    }
    assert k2 == Filter([a, b], HasValue) by {
      KeepFilter([a], b);
      assert [a] + [b] == [a, b];
    }
    assert k3 == Filter([a, b, c], HasValue) by {
      KeepFilter([a, b], c);
      assert [a, b] + [c] == [a, b, c];
    }
    assert k4 == Filter([a, b, c, d], HasValue) by {
      KeepFilter([a, b, c], d);
      assert [a, b, c] + [d] == [a, b, c, d];
    }
    KeepFilter([a, b, c, d], e);
    assert [a, b, c, d] + [e] == [a, b, c, d, e];
  }

  /** handleSearch: query (trimmed), category, manufacturer, subCategory
      and subSubCategory, each appended only when non-empty. */
  function NavParams(term: string, category: string, manufacturer: string, sub: string, subsub: string): (q: seq<QueryParam>)
    ensures |q| <= 5
  {
    AppendIfSet(AppendIfSet(AppendIfSet(AppendIfSet(AppendIfSet([], "query", Trim(term)), "category", category),
      "manufacturer", manufacturer), "subCategory", sub), "subSubCategory", subsub)
  }

  /** The search holds exactly the parameters with a value, in the order
      query, category, manufacturer, subCategory, subSubCategory. */
  lemma NavParamsInOrder(term: string, category: string, manufacturer: string, sub: string, subsub: string)
    ensures NavParams(term, category, manufacturer, sub, subsub) == Filter(AllNavParams(term, category, manufacturer, sub, subsub), HasValue)
    ensures SubseqOf(NavParams(term, category, manufacturer, sub, subsub), AllNavParams(term, category, manufacturer, sub, subsub))
  {
    var all := AllNavParams(term, category, manufacturer, sub, subsub);
    KeepFive(all[0], all[1], all[2], all[3], all[4]);
    assert [all[0], all[1], all[2], all[3], all[4]] == all;
    FilterSubseq(all, HasValue);
  }

  /** The value the search gives parameter `n`: the one appended under
      that name, when non-empty. */
  function Expected(term: string, category: string, manufacturer: string, sub: string, subsub: string, n: string): Option<string> {
    if n == "query" && Trim(term) != "" then Some(Trim(term))
    else if n == "category" && category != "" then Some(category)
    else if n == "manufacturer" && manufacturer != "" then Some(manufacturer)
    else if n == "subCategory" && sub != "" then Some(sub)
    else if n == "subSubCategory" && subsub != "" then Some(subsub)
    else None
  }

  lemma ExpectedValues(term: string, category: string, manufacturer: string, sub: string, subsub: string)
    ensures Expected(term, category, manufacturer, sub, subsub, "query") == (if Trim(term) != "" then Some(Trim(term)) else None)
    ensures Expected(term, category, manufacturer, sub, subsub, "category") == (if category != "" then Some(category) else None)
    ensures Expected(term, category, manufacturer, sub, subsub, "manufacturer") == (if manufacturer != "" then Some(manufacturer) else None)
    ensures Expected(term, category, manufacturer, sub, subsub, "subCategory") == (if sub != "" then Some(sub) else None)
    ensures Expected(term, category, manufacturer, sub, subsub, "subSubCategory") == (if subsub != "" then Some(subsub) else None)
    ensures Expected(term, category, manufacturer, sub, subsub, "f") == None
  {
    assert |"query"| == 5 && |"category"| == 8 && |"manufacturer"| == 12;
    assert |"subCategory"| == 11 && |"subSubCategory"| == 14 && |"f"| == 1;
  }

  /** Each name reads back the value appended under it. */
  lemma NavParamsReadName(term: string, category: string, manufacturer: string, sub: string, subsub: string, n: string)
    ensures FirstValue(NavParams(term, category, manufacturer, sub, subsub), n) == Expected(term, category, manufacturer, sub, subsub, n)
  {
    var q0: seq<QueryParam> := [];
    var q1 := AppendIfSet(q0, "query", Trim(term));
    var q2 := AppendIfSet(q1, "category", category);
    var q3 := AppendIfSet(q2, "manufacturer", manufacturer);
    var q4 := AppendIfSet(q3, "subCategory", sub);
    AppendRead(q0, "query", Trim(term), n);
    AppendRead(q1, "category", category, n);
    AppendRead(q2, "manufacturer", manufacturer, n);
    AppendRead(q3, "subCategory", sub, n);
    AppendRead(q4, "subSubCategory", subsub, n);
  }

  /** What the products page reads back: each parameter is its value when
      non-empty, and absent otherwise; there is never a chip parameter. */
  lemma NavParamsRead(term: string, category: string, manufacturer: string, sub: string, subsub: string)
    ensures var q := NavParams(term, category, manufacturer, sub, subsub);
      FirstValue(q, "query") == (if Trim(term) != "" then Some(Trim(term)) else None)
      && FirstValue(q, "category") == (if category != "" then Some(category) else None)
      && FirstValue(q, "manufacturer") == (if manufacturer != "" then Some(manufacturer) else None)
      && FirstValue(q, "subCategory") == (if sub != "" then Some(sub) else None)
      && FirstValue(q, "subSubCategory") == (if subsub != "" then Some(subsub) else None)
      && FirstValue(q, "f") == None
  {
    var q := NavParams(term, category, manufacturer, sub, subsub);
    ExpectedValues(term, category, manufacturer, sub, subsub);
    assert FirstValue(q, "query") == (if Trim(term) != "" then Some(Trim(term)) else None) by {
      NavParamsReadName(term, category, manufacturer, sub, subsub, "query");
    }
    assert FirstValue(q, "category") == (if category != "" then Some(category) else None) by {
      NavParamsReadName(term, category, manufacturer, sub, subsub, "category");
    }
    assert FirstValue(q, "manufacturer") == (if manufacturer != "" then Some(manufacturer) else None) by {
      NavParamsReadName(term, category, manufacturer, sub, subsub, "manufacturer");
    }
    assert FirstValue(q, "subCategory") == (if sub != "" then Some(sub) else None) by {
      NavParamsReadName(term, category, manufacturer, sub, subsub, "subCategory");
    }
    assert FirstValue(q, "subSubCategory") == (if subsub != "" then Some(subsub) else None) by {
      NavParamsReadName(term, category, manufacturer, sub, subsub, "subSubCategory");
    }
    assert FirstValue(q, "f") == None by {
      NavParamsReadName(term, category, manufacturer, sub, subsub, "f");
    }
  }

  /** The products page, reading a navigation-bar search, takes over the
      trimmed term, the category and the manufacturer that were set, keeps
      its own values for those that were not, and leaves its chips alone;
      the sub-category selections reach the URL but the page does not read
      them. */
  lemma SearchOpensProductsPage(term: string, category: string, manufacturer: string, sub: string, subsub: string,
                                shownTerm: string, shownCategory: string, shownManufacturer: string,
                                active: seq<string>, codec: UriCodec.Codec)
    ensures var q := NavParams(term, category, manufacturer, sub, subsub);
      ProductsPage.FieldFromUrl(q, "query", shownTerm) == (if Trim(term) != "" then Trim(term) else shownTerm)
      && ProductsPage.FieldFromUrl(q, "category", shownCategory) == (if category != "" then category else shownCategory)
      && ProductsPage.FieldFromUrl(q, "manufacturer", shownManufacturer) ==
         (if manufacturer != "" then manufacturer else shownManufacturer)
      && ProductsPage.ChipsFromUrl(q, active, codec) == active
  {
    NavParamsRead(term, category, manufacturer, sub, subsub);
  }

  // ---------------------------------------------------------------------
  // Sub-categories
  // ---------------------------------------------------------------------

  /** A sub-category is a plain name or an object with a name and perhaps
      a list of sub-sub-categories. */
  datatype Sub = SubName(name: string) | SubObject(name: string, subsubcategories: Option<seq<string>>)

  datatype CategoryEntry = CategoryEntry(name: string, subcategories: Option<seq<Sub>>)

  function Named(selected: string): CategoryEntry -> bool {
    (c: CategoryEntry) => c.name == selected
  }

  /** categoryObject: the first category entry with the selected name. */
  function CategoryObject(data: seq<CategoryEntry>, selected: string): (r: Option<CategoryEntry>)
    ensures r.Some? ==> r.value in data && r.value.name == selected
    ensures r.None? <==> forall c :: c in data ==> c.name != selected
    ensures forall i :: IsFirst(data, Named(selected), i) ==> r == Some(data[i])
  {
    Find(data, Named(selected))
  }

  /** The sub-category select is shown for a selected category whose entry
      has a sub-category list, even an empty one. */
  predicate SubSelectShown(data: seq<CategoryEntry>, selected: string) {
    selected != "" && CategoryObject(data, selected).Some? && CategoryObject(data, selected).value.subcategories.Some?
  }

  /** The options of the sub-category select: each sub-category's name. */
  function SubOptions(subs: seq<Sub>): (r: seq<string>)
    ensures |r| == |subs| && forall i :: 0 <= i < |subs| ==> r[i] == subs[i].name
  {
    Map(subs, (s: Sub) => s.name)
  }

  function ObjectNamed(selected: string): Sub -> bool {
    (s: Sub) => s.SubObject? && s.name == selected
  }

  /** The sub-sub-category options: those of the first object sub-category
      with the selected name, when that list exists and is non-empty; a
      plain-name sub-category never has any. */
  function SubSubOptions(subs: seq<Sub>, selected: string): (r: Option<seq<string>>)
    ensures r.Some? ==> r.value != [] && SubObject(selected, Some(r.value)) in subs
    ensures (forall s :: s in subs ==> !(s.SubObject? && s.name == selected)) ==> r.None?
    ensures forall i :: IsFirst(subs, ObjectNamed(selected), i) ==>
      (r.Some? <==> subs[i].subsubcategories.Some? && subs[i].subsubcategories.value != []) &&
      (r.Some? ==> r.value == subs[i].subsubcategories.value)
  {
    match Find(subs, ObjectNamed(selected))
    case None => None
    case Some(s) =>
      if s.subsubcategories.Some? && |s.subsubcategories.value| > 0 then Some(s.subsubcategories.value) else None
  }

  /** What the render makes of the sub-sub-category slot: nothing, a select
      with its options, or the TypeError of reading `subcategories` of a
      missing category entry (or `find` of a missing list). */
  datatype SubSubSlot = Hidden | Shown(options: seq<string>) | RenderError

  /** The sub-sub-category slot for the given category and sub-category
      selections. The lookup runs whenever a sub-category is selected, with
      no check that the category entry or its list exists. */
  function SubSubView(data: seq<CategoryEntry>, category: string, sub: string): (r: SubSubSlot)
    ensures sub == "" ==> r == Hidden
    ensures r == RenderError <==>
      sub != "" && (CategoryObject(data, category).None? || CategoryObject(data, category).value.subcategories.None?)
    ensures r.Shown? <==>
      sub != "" && CategoryObject(data, category).Some? && CategoryObject(data, category).value.subcategories.Some? &&
      SubSubOptions(CategoryObject(data, category).value.subcategories.value, sub).Some?
    ensures r.Shown? ==>
      r.options != [] && r.options == SubSubOptions(CategoryObject(data, category).value.subcategories.value, sub).value
    ensures sub != "" && SubSelectShown(data, category) ==> !r.RenderError?
  {
    if sub == "" then Hidden
    else match CategoryObject(data, category)
      case None => RenderError
      case Some(c) =>
        match c.subcategories
        case None => RenderError
        case Some(subs) =>
          match SubSubOptions(subs, sub)
          case None => Hidden
          case Some(opts) => Shown(opts)
  }

  /** As written, the category select only records the new category; the
      effect that clears the sub-selections runs after the next render,
      which still sees the old sub-category. With a sub-category of "Head
      Protection" chosen, going back to "All Categories" renders with no
      category entry and fails; clearing first, as intended, renders
      nothing in that slot. */
  lemma StaleSubCategoryCounterexample()
    ensures var data := [CategoryEntry("Head Protection", Some([SubObject("Helmets", Some(["Hard Hats"]))]))];
      SubSubView(data, "Head Protection", "Helmets") == Shown(["Hard Hats"]) &&
      SubSubView(data, "", "Helmets") == RenderError &&
      SubSubView(data, "", "") == Hidden
  {
    var data := [CategoryEntry("Head Protection", Some([SubObject("Helmets", Some(["Hard Hats"]))]))];
    assert CategoryObject(data, "Head Protection") == Some(data[0]) by {
      assert IsFirst(data, Named("Head Protection"), 0);
    }
    assert "" != "Head Protection";
    assert CategoryObject(data, "").None?;
  }

  // ---------------------------------------------------------------------
  // The component state
  // ---------------------------------------------------------------------

  class NavbarState {
    const categoriesData: seq<CategoryEntry>
    var menuOpen: bool
    var searchTerm: string
    var selectedCategory: string
    var selectedManufacturer: string
    var selectedSubCategory: string
    var selectedSubSubCategory: string

    /** A sub-category is selected only under a category whose entry lists
        sub-categories, so the lookup of the sub-sub-categories finds that
        list. Every handler keeps this except SetCategory, the category
        select as written, which leaves the old sub-category in place until
        the clearing effect runs. */
    predicate Valid()
      reads this
    {
      selectedSubCategory != "" ==> SubSelectShown(categoriesData, selectedCategory)
    }

    constructor (data: seq<CategoryEntry>)
      ensures categoriesData == data && !menuOpen
      ensures searchTerm == "" && selectedCategory == "" && selectedManufacturer == ""
      ensures selectedSubCategory == "" && selectedSubSubCategory == ""
      ensures Valid()
    {
      categoriesData := data;
      menuOpen := false;
      searchTerm := "";
      selectedCategory := "";
      selectedManufacturer := "";
      selectedSubCategory := "";
      selectedSubSubCategory := "";
    }

    /** The sub-sub-category slot of the current render: hidden, shown with
        its options, or the render error of a stale sub-category. */
    function SubSubSelect(): (r: SubSubSlot)
      reads this
      ensures selectedSubCategory == "" ==> r == Hidden
      ensures Valid() ==> !r.RenderError?
      ensures r.Shown? ==> r.options != [] && CategoryObject(categoriesData, selectedCategory).Some?
    {
      SubSubView(categoriesData, selectedCategory, selectedSubCategory)
    }

    /** The menu button flips the mobile menu. */
    method ToggleMenu()
      modifies this
      ensures menuOpen == !old(menuOpen)
      ensures searchTerm == old(searchTerm) && selectedCategory == old(selectedCategory)
      ensures selectedManufacturer == old(selectedManufacturer) && selectedSubCategory == old(selectedSubCategory)
      ensures selectedSubSubCategory == old(selectedSubSubCategory)
      ensures Valid() == old(Valid())
    {
      menuOpen := !menuOpen;
    }

    /** Any change of location closes the mobile menu. */
    method LocationChanged()
      modifies this
      ensures !menuOpen
      ensures searchTerm == old(searchTerm) && selectedCategory == old(selectedCategory)
      ensures selectedManufacturer == old(selectedManufacturer) && selectedSubCategory == old(selectedSubCategory)
      ensures selectedSubSubCategory == old(selectedSubSubCategory)
      ensures Valid() == old(Valid())
    {
      menuOpen := false;
    }

    method SetSearchTerm(v: string)
      modifies this
      ensures searchTerm == v && menuOpen == old(menuOpen)
      ensures selectedCategory == old(selectedCategory) && selectedManufacturer == old(selectedManufacturer)
      ensures selectedSubCategory == old(selectedSubCategory) && selectedSubSubCategory == old(selectedSubSubCategory)
      ensures Valid() == old(Valid())
    {
      searchTerm := v;
    }

    /** The category select as written: it records the category and nothing
        else. The render that follows still has the old sub-category, and
        fails when the new category has no entry with a sub-category list. */
    method SetCategory(v: string)
      modifies this
      ensures selectedCategory == v
      ensures selectedSubCategory == old(selectedSubCategory) && selectedSubSubCategory == old(selectedSubSubCategory)
      ensures menuOpen == old(menuOpen) && searchTerm == old(searchTerm) && selectedManufacturer == old(selectedManufacturer)
      ensures SubSubSelect().RenderError? <==>
        old(selectedSubCategory) != "" &&
        (CategoryObject(categoriesData, v).None? || CategoryObject(categoriesData, v).value.subcategories.None?)
    {
      selectedCategory := v;
    }

    /** The effect that runs after a render with a new category: both
        sub-selections are cleared. */
    method ClearSubSelections()
      modifies this
      ensures selectedSubCategory == "" && selectedSubSubCategory == ""
      ensures selectedCategory == old(selectedCategory) && menuOpen == old(menuOpen)
      ensures searchTerm == old(searchTerm) && selectedManufacturer == old(selectedManufacturer)
      ensures Valid() && SubSubSelect() == Hidden
    {
      selectedSubCategory := "";
      selectedSubSubCategory := "";
    }

    /** Choosing a category as intended: the sub-selections are cleared in
        the same step, so no render sees a stale sub-category. */
    method SelectCategory(v: string)
      modifies this
      ensures selectedCategory == v && selectedSubCategory == "" && selectedSubSubCategory == ""
      ensures menuOpen == old(menuOpen) && searchTerm == old(searchTerm) && selectedManufacturer == old(selectedManufacturer)
      ensures Valid() && SubSubSelect() == Hidden
    {
      SetCategory(v);
      ClearSubSelections();
    }

    method SelectManufacturer(v: string)
      modifies this
      ensures selectedManufacturer == v && menuOpen == old(menuOpen) && searchTerm == old(searchTerm)
      ensures selectedCategory == old(selectedCategory)
      ensures selectedSubCategory == old(selectedSubCategory) && selectedSubSubCategory == old(selectedSubSubCategory)
      ensures Valid() == old(Valid())
    {
      selectedManufacturer := v;
    }

    /** Choosing in the sub-category select, which exists only while it is
        shown and offers "" or one of its options; the sub-sub-category
        selection is kept. */
    method SelectSubCategory(v: string)
      requires Valid()
      requires SubSelectShown(categoriesData, selectedCategory)
      requires v == "" || v in SubOptions(CategoryObject(categoriesData, selectedCategory).value.subcategories.value)
      modifies this
      ensures selectedSubCategory == v && selectedSubSubCategory == old(selectedSubSubCategory)
      ensures menuOpen == old(menuOpen) && searchTerm == old(searchTerm)
      ensures selectedCategory == old(selectedCategory) && selectedManufacturer == old(selectedManufacturer)
      ensures Valid()
    {
      selectedSubCategory := v;
    }

    /** Choosing in the sub-sub-category select, which exists only while it
        is shown. */
    method SelectSubSubCategory(v: string)
      requires Valid()
      requires SubSubSelect().Shown?
      requires v == "" || v in SubSubSelect().options
      modifies this
      ensures selectedSubSubCategory == v && selectedSubCategory == old(selectedSubCategory)
      ensures menuOpen == old(menuOpen) && searchTerm == old(searchTerm)
      ensures selectedCategory == old(selectedCategory) && selectedManufacturer == old(selectedManufacturer)
      ensures Valid()
    {
      selectedSubSubCategory := v;
    }

    /** The search button or Enter: the parameters of the navigation to the
        products page. */
    method Search() returns (params: seq<QueryParam>)
      ensures params == NavParams(searchTerm, selectedCategory, selectedManufacturer, selectedSubCategory, selectedSubSubCategory)
    {
      params := AppendIfSet([], "query", Trim(searchTerm));
      params := AppendIfSet(params, "category", selectedCategory);
      params := AppendIfSet(params, "manufacturer", selectedManufacturer);
      params := AppendIfSet(params, "subCategory", selectedSubCategory);
      params := AppendIfSet(params, "subSubCategory", selectedSubSubCategory);
    }
  }

  /** Right after a category change a search carries no sub-category
      selection. */
  lemma SearchAfterCategoryChange(term: string, category: string, manufacturer: string)
    ensures var q := NavParams(term, category, manufacturer, "", "");
      !Has(q, "subCategory") && !Has(q, "subSubCategory") && |q| <= 3
  {
    NavParamsRead(term, category, manufacturer, "", "");
  }
}
