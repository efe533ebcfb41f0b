/** The products page: the search, category, distributor and chip filters
    composed into one pipeline, the chip set toggled in place, the URL
    parameters each filter control writes, and the sort select. */
module ProductsPage {
  import opened Wrappers
  import opened Seqs
  import opened Text
  import opened Catalog
  import opened UriCodec
  import opened QueryParams
  import opened FilterUtils

  // ---------------------------------------------------------------------
  // The pipeline
  // ---------------------------------------------------------------------

  /** The free-text search: the lower-cased term (untrimmed) occurs in the
      lower-cased name, description or category. */
  predicate SearchHit(p: Product, term: string) {
    Contains(Lower(p.name), Lower(term))
    || Contains(Lower(p.description), Lower(term))
    || Contains(Lower(p.category), Lower(term))
  }

  function SearchesFor(term: string): Product -> bool {
    (p: Product) => SearchHit(p, term)
  }

  function InCategory(c: string): Product -> bool {
    (p: Product) => p.category == c
  }

  function FromDistributor(d: string): Product -> bool {
    (p: Product) => p.distributor == d
  }

  /** Every test of the pipeline before sorting. */
  predicate PassesAll(p: Product, search: string, category: string, manufacturer: string, active: seq<string>) {
    (IsBlank(search) || SearchHit(p, search))
    && (category == "" || p.category == category)
    && (manufacturer == "" || p.distributor == manufacturer)
    && (|active| == 0 || Keeps(active, p))
  }

  /** A filter step applied only when its control is set. */
  function StepIf(products: seq<Product>, on: bool, keep: Product -> bool): (r: seq<Product>)
    ensures SubseqOf(r, products)
    ensures forall p :: p in r <==> p in products && (!on || keep(p))
  {
    if on then
      FilterSubseq(products, keep);
      Filter(products, keep)
    else
      SubseqRefl(products);
      products
  }

  /** The list before sorting: search (only for a non-blank term), exact
      category, exact distributor, then the chips, in that order; an
      order-preserving sublist of the catalogue holding exactly the
      products that pass every test. */
  function Narrowed(products: seq<Product>, search: string, category: string, manufacturer: string, active: seq<string>)
    : (r: seq<Product>)
    ensures SubseqOf(r, products)
    ensures forall p :: p in r <==> p in products && PassesAll(p, search, category, manufacturer, active)
  {
    var r1 := StepIf(products, !IsBlank(search), SearchesFor(search));
    var r2 := StepIf(r1, category != "", InCategory(category));
    var r3 := StepIf(r2, manufacturer != "", FromDistributor(manufacturer));
    var r4 := ApplyFilters(r3, Some(active));
    SubseqRefl(r3);
    SubseqTrans(r2, r1, products);
    SubseqTrans(r3, r2, products);
    SubseqTrans(r4, r3, products);
    r4
  }

  /** With nothing set the whole catalogue passes. */
  lemma NothingSetKeepsAll(products: seq<Product>)
    ensures Narrowed(products, "", "", "", []) == products
  {
    assert IsBlank("");
  }

  /** The sort select's values. */
  const SortOptions := ["newest", "priceLow", "priceHigh", "nameAZ"]

  /** The page passes the select's value straight to sortProducts. */
  method FilteredAndSortedAsWritten(products: seq<Product>, search: string, category: string, manufacturer: string,
                                    active: seq<string>, sortBy: string, collation: string -> int)
    returns (r: seq<Product>)
    ensures sortBy in SortOptions ==> r == Narrowed(products, search, category, manufacturer, active)
    ensures multiset(r) == multiset(Narrowed(products, search, category, manufacturer, active))
  {
    r := SortProducts(Narrowed(products, search, category, manufacturer, active), sortBy, collation);
  }

  /** None of the select's values is a key sortProducts recognises, so
      every choice keeps the catalogue order. */
  lemma SortOptionsUnrecognised()
    ensures forall o :: o in SortOptions ==> o != "price-asc" && o != "price-desc" && o != "name"
  {
  }

  function Priced(id: int, price: int): Product {
    Product(id, "", "", "", None, None, "", None, Some(price), "", [], [], [], [])
  }

  /** "Price: Low to High" on a catalogue listed dearest first leaves the
      dearer product in front. */
  method PriceLowCounterexample(collation: string -> int) returns (shown: seq<Product>)
    ensures |shown| == 2 && PriceKey(shown[0]) > PriceKey(shown[1])
  {
    var catalogue := [Priced(1, 120), Priced(2, 30)];
    assert IsBlank("");
    assert Narrowed(catalogue, "", "", "", []) == catalogue by {
      NothingSetKeepsAll(catalogue);
    }
    shown := FilteredAndSortedAsWritten(catalogue, "", "", "", [], "priceLow", collation);
  }

  /** The sortProducts key each select value names. */
  function SortKeyFor(option: string): (key: string)
    ensures option == "priceLow" ==> key == "price-asc"
    ensures option == "priceHigh" ==> key == "price-desc"
    ensures option == "nameAZ" ==> key == "name"
    ensures option !in {"priceLow", "priceHigh", "nameAZ"} ==> key == option
  {
    if option == "priceLow" then "price-asc"
    else if option == "priceHigh" then "price-desc"
    else if option == "nameAZ" then "name"
    else option
  }

  /** The pipeline with each select value mapped to its sort key: a
      permutation of the narrowed list, ordered as the option's label
      says. */
  method FilteredAndSorted(products: seq<Product>, search: string, category: string, manufacturer: string,
                           active: seq<string>, sortBy: string, collation: string -> int)
    returns (r: seq<Product>)
    ensures multiset(r) == multiset(Narrowed(products, search, category, manufacturer, active))
    ensures sortBy == "newest" ==> r == Narrowed(products, search, category, manufacturer, active)
    ensures sortBy == "priceLow" ==> forall i, j :: 0 <= i < j < |r| ==> PriceKey(r[i]) <= PriceKey(r[j])
    ensures sortBy == "priceHigh" ==> forall i, j :: 0 <= i < j < |r| ==> PriceKey(r[i]) >= PriceKey(r[j])
    ensures sortBy == "nameAZ" ==> forall i, j :: 0 <= i < j < |r| ==> collation(r[i].name) <= collation(r[j].name)
  {
    r := SortProducts(Narrowed(products, search, category, manufacturer, active), SortKeyFor(sortBy), collation);
  }

  // ---------------------------------------------------------------------
  // The chip set
  // ---------------------------------------------------------------------

  function Without(k: string): string -> bool {
    (x: string) => x != k
  }

  /** toggleFilter on the Set: delete a present key, append an absent one. */
  function Toggle(s: seq<string>, k: string): (r: seq<string>)
    ensures forall x :: x in r <==> (x in s <==> x != k)
    ensures NoDup(s) ==> NoDup(r)
    ensures k in s ==> SubseqOf(r, s)
    ensures k !in s ==> r == s + [k]
  {
    if k in s then
      FilterSubseq(s, Without(k));
      assert NoDup(s) ==> NoDup(Filter(s, Without(k))) by {
        if NoDup(s) {
          SubseqNoDup(Filter(s, Without(k)), s);
        }
      }
      Filter(s, Without(k))
    else
      assert NoDup(s) ==> NoDup(s + [k]) by {
        if NoDup(s) {
          NoDupSnoc(s, k);
        }
      }
      s + [k]
  }

  lemma NoDupSnoc(s: seq<string>, k: string)
    requires NoDup(s) && k !in s
    ensures NoDup(s + [k])
  {
    var r := s + [k];
    forall i, j | 0 <= i < j < |r| ensures r[i] != r[j] {
      if j == |s| {
        assert r[i] == s[i];
      }
    }
  }

  /** Toggling a key twice restores the set, and restores the order too
      when the key was absent (a present key comes back at the end). */
  lemma ToggleTwice(s: seq<string>, k: string)
    requires NoDup(s)
    ensures forall x :: x in Toggle(Toggle(s, k), k) <==> x in s
    ensures k !in s ==> Toggle(Toggle(s, k), k) == s
  {
    if k !in s {
      var t := s + [k];
      assert k in t;
      var back := Toggle(t, k);
      FilterAppend(s, k, Without(k));
      FilterAll(s, Without(k));
      assert back == s;
    }
  }

  // ---------------------------------------------------------------------
  // The URL parameters each control writes
  // ---------------------------------------------------------------------

  /** `if (cond) params.set(name, value)` on names not yet present. */
  function SetWhen(q: seq<QueryParam>, cond: bool, name: string, value: string): (r: seq<QueryParam>)
    ensures cond ==> r == q + [QueryParam(name, value)]
    ensures !cond ==> r == q
    ensures forall n :: Has(r, n) <==> Has(q, n) || (cond && n == name)
  {
    HasSnoc(q, QueryParam(name, value));
    if cond then q + [QueryParam(name, value)] else q
  }

  /** The `f` parameter: present only for a non-empty chip set. */
  function ChipParam(q: seq<QueryParam>, active: seq<string>, codec: Codec): seq<QueryParam> {
    SetWhen(q, |active| > 0, "f", EncodeFilters(Some(active), codec))
  }

  /** After a toggle: f, category, manufacturer, trimmed query. */
  function ToggleParams(active: seq<string>, category: string, manufacturer: string, search: string, codec: Codec)
    : seq<QueryParam>
  {
    SetWhen(SetWhen(SetWhen(ChipParam([], active, codec), category != "", "category", category),
                    manufacturer != "", "manufacturer", manufacturer),
            !IsBlank(search), "query", Trim(search))
  }

  /** The search form: trimmed query, f, category, manufacturer. */
  function SearchFormParams(active: seq<string>, category: string, manufacturer: string, search: string, codec: Codec)
    : seq<QueryParam>
  {
    SetWhen(SetWhen(ChipParam(SetWhen([], !IsBlank(search), "query", Trim(search)), active, codec),
                    category != "", "category", category),
            manufacturer != "", "manufacturer", manufacturer)
  }

  /** The category select: the new category, f, trimmed query; the
      manufacturer is not written. */
  function CategoryParams(active: seq<string>, category: string, search: string, codec: Codec): seq<QueryParam> {
    SetWhen(ChipParam(SetWhen([], category != "", "category", category), active, codec),
            !IsBlank(search), "query", Trim(search))
  }

  /** The manufacturer select: the new manufacturer, f, category, trimmed
      query. */
  function ManufacturerParams(active: seq<string>, category: string, manufacturer: string, search: string, codec: Codec)
    : seq<QueryParam>
  {
    SetWhen(SetWhen(ChipParam(SetWhen([], manufacturer != "", "manufacturer", manufacturer), active, codec),
                    category != "", "category", category),
            !IsBlank(search), "query", Trim(search))
  }

  /** `f` appears exactly when the chip set is non-empty, in every URL the
      page writes. */
  lemma ChipParamPresence(active: seq<string>, category: string, manufacturer: string, search: string, codec: Codec)
    ensures Has(ToggleParams(active, category, manufacturer, search, codec), "f") <==> |active| > 0
    ensures Has(SearchFormParams(active, category, manufacturer, search, codec), "f") <==> |active| > 0
    ensures Has(CategoryParams(active, category, search, codec), "f") <==> |active| > 0
    ensures Has(ManufacturerParams(active, category, manufacturer, search, codec), "f") <==> |active| > 0
    ensures !Has(CategoryParams(active, category, search, codec), "manufacturer")
  {
    ToggleChipParam(active, category, manufacturer, search, codec);
    SearchFormChipParam(active, category, manufacturer, search, codec);
    CategoryChipParam(active, category, search, codec);
    ManufacturerChipParam(active, category, manufacturer, search, codec);
  }

  lemma ToggleChipParam(active: seq<string>, category: string, manufacturer: string, search: string, codec: Codec)
    ensures Has(ToggleParams(active, category, manufacturer, search, codec), "f") <==> |active| > 0
  {
    ParamNamesDistinct();
  }

  lemma SearchFormChipParam(active: seq<string>, category: string, manufacturer: string, search: string, codec: Codec)
    ensures Has(SearchFormParams(active, category, manufacturer, search, codec), "f") <==> |active| > 0
  {
    ParamNamesDistinct();
  }

  lemma CategoryChipParam(active: seq<string>, category: string, search: string, codec: Codec)
    ensures Has(CategoryParams(active, category, search, codec), "f") <==> |active| > 0
    ensures !Has(CategoryParams(active, category, search, codec), "manufacturer")
  {
    ParamNamesDistinct();
  }

  lemma ManufacturerChipParam(active: seq<string>, category: string, manufacturer: string, search: string, codec: Codec)
    ensures Has(ManufacturerParams(active, category, manufacturer, search, codec), "f") <==> |active| > 0
  {
    ParamNamesDistinct();
  }

  lemma ParamNamesDistinct()
    ensures "f" != "category" && "f" != "manufacturer" && "f" != "query"
    ensures "manufacturer" != "category" && "manufacturer" != "query"
  {
    assert "f"[0] != "category"[0] && |"f"| != |"manufacturer"| && "f"[0] != "query"[0];
    assert "manufacturer"[0] != "category"[0] && "manufacturer"[0] != "query"[0];
  }

  /** The `f` value the URL effect reads back from a page-written URL. */
  lemma {:induction false} ChipReadBack(active: seq<string>, category: string, manufacturer: string, search: string, codec: Codec)
    requires |active| > 0
    ensures FirstValue(ToggleParams(active, category, manufacturer, search, codec), "f") == Some(EncodeFilters(Some(active), codec))
  {
    var q0 := ChipParam([], active, codec);
    assert q0 == [QueryParam("f", EncodeFilters(Some(active), codec))];
    var q1 := SetWhen(q0, category != "", "category", category);
    var q2 := SetWhen(q1, manufacturer != "", "manufacturer", manufacturer);
    var q3 := SetWhen(q2, !IsBlank(search), "query", Trim(search));
    assert q3[0] == q0[0];
  }

  // ---------------------------------------------------------------------
  // The URL effect
  // ---------------------------------------------------------------------

  /** The chips the effect sets: the decoded `f` when it is present and
      non-empty (a failed decode gives the empty set), else unchanged. */
  function ChipsFromUrl(url: seq<QueryParam>, active: seq<string>, codec: Codec): (r: seq<string>)
    ensures ParamOrEmpty(url, "f") == "" ==> r == active
    ensures ParamOrEmpty(url, "f") != "" && codec.decode(ParamOrEmpty(url, "f")).None? ==> r == []
  {
    var f := ParamOrEmpty(url, "f");
    if f != "" then DecodeFilters(Some(f), codec) else active
  }

  /** A value the effect sets: the parameter when present and non-empty,
      else unchanged. */
  function FieldFromUrl(url: seq<QueryParam>, name: string, current: string): (r: string)
    ensures ParamOrEmpty(url, name) != "" ==> r == ParamOrEmpty(url, name)
    ensures ParamOrEmpty(url, name) == "" ==> r == current
  {
    var v := ParamOrEmpty(url, name);
    if v != "" then v else current
  }

  /** The keys a chip can carry through the URL. */
  predicate ChipKeys(s: seq<string>) {
    NoDup(s) && forall i :: 0 <= i < |s| ==> !IsBlank(s[i]) && ',' !in s[i]
  }

  /** A toggle followed by the URL effect it triggers leaves the chip set
      as the toggle made it. */
  lemma ToggleSurvivesUrl(active: seq<string>, category: string, manufacturer: string, search: string, codec: Codec)
    requires IsInverse(codec)
    requires ChipKeys(active)
    ensures ChipsFromUrl(ToggleParams(active, category, manufacturer, search, codec), active, codec) == active
  {
    var url := ToggleParams(active, category, manufacturer, search, codec);
    if |active| > 0 {
      ChipReadBack(active, category, manufacturer, search, codec);
      DecodeEncode(active, codec);
      JoinNonEmpty(active, ",");
      assert ParamOrEmpty(url, "f") == EncodeFilters(Some(active), codec);
    } else {
      ChipParamPresence(active, category, manufacturer, search, codec);
    }
  }

  // ---------------------------------------------------------------------
  // The page state
  // ---------------------------------------------------------------------

  class ProductsPageState {
    var activeFilters: seq<string>
    var sortBy: string
    var searchTerm: string
    var categoryFilter: string
    var manufacturerFilter: string
    var searchParams: seq<QueryParam>
    const codec: Codec

    /** The chip set is a set: no key twice. */
    predicate Valid()
      reads this
    {
      NoDup(activeFilters)
    }

    constructor (url: seq<QueryParam>, codec: Codec)
      ensures activeFilters == [] && sortBy == "newest" && searchTerm == ""
      ensures categoryFilter == "" && manufacturerFilter == ""
      ensures searchParams == url && this.codec == codec
      ensures Valid()
    {
      activeFilters := [];
      sortBy := "newest";
      searchTerm := "";
      categoryFilter := "";
      manufacturerFilter := "";
      searchParams := url;
      this.codec := codec;
    }

    /** The effect run on mount and whenever the URL or the language
        changes. */
    method ReadUrl()
      requires Valid()
      modifies this
      ensures activeFilters == ChipsFromUrl(searchParams, old(activeFilters), codec)
      ensures categoryFilter == FieldFromUrl(searchParams, "category", old(categoryFilter))
      ensures manufacturerFilter == FieldFromUrl(searchParams, "manufacturer", old(manufacturerFilter))
      ensures searchTerm == FieldFromUrl(searchParams, "query", old(searchTerm))
      ensures sortBy == old(sortBy) && searchParams == old(searchParams)
      ensures Valid()
    {
      activeFilters := ChipsFromUrl(searchParams, activeFilters, codec);
      categoryFilter := FieldFromUrl(searchParams, "category", categoryFilter);
      manufacturerFilter := FieldFromUrl(searchParams, "manufacturer", manufacturerFilter);
      searchTerm := FieldFromUrl(searchParams, "query", searchTerm);
    }

    method ToggleFilter(k: string)
      requires Valid()
      modifies this
      ensures activeFilters == Toggle(old(activeFilters), k)
      ensures searchParams == ToggleParams(activeFilters, categoryFilter, manufacturerFilter, searchTerm, codec)
      ensures sortBy == old(sortBy) && searchTerm == old(searchTerm)
      ensures categoryFilter == old(categoryFilter) && manufacturerFilter == old(manufacturerFilter)
      ensures Valid()
    {
      activeFilters := Toggle(activeFilters, k);
      searchParams := ToggleParams(activeFilters, categoryFilter, manufacturerFilter, searchTerm, codec);
    }

    /** Typing in the search box changes only the term. */
    method SetSearchTerm(v: string)
      requires Valid()
      modifies this
      ensures searchTerm == v
      ensures activeFilters == old(activeFilters) && sortBy == old(sortBy) && searchParams == old(searchParams)
      ensures categoryFilter == old(categoryFilter) && manufacturerFilter == old(manufacturerFilter)
      ensures Valid()
    {
      searchTerm := v;
    }

    method SubmitSearch()
      requires Valid()
      modifies this
      ensures searchParams == SearchFormParams(activeFilters, categoryFilter, manufacturerFilter, searchTerm, codec)
      ensures activeFilters == old(activeFilters) && sortBy == old(sortBy) && searchTerm == old(searchTerm)
      ensures categoryFilter == old(categoryFilter) && manufacturerFilter == old(manufacturerFilter)
      ensures Valid()
    {
      searchParams := SearchFormParams(activeFilters, categoryFilter, manufacturerFilter, searchTerm, codec);
    }

    method ChangeCategory(v: string)
      requires Valid()
      modifies this
      ensures categoryFilter == v
      ensures searchParams == CategoryParams(activeFilters, v, searchTerm, codec)
      ensures activeFilters == old(activeFilters) && sortBy == old(sortBy) && searchTerm == old(searchTerm)
      ensures manufacturerFilter == old(manufacturerFilter)
      ensures Valid()
    {
      categoryFilter := v;
      searchParams := CategoryParams(activeFilters, v, searchTerm, codec);
    }

    method ChangeManufacturer(v: string)
      requires Valid()
      modifies this
      ensures manufacturerFilter == v
      ensures searchParams == ManufacturerParams(activeFilters, categoryFilter, v, searchTerm, codec)
      ensures activeFilters == old(activeFilters) && sortBy == old(sortBy) && searchTerm == old(searchTerm)
      ensures categoryFilter == old(categoryFilter)
      ensures Valid()
    {
      manufacturerFilter := v;
      searchParams := ManufacturerParams(activeFilters, categoryFilter, v, searchTerm, codec);
    }

    /** Clear All: no chips and no URL parameters; the search box and the
        selects keep their values. */
    method ClearAll()
      requires Valid()
      modifies this
      ensures activeFilters == [] && searchParams == []
      ensures sortBy == old(sortBy) && searchTerm == old(searchTerm)
      ensures categoryFilter == old(categoryFilter) && manufacturerFilter == old(manufacturerFilter)
      ensures Valid()
    {
      activeFilters := [];
      searchParams := [];
    }

    method SetSort(v: string)
      requires Valid()
      modifies this
      ensures sortBy == v
      ensures activeFilters == old(activeFilters) && searchTerm == old(searchTerm) && searchParams == old(searchParams)
      ensures categoryFilter == old(categoryFilter) && manufacturerFilter == old(manufacturerFilter)
      ensures Valid()
    {
      sortBy := v;
    }
  }
}
