/** The manufacturer browsing wizard: a five-step state machine
    (manufacturer, category, sub-category, sub-sub-category, products) whose
    option lists at each level are derived from the catalogue. */
module Manufacturers {
  import opened Wrappers
  import opened Seqs
  import opened Text
  import opened Catalog

  datatype Step = ManufacturerStep | CategoryStep | SubCategoryStep | SubSubCategoryStep | ProductsStep

  function NonEmpty(s: string): bool {
    s != ""
  }

  /** `[...new Set(xs)].filter(Boolean)` over strings. */
  function DistinctNonEmpty(xs: seq<string>): (r: seq<string>)
    ensures NoDup(r)
    ensures forall x :: x in r <==> x in xs && x != ""
    ensures r == Dedup(Filter(xs, NonEmpty))
  {
    FilterDedup(xs, NonEmpty);
    FilterSubseq(Dedup(xs), NonEmpty);
    SubseqNoDup(Filter(Dedup(xs), NonEmpty), Dedup(xs));
    Filter(Dedup(xs), NonEmpty)
  }

  /** A missing optional field read as a string for the Set: `undefined`
      and `""` are both removed by the filter that follows, so reading a
      missing field as `""` leaves the list unchanged. */
  function TextOrEmpty(s: Option<string>): string {
    if s.Some? then s.value else ""
  }

  function Distributor(p: Product): string { p.distributor }
  function Category(p: Product): string { p.category }
  function SubCategory(p: Product): string { TextOrEmpty(p.subCategory) }
  function SubSubCategory(p: Product): string { TextOrEmpty(p.subSubCategory) }

  function MadeBy(m: Option<string>): Product -> bool {
    (p: Product) => m == Some(p.distributor)
  }

  function InCategory(cat: Option<string>): Product -> bool {
    (p: Product) => cat == Some(p.category)
  }

  function InSubCategory(cat: Option<string>, sub: Option<string>): Product -> bool {
    (p: Product) => cat == Some(p.category) && SameText(p.subCategory, sub)
  }

  function InSubSubCategory(cat: Option<string>, sub: Option<string>, subSub: Option<string>): Product -> bool {
    (p: Product) => cat == Some(p.category) && SameText(p.subCategory, sub) && SameText(p.subSubCategory, subSub)
  }

  /** `productsOfManufacturer`: exact, case-sensitive match on the
      distributor; none when no manufacturer is selected. */
  function ProductsOf(products: seq<Product>, m: Option<string>): (r: seq<Product>)
    ensures SubseqOf(r, products)
    ensures forall p :: p in r <==> p in products && m == Some(p.distributor)
    ensures m.None? ==> r == []
  {
    FilterSubseq(products, MadeBy(m));
    Filter(products, MadeBy(m))
  }

  /** `categories`: the distinct non-empty categories of the manufacturer's
      products, in the order they first occur. */
  function Categories(products: seq<Product>, m: Option<string>): (r: seq<string>)
    ensures NoDup(r)
    ensures forall c :: c in r <==> c != "" && exists p :: p in products && m == Some(p.distributor) && p.category == c
    ensures r == Dedup(Filter(Map(ProductsOf(products, m), Category), NonEmpty))
  {
    var cats := Map(ProductsOf(products, m), Category);
    forall c ensures c in cats <==> exists p :: p in ProductsOf(products, m) && p.category == c {
      MapHas(ProductsOf(products, m), Category, c);
    }
    DistinctNonEmpty(cats)
  }

  /** `subCategories`: empty unless a category is selected; otherwise the
      distinct non-empty sub-categories of the manufacturer's products in
      that category, in the order they first occur. */
  function SubCategories(products: seq<Product>, m: Option<string>, cat: Option<string>): (r: seq<string>)
    ensures NoDup(r)
    ensures !Truthy(cat) ==> r == []
    ensures Truthy(cat) ==> forall s :: s in r <==> s != "" && exists p :: p in products && m == Some(p.distributor) && cat == Some(p.category) && p.subCategory == Some(s)
  {
    if !Truthy(cat) then []
    else
      var ps := Filter(ProductsOf(products, m), InCategory(cat));
      var subs := Map(ps, SubCategory);
      forall s | s != "" ensures s in subs <==> exists p :: p in ps && p.subCategory == Some(s) {
        MapHas(ps, SubCategory, s);
      }
      DistinctNonEmpty(subs)
  }

  /** The sub-sub-category options of step 4: the distinct non-empty
      sub-sub-categories among the products of the selected category and
      sub-category. */
  function SubSubCategories(products: seq<Product>, m: Option<string>, cat: Option<string>, sub: Option<string>): (r: seq<string>)
    ensures NoDup(r)
    ensures forall s :: s in r <==> s != "" && exists p :: p in products && m == Some(p.distributor) && InSubCategory(cat, sub)(p) && p.subSubCategory == Some(s)
  {
    var ps := Filter(ProductsOf(products, m), InSubCategory(cat, sub));
    var subs := Map(ps, SubSubCategory);
    forall s | s != "" ensures s in subs <==> exists p :: p in ps && p.subSubCategory == Some(s) {
      MapHas(ps, SubSubCategory, s);
    }
    DistinctNonEmpty(subs)
  }

  /** `finalProducts`: chosen by the deepest selection, falling back on
      the step when a level was skipped. */
  function FinalProducts(products: seq<Product>, step: Step, m: Option<string>, cat: Option<string>, sub: Option<string>, subSub: Option<string>): (r: seq<Product>)
    ensures SubseqOf(r, products)
    ensures Truthy(subSub) ==> forall p :: p in r <==> p in products && m == Some(p.distributor) && InSubSubCategory(cat, sub, subSub)(p)
    ensures !Truthy(subSub) && step == SubSubCategoryStep ==>
      forall p :: p in r <==> p in products && m == Some(p.distributor) && InSubCategory(cat, sub)(p)
    ensures !Truthy(subSub) && step == ProductsStep && Truthy(sub) ==>
      forall p :: p in r <==> p in products && m == Some(p.distributor) && InSubCategory(cat, sub)(p)
    ensures !Truthy(subSub) && step == ProductsStep && !Truthy(sub) ==>
      forall p :: p in r <==> p in products && m == Some(p.distributor) && InCategory(cat)(p)
    ensures !Truthy(subSub) && step != SubSubCategoryStep && step != ProductsStep ==> r == []
  {
    var pm := ProductsOf(products, m);
    var f :=
      if Truthy(subSub) then InSubSubCategory(cat, sub, subSub)
      else if step == SubSubCategoryStep || (step == ProductsStep && Truthy(sub)) then InSubCategory(cat, sub)
      else InCategory(cat);
    if Truthy(subSub) || step == SubSubCategoryStep || step == ProductsStep then
      FilterSubseq(pm, f);
      SubseqTrans(Filter(pm, f), pm, products);
      Filter(pm, f)
    else []
  }

  /** What the wizard shows. */
  datatype Screen =
    | ManufacturerList
    | CategoryList(categories: seq<string>)
    | SubCategoryList(subCategories: seq<string>)
    | SubSubCategoryList(subSubCategories: seq<string>)
    | ProductList(products: seq<Product>)
    | NoScreen

  /** The rendered step. A level with no options lists the products of the
      level above it instead, so empty levels are skipped. A step whose own
      selection is missing renders nothing. */
  function View(products: seq<Product>, step: Step, m: Option<string>, cat: Option<string>, sub: Option<string>, subSub: Option<string>): (s: Screen)
    ensures step == ManufacturerStep <==> s == ManufacturerList
    ensures step == CategoryStep && Truthy(m) ==> s == CategoryList(Categories(products, m))
    ensures step == SubCategoryStep && Truthy(cat) && |SubCategories(products, m, cat)| == 0 ==>
      s == ProductList(Filter(ProductsOf(products, m), InCategory(cat)))
    ensures step == SubCategoryStep && Truthy(cat) && |SubCategories(products, m, cat)| > 0 ==>
      s == SubCategoryList(SubCategories(products, m, cat))
    ensures step == SubSubCategoryStep && Truthy(sub) && |SubSubCategories(products, m, cat, sub)| == 0 ==>
      s == ProductList(Filter(ProductsOf(products, m), InSubCategory(cat, sub)))
    ensures step == ProductsStep && Truthy(subSub) ==> s == ProductList(FinalProducts(products, step, m, cat, sub, subSub))
  {
    match step
    case ManufacturerStep => ManufacturerList
    case CategoryStep => if Truthy(m) then CategoryList(Categories(products, m)) else NoScreen
    case SubCategoryStep =>
      if !Truthy(cat) then NoScreen
      else
        var subs := SubCategories(products, m, cat);
        if |subs| > 0 then SubCategoryList(subs) else ProductList(Filter(ProductsOf(products, m), InCategory(cat)))
    case SubSubCategoryStep =>
      if !Truthy(sub) then NoScreen
      else
        var subSubs := SubSubCategories(products, m, cat, sub);
        if |subSubs| > 0 then SubSubCategoryList(subSubs) else ProductList(Filter(ProductsOf(products, m), InSubCategory(cat, sub)))
    case ProductsStep => if Truthy(subSub) then ProductList(FinalProducts(products, step, m, cat, sub, subSub)) else NoScreen
  }

  /** The wizard's state: the step and the four selections (None is `null`). */
  class Wizard {
    var step: Step
    var manufacturer: Option<string>
    var category: Option<string>
    var subCategory: Option<string>
    var subSubCategory: Option<string>

    /** The step determines which selections are cleared, and the products
        step is only reached with a sub-sub-category selected. */
    predicate Valid()
      reads this
    {
      && (step == ManufacturerStep ==> manufacturer.None?)
      && (step in {ManufacturerStep, CategoryStep} ==> category.None?)
      && (step in {ManufacturerStep, CategoryStep, SubCategoryStep} ==> subCategory.None?)
      && (step != ProductsStep ==> subSubCategory.None?)
      && (step == ProductsStep ==> subSubCategory.Some?)
    }

    constructor()
      ensures Valid()
      ensures step == ManufacturerStep && manufacturer.None? && category.None? && subCategory.None? && subSubCategory.None?
    {
      step := ManufacturerStep;
      manufacturer := None;
      category := None;
      subCategory := None;
      subSubCategory := None;
    }

    /** The `?manufacturer=` effect: a truthy parameter selects that
        manufacturer and moves to the category step without clearing the
        deeper selections. The effect runs on every change of the query
        string, whatever the state (Back and Forward between
        `?manufacturer=` and the bare page reach one that breaks the step
        invariant), so a truthy parameter leaves the invariant holding
        exactly when the deeper selections were already clear, and an
        absent one leaves it as it was. */
    method ApplyManufacturerParam(param: Option<string>)
      modifies this
      ensures Truthy(param) ==> step == CategoryStep && manufacturer == param
      ensures !Truthy(param) ==> step == old(step) && manufacturer == old(manufacturer)
      ensures category == old(category) && subCategory == old(subCategory) && subSubCategory == old(subSubCategory)
      ensures Valid() <==>
        if Truthy(param) then old(category).None? && old(subCategory).None? && old(subSubCategory).None?
        else old(Valid())
    {
      if Truthy(param) {
        manufacturer := param;
        step := CategoryStep;
      }
    }

    method SelectManufacturer(m: string)
      modifies this
      ensures Valid()
      ensures step == CategoryStep && manufacturer == Some(m)
      ensures category.None? && subCategory.None? && subSubCategory.None?
    {
      manufacturer := Some(m);
      category := None;
      subCategory := None;
      subSubCategory := None;
      step := CategoryStep;
    }

    method SelectCategory(c: string)
      modifies this
      ensures Valid()
      ensures step == SubCategoryStep && category == Some(c) && manufacturer == old(manufacturer)
      ensures subCategory.None? && subSubCategory.None?
    {
      category := Some(c);
      subCategory := None;
      subSubCategory := None;
      step := SubCategoryStep;
    }

    method SelectSubCategory(s: string)
      modifies this
      ensures Valid()
      ensures step == SubSubCategoryStep && subCategory == Some(s)
      ensures manufacturer == old(manufacturer) && category == old(category) && subSubCategory.None?
    {
      subCategory := Some(s);
      subSubCategory := None;
      step := SubSubCategoryStep;
    }

    method SelectSubSubCategory(s: string)
      modifies this
      ensures Valid()
      ensures step == ProductsStep && subSubCategory == Some(s)
      ensures manufacturer == old(manufacturer) && category == old(category) && subCategory == old(subCategory)
    {
      subSubCategory := Some(s);
      step := ProductsStep;
    }

    method GoBackToManufacturers()
      modifies this
      ensures Valid()
      ensures step == ManufacturerStep && manufacturer.None? && category.None? && subCategory.None? && subSubCategory.None?
    {
      step := ManufacturerStep;
      manufacturer := None;
      category := None;
      subCategory := None;
      subSubCategory := None;
    }

    method GoBackToCategories()
      modifies this
      ensures Valid()
      ensures step == CategoryStep && manufacturer == old(manufacturer)
      ensures category.None? && subCategory.None? && subSubCategory.None?
    {
      step := CategoryStep;
      category := None;
      subCategory := None;
      subSubCategory := None;
    }

    method GoBackToSubCategories()
      modifies this
      ensures Valid()
      ensures step == SubCategoryStep && manufacturer == old(manufacturer) && category == old(category)
      ensures subCategory.None? && subSubCategory.None?
    {
      step := SubCategoryStep;
      subCategory := None;
      subSubCategory := None;
    }

    method GoBackToSubSubCategories()
      modifies this
      ensures Valid()
      ensures step == SubSubCategoryStep && subSubCategory.None?
      ensures manufacturer == old(manufacturer) && category == old(category) && subCategory == old(subCategory)
    {
      step := SubSubCategoryStep;
      subSubCategory := None;
    }

    /** The current screen over the catalogue. The category step lists the
        selected manufacturer's categories even when deeper selections
        are left over. */
    function Screen(products: seq<Product>): (s: Screen)
      reads this
      ensures step == CategoryStep && Truthy(manufacturer) ==> s == CategoryList(Categories(products, manufacturer))
      ensures Valid() && step == ProductsStep && Truthy(subSubCategory) ==>
        s.ProductList? && forall p :: p in s.products <==>
          p in products && manufacturer == Some(p.distributor) && InSubSubCategory(category, subCategory, subSubCategory)(p)
    {
      View(products, step, manufacturer, category, subCategory, subSubCategory)
    }
  }

  /** The mounted page across history moves: opened from a home-page card
      (`?manufacturer=m`), a category and a sub-category picked, the bare
      `/manufacturers` link followed, then Back. The query-string effect
      leaves step category with the old selections, which breaks the step
      invariant, and Forward runs the effect again on that state. */
  method BackForwardLeavesSelections(m: string, c: string, sub: string) returns (w: Wizard)
    requires m != ""
    ensures w.step == CategoryStep && w.manufacturer == Some(m)
    ensures w.category == Some(c) && w.subCategory == Some(sub)
    ensures !w.Valid()
  {
    w := new Wizard();
    w.ApplyManufacturerParam(Some(m));
    w.SelectCategory(c);
    w.SelectSubCategory(sub);
    w.ApplyManufacturerParam(None);
    w.ApplyManufacturerParam(Some(m));
    w.ApplyManufacturerParam(None);
  }
}
