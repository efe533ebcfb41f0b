/** The featured-products carousel, slider and bar of the home page: the
    choice of one product per category through a plain object keyed by
    category, the slide index with its next, previous and indicator
    controls, the slider's automatic advance, the quote dialog and the
    bar's empty message. The three components carry identical copies of
    the selection loop, modelled once. */
module Featured {
  import opened Wrappers
  import opened Seqs
  import opened Text
  import opened Catalog
  import opened JsObjects
  import opened GalleryViewer
  import ProductDetail

  // ---------------------------------------------------------------------
  // One product per category
  // ---------------------------------------------------------------------

  function Cats(ps: seq<Product>): (r: seq<string>)
    ensures |r| == |ps| && forall i :: 0 <= i < |ps| ==> r[i] == ps[i].category
  {
    Map(ps, (p: Product) => p.category)
  }

  function InCategory(c: string): Product -> bool {
    (p: Product) => p.category == c
  }

  /** The first product of `ps` in category `c`. */
  function FirstIn(ps: seq<Product>, c: string): (p: Product)
    requires c in Cats(ps)
    ensures p in ps && p.category == c
    ensures forall i :: IsFirst(ps, InCategory(c), i) ==> p == ps[i]
  {
    var k := FirstIndex(Cats(ps), c);
    assert forall j :: 0 <= j < k ==> Cats(ps)[..k][j] == ps[j].category;
    ps[k]
  }

  /** The object the forEach leaves behind when a category's slot counts as
      taken only once it holds an own property: each category once, at the
      place it was first seen, holding its first product. */
  function Collect(ps: seq<Product>): (d: Dict<Product>)
    ensures WellFormed(d)
    ensures d.keys == Dedup(Cats(ps))
    ensures forall k :: k in d.values ==> k in Cats(ps) && d.values[k] == ps[FirstIndex(Cats(ps), k)]
    decreases |ps|
  {
    if |ps| == 0 then EmptyDict()
    else
      var init := ps[..|ps| - 1];
      var p := ps[|ps| - 1];
      assert ps == init + [p];
      var d := Collect(init);
      assert Cats(ps) == Cats(init) + [p.category];
      DedupAppend(Cats(init), p.category);
      FirstIndexOfPrefix(Cats(init), p.category);
      if p.category in d.values then d
      else
        FirstIndexUnique(Cats(ps), p.category, |ps| - 1);
        Put(d, p.category, p)
  }

  /** One more iteration of the forEach. */
  lemma CollectSnoc(ps: seq<Product>, p: Product)
    ensures Collect(ps + [p]) == if p.category in Collect(ps).values then Collect(ps) else Put(Collect(ps), p.category, p)
  {
    assert (ps + [p])[..|ps + [p]| - 1] == ps;
  }

  /** `Object.values(featuredByCategory)`: one product per distinct
      category, in first-seen category order. */
  function FeaturedOf(ps: seq<Product>): (r: seq<Product>)
    ensures |r| == |Dedup(Cats(ps))|
    ensures forall i :: 0 <= i < |r| ==> r[i] == FirstIn(ps, Dedup(Cats(ps))[i])
  {
    var d := Collect(ps);
    Values(d)
  }

  /** No two featured products share a category, and each is the first of
      its category. */
  lemma FeaturedOnePerCategory(ps: seq<Product>)
    ensures forall i, j :: 0 <= i < j < |FeaturedOf(ps)| ==> FeaturedOf(ps)[i].category != FeaturedOf(ps)[j].category
    ensures forall i, k :: 0 <= i < |FeaturedOf(ps)| && IsFirst(ps, InCategory(FeaturedOf(ps)[i].category), k) ==>
      FeaturedOf(ps)[i] == ps[k]
  {
  }

  /** Every category of the input has its first product featured. */
  lemma FeaturedCoversAll(ps: seq<Product>)
    ensures forall k :: 0 <= k < |ps| ==> FirstIn(ps, ps[k].category) in FeaturedOf(ps)
  {
    var r := FeaturedOf(ps);
    var cats := Dedup(Cats(ps));
    forall k | 0 <= k < |ps|
      ensures FirstIn(ps, ps[k].category) in r
    {
      assert Cats(ps)[k] == ps[k].category;
      var i := FirstIndex(cats, ps[k].category);
      assert r[i] == FirstIn(ps, ps[k].category);
    }
  }

  /** The featured products come in the order their categories first
      appear. */
  lemma FeaturedInFirstSeenOrder(ps: seq<Product>)
    ensures forall i, j :: 0 <= i < j < |FeaturedOf(ps)| ==>
      FirstIndex(Cats(ps), FeaturedOf(ps)[i].category) < FirstIndex(Cats(ps), FeaturedOf(ps)[j].category)
  {
    DedupFirstSeen(Cats(ps));
  }

  /** `totalSlides` is the number of distinct categories: at most the number
      of products, and zero only for an empty catalogue. */
  lemma FeaturedCount(ps: seq<Product>)
    ensures |FeaturedOf(ps)| == |Dedup(Cats(ps))| <= |ps|
    ensures |FeaturedOf(ps)| == 0 <==> |ps| == 0
  {
    if |ps| > 0 {
      assert Cats(ps)[0] in Dedup(Cats(ps));
    }
  }

  /** The forEach over one more product. */
  lemma CollectStep(ps: seq<Product>, i: int)
    requires 0 <= i < |ps|
    ensures Collect(ps[..i + 1]) ==
      if ps[i].category in Collect(ps[..i]).values then Collect(ps[..i]) else Put(Collect(ps[..i]), ps[i].category, ps[i])
  {
    assert ps[..i + 1] == ps[..i] + [ps[i]];
    CollectSnoc(ps[..i], ps[i]);
  }

  /** The selection loop with an own-property test. */
  method FeaturedByCategory(products: seq<Product>) returns (featured: seq<Product>)
    ensures featured == FeaturedOf(products)
  {
    var byCategory: Dict<Product> := EmptyDict();
    for i := 0 to |products|
      invariant byCategory == Collect(products[..i])
    {
      var p := products[i];
      CollectStep(products, i);
      if p.category !in byCategory.values {
        byCategory := Put(byCategory, p.category, p);
      }
    }
    assert products[..|products|] == products;
    featured := Values(byCategory);
  }

  /** `!featuredByCategory[c]` as written: false for an own slot, and also
      false for a category named like a member every object inherits, whose
      value is a function or an object. */
  predicate SlotTaken(d: Dict<Product>, c: string) {
    c in d.values || c in InheritedNames
  }

  function OwnName(p: Product): bool {
    p.category !in InheritedNames
  }

  /** The forEach as written over one more product. */
  lemma AsWrittenStep(ps: seq<Product>, i: int)
    requires 0 <= i < |ps|
    ensures var d := Collect(Filter(ps[..i], OwnName));
      Collect(Filter(ps[..i + 1], OwnName)) ==
        if SlotTaken(d, ps[i].category) then d else Put(d, ps[i].category, ps[i])
  {
    var p := ps[i];
    var kept := Filter(ps[..i], OwnName);
    assert ps[..i + 1] == ps[..i] + [p];
    FilterAppend(ps[..i], p, OwnName);
    if !OwnName(p) {
      assert Filter(ps[..i + 1], OwnName) == kept;
    } else {
      assert Filter(ps[..i + 1], OwnName) == kept + [p];
      CollectSnoc(kept, p);
    }
  }

  /** The selection loop as the components write it: products whose
      category is an inherited name never get a slot. */
  method FeaturedByCategoryAsWritten(products: seq<Product>) returns (featured: seq<Product>)
    ensures featured == FeaturedOf(Filter(products, OwnName))
  {
    var byCategory: Dict<Product> := EmptyDict();
    for i := 0 to |products|
      invariant byCategory == Collect(Filter(products[..i], OwnName))
    {
      var p := products[i];
      AsWrittenStep(products, i);
      if !SlotTaken(byCategory, p.category) {
        byCategory := Put(byCategory, p.category, p);
      }
    }
    assert products[..|products|] == products;
    featured := Values(byCategory);
  }

  /** As written, no featured product has an inherited category name; for a
      catalogue without such names the two selections agree. */
  lemma AsWrittenSkipsInherited(ps: seq<Product>)
    ensures forall p :: p in FeaturedOf(Filter(ps, OwnName)) ==> p.category !in InheritedNames
    ensures (forall p :: p in ps ==> OwnName(p)) ==> FeaturedOf(Filter(ps, OwnName)) == FeaturedOf(ps)
  {
    if forall p :: p in ps ==> OwnName(p) {
      FilterAll(ps, OwnName);
    }
  }

  /** A one-product catalogue whose category is "constructor": the loop as
      written features nothing, although the category has a product. */
  method ConstructorCategoryCounterexample(p: Product) returns (shown: seq<Product>)
    requires p.category == "constructor"
    ensures shown == [] && FeaturedOf([p]) == [p]
  {
    shown := FeaturedByCategoryAsWritten([p]);
    assert Filter([p], OwnName) == [] by {
      FilterAppend([], p, OwnName);
      assert [p] == [] + [p];
    }
    assert Dedup(Cats([p])) == [p.category] by {
      DedupAppend([], p.category);
      assert Cats([p]) == [] + [p.category];
    }
  }

  // ---------------------------------------------------------------------
  // Navigation targets
  // ---------------------------------------------------------------------

  /** The detail route a featured card opens. */
  function ProductPath(p: Product): string {
    "/product/" + IntToString(p.id)
  }

  const ViewAllPath := "/products"

  /** The route a card opens leads the detail page back to a product with
      the card's id. */
  lemma ProductPathFindsProduct(catalogue: seq<Product>, p: Product)
    requires p in catalogue
    ensures ProductPath(p)[..9] == "/product/"
    ensures ProductDetail.Lookup(catalogue, ProductPath(p)[9..]).Some?
    ensures ProductDetail.Lookup(catalogue, ProductPath(p)[9..]).value.id == p.id
  {
    assert ProductPath(p)[9..] == IntToString(p.id);
    ProductDetail.ParseIntOfToString(p.id);
  }

  // ---------------------------------------------------------------------
  // The slide index
  // ---------------------------------------------------------------------

  /** A slide index as held by the component: a number, or NaN once taken
      modulo zero. */
  datatype SlideIndex = At(i: int) | NotANumber

  /** JavaScript's `%`, which truncates toward zero. */
  function JsRem(a: int, n: nat): (r: int)
    requires n > 0
    ensures a >= 0 ==> r == a % n
    ensures a < 0 ==> r == -((-a) % n)
  {
    if a >= 0 then a % n else -((-a) % n)
  }

  predicate InRange(s: SlideIndex, total: nat) {
    s.At? && 0 <= s.i < total
  }

  /** `(prev + 1) % totalSlides`, from the next button and the timer. */
  function SlideNext(s: SlideIndex, total: nat): (r: SlideIndex)
    ensures InRange(s, total) ==> r == At(Next(s.i, total))
    ensures total == 0 || s.NotANumber? ==> r == NotANumber
  {
    match s
    case NotANumber => NotANumber
    case At(i) => if total == 0 then NotANumber else At(JsRem(i + 1, total))
  }

  /** `prev === 0 ? totalSlides - 1 : prev - 1`. */
  function SlidePrev(s: SlideIndex, total: nat): (r: SlideIndex)
    ensures InRange(s, total) ==> r == At(Prev(s.i, total))
    ensures s == At(0) ==> r == At(total - 1)
    ensures s.NotANumber? ==> r == NotANumber
  {
    match s
    case NotANumber => NotANumber
    case At(i) => if i == 0 then At(total - 1) else At(i - 1)
  }

  /** With at least one slide both buttons keep the index on a slide and
      undo each other. */
  lemma SlideButtonsInverse(i: nat, total: nat)
    requires i < total
    ensures InRange(SlideNext(At(i), total), total) && InRange(SlidePrev(At(i), total), total)
    ensures SlidePrev(SlideNext(At(i), total), total) == At(i)
    ensures SlideNext(SlidePrev(At(i), total), total) == At(i)
  {
    PrevNext(i, total);
  }

  /** An empty carousel: next gives NaN and previous gives -1. */
  lemma EmptyCarouselIndex()
    ensures SlideNext(At(0), 0) == NotANumber
    ensures SlidePrev(At(0), 0) == At(-1)
  {
  }

  /** The home-page carousel with its quote dialog. */
  class Slides {
    const featured: seq<Product>
    var current: SlideIndex
    var quoteOpen: bool
    var quoteProduct: Option<Product>

    /** The index shows a slide when there is one, and the dialog is open
        exactly while it has a product. */
    predicate Valid()
      reads this
    {
      (|featured| > 0 ==> InRange(current, |featured|)) && (quoteOpen <==> quoteProduct.Some?)
    }

    constructor (catalogue: seq<Product>)
      ensures featured == FeaturedOf(catalogue)
      ensures current == At(0) && !quoteOpen && quoteProduct == None
      ensures Valid()
    {
      var f := FeaturedByCategory(catalogue);
      featured := f;
      current := At(0);
      quoteOpen := false;
      quoteProduct := None;
    }

    /** The next button, and each tick of the five-second timer. */
    method NextSlide()
      requires Valid()
      modifies this
      ensures current == SlideNext(old(current), |featured|)
      ensures quoteOpen == old(quoteOpen) && quoteProduct == old(quoteProduct)
      ensures Valid()
    {
      current := SlideNext(current, |featured|);
    }

    method PrevSlide()
      requires Valid()
      modifies this
      ensures current == SlidePrev(old(current), |featured|)
      ensures quoteOpen == old(quoteOpen) && quoteProduct == old(quoteProduct)
      ensures Valid()
    {
      current := SlidePrev(current, |featured|);
    }

    /** An indicator: there is one per featured product. */
    method GoTo(idx: nat)
      requires Valid() && idx < |featured|
      modifies this
      ensures current == At(idx)
      ensures quoteOpen == old(quoteOpen) && quoteProduct == old(quoteProduct)
      ensures Valid()
    {
      current := At(idx);
    }

    method OpenQuote(p: Product)
      requires Valid()
      modifies this
      ensures quoteOpen && quoteProduct == Some(p) && current == old(current)
      ensures Valid()
    {
      quoteProduct := Some(p);
      quoteOpen := true;
    }

    method CloseQuote()
      requires Valid()
      modifies this
      ensures !quoteOpen && quoteProduct == None && current == old(current)
      ensures Valid()
    {
      quoteOpen := false;
      quoteProduct := None;
    }
  }

  // ---------------------------------------------------------------------
  // The slider's automatic advance
  // ---------------------------------------------------------------------

  /** `prevIndex === length - 1 ? 0 : prevIndex + 1`. */
  function SliderNext(i: int, n: nat): (r: int)
    ensures 0 <= i < n ==> r == Next(i, n)
  {
    if i == n - 1 then 0 else i + 1
  }

  class Slider {
    const featured: seq<Product>
    var index: int

    predicate Valid()
      reads this
    {
      0 <= index && (|featured| > 0 ==> index < |featured|)
    }

    constructor (catalogue: seq<Product>)
      ensures featured == FeaturedOf(catalogue) && index == 0
      ensures Valid()
    {
      var f := FeaturedByCategory(catalogue);
      featured := f;
      index := 0;
    }

    /** The timer runs only with more than one slide. */
    predicate Scheduled()
      reads this
    {
      |featured| > 1
    }

    /** One tick of the four-second timer. */
    method Tick()
      requires Valid() && Scheduled()
      modifies this
      ensures index == SliderNext(old(index), |featured|)
      ensures index == Next(old(index), |featured|)
      ensures Valid()
    {
      index := SliderNext(index, |featured|);
    }
  }

  // ---------------------------------------------------------------------
  // The bar
  // ---------------------------------------------------------------------

  datatype BarContent = Cards(products: seq<Product>) | NoFeaturedMessage

  /** The bar shows the featured cards, or its message when there are none,
      which happens only for an empty catalogue. */
  method BarContents(catalogue: seq<Product>) returns (view: BarContent)
    ensures view == NoFeaturedMessage <==> |catalogue| == 0
    ensures view.Cards? ==> view.products == FeaturedOf(catalogue) && |view.products| > 0
  {
    var featured := FeaturedByCategory(catalogue);
    FeaturedCount(catalogue);
    if |featured| > 0 {
      view := Cards(featured);
    } else {
      view := NoFeaturedMessage;
    }
  }
}
