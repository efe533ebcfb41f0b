/** The product detail page: the lookup of the routed product, the colour
    selection with its case-insensitive gallery choice, the image viewer
    and the category labels taken from the query string. */
module ProductDetail {
  import opened Wrappers
  import opened Seqs
  import opened Text
  import opened Catalog
  import opened QueryParams
  import opened GalleryViewer

  // ---------------------------------------------------------------------
  // The route parameter
  // ---------------------------------------------------------------------

  function DigitValue(c: char): nat
    requires IsDigit(c)
  {
    c as int - '0' as int
  }

  /** The value of the longest run of decimal digits at the start of `s`,
      with its length. */
  function DigitPrefix(s: string, acc: nat, len: nat): (r: (nat, nat))
    ensures r.1 >= len
    decreases |s|
  {
    if |s| > 0 && IsDigit(s[0]) then DigitPrefix(s[1..], acc * 10 + DigitValue(s[0]), len + 1)
    else (acc, len)
  }

  /** parseInt(s, 10): leading whitespace is skipped, an optional sign is
      read, then the longest digit run; NaN (None) when there is no digit. */
  function ParseInt(s: string): (r: Option<int>)
    ensures r.Some? ==> exists i :: 0 <= i < |s| && IsDigit(s[i])
  {
    var t := TrimStart(s);
    var neg := |t| > 0 && t[0] == '-';
    var u := if |t| > 0 && (t[0] == '-' || t[0] == '+') then t[1..] else t;
    var (v, n) := DigitPrefix(u, 0, 0);
    if n == 0 then None
    else
      assert IsDigit(u[0]);
      assert u[0] in s;
      var value: int := if neg then -(v as int) else v;
      Some(value)
  }

  lemma {:induction false} DigitPrefixOfDigits(s: string, rest: string, acc: nat, len: nat)
    requires forall i :: 0 <= i < |s| ==> IsDigit(s[i])
    requires |rest| == 0 || !IsDigit(rest[0])
    ensures DigitPrefix(s + rest, acc, len) == (DigitsValue(s, acc), len + |s|)
    decreases |s|
  {
    if |s| > 0 {
      assert (s + rest)[1..] == s[1..] + rest;
      DigitPrefixOfDigits(s[1..], rest, acc * 10 + DigitValue(s[0]), len + 1);
    } else {
      assert s + rest == rest;
    }
  }

  /** The number a digit string spells, read after the digits in `acc`. */
  function DigitsValue(s: string, acc: nat): nat
    requires forall i :: 0 <= i < |s| ==> IsDigit(s[i])
    decreases |s|
  {
    if |s| == 0 then acc else DigitsValue(s[1..], acc * 10 + DigitValue(s[0]))
  }

  lemma {:induction false} DigitsValueSnoc(s: string, c: char, acc: nat)
    requires forall i :: 0 <= i < |s| ==> IsDigit(s[i])
    requires IsDigit(c)
    ensures DigitsValue(s + [c], acc) == DigitsValue(s, acc) * 10 + DigitValue(c)
    decreases |s|
  {
    if |s| == 0 {
      assert (s + [c])[1..] == [];
    } else {
      assert (s + [c])[1..] == s[1..] + [c];
      DigitsValueSnoc(s[1..], c, acc * 10 + DigitValue(s[0]));
    }
  }

  lemma {:induction false} DigitsValueOfNat(n: nat)
    ensures DigitsValue(NatToString(n), 0) == n
    decreases n
  {
    if n >= 10 {
      DigitsValueOfNat(n / 10);
      DigitsValueSnoc(NatToString(n / 10), DigitChar(n % 10), 0);
    } else {
      assert NatToString(n)[1..] == [];
    }
  }

  /** An id written in decimal reads back as the same number. */
  lemma ParseIntOfToString(n: int)
    ensures ParseInt(IntToString(n)) == Some(n)
  {
    var m := if n < 0 then -n else n;
    var digits := NatToString(m);
    DigitsValueOfNat(m);
    DigitPrefixOfDigits(digits, "", 0, 0);
    assert digits + "" == digits;
    assert TrimStart(IntToString(n)) == IntToString(n) by {
      assert !IsWhitespace(IntToString(n)[0]);
    }
    if n < 0 {
      assert IntToString(n)[1..] == digits;
    }
  }

  // ---------------------------------------------------------------------
  // Lookup, colour and gallery
  // ---------------------------------------------------------------------

  function HasId(id: Option<int>): Product -> bool {
    (p: Product) => id.Some? && p.id == id.value
  }

  /** `productsData.find(p => p?.id === productIdNum)`: the first product
      with the parsed id; a NaN id matches nothing. */
  function Lookup(products: seq<Product>, route: string): (r: Option<Product>)
    ensures r.Some? ==> r.value in products && Some(r.value.id) == ParseInt(route)
    ensures r.None? <==> forall p :: p in products ==> Some(p.id) != ParseInt(route)
    ensures forall i :: IsFirst(products, HasId(ParseInt(route)), i) ==> r == Some(products[i])
  {
    Find(products, HasId(ParseInt(route)))
  }

  /** The colour selected when the page opens: the first variant's name. */
  function InitialColor(p: Product): (c: string)
    ensures |p.colorVariants| == 0 ==> c == ""
    ensures |p.colorVariants| > 0 ==> c == p.colorVariants[0].name
  {
    if |p.colorVariants| > 0 then p.colorVariants[0].name else ""
  }

  function NamedLike(color: string): ColorVariant -> bool {
    (v: ColorVariant) => Lower(v.name) == Lower(color)
  }

  /** The images shown for the selected colour: the gallery of the first
      variant whose name equals the colour ignoring case, if it has images;
      else the product's gallery, if it has images; else the product image
      alone. Never empty. */
  function DetailGallery(p: Product, color: string): (g: seq<string>)
    ensures |g| > 0
    ensures forall i :: color != "" && IsFirst(p.colorVariants, NamedLike(color), i) ==>
      g == (if |p.colorVariants[i].gallery| > 0 then p.colorVariants[i].gallery
            else if |p.gallery| > 0 then p.gallery else [p.image])
    ensures (color == "" || forall v :: v in p.colorVariants ==> Lower(v.name) != Lower(color)) ==>
      g == (if |p.gallery| > 0 then p.gallery else [p.image])
    ensures g == p.gallery || g == [p.image] || exists v :: v in p.colorVariants && g == v.gallery
  {
    var fallback := if |p.gallery| > 0 then p.gallery else [p.image];
    if color != "" then
      match Find(p.colorVariants, NamedLike(color))
      case Some(v) => if |v.gallery| > 0 then v.gallery else fallback
      case None => fallback
    else fallback
  }

  /** Choosing a colour is insensitive to its letter case. */
  lemma GalleryIgnoresCase(p: Product, color: string)
    ensures DetailGallery(p, Upper(color)) == DetailGallery(p, color)
  {
    assert Lower(Upper(color)) == Lower(color);
    assert NamedLike(Upper(color)) == NamedLike(color);
    assert (Upper(color) == "") == (color == "");
  }

  /** The Category and SubCategory labels: a query-string value wins over
      the product's own field. */
  function CategoryLabel(q: seq<QueryParam>, p: Product): (r: string)
    ensures ParamOrEmpty(q, "category") != "" ==> r == ParamOrEmpty(q, "category")
    ensures ParamOrEmpty(q, "category") == "" ==> r == p.category
  {
    var v := ParamOrEmpty(q, "category");
    if v != "" then v else p.category
  }

  function SubCategoryLabel(q: seq<QueryParam>, p: Product): (r: Option<string>)
    ensures ParamOrEmpty(q, "subCategory") != "" ==> r == Some(ParamOrEmpty(q, "subCategory"))
    ensures ParamOrEmpty(q, "subCategory") == "" ==> r == p.subCategory
  {
    var v := ParamOrEmpty(q, "subCategory");
    if v != "" then Some(v) else p.subCategory
  }

  // ---------------------------------------------------------------------
  // The page state
  // ---------------------------------------------------------------------

  class DetailView {
    const product: Product
    var selectedColor: string
    var quoteOpen: bool
    const viewer: Viewer

    /** The viewer's index addresses an image of the current gallery. */
    predicate Valid()
      reads this, viewer
    {
      viewer.Valid(|DetailGallery(product, selectedColor)|)
    }

    /** The found product's page, opened on its first variant's colour. */
    constructor (product: Product)
      ensures this.product == product && selectedColor == InitialColor(product) && !quoteOpen
      ensures viewer.index == 0 && !viewer.zoomed && viewer.pos == Origin
      ensures Valid()
    {
      this.product := product;
      selectedColor := InitialColor(product);
      quoteOpen := false;
      viewer := new Viewer();
    }

    /** A colour swatch, or "All" with the empty colour: first image, zoom
        off, offset cleared. */
    method SelectColor(color: string)
      modifies this, viewer
      ensures selectedColor == color && quoteOpen == old(quoteOpen)
      ensures viewer.index == 0 && !viewer.zoomed && viewer.pos == Origin
      ensures viewer.dragging == old(viewer.dragging) && viewer.dragStart == old(viewer.dragStart)
      ensures viewer.touchStart == old(viewer.touchStart)
      ensures Valid()
    {
      selectedColor := color;
      viewer.Reset();
    }

    method NextImage()
      requires Valid()
      modifies viewer
      ensures viewer.index == Next(old(viewer.index), |DetailGallery(product, selectedColor)|) && viewer.pos == Origin
      ensures viewer.zoomed == old(viewer.zoomed) && viewer.dragging == old(viewer.dragging)
      ensures viewer.dragStart == old(viewer.dragStart) && viewer.touchStart == old(viewer.touchStart)
      ensures Valid()
    {
      viewer.NextImage(|DetailGallery(product, selectedColor)|);
    }

    method PrevImage()
      requires Valid()
      modifies viewer
      ensures viewer.index == Prev(old(viewer.index), |DetailGallery(product, selectedColor)|) && viewer.pos == Origin
      ensures viewer.zoomed == old(viewer.zoomed) && viewer.dragging == old(viewer.dragging)
      ensures viewer.dragStart == old(viewer.dragStart) && viewer.touchStart == old(viewer.touchStart)
      ensures Valid()
    {
      viewer.PrevImage(|DetailGallery(product, selectedColor)|);
    }

    method TouchEnd(x: int)
      requires Valid()
      modifies viewer
      ensures old(viewer.zoomed) || old(viewer.touchStart).None? ==>
        viewer.index == old(viewer.index) && viewer.pos == old(viewer.pos) && viewer.touchStart == old(viewer.touchStart)
      ensures !old(viewer.zoomed) && old(viewer.touchStart).Some? ==>
        viewer.touchStart == None &&
        viewer.index == SwipeTarget(old(viewer.index), |DetailGallery(product, selectedColor)|, x - old(viewer.touchStart).value) &&
        viewer.pos == (if SwipeOf(x - old(viewer.touchStart).value) == NoSwipe then old(viewer.pos) else Origin)
      ensures viewer.zoomed == old(viewer.zoomed) && viewer.dragging == old(viewer.dragging)
      ensures viewer.dragStart == old(viewer.dragStart)
      ensures Valid()
    {
      viewer.TouchEnd(x, |DetailGallery(product, selectedColor)|);
    }

    method OpenQuote()
      modifies this
      ensures quoteOpen && selectedColor == old(selectedColor)
    {
      quoteOpen := true;
    }

    method CloseQuote()
      modifies this
      ensures !quoteOpen && selectedColor == old(selectedColor)
    {
      quoteOpen := false;
    }
  }
}
