/** The chip-filter utilities of the product list page: stable filter keys,
    their URL encoding, the filter and sort operations, and the derived
    category, manufacturer and price lists. */
module FilterUtils {
  import opened Wrappers
  import opened Seqs
  import opened Text
  import opened JsObjects
  import opened Catalog
  import opened UriCodec

  // The stable filter keys.
  const SafetyHelmets := "safety_helmets"
  const DisposableMasks := "disposable_masks"
  const EarMuffs := "ear_muffs"
  const SafetySpectacles := "safety_spectacles"
  const Respirators := "respirators"
  const CartridgesFilters := "cartridges_filters"
  const SafetyAccessories := "safety_accessories"
  const SafetyGloves := "safety_gloves"
  const PriceUnder50 := "price_under_50"
  const Price50To100 := "price_50_to_100"
  const Price100To200 := "price_100_to_200"
  const PriceOver200 := "price_over_200"
  const Manufacturer3M := "manufacturer_3m"
  const ManufacturerHoneywell := "manufacturer_honeywell"
  const ManufacturerDeltaPlus := "manufacturer_delta_plus"
  const ManufacturerMsa := "manufacturer_msa"
  const ManufacturerIst := "manufacturer_ist"

  // ---------------------------------------------------------------- labels

  /** A value found in a translations object: a string, or a nested
      namespace object. */
  datatype TranslationValue = TranslatedText(text: string) | Nested

  /** The normalised form a label is compared in: trimmed, lower-cased. */
  function NormalizedLabel(s: string): string {
    Lower(Trim(s))
  }

  predicate LabelsAs(entry: (string, TranslationValue), normalized: string) {
    entry.1.TranslatedText? && NormalizedLabel(entry.1.text) == normalized
  }

  /** getLabelKey: the key of the first string entry whose normalised text
      equals the normalised label; None when nothing matches or when an
      argument is missing. */
  method LabelKey(shown: Option<string>, translations: Option<seq<(string, TranslationValue)>>)
    returns (key: Option<string>)
    ensures !Truthy(shown) || translations.None? ==> key.None?
    ensures Truthy(shown) && translations.Some? ==>
      var entries, n := translations.value, NormalizedLabel(shown.value);
      (key.None? <==> forall i :: 0 <= i < |entries| ==> !LabelsAs(entries[i], n))
      && (key.Some? ==> exists i :: 0 <= i < |entries| && entries[i].0 == key.value && LabelsAs(entries[i], n)
                                     && forall j :: 0 <= j < i ==> !LabelsAs(entries[j], n))
  {
    if !Truthy(shown) || translations.None? {
      return None;
    }
    var entries := translations.value;
    var normalized := NormalizedLabel(shown.value);
    var i := 0;
    while i < |entries|
      invariant 0 <= i <= |entries|
      invariant forall j :: 0 <= j < i ==> !LabelsAs(entries[j], normalized)
    {
      var (k, v) := entries[i];
      if v.TranslatedText? {
        if NormalizedLabel(v.text) == normalized {
          return Some(k);
        }
      }
      i := i + 1;
    }
    return None;
  }

  /** What getFilterLabel yields: text, or the inherited Object.prototype
      member that `filterLabelMap[key]` reads for a name such as "toString". */
  datatype Label = LabelText(text: string) | InheritedMember(name: string)

  /** The translation id of each known filter key. */
  const LabelIds: map<string, string> := map[
    SafetyHelmets := "filters.safetyHelmets",
    DisposableMasks := "filters.disposableMasks",
    EarMuffs := "filters.earMuffs",
    SafetySpectacles := "filters.safetySpectacles",
    Respirators := "filters.respirators",
    CartridgesFilters := "filters.cartridgesFilters",
    SafetyAccessories := "filters.safetyAccessories",
    SafetyGloves := "filters.safetyGloves",
    PriceUnder50 := "filters.priceUnder50",
    Price50To100 := "filters.price50To100",
    Price100To200 := "filters.price100To200",
    PriceOver200 := "filters.priceOver200",
    Manufacturer3M := "filters.manufacturer3M",
    ManufacturerHoneywell := "filters.manufacturerHoneywell",
    ManufacturerDeltaPlus := "filters.manufacturerDeltaPlus",
    ManufacturerMsa := "filters.manufacturerMSA",
    ManufacturerIst := "filters.manufacturerIST"
  ]

  /** getFilterLabel: the translation of a known key, falling back to the key
      itself when the key is unknown or its translation is empty. */
  function FilterLabel(key: string, t: string -> string): (r: Label)
    ensures key in LabelIds && t(LabelIds[key]) != "" ==> r == LabelText(t(LabelIds[key]))
    ensures key in LabelIds && t(LabelIds[key]) == "" ==> r == LabelText(key)
    ensures key !in LabelIds && key !in InheritedNames ==> r == LabelText(key)
    ensures key !in LabelIds && key in InheritedNames ==> r.InheritedMember?
  {
    if key in LabelIds then
      var text := t(LabelIds[key]);
      if text != "" then LabelText(text) else LabelText(key)
    else if key in InheritedNames then InheritedMember(key)
    else LabelText(key)
  }

  // ------------------------------------------------------ URL encoding

  /** encodeFilters: the keys of the set joined by commas, then
      percent-encoded; "" for a missing or empty set. */
  function EncodeFilters(keys: Option<seq<string>>, codec: Codec): string {
    if keys.None? || |keys.value| == 0 then "" else codec.encode(Join(keys.value, ","))
  }

  /** The pieces decodeFilters keeps: not blank, and not trimmed. */
  predicate IsFilterPiece(k: string) {
    !IsBlank(k)
  }

  /** decodeFilters: the Set of non-blank comma-separated pieces of the
      decoded parameter; empty for a missing or empty parameter and when
      decoding throws. */
  function DecodeFilters(param: Option<string>, codec: Codec): (r: seq<string>)
    ensures NoDup(r)
    ensures !Truthy(param) || codec.decode(param.value).None? ==> r == []
    ensures Truthy(param) && codec.decode(param.value).Some? ==>
      forall k :: k in r <==> k in Split(codec.decode(param.value).value, ',') && !IsBlank(k)
  {
    if !Truthy(param) then []
    else match codec.decode(param.value)
      case None => []
      case Some(decoded) => Dedup(Filter(Split(decoded, ','), IsFilterPiece))
  }

  lemma JoinNonEmpty(parts: seq<string>, sep: string)
    requires |parts| > 0 && |parts[0]| > 0
    ensures |Join(parts, sep)| > 0
  {
  }

  /** The chip set survives the URL: decoding an encoded set of non-blank,
      comma-free keys gives back the same keys in the same order. */
  lemma {:induction false} DecodeEncode(keys: seq<string>, codec: Codec)
    requires IsInverse(codec)
    requires NoDup(keys)
    requires forall i :: 0 <= i < |keys| ==> !IsBlank(keys[i]) && ',' !in keys[i]
    ensures DecodeFilters(Some(EncodeFilters(Some(keys), codec)), codec) == keys
  {
    if |keys| > 0 {
      var joined := Join(keys, ",");
      assert |keys[0]| > 0;
      JoinNonEmpty(keys, ",");
      assert codec.encode(joined) != "";
      assert codec.decode(codec.encode(joined)) == Some(joined);
      SplitJoin(keys, ',');
      FilterAll(keys, IsFilterPiece);
      DedupOfNoDup(keys);
    }
  }

  /** getFilterQueryParams: an `f` parameter only for a non-empty set. */
  function FilterQueryParams(filters: Option<seq<string>>, codec: Codec): (r: seq<(string, string)>)
    ensures |r| <= 1
    ensures |r| == 1 <==> filters.Some? && |filters.value| > 0
    ensures |r| == 1 ==> r[0] == ("f", EncodeFilters(filters, codec))
  {
    if filters.Some? && |filters.value| > 0 then [("f", EncodeFilters(filters, codec))] else []
  }

  // ------------------------------------------------------ applyFilters

  /** The replacement itself, `s.replace(/\s+/g, '_')`: a white-space
      character followed by more white space is dropped, and the last one
      of a run becomes `_`, so each maximal run leaves one underscore. */
  function Squash(s: string): string
    decreases |s|
  {
    if |s| == 0 then ""
    else if !IsWhitespace(s[0]) then [s[0]] + Squash(s[1..])
    else if |s| > 1 && IsWhitespace(s[1]) then Squash(s[1..])
    else "_" + Squash(s[1..])
  }

  lemma {:induction false} SquashNoWhitespace(s: string)
    ensures forall i :: 0 <= i < |Squash(s)| ==> !IsWhitespace(Squash(s)[i])
    decreases |s|
  {
    if |s| > 0 {
      SquashNoWhitespace(s[1..]);
    }
  }

  lemma {:induction false} SquashSolid(s: string)
    requires forall i :: 0 <= i < |s| ==> !IsWhitespace(s[i])
    ensures Squash(s) == s
    decreases |s|
  {
    if |s| > 0 {
      SquashSolid(s[1..]);
      assert s == [s[0]] + s[1..];
    }
  }

  /** The normalisation applyFilters applies: no white space remains, and a
      string without white space is unchanged. ReplaceAppend and
      RunBecomesUnderscore give the rest: each maximal run of white space
      becomes exactly one `_`, and every other character is kept in order. */
  function ReplaceWhitespaceRuns(s: string): (r: string)
    ensures forall i :: 0 <= i < |r| ==> !IsWhitespace(r[i])
    ensures (forall i :: 0 <= i < |s| ==> !IsWhitespace(s[i])) ==> r == s
  {
    SquashNoWhitespace(s);
    if forall i :: 0 <= i < |s| ==> !IsWhitespace(s[i]) then SquashSolid(s); Squash(s) else Squash(s)
  }

  /** Non-empty and ending in a character that is not white space. */
  predicate EndsSolid(s: string) {
    |s| > 0 && !IsWhitespace(s[|s| - 1])
  }

  lemma {:induction false} SquashAppend(a: string, b: string)
    requires |a| == 0 || EndsSolid(a)
    ensures Squash(a + b) == Squash(a) + Squash(b)
    decreases |a|
  {
    if |a| == 0 {
      assert a + b == b;
    } else {
      var x := a + b;
      assert x[0] == a[0];
      assert x[1..] == a[1..] + b;
      assert |a| == 1 || EndsSolid(a[1..]) by {
        if |a| > 1 { assert a[1..][|a| - 2] == a[|a| - 1]; }
      }
      SquashAppend(a[1..], b);
      if !IsWhitespace(a[0]) {
        assert Squash(x) == [a[0]] + Squash(a[1..] + b);
      } else {
        assert |a| > 1 && x[1] == a[1];
        if IsWhitespace(a[1]) {
          assert Squash(x) == Squash(a[1..] + b);
        } else {
          assert Squash(x) == "_" + Squash(a[1..] + b);
        }
      }
    }
  }

  lemma {:induction false} SquashBlank(w: string, b: string)
    requires |w| > 0 && IsBlank(w)
    requires |b| == 0 || !IsWhitespace(b[0])
    ensures Squash(w + b) == "_" + Squash(b)
    decreases |w|
  {
    var x := w + b;
    assert x[0] == w[0];
    assert x[1..] == w[1..] + b;
    if |w| > 1 {
      assert x[1] == w[1];
      SquashBlank(w[1..], b);
    } else {
      assert x[1..] == b;
    }
  }

  /** Cutting the input after a character that is not white space cuts the
      result at the same place. */
  lemma ReplaceAppend(a: string, b: string)
    requires |a| == 0 || EndsSolid(a)
    ensures ReplaceWhitespaceRuns(a + b) == ReplaceWhitespaceRuns(a) + ReplaceWhitespaceRuns(b)
  {
    SquashAppend(a, b);
    ReplaceIsSquash(a + b);
    ReplaceIsSquash(a);
    ReplaceIsSquash(b);
  }

  /** A maximal run of white space becomes exactly one underscore, and the
      text on either side is replaced independently. */
  lemma RunBecomesUnderscore(a: string, w: string, b: string)
    requires |a| == 0 || EndsSolid(a)
    requires |w| > 0 && IsBlank(w)
    requires |b| == 0 || !IsWhitespace(b[0])
    ensures ReplaceWhitespaceRuns(a + w + b) == ReplaceWhitespaceRuns(a) + "_" + ReplaceWhitespaceRuns(b)
  {
    SquashRun(a, w, b);
    assert a + w + b == a + (w + b);
    ReplaceIsSquash(a + w + b);
    ReplaceIsSquash(a);
    ReplaceIsSquash(b);
  }

  lemma SquashRun(a: string, w: string, b: string)
    requires |a| == 0 || EndsSolid(a)
    requires |w| > 0 && IsBlank(w)
    requires |b| == 0 || !IsWhitespace(b[0])
    ensures Squash(a + (w + b)) == Squash(a) + ("_" + Squash(b))
  {
    SquashAppend(a, w + b);
    SquashBlank(w, b);
  }

  lemma ReplaceIsSquash(s: string)
    ensures ReplaceWhitespaceRuns(s) == Squash(s)
  {
  }

  /** How applyFilters compares category and manufacturer names with keys. */
  function NormalizedName(s: string): string {
    ReplaceWhitespaceRuns(Lower(s))
  }

  predicate CategoryMatches(p: Product, active: seq<string>) {
    exists f :: f in active && NormalizedName(p.category) == Lower(f)
  }

  predicate ManufacturerMatches(p: Product, active: seq<string>) {
    p.manufacturer.Some? && exists f :: f in active && NormalizedName(p.manufacturer.value) == Lower(f)
  }

  /** A truthy price inside a bucket whose key is active. */
  predicate PriceMatches(p: Product, active: seq<string>) {
    p.price.Some? && p.price.value != 0 &&
    var v := p.price.value;
    (PriceUnder50 in active && v < 50)
    || (Price50To100 in active && 50 <= v <= 100)
    || (Price100To200 in active && 100 < v <= 200)
    || (PriceOver200 in active && v > 200)
  }

  predicate Keeps(active: seq<string>, p: Product) {
    CategoryMatches(p, active) || ManufacturerMatches(p, active) || PriceMatches(p, active)
  }

  /** applyFilters: unchanged without active keys; otherwise the
      order-preserving sublist of the products that match a key by category,
      by manufacturer or by price bucket, each kept with all its copies. */
  function ApplyFilters(products: seq<Product>, active: Option<seq<string>>): (r: seq<Product>)
    ensures active.None? || |active.value| == 0 ==> r == products
    ensures active.Some? && |active.value| > 0 ==>
      SubseqOf(r, products)
      && (forall p :: p in r <==> p in products && Keeps(active.value, p))
      && (forall p :: multiset(r)[p] == if Keeps(active.value, p) then multiset(products)[p] else 0)
  {
    if active.None? || |active.value| == 0 then products
    else
      FilterSubseq(products, p => Keeps(active.value, p));
      FilterMultiset(products, p => Keeps(active.value, p));
      Filter(products, p => Keeps(active.value, p))
  }

  /** The four price bucket keys, in the order the filter lists them. */
  const PriceBucketKeys: seq<string> := [PriceUnder50, Price50To100, Price100To200, PriceOver200]

  /** The bucket test of applyFilters partitions the truthy prices: a
      product has a truthy price exactly when one bucket key alone keeps it,
      and then no other bucket key does. */
  lemma PriceBucketsPartition(p: Product)
    ensures (p.price.Some? && p.price.value != 0) <==>
      exists i :: 0 <= i < |PriceBucketKeys| && PriceMatches(p, [PriceBucketKeys[i]])
    ensures forall i, j ::
      0 <= i < |PriceBucketKeys| && 0 <= j < |PriceBucketKeys| &&
      PriceMatches(p, [PriceBucketKeys[i]]) && PriceMatches(p, [PriceBucketKeys[j]])
      ==> i == j
  {
    var ks := PriceBucketKeys;
    assert ks[0][6] == 'u' && ks[1][6] == '5' && ks[2][6] == '1' && ks[3][6] == 'o';
    assert forall i, j :: 0 <= i < 4 && 0 <= j < 4 && i != j ==> ks[i] != ks[j] by {
      forall i, j | 0 <= i < 4 && 0 <= j < 4 && i != j ensures ks[i] != ks[j] {
        assert ks[i][6] != ks[j][6];
      }
    }
    if p.price.Some? && p.price.value != 0 {
      var v := p.price.value;
      var i := if v < 50 then 0 else if v <= 100 then 1 else if v <= 200 then 2 else 3;
      assert PriceMatches(p, [ks[i]]);
    }
  }

  // ------------------------------------------------------ sortProducts

  /** `price || 0`. */
  function PriceKey(p: Product): int {
    if p.price.Some? then p.price.value else 0
  }

  function NegatedPriceKey(p: Product): int {
    -PriceKey(p)
  }

  predicate SortedBy(s: seq<Product>, key: Product -> int) {
    forall i, j :: 0 <= i < j < |s| ==> key(s[i]) <= key(s[j])
  }

  /** Array.prototype.sort with a key comparator, by insertion: in place, a
      permutation of the array with non-decreasing keys. */
  method SortByKey(a: array<Product>, key: Product -> int)
    modifies a
    ensures multiset(a[..]) == multiset(old(a[..]))
    ensures SortedBy(a[..], key)
  {
    if a.Length == 0 {
      return;
    }
    var i := 1;
    while i < a.Length
      invariant 1 <= i <= a.Length
      invariant multiset(a[..]) == multiset(old(a[..]))
      invariant forall k, l :: 0 <= k < l < i ==> key(a[k]) <= key(a[l])
    {
      InsertByKey(a, i, key);
      i := i + 1;
    }
  }

  /** While `a[i]` moves left it sits at `j`: the other elements of the
      first `i + 1` are in key order and all those right of `j` have larger
      keys. */
  predicate KeyInsertion(s: seq<Product>, i: int, j: int, key: Product -> int)
    requires 0 <= j <= i < |s|
  {
    (forall k, l :: 0 <= k < l <= i && k != j && l != j ==> key(s[k]) <= key(s[l]))
    && (forall l :: j < l <= i ==> key(s[j]) < key(s[l]))
  }

  lemma KeyInsertionSwap(s: seq<Product>, i: int, j: int, key: Product -> int)
    requires 0 < j <= i < |s| && KeyInsertion(s, i, j, key) && key(s[j - 1]) > key(s[j])
    ensures KeyInsertion(s[j - 1 := s[j]][j := s[j - 1]], i, j - 1, key)
    ensures multiset(s[j - 1 := s[j]][j := s[j - 1]]) == multiset(s)
  {
  }

  lemma KeyInsertionDone(s: seq<Product>, i: int, j: int, key: Product -> int)
    requires 0 <= j <= i < |s| && KeyInsertion(s, i, j, key)
    requires j == 0 || key(s[j - 1]) <= key(s[j])
    ensures forall k, l :: 0 <= k < l <= i ==> key(s[k]) <= key(s[l])
  {
  }

  /** One insertion step: moves `a[i]` left past every larger key, so the
      first `i + 1` elements are in key order. */
  method InsertByKey(a: array<Product>, i: nat, key: Product -> int)
    requires i < a.Length
    requires forall k, l :: 0 <= k < l < i ==> key(a[k]) <= key(a[l])
    modifies a
    ensures multiset(a[..]) == multiset(old(a[..]))
    ensures forall k, l :: 0 <= k < l <= i ==> key(a[k]) <= key(a[l])
  {
    var j := i;
    while j > 0 && key(a[j - 1]) > key(a[j])
      invariant 0 <= j <= i
      invariant multiset(a[..]) == multiset(old(a[..]))
      invariant KeyInsertion(a[..], i, j, key)
    {
      ghost var s := a[..];
      KeyInsertionSwap(s, i, j, key);
      a[j - 1], a[j] := a[j], a[j - 1];
      assert a[..] == s[j - 1 := s[j]][j := s[j - 1]];
      j := j - 1;
    }
    KeyInsertionDone(a[..], i, j, key);
  }

  /** sortProducts: a new array holding a permutation of the products;
      'price-asc' gives non-decreasing `price || 0`, 'price-desc'
      non-increasing, 'name' non-decreasing collation rank of the name, and
      any other key keeps the input order. */
  method SortProducts(products: seq<Product>, sortBy: string, collation: string -> int)
    returns (sorted: seq<Product>)
    ensures multiset(sorted) == multiset(products)
    ensures sortBy == "price-asc" ==>
      forall i, j :: 0 <= i < j < |sorted| ==> PriceKey(sorted[i]) <= PriceKey(sorted[j])
    ensures sortBy == "price-desc" ==>
      forall i, j :: 0 <= i < j < |sorted| ==> PriceKey(sorted[i]) >= PriceKey(sorted[j])
    ensures sortBy == "name" ==>
      forall i, j :: 0 <= i < j < |sorted| ==> collation(sorted[i].name) <= collation(sorted[j].name)
    ensures sortBy != "price-asc" && sortBy != "price-desc" && sortBy != "name" ==> sorted == products
  {
    var a := new Product[|products|](i requires 0 <= i < |products| => products[i]);
    assert a[..] == products;
    if sortBy == "price-asc" {
      SortByKey(a, PriceKey);
    } else if sortBy == "price-desc" {
      SortByKey(a, NegatedPriceKey);
    } else if sortBy == "name" {
      SortByKey(a, (p: Product) => collation(p.name));
    }
    sorted := a[..];
  }

  // ------------------------------------------------------ validateFilters

  /** Membership in the allowed set, as a predicate value. */
  function IsAllowed(permitted: set<string>): string -> bool {
    k => k in permitted
  }

  /** One more key of validateFilters' loop. */
  lemma ValidStep(given: seq<string>, permitted: set<string>, i: int)
    requires 0 <= i < |given|
    ensures var before := Dedup(Filter(given[..i], IsAllowed(permitted)));
      Dedup(Filter(given[..i + 1], IsAllowed(permitted))) ==
        if given[i] in permitted && given[i] !in before then before + [given[i]] else before
  {
    var key := given[i];
    var kept := Filter(given[..i], IsAllowed(permitted));
    assert given[..i + 1] == given[..i] + [key];
    FilterAppend(given[..i], key, IsAllowed(permitted));
    if key in permitted {
      assert Filter(given[..i + 1], IsAllowed(permitted)) == kept + [key];
      DedupAppend(kept, key);
    } else {
      assert Filter(given[..i + 1], IsAllowed(permitted)) == kept;
    }
  }

  /** validateFilters: the given keys that are allowed, once each, in the
      order they were given; empty when an argument is missing. */
  method ValidateFilters(keys: Option<seq<string>>, allowed: Option<set<string>>) returns (valid: seq<string>)
    ensures NoDup(valid)
    ensures keys.None? || allowed.None? ==> valid == []
    ensures keys.Some? && allowed.Some? ==>
      (forall k :: k in valid <==> k in keys.value && k in allowed.value)
      && valid == Dedup(Filter(keys.value, IsAllowed(allowed.value)))
  {
    if keys.None? || allowed.None? {
      return [];
    }
    var given, permitted := keys.value, allowed.value;
    valid := [];
    var i := 0;
    while i < |given|
      invariant 0 <= i <= |given|
      invariant valid == Dedup(Filter(given[..i], IsAllowed(permitted)))
    {
      var key := given[i];
      ValidStep(given, permitted, i);
      if key in permitted && key !in valid {
        valid := valid + [key];
      }
      i := i + 1;
    }
    assert given[..i] == given;
  }

  // ------------------------------------------------------ unique lists

  /** Default string order of Array.prototype.sort, taken character by
      character on code points (not UTF-16 code units), a proper prefix
      first. */
  predicate StrLess(a: string, b: string) {
    if |a| == 0 then |b| > 0
    else if |b| == 0 then false
    else if a[0] == b[0] then StrLess(a[1..], b[1..])
    else a[0] < b[0]
  }

  lemma {:induction false} StrLessIrreflexive(a: string)
    ensures !StrLess(a, a)
  {
    if |a| > 0 { StrLessIrreflexive(a[1..]); }
  }

  lemma {:induction false} StrLessTransitive(a: string, b: string, c: string)
    requires StrLess(a, b) && StrLess(b, c)
    ensures StrLess(a, c)
  {
    if |a| > 0 && |b| > 0 && |c| > 0 && a[0] == b[0] && b[0] == c[0] {
      StrLessTransitive(a[1..], b[1..], c[1..]);
    }
  }

  lemma {:induction false} StrLessTotal(a: string, b: string)
    requires a != b
    ensures StrLess(a, b) || StrLess(b, a)
  {
    if |a| > 0 && |b| > 0 && a[0] == b[0] {
      assert a == [a[0]] + a[1..] && b == [b[0]] + b[1..];
      StrLessTotal(a[1..], b[1..]);
    }
  }

  predicate StrictlySorted(s: seq<string>) {
    forall i, j :: 0 <= i < j < |s| ==> StrLess(s[i], s[j])
  }

  /** `.sort()` on an array of distinct strings, by insertion. */
  method SortStrings(a: array<string>)
    requires NoDup(a[..])
    modifies a
    ensures multiset(a[..]) == multiset(old(a[..]))
    ensures StrictlySorted(a[..])
  {
    if a.Length == 0 {
      return;
    }
    var i := 1;
    while i < a.Length
      invariant 1 <= i <= a.Length
      invariant multiset(a[..]) == multiset(old(a[..]))
      invariant NoDup(a[..])
      invariant forall k, l :: 0 <= k < l < i ==> StrLess(a[k], a[l])
    {
      InsertString(a, i);
      i := i + 1;
    }
  }

  predicate StringInsertion(s: seq<string>, i: int, j: int)
    requires 0 <= j <= i < |s|
  {
    (forall k, l :: 0 <= k < l <= i && k != j && l != j ==> StrLess(s[k], s[l]))
    && (forall l :: j < l <= i ==> StrLess(s[j], s[l]))
  }

  lemma StringInsertionSwap(s: seq<string>, i: int, j: int)
    requires 0 < j <= i < |s| && StringInsertion(s, i, j) && StrLess(s[j], s[j - 1])
    ensures StringInsertion(s[j - 1 := s[j]][j := s[j - 1]], i, j - 1)
  {
    var t := s[j - 1 := s[j]][j := s[j - 1]];
    forall k, l | 0 <= k < l <= i && k != j - 1 && l != j - 1 ensures StrLess(t[k], t[l]) {
      var k' := if k == j then j - 1 else k;
      var l' := if l == j then j - 1 else l;
      assert t[k] == s[k'] && t[l] == s[l'];
    }
    forall l | j - 1 < l <= i ensures StrLess(t[j - 1], t[l]) {
      if l > j { assert t[l] == s[l]; }
    }
  }

  lemma SwapKeepsElements(s: seq<string>, j: int)
    requires 0 < j < |s|
    ensures multiset(s[j - 1 := s[j]][j := s[j - 1]]) == multiset(s)
    ensures NoDup(s) ==> NoDup(s[j - 1 := s[j]][j := s[j - 1]])
  {
    var t := s[j - 1 := s[j]][j := s[j - 1]];
    if NoDup(s) {
      forall k, l | 0 <= k < l < |t| ensures t[k] != t[l] {
        var k' := if k == j - 1 then j else if k == j then j - 1 else k;
        var l' := if l == j - 1 then j else if l == j then j - 1 else l;
        assert t[k] == s[k'] && t[l] == s[l'] && k' != l';
      }
    }
  }

  lemma StringInsertionDone(s: seq<string>, i: int, j: int)
    requires 0 <= j <= i < |s| && StringInsertion(s, i, j) && NoDup(s)
    requires j == 0 || !StrLess(s[j], s[j - 1])
    ensures forall k, l :: 0 <= k < l <= i ==> StrLess(s[k], s[l])
  {
    if j > 0 {
      StrLessTotal(s[j - 1], s[j]);
      forall k | 0 <= k < j - 1 ensures StrLess(s[k], s[j]) {
        StrLessTransitive(s[k], s[j - 1], s[j]);
      }
    }
  }

  /** One insertion step over distinct strings. */
  method InsertString(a: array<string>, i: nat)
    requires i < a.Length
    requires NoDup(a[..])
    requires forall k, l :: 0 <= k < l < i ==> StrLess(a[k], a[l])
    modifies a
    ensures multiset(a[..]) == multiset(old(a[..]))
    ensures NoDup(a[..])
    ensures forall k, l :: 0 <= k < l <= i ==> StrLess(a[k], a[l])
  {
    var j := i;
    while j > 0 && StrLess(a[j], a[j - 1])
      invariant 0 <= j <= i
      invariant multiset(a[..]) == multiset(old(a[..]))
      invariant NoDup(a[..])
      invariant StringInsertion(a[..], i, j)
    {
      ghost var s := a[..];
      StringInsertionSwap(s, i, j);
      SwapKeepsElements(s, j);
      a[j - 1], a[j] := a[j], a[j - 1];
      assert a[..] == s[j - 1 := s[j]][j := s[j - 1]];
      j := j - 1;
    }
    StringInsertionDone(a[..], i, j);
  }

  /** Sorts distinct strings into a new sequence. */
  method SortedDistinct(values: seq<string>) returns (r: seq<string>)
    requires NoDup(values)
    ensures StrictlySorted(r) && NoDup(r)
    ensures multiset(r) == multiset(values)
    ensures forall v :: v in r <==> v in values
  {
    var a := new string[|values|](i requires 0 <= i < |values| => values[i]);
    assert a[..] == values;
    SortStrings(a);
    r := a[..];
    assert forall v :: v in r <==> v in multiset(r);
    assert forall v :: v in values <==> v in multiset(values);
    forall i, j | 0 <= i < j < |r| ensures r[i] != r[j] {
      if r[i] == r[j] { StrLessIrreflexive(r[i]); }
    }
  }

  /** getUniqueCategories: the truthy categories, once each, in string
      order; [] when the argument is not an array. */
  method UniqueCategories(products: Option<seq<Product>>) returns (r: seq<string>)
    ensures products.None? ==> r == []
    ensures StrictlySorted(r) && NoDup(r)
    ensures products.Some? ==>
      forall c :: c in r <==> c != "" && exists p :: p in products.value && p.category == c
  {
    if products.None? {
      return [];
    }
    var ps := products.value;
    var seen: seq<string> := [];
    var i := 0;
    while i < |ps|
      invariant 0 <= i <= |ps|
      invariant NoDup(seen)
      invariant forall c :: c in seen <==> c != "" && exists j :: 0 <= j < i && ps[j].category == c
    {
      var c := ps[i].category;
      if c != "" && c !in seen {
        seen := seen + [c];
      }
      i := i + 1;
    }
    r := SortedDistinct(seen);
  }

  /** getUniqueManufacturers: the truthy `manufacturer` values, once each, in
      string order; [] when the argument is not an array. Catalogue records
      carry `distributor` instead, so for them the list is empty. */
  method UniqueManufacturers(products: Option<seq<Product>>) returns (r: seq<string>)
    ensures products.None? ==> r == []
    ensures StrictlySorted(r) && NoDup(r)
    ensures products.Some? ==>
      forall m :: m in r <==> m != "" && exists p :: p in products.value && p.manufacturer == Some(m)
    ensures products.Some? && (forall p :: p in products.value ==> p.manufacturer.None?) ==> r == []
  {
    if products.None? {
      return [];
    }
    var ps := products.value;
    var seen: seq<string> := [];
    var i := 0;
    while i < |ps|
      invariant 0 <= i <= |ps|
      invariant NoDup(seen)
      invariant forall m :: m in seen <==> m != "" && exists j :: 0 <= j < i && ps[j].manufacturer == Some(m)
    {
      if Truthy(ps[i].manufacturer) && ps[i].manufacturer.value !in seen {
        seen := seen + [ps[i].manufacturer.value];
      }
      i := i + 1;
    }
    r := SortedDistinct(seen);
    assert forall m :: m in seen ==> exists p :: p in ps && p.manufacturer == Some(m) by {
      forall m | m in seen ensures exists p :: p in ps && p.manufacturer == Some(m) {
        var j :| 0 <= j < |ps| && ps[j].manufacturer == Some(m);
        assert ps[j] in ps;
      }
    }
    assert |r| > 0 ==> r[0] in seen;
  }

  // ------------------------------------------------------ price range

  datatype PriceBounds = PriceBounds(min: int, max: int)

  /** The numeric prices, in product order. */
  function Prices(products: seq<Product>): (r: seq<int>)
    ensures forall v :: v in r <==> exists p :: p in products && p.price == Some(v)
  {
    if |products| == 0 then []
    else
      assert forall p :: p in products <==> p == products[0] || p in products[1..];
      (if products[0].price.Some? then [products[0].price.value] else []) + Prices(products[1..])
  }

  function Min(xs: seq<int>): (m: int)
    requires |xs| > 0
    ensures m in xs && forall x :: x in xs ==> m <= x
  {
    if |xs| == 1 then xs[0]
    else
      var rest := Min(xs[1..]);
      assert forall x :: x in xs ==> x == xs[0] || x in xs[1..];
      if xs[0] <= rest then xs[0] else rest
  }

  function Max(xs: seq<int>): (m: int)
    requires |xs| > 0
    ensures m in xs && forall x :: x in xs ==> x <= m
  {
    if |xs| == 1 then xs[0]
    else
      var rest := Max(xs[1..]);
      assert forall x :: x in xs ==> x == xs[0] || x in xs[1..];
      if xs[0] >= rest then xs[0] else rest
  }

  /** getPriceRange: {0, 0} when no product has a numeric price (or the
      argument is not an array); otherwise the least and greatest price,
      both prices of some product. */
  function PriceRange(products: Option<seq<Product>>): (r: PriceBounds)
    ensures products.None? ==> r == PriceBounds(0, 0)
    ensures products.Some? && (forall p :: p in products.value ==> p.price.None?) ==> r == PriceBounds(0, 0)
    ensures products.Some? && (exists p :: p in products.value && p.price.Some?) ==>
      r.min <= r.max
      && (exists p :: p in products.value && p.price == Some(r.min))
      && (exists p :: p in products.value && p.price == Some(r.max))
      && (forall p :: p in products.value && p.price.Some? ==> r.min <= p.price.value <= r.max)
  {
    if products.None? then PriceBounds(0, 0)
    else
      var prices := Prices(products.value);
      if |prices| == 0 then PriceBounds(0, 0)
      else
        assert forall p :: p in products.value && p.price.Some? ==> p.price.value in prices;
        PriceBounds(Min(prices), Max(prices))
  }
}
