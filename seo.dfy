/** Search-engine metadata: XML escaping for the sitemap, schema.org
    breadcrumbs and product markup, the completeness check on a page's SEO
    data, the per-page templates, the canonical URL and the Open Graph tags. */
module Seo {
  import opened Wrappers
  import opened Seqs
  import opened Text
  import opened JsObjects
  import opened QueryParams

  const SiteUrl := "https://www.hilmiabusham.com"
  const CompanyName := "Hilmi Abu Sham & Partners"

  // ---------------------------------------------------------------------
  // escapeXml: the five predefined entities of section 4.6 of XML 1.0
  // ---------------------------------------------------------------------

  /** A character the escaping pattern `[&<>"']` matches. */
  predicate IsMarkup(c: char) {
    c == '&' || c == '<' || c == '>' || c == '"' || c == '\''
  }

  /** The replacement text for one character. */
  function EntityOf(c: char): (r: string)
    ensures |r| > 0
    ensures IsMarkup(c) ==> r[0] == '&' && r[|r| - 1] == ';'
    ensures !IsMarkup(c) ==> r == [c]
    ensures forall k :: 0 < k < |r| ==> r[k] != '&'
  {
    match c
    case '&' => "&amp;"
    case '<' => "&lt;"
    case '>' => "&gt;"
    case '"' => "&quot;"
    case '\'' => "&apos;"
    case _ => [c]
  }

  /** None of `<`, `>`, `"`, `'` occurs. */
  predicate NoRawMarkup(s: string) {
    forall i :: 0 <= i < |s| ==> s[i] != '<' && s[i] != '>' && s[i] != '"' && s[i] != '\''
  }

  /** One of the five entity references starts at `i`. */
  predicate EntityAt(s: string, i: int) {
    OccursAt(s, "&amp;", i) || OccursAt(s, "&lt;", i) || OccursAt(s, "&gt;", i)
    || OccursAt(s, "&quot;", i) || OccursAt(s, "&apos;", i)
  }

  /** Every `&` begins an entity reference. */
  predicate AmpersandsAreEntities(s: string) {
    forall i :: 0 <= i < |s| && s[i] == '&' ==> EntityAt(s, i)
  }

  /** `str.replace(/[&<>"']/g, ...)`: each markup character becomes its
      entity; every other character is copied. */
  function EscapeXml(s: string): (r: string)
    ensures |r| >= |s|
    ensures NoRawMarkup(r)
    ensures (forall i :: 0 <= i < |s| ==> !IsMarkup(s[i])) ==> r == s
    decreases |s|
  {
    if |s| == 0 then ""
    else
      var e := EntityOf(s[0]);
      var rest := EscapeXml(s[1..]);
      assert NoRawMarkup(e);
      var r := e + rest;
      assert forall i :: |e| <= i < |r| ==> r[i] == rest[i - |e|];
      r
  }

  /** Decoding the five entities back, the reading an XML parser applies. */
  function Unescape(s: string): string
    decreases |s|
  {
    if |s| == 0 then ""
    else if StartsWith(s, "&amp;") then "&" + Unescape(s[5..])
    else if StartsWith(s, "&lt;") then "<" + Unescape(s[4..])
    else if StartsWith(s, "&gt;") then ">" + Unescape(s[4..])
    else if StartsWith(s, "&quot;") then "\"" + Unescape(s[6..])
    else if StartsWith(s, "&apos;") then "'" + Unescape(s[6..])
    else [s[0]] + Unescape(s[1..])
  }

  lemma UnescapeEntity(c: char, rest: string)
    ensures Unescape(EntityOf(c) + rest) == [c] + Unescape(rest)
  {
    if !IsMarkup(c) {
      UnescapePlain(c, rest);
    } else {
      UnescapeMarkup(c, rest);
    }
  }

  lemma UnescapePlain(c: char, rest: string)
    requires !IsMarkup(c)
    ensures Unescape([c] + rest) == [c] + Unescape(rest)
  {
    var r := [c] + rest;
    assert r[0] == c && r[1..] == rest;
    assert !StartsWith(r, "&amp;") && !StartsWith(r, "&lt;") && !StartsWith(r, "&gt;");
    assert !StartsWith(r, "&quot;") && !StartsWith(r, "&apos;");
  }

  lemma UnescapeMarkup(c: char, rest: string)
    requires IsMarkup(c)
    ensures Unescape(EntityOf(c) + rest) == [c] + Unescape(rest)
  {
    var e := EntityOf(c);
    var r := e + rest;
    assert r[..|e|] == e;
    assert r[|e|..] == rest;
    if c == '&' {
      assert StartsWith(r, "&amp;");
    } else if c == '<' {
      assert r[1] == 'l';
      assert StartsWith(r, "&lt;");
    } else if c == '>' {
      assert r[1] == 'g';
      assert StartsWith(r, "&gt;");
    } else if c == '"' {
      assert r[1] == 'q';
      assert StartsWith(r, "&quot;");
    } else {
      assert r[1] == 'a' && r[2] == 'p';
      assert StartsWith(r, "&apos;");
    }
  }

  /** Escaping loses nothing: unescaping restores the input. */
  lemma {:induction false} UnescapeEscape(s: string)
    ensures Unescape(EscapeXml(s)) == s
    decreases |s|
  {
    if |s| > 0 {
      UnescapeEscape(s[1..]);
      UnescapeEntity(s[0], EscapeXml(s[1..]));
      assert s == [s[0]] + s[1..];
    }
  }

  lemma OccursAtShift(a: string, b: string, pat: string, i: int)
    requires OccursAt(b, pat, i)
    ensures OccursAt(a + b, pat, |a| + i)
  {
    assert (a + b)[|a| + i..|a| + i + |pat|] == b[i..i + |pat|];
  }

  lemma EntityAtShift(a: string, b: string, i: int)
    requires EntityAt(b, i)
    ensures EntityAt(a + b, |a| + i)
  {
    if OccursAt(b, "&amp;", i) { OccursAtShift(a, b, "&amp;", i); }
    else if OccursAt(b, "&lt;", i) { OccursAtShift(a, b, "&lt;", i); }
    else if OccursAt(b, "&gt;", i) { OccursAtShift(a, b, "&gt;", i); }
    else if OccursAt(b, "&quot;", i) { OccursAtShift(a, b, "&quot;", i); }
    else { OccursAtShift(a, b, "&apos;", i); }
  }

  lemma EntityAtStart(c: char, rest: string)
    requires IsMarkup(c)
    ensures EntityAt(EntityOf(c) + rest, 0)
  {
    var e := EntityOf(c);
    assert (e + rest)[0..|e|] == e;
    assert OccursAt(e + rest, e, 0);
  }

  lemma AmpersandsPrefix(c: char, rest: string)
    requires AmpersandsAreEntities(rest)
    ensures AmpersandsAreEntities(EntityOf(c) + rest)
  {
    var e := EntityOf(c);
    var r := e + rest;
    forall i | 0 <= i < |r| && r[i] == '&' ensures EntityAt(r, i) {
      if i < |e| {
        assert r[i] == e[i];
        EntityAtStart(c, rest);
      } else {
        assert r[i] == rest[i - |e|];
        EntityAtShift(e, rest, i - |e|);
      }
    }
  }

  /** The output of escapeXml uses `&` only to start an entity reference. */
  lemma {:induction false} EscapedAmpersands(s: string)
    ensures AmpersandsAreEntities(EscapeXml(s))
    decreases |s|
  {
    if |s| > 0 {
      EscapedAmpersands(s[1..]);
      AmpersandsPrefix(s[0], EscapeXml(s[1..]));
    }
  }

  // ---------------------------------------------------------------------
  // getBreadcrumbSchema
  // ---------------------------------------------------------------------

  datatype Crumb = Crumb(caption: string, url: string)

  /** A schema.org ListItem of a BreadcrumbList. */
  datatype ListItem = ListItem(position: int, name: string, item: string)

  function CrumbOf(li: ListItem): Crumb {
    Crumb(li.name, li.item)
  }

  /** One list item per crumb, in order, numbered from 1. */
  function BreadcrumbSchema(crumbs: seq<Crumb>): (r: seq<ListItem>)
    ensures |r| == |crumbs|
    ensures forall i :: 0 <= i < |r| ==> r[i].position == i + 1
    ensures forall i :: 0 <= i < |r| ==> CrumbOf(r[i]) == crumbs[i]
  {
    seq(|crumbs|, i requires 0 <= i < |crumbs| => ListItem(i + 1, crumbs[i].caption, crumbs[i].url))
  }

  /** The crumbs can be read back from the schema, and the positions run
      strictly upwards from 1 to the number of crumbs. */
  lemma BreadcrumbFaithful(crumbs: seq<Crumb>)
    ensures Map(BreadcrumbSchema(crumbs), CrumbOf) == crumbs
    ensures forall i, j :: 0 <= i < j < |crumbs| ==>
      1 <= BreadcrumbSchema(crumbs)[i].position < BreadcrumbSchema(crumbs)[j].position <= |crumbs|
  {
  }

  // ---------------------------------------------------------------------
  // validateSeoData
  // ---------------------------------------------------------------------

  datatype SeoData = SeoData(title: Option<string>, description: Option<string>, url: Option<string>, image: Option<string>)

  datatype SeoIssue = MissingTitle | TitleLength | MissingDescription | DescriptionLength | MissingUrl | MissingImage

  /** The message pushed for each issue. */
  function Message(k: SeoIssue): string {
    match k
    case MissingTitle => "Missing: title"
    case TitleLength => "Title length should be 30-60 characters"
    case MissingDescription => "Missing: description"
    case DescriptionLength => "Description length should be 120-160 characters"
    case MissingUrl => "Missing: canonical URL"
    case MissingImage => "Missing: OG image"
  }

  /** The place of each check in the order the checks run. */
  function Rank(k: SeoIssue): nat {
    match k
    case MissingTitle => 0
    case TitleLength => 1
    case MissingDescription => 2
    case DescriptionLength => 3
    case MissingUrl => 4
    case MissingImage => 5
  }

  /** Issues listed in check order, so none twice. */
  predicate InCheckOrder(errors: seq<SeoIssue>) {
    forall i, j :: 0 <= i < j < |errors| ==> Rank(errors[i]) < Rank(errors[j])
  }

  predicate InRange(s: string, lo: int, hi: int) {
    lo <= |s| <= hi
  }

  /** When an issue is reported. */
  predicate Raised(d: SeoData, k: SeoIssue) {
    match k
    case MissingTitle => !Truthy(d.title)
    case TitleLength => Truthy(d.title) && !InRange(d.title.value, 30, 60)
    case MissingDescription => !Truthy(d.description)
    case DescriptionLength => Truthy(d.description) && !InRange(d.description.value, 120, 160)
    case MissingUrl => !Truthy(d.url)
    case MissingImage => !Truthy(d.image)
  }

  /** A page whose metadata passes: a title of 30 to 60 characters, a
      description of 120 to 160, a canonical URL and an image. */
  predicate SeoComplete(d: SeoData) {
    Truthy(d.title) && InRange(d.title.value, 30, 60)
    && Truthy(d.description) && InRange(d.description.value, 120, 160)
    && Truthy(d.url) && Truthy(d.image)
  }

  datatype SeoReport = SeoReport(isValid: bool, errors: seq<SeoIssue>)

  /** The issue, if any, of the check at rank `lo` (and `lo + 1` for the
      length check that follows a presence check). */
  predicate RaisedIn(d: SeoData, k: SeoIssue, lo: nat, hi: nat) {
    lo <= Rank(k) < hi && Raised(d, k)
  }

  function TitleIssues(d: SeoData): (r: seq<SeoIssue>)
    ensures |r| <= 1 && forall k :: k in r <==> RaisedIn(d, k, 0, 2)
  {
    if !Truthy(d.title) then [MissingTitle]
    else if |d.title.value| < 30 || |d.title.value| > 60 then [TitleLength]
    else []
  }

  function DescriptionIssues(d: SeoData): (r: seq<SeoIssue>)
    ensures |r| <= 1 && forall k :: k in r <==> RaisedIn(d, k, 2, 4)
  {
    if !Truthy(d.description) then [MissingDescription]
    else if |d.description.value| < 120 || |d.description.value| > 160 then [DescriptionLength]
    else []
  }

  /** Appending issues of later checks keeps check order. */
  lemma AppendInOrder(errors: seq<SeoIssue>, more: seq<SeoIssue>, mid: nat)
    requires InCheckOrder(errors) && InCheckOrder(more)
    requires forall k :: k in errors ==> Rank(k) < mid
    requires forall k :: k in more ==> mid <= Rank(k)
    ensures InCheckOrder(errors + more)
  {
    var r := errors + more;
    forall i, j | 0 <= i < j < |r| ensures Rank(r[i]) < Rank(r[j]) {
      if j < |errors| {
        assert r[i] == errors[i] && r[j] == errors[j];
      } else if i >= |errors| {
        assert r[i] == more[i - |errors|] && r[j] == more[j - |errors|];
      } else {
        assert r[i] == errors[i] && r[j] == more[j - |errors|];
      }
    }
  }

  /** Pushes one issue per failed check, in check order. */
  method ValidateSeoData(d: SeoData) returns (report: SeoReport)
    ensures forall k :: k in report.errors <==> Raised(d, k)
    ensures InCheckOrder(report.errors)
    ensures report.isValid <==> |report.errors| == 0
    ensures report.isValid <==> SeoComplete(d)
  {
    var errors: seq<SeoIssue> := TitleIssues(d);
    var more := DescriptionIssues(d);
    AppendInOrder(errors, more, 2);
    errors := errors + more;
    more := if !Truthy(d.url) then [MissingUrl] else [];
    AppendInOrder(errors, more, 4);
    errors := errors + more;
    more := if !Truthy(d.image) then [MissingImage] else [];
    AppendInOrder(errors, more, 5);
    errors := errors + more;
    assert forall k :: k in errors <==> Raised(d, k);
    CompleteIffNoneRaised(d);
    report := SeoReport(|errors| == 0, errors);
  }

  lemma CompleteIffNoneRaised(d: SeoData)
    ensures SeoComplete(d) <==> forall k :: !Raised(d, k)
  {
    if !SeoComplete(d) {
      if !Truthy(d.title) { assert Raised(d, MissingTitle); }
      else if !InRange(d.title.value, 30, 60) { assert Raised(d, TitleLength); }
      else if !Truthy(d.description) { assert Raised(d, MissingDescription); }
      else if !InRange(d.description.value, 120, 160) { assert Raised(d, DescriptionLength); }
      else if !Truthy(d.url) { assert Raised(d, MissingUrl); }
      else { assert Raised(d, MissingImage); }
    }
  }

  // ---------------------------------------------------------------------
  // getPageSeoData
  // ---------------------------------------------------------------------

  /** The optional page data the templates read; `x || d` on these is
      written OrElse. */
  datatype PageData = PageData(
    name: Option<string>, description: Option<string>, category: Option<string>,
    manufacturer: Option<string>, categoryName: Option<string>)

  /** A page template; `pageType` is the template's `type` field. */
  datatype SeoTemplate = SeoTemplate(title: string, description: string, keywords: string, pageType: string)

  /** `s || d` for a string that may be missing. */
  function OrElse(s: Option<string>, d: string): (r: string)
    ensures Truthy(s) ==> r == s.value
    ensures !Truthy(s) ==> r == d
  {
    if Truthy(s) then s.value else d
  }

  const HomeTemplate := SeoTemplate(
    "Safety Equipment & PPE Supplier in Jordan | Hilmi Abu Sham",
    "Shop high-quality safety products, PPE, and industrial equipment. Over 40 years serving oil, gas, mining, and petrochemical sectors.",
    "safety equipment, PPE, respirators, helmets, gloves, industrial products, Jordan",
    "website")

  const Suffix := " | " + CompanyName

  function ProductTemplate(data: PageData): SeoTemplate {
    SeoTemplate(
      OrElse(data.name, "Product") + Suffix,
      OrElse(data.description, "High-quality safety equipment from trusted manufacturers."),
      OrElse(data.category, "safety") + ", " + OrElse(data.manufacturer, "") + ", PPE, industrial",
      "product")
  }

  function CategoryTemplate(data: PageData): SeoTemplate {
    SeoTemplate(
      OrElse(data.categoryName, "Safety Products") + Suffix,
      "Browse our collection of " + OrElse(data.categoryName, "safety products") + ". High-quality equipment from leading manufacturers.",
      OrElse(data.categoryName, "safety") + ", PPE, industrial equipment",
      "category")
  }

  const AboutTemplate := SeoTemplate(
    "About Hilmi Abu Sham & Partners | Safety Equipment Leader",
    "Learn about our 40+ years in industrial safety, PPE supply, and partnerships with world-leading brands.",
    "about us, industrial safety, PPE supplier, Jordan",
    "about")

  const ContactTemplate := SeoTemplate(
    "Contact Hilmi Abu Sham & Partners | Get in Touch",
    "Contact us for safety equipment orders, quotes, and inquiries. Phone, email, WhatsApp available.",
    "contact, inquiry, quote, WhatsApp, support",
    "contact")

  const TemplateNames := ["home", "product", "category", "about", "contact"]

  lemma TemplateNamesDistinct()
    ensures NoDup(TemplateNames)
    ensures (set k | k in TemplateNames) == {"home", "product", "category", "about", "contact"}
  {
    assert forall i :: 0 <= i < 5 ==> TemplateNames[i][..2] == ["ho", "pr", "ca", "ab", "co"][i];
  }

  /** The own properties of the templates object. */
  function Templates(data: PageData): (d: Dict<SeoTemplate>)
    ensures WellFormed(d) && d.keys == TemplateNames
  {
    TemplateNamesDistinct();
    Dict(TemplateNames, map[
      "home" := HomeTemplate, "product" := ProductTemplate(data), "category" := CategoryTemplate(data),
      "about" := AboutTemplate, "contact" := ContactTemplate])
  }

  /** What `seoTemplates[pageType]` yields before the `||`: an own template,
      a member inherited from Object.prototype (a function or an object,
      hence truthy), or undefined. */
  datatype TemplateLookup = Found(template: SeoTemplate) | InheritedMember(name: string)

  /** getPageSeoData as written: the `||` fallback to home is taken only for
      names the templates object neither has nor inherits. */
  function PageSeoDataAsWritten(pageType: string, data: PageData): (r: TemplateLookup)
    ensures pageType in TemplateNames ==> r == Found(Templates(data).values[pageType])
    ensures pageType !in TemplateNames && pageType in InheritedNames ==> r == InheritedMember(pageType)
    ensures pageType !in TemplateNames && pageType !in InheritedNames ==> r == Found(HomeTemplate)
  {
    var t := Templates(data);
    if pageType in t.values then Found(t.values[pageType])
    else if pageType in InheritedNames then InheritedMember(pageType)
    else Found(HomeTemplate)
  }

  /** A page type such as "toString" gets no template at all. */
  lemma InheritedPageTypeHasNoTemplate(data: PageData)
    ensures !PageSeoDataAsWritten("toString", data).Found?
    ensures !PageSeoDataAsWritten("constructor", data).Found?
  {
    assert "toString" !in TemplateNames && "constructor" !in TemplateNames by {
      forall n | n in TemplateNames ensures n[0] != 't' && n != "constructor" {
        assert n[0] in "hpcac";
      }
    }
  }

  /** The page template, with the home template for every page type that
      is not one of the five. */
  function PageSeoData(pageType: string, data: PageData): (r: SeoTemplate)
    ensures pageType in TemplateNames ==> r == Templates(data).values[pageType]
    ensures pageType !in TemplateNames ==> r == HomeTemplate
    ensures r.pageType == if pageType in TemplateNames && pageType != "home" then pageType else "website"
  {
    var t := Templates(data);
    if pageType in t.values then t.values[pageType] else HomeTemplate
  }

  /** The corrected lookup agrees with the code for every page type that is
      not an inherited name. */
  lemma PageSeoDataAgrees(pageType: string, data: PageData)
    requires pageType !in InheritedNames
    ensures PageSeoDataAsWritten(pageType, data) == Found(PageSeoData(pageType, data))
  {
  }

  /** The products page asks for "products", which has no template of its
      own, and gets the home page's title, description and keywords. */
  lemma ProductsPageUsesHome(data: PageData)
    ensures PageSeoData("products", data) == HomeTemplate
    ensures PageSeoDataAsWritten("products", data) == Found(HomeTemplate)
  {
    assert "products" !in InheritedNames;
  }

  /** Product titles end in the company suffix and start with the name. */
  lemma ProductTitle(data: PageData)
    ensures StartsWith(PageSeoData("product", data).title, OrElse(data.name, "Product"))
    ensures PageSeoData("product", data).title[|OrElse(data.name, "Product")|..] == Suffix
  {
    var n := OrElse(data.name, "Product");
    assert (n + Suffix)[..|n|] == n;
    assert (n + Suffix)[|n|..] == Suffix;
  }

  // ---------------------------------------------------------------------
  // getCanonicalUrl
  // ---------------------------------------------------------------------

  /** A parsed URL: everything before the query, the query parameters in
      order, and the fragment. */
  datatype Url = Url(base: string, query: seq<QueryParam>, fragment: string)

  /** URLSearchParams.set on a name that is not yet present appends it. */
  function SetParam(q: seq<QueryParam>, name: string, value: string): (r: seq<QueryParam>)
    requires !Has(q, name)
    ensures r == q + [QueryParam(name, value)]
    ensures forall n :: Has(r, n) <==> Has(q, n) || n == name
  {
    var r := q + [QueryParam(name, value)];
    assert forall i :: 0 <= i < |q| ==> r[i] == q[i];
    assert r[|q|].name == name;
    r
  }

  const AllowedParams := ["q", "f", "sort", "page"]

  /** The parameters kept from `q`: each allowed name that is present, in
      allow-list order, with its first value. */
  function Kept(names: seq<string>, q: seq<QueryParam>): (r: seq<QueryParam>)
    ensures Map(r, NameOf) == Filter(names, HasIn(q))
    ensures forall i :: 0 <= i < |r| ==> FirstValue(q, r[i].name) == Some(r[i].value)
    decreases |names|
  {
    if |names| == 0 then []
    else
      var init := names[..|names| - 1];
      var last := names[|names| - 1];
      assert names == init + [last];
      FilterAppend(init, last, HasIn(q));
      var k := Kept(init, q);
      if Has(q, last) then
        var r := k + [QueryParam(last, FirstValue(q, last).value)];
        assert Map(r, NameOf) == Map(k, NameOf) + [last];
        r
      else k
  }

  /** getCanonicalUrl: the parameters `q`, `f`, `sort` and `page` are copied
      in that order when present; every other parameter is dropped. */
  method CanonicalUrl(url: Url) returns (r: Url)
    ensures r.base == url.base && r.fragment == url.fragment
    ensures r.query == Kept(AllowedParams, url.query)
  {
    var newParams: seq<QueryParam> := [];
    var i := 0;
    while i < |AllowedParams|
      invariant 0 <= i <= |AllowedParams|
      invariant newParams == Kept(AllowedParams[..i], url.query)
    {
      var param := AllowedParams[i];
      AllowedParamsDistinct();
      KeptStep(AllowedParams, url.query, i);
      if Has(url.query, param) {
        newParams := SetParam(newParams, param, FirstValue(url.query, param).value);
      }
      i := i + 1;
    }
    assert AllowedParams[..i] == AllowedParams;
    r := Url(url.base, newParams, url.fragment);
  }

  /** Keeping one more name of a repeat-free list appends at most that
      name, which was not yet kept. */
  lemma KeptStep(names: seq<string>, q: seq<QueryParam>, i: int)
    requires NoDup(names) && 0 <= i < |names|
    ensures !Has(Kept(names[..i], q), names[i])
    ensures Kept(names[..i + 1], q) ==
      if Has(q, names[i]) then Kept(names[..i], q) + [QueryParam(names[i], FirstValue(q, names[i]).value)]
      else Kept(names[..i], q)
  {
    var p := names[..i + 1];
    assert p[..|p| - 1] == names[..i] && p[|p| - 1] == names[i];
    var init := names[..i];
    assert NoDup(init);
    KeptFromNames(init, q);
    assert names[i] !in init;
  }

  /** Only allowed names survive, each at most once. */
  lemma KeptAllowed(q: seq<QueryParam>)
    ensures forall i :: 0 <= i < |Kept(AllowedParams, q)| ==> Kept(AllowedParams, q)[i].name in AllowedParams
    ensures NoDup(Map(Kept(AllowedParams, q), NameOf))
  {
    AllowedParamsDistinct();
    KeptFromNames(AllowedParams, q);
  }

  lemma AllowedParamsDistinct()
    ensures NoDup(AllowedParams)
  {
  }

  /** Kept lists names of `names` only, and each once when `names` has no
      repeats. */
  lemma KeptFromNames(names: seq<string>, q: seq<QueryParam>)
    requires NoDup(names)
    ensures forall i :: 0 <= i < |Kept(names, q)| ==> Kept(names, q)[i].name in names
    ensures NoDup(Map(Kept(names, q), NameOf))
  {
    var r := Kept(names, q);
    assert forall i :: 0 <= i < |r| ==> Map(r, NameOf)[i] == r[i].name;
    FilterSubseq(names, HasIn(q));
    SubseqNoDup(Filter(names, HasIn(q)), names);
  }

  /** Canonicalising a canonical URL changes nothing. */
  lemma KeptIdempotent(names: seq<string>, q: seq<QueryParam>)
    ensures Kept(names, Kept(names, q)) == Kept(names, q)
  {
    var k := Kept(names, q);
    forall n | n in names ensures (Has(q, n) <==> Has(k, n)) && FirstValue(q, n) == FirstValue(k, n) {
      KeptReads(names, q, n);
    }
    KeptExtra(names, q, k);
  }

  /** Kept holds exactly the listed names that are present, each with its
      first value. */
  lemma KeptReads(names: seq<string>, q: seq<QueryParam>, n: string)
    ensures Has(Kept(names, q), n) <==> n in names && Has(q, n)
    ensures Has(Kept(names, q), n) ==> FirstValue(Kept(names, q), n) == FirstValue(q, n)
  {
    var k := Kept(names, q);
    FilterMultiset(names, HasIn(q));
    assert n in Filter(names, HasIn(q)) <==> n in names && Has(q, n) by {
      assert multiset(Filter(names, HasIn(q)))[n] == if Has(q, n) then multiset(names)[n] else 0;
    }
    MapHas(k, NameOf, n);
    if Has(k, n) {
      var i :| 0 <= i < |k| && k[i].name == n;
      assert k[i] in k;
      var v := FirstValue(k, n).value;
      var j :| 0 <= j < |k| && k[j] == QueryParam(n, v);
      assert FirstValue(q, k[j].name) == Some(k[j].value);
    }
    if n in Map(k, NameOf) {
      var v :| v in k && NameOf(v) == n;
      var i :| 0 <= i < |k| && k[i] == v;
      assert k[i].name == n;
    }
  }

  /** Kept over `names` does not look past the names it is given: on a
      query extended by names outside the list it returns the same. */
  lemma KeptExtra(names: seq<string>, base: seq<QueryParam>, q: seq<QueryParam>)
    requires forall n :: n in names ==> (Has(base, n) <==> Has(q, n)) && FirstValue(base, n) == FirstValue(q, n)
    ensures Kept(names, base) == Kept(names, q)
    decreases |names|
  {
    if |names| > 0 {
      var init := names[..|names| - 1];
      assert names == init + [names[|names| - 1]];
      KeptExtra(init, base, q);
    }
  }

  // ---------------------------------------------------------------------
  // getProductSchema
  // ---------------------------------------------------------------------

  /** The fields getProductSchema reads. Prices and ratings are whole
      numbers here. */
  datatype SchemaSource = SchemaSource(
    id: int, name: Option<string>, description: Option<string>, image: Option<string>,
    manufacturer: Option<string>, sku: Option<string>, price: Option<int>, inStock: bool,
    category: Option<string>, rating: Option<int>, ratingCount: Option<int>)

  /** `product.sku || product.id`: a string or the numeric id. */
  datatype Sku = SkuText(text: string) | SkuNumber(number: int)

  /** `product.price || '0'`: the number, or the string "0". */
  datatype Price = PriceNumber(amount: int) | PriceText(text: string)

  datatype Offer = Offer(url: string, priceCurrency: string, price: Price, availability: string, seller: string)

  datatype AggregateRating = AggregateRating(ratingValue: int, ratingCount: int)

  datatype ProductSchema = ProductSchema(
    name: Option<string>, description: Option<string>, image: string, brand: string,
    manufacturer: string, sku: Sku, offers: Offer, category: string, rating: Option<AggregateRating>)

  predicate TruthyInt(n: Option<int>) {
    n.Some? && n.value != 0
  }

  const InStock := "https://schema.org/InStock"
  const OutOfStock := "https://schema.org/OutOfStock"
  const ProductUrlPrefix := SiteUrl + "/product/"

  function ProductSchemaOf(p: SchemaSource): (r: ProductSchema)
    ensures r.sku == if Truthy(p.sku) then SkuText(p.sku.value) else SkuNumber(p.id)
    ensures r.offers.price == if TruthyInt(p.price) then PriceNumber(p.price.value) else PriceText("0")
    ensures r.offers.availability == InStock <==> p.inStock
    ensures r.offers.availability in {InStock, OutOfStock}
    ensures r.category == OrElse(p.category, "Safety Equipment")
    ensures r.brand == r.manufacturer == OrElse(p.manufacturer, CompanyName)
    ensures r.image == OrElse(p.image, SiteUrl + "/placeholder.jpg")
    ensures StartsWith(r.offers.url, ProductUrlPrefix) && r.offers.url[|ProductUrlPrefix|..] == IntToString(p.id)
    ensures r.offers.priceCurrency == "JOD"
    ensures r.rating.Some? <==> TruthyInt(p.rating)
    ensures r.rating.Some? ==> r.rating.value.ratingCount == if TruthyInt(p.ratingCount) then p.ratingCount.value else 1
  {
    var url := ProductUrlPrefix + IntToString(p.id);
    assert url[..|ProductUrlPrefix|] == ProductUrlPrefix;
    ProductSchema(
      p.name, p.description,
      OrElse(p.image, SiteUrl + "/placeholder.jpg"),
      OrElse(p.manufacturer, CompanyName),
      OrElse(p.manufacturer, CompanyName),
      if Truthy(p.sku) then SkuText(p.sku.value) else SkuNumber(p.id),
      Offer(url, "JOD",
        if TruthyInt(p.price) then PriceNumber(p.price.value) else PriceText("0"),
        if p.inStock then InStock else OutOfStock,
        CompanyName + " Co."),
      OrElse(p.category, "Safety Equipment"),
      if TruthyInt(p.rating) then
        Some(AggregateRating(p.rating.value, if TruthyInt(p.ratingCount) then p.ratingCount.value else 1))
      else None)
  }

  // ---------------------------------------------------------------------
  // getOpenGraphMeta
  // ---------------------------------------------------------------------

  datatype OgSource = OgSource(
    title: Option<string>, description: Option<string>, image: Option<string>,
    url: Option<string>, ogType: Option<string>, locale: Option<string>)

  datatype OpenGraph = OpenGraph(
    title: Option<string>, description: Option<string>, image: string, url: string,
    ogType: string, siteName: string, locale: string)

  /** Title and description are copied; image, url, type and locale fall
      back to the site defaults when missing or empty. */
  function OpenGraphMeta(d: OgSource): (r: OpenGraph)
    ensures r.title == d.title && r.description == d.description
    ensures r.image == OrElse(d.image, SiteUrl + "/og-image.jpg")
    ensures r.url == OrElse(d.url, SiteUrl)
    ensures r.ogType == OrElse(d.ogType, "website")
    ensures r.locale == OrElse(d.locale, "en_US")
    ensures r.siteName == CompanyName
  {
    OpenGraph(d.title, d.description,
      OrElse(d.image, SiteUrl + "/og-image.jpg"), OrElse(d.url, SiteUrl),
      OrElse(d.ogType, "website"), CompanyName, OrElse(d.locale, "en_US"))
  }

  /** A page that supplies every field gets exactly its own values. */
  lemma OpenGraphKeepsSupplied(d: OgSource)
    requires Truthy(d.image) && Truthy(d.url) && Truthy(d.ogType) && Truthy(d.locale)
    ensures OpenGraphMeta(d) == OpenGraph(d.title, d.description, d.image.value, d.url.value, d.ogType.value, CompanyName, d.locale.value)
  {
  }
}
