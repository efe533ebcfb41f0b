/** The head tags every page sets: title, description and image from the
    overrides or the page template, the language attributes, the Open Graph
    type, the page-specific schema and the alternate-language link. */
module Meta {
  import opened Wrappers
  import opened Text
  import opened Seo

  /** The fields of the page data the tags read. */
  datatype MetaData = MetaData(
    id: Option<int>, name: Option<string>, description: Option<string>, image: Option<string>,
    category: Option<string>, price: Option<int>, manufacturer: Option<string>, categoryName: Option<string>)

  /** The component's props; the optional overrides are None when not given. */
  datatype MetaProps = MetaProps(
    pageType: string, data: MetaData, breadcrumbs: seq<Crumb>,
    title: Option<string>, description: Option<string>, image: Option<string>)

  datatype PageSchema = NoSchema | ProductPage(product: ProductSchema) | BreadcrumbPage(items: seq<ListItem>)

  datatype Head = Head(
    lang: string, dir: string, title: string, description: string, keywords: string, image: string,
    ogType: string, canonical: string, alternateHreflang: string, schema: PageSchema)

  function PageDataOf(d: MetaData): PageData {
    PageData(d.name, d.description, d.category, d.manufacturer, d.categoryName)
  }

  /** The template of the page type; the templates carry no image. */
  function Template(props: MetaProps): SeoTemplate {
    PageSeoData(props.pageType, PageDataOf(props.data))
  }

  /** The image: the override, else the site's hero image (the template
      never supplies one). */
  function SeoImage(override: Option<string>, baseUrl: string): (r: string)
    ensures Truthy(override) ==> r == override.value
    ensures !Truthy(override) ==> r == baseUrl + "/hero.jpg"
  {
    OrElse(override, baseUrl + "/hero.jpg")
  }

  /** What getProductSchema receives for a product page. */
  function SchemaSourceOf(d: MetaData, seoImage: string): (s: SchemaSource)
    requires d.id.Some?
    ensures s.id == d.id.value && s.name == d.name && s.description == d.description && s.category == d.category
    ensures s.image == Some(OrElse(d.image, seoImage))
    ensures s.price == Some(if TruthyInt(d.price) then d.price.value else 0)
    ensures !s.inStock && s.sku.None? && s.manufacturer.None? && s.rating.None?
  {
    SchemaSource(d.id.value, d.name, d.description, Some(OrElse(d.image, seoImage)), None, None,
      Some(if TruthyInt(d.price) then d.price.value else 0), false, d.category, None, None)
  }

  /** The page schema: a product schema for a product page with an id,
      else a breadcrumb list when there are crumbs, else none. */
  function SchemaFor(props: MetaProps, seoImage: string): (r: PageSchema)
    ensures r.ProductPage? <==> props.pageType == "product" && TruthyInt(props.data.id)
    ensures r.BreadcrumbPage? <==> !(props.pageType == "product" && TruthyInt(props.data.id)) && |props.breadcrumbs| > 0
    ensures r.BreadcrumbPage? ==> r.items == BreadcrumbSchema(props.breadcrumbs)
    ensures r.ProductPage? ==> r.product == ProductSchemaOf(SchemaSourceOf(props.data, seoImage))
  {
    if props.pageType == "product" && TruthyInt(props.data.id) then
      ProductPage(ProductSchemaOf(SchemaSourceOf(props.data, seoImage)))
    else if |props.breadcrumbs| > 0 then BreadcrumbPage(BreadcrumbSchema(props.breadcrumbs))
    else NoSchema
  }

  function LangTag(language: string): (t: string)
    ensures t == "ar-JO" <==> language == "ar"
    ensures t == "en-US" <==> language != "ar"
  {
    if language == "ar" then "ar-JO" else "en-US"
  }

  function DirTag(language: string): (t: string)
    ensures t == "rtl" <==> language == "ar"
    ensures t == "ltr" <==> language != "ar"
  {
    if language == "ar" then "rtl" else "ltr"
  }

  /** The alternate link names the other language. */
  function AlternateHreflang(language: string): (t: string)
    ensures t != LangTag(language)
    ensures t in {"ar-JO", "en-US"}
  {
    if language == "ar" then "en-US" else "ar-JO"
  }

  /** The head the component renders, for the current language, site
      origin and path. */
  function MetaHead(props: MetaProps, language: string, baseUrl: string, pathname: string): (h: Head)
    ensures h.title == OrElse(props.title, Template(props).title)
    ensures h.description == OrElse(props.description, Template(props).description)
    ensures h.keywords == Template(props).keywords
    ensures h.image == SeoImage(props.image, baseUrl)
    ensures h.lang == LangTag(language) && h.dir == DirTag(language)
    ensures h.ogType == "product" <==> props.pageType == "product"
    ensures h.ogType in {"product", "website"}
    ensures h.canonical == baseUrl + pathname
    ensures h.alternateHreflang == AlternateHreflang(language)
    ensures h.schema == SchemaFor(props, SeoImage(props.image, baseUrl))
  {
    var template := Template(props);
    var image := SeoImage(props.image, baseUrl);
    Head(
      LangTag(language), DirTag(language),
      OrElse(props.title, template.title),
      OrElse(props.description, template.description),
      template.keywords,
      image,
      if props.pageType == "product" then "product" else "website",
      baseUrl + pathname,
      AlternateHreflang(language),
      SchemaFor(props, image))
  }

  /** The language attributes agree: Arabic is right to left, everything
      else is English left to right, and the alternate link is the other. */
  lemma LanguageTagsAgree(language: string)
    ensures (LangTag(language) == "ar-JO") == (DirTag(language) == "rtl")
    ensures AlternateHreflang(language) == LangTag(if language == "ar" then "en" else "ar")
  {
  }

  /** Without overrides a page shows its template's title and description
      and the hero image. */
  lemma DefaultsFromTemplate(pageType: string, data: MetaData, crumbs: seq<Crumb>, language: string, baseUrl: string, path: string)
    ensures var h := MetaHead(MetaProps(pageType, data, crumbs, None, None, None), language, baseUrl, path);
      h.title == PageSeoData(pageType, PageDataOf(data)).title
      && h.description == PageSeoData(pageType, PageDataOf(data)).description
      && h.image == baseUrl + "/hero.jpg"
  {
  }

  /** A product schema from these tags always reports the product out of
      stock, since no stock flag is passed on, and its image is the
      product's own, else the page image. */
  lemma ProductSchemaFromMeta(props: MetaProps, language: string, baseUrl: string, path: string)
    requires props.pageType == "product" && TruthyInt(props.data.id)
    ensures var h := MetaHead(props, language, baseUrl, path);
      h.schema.ProductPage?
      && h.schema.product.offers.availability == OutOfStock
      && h.schema.product.image == OrElse(props.data.image, h.image)
      && h.schema.product.offers.price == if TruthyInt(props.data.price) then PriceNumber(props.data.price.value) else PriceText("0")
  {
    var image := SeoImage(props.image, baseUrl);
    var src := SchemaSourceOf(props.data, image);
    assert Truthy(src.image);
  }
}
