# HAS-Website catalogue logic in Dafny

This project models the logic of the Hilmi Abu Sham & Partners catalogue site: a React front end with a small Express and MySQL back end. The model covers what the components and the utility modules compute, apart from their markup:

- **Catalogue navigation:**
  - the category-menu tree;
  - the five-step manufacturer wizard;
  - the distributor, product-explorer and category-dropdown drill-downs;
  - the "first product per category" selections;
  - the distinct-value lists.
- **Filtering and sorting:**
  - the chip filters and their `f` URL parameter;
  - price buckets and sorting;
  - the two product-list pages, with their search, paging and toggles.
- **Galleries and carousels:** index arithmetic, swipes, zoom and drag.
- **Validators and string builders:**
  - contact-form validation;
  - the e-mail, phone, SQL and XSS checks and the rate limiter;
  - XML escaping (section 4.6 of XML 1.0);
  - the SEO templates, canonical URL and schemas;
  - image variants, srcset and responsive props;
  - the throttle, the request cache and the device-tier decision.
- **Small state machines:**
  - cookie consent, the theme switch, once-only scroll-depth tracking and the head meta tags;
  - the database wrapper, whose fallback mode is upgraded once to a real pool;
  - the back end's handlers.

Each source file is modelled in its own module, in the form the source takes:

- Pure expressions become functions and lemmas.
- A component whose `useState` fields are updated by handlers becomes a class. Its fields are those states, and each handler is a method whose `ensures` gives the whole new state. Invariants are predicates that every handler keeps.
- A loop in the source becomes a method with a loop and invariants, proved against a specification function.

Shared helper modules:

| module | provides |
|---|---|
| `Wrappers` | `Option` and `Result` |
| `Seqs` | filter, map, first-seen deduplication, subsequences, split and join |
| `Text` | JavaScript white space, trim, case mapping, substring search, number rendering |
| `JsObjects` | objects used as dictionaries, with insertion-ordered keys and the names inherited from `Object.prototype` |
| `QueryParams` | `URLSearchParams` as an ordered list of pairs |
| `UriCodec` | `encodeURIComponent`/`decodeURIComponent` as an opaque pair of functions |
| `Catalog` | the `Product` record |

Things the browser or the server supplies are passed in as parameters or fields:

- the clock and `navigator`;
- `localStorage` and `matchMedia`;
- the database pool's answer;
- the translation table;
- the collation behind `localeCompare`.

## Model

| member | source | states |
|---|---|---|
| FilterUtils.LabelKey | src/utils/filterUtils.js:42-57 | null without a label or translations; otherwise null exactly when no string translation, trimmed and lower-cased, equals the trimmed lower-cased label, and else the key of the first entry in key order that does |
| FilterUtils.FilterLabel | src/utils/filterUtils.js:221-243 | a known key gives its translation when that is non-empty and the key itself when it is empty; an unknown key gives itself, except a name inherited from Object.prototype, which yields that member |
| FilterUtils.DecodeFilters | src/utils/filterUtils.js:78-89 | no parameter, "" or a decode that throws gives the empty set; otherwise exactly the non-blank comma-separated pieces, untrimmed and without repeats |
| FilterUtils.DecodeEncode | src/utils/filterUtils.js:66-89 | decoding the encoding of a repeat-free list of non-blank keys without commas gives the list back, for a codec whose decode inverts its encode |
| FilterUtils.FilterQueryParams | src/utils/filterUtils.js:96-105 | an `f` parameter holding the encoded set exactly when the set is non-empty, and no other parameter |
| FilterUtils.ReplaceWhitespaceRuns | src/utils/filterUtils.js:120 | `replace(/\s+/g, '_')`: no white space remains, and a string without white space is unchanged |
| FilterUtils.ReplaceAppend | src/utils/filterUtils.js:120 | the replacement works piece by piece: a prefix that ends in a non-blank character is replaced on its own |
| FilterUtils.RunBecomesUnderscore | src/utils/filterUtils.js:120 | a whole run of white space between two non-blank characters becomes exactly one `_`, and the text around it is kept in order |
| FilterUtils.ApplyFilters | src/utils/filterUtils.js:113-146 | a missing or empty filter set returns the input; otherwise an order-preserving subsequence holding every occurrence of each product that matches by normalised category, by normalised manufacturer or by a truthy price in an active bucket, and nothing else |
| FilterUtils.PriceBucketsPartition | src/utils/filterUtils.js:138-141 | stated over the bucket test `applyFilters` uses: a product's price is present and non-zero exactly when some single bucket key matches it, and no two different bucket keys both match it |
| FilterUtils.SortProducts | src/utils/filterUtils.js:154-174 | a permutation of the input; `price-asc` non-decreasing and `price-desc` non-increasing in `price \|\| 0`, `name` ordered by the collation, and any other key the input order |
| FilterUtils.SortByKey | src/utils/filterUtils.js:158-162 | the in-place sort of the copied array: a permutation, sorted by the key |
| FilterUtils.ValidateFilters | src/utils/filterUtils.js:202-213 | empty when either argument is missing; otherwise exactly the given keys that are allowed, each once, in first-seen order |
| FilterUtils.StrLessTransitive | src/utils/filterUtils.js:260 | the default string order of `Array.prototype.sort`, modelled as code-point order, is transitive |
| FilterUtils.StrLessTotal | src/utils/filterUtils.js:260 | that code-point order is total on distinct strings |
| FilterUtils.SortStrings | src/utils/filterUtils.js:260 | the in-place default sort of distinct strings: a permutation in strictly increasing order |
| FilterUtils.SortedDistinct | src/utils/filterUtils.js:260-278 | `Array.from(set).sort()`: the same values, strictly increasing |
| FilterUtils.UniqueCategories | src/utils/filterUtils.js:250-261 | [] for a missing list; otherwise exactly the truthy categories, each once, in sorted order |
| FilterUtils.UniqueManufacturers | src/utils/filterUtils.js:268-279 | [] for a missing list; otherwise exactly the truthy manufacturers, each once, in sorted order; [] when no product carries a manufacturer |
| FilterUtils.Prices | src/utils/filterUtils.js:292-294 | exactly the prices that some product carries |
| FilterUtils.PriceRange | src/utils/filterUtils.js:286-303 | {0,0} for a missing list or one without prices; otherwise min and max are prices of some products, min <= max, and every price lies between them |
| CategoryBar.BuildCategoryTree | src/components/CategoryBar/CategoryBar.jsx:59-78 | the forEach over the products builds exactly the tree of the fold BuildTree |
| CategoryBar.PushProduct | src/components/CategoryBar/CategoryBar.jsx:61-77 | one iteration of the forEach: the category node created only when absent, then the product pushed into its slot |
| CategoryBar.PushToSub | src/components/CategoryBar/CategoryBar.jsx:63-73 | the branch for a truthy subCategory: the sub node and the leaf list created only when absent, then the product pushed onto the leaf or the sub node's direct list |
| CategoryBar.BuildEntries | src/components/CategoryBar/CategoryBar.jsx:62-77 | the list at each slot holds `{id, name}` of exactly the products whose slot it is, in input order: `tree[category][sub][subSub]` for truthy sub and subSub, `tree[category][sub]._products` for a truthy sub only, `tree[category]._products` otherwise |
| CategoryBar.InsertEntries | src/components/CategoryBar/CategoryBar.jsx:62-77 | inserting a product appends it to its own slot's list and changes no other list (nodes are never replaced) |
| CategoryBar.BuildSize | src/components/CategoryBar/CategoryBar.jsx:59-78 | the leaf lists together hold exactly as many entries as there are products |
| CategoryBar.BuildCategoryKeys | src/components/CategoryBar/CategoryBar.jsx:62-83 | `Object.keys(categories)` lists each category once, in first-seen order |
| CategoryBar.BuildSubKeys | src/components/CategoryBar/CategoryBar.jsx:64-85 | a category's sub-category keys are its products' truthy sub-categories, each once, in first-seen order |
| CategoryBar.TranslationKey | src/components/CategoryBar/CategoryBar.jsx:22-87 | the mapped key for a known category, else the category name itself |
| CategoryBar.ShownKeys | src/components/CategoryBar/CategoryBar.jsx:85-106 | the keys kept by the filter are exactly the node's keys other than `_products`, without repeats |
| CategoryBar.RenderSub | src/components/CategoryBar/CategoryBar.jsx:103-161 | a sub node shows one entry per key other than `_products`, in key order and exactly as many entries as such keys, each with that leaf's products, and shows its direct products only when it has no such keys |
| CategoryBar.RenderCategory | src/components/CategoryBar/CategoryBar.jsx:83-181 | a category shows its translation key, one rendered sub node per key other than `_products`, in key order and exactly as many as such keys, and its direct products only when it has no sub keys |
| CategoryBar.Menu | src/components/CategoryBar/CategoryBar.jsx:83 | one rendered category per tree key, in key order |
| CategoryBar.MenuListsLeaf | src/components/CategoryBar/CategoryBar.jsx:122-144 | every entry of a leaf list is shown under its category, sub-category and sub-sub-category |
| CategoryBar.LeafProductShown | src/components/CategoryBar/CategoryBar.jsx:59-144 | every product with truthy sub- and sub-sub-category is listed in the menu at its three levels |
| Manufacturers.DistinctNonEmpty | src/components/Manufacturers/Manufacturers.jsx:93-95 | `[...new Set(xs)].filter(Boolean)`: the non-empty values, each once, in first-seen order |
| Manufacturers.ProductsOf | src/components/Manufacturers/Manufacturers.jsx:88-90 | the order-preserving sublist of products whose distributor equals the selected manufacturer exactly; empty with none selected |
| Manufacturers.Categories | src/components/Manufacturers/Manufacturers.jsx:93-95 | the distinct truthy categories of the manufacturer's products, in first-seen order |
| Manufacturers.SubCategories | src/components/Manufacturers/Manufacturers.jsx:98-106 | empty without a selected category; otherwise the distinct truthy sub-categories of the manufacturer's products in that category |
| Manufacturers.SubSubCategories | src/components/Manufacturers/Manufacturers.jsx:345-352 | the distinct truthy sub-sub-categories of the manufacturer's products in the selected category and sub-category |
| Manufacturers.FinalProducts | src/components/Manufacturers/Manufacturers.jsx:109-139 | an order-preserving sublist: all three levels matched with a sub-sub-category selected; else category and sub-category at step subSubCategory, and at step products when a sub-category is set; else category only at step products; else empty |
| Manufacturers.View | src/components/Manufacturers/Manufacturers.jsx:150-455 | the manufacturer list exactly at the first step; the category list at step category; a category without sub-categories lists its products directly, and a sub-category without sub-sub-categories lists its products directly |
| Manufacturers.Wizard.constructor | src/components/Manufacturers/Manufacturers.jsx:15-19 | step manufacturer with every selection null |
| Manufacturers.Wizard.ApplyManufacturerParam | src/components/Manufacturers/Manufacturers.jsx:22-29 | from any state, including one that breaks the step invariant (as Back and Forward between `?manufacturer=X` and `/manufacturers` produce): a truthy `?manufacturer=` sets the manufacturer and step category and clears nothing, so the invariant then holds exactly when the deeper selections were already null; without the parameter nothing changes, and neither does the invariant |
| Manufacturers.BackForwardLeavesSelections | src/components/Manufacturers/Manufacturers.jsx:22-29 | after a card link, a category and a sub-category, the bare page and Back, the page sits at step category with the old selections, outside the step invariant |
| Manufacturers.Wizard.SelectManufacturer | src/components/Manufacturers/Manufacturers.jsx:32-38 | sets the manufacturer, clears the three deeper selections, moves to step category; the step invariant holds |
| Manufacturers.Wizard.SelectCategory | src/components/Manufacturers/Manufacturers.jsx:41-46 | sets the category, clears the two deeper selections, moves to step subCategory |
| Manufacturers.Wizard.SelectSubCategory | src/components/Manufacturers/Manufacturers.jsx:49-53 | sets the sub-category, clears the sub-sub-category, moves to step subSubCategory |
| Manufacturers.Wizard.SelectSubSubCategory | src/components/Manufacturers/Manufacturers.jsx:56-59 | sets the sub-sub-category and moves to step products, the only way to reach it |
| Manufacturers.Wizard.GoBackToManufacturers | src/components/Manufacturers/Manufacturers.jsx:62-68 | step manufacturer with every selection null |
| Manufacturers.Wizard.GoBackToCategories | src/components/Manufacturers/Manufacturers.jsx:69-74 | step category; the category and deeper selections null, the manufacturer kept |
| Manufacturers.Wizard.GoBackToSubCategories | src/components/Manufacturers/Manufacturers.jsx:75-79 | step subCategory; sub-category and sub-sub-category null |
| Manufacturers.Wizard.GoBackToSubSubCategories | src/components/Manufacturers/Manufacturers.jsx:80-83 | step subSubCategory; sub-sub-category null, the rest kept |
| Manufacturers.Wizard.Screen | src/components/Manufacturers/Manufacturers.jsx:87-117 | in a reachable state at step products, the list shows exactly the manufacturer's products matching all three selected levels; at the category step with a manufacturer set, in any state, the manufacturer's categories are listed, whatever deeper selections are left over |
| Db.Classify | b/config/db.js:11-18 | the statement, `(sql \|\| "")` trimmed and upper-cased, is a read exactly when it starts with SELECT, and a write exactly when it does not but starts with INSERT, UPDATE or DELETE |
| Db.FallbackQuery | b/config/db.js:10-19 | the fallback never fails: `[{affectedRows: 0, insertId: 0}, []]` for a write, `[[], []]` for anything else, null and "" included |
| Db.FallbackIgnoresCase | b/config/db.js:11 | upper-casing the statement first changes nothing the fallback answers |
| Db.TrimUpper | b/config/db.js:11 | trimming and upper-casing commute, so the order the fallback applies them in does not matter |
| Db.DbWrapper.constructor | b/config/db.js:7-8 | the wrapper starts in fallback mode |
| Db.DbWrapper.Query | b/config/db.js:10-55 | the fallback answer while `__isFallback`, otherwise exactly what the pool answers, errors included |
| Db.DbWrapper.Connected | b/index.js:99-101 | true exactly when `__isFallback` is false |
| Db.DbWrapper.FinishPoolCreation | b/config/db.js:41-59 | only a successful connection check clears `__isFallback` and installs the pool; a connection error or an exception leaves both as they were, and the flag never returns to true |
| Backend.PlaceholderListCount | b/index.js:59-61 | the placeholder list built for n columns holds n question marks |
| Backend.PlaceholderCount | b/index.js:59-79 | the statement has 13 placeholders and the handler binds exactly 13 parameters |
| Backend.BindParams | b/index.js:65-79 | parameter i is the body field of column i, the five list and map fields JSON-stringified |
| Backend.PostAnswer | b/index.js:81-95 | a rejected query gives the 500 error; an OK packet gives its insertId; a row list gives 0 |
| Backend.FallbackInsertIdZero | b/index.js:83-89 | with the fallback database the product id is always 0 |
| Backend.PostProduct | b/index.js:42-96 | while in fallback mode the answer is product id 0; otherwise the answer for the pool's reply to the insert with the bound parameters |
| Backend.FallbackDataset | b/index.js:14-24 | the required data, its `default` export when it has one, or [] when the require throws |
| Backend.ListProducts | b/index.js:104-125 | `USE_MOCK=1` gives the mock data; a real database gives its rows or the 500 error; in fallback mode an empty dataset gives the mock data and otherwise the dataset |
| Backend.Health | b/index.js:99-101 | ok, and dbConnected exactly when the wrapper has left fallback mode |
| Security.ValidateEmail | src/utils/securityUtils.js:24-27 | true exactly when there is no white space, exactly one `@` with text before it, and a `.` after the `@` with text on both sides |
| Security.EmailIff | src/utils/securityUtils.js:25 | that shape is equivalent to the regular expression `^[^\s@]+@[^\s@]+\.[^\s@]+$`, read as a predicate on the string |
| Security.ValidatePhone | src/utils/securityUtils.js:32-35 | true exactly when every character is a digit, white space, `-`, `+`, `(` or `)` and the length is at least 10 |
| Security.PhoneNeedsNoDigit | src/utils/securityUtils.js:33-34 | the character-class check asks for no digit at all: ten dashes pass |
| Security.AsciiUpperString | src/utils/securityUtils.js:77-78 | the case folding of the `i` flag: the length is kept, no letter `a`-`z` remains, each such letter becomes its capital and every other character is kept |
| Security.AsciiUpperIdempotent | src/utils/securityUtils.js:77-78 | folding twice is folding once |
| Security.DetectSqlInjection | src/utils/securityUtils.js:73-82 | false for a non-string; for a string, true exactly when it holds one of the keywords between word boundaries or one of `--`, `;`, `/*`, `*/`, `xp_`, `sp_`, in any letter case |
| Security.PunctuationDetected | src/utils/securityUtils.js:78 | any occurrence of one of the six punctuation patterns is reported |
| Security.SqlDetectionIgnoresCase | src/utils/securityUtils.js:77-78 | upper-casing the input does not change the answer |
| Security.DetectXssAttempt | src/utils/securityUtils.js:319-331 | the input is reported exactly when one of the seven patterns matches, ignoring case: a script block, `javascript:`, an event handler attribute, `<iframe`, `<object`, `<embed` or an `<img` with `onerror` |
| Security.XssDetectionIgnoresCase | src/utils/securityUtils.js:320-328 | upper-casing the input does not change the answer |
| Security.Recent | src/utils/securityUtils.js:179-199 | the timestamps t of the record with `now - t < windowMs`, and no more of them |
| Security.RecentIdempotent | src/utils/securityUtils.js:179-199 | pruning a pruned record to the same window changes nothing |
| Security.RateLimiter.constructor | src/utils/securityUtils.js:170-171 | defaults 5 attempts and 900000 ms, and an empty map |
| Security.RateLimiter.GetAttempts | src/utils/securityUtils.js:196-200 | the number of in-window attempts, which never exceeds maxAttempts, and a read of the state only |
| Security.RateLimiter.IsLimited | src/utils/securityUtils.js:174-190 | limited exactly when the window already holds maxAttempts attempts, and then nothing changes; otherwise the pruned record plus `now` is stored for this identifier only and its count grows by one; no record ever exceeds maxAttempts |
| Security.RateLimiter.Reset | src/utils/securityUtils.js:192-194 | removes only this identifier's record, whose count is then 0 at any time |
| Seo.EntityOf | src/utils/seoUtils.js:218-224 | each of `&`, `<`, `>`, `"`, `'` becomes its predefined entity (section 4.6 of XML 1.0), which starts with `&` and ends with `;`; any other character is itself |
| Seo.EscapeXml | src/utils/seoUtils.js:217-227 | the output holds no raw `<`, `>`, `"` or `'`, is never shorter, and a string without markup characters is unchanged |
| Seo.UnescapeEscape | src/utils/seoUtils.js:217-227 | decoding the five entities undoes the escaping: no information is lost |
| Seo.UnescapeEntity | src/utils/seoUtils.js:218-224 | decoding reads each replacement back as the one character it replaced |
| Seo.EscapedAmpersands | src/utils/seoUtils.js:217-227 | every `&` of the output starts one of the five entities |
| Seo.BreadcrumbSchema | src/utils/seoUtils.js:85-94 | one list item per crumb, in order, with position index + 1 and name and item copied from the crumb |
| Seo.BreadcrumbFaithful | src/utils/seoUtils.js:88-93 | the crumbs can be read back from the items, and positions strictly increase from 1 to the number of crumbs |
| Seo.TitleIssues | src/utils/seoUtils.js:317-321 | "Missing: title" for a falsy title, the length error for a title outside 30-60 characters, and at most one of the two |
| Seo.DescriptionIssues | src/utils/seoUtils.js:323-327 | the same for the description and 120-160 characters |
| Seo.ValidateSeoData | src/utils/seoUtils.js:314-341 | the errors are exactly the raised checks, in check order; isValid exactly when there are none, which is exactly when title and description are present with lengths in range and url and image are present |
| Seo.CompleteIffNoneRaised | src/utils/seoUtils.js:314-341 | a complete record is exactly one for which no check fires |
| Seo.OrElse | src/utils/seoUtils.js:358-366 | the `a \|\| b` defaults: the value when truthy, else the default |
| Seo.Templates | src/utils/seoUtils.js:350-381 | the template object with its five own keys in declaration order |
| Seo.PageSeoDataAsWritten | src/utils/seoUtils.js:349-384 | the five templates by name; an unknown page type gets the home template, except a name inherited from Object.prototype, which yields that member |
| Seo.InheritedPageTypeHasNoTemplate | src/utils/seoUtils.js:383 | `toString` and `constructor` are answered with no template at all |
| Seo.PageSeoData | src/utils/seoUtils.js:349-384 | the named template for the five page types and the home template for every other, so its type is the page type, or `website` for home and any unknown type |
| Seo.PageSeoDataAgrees | src/utils/seoUtils.js:349-384 | the two lookups agree on every page type that is not an inherited name |
| Seo.ProductsPageUsesHome | src/pages/Products.jsx:134 | the products page's `"products"` gets the home template |
| Seo.ProductTitle | src/utils/seoUtils.js:358 | a product title is the name, or "Product", followed by the company suffix |
| Seo.SetParam | src/utils/seoUtils.js:274 | `newParams.set` on a name not yet present appends the pair and adds that name only |
| Seo.Kept | src/utils/seoUtils.js:269-276 | the names kept are exactly the listed names present in the query, in list order, each with the query's first value |
| Seo.CanonicalUrl | src/utils/seoUtils.js:263-280 | the loop over `q`, `f`, `sort`, `page` copies each present one with its first value, in that order; everything else in the URL is kept and every other parameter dropped |
| Seo.KeptAllowed | src/utils/seoUtils.js:269-276 | only allowed names survive, each at most once |
| Seo.KeptIdempotent | src/utils/seoUtils.js:263-280 | canonicalising a canonical query changes nothing |
| Seo.KeptReads | src/utils/seoUtils.js:273-274 | a name is kept exactly when it is listed and present, and it keeps the query's first value |
| Seo.ProductSchemaOf | src/utils/seoUtils.js:44-78 | sku is the sku or else the id; price the price or `'0'`; InStock exactly when in stock; category defaults to Safety Equipment; brand and manufacturer the manufacturer or the company; the offer URL ends in the id; a rating only for a truthy rating, with count defaulting to 1 |
| Seo.OpenGraphMeta | src/utils/seoUtils.js:234-242 | title and description copied; image, url, type and locale defaulted when falsy; the site name fixed |
| Seo.OpenGraphKeepsSupplied | src/utils/seoUtils.js:234-242 | supplied values are all kept |
| Contact.With | src/pages/Contact.jsx:62-67 | a change sets the named field to the new value and keeps every other field |
| Contact.ValidateFormIff | src/pages/Contact.jsx:23-85 | the error map is empty exactly when the name, subject and e-mail are filled, the e-mail matches the pattern, the phone is blank or matches its pattern, the trimmed message has at least 10 characters and the honeypot is empty |
| Contact.ErrorOfField | src/pages/Contact.jsx:23-59 | a field is in the error map exactly when its rule fails, with the message that rule chooses |
| Contact.ValidateFormRules | src/pages/Contact.jsx:28-56 | each field's rule on its own: required name, subject and e-mail; e-mail "required" before "invalid"; the phone checked only when filled; message "required" when empty after trimming, "too short" under 10 characters; the honeypot flagged when filled; the company never |
| Contact.NameSubjectRules | src/pages/Contact.jsx:28-44 | the name and subject errors appear exactly when the trimmed field is empty; the company never has one |
| Contact.EmailRules | src/pages/Contact.jsx:32-36 | the e-mail error appears when the trimmed e-mail is empty or fails the pattern, and is "required" exactly in the first case |
| Contact.PhoneRule | src/pages/Contact.jsx:38-40 | the phone error appears exactly when the trimmed phone is non-empty and fails the pattern |
| Contact.MessageRules | src/pages/Contact.jsx:46-50 | the message error appears exactly when the trimmed message is shorter than 10 characters, and is "required" exactly when it is empty |
| Contact.HoneypotRule | src/pages/Contact.jsx:53-56 | the spam error appears exactly when the honeypot is non-empty |
| Contact.PhoneOptionalHoneypotFatal | src/pages/Contact.jsx:38-56 | a blank phone never raises an error, and a filled honeypot always blocks the submission |
| Contact.ChangeTouchesOneField | src/pages/Contact.jsx:64-67 | changing one field leaves every other field's value as it was |
| Contact.ValidPayload | src/pages/Contact.jsx:99-108 | a payload built from a valid form has a non-empty trimmed name and subject, a trimmed message of at least 10 characters, and the e-mail unchanged and matching the pattern |
| Contact.SubmitRules | src/pages/Contact.jsx:84-141 | a submission sends exactly when the form is valid; an invalid form keeps its data and records the errors with the "form invalid" status; a sent payload is the trimmed form with language and time stamp; only a delivered one resets the form and reports success, anything else keeps the form and reports failure |
| Contact.ContactPage.constructor | src/pages/Contact.jsx:8-20 | the page starts with every field empty, no errors, not submitting and no status |
| Contact.ContactPage.HandleChange | src/pages/Contact.jsx:62-76 | the named field takes the new value and that field's error, if any, is cleared; nothing else changes |
| Contact.ContactPage.HandleSubmit | src/pages/Contact.jsx:79-159 | the new form, errors, submitting flag, status and sent payload are those of the submission function on the old state |
| ProductsList.FilterCatalogue | src/components/Products/Products.jsx:56-66 | the filtered list keeps catalogue order and holds exactly the products whose lower-cased name contains the lower-cased search term and that match every category, manufacturer, colour and size filter that is set |
| ProductsList.NoFiltersKeepAll | src/components/Products/Products.jsx:57-66 | with every filter off the whole catalogue is listed |
| ProductsList.SearchIgnoresCase | src/components/Products/Products.jsx:58 | upper- or lower-casing the search term does not change which products match |
| ProductsList.Displayed | src/components/Products/Products.jsx:93 | the shown products are a prefix of the filtered list of length `min(page * 9, total)` |
| ProductsList.PagesNeverEmpty | src/components/Products/Products.jsx:79-93 | a page reached by the scroll guard shows more products than the page before, and nothing is shown only when nothing matched |
| ProductsList.ModalGallery | src/components/Products/Products.jsx:127-132 | the modal gallery is never empty: the product's gallery when it has one, its single image otherwise |
| ProductsList.CardImage | src/components/Products/Products.jsx:183-193 | a card shows the first image of the first colour variant named exactly as the chosen colour when that variant has images, and the product image otherwise |
| ProductsList.CardColorsIndependent | src/components/Products/Products.jsx:195-198 | choosing a colour on one card does not change any other card's image |
| ProductsList.SearchQuery | src/components/Products/Products.jsx:46-53 | the search appends at most three parameters |
| ProductsList.SearchQueryReadName | src/components/Products/Products.jsx:36-53 | each parameter name read back from the search URL gives exactly the value appended under it, or nothing |
| ProductsList.SearchQueryRead | src/components/Products/Products.jsx:36-53 | reading the search URL back gives the term, category and manufacturer that were set, and no colour or size |
| ProductsList.SearchParams | src/components/Products/Products.jsx:46-53 | the query is present exactly when the trimmed term is non-empty, the category and manufacturer exactly when selected, and colour and size never |
| ProductsList.SearchRoundTrip | src/components/Products/Products.jsx:35-53 | mounting on the URL a search produced restores the trimmed term, the category and the manufacturer, with colour and size cleared |
| ProductsList.CategoryOptions | src/components/Products/Products.jsx:226 | the category options list every category of the catalogue once |
| ProductsList.ManufacturerOptions | src/components/Products/Products.jsx:238 | the manufacturer options list every distributor of the catalogue once |
| ProductsList.ProductsView.constructor | src/components/Products/Products.jsx:14-69 | on mount the filters come from the URL and the list is filtered, on page 1, with no card colours and no product open |
| ProductsList.ProductsView.SetFilters | src/components/Products/Products.jsx:56-69 | the list is the catalogue filtered by the new values; the page goes back to 1 only when some filter value differs, since an equal value triggers no effect, and is otherwise kept; card colours and the open product are kept |
| ProductsList.ProductsView.ClearFilters | src/components/Products/Products.jsx:95-102 | clearing turns every filter off, lists the whole catalogue and navigates to `/products`; the page goes back to 1 unless every filter was already off, in which case it is kept |
| ProductsList.ProductsView.LoadMore | src/components/Products/Products.jsx:77-84 | the page grows by one exactly when the sentinel is visible and more products remain; nothing else changes |
| ProductsList.ProductsView.CardColorClick | src/components/Products/Products.jsx:195-198 | a swatch click records the colour for that product only |
| ProductsList.ProductsView.OpenProduct | src/components/Products/Products.jsx:113-118 | opening a product selects it and resets the gallery index, zoom and pan; the drag flag, drag start and touch start are kept, and the filters, page and card colours are unchanged |
| ProductsList.ProductsView.CloseModal | src/components/Products/Products.jsx:119-124 | closing clears the selection and resets the gallery index, zoom and pan; the drag flag, drag start and touch start are kept, and the filters, page and card colours are unchanged |
| ProductsList.ProductsView.NextImage | src/components/Products/Products.jsx:135-138 | the next image of the modal gallery, wrapping from the last to the first; the pan offset is reset, and zoom, drag and touch state are kept |
| ProductsList.ProductsView.PrevImage | src/components/Products/Products.jsx:139-142 | the previous image of the modal gallery, wrapping from the first to the last; the pan offset is reset, and zoom, drag and touch state are kept |
| ProductsList.ProductsView.TouchEnd | src/components/Products/Products.jsx:169-180 | while zoomed or without a touch start nothing changes; otherwise the touch start is forgotten, a swipe of more than 50 pixels moves to the previous or next image with the pan offset reset, and a shorter one keeps the image |
| GalleryViewer.Next | src/components/ProductDetail/ProductDetail.jsx:72-75 | the next index stays inside the gallery, steps by one and wraps from the last image to the first |
| GalleryViewer.Prev | src/components/ProductDetail/ProductDetail.jsx:77-80 | the previous index stays inside the gallery, steps back by one and wraps from the first image to the last |
| GalleryViewer.PrevNext | src/components/ProductDetail/ProductDetail.jsx:72-80 | previous undoes next and next undoes previous on every index of the gallery |
| GalleryViewer.Advance | src/components/ProductDetail/ProductDetail.jsx:72-75 | any number of next steps stays inside the gallery |
| GalleryViewer.AdvanceIsModular | src/components/ProductDetail/ProductDetail.jsx:73 | `k` next steps from `i` land on `(i + k) % n` |
| GalleryViewer.FullCircle | src/components/ProductDetail/ProductDetail.jsx:73 | as many next steps as there are images return to the starting image |
| GalleryViewer.SwipeOf | src/components/ProductDetail/ProductDetail.jsx:118-124 | a movement of more than 50 pixels to the right means the previous image, more than 50 to the left the next, anything in between nothing |
| GalleryViewer.DragFollowsCursor | src/components/ProductDetail/ProductDetail.jsx:90-104 | while dragging, the image moves by exactly the cursor's displacement since the button went down, and does not jump at the first move |
| GalleryViewer.Viewer.constructor | src/components/ProductDetail/ProductDetail.jsx:29-34 | the viewer starts on the first image, not zoomed, not dragging, at the origin and with no touch |
| GalleryViewer.Viewer.Reset | src/components/ProductDetail/ProductDetail.jsx:216-236 | a colour choice (or "All") returns to the first image, unzoomed, at the origin |
| GalleryViewer.Viewer.NextImage | src/components/ProductDetail/ProductDetail.jsx:72-75 | the index moves to the next image and the pan offset is reset; nothing else changes |
| GalleryViewer.Viewer.PrevImage | src/components/ProductDetail/ProductDetail.jsx:77-80 | the index moves to the previous image and the pan offset is reset; nothing else changes |
| GalleryViewer.Viewer.ToggleZoom | src/components/ProductDetail/ProductDetail.jsx:82-88 | zoom is flipped and zooming out resets the pan offset |
| GalleryViewer.Viewer.MouseDown | src/components/ProductDetail/ProductDetail.jsx:90-97 | only while zoomed, dragging starts with the grab offset of cursor and image |
| GalleryViewer.Viewer.MouseMove | src/components/ProductDetail/ProductDetail.jsx:99-104 | the image follows the cursor only while zoomed and dragging |
| GalleryViewer.Viewer.MouseUp | src/components/ProductDetail/ProductDetail.jsx:106-108 | releasing or leaving ends the drag and changes nothing else |
| GalleryViewer.Viewer.TouchStart | src/components/ProductDetail/ProductDetail.jsx:110-113 | the touch start is recorded only when not zoomed |
| GalleryViewer.Viewer.TouchEnd | src/components/ProductDetail/ProductDetail.jsx:115-126 | while zoomed or without a touch start nothing happens; otherwise the swipe decides previous, next or nothing and the touch start is forgotten |
| ProductDetail.ParseInt | src/components/ProductDetail/ProductDetail.jsx:14 | the route parameter parses to a number only when it holds a digit |
| ProductDetail.ParseIntOfToString | src/components/ProductDetail/ProductDetail.jsx:14 | parsing the decimal text of any integer id gives that id back, so every product's own link finds it |
| ProductDetail.Lookup | src/components/ProductDetail/ProductDetail.jsx:18-50 | the product found is the first one whose id equals the parsed route parameter; nothing is found (the "not found" page) exactly when no product has that id |
| ProductDetail.InitialColor | src/components/ProductDetail/ProductDetail.jsx:22-28 | the initial colour is the first variant's name, or none when the product has no variants |
| ProductDetail.DetailGallery | src/components/ProductDetail/ProductDetail.jsx:53-67 | the gallery is never empty: for a chosen colour it is the first variant named like it (ignoring case) when that variant has images, and otherwise, like without a match, the product gallery when it has images, else the single product image |
| ProductDetail.GalleryIgnoresCase | src/components/ProductDetail/ProductDetail.jsx:56-58 | the letter case of the chosen colour does not change the gallery |
| ProductDetail.CategoryLabel | src/components/ProductDetail/ProductDetail.jsx:129-130 | the category shown is the URL's `category` when set, else the product's |
| ProductDetail.SubCategoryLabel | src/components/ProductDetail/ProductDetail.jsx:129-131 | the sub-category shown is the URL's `subCategory` when set, else the product's |
| ProductDetail.DetailView.constructor | src/components/ProductDetail/ProductDetail.jsx:22-35 | the page opens on the initial colour, the first image, unzoomed, at the origin, with the quote dialog closed |
| ProductDetail.DetailView.SelectColor | src/components/ProductDetail/ProductDetail.jsx:214-236 | choosing a colour or "All" records it and returns to the first image, unzoomed, at the origin; the drag flag, drag start, touch start and quote dialog are kept |
| ProductDetail.DetailView.NextImage | src/components/ProductDetail/ProductDetail.jsx:72-75 | the next image of the current colour's gallery, wrapping; the pan offset is reset, and zoom, drag and touch state are kept |
| ProductDetail.DetailView.PrevImage | src/components/ProductDetail/ProductDetail.jsx:77-80 | the previous image of the current colour's gallery, wrapping; the pan offset is reset, and zoom, drag and touch state are kept |
| ProductDetail.DetailView.TouchEnd | src/components/ProductDetail/ProductDetail.jsx:115-126 | while zoomed or without a touch start nothing changes; otherwise the touch start is forgotten, a swipe of more than 50 pixels moves to the previous or next image of the gallery with the pan offset reset, and a shorter one keeps the image |
| ProductDetail.DetailView.OpenQuote | src/components/ProductDetail/ProductDetail.jsx:37 | the quote dialog opens and the colour is kept |
| ProductDetail.DetailView.CloseQuote | src/components/ProductDetail/ProductDetail.jsx:38 | the quote dialog closes and the colour is kept |
| ProductsPage.StepIf | src/pages/Products.jsx:61-79 | one optional narrowing step keeps order and holds exactly the products that pass it when it is on, and all of them when it is off |
| ProductsPage.Narrowed | src/pages/Products.jsx:57-82 | the narrowed list keeps catalogue order and holds exactly the products that pass the search (name, description or category, ignoring case, when the trimmed term is non-empty), the category, the manufacturer and every active chip |
| ProductsPage.NothingSetKeepsAll | src/pages/Products.jsx:57-82 | with no search, category, manufacturer or chip the whole catalogue is listed |
| ProductsPage.FilteredAndSortedAsWritten | src/pages/Products.jsx:280-283 | as written, every option of the sort select keeps the narrowed order, because the select's values are not keys the sorter knows |
| ProductsPage.SortOptionsUnrecognised | src/pages/Products.jsx:280-283 | none of the four select values is `price-asc`, `price-desc` or `name` |
| ProductsPage.PriceLowCounterexample | src/pages/Products.jsx:280-283 | "Price: Low to High" on two products listed dearest first leaves the dearer one in front |
| ProductsPage.SortKeyFor | src/pages/Products.jsx:280-283 | each select value is mapped to the sorter key its label names, anything else is passed on unchanged |
| ProductsPage.FilteredAndSorted | src/pages/Products.jsx:57-88 | the result is a permutation of the narrowed list: in catalogue order for "newest", by ascending or descending price for the price options, by name for "A to Z" |
| ProductsPage.Toggle | src/pages/Products.jsx:93-99 | toggling a chip removes it when present and appends it when absent, keeping the others and their uniqueness |
| ProductsPage.ToggleTwice | src/pages/Products.jsx:93-99 | toggling the same chip twice restores the set, and restores the exact order when it was absent |
| ProductsPage.SetWhen | src/pages/Products.jsx:102-108 | a conditional `set` adds the parameter exactly when its condition holds |
| ProductsPage.ChipParamPresence | src/pages/Products.jsx:102-208 | every URL the page writes carries the chip parameter `f` exactly when a chip is active, and the category handler drops the manufacturer |
| ProductsPage.ToggleChipParam | src/pages/Products.jsx:102-108 | the toggle's URL carries `f` exactly when a chip remains active |
| ProductsPage.SearchFormChipParam | src/pages/Products.jsx:121-126 | the search form's URL carries `f` exactly when a chip is active |
| ProductsPage.CategoryChipParam | src/pages/Products.jsx:178-182 | the category handler's URL carries `f` exactly when a chip is active and never a manufacturer |
| ProductsPage.ManufacturerChipParam | src/pages/Products.jsx:203-208 | the manufacturer handler's URL carries `f` exactly when a chip is active |
| ProductsPage.ChipReadBack | src/pages/Products.jsx:103-105 | with a chip active, the toggle's URL reads back the encoded chip set under `f` |
| ProductsPage.ChipsFromUrl | src/pages/Products.jsx:37-49 | the effect keeps the chips when `f` is absent or empty and clears them when it does not decode |
| ProductsPage.FieldFromUrl | src/pages/Products.jsx:38-53 | a non-empty category, manufacturer or query parameter replaces the current value; an absent or empty one keeps it |
| ProductsPage.ToggleSurvivesUrl | src/pages/Products.jsx:36-115 | a toggle followed by the URL effect it triggers leaves the chip set exactly as the toggle made it |
| ProductsPage.ProductsPageState.constructor | src/pages/Products.jsx:21-28 | the page starts with no chips, "newest", an empty search, no category or manufacturer, on the given URL |
| ProductsPage.ProductsPageState.ReadUrl | src/pages/Products.jsx:36-54 | the URL effect sets chips, category, manufacturer and search term as the URL says and keeps the sort |
| ProductsPage.ProductsPageState.ToggleFilter | src/pages/Products.jsx:91-115 | the chip set is toggled and the URL is rebuilt from the new set and the current fields |
| ProductsPage.ProductsPageState.SetSearchTerm | src/pages/Products.jsx:162 | typing changes only the search term; the URL waits for the submit |
| ProductsPage.ProductsPageState.SubmitSearch | src/pages/Products.jsx:118-131 | submitting rebuilds the URL from the term, the chips, the category and the manufacturer |
| ProductsPage.ProductsPageState.ChangeCategory | src/pages/Products.jsx:176-183 | a category change records it and rebuilds the URL without the manufacturer |
| ProductsPage.ProductsPageState.ChangeManufacturer | src/pages/Products.jsx:201-209 | a manufacturer change records it and rebuilds the URL with the category |
| ProductsPage.ProductsPageState.ClearAll | src/pages/Products.jsx:249-252 | "Clear All" empties the chip set and the URL and keeps the other fields |
| ProductsPage.ProductsPageState.SetSort | src/pages/Products.jsx:277 | a sort change records it and nothing else |
| ConsentBanner.Toggle | src/components/ConsentBanner/ConsentBanner.jsx:143-150 | toggling "necessary" does nothing; toggling any other category flips it and leaves the rest alone |
| ConsentBanner.ToggleTwice | src/components/ConsentBanner/ConsentBanner.jsx:143-150 | toggling a category twice restores the choices |
| ConsentBanner.SignalOf | src/components/ConsentBanner/ConsentBanner.jsx:124-125 | a choice is signalled as granted exactly when it is on |
| ConsentBanner.Calls | src/components/ConsentBanner/ConsentBanner.jsx:64-79 | without the tag nothing is sent; with it, the consent update and then the consent event |
| ConsentBanner.CustomUpdate | src/components/ConsentBanner/ConsentBanner.jsx:122-127 | the customize button sends two signals, analytics storage then ad storage; the first is granted exactly when analytics is on, the second exactly when marketing is on |
| ConsentBanner.Banner.constructor | src/components/ConsentBanner/ConsentBanner.jsx:21-49 | the banner is shown exactly when nothing is stored, and the stored choices are loaded when present |
| ConsentBanner.Banner.MountCalls | src/components/ConsentBanner/ConsentBanner.jsx:43-47 | at mount, analytics storage is granted exactly when stored consent has analytics on and the tag exists |
| ConsentBanner.Banner.AcceptAll | src/components/ConsentBanner/ConsentBanner.jsx:51-82 | accepting stores and sets every category on with the time stamp, grants all four storage kinds, reports "all" and hides the banner |
| ConsentBanner.Banner.RejectAll | src/components/ConsentBanner/ConsentBanner.jsx:84-113 | rejecting stores and sets only "necessary" with the time stamp, denies analytics and ad storage, reports "none" and hides the banner |
| ConsentBanner.Banner.Customize | src/components/ConsentBanner/ConsentBanner.jsx:115-141 | customizing stores the current choices with the time stamp, signals them, reports "custom" and hides the banner |
| ConsentBanner.Banner.ToggleCategory | src/components/ConsentBanner/ConsentBanner.jsx:143-150 | a switch toggles that category in the current choices and stores nothing |
| ConsentBanner.Banner.ClickExpand | src/components/ConsentBanner/ConsentBanner.jsx:217-221 | the expand button opens a category's description, or closes it when it is already open |
| ConsentBanner.NecessaryAlwaysOn | src/components/ConsentBanner/ConsentBanner.jsx:24-144 | starting with "necessary" on, no sequence of toggles, accepts, rejects and customizations turns it off |
| ConsentBanner.NecessaryFromInitial | src/components/ConsentBanner/ConsentBanner.jsx:23-144 | from the initial choices, "necessary" stays on whatever the visitor clicks |
| JsObjects.Put | src/components/FeaturedProducts/FeaturedProducts.jsx:16 | storing under a key sets its value and appends the key to the insertion order only when it is new |
| JsObjects.Values | src/components/FeaturedProducts/FeaturedProducts.jsx:19 | one value per key, in key insertion order, and the value of every key appears |
| JsObjects.ValuesMembers | src/components/FeaturedProducts/FeaturedProducts.jsx:19 | a value is listed exactly when some key holds it |
| Featured.FirstIn | src/components/FeaturedProducts/FeaturedProducts.jsx:14-18 | the product kept for a category is its first product in catalogue order |
| Featured.Collect | src/components/FeaturedProducts/FeaturedProducts.jsx:13-18 | the object built holds each category once, in first-seen order, mapped to that category's first product |
| Featured.CollectSnoc | src/components/FeaturedProducts/FeaturedProducts.jsx:14-18 | one more product fills its category's slot only when the slot is still empty |
| Featured.FeaturedOf | src/components/FeaturedProducts/FeaturedProducts.jsx:19 | the featured list has one entry per distinct category, the first product of each, in first-seen order |
| Featured.FeaturedOnePerCategory | src/components/FeaturedProducts/FeaturedProducts.jsx:12-19 | no two featured products share a category, and each is the first product of its category |
| Featured.FeaturedCoversAll | src/components/FeaturedProducts/FeaturedProducts.jsx:12-19 | every category of the catalogue has its first product featured |
| Featured.FeaturedInFirstSeenOrder | src/components/FeaturedProducts/FeaturedProducts.jsx:19 | the featured products are ordered by where their categories first appear |
| Featured.FeaturedCount | src/components/FeaturedProducts/FeaturedProducts.jsx:20 | the slide count is the number of distinct categories, at most the number of products and zero only for an empty catalogue |
| Featured.FeaturedByCategory | src/components/FeaturedProducts/FeaturedProducts.jsx:13-19 | the selection loop with an own-property test computes exactly the featured list |
| Featured.FeaturedByCategoryAsWritten | src/components/FeaturedProducts/FeaturedProducts.jsx:13-19 | the loop as written computes the featured list of the products whose category is not a name every object inherits |
| Featured.AsWrittenSkipsInherited | src/components/FeaturedProducts/FeaturedProducts.jsx:15 | as written, no featured product has an inherited category name, and without such names both loops agree |
| Featured.ConstructorCategoryCounterexample | src/components/FeaturedProducts/FeaturedProducts.jsx:15-16 | a catalogue of one product in category "constructor" features nothing as written, though it should feature that product |
| Featured.ProductPathFindsProduct | src/components/FeaturedProducts/FeaturedProducts.jsx:34-36 | the route a card opens starts `/product/` and lets the detail page find a product with the card's id |
| Featured.JsRem | src/components/FeaturedProducts/FeaturedProducts.jsx:28 | `%` truncates toward zero: the remainder carries the sign of the dividend |
| Featured.SlideNext | src/components/FeaturedProducts/FeaturedProducts.jsx:28-142 | on a slide, next wraps to the first; with no slides or after NaN the index is NaN |
| Featured.SlidePrev | src/components/FeaturedProducts/FeaturedProducts.jsx:126 | on a slide, previous wraps from the first to the last |
| Featured.SlideButtonsInverse | src/components/FeaturedProducts/FeaturedProducts.jsx:126-142 | with at least one slide, both buttons stay on a slide and undo each other |
| Featured.EmptyCarouselIndex | src/components/FeaturedProducts/FeaturedProducts.jsx:20-126 | with no slides the next button makes the index NaN and the previous button makes it -1 |
| Featured.Slides.constructor | src/components/FeaturedProducts/FeaturedProducts.jsx:13-48 | the carousel shows the featured list from the first slide with the quote dialog closed |
| Featured.Slides.NextSlide | src/components/FeaturedProducts/FeaturedProducts.jsx:26-142 | a timer tick or the next button moves to the next slide |
| Featured.Slides.PrevSlide | src/components/FeaturedProducts/FeaturedProducts.jsx:126 | the previous button moves to the previous slide |
| Featured.Slides.GoTo | src/components/FeaturedProducts/FeaturedProducts.jsx:137 | an indicator jumps to its slide |
| Featured.Slides.OpenQuote | src/components/FeaturedProducts/FeaturedProducts.jsx:50-53 | the quote dialog opens for the product and the slide is kept |
| Featured.Slides.CloseQuote | src/components/FeaturedProducts/FeaturedProducts.jsx:55-58 | the quote dialog closes and forgets the product |
| Featured.SliderNext | src/components/FeaturedProducts/FeaturedProductsCarousel.jsx:25-27 | the slider's step wraps from the last slide to the first, like the carousel's |
| Featured.Slider.constructor | src/components/FeaturedProducts/FeaturedProductsCarousel.jsx:10-19 | the slider shows the featured list from the first slide |
| Featured.Slider.Tick | src/components/FeaturedProducts/FeaturedProductsCarousel.jsx:22-31 | with more than one slide, each tick moves to the next slide, wrapping |
| Featured.BarContents | src/components/FeaturedProducts/FeaturedProductsBar.jsx:14-59 | the bar shows the featured cards, and its empty message exactly when the catalogue is empty |
| OptimizedImage.BaseName | src/components/OptimizedImage/OptimizedImage.jsx:38-39 | the base name is the path before its last `.`, or the whole path when it has none |
| OptimizedImage.ImageVariants | src/components/OptimizedImage/OptimizedImage.jsx:37-46 | the AVIF and WebP sources are the base name with `.avif` and `.webp`; the fallback is the path itself |
| OptimizedImage.VariantsSwapExtension | src/components/OptimizedImage/OptimizedImage.jsx:37-46 | for a path with an extension, only the last extension is swapped |
| OptimizedImage.Attributes | src/components/OptimizedImage/OptimizedImage.jsx:121-122 | a priority image loads eagerly with high fetch priority, any other lazily with low |
| OptimizedImage.WrapperState | src/components/OptimizedImage/OptimizedImage.jsx:106 | the wrapper is marked "loading" exactly while the image loads, and "loaded" otherwise |
| OptimizedImage.ImageState.constructor | src/components/OptimizedImage/OptimizedImage.jsx:32-48 | the placeholder shows first, and only a low-priority image starts out loading |
| OptimizedImage.ImageState.Settle | src/components/OptimizedImage/OptimizedImage.jsx:56-86 | a load or an error alike shows the original file and ends loading |
| Performance.ReplaceFirst | src/utils/performanceUtils.js:95 | `String.prototype.replace` with a string pattern: without an occurrence the string is unchanged; otherwise only the first occurrence is replaced and the length changes by the difference of the two lengths |
| Performance.BaseOf | src/utils/performanceUtils.js:95 | the base drops exactly the length of the trailing extension; it is the path before the extension when that extension occurs only at the end, and the whole path when nothing matches |
| Performance.DoubleDensity | src/utils/performanceUtils.js:28 | the fallback's 2x name inserts `@2x` just before the trailing extension and keeps everything else; a name without one is unchanged |
| Performance.TrailingExt | src/utils/performanceUtils.js:94 | the match is a `.` followed by one or more word characters that ends the path; there is none exactly when no `.` is followed only by word characters to the end |
| Performance.TrailingExtOfSimplePath | src/utils/performanceUtils.js:94 | `base.word` has the extension `.word` |
| Performance.ReplaceFirstAtEnd | src/utils/performanceUtils.js:95 | removing the extension's first occurrence from `base + ext` gives `base` when `ext` occurs nowhere earlier |
| Performance.ExtOf | src/utils/performanceUtils.js:94 | the extension is the trailing match, or `.jpg` when there is none |
| Performance.SrcsetEntries | src/utils/performanceUtils.js:98-99 | one entry per size, in order, each `base-<size>w<ext> <size>w` |
| Performance.ResponsiveImageProps | src/utils/performanceUtils.js:93-104 | the srcset joins the entries with `", "`, the sizes attribute is the fixed one and `src` is unchanged |
| Performance.ResponsiveOfSimplePath | src/utils/performanceUtils.js:93-104 | for a path `base.word` with no other `.`, each entry is `base-<size>w.word <size>w` |
| Performance.ResponsiveWithoutExtension | src/utils/performanceUtils.js:94-95 | a path without `.` gets the extension `.jpg` and keeps the whole path as its base |
| Performance.IfGiven | src/utils/performanceUtils.js:25-36 | `x && item` survives `filter(Boolean)` exactly when `x` is a non-empty string |
| Performance.Sources | src/utils/performanceUtils.js:32-36 | the sources hold exactly the supplied formats, AVIF before WebP before the fallback |
| Performance.SrcSet | src/utils/performanceUtils.js:25-29 | the srcset is empty exactly when no format is supplied |
| Performance.SrcSetFollowsSources | src/utils/performanceUtils.js:25-29 | the srcset lists, joined by `", "`, one `name 1x, doubled 2x` pair per supplied format, in the order AVIF, WebP, fallback |
| Performance.DoubledSimpleName | src/utils/performanceUtils.js:26-27 | for an AVIF or WebP name `base.avif` or `base.webp` with no other `.`, the 2x name is `base@2x` with the same extension |
| Performance.OptimizedImageSrc | src/utils/performanceUtils.js:17-38 | `src` is the fallback, else the WebP, else the AVIF path; the sources and srcset are as above |
| Performance.JoinEmpty | src/utils/performanceUtils.js:29 | joining non-empty parts gives the empty string exactly when there are none |
| Performance.SourcesInPreferenceOrder | src/utils/performanceUtils.js:30-36 | at most three sources; all three formats give all three in preference order; none gives no source |
| Performance.FallbackOnlySrcSet | src/utils/performanceUtils.js:28 | a lone fallback `base.word` offers itself at 1x and `base@2x.word` at 2x |
| Performance.DoubleDensityOfSimplePath | src/utils/performanceUtils.js:28 | the double-density name of `base.word` is `base@2x.word` |
| Performance.SrcSetOfFallback | src/utils/performanceUtils.js:25-29 | a lone fallback gives one 1x/2x candidate pair |
| Performance.Throttle.constructor | src/utils/performanceUtils.js:339-340 | a new throttle has never run and its last call is 0 |
| Performance.Throttle.Invoke | src/utils/performanceUtils.js:341-347 | the handler runs exactly when at least `delay` has passed since the last run, and only then is the time recorded, so any two runs are at least `delay` apart |
| Performance.MaxAge | src/utils/performanceUtils.js:307 | an absent or zero `maxAge` means one hour (3600000 ms) |
| Performance.CacheKey | src/utils/performanceUtils.js:302 | the cache key is `fetch-cache-` followed by the URL |
| Performance.CacheKeyInjective | src/utils/performanceUtils.js:302 | different URLs never share a cache entry |
| Performance.RequestCache.constructor | src/utils/performanceUtils.js:301-303 | the cache starts empty |
| Performance.RequestCache.FetchWithCache | src/utils/performanceUtils.js:301-323 | the cached data is returned, with the cache unchanged, exactly when an entry exists and is younger than the maximum age. Otherwise a successful fetch is returned and overwrites the entry with its time. A rejected fetch or an unparsable body rejects and stores nothing |
| Performance.IsLowEndDevice | src/utils/performanceUtils.js:250-261 | the device memory decides when reported (under 4 GB); else the connection (a 4G link with data saving); else not low-end |
| Performance.OptimalImageQuality | src/utils/performanceUtils.js:266-278 | a low-end device gets the lowest quality in WebP, else a 3G link the middle quality in WebP, else the best quality in AVIF |
| Performance.AvifOnlyAtBestTier | src/utils/performanceUtils.js:269-277 | AVIF is chosen exactly with the best quality |
| Performance.MemoryDecidesFirst | src/utils/performanceUtils.js:250-274 | a device reporting 4 GB or more on a 3G link gets the middle quality |
| Analytics.ConsentSignals | src/utils/analyticsUtils.js:48-53 | the stored consent sets the four storage kinds in order: analytics storage from the analytics choice, the three advertising kinds from the marketing choice |
| Analytics.StartupAgreesWithBanner | src/utils/analyticsUtils.js:48-50 | start-up signals analytics and ad storage exactly as the banner's customize button does for the same choices |
| Analytics.AcceptedGrantsAll | src/utils/analyticsUtils.js:48-53 | after "accept all" every kind is granted at the next start, after "reject all" every kind is denied |
| Analytics.InitCalls | src/utils/analyticsUtils.js:19-55 | without a measurement id nothing is sent; otherwise the loader call, the configuration with every kind denied, and a consent update exactly when consent is stored |
| Analytics.IsAnalyticsEnabled | src/utils/analyticsUtils.js:353-359 | analytics is enabled exactly when consent is stored with analytics on |
| Analytics.EnabledIffGranted | src/utils/analyticsUtils.js:353-359 | analytics counts as enabled exactly when start-up grants analytics storage |
| Analytics.TrackEvent | src/utils/analyticsUtils.js:72-79 | without the tag nothing is sent; with it, one event carrying its data with the time stamp set as by object spread |
| Analytics.WithKey | src/utils/analyticsUtils.js:74-77 | object spread then a key: a new key comes last, a key already present keeps its place, the key holds the new value and every other pair is kept |
| Analytics.StampReplacesOldStamp | src/utils/analyticsUtils.js:74-77 | data that already carries a time stamp sends one stamp, the new one, in the old one's place |
| Analytics.TrackScrollDepth | src/utils/analyticsUtils.js:215-221 | a depth is reported exactly when the tag exists and it is a multiple of 25 |
| Analytics.NewlyReached | src/utils/analyticsUtils.js:302-307 | the thresholds a scroll newly reaches are those of 25, 50, 75 and 100 at or under the percentage and not yet tracked, each once and in increasing order |
| Analytics.DepthEvents | src/utils/analyticsUtils.js:215-305 | one scroll-depth event per newly reached threshold, in order, when the tag exists |
| Analytics.ScrollTracker.constructor | src/utils/analyticsUtils.js:294-295 | no threshold is tracked or reported at first |
| Analytics.ScrollTracker.OnScroll | src/utils/analyticsUtils.js:297-308 | a scroll tracks every threshold up to the percentage, reports exactly the newly reached ones in increasing order, and keeps each threshold reported at most once |
| Analytics.ScrollReportsOnce | src/utils/analyticsUtils.js:302-307 | appending the newly reached thresholds keeps every threshold reported at most once, and the reported ones are exactly the tracked ones |
| Analytics.RoundSeconds | src/utils/analyticsUtils.js:320 | rounding milliseconds to seconds lands within half a second |
| Analytics.TimeOnPageCalls | src/utils/analyticsUtils.js:315-326 | the time-on-page event is sent exactly when the tag exists and at least 5.5 seconds have passed, that is more than five rounded seconds |
| Navbar.NonBlankTrimmed | src/components/Navbar/Navbar.jsx:35 | the kept values are exactly the non-empty trimmed values |
| Navbar.NavOptions | src/components/Navbar/Navbar.jsx:34-40 | the options hold each non-empty trimmed value once and never outnumber the inputs |
| Navbar.NavOptionsFirstSeen | src/components/Navbar/Navbar.jsx:35 | the options come in the order their values first appear |
| Navbar.NavOptionsOfClean | src/components/Navbar/Navbar.jsx:35 | already trimmed, non-empty and distinct values are listed as they are |
| Navbar.Categories | src/components/Navbar/Navbar.jsx:34-36 | the category options are the distinct non-empty trimmed categories of the catalogue |
| Navbar.Manufacturers | src/components/Navbar/Navbar.jsx:38-40 | the manufacturer options are the distinct non-empty trimmed distributors of the catalogue |
| Navbar.Keep | src/components/Navbar/Navbar.jsx:44-48 | one conditional `append` adds the parameter exactly when its value is non-empty |
| Navbar.KeepFilter | src/components/Navbar/Navbar.jsx:44-48 | one more conditional append is one more step of the filter over the candidate parameters |
| Navbar.KeepFive | src/components/Navbar/Navbar.jsx:44-48 | the five conditional appends keep exactly the candidates with a value, in order |
| Navbar.NavParams | src/components/Navbar/Navbar.jsx:42-50 | the search URL carries at most five parameters |
| Navbar.NavParamsInOrder | src/components/Navbar/Navbar.jsx:43-48 | the parameters are the set ones among query, category, manufacturer, sub-category and sub-sub-category, in that order |
| Navbar.NavParamsReadName | src/components/Navbar/Navbar.jsx:43-49 | each name read back from the search URL gives exactly the value appended under it, or nothing |
| Navbar.NavParamsRead | src/components/Navbar/Navbar.jsx:43-49 | reading the search URL back gives the trimmed term and every set selection, and no chip parameter |
| Navbar.SearchOpensProductsPage | src/components/Navbar/Navbar.jsx:42-50 | the products page, reading a navigation-bar search, takes over the trimmed term, category and manufacturer that were set, keeps its own for the rest and keeps its chips |
| Navbar.CategoryObject | src/components/Navbar/Navbar.jsx:61-64 | the category entry is the first one with the selected name, and none exactly when no entry has it |
| Navbar.SubOptions | src/components/Navbar/Navbar.jsx:136-138 | one option per sub-category, its name whether it is a plain name or an object |
| Navbar.SubSubOptions | src/components/Navbar/Navbar.jsx:142-155 | the sub-sub-category select appears only for the first object sub-category with the selected name that lists at least one sub-sub-category, and offers exactly that object's list |
| Navbar.NavbarState.constructor | src/components/Navbar/Navbar.jsx:15-21 | the bar starts closed with an empty search and no selection |
| Navbar.NavbarState.SubSubSelect | src/components/Navbar/Navbar.jsx:142-155 | the sub-sub-category slot of any state, stale ones included: hidden without a selected sub-category, never the render error in a state where the selected sub-category sits under a category entry with a sub-category list, and shown only with a non-empty option list under an existing category entry |
| Navbar.NavbarState.ToggleMenu | src/components/Navbar/Navbar.jsx:93 | the menu button flips the mobile menu and nothing else |
| Navbar.NavbarState.LocationChanged | src/components/Navbar/Navbar.jsx:23-25 | any navigation closes the mobile menu and keeps the search fields |
| Navbar.NavbarState.SetSearchTerm | src/components/Navbar/Navbar.jsx:115 | typing changes only the search term |
| Navbar.SubSubView | src/components/Navbar/Navbar.jsx:142-155 | with a sub-category selected, the lookup fails exactly when the category has no entry or the entry has no sub-category list; otherwise the select is shown exactly when the first object sub-category of that name lists sub-sub-categories, with that list as its options; hidden without a sub-category |
| Navbar.StaleSubCategoryCounterexample | src/components/Navbar/Navbar.jsx:56-143 | a sub-category chosen under a category whose select shows, followed by "All Categories" with the sub-category not yet cleared, gives the render error; with it cleared the slot is hidden |
| Navbar.NavbarState.SetCategory | src/components/Navbar/Navbar.jsx:119 | the category select as written records the new category and keeps both sub-selections; the following render fails exactly when a sub-category was selected and the new category has no entry or no sub-category list |
| Navbar.NavbarState.ClearSubSelections | src/components/Navbar/Navbar.jsx:56-59 | the effect clears both sub-selections and nothing else, after which the sub-sub-category slot is hidden and the state is consistent again |
| Navbar.NavbarState.SelectCategory | src/components/Navbar/Navbar.jsx:56-119 | the intended category change: it records the category and clears both sub-category selections in one step, so no render sees a stale sub-category and the sub-sub-category slot is hidden |
| Navbar.NavbarState.SelectManufacturer | src/components/Navbar/Navbar.jsx:126 | a manufacturer change records it and nothing else |
| Navbar.NavbarState.SelectSubCategory | src/components/Navbar/Navbar.jsx:134 | a sub-category choice records it and nothing else |
| Navbar.NavbarState.SelectSubSubCategory | src/components/Navbar/Navbar.jsx:146 | a sub-sub-category choice records it and nothing else |
| Navbar.NavbarState.Search | src/components/Navbar/Navbar.jsx:42-50 | the search builds its URL from the current term and selections |
| Navbar.SearchAfterCategoryChange | src/components/Navbar/Navbar.jsx:42-59 | right after a category change a search carries no sub-category selection |
| ManufacturerDetail.ProductsFor | src/components/Manufacturers/ManufacturerDetail.jsx:10-13 | the page lists, in catalogue order and with their multiplicity, exactly the products whose distributor equals the route name ignoring case |
| ManufacturerDetail.View | src/components/Manufacturers/ManufacturerDetail.jsx:23-60 | the grid shows those products, and the "No products found for …" message appears exactly when there are none |
| ManufacturerDetail.RouteCaseIgnored | src/components/Manufacturers/ManufacturerDetail.jsx:12 | the letter case of the route name does not change the products listed |
| ManufacturerDetail.SectionEntriesHaveProducts | src/components/Manufacturers/ManufacturerDetail.jsx:10-23 | every distributor of the home-page section has at least one product on its page |
| ManufacturersSection.Entries | src/components/ManufacturersSection/ManufacturersSection.jsx:10-12 | the section lists every distributor of the catalogue once |
| ManufacturersSection.EachDistributorOnce | src/components/ManufacturersSection/ManufacturersSection.jsx:10-12 | each product's distributor appears in the list at exactly one place |
| ManufacturersSection.EntriesFirstSeen | src/components/ManufacturersSection/ManufacturersSection.jsx:10-12 | the distributors come in the order they first appear in the catalogue |
| ManufacturersSection.ClickTarget | src/components/ManufacturersSection/ManufacturersSection.jsx:17-20 | a click opens `/manufacturers?manufacturer=` followed by the encoded name |
| ManufacturersSection.ClickTargetDecodes | src/components/ManufacturersSection/ManufacturersSection.jsx:19 | decoding the parameter gives the name back, and it preselects a distributor exactly when the name is non-empty |
| Distributors.EntryIsLookup | src/components/Distributors/Distributors.js:187-194 | the products a subcategory button passes are that subcategory's own list |
| Distributors.DistributorsState.constructor | src/components/Distributors/Distributors.js:128-131 | nothing is selected at first and no products are listed |
| Distributors.DistributorsState.ClickDistributor | src/components/Distributors/Distributors.js:133-138 | choosing a distributor selects it and clears the category, the subcategory and the product list |
| Distributors.DistributorsState.ClickCategory | src/components/Distributors/Distributors.js:140-144 | choosing a category selects it under the same distributor and clears the subcategory and the product list |
| Distributors.DistributorsState.ClickSubcategory | src/components/Distributors/Distributors.js:146-149 | choosing a subcategory selects it and lists its products |
| Distributors.DistributorsState.CategoryButtons | src/components/Distributors/Distributors.js:169-183 | the category buttons appear exactly when a distributor is selected and are its categories in order |
| Distributors.DistributorsState.SubcategoryButtons | src/components/Distributors/Distributors.js:185-202 | the subcategory buttons appear exactly when a category is selected, each carrying its own product list |
| Distributors.DistributorsState.ProductList | src/components/Distributors/Distributors.js:204-213 | the product list appears exactly when it is non-empty, and it is the selected subcategory's list |
| ProductExplorer.Explorer.constructor | src/components/ProductExplorer.jsx:9-11 | nothing is selected at first |
| ProductExplorer.Explorer.SelectManufacturer | src/components/ProductExplorer.jsx:14-18 | choosing a manufacturer selects it and clears the category and the subcategory |
| ProductExplorer.Explorer.SelectCategory | src/components/ProductExplorer.jsx:21-24 | choosing a category selects it under the same manufacturer and clears the subcategory |
| ProductExplorer.Explorer.SelectSubcategory | src/components/ProductExplorer.jsx:27-29 | choosing a subcategory selects it and keeps the levels above |
| ProductExplorer.Explorer.Render | src/components/ProductExplorer.jsx:50-86 | the category buttons show exactly with a manufacturer, the subcategory buttons exactly with a category, the grid exactly with a subcategory, each listing the selected level's own keys or products in order |
| CategoryDropdown.Categories | src/components/Products/ProductCategoryDropdown.js:13 | the category options hold every category of the catalogue once |
| CategoryDropdown.CategoriesFirstSeen | src/components/Products/ProductCategoryDropdown.js:13 | the categories come in the order they first occur |
| CategoryDropdown.SubcategoryOptions | src/components/Products/ProductCategoryDropdown.js:45 | the subcategory options hold every subcategory of the chosen category once |
| CategoryDropdown.Matching | src/components/Products/ProductCategoryDropdown.js:22-26 | the cards are exactly the products of the chosen category and subcategory, in catalogue order |
| CategoryDropdown.MatchingAmongOptions | src/components/Products/ProductCategoryDropdown.js:13-45 | every product shown belongs to a category and a subcategory that the selects offer |
| CategoryDropdown.Dropdown.constructor | src/components/Products/ProductCategoryDropdown.js:9-11 | nothing is chosen and no card is shown at first |
| CategoryDropdown.Dropdown.CategoryChange | src/components/Products/ProductCategoryDropdown.js:15-18 | a category change records it, clears the subcategory and keeps the cards |
| CategoryDropdown.Dropdown.SubcategoryChange | src/components/Products/ProductCategoryDropdown.js:20-27 | a subcategory change records it and shows exactly the matching products |
| CategoryDropdown.Dropdown.Render | src/components/Products/ProductCategoryDropdown.js:52-60 | the cards are shown when there are any, the "no products" message otherwise |
| ThemeSwitcher.InitialDark | src/components/ThemeSwitcher/ThemeSwitcher.jsx:11-13 | a stored "dark" means dark, any other stored theme means light, and with nothing stored the system preference decides |
| ThemeSwitcher.ThemeName | src/components/ThemeSwitcher/ThemeSwitcher.jsx:25-44 | the theme name, stored under `theme` and set as the page's colour scheme, is "dark" exactly for the dark theme and "light" otherwise |
| ThemeSwitcher.StoredThemePersists | src/components/ThemeSwitcher/ThemeSwitcher.jsx:11-44 | the theme stored by a toggle or a system change is the one restored at the next start, whatever the system preference |
| ThemeSwitcher.Switcher.constructor | src/components/ThemeSwitcher/ThemeSwitcher.jsx:6-7 | the switch starts light and not loaded |
| ThemeSwitcher.Switcher.Init | src/components/ThemeSwitcher/ThemeSwitcher.jsx:9-17 | the mount effect sets the initial theme, applies it to the page and marks the switch loaded, storing nothing |
| ThemeSwitcher.Switcher.SystemChange | src/components/ThemeSwitcher/ThemeSwitcher.jsx:21-26 | a system preference change is followed, applied and stored |
| ThemeSwitcher.Switcher.Toggle | src/components/ThemeSwitcher/ThemeSwitcher.jsx:40-48 | the toggle flips the theme, applies and stores it, and announces the new theme |
| ThemeSwitcher.Switcher.Render | src/components/ThemeSwitcher/ThemeSwitcher.jsx:50-61 | nothing is rendered before loading; the button is pressed exactly in dark mode and offers the light mode then |
| Meta.SeoImage | src/components/Meta/Meta.jsx:39 | the image is the override when it is non-empty and the site's hero image otherwise |
| Meta.SchemaSourceOf | src/components/Meta/Meta.jsx:48-55 | the product schema receives the page's id, name, description and category, its image or else the page image, and its price or else 0 |
| Meta.SchemaFor | src/components/Meta/Meta.jsx:46-58 | a product page with an id gets a product schema, otherwise a non-empty breadcrumb list gets a breadcrumb schema, otherwise there is none |
| Meta.LangTag | src/components/Meta/Meta.jsx:61 | the language tag is "ar-JO" exactly for Arabic and "en-US" for every other language |
| Meta.DirTag | src/components/Meta/Meta.jsx:62 | the text direction is right-to-left exactly for Arabic |
| Meta.AlternateHreflang | src/components/Meta/Meta.jsx:129-133 | the alternate link always names the other of the two site languages |
| Meta.MetaHead | src/components/Meta/Meta.jsx:27-139 | the head carries the override-or-template title and description, the template keywords, the page image, the language and direction tags, the product-or-website Open Graph type, the canonical URL and the page schema |
| Meta.LanguageTagsAgree | src/components/Meta/Meta.jsx:61-133 | the language tag, the direction and the alternate link always agree on which language is shown |
| Meta.DefaultsFromTemplate | src/components/Meta/Meta.jsx:34-39 | without overrides the head shows the page type's template and the hero image |
| Meta.ProductSchemaFromMeta | src/components/Meta/Meta.jsx:47-55 | a product page's schema is a product offer out of stock, with the product's image or the page image and its price or the text "0" |

## Left out

- FilterUtils.SortByKey: stability is not stated; `Array.prototype.sort` is stable, so products with equal keys keep their relative order, but the contract promises only a permutation with non-decreasing keys.
- Markup, styling, animation and translation strings (`t(...)`) are not modelled. Rendered output is modelled only where the source decides what to show: option lists, which level of a drill-down is shown, button labels and the not-found views.
- Network and storage I/O are modelled only by their outcomes, passed in as values. This covers fetch/axios, the mysql2 pool, localStorage, sessionStorage, `window.gtag`, `window.open` for WhatsApp, `navigate` and `dispatchEvent`.
- Timers are out of scope: `setTimeout`/`setInterval` timing, the carousel's interval and the throttle's clock. Each tick or call is an explicit method call with `now` as a parameter.
- The background pool creation in `b/config/db.js` is asynchronous. Its end is modelled as an explicit call, `Db.DbWrapper.FinishPoolCreation`, and the race with incoming requests is not modelled.
- `URL` and `URLSearchParams` parsing is left out; query strings are ordered lists of name and value pairs.
- `encodeURIComponent` and `decodeURIComponent` are an opaque codec. The round-trip lemmas require that its decode inverts its encode.
- `localeCompare` is an abstract collation rank.
- JSON.parse and JSON.stringify are opaque. The cache entry is stored as a value, without its JSON round-trip.
- Floating point is approximated:
  - Prices and ratings are integers.
  - `deviceMemory` is a real.
  - The image quality factors are an enumeration.
  - `Math.round` of the scroll percentage and of the seconds on the page is modelled on whole numbers.
- Lengths are counted in Unicode code points, where JavaScript counts UTF-16 code units. This applies to the title, description and message lengths.
- Letter case is mapped only for ASCII and the Latin-1 letters À–Þ / à–þ, except × and ÷ (`Text.Upper`, `Text.Lower`). ß, ÿ and µ are not mapped, although JavaScript upper-cases them to "SS", U+0178 and U+039C ("SS" also changes the length). The rest of Unicode is not mapped either.
- In the category tree, classification names equal to `_products` or to a name inherited from `Object.prototype` are not modelled. The tree keeps a node's direct products apart from its named children.
- Object.values and Object.keys are modelled in insertion order. JavaScript lists keys that look like array indices first; category names are not of that form.
- The three FeaturedProducts components share one selection function (`Featured.FeaturedOf`), because their forEach loops are identical.
- The XSS and SQL detectors are modelled on string inputs. `detectSQLInjection` answers `false` for any non-string (src/utils/securityUtils.js:74), but `detectXSSAttempt` has no such guard and tests the input's string conversion, so an array such as `["<iframe"]` is flagged; that non-string case of the XSS detector is not modelled.
- The `insertId` branch for a non-array result is not modelled: the database wrapper always answers with a `[result, fields]` pair.
- Consent update and analytics events carry only the fields the model compares. The timestamp string is a parameter.
- StrLessTransitive: the default sort order is modelled as code-point order; JavaScript compares UTF-16 code units, which orders a character above U+FFFF before one in U+E000 to U+FFFF. This applies to StrLessTotal and FilterUtils.SortStrings as well.
- Featured.BarContents: built on the intended selection, one product for every category that occurs. As written, a category with an inherited name such as "constructor" is skipped, so a catalogue of only such products shows the empty message (Featured.FeaturedByCategoryAsWritten gives that selection).
- Featured.Slides.constructor: the carousel uses the intended selection; as written it leaves out inherited-name categories, as in Featured.FeaturedByCategoryAsWritten.
- Featured.Slider.constructor: the slider uses the intended selection; as written it leaves out inherited-name categories, as in Featured.FeaturedByCategoryAsWritten.
- Meta.MetaHead: the title and description come from the intended template lookup, Seo.PageSeoData. As written, an inherited page type such as "toString" does not fall back to the home template (Seo.PageSeoDataAsWritten). This applies to Meta.DefaultsFromTemplate as well.
- The schemas and meta tags that do not depend on inputs are not modelled: the organisation and website schemas, fixed tags such as robots and theme-color, the Twitter tags (which repeat the Open Graph values) and the preload and icon links.
- Meta.SeoImage has no template-image step, because no template in `src/utils/seoUtils.js` has an `image` field. The template fallback is therefore always empty.
- The data modules (`productsData`, `manufacturersData`, `categoriesData`, `distributorsData`, the mock data) are not part of this model. Every operation takes the catalogue as a parameter.
- Navbar.NavbarState.SelectSubCategory and Navbar.NavbarState.SelectSubSubCategory require the value to be one of the rendered options (or the empty "all" option). The select element offers nothing else.
- Navbar.NavbarState.SetCategory: the render error it can lead to is modelled as an outcome of Navbar.NavbarState.SubSubSelect. What React does next is not modelled: with no error boundary, the whole tree unmounts.
- Navbar.NavbarState.SelectSubCategory and Navbar.NavbarState.SelectSubSubCategory also require a consistent state (Valid). Between the category select and its clearing effect no user event can arrive, so the source never runs them on a stale state.
- Distributors.DistributorsState.ClickCategory and Distributors.DistributorsState.ClickSubcategory require a button that is rendered. Distributors.DistributorsState.ClickDistributor requires a distributor whose category and subcategory dictionaries are well formed (each key once, every key with a value), as object literals are.
- ProductExplorer.Explorer.SelectCategory and ProductExplorer.Explorer.SelectSubcategory require a rendered button. ProductExplorer.Explorer.SelectManufacturer requires a manufacturer whose category and subcategory dictionaries are well formed, as object literals are.
- CategoryDropdown.Dropdown.SubcategoryChange requires a selected category, because the subcategory select is rendered only then.

## Findings

| source | as written | input that shows it | evidently intended | confidence | as-written member | corrected member |
|---|---|---|---|---|---|---|
| src/utils/seoUtils.js:383 | `seoTemplates[pageType] \|\| seoTemplates.home` reads inherited properties of the object literal | page type `"toString"` or `"constructor"`, which yields a function instead of a template | every page type without a template of its own gets the home template | not executed | Seo.PageSeoDataAsWritten, Seo.InheritedPageTypeHasNoTemplate | Seo.PageSeoData |
| src/pages/Products.jsx:280-283 | the sort select's values `priceLow`, `priceHigh` and `nameAZ` are passed to `sortProducts`, which knows only `price-asc`, `price-desc` and `name` | sorting "Price: Low to High" on products priced 120 then 30 leaves 120 first | each option sorts by its key | not executed | ProductsPage.FilteredAndSortedAsWritten, ProductsPage.PriceLowCounterexample | ProductsPage.FilteredAndSorted |
| src/components/Navbar/Navbar.jsx:56-143 | the category select only calls `setSelectedCategory`; the sub-selections are cleared by an effect that runs after the next render, and that render reads `categoryObject.subcategories.find(...)` with the old sub-category | choose a category with sub-categories, one of its sub-categories, then "All Categories": `categoryObject` is undefined and the render throws a TypeError | a category change clears the sub-selections before the next render | not executed | Navbar.NavbarState.SetCategory, Navbar.StaleSubCategoryCounterexample | Navbar.NavbarState.SelectCategory |
| src/components/FeaturedProducts/FeaturedProducts.jsx:15-16 | `!featuredByCategory[product.category]` is false for inherited names | a single product of category `"constructor"`: nothing is featured | one product for every category that occurs | not executed | Featured.FeaturedByCategoryAsWritten, Featured.ConstructorCategoryCounterexample | Featured.FeaturedByCategory |
