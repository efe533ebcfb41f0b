/** The Express server's handlers: adding a product, listing products and
    the health check, over the database wrapper. */
module Backend {
  import opened Wrappers
  import opened Seqs
  import opened Catalog
  import opened Db

  /** The columns the POST handler inserts, in placeholder order. */
  const Columns: seq<string> := [
    "name", "category", "subCategory", "subSubCategory", "distributor", "image", "description",
    "brief", "colors", "sizes", "colorVariants", "gallery", "additionalInfo"
  ]

  /** The INSERT statement, as the handler writes it. */
  const InsertSql: string :=
    "INSERT INTO products \n    (" + Join(Columns, ", ") + ")\n    VALUES (" + Placeholders + ")"

  /** `?, ?, …, ?` with n marks. */
  function PlaceholderList(n: nat): string
    requires n > 0
  {
    if n == 1 then "?" else "?, " + PlaceholderList(n - 1)
  }

  const Placeholders: string := PlaceholderList(|Columns|)

  lemma {:induction false} PlaceholderListCount(n: nat)
    requires n > 0
    ensures CountChar(PlaceholderList(n), '?') == n
  {
    if n > 1 {
      PlaceholderListCount(n - 1);
      CountCharAppend("?, ", PlaceholderList(n - 1), '?');
    }
  }

  function CountChar(s: string, c: char): nat {
    if |s| == 0 then 0 else (if s[0] == c then 1 else 0) + CountChar(s[1..], c)
  }

  lemma {:induction false} CountCharAppend(a: string, b: string, c: char)
    ensures CountChar(a + b, c) == CountChar(a, c) + CountChar(b, c)
  {
    if |a| > 0 {
      assert (a + b)[1..] == a[1..] + b;
      CountCharAppend(a[1..], b, c);
    } else {
      assert a + b == b;
    }
  }

  /** The JSON body of a POST: eight text fields and five structured ones
      (any JSON value, of type J). None is a missing field. */
  datatype PostBody<J> = PostBody(
    name: Option<string>, category: Option<string>, subCategory: Option<string>,
    subSubCategory: Option<string>, distributor: Option<string>, image: Option<string>,
    description: Option<string>, brief: Option<string>,
    colors: Option<J>, sizes: Option<J>, colorVariants: Option<J>, gallery: Option<J>,
    additionalInfo: Option<J>)

  /** `JSON.stringify` of a field: undefined stays undefined. */
  function Stringified<J>(v: Option<J>, stringify: J -> string): Param {
    if v.Some? then Some(stringify(v.value)) else None
  }

  /** The value the body supplies for a column. */
  function FieldParam<J>(b: PostBody<J>, column: string, stringify: J -> string): Param {
    match column
    case "name" => b.name
    case "category" => b.category
    case "subCategory" => b.subCategory
    case "subSubCategory" => b.subSubCategory
    case "distributor" => b.distributor
    case "image" => b.image
    case "description" => b.description
    case "brief" => b.brief
    case "colors" => Stringified(b.colors, stringify)
    case "sizes" => Stringified(b.sizes, stringify)
    case "colorVariants" => Stringified(b.colorVariants, stringify)
    case "gallery" => Stringified(b.gallery, stringify)
    case "additionalInfo" => Stringified(b.additionalInfo, stringify)
    case _ => None
  }

  /** The parameter array of the INSERT: one value per placeholder, each
      the body's value for the column in that position, the five
      structured fields JSON-encoded. */
  function BindParams<J>(b: PostBody<J>, stringify: J -> string): (r: seq<Param>)
    ensures |r| == |Columns|
    ensures forall i :: 0 <= i < |Columns| ==> r[i] == FieldParam(b, Columns[i], stringify)
  {
    [b.name, b.category, b.subCategory, b.subSubCategory, b.distributor, b.image,
     b.description, b.brief, Stringified(b.colors, stringify), Stringified(b.sizes, stringify),
     Stringified(b.colorVariants, stringify), Stringified(b.gallery, stringify),
     Stringified(b.additionalInfo, stringify)]
  }

  /** The VALUES list of the INSERT has exactly one placeholder per bound
      parameter, as its column list has one name per parameter. */
  lemma PlaceholderCount<J>(b: PostBody<J>, stringify: J -> string)
    ensures CountChar(Placeholders, '?') == |BindParams(b, stringify)| == |Columns| == 13
  {
    PlaceholderListCount(13);
  }

  /** What the POST answers. */
  datatype PostOutcome = Added(productId: int) | PostFailed(error: string)

  /** The `insertId` taken from `[resObj] = result`: the OK packet's id when
      truthy, otherwise 0. A rejected query is the 500 answer. */
  function PostAnswer(q: Result<Response, string>): (r: PostOutcome)
    ensures q.Err? <==> r == PostFailed("Error inserting product")
    ensures q.Ok? && q.value.result.OkPacket? ==> r == Added(q.value.result.insertId)
    ensures q.Ok? && q.value.result.RowList? ==> r == Added(0)
  {
    match q
    case Err(_) => PostFailed("Error inserting product")
    case Ok(resp) =>
      match resp.result
      case OkPacket(_, id) => Added(id)  // a falsy id of 0 falls back to 0, the same value
      case RowList(_) => Added(0)
  }

  /** With the fallback database every added product reports id 0. */
  lemma FallbackInsertIdZero(sql: Option<string>)
    ensures PostAnswer(Ok(FallbackQuery(sql))) == Added(0)
  {
  }

  /** POST /api/products. */
  method PostProduct<J>(db: DbWrapper, body: PostBody<J>, stringify: J -> string) returns (r: PostOutcome)
    requires db.Valid()
    ensures db.isFallback ==> r == Added(0)
    ensures !db.isFallback ==> r == PostAnswer(db.pool.value(Some(InsertSql), BindParams(body, stringify)))
  {
    var q := db.Query(Some(InsertSql), BindParams(body, stringify));
    FallbackInsertIdZero(Some(InsertSql));
    r := PostAnswer(q);
  }

  /** How requiring the catalogue data file at startup ended. */
  datatype FallbackLoad = Required(exports: seq<Product>, defaultExport: Option<seq<Product>>) | RequireFailed

  /** `productsFallback`: the module's default export when it has one,
      otherwise the module itself, and [] when it could not be loaded. */
  function FallbackDataset(load: FallbackLoad): (r: seq<Product>)
    ensures load.RequireFailed? ==> r == []
    ensures load.Required? && load.defaultExport.Some? ==> r == load.defaultExport.value
    ensures load.Required? && load.defaultExport.None? ==> r == load.exports
  {
    match load
    case RequireFailed => []
    case Required(e, d) => if d.Some? then d.value else e
  }

  /** What GET /api/products sends. */
  datatype ListOutcome = Listed(items: seq<Product>) | DbAnswer(value: ResultValue) | ListFailed(error: string)

  /** GET /api/products: the mock data when USE_MOCK is "1"; the database's
      rows when it is connected; otherwise the fallback data set, or the
      mock data when that is empty. */
  method ListProducts(db: DbWrapper, useMock: Option<string>, fallback: seq<Product>, mock: seq<Product>) returns (r: ListOutcome)
    requires db.Valid()
    ensures useMock == Some("1") ==> r == Listed(mock)
    ensures useMock != Some("1") && !db.isFallback ==>
      r == match db.pool.value(Some("SELECT * FROM products"), [])
           case Ok(resp) => DbAnswer(resp.result)
           case Err(_) => ListFailed("Error fetching products")
    ensures useMock != Some("1") && db.isFallback ==> r == Listed(if |fallback| == 0 then mock else fallback)
  {
    if useMock == Some("1") {
      return Listed(mock);
    }
    if !db.Connected() {
      if |fallback| == 0 {
        return Listed(mock);
      }
      return Listed(fallback);
    }
    var q := db.Query(Some("SELECT * FROM products"), []);
    match q
    case Ok(resp) => r := DbAnswer(resp.result);
    case Err(_) => r := ListFailed("Error fetching products");
  }

  /** GET /api/health. */
  method Health(db: DbWrapper) returns (ok: bool, dbConnected: bool)
    ensures ok && (dbConnected <==> !db.isFallback)
  {
    ok := true;
    dbConnected := db.Connected();
  }
}
