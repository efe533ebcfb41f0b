/** The backend's database wrapper: it starts as an in-memory fallback
    whose `query` classifies the statement and returns an empty result, and
    is upgraded once, after a successful connection check, to forward every
    query to a MySQL pool. */
module Db {
  import opened Wrappers
  import opened Text
  import opened Catalog

  /** A bound statement parameter; None is `undefined`/`null`. */
  type Param = Option<string>

  /** The first element of a `[result, fields]` pair: the rows of a read,
      or the OK packet of a write. */
  datatype ResultValue = RowList(rows: seq<Product>) | OkPacket(affectedRows: int, insertId: int)

  /** What `query` resolves to: `[result, fields]`. */
  datatype Response = Response(result: ResultValue, fields: seq<string>)

  /** The pool's own `query`, which the wrapper cannot see into: it
      resolves to a response or rejects with an error message. */
  type PoolQuery = (Option<string>, seq<Param>) -> Result<Response, string>

  datatype StatementKind = Read | Write | Other

  /** The statement as the fallback inspects it: `(sql || "")`, trimmed
      and upper-cased. */
  function Normalized(sql: Option<string>): string {
    Upper(Trim(if sql.Some? then sql.value else ""))
  }

  /** The fallback's classification: SELECT first, then INSERT, UPDATE or
      DELETE, each as a prefix of the normalised statement. */
  function Classify(sql: Option<string>): (k: StatementKind)
    ensures k == Read <==> StartsWith(Normalized(sql), "SELECT")
    ensures k == Write <==> (!StartsWith(Normalized(sql), "SELECT") &&
      (StartsWith(Normalized(sql), "INSERT") || StartsWith(Normalized(sql), "UPDATE") || StartsWith(Normalized(sql), "DELETE")))
  {
    var s := Normalized(sql);
    if StartsWith(s, "SELECT") then Read
    else if StartsWith(s, "INSERT") || StartsWith(s, "UPDATE") || StartsWith(s, "DELETE") then Write
    else Other
  }

  /** The fallback `query`: never fails; a write gets an OK packet with no
      affected rows and insert id 0, anything else an empty row list. */
  function FallbackQuery(sql: Option<string>): (r: Response)
    ensures r.fields == []
    ensures Classify(sql) == Write ==> r.result == OkPacket(0, 0)
    ensures Classify(sql) != Write ==> r.result == RowList([])
  {
    if Classify(sql) == Write then Response(OkPacket(0, 0), []) else Response(RowList([]), [])
  }

  /** Letter case of the statement does not change what the fallback
      answers. */
  lemma FallbackIgnoresCase(sql: string)
    ensures FallbackQuery(Some(sql)) == FallbackQuery(Some(Upper(sql)))
  {
    TrimUpper(sql);
    UpperIdempotent(Trim(sql));
  }

  lemma UpperIdempotent(s: string)
    ensures Upper(Upper(s)) == Upper(s)
  {
  }

  /** Upper-casing keeps white space and non-white space apart, so trimming
      and upper-casing commute. */
  lemma TrimUpper(s: string)
    ensures Trim(Upper(s)) == Upper(Trim(s))
  {
    TrimStartUpper(s);
    TrimEndUpper(TrimStart(s));
  }

  lemma WhitespaceUpperChar(c: char)
    ensures IsWhitespace(UpperChar(c)) <==> IsWhitespace(c)
  {
  }

  lemma UpperSlices(s: string, k: int)
    requires 0 <= k <= |s|
    ensures Upper(s)[k..] == Upper(s[k..]) && Upper(s)[..k] == Upper(s[..k])
  {
  }

  lemma {:induction false} TrimStartUpper(s: string)
    ensures TrimStart(Upper(s)) == Upper(TrimStart(s))
    decreases |s|
  {
    var u := Upper(s);
    if |s| > 0 {
      assert u[0] == UpperChar(s[0]);
      WhitespaceUpperChar(s[0]);
      if IsWhitespace(s[0]) {
        assert TrimStart(u) == TrimStart(u[1..]) && TrimStart(s) == TrimStart(s[1..]);
        UpperSlices(s, 1);
        TrimStartUpper(s[1..]);
      } else {
        assert TrimStart(u) == u && TrimStart(s) == s;
      }
    } else {
      assert u == s == [];
    }
  }

  lemma {:induction false} TrimEndUpper(s: string)
    ensures TrimEnd(Upper(s)) == Upper(TrimEnd(s))
    decreases |s|
  {
    var u := Upper(s);
    if |s| > 0 {
      assert u[|s| - 1] == UpperChar(s[|s| - 1]);
      WhitespaceUpperChar(s[|s| - 1]);
      if IsWhitespace(s[|s| - 1]) {
        assert TrimEnd(u) == TrimEnd(u[..|s| - 1]) && TrimEnd(s) == TrimEnd(s[..|s| - 1]);
        UpperSlices(s, |s| - 1);
        TrimEndUpper(s[..|s| - 1]);
      } else {
        assert TrimEnd(u) == u && TrimEnd(s) == s;
      }
    } else {
      assert u == s == [];
    }
  }

  /** The exported `db` object. */
  class DbWrapper {
    /** `__isFallback`. */
    var isFallback: bool
    /** The pool that the upgraded `query` forwards to. */
    var pool: Option<PoolQuery>

    predicate Valid()
      reads this
    {
      isFallback <==> pool.None?
    }

    constructor()
      ensures Valid() && isFallback
    {
      isFallback := true;
      pool := None;
    }

    /** `db.query(sql, params)`: the fallback classifier, or the pool's own
        answer once the wrapper is upgraded. */
    method Query(sql: Option<string>, params: seq<Param>) returns (r: Result<Response, string>)
      requires Valid()
      ensures isFallback ==> r == Ok(FallbackQuery(sql))
      ensures !isFallback ==> r == pool.value(sql, params)
    {
      if isFallback {
        r := Ok(FallbackQuery(sql));
      } else {
        r := pool.value(sql, params);
      }
    }

    /** `dbConnected` of the health endpoint and `dbIsReal` of the server:
        `db.__isFallback === false`. */
    function Connected(): (c: bool)
      reads this
      ensures c <==> !isFallback
    {
      !isFallback
    }

    /** The end of the background pool creation: only a connection check
        that succeeded upgrades the wrapper; a connection error or an
        exception leaves it as it was. */
    method FinishPoolCreation(outcome: PoolOutcome)
      requires Valid()
      modifies this
      ensures Valid()
      ensures outcome.Connected? ==> !isFallback && pool == Some(outcome.query)
      ensures !outcome.Connected? ==> isFallback == old(isFallback) && pool == old(pool)
      ensures old(!isFallback) ==> !isFallback
    {
      if outcome.Connected? {
        isFallback := false;
        pool := Some(outcome.query);
      }
    }
  }

  /** How the background pool creation ended. */
  datatype PoolOutcome = Connected(query: PoolQuery) | ConnectionError(message: string) | CreationThrew(message: string)
}
