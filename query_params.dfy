/** URL query parameters (URLSearchParams) as an ordered list of pairs. */
module QueryParams {
  import opened Wrappers

  datatype QueryParam = QueryParam(name: string, value: string)

  function NameOf(p: QueryParam): string { p.name }

  /** URLSearchParams.has. */
  predicate Has(q: seq<QueryParam>, name: string) {
    exists i :: 0 <= i < |q| && q[i].name == name
  }

  function HasIn(q: seq<QueryParam>): string -> bool {
    (n: string) => Has(q, n)
  }

  /** URLSearchParams.get: the first value given for `name`. */
  function FirstValue(q: seq<QueryParam>, name: string): (r: Option<string>)
    ensures r.Some? <==> Has(q, name)
    ensures r.Some? ==> exists i :: 0 <= i < |q| && q[i] == QueryParam(name, r.value)
  {
    if |q| == 0 then None
    else if q[0].name == name then Some(q[0].value)
    else
      var r := FirstValue(q[1..], name);
      assert forall i :: 0 < i < |q| ==> q[i] == q[1..][i - 1];
      assert Has(q, name) ==> Has(q[1..], name);
      r
  }

  /** Appending a pair adds its name and no other. */
  lemma HasSnoc(q: seq<QueryParam>, p: QueryParam)
    ensures forall n :: Has(q + [p], n) <==> Has(q, n) || n == p.name
  {
    forall n ensures Has(q + [p], n) <==> Has(q, n) || n == p.name {
      if Has(q + [p], n) && n != p.name {
        var i :| 0 <= i < |q + [p]| && (q + [p])[i].name == n;
        assert i < |q| && q[i].name == n;
      }
      if Has(q, n) {
        var i :| 0 <= i < |q| && q[i].name == n;
        assert (q + [p])[i].name == n;
      }
      assert (q + [p])[|q|].name == p.name;
    }
  }

  /** The `params.get(name) || ""` idiom: the first value, or "" when the
      parameter is absent. */
  function ParamOrEmpty(q: seq<QueryParam>, name: string): (r: string)
    ensures Has(q, name) ==> Some(r) == FirstValue(q, name)
    ensures !Has(q, name) ==> r == ""
  {
    match FirstValue(q, name)
    case Some(v) => v
    case None => ""
  }

  /** One `params.append(name, value)` when `value` is non-empty. */
  function AppendIfSet(q: seq<QueryParam>, name: string, value: string): (r: seq<QueryParam>)
    ensures value == "" ==> r == q
    ensures value != "" ==> r == q + [QueryParam(name, value)]
  {
    if value != "" then q + [QueryParam(name, value)] else q
  }

  /** What an append does to the lookup of `n`: the appended name reads
      the new value, unless it was already set. */
  lemma AppendRead(q: seq<QueryParam>, name: string, value: string, n: string)
    ensures FirstValue(AppendIfSet(q, name, value), n) ==
      if n == name && !Has(q, name) && value != "" then Some(value) else FirstValue(q, n)
  {
    if value != "" {
      FirstValueAppend(q, QueryParam(name, value));
    }
  }

  /** Appending a pair changes only the lookup of its own name, and that
      only when the name was absent. */
  lemma {:induction false} FirstValueAppend(q: seq<QueryParam>, p: QueryParam)
    ensures forall n :: n != p.name ==> FirstValue(q + [p], n) == FirstValue(q, n)
    ensures FirstValue(q + [p], p.name) == if Has(q, p.name) then FirstValue(q, p.name) else Some(p.value)
  {
    if |q| > 0 {
      assert (q + [p])[1..] == q[1..] + [p];
      FirstValueAppend(q[1..], p);
    }
  }
}
