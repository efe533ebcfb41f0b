/** Input validators and attack detectors of the security utilities, and
    the sliding-window rate limiter. Regular expressions are written out as
    the predicates on positions that their matches satisfy. */
module Security {
  import opened Wrappers
  import opened Seqs
  import opened Text

  // ---------------------------------------------------------------------
  // validateEmail: /^[^\s@]+@[^\s@]+\.[^\s@]+$/

  /** `[^\s@]+`. */
  predicate EmailPart(s: string) {
    |s| > 0 && forall i :: 0 <= i < |s| ==> !IsWhitespace(s[i]) && s[i] != '@'
  }

  /** A match of the email pattern: the whole string is A@B.C with three
      non-empty parts free of white space and `@`. */
  predicate EmailPattern(s: string) {
    exists i, j :: 0 < i && i + 1 < j && j + 1 < |s| && s[i] == '@' && s[j] == '.'
      && EmailPart(s[..i]) && EmailPart(s[i + 1..j]) && EmailPart(s[j + 1..])
  }

  predicate NoWhitespace(s: string) {
    forall i :: 0 <= i < |s| ==> !IsWhitespace(s[i])
  }

  /** A `.` with text on both sides. */
  predicate DotInside(d: string) {
    exists k :: 0 < k < |d| - 1 && d[k] == '.'
  }

  /** The address read plainly: no white space, exactly one `@` with text
      before it, and a `.` in the domain with text on both sides. */
  predicate EmailShape(s: string) {
    NoWhitespace(s) && exists i :: 0 < i < |s| && s[i] == '@' && '@' !in s[..i] && '@' !in s[i + 1..] && DotInside(s[i + 1..])
  }

  function ValidateEmail(email: string): (ok: bool)
    ensures ok <==> EmailShape(email)
  {
    EmailIff(email);
    EmailPattern(email)
  }

  lemma EmailIff(s: string)
    ensures EmailPattern(s) <==> EmailShape(s)
  {
    if EmailPattern(s) {
      var i, j :| 0 < i && i + 1 < j && j + 1 < |s| && s[i] == '@' && s[j] == '.'
        && EmailPart(s[..i]) && EmailPart(s[i + 1..j]) && EmailPart(s[j + 1..]);
      PatternToShape(s, i, j);
    }
    if EmailShape(s) {
      var i :| 0 < i < |s| && s[i] == '@' && '@' !in s[..i] && '@' !in s[i + 1..] && DotInside(s[i + 1..]);
      var k :| 0 < k < |s[i + 1..]| - 1 && s[i + 1..][k] == '.';
      ShapeToPattern(s, i, k);
    }
  }

  lemma PatternToShape(s: string, i: int, j: int)
    requires 0 < i && i + 1 < j && j + 1 < |s| && s[i] == '@' && s[j] == '.'
    requires EmailPart(s[..i]) && EmailPart(s[i + 1..j]) && EmailPart(s[j + 1..])
    ensures EmailShape(s)
  {
    forall x | 0 <= x < |s| ensures !IsWhitespace(s[x]) && (x != i ==> s[x] != '@') {
      if x < i { assert s[x] == s[..i][x]; }
      else if i < x < j { assert s[x] == s[i + 1..j][x - i - 1]; }
      else if j < x { assert s[x] == s[j + 1..][x - j - 1]; }
    }
    assert '@' !in s[..i];
    assert '@' !in s[i + 1..];
    assert s[i + 1..][j - i - 1] == '.';
  }

  lemma ShapeToPattern(s: string, i: int, k: int)
    requires NoWhitespace(s) && 0 < i < |s| && s[i] == '@' && '@' !in s[..i] && '@' !in s[i + 1..]
    requires 0 < k < |s[i + 1..]| - 1 && s[i + 1..][k] == '.'
    ensures EmailPattern(s)
  {
    var j := i + 1 + k;
    forall x | 0 <= x < i ensures !IsWhitespace(s[..i][x]) && s[..i][x] != '@' {
      assert s[..i][x] == s[x];
    }
    var mid, top := s[i + 1..j], s[j + 1..];
    forall x | 0 <= x < |mid| ensures !IsWhitespace(mid[x]) && mid[x] != '@' {
      assert mid[x] == s[i + 1..][x] == s[i + 1 + x];
    }
    forall x | 0 <= x < |top| ensures !IsWhitespace(top[x]) && top[x] != '@' {
      assert top[x] == s[i + 1..][k + 1 + x] == s[j + 1 + x];
    }
    assert EmailPart(s[..i]) && EmailPart(mid) && EmailPart(top);
  }

  // ---------------------------------------------------------------------
  // validatePhone: /^[\d\s-+()]+$/ and at least ten characters

  /** The class `[\d\s-+()]`: a `-` next to a class escape is literal. */
  predicate PhoneChar(c: char) {
    IsDigit(c) || IsWhitespace(c) || c == '-' || c == '+' || c == '(' || c == ')'
  }

  /** A match of `^[\d\s-+()]+$`. */
  predicate PhonePattern(s: string) {
    |s| > 0 && forall i :: 0 <= i < |s| ==> PhoneChar(s[i])
  }

  function ValidatePhone(phone: string): (ok: bool)
    ensures ok <==> |phone| >= 10 && forall i :: 0 <= i < |phone| ==> PhoneChar(phone[i])
  {
    PhonePattern(phone) && |phone| >= 10
  }

  /** Ten dashes pass: the check constrains the characters, not that any
      of them is a digit. */
  lemma PhoneNeedsNoDigit()
    ensures ValidatePhone("----------")
  {
    var s := "----------";
    assert forall i :: 0 <= i < |s| ==> s[i] == '-';
  }

  // ---------------------------------------------------------------------
  // Case-insensitive matching (the `i` flag without `u`: only ASCII letters
  // fold, since no other character folds onto an ASCII one)

  function AsciiUpper(c: char): char {
    if 'a' <= c <= 'z' then (c as int - 32) as char else c
  }

  /** Upper-casing for the `i` flag: no ASCII lower-case letter remains,
      each one becomes its capital, and every other character is kept. */
  function AsciiUpperString(s: string): (r: string)
    ensures |r| == |s|
    ensures forall i :: 0 <= i < |r| ==> !('a' <= r[i] <= 'z')
    ensures forall i :: 0 <= i < |s| && 'a' <= s[i] <= 'z' ==> r[i] as int == s[i] as int - 32
    ensures forall i :: 0 <= i < |s| && !('a' <= s[i] <= 'z') ==> r[i] == s[i]
  {
    seq(|s|, i requires 0 <= i < |s| => AsciiUpper(s[i]))
  }

  /** Upper-casing twice is upper-casing once. */
  lemma AsciiUpperIdempotent(s: string)
    ensures AsciiUpperString(AsciiUpperString(s)) == AsciiUpperString(s)
  {
  }

  /** `pat`, written in upper case, matches `s` at `i` ignoring case. */
  predicate MatchesAt(s: string, pat: string, i: int) {
    0 <= i && i + |pat| <= |s| && forall k :: 0 <= k < |pat| ==> AsciiUpper(s[i + k]) == pat[k]
  }

  lemma MatchesAtUpper(s: string, pat: string, i: int)
    ensures MatchesAt(s, pat, i) <==> MatchesAt(AsciiUpperString(s), pat, i)
  {
  }

  // ---------------------------------------------------------------------
  // detectSQLInjection

  /** What the detector receives: a string, or any other JavaScript value. */
  datatype JsInput = Str(s: string) | NonString

  const SqlKeywords: seq<string> := [
    "UNION", "SELECT", "INSERT", "UPDATE", "DELETE", "DROP", "CREATE", "ALTER",
    "EXEC", "EXECUTE", "SCRIPT", "JAVASCRIPT", "ONCLICK"
  ]

  const SqlPunctuation: seq<string> := ["--", ";", "/*", "*/", "XP_", "SP_"]

  /** `\bKEYWORD\b`: the keyword, ignoring case, with no word character
      directly before or after it. */
  predicate KeywordAt(s: string, kw: string, i: int) {
    MatchesAt(s, kw, i) && (i == 0 || !IsWordChar(s[i - 1])) && (i + |kw| == |s| || !IsWordChar(s[i + |kw|]))
  }

  predicate SqlKeywordMatch(s: string) {
    exists k, i :: 0 <= k < |SqlKeywords| && 0 <= i <= |s| && KeywordAt(s, SqlKeywords[k], i)
  }

  predicate SqlPunctuationMatch(s: string) {
    exists k, i :: 0 <= k < |SqlPunctuation| && 0 <= i <= |s| && MatchesAt(s, SqlPunctuation[k], i)
  }

  /** `detectSQLInjection`: false for anything but a string; for a string,
      whether either pattern matches somewhere. */
  function DetectSqlInjection(input: JsInput): (r: bool)
    ensures input.NonString? ==> !r
    ensures input.Str? ==> (r <==> SqlKeywordMatch(input.s) || SqlPunctuationMatch(input.s))
  {
    match input
    case NonString => false
    case Str(s) => SqlKeywordMatch(s) || SqlPunctuationMatch(s)
  }

  /** Any comment marker, statement separator or extended-procedure prefix
      is flagged, whatever its case and wherever it stands. */
  lemma PunctuationDetected(s: string, k: nat, i: int)
    requires k < |SqlPunctuation| && MatchesAt(s, SqlPunctuation[k], i)
    ensures DetectSqlInjection(Str(s))
  {
  }

  lemma WordCharUpper(c: char)
    ensures IsWordChar(AsciiUpper(c)) <==> IsWordChar(c)
  {
  }

  lemma KeywordAtUpper(s: string, kw: string, i: int)
    ensures KeywordAt(s, kw, i) <==> KeywordAt(AsciiUpperString(s), kw, i)
  {
    MatchesAtUpper(s, kw, i);
    if 0 < i <= |s| { WordCharUpper(s[i - 1]); }
    if 0 <= i + |kw| < |s| { WordCharUpper(s[i + |kw|]); }
  }

  /** The detector ignores letter case. */
  lemma SqlDetectionIgnoresCase(s: string)
    ensures DetectSqlInjection(Str(s)) == DetectSqlInjection(Str(AsciiUpperString(s)))
  {
    var u := AsciiUpperString(s);
    forall k, i | 0 <= k < |SqlKeywords|
      ensures KeywordAt(s, SqlKeywords[k], i) <==> KeywordAt(u, SqlKeywords[k], i)
    {
      KeywordAtUpper(s, SqlKeywords[k], i);
    }
    forall k, i | 0 <= k < |SqlPunctuation|
      ensures MatchesAt(s, SqlPunctuation[k], i) <==> MatchesAt(u, SqlPunctuation[k], i)
    {
      MatchesAtUpper(s, SqlPunctuation[k], i);
    }
  }

  // ---------------------------------------------------------------------
  // detectXSSAttempt

  /** `<script[^>]*>[\s\S]*?<\/script>`. */
  predicate ScriptBlock(s: string) {
    exists i, k, m :: 0 <= i < |s| && i + 7 <= k < m < |s| && MatchesAt(s, "<SCRIPT", i) && s[k] == '>'
      && (forall x :: i + 7 <= x < k ==> s[x] != '>') && MatchesAt(s, "</SCRIPT>", m)
  }

  /** `on\w+\s*=` matched at `i`, the word running to `j` and the blanks
      to the `=` at `k`. */
  predicate HandlerAt(s: string, i: int, j: int, k: int) {
    0 <= i && i + 2 < j <= k < |s| && MatchesAt(s, "ON", i) && s[k] == '='
    && (forall x :: i + 2 <= x < j ==> IsWordChar(s[x])) && (forall x :: j <= x < k ==> IsWhitespace(s[x]))
  }

  predicate EventHandler(s: string) {
    exists i, j, k :: 0 <= i < |s| && 0 <= j < |s| && 0 <= k < |s| && HandlerAt(s, i, j, k)
  }

  /** `<img[^>]*onerror`. */
  predicate ImageOnError(s: string) {
    exists i, m :: 0 <= i < |s| && i + 4 <= m <= |s| && MatchesAt(s, "<IMG", i) && MatchesAt(s, "ONERROR", m)
      && forall x :: i + 4 <= x < m ==> s[x] != '>'
  }

  predicate Occurs(s: string, pat: string) {
    exists i :: 0 <= i <= |s| && MatchesAt(s, pat, i)
  }

  /** `detectXSSAttempt`: whether any of the seven patterns matches. */
  function DetectXssAttempt(input: string): (r: bool)
    ensures Occurs(input, "JAVASCRIPT:") ==> r
    ensures Occurs(input, "<IFRAME") || Occurs(input, "<OBJECT") || Occurs(input, "<EMBED") ==> r
    ensures !r ==> !ScriptBlock(input) && !EventHandler(input) && !ImageOnError(input)
    ensures r ==> (ScriptBlock(input) || Occurs(input, "JAVASCRIPT:") || EventHandler(input)
                   || Occurs(input, "<IFRAME") || Occurs(input, "<OBJECT") || Occurs(input, "<EMBED")
                   || ImageOnError(input))
  {
    ScriptBlock(input) || Occurs(input, "JAVASCRIPT:") || EventHandler(input) || Occurs(input, "<IFRAME")
      || Occurs(input, "<OBJECT") || Occurs(input, "<EMBED") || ImageOnError(input)
  }

  lemma WhitespaceUpper(c: char)
    ensures IsWhitespace(AsciiUpper(c)) <==> IsWhitespace(c)
  {
  }

  lemma OccursUpper(s: string, pat: string)
    ensures Occurs(s, pat) <==> Occurs(AsciiUpperString(s), pat)
  {
    forall i ensures MatchesAt(s, pat, i) <==> MatchesAt(AsciiUpperString(s), pat, i) {
      MatchesAtUpper(s, pat, i);
    }
  }

  lemma ScriptBlockUpper(s: string)
    ensures ScriptBlock(s) <==> ScriptBlock(AsciiUpperString(s))
  {
    var u := AsciiUpperString(s);
    forall i, m ensures (MatchesAt(s, "<SCRIPT", i) <==> MatchesAt(u, "<SCRIPT", i)) && (MatchesAt(s, "</SCRIPT>", m) <==> MatchesAt(u, "</SCRIPT>", m)) {
      MatchesAtUpper(s, "<SCRIPT", i);
      MatchesAtUpper(s, "</SCRIPT>", m);
    }
    assert forall x :: 0 <= x < |s| ==> (s[x] == '>' <==> u[x] == '>');
  }

  lemma HandlerAtUpper(s: string, i: int, j: int, k: int)
    ensures HandlerAt(s, i, j, k) <==> HandlerAt(AsciiUpperString(s), i, j, k)
  {
    var u := AsciiUpperString(s);
    MatchesAtUpper(s, "ON", i);
    forall x | 0 <= x < |s| ensures (IsWordChar(s[x]) <==> IsWordChar(u[x])) && (IsWhitespace(s[x]) <==> IsWhitespace(u[x])) {
      WordCharUpper(s[x]);
      WhitespaceUpper(s[x]);
    }
  }

  lemma EventHandlerUpper(s: string)
    ensures EventHandler(s) <==> EventHandler(AsciiUpperString(s))
  {
    forall i, j, k ensures HandlerAt(s, i, j, k) <==> HandlerAt(AsciiUpperString(s), i, j, k) {
      HandlerAtUpper(s, i, j, k);
    }
  }

  lemma ImageOnErrorUpper(s: string)
    ensures ImageOnError(s) <==> ImageOnError(AsciiUpperString(s))
  {
    var u := AsciiUpperString(s);
    forall i, m ensures (MatchesAt(s, "<IMG", i) <==> MatchesAt(u, "<IMG", i)) && (MatchesAt(s, "ONERROR", m) <==> MatchesAt(u, "ONERROR", m)) {
      MatchesAtUpper(s, "<IMG", i);
      MatchesAtUpper(s, "ONERROR", m);
    }
    assert forall x :: 0 <= x < |s| ==> (s[x] == '>' <==> u[x] == '>');
  }

  /** The detector ignores letter case. */
  lemma XssDetectionIgnoresCase(s: string)
    ensures DetectXssAttempt(s) == DetectXssAttempt(AsciiUpperString(s))
  {
    ScriptBlockUpper(s);
    EventHandlerUpper(s);
    ImageOnErrorUpper(s);
    OccursUpper(s, "JAVASCRIPT:");
    OccursUpper(s, "<IFRAME");
    OccursUpper(s, "<OBJECT");
    OccursUpper(s, "<EMBED");
  }

  // ---------------------------------------------------------------------
  // createRateLimiter

  function InWindow(now: int, windowMs: int): int -> bool {
    t => now - t < windowMs
  }

  /** The attempts of a record that still count at `now`. */
  function Recent(record: seq<int>, now: int, windowMs: int): (r: seq<int>)
    ensures |r| <= |record|
    ensures forall t :: t in r <==> t in record && now - t < windowMs
  {
    Filter(record, InWindow(now, windowMs))
  }

  /** Filtering an already filtered record changes nothing. */
  lemma RecentIdempotent(record: seq<int>, now: int, windowMs: int)
    ensures Recent(Recent(record, now, windowMs), now, windowMs) == Recent(record, now, windowMs)
  {
    var r := Recent(record, now, windowMs);
    FilterAll(r, InWindow(now, windowMs));
  }

  /** A record stored at `now` counts one more attempt at `now` than the
      record it replaced, provided the window is not empty. */
  lemma RecordedOneMore(record: seq<int>, now: int, windowMs: int)
    requires windowMs > 0
    ensures |Recent(Recent(record, now, windowMs) + [now], now, windowMs)| == |Recent(record, now, windowMs)| + 1
  {
    var r := Recent(record, now, windowMs);
    FilterAppend(r, now, InWindow(now, windowMs));
    RecentIdempotent(record, now, windowMs);
  }

  class RateLimiter {
    const maxAttempts: int
    const windowMs: int
    /** The `attempts` Map: identifier to recorded timestamps. */
    var attempts: map<string, seq<int>>

    /** No record ever holds more than `maxAttempts` timestamps. */
    predicate Valid()
      reads this
    {
      forall id :: id in attempts ==> |attempts[id]| <= maxAttempts
    }

    /** `createRateLimiter(maxAttempts = 5, windowMs = 900000)`. */
    constructor(maxAttemptsArg: Option<int>, windowMsArg: Option<int>)
      ensures Valid() && attempts == map[]
      ensures maxAttempts == (if maxAttemptsArg.Some? then maxAttemptsArg.value else 5)
      ensures windowMs == (if windowMsArg.Some? then windowMsArg.value else 900000)
    {
      maxAttempts := if maxAttemptsArg.Some? then maxAttemptsArg.value else 5;
      windowMs := if windowMsArg.Some? then windowMsArg.value else 900000;
      attempts := map[];
    }

    function Record(id: string): seq<int>
      reads this
    {
      if id in attempts then attempts[id] else []
    }

    /** `getAttempts`: the attempts still in the window; changes nothing. */
    function GetAttempts(id: string, now: int): (n: nat)
      reads this
      ensures n <= |Record(id)|
      ensures Valid() ==> n <= maxAttempts || (maxAttempts < 0 && n == 0)
    {
      |Recent(Record(id), now, windowMs)|
    }

    /** `isLimited`: limited when the window already holds `maxAttempts`
        attempts, and then nothing is recorded; otherwise the attempt is
        recorded, over the record pruned to the window. Other identifiers'
        records are untouched. */
    method IsLimited(id: string, now: int) returns (limited: bool)
      requires Valid()
      modifies this
      ensures Valid()
      ensures limited <==> |Recent(old(Record(id)), now, windowMs)| >= maxAttempts
      ensures limited ==> attempts == old(attempts)
      ensures !limited ==> attempts == old(attempts)[id := Recent(old(Record(id)), now, windowMs) + [now]]
      ensures !limited && windowMs > 0 ==> GetAttempts(id, now) == old(GetAttempts(id, now)) + 1
    {
      var recent := Recent(Record(id), now, windowMs);
      if |recent| >= maxAttempts {
        return true;
      }
      if windowMs > 0 {
        RecordedOneMore(Record(id), now, windowMs);
      }
      attempts := attempts[id := recent + [now]];
      return false;
    }

    /** `reset`: forgets the identifier's record. */
    method Reset(id: string)
      requires Valid()
      modifies this
      ensures Valid()
      ensures attempts == old(attempts) - {id}
      ensures forall now :: GetAttempts(id, now) == 0
    {
      attempts := attempts - {id};
    }
  }
}
