/** Front-end performance helpers: the responsive srcset builder, the
    source list for a <picture> element, the throttle guard, the freshness
    rule of the request cache and the low-end device decision that picks
    an image quality. */
module Performance {
  import opened Wrappers
  import opened Seqs
  import opened Text

  // ---------------------------------------------------------------------
  // String helpers
  // ---------------------------------------------------------------------

  /** String.prototype.replace with a string pattern: the first occurrence
      only. */
  function ReplaceFirst(s: string, pat: string, rep: string): (r: string)
    ensures (forall j :: !OccursAt(s, pat, j)) ==> r == s
    ensures forall k :: OccursAt(s, pat, k) && (forall j :: 0 <= j < k ==> !OccursAt(s, pat, j)) ==>
      r == s[..k] + rep + s[k + |pat|..]
    ensures (exists j :: OccursAt(s, pat, j)) ==> |r| == |s| - |pat| + |rep|
  {
    match IndexOf(s, pat)
    case Some(k) => s[..k] + rep + s[k + |pat|..]
    case None => s
  }

  predicate AllWordChars(s: string) {
    forall i :: 0 <= i < |s| ==> IsWordChar(s[i])
  }

  /** The match of /\.\w+$/: a '.' followed by one or more word characters
      up to the end. Since '.' is not a word character, the only candidate
      is the last '.'. */
  function TrailingExt(s: string): (r: Option<string>)
    ensures r.Some? ==> |r.value| >= 2 && r.value[0] == '.' && AllWordChars(r.value[1..])
    ensures r.Some? ==> |r.value| <= |s| && s[|s| - |r.value|..] == r.value
    ensures r.None? ==> forall i :: 0 <= i < |s| - 1 && s[i] == '.' ==> !AllWordChars(s[i + 1..])
  {
    match LastIndexOfChar(s, '.')
    case None => None
    case Some(k) =>
      if k + 1 < |s| && AllWordChars(s[k + 1..]) then
        assert s[k..][1..] == s[k + 1..];
        Some(s[k..])
      else
        assert forall i :: 0 <= i < |s| - 1 && s[i] == '.' ==> !AllWordChars(s[i + 1..]) by {
          forall i | 0 <= i < |s| - 1 && s[i] == '.'
            ensures !AllWordChars(s[i + 1..])
          {
            if i < k {
              assert s[i + 1..][k - i - 1] == '.';
            }
          }
        }
        None
  }

  /** A path ending in '.' and a word has that word as its trailing
      extension. */
  lemma TrailingExtOfSimplePath(base: string, word: string)
    requires |word| > 0 && AllWordChars(word)
    ensures TrailingExt(base + "." + word) == Some("." + word)
  {
    var s := base + "." + word;
    assert s[|base|] == '.';
    assert s[|base| + 1..] == word;
    assert '.' !in s[|base| + 1..] by {
      assert forall i :: 0 <= i < |word| ==> word[i] != '.';
    }
    assert s[|base|..] == "." + word;
  }

  /** Replacing an occurrence that is the first one and sits at the end
      leaves only what comes before it. */
  lemma ReplaceFirstAtEnd(base: string, pat: string)
    requires forall j :: 0 <= j < |base| ==> !OccursAt(base + pat, pat, j)
    ensures ReplaceFirst(base + pat, pat, "") == base
  {
    var s := base + pat;
    assert OccursAt(s, pat, |base|) by {
      assert s[|base|..|base| + |pat|] == pat;
    }
    assert IndexOf(s, pat) == Some(|base|);
    assert s[..|base|] == base;
  }

  // ---------------------------------------------------------------------
  // Responsive images
  // ---------------------------------------------------------------------

  const DefaultSizes: seq<nat> := [320, 640, 1024, 1280]

  /** The extension used for the derived widths: the trailing one, or
      ".jpg" when there is none. */
  function ExtOf(src: string): (e: string)
    ensures TrailingExt(src).Some? ==> e == TrailingExt(src).value
    ensures TrailingExt(src).None? ==> e == ".jpg"
  {
    match TrailingExt(src)
    case Some(ext) => ext
    case None => ".jpg"
  }

  /** The base: the path with the first occurrence of the extension
      removed. A path whose extension occurs only at its end loses just
      that; a path with neither an extension nor ".jpg" is its own base. */
  function BaseOf(src: string): (r: string)
    ensures TrailingExt(src).Some? ==> |r| == |src| - |ExtOf(src)|
    ensures TrailingExt(src).Some? && (forall j :: 0 <= j < |src| - |ExtOf(src)| ==> !OccursAt(src, ExtOf(src), j)) ==>
      r == src[..|src| - |ExtOf(src)|]
    ensures (forall j :: !OccursAt(src, ExtOf(src), j)) ==> r == src
  {
    assert TrailingExt(src).Some? ==> OccursAt(src, ExtOf(src), |src| - |ExtOf(src)|);
    ReplaceFirst(src, ExtOf(src), "")
  }

  function SrcsetEntry(base: string, ext: string, size: nat): string {
    base + "-" + NatToString(size) + "w" + ext + " " + NatToString(size) + "w"
  }

  function SrcsetEntries(base: string, ext: string, sizes: seq<nat>): (r: seq<string>)
    ensures |r| == |sizes| && forall i :: 0 <= i < |sizes| ==> r[i] == SrcsetEntry(base, ext, sizes[i])
  {
    Map(sizes, (size: nat) => SrcsetEntry(base, ext, size))
  }

  datatype ResponsiveProps = ResponsiveProps(srcSet: string, sizes: string, src: string)

  const SizesAttribute := "(max-width: 640px) 100vw, (max-width: 1024px) 50vw, 33vw"

  /** getResponsiveImageProps: one srcset entry per width, joined by ", ",
      and the original path as `src`. */
  function ResponsiveImageProps(src: string, sizes: seq<nat>): (p: ResponsiveProps)
    ensures p.src == src && p.sizes == SizesAttribute
    ensures p.srcSet == Join(SrcsetEntries(BaseOf(src), ExtOf(src), sizes), ", ")
  {
    ResponsiveProps(Join(SrcsetEntries(BaseOf(src), ExtOf(src), sizes), ", "), SizesAttribute, src)
  }

  /** For `base.word` with no other '.', each width `n` becomes
      `base-nw.word nw`. */
  lemma ResponsiveOfSimplePath(base: string, word: string, sizes: seq<nat>)
    requires |word| > 0 && AllWordChars(word) && '.' !in base
    ensures ExtOf(base + "." + word) == "." + word
    ensures BaseOf(base + "." + word) == base
    ensures ResponsiveImageProps(base + "." + word, sizes).srcSet ==
      Join(SrcsetEntries(base, "." + word, sizes), ", ")
  {
    var path := base + "." + word;
    assert ExtOf(path) == "." + word by {
      TrailingExtOfSimplePath(base, word);
    }
    assert BaseOf(path) == base by {
      assert path == base + ("." + word);
      forall j | 0 <= j < |base|
        ensures !OccursAt(base + ("." + word), "." + word, j)
      {
        assert (base + ("." + word))[j] == base[j];
      }
      ReplaceFirstAtEnd(base, "." + word);
    }
  }

  lemma OccurrenceStart(s: string, pat: string, j: int)
    requires |pat| > 0 && OccursAt(s, pat, j)
    ensures s[j] == pat[0]
  {
    assert s[j..j + |pat|][0] == s[j];
  }

  /** A path without an extension keeps its name and gains "-nw.jpg". */
  lemma ResponsiveWithoutExtension(src: string, sizes: seq<nat>)
    requires '.' !in src
    ensures ExtOf(src) == ".jpg" && BaseOf(src) == src
    ensures ResponsiveImageProps(src, sizes).srcSet == Join(SrcsetEntries(src, ".jpg", sizes), ", ")
  {
    forall j | OccursAt(src, ".jpg", j) ensures false {
      OccurrenceStart(src, ".jpg", j);
    }
  }

  // ---------------------------------------------------------------------
  // <picture> sources
  // ---------------------------------------------------------------------

  datatype Formats = Formats(avif: Option<string>, webp: Option<string>, fallback: Option<string>)

  datatype Source = Source(mime: string, srcSet: string)

  datatype OptimizedSrc = OptimizedSrc(srcSet: string, src: Option<string>, sources: seq<Source>)

  /** The fallback's double-density name: "@2x" before its trailing
      extension. */
  function DoubleDensity(path: string): (r: string)
    ensures TrailingExt(path).None? ==> r == path
    ensures TrailingExt(path).Some? ==>
      var ext := TrailingExt(path).value;
      var n := |path| - |ext|;
      |r| == |path| + 3 && r[..n] == path[..n] && r[n..n + 3] == "@2x" && r[n + 3..] == ext
  {
    match TrailingExt(path)
    case Some(ext) => path[..|path| - |ext|] + "@2x" + ext
    case None => path
  }

  function DensityPair(one: string, two: string): string {
    one + " 1x, " + two + " 2x"
  }

  /** `x && item`, kept by `.filter(Boolean)` only when `x` is a non-empty
      string. */
  function IfGiven<T>(x: Option<string>, item: T): (r: seq<T>)
    ensures r == [] <==> !Truthy(x)
    ensures Truthy(x) ==> r == [item]
  {
    if Truthy(x) then [item] else []
  }

  function OrEmpty(o: Option<string>): string {
    if o.Some? then o.value else ""
  }

  /** The order of preference of the source types. */
  function Rank(mime: string): int {
    if mime == "image/avif" then 0 else if mime == "image/webp" then 1 else 2
  }

  /** The `sources` list: the supplied formats, best first. */
  function Sources(f: Formats): (r: seq<Source>)
    ensures Source("image/avif", OrEmpty(f.avif)) in r <==> Truthy(f.avif)
    ensures Source("image/webp", OrEmpty(f.webp)) in r <==> Truthy(f.webp)
    ensures Source("image/jpeg", OrEmpty(f.fallback)) in r <==> Truthy(f.fallback)
    ensures forall i, j :: 0 <= i < j < |r| ==> Rank(r[i].mime) < Rank(r[j].mime)
  {
    IfGiven(f.avif, Source("image/avif", OrEmpty(f.avif))) + IfGiven(f.webp, Source("image/webp", OrEmpty(f.webp)))
      + IfGiven(f.fallback, Source("image/jpeg", OrEmpty(f.fallback)))
  }

  /** The `srcSet` string: a 1x and a 2x candidate per supplied format. */
  function SrcSet(f: Formats): (r: string)
    ensures r == "" <==> !Truthy(f.avif) && !Truthy(f.webp) && !Truthy(f.fallback)
  {
    var a := OrEmpty(f.avif);
    var w := OrEmpty(f.webp);
    var b := OrEmpty(f.fallback);
    var pairs := IfGiven(f.avif, DensityPair(a, ReplaceFirst(a, ".avif", "@2x.avif")))
      + IfGiven(f.webp, DensityPair(w, ReplaceFirst(w, ".webp", "@2x.webp")))
      + IfGiven(f.fallback, DensityPair(b, DoubleDensity(b)));
    JoinEmpty(pairs);
    Join(pairs, ", ")
  }

  /** The 2x name of a source: "@2x" put before the first ".avif" or ".webp"
      of an AVIF or WebP name, or before the trailing extension of the
      fallback. */
  function DoubledName(src: Source): string {
    if src.mime == "image/avif" then ReplaceFirst(src.srcSet, ".avif", "@2x.avif")
    else if src.mime == "image/webp" then ReplaceFirst(src.srcSet, ".webp", "@2x.webp")
    else DoubleDensity(src.srcSet)
  }

  function CandidatePair(src: Source): string {
    DensityPair(src.srcSet, DoubledName(src))
  }

  /** The srcSet string holds one 1x/2x candidate pair for each entry of
      `sources`, in the same order (AVIF, WebP, fallback). */
  lemma SrcSetFollowsSources(f: Formats)
    ensures SrcSet(f) == Join(Map(Sources(f), CandidatePair), ", ")
  {
    var a := Source("image/avif", OrEmpty(f.avif));
    var w := Source("image/webp", OrEmpty(f.webp));
    var b := Source("image/jpeg", OrEmpty(f.fallback));
    CandidatesByFormat(a.srcSet, w.srcSet, b.srcSet);
    MapIfGiven(f.avif, a);
    MapIfGiven(f.webp, w);
    MapIfGiven(f.fallback, b);
    MapConcat(IfGiven(f.avif, a), IfGiven(f.webp, w), IfGiven(f.fallback, b));
  }

  lemma CandidatesByFormat(a: string, w: string, b: string)
    ensures CandidatePair(Source("image/avif", a)) == DensityPair(a, ReplaceFirst(a, ".avif", "@2x.avif"))
    ensures CandidatePair(Source("image/webp", w)) == DensityPair(w, ReplaceFirst(w, ".webp", "@2x.webp"))
    ensures CandidatePair(Source("image/jpeg", b)) == DensityPair(b, DoubleDensity(b))
  {
    assert "image/webp"[6] != "image/avif"[6];
    assert "image/jpeg"[6] != "image/avif"[6] && "image/jpeg"[6] != "image/webp"[6];
  }

  lemma MapIfGiven(x: Option<string>, src: Source)
    ensures Map(IfGiven(x, src), CandidatePair) == IfGiven(x, CandidatePair(src))
  {
  }

  lemma MapConcat(xs: seq<Source>, ys: seq<Source>, zs: seq<Source>)
    ensures Map(xs + ys + zs, CandidatePair) == Map(xs, CandidatePair) + Map(ys, CandidatePair) + Map(zs, CandidatePair)
  {
  }

  /** An AVIF or WebP name whose only '.' starts its extension doubles to
      `base@2x.avif` or `base@2x.webp`. */
  lemma DoubledSimpleName(base: string, ext: string)
    requires ext == ".avif" || ext == ".webp"
    requires '.' !in base
    ensures ReplaceFirst(base + ext, ext, "@2x" + ext) == base + "@2x" + ext
  {
    var s := base + ext;
    forall j | 0 <= j < |base| ensures !OccursAt(s, ext, j) {
      if OccursAt(s, ext, j) {
        OccurrenceStart(s, ext, j);
      }
    }
    assert OccursAt(s, ext, |base|) by {
      assert s[|base|..|base| + |ext|] == ext;
    }
    assert s[..|base|] == base && s[|base| + |ext|..] == [];
  }

  /** getOptimizedImageSrc. */
  function OptimizedImageSrc(f: Formats): (r: OptimizedSrc)
    ensures Truthy(f.fallback) ==> r.src == f.fallback
    ensures !Truthy(f.fallback) && Truthy(f.webp) ==> r.src == f.webp
    ensures !Truthy(f.fallback) && !Truthy(f.webp) ==> r.src == f.avif
    ensures r.sources == Sources(f) && r.srcSet == SrcSet(f)
  {
    var src := if Truthy(f.fallback) then f.fallback else if Truthy(f.webp) then f.webp else f.avif;
    OptimizedSrc(SrcSet(f), src, Sources(f))
  }

  /** A join is empty exactly when there is nothing to join, provided every
      part is non-empty. */
  lemma JoinEmpty(parts: seq<string>)
    requires forall i :: 0 <= i < |parts| ==> |parts[i]| > 0
    ensures Join(parts, ", ") == "" <==> |parts| == 0
  {
    if |parts| > 1 {
      assert |Join(parts, ", ")| >= |parts[0]|;
    }
  }

  /** All three formats: all three sources, best first; none: no source and
      no `src`. */
  lemma SourcesInPreferenceOrder(f: Formats)
    ensures |OptimizedImageSrc(f).sources| <= 3
    ensures Truthy(f.avif) && Truthy(f.webp) && Truthy(f.fallback) ==>
      (OptimizedImageSrc(f).sources ==
       [Source("image/avif", f.avif.value), Source("image/webp", f.webp.value), Source("image/jpeg", f.fallback.value)])
    ensures !Truthy(f.avif) && !Truthy(f.webp) && !Truthy(f.fallback) ==>
      OptimizedImageSrc(f).sources == [] && OptimizedImageSrc(f).src == f.avif
  {
  }

  /** A lone fallback `base.word` offers itself at 1x and `base@2x.word` at
      2x. */
  lemma FallbackOnlySrcSet(base: string, word: string)
    requires |word| > 0 && AllWordChars(word)
    ensures OptimizedImageSrc(Formats(None, None, Some(base + "." + word))).srcSet ==
      DensityPair(base + "." + word, base + "@2x." + word)
  {
    DoubleDensityOfSimplePath(base, word);
    SrcSetOfFallback(base + "." + word);
  }

  /** `base.word` doubles to `base@2x.word`. */
  lemma DoubleDensityOfSimplePath(base: string, word: string)
    requires |word| > 0 && AllWordChars(word)
    ensures DoubleDensity(base + "." + word) == base + "@2x." + word
  {
    var path := base + "." + word;
    TrailingExtOfSimplePath(base, word);
    assert path[..|path| - |"." + word|] == base;
    assert base + "@2x" + ("." + word) == base + "@2x." + word;
  }

  /** A lone fallback gives one candidate pair. */
  lemma SrcSetOfFallback(b: string)
    requires b != ""
    ensures SrcSet(Formats(None, None, Some(b))) == DensityPair(b, DoubleDensity(b))
  {
    var pairs: seq<string> := IfGiven(None, "") + IfGiven(None, "") + IfGiven(Some(b), DensityPair(b, DoubleDensity(b)));
    assert pairs == [DensityPair(b, DoubleDensity(b))];
  }

  // ---------------------------------------------------------------------
  // throttle
  // ---------------------------------------------------------------------

  /** The closure of a throttled handler. */
  class Throttle {
    const delay: int
    var lastCall: int
    /** The times at which the handler ran. */
    ghost var runs: seq<int>

    ghost predicate Valid()
      reads this
    {
      (|runs| == 0 ==> lastCall == 0) &&
      (|runs| > 0 ==> lastCall == runs[|runs| - 1] && runs[0] >= delay) &&
      forall i :: 0 < i < |runs| ==> runs[i] - runs[i - 1] >= delay
    }

    /** `throttle(func, delay)`, by default 100 ms. */
    constructor (delay: int)
      ensures this.delay == delay && lastCall == 0 && runs == []
      ensures Valid()
    {
      this.delay := delay;
      lastCall := 0;
      runs := [];
    }

    /** One call at time `now`: the handler runs iff at least `delay` has
        passed since the last run, and only then is the time recorded. */
    method Invoke(now: int) returns (ran: bool)
      requires Valid()
      modifies this
      ensures ran <==> now - old(lastCall) >= delay
      ensures lastCall == if ran then now else old(lastCall)
      ensures runs == if ran then old(runs) + [now] else old(runs)
      ensures Valid()
    {
      if now - lastCall >= delay {
        lastCall := now;
        runs := runs + [now];
        ran := true;
      } else {
        ran := false;
      }
    }
  }

  // ---------------------------------------------------------------------
  // fetchWithCache
  // ---------------------------------------------------------------------

  const DefaultMaxAge := 3600000

  /** `options.maxAge || 3600000`: an absent or zero age means an hour. */
  function MaxAge(option: Option<int>): (m: int)
    ensures option.Some? && option.value != 0 ==> m == option.value
    ensures option.None? || option.value == 0 ==> m == DefaultMaxAge
  {
    if option.Some? && option.value != 0 then option.value else DefaultMaxAge
  }

  function CacheKey(url: string): (k: string)
    ensures |k| == 12 + |url| && k[..12] == "fetch-cache-" && k[12..] == url
  {
    "fetch-cache-" + url
  }

  /** Distinct URLs use distinct storage entries. */
  lemma CacheKeyInjective(u: string, v: string)
    requires CacheKey(u) == CacheKey(v)
    ensures u == v
  {
    assert u == CacheKey(u)[12..];
  }

  datatype CacheEntry<D> = CacheEntry(data: D, timestamp: int)

  predicate Fresh<D>(e: CacheEntry<D>, now: int, maxAge: int) {
    now - e.timestamp < maxAge
  }

  /** The cache entries kept in local storage, by key. */
  class RequestCache<D> {
    var entries: map<string, CacheEntry<D>>

    constructor ()
      ensures entries == map[]
    {
      entries := map[];
    }

    /** A request at time `now`: a fresh entry is answered from the cache;
        otherwise the outcome of the fetch is used. `fetched` is `None` when
        `fetch` rejects or the body is not JSON: the promise then rejects
        (`None`) and nothing is stored. A response is returned and stored
        with the time `storedAt` read after the fetch. No other key
        changes. */
    method FetchWithCache(url: string, maxAge: Option<int>, now: int, fetched: Option<D>, storedAt: int)
      returns (data: Option<D>, fromCache: bool)
      modifies this
      ensures fromCache <==> CacheKey(url) in old(entries) && Fresh(old(entries)[CacheKey(url)], now, MaxAge(maxAge))
      ensures fromCache ==> data == Some(old(entries)[CacheKey(url)].data) && entries == old(entries)
      ensures !fromCache && fetched.Some? ==>
        data == fetched && entries == old(entries)[CacheKey(url) := CacheEntry(fetched.value, storedAt)]
      ensures !fromCache && fetched.None? ==> data.None? && entries == old(entries)
    {
      var key := CacheKey(url);
      if key in entries {
        var entry := entries[key];
        if now - entry.timestamp < MaxAge(maxAge) {
          return Some(entry.data), true;
        }
      }
      fromCache := false;
      data := fetched;
      if fetched.Some? {
        entries := entries[key := CacheEntry(fetched.value, storedAt)];
      }
    }
  }

  // ---------------------------------------------------------------------
  // Device class and image quality
  // ---------------------------------------------------------------------

  datatype Connection = Connection(effectiveType: string, saveData: bool)

  /** What the navigator object exposes: each signal may be missing. */
  datatype DeviceInfo = DeviceInfo(deviceMemory: Option<real>, connection: Option<Connection>)

  /** isLowEndDevice: the first signal available decides. The source's
      promise is this decision table, so the ensures give it case by case. */
  function IsLowEndDevice(d: DeviceInfo): (r: bool)
    ensures d.deviceMemory.Some? ==> (r <==> d.deviceMemory.value < 4.0)
    ensures d.deviceMemory.None? && d.connection.Some? ==>
      (r <==> d.connection.value.effectiveType == "4g" && d.connection.value.saveData)
    ensures d.deviceMemory.None? && d.connection.None? ==> !r
  {
    if d.deviceMemory.Some? then d.deviceMemory.value < 4.0
    else if d.connection.Some? then d.connection.value.effectiveType == "4g" && d.connection.value.saveData
    else false
  }

  /** The three quality factors 0.6, 0.75 and 0.9. */
  datatype QualityTier = LowQuality | MediumQuality | HighQuality

  datatype ImageFormat = Webp | Avif

  datatype ImageQuality = ImageQuality(tier: QualityTier, format: ImageFormat)

  /** getOptimalImageQuality: low-end first, then a 3G connection, else the
      best tier. As for isLowEndDevice, the table itself is the promise. */
  function OptimalImageQuality(d: DeviceInfo): (q: ImageQuality)
    ensures IsLowEndDevice(d) ==> q == ImageQuality(LowQuality, Webp)
    ensures !IsLowEndDevice(d) && d.connection.Some? && d.connection.value.effectiveType == "3g" ==>
      q == ImageQuality(MediumQuality, Webp)
    ensures !IsLowEndDevice(d) && (d.connection.None? || d.connection.value.effectiveType != "3g") ==>
      q == ImageQuality(HighQuality, Avif)
  {
    if IsLowEndDevice(d) then ImageQuality(LowQuality, Webp)
    else if d.connection.Some? && d.connection.value.effectiveType == "3g" then ImageQuality(MediumQuality, Webp)
    else ImageQuality(HighQuality, Avif)
  }

  /** AVIF is chosen exactly with the best tier. */
  lemma AvifOnlyAtBestTier(d: DeviceInfo)
    ensures OptimalImageQuality(d).format == Avif <==> OptimalImageQuality(d).tier == HighQuality
  {
  }

  /** A device that reports its memory ignores its connection for the
      low-end test: 4 GB or more with a 3G link gets the middle tier. */
  lemma MemoryDecidesFirst(mem: real, c: Connection)
    requires mem >= 4.0 && c.effectiveType == "3g"
    ensures OptimalImageQuality(DeviceInfo(Some(mem), Some(c))) == ImageQuality(MediumQuality, Webp)
  {
  }
}
