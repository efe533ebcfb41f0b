/** The analytics helpers: the consent signals sent at start-up, the event
    wrapper that does nothing without the tag, the scroll-depth events
    sent once per threshold, the time-on-page report and the consent
    check. */
module Analytics {
  import opened Wrappers
  import opened Seqs
  import opened ConsentBanner

  datatype Value = Num(n: int) | Str(s: string)

  /** A call of the analytics tag. */
  datatype GaCall =
    | JsCall
    | ConfigCall(id: string, signals: seq<(string, Signal)>)
    | UpdateCall(signals: seq<(string, Signal)>)
    | EventCall(name: string, params: seq<(string, Value)>)

  // ---------------------------------------------------------------------
  // Start-up and consent
  // ---------------------------------------------------------------------

  const StorageKinds := ["analytics_storage", "ad_storage", "ad_user_data", "ad_personalization"]

  /** The signals for stored choices: analytics storage from the analytics
      choice, and all three advertising signals from the marketing choice. */
  function ConsentSignals(c: Choices): (u: seq<(string, Signal)>)
    ensures |u| == 4 && forall i :: 0 <= i < 4 ==> u[i].0 == StorageKinds[i]
    ensures u[0].1 == Granted <==> c.analytics
    ensures forall i :: 1 <= i < 4 ==> (u[i].1 == Granted <==> c.marketing)
  {
    [("analytics_storage", SignalOf(c.analytics)), ("ad_storage", SignalOf(c.marketing)),
     ("ad_user_data", SignalOf(c.marketing)), ("ad_personalization", SignalOf(c.marketing))]
  }

  /** Start-up sends the same analytics and ad storage signals as the
      banner's customize button for the same choices. */
  lemma StartupAgreesWithBanner(c: Choices)
    ensures ConsentSignals(c)[..2] == CustomUpdate(c)
  {
  }

  /** Accepting everything grants every storage kind at the next start. */
  lemma AcceptedGrantsAll()
    ensures forall i :: 0 <= i < 4 ==> ConsentSignals(AllAccepted)[i].1 == Granted
    ensures forall i :: 0 <= i < 4 ==> ConsentSignals(Rejected)[i].1 == Denied
  {
  }

  /** initGA4: nothing without a measurement id; otherwise the loader
      call, the configuration with every kind denied, and an update from
      the stored consent when there is one. */
  function InitCalls(measurementId: string, stored: Option<Choices>): (r: seq<GaCall>)
    ensures measurementId == "" ==> r == []
    ensures measurementId != "" ==>
      (|r| >= 2 && r[0] == JsCall && r[1] == ConfigCall(measurementId, Map(StorageKinds, (k: string) => (k, Denied))))
    ensures measurementId != "" && stored.None? ==> |r| == 2
    ensures measurementId != "" && stored.Some? ==> |r| == 3 && r[2] == UpdateCall(ConsentSignals(stored.value))
  {
    if measurementId == "" then []
    else
      var base := [JsCall, ConfigCall(measurementId, Map(StorageKinds, (k: string) => (k, Denied)))];
      if stored.Some? then base + [UpdateCall(ConsentSignals(stored.value))] else base
  }

  /** isAnalyticsEnabled: stored consent with analytics on. */
  function IsAnalyticsEnabled(stored: Option<Choices>): (r: bool)
    ensures stored.None? ==> !r
    ensures stored.Some? ==> (r <==> stored.value.analytics)
  {
    stored.Some? && stored.value.analytics
  }

  /** Analytics counts as enabled exactly when start-up grants analytics
      storage. */
  lemma EnabledIffGranted(id: string, stored: Option<Choices>)
    requires id != ""
    ensures IsAnalyticsEnabled(stored) <==>
      (|InitCalls(id, stored)| == 3 && InitCalls(id, stored)[2].UpdateCall? &&
       InitCalls(id, stored)[2].signals[0] == ("analytics_storage", Granted))
  {
  }

  /** trackEvent: nothing without the tag; otherwise the event with the
      time stamp appended to its data. */
  function TrackEvent(gtag: bool, name: string, data: seq<(string, Value)>, timestamp: string): (r: seq<GaCall>)
    ensures !gtag ==> r == []
    ensures gtag ==> r == [EventCall(name, WithKey(data, "timestamp", Str(timestamp)))]
  {
    if gtag then [EventCall(name, WithKey(data, "timestamp", Str(timestamp)))] else []
  }

  predicate HasKey(data: seq<(string, Value)>, key: string) {
    exists i :: 0 <= i < |data| && data[i].0 == key
  }

  /** The object literal `{...data, key: v}`: a key the data already has
      keeps its place and takes the new value, a new key comes last. */
  function WithKey(data: seq<(string, Value)>, key: string, v: Value): (r: seq<(string, Value)>)
    ensures !HasKey(data, key) ==> r == data + [(key, v)]
    ensures HasKey(data, key) ==> |r| == |data|
    ensures (key, v) in r && forall i :: 0 <= i < |r| && r[i].0 == key ==> r[i].1 == v
    ensures forall i :: 0 <= i < |data| && data[i].0 != key ==> data[i] in r
    ensures forall i :: 0 <= i < |r| && r[i].0 != key ==> r[i] in data
  {
    if HasKey(data, key) then
      var i :| 0 <= i < |data| && data[i].0 == key;
      var r := seq(|data|, j requires 0 <= j < |data| => if data[j].0 == key then (key, v) else data[j]);
      assert r[i] == (key, v);
      assert forall j :: 0 <= j < |data| && data[j].0 != key ==> r[j] == data[j];
      r
    else data + [(key, v)]
  }

  /** An event whose data already carries a time stamp sends one stamp,
      the new one, where the old one stood. */
  lemma StampReplacesOldStamp(name: string, data: seq<(string, Value)>, old_: string, timestamp: string)
    requires |data| > 0 && data[0] == ("timestamp", Str(old_))
    ensures TrackEvent(true, name, data, timestamp)[0].params[0] == ("timestamp", Str(timestamp))
    ensures |TrackEvent(true, name, data, timestamp)[0].params| == |data|
  {
    assert HasKey(data, "timestamp");
  }

  // ---------------------------------------------------------------------
  // Scroll depth
  // ---------------------------------------------------------------------

  /** analytics.trackScrollDepth: only multiples of 25 are reported. */
  function TrackScrollDepth(gtag: bool, percent: int, timestamp: string): (r: seq<GaCall>)
    ensures r != [] <==> gtag && percent % 25 == 0
    ensures r != [] ==> r == [EventCall("scroll_depth", [("depth_percent", Num(percent)), ("timestamp", Str(timestamp))])]
  {
    assert "depth_percent"[0] != "timestamp"[0];
    assert !HasKey([("depth_percent", Num(percent))], "timestamp");
    assert [("depth_percent", Num(percent))] + [("timestamp", Str(timestamp))] ==
      [("depth_percent", Num(percent)), ("timestamp", Str(timestamp))];
    if percent % 25 == 0 then TrackEvent(gtag, "scroll_depth", [("depth_percent", Num(percent))], timestamp) else []
  }

  const Thresholds: seq<int> := [25, 50, 75, 100]

  function DepthEvent(percent: int, timestamp: string): GaCall {
    EventCall("scroll_depth", [("depth_percent", Num(percent)), ("timestamp", Str(timestamp))])
  }

  /** A threshold a scroll to `percent` newly reaches. */
  function Reaches(tracked: set<int>, percent: int): int -> bool {
    (t: int) => t <= percent && t !in tracked
  }

  /** The thresholds a scroll to `percent` newly reaches, in increasing
      order. */
  function NewlyReached(tracked: set<int>, percent: int): (r: seq<int>)
    ensures NoDup(r) && SubseqOf(r, Thresholds)
    ensures forall t :: t in r <==> t in Thresholds && t <= percent && t !in tracked
  {
    FilterSubseq(Thresholds, Reaches(tracked, percent));
    SubseqNoDup(Filter(Thresholds, Reaches(tracked, percent)), Thresholds);
    Filter(Thresholds, Reaches(tracked, percent))
  }

  function DepthEvents(ts: seq<int>, gtag: bool, timestamp: string): (r: seq<GaCall>)
    ensures !gtag ==> r == []
    ensures gtag ==> |r| == |ts| && forall i :: 0 <= i < |ts| ==> r[i] == DepthEvent(ts[i], timestamp)
  {
    if gtag then Map(ts, (t: int) => DepthEvent(t, timestamp)) else []
  }

  /** The listener installed by initScrollDepthTracking. */
  class ScrollTracker {
    var tracked: set<int>
    /** Every threshold handed to trackScrollDepth so far. */
    ghost var reported: seq<int>

    /** Each threshold is reported at most once, and exactly the tracked
        ones have been reported. */
    ghost predicate Valid()
      reads this
    {
      NoDup(reported) && (forall t :: t in reported <==> t in tracked) && (forall t :: t in tracked ==> t in Thresholds)
    }

    constructor ()
      ensures tracked == {} && reported == []
      ensures Valid()
    {
      tracked := {};
      reported := [];
    }

    /** A scroll event at `percent` of the page: every threshold up to it
        that was not yet tracked is tracked and reported, in increasing
        order. */
    method OnScroll(percent: int, gtag: bool, timestamp: string) returns (calls: seq<GaCall>)
      requires Valid()
      modifies this
      ensures forall t :: t in tracked <==> t in old(tracked) || (t in Thresholds && t <= percent)
      ensures reported == old(reported) + NewlyReached(old(tracked), percent)
      ensures calls == DepthEvents(NewlyReached(old(tracked), percent), gtag, timestamp)
      ensures Valid()
    {
      calls := [];
      ghost var newly: seq<int> := [];
      for k := 0 to |Thresholds|
        invariant newly == ReachedAmong(old(tracked), percent, k)
        invariant forall t :: t in tracked <==> t in old(tracked) || t in newly
        invariant reported == old(reported) + newly
        invariant calls == DepthEvents(newly, gtag, timestamp)
      {
        var t := Thresholds[k];
        ReachedAmongStep(old(tracked), percent, k);
        if percent >= t && t !in tracked {
          tracked := tracked + {t};
          reported := reported + [t];
          calls := calls + TrackScrollDepth(gtag, t, timestamp);
          DepthEventsSnoc(newly, t, gtag, timestamp);
          newly := newly + [t];
        }
      }
      assert Thresholds[..|Thresholds|] == Thresholds;
      ScrollReportsOnce(old(reported), old(tracked), percent);
    }
  }

  /** The thresholds among the first `k` that a scroll to `percent` newly
      reaches. */
  function ReachedAmong(tracked: set<int>, percent: int, k: nat): seq<int>
    requires k <= |Thresholds|
  {
    Filter(Thresholds[..k], Reaches(tracked, percent))
  }

  lemma ReachedAmongStep(tracked: set<int>, percent: int, k: nat)
    requires k < |Thresholds|
    ensures ReachedAmong(tracked, percent, k + 1) ==
      ReachedAmong(tracked, percent, k) + if Thresholds[k] <= percent && Thresholds[k] !in tracked then [Thresholds[k]] else []
    ensures Thresholds[k] !in ReachedAmong(tracked, percent, k)
    ensures Thresholds[k] % 25 == 0
  {
    assert Thresholds[..k + 1] == Thresholds[..k] + [Thresholds[k]];
    FilterAppend(Thresholds[..k], Thresholds[k], Reaches(tracked, percent));
    assert Thresholds[k] !in Thresholds[..k];
  }

  lemma DepthEventsSnoc(ts: seq<int>, t: int, gtag: bool, timestamp: string)
    requires t % 25 == 0
    ensures DepthEvents(ts + [t], gtag, timestamp) == DepthEvents(ts, gtag, timestamp) + TrackScrollDepth(gtag, t, timestamp)
  {
  }

  /** Adding the newly reached thresholds keeps every threshold reported at
      most once. */
  lemma ScrollReportsOnce(reported: seq<int>, tracked: set<int>, percent: int)
    requires NoDup(reported) && forall t :: t in reported <==> t in tracked
    ensures NoDup(reported + NewlyReached(tracked, percent))
    ensures forall t :: t in reported + NewlyReached(tracked, percent) <==> t in tracked || (t in Thresholds && t <= percent)
  {
    var n := NewlyReached(tracked, percent);
    forall i, j | 0 <= i < j < |reported + n|
      ensures (reported + n)[i] != (reported + n)[j]
    {
      if j >= |reported| && i < |reported| {
        assert n[j - |reported|] in n;
      }
    }
  }

  // ---------------------------------------------------------------------
  // Time on page
  // ---------------------------------------------------------------------

  /** `Math.round(ms / 1000)` for a whole number of milliseconds. */
  function RoundSeconds(ms: int): (s: int)
    ensures s * 1000 - 500 <= ms < s * 1000 + 500
  {
    (ms + 500) / 1000
  }

  /** The time-on-page report is sent only after more than five rounded
      seconds, that is from 5.5 seconds on. */
  function TimeOnPageCalls(start: int, now: int, title: string, gtag: bool, timestamp: string): (r: seq<GaCall>)
    ensures r != [] ==> RoundSeconds(now - start) > 5
    ensures r != [] <==> gtag && now - start >= 5500
  {
    var spent := RoundSeconds(now - start);
    if spent > 5 then TrackEvent(gtag, "time_spent", [("page_title", Str(title)), ("seconds", Num(spent))], timestamp)
    else []
  }
}
