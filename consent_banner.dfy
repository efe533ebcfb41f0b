/** The cookie consent banner: the four consent categories, of which
    "necessary" can never be switched off, the accept, reject and customize
    buttons with what they store and signal to the analytics tag, the
    banner's visibility and the expanded category description. */
module ConsentBanner {
  import opened Wrappers

  datatype Category = Necessary | Analytics | Marketing | Preferences

  datatype Choices = Choices(necessary: bool, analytics: bool, marketing: bool, preferences: bool)

  function Get(c: Choices, cat: Category): bool {
    match cat
    case Necessary => c.necessary
    case Analytics => c.analytics
    case Marketing => c.marketing
    case Preferences => c.preferences
  }

  const InitialChoices := Choices(true, false, false, false)
  const AllAccepted := Choices(true, true, true, true)
  const Rejected := Choices(true, false, false, false)

  /** toggleCategory: "necessary" is ignored; any other category flips and
      nothing else changes. */
  function Toggle(c: Choices, cat: Category): (r: Choices)
    ensures cat == Necessary ==> r == c
    ensures cat != Necessary ==> Get(r, cat) == !Get(c, cat)
    ensures forall other :: other != cat ==> Get(r, other) == Get(c, other)
  {
    match cat
    case Necessary => c
    case Analytics => c.(analytics := !c.analytics)
    case Marketing => c.(marketing := !c.marketing)
    case Preferences => c.(preferences := !c.preferences)
  }

  /** Toggling twice restores the choices. */
  lemma ToggleTwice(c: Choices, cat: Category)
    ensures Toggle(Toggle(c, cat), cat) == c
  {
  }

  datatype Signal = Granted | Denied

  function SignalOf(b: bool): (s: Signal)
    ensures s == Granted <==> b
  {
    if b then Granted else Denied
  }

  /** A call of the analytics tag: a consent update naming storage kinds and
      their signals, or the cookie_consent event with the choice made. */
  datatype GtagCall = ConsentUpdate(signals: seq<(string, Signal)>) | ConsentEvent(choice: string)

  /** The calls the buttons make; none without the tag. */
  function Calls(gtag: bool, update: seq<(string, Signal)>, choice: string): (r: seq<GtagCall>)
    ensures !gtag ==> r == []
    ensures gtag ==> r == [ConsentUpdate(update), ConsentEvent(choice)]
  {
    if gtag then [ConsentUpdate(update), ConsentEvent(choice)] else []
  }

  /** The update handleCustomize sends: analytics storage from the
      analytics choice and ad storage from the marketing choice. */
  function CustomUpdate(c: Choices): (u: seq<(string, Signal)>)
    ensures |u| == 2 && u[0].0 == "analytics_storage" && u[1].0 == "ad_storage"
    ensures u[0].1 == Granted <==> c.analytics
    ensures u[1].1 == Granted <==> c.marketing
  {
    [("analytics_storage", SignalOf(c.analytics)), ("ad_storage", SignalOf(c.marketing))]
  }

  class Banner {
    var choices: Choices
    var visible: bool
    var expanded: Option<Category>
    /** The cookieConsent and consentTimestamp storage entries. */
    var stored: Option<Choices>
    var storedAt: Option<string>

    /** "necessary" is on, in the state and in whatever was stored. */
    predicate Valid()
      reads this
    {
      choices.necessary && (stored.Some? ==> stored.value.necessary)
    }

    /** Mounting: shown only when no consent is stored; otherwise the stored
        choices are loaded and, when they allow analytics, the tag is told
        so. */
    constructor (saved: Option<Choices>)
      ensures visible <==> saved.None?
      ensures choices == if saved.Some? then saved.value else InitialChoices
      ensures stored == saved && storedAt == None && expanded == None
      ensures saved.None? || saved.value.necessary ==> Valid()
    {
      choices := if saved.Some? then saved.value else InitialChoices;
      visible := saved.None?;
      expanded := None;
      stored := saved;
      storedAt := None;
    }

    /** The call the mount effect makes for stored consent. */
    static function MountCalls(saved: Option<Choices>, gtag: bool): (r: seq<GtagCall>)
      ensures r != [] <==> saved.Some? && saved.value.analytics && gtag
      ensures r != [] ==> r == [ConsentUpdate([("analytics_storage", Granted)])]
    {
      if saved.Some? && saved.value.analytics && gtag then [ConsentUpdate([("analytics_storage", Granted)])] else []
    }

    method AcceptAll(now: string, gtag: bool) returns (calls: seq<GtagCall>)
      requires Valid()
      modifies this
      ensures choices == AllAccepted && stored == Some(AllAccepted) && storedAt == Some(now)
      ensures !visible && expanded == old(expanded)
      ensures calls == Calls(gtag, [("analytics_storage", Granted), ("ad_storage", Granted),
                                    ("ad_user_data", Granted), ("ad_personalization", Granted)], "all")
      ensures Valid()
    {
      stored := Some(AllAccepted);
      storedAt := Some(now);
      choices := AllAccepted;
      calls := Calls(gtag, [("analytics_storage", Granted), ("ad_storage", Granted),
                            ("ad_user_data", Granted), ("ad_personalization", Granted)], "all");
      visible := false;
    }

    method RejectAll(now: string, gtag: bool) returns (calls: seq<GtagCall>)
      requires Valid()
      modifies this
      ensures choices == Rejected && stored == Some(Rejected) && storedAt == Some(now)
      ensures !visible && expanded == old(expanded)
      ensures calls == Calls(gtag, [("analytics_storage", Denied), ("ad_storage", Denied)], "none")
      ensures Valid()
    {
      stored := Some(Rejected);
      storedAt := Some(now);
      choices := Rejected;
      calls := Calls(gtag, [("analytics_storage", Denied), ("ad_storage", Denied)], "none");
      visible := false;
    }

    /** Saving the current choices unchanged. */
    method Customize(now: string, gtag: bool) returns (calls: seq<GtagCall>)
      requires Valid()
      modifies this
      ensures choices == old(choices) && stored == Some(old(choices)) && storedAt == Some(now)
      ensures !visible && expanded == old(expanded)
      ensures calls == Calls(gtag, CustomUpdate(old(choices)), "custom")
      ensures Valid()
    {
      stored := Some(choices);
      storedAt := Some(now);
      calls := Calls(gtag, CustomUpdate(choices), "custom");
      visible := false;
    }

    method ToggleCategory(cat: Category)
      requires Valid()
      modifies this
      ensures choices == Toggle(old(choices), cat)
      ensures visible == old(visible) && expanded == old(expanded)
      ensures stored == old(stored) && storedAt == old(storedAt)
      ensures Valid()
    {
      if cat == Necessary {
        return;
      }
      choices := Toggle(choices, cat);
    }

    /** The +/− control: the open category closes, any other opens. */
    method ClickExpand(cat: Category)
      modifies this
      ensures expanded == if old(expanded) == Some(cat) then None else Some(cat)
      ensures choices == old(choices) && visible == old(visible)
      ensures stored == old(stored) && storedAt == old(storedAt)
    {
      expanded := if expanded == Some(cat) then None else Some(cat);
    }
  }

  datatype Action = ToggleAction(cat: Category) | AcceptAction | RejectAction | CustomizeAction

  /** The choices after one button. */
  function Step(c: Choices, a: Action): Choices {
    match a
    case ToggleAction(cat) => Toggle(c, cat)
    case AcceptAction => AllAccepted
    case RejectAction => Rejected
    case CustomizeAction => c
  }

  function Run(c: Choices, actions: seq<Action>): Choices
    decreases |actions|
  {
    if |actions| == 0 then c else Run(Step(c, actions[0]), actions[1..])
  }

  /** From the initial choices, necessary stays on under any sequence of
      toggles, accepts, rejects and customizations. */
  lemma {:induction false} NecessaryAlwaysOn(c: Choices, actions: seq<Action>)
    requires c.necessary
    ensures Run(c, actions).necessary
    decreases |actions|
  {
    if |actions| > 0 {
      NecessaryAlwaysOn(Step(c, actions[0]), actions[1..]);
    }
  }

  lemma NecessaryFromInitial(actions: seq<Action>)
    ensures Run(InitialChoices, actions).necessary
  {
    NecessaryAlwaysOn(InitialChoices, actions);
  }
}
