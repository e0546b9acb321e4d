/**
 * The `PokemonGallery` component without its markup: the page index and the
 * Previous/Next handlers, the batch a page asks for, and the ability tooltip
 * (which ability is active, its effect text, where it is anchored), changed by
 * `handleAbilityClick` and by the tooltip's close button.
 *
 * The browser is not modelled: the clicked element's bounding box, the scroll
 * offset and the outcome of the ability-detail fetch are inputs.
 */
module PokemonGallery {
  import opened Wrappers
  import opened PaginatedPokemon

  const PageSize: int := 10
  const NoEffectFound: string := "No effect found."
  const FailedToLoad: string := "Failed to load effect."
  /** Vertical gap in pixels between the clicked element and the tooltip. */
  const TooltipGap: real := 8.0
  /** Rendered tooltip width in pixels (`w-64`, 16rem at a 16px root size). */
  const TooltipWidth: real := 256.0

  /** The first id shown on the zero-based page `page`. */
  function StartId(page: int): (id: int)
    ensures id >= 1 <==> page >= 0
    ensures (id - 1) / PageSize == page && (id - 1) % PageSize == 0
  {
    page * PageSize + 1
  }

  /** A non-negative page asks for the ten ids `page*10+1 .. page*10+10`, all positive. */
  lemma PageRequestsItsTenIds(page: int, id: int)
    requires page >= 0
    ensures |RequestedIds(StartId(page), PageSize)| == 10
    ensures id in RequestedIds(StartId(page), PageSize) <==> page * 10 + 1 <= id <= page * 10 + 10
    ensures forall i :: 0 <= i < 10 ==> RequestedIds(StartId(page), PageSize)[i] >= 1
  {
    RequestedIdsRange(StartId(page), PageSize, id);
  }

  /** Every positive id is shown on exactly one page: page (id - 1) / 10. */
  lemma PageOfId(page: int, id: int)
    requires page >= 0 && id >= 1
    ensures id in RequestedIds(StartId(page), PageSize) <==> page == (id - 1) / 10
  {
    RequestedIdsRange(StartId(page), PageSize, id);
    var q := (id - 1) / 10;
    assert q * 10 <= id - 1 < q * 10 + 10;
    if page < q {
      assert page * 10 + 10 <= q * 10;
    } else if page > q {
      assert q * 10 + 10 <= page * 10;
    }
  }

  /** Changing page always changes the hook's dependencies, so a new batch runs; staying put does not. */
  lemma PageChangeTriggersBatch(p: int, q: int)
    ensures EffectDue(Some(Request(StartId(p), PageSize)), StartId(q), PageSize) <==> p != q
  {
  }

  datatype Point = Point(x: real, y: real)

  /** The parts of `getBoundingClientRect()` the handler reads. */
  datatype Rect = Rect(left: real, width: real, bottom: real)

  /** The `top`/`left` style of the rendered tooltip. */
  datatype Style = Style(top: real, left: real)

  /**
   * One of the ability's `effect_entries`; a missing `short_effect` is the empty
   * string. An entry after the first English one is never read, so it may stand
   * for any entry, even one without a `language`.
   */
  datatype EffectEntry = EffectEntry(languageName: string, shortEffect: string)

  /**
   * The ability-detail fetch: the parsed `effect_entries`, or a failure (the
   * request rejects, the body is not JSON, or `effect_entries` is missing).
   */
  datatype AbilityFetch = Loaded(entries: seq<EffectEntry>) | LoadFailed

  /** The three state variables behind the tooltip. */
  datatype TooltipState = TooltipState(
    activeAbility: Option<string>,
    abilityEffect: Option<string>,
    tooltipPosition: Option<Point>)

  const Closed: TooltipState := TooltipState(None, None, None)

  ghost predicate FirstEnglish(entries: seq<EffectEntry>, i: int)
  {
    0 <= i < |entries| && entries[i].languageName == "en" &&
    forall j :: 0 <= j < i ==> entries[j].languageName != "en"
  }

  /** `effect_entries.find(entry => entry.language.name === "en")`, as an index. */
  function FindEnglish(entries: seq<EffectEntry>): (r: Option<nat>)
    ensures r.Some? ==> FirstEnglish(entries, r.value)
    ensures r.None? ==> forall j :: 0 <= j < |entries| ==> entries[j].languageName != "en"
  {
    if entries == [] then None
    else if entries[0].languageName == "en" then Some(0)
    else
      var rest := FindEnglish(entries[1..]);
      if rest.None? then None else Some(rest.value + 1)
  }

  /** `englishEntry?.short_effect || "No effect found."` */
  function EffectText(entries: seq<EffectEntry>): (text: string)
    ensures text != ""
    ensures forall i :: FirstEnglish(entries, i) && entries[i].shortEffect != "" ==>
      text == entries[i].shortEffect
    ensures (forall i :: FirstEnglish(entries, i) ==> entries[i].shortEffect == "") ==>
      text == NoEffectFound
  {
    var found := FindEnglish(entries);
    if found.Some? && entries[found.value].shortEffect != "" then entries[found.value].shortEffect
    else NoEffectFound
  }

  /** Where a click on an element anchors the tooltip: the middle of its bottom edge. */
  function Anchor(rect: Rect): (p: Point)
    ensures p.x - rect.left == rect.left + rect.width - p.x
    ensures p.y == rect.bottom
  {
    Point(rect.left + rect.width / 2.0, rect.bottom)
  }

  /**
   * What every reachable tooltip state satisfies: an active ability always
   * has an anchor and an effect text, and an effect text is never empty.
   */
  predicate Coherent(t: TooltipState)
  {
    (t.activeAbility.Some? ==> t.abilityEffect.Some? && t.tooltipPosition.Some?) &&
    (t.abilityEffect.Some? ==> t.abilityEffect.value != "")
  }

  /** `activeAbility && tooltipPosition && abilityEffect` */
  predicate Shown(t: TooltipState)
    ensures Shown(t) ==> Coherent(t) && t.activeAbility.Some? && t.activeAbility.value != ""
    ensures t.activeAbility.None? || t.tooltipPosition.None? || t.abilityEffect.None? ==> !Shown(t)
  {
    Truthy(t.activeAbility) && t.tooltipPosition.Some? && Truthy(t.abilityEffect)
  }

  /** The `top`/`left` style of a tooltip anchored at `p`. */
  function Placement(p: Point, scrollY: real): (s: Style)
    ensures s.left + TooltipWidth / 2.0 == p.x
    ensures s.top - scrollY - p.y == TooltipGap
  {
    Style(p.y + scrollY + TooltipGap, p.x - TooltipWidth / 2.0)
  }

  /** The tooltip is horizontally centred under the clicked element, a gap below its bottom edge. */
  lemma PlacementUnderAnchor(rect: Rect, scrollY: real)
    ensures Placement(Anchor(rect), scrollY).left + TooltipWidth / 2.0 == rect.left + rect.width / 2.0
    ensures Placement(Anchor(rect), scrollY).top == rect.bottom + scrollY + 8.0
    ensures Placement(Anchor(rect), scrollY).left == rect.left + rect.width / 2.0 - 128.0
  {
  }

  /** Whether a click on `abilityName` issues the ability-detail fetch. */
  predicate ClickFetches(t: TooltipState, abilityName: string)
  {
    t.activeAbility != Some(abilityName)
  }

  /**
   * The synchronous part of `handleAbilityClick`: the toggle-off of the active
   * ability, or the anchor captured before the fetch is awaited.
   */
  function BeginClick(t: TooltipState, abilityName: string, rect: Rect): (pending: TooltipState)
    ensures !ClickFetches(t, abilityName) ==> pending == TooltipState(None, None, t.tooltipPosition)
    ensures ClickFetches(t, abilityName) ==>
      pending.activeAbility == t.activeAbility && pending.abilityEffect == t.abilityEffect &&
      pending.tooltipPosition == Some(Anchor(rect))
    ensures Coherent(t) ==> Coherent(pending)
  {
    if !ClickFetches(t, abilityName) then
      t.(activeAbility := None, abilityEffect := None)
    else
      t.(tooltipPosition := Some(Anchor(rect)))
  }

  /**
   * The part of `handleAbilityClick` after the fetch settles: a loaded ability
   * becomes active with its effect text; a failure sets only the text.
   */
  function SettleClick(t: TooltipState, abilityName: string, outcome: AbilityFetch): (settled: TooltipState)
    ensures settled.tooltipPosition == t.tooltipPosition
    ensures outcome.Loaded? ==>
      settled.activeAbility == Some(abilityName) && settled.abilityEffect == Some(EffectText(outcome.entries))
    ensures outcome.LoadFailed? ==>
      settled.activeAbility == t.activeAbility && settled.abilityEffect == Some(FailedToLoad)
    ensures Coherent(t) && t.tooltipPosition.Some? ==> Coherent(settled)
  {
    match outcome
    case Loaded(entries) => t.(activeAbility := Some(abilityName), abilityEffect := Some(EffectText(entries)))
    case LoadFailed => t.(abilityEffect := Some(FailedToLoad))
  }

  /** The tooltip after `handleAbilityClick` on `abilityName` has run to its end. */
  function Click(t: TooltipState, abilityName: string, rect: Rect, outcome: AbilityFetch): (r: TooltipState)
    ensures r.tooltipPosition == if ClickFetches(t, abilityName) then Some(Anchor(rect)) else t.tooltipPosition
    ensures Coherent(t) ==> Coherent(r)
  {
    var pending := BeginClick(t, abilityName, rect);
    if ClickFetches(t, abilityName) then SettleClick(pending, abilityName, outcome) else pending
  }

  /** The close button clears only the active ability, which hides the tooltip. */
  function Close(t: TooltipState): (r: TooltipState)
    ensures !Shown(r)
    ensures r.abilityEffect == t.abilityEffect && r.tooltipPosition == t.tooltipPosition
    ensures Coherent(t) ==> Coherent(r)
  {
    t.(activeAbility := None)
  }

  /** Clicking the active ability closes it, keeps the position, and fetches nothing. */
  lemma ClickActiveCloses(t: TooltipState, abilityName: string, rect: Rect, outcome: AbilityFetch)
    requires t.activeAbility == Some(abilityName)
    ensures !ClickFetches(t, abilityName)
    ensures Click(t, abilityName, rect, outcome) == TooltipState(None, None, t.tooltipPosition)
    ensures !Shown(Click(t, abilityName, rect, outcome))
  {
  }

  /** Clicking any other ability anchors the tooltip at the element, whatever the fetch gives. */
  lemma ClickOtherAnchors(t: TooltipState, abilityName: string, rect: Rect, outcome: AbilityFetch)
    requires t.activeAbility != Some(abilityName)
    ensures ClickFetches(t, abilityName)
    ensures Click(t, abilityName, rect, outcome).tooltipPosition == Some(Anchor(rect))
  {
  }

  /**
   * While the fetch is pending the tooltip is shown exactly when it was shown
   * before the click; if it was, it shows the previous text at the new anchor.
   */
  lemma PendingShownAsBefore(t: TooltipState, abilityName: string, rect: Rect)
    requires Coherent(t) && ClickFetches(t, abilityName)
    ensures BeginClick(t, abilityName, rect) == t.(tooltipPosition := Some(Anchor(rect)))
    ensures Shown(BeginClick(t, abilityName, rect)) <==> Shown(t)
  {
  }

  /** A loaded ability becomes active with its English effect text, and is shown if its name is non-empty. */
  lemma ClickLoadedShows(t: TooltipState, abilityName: string, rect: Rect, entries: seq<EffectEntry>)
    requires t.activeAbility != Some(abilityName)
    ensures Click(t, abilityName, rect, Loaded(entries)) ==
      TooltipState(Some(abilityName), Some(EffectText(entries)), Some(Anchor(rect)))
    ensures Shown(Click(t, abilityName, rect, Loaded(entries))) <==> abilityName != ""
  {
  }

  /** A failed load changes only the text and the anchor: a closed tooltip stays closed. */
  lemma ClickFailedKeepsActive(t: TooltipState, abilityName: string, rect: Rect)
    requires t.activeAbility != Some(abilityName)
    ensures Click(t, abilityName, rect, LoadFailed) ==
      TooltipState(t.activeAbility, Some(FailedToLoad), Some(Anchor(rect)))
    ensures Shown(Click(t, abilityName, rect, LoadFailed)) <==> Truthy(t.activeAbility)
  {
  }

  /** Clicking "overgrow" with an English entry shows that text; clicking it again closes it without a fetch. */
  lemma OvergrowScenario(rect: Rect, again: AbilityFetch)
    ensures var entries := [EffectEntry("de", "Erhöht Pflanzen-Attacken."), EffectEntry("en", "Boosts Grass moves in a pinch.")];
      var open := Click(Closed, "overgrow", rect, Loaded(entries));
      open.abilityEffect == Some("Boosts Grass moves in a pinch.") && Shown(open) &&
      !ClickFetches(open, "overgrow") && !Shown(Click(open, "overgrow", rect, again))
  {
    var entries := [EffectEntry("de", "Erhöht Pflanzen-Attacken."), EffectEntry("en", "Boosts Grass moves in a pinch.")];
    assert FirstEnglish(entries, 1);
  }

  /**
   * The events that change the tooltip: a click (its synchronous part), the
   * settling of a fetch an earlier click started, and the close button.
   * Fetches settle in any order and other events may come between.
   */
  datatype TooltipEvent =
    | AbilityClicked(abilityName: string, rect: Rect)
    | FetchSettled(abilityName: string, outcome: AbilityFetch)
    | CloseClicked

  /** The tooltip together with the ability names whose fetches are still in flight. */
  datatype Session = Session(tooltip: TooltipState, inFlight: multiset<string>)

  const Start: Session := Session(Closed, multiset{})

  /** A fetch settles only if a click started it; any other settle event changes nothing. */
  function Step(s: Session, e: TooltipEvent): Session
  {
    match e
    case AbilityClicked(abilityName, rect) =>
      var pending := BeginClick(s.tooltip, abilityName, rect);
      if ClickFetches(s.tooltip, abilityName) then Session(pending, s.inFlight + multiset{abilityName})
      else Session(pending, s.inFlight)
    case FetchSettled(abilityName, outcome) =>
      if abilityName in s.inFlight then
        Session(SettleClick(s.tooltip, abilityName, outcome), s.inFlight - multiset{abilityName})
      else s
    case CloseClicked => Session(Close(s.tooltip), s.inFlight)
  }

  function Run(s: Session, events: seq<TooltipEvent>): Session
    decreases |events|
  {
    if events == [] then s else Run(Step(s, events[0]), events[1..])
  }

  /** The tooltip is coherent, and a fetch in flight always has its anchor in place. */
  predicate SessionOk(s: Session)
  {
    Coherent(s.tooltip) && (|s.inFlight| > 0 ==> s.tooltip.tooltipPosition.Some?)
  }

  lemma StepKeepsSessionOk(s: Session, e: TooltipEvent)
    requires SessionOk(s)
    ensures SessionOk(Step(s, e))
  {
  }

  /** Any interleaving of clicks, settling fetches and closes keeps the session in order. */
  lemma {:induction false} RunKeepsSessionOk(s: Session, events: seq<TooltipEvent>)
    requires SessionOk(s)
    ensures SessionOk(Run(s, events))
    decreases |events|
  {
    if events != [] {
      StepKeepsSessionOk(s, events[0]);
      RunKeepsSessionOk(Step(s, events[0]), events[1..]);
    }
  }

  /** In a reachable state the tooltip is shown exactly when an ability with a non-empty name is active. */
  lemma {:induction false} ShownIffActive(events: seq<TooltipEvent>)
    ensures Coherent(Run(Start, events).tooltip)
    ensures Shown(Run(Start, events).tooltip) <==> Truthy(Run(Start, events).tooltip.activeAbility)
  {
    RunKeepsSessionOk(Start, events);
  }

  /** A click whose fetch settles before anything else happens has the effect of `Click`. */
  lemma {:induction false} SettledAtOnceIsClick(s: Session, abilityName: string, rect: Rect, outcome: AbilityFetch)
    requires ClickFetches(s.tooltip, abilityName)
    ensures Run(s, [AbilityClicked(abilityName, rect), FetchSettled(abilityName, outcome)]).tooltip ==
      Click(s.tooltip, abilityName, rect, outcome)
    ensures Run(s, [AbilityClicked(abilityName, rect), FetchSettled(abilityName, outcome)]).inFlight == s.inFlight
  {
    var events := [AbilityClicked(abilityName, rect), FetchSettled(abilityName, outcome)];
    var s1 := Step(s, events[0]);
    assert abilityName in s1.inFlight;
    assert events[1..][1..] == [];
    assert Run(s, events) == Run(s1, events[1..]) == Run(Step(s1, events[1]), []);
    assert s1.inFlight - multiset{abilityName} == s.inFlight;
  }

  /** The component's state, one field per `useState` of the tooltip and pager. */
  class Gallery {
    var page: int
    var activeAbility: Option<string>
    var abilityEffect: Option<string>
    var tooltipPosition: Option<Point>
    /** The ability names whose detail fetches have been started and have not settled. */
    ghost var inFlight: multiset<string>
    /** The `usePaginatedPokemon(startId, 10)` hook this component renders with. */
    const feed: ListState

    function Tooltip(): TooltipState
      reads this
    {
      TooltipState(activeAbility, abilityEffect, tooltipPosition)
    }

    ghost predicate Valid()
      reads this
    {
      page >= 0 && SessionOk(Session(Tooltip(), inFlight))
    }

    constructor ()
      ensures Valid() && page == 0 && Tooltip() == Closed && inFlight == multiset{}
      ensures fresh(feed) && feed.pokemonList == [] && feed.loading && feed.error == None && feed.deps == None
    {
      page := 0;
      activeAbility, abilityEffect, tooltipPosition := None, None, None;
      inFlight := multiset{};
      feed := new ListState();
    }

    /** `disabled={page === 0}` on the Previous button: only the page that starts at id 1. */
    function PreviousDisabled(): (disabled: bool)
      reads this
      ensures disabled <==> StartId(page) == 1
    {
      page == 0
    }

    /** `setPage(p => Math.max(p - 1, 0))` */
    method Previous()
      requires Valid()
      modifies this`page
      ensures Valid()
      ensures old(PreviousDisabled()) ==> page == 0
      ensures !old(PreviousDisabled()) ==> page == old(page) - 1
    {
      page := if page - 1 > 0 then page - 1 else 0;
    }

    /** `setPage(p => p + 1)`: no upper bound. */
    method Next()
      requires Valid()
      modifies this`page
      ensures Valid()
      ensures page == old(page) + 1 && StartId(page) == StartId(old(page)) + PageSize
    {
      page := page + 1;
    }

    /** A render: the hook sees `(startId, 10)` and decides whether to run a new batch. */
    method Render() returns (runEffect: bool)
      modifies feed`deps
      ensures runEffect == EffectDue(old(feed.deps), StartId(page), PageSize)
      ensures feed.deps == Some(Request(StartId(page), PageSize))
    {
      runEffect := feed.Render(StartId(page), PageSize);
    }

    /**
     * `handleAbilityClick(e, url, abilityName)` up to its `await`: either the
     * toggle-off, or the anchor taken from the clicked element's box. Returns
     * the URL fetched, if any.
     */
    method BeginAbilityClick(url: string, abilityName: string, rect: Rect) returns (fetched: Option<string>)
      requires Valid()
      modifies this`activeAbility, this`abilityEffect, this`tooltipPosition, this`inFlight
      ensures Valid()
      ensures Tooltip() == BeginClick(old(Tooltip()), abilityName, rect)
      ensures fetched == if ClickFetches(old(Tooltip()), abilityName) then Some(url) else None
      ensures inFlight == if fetched.Some? then old(inFlight) + multiset{abilityName} else old(inFlight)
    {
      if activeAbility == Some(abilityName) {
        activeAbility := None;
        abilityEffect := None;
        return None;
      }
      tooltipPosition := Some(Point(rect.left + rect.width / 2.0, rect.bottom));
      fetched := Some(url);
      inFlight := inFlight + multiset{abilityName};
    }

    /** The rest of `handleAbilityClick` once the fetch for `abilityName` settles. */
    method SettleAbilityClick(abilityName: string, outcome: AbilityFetch)
      requires Valid() && abilityName in inFlight
      modifies this`activeAbility, this`abilityEffect, this`inFlight
      ensures Valid()
      ensures Tooltip() == SettleClick(old(Tooltip()), abilityName, outcome)
      ensures inFlight == old(inFlight) - multiset{abilityName}
    {
      match outcome {
        case Loaded(entries) =>
          activeAbility := Some(abilityName);
          abilityEffect := Some(EffectText(entries));
        case LoadFailed =>
          abilityEffect := Some(FailedToLoad);
      }
      inFlight := inFlight - multiset{abilityName};
    }

    /** `handleAbilityClick` with its fetch settling before any other event. */
    method HandleAbilityClick(url: string, abilityName: string, rect: Rect, outcome: AbilityFetch)
      returns (fetched: Option<string>)
      requires Valid()
      modifies this`activeAbility, this`abilityEffect, this`tooltipPosition, this`inFlight
      ensures Valid()
      ensures Tooltip() == Click(old(Tooltip()), abilityName, rect, outcome)
      ensures fetched == if ClickFetches(old(Tooltip()), abilityName) then Some(url) else None
      ensures inFlight == old(inFlight)
    {
      fetched := BeginAbilityClick(url, abilityName, rect);
      if fetched.Some? {
        SettleAbilityClick(abilityName, outcome);
      }
    }

    /** The close button: `setActiveAbility(null)`. */
    method CloseTooltip()
      requires Valid()
      modifies this`activeAbility
      ensures Valid()
      ensures Tooltip() == Close(old(Tooltip()))
    {
      activeAbility := None;
    }

    /** Whether the tooltip block renders. */
    function TooltipShown(): (shown: bool)
      reads this
      requires Valid()
      ensures shown <==> Truthy(activeAbility)
    {
      Shown(Tooltip())
    }

    /** The tooltip's `top`/`left` for the current scroll offset. */
    function TooltipStyle(scrollY: real): (s: Style)
      reads this
      requires Valid() && TooltipShown()
      ensures s.top == tooltipPosition.value.y + scrollY + 8.0
      ensures s.left == tooltipPosition.value.x - 128.0
    {
      Placement(tooltipPosition.value, scrollY)
    }
  }
}
