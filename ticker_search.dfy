/**
 * The ticker-search autocomplete of src/components/TickerSearchDropdown.jsx.
 *
 * Each handler is first given as a function from the component's state (`Panel`) to the
 * state after the handler's batched updates and the close effect (lines 140-145, which sets
 * the index to -1 when the dropdown goes from shown to hidden). The class at the end holds the
 * same state in fields and updates it step by step; each of its methods is proved to agree
 * with the function for its handler. The debounce timer is the `pending` slot holding the text
 * it will look up; the network is the `LookupOk`/`LookupFailed` events.
 */
module TickerSearch {
  import opened Text
  import opened Wrappers

  /** One search hit; `symbol` identifies it, the rest is display text. */
  datatype SearchResult = SearchResult(symbol: string, shortname: Option<string>,
                                       typeDisp: Option<string>, exchDisp: Option<string>)

  datatype Key = Escape | Tab | ArrowDown | ArrowUp | Enter | OtherKey

  /** The component state: the five state hooks and the debounce slot. */
  datatype Panel = Panel(query: string, results: seq<SearchResult>, searching: bool,
                         open: bool, index: int, pending: Option<string>)

  /** What one event does: the new state, the result passed to `onSelect` (if any), the text
      sent to the search endpoint (if any), and whether the key's default action is suppressed. */
  datatype Outcome = Outcome(panel: Panel, selected: Option<SearchResult>,
                             lookup: Option<string>, preventDefault: bool)

  datatype Event =
    | Keystroke(text: string)
    | TimerFired
    | LookupOk(hits: seq<SearchResult>)
    | LookupFailed
    | Focus(ticker: string)
    | KeyDown(key: Key)
    | RowClick(row: int)
    | OutsideClick
    | TickerChanged(ticker: string)
    | Unmount

  const Initial: Panel := Panel("", [], false, false, -1, None)

  /** The index is -1 or points into the results. */
  predicate IndexInRange(p: Panel) {
    -1 <= p.index < |p.results|
  }

  /** A scheduled lookup is always for non-blank text. */
  predicate PendingNonBlank(p: Panel) {
    p.pending.Some? ==> Trim(p.pending.value) != ""
  }

  /** The state invariant the handlers keep. */
  predicate Inv(p: Panel) {
    IndexInRange(p) && PendingNonBlank(p)
  }

  /** `setShowDropdown(visible)` and then the close effect. */
  function Show(p: Panel, visible: bool): Panel {
    if p.open && !visible then p.(open := false, index := -1) else p.(open := visible)
  }

  function Quiet(p: Panel): Outcome {
    Outcome(p, None, None, false)
  }

  /** `searchResults.findIndex(item => item.symbol === ticker)`. */
  function FindIndex(results: seq<SearchResult>, ticker: string): (k: int)
    ensures -1 <= k < |results|
    ensures k == -1 <==> forall j :: 0 <= j < |results| ==> results[j].symbol != ticker
    ensures k >= 0 ==> results[k].symbol == ticker && forall j :: 0 <= j < k ==> results[j].symbol != ticker
  {
    if results == [] then -1
    else if results[0].symbol == ticker then 0
    else
      var k := FindIndex(results[1..], ticker);
      if k == -1 then -1 else k + 1
  }

  /** `handleSearchChange`: store the text, cancel the pending timer, and schedule a lookup of
      the raw text only when its trimmed form is non-empty. Nothing else changes. */
  function OnSearchChange(p: Panel, text: string): (r: Panel)
    ensures r.query == text
    ensures r.pending.Some? <==> Trim(text) != ""
    ensures r.pending.Some? ==> r.pending.value == text
    ensures r.results == p.results && r.open == p.open && r.index == p.index && r.searching == p.searching
  {
    p.(query := text, pending := if Trim(text) != "" then Some(text) else None)
  }

  /** The debounce timer fires: the pending text is sent and the loading flag raised. */
  function OnTimerFired(p: Panel): (o: Outcome)
    ensures o.lookup == p.pending && o.panel.pending == None && o.selected == None
    ensures p.pending.Some? ==> o.panel == p.(searching := true, pending := None)
    ensures p.pending.None? ==> o.panel == p
  {
    if p.pending.Some? then Quiet(p.(searching := true, pending := None)).(lookup := p.pending)
    else Quiet(p)
  }

  /** A lookup answered OK: replace the results, open the dropdown even for no hits, and point
      at the first hit if there is one. */
  function OnLookupOk(p: Panel, hits: seq<SearchResult>): (r: Panel)
    ensures r.results == hits && r.open && !r.searching
    ensures |hits| > 0 ==> r.index == 0
    ensures |hits| == 0 ==> r.index == -1
    ensures IndexInRange(r) && r.query == p.query && r.pending == p.pending
  {
    p.(results := hits, open := true, index := if |hits| > 0 then 0 else -1, searching := false)
  }

  /** A lookup failed (non-OK answer or thrown error), as written: empty the results, hide the
      dropdown, lower the loading flag. The close effect resets the index only if it was shown. */
  function OnLookupFailedAsWritten(p: Panel): (r: Panel)
    ensures r.results == [] && !r.open && !r.searching
    ensures r.index == (if p.open then -1 else p.index)
  {
    Show(p.(results := [], searching := false), false)
  }

  /** A lookup failed, corrected: as written, but the index is reset to -1 in every case. */
  function OnLookupFailed(p: Panel): (r: Panel)
    ensures r.results == [] && !r.open && !r.searching && r.index == -1 && IndexInRange(r)
    ensures r.query == p.query && r.pending == p.pending
    ensures p.open ==> r == OnLookupFailedAsWritten(p)
  {
    p.(results := [], open := false, index := -1, searching := false)
  }

  /** `handleFocus`: with results, show them and point at the host's current ticker (-1 if absent). */
  function OnFocus(p: Panel, ticker: string): (r: Panel)
    requires IndexInRange(p)
    ensures IndexInRange(r) && r.results == p.results && r.query == p.query
    ensures |p.results| > 0 ==> r.open && r.index == FindIndex(p.results, ticker)
    ensures |p.results| == 0 ==> !r.open && r.index == -1
  {
    if |p.results| > 0 then p.(open := true, index := FindIndex(p.results, ticker))
    else Show(p, false)
  }

  /** A result is committed: hide the dropdown and, if the query mirrors the selection, show its symbol. */
  function Commit(p: Panel, chosen: SearchResult, mirror: bool): (o: Outcome)
    ensures o.selected == Some(chosen) && !o.panel.open && o.panel.results == p.results
    ensures o.panel.query == (if mirror then chosen.symbol else p.query)
  {
    var q := Show(p, false);
    Outcome(if mirror then q.(query := chosen.symbol) else q, Some(chosen), None, true)
  }

  /** `handleKeyDown`. */
  function OnKeyDown(p: Panel, key: Key, mirror: bool): (o: Outcome)
    requires IndexInRange(p)
    ensures IndexInRange(o.panel)
    ensures o.panel.results == p.results && o.panel.pending == p.pending && o.lookup == None
    ensures o.selected.Some? <==> key == Enter && p.index >= 0
    ensures o.selected.Some? ==> o.selected.value == p.results[p.index] && !o.panel.open
    ensures key == Escape ==> o.panel.open == !p.open && o.panel.index == -1 && o.preventDefault
    ensures key == Tab ==> !o.panel.open && !o.preventDefault
    ensures key == ArrowDown ==> o.panel.index == (if p.index < |p.results| - 1 then p.index + 1 else p.index)
    ensures key == ArrowUp ==> o.panel.index == (if p.index > 0 then p.index - 1 else p.index)
    ensures key == OtherKey || (key == Enter && p.index < 0) ==> o == Quiet(p)
  {
    match key
    case Escape => Outcome(Show(p.(index := if p.open then 0 else -1), !p.open), None, None, true)
    case Tab => Quiet(if p.open then Show(p, false) else p)
    case ArrowDown =>
      if p.index < |p.results| - 1 then Outcome(p.(index := p.index + 1), None, None, true) else Quiet(p)
    case ArrowUp =>
      if p.index > 0 then Outcome(p.(index := p.index - 1), None, None, true) else Quiet(p)
    case Enter =>
      if p.index >= 0 then Commit(p, p.results[p.index], mirror) else Quiet(p)
    case OtherKey => Quiet(p)
  }

  /** A click on a result row; rows exist only while the dropdown shows results. */
  function OnRowClick(p: Panel, row: int, mirror: bool): (o: Outcome)
    requires IndexInRange(p)
    ensures IndexInRange(o.panel)
    ensures o.selected.Some? <==> p.open && 0 <= row < |p.results|
    ensures o.selected.Some? ==> o.selected.value == p.results[row] && !o.panel.open && o.panel.index == -1
  {
    if p.open && 0 <= row < |p.results| then Commit(p, p.results[row], mirror) else Quiet(p)
  }

  /** A mousedown outside the component hides the dropdown; the query and results stay. */
  function OnOutsideClick(p: Panel): (r: Panel)
    ensures !r.open && r.query == p.query && r.results == p.results && r.pending == p.pending
    ensures r.index == (if p.open then -1 else p.index)
  {
    Show(p, false)
  }

  /** The effect on lines 37-41: when the query mirrors the host's ticker, a new ticker becomes the query. */
  function OnTickerChanged(p: Panel, ticker: string, mirror: bool): (r: Panel)
    ensures r.query == (if mirror then ticker else p.query)
    ensures r.results == p.results && r.open == p.open && r.index == p.index && r.pending == p.pending
  {
    if mirror then p.(query := ticker) else p
  }

  /** One event. A row click on a row that is not shown cannot happen and changes nothing. */
  function Step(p: Panel, e: Event, mirror: bool): (o: Outcome)
    requires Inv(p)
    ensures Inv(o.panel)
    ensures o.selected.Some? ==> o.selected.value in p.results
  {
    match e
    case Keystroke(text) => Quiet(OnSearchChange(p, text))
    case TimerFired => OnTimerFired(p)
    case LookupOk(hits) => Quiet(OnLookupOk(p, hits))
    case LookupFailed => Quiet(OnLookupFailed(p))
    case Focus(ticker) => Quiet(OnFocus(p, ticker))
    case KeyDown(key) => OnKeyDown(p, key, mirror)
    case RowClick(row) => OnRowClick(p, row, mirror)
    case OutsideClick => Quiet(OnOutsideClick(p))
    case TickerChanged(ticker) => Quiet(OnTickerChanged(p, ticker, mirror))
    case Unmount => Quiet(p.(pending := None))
  }

  /** The effect of a run of events: the final state, every `onSelect` argument and every
      text sent to the search endpoint, in order. */
  datatype Trace = Trace(panel: Panel, selections: seq<SearchResult>, lookups: seq<string>)

  function Run(p: Panel, events: seq<Event>, mirror: bool): (t: Trace)
    requires Inv(p)
    ensures Inv(t.panel)
    decreases |events|
  {
    if events == [] then Trace(p, [], [])
    else
      var o := Step(p, events[0], mirror);
      Prepend(o, Run(o.panel, events[1..], mirror))
  }

  /** One step's selection and lookup (if any) put in front of the trace of the steps after it. */
  function Prepend(o: Outcome, rest: Trace): (t: Trace)
    ensures t.panel == rest.panel
    ensures |t.selections| == |rest.selections| + (if o.selected.Some? then 1 else 0)
    ensures |t.lookups| == |rest.lookups| + (if o.lookup.Some? then 1 else 0)
  {
    Trace(rest.panel,
          (if o.selected.Some? then [o.selected.value] else []) + rest.selections,
          (if o.lookup.Some? then [o.lookup.value] else []) + rest.lookups)
  }

  /** A trace followed by another that starts where the first ended. */
  function Join(a: Trace, b: Trace): Trace {
    Trace(b.panel, a.selections + b.selections, a.lookups + b.lookups)
  }

  lemma PrependJoin(o: Outcome, a: Trace, b: Trace)
    ensures Join(Prepend(o, a), b) == Prepend(o, Join(a, b))
  {
    var sel := if o.selected.Some? then [o.selected.value] else [];
    var look := if o.lookup.Some? then [o.lookup.value] else [];
    assert sel + (a.selections + b.selections) == (sel + a.selections) + b.selections;
    assert look + (a.lookups + b.lookups) == (look + a.lookups) + b.lookups;
  }

  /** Only the timer sends a lookup, and only of the scheduled text, which is non-blank; a
      keystroke schedules its text exactly when that is non-blank, and every other event keeps
      or cancels what is scheduled. */
  lemma StepSchedule(p: Panel, e: Event, mirror: bool)
    requires Inv(p)
    ensures var o := Step(p, e, mirror);
            (o.lookup.Some? ==> e == TimerFired && o.lookup == p.pending && Trim(o.lookup.value) != "") &&
            (e.Keystroke? ==> o.panel.pending == (if Trim(e.text) != "" then Some(e.text) else None)) &&
            (!e.Keystroke? ==> o.panel.pending == p.pending || o.panel.pending == None)
  {
  }

  /** No run of events ever sends blank text to the search endpoint. */
  lemma {:induction false} LookupsNonBlank(p: Panel, events: seq<Event>, mirror: bool)
    requires Inv(p)
    ensures forall q :: q in Run(p, events, mirror).lookups ==> Trim(q) != ""
    decreases |events|
  {
    if events != [] {
      var o := Step(p, events[0], mirror);
      StepSchedule(p, events[0], mirror);
      LookupsNonBlank(o.panel, events[1..], mirror);
    }
  }

  predicate BlankKeystrokes(events: seq<Event>) {
    forall i :: 0 <= i < |events| && events[i].Keystroke? ==> Trim(events[i].text) == ""
  }

  /** Whitespace-only typing never reaches the network: with nothing scheduled, no run of
      events whose keystrokes are all blank sends a lookup. */
  lemma {:induction false} BlankTypingNeverLooksUp(p: Panel, events: seq<Event>, mirror: bool)
    requires Inv(p) && p.pending.None? && BlankKeystrokes(events)
    ensures Run(p, events, mirror).lookups == []
    decreases |events|
  {
    if events != [] {
      var o := Step(p, events[0], mirror);
      StepSchedule(p, events[0], mirror);
      assert events[0].Keystroke? ==> Trim(events[0].text) == "";
      assert BlankKeystrokes(events[1..]) by {
        forall i | 0 <= i < |events[1..]| && events[1..][i].Keystroke?
          ensures Trim(events[1..][i].text) == ""
        {
          assert events[1..][i] == events[i + 1];
        }
      }
      BlankTypingNeverLooksUp(o.panel, events[1..], mirror);
    }
  }

  /** A run of two event lists is the run of the first followed by the run of the second
      from where the first ended; selections and lookups are concatenated in order. */
  /** A run is its first event's outcome in front of the run of the rest. */
  lemma RunCons(p: Panel, e: Event, rest: seq<Event>, mirror: bool)
    requires Inv(p)
    ensures var o := Step(p, e, mirror);
            Run(p, [e] + rest, mirror) == Prepend(o, Run(o.panel, rest, mirror))
  {
    assert ([e] + rest)[0] == e && ([e] + rest)[1..] == rest;
  }

  lemma {:induction false} RunAppend(p: Panel, xs: seq<Event>, ys: seq<Event>, mirror: bool)
    requires Inv(p)
    ensures Run(p, xs + ys, mirror) == Join(Run(p, xs, mirror), Run(Run(p, xs, mirror).panel, ys, mirror))
    decreases |xs|
  {
    if xs == [] {
      assert xs + ys == ys;
    } else {
      assert (xs + ys)[0] == xs[0] && (xs + ys)[1..] == xs[1..] + ys;
      var o := Step(p, xs[0], mirror);
      var a := Run(o.panel, xs[1..], mirror);
      RunAppend(o.panel, xs[1..], ys, mirror);
      PrependJoin(o, a, Run(a.panel, ys, mirror));
    }
  }

  /** Typing a text and letting the debounce timer fire. */
  function Typed(q: string): seq<Event> {
    [Keystroke(q), TimerFired]
  }

  /** Typing a non-blank text and waiting looks up exactly that text, once, and raises the
      loading flag; nothing else changes. */
  lemma TypeAndWait(p: Panel, q: string, mirror: bool)
    requires Inv(p) && Trim(q) != ""
    ensures Run(p, Typed(q), mirror) == Trace(p.(query := q, searching := true, pending := None), [], [q])
  {
    var p1 := p.(query := q, pending := Some(q));
    assert Typed(q)[1..] == [TimerFired];
    assert Run(p1, [TimerFired], mirror) == Trace(p1.(searching := true, pending := None), [], [q]);
  }

  /** A typed symbol without white space, such as a ticker, is looked up exactly as typed. */
  lemma TypedWordIsLookedUp(p: Panel, q: string, mirror: bool)
    requires Inv(p) && q != [] && forall k :: 0 <= k < |q| ==> !IsSpace(q[k])
    ensures Run(p, Typed(q), mirror).lookups == [q]
  {
    TrimWord(q);
    TypeAndWait(p, q, mirror);
  }

  /** An answer with hits followed by Enter selects the first hit, once, and hides the dropdown. */
  lemma AnswerThenEnter(p: Panel, hits: seq<SearchResult>, mirror: bool)
    requires Inv(p) && hits != []
    ensures Run(p, [LookupOk(hits), KeyDown(Enter)], mirror)
            == Trace(p.(query := if mirror then hits[0].symbol else p.query, results := hits,
                        searching := false, open := false, index := -1), [hits[0]], [])
  {
    var p1 := OnLookupOk(p, hits);
    var o2 := Step(p1, KeyDown(Enter), mirror);
    assert Step(p, LookupOk(hits), mirror) == Quiet(p1);
    assert o2.selected == Some(hits[0]) && o2.lookup == None;
    RunCons(p1, KeyDown(Enter), [], mirror);
    RunCons(p, LookupOk(hits), [KeyDown(Enter)], mirror);
    assert [LookupOk(hits)] + [KeyDown(Enter)] == [LookupOk(hits), KeyDown(Enter)];
  }
  /** Typing a query, waiting for the lookup, and pressing Enter selects the first hit once,
      shows its symbol in the box when the query mirrors the ticker, and hides the dropdown
      with no row highlighted. */
  lemma EnterSelectsFirstHit(q: string, hits: seq<SearchResult>, mirror: bool)
    requires Trim(q) != "" && hits != []
    ensures Run(Initial, Typed(q) + [LookupOk(hits), KeyDown(Enter)], mirror)
            == Trace(Panel(if mirror then hits[0].symbol else q, hits, false, false, -1, None), [hits[0]], [q])
  {
    RunAppend(Initial, Typed(q), [LookupOk(hits), KeyDown(Enter)], mirror);
    TypeAndWait(Initial, q, mirror);
    AnswerThenEnter(Initial.(query := q, searching := true, pending := None), hits, mirror);
  }

  /** An answer with no hits still opens the dropdown; with nothing highlighted, ArrowDown and
      Enter select nothing and change nothing. */
  lemma NoHitsSelectNothing(p: Panel, mirror: bool)
    requires Inv(p)
    ensures Run(p, [LookupOk([]), KeyDown(ArrowDown), KeyDown(Enter)], mirror)
            == Trace(p.(results := [], searching := false, open := true, index := -1), [], [])
  {
    var p1 := OnLookupOk(p, []);
    assert Step(p, LookupOk([]), mirror) == Quiet(p1);
    assert Step(p1, KeyDown(ArrowDown), mirror) == Quiet(p1);
    assert Step(p1, KeyDown(Enter), mirror) == Quiet(p1);
    RunCons(p1, KeyDown(Enter), [], mirror);
    RunCons(p1, KeyDown(ArrowDown), [KeyDown(Enter)], mirror);
    RunCons(p, LookupOk([]), [KeyDown(ArrowDown)] + [KeyDown(Enter)], mirror);
    assert [LookupOk([])] + ([KeyDown(ArrowDown)] + [KeyDown(Enter)]) == [LookupOk([]), KeyDown(ArrowDown), KeyDown(Enter)];
  }
  /** Debounce: a keystroke before the timer fires replaces the scheduled text, so only the
      latest text is looked up, once, however often the timer event repeats. */
  lemma OnlyLatestTextIsLookedUp(q1: string, q2: string, mirror: bool)
    requires Trim(q1) != "" && Trim(q2) != ""
    ensures Run(Initial, [Keystroke(q1)] + Typed(q2) + [TimerFired], mirror).lookups == [q2]
  {
    var p1 := Initial.(query := q1, pending := Some(q1));
    var p2 := p1.(query := q2, searching := true, pending := None);
    RunAppend(Initial, [Keystroke(q1)], Typed(q2), mirror);
    RunAppend(Initial, [Keystroke(q1)] + Typed(q2), [TimerFired], mirror);
    assert Run(Initial, [Keystroke(q1)], mirror) == Trace(p1, [], []);
    TypeAndWait(p1, q2, mirror);
    assert Run(p2, [TimerFired], mirror).lookups == [];
  }

  /** The arrow keys and Enter act on the held results whether or not the dropdown is shown:
      with the dropdown hidden and nothing highlighted, ArrowDown then Enter selects the first
      held result. */
  lemma ArrowsActWhileHidden(p: Panel, mirror: bool)
    requires Inv(p) && !p.open && p.index == -1 && |p.results| > 0
    ensures OnKeyDown(OnKeyDown(p, ArrowDown, mirror).panel, Enter, mirror).selected == Some(p.results[0])
  {
  }

  /** Escape hides a single answered hit, and ArrowDown then highlights it while hidden. */
  lemma HideThenHighlight(p: Panel, hit: SearchResult, mirror: bool)
    requires Inv(p)
    ensures Run(p, [LookupOk([hit]), KeyDown(Escape), KeyDown(ArrowDown)], mirror).panel
            == p.(results := [hit], searching := false, open := false, index := 0)
  {
    var p1 := OnLookupOk(p, [hit]);
    var p2 := p1.(open := false, index := -1);
    assert Step(p, LookupOk([hit]), mirror) == Quiet(p1);
    assert Step(p1, KeyDown(Escape), mirror).panel == p2;
    assert Step(p2, KeyDown(ArrowDown), mirror).panel == p2.(index := 0);
    RunCons(p2, KeyDown(ArrowDown), [], mirror);
    RunCons(p1, KeyDown(Escape), [KeyDown(ArrowDown)], mirror);
    RunCons(p, LookupOk([hit]), [KeyDown(Escape)] + [KeyDown(ArrowDown)], mirror);
    assert [LookupOk([hit])] + ([KeyDown(Escape)] + [KeyDown(ArrowDown)]) == [LookupOk([hit]), KeyDown(Escape), KeyDown(ArrowDown)];
  }
  /** The stale index, as written: after Escape hides a single result and ArrowDown highlights
      it while hidden, a failed lookup empties the results without a visibility change, so the
      close effect does not run and the index is left pointing past the end. */
  lemma StaleIndexAfterFailedLookup(q1: string, q2: string, hit: SearchResult, mirror: bool)
    requires Trim(q1) != "" && Trim(q2) != ""
    ensures var p := Run(Initial, Typed(q1) + [LookupOk([hit]), KeyDown(Escape), KeyDown(ArrowDown)] + Typed(q2),
                         mirror).panel;
            p == Panel(q2, [hit], true, false, 0, None) &&
            OnLookupFailedAsWritten(p).results == [] && OnLookupFailedAsWritten(p).index == 0 &&
            !IndexInRange(OnLookupFailedAsWritten(p)) &&
            OnLookupFailed(p).index == -1 && Step(OnLookupFailed(p), KeyDown(Enter), mirror).selected == None
  {
    var middle := [LookupOk([hit]), KeyDown(Escape), KeyDown(ArrowDown)];
    var p2 := Initial.(query := q1, searching := true, pending := None);
    var p5 := p2.(results := [hit], searching := false, open := false, index := 0);
    RunAppend(Initial, Typed(q1), middle, mirror);
    RunAppend(Initial, Typed(q1) + middle, Typed(q2), mirror);
    TypeAndWait(Initial, q1, mirror);
    HideThenHighlight(p2, hit, mirror);
    TypeAndWait(p5, q2, mirror);
  }

  /** The component itself: the state hooks as fields, each handler as a method that makes
      the same batched updates and then runs the close effect. */
  class TickerSearchDropdown {
    const queryBecomesTicker: bool
    var searchQuery: string
    var searchResults: seq<SearchResult>
    var isSearching: bool
    var showDropdown: bool
    var selectedIndex: int
    /** The text the scheduled debounce timer will look up, if one is scheduled. */
    var debounce: Option<string>

    function View(): Panel
      reads this
    {
      Panel(searchQuery, searchResults, isSearching, showDropdown, selectedIndex, debounce)
    }

    predicate Valid()
      reads this
    {
      Inv(View())
    }

    /** Mounting: the initial state, then the ticker effect (lines 37-41), which also runs on mount. */
    constructor(mirror: bool, ticker: string)
      ensures queryBecomesTicker == mirror && View() == OnTickerChanged(Initial, ticker, mirror) && Valid()
    {
      queryBecomesTicker := mirror;
      searchQuery := if mirror then ticker else "";
      searchResults := [];
      isSearching := false;
      showDropdown := false;
      selectedIndex := -1;
      debounce := None;
    }

    /** `setShowDropdown(visible)` followed by the close effect, which runs only on a change. */
    method SetShowDropdown(visible: bool)
      modifies this
      ensures View() == Show(old(View()), visible)
    {
      var wasShown := showDropdown;
      showDropdown := visible;
      if wasShown && !showDropdown {
        selectedIndex := -1;
      }
    }

    method SearchChanged(text: string)
      requires Valid()
      modifies this
      ensures Valid() && View() == OnSearchChange(old(View()), text)
    {
      searchQuery := text;
      debounce := None;
      if Trim(text) != "" {
        debounce := Some(text);
      }
    }

    /** The debounce timer elapses; the text it returns is sent to the search endpoint. */
    method TimerElapsed() returns (lookup: Option<string>)
      requires Valid()
      modifies this
      ensures Valid() && View() == OnTimerFired(old(View())).panel
      ensures lookup == old(debounce) && (lookup.Some? ==> Trim(lookup.value) != "")
    {
      lookup := debounce;
      if debounce.Some? {
        debounce := None;
        isSearching := true;
      }
    }

    method SearchSucceeded(hits: seq<SearchResult>)
      requires Valid()
      modifies this
      ensures Valid() && View() == OnLookupOk(old(View()), hits)
    {
      searchResults := hits;
      SetShowDropdown(true);
      selectedIndex := if |hits| > 0 then 0 else -1;
      isSearching := false;
    }

    /** A failed search, with the index reset that keeps it in range (see `OnLookupFailed`). */
    method SearchFailed()
      requires Valid()
      modifies this
      ensures Valid() && View() == OnLookupFailed(old(View()))
    {
      searchResults := [];
      SetShowDropdown(false);
      selectedIndex := -1;
      isSearching := false;
    }

    method Focused(ticker: string)
      requires Valid()
      modifies this
      ensures Valid() && View() == OnFocus(old(View()), ticker)
    {
      if |searchResults| > 0 {
        SetShowDropdown(true);
        selectedIndex := FindIndex(searchResults, ticker);
      } else {
        SetShowDropdown(false);
      }
    }

    method KeyPressed(key: Key) returns (selected: Option<SearchResult>, preventDefault: bool)
      requires Valid()
      modifies this
      ensures Valid()
      ensures View() == OnKeyDown(old(View()), key, queryBecomesTicker).panel
      ensures selected == OnKeyDown(old(View()), key, queryBecomesTicker).selected
      ensures preventDefault == OnKeyDown(old(View()), key, queryBecomesTicker).preventDefault
    {
      selected, preventDefault := None, false;
      if key == Escape {
        preventDefault := true;
        var wasShown := showDropdown;
        selectedIndex := if wasShown then 0 else -1;
        SetShowDropdown(!wasShown);
      } else if key == Tab {
        if showDropdown {
          SetShowDropdown(false);
        }
      } else if key == ArrowDown && selectedIndex < |searchResults| - 1 {
        preventDefault := true;
        selectedIndex := selectedIndex + 1;
      } else if key == ArrowUp && selectedIndex > 0 {
        preventDefault := true;
        selectedIndex := selectedIndex - 1;
      } else if key == Enter && selectedIndex >= 0 {
        preventDefault := true;
        var selection := searchResults[selectedIndex];
        selected := Some(selection);
        SetShowDropdown(false);
        if queryBecomesTicker {
          searchQuery := selection.symbol;
        }
      }
    }

    method RowClicked(row: int) returns (selected: Option<SearchResult>)
      requires Valid()
      modifies this
      ensures Valid()
      ensures View() == OnRowClick(old(View()), row, queryBecomesTicker).panel
      ensures selected == OnRowClick(old(View()), row, queryBecomesTicker).selected
    {
      selected := None;
      if showDropdown && 0 <= row < |searchResults| {
        var selection := searchResults[row];
        selected := Some(selection);
        SetShowDropdown(false);
        if queryBecomesTicker {
          searchQuery := selection.symbol;
        }
      }
    }

    method ClickOutside()
      requires Valid()
      modifies this
      ensures Valid() && View() == OnOutsideClick(old(View()))
    {
      SetShowDropdown(false);
    }

    method TickerChanged(ticker: string)
      requires Valid()
      modifies this
      ensures Valid() && View() == OnTickerChanged(old(View()), ticker, queryBecomesTicker)
    {
      if queryBecomesTicker {
        searchQuery := ticker;
      }
    }

    /** Unmounting cancels the scheduled timer. */
    method Unmount()
      requires Valid()
      modifies this
      ensures Valid() && View() == old(View()).(pending := None)
    {
      debounce := None;
    }
  }
}
