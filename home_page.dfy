/** The home page's own filter state: five volume filters typed as text,
    two checkboxes and a search box, the query string its `fetchEvents`
    sends to the events route, and the events it holds. Of what it sends,
    the route reads only the total and 24-hour volumes, the `new` flag and
    the search. */
module HomePage {
  import opened Optional
  import opened ClientState
  import opened QueryParams
  import opened Seqs
  import Bounds
  import EventsRoute

  datatype FilterState = FilterState(
    totalVolume: string, volume24hr: string, volume1wk: string, volume1mo: string, volume1yr: string,
    newEvents: bool, featuredEvents: bool)

  /** The initial state, which `clearFilters` restores: every text empty and
      every checkbox clear. */
  const InitialFilters := FilterState("", "", "", "", "", false, false)

  datatype TextKey = TotalVolume | Volume24hr | Volume1wk | Volume1mo | Volume1yr
  datatype FlagKey = NewEventsFlag | FeaturedEventsFlag

  /** A call `handleFilterChange(key, value)` whose value has the key's type. */
  datatype FilterChange = SetText(textKey: TextKey, text: string) | SetFlag(flagKey: FlagKey, flag: bool)

  function TextOf(f: FilterState, k: TextKey): string
  {
    match k
    case TotalVolume => f.totalVolume
    case Volume24hr => f.volume24hr
    case Volume1wk => f.volume1wk
    case Volume1mo => f.volume1mo
    case Volume1yr => f.volume1yr
  }

  function FlagOf(f: FilterState, k: FlagKey): bool
  {
    match k
    case NewEventsFlag => f.newEvents
    case FeaturedEventsFlag => f.featuredEvents
  }

  /** `{ ...prev, [key]: value }`: the named entry takes the new value and
      every other entry keeps its old one. */
  function Changed(f: FilterState, c: FilterChange): (g: FilterState)
    ensures c.SetText? ==> TextOf(g, c.textKey) == c.text
    ensures c.SetText? ==> forall k :: k != c.textKey ==> TextOf(g, k) == TextOf(f, k)
    ensures c.SetText? ==> forall k :: FlagOf(g, k) == FlagOf(f, k)
    ensures c.SetFlag? ==> FlagOf(g, c.flagKey) == c.flag
    ensures c.SetFlag? ==> forall k :: k != c.flagKey ==> FlagOf(g, k) == FlagOf(f, k)
    ensures c.SetFlag? ==> forall k :: TextOf(g, k) == TextOf(f, k)
  {
    match c
    case SetText(k, t) =>
      (match k
       case TotalVolume => f.(totalVolume := t)
       case Volume24hr => f.(volume24hr := t)
       case Volume1wk => f.(volume1wk := t)
       case Volume1mo => f.(volume1mo := t)
       case Volume1yr => f.(volume1yr := t))
    case SetFlag(k, b) =>
      (match k
       case NewEventsFlag => f.(newEvents := b)
       case FeaturedEventsFlag => f.(featuredEvents := b))
  }

  /** The order in which `fetchEvents` considers the parameters. */
  const Order: seq<ParamName> := [
    MinTotalVolume, MinVolume24hr, MinVolume1wk, MinVolume1mo, MinVolume1yr,
    New, Featured, Search]

  /** What `fetchEvents` appends under each name, when anything: each
      non-empty volume text as it was typed, each set checkbox as 'true',
      and a non-empty search. */
  function Chosen(f: FilterState, search: string, n: ParamName): Option<ParamValue>
  {
    match n
    case MinTotalVolume => TextParam(f.totalVolume)
    case MinVolume24hr => TextParam(f.volume24hr)
    case MinVolume1wk => TextParam(f.volume1wk)
    case MinVolume1mo => TextParam(f.volume1mo)
    case MinVolume1yr => TextParam(f.volume1yr)
    case New => FlagParam(f.newEvents)
    case Featured => FlagParam(f.featuredEvents)
    case Search => TextParam(search)
    case _ => None
  }

  function Choice(f: FilterState, search: string): ParamName -> Option<ParamValue>
  {
    n => Chosen(f, search, n)
  }

  /** The query string `fetchEvents` builds. */
  function Params(f: FilterState, search: string): seq<Param>
  {
    Appended(Order, Choice(f, search))
  }

  /** The initial filters with an empty search send no parameter at all. */
  lemma InitialSendsNothing()
    ensures Params(InitialFilters, "") == []
  {
    AppendedNothing(Order, Choice(InitialFilters, ""));
  }

  /** `get` on the query answers, under every name, what the builder chose
      to send under it (nothing for the names it never visits). */
  lemma GetParams(f: FilterState, search: string, n: ParamName)
    ensures Get(Params(f, search), n) == Chosen(f, search, n)
  {
    GetAppended(Order, Choice(f, search), n);
  }

  /** The names come in the order the appends are written. */
  lemma ParamsInOrder(f: FilterState, search: string)
    ensures IsSubsequence(Names(Params(f, search)), Order)
  {
    AppendedInOrder(Order, Choice(f, search));
  }

  /** Each volume text is chosen, as typed, exactly when it is non-empty. */
  lemma ChosenTexts(f: FilterState, search: string)
    ensures Chosen(f, search, MinTotalVolume) == TextParam(f.totalVolume)
    ensures Chosen(f, search, MinVolume24hr) == TextParam(f.volume24hr)
    ensures Chosen(f, search, MinVolume1wk) == TextParam(f.volume1wk)
    ensures Chosen(f, search, MinVolume1mo) == TextParam(f.volume1mo)
    ensures Chosen(f, search, MinVolume1yr) == TextParam(f.volume1yr)
  {
  }

  /** Each set checkbox is chosen as 'true', and a non-empty search as itself. */
  lemma ChosenFlagsAndSearch(f: FilterState, search: string)
    ensures Chosen(f, search, New) == FlagParam(f.newEvents)
    ensures Chosen(f, search, Featured) == FlagParam(f.featuredEvents)
    ensures Chosen(f, search, Search) == TextParam(search)
  {
  }

  /** The volume texts as `get` reads them from the query. */
  lemma TextParamsSent(f: FilterState, search: string)
    ensures Get(Params(f, search), MinTotalVolume) == TextParam(f.totalVolume)
    ensures Get(Params(f, search), MinVolume24hr) == TextParam(f.volume24hr)
    ensures Get(Params(f, search), MinVolume1wk) == TextParam(f.volume1wk)
    ensures Get(Params(f, search), MinVolume1mo) == TextParam(f.volume1mo)
    ensures Get(Params(f, search), MinVolume1yr) == TextParam(f.volume1yr)
  {
    ChosenTexts(f, search);
    GetParams(f, search, MinTotalVolume);
    GetParams(f, search, MinVolume24hr);
    GetParams(f, search, MinVolume1wk);
    GetParams(f, search, MinVolume1mo);
    GetParams(f, search, MinVolume1yr);
  }

  /** The checkboxes and the search as `get` reads them. */
  lemma FlagParamsSent(f: FilterState, search: string)
    ensures Get(Params(f, search), New) == FlagParam(f.newEvents)
    ensures Get(Params(f, search), Featured) == FlagParam(f.featuredEvents)
    ensures Get(Params(f, search), Search) == TextParam(search)
  {
    ChosenFlagsAndSearch(f, search);
    GetParams(f, search, New);
    GetParams(f, search, Featured);
    GetParams(f, search, Search);
  }

  /** Nothing is chosen under the other names the events route reads. */
  lemma ChosenNothingElse(f: FilterState, search: string)
    ensures Chosen(f, search, MaxTotalVolume).None? && Chosen(f, search, MaxVolume24hr).None?
    ensures Chosen(f, search, MinLiquidity).None? && Chosen(f, search, MaxLiquidity).None?
    ensures Chosen(f, search, EndingSoon).None?
  {
  }

  /** No upper bound, no liquidity bound and no `endingSoon` is ever sent. */
  lemma UnsentParams(f: FilterState, search: string)
    ensures Get(Params(f, search), MaxTotalVolume).None? && Get(Params(f, search), MaxVolume24hr).None?
    ensures Get(Params(f, search), MinLiquidity).None? && Get(Params(f, search), MaxLiquidity).None?
    ensures Get(Params(f, search), EndingSoon).None?
  {
    ChosenNothingElse(f, search);
    GetParams(f, search, MaxTotalVolume);
    GetParams(f, search, MaxVolume24hr);
    GetParams(f, search, MinLiquidity);
    GetParams(f, search, MaxLiquidity);
    GetParams(f, search, EndingSoon);
  }

  /** A volume text as the route reads it: `parseFloat` of the text, or 0
      when it is empty. */
  function TextBound(t: string, parseFloat: string -> real): real
  {
    if t == "" then 0.0 else parseFloat(t)
  }

  /** The query the events route parses from what the page sends: the week,
      month and year volumes and the `featured` checkbox are not among them. */
  function Received(f: FilterState, search: string, parseFloat: string -> real): EventsRoute.EventQuery
  {
    EventsRoute.EventQuery(
      TextBound(f.totalVolume, parseFloat), Bounds.Infinite,
      TextBound(f.volume24hr, parseFloat), Bounds.Infinite,
      0.0, Bounds.Infinite,
      f.newEvents, false, search)
  }

  /** What the events route makes of the query the page sends. */
  lemma RouteReceives(f: FilterState, search: string, parseFloat: string -> real)
    ensures EventsRoute.ParseQuery(Params(f, search), parseFloat) == Received(f, search, parseFloat)
  {
    TextParamsSent(f, search);
    FlagParamsSent(f, search);
    UnsentParams(f, search);
    TextLowerRoundTrip(f.totalVolume, parseFloat);
    TextLowerRoundTrip(f.volume24hr, parseFloat);
    FlagRoundTrip(f.newEvents);
    TextRoundTrip(search);
  }

  /** Two filter states that agree on the total and 24-hour volume texts and
      on the `new` checkbox reach the route as the same query: the week,
      month and year volumes and the `featured` checkbox have no effect. */
  lemma IgnoredByRoute(f: FilterState, g: FilterState, search: string, parseFloat: string -> real)
    requires f.totalVolume == g.totalVolume && f.volume24hr == g.volume24hr && f.newEvents == g.newEvents
    ensures EventsRoute.ParseQuery(Params(f, search), parseFloat) == EventsRoute.ParseQuery(Params(g, search), parseFloat)
  {
    RouteReceives(f, search, parseFloat);
    RouteReceives(g, search, parseFloat);
  }

  // Proof helpers for the builder below: each append method sees `Order`
  // and `Choice` only at the positions and names it appends, which keeps
  // its proof small. `OrderIsSourceOrder` and `ChoicePicksAsChosen` tie
  // them back to `Order` and `Chosen`.

  /** `order` lists the names in the order the appends of `fetchEvents` are
      written: it is `Order`, position by position. */
  predicate SourceOrder(order: seq<ParamName>)
  {
    && |order| == 8
    && order[0] == MinTotalVolume && order[1] == MinVolume24hr && order[2] == MinVolume1wk
    && order[3] == MinVolume1mo && order[4] == MinVolume1yr
    && order[5] == New && order[6] == Featured && order[7] == Search
  }

  /** `choose` picks what `Chosen` picks for the volume texts. */
  predicate PicksTexts(choose: ParamName -> Option<ParamValue>, f: FilterState)
  {
    && choose(MinTotalVolume) == TextParam(f.totalVolume)
    && choose(MinVolume24hr) == TextParam(f.volume24hr)
    && choose(MinVolume1wk) == TextParam(f.volume1wk)
    && choose(MinVolume1mo) == TextParam(f.volume1mo)
    && choose(MinVolume1yr) == TextParam(f.volume1yr)
  }

  /** `choose` picks what `Chosen` picks for the checkboxes and the search. */
  predicate PicksFlagsAndSearch(choose: ParamName -> Option<ParamValue>, f: FilterState, search: string)
  {
    && choose(New) == FlagParam(f.newEvents)
    && choose(Featured) == FlagParam(f.featuredEvents)
    && choose(Search) == TextParam(search)
  }

  lemma ChoicePicksAsChosen(f: FilterState, search: string)
    ensures PicksTexts(Choice(f, search), f)
    ensures PicksFlagsAndSearch(Choice(f, search), f, search)
  {
    ChosenTexts(f, search);
    ChosenFlagsAndSearch(f, search);
  }

  lemma OrderIsSourceOrder()
    ensures SourceOrder(Order)
  {
  }

  /** The five volume appends onto an empty buffer: the buffer ends up
      holding what `choose` picks for the first five names of `order`. */
  method AppendTextParams(buffer: SearchParams, f: FilterState,
                          ghost order: seq<ParamName>, ghost choose: ParamName -> Option<ParamValue>)
    requires |order| == 8 && order[0] == MinTotalVolume && order[1] == MinVolume24hr
    requires order[2] == MinVolume1wk && order[3] == MinVolume1mo && order[4] == MinVolume1yr
    requires PicksTexts(choose, f)
    requires buffer.entries == []
    modifies buffer
    ensures buffer.entries == Appended(order[..5], choose)
  {
    assert order[..0] == [];
    AppendText(buffer, f.totalVolume, MinTotalVolume, order, 0, choose);
    AppendText(buffer, f.volume24hr, MinVolume24hr, order, 1, choose);
    AppendText(buffer, f.volume1wk, MinVolume1wk, order, 2, choose);
    AppendText(buffer, f.volume1mo, MinVolume1mo, order, 3, choose);
    AppendText(buffer, f.volume1yr, MinVolume1yr, order, 4, choose);
  }

  /** The checkbox and search appends that follow: the buffer ends up
      holding what `choose` picks for all of `order`. */
  method AppendFlagAndSearchParams(buffer: SearchParams, f: FilterState, search: string,
                                   ghost order: seq<ParamName>, ghost choose: ParamName -> Option<ParamValue>)
    requires |order| == 8 && order[5] == New && order[6] == Featured && order[7] == Search
    requires PicksFlagsAndSearch(choose, f, search)
    requires buffer.entries == Appended(order[..5], choose)
    modifies buffer
    ensures buffer.entries == Appended(order[..8], choose)
  {
    AppendFlag(buffer, f.newEvents, New, order, 5, choose);
    AppendFlag(buffer, f.featuredEvents, Featured, order, 6, choose);
    AppendText(buffer, search, Search, order, 7, choose);
  }

  /** The `URLSearchParams` that `fetchEvents` builds from the filters and
      the search text. */
  method BuildParams(f: FilterState, search: string) returns (params: seq<Param>)
    ensures params == Params(f, search)
  {
    var buffer := new SearchParams();
    OrderIsSourceOrder();
    ChoicePicksAsChosen(f, search);
    AppendTextParams(buffer, f, Order, Choice(f, search));
    AppendFlagAndSearchParams(buffer, f, search, Order, Choice(f, search));
    AppendedAll(Order, Choice(f, search));
    params := buffer.entries;
  }

  /** The page's data state (the active tab is presentation only). */
  class Home {
    var events: seq<EventsRoute.Event>
    var loading: bool
    var searchQuery: string
    var filters: FilterState

    constructor ()
      ensures events == [] && loading && searchQuery == "" && filters == InitialFilters
    {
      events := [];
      loading := true;
      searchQuery := "";
      filters := InitialFilters;
    }

    /** `setSearchQuery(query)`. */
    method SetSearchQuery(query: string)
      modifies this
      ensures searchQuery == query
      ensures events == old(events) && loading == old(loading) && filters == old(filters)
    {
      searchQuery := query;
    }

    /** `handleFilterChange(key, value)`. */
    method HandleFilterChange(c: FilterChange)
      modifies this
      ensures filters == Changed(old(filters), c)
      ensures events == old(events) && loading == old(loading) && searchQuery == old(searchQuery)
    {
      filters := Changed(filters, c);
    }

    /** `clearFilters()`: every volume text empty and every checkbox clear;
        the search text is kept. */
    method ClearFilters()
      modifies this
      ensures filters == InitialFilters
      ensures forall k :: TextOf(filters, k) == "" && forall k :: !FlagOf(filters, k)
      ensures events == old(events) && loading == old(loading) && searchQuery == old(searchQuery)
    {
      filters := InitialFilters;
    }

    /** `fetchEvents()` (and `applyFilters()`, which only calls it), given
        how the request ends: it sends the query built from the current
        filters and search text, replaces the events only on success, and
        always ends with `loading` false. The filters and the search text
        are outside its frame. */
    method FetchEvents(outcome: FetchOutcome<EventsRoute.Event>) returns (sent: seq<Param>)
      modifies this`events, this`loading
      ensures sent == Params(filters, searchQuery)
      ensures events == AfterFetch(old(events), outcome)
      ensures !loading
    {
      sent := BuildParams(filters, searchQuery);
      AwaitResponse(outcome);
    }

    /** The request's lifetime inside `fetchEvents`: `loading` is raised
        while it is out, a successful answer replaces the events, and the
        `finally` branch lowers `loading` whatever happened. */
    method AwaitResponse(outcome: FetchOutcome<EventsRoute.Event>)
      modifies this`events, this`loading
      ensures events == AfterFetch(old(events), outcome)
      ensures !loading
    {
      loading := true;
      if outcome.Answered? && outcome.response.Success? {
        events := outcome.response.data;
      }
      loading := false;
    }
  }
}
