/** The `useEventFilters` hook: the filter sliders and flags of the events
    view, the query string it sends to the events route, and the events it
    holds. Unlike the markets hook, every threshold here equals its slider's
    default cap, and every name it sends is one the route reads. */
module EventFiltersHook {
  import opened Optional
  import opened ClientState
  import opened QueryParams
  import opened Seqs
  import Bounds
  import EventsRoute

  datatype FilterState = FilterState(
    totalVolume: Range, volume24hr: Range, liquidity: Range,
    newEvents: bool, endingSoon: bool)

  /** The initial state, which `clearFilters` restores. */
  const InitialFilters := FilterState(
    Range(0.0, 1000000000.0), Range(0.0, 10000000.0), Range(0.0, 10000000.0),
    false, false)

  datatype RangeKey = TotalVolume | Volume24hr | Liquidity
  datatype FlagKey = NewEventsFlag | EndingSoonFlag

  /** A call `handleFilterChange(key, value)` whose value has the key's type. */
  datatype FilterChange = SetRange(rangeKey: RangeKey, range: Range) | SetFlag(flagKey: FlagKey, flag: bool)

  function RangeOf(f: FilterState, k: RangeKey): Range
  {
    match k
    case TotalVolume => f.totalVolume
    case Volume24hr => f.volume24hr
    case Liquidity => f.liquidity
  }

  function FlagOf(f: FilterState, k: FlagKey): bool
  {
    match k
    case NewEventsFlag => f.newEvents
    case EndingSoonFlag => f.endingSoon
  }

  /** `{ ...prev, [key]: value }`: the named entry takes the new value and
      every other entry keeps its old one. */
  function Changed(f: FilterState, c: FilterChange): (g: FilterState)
    ensures c.SetRange? ==> RangeOf(g, c.rangeKey) == c.range
    ensures c.SetRange? ==> forall k :: k != c.rangeKey ==> RangeOf(g, k) == RangeOf(f, k)
    ensures c.SetRange? ==> forall k :: FlagOf(g, k) == FlagOf(f, k)
    ensures c.SetFlag? ==> FlagOf(g, c.flagKey) == c.flag
    ensures c.SetFlag? ==> forall k :: k != c.flagKey ==> FlagOf(g, k) == FlagOf(f, k)
    ensures c.SetFlag? ==> forall k :: RangeOf(g, k) == RangeOf(f, k)
  {
    match c
    case SetRange(k, r) =>
      (match k
       case TotalVolume => f.(totalVolume := r)
       case Volume24hr => f.(volume24hr := r)
       case Liquidity => f.(liquidity := r))
    case SetFlag(k, b) =>
      (match k
       case NewEventsFlag => f.(newEvents := b)
       case EndingSoonFlag => f.(endingSoon := b))
  }

  /** The order in which `fetchEvents` considers the parameters. */
  const Order: seq<ParamName> := [
    MinTotalVolume, MaxTotalVolume, MinVolume24hr, MaxVolume24hr,
    MinLiquidity, MaxLiquidity, New, EndingSoon, Search]

  /** What `fetchEvents` appends under each name, when anything. */
  function Chosen(f: FilterState, search: string, n: ParamName): Option<ParamValue>
  {
    match n
    case MinTotalVolume => LowerParam(f.totalVolume.lo)
    case MaxTotalVolume => UpperParam(f.totalVolume.hi, 1000000000.0)
    case MinVolume24hr => LowerParam(f.volume24hr.lo)
    case MaxVolume24hr => UpperParam(f.volume24hr.hi, 10000000.0)
    case MinLiquidity => LowerParam(f.liquidity.lo)
    case MaxLiquidity => UpperParam(f.liquidity.hi, 10000000.0)
    case New => FlagParam(f.newEvents)
    case EndingSoon => FlagParam(f.endingSoon)
    case Search => TextParam(search)
    case _ => None
  }

  function Choice(f: FilterState, search: string): ParamName -> Option<ParamValue>
  {
    n => Chosen(f, search, n)
  }

  /** The query string `fetchEvents` builds. */
  function Params(f: FilterState, search: string): seq<Param>
  {
    Appended(Order, Choice(f, search))
  }

  /** The initial filters with an empty search send no parameter at all. */
  lemma InitialSendsNothing()
    ensures Params(InitialFilters, "") == []
  {
    AppendedNothing(Order, Choice(InitialFilters, ""));
  }

  /** `get` on the query answers, under every name, what the builder chose
      to send under it (nothing for the names it never visits). */
  lemma GetParams(f: FilterState, search: string, n: ParamName)
    ensures Get(Params(f, search), n) == Chosen(f, search, n)
  {
    GetAppended(Order, Choice(f, search), n);
  }

  /** The names come in the order the appends are written. */
  lemma ParamsInOrder(f: FilterState, search: string)
    ensures IsSubsequence(Names(Params(f, search)), Order)
  {
    AppendedInOrder(Order, Choice(f, search));
  }

  /** What the builder chooses for the sliders: a lower bound when above 0,
      an upper bound when below the slider's default cap (1,000,000,000 for
      the total volume, 10,000,000 for the 24-hour volume and the liquidity). */
  lemma ChosenBounds(f: FilterState, search: string)
    ensures Chosen(f, search, MinTotalVolume) == LowerParam(f.totalVolume.lo)
    ensures Chosen(f, search, MaxTotalVolume) == UpperParam(f.totalVolume.hi, 1000000000.0)
    ensures Chosen(f, search, MinVolume24hr) == LowerParam(f.volume24hr.lo)
    ensures Chosen(f, search, MaxVolume24hr) == UpperParam(f.volume24hr.hi, 10000000.0)
    ensures Chosen(f, search, MinLiquidity) == LowerParam(f.liquidity.lo)
    ensures Chosen(f, search, MaxLiquidity) == UpperParam(f.liquidity.hi, 10000000.0)
  {
  }

  /** Each set flag is chosen as 'true', and a non-empty search as itself. */
  lemma ChosenFlagsAndSearch(f: FilterState, search: string)
    ensures Chosen(f, search, New) == FlagParam(f.newEvents)
    ensures Chosen(f, search, EndingSoon) == FlagParam(f.endingSoon)
    ensures Chosen(f, search, Search) == TextParam(search)
  {
  }

  /** The sliders' bounds as `get` reads them from the query. */
  lemma BoundParamsSent(f: FilterState, search: string)
    ensures Get(Params(f, search), MinTotalVolume) == LowerParam(f.totalVolume.lo)
    ensures Get(Params(f, search), MaxTotalVolume) == UpperParam(f.totalVolume.hi, 1000000000.0)
    ensures Get(Params(f, search), MinVolume24hr) == LowerParam(f.volume24hr.lo)
    ensures Get(Params(f, search), MaxVolume24hr) == UpperParam(f.volume24hr.hi, 10000000.0)
    ensures Get(Params(f, search), MinLiquidity) == LowerParam(f.liquidity.lo)
    ensures Get(Params(f, search), MaxLiquidity) == UpperParam(f.liquidity.hi, 10000000.0)
  {
    ChosenBounds(f, search);
    GetParams(f, search, MinTotalVolume);
    GetParams(f, search, MaxTotalVolume);
    GetParams(f, search, MinVolume24hr);
    GetParams(f, search, MaxVolume24hr);
    GetParams(f, search, MinLiquidity);
    GetParams(f, search, MaxLiquidity);
  }

  /** The flags and the search as `get` reads them. */
  lemma FlagParamsSent(f: FilterState, search: string)
    ensures Get(Params(f, search), New) == FlagParam(f.newEvents)
    ensures Get(Params(f, search), EndingSoon) == FlagParam(f.endingSoon)
    ensures Get(Params(f, search), Search) == TextParam(search)
  {
    ChosenFlagsAndSearch(f, search);
    GetParams(f, search, New);
    GetParams(f, search, EndingSoon);
    GetParams(f, search, Search);
  }

  /** A lower bound as the route receives it: the bound, or 0 when not above 0. */
  function LowerReceived(lo: real): real
  {
    if lo > 0.0 then lo else 0.0
  }

  /** An upper bound as the route receives it: the bound below the cap, and
      no bound at or above it. */
  function UpperReceived(hi: real, cap: real): Bounds.UpperBound
  {
    if hi < cap then Bounds.Finite(hi) else Bounds.Infinite
  }

  /** The query the events route parses from what the hook sends. */
  function Received(f: FilterState, search: string): EventsRoute.EventQuery
  {
    EventsRoute.EventQuery(
      LowerReceived(f.totalVolume.lo), UpperReceived(f.totalVolume.hi, 1000000000.0),
      LowerReceived(f.volume24hr.lo), UpperReceived(f.volume24hr.hi, 10000000.0),
      LowerReceived(f.liquidity.lo), UpperReceived(f.liquidity.hi, 10000000.0),
      f.newEvents, f.endingSoon, search)
  }

  /** What the events route makes of the query: every slider bound arrives
      (a bound left at its default as no bound), and so do the flags and
      the search. */
  lemma RouteReceives(f: FilterState, search: string, parseFloat: string -> real)
    ensures EventsRoute.ParseQuery(Params(f, search), parseFloat) == Received(f, search)
  {
    BoundParamsSent(f, search);
    FlagParamsSent(f, search);
    LowerRoundTrip(f.totalVolume.lo, parseFloat);
    UpperRoundTrip(f.totalVolume.hi, 1000000000.0, parseFloat);
    LowerRoundTrip(f.volume24hr.lo, parseFloat);
    UpperRoundTrip(f.volume24hr.hi, 10000000.0, parseFloat);
    LowerRoundTrip(f.liquidity.lo, parseFloat);
    UpperRoundTrip(f.liquidity.hi, 10000000.0, parseFloat);
    FlagRoundTrip(f.newEvents);
    FlagRoundTrip(f.endingSoon);
    TextRoundTrip(search);
  }

  /** Filters within their sliders' default ranges arrive at the route
      unchanged: a lower bound of 0 means no lower bound there too, and an
      upper bound at its cap means no upper bound. */
  lemma RouteReceivesWithinDefaults(f: FilterState, search: string, parseFloat: string -> real)
    requires 0.0 <= f.totalVolume.lo && 0.0 <= f.volume24hr.lo && 0.0 <= f.liquidity.lo
    ensures EventsRoute.ParseQuery(Params(f, search), parseFloat).minTotalVolume == f.totalVolume.lo
    ensures EventsRoute.ParseQuery(Params(f, search), parseFloat).minVolume24hr == f.volume24hr.lo
    ensures EventsRoute.ParseQuery(Params(f, search), parseFloat).minLiquidity == f.liquidity.lo
    ensures f.totalVolume.hi == InitialFilters.totalVolume.hi ==>
      EventsRoute.ParseQuery(Params(f, search), parseFloat).maxTotalVolume == Bounds.Infinite
    ensures f.volume24hr.hi == InitialFilters.volume24hr.hi ==>
      EventsRoute.ParseQuery(Params(f, search), parseFloat).maxVolume24hr == Bounds.Infinite
    ensures f.liquidity.hi == InitialFilters.liquidity.hi ==>
      EventsRoute.ParseQuery(Params(f, search), parseFloat).maxLiquidity == Bounds.Infinite
  {
    RouteReceives(f, search, parseFloat);
  }

  /** After `clearFilters`, the route applies no bound and no flag. */
  lemma ClearedQueryIsUnbounded(search: string, parseFloat: string -> real)
    ensures EventsRoute.ParseQuery(Params(InitialFilters, search), parseFloat)
         == EventsRoute.NoParameters.(search := search)
  {
    RouteReceives(InitialFilters, search, parseFloat);
  }

  // Proof helpers for the builder below: each append method sees `Order`
  // and `Choice` only at the positions and names it appends, which keeps
  // its proof small. `OrderIsSourceOrder` and `ChoicePicksAsChosen` tie
  // them back to `Order` and `Chosen`.

  /** `order` lists the names in the order the appends of `fetchEvents` are
      written: it is `Order`, position by position. */
  predicate SourceOrder(order: seq<ParamName>)
  {
    && |order| == 9
    && order[0] == MinTotalVolume && order[1] == MaxTotalVolume
    && order[2] == MinVolume24hr && order[3] == MaxVolume24hr
    && order[4] == MinLiquidity && order[5] == MaxLiquidity
    && order[6] == New && order[7] == EndingSoon && order[8] == Search
  }

  /** `choose` picks what `Chosen` picks for the slider bounds. */
  predicate PicksSliderBounds(choose: ParamName -> Option<ParamValue>, f: FilterState)
  {
    && choose(MinTotalVolume) == LowerParam(f.totalVolume.lo)
    && choose(MaxTotalVolume) == UpperParam(f.totalVolume.hi, 1000000000.0)
    && choose(MinVolume24hr) == LowerParam(f.volume24hr.lo)
    && choose(MaxVolume24hr) == UpperParam(f.volume24hr.hi, 10000000.0)
    && choose(MinLiquidity) == LowerParam(f.liquidity.lo)
    && choose(MaxLiquidity) == UpperParam(f.liquidity.hi, 10000000.0)
  }

  /** `choose` picks what `Chosen` picks for the flags and the search. */
  predicate PicksFlagsAndSearch(choose: ParamName -> Option<ParamValue>, f: FilterState, search: string)
  {
    && choose(New) == FlagParam(f.newEvents)
    && choose(EndingSoon) == FlagParam(f.endingSoon)
    && choose(Search) == TextParam(search)
  }

  lemma ChoicePicksAsChosen(f: FilterState, search: string)
    ensures PicksSliderBounds(Choice(f, search), f)
    ensures PicksFlagsAndSearch(Choice(f, search), f, search)
  {
    ChosenBounds(f, search);
    ChosenFlagsAndSearch(f, search);
  }

  lemma OrderIsSourceOrder()
    ensures SourceOrder(Order)
  {
  }

  /** The slider appends of `fetchEvents` onto an empty buffer, a lower and
      an upper bound per slider: the buffer ends up holding what `choose`
      picks for the first six names of `order`. */
  method AppendSliderParams(buffer: SearchParams, f: FilterState,
                            ghost order: seq<ParamName>, ghost choose: ParamName -> Option<ParamValue>)
    requires |order| == 9 && order[0] == MinTotalVolume && order[1] == MaxTotalVolume
    requires order[2] == MinVolume24hr && order[3] == MaxVolume24hr
    requires order[4] == MinLiquidity && order[5] == MaxLiquidity
    requires PicksSliderBounds(choose, f)
    requires buffer.entries == []
    modifies buffer
    ensures buffer.entries == Appended(order[..6], choose)
  {
    assert order[..0] == [];
    AppendRange(buffer, f.totalVolume.lo, f.totalVolume.hi, 1000000000.0, MinTotalVolume, MaxTotalVolume, order, 0, choose);
    AppendRange(buffer, f.volume24hr.lo, f.volume24hr.hi, 10000000.0, MinVolume24hr, MaxVolume24hr, order, 2, choose);
    AppendRange(buffer, f.liquidity.lo, f.liquidity.hi, 10000000.0, MinLiquidity, MaxLiquidity, order, 4, choose);
  }

  /** The flag and search appends that follow: the buffer ends up holding
      what `choose` picks for all of `order`. */
  method AppendFlagAndSearchParams(buffer: SearchParams, f: FilterState, search: string,
                                   ghost order: seq<ParamName>, ghost choose: ParamName -> Option<ParamValue>)
    requires |order| == 9 && order[6] == New && order[7] == EndingSoon && order[8] == Search
    requires PicksFlagsAndSearch(choose, f, search)
    requires buffer.entries == Appended(order[..6], choose)
    modifies buffer
    ensures buffer.entries == Appended(order[..9], choose)
  {
    AppendFlag(buffer, f.newEvents, New, order, 6, choose);
    AppendFlag(buffer, f.endingSoon, EndingSoon, order, 7, choose);
    AppendText(buffer, search, Search, order, 8, choose);
  }

  /** The `URLSearchParams` that `fetchEvents` builds from the filters and
      the search text. */
  method BuildParams(f: FilterState, search: string) returns (params: seq<Param>)
    ensures params == Params(f, search)
  {
    var buffer := new SearchParams();
    OrderIsSourceOrder();
    ChoicePicksAsChosen(f, search);
    AppendSliderParams(buffer, f, Order, Choice(f, search));
    AppendFlagAndSearchParams(buffer, f, search, Order, Choice(f, search));
    AppendedAll(Order, Choice(f, search));
    params := buffer.entries;
  }

  /** The hook's state. */
  class EventFilters {
    var events: seq<EventsRoute.Event>
    var loading: bool
    var searchQuery: string
    var filters: FilterState

    constructor ()
      ensures events == [] && loading && searchQuery == "" && filters == InitialFilters
    {
      events := [];
      loading := true;
      searchQuery := "";
      filters := InitialFilters;
    }

    /** `setSearchQuery(query)`. */
    method SetSearchQuery(query: string)
      modifies this
      ensures searchQuery == query
      ensures events == old(events) && loading == old(loading) && filters == old(filters)
    {
      searchQuery := query;
    }

    /** `handleFilterChange(key, value)`. */
    method HandleFilterChange(c: FilterChange)
      modifies this
      ensures filters == Changed(old(filters), c)
      ensures events == old(events) && loading == old(loading) && searchQuery == old(searchQuery)
    {
      filters := Changed(filters, c);
    }

    /** `clearFilters()`: the initial filters; the search text is kept. */
    method ClearFilters()
      modifies this
      ensures filters == InitialFilters
      ensures events == old(events) && loading == old(loading) && searchQuery == old(searchQuery)
    {
      filters := InitialFilters;
    }

    /** `fetchEvents()` (and `applyFilters()`, which only calls it), given
        how the request ends: it sends the query built from the current
        filters and search text, replaces the events only on success, and
        always ends with `loading` false. The filters and the search text
        are outside its frame. */
    method FetchEvents(outcome: FetchOutcome<EventsRoute.Event>) returns (sent: seq<Param>)
      modifies this`events, this`loading
      ensures sent == Params(filters, searchQuery)
      ensures events == AfterFetch(old(events), outcome)
      ensures !loading
    {
      sent := BuildParams(filters, searchQuery);
      AwaitResponse(outcome);
    }

    /** The request's lifetime inside `fetchEvents`: `loading` is raised
        while it is out, a successful answer replaces the events, and the
        `finally` branch lowers `loading` whatever happened. */
    method AwaitResponse(outcome: FetchOutcome<EventsRoute.Event>)
      modifies this`events, this`loading
      ensures events == AfterFetch(old(events), outcome)
      ensures !loading
    {
      loading := true;
      if outcome.Answered? && outcome.response.Success? {
        events := outcome.response.data;
      }
      loading := false;
    }
  }
}
