/** The `useMarketFilters` hook: the filter sliders and flags of the markets
    page, the query string it sends to the markets route, and the markets it
    holds. The price sliders are sent under names the route does not read,
    and the 24-hour volume cap is sent only below 1,000,000 although the
    slider starts at 10,000,000. */
module MarketFiltersHook {
  import opened Optional
  import opened Store
  import opened ClientState
  import opened QueryParams
  import opened Seqs
  import Bounds
  import MarketsRoute

  datatype FilterState = FilterState(
    totalVolume: Range, volume24hr: Range, volume1mo: Range, liquidity: Range,
    yesPrice: Range, noPrice: Range,
    newMarkets: bool, featuredMarkets: bool, endingSoon: bool, negRiskMarkets: bool)

  /** The initial state, which `clearFilters` restores. */
  const InitialFilters := FilterState(
    Range(0.0, 1000000000.0), Range(0.0, 10000000.0), Range(0.0, 100000000.0),
    Range(0.0, 10000000.0), Range(0.0, 1.0), Range(0.0, 1.0),
    false, false, false, false)

  datatype RangeKey = TotalVolume | Volume24hr | Volume1mo | Liquidity | YesPrice | NoPrice
  datatype FlagKey = NewMarketsFlag | FeaturedMarketsFlag | EndingSoonFlag | NegRiskMarketsFlag

  /** A call `handleFilterChange(key, value)` whose value has the key's type. */
  datatype FilterChange = SetRange(rangeKey: RangeKey, range: Range) | SetFlag(flagKey: FlagKey, flag: bool)

  function RangeOf(f: FilterState, k: RangeKey): Range
  {
    match k
    case TotalVolume => f.totalVolume
    case Volume24hr => f.volume24hr
    case Volume1mo => f.volume1mo
    case Liquidity => f.liquidity
    case YesPrice => f.yesPrice
    case NoPrice => f.noPrice
  }

  function FlagOf(f: FilterState, k: FlagKey): bool
  {
    match k
    case NewMarketsFlag => f.newMarkets
    case FeaturedMarketsFlag => f.featuredMarkets
    case EndingSoonFlag => f.endingSoon
    case NegRiskMarketsFlag => f.negRiskMarkets
  }

  /** `{ ...prev, [key]: value }`: the named entry takes the new value and
      every other entry keeps its old one. */
  function Changed(f: FilterState, c: FilterChange): (g: FilterState)
    ensures c.SetRange? ==> RangeOf(g, c.rangeKey) == c.range
    ensures c.SetRange? ==> forall k :: k != c.rangeKey ==> RangeOf(g, k) == RangeOf(f, k)
    ensures c.SetRange? ==> forall k :: FlagOf(g, k) == FlagOf(f, k)
    ensures c.SetFlag? ==> FlagOf(g, c.flagKey) == c.flag
    ensures c.SetFlag? ==> forall k :: k != c.flagKey ==> FlagOf(g, k) == FlagOf(f, k)
    ensures c.SetFlag? ==> forall k :: RangeOf(g, k) == RangeOf(f, k)
  {
    match c
    case SetRange(k, r) =>
      (match k
       case TotalVolume => f.(totalVolume := r)
       case Volume24hr => f.(volume24hr := r)
       case Volume1mo => f.(volume1mo := r)
       case Liquidity => f.(liquidity := r)
       case YesPrice => f.(yesPrice := r)
       case NoPrice => f.(noPrice := r))
    case SetFlag(k, b) =>
      (match k
       case NewMarketsFlag => f.(newMarkets := b)
       case FeaturedMarketsFlag => f.(featuredMarkets := b)
       case EndingSoonFlag => f.(endingSoon := b)
       case NegRiskMarketsFlag => f.(negRiskMarkets := b))
  }

  /** The order in which `fetchMarkets` considers the parameters. */
  const Order: seq<ParamName> := [
    MinTotalVolume, MaxTotalVolume, MinVolume24hr, MaxVolume24hr,
    MinVolume1mo, MaxVolume1mo, MinLiquidity, MaxLiquidity,
    MinYesPrice, MaxYesPrice, MinNoPrice, MaxNoPrice,
    New, Featured, EndingSoon, NegRisk, Search]

  /** What `fetchMarkets` appends under each name, when anything. */
  function Chosen(f: FilterState, search: string, n: ParamName): Option<ParamValue>
  {
    match n
    case MinTotalVolume => LowerParam(f.totalVolume.lo)
    case MaxTotalVolume => UpperParam(f.totalVolume.hi, 1000000000.0)
    case MinVolume24hr => LowerParam(f.volume24hr.lo)
    case MaxVolume24hr => UpperParam(f.volume24hr.hi, 1000000.0)
    case MinVolume1mo => LowerParam(f.volume1mo.lo)
    case MaxVolume1mo => UpperParam(f.volume1mo.hi, 100000000.0)
    case MinLiquidity => LowerParam(f.liquidity.lo)
    case MaxLiquidity => UpperParam(f.liquidity.hi, 10000000.0)
    case MinYesPrice => LowerParam(f.yesPrice.lo)
    case MaxYesPrice => UpperParam(f.yesPrice.hi, 1.0)
    case MinNoPrice => LowerParam(f.noPrice.lo)
    case MaxNoPrice => UpperParam(f.noPrice.hi, 1.0)
    case New => FlagParam(f.newMarkets)
    case Featured => FlagParam(f.featuredMarkets)
    case EndingSoon => FlagParam(f.endingSoon)
    case NegRisk => FlagParam(f.negRiskMarkets)
    case Search => TextParam(search)
    case _ => None
  }

  function Choice(f: FilterState, search: string): ParamName -> Option<ParamValue>
  {
    n => Chosen(f, search, n)
  }

  /** The query string `fetchMarkets` builds. */
  function Params(f: FilterState, search: string): seq<Param>
  {
    Appended(Order, Choice(f, search))
  }

  /** The initial filters with an empty search send no parameter at all. */
  lemma InitialSendsNothing()
    ensures Params(InitialFilters, "") == []
  {
    AppendedNothing(Order, Choice(InitialFilters, ""));
  }

  /** `get` on the query answers, under every name, what the builder chose
      to send under it (nothing for the names it never visits). */
  lemma GetParams(f: FilterState, search: string, n: ParamName)
    ensures Get(Params(f, search), n) == Chosen(f, search, n)
  {
    GetAppended(Order, Choice(f, search), n);
  }

  /** The names come in the order the appends are written. */
  lemma ParamsInOrder(f: FilterState, search: string)
    ensures IsSubsequence(Names(Params(f, search)), Order)
  {
    AppendedInOrder(Order, Choice(f, search));
  }

  /** What the builder chooses for the volume sliders: a lower bound when
      above 0, an upper bound when below the slider's threshold
      (1,000,000,000 for the total, 1,000,000 for the last 24 hours,
      100,000,000 for the month). */
  lemma ChosenVolumeBounds(f: FilterState, search: string)
    ensures Chosen(f, search, MinTotalVolume) == LowerParam(f.totalVolume.lo)
    ensures Chosen(f, search, MaxTotalVolume) == UpperParam(f.totalVolume.hi, 1000000000.0)
    ensures Chosen(f, search, MinVolume24hr) == LowerParam(f.volume24hr.lo)
    ensures Chosen(f, search, MaxVolume24hr) == UpperParam(f.volume24hr.hi, 1000000.0)
    ensures Chosen(f, search, MinVolume1mo) == LowerParam(f.volume1mo.lo)
    ensures Chosen(f, search, MaxVolume1mo) == UpperParam(f.volume1mo.hi, 100000000.0)
  {
  }

  /** The same rule for the liquidity slider (threshold 10,000,000) and the
      price sliders (threshold 1). */
  lemma ChosenLiquidityAndPriceBounds(f: FilterState, search: string)
    ensures Chosen(f, search, MinLiquidity) == LowerParam(f.liquidity.lo)
    ensures Chosen(f, search, MaxLiquidity) == UpperParam(f.liquidity.hi, 10000000.0)
    ensures Chosen(f, search, MinYesPrice) == LowerParam(f.yesPrice.lo)
    ensures Chosen(f, search, MaxYesPrice) == UpperParam(f.yesPrice.hi, 1.0)
    ensures Chosen(f, search, MinNoPrice) == LowerParam(f.noPrice.lo)
    ensures Chosen(f, search, MaxNoPrice) == UpperParam(f.noPrice.hi, 1.0)
  {
  }

  /** Each set flag is chosen as 'true', and a non-empty search as itself. */
  lemma ChosenFlagsAndSearch(f: FilterState, search: string)
    ensures Chosen(f, search, New) == FlagParam(f.newMarkets)
    ensures Chosen(f, search, Featured) == FlagParam(f.featuredMarkets)
    ensures Chosen(f, search, EndingSoon) == FlagParam(f.endingSoon)
    ensures Chosen(f, search, NegRisk) == FlagParam(f.negRiskMarkets)
    ensures Chosen(f, search, Search) == TextParam(search)
  {
  }

  /** Nothing is chosen under the outcome-price names the markets route reads. */
  lemma ChosenOutcomePricesAbsent(f: FilterState, search: string)
    ensures Chosen(f, search, MinOutcomeYesPrice).None? && Chosen(f, search, MaxOutcomeYesPrice).None?
    ensures Chosen(f, search, MinOutcomeNoPrice).None? && Chosen(f, search, MaxOutcomeNoPrice).None?
  {
  }

  /** The volume sliders' bounds as `get` reads them from the query. */
  lemma VolumeParamsSent(f: FilterState, search: string)
    ensures Get(Params(f, search), MinTotalVolume) == LowerParam(f.totalVolume.lo)
    ensures Get(Params(f, search), MaxTotalVolume) == UpperParam(f.totalVolume.hi, 1000000000.0)
    ensures Get(Params(f, search), MinVolume24hr) == LowerParam(f.volume24hr.lo)
    ensures Get(Params(f, search), MaxVolume24hr) == UpperParam(f.volume24hr.hi, 1000000.0)
    ensures Get(Params(f, search), MinVolume1mo) == LowerParam(f.volume1mo.lo)
    ensures Get(Params(f, search), MaxVolume1mo) == UpperParam(f.volume1mo.hi, 100000000.0)
  {
    ChosenVolumeBounds(f, search);
    GetParams(f, search, MinTotalVolume);
    GetParams(f, search, MaxTotalVolume);
    GetParams(f, search, MinVolume24hr);
    GetParams(f, search, MaxVolume24hr);
    GetParams(f, search, MinVolume1mo);
    GetParams(f, search, MaxVolume1mo);
  }

  /** The liquidity and price sliders' bounds as `get` reads them. */
  lemma LiquidityAndPriceParamsSent(f: FilterState, search: string)
    ensures Get(Params(f, search), MinLiquidity) == LowerParam(f.liquidity.lo)
    ensures Get(Params(f, search), MaxLiquidity) == UpperParam(f.liquidity.hi, 10000000.0)
    ensures Get(Params(f, search), MinYesPrice) == LowerParam(f.yesPrice.lo)
    ensures Get(Params(f, search), MaxYesPrice) == UpperParam(f.yesPrice.hi, 1.0)
    ensures Get(Params(f, search), MinNoPrice) == LowerParam(f.noPrice.lo)
    ensures Get(Params(f, search), MaxNoPrice) == UpperParam(f.noPrice.hi, 1.0)
  {
    ChosenLiquidityAndPriceBounds(f, search);
    GetParams(f, search, MinLiquidity);
    GetParams(f, search, MaxLiquidity);
    GetParams(f, search, MinYesPrice);
    GetParams(f, search, MaxYesPrice);
    GetParams(f, search, MinNoPrice);
    GetParams(f, search, MaxNoPrice);
  }

  /** The flags and the search as `get` reads them. */
  lemma FlagParamsSent(f: FilterState, search: string)
    ensures Get(Params(f, search), New) == FlagParam(f.newMarkets)
    ensures Get(Params(f, search), Featured) == FlagParam(f.featuredMarkets)
    ensures Get(Params(f, search), EndingSoon) == FlagParam(f.endingSoon)
    ensures Get(Params(f, search), NegRisk) == FlagParam(f.negRiskMarkets)
    ensures Get(Params(f, search), Search) == TextParam(search)
  {
    ChosenFlagsAndSearch(f, search);
    GetParams(f, search, New);
    GetParams(f, search, Featured);
    GetParams(f, search, EndingSoon);
    GetParams(f, search, NegRisk);
    GetParams(f, search, Search);
  }

  /** The price bounds the markets route reads are never sent. */
  lemma OutcomePriceParamsAbsent(f: FilterState, search: string)
    ensures Get(Params(f, search), MinOutcomeYesPrice).None?
    ensures Get(Params(f, search), MaxOutcomeYesPrice).None?
    ensures Get(Params(f, search), MinOutcomeNoPrice).None?
    ensures Get(Params(f, search), MaxOutcomeNoPrice).None?
  {
    ChosenOutcomePricesAbsent(f, search);
    GetParams(f, search, MinOutcomeYesPrice);
    GetParams(f, search, MaxOutcomeYesPrice);
    GetParams(f, search, MinOutcomeNoPrice);
    GetParams(f, search, MaxOutcomeNoPrice);
  }

  /** The query the markets route parses from what the hook sends. */
  function Received(f: FilterState, search: string): MarketsRoute.MarketQuery
  {
    MarketsRoute.MarketQuery(
      if f.totalVolume.lo > 0.0 then f.totalVolume.lo else 0.0,
      if f.totalVolume.hi < 1000000000.0 then Bounds.Finite(f.totalVolume.hi) else Bounds.Infinite,
      if f.volume24hr.lo > 0.0 then f.volume24hr.lo else 0.0,
      if f.volume24hr.hi < 1000000.0 then Bounds.Finite(f.volume24hr.hi) else Bounds.Infinite,
      if f.volume1mo.lo > 0.0 then f.volume1mo.lo else 0.0,
      if f.volume1mo.hi < 100000000.0 then Bounds.Finite(f.volume1mo.hi) else Bounds.Infinite,
      if f.liquidity.lo > 0.0 then f.liquidity.lo else 0.0,
      if f.liquidity.hi < 10000000.0 then Bounds.Finite(f.liquidity.hi) else Bounds.Infinite,
      0.0, Bounds.Infinite, 0.0, Bounds.Infinite,
      f.newMarkets, f.featuredMarkets, f.endingSoon, f.negRiskMarkets, search)
  }

  /** What the markets route makes of the query: the volume and liquidity
      bounds arrive (a bound left at its slider's default as no bound), the
      flags and the search arrive, and the price sliders never do. */
  lemma RouteReceives(f: FilterState, search: string, parseFloat: string -> real)
    ensures MarketsRoute.ParseQuery(Params(f, search), parseFloat) == Received(f, search)
  {
    VolumeParamsSent(f, search);
    LiquidityAndPriceParamsSent(f, search);
    FlagParamsSent(f, search);
    OutcomePriceParamsAbsent(f, search);
    LowerRoundTrip(f.totalVolume.lo, parseFloat);
    UpperRoundTrip(f.totalVolume.hi, 1000000000.0, parseFloat);
    LowerRoundTrip(f.volume24hr.lo, parseFloat);
    UpperRoundTrip(f.volume24hr.hi, 1000000.0, parseFloat);
    LowerRoundTrip(f.volume1mo.lo, parseFloat);
    UpperRoundTrip(f.volume1mo.hi, 100000000.0, parseFloat);
    LowerRoundTrip(f.liquidity.lo, parseFloat);
    UpperRoundTrip(f.liquidity.hi, 10000000.0, parseFloat);
    FlagRoundTrip(f.newMarkets);
    FlagRoundTrip(f.featuredMarkets);
    FlagRoundTrip(f.endingSoon);
    FlagRoundTrip(f.negRiskMarkets);
    TextRoundTrip(search);
  }

  /** A 24-hour cap of 5,000,000, below the slider's default of 10,000,000,
      does not reach the route: only caps below 1,000,000 are sent. */
  lemma Volume24hrCapLost(parseFloat: string -> real)
    ensures InitialFilters.volume24hr.hi == 10000000.0
    ensures MarketsRoute.ParseQuery(
      Params(InitialFilters.(volume24hr := Range(0.0, 5000000.0)), ""), parseFloat).maxVolume24hr == Bounds.Infinite
  {
    RouteReceives(InitialFilters.(volume24hr := Range(0.0, 5000000.0)), "", parseFloat);
  }

  // Proof helpers for the builder below: each append method sees `Order`
  // and `Choice` only at the positions and names it appends, which keeps
  // its proof small. `OrderIsSourceOrder` and `ChoicePicksAsChosen` tie
  // them back to `Order` and `Chosen`.

  /** `order` lists the names in the order the appends of `fetchMarkets` are
      written: it is `Order`, position by position. */
  predicate SourceOrder(order: seq<ParamName>)
  {
    && |order| == 17
    && order[0] == MinTotalVolume && order[1] == MaxTotalVolume
    && order[2] == MinVolume24hr && order[3] == MaxVolume24hr
    && order[4] == MinVolume1mo && order[5] == MaxVolume1mo
    && order[6] == MinLiquidity && order[7] == MaxLiquidity
    && order[8] == MinYesPrice && order[9] == MaxYesPrice
    && order[10] == MinNoPrice && order[11] == MaxNoPrice
    && order[12] == New && order[13] == Featured && order[14] == EndingSoon
    && order[15] == NegRisk && order[16] == Search
  }

  /** `choose` picks what `Chosen` picks for the slider bounds. */
  predicate PicksSliderBounds(choose: ParamName -> Option<ParamValue>, f: FilterState)
  {
    && choose(MinTotalVolume) == LowerParam(f.totalVolume.lo)
    && choose(MaxTotalVolume) == UpperParam(f.totalVolume.hi, 1000000000.0)
    && choose(MinVolume24hr) == LowerParam(f.volume24hr.lo)
    && choose(MaxVolume24hr) == UpperParam(f.volume24hr.hi, 1000000.0)
    && choose(MinVolume1mo) == LowerParam(f.volume1mo.lo)
    && choose(MaxVolume1mo) == UpperParam(f.volume1mo.hi, 100000000.0)
    && choose(MinLiquidity) == LowerParam(f.liquidity.lo)
    && choose(MaxLiquidity) == UpperParam(f.liquidity.hi, 10000000.0)
    && choose(MinYesPrice) == LowerParam(f.yesPrice.lo)
    && choose(MaxYesPrice) == UpperParam(f.yesPrice.hi, 1.0)
    && choose(MinNoPrice) == LowerParam(f.noPrice.lo)
    && choose(MaxNoPrice) == UpperParam(f.noPrice.hi, 1.0)
  }

  /** `choose` picks what `Chosen` picks for the flags and the search. */
  predicate PicksFlagsAndSearch(choose: ParamName -> Option<ParamValue>, f: FilterState, search: string)
  {
    && choose(New) == FlagParam(f.newMarkets)
    && choose(Featured) == FlagParam(f.featuredMarkets)
    && choose(EndingSoon) == FlagParam(f.endingSoon)
    && choose(NegRisk) == FlagParam(f.negRiskMarkets)
    && choose(Search) == TextParam(search)
  }

  lemma ChoicePicksAsChosen(f: FilterState, search: string)
    ensures PicksSliderBounds(Choice(f, search), f)
    ensures PicksFlagsAndSearch(Choice(f, search), f, search)
  {
    ChosenVolumeBounds(f, search);
    ChosenLiquidityAndPriceBounds(f, search);
    ChosenFlagsAndSearch(f, search);
  }

  lemma OrderIsSourceOrder()
    ensures SourceOrder(Order)
  {
  }

  /** The slider appends of `fetchMarkets` onto an empty buffer, a lower and
      an upper bound per slider: the buffer ends up holding what `choose`
      picks for the first twelve names of `order`. */
  method AppendSliderParams(buffer: SearchParams, f: FilterState, search: string,
                            ghost order: seq<ParamName>, ghost choose: ParamName -> Option<ParamValue>)
    requires SourceOrder(order) && PicksSliderBounds(choose, f)
    requires buffer.entries == []
    modifies buffer
    ensures buffer.entries == Appended(order[..12], choose)
  {
    assert order[..0] == [];
    AppendRange(buffer, f.totalVolume.lo, f.totalVolume.hi, 1000000000.0, MinTotalVolume, MaxTotalVolume, order, 0, choose);
    AppendRange(buffer, f.volume24hr.lo, f.volume24hr.hi, 1000000.0, MinVolume24hr, MaxVolume24hr, order, 2, choose);
    AppendRange(buffer, f.volume1mo.lo, f.volume1mo.hi, 100000000.0, MinVolume1mo, MaxVolume1mo, order, 4, choose);
    AppendRange(buffer, f.liquidity.lo, f.liquidity.hi, 10000000.0, MinLiquidity, MaxLiquidity, order, 6, choose);
    AppendRange(buffer, f.yesPrice.lo, f.yesPrice.hi, 1.0, MinYesPrice, MaxYesPrice, order, 8, choose);
    AppendRange(buffer, f.noPrice.lo, f.noPrice.hi, 1.0, MinNoPrice, MaxNoPrice, order, 10, choose);
  }

  /** The four flag appends that follow: the buffer ends up holding what
      `choose` picks for every name of `order` but the search. */
  method AppendFlagParams(buffer: SearchParams, f: FilterState, search: string,
                          ghost order: seq<ParamName>, ghost choose: ParamName -> Option<ParamValue>)
    requires |order| == 17 && order[12] == New && order[13] == Featured
    requires order[14] == EndingSoon && order[15] == NegRisk
    requires PicksFlagsAndSearch(choose, f, search)
    requires buffer.entries == Appended(order[..12], choose)
    modifies buffer
    ensures buffer.entries == Appended(order[..16], choose)
  {
    AppendFlag(buffer, f.newMarkets, New, order, 12, choose);
    AppendFlag(buffer, f.featuredMarkets, Featured, order, 13, choose);
    AppendFlag(buffer, f.endingSoon, EndingSoon, order, 14, choose);
    AppendFlag(buffer, f.negRiskMarkets, NegRisk, order, 15, choose);
  }

  /** The `URLSearchParams` that `fetchMarkets` builds from the filters and
      the search text. */
  method BuildParams(f: FilterState, search: string) returns (params: seq<Param>)
    ensures params == Params(f, search)
  {
    var buffer := new SearchParams();
    OrderIsSourceOrder();
    ChoicePicksAsChosen(f, search);
    AppendSliderParams(buffer, f, search, Order, Choice(f, search));
    AppendFlagParams(buffer, f, search, Order, Choice(f, search));
    AppendText(buffer, search, Search, Order, 16, Choice(f, search));
    AppendedAll(Order, Choice(f, search));
    params := buffer.entries;
  }

  /** The hook's state. */
  class MarketFilters {
    var markets: seq<MarketsRoute.Market>
    var loading: bool
    var searchQuery: string
    var filters: FilterState

    constructor ()
      ensures markets == [] && loading && searchQuery == "" && filters == InitialFilters
    {
      markets := [];
      loading := true;
      searchQuery := "";
      filters := InitialFilters;
    }

    /** `setSearchQuery(query)`. */
    method SetSearchQuery(query: string)
      modifies this
      ensures searchQuery == query
      ensures markets == old(markets) && loading == old(loading) && filters == old(filters)
    {
      searchQuery := query;
    }

    /** `handleFilterChange(key, value)`. */
    method HandleFilterChange(c: FilterChange)
      modifies this
      ensures filters == Changed(old(filters), c)
      ensures markets == old(markets) && loading == old(loading) && searchQuery == old(searchQuery)
    {
      filters := Changed(filters, c);
    }

    /** `clearFilters()`: the initial filters; the search text is kept. */
    method ClearFilters()
      modifies this
      ensures filters == InitialFilters
      ensures markets == old(markets) && loading == old(loading) && searchQuery == old(searchQuery)
    {
      filters := InitialFilters;
    }

    /** `fetchMarkets()`, given how the request ends: it sends the query built
        from the current filters and search text, replaces the markets only
        on success, and always ends with `loading` false. The filters and the
        search text are outside its frame. */
    method FetchMarkets(outcome: FetchOutcome<MarketsRoute.Market>) returns (sent: seq<Param>)
      modifies this`markets, this`loading
      ensures sent == Params(filters, searchQuery)
      ensures markets == AfterFetch(old(markets), outcome)
      ensures !loading
    {
      sent := BuildParams(filters, searchQuery);
      AwaitResponse(outcome);
    }

    /** The request's lifetime inside `fetchMarkets`: `loading` is raised
        while it is out, a successful answer replaces the markets, and the
        `finally` branch lowers `loading` whatever happened. */
    method AwaitResponse(outcome: FetchOutcome<MarketsRoute.Market>)
      modifies this`markets, this`loading
      ensures markets == AfterFetch(old(markets), outcome)
      ensures !loading
    {
      loading := true;
      if outcome.Answered? && outcome.response.Success? {
        markets := outcome.response.data;
      }
      loading := false;
    }
  }
}
