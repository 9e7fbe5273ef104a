/** The `/api/markets` route: every stored market is renamed into the view
    record, and the filter parameters are applied as one conjunctive predicate.
    A datastore failure yields an empty list, never a failure response. */
module MarketsRoute {
  import opened Optional
  import opened Bounds
  import opened Store
  import opened Seqs
  import Text
  import Deadline
  import QueryParams

  /** A stored market row; the field names are the storage columns
      (`is_new` stands for the column `new`, a Dafny keyword). Dates that the
      route parses are integer milliseconds here. */
  datatype DbMarket = DbMarket(
    market_id: string, slug: string, title: string, end_date: int,
    liquidity: real, start_date: string, image: string,
    outcome_yes: string, outcome_no: string,
    volume24hr: real, volume1wk: real, volume1mo: real, volume1yr: real, volume: real,
    is_new: bool, featured: bool, negrisk: bool,
    outcome_yes_price: real, outcome_no_price: real,
    one_day_price_change: real, one_hour_price_change: real,
    one_week_price_change: real, one_month_price_change: real,
    last_trade_price: real, fetch_date: string)

  /** The market record the route returns. */
  datatype Market = Market(
    marketId: string, slug: string, title: string, endDate: int,
    liquidity: real, startDate: string, image: string,
    outcomeYes: string, outcomeNo: string,
    volume24hr: real, volume1wk: real, volume1mo: real, volume1yr: real, totalVolume: real,
    isNew: bool, featured: bool, negRisk: bool,
    outcomeYesPrice: real, outcomeNoPrice: real,
    oneDayPriceChange: real, oneHourPriceChange: real,
    oneWeekPriceChange: real, oneMonthPriceChange: real,
    lastTradePrice: real, fetchDate: string)

  /** `transformDbMarket`: the stored `volume` becomes `totalVolume`; every
      other column is copied under its camel-case name. */
  function TransformDbMarket(d: DbMarket): (m: Market)
    ensures m.totalVolume == d.volume
    ensures m.title == d.title && m.endDate == d.end_date
    ensures m.volume24hr == d.volume24hr && m.volume1mo == d.volume1mo && m.liquidity == d.liquidity
    ensures m.outcomeYesPrice == d.outcome_yes_price && m.outcomeNoPrice == d.outcome_no_price
    ensures m.oneDayPriceChange == d.one_day_price_change
    ensures m.isNew == d.is_new && m.featured == d.featured && m.negRisk == d.negrisk
  {
    Market(
      d.market_id, d.slug, d.title, d.end_date,
      d.liquidity, d.start_date, d.image,
      d.outcome_yes, d.outcome_no,
      d.volume24hr, d.volume1wk, d.volume1mo, d.volume1yr, d.volume,
      d.is_new, d.featured, d.negrisk,
      d.outcome_yes_price, d.outcome_no_price,
      d.one_day_price_change, d.one_hour_price_change,
      d.one_week_price_change, d.one_month_price_change,
      d.last_trade_price, d.fetch_date)
  }

  /** The reverse renaming, used to show that the transform loses nothing. */
  function ToDbMarket(m: Market): DbMarket
  {
    DbMarket(
      m.marketId, m.slug, m.title, m.endDate,
      m.liquidity, m.startDate, m.image,
      m.outcomeYes, m.outcomeNo,
      m.volume24hr, m.volume1wk, m.volume1mo, m.volume1yr, m.totalVolume,
      m.isNew, m.featured, m.negRisk,
      m.outcomeYesPrice, m.outcomeNoPrice,
      m.oneDayPriceChange, m.oneHourPriceChange,
      m.oneWeekPriceChange, m.oneMonthPriceChange,
      m.lastTradePrice, m.fetchDate)
  }

  /** The transform is a pure renaming: it is a bijection between stored rows
      and view records, so no value is changed or dropped. */
  lemma TransformIsRenaming(d: DbMarket, m: Market)
    ensures ToDbMarket(TransformDbMarket(d)) == d
    ensures TransformDbMarket(ToDbMarket(m)) == m
  {
  }

  /** `fetchPolymarketMarkets`: the transformed rows, or `[]` when the query
      reports an error or throws. */
  function FetchMarkets(result: QueryResult<DbMarket>): (r: seq<Market>)
    ensures !result.Rows? ==> r == []
    ensures result.Rows? ==> |r| == |RowsOrEmpty(result.data)|
    ensures result.Rows? ==> forall i :: 0 <= i < |r| ==> ToDbMarket(r[i]) == RowsOrEmpty(result.data)[i]
  {
    match result
    case Rows(data) => Map(RowsOrEmpty(data), TransformDbMarket)
    case QueryError => []
    case Threw => []
  }

  /** The parsed query parameters of `GET`; `search` is the raw parameter
      (`""` when absent), lowered by the route itself. */
  datatype MarketQuery = MarketQuery(
    minTotalVolume: real, maxTotalVolume: UpperBound,
    minVolume24hr: real, maxVolume24hr: UpperBound,
    minVolume1mo: real, maxVolume1mo: UpperBound,
    minLiquidity: real, maxLiquidity: UpperBound,
    minOutcomeYesPrice: real, maxOutcomeYesPrice: UpperBound,
    minOutcomeNoPrice: real, maxOutcomeNoPrice: UpperBound,
    newOnly: bool, featuredOnly: bool, endingSoon: bool, negRiskOnly: bool,
    search: string)

  /** The query with no parameter given. */
  const NoParameters := MarketQuery(
    0.0, Infinite, 0.0, Infinite, 0.0, Infinite, 0.0, Infinite,
    0.0, Infinite, 0.0, Infinite, false, false, false, false, "")

  /** The parameters `GET` reads. */
  const Reads: set<QueryParams.ParamName> := {
    QueryParams.MinTotalVolume, QueryParams.MaxTotalVolume,
    QueryParams.MinVolume24hr, QueryParams.MaxVolume24hr,
    QueryParams.MinVolume1mo, QueryParams.MaxVolume1mo,
    QueryParams.MinLiquidity, QueryParams.MaxLiquidity,
    QueryParams.MinOutcomeYesPrice, QueryParams.MaxOutcomeYesPrice,
    QueryParams.MinOutcomeNoPrice, QueryParams.MaxOutcomeNoPrice,
    QueryParams.New, QueryParams.Featured, QueryParams.EndingSoon, QueryParams.NegRisk,
    QueryParams.Search}

  /** How `GET` reads its query string; `parseFloat` is the runtime's. */
  function ParseQuery(ps: seq<QueryParams.Param>, parseFloat: string -> real): (q: MarketQuery)
    ensures ps == [] ==> q == NoParameters
  {
    MarketQuery(
      QueryParams.ReadLower(QueryParams.Get(ps, QueryParams.MinTotalVolume), parseFloat),
      QueryParams.ReadUpper(QueryParams.Get(ps, QueryParams.MaxTotalVolume), parseFloat),
      QueryParams.ReadLower(QueryParams.Get(ps, QueryParams.MinVolume24hr), parseFloat),
      QueryParams.ReadUpper(QueryParams.Get(ps, QueryParams.MaxVolume24hr), parseFloat),
      QueryParams.ReadLower(QueryParams.Get(ps, QueryParams.MinVolume1mo), parseFloat),
      QueryParams.ReadUpper(QueryParams.Get(ps, QueryParams.MaxVolume1mo), parseFloat),
      QueryParams.ReadLower(QueryParams.Get(ps, QueryParams.MinLiquidity), parseFloat),
      QueryParams.ReadUpper(QueryParams.Get(ps, QueryParams.MaxLiquidity), parseFloat),
      QueryParams.ReadLower(QueryParams.Get(ps, QueryParams.MinOutcomeYesPrice), parseFloat),
      QueryParams.ReadUpper(QueryParams.Get(ps, QueryParams.MaxOutcomeYesPrice), parseFloat),
      QueryParams.ReadLower(QueryParams.Get(ps, QueryParams.MinOutcomeNoPrice), parseFloat),
      QueryParams.ReadUpper(QueryParams.Get(ps, QueryParams.MaxOutcomeNoPrice), parseFloat),
      QueryParams.ReadFlag(QueryParams.Get(ps, QueryParams.New)),
      QueryParams.ReadFlag(QueryParams.Get(ps, QueryParams.Featured)),
      QueryParams.ReadFlag(QueryParams.Get(ps, QueryParams.EndingSoon)),
      QueryParams.ReadFlag(QueryParams.Get(ps, QueryParams.NegRisk)),
      QueryParams.ReadSearch(QueryParams.Get(ps, QueryParams.Search)))
  }

  /** Entries under names `GET` does not read have no effect on the query. */
  lemma ParseQueryReadsOnly(ps: seq<QueryParams.Param>, parseFloat: string -> real)
    ensures ParseQuery(Filter(ps, QueryParams.NamedIn(Reads)), parseFloat) == ParseQuery(ps, parseFloat)
  {
    var kept := Filter(ps, QueryParams.NamedIn(Reads));
    QueryParams.GetKept(ps, Reads, QueryParams.MinTotalVolume);
    QueryParams.GetKept(ps, Reads, QueryParams.MaxTotalVolume);
    QueryParams.GetKept(ps, Reads, QueryParams.MinVolume24hr);
    QueryParams.GetKept(ps, Reads, QueryParams.MaxVolume24hr);
    QueryParams.GetKept(ps, Reads, QueryParams.MinVolume1mo);
    QueryParams.GetKept(ps, Reads, QueryParams.MaxVolume1mo);
    QueryParams.GetKept(ps, Reads, QueryParams.MinLiquidity);
    QueryParams.GetKept(ps, Reads, QueryParams.MaxLiquidity);
    QueryParams.GetKept(ps, Reads, QueryParams.MinOutcomeYesPrice);
    QueryParams.GetKept(ps, Reads, QueryParams.MaxOutcomeYesPrice);
    QueryParams.GetKept(ps, Reads, QueryParams.MinOutcomeNoPrice);
    QueryParams.GetKept(ps, Reads, QueryParams.MaxOutcomeNoPrice);
    QueryParams.GetKept(ps, Reads, QueryParams.New);
    QueryParams.GetKept(ps, Reads, QueryParams.Featured);
    QueryParams.GetKept(ps, Reads, QueryParams.EndingSoon);
    QueryParams.GetKept(ps, Reads, QueryParams.NegRisk);
    QueryParams.GetKept(ps, Reads, QueryParams.Search);
  }

  /** The callback passed to `markets.filter`, at evaluation instant `now`. */
  predicate Passes(q: MarketQuery, now: int, m: Market)
  {
    var needle := Text.Lower(q.search);
    && InRange(m.totalVolume, q.minTotalVolume, q.maxTotalVolume)
    && InRange(m.volume24hr, q.minVolume24hr, q.maxVolume24hr)
    && InRange(m.volume1mo, q.minVolume1mo, q.maxVolume1mo)
    && InRange(m.liquidity, q.minLiquidity, q.maxLiquidity)
    && InRange(m.outcomeYesPrice, q.minOutcomeYesPrice, q.maxOutcomeYesPrice)
    && InRange(m.outcomeNoPrice, q.minOutcomeNoPrice, q.maxOutcomeNoPrice)
    && (q.newOnly ==> m.isNew)
    && (q.featuredOnly ==> m.featured)
    && (q.endingSoon ==> Deadline.IsEndingSoon(m.endDate, now))
    && (q.negRiskOnly ==> m.negRisk)
    && (needle != "" ==> Text.Includes(Text.Lower(m.title), needle))
  }

  function Criterion(q: MarketQuery, now: int): Market -> bool
  {
    m => Passes(q, now, m)
  }

  /** `markets.filter(...)` with the parsed parameters. */
  function FilterMarkets(markets: seq<Market>, q: MarketQuery, now: int): seq<Market>
  {
    Filter(markets, Criterion(q, now))
  }

  /** `GET`: always a success envelope, whose data are the filtered markets. */
  function Get(result: QueryResult<DbMarket>, q: MarketQuery, now: int): Response<Market>
  {
    Succeed(FilterMarkets(FetchMarkets(result), q, now))
  }

  /** A datastore error or exception yields a successful, empty answer, and
      every answer's `count` is the length of its `data`. */
  lemma GetNeverFails(result: QueryResult<DbMarket>, q: MarketQuery, now: int)
    ensures Get(result, q, now).Success?
    ensures Get(result, q, now).count == |Get(result, q, now).data|
    ensures !result.Rows? ==> Get(result, q, now).data == []
  {
    if !result.Rows? {
      assert FetchMarkets(result) == [];
    }
  }

  /** The answer is an order-preserving subsequence of the fetched markets. */
  lemma FilterMarketsSubsequence(markets: seq<Market>, q: MarketQuery, now: int)
    ensures IsSubsequence(FilterMarkets(markets, q, now), markets)
  {
    FilterIsSubsequence(markets, Criterion(q, now));
  }

  /** Every returned market lies within all six inclusive ranges. */
  lemma FilterMarketsWithinBounds(markets: seq<Market>, q: MarketQuery, now: int, m: Market)
    requires m in FilterMarkets(markets, q, now)
    ensures InRange(m.totalVolume, q.minTotalVolume, q.maxTotalVolume)
    ensures InRange(m.volume24hr, q.minVolume24hr, q.maxVolume24hr)
    ensures InRange(m.volume1mo, q.minVolume1mo, q.maxVolume1mo)
    ensures InRange(m.liquidity, q.minLiquidity, q.maxLiquidity)
    ensures InRange(m.outcomeYesPrice, q.minOutcomeYesPrice, q.maxOutcomeYesPrice)
    ensures InRange(m.outcomeNoPrice, q.minOutcomeNoPrice, q.maxOutcomeNoPrice)
  {
    var r := FilterMarkets(markets, q, now);
    var i :| 0 <= i < |r| && r[i] == m;
    assert Criterion(q, now)(r[i]);
  }

  /** Each set flag, and the ending-soon window, holds of every returned market. */
  lemma FilterMarketsFlags(markets: seq<Market>, q: MarketQuery, now: int, m: Market)
    requires m in FilterMarkets(markets, q, now)
    ensures q.newOnly ==> m.isNew
    ensures q.featuredOnly ==> m.featured
    ensures q.negRiskOnly ==> m.negRisk
    ensures q.endingSoon ==> 0 <= m.endDate - now <= 7 * Deadline.MillisPerDay
  {
    var r := FilterMarkets(markets, q, now);
    var i :| 0 <= i < |r| && r[i] == m;
    assert Criterion(q, now)(r[i]);
    Deadline.EndingSoonWindow(m.endDate, now);
  }

  /** Search looks at the lowered title only: with a non-empty query, a market
      is dropped when its title lacks it, and a market that passes the other
      tests is kept exactly when its title contains it. */
  lemma FilterMarketsSearch(markets: seq<Market>, q: MarketQuery, now: int, m: Market)
    requires m in markets
    requires Text.Lower(q.search) != ""
    ensures m in FilterMarkets(markets, q, now) ==> Text.Includes(Text.Lower(m.title), Text.Lower(q.search))
    ensures Passes(q.(search := ""), now, m) ==>
      (m in FilterMarkets(markets, q, now) <==> Text.Includes(Text.Lower(m.title), Text.Lower(q.search)))
  {
    var r := FilterMarkets(markets, q, now);
    if m in r {
      var i :| 0 <= i < |r| && r[i] == m;
      assert Criterion(q, now)(r[i]);
    }
    var j :| 0 <= j < |markets| && markets[j] == m;
    if Passes(q.(search := ""), now, m) && Text.Includes(Text.Lower(m.title), Text.Lower(q.search)) {
      assert Criterion(q, now)(markets[j]);
    }
  }

  /** Filtering a second time with the same parameters and instant changes nothing. */
  lemma FilterMarketsIdempotent(markets: seq<Market>, q: MarketQuery, now: int)
    ensures FilterMarkets(FilterMarkets(markets, q, now), q, now) == FilterMarkets(markets, q, now)
  {
    FilterIdempotent(markets, Criterion(q, now));
  }

  /** With no parameters, exactly the markets with non-negative metrics survive. */
  lemma NoParametersKeepsValidMarkets(markets: seq<Market>, now: int)
    requires forall i :: 0 <= i < |markets| ==>
      && markets[i].totalVolume >= 0.0 && markets[i].volume24hr >= 0.0
      && markets[i].volume1mo >= 0.0 && markets[i].liquidity >= 0.0
      && markets[i].outcomeYesPrice >= 0.0 && markets[i].outcomeNoPrice >= 0.0
    ensures FilterMarkets(markets, NoParameters, now) == markets
  {
    assert Text.Lower("") == "";
    forall i | 0 <= i < |markets| ensures Criterion(NoParameters, now)(markets[i]) {
    }
    FilterAll(markets, Criterion(NoParameters, now));
  }
}
