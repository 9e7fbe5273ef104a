/** The `/api/events` route: stored events and markets are renamed, markets are
    grouped under their parent event, and the events are filtered; a search
    that only child markets match narrows the event's market list to them. */
module EventsRoute {
  import opened Optional
  import opened Bounds
  import opened Store
  import opened Seqs
  import Text
  import Deadline
  import QueryParams

  /** A stored event row; the field names are the storage columns (`is_new`
      stands for the column `new`). `end_date` is in milliseconds. */
  datatype DbEvent = DbEvent(
    event_id: string, slug: string, title: string, description: string,
    end_date: int, image: string, is_new: bool,
    liquidity: real, volume: real, volume24hr: real,
    categories: seq<string>, fetch_date: string)

  /** A stored market row as this route reads it. */
  datatype DbMarket = DbMarket(
    market_id: string, event_id: string, slug: string, question: string,
    group_item_title: string, is_new: bool,
    liquidity: real, volume: real, volume24hr: real,
    outcome_yes_price: real, outcome_no_price: real, one_day_price_change: real,
    image: string, fetch_date: string)

  /** The fields `transformDbEvent` produces. */
  datatype EventInfo = EventInfo(
    eventId: string, slug: string, title: string, description: string,
    endDate: int, image: string, isNew: bool,
    liquidity: real, volume: real, volume24hr: real,
    categories: seq<string>, fetchDate: string)

  /** The market record this route nests under its event. */
  datatype Market = Market(
    marketId: string, eventId: string, slug: string, question: string,
    groupItemTitle: string, isNew: bool,
    liquidity: real, volume: real, volume24hr: real,
    outcomeYesPrice: real, outcomeNoPrice: real, oneDayPriceChange: real,
    image: string, fetchDate: string)

  /** `{ ...event, markets }`. */
  datatype Event = Event(info: EventInfo, markets: seq<Market>)

  /** `transformDbEvent`: a field-by-field renaming. */
  function TransformDbEvent(d: DbEvent): (e: EventInfo)
    ensures e.eventId == d.event_id && e.title == d.title && e.endDate == d.end_date && e.isNew == d.is_new
    ensures e.volume == d.volume && e.volume24hr == d.volume24hr && e.liquidity == d.liquidity
  {
    EventInfo(d.event_id, d.slug, d.title, d.description, d.end_date, d.image, d.is_new,
      d.liquidity, d.volume, d.volume24hr, d.categories, d.fetch_date)
  }

  function ToDbEvent(e: EventInfo): DbEvent
  {
    DbEvent(e.eventId, e.slug, e.title, e.description, e.endDate, e.image, e.isNew,
      e.liquidity, e.volume, e.volume24hr, e.categories, e.fetchDate)
  }

  /** `transformDbMarket`: a field-by-field renaming. */
  function TransformDbMarket(d: DbMarket): (m: Market)
    ensures m.eventId == d.event_id && m.question == d.question && m.groupItemTitle == d.group_item_title
    ensures m.volume == d.volume && m.volume24hr == d.volume24hr && m.liquidity == d.liquidity
    ensures m.outcomeYesPrice == d.outcome_yes_price && m.outcomeNoPrice == d.outcome_no_price
  {
    Market(d.market_id, d.event_id, d.slug, d.question, d.group_item_title, d.is_new,
      d.liquidity, d.volume, d.volume24hr,
      d.outcome_yes_price, d.outcome_no_price, d.one_day_price_change,
      d.image, d.fetch_date)
  }

  function ToDbMarket(m: Market): DbMarket
  {
    DbMarket(m.marketId, m.eventId, m.slug, m.question, m.groupItemTitle, m.isNew,
      m.liquidity, m.volume, m.volume24hr,
      m.outcomeYesPrice, m.outcomeNoPrice, m.oneDayPriceChange,
      m.image, m.fetchDate)
  }

  /** Both transforms only rename: each has an exact inverse. */
  lemma TransformsAreRenamings(de: DbEvent, e: EventInfo, dm: DbMarket, m: Market)
    ensures ToDbEvent(TransformDbEvent(de)) == de && TransformDbEvent(ToDbEvent(e)) == e
    ensures ToDbMarket(TransformDbMarket(dm)) == dm && TransformDbMarket(ToDbMarket(m)) == m
  {
  }

  // ---------------------------------------------------------------------------
  // Grouping markets by event

  /** The markets of one event, in fetch order. */
  function MarketsOf(markets: seq<Market>, eventId: string): seq<Market>
  {
    Filter(markets, BelongsTo(eventId))
  }

  function BelongsTo(eventId: string): Market -> bool
  {
    (m: Market) => m.eventId == eventId
  }

  /** Some market in `markets` names `eventId`. */
  predicate Mentions(markets: seq<Market>, eventId: string)
  {
    exists j :: 0 <= j < |markets| && markets[j].eventId == eventId
  }

  lemma MentionsSnoc(markets: seq<Market>, market: Market, id: string)
    ensures Mentions(markets + [market], id) <==> Mentions(markets, id) || market.eventId == id
  {
    if Mentions(markets, id) {
      var j :| 0 <= j < |markets| && markets[j].eventId == id;
      assert (markets + [market])[j] == markets[j];
    }
    if Mentions(markets + [market], id) && market.eventId != id {
      var j :| 0 <= j < |markets| + 1 && (markets + [market])[j].eventId == id;
      assert markets[j] == (markets + [market])[j];
    }
    if market.eventId == id {
      assert (markets + [market])[|markets|] == market;
    }
  }

  /** An event that no market names has no markets. */
  lemma NoMentionNoMarkets(markets: seq<Market>, id: string)
    ensures !Mentions(markets, id) ==> MarketsOf(markets, id) == []
  {
    AnyIffFilterNonEmpty(markets, BelongsTo(id));
    if Any(markets, BelongsTo(id)) {
      var j :| 0 <= j < |markets| && BelongsTo(id)(markets[j]);
      assert markets[j].eventId == id;
    }
  }

  /** `groups` maps exactly the event ids that `markets` mention, each to its markets in order. */
  ghost predicate Grouped(groups: map<string, seq<Market>>, markets: seq<Market>)
  {
    && (forall id :: id in groups <==> Mentions(markets, id))
    && (forall id :: id in groups ==> groups[id] == MarketsOf(markets, id))
  }

  /** One step of the `reduce` keeps the grouping exact. */
  lemma GroupStep(groups: map<string, seq<Market>>, markets: seq<Market>, market: Market)
    requires Grouped(groups, markets)
    ensures Grouped(groups[market.eventId := (if market.eventId in groups then groups[market.eventId] else []) + [market]],
                    markets + [market])
  {
    var key := market.eventId;
    var before := if key in groups then groups[key] else [];
    NoMentionNoMarkets(markets, key);
    assert before == MarketsOf(markets, key);
    GroupStepKeys(groups, markets, market, before);
    GroupStepValues(groups, markets, market, before);
  }

  /** The ids of the grown map are the ids the grown market list mentions. */
  lemma GroupStepKeys(groups: map<string, seq<Market>>, markets: seq<Market>, market: Market, before: seq<Market>)
    requires forall id :: id in groups <==> Mentions(markets, id)
    ensures forall id :: id in groups[market.eventId := before + [market]] <==> Mentions(markets + [market], id)
  {
    forall id ensures id in groups[market.eventId := before + [market]] <==> Mentions(markets + [market], id) {
      MentionsSnoc(markets, market, id);
    }
  }

  /** Each list of the grown map holds the markets of its id, in order. */
  lemma GroupStepValues(groups: map<string, seq<Market>>, markets: seq<Market>, market: Market, before: seq<Market>)
    requires forall id :: id in groups ==> groups[id] == MarketsOf(markets, id)
    requires before == MarketsOf(markets, market.eventId)
    ensures forall id :: id in groups[market.eventId := before + [market]] ==>
      groups[market.eventId := before + [market]][id] == MarketsOf(markets + [market], id)
  {
    var after := groups[market.eventId := before + [market]];
    forall id | id in after ensures after[id] == MarketsOf(markets + [market], id) {
      FilterAppend(markets, [market], BelongsTo(id));
      if id != market.eventId {
        assert after[id] == groups[id];
      }
    }
  }

  /** The `reduce` that pushes each market onto the list of its `eventId`,
      creating the list on first sight. */
  method GroupMarketsByEvent(markets: seq<Market>) returns (groups: map<string, seq<Market>>)
    ensures forall id :: id in groups <==> Mentions(markets, id)
    ensures forall id :: id in groups ==> groups[id] == MarketsOf(markets, id)
  {
    groups := map[];
    var i := 0;
    while i < |markets|
      invariant 0 <= i <= |markets|
      invariant Grouped(groups, markets[..i])
    {
      var market := markets[i];
      ghost var next := groups[market.eventId :=
        (if market.eventId in groups then groups[market.eventId] else []) + [market]];
      GroupStep(groups, markets[..i], market);
      if market.eventId !in groups {
        groups := groups[market.eventId := []];
      }
      groups := groups[market.eventId := groups[market.eventId] + [market]];
      assert groups == next;
      TakeSnoc(markets, i);
      i := i + 1;
    }
    assert markets[..i] == markets;
  }

  /** `events.map(event => ({ ...event, markets: marketsByEvent[event.eventId] || [] }))`. */
  function Attach(infos: seq<EventInfo>, groups: map<string, seq<Market>>): seq<Event>
  {
    Map(infos, (info: EventInfo) => Event(info, if info.eventId in groups then groups[info.eventId] else []))
  }

  /** Once grouped and attached, every event holds exactly the markets that
      name it, in fetch order (`[]` when there are none), so a market whose
      `eventId` names no event appears under no event. */
  lemma AttachPlacesMarkets(infos: seq<EventInfo>, markets: seq<Market>, groups: map<string, seq<Market>>)
    requires forall id :: id in groups <==> Mentions(markets, id)
    requires forall id :: id in groups ==> groups[id] == MarketsOf(markets, id)
    ensures |Attach(infos, groups)| == |infos|
    ensures forall i :: 0 <= i < |infos| ==>
      Attach(infos, groups)[i] == Event(infos[i], MarketsOf(markets, infos[i].eventId))
    ensures forall i, m :: 0 <= i < |infos| && m in Attach(infos, groups)[i].markets ==>
      m in markets && m.eventId == infos[i].eventId
  {
    forall i | 0 <= i < |infos| ensures Attach(infos, groups)[i] == Event(infos[i], MarketsOf(markets, infos[i].eventId)) {
      NoMentionNoMarkets(markets, infos[i].eventId);
    }
    forall i, m | 0 <= i < |infos| && m in Attach(infos, groups)[i].markets
      ensures m in markets && m.eventId == infos[i].eventId
    {
      var ms := MarketsOf(markets, infos[i].eventId);
      var k :| 0 <= k < |ms| && ms[k] == m;
      assert BelongsTo(infos[i].eventId)(ms[k]);
    }
  }

  // ---------------------------------------------------------------------------
  // Filtering

  /** The parsed query parameters of `GET`. The route reads no `featured` or
      `negRisk` parameter, so neither appears here. `search` is the raw
      parameter (`""` when absent). */
  datatype EventQuery = EventQuery(
    minTotalVolume: real, maxTotalVolume: UpperBound,
    minVolume24hr: real, maxVolume24hr: UpperBound,
    minLiquidity: real, maxLiquidity: UpperBound,
    newOnly: bool, endingSoon: bool, search: string)

  /** The parameters `GET` reads; `featured` and `negRisk` are not among them. */
  const Reads: set<QueryParams.ParamName> := {
    QueryParams.MinTotalVolume, QueryParams.MaxTotalVolume,
    QueryParams.MinVolume24hr, QueryParams.MaxVolume24hr,
    QueryParams.MinLiquidity, QueryParams.MaxLiquidity,
    QueryParams.New, QueryParams.EndingSoon, QueryParams.Search}

  /** The query with no parameter given. */
  const NoParameters := EventQuery(0.0, Infinite, 0.0, Infinite, 0.0, Infinite, false, false, "")

  /** How `GET` reads its query string; `parseFloat` is the runtime's. */
  function ParseQuery(ps: seq<QueryParams.Param>, parseFloat: string -> real): (q: EventQuery)
    ensures ps == [] ==> q == NoParameters
  {
    EventQuery(
      QueryParams.ReadLower(QueryParams.Get(ps, QueryParams.MinTotalVolume), parseFloat),
      QueryParams.ReadUpper(QueryParams.Get(ps, QueryParams.MaxTotalVolume), parseFloat),
      QueryParams.ReadLower(QueryParams.Get(ps, QueryParams.MinVolume24hr), parseFloat),
      QueryParams.ReadUpper(QueryParams.Get(ps, QueryParams.MaxVolume24hr), parseFloat),
      QueryParams.ReadLower(QueryParams.Get(ps, QueryParams.MinLiquidity), parseFloat),
      QueryParams.ReadUpper(QueryParams.Get(ps, QueryParams.MaxLiquidity), parseFloat),
      QueryParams.ReadFlag(QueryParams.Get(ps, QueryParams.New)),
      QueryParams.ReadFlag(QueryParams.Get(ps, QueryParams.EndingSoon)),
      QueryParams.ReadSearch(QueryParams.Get(ps, QueryParams.Search)))
  }

  /** Entries under names `GET` does not read, `featured` and `negRisk`
      among them, have no effect on the query. */
  lemma ParseQueryReadsOnly(ps: seq<QueryParams.Param>, parseFloat: string -> real)
    ensures ParseQuery(Filter(ps, QueryParams.NamedIn(Reads)), parseFloat) == ParseQuery(ps, parseFloat)
    ensures QueryParams.Featured !in Reads && QueryParams.NegRisk !in Reads
  {
    assert QueryParams.Featured !in Reads && QueryParams.NegRisk !in Reads;
    QueryParams.GetKept(ps, Reads, QueryParams.MinTotalVolume);
    QueryParams.GetKept(ps, Reads, QueryParams.MaxTotalVolume);
    QueryParams.GetKept(ps, Reads, QueryParams.MinVolume24hr);
    QueryParams.GetKept(ps, Reads, QueryParams.MaxVolume24hr);
    QueryParams.GetKept(ps, Reads, QueryParams.MinLiquidity);
    QueryParams.GetKept(ps, Reads, QueryParams.MaxLiquidity);
    QueryParams.GetKept(ps, Reads, QueryParams.New);
    QueryParams.GetKept(ps, Reads, QueryParams.EndingSoon);
    QueryParams.GetKept(ps, Reads, QueryParams.Search);
  }

  /** A market's question or group title contains the (lowered) query. */
  predicate MarketMatches(needle: string, m: Market)
  {
    Text.Includes(Text.Lower(m.question), needle) || Text.Includes(Text.Lower(m.groupItemTitle), needle)
  }

  function MatchingMarket(needle: string): Market -> bool
  {
    (m: Market) => MarketMatches(needle, m)
  }

  predicate TitleMatches(needle: string, e: Event)
  {
    Text.Includes(Text.Lower(e.info.title), needle)
  }

  /** The range, flag and ending-soon tests of the filter callback. */
  predicate PassesMetrics(q: EventQuery, now: int, e: Event)
  {
    && InRange(e.info.volume, q.minTotalVolume, q.maxTotalVolume)
    && InRange(e.info.volume24hr, q.minVolume24hr, q.maxVolume24hr)
    && InRange(e.info.liquidity, q.minLiquidity, q.maxLiquidity)
    && (q.newOnly ==> e.info.isNew)
    && (q.endingSoon ==> Deadline.IsEndingSoon(e.info.endDate, now))
  }

  /** The value the filter callback returns. */
  predicate Keeps(q: EventQuery, now: int, e: Event)
  {
    var needle := Text.Lower(q.search);
    && PassesMetrics(q, now, e)
    && (needle != "" ==> TitleMatches(needle, e) || Any(e.markets, MatchingMarket(needle)))
  }

  function KeepCriterion(q: EventQuery, now: int): Event -> bool
  {
    (e: Event) => Keeps(q, now, e)
  }

  /** The event as the callback leaves it: when only markets match the query,
      `event.markets` is overwritten with the matching ones. */
  function Narrowed(q: EventQuery, e: Event): Event
  {
    var needle := Text.Lower(q.search);
    if needle != "" && !TitleMatches(needle, e) && Any(e.markets, MatchingMarket(needle))
    then e.(markets := Filter(e.markets, MatchingMarket(needle)))
    else e
  }

  function Narrowing(q: EventQuery): Event -> Event
  {
    (e: Event) => Narrowed(q, e)
  }

  /** What `events.filter(...)` returns: the kept events, each as its callback left it. */
  function FilterEventsSpec(events: seq<Event>, q: EventQuery, now: int): seq<Event>
  {
    Map(Filter(events, KeepCriterion(q, now)), Narrowing(q))
  }

  /** The filter pass, one event at a time, overwriting `markets` of an event
      that only its markets match. */
  method FilterEvents(events: seq<Event>, q: EventQuery, now: int) returns (kept: seq<Event>)
    ensures kept == FilterEventsSpec(events, q, now)
  {
    var needle := Text.Lower(q.search);
    kept := [];
    var i := 0;
    while i < |events|
      invariant 0 <= i <= |events|
      invariant kept == FilterEventsSpec(events[..i], q, now)
    {
      var event := events[i];
      assert events[..i + 1] == events[..i] + [event];
      FilterAppend(events[..i], [event], KeepCriterion(q, now));
      if PassesMetrics(q, now, event) {
        var keep := true;
        if needle != "" {
          var eventMatches := TitleMatches(needle, event);
          var marketMatches := Any(event.markets, MatchingMarket(needle));
          if !eventMatches && !marketMatches {
            keep := false;
          } else if !eventMatches && marketMatches {
            event := event.(markets := Filter(event.markets, MatchingMarket(needle)));
          }
        }
        if keep {
          kept := kept + [event];
        }
      }
      i := i + 1;
    }
    assert events[..i] == events;
  }

  // ---------------------------------------------------------------------------
  // GET

  /** The route's answer for the two datastore results and the parsed query. */
  function GetSpec(eventsResult: QueryResult<DbEvent>, marketsResult: QueryResult<DbMarket>,
                   q: EventQuery, now: int): Response<Event>
  {
    match eventsResult
    case Threw => Failure("Internal Server Error: Failed to fetch events")
    case QueryError => Failure("Failed to fetch events")
    case Rows(eventRows) =>
      match marketsResult
      case Threw => Failure("Internal Server Error: Failed to fetch events")
      case QueryError => Failure("Failed to fetch markets")
      case Rows(marketRows) =>
        var infos := Map(RowsOrEmpty(eventRows), TransformDbEvent);
        var markets := Map(RowsOrEmpty(marketRows), TransformDbMarket);
        var events := Map(infos, (info: EventInfo) => Event(info, MarketsOf(markets, info.eventId)));
        Succeed(FilterEventsSpec(events, q, now))
  }

  /** `GET`, with the datastore results as parameters. */
  method Get(eventsResult: QueryResult<DbEvent>, marketsResult: QueryResult<DbMarket>,
             q: EventQuery, now: int) returns (response: Response<Event>)
    ensures response == GetSpec(eventsResult, marketsResult, q, now)
  {
    if eventsResult.Threw? {
      return Failure("Internal Server Error: Failed to fetch events");
    }
    if eventsResult.QueryError? {
      return Failure("Failed to fetch events");
    }
    if marketsResult.Threw? {
      return Failure("Internal Server Error: Failed to fetch events");
    }
    if marketsResult.QueryError? {
      return Failure("Failed to fetch markets");
    }
    var infos := Map(RowsOrEmpty(eventsResult.data), TransformDbEvent);
    var markets := Map(RowsOrEmpty(marketsResult.data), TransformDbMarket);
    var groups := GroupMarketsByEvent(markets);
    var events := Attach(infos, groups);
    AttachPlacesMarkets(infos, markets, groups);
    assert events == Map(infos, (info: EventInfo) => Event(info, MarketsOf(markets, info.eventId)));
    var filtered := FilterEvents(events, q, now);
    return Success(|filtered|, filtered);
  }

  // ---------------------------------------------------------------------------
  // Properties of the filter

  /** The response `count` always equals the length of `data`. */
  lemma GetCountIsLength(eventsResult: QueryResult<DbEvent>, marketsResult: QueryResult<DbMarket>,
                         q: EventQuery, now: int)
    ensures GetSpec(eventsResult, marketsResult, q, now).Success? ==>
      GetSpec(eventsResult, marketsResult, q, now).count == |GetSpec(eventsResult, marketsResult, q, now).data|
    ensures GetSpec(eventsResult, marketsResult, q, now).Success? <==> eventsResult.Rows? && marketsResult.Rows?
  {
  }

  /** The kept events form an order-preserving subsequence of the input; the
      output is those events one for one, each with its own fields and a
      subsequence of its own markets, so the output's event records are a
      subsequence of the input's. */
  lemma FilterEventsSubsequence(events: seq<Event>, q: EventQuery, now: int)
    ensures var kept := Filter(events, KeepCriterion(q, now));
      && IsSubsequence(kept, events)
      && |FilterEventsSpec(events, q, now)| == |kept|
      && forall i :: 0 <= i < |kept| ==>
           FilterEventsSpec(events, q, now)[i].info == kept[i].info
           && IsSubsequence(FilterEventsSpec(events, q, now)[i].markets, kept[i].markets)
    ensures IsSubsequence(Map(FilterEventsSpec(events, q, now), (e: Event) => e.info),
                          Map(events, (e: Event) => e.info))
  {
    var kept := Filter(events, KeepCriterion(q, now));
    var out := FilterEventsSpec(events, q, now);
    FilterIsSubsequence(events, KeepCriterion(q, now));
    forall i | 0 <= i < |kept|
      ensures out[i].info == kept[i].info && IsSubsequence(out[i].markets, kept[i].markets)
    {
      var needle := Text.Lower(q.search);
      FilterIsSubsequence(kept[i].markets, MatchingMarket(needle));
      SelfSubsequence(kept[i].markets);
    }
    MapPreservesSubsequence(kept, events, (e: Event) => e.info);
    assert Map(out, (e: Event) => e.info) == Map(kept, (e: Event) => e.info);
  }

  lemma {:induction false} SelfSubsequence<T>(s: seq<T>)
    ensures IsSubsequence(s, s)
  {
    if s != [] {
      SelfSubsequence(s[1..]);
    }
  }

  /** Every returned event lies within the three ranges, is new when `new=true`,
      and ends within seven days (not already ended) when `endingSoon=true`. */
  lemma FilterEventsWithinBounds(events: seq<Event>, q: EventQuery, now: int, e: Event)
    requires e in FilterEventsSpec(events, q, now)
    ensures InRange(e.info.volume, q.minTotalVolume, q.maxTotalVolume)
    ensures InRange(e.info.volume24hr, q.minVolume24hr, q.maxVolume24hr)
    ensures InRange(e.info.liquidity, q.minLiquidity, q.maxLiquidity)
    ensures q.newOnly ==> e.info.isNew
    ensures q.endingSoon ==> 0 <= e.info.endDate - now <= 7 * Deadline.MillisPerDay
  {
    var kept := Filter(events, KeepCriterion(q, now));
    var i :| 0 <= i < |kept| && Narrowed(q, kept[i]) == e;
    assert KeepCriterion(q, now)(kept[i]);
    Deadline.EndingSoonWindow(e.info.endDate, now);
  }

  /** With a non-empty query, an event that passes the range and flag tests is
      excluded exactly when neither its lowered title nor any of its markets'
      lowered question or group title contains the lowered query. */
  lemma SearchExcludes(q: EventQuery, now: int, e: Event)
    requires Text.Lower(q.search) != "" && PassesMetrics(q, now, e)
    ensures !Keeps(q, now, e) <==>
      && !Text.Includes(Text.Lower(e.info.title), Text.Lower(q.search))
      && forall k :: 0 <= k < |e.markets| ==>
           !Text.Includes(Text.Lower(e.markets[k].question), Text.Lower(q.search))
           && !Text.Includes(Text.Lower(e.markets[k].groupItemTitle), Text.Lower(q.search))
  {
    var needle := Text.Lower(q.search);
    if Any(e.markets, MatchingMarket(needle)) {
      var k :| 0 <= k < |e.markets| && MatchingMarket(needle)(e.markets[k]);
      assert MarketMatches(needle, e.markets[k]);
    }
  }

  /** How a kept event's markets come out: unchanged when the query is empty or
      the title matches; otherwise exactly the matching markets, in their
      original order, and never none. */
  lemma SearchNarrows(q: EventQuery, now: int, e: Event)
    requires Keeps(q, now, e)
    ensures Narrowed(q, e).info == e.info
    ensures Text.Lower(q.search) == "" || TitleMatches(Text.Lower(q.search), e) ==> Narrowed(q, e) == e
    ensures Text.Lower(q.search) != "" && !TitleMatches(Text.Lower(q.search), e) ==>
      && Narrowed(q, e).markets == Filter(e.markets, MatchingMarket(Text.Lower(q.search)))
      && Narrowed(q, e).markets != []
      && forall k :: 0 <= k < |Narrowed(q, e).markets| ==> MarketMatches(Text.Lower(q.search), Narrowed(q, e).markets[k])
  {
    AnyIffFilterNonEmpty(e.markets, MatchingMarket(Text.Lower(q.search)));
  }
}
