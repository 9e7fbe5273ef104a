/** The `EventMarketTable` component: a sortable, paginated view of the
    events the home page holds, whose rows can be expanded to show their
    markets. Its own copy of the ratio helper behaves as the shared one; its
    colour buckets differ from the shared ones. */
module EventMarketTableComponent {
  import opened Optional
  import opened SortToggle
  import StableSort
  import Seqs
  import Paging
  import Utils
  import EventsRoute

  /** The sortable columns. */
  datatype SortKey = Volume | Volume24hr | Liquidity | VolumeToLiquidityRatio | EndDate

  /** The number the comparator compares for `key`: the event's field, the
      ratio computed from volume and liquidity, or the end date as a timestamp. */
  function KeyValue(key: SortKey, e: EventsRoute.Event): (r: real)
    ensures key == VolumeToLiquidityRatio && e.info.liquidity != 0.0 ==> r * e.info.liquidity == e.info.volume
    ensures key == VolumeToLiquidityRatio && e.info.liquidity == 0.0 ==> r == 0.0
    ensures key == EndDate ==> r == e.info.endDate as real
  {
    match key
    case Volume => e.info.volume
    case Volume24hr => e.info.volume24hr
    case Liquidity => e.info.liquidity
    case VolumeToLiquidityRatio => Utils.CalculateVlr(e.info.volume, e.info.liquidity)
    case EndDate => e.info.endDate as real
  }

  function SortValue(key: SortKey): EventsRoute.Event -> real
  {
    e => KeyValue(key, e)
  }

  /** This component's `getVLRColorClass`. */
  function TableVlrColor(vlr: real): Utils.ColorClass
  {
    if vlr < 10.0 then Utils.Green
    else if vlr < 50.0 then Utils.Yellow
    else if vlr < 150.0 then Utils.Orange
    else Utils.Red
  }

  /** The position of a colour on the green-to-red scale. */
  function Rank(c: Utils.ColorClass): nat
  {
    match c
    case Green => 0
    case Yellow => 1
    case Orange => 2
    case Red => 3
  }

  /** Each bucket, as the exact interval of ratios it covers. */
  lemma TableVlrColorBuckets(vlr: real)
    ensures TableVlrColor(vlr) == Utils.Green <==> vlr < 10.0
    ensures TableVlrColor(vlr) == Utils.Yellow <==> 10.0 <= vlr < 50.0
    ensures TableVlrColor(vlr) == Utils.Orange <==> 50.0 <= vlr < 150.0
    ensures TableVlrColor(vlr) == Utils.Red <==> 150.0 <= vlr
  {
  }

  /** Unlike the shared helper, this bucketing is monotone: a larger ratio
      never gets a greener colour. */
  lemma TableVlrColorMonotone(a: real, b: real)
    requires a <= b
    ensures Rank(TableVlrColor(a)) <= Rank(TableVlrColor(b))
  {
  }

  /** The set `toggleEvent` stores: a copy of `prev` with `id` removed when
      present and added otherwise. */
  function Toggled(expanded: set<string>, id: string): set<string>
  {
    if id in expanded then expanded - {id} else expanded + {id}
  }

  /** Toggling flips the membership of exactly the given id, and toggling the
      same id twice restores the set. */
  lemma ToggledFlipsOne(expanded: set<string>, id: string)
    ensures id in Toggled(expanded, id) <==> id !in expanded
    ensures forall other :: other != id ==> (other in Toggled(expanded, id) <==> other in expanded)
    ensures Toggled(Toggled(expanded, id), id) == expanded
  {
  }

  /** The component's state: the `events` prop and the four state hooks. */
  class EventMarketTable {
    var events: seq<EventsRoute.Event>
    var currentPage: int
    var sort: SortState<SortKey>
    var expandedEvents: set<string>

    /** Column and direction are chosen together. */
    predicate Valid()
      reads this
    {
      Consistent(sort)
    }

    /** The first render: page 1, unsorted, nothing expanded. */
    constructor (events: seq<EventsRoute.Event>)
      ensures Valid()
      ensures this.events == events && currentPage == 1
      ensures sort == Unsorted() && expandedEvents == {}
    {
      this.events := events;
      currentPage := 1;
      sort := Unsorted();
      expandedEvents := {};
    }

    /** `sortedEvents`: a permutation of the events, unchanged when no sort is
      active and ordered by the active column otherwise; rows with equal keys
      keep their order, as the engine's stable sort leaves them. */
    function SortedEvents(): (r: seq<EventsRoute.Event>)
      reads this
      ensures multiset(r) == multiset(events)
      ensures !Active(sort) ==> r == events
      ensures Active(sort) ==> StableSort.Ordered(SortValue(sort.key.value), sort.order.value, r)
      ensures Active(sort) ==> forall v ::
        Seqs.Filter(r, StableSort.KeyIs(SortValue(sort.key.value), v))
        == Seqs.Filter(events, StableSort.KeyIs(SortValue(sort.key.value), v))
    {
      StableSort.ViewProperties(events, sort, SortValue);
      if Active(sort) then
        StableSort.ViewStable(events, sort, SortValue);
        StableSort.View(events, sort, SortValue)
      else
        StableSort.View(events, sort, SortValue)
    }

    /** `totalPages`. */
    function TotalPages(): (r: nat)
      reads this
      ensures r * Paging.ItemsPerPage >= |events|
      ensures r > 0 ==> (r - 1) * Paging.ItemsPerPage < |events|
    {
      assert |SortedEvents()| == |events| by {
        assert |multiset(SortedEvents())| == |multiset(events)|;
      }
      Paging.TotalPages(|SortedEvents()|)
    }

    /** `currentEvents`: at most fifty rows of the sorted view, from row
        `(currentPage - 1) * 50` on. */
    function CurrentEvents(): (r: seq<EventsRoute.Event>)
      reads this
      ensures currentPage >= 1 ==> |r| <= Paging.ItemsPerPage
      ensures currentPage >= 1 ==> forall i :: 0 <= i < |r| ==>
        (currentPage - 1) * Paging.ItemsPerPage + i < |SortedEvents()|
        && r[i] == SortedEvents()[(currentPage - 1) * Paging.ItemsPerPage + i]
    {
      var page := Paging.Page(SortedEvents(), currentPage);
      if currentPage >= 1 then Paging.PageContents(SortedEvents(), currentPage); page else page
    }

    /** `handleSort(key)`: the toggle moves one step, the page goes back to 1,
        and the events themselves are left as they are. */
    method HandleSort(key: SortKey)
      requires Valid()
      modifies this
      ensures Valid()
      ensures sort == NextSort(old(sort), key) && currentPage == 1
      ensures events == old(events) && expandedEvents == old(expandedEvents)
    {
      NextSortTransitions(sort, key);
      sort := NextSort(sort, key);
      currentPage := 1;
    }

    /** A new `events` prop; the page is reset to 1 when its length differs
        from the previous one. */
    method ReceiveEvents(newEvents: seq<EventsRoute.Event>)
      modifies this
      ensures events == newEvents
      ensures currentPage == if |newEvents| != |old(events)| then 1 else old(currentPage)
      ensures sort == old(sort) && expandedEvents == old(expandedEvents)
    {
      var lengthChanged := |newEvents| != |events|;
      events := newEvents;
      if lengthChanged {
        currentPage := 1;
      }
    }

    /** `onPageChange={setCurrentPage}`. */
    method ChangePage(page: int)
      modifies this
      ensures currentPage == page
      ensures events == old(events) && sort == old(sort) && expandedEvents == old(expandedEvents)
    {
      currentPage := page;
    }

    /** `toggleEvent(eventId)`. */
    method ToggleEvent(eventId: string)
      modifies this
      ensures expandedEvents == Toggled(old(expandedEvents), eventId)
      ensures events == old(events) && sort == old(sort) && currentPage == old(currentPage)
    {
      expandedEvents := Toggled(expandedEvents, eventId);
    }
  }
}
