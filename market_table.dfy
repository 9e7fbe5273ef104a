/** The `MarketTable` component: a sortable, paginated view of the markets
    the markets hook holds. */
module MarketTableComponent {
  import opened SortToggle
  import StableSort
  import Seqs
  import Paging
  import MarketsRoute

  /** The sortable columns. */
  datatype SortKey =
    TotalVolume | Volume24hr | Liquidity | EndDate | OutcomeYesPrice | OutcomeNoPrice | OneDayPriceChange

  /** The number the comparator compares for `key`: the market's field, or
      its end date as a timestamp. */
  function KeyValue(key: SortKey, m: MarketsRoute.Market): (r: real)
    ensures key == EndDate ==> r == m.endDate as real
    ensures key == TotalVolume ==> r == m.totalVolume
  {
    match key
    case TotalVolume => m.totalVolume
    case Volume24hr => m.volume24hr
    case Liquidity => m.liquidity
    case EndDate => m.endDate as real
    case OutcomeYesPrice => m.outcomeYesPrice
    case OutcomeNoPrice => m.outcomeNoPrice
    case OneDayPriceChange => m.oneDayPriceChange
  }

  function SortValue(key: SortKey): MarketsRoute.Market -> real
  {
    m => KeyValue(key, m)
  }

  /** The component's state: the `markets` prop and the three state hooks. */
  class MarketTable {
    var markets: seq<MarketsRoute.Market>
    var currentPage: int
    var sort: SortState<SortKey>

    /** Column and direction are chosen together. */
    predicate Valid()
      reads this
    {
      Consistent(sort)
    }

    /** The first render: page 1, unsorted. */
    constructor (markets: seq<MarketsRoute.Market>)
      ensures Valid()
      ensures this.markets == markets && currentPage == 1 && sort == Unsorted()
    {
      this.markets := markets;
      currentPage := 1;
      sort := Unsorted();
    }

    /** `sortedMarkets`: a permutation of the markets, unchanged when no sort
        is active and ordered by the active column otherwise; rows with equal
        keys keep their order, as the engine's stable sort leaves them. */
    function SortedMarkets(): (r: seq<MarketsRoute.Market>)
      reads this
      ensures multiset(r) == multiset(markets)
      ensures !Active(sort) ==> r == markets
      ensures Active(sort) ==> StableSort.Ordered(SortValue(sort.key.value), sort.order.value, r)
      ensures Active(sort) ==> forall v ::
        Seqs.Filter(r, StableSort.KeyIs(SortValue(sort.key.value), v))
        == Seqs.Filter(markets, StableSort.KeyIs(SortValue(sort.key.value), v))
    {
      StableSort.ViewProperties(markets, sort, SortValue);
      if Active(sort) then
        StableSort.ViewStable(markets, sort, SortValue);
        StableSort.View(markets, sort, SortValue)
      else
        StableSort.View(markets, sort, SortValue)
    }

    /** `totalPages`. */
    function TotalPages(): (r: nat)
      reads this
      ensures r * Paging.ItemsPerPage >= |markets|
      ensures r > 0 ==> (r - 1) * Paging.ItemsPerPage < |markets|
    {
      assert |SortedMarkets()| == |markets| by {
        assert |multiset(SortedMarkets())| == |multiset(markets)|;
      }
      Paging.TotalPages(|SortedMarkets()|)
    }

    /** `currentMarkets`: at most fifty rows of the sorted view, from row
        `(currentPage - 1) * 50` on. */
    function CurrentMarkets(): (r: seq<MarketsRoute.Market>)
      reads this
      ensures currentPage >= 1 ==> |r| <= Paging.ItemsPerPage
      ensures currentPage >= 1 ==> forall i :: 0 <= i < |r| ==>
        (currentPage - 1) * Paging.ItemsPerPage + i < |SortedMarkets()|
        && r[i] == SortedMarkets()[(currentPage - 1) * Paging.ItemsPerPage + i]
    {
      var page := Paging.Page(SortedMarkets(), currentPage);
      if currentPage >= 1 then Paging.PageContents(SortedMarkets(), currentPage); page else page
    }

    /** `handleSort(key)`: the toggle moves one step, the page goes back to 1,
        and the markets themselves are left as they are. */
    method HandleSort(key: SortKey)
      requires Valid()
      modifies this
      ensures Valid()
      ensures sort == NextSort(old(sort), key) && currentPage == 1
      ensures markets == old(markets)
    {
      NextSortTransitions(sort, key);
      sort := NextSort(sort, key);
      currentPage := 1;
    }

    /** A new `markets` prop; the page is reset to 1 when its length differs
        from the previous one. */
    method ReceiveMarkets(newMarkets: seq<MarketsRoute.Market>)
      modifies this
      ensures markets == newMarkets
      ensures currentPage == if |newMarkets| != |old(markets)| then 1 else old(currentPage)
      ensures sort == old(sort)
    {
      var lengthChanged := |newMarkets| != |markets|;
      markets := newMarkets;
      if lengthChanged {
        currentPage := 1;
      }
    }

    /** `onPageChange={setCurrentPage}`. */
    method ChangePage(page: int)
      modifies this
      ensures currentPage == page
      ensures markets == old(markets) && sort == old(sort)
    {
      currentPage := page;
    }
  }
}
