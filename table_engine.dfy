/** The three-state sort toggle that both tables share: clicking a column
    header sorts by it descending, a second click ascending, a third click
    removes the sort. */
module SortToggle {
  import opened Optional

  datatype Order = Asc | Desc

  /** A table's `sortKey` and `sortOrder`; `None` stands for `null`. */
  datatype SortState<K> = SortState(key: Option<K>, order: Option<Order>)

  /** The initial state: no column, no direction. */
  function Unsorted<K>(): SortState<K>
  {
    SortState(None, None)
  }

  /** `handleSort(key)` on the sort state: a new column starts descending; the
      current column goes from descending to ascending and from ascending to
      unsorted; a current column without direction is left as it is. */
  function NextSort<K(==)>(s: SortState<K>, k: K): SortState<K>
  {
    if s.key == Some(k) then
      if s.order == Some(Desc) then s.(order := Some(Asc))
      else if s.order == Some(Asc) then Unsorted()
      else s
    else SortState(Some(k), Some(Desc))
  }

  /** A column is chosen exactly when a direction is. */
  predicate Consistent<K>(s: SortState<K>)
  {
    s.key.Some? <==> s.order.Some?
  }

  /** The view is sorted (`sortKey && sortOrder`). */
  predicate Active<K>(s: SortState<K>)
  {
    s.key.Some? && s.order.Some?
  }

  /** Every click keeps column and direction chosen together, and from a
      consistent state the three outcomes are exactly: a newly chosen column
      descending, the same column flipped to ascending, or no sort. */
  lemma NextSortTransitions<K>(s: SortState<K>, k: K)
    requires Consistent(s)
    ensures Consistent(NextSort(s, k))
    ensures NextSort(s, k) == SortState(Some(k), Some(Desc)) <==> s.key != Some(k)
    ensures NextSort(s, k) == SortState(Some(k), Some(Asc)) <==> s == SortState(Some(k), Some(Desc))
    ensures NextSort(s, k) == Unsorted() <==> s == SortState(Some(k), Some(Asc))
  {
  }

  /** Three clicks on the same column of an unsorted table pass through
      descending and ascending and come back to unsorted. */
  lemma ThreeClicksCycle<K>(k: K)
    ensures NextSort(Unsorted(), k) == SortState(Some(k), Some(Desc))
    ensures NextSort(NextSort(Unsorted(), k), k) == SortState(Some(k), Some(Asc))
    ensures NextSort(NextSort(NextSort(Unsorted(), k), k), k) == Unsorted<K>()
  {
  }
}

/** `[...items].sort(comparator)` with the tables' comparator. The engine's
    sort is stable, so the result is the stable sort by the chosen key; it is
    modelled here as insertion sort, a pure function. */
module StableSort {
  import opened SortToggle
  import opened Seqs

  /** The comparator's "negative" case: `a` comes strictly before `b`, its key
      being smaller (ascending) or larger (descending). */
  predicate Precedes<T>(key: T -> real, order: Order, a: T, b: T)
  {
    match order
    case Asc => key(a) < key(b)
    case Desc => key(a) > key(b)
  }

  /** The comparator of both tables, with its -1 / 1 / 0 answers. */
  function Compare<T>(key: T -> real, order: Order, a: T, b: T): (r: int)
    ensures r < 0 <==> Precedes(key, order, a, b)
    ensures r > 0 <==> Precedes(key, order, b, a)
    ensures r == 0 <==> key(a) == key(b)
  {
    if key(a) < key(b) then (if order == Asc then -1 else 1)
    else if key(a) > key(b) then (if order == Asc then 1 else -1)
    else 0
  }

  /** Puts `x` after the leading elements that strictly precede it and before
      the rest, so that `x` stays ahead of the elements it ties with. */
  function Insert<T>(key: T -> real, order: Order, x: T, t: seq<T>): seq<T>
  {
    if t == [] || !Precedes(key, order, t[0], x) then [x] + t
    else [t[0]] + Insert(key, order, x, t[1..])
  }

  function Sort<T>(key: T -> real, order: Order, s: seq<T>): seq<T>
  {
    if s == [] then [] else Insert(key, order, s[0], Sort(key, order, s[1..]))
  }

  /** No element strictly precedes one that is placed before it. */
  predicate Ordered<T>(key: T -> real, order: Order, s: seq<T>)
  {
    forall i, j :: 0 <= i < j < |s| ==> !Precedes(key, order, s[j], s[i])
  }

  /** The elements whose key equals `v`. */
  function KeyIs<T>(key: T -> real, v: real): T -> bool
  {
    x => key(x) == v
  }

  lemma {:induction false} InsertPermutes<T>(key: T -> real, order: Order, x: T, t: seq<T>)
    ensures multiset(Insert(key, order, x, t)) == multiset([x] + t)
    decreases |t|
  {
    if t != [] && Precedes(key, order, t[0], x) {
      InsertPermutes(key, order, x, t[1..]);
      assert t == [t[0]] + t[1..];
    }
  }

  lemma {:induction false} InsertOrdered<T>(key: T -> real, order: Order, x: T, t: seq<T>)
    requires Ordered(key, order, t)
    ensures Ordered(key, order, Insert(key, order, x, t))
    decreases |t|
  {
    var r := Insert(key, order, x, t);
    if t == [] || !Precedes(key, order, t[0], x) {
      forall i, j | 0 <= i < j < |r| ensures !Precedes(key, order, r[j], r[i]) {
        if i == 0 && t != [] {
          assert r[j] == t[j - 1];
          assert !Precedes(key, order, t[j - 1], t[0]);
        } else if i > 0 {
          assert r[i] == t[i - 1] && r[j] == t[j - 1];
        }
      }
    } else {
      var rest := Insert(key, order, x, t[1..]);
      InsertOrdered(key, order, x, t[1..]);
      InsertKeepsFirst(key, order, x, t);
      assert r == [t[0]] + rest;
      forall i, j | 0 <= i < j < |r| ensures !Precedes(key, order, r[j], r[i]) {
        if i == 0 {
          assert r[j] == rest[j - 1];
        } else {
          assert r[i] == rest[i - 1] && r[j] == rest[j - 1];
        }
      }
    }
  }

  /** When `x` goes past the first element, nothing of the rest of the
      insertion should come before that first element. */
  lemma InsertKeepsFirst<T>(key: T -> real, order: Order, x: T, t: seq<T>)
    requires Ordered(key, order, t) && t != [] && Precedes(key, order, t[0], x)
    ensures forall j | 0 <= j < |Insert(key, order, x, t[1..])| ::
      !Precedes(key, order, Insert(key, order, x, t[1..])[j], t[0])
  {
    var rest := Insert(key, order, x, t[1..]);
    InsertPermutes(key, order, x, t[1..]);
    forall j | 0 <= j < |rest| ensures !Precedes(key, order, rest[j], t[0]) {
      assert rest[j] in multiset(rest);
      assert rest[j] in multiset([x] + t[1..]);
      if rest[j] != x {
        var m :| 0 <= m < |t[1..]| && t[1..][m] == rest[j];
        assert t[m + 1] == rest[j];
      }
    }
  }

  /** Inserting `x` in front of the elements of key `v` it ties with keeps
      their relative order: only `x` can join them, and only at the front. */
  lemma {:induction false} InsertStable<T>(key: T -> real, order: Order, x: T, t: seq<T>, v: real)
    ensures Filter(Insert(key, order, x, t), KeyIs(key, v)) == Filter([x] + t, KeyIs(key, v))
    decreases |t|
  {
    var p := KeyIs(key, v);
    if t != [] && Precedes(key, order, t[0], x) {
      var rest := Insert(key, order, x, t[1..]);
      InsertStable(key, order, x, t[1..], v);
      assert !(p(t[0]) && p(x));
      FilterAppend([t[0]], rest, p);
      FilterSwap(t[0], x, t[1..], p);
      FilterAppend([x], t, p);
      assert [t[0]] + t[1..] == t;
    }
  }

  /** Two elements that the predicate does not both accept may trade places
      in front of a filtered sequence. */
  lemma FilterSwap<T>(a: T, b: T, u: seq<T>, p: T -> bool)
    requires !(p(a) && p(b))
    ensures Filter([a], p) + Filter([b] + u, p) == Filter([b], p) + Filter([a] + u, p)
  {
    var rest := Filter(u, p);
    FilterSingleton(a, p);
    FilterSingleton(b, p);
    FilterAppend([b], u, p);
    FilterAppend([a], u, p);
    if p(a) {
      assert Filter([b], p) == [];
      assert [a] + ([] + rest) == [] + ([a] + rest);
    } else {
      assert Filter([a], p) == [];
      assert [] + (Filter([b], p) + rest) == Filter([b], p) + ([] + rest);
    }
  }

  lemma FilterSingleton<T>(y: T, p: T -> bool)
    ensures Filter([y], p) == if p(y) then [y] else []
  {
    assert [y][1..] == [];
  }

  /** The sorted sequence is a permutation of the input. */
  lemma {:induction false} SortPermutes<T>(key: T -> real, order: Order, s: seq<T>)
    ensures multiset(Sort(key, order, s)) == multiset(s)
  {
    if s != [] {
      SortPermutes(key, order, s[1..]);
      InsertPermutes(key, order, s[0], Sort(key, order, s[1..]));
      assert s == [s[0]] + s[1..];
    }
  }

  /** The sorted sequence is ordered by the key in the chosen direction. */
  lemma {:induction false} SortOrdered<T>(key: T -> real, order: Order, s: seq<T>)
    ensures Ordered(key, order, Sort(key, order, s))
  {
    if s != [] {
      SortOrdered(key, order, s[1..]);
      InsertOrdered(key, order, s[0], Sort(key, order, s[1..]));
    }
  }

  /** Stability: the elements sharing any one key value come out in their
      input order. */
  lemma {:induction false} SortStable<T>(key: T -> real, order: Order, s: seq<T>, v: real)
    ensures Filter(Sort(key, order, s), KeyIs(key, v)) == Filter(s, KeyIs(key, v))
  {
    if s != [] {
      var p := KeyIs(key, v);
      SortStable(key, order, s[1..], v);
      InsertStable(key, order, s[0], Sort(key, order, s[1..]), v);
      FilterAppend([s[0]], Sort(key, order, s[1..]), p);
      FilterAppend([s[0]], s[1..], p);
      assert s == [s[0]] + s[1..];
    }
  }

  /** An already ordered sequence is left exactly as it is. */
  lemma {:induction false} SortOrderedUnchanged<T>(key: T -> real, order: Order, s: seq<T>)
    requires Ordered(key, order, s)
    ensures Sort(key, order, s) == s
  {
    if s != [] {
      assert Ordered(key, order, s[1..]) by {
        forall i, j | 0 <= i < j < |s[1..]| ensures !Precedes(key, order, s[1..][j], s[1..][i]) {
          assert s[1..][j] == s[j + 1] && s[1..][i] == s[i + 1];
        }
      }
      SortOrderedUnchanged(key, order, s[1..]);
      if |s| > 1 {
        assert !Precedes(key, order, s[1], s[0]);
        assert s[1..][0] == s[1];
      }
      assert s == [s[0]] + s[1..];
    }
  }

  /** Sorting twice by the same key and direction gives the same result as once. */
  lemma SortIdempotent<T>(key: T -> real, order: Order, s: seq<T>)
    ensures Sort(key, order, Sort(key, order, s)) == Sort(key, order, s)
  {
    SortOrdered(key, order, s);
    SortOrderedUnchanged(key, order, Sort(key, order, s));
  }

  /** `sortedEvents` / `sortedMarkets`: the input itself unless both a column
      and a direction are chosen, else the stable sort by that column's key. */
  function View<K, T>(s: seq<T>, st: SortState<K>, keyOf: K -> T -> real): seq<T>
  {
    if st.key.Some? && st.order.Some? then Sort(keyOf(st.key.value), st.order.value, s) else s
  }

  /** The view is always a permutation of the data, is the data itself when no
      sort is active, and is ordered by the active column otherwise. */
  lemma ViewProperties<K, T>(s: seq<T>, st: SortState<K>, keyOf: K -> T -> real)
    ensures multiset(View(s, st, keyOf)) == multiset(s)
    ensures !Active(st) ==> View(s, st, keyOf) == s
    ensures Active(st) ==> Ordered(keyOf(st.key.value), st.order.value, View(s, st, keyOf))
  {
    if Active(st) {
      SortPermutes(keyOf(st.key.value), st.order.value, s);
      SortOrdered(keyOf(st.key.value), st.order.value, s);
    }
  }

  /** Ties keep their input order in the view: the rows sharing a value of the
      active column appear in the view as they do in the data. */
  lemma ViewStable<K, T>(s: seq<T>, st: SortState<K>, keyOf: K -> T -> real)
    requires Active(st)
    ensures forall v :: Filter(View(s, st, keyOf), KeyIs(keyOf(st.key.value), v)) == Filter(s, KeyIs(keyOf(st.key.value), v))
  {
    forall v ensures Filter(View(s, st, keyOf), KeyIs(keyOf(st.key.value), v)) == Filter(s, KeyIs(keyOf(st.key.value), v)) {
      SortStable(keyOf(st.key.value), st.order.value, s, v);
    }
  }
}

/** Client-side pagination: fifty rows a page, `Math.ceil` pages, and the page
    cut out with `Array.prototype.slice`. */
module Paging {

  const ItemsPerPage: nat := 50

  /** `Math.ceil(length / ITEMS_PER_PAGE)`. */
  function TotalPages(n: nat): (r: nat)
    ensures r * ItemsPerPage >= n
    ensures r > 0 ==> (r - 1) * ItemsPerPage < n
  {
    (n + ItemsPerPage - 1) / ItemsPerPage
  }

  /** How `slice` reads an index: negative ones count from the end, and both
      kinds are clamped to `[0, n]`. */
  function SliceIndex(i: int, n: nat): (r: nat)
    ensures r <= n
    ensures 0 <= i <= n ==> r == i
    ensures i > n ==> r == n
    ensures i < 0 ==> r == if n + i < 0 then 0 else n + i
  {
    if i < 0 then (if n + i < 0 then 0 else n + i)
    else if i > n then n
    else i
  }

  /** `s.slice(start, end)`. */
  function Slice<T>(s: seq<T>, start: int, end: int): seq<T>
  {
    var from := SliceIndex(start, |s|);
    var to := SliceIndex(end, |s|);
    if from < to then s[from..to] else []
  }

  /** `currentEvents` / `currentMarkets`: the `page`-th block of fifty rows. */
  function Page<T>(s: seq<T>, page: int): seq<T>
  {
    var start := (page - 1) * ItemsPerPage;
    Slice(s, start, start + ItemsPerPage)
  }

  /** A page never holds more than fifty rows, and its rows are, in order, the
      rows of the data from index `(page - 1) * 50` on. */
  lemma PageContents<T>(s: seq<T>, page: int)
    requires page >= 1
    ensures |Page(s, page)| <= ItemsPerPage
    ensures forall i :: 0 <= i < |Page(s, page)| ==>
      (page - 1) * ItemsPerPage + i < |s| && Page(s, page)[i] == s[(page - 1) * ItemsPerPage + i]
    ensures page * ItemsPerPage <= |s| ==> |Page(s, page)| == ItemsPerPage
  {
  }

  /** For a page number from 1 on, the page is non-empty exactly when it is at
      most the number of pages. */
  lemma PageNonEmptyIff<T>(s: seq<T>, page: int)
    requires page >= 1
    ensures Page(s, page) != [] <==> page <= TotalPages(|s|)
  {
  }

  /** Page 0 is empty; a negative page counts from the end of the data, as
      `slice` does, and is non-empty when the data reach back that far. */
  lemma NonPositivePages<T>(s: seq<T>, page: int)
    requires page <= 0
    ensures page == 0 ==> Page(s, page) == []
    ensures page < 0 ==> (Page(s, page) != [] <==> |s| + page * ItemsPerPage > 0)
  {
  }

  /** Pages 1 to `k` laid end to end. */
  function Pages<T>(s: seq<T>, k: nat): seq<T>
  {
    if k == 0 then [] else Pages(s, k - 1) + Page(s, k)
  }

  /** Pages 1 to `k` are the first `min(50 k, |s|)` rows. */
  lemma {:induction false} PagesPrefix<T>(s: seq<T>, k: nat)
    ensures Pages(s, k) == s[..if k * ItemsPerPage <= |s| then k * ItemsPerPage else |s|]
  {
    if k > 0 {
      PagesPrefix(s, k - 1);
      var a := if (k - 1) * ItemsPerPage <= |s| then (k - 1) * ItemsPerPage else |s|;
      var b := if k * ItemsPerPage <= |s| then k * ItemsPerPage else |s|;
      assert Page(s, k) == s[a..b];
      assert s[..a] + s[a..b] == s[..b];
    }
  }

  /** Reading pages 1 to `TotalPages` in turn shows every row exactly once,
      in order. */
  lemma PagesCoverAll<T>(s: seq<T>)
    ensures Pages(s, TotalPages(|s|)) == s
  {
    PagesPrefix(s, TotalPages(|s|));
    assert s[..|s|] == s;
  }
}
