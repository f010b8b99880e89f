/** broker/fxcm/price.py: get_dataframe, which pages backward through a candle history.  Times
    are whole seconds; a candle is its time and its prices. */
module CandlePaging {
  import opened Wrappers

  datatype Candle = Candle(time: int, row: int)

  /** Ascending, with more than 10 seconds between neighbours. */
  ghost predicate Spaced(cs: seq<Candle>) {
    forall i, j | 0 <= i < j < |cs| :: cs[i].time + 10 < cs[j].time
  }

  /** As an index of distinct times is. */
  ghost predicate Ascending(cs: seq<Candle>) {
    forall i, j | 0 <= i < j < |cs| :: cs[i].time < cs[j].time
  }

  ghost predicate Sorted(cs: seq<Candle>) {
    forall i, j | 0 <= i < j < |cs| :: cs[i].time <= cs[j].time
  }

  /** How many candles of the history are at or before the time. */
  function UpTo(history: seq<Candle>, time: int): (n: nat)
    ensures n <= |history|
  {
    if history == [] then 0
    else if history[|history| - 1].time <= time then |history|
    else UpTo(history[..|history| - 1], time)
  }

  lemma {:induction false} UpToSplits(history: seq<Candle>, time: int)
    requires Sorted(history)
    ensures var n := UpTo(history, time);
            && (forall i | 0 <= i < n :: history[i].time <= time)
            && (forall i | n <= i < |history| :: time < history[i].time)
  {
    if history != [] && history[|history| - 1].time > time {
      UpToSplits(history[..|history| - 1], time);
    }
  }

  lemma {:induction false} UpToIs(history: seq<Candle>, time: int, n: nat)
    requires n <= |history|
    requires forall i | 0 <= i < n :: history[i].time <= time
    requires forall i | n <= i < |history| :: time < history[i].time
    ensures UpTo(history, time) == n
  {
    if n < |history| {
      UpToIs(history[..|history| - 1], time, n);
    }
  }

  /** The broker's get_candles: the last `number` candles at or before the end. */
  function GetCandles(history: seq<Candle>, number: nat, end: int): seq<Candle> {
    var n := UpTo(history, end);
    history[if number < n then n - number else 0..n]
  }

  /** It is full if there are as many, and holds the latest of those at or before the end. */
  lemma GetCandlesAreTheLast(history: seq<Candle>, number: nat, end: int)
    requires Sorted(history)
    ensures var page := GetCandles(history, number, end);
            && (forall c <- page :: c in history && c.time <= end)
            && |page| <= number
            && forall c | c in history && c.time <= end && c !in page :: |page| == number && forall d <- page :: c.time <= d.time
  {
    UpToSplits(history, end);
    hide UpTo;
  }

  /** Inserts after all rows that are not later. */
  function Inserted(cs: seq<Candle>, c: Candle): seq<Candle> {
    if cs == [] || cs[|cs| - 1].time <= c.time then cs + [c]
    else Inserted(cs[..|cs| - 1], c) + [cs[|cs| - 1]]
  }

  /** sort_index */
  function SortIndex(cs: seq<Candle>): seq<Candle> {
    if cs == [] then [] else Inserted(SortIndex(cs[..|cs| - 1]), cs[|cs| - 1])
  }

  lemma {:induction false} InsertedBetween(a: seq<Candle>, b: seq<Candle>, c: Candle)
    requires a == [] || a[|a| - 1].time <= c.time
    requires forall x <- b :: c.time < x.time
    ensures Inserted(a + b, c) == a + [c] + b
    decreases b
  {
    if b == [] {
      assert a + b == a;
    } else {
      var rest, last := b[..|b| - 1], b[|b| - 1];
      assert a + b == a + rest + [last] && last in b;
      assert (a + b)[..|a + b| - 1] == a + rest;
      InsertedBetween(a, rest, c);
    }
  }

  lemma {:induction false} SortedIsFixed(cs: seq<Candle>)
    requires Sorted(cs)
    ensures SortIndex(cs) == cs
  {
    if cs != [] {
      SortedIsFixed(cs[..|cs| - 1]);
    }
  }

  lemma SortedLast(later: seq<Candle>, rest: seq<Candle>, last: Candle)
    ensures SortIndex(later + (rest + [last])) == Inserted(SortIndex(later + rest), last)
  {
    var all := later + (rest + [last]);
    assert all[..|all| - 1] == later + rest;
  }

  /** A page put after the later rows is sorted to before them. */
  lemma {:induction false} PageGoesFirst(later: seq<Candle>, page: seq<Candle>)
    requires Sorted(page) && Sorted(later)
    requires page != [] ==> forall y <- later :: page[|page| - 1].time < y.time
    ensures SortIndex(later + page) == page + later
    decreases page
  {
    if page == [] {
      assert later + page == later;
      SortedIsFixed(later);
    } else {
      var rest, last := page[..|page| - 1], page[|page| - 1];
      assert rest + [last] == page;
      assert rest != [] ==> rest[|rest| - 1].time <= last.time;
      SortedLast(later, rest, last);
      hide SortIndex, Inserted, Sorted;
      PageGoesFirst(later, rest);
      InsertedBetween(rest, later, last);
    }
  }

  /** The rows of the history between the two times, both included. */
  ghost predicate IsRange(rows: seq<Candle>, history: seq<Candle>, from: int, end: int) {
    && Sorted(rows) && (forall i, j | 0 <= i < j < |rows| :: rows[i] != rows[j])
    && forall c :: c in rows <==> c in history && from <= c.time <= end
  }

  /** The history reaches past the start of the range, up to the 10 seconds a page steps back. */
  ghost predicate Reaches(history: seq<Candle>, from: int) {
    history != [] && history[0].time - 10 <= from
  }

  function From(rows: seq<Candle>, from: int): seq<Candle> {
    if rows == [] then []
    else From(rows[..|rows| - 1], from) + if rows[|rows| - 1].time >= from then [rows[|rows| - 1]] else []
  }

  /** The first row after one more page, where row k was the first. */
  function Back(k: nat, number: nat): nat {
    if number < k then k - number else 0
  }

  // ----- the pages

  /** A call of get_dataframe: the broker's history, the size of its pages, and the floored
      start and end of the range. */
  datatype Query = Query(history: seq<Candle>, number: nat, from: int, to: int) {
    /** There is a first page, and it is not empty. */
    ghost predicate Pages() {
      Ascending(history) && number >= 1 && from < to && UpTo(history, to) > 0
    }

    /** The rows held after the first page and i further ones. */
    function Fetched(i: nat): seq<Candle> {
      if i == 0 then GetCandles(history, number, to)
      else
        var rows := Fetched(i - 1);
        if rows == [] then [] else SortIndex(rows + GetCandles(history, number, rows[0].time - 10))
    }

    /** How many rows of the history are at or before the end of the page after row k. */
    function Older(k: nat): (n: nat)
      requires k < |history|
      ensures n <= |history|
    {
      UpTo(history, history[k].time - 10)
    }

    /** The row of the history that is the first one held after the i-th page; a page that
        finds nothing changes nothing. */
    function Start(i: nat): (k: nat)
      requires number >= 1 && UpTo(history, to) > 0
      ensures k < |history|
    {
      if i == 0 then Back(UpTo(history, to), number)
      else
        var k := Start(i - 1);
        if Older(k) > 0 then Back(Older(k), number) else k
    }

    /** After the i-th page the loop ends. */
    predicate Ends(i: nat)
      requires number >= 1 && UpTo(history, to) > 0
    {
      history[Start(i)].time - 10 <= from
    }

    /** The i-th page is fetched: none before it has ended the loop. */
    ghost predicate Visited(i: nat)
      requires number >= 1 && UpTo(history, to) > 0
    {
      forall j: nat | j < i :: !Ends(j)
    }

    ghost predicate Terminates()
      requires number >= 1 && UpTo(history, to) > 0
    {
      exists i: nat :: Ends(i)
    }

    /** There are rows for the page after row k. */
    predicate MoreRows(k: nat)
      requires k < |history|
    {
      history[0].time <= history[k].time - 10
    }

    /** At the page boundary before row k nothing of the range is lost: there is no row before
        it, or that is before the range, or the next page will take it. */
    predicate NothingLost(k: nat)
      requires k < |history|
    {
      k == 0 || history[k - 1].time < from || (from < history[k].time - 10 && history[k - 1].time <= history[k].time - 10)
    }

    /** No row of the range is lost at any page boundary the loop comes to. */
    ghost predicate Gapless()
      requires number >= 1 && UpTo(history, to) > 0
    {
      forall i: nat | Visited(i) :: NothingLost(Start(i))
    }
  }

  lemma AscendingIsSorted(cs: seq<Candle>)
    requires Ascending(cs)
    ensures Sorted(cs)
  {
  }

  lemma OlderSplits(q: Query, k: nat)
    requires Ascending(q.history) && k < |q.history|
    ensures q.Older(k) <= k
    ensures forall i | 0 <= i < q.Older(k) :: q.history[i].time <= q.history[k].time - 10
    ensures forall i | q.Older(k) <= i < |q.history| :: q.history[k].time - 10 < q.history[i].time
  {
    AscendingIsSorted(q.history);
    UpToSplits(q.history, q.history[k].time - 10);
  }

  /** The page after row k. */
  function PageBefore(q: Query, k: nat): seq<Candle>
    requires k < |q.history|
  {
    q.history[Back(q.Older(k), q.number)..q.Older(k)]
  }

  /** A further page is put in front of the rows held. */
  lemma NextPage(q: Query, rows: seq<Candle>, k: nat)
    requires Ascending(q.history) && k < |q.history| && Ascending(rows) && rows != [] && rows[0] == q.history[k]
    ensures SortIndex(rows + GetCandles(q.history, q.number, rows[0].time - 10)) == PageBefore(q, k) + rows
    ensures Ascending(PageBefore(q, k) + rows)
  {
    OlderSplits(q, k);
    var page := PageBefore(q, k);
    assert GetCandles(q.history, q.number, rows[0].time - 10) == page;
    PageInFront(page, rows);
  }

  lemma PageInFront(page: seq<Candle>, rows: seq<Candle>)
    requires Ascending(page) && Ascending(rows) && rows != []
    requires forall x <- page :: x.time <= rows[0].time - 10
    ensures SortIndex(rows + page) == page + rows && Ascending(page + rows)
  {
    AscendingIsSorted(rows);
    AscendingIsSorted(page);
    if page != [] {
      assert page[|page| - 1] in page;
    }
    PageGoesFirst(rows, page);
    forall i, j | 0 <= i < j < |page + rows| ensures (page + rows)[i].time < (page + rows)[j].time {
      if i < |page| <= j {
        assert page[i] in page;
      }
    }
  }

  /** The rows held after the i-th page start with its first row, in order. */
  ghost predicate Holds(q: Query, rows: seq<Candle>, k: nat) {
    k < |q.history| && Ascending(rows) && rows != [] && rows[0] == q.history[k]
  }

  lemma FirstPage(q: Query)
    requires q.Pages()
    ensures q.Start(0) < UpTo(q.history, q.to)
    ensures q.Fetched(0) == q.history[q.Start(0)..UpTo(q.history, q.to)] && Holds(q, q.Fetched(0), q.Start(0))
  {
  }

  /** The row the next page starts at, after row k. */
  function NextStart(q: Query, k: nat): nat
    requires k < |q.history|
  {
    if q.Older(k) > 0 then Back(q.Older(k), q.number) else k
  }

  lemma HoldsOneMore(q: Query, rows: seq<Candle>, k: nat)
    requires Ascending(q.history) && q.number >= 1 && Holds(q, rows, k)
    ensures Holds(q, PageBefore(q, k) + rows, NextStart(q, k))
  {
    NextPage(q, rows, k);
    hide UpTo, SortIndex, GetCandles, Ascending;
  }

  lemma StartsNext(q: Query, i: nat)
    requires q.Pages()
    ensures q.Start(i + 1) == NextStart(q, q.Start(i))
  {
    hide UpTo, Ascending, Back;
  }

  lemma FetchesNext(q: Query, i: nat)
    ensures q.Fetched(i + 1) ==
            var rows := q.Fetched(i);
            if rows == [] then [] else SortIndex(rows + GetCandles(q.history, q.number, rows[0].time - 10))
  {
    hide SortIndex, GetCandles;
  }

  lemma OnePageMore(q: Query, i: nat)
    requires q.Pages() && Holds(q, q.Fetched(i), q.Start(i))
    ensures q.Fetched(i + 1) == PageBefore(q, q.Start(i)) + q.Fetched(i)
    ensures Holds(q, q.Fetched(i + 1), q.Start(i + 1))
  {
    hide UpTo, GetCandles, SortIndex, Ascending, PageBefore, NextStart, Query.Fetched, Query.Start;
    StartsNext(q, i);
    FetchesNext(q, i);
    NextPage(q, q.Fetched(i), q.Start(i));
    HoldsOneMore(q, q.Fetched(i), q.Start(i));
  }

  /** Each page of the loop starts at its row of the history, and is put in front of the rows
      held before. */
  lemma {:induction false} PagesInFront(q: Query, i: nat)
    requires q.Pages()
    ensures Holds(q, q.Fetched(i), q.Start(i))
    ensures i > 0 ==> q.Fetched(i) == PageBefore(q, q.Start(i - 1)) + q.Fetched(i - 1)
  {
    hide UpTo, Ascending, Query.Fetched, Query.Start, Holds, PageBefore;
    if i == 0 {
      FirstPage(q);
    } else {
      PagesInFront(q, i - 1);
      OnePageMore(q, i - 1);
    }
  }

  // ----- when the paging ends

  /** If a further page finds nothing, neither does any after it. */
  lemma {:induction false} Stuck(q: Query, i: nat, j: nat)
    requires q.Pages() && i <= j && q.Older(q.Start(i)) == 0
    ensures q.Start(j) == q.Start(i)
  {
    if i < j {
      Stuck(q, i, j - 1);
    }
  }

  lemma StuckForever(q: Query, i: nat)
    requires q.Pages() && q.Visited(i) && !q.Ends(i) && q.Older(q.Start(i)) == 0
    ensures !q.Terminates()
  {
    forall j: nat ensures !q.Ends(j) {
      if j > i {
        Stuck(q, i, j);
      }
    }
  }

  lemma MoreRowsIff(q: Query, k: nat)
    requires Ascending(q.history) && k < |q.history|
    ensures q.MoreRows(k) <==> q.Older(k) > 0
  {
    OlderSplits(q, k);
    hide UpTo;
  }

  /** A page that finds something starts further back. */
  lemma FurtherBack(q: Query, i: nat)
    requires q.Pages() && q.Older(q.Start(i)) > 0
    ensures q.Start(i + 1) < q.Start(i)
  {
    OlderSplits(q, q.Start(i));
    hide UpTo;
  }

  ghost predicate AlwaysMoreRows(q: Query)
    requires q.Pages()
  {
    forall i: nat | q.Visited(i) && !q.Ends(i) :: q.MoreRows(q.Start(i))
  }

  lemma {:induction false} EndsWithin(q: Query, i: nat) returns (j: nat)
    requires q.Pages() && AlwaysMoreRows(q) && q.Visited(i)
    ensures q.Ends(j)
    decreases q.Start(i)
  {
    if q.Ends(i) {
      j := i;
    } else {
      MoreRowsIff(q, q.Start(i));
      FurtherBack(q, i);
      j := EndsWithin(q, i + 1);
    }
  }

  /** The loop ends if and only if, whenever it goes on, the history has rows at or before the
      end of the next page. */
  lemma PagingEndsIff(q: Query)
    requires q.Pages()
    ensures q.Terminates() <==> AlwaysMoreRows(q)
  {
    if AlwaysMoreRows(q) {
      var j := EndsWithin(q, 0);
    } else {
      var i: nat :| q.Visited(i) && !q.Ends(i) && !q.MoreRows(q.Start(i));
      MoreRowsIff(q, q.Start(i));
      StuckForever(q, i);
    }
  }

  /** With rows more than 10 seconds apart: if and only if the history reaches past the start of
      the range, and then nothing is lost. */
  lemma SpacedPaging(q: Query)
    requires q.Pages() && Spaced(q.history)
    ensures q.Terminates() <==> Reaches(q.history, q.from)
    ensures q.Gapless()
  {
    if Reaches(q.history, q.from) {
      forall i: nat | !q.Ends(i) ensures q.MoreRows(q.Start(i)) {
        assert q.Start(i) > 0;
      }
      var j := EndsWithin(q, 0);
    } else {
      forall i: nat ensures !q.Ends(i) {
        assert q.Start(i) > 0 ==> q.history[0].time < q.history[q.Start(i)].time;
      }
    }
  }

  // ----- what is lost

  /** Where the loop goes on and nothing is lost, the next page ends right before row k. */
  lemma NoGap(q: Query, k: nat)
    requires Ascending(q.history) && k < |q.history| && q.from < q.history[k].time - 10 && q.NothingLost(k)
    ensures q.Older(k) == k
  {
    OlderSplits(q, k);
    hide UpTo;
    if k > 0 {
      assert q.history[k - 1].time < q.history[k].time;
      assert q.history[k - 1].time <= q.history[k].time - 10;
    }
  }

  /** As long as nothing is lost the rows held are all rows from the last page's start on. */
  lemma {:induction false} HeldWhileGapless(q: Query, i: nat)
    requires q.Pages() && q.Terminates() && q.Visited(i)
    requires forall j: nat | j < i :: q.NothingLost(q.Start(j))
    ensures q.Start(i) < UpTo(q.history, q.to) && q.Fetched(i) == q.history[q.Start(i)..UpTo(q.history, q.to)]
  {
    hide UpTo, Ascending, Query.Fetched, Query.Start, Holds, Query.Terminates, Query.NothingLost;
    if i == 0 {
      FirstPage(q);
    } else {
      HeldWhileGapless(q, i - 1);
      PagesInFront(q, i);
      StartsNext(q, i - 1);
      var k := q.Start(i - 1);
      if q.Older(k) == 0 {
        StuckForever(q, i - 1);
      }
      assert !q.Ends(i - 1);
      NoGap(q, k);
    }
  }

  /** Rows of the page after row k are at least 10 seconds before it. */
  lemma PageIsOlder(q: Query, k: nat)
    requires Ascending(q.history) && k < |q.history|
    ensures q.Older(k) <= k
    ensures forall x <- PageBefore(q, k) :: x.time <= q.history[k].time - 10
  {
    OlderSplits(q, k);
    hide UpTo, Ascending;
  }

  lemma HeldAreLater(q: Query, rows: seq<Candle>, k: nat)
    requires Holds(q, rows, k)
    ensures forall x <- rows :: q.history[k].time <= x.time
  {
    forall x | x in rows ensures q.history[k].time <= x.time {
      var i :| 0 <= i < |rows| && rows[i] == x;
      assert i > 0 ==> rows[0].time < rows[i].time;
    }
  }

  lemma BoundaryIsLater(q: Query, k: nat)
    requires Ascending(q.history) && k < |q.history| && !q.NothingLost(k)
    ensures k > 0 && q.history[k - 1].time < q.history[k].time && q.from <= q.history[k - 1].time
    ensures q.from < q.history[k].time - 10 ==> q.history[k].time - 10 < q.history[k - 1].time
  {
  }

  lemma EarlierRow(q: Query, l: nat, k: nat)
    requires Ascending(q.history) && l <= k < |q.history|
    ensures q.history[l].time <= q.history[k].time
  {
  }

  /** A row lost at a boundary is not taken by any later page. */
  lemma {:induction false} LostForGood(q: Query, j: nat, i: nat)
    requires q.Pages() && j <= i && q.Visited(i) && !q.NothingLost(q.Start(j))
    ensures q.Start(j) > 0 && q.Start(i) <= q.Start(j) && q.history[q.Start(j) - 1] !in q.Fetched(i)
    decreases i
  {
    hide UpTo, Ascending, Query.Fetched, Holds, PageBefore, Query.Start, Query.NothingLost, NextStart;
    var k := q.Start(j);
    PagesInFront(q, i);
    BoundaryIsLater(q, k);
    if i == j {
      HeldAreLater(q, q.Fetched(i), k);
    } else {
      LostForGood(q, j, i - 1);
      var l := q.Start(i - 1);
      PageIsOlder(q, l);
      StartsNext(q, i - 1);
      NextIsEarlier(q, l);
      EarlierRow(q, l, k);
      assert !q.Ends(j);
      assert q.history[k - 1] !in PageBefore(q, l);
    }
  }

  lemma NextIsEarlier(q: Query, k: nat)
    requires Ascending(q.history) && k < |q.history|
    ensures NextStart(q, k) <= k
  {
    PageIsOlder(q, k);
    hide UpTo, Ascending;
  }

  lemma {:induction false} FromKeeps(rows: seq<Candle>, from: int)
    requires Ascending(rows)
    ensures Ascending(From(rows, from)) && forall c :: c in From(rows, from) <==> c in rows && from <= c.time
  {
    if rows != [] {
      var front, last := rows[..|rows| - 1], rows[|rows| - 1];
      FromKeeps(front, from);
      assert rows == front + [last];
      forall c | c in From(front, from) ensures c.time < last.time {
        assert c in front;
      }
    }
  }

  /** The rows of the history from row k up to the end of the range. */
  lemma RowsFrom(q: Query, k: nat, c: Candle)
    requires q.Pages() && k < UpTo(q.history, q.to) && (k == 0 || q.history[k - 1].time < q.from)
    ensures c in q.history[k..UpTo(q.history, q.to)] && q.from <= c.time <==> c in q.history && q.from <= c.time <= q.to
  {
    var n := UpTo(q.history, q.to);
    AscendingIsSorted(q.history);
    UpToSplits(q.history, q.to);
    hide UpTo;
    if c in q.history && q.from <= c.time <= q.to {
      var i :| 0 <= i < |q.history| && q.history[i] == c;
      assert i >= k;
      assert q.history[k..n][i - k] == c;
    }
  }

  lemma AscendingRange(q: Query, k: nat, n: nat)
    requires Ascending(q.history) && k <= n <= |q.history|
    ensures Ascending(q.history[k..n])
  {
  }

  /** If the row before row k is not in the range, the rows from there up to the end, filtered,
      are the range. */
  lemma FilterIsRange(q: Query, k: nat)
    requires q.Pages() && k < UpTo(q.history, q.to) && (k == 0 || q.history[k - 1].time < q.from)
    ensures IsRange(From(q.history[k..UpTo(q.history, q.to)], q.from), q.history, q.from, q.to)
  {
    var rows := q.history[k..UpTo(q.history, q.to)];
    forall c ensures c in rows && q.from <= c.time <==> c in q.history && q.from <= c.time <= q.to {
      RowsFrom(q, k, c);
    }
    AscendingRange(q, k, UpTo(q.history, q.to));
    FromKeeps(rows, q.from);
    AscendingIsDistinct(From(rows, q.from));
    hide UpTo, Ascending, From, Sorted;
  }

  lemma AscendingIsDistinct(cs: seq<Candle>)
    requires Ascending(cs)
    ensures Sorted(cs) && forall i, j | 0 <= i < j < |cs| :: cs[i] != cs[j]
  {
  }

  lemma StartsBeforeTheEnd(q: Query, i: nat)
    requires q.Pages()
    ensures q.history[q.Start(i)].time <= q.to
  {
    AscendingIsSorted(q.history);
    UpToSplits(q.history, q.to);
    StartsDescend(q, i);
    hide UpTo;
  }

  lemma {:induction false} StartsDescend(q: Query, i: nat)
    requires q.Pages()
    ensures q.Start(i) < UpTo(q.history, q.to)
  {
    if i > 0 {
      StartsDescend(q, i - 1);
      OlderSplits(q, q.Start(i - 1));
      hide UpTo;
    }
  }

  lemma OnlyTheLastEnds(q: Query, i: nat)
    requires q.Pages() && q.Visited(i) && q.Ends(i)
    ensures q.Terminates() && forall j: nat | q.Visited(j) :: j <= i
  {
    hide Query.Ends, UpTo;
  }

  lemma GaplessIsTheRange(q: Query, i: nat)
    requires q.Pages() && q.Visited(i) && q.Ends(i) && q.Gapless()
    ensures IsRange(From(q.Fetched(i), q.from), q.history, q.from, q.to)
  {
    hide UpTo, Query.Fetched, Query.Start, Ascending, From, IsRange;
    OnlyTheLastEnds(q, i);
    assert forall j: nat | j <= i :: q.Visited(j);
    HeldWhileGapless(q, i);
    assert q.NothingLost(q.Start(i));
    FilterIsRange(q, q.Start(i));
  }

  lemma LostIsNotTheRange(q: Query, i: nat, j: nat)
    requires q.Pages() && j <= i && q.Visited(i) && !q.NothingLost(q.Start(j))
    ensures q.Start(j) > 0
    ensures var lost := q.history[q.Start(j) - 1];
            lost in q.history && q.from <= lost.time <= q.to && lost !in From(q.Fetched(i), q.from)
  {
    hide UpTo, Query.Fetched, Query.Start, Ascending, From, Query.Visited, Query.NothingLost, Holds;
    LostForGood(q, j, i);
    BoundaryIsLater(q, q.Start(j));
    HeldAscend(q, i);
    FromKeeps(q.Fetched(i), q.from);
    StartsBeforeTheEnd(q, j);
  }

  lemma HeldAscend(q: Query, i: nat)
    requires q.Pages()
    ensures Ascending(q.Fetched(i))
  {
    PagesInFront(q, i);
    hide UpTo, Query.Fetched, Query.Start, Ascending;
  }

  /** The result is exactly the range if and only if nothing is lost at a boundary. */
  lemma RangeIffGapless(q: Query, i: nat)
    requires q.Pages() && q.Visited(i) && q.Ends(i)
    ensures IsRange(From(q.Fetched(i), q.from), q.history, q.from, q.to) <==> q.Gapless()
  {
    hide UpTo, Query.Fetched, Query.Start, Ascending, From, Query.NothingLost, Query.Ends, Query.Visited;
    OnlyTheLastEnds(q, i);
    if q.Gapless() {
      GaplessIsTheRange(q, i);
    } else {
      var j: nat :| q.Visited(j) && !q.NothingLost(q.Start(j));
      LostIsNotTheRange(q, i, j);
    }
  }

  /** What the loop holds and where it stands. */
  ghost predicate Stands(q: Query, rows: seq<Candle>, end: int, i: nat) {
    q.Pages() && rows == q.Fetched(i) && rows != [] && rows[0] == q.history[q.Start(i)] && end == rows[0].time - 10 && q.Visited(i)
  }

  lemma FirstStands(q: Query, rows: seq<Candle>)
    requires q.Pages() && rows == GetCandles(q.history, q.number, q.to)
    ensures rows != [] && Stands(q, rows, rows[0].time - 10, 0)
  {
    FirstPage(q);
    hide UpTo, Ascending;
  }

  lemma NextStands(q: Query, rows: seq<Candle>, end: int, i: nat)
    requires Stands(q, rows, end, i) && end > q.from && q.Terminates()
    ensures var next := SortIndex(rows + GetCandles(q.history, q.number, end));
            next != [] && Stands(q, next, next[0].time - 10, i + 1) && q.Start(i + 1) < q.Start(i)
  {
    hide UpTo, Ascending, GetCandles, SortIndex, Query.Fetched, Query.Start, PageBefore, Query.Terminates;
    assert !q.Ends(i);
    if q.Older(q.Start(i)) == 0 {
      StuckForever(q, i);
    }
    FurtherBack(q, i);
    PagesInFront(q, i + 1);
    FetchesNext(q, i);
  }

  /** get_dataframe, from the floored end back to the floored start; None stands for the
      exceptions: no page fetched, or the first page empty.  It is asked for only when the loop
      ends; PagingEndsIff says when it does, and the last clause when its result is right. */
  method GetDataframe(q: Query) returns (r: Option<seq<Candle>>)
    requires Ascending(q.history) && q.number >= 1 && (q.Pages() ==> q.Terminates())
    ensures r.Some? <==> q.Pages()
    ensures r.Some? ==> exists i: nat :: q.Visited(i) && q.Ends(i) && r.value == From(q.Fetched(i), q.from)
    ensures r.Some? ==> (IsRange(r.value, q.history, q.from, q.to) <==> q.Gapless())
  {
    hide UpTo, Ascending, GetCandles, SortIndex, Query.Fetched, Query.Start, From, IsRange, Query.Terminates, Query.Gapless;
    var end := q.to;
    var result: Option<seq<Candle>> := None;
    ghost var i: nat := 0;
    while end > q.from
      invariant result.None? ==> end == q.to && i == 0
      invariant result.Some? ==> Stands(q, result.value, end, i)
      decreases result.None?, if result.Some? then q.Start(i) else 0
    {
      var data := GetCandles(q.history, q.number, end);
      if result.Some? {
        NextStands(q, result.value, end, i);
        result := Some(SortIndex(result.value + data));
        i := i + 1;
      } else {
        FirstOrNothing(q, data);
        result := Some(data);
      }
      if result.value == [] {
        return None;
      }
      end := result.value[0].time - 10;
    }
    if result.None? {
      return None;
    }
    assert q.Ends(i);
    RangeIffGapless(q, i);
    r := Some(From(result.value, q.from));
  }

  lemma FirstOrNothing(q: Query, rows: seq<Candle>)
    requires Ascending(q.history) && q.number >= 1 && q.from < q.to && rows == GetCandles(q.history, q.number, q.to)
    ensures rows == [] <==> !q.Pages()
    ensures rows != [] ==> Stands(q, rows, rows[0].time - 10, 0)
  {
    hide Ascending;
    if q.Pages() {
      FirstStands(q, rows);
    }
  }

  // ----- a lost row

  /** Rows a minute apart, but for the second and the third. */
  function CloseRows(number: nat): seq<Candle> {
    [Candle(0, 0), Candle(1000, 1)] + seq(number, i requires 0 <= i < number => Candle(1005 + 60 * i, 2 + i))
  }

  /** Whatever the size of a page, rows within 10 seconds of its first row can be lost. */
  method CloseRowsAreLost(number: nat) returns (q: Query, r: Option<seq<Candle>>)
    requires number >= 1
    ensures Ascending(q.history) && q.number == number && q.Pages() && r.Some?
    ensures Candle(1000, 1) in q.history && q.from <= 1000 <= q.to && Candle(1000, 1) !in r.value
  {
    var rows := CloseRows(number);
    q := Query(rows, number, 0, rows[|rows| - 1].time);
    CloseRowsPaging(q);
    r := GetDataframe(q);
    ghost var i: nat :| q.Visited(i) && q.Ends(i) && r.value == From(q.Fetched(i), q.from);
    LostForGood(q, 0, i);
    PagesInFront(q, i);
    FromKeeps(q.Fetched(i), q.from);
  }

  lemma CloseRowsPaging(q: Query)
    requires q.number >= 1 && q.history == CloseRows(q.number) && q.from == 0 && q.to == q.history[|q.history| - 1].time
    ensures Ascending(q.history) && q.Pages() && q.Terminates()
    ensures q.Start(0) == 2 && !q.NothingLost(2) && q.history[1] == Candle(1000, 1)
  {
    var n := q.number + 2;
    UpToIs(q.history, q.to, n);
    assert q.Start(0) == 2;
    UpToIs(q.history, 995, 1);
    assert q.Older(2) == 1 && q.Start(1) == 0;
    assert q.Ends(1);
  }

  /** Exactly 10 seconds can be too close as well: where a page starts 10 seconds after the start
      of the range the loop ends, and a row at the start itself is lost. */
  lemma TenSecondsApart()
    ensures var q := Query([Candle(0, 0), Candle(10, 1)], 1, 0, 10);
            q.Pages() && q.Start(0) == 1 && q.Ends(0) && !q.NothingLost(1) && !q.Gapless()
  {
    var q := Query([Candle(0, 0), Candle(10, 1)], 1, 0, 10);
    UpToIs(q.history, 10, 2);
    assert q.Start(0) == 1;
    assert q.Visited(0) && !q.NothingLost(q.Start(0));
  }
}
