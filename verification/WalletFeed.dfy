/**
 The unified wallet history: one page of transfers and bills, built from the first limit + 1 rows
 of each table, against the full merge of both tables.
 */
module WalletFeed {
  import opened Common

  datatype Source = Tx | BillPayment

  /** A row of either table in the unified shape. Ids compare as the UUID strings they stand for. */
  datatype Item = Item(source: Source, id: nat, createdAt: int)

  /** The sort's comparator: newest first, then highest id. */
  predicate Leq(a: Item, b: Item) {
    a.createdAt > b.createdAt || (a.createdAt == b.createdAt && a.id >= b.id)
  }

  /** Puts x before the first item that does not precede it. */
  function Insert(x: Item, s: seq<Item>): seq<Item> {
    if s == [] || Leq(x, s[0]) then [x] + s else [s[0]] + Insert(x, s[1..])
  }

  /** The stable sort by Leq. */
  function Sorted(xs: seq<Item>): seq<Item> {
    if xs == [] then [] else Insert(xs[0], Sorted(xs[1..]))
  }

  function Below(table: seq<Item>, cursor: Option<int>): seq<Item> {
    if table == [] then []
    else
      (if cursor.None? || table[0].createdAt < cursor.value then [table[0]] else []) + Below(table[1..], cursor)
  }

  function Take(s: seq<Item>, n: nat): seq<Item> {
    if n < |s| then s[..n] else s
  }

  /** findMany with a cursor date, newest first, at most `take` rows. */
  function FindMany(table: seq<Item>, cursor: Option<int>, take: nat): seq<Item> {
    Take(Sorted(Below(table, cursor)), take)
  }

  datatype Page = Page(items: seq<Item>, hasMore: bool, nextCursor: Option<Item>)

  /** listWalletTransactions, from the decoded cursor on. */
  function ListWalletTransactions(txTable: seq<Item>, billTable: seq<Item>, cursor: Option<int>, limit: nat): Page {
    var fetchLimit := limit + 1;
    var txItems := FindMany(txTable, cursor, fetchLimit);
    var billItems := FindMany(billTable, cursor, fetchLimit);
    var merged := Sorted(txItems + billItems);
    var hasMore := |merged| > limit;
    var page := Take(merged, limit);
    Page(page, hasMore, if hasMore && page != [] then Some(page[|page| - 1]) else None)
  }

  // ----- Sorted is the sort

  ghost predicate Ordered(s: seq<Item>) {
    forall i, j :: 0 <= i < j < |s| ==> Leq(s[i], s[j])
  }

  lemma {:induction false} InsertOrders(x: Item, s: seq<Item>)
    requires Ordered(s)
    ensures Ordered(Insert(x, s)) && multiset(Insert(x, s)) == multiset(s) + multiset{x}
  {
    if s != [] && !Leq(x, s[0]) {
      InsertOrders(x, s[1..]);
      assert s == [s[0]] + s[1..];
      forall y | y in Insert(x, s[1..]) ensures Leq(s[0], y) {
        assert y in multiset(s[1..]) + multiset{x};
      }
    }
  }

  /** Sorted puts exactly the given items in the comparator's order. */
  lemma {:induction false} SortedSorts(xs: seq<Item>)
    ensures Ordered(Sorted(xs)) && multiset(Sorted(xs)) == multiset(xs) && |Sorted(xs)| == |xs|
  {
    if xs != [] {
      SortedSorts(xs[1..]);
      InsertOrders(xs[0], Sorted(xs[1..]));
      assert xs == [xs[0]] + xs[1..];
      assert |multiset(Sorted(xs))| == |multiset(xs)|;
    }
  }

  lemma {:induction false} InsertInFront(x: Item, s: seq<Item>)
    requires forall i :: 0 <= i < |s| ==> Leq(x, s[i])
    ensures Insert(x, s) == [x] + s
  {
  }

  lemma {:induction false} SortedKeepsOrder(s: seq<Item>)
    requires Ordered(s)
    ensures Sorted(s) == s
  {
    if s != [] {
      SortedKeepsOrder(s[1..]);
      InsertInFront(s[0], s[1..]);
    }
  }

  // ----- sorting a concatenation is merging

  function Merge(a: seq<Item>, b: seq<Item>): seq<Item> {
    if a == [] then b
    else if b == [] then a
    else if Leq(a[0], b[0]) then [a[0]] + Merge(a[1..], b)
    else [b[0]] + Merge(a, b[1..])
  }

  lemma {:induction false} InsertMerge(x: Item, a: seq<Item>, b: seq<Item>)
    ensures Insert(x, Merge(a, b)) == Merge(Insert(x, a), b)
    decreases |a| + |b|
  {
    if b == [] {
      assert Merge(Insert(x, a), b) == Insert(x, a);
    } else if a == [] {
      if !Leq(x, b[0]) {
        InsertMerge(x, a, b[1..]);
      } else {
        assert Merge([x], b) == [x] + Merge([x][1..], b);
      }
    } else if Leq(a[0], b[0]) {
      if Leq(x, a[0]) {
        assert ([x] + a)[1..] == a;
      } else {
        InsertMerge(x, a[1..], b);
        assert ([a[0]] + Merge(a[1..], b))[1..] == Merge(a[1..], b);
        assert ([a[0]] + Insert(x, a[1..]))[1..] == Insert(x, a[1..]);
      }
    } else {
      if Leq(x, b[0]) {
        assert ([x] + a)[1..] == a;
      } else {
        InsertMerge(x, a, b[1..]);
        assert ([b[0]] + Merge(a, b[1..]))[1..] == Merge(a, b[1..]);
      }
    }
  }

  lemma {:induction false} SortedOfConcat(xs: seq<Item>, ys: seq<Item>)
    ensures Sorted(xs + ys) == Merge(Sorted(xs), Sorted(ys))
  {
    if xs == [] {
      assert xs + ys == ys;
    } else {
      assert (xs + ys)[1..] == xs[1..] + ys;
      SortedOfConcat(xs[1..], ys);
      InsertMerge(xs[0], Sorted(xs[1..]), Sorted(ys));
    }
  }

  lemma {:induction false} MergeLength(a: seq<Item>, b: seq<Item>)
    ensures |Merge(a, b)| == |a| + |b|
    decreases |a| + |b|
  {
    if a != [] && b != [] {
      if Leq(a[0], b[0]) { MergeLength(a[1..], b); } else { MergeLength(a, b[1..]); }
    }
  }

  lemma TakeCons(h: Item, t: seq<Item>, n: nat)
    requires n > 0
    ensures Take([h] + t, n) == [h] + Take(t, n - 1)
  {
  }

  lemma MergeCons(a: seq<Item>, b: seq<Item>)
    requires a != [] && b != []
    ensures Merge(a, b) == if Leq(a[0], b[0]) then [a[0]] + Merge(a[1..], b) else [b[0]] + Merge(a, b[1..])
  {
  }

  lemma TakeSplits(s: seq<Item>, n: nat)
    requires s != [] && n > 0
    ensures Take(s, n) != [] && Take(s, n)[0] == s[0] && Take(s, n)[1..] == Take(s[1..], n - 1)
  {
  }

  /** How the first n of a merge begin. */
  lemma MergeStarts(a: seq<Item>, b: seq<Item>, n: nat)
    requires a != [] && b != [] && n > 0
    ensures Take(Merge(a, b), n)
            == if Leq(a[0], b[0]) then [a[0]] + Take(Merge(a[1..], b), n - 1) else [b[0]] + Take(Merge(a, b[1..]), n - 1)
  {
    MergeCons(a, b);
    if Leq(a[0], b[0]) {
      TakeCons(a[0], Merge(a[1..], b), n);
    } else {
      TakeCons(b[0], Merge(a, b[1..]), n);
    }
  }

  lemma PrefixesOfOneMore(a: seq<Item>, b: seq<Item>, k: nat, l: nat, n: nat)
    requires a != [] && b != [] && 0 < n <= k && n <= l
    requires if Leq(a[0], b[0])
             then Take(Merge(Take(a[1..], k - 1), Take(b, l)), n - 1) == Take(Merge(a[1..], b), n - 1)
             else Take(Merge(Take(a, k), Take(b[1..], l - 1)), n - 1) == Take(Merge(a, b[1..]), n - 1)
    ensures Take(Merge(Take(a, k), Take(b, l)), n) == Take(Merge(a, b), n)
  {
    TakeSplits(a, k);
    TakeSplits(b, l);
    MergeStarts(a, b, n);
    MergeStarts(Take(a, k), Take(b, l), n);
  }

  /** The first n of a merge need no more than the first n of each side. */
  lemma {:induction false} MergeNeedsPrefixes(a: seq<Item>, b: seq<Item>, k: nat, l: nat, n: nat)
    requires n <= k && n <= l
    ensures Take(Merge(Take(a, k), Take(b, l)), n) == Take(Merge(a, b), n)
    decreases n
  {
    if n > 0 {
      if a == [] || b == [] {
        TakeOfOne(a, b, k, l, n);
      } else {
        if Leq(a[0], b[0]) {
          MergeNeedsPrefixes(a[1..], b, k - 1, l, n - 1);
        } else {
          MergeNeedsPrefixes(a, b[1..], k, l - 1, n - 1);
        }
        PrefixesOfOneMore(a, b, k, l, n);
      }
    }
  }

  lemma TakeOfOne(a: seq<Item>, b: seq<Item>, k: nat, l: nat, n: nat)
    requires n <= k && n <= l && (a == [] || b == [])
    ensures Take(Merge(Take(a, k), Take(b, l)), n) == Take(Merge(a, b), n)
  {
  }

  lemma TakeKeepsOrder(s: seq<Item>, n: nat)
    requires Ordered(s)
    ensures Ordered(Take(s, n))
  {
  }

  /** Sorting what two ordered lists contribute to a page gives the start of their merge. */
  lemma CutOfMerge(a: seq<Item>, b: seq<Item>, limit: nat)
    requires Ordered(a) && Ordered(b)
    ensures var m := Sorted(Take(a, limit + 1) + Take(b, limit + 1));
            Take(m, limit) == Take(Merge(a, b), limit) && (|m| > limit <==> |Merge(a, b)| > limit)
  {
    TakeKeepsOrder(a, limit + 1);
    TakeKeepsOrder(b, limit + 1);
    SortedKeepsOrder(Take(a, limit + 1));
    SortedKeepsOrder(Take(b, limit + 1));
    SortedOfConcat(Take(a, limit + 1), Take(b, limit + 1));
    MergeNeedsPrefixes(a, b, limit + 1, limit + 1, limit);
    MergeLength(a, b);
    MergeLength(Take(a, limit + 1), Take(b, limit + 1));
  }

  lemma PageOfMerge(merged: seq<Item>, full: seq<Item>, limit: nat)
    requires Take(merged, limit) == Take(full, limit) && (|merged| > limit <==> |full| > limit)
    ensures var page := Take(merged, limit);
            (if |merged| > limit && page != [] then Some(page[|page| - 1]) else None)
            == if |full| > limit > 0 then Some(full[limit - 1]) else None
  {
  }

  /**
   The page is the first `limit` items of the full sorted merge of both tables below the cursor,
   hasMore is true exactly when that merge has more than `limit` items, and the next cursor is then
   the last item shown.
   */
  lemma {:induction false} PageIsCutOfFullMerge(txTable: seq<Item>, billTable: seq<Item>, cursor: Option<int>, limit: nat)
    ensures var page := ListWalletTransactions(txTable, billTable, cursor, limit);
            var full := Sorted(Below(txTable, cursor) + Below(billTable, cursor));
            && page.items == Take(full, limit)
            && (page.hasMore <==> |full| > limit)
            && page.nextCursor == (if |full| > limit > 0 then Some(full[limit - 1]) else None)
  {
    var a, b := Sorted(Below(txTable, cursor)), Sorted(Below(billTable, cursor));
    SortedSorts(Below(txTable, cursor));
    SortedSorts(Below(billTable, cursor));
    SortedOfConcat(Below(txTable, cursor), Below(billTable, cursor));
    CutOfMerge(a, b, limit);
    PageOfMerge(Sorted(Take(a, limit + 1) + Take(b, limit + 1)), Merge(a, b), limit);
  }

  // ----- what a page shows, without the sort

  predicate IsOlder(x: Item, cursor: Option<int>) {
    cursor.Some? ==> x.createdAt < cursor.value
  }

  function OlderCount(table: seq<Item>, cursor: Option<int>): nat {
    if table == [] then 0 else OlderCount(table[1..], cursor) + if IsOlder(table[0], cursor) then 1 else 0
  }

  lemma {:induction false} BelowIsOlder(table: seq<Item>, cursor: Option<int>)
    ensures |Below(table, cursor)| == OlderCount(table, cursor)
    ensures forall x :: multiset(Below(table, cursor))[x] == if IsOlder(x, cursor) then multiset(table)[x] else 0
  {
    if table != [] {
      BelowIsOlder(table[1..], cursor);
      assert table == [table[0]] + table[1..];
    }
  }

  /** What the full merge holds: the rows of both tables from before the cursor, each as often as it is there. */
  lemma {:induction false} FullMergeIs(txTable: seq<Item>, billTable: seq<Item>, cursor: Option<int>, x: Item)
    ensures var full := Sorted(Below(txTable, cursor) + Below(billTable, cursor));
            && |full| == OlderCount(txTable, cursor) + OlderCount(billTable, cursor)
            && Ordered(full)
            && multiset(full)[x] == if IsOlder(x, cursor) then (multiset(txTable) + multiset(billTable))[x] else 0
  {
    SortedSorts(Below(txTable, cursor) + Below(billTable, cursor));
    BelowIsOlder(txTable, cursor);
    BelowIsOlder(billTable, cursor);
  }

  lemma CutShowsFirst(full: seq<Item>, limit: nat, x: Item)
    requires Ordered(full)
    ensures var items := Take(full, limit);
            && multiset(items)[x] <= multiset(full)[x]
            && (x in full && x !in items ==> forall y :: y in items ==> Leq(y, x))
  {
    var items := Take(full, limit);
    assert full == items + full[|items|..];
    assert multiset(full) == multiset(items) + multiset(full[|items|..]);
  }

  /** Newest first, and the higher id first within an instant. */
  ghost predicate NewestFirst(items: seq<Item>) {
    forall i, j :: 0 <= i < j < |items| ==>
      items[i].createdAt > items[j].createdAt || (items[i].createdAt == items[j].createdAt && items[i].id >= items[j].id)
  }

  /** The page is in order and as long as the limit and the tables allow, and tells whether there is more and where. */
  lemma {:induction false} PageIsInOrder(txTable: seq<Item>, billTable: seq<Item>, cursor: Option<int>, limit: nat)
    ensures var page := ListWalletTransactions(txTable, billTable, cursor, limit);
            var items, older := page.items, OlderCount(txTable, cursor) + OlderCount(billTable, cursor);
            && NewestFirst(items)
            && |items| == (if older < limit then older else limit)
            && (page.hasMore <==> older > limit)
            && page.nextCursor == (if older > limit > 0 then Some(items[limit - 1]) else None)
  {
    var full := Sorted(Below(txTable, cursor) + Below(billTable, cursor));
    PageIsCutOfFullMerge(txTable, billTable, cursor, limit);
    FullMergeIs(txTable, billTable, cursor, Item(Tx, 0, 0));
    TakeKeepsOrder(full, limit);
  }

  /**
   A page shows rows of the two tables from before the cursor and none more often than it is there; and of such
   rows it leaves out only what is not newer than everything it shows, or as new with an id no higher.
   */
  lemma {:induction false} PageShowsNewest(
      txTable: seq<Item>, billTable: seq<Item>, cursor: Option<int>, limit: nat, x: Item)
    ensures var items := ListWalletTransactions(txTable, billTable, cursor, limit).items;
            && (x in items ==> IsOlder(x, cursor))
            && multiset(items)[x] <= (multiset(txTable) + multiset(billTable))[x]
            && ((x in txTable || x in billTable) && IsOlder(x, cursor) && x !in items ==>
                  forall y :: y in items ==>
                    y.createdAt > x.createdAt || (y.createdAt == x.createdAt && y.id >= x.id))
  {
    var full := Sorted(Below(txTable, cursor) + Below(billTable, cursor));
    PageIsCutOfFullMerge(txTable, billTable, cursor, limit);
    FullMergeIs(txTable, billTable, cursor, x);
    CutShowsFirst(full, limit, x);
    assert x in multiset(Take(full, limit)) <==> x in Take(full, limit);
    assert x in multiset(full) <==> x in full;
  }
}
