/** The paged list of transfers and the walk along its cursors. */
module TransferPages {
  import opened Common

  datatype TxnType = TransferInternal | TransferBank | OtherType

  datatype Row = Row(
    id: nat, createdAt: int, sender: Option<nat>, receiver: Option<nat>, txnType: TxnType, status: string, deleted: bool)

  datatype Direction = Sent | Received | Either
  datatype TypeFilter = AllTypes | InternalOnly | BankOnly

  datatype Query = Query(wallet: nat, direction: Direction, typeFilter: TypeFilter, status: Option<string>)

  predicate Matches(r: Row, q: Query) {
    && !r.deleted
    && (match q.direction
        case Sent => r.sender == Some(q.wallet)
        case Received => r.receiver == Some(q.wallet)
        case Either => r.sender == Some(q.wallet) || r.receiver == Some(q.wallet))
    && (q.typeFilter == InternalOnly ==> r.txnType == TransferInternal)
    && (q.typeFilter == BankOnly ==> r.txnType == TransferBank)
    && (q.status.Some? ==> r.status == q.status.value)
  }

  /** The table's matching rows created before `pivot`, in the table's order. */
  function Matching(table: seq<Row>, q: Query, pivot: Option<int>): seq<Row> {
    if table == [] then []
    else
      (if Matches(table[0], q) && (pivot.None? || table[0].createdAt < pivot.value) then [table[0]] else [])
      + Matching(table[1..], q, pivot)
  }

  /** The created_at of the row a cursor names; a cursor that names none puts no bound. */
  function PivotOf(table: seq<Row>, cursor: Option<nat>): Option<int> {
    if cursor.None? || table == [] then None
    else if table[0].id == cursor.value then Some(table[0].createdAt)
    else PivotOf(table[1..], cursor)
  }

  datatype Page = Page(items: seq<Row>, nextCursor: Option<nat>)

  /** listTransactions over a table in created_at descending order. */
  function ListTransactions(table: seq<Row>, q: Query, cursor: Option<nat>, limit: nat): Page
    requires limit >= 1
  {
    var found := Matching(table, q, PivotOf(table, cursor));
    var rows := if |found| > limit + 1 then found[..limit + 1] else found;
    var items := if |rows| > limit then rows[..limit] else rows;
    Page(items, if |rows| > limit then Some(items[|items| - 1].id) else None)
  }

  ghost predicate Table(table: seq<Row>) {
    && (forall i, j :: 0 <= i < j < |table| ==> table[i].createdAt >= table[j].createdAt)
    && (forall i, j :: 0 <= i < j < |table| ==> table[i].id != table[j].id)
  }

  // ----- a pivot keeps a suffix

  lemma {:induction false} MatchingIsOrdered(table: seq<Row>, q: Query, pivot: Option<int>)
    requires Table(table)
    ensures Table(Matching(table, q, pivot))
    ensures forall r :: r in Matching(table, q, pivot) ==>
              r in table && Matches(r, q) && (pivot.Some? ==> r.createdAt < pivot.value)
  {
    if table != [] {
      MatchingIsOrdered(table[1..], q, pivot);
    }
  }

  lemma {:induction false} PivotFinds(table: seq<Row>, r: Row)
    requires Table(table) && r in table
    ensures PivotOf(table, Some(r.id)) == Some(r.createdAt)
  {
    if table[0].id != r.id {
      assert table == [table[0]] + table[1..];
      PivotFinds(table[1..], r);
    } else {
      var i :| 0 <= i < |table| && table[i] == r;
    }
  }

  /** Everything matching, as one list. */
  function All(table: seq<Row>, q: Query): seq<Row> {
    Matching(table, q, None)
  }

  /** How many rows of an ordered list are at or after a pivot in time. */
  function Skipped(rows: seq<Row>, pivot: int): nat
    ensures Skipped(rows, pivot) <= |rows|
  {
    if rows == [] || rows[0].createdAt < pivot then 0 else 1 + Skipped(rows[1..], pivot)
  }

  lemma {:induction false} SkippedSplits(rows: seq<Row>, pivot: int)
    requires Table(rows)
    ensures var k := Skipped(rows, pivot);
            && (forall i :: 0 <= i < k ==> rows[i].createdAt >= pivot)
            && (forall i :: k <= i < |rows| ==> rows[i].createdAt < pivot)
  {
    if rows != [] && rows[0].createdAt >= pivot {
      SkippedSplits(rows[1..], pivot);
      forall i | 0 <= i < Skipped(rows, pivot) ensures rows[i].createdAt >= pivot {
        assert i > 0 ==> rows[i] == rows[1..][i - 1];
      }
      forall i | Skipped(rows, pivot) <= i < |rows| ensures rows[i].createdAt < pivot {
        assert rows[i] == rows[1..][i - 1];
      }
    }
  }

  lemma {:induction false} NoneBelow(table: seq<Row>, q: Query, pivot: int)
    requires forall r :: r in table ==> r.createdAt < pivot
    ensures Matching(table, q, Some(pivot)) == Matching(table, q, None)
  {
    if table != [] {
      assert table[0] in table;
      NoneBelow(table[1..], q, pivot);
    }
  }

  /** The rows a pivot leaves are a suffix of the whole list. */
  lemma {:induction false} PivotKeepsSuffix(table: seq<Row>, q: Query, pivot: int)
    requires Table(table)
    ensures Matching(table, q, Some(pivot)) == All(table, q)[Skipped(All(table, q), pivot)..]
  {
    if table != [] {
      var rest := table[1..];
      assert table == [table[0]] + rest;
      if table[0].createdAt < pivot {
        forall r | r in table ensures r.createdAt < pivot {
          var i :| 0 <= i < |table| && table[i] == r;
        }
        NoneBelow(table, q, pivot);
        MatchingIsOrdered(table, q, None);
        assert All(table, q) != [] ==> All(table, q)[0] in All(table, q);
      } else {
        PivotKeepsSuffix(rest, q, pivot);
        if Matches(table[0], q) {
          assert All(table, q)[1..] == All(rest, q);
        } else {
          assert All(table, q) == All(rest, q);
        }
      }
    }
  }

  // ----- who is shown which rows

  /** The whole list of a wallet in one direction, whatever the type and the status. */
  function Listed(table: seq<Row>, wallet: nat, direction: Direction): seq<Row> {
    All(table, Query(wallet, direction, AllTypes, None))
  }

  lemma {:induction false} MatchingIff(table: seq<Row>, q: Query, pivot: Option<int>, r: Row)
    ensures r in Matching(table, q, pivot) <==> r in table && Matches(r, q) && (pivot.Some? ==> r.createdAt < pivot.value)
  {
    if table != [] {
      MatchingIff(table[1..], q, pivot, r);
      assert table == [table[0]] + table[1..];
    }
  }

  /**
   A row that is not deleted is among what its sender has sent and what its receiver has received, among both for
   either, and nobody else is shown it; a deleted one is shown to nobody.
   */
  lemma {:induction false} PartiesSeeTheirRows(table: seq<Row>, r: Row, wallet: nat)
    requires r in table
    ensures r in Listed(table, wallet, Sent) <==> !r.deleted && r.sender == Some(wallet)
    ensures r in Listed(table, wallet, Received) <==> !r.deleted && r.receiver == Some(wallet)
    ensures r in Listed(table, wallet, Either) <==> r in Listed(table, wallet, Sent) || r in Listed(table, wallet, Received)
  {
    MatchingIff(table, Query(wallet, Sent, AllTypes, None), None, r);
    MatchingIff(table, Query(wallet, Received, AllTypes, None), None, r);
    MatchingIff(table, Query(wallet, Either, AllTypes, None), None, r);
  }

  /** The type and status filters keep exactly the rows of the type and the status asked for. */
  lemma {:induction false} FiltersKeep(table: seq<Row>, q: Query, r: Row)
    ensures r in All(table, q) <==>
              && r in Listed(table, q.wallet, q.direction)
              && (match q.typeFilter
                  case AllTypes => true
                  case InternalOnly => r.txnType == TransferInternal
                  case BankOnly => r.txnType == TransferBank)
              && (q.status.Some? ==> q.status == Some(r.status))
  {
    MatchingIff(table, q, None, r);
    MatchingIff(table, Query(q.wallet, q.direction, AllTypes, None), None, r);
  }

  /** The rows after a cursor are exactly the list's rows from before the moment of the row it names. */
  lemma {:induction false} AheadIsEarlier(table: seq<Row>, q: Query, last: Row, r: Row)
    requires Table(table) && last in table
    ensures r in Matching(table, q, PivotOf(table, Some(last.id))) <==> r in All(table, q) && r.createdAt < last.createdAt
  {
    PivotFinds(table, last);
    MatchingIff(table, q, Some(last.createdAt), r);
    MatchingIff(table, q, None, r);
  }

  // ----- the walk

  /** The rows still ahead of a cursor. */
  function Ahead(table: seq<Row>, q: Query, cursor: Option<nat>): seq<Row> {
    Matching(table, q, PivotOf(table, cursor))
  }

  /** Skipping in a suffix that still holds a row at the pivot ends where skipping in the whole list ends. */
  lemma SuffixSkips(rows: seq<Row>, k: nat, pivot: int)
    requires Table(rows) && k < |rows| && rows[k].createdAt >= pivot
    ensures Skipped(rows, pivot) == k + Skipped(rows[k..], pivot)
  {
    SkippedSplits(rows, pivot);
    SkippedSplits(rows[k..], pivot);
    var m := Skipped(rows[k..], pivot);
    assert m < |rows[k..]| ==> rows[k..][m] == rows[k + m];
    assert m > 0 ==> rows[k..][m - 1] == rows[k + m - 1];
    assert rows[k..][0] == rows[k];
  }

  /** The rows ahead are a suffix of everything matching, and it holds whatever row is still ahead. */
  lemma AheadIsSuffix(table: seq<Row>, q: Query, cursor: Option<nat>) returns (k: nat)
    requires Table(table)
    ensures k <= |All(table, q)| && Ahead(table, q, cursor) == All(table, q)[k..]
    ensures Table(All(table, q)) && Table(Ahead(table, q, cursor))
  {
    MatchingIsOrdered(table, q, None);
    MatchingIsOrdered(table, q, PivotOf(table, cursor));
    var pivot := PivotOf(table, cursor);
    if pivot.Some? {
      PivotKeepsSuffix(table, q, pivot.value);
      k := Skipped(All(table, q), pivot.value);
    } else {
      k := 0;
    }
  }

  lemma PageFacts(table: seq<Row>, q: Query, cursor: Option<nat>, limit: nat)
    requires limit >= 1
    ensures var page := ListTransactions(table, q, cursor, limit);
            var ahead := Ahead(table, q, cursor);
            if |ahead| <= limit then page == Page(ahead, None)
            else page == Page(ahead[..limit], Some(ahead[limit - 1].id))
  {
    var ahead := Ahead(table, q, cursor);
    if |ahead| > limit + 1 {
      assert ahead[..limit + 1][..limit] == ahead[..limit];
    }
  }

  /** Where skipping to a page's last instant ends, seen from the whole list and from what was ahead. */
  lemma SkipPastPage(rows: seq<Row>, k: nat, ahead: seq<Row>, limit: nat)
    requires Table(rows) && Table(ahead) && k <= |rows| && ahead == rows[k..] && 1 <= limit < |ahead|
    ensures var pivot := ahead[limit - 1].createdAt;
            && rows[Skipped(rows, pivot)..] == ahead[Skipped(ahead, pivot)..]
            && (if ahead[limit].createdAt != pivot then Skipped(ahead, pivot) == limit else Skipped(ahead, pivot) > limit)
  {
    var pivot := ahead[limit - 1].createdAt;
    assert rows[k] == ahead[0];
    SuffixSkips(rows, k, pivot);
    SkippedSplits(ahead, pivot);
    DropTwice(rows, k, Skipped(ahead, pivot));
  }

  lemma DropTwice(rows: seq<Row>, k: nat, m: nat)
    requires k + m <= |rows|
    ensures rows[k + m..] == rows[k..][m..]
  {
  }

  /** The pivot a page's cursor names is the instant of the page's last row. */
  lemma CursorPivot(table: seq<Row>, q: Query, cursor: Option<nat>, i: nat)
    requires Table(table) && i < |Ahead(table, q, cursor)|
    ensures PivotOf(table, Some(Ahead(table, q, cursor)[i].id)) == Some(Ahead(table, q, cursor)[i].createdAt)
  {
    MatchingIsOrdered(table, q, PivotOf(table, cursor));
    assert Ahead(table, q, cursor)[i] in Ahead(table, q, cursor);
    PivotFinds(table, Ahead(table, q, cursor)[i]);
  }

  lemma AheadOfPivot(table: seq<Row>, q: Query, id: nat, pivot: int)
    requires Table(table) && PivotOf(table, Some(id)) == Some(pivot)
    ensures Ahead(table, q, Some(id)) == All(table, q)[Skipped(All(table, q), pivot)..]
  {
    PivotKeepsSuffix(table, q, pivot);
  }

  lemma SkipFromCursor(table: seq<Row>, q: Query, cursor: Option<nat>, limit: nat)
    requires Table(table) && limit >= 1 && |Ahead(table, q, cursor)| > limit
    ensures var ahead, whole := Ahead(table, q, cursor), All(table, q);
            var pivot := ahead[limit - 1].createdAt;
            && whole[Skipped(whole, pivot)..] == ahead[Skipped(ahead, pivot)..]
            && (if ahead[limit].createdAt != pivot then Skipped(ahead, pivot) == limit else Skipped(ahead, pivot) > limit)
  {
    var k := AheadIsSuffix(table, q, cursor);
    SkipPastPage(All(table, q), k, Ahead(table, q, cursor), limit);
  }

  /**
   Following a page's cursor leaves strictly fewer rows ahead, none of them seen; a row of the page's
   last instant that did not fit is skipped along with it.
   */
  lemma CursorAdvances(table: seq<Row>, q: Query, cursor: Option<nat>, limit: nat)
    requires Table(table) && limit >= 1 && |Ahead(table, q, cursor)| > limit
    ensures var ahead := Ahead(table, q, cursor);
            var last := ahead[limit - 1];
            && Ahead(table, q, Some(last.id)) == ahead[Skipped(ahead, last.createdAt)..]
            && (if ahead[limit].createdAt != last.createdAt then Skipped(ahead, last.createdAt) == limit
                else Skipped(ahead, last.createdAt) > limit)
  {
    var last := Ahead(table, q, cursor)[limit - 1];
    CursorPivot(table, q, cursor, limit - 1);
    AheadOfPivot(table, q, last.id, last.createdAt);
    SkipFromCursor(table, q, cursor, limit);
  }

  /** Following next_cursor until it is null. */
  ghost function Walk(table: seq<Row>, q: Query, cursor: Option<nat>, limit: nat): seq<Row>
    requires Table(table) && limit >= 1
    decreases |Ahead(table, q, cursor)|
  {
    var page := ListTransactions(table, q, cursor, limit);
    if page.nextCursor.None? then page.items
    else
      PageFacts(table, q, cursor, limit);
      CursorAdvances(table, q, cursor, limit);
      page.items + Walk(table, q, page.nextCursor, limit)
  }

  /** No page boundary falls between two rows of the same instant. */
  predicate CutsSeparate(rows: seq<Row>, limit: nat)
    requires limit >= 1
  {
    |rows| <= limit || (rows[limit - 1].createdAt != rows[limit].createdAt && CutsSeparate(rows[limit..], limit))
  }

  lemma WalkUnfolds(table: seq<Row>, q: Query, cursor: Option<nat>, limit: nat)
    requires Table(table) && limit >= 1
    ensures var ahead := Ahead(table, q, cursor);
            Walk(table, q, cursor, limit) ==
              if |ahead| <= limit then ahead
              else ahead[..limit] + Walk(table, q, Some(ahead[limit - 1].id), limit)
  {
    PageFacts(table, q, cursor, limit);
  }

  lemma SplitEquals(s: seq<Row>, n: nat, t: seq<Row>)
    requires n <= |s|
    ensures s[..n] + t == s <==> t == s[n..]
  {
    assert s[..n] + s[n..] == s;
    assert (s[..n] + t)[n..] == t;
  }

  /** What a walk lists, and when that is everything ahead of it. */
  lemma {:induction false} WalkListsAhead(table: seq<Row>, q: Query, cursor: Option<nat>, limit: nat)
    requires Table(table) && limit >= 1
    ensures |Walk(table, q, cursor, limit)| <= |Ahead(table, q, cursor)|
    ensures Walk(table, q, cursor, limit) == Ahead(table, q, cursor)
            <==> CutsSeparate(Ahead(table, q, cursor), limit)
    decreases |Ahead(table, q, cursor)|
  {
    var ahead := Ahead(table, q, cursor);
    WalkUnfolds(table, q, cursor, limit);
    if |ahead| > limit {
      var last := ahead[limit - 1];
      CursorAdvances(table, q, cursor, limit);
      WalkListsAhead(table, q, Some(last.id), limit);
      SplitEquals(ahead, limit, Walk(table, q, Some(last.id), limit));
    }
  }

  /**
   From the first page, following next_cursor until null terminates, and lists every matching row once,
   newest first, exactly when no page boundary falls between two rows of the same instant.
   */
  lemma WalkIsCompleteIff(table: seq<Row>, q: Query, limit: nat)
    requires Table(table) && limit >= 1
    ensures Walk(table, q, None, limit) == All(table, q) <==> CutsSeparate(All(table, q), limit)
  {
    WalkListsAhead(table, q, None, limit);
  }

  /** In particular when creation times are distinct. */
  lemma DistinctTimesWalkCompletely(table: seq<Row>, q: Query, limit: nat)
    requires Table(table) && limit >= 1
    requires forall i, j :: 0 <= i < j < |table| ==> table[i].createdAt != table[j].createdAt
    ensures Walk(table, q, None, limit) == All(table, q)
  {
    DistinctMatching(table, q);
    DistinctCuts(All(table, q), limit);
    WalkIsCompleteIff(table, q, limit);
  }

  lemma {:induction false} DistinctCuts(rows: seq<Row>, limit: nat)
    requires limit >= 1
    requires forall i, j :: 0 <= i < j < |rows| ==> rows[i].createdAt != rows[j].createdAt
    ensures CutsSeparate(rows, limit)
  {
    if |rows| > limit {
      DistinctCuts(rows[limit..], limit);
    }
  }

  lemma {:induction false} DistinctMatching(table: seq<Row>, q: Query)
    requires Table(table)
    requires forall i, j :: 0 <= i < j < |table| ==> table[i].createdAt != table[j].createdAt
    ensures forall i, j :: 0 <= i < j < |All(table, q)| ==> All(table, q)[i].createdAt != All(table, q)[j].createdAt
  {
    if table != [] {
      DistinctMatching(table[1..], q);
      MatchingIsOrdered(table[1..], q, None);
      forall r | r in All(table[1..], q) ensures r.createdAt != table[0].createdAt {
        var i :| 0 <= i < |table[1..]| && table[1..][i] == r;
        assert table[i + 1] == r;
      }
    }
  }
}
