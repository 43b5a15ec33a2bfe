/** Keyset pagination over a changing table (src/handlers/bakery/mod.rs:93-115, 195-217). */
module Pages {
  import opened Prelude
  import opened Sums

  datatype Details = Details(name: string, profitMargin: real)

  datatype Bakery = Bakery(id: i32, details: Details)

  /** The rows by id: ids are unique. */
  type Table = map<i32, Details>

  datatype CursorPage = CursorPage(
    data: seq<Bakery>, after: Option<i32>, size: u64, nextCursor: Option<i32>, hasMore: bool)

  const DEFAULT_PAGE_SIZE: u64 := 10

  // ----- The handler -----

  function SanitizedCursorPageSize(size: Option<u64>): (r: u64)
    ensures r >= 1
    ensures size.Some? && r != size.value ==> size.value == 0
    ensures size == None || size == Some(0) ==> r == 10
  {
    if size.None? || size.value == 0 then DEFAULT_PAGE_SIZE else size.value
  }

  function SaturatingAdd(a: u64, b: u64): u64
  {
    if a + b > U64_MAX then U64_MAX else a + b
  }

  /** One row more than the page, as far as an i64 goes. */
  function LimitOf(size: u64): nat
  {
    if SaturatingAdd(size, 1) < I64_MAX then SaturatingAdd(size, 1) else I64_MAX
  }

  /** The limit is one more than the page, up to the largest i64, for every u64. */
  lemma LimitIsOneMore(size: u64)
    ensures size < 0x7fff_ffff_ffff_ffff ==> LimitOf(size) == size + 1
    ensures size >= 0x7fff_ffff_ffff_ffff ==> LimitOf(size) == 0x7fff_ffff_ffff_ffff
  {
  }

  /** The extra row is cut off and only says that there is a next page (`usize` has 64 bits). */
  method BuildCursorPage(rows: seq<Bakery>, after: Option<i32>, size: u64) returns (page: CursorPage)
    ensures page == PageOf(rows, after, size)
    ensures page.after == after && page.size == size
    ensures page.data == (if |rows| <= size then rows else rows[..size])
    ensures page.hasMore <==> |rows| > size
    ensures page.nextCursor == if page.hasMore && size > 0 then Some(rows[size - 1].id) else None
  {
    var bakeries := rows;
    var hasMore := |bakeries| > size;
    if hasMore {
      bakeries := bakeries[..size];
    }
    var nextCursor := if hasMore && bakeries != [] then Some(bakeries[|bakeries| - 1].id) else None;
    return CursorPage(bakeries, after, size, nextCursor, hasMore);
  }

  function PageOf(rows: seq<Bakery>, after: Option<i32>, size: u64): CursorPage
  {
    if |rows| <= size then CursorPage(rows, after, size, None, false)
    else CursorPage(rows[..size], after, size, if size == 0 then None else Some(rows[size - 1].id), true)
  }

  // ----- The query -----

  /** Strictly by id. */
  predicate ById(rows: seq<Bakery>)
  {
    forall i, j :: 0 <= i < j < |rows| ==> rows[i].id < rows[j].id
  }

  predicate InTable(row: Bakery, table: Table)
  {
    row.id in table && table[row.id] == row.details
  }

  ghost function Least(s: set<i32>): (m: i32)
    requires s != {}
    ensures m in s && forall x :: x in s ==> m <= x
  {
    var x :| x in s;
    var rest := s - {x};
    assert forall y :: y in s ==> y == x || y in rest;
    if rest == {} || x < Least(rest) then x else Least(rest)
  }

  /** What a cursor excludes; no cursor excludes nothing. */
  function Floor(after: Option<i32>): int
  {
    if after.Some? then after.value else I32_MIN - 1
  }

  /** `ORDER BY id`: the rows with these ids. */
  ghost function Ordered(table: Table, ids: set<i32>): (rows: seq<Bakery>)
    requires ids <= table.Keys
    ensures |rows| == |ids| && ById(rows)
    ensures forall row :: row in rows <==> row.id in ids && InTable(row, table)
  {
    if ids == {} then []
    else
      var id := Least(ids);
      [Bakery(id, table[id])] + Ordered(table, ids - {id})
  }

  ghost function IdsAfter(table: Table, after: Option<i32>): set<i32>
  {
    set id | id in table && id > Floor(after)
  }

  /** The rows after a cursor. */
  ghost function RowsAfter(table: Table, after: Option<i32>): (rows: seq<Bakery>)
    ensures ById(rows)
    ensures forall row :: row in rows <==> InTable(row, table) && row.id > Floor(after)
  {
    Ordered(table, IdsAfter(table, after))
  }

  function Take<T>(s: seq<T>, n: nat): seq<T>
  {
    if |s| <= n then s else s[..n]
  }

  ghost function Query(table: Table, after: Option<i32>, limit: nat): seq<Bakery>
  {
    Take(RowsAfter(table, after), limit)
  }

  ghost function ListByCursor(table: Table, after: Option<i32>, size: Option<u64>): CursorPage
  {
    var size := SanitizedCursorPageSize(size);
    PageOf(Query(table, after, LimitOf(size)), after, size)
  }

  // ----- One page -----

  ghost function Interval(lo: int, hi: int): (r: set<int>)
    requires lo <= hi
    ensures |r| == hi - lo
    ensures forall x :: x in r <==> lo <= x < hi
    decreases hi - lo
  {
    if lo == hi then {} else Interval(lo, hi - 1) + {hi - 1}
  }

  /** There are at most 2^32 different ids, far fewer than the largest limit. */
  lemma TablesAreSmall(ids: set<i32>)
    ensures |ids| <= I32_MAX - I32_MIN + 1 < I64_MAX
  {
    SubsetSize(ids, Interval(I32_MIN, I32_MAX + 1));
  }

  lemma LimitExceedsPage(n: u64, rows: nat)
    requires 1 <= n && rows <= I32_MAX - I32_MIN + 1
    ensures rows <= LimitOf(n) || LimitOf(n) == n + 1
  {
  }

  /** A page is a prefix of the remaining rows, and says truly whether there are more: for every size,
      0 and those whose limit saturates included. */
  lemma PageIsPrefix(table: Table, after: Option<i32>, size: Option<u64>)
    ensures var rows, n, page := RowsAfter(table, after), SanitizedCursorPageSize(size),
            ListByCursor(table, after, size);
            && page.data == Take(rows, n)
            && (page.hasMore <==> |rows| > n)
            && page.nextCursor == (if |rows| > n then Some(rows[n - 1].id) else None)
  {
    var rows, n := RowsAfter(table, after), SanitizedCursorPageSize(size);
    TablesAreSmall(IdsAfter(table, after));
    LimitExceedsPage(n, |rows|);
    var limit := LimitOf(n);
    if |rows| > limit {
      assert rows[..limit][..n] == rows[..n];
    }
  }

  /** A page lists rows of the table after the cursor in order, skips none up to the next cursor, and moves
      the cursor on. */
  ghost predicate GoodPage(table: Table, after: Option<i32>, page: CursorPage)
  {
    && ById(page.data)
    && (forall row :: row in page.data ==> Floor(after) < row.id && InTable(row, table))
    && (page.hasMore ==> page.nextCursor.Some? && page.nextCursor.value > Floor(after))
    && (page.hasMore ==> forall row :: row in page.data ==> row.id <= page.nextCursor.value)
    && (!page.hasMore ==> page.nextCursor.None?)
    && (forall row ::
          InTable(row, table) && Floor(after) < row.id && (page.hasMore ==> row.id <= page.nextCursor.value) ==>
          row in page.data)
  }

  lemma PagesAreGood(table: Table, after: Option<i32>, size: Option<u64>)
    ensures GoodPage(table, after, ListByCursor(table, after, size))
  {
    PageIsPrefix(table, after, size);
    var n, page := SanitizedCursorPageSize(size), ListByCursor(table, after, size);
    if page.hasMore {
      var rows := RowsAfter(table, after);
      assert rows[n - 1] in rows;
      CutAt(rows, n);
    }
  }

  /** The first `n` of some rows are those up to the id of the last of them. */
  lemma CutAt(rows: seq<Bakery>, n: nat)
    requires ById(rows) && 1 <= n < |rows|
    ensures ById(rows[..n])
    ensures forall row :: row in rows[..n] <==> row in rows && row.id <= rows[n - 1].id
  {
    forall row | row in rows && row.id <= rows[n - 1].id ensures row in rows[..n] {
      var i :| 0 <= i < |rows| && rows[i] == row;
      assert i < n;
      assert rows[..n][i] == row;
    }
  }

  // ----- Following the cursor -----

  /** All the pages from a cursor on: `tables(k)` is the table that request `k` finds, `sizes(k)` the size it asks for.
      Whatever the table becomes, the cursor rises within the i32 range, so this ends. */
  ghost function Follow(
    tables: nat -> Table, sizes: nat -> Option<u64>, k: nat, after: Option<i32>): (pages: seq<CursorPage>)
    ensures pages != [] && !pages[|pages| - 1].hasMore
    ensures |pages| <= I32_MAX - Floor(after) + 1
    decreases I32_MAX - Floor(after)
  {
    var page := ListByCursor(tables(k), after, sizes(k));
    PagesAreGood(tables(k), after, sizes(k));
    if page.hasMore then [page] + Follow(tables, sizes, k + 1, page.nextCursor) else [page]
  }

  function AllRows(pages: seq<CursorPage>): seq<Bakery>
  {
    if pages == [] then [] else pages[0].data + AllRows(pages[1..])
  }

  lemma AllRowsCons(page: CursorPage, rest: seq<CursorPage>)
    ensures AllRows([page] + rest) == page.data + AllRows(rest)
  {
    assert ([page] + rest)[1..] == rest;
  }

  lemma ByIdAppend(a: seq<Bakery>, b: seq<Bakery>, middle: int)
    requires ById(a) && ById(b)
    requires forall row :: row in a ==> row.id <= middle
    requires forall row :: row in b ==> middle < row.id
    ensures ById(a + b)
  {
    forall i, j | 0 <= i < j < |a + b| ensures (a + b)[i].id < (a + b)[j].id {
      if i < |a| <= j {
        assert a[i] in a && b[j - |a|] in b;
      }
    }
  }

  /** Under arbitrary inserts, updates and deletes between the requests, ids only increase, so that no id
      comes twice, and nothing at or before the cursor comes at all. */
  lemma {:induction false} IdsIncrease(tables: nat -> Table, sizes: nat -> Option<u64>, k: nat, after: Option<i32>)
    ensures var rows := AllRows(Follow(tables, sizes, k, after));
            && ById(rows)
            && forall row :: row in rows ==> Floor(after) < row.id
    decreases I32_MAX - Floor(after)
  {
    var page := ListByCursor(tables(k), after, sizes(k));
    PagesAreGood(tables(k), after, sizes(k));
    if page.hasMore {
      IdsIncrease(tables, sizes, k + 1, page.nextCursor);
      var rest := Follow(tables, sizes, k + 1, page.nextCursor);
      AllRowsCons(page, rest);
      ByIdAppend(page.data, AllRows(rest), page.nextCursor.value);
    } else {
      AllRowsCons(page, []);
      assert page.data + [] == page.data;
    }
  }

  /** The row is in the table, the same row, at every request of the traversal. */
  ghost predicate PresentThroughout(tables: nat -> Table, k: nat, count: nat, row: Bakery)
  {
    forall i :: k <= i < k + count ==> InTable(row, tables(i))
  }

  /** A row that is there throughout is returned, whatever else changes. */
  lemma {:induction false} PresentRowsAreReturned(
    tables: nat -> Table, sizes: nat -> Option<u64>, k: nat, after: Option<i32>, row: Bakery)
    requires Floor(after) < row.id
    requires PresentThroughout(tables, k, |Follow(tables, sizes, k, after)|, row)
    ensures row in AllRows(Follow(tables, sizes, k, after))
    decreases I32_MAX - Floor(after)
  {
    var page := ListByCursor(tables(k), after, sizes(k));
    PagesAreGood(tables(k), after, sizes(k));
    if page.hasMore {
      var rest := Follow(tables, sizes, k + 1, page.nextCursor);
      AllRowsCons(page, rest);
      if row.id > page.nextCursor.value {
        PresentRowsAreReturned(tables, sizes, k + 1, page.nextCursor, row);
      }
    } else {
      AllRowsCons(page, []);
    }
  }

  /** Every returned row was in the table of some request. */
  lemma {:induction false} ReturnedRowsExisted(
    tables: nat -> Table, sizes: nat -> Option<u64>, k: nat, after: Option<i32>, row: Bakery)
    requires row in AllRows(Follow(tables, sizes, k, after))
    ensures exists i :: k <= i < k + |Follow(tables, sizes, k, after)| && InTable(row, tables(i))
    decreases I32_MAX - Floor(after)
  {
    var page := ListByCursor(tables(k), after, sizes(k));
    PagesAreGood(tables(k), after, sizes(k));
    if page.hasMore && row !in page.data {
      AllRowsCons(page, Follow(tables, sizes, k + 1, page.nextCursor));
      ReturnedRowsExisted(tables, sizes, k + 1, page.nextCursor, row);
    } else {
      AllRowsCons(page, []);
      assert row in page.data;
    }
  }

  /** There is only one way to order a set of rows. */
  lemma {:induction false} ByIdIsUnique(a: seq<Bakery>, b: seq<Bakery>)
    requires ById(a) && ById(b) && forall row :: row in a <==> row in b
    ensures a == b
  {
    assert a == [] <==> b == [] by {
      if a != [] { assert a[0] in a; }
      if b != [] { assert b[0] in b; }
    }
    if a != [] {
      assert a[0] in a && b[0] in b;
      var a', b' := a[1..], b[1..];
      forall row ensures row in a' <==> row in b' {
        assert row in a' <==> row in a && row != a[0];
        assert row in b' <==> row in b && row != b[0];
      }
      ByIdIsUnique(a', b');
    }
  }

  function Unchanging(table: Table): nat -> Table
  {
    k => table
  }

  /** Over a table that does not change, the traversal returns every row exactly once, in id order,
      whatever the page sizes. */
  lemma FixedTableIsReturned(table: Table, sizes: nat -> Option<u64>)
    ensures AllRows(Follow(Unchanging(table), sizes, 0, None)) == Ordered(table, table.Keys)
  {
    var tables := Unchanging(table);
    var rows := AllRows(Follow(tables, sizes, 0, None));
    IdsIncrease(tables, sizes, 0, None);
    forall row ensures row in rows <==> InTable(row, table) {
      if row in rows {
        ReturnedRowsExisted(tables, sizes, 0, None, row);
      }
      if InTable(row, table) {
        PresentRowsAreReturned(tables, sizes, 0, None, row);
      }
    }
    ByIdIsUnique(rows, Ordered(table, table.Keys));
  }
}
