/** Paging with a look-ahead row: the API asks the store for one row more than a page holds,
    and the presence of that row says whether there is a next page. */
module Pagination {
  import opened Arithmetic
  import opened Lifecycle

  const DEFAULT_PAGE_SIZE := 25
  const MAX_PAGE_SIZE := 100
  const DEFAULT_LIST_LIMIT := 50
  const MAX_LIST_LIMIT := 101

  /** The largest Go int on a 64-bit platform. */
  const MAX_INT := 0x7FFF_FFFF_FFFF_FFFF

  datatype Query = Query(number: int, perPage: int, offset: int)

  /** A query parameter: absent or empty, not a number that fits an int, or a number. */
  datatype Parameter = Absent | Malformed | Number(value: int)

  function PositiveInt(p: Parameter, fallback: int): Option<int> {
    match p
    case Absent => Some(fallback)
    case Malformed => None
    case Number(value) => if value <= 0 then None else Some(value)
  }

  function ParsePage(page: Parameter, perPage: Parameter): Option<Query> {
    var number := PositiveInt(page, 1);
    var size := PositiveInt(perPage, DEFAULT_PAGE_SIZE);
    if number.None? || size.None? || size.value > MAX_PAGE_SIZE then None
    else if number.value - 1 > MAX_INT / size.value then None
    else Some(Query(number.value, size.value, (number.value - 1) * size.value))
  }

  /** What the client asked for, defaults filled in. */
  function Asked(p: Parameter, fallback: int): int {
    if p.Number? then p.value else fallback
  }

  lemma QuotientTest(pages: int, size: int)
    requires pages >= 0 && size > 0
    ensures pages > MAX_INT / size <==> pages * size > MAX_INT
  {
    var q := MAX_INT / size;
    assert q * size <= MAX_INT < (q + 1) * size;
    if pages > q {
      TimesMonotone(q + 1, pages, size);
    } else {
      TimesMonotone(pages, q, size);
    }
  }

  /** The two parameters are accepted exactly when they are positive numbers, the size is one
      the API allows, and the offset they lead to fits an int. */
  lemma ParsePageExact(page: Parameter, perPage: Parameter)
    requires page.Number? ==> page.value <= MAX_INT
    ensures var number, size := Asked(page, 1), Asked(perPage, DEFAULT_PAGE_SIZE);
            var parsed := ParsePage(page, perPage);
            && (parsed.Some? <==>
                  !page.Malformed? && !perPage.Malformed? && number >= 1 && 1 <= size <= MAX_PAGE_SIZE
                  && (number - 1) * size <= MAX_INT)
            && (parsed.Some? ==>
                  parsed.value == Query(number, size, (number - 1) * size) && 0 <= parsed.value.offset <= MAX_INT)
  {
    var number, size := Asked(page, 1), Asked(perPage, DEFAULT_PAGE_SIZE);
    if number >= 1 && 1 <= size {
      QuotientTest(number - 1, size);
      TimesMonotone(0, number - 1, size);
    }
  }

  function ListLimit(limit: int): int {
    if limit <= 0 then DEFAULT_LIST_LIMIT
    else if limit > MAX_LIST_LIMIT then MAX_LIST_LIMIT
    else limit
  }

  function ListOffset(offset: int): int {
    if offset < 0 then 0 else offset
  }

  /** The rows the store returns: SQL's LIMIT and OFFSET on the ordered list. */
  function Selected<T>(rows: seq<T>, limit: int, offset: int): seq<T> {
    var from := Min(ListOffset(offset), |rows|);
    rows[from..Min(from + ListLimit(limit), |rows|)]
  }

  function Limit(q: Query): int {
    q.perPage + 1
  }

  function FinishPage<T>(items: seq<T>, q: Query): (seq<T>, bool)
    requires q.perPage >= 0
  {
    if |items| > q.perPage then (items[..q.perPage], true) else (items, false)
  }

  /** One page as the client gets it, and whether there is another. */
  function Page<T>(rows: seq<T>, q: Query): (seq<T>, bool)
    requires q.perPage >= 0
  {
    FinishPage(Selected(rows, Limit(q), q.offset), q)
  }

  predicate Accepted(q: Query) {
    q.number >= 1 && 1 <= q.perPage <= MAX_PAGE_SIZE && q.offset == (q.number - 1) * q.perPage
  }

  /** The look-ahead row is never cut by the store's own limit: a page holds exactly the rows
      from its offset on, and says "more" exactly when rows are left. */
  lemma PageExact<T>(rows: seq<T>, q: Query)
    requires Accepted(q)
    ensures q.offset >= 0
    ensures var (items, more) := Page(rows, q);
            var from, to := Min(q.offset, |rows|), Min(q.offset + q.perPage, |rows|);
            items == rows[from..to] && (more <==> q.offset + q.perPage < |rows|)
  {
    TimesMonotone(0, q.number - 1, q.perPage);
  }

  function QueryFor(number: int, perPage: int): Query {
    Query(number, perPage, (number - 1) * perPage)
  }

  /** A client that follows `has_next` from page `number` on. */
  function Pages<T>(rows: seq<T>, number: int, perPage: int): seq<seq<T>>
    requires number >= 1 && 1 <= perPage <= MAX_PAGE_SIZE
    decreases |rows| - (number - 1) * perPage
  {
    PageExact(rows, QueryFor(number, perPage));
    var (items, more) := Page(rows, QueryFor(number, perPage));
    NextOffset(number, perPage);
    [items] + if more then Pages(rows, number + 1, perPage) else []
  }

  lemma NextOffset(number: int, perPage: int)
    ensures (number + 1 - 1) * perPage == (number - 1) * perPage + perPage
  {}

  function Joined<T>(pages: seq<seq<T>>): seq<T> {
    if pages == [] then [] else pages[0] + Joined(pages[1..])
  }

  lemma {:induction false} PagesFrom<T>(rows: seq<T>, number: int, perPage: int)
    requires number >= 1 && 1 <= perPage <= MAX_PAGE_SIZE && 0 <= (number - 1) * perPage <= |rows|
    ensures Joined(Pages(rows, number, perPage)) == rows[(number - 1) * perPage..]
    decreases |rows| - (number - 1) * perPage
  {
    var q := QueryFor(number, perPage);
    PageExact(rows, q);
    NextOffset(number, perPage);
    var (items, more) := Page(rows, q);
    var pages := Pages(rows, number, perPage);
    if more {
      PagesFrom(rows, number + 1, perPage);
    }
    hide Page, Pages;
    OnePageMore(rows, q.offset, perPage, pages);
  }

  /** The first of some pages, and the others joined. */
  lemma OnePageMore<T>(rows: seq<T>, offset: nat, perPage: nat, pages: seq<seq<T>>)
    requires offset <= |rows| && |pages| > 0 && pages[0] == rows[offset..Min(offset + perPage, |rows|)]
    requires offset + perPage < |rows| ==> Joined(pages[1..]) == rows[offset + perPage..]
    requires offset + perPage >= |rows| ==> pages[1..] == []
    ensures Joined(pages) == rows[offset..]
  {
    if offset + perPage < |rows| {
      assert rows[offset..] == rows[offset..offset + perPage] + rows[offset + perPage..];
    }
  }

  /** Pages partition the list: following `has_next` yields every row once and in order. */
  lemma PagesPartition<T>(rows: seq<T>, perPage: int)
    requires 1 <= perPage <= MAX_PAGE_SIZE
    ensures Joined(Pages(rows, 1, perPage)) == rows
  {
    PagesFrom(rows, 1, perPage);
  }

  /** Every page but the last is full, so a page is never empty unless the list is. */
  lemma {:induction false} PagesFull<T>(rows: seq<T>, number: int, perPage: int, k: nat)
    requires number >= 1 && 1 <= perPage <= MAX_PAGE_SIZE && 0 <= (number - 1) * perPage
    requires k < |Pages(rows, number, perPage)| - 1
    ensures |Pages(rows, number, perPage)[k]| == perPage
    decreases k
  {
    PageExact(rows, QueryFor(number, perPage));
    NextOffset(number, perPage);
    if k > 0 {
      PagesFull(rows, number + 1, perPage, k - 1);
    }
  }
}
