/**
 * Listing volumes and hosts page by page (`ListVolumes` in app/internal/service/service_volume.go
 * and `ListHosts` in app/internal/service/service_host.go, which are the same code).
 */
module Paging {
  import opened Wrappers
  import opened Capacities
  import opened PageTokens

  const DEFAULT_PAGE_SIZE := 25
  const MAX_PAGE_SIZE := 100

  /** A page and the token of the next one, empty when there is none. */
  datatype Listing<T> = Listing(items: seq<T>, next: string)

  function Clamped(pageSize: int): (size: int)
    ensures 1 <= size <= MAX_PAGE_SIZE
    ensures 1 <= pageSize <= MAX_PAGE_SIZE ==> size == pageSize
  {
    if pageSize <= 0 then DEFAULT_PAGE_SIZE else if pageSize > MAX_PAGE_SIZE then MAX_PAGE_SIZE else pageSize
  }

  /** The rows a query with OFFSET and LIMIT selects; GORM leaves out values below zero. */
  function Rows<T>(table: seq<T>, offset: int, limit: int): seq<T> {
    var start := if offset < 0 then 0 else if offset > |table| then |table| else offset;
    var end := if limit < 0 || start + limit > |table| then |table| else start + limit;
    table[start..end]
  }

  /** Where a call reads from: the start without a token, and where the token says with one. */
  function Position(pageSize: int, token: string): Option<PageToken> {
    if token == "" then Some(PageToken(Clamped(pageSize), 0)) else Unmarshal(token)
  }

  /** A full page may have another after it; a short one is the last. */
  function PageAt<T>(table: seq<T>, position: PageToken): Listing<T> {
    var items := Rows(table, position.offset, position.limit);
    Listing(items,
            if |items| == position.limit then Marshal(PageToken(position.limit, position.offset + |items|)) else "")
  }

  /** The answer to one list call; an unreadable token is an error. */
  function Listed<T>(table: seq<T>, pageSize: int, token: string): Option<Listing<T>> {
    var position := Position(pageSize, token);
    if position.None? then None else Some(PageAt(table, position.value))
  }

  method List<T>(table: seq<T>, pageSize: int, token: string) returns (r: Option<Listing<T>>)
    ensures r == Listed(table, pageSize, token)
  {
    hide Unmarshal, Marshal;
    var size := pageSize;
    if size <= 0 {
      size := DEFAULT_PAGE_SIZE;
    }
    if size > MAX_PAGE_SIZE {
      size := MAX_PAGE_SIZE;
    }
    var offset, limit := 0, size;
    if token != "" {
      var position := Unmarshal(token);
      if position.None? {
        return None;
      }
      offset, limit := position.value.offset, position.value.limit;
    }
    var items := Rows(table, offset, limit);
    var next := "";
    if |items| == limit {
      next := Marshal(PageToken(limit, offset + |items|));
    }
    return Some(Listing(items, next));
  }

  /** Without a size a page holds 25 rows, and it never holds more than 100. */
  lemma PageSizes<T>(table: seq<T>, pageSize: int)
    ensures pageSize <= 0 ==> Listed(table, pageSize, "") == Listed(table, 25, "")
    ensures pageSize > 100 ==> Listed(table, pageSize, "") == Listed(table, 100, "")
  {
    hide Marshal;
  }

  /** A token decides where its page starts and how many rows it holds, whatever size the call asks for. */
  lemma TokenDecides<T>(table: seq<T>, pageSize: int, limit: nat, offset: nat)
    requires limit <= MAX_INT64 && offset <= |table| <= MAX_INT64
    ensures var end := if offset + limit < |table| then offset + limit else |table|;
      var r := Listed(table, pageSize, Marshal(PageToken(limit, offset)));
      && r.Some? && r.value.items == table[offset..end]
      && r.value.next == if end == offset + limit then Marshal(PageToken(limit, end)) else ""
  {
    hide Marshal, Unmarshal;
    UnmarshalUndoesMarshal(PageToken(limit, offset));
  }

  /** A client that follows next-page tokens for at most n calls. */
  datatype Walked<T> = Walked(items: seq<T>, calls: nat, finished: bool)

  function Walk<T>(list: string -> Option<Listing<T>>, token: string, n: nat): Walked<T>
    decreases n
  {
    if n == 0 then Walked([], 0, false)
    else
      var page := list(token);
      if page.None? then Walked([], 1, false)
      else if page.value.next == "" then Walked(page.value.items, 1, true)
      else
        var rest := Walk(list, page.value.next, n - 1);
        Walked(page.value.items + rest.items, 1 + rest.calls, rest.finished)
  }

  /** The list call over a table that does not change, for one requested page size. */
  function Server<T>(table: seq<T>, pageSize: int): string -> Option<Listing<T>> {
    token => Listed(table, pageSize, token)
  }

  /** The token of the page that starts at a multiple of the page size. */
  function TokenAt(size: int, offset: nat): string {
    if offset == 0 then "" else Marshal(PageToken(size, offset))
  }

  lemma PositionAt(pageSize: int, offset: nat)
    requires offset <= MAX_INT64
    ensures Position(pageSize, TokenAt(Clamped(pageSize), offset)) == Some(PageToken(Clamped(pageSize), offset))
    ensures offset > 0 ==> TokenAt(Clamped(pageSize), offset) != ""
  {
    hide Marshal, Unmarshal;
    UnmarshalUndoesMarshal(PageToken(Clamped(pageSize), offset));
  }

  lemma ListedAt<T>(table: seq<T>, pageSize: int, offset: nat)
    requires offset <= |table| && |table| <= MAX_INT64 - MAX_PAGE_SIZE
    ensures var size := Clamped(pageSize);
      var end := if offset + size <= |table| then offset + size else |table|;
      var next := if offset + size <= |table| then TokenAt(size, offset + size) else "";
      Listed(table, pageSize, TokenAt(size, offset)) == Some(Listing(table[offset..end], next))
    ensures offset + Clamped(pageSize) <= |table| ==> TokenAt(Clamped(pageSize), offset + Clamped(pageSize)) != ""
  {
    hide Marshal, Unmarshal, Position;
    var size := Clamped(pageSize);
    PositionAt(pageSize, offset);
    if offset + size <= |table| {
      PositionAt(pageSize, offset + size);
    }
  }

  /** Calls still needed from an offset on. */
  function CallsFrom(total: nat, size: int, offset: nat): nat
    requires size >= 1 && offset <= total
  {
    (total - offset) / size + 1
  }

  lemma OneCallLess(total: nat, size: int, offset: nat)
    requires size >= 1 && offset + size <= total
    ensures CallsFrom(total, size, offset) == 1 + CallsFrom(total, size, offset + size)
  {
    var left := total - offset - size;
    var q, r := left / size, left % size;
    Quotient(left, size);
    assert (q + 1) * size == q * size + size;
    QuotientUnique(total - offset, size, q + 1, r);
  }

  lemma LastCall(total: nat, size: int, offset: nat)
    requires size >= 1 && offset <= total < offset + size
    ensures CallsFrom(total, size, offset) == 1
  {
    QuotientUnique(total - offset, size, 0, total - offset);
  }

  lemma {:induction false} WalkFrom<T>(table: seq<T>, pageSize: int, offset: nat, n: nat)
    requires offset <= |table| && |table| <= MAX_INT64 - MAX_PAGE_SIZE
    ensures var size := Clamped(pageSize);
      var w := Walk(Server(table, pageSize), TokenAt(size, offset), n);
      && (w.finished <==> n >= CallsFrom(|table|, size, offset))
      && w.items <= table[offset..]
      && (w.finished ==> w.items == table[offset..] && w.calls == CallsFrom(|table|, size, offset))
    decreases n
  {
    hide Listed, TokenAt, Clamped, CallsFrom;
    if n > 0 {
      var size := Clamped(pageSize);
      ListedAt(table, pageSize, offset);
      if offset + size <= |table| {
        WalkFrom(table, pageSize, offset + size, n - 1);
        OneCallLess(|table|, size, offset);
        assert table[offset..] == table[offset..offset + size] + table[offset + size..];
      } else {
        LastCall(|table|, size, offset);
      }
    } else {
      CallsArePositive(|table|, Clamped(pageSize), offset);
    }
  }

  lemma CallsArePositive(total: nat, size: int, offset: nat)
    requires size >= 1 && offset <= total
    ensures CallsFrom(total, size, offset) >= 1
  {
  }

  /**
   * For every requested page size, following tokens over a table of N rows ends after
   * exactly N / size + 1 calls, and the pages are the table, with no gap and no repeat.
   */
  lemma PagesAreTheTable<T>(table: seq<T>, pageSize: int, n: nat)
    requires |table| <= MAX_INT64 - MAX_PAGE_SIZE
    ensures var w := Walk(Server(table, pageSize), "", n);
      && (w.finished <==> n >= |table| / Clamped(pageSize) + 1)
      && (w.finished ==> w.items == table && w.calls == |table| / Clamped(pageSize) + 1)
  {
    hide Walk, Marshal, Server;
    WalkFrom(table, pageSize, 0, n);
    assert table[0..] == table;
  }
}
