/** The market-depth book behind `get_market_depth`. */
module Depth {
  import opened Decimal

  /** A row as the two callbacks store it; `maker` is absent for level-one updates. */
  datatype Row = Row(price: int, size: int, maker: Option<int>)

  const ASK := 0
  const BID := 1
  const DELETE := 2

  datatype Update = Update(position: int, operation: int, side: int, row: Row)

  type Book = map<int, map<int, Row>>

  const NO_BOOK: Book := map[ASK := map[], BID := map[]]

  function Side(book: Book, side: int): map<int, Row> {
    if side in book then book[side] else map[]
  }

  /** One `updateMktDepth` or `updateMktDepthL2`. */
  function Applied(book: Book, u: Update): Book {
    book[u.side := if u.operation == DELETE then Side(book, u.side) - {u.position}
                   else Side(book, u.side)[u.position := u.row]]
  }

  ghost function BookAfter(log: seq<Update>): Book {
    if log == [] then NO_BOOK else Applied(BookAfter(log[..|log| - 1]), log[|log| - 1])
  }

  lemma BookAppend(log: seq<Update>, u: Update)
    ensures BookAfter(log + [u]) == Applied(BookAfter(log), u)
  {
    assert (log + [u])[..|log|] == log;
  }

  /** A map of books that follow a map of logs. */
  ghost predicate Follows(books: map<int, Book>, logs: map<int, seq<Update>>) {
    books.Keys == logs.Keys && forall req | req in books :: books[req] == BookAfter(logs[req])
  }

  lemma FollowsUpdate(books: map<int, Book>, logs: map<int, seq<Update>>, req: int, log: seq<Update>)
    requires Follows(books, logs)
    ensures Follows(books[req := BookAfter(log)], logs[req := log])
  {
  }

  function Lookup(book: Book, side: int, position: int): Option<Row> {
    if position in Side(book, side) then Some(Side(book, side)[position]) else None
  }

  /** The reference: what the last update of that very slot left there, where operation 2
      deletes. */
  ghost function LastUpdate(log: seq<Update>, side: int, position: int): Option<Row> {
    if log == [] then None
    else
      var u := log[|log| - 1];
      if u.side == side && u.position == position then
        if u.operation == 2 then None else Some(u.row)
      else LastUpdate(log[..|log| - 1], side, position)
  }

  /** The book refines its log: every slot holds its own last update, and neighbours are never
      shifted. */
  lemma {:induction false} BookRefinesLog(log: seq<Update>, side: int, position: int)
    ensures Lookup(BookAfter(log), side, position) == LastUpdate(log, side, position)
  {
    if log != [] {
      BookRefinesLog(log[..|log| - 1], side, position);
    }
  }

  predicate Ascending(rows: seq<(int, Row)>) {
    forall i, j | 0 <= i < j < |rows| :: rows[i].0 < rows[j].0
  }

  lemma Pick<T>(s: set<T>) returns (x: T)
    requires s != {}
    ensures x in s
  {
    x :| x in s;
  }

  lemma {:induction false} LeastKey(keys: set<int>) returns (least: int)
    requires keys != {}
    ensures least in keys && forall k | k in keys :: least <= k
    decreases keys
  {
    var k := Pick(keys);
    var others := keys - {k};
    least := k;
    if others != {} {
      least := LeastKey(others);
      if k < least { least := k; }
    }
    forall j | j in keys ensures least <= j {
      if j != k { assert j in others; }
    }
  }

  /** `sorted(items, key=position)`. */
  method SortedRows(m: map<int, Row>) returns (rows: seq<(int, Row)>)
    ensures Ascending(rows)
    ensures forall p, row :: (p, row) in rows <==> p in m && m[p] == row
  {
    rows := [];
    var left := m.Keys;
    while left != {}
      invariant left <= m.Keys && Ascending(rows)
      invariant forall i | 0 <= i < |rows| :: rows[i].0 in m.Keys - left && m[rows[i].0] == rows[i].1
      invariant forall p | p in m.Keys - left :: (p, m[p]) in rows
      invariant forall i, p | 0 <= i < |rows| && p in left :: rows[i].0 < p
      decreases left
    {
      ghost var least := LeastKey(left);
      var p :| p in left && forall q | q in left :: p <= q;
      rows := rows + [(p, m[p])];
      left := left - {p};
    }
  }

  class MarketDepth {
    var books: map<int, Book>
    ghost var logs: map<int, seq<Update>>

    /** `logs` holds the updates of each request since its book was last dropped. */
    ghost predicate Valid()
      reads this
    {
      Follows(books, logs)
    }

    ghost function Log(req: int): seq<Update>
      reads this
    {
      if req in logs then logs[req] else []
    }

    constructor ()
      ensures Valid() && logs == map[]
    {
      books, logs := map[], map[];
    }

    /** Both depth callbacks. */
    method UpdateMktDepth(req: int, u: Update)
      requires Valid()
      modifies this
      ensures Valid() && logs == old(logs)[req := old(Log(req)) + [u]]
    {
      ghost var log := Log(req);
      BookAppend(log, u);
      FollowsUpdate(books, logs, req, log + [u]);
      var book := if req in books then books[req] else NO_BOOK;
      var sideBook := if u.side in book then book[u.side] else map[];
      if u.operation == DELETE {
        sideBook := sideBook - {u.position};
      } else {
        sideBook := sideBook[u.position := u.row];
      }
      assert book == BookAfter(log) && book[u.side := sideBook] == Applied(book, u);
      books := books[req := book[u.side := sideBook]];
      logs := logs[req := log + [u]];
    }

    /** The start of `get_market_depth`. */
    method Drop(req: int)
      requires Valid()
      modifies this
      ensures Valid() && logs == old(logs) - {req}
    {
      books := books - {req};
      logs := logs - {req};
    }

    /** The end of it: side 0 are the asks and side 1 the bids, and each side lists exactly its
        live positions, once each, in strictly ascending order, every one with its last update. */
    method Snapshot(req: int) returns (asks: seq<(int, Row)>, bids: seq<(int, Row)>)
      requires Valid()
      ensures Ascending(asks) && Ascending(bids)
      ensures forall p, row :: (p, row) in asks <==> LastUpdate(Log(req), 0, p) == Some(row)
      ensures forall p, row :: (p, row) in bids <==> LastUpdate(Log(req), 1, p) == Some(row)
    {
      var book := if req in books then books[req] else NO_BOOK;
      asks := SortedRows(if ASK in book then book[ASK] else map[]);
      bids := SortedRows(if BID in book then book[BID] else map[]);
      forall side, p {
        BookRefinesLog(Log(req), side, p);
      }
      assert book == BookAfter(Log(req));
      assert forall p, row :: (p, row) in asks <==> Lookup(book, ASK, p) == Some(row);
      assert forall p, row :: (p, row) in bids <==> Lookup(book, BID, p) == Some(row);
    }
  }
}
