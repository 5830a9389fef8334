/** Keyset pagination of a wallet's statement, newest first by (created_at, id). */
module Statement {
  import opened Tables
  import opened Ledger
  import Calendar
  import Cursor

  // --- the order --------------------------------------------------------------

  datatype Position = Position(at: int, id: int)

  function KeyOf(e: Entry): Position {
    Position(e.at, e.id)
  }

  /** Tuple comparison. */
  predicate Less(a: Position, b: Position) {
    a.at < b.at || (a.at == b.at && a.id < b.id)
  }

  /** Strictly decreasing keys. */
  predicate Descending(rows: seq<Entry>) {
    forall i, j :: 0 <= i < j < |rows| ==> Less(KeyOf(rows[j]), KeyOf(rows[i]))
  }

  predicate OneRowPerId(es: seq<Entry>) {
    forall i, j :: 0 <= i < j < |es| ==> es[i].id != es[j].id
  }

  function InsertRow(e: Entry, rows: seq<Entry>): seq<Entry> {
    if rows == [] || Less(KeyOf(rows[0]), KeyOf(e)) then [e] + rows else [rows[0]] + InsertRow(e, rows[1..])
  }

  /** ORDER BY created_at DESC, id DESC. */
  function Sorted(es: seq<Entry>): seq<Entry> {
    if es == [] then [] else InsertRow(es[|es| - 1], Sorted(es[..|es| - 1]))
  }

  lemma {:induction false} InsertRowHas(e: Entry, rows: seq<Entry>)
    ensures forall x :: x in InsertRow(e, rows) <==> x == e || x in rows
    ensures |InsertRow(e, rows)| == |rows| + 1
  {
    if rows != [] && !Less(KeyOf(rows[0]), KeyOf(e)) {
      InsertRowHas(e, rows[1..]);
      assert rows == [rows[0]] + rows[1..];
    }
  }

  lemma {:induction false} InsertRowDescends(e: Entry, rows: seq<Entry>)
    requires Descending(rows) && forall x <- rows :: x.id != e.id
    ensures Descending(InsertRow(e, rows))
  {
    if rows != [] && !Less(KeyOf(rows[0]), KeyOf(e)) {
      InsertRowDescends(e, rows[1..]);
      InsertRowHas(e, rows[1..]);
      var tail := InsertRow(e, rows[1..]);
      forall j | 0 <= j < |tail| ensures Less(KeyOf(tail[j]), KeyOf(rows[0])) {
        assert tail[j] in tail;
        assert rows[0] in rows;
      }
    }
  }

  /** The sorted list has the same entries and, ids being distinct, strictly decreasing keys. */
  lemma {:induction false} SortedIsOrdered(es: seq<Entry>)
    requires OneRowPerId(es)
    ensures Descending(Sorted(es)) && |Sorted(es)| == |es|
    ensures forall x :: x in Sorted(es) <==> x in es
  {
    if es != [] {
      var n := |es| - 1;
      SortedIsOrdered(es[..n]);
      InsertRowHas(es[n], Sorted(es[..n]));
      InsertRowDescends(es[n], Sorted(es[..n]));
      assert es == es[..n] + [es[n]];
    }
  }

  // --- one page ---------------------------------------------------------------

  /** WHERE (created_at, id) < position. */
  function Below(rows: seq<Entry>, cursor: Option<Position>): seq<Entry> {
    if rows == [] then []
    else
      var rest := Below(rows[1..], cursor);
      if cursor == None || Less(KeyOf(rows[0]), cursor.value) then [rows[0]] + rest else rest
  }

  function Take(rows: seq<Entry>, n: nat): seq<Entry> {
    if |rows| <= n then rows else rows[..n]
  }

  const MAX_PAGE: int := 100

  function Clamp(limit: int): nat {
    var low := if limit < MAX_PAGE then limit else MAX_PAGE;
    if low < 1 then 1 else low
  }

  /** A page size of 1 to 100 is taken as it is, any other as the nearer bound. */
  lemma ClampIsNearest(limit: int)
    ensures 1 <= Clamp(limit) <= 100
    ensures 1 <= limit <= 100 ==> Clamp(limit) == limit
    ensures limit < 1 ==> Clamp(limit) == 1
    ensures limit > 100 ==> Clamp(limit) == 100
  {
  }

  /** The query: one row more than the page, which tells whether another page exists. */
  function Query(es: seq<Entry>, cursor: Option<Position>, limit: nat): seq<Entry> {
    Take(Below(Sorted(es), cursor), limit + 1)
  }

  function Page(es: seq<Entry>, cursor: Option<Position>, limit: nat): seq<Entry> {
    Take(Query(es, cursor, limit), limit)
  }

  predicate HasMore(es: seq<Entry>, cursor: Option<Position>, limit: nat) {
    |Query(es, cursor, limit)| > limit
  }

  /** The position of the last row shown, when another page exists. */
  function Next(es: seq<Entry>, cursor: Option<Position>, limit: nat): Option<Position> {
    var page := Page(es, cursor, limit);
    if HasMore(es, cursor, limit) && page != [] then Some(KeyOf(page[|page| - 1])) else None
  }

  lemma {:induction false} BelowHas(rows: seq<Entry>, cursor: Option<Position>)
    requires Descending(rows)
    ensures Descending(Below(rows, cursor)) && |Below(rows, cursor)| <= |rows|
    ensures forall x :: x in Below(rows, cursor) <==> x in rows && (cursor.Some? ==> Less(KeyOf(x), cursor.value))
  {
    if rows != [] {
      BelowHas(rows[1..], cursor);
      assert rows == [rows[0]] + rows[1..];
      var rest := Below(rows[1..], cursor);
      forall j | 0 <= j < |rest| ensures Less(KeyOf(rest[j]), KeyOf(rows[0])) {
        assert rest[j] in rest;
      }
    }
  }

  /** What one page shows: the largest keys below the cursor, all of them when no further page exists. */
  lemma PageShows(es: seq<Entry>, cursor: Option<Position>, limit: nat)
    requires OneRowPerId(es) && limit > 0
    ensures var page := Page(es, cursor, limit);
            && Descending(page) && |page| <= limit
            && (forall x <- page :: x in es && (cursor.Some? ==> Less(KeyOf(x), cursor.value)))
            && (HasMore(es, cursor, limit) ==> |page| == limit)
            && (forall x <- es :: (cursor.Some? ==> Less(KeyOf(x), cursor.value)) && x !in page ==>
                  HasMore(es, cursor, limit) && Less(KeyOf(x), KeyOf(page[|page| - 1])))
  {
    SortedIsOrdered(es);
    BelowHas(Sorted(es), cursor);
    var all, page := Below(Sorted(es), cursor), Page(es, cursor, limit);
    assert page == Take(all, limit);
    forall x <- es | (cursor.Some? ==> Less(KeyOf(x), cursor.value)) && x !in page
      ensures HasMore(es, cursor, limit) && Less(KeyOf(x), KeyOf(page[|page| - 1]))
    {
      assert x in all;
      var j :| 0 <= j < |all| && all[j] == x;
      assert j >= limit;
    }
    forall x <- page ensures x in all {}
  }

  // --- following next_cursor, over a ledger that may grow ----------------------

  /** ledgers[j] is the wallet's entries as committed when page j is fetched. */
  predicate Growing(ledgers: seq<seq<Entry>>) {
    && (forall j :: 0 <= j < |ledgers| ==> OneRowPerId(ledgers[j]))
    && (forall i, j, x :: 0 <= i <= j < |ledgers| && x in ledgers[i] ==> x in ledgers[j])
  }

  /** All rows shown by at most |ledgers| fetches, in the order shown. */
  function Walk(ledgers: seq<seq<Entry>>, cursor: Option<Position>, limit: nat): seq<Entry> {
    if ledgers == [] then []
    else
      var page := Page(ledgers[0], cursor, limit);
      if Next(ledgers[0], cursor, limit) == None then page
      else page + Walk(ledgers[1..], Next(ledgers[0], cursor, limit), limit)
  }

  /** The walk reached a page without a next cursor. */
  predicate Finished(ledgers: seq<seq<Entry>>, cursor: Option<Position>, limit: nat) {
    ledgers != [] &&
    (Next(ledgers[0], cursor, limit) == None || Finished(ledgers[1..], Next(ledgers[0], cursor, limit), limit))
  }

  function Fetches(ledgers: seq<seq<Entry>>, cursor: Option<Position>, limit: nat): nat {
    if ledgers == [] then 0
    else if Next(ledgers[0], cursor, limit) == None then 1
    else 1 + Fetches(ledgers[1..], Next(ledgers[0], cursor, limit), limit)
  }

  predicate Under(rows: seq<Entry>, cursor: Option<Position>) {
    forall x <- rows :: cursor.Some? ==> Less(KeyOf(x), cursor.value)
  }

  lemma DescendingAppend(a: seq<Entry>, b: seq<Entry>)
    requires Descending(a) && Descending(b) && a != []
    requires Under(b, Some(KeyOf(a[|a| - 1])))
    ensures Descending(a + b)
  {
    forall i, j | 0 <= i < j < |a + b| ensures Less(KeyOf((a + b)[j]), KeyOf((a + b)[i])) {
      if i < |a| <= j {
        assert (a + b)[j] in b;
        assert i == |a| - 1 || Less(KeyOf(a[|a| - 1]), KeyOf(a[i]));
      }
    }
  }

  /** Over any growing ledger the rows shown come in strictly decreasing order, so none is shown twice. */
  lemma {:induction false} WalkDescends(ledgers: seq<seq<Entry>>, cursor: Option<Position>, limit: nat)
    requires Growing(ledgers) && limit > 0
    ensures Descending(Walk(ledgers, cursor, limit)) && Under(Walk(ledgers, cursor, limit), cursor)
  {
    if ledgers != [] {
      PageShows(ledgers[0], cursor, limit);
      var page, next := Page(ledgers[0], cursor, limit), Next(ledgers[0], cursor, limit);
      if next.Some? {
        WalkDescends(ledgers[1..], next, limit);
        DescendingAppend(page, Walk(ledgers[1..], next, limit));
        assert page[|page| - 1] in page;
        forall x <- Walk(ledgers[1..], next, limit) ensures cursor.Some? ==> Less(KeyOf(x), cursor.value) {}
      }
    }
  }

  lemma NoRowTwice(rows: seq<Entry>)
    requires Descending(rows)
    ensures forall i, j :: 0 <= i < j < |rows| ==> rows[i] != rows[j]
  {
  }

  /** Every entry committed before the first fetch is shown by the time the walk finishes. */
  lemma {:induction false} WalkShowsAll(ledgers: seq<seq<Entry>>, cursor: Option<Position>, limit: nat, x: Entry)
    requires Growing(ledgers) && limit > 0 && Finished(ledgers, cursor, limit)
    requires x in ledgers[0] && (cursor.Some? ==> Less(KeyOf(x), cursor.value))
    ensures x in Walk(ledgers, cursor, limit)
  {
    PageShows(ledgers[0], cursor, limit);
    var page, next := Page(ledgers[0], cursor, limit), Next(ledgers[0], cursor, limit);
    if x !in page {
      assert next == Some(KeyOf(page[|page| - 1]));
      assert x in ledgers[1];
      WalkShowsAll(ledgers[1..], next, limit, x);
    }
  }

  /** Only committed entries are ever shown. */
  lemma {:induction false} WalkShowsOnly(ledgers: seq<seq<Entry>>, cursor: Option<Position>, limit: nat, x: Entry)
    requires Growing(ledgers) && limit > 0 && x in Walk(ledgers, cursor, limit)
    ensures ledgers != [] && x in ledgers[|ledgers| - 1]
  {
    PageShows(ledgers[0], cursor, limit);
    var next := Next(ledgers[0], cursor, limit);
    if x in Page(ledgers[0], cursor, limit) {
      assert x in ledgers[0];
    } else {
      WalkShowsOnly(ledgers[1..], next, limit, x);
    }
  }

  // --- on a fixed ledger --------------------------------------------------------

  lemma {:induction false} BelowSuffix(rows: seq<Entry>, k: nat)
    requires Descending(rows) && k < |rows|
    ensures Below(rows, Some(KeyOf(rows[k]))) == rows[k + 1..]
  {
    if k > 0 {
      BelowSuffix(rows[1..], k - 1);
      assert Less(KeyOf(rows[k]), KeyOf(rows[0]));
    } else {
      BelowAll(rows[1..], Some(KeyOf(rows[0])));
    }
  }

  lemma {:induction false} BelowAll(rows: seq<Entry>, cursor: Option<Position>)
    requires Under(rows, cursor)
    ensures Below(rows, cursor) == rows
  {
    if rows != [] {
      assert rows[0] in rows;
      BelowAll(rows[1..], cursor);
    }
  }

  /** Pages needed for n rows. */
  function Pages(n: nat, limit: nat): nat
    requires limit > 0
  {
    if n <= limit then 1 else 1 + Pages(n - limit, limit)
  }

  /** The least number p >= 1 of pages with n <= p * limit, that is max(1, ceil(n / limit)). */
  lemma {:induction false} PagesIsCeiling(n: nat, limit: nat)
    requires limit > 0
    ensures var p := Pages(n, limit); 1 <= p && n <= p * limit && (p == 1 || (p - 1) * limit < n)
  {
    if n > limit {
      PagesIsCeiling(n - limit, limit);
      var p := Pages(n - limit, limit);
      assert (p + 1) * limit == p * limit + limit;
      assert p * limit == (p - 1) * limit + limit;
    }
  }

  /** The rows below the cursor are the last of the sorted list. */
  predicate IsTail(es: seq<Entry>, cursor: Option<Position>, rows: seq<Entry>) {
    && |rows| <= |Sorted(es)| && Sorted(es)[|Sorted(es)| - |rows|..] == rows
    && Below(Sorted(es), cursor) == rows
  }

  lemma LastPage(es: seq<Entry>, cursor: Option<Position>, rows: seq<Entry>, limit: nat)
    requires IsTail(es, cursor, rows) && |rows| <= limit
    ensures Page(es, cursor, limit) == rows && Next(es, cursor, limit) == None
  {
  }

  lemma FullPage(es: seq<Entry>, cursor: Option<Position>, rows: seq<Entry>, limit: nat)
    requires OneRowPerId(es) && IsTail(es, cursor, rows) && 0 < limit < |rows|
    ensures Page(es, cursor, limit) == rows[..limit] && Next(es, cursor, limit).Some?
    ensures IsTail(es, Next(es, cursor, limit), rows[limit..])
  {
    SortedIsOrdered(es);
    BelowSuffix(Sorted(es), |Sorted(es)| - |rows| + limit - 1);
  }

  /** One fetch of a walk, ending it or going on from the next cursor. */
  lemma WalkStep(ledgers: seq<seq<Entry>>, cursor: Option<Position>, limit: nat)
    requires ledgers != []
    ensures var page, next := Page(ledgers[0], cursor, limit), Next(ledgers[0], cursor, limit);
            if next == None then
              && Walk(ledgers, cursor, limit) == page && Finished(ledgers, cursor, limit)
              && Fetches(ledgers, cursor, limit) == 1
            else
              && Walk(ledgers, cursor, limit) == page + Walk(ledgers[1..], next, limit)
              && Finished(ledgers, cursor, limit) == Finished(ledgers[1..], next, limit)
              && Fetches(ledgers, cursor, limit) == 1 + Fetches(ledgers[1..], next, limit)
  {
  }

  /** The walk from this cursor shows exactly these rows, in as many pages as they need. */
  predicate Exhausts(ledgers: seq<seq<Entry>>, cursor: Option<Position>, limit: nat, rows: seq<Entry>)
    requires limit > 0
  {
    && Finished(ledgers, cursor, limit) && Walk(ledgers, cursor, limit) == rows
    && Fetches(ledgers, cursor, limit) == Pages(|rows|, limit)
  }

  lemma OnePageMore(ledgers: seq<seq<Entry>>, cursor: Option<Position>, limit: nat, rows: seq<Entry>)
    requires ledgers != [] && 0 < limit < |rows|
    requires Page(ledgers[0], cursor, limit) == rows[..limit] && Next(ledgers[0], cursor, limit).Some?
    requires Exhausts(ledgers[1..], Next(ledgers[0], cursor, limit), limit, rows[limit..])
    ensures Exhausts(ledgers, cursor, limit, rows)
  {
    WalkStep(ledgers, cursor, limit);
    assert rows == rows[..limit] + rows[limit..];
  }

  lemma {:induction false} FixedWalkFrom(es: seq<Entry>, copies: seq<seq<Entry>>, cursor: Option<Position>,
                                         rows: seq<Entry>, limit: nat)
    requires OneRowPerId(es) && limit > 0 && IsTail(es, cursor, rows)
    requires forall j :: 0 <= j < |copies| ==> copies[j] == es
    requires Pages(|rows|, limit) <= |copies|
    ensures Exhausts(copies, cursor, limit, rows)
    decreases |rows|
  {
    if |rows| > limit {
      FullPage(es, cursor, rows, limit);
      FixedWalkFrom(es, copies[1..], Next(es, cursor, limit), rows[limit..], limit);
      OnePageMore(copies, cursor, limit, rows);
    } else {
      LastPage(es, cursor, rows, limit);
      WalkStep(copies, cursor, limit);
    }
  }

  /** On a fixed ledger, following next_cursor from the first page shows the whole sorted list and
      stops after exactly the pages that its length needs. */
  lemma FixedWalk(es: seq<Entry>, copies: seq<seq<Entry>>, limit: nat)
    requires OneRowPerId(es) && limit > 0 && forall j :: 0 <= j < |copies| ==> copies[j] == es
    requires |es| <= |copies| && 1 <= |copies|
    ensures Finished(copies, None, limit) && Walk(copies, None, limit) == Sorted(es)
    ensures var p := Fetches(copies, None, limit);
            1 <= p && |es| <= p * limit && (p == 1 || (p - 1) * limit < |es|)
  {
    SortedIsOrdered(es);
    BelowAll(Sorted(es), None);
    PagesIsCeiling(|es|, limit);
    PagesAtMost(|es|, limit);
    FixedWalkFrom(es, copies, None, Sorted(es), limit);
  }

  lemma {:induction false} PagesAtMost(n: nat, limit: nat)
    requires limit > 0
    ensures Pages(n, limit) <= if n == 0 then 1 else n
  {
    if n > limit {
      PagesAtMost(n - limit, limit);
    }
  }

  // --- the cursor as text ---------------------------------------------------------

  /** How the database driver renders an instant, and the session's time zone, in which a rendering
      without an offset is read. */
  datatype Driver = Driver(stamp: int -> Calendar.Timestamp, zone: int)

  /** The driver renders these rows' times as real dates that denote the same instants. */
  ghost predicate Renders(d: Driver, es: seq<Entry>) {
    forall e <- es :: Calendar.Valid(d.stamp(e.at)) && Calendar.Instant(d.stamp(e.at), d.zone) == e.at
  }

  /** A driver that renders every time at one offset. */
  function AtOffset(offset: int): Driver {
    Driver(at => Calendar.Stamp(at, offset), 0)
  }

  /** Such a driver renders all rows whose times fall into the years that dates have. */
  lemma AtOffsetRenders(es: seq<Entry>, offset: int)
    requires forall e <- es :: Calendar.Representable(e.at, offset)
    ensures Renders(AtOffset(offset), es)
  {
    forall e <- es ensures Calendar.Valid(AtOffset(offset).stamp(e.at)) &&
                           Calendar.Instant(AtOffset(offset).stamp(e.at), 0) == e.at
    {
      Calendar.StampRenders(e.at, offset, 0);
    }
  }

  /** The position in a request's cursor; none on page one or for a malformed cursor. */
  function ReadCursor(cursor: string, zone: int): Option<Position> {
    match Cursor.PositionOf(cursor, zone)
    case None => None
    case Some((at, id)) => Some(Position(at, id))
  }

  lemma FirstPage(zone: int)
    ensures ReadCursor("", zone) == None
  {
  }

  /** The cursor text of the last row shown, when another page exists. */
  function CursorAfter(page: seq<Entry>, hasMore: bool, d: Driver): Option<string> {
    if hasMore && page != [] then Some(Cursor.EncodeCursor(d.stamp(page[|page| - 1].at), page[|page| - 1].id)) else None
  }

  function NextText(es: seq<Entry>, cursor: string, limit: nat, d: Driver): Option<string> {
    var position := ReadCursor(cursor, d.zone);
    CursorAfter(Page(es, position, limit), HasMore(es, position, limit), d)
  }

  /** The next cursor says where the next page starts. */
  lemma NextTextReads(es: seq<Entry>, cursor: string, limit: nat, d: Driver)
    requires Renders(d, es)
    ensures var text, next := NextText(es, cursor, limit, d), Next(es, ReadCursor(cursor, d.zone), limit);
            if text.Some? then ReadCursor(text.value, d.zone) == next else next == None
  {
    var position := ReadCursor(cursor, d.zone);
    var page := Page(es, position, limit);
    if HasMore(es, position, limit) && page != [] {
      var last := page[|page| - 1];
      QueryFrom(es, position, limit + 1);
      assert last in Query(es, position, limit);
      Cursor.CursorCarriesInstant(d.stamp(last.at), last.id, d.zone);
    }
  }

  /** The rows shown when each request sends back the cursor text of the answer before. */
  function TextWalk(ledgers: seq<seq<Entry>>, cursor: string, limit: nat, d: Driver): seq<Entry> {
    if ledgers == [] then []
    else
      var page, next := Page(ledgers[0], ReadCursor(cursor, d.zone), limit), NextText(ledgers[0], cursor, limit, d);
      if next == None then page else page + TextWalk(ledgers[1..], next.value, limit, d)
  }

  predicate TextFinished(ledgers: seq<seq<Entry>>, cursor: string, limit: nat, d: Driver) {
    && ledgers != []
    && var next := NextText(ledgers[0], cursor, limit, d);
       next == None || TextFinished(ledgers[1..], next.value, limit, d)
  }

  /** Following the cursor text is following the positions. */
  lemma {:induction false} TextWalkIsWalk(ledgers: seq<seq<Entry>>, cursor: string, limit: nat, d: Driver)
    requires forall j :: 0 <= j < |ledgers| ==> Renders(d, ledgers[j])
    ensures var position := ReadCursor(cursor, d.zone);
            && TextWalk(ledgers, cursor, limit, d) == Walk(ledgers, position, limit)
            && (TextFinished(ledgers, cursor, limit, d) <==> Finished(ledgers, position, limit))
  {
    if ledgers != [] {
      NextTextReads(ledgers[0], cursor, limit, d);
      var next := NextText(ledgers[0], cursor, limit, d);
      if next.Some? {
        TextWalkIsWalk(ledgers[1..], next.value, limit, d);
      }
    }
  }

  // --- the rendered page --------------------------------------------------------

  datatype Direction = Debit | Credit

  function DirectionOf(amount: int): Direction {
    if amount < 0 then Debit else Credit
  }

  datatype Line = Line(entry: Entry, direction: Direction, kind: TxnKind, counterparty: Option<UserId>)

  function FindTxn(txns: seq<Txn>, id: TxnId): (r: Option<Txn>)
    ensures r.Some? ==> r.value in txns && r.value.id == id
    ensures r.None? ==> forall t <- txns :: t.id != id
  {
    if txns == [] then None
    else if txns[|txns| - 1].id == id then Some(txns[|txns| - 1])
    else FindTxn(txns[..|txns| - 1], id)
  }

  /** The foreign key of ledger_entries.transaction_id. */
  predicate Referenced(st: Store) {
    forall e <- st.entries :: FindTxn(st.txns, e.txn).Some?
  }

  function TxnOf(st: Store, e: Entry): Txn
    requires Referenced(st) && e in st.entries
  {
    FindTxn(st.txns, e.txn).value
  }

  /** Whichever wallet on the transaction is not this entry's. */
  function OtherSide(t: Txn, e: Entry): WalletId {
    if e.wallet == t.src then t.dst else t.src
  }

  /** It is the one wallet of the transaction that is not the entry's own. */
  lemma OtherSideIsOther(t: Txn, e: Entry)
    requires t.src != t.dst && e.wallet in {t.src, t.dst}
    ensures OtherSide(t, e) != e.wallet && {OtherSide(t, e), e.wallet} == {t.src, t.dst}
  {
  }

  /** The user owning the wallet; nobody owns the mint. */
  ghost predicate IsOwner(st: Store, w: WalletId, u: Option<UserId>) {
    match u
    case Some(v) => v in st.walletOf && st.walletOf[v] == w
    case None => forall v <- st.walletOf :: st.walletOf[v] != w
  }

  /** One query for the owners of all the wallets on the page. */
  method CounterpartyNames(st: Store, ids: set<WalletId>) returns (names: map<WalletId, UserId>)
    requires OwnersOk(st)
    ensures names.Keys <= ids && forall w <- ids :: IsOwner(st, w, if w in names then Some(names[w]) else None)
  {
    names := map u | u in st.walletOf && st.walletOf[u] in ids :: st.walletOf[u] := u;
  }

  /** The other wallets of the page's transactions, gathered row by row. */
  method OtherWallets(st: Store, pairs: seq<Entry>) returns (others: set<WalletId>)
    requires Referenced(st) && forall e <- pairs :: e in st.entries
    ensures others == set e | e in pairs :: OtherSide(TxnOf(st, e), e)
  {
    others := {};
    for k := 0 to |pairs|
      invariant others == set e | e in pairs[..k] :: OtherSide(TxnOf(st, e), e)
    {
      others := others + {OtherSide(TxnOf(st, pairs[k]), pairs[k])};
      assert pairs[..k + 1] == pairs[..k] + [pairs[k]];
    }
    assert pairs[..|pairs|] == pairs;
  }

  /** The query with one row too many, and the page cut from it. */
  method FetchPage(es: seq<Entry>, cursor: string, size: nat, zone: int) returns (pairs: seq<Entry>, hasMore: bool)
    ensures pairs == Page(es, ReadCursor(cursor, zone), size) && hasMore == HasMore(es, ReadCursor(cursor, zone), size)
    ensures forall e <- pairs :: e in es
  {
    var position: Option<Position> := None;
    if cursor != "" {
      position := ReadCursor(cursor, zone);
    }
    pairs := Query(es, position, size);
    QueryFrom(es, position, size + 1);
    hasMore := |pairs| > size;
    ghost var all := pairs;
    pairs := Take(pairs, size);
    assert forall k :: 0 <= k < |pairs| ==> pairs[k] == all[k];
  }

  /** The statement endpoint's query, rendering and next cursor. */
  method StatementPage(st: Store, wallet: WalletId, limit: int, cursor: string, d: Driver)
    returns (lines: seq<Line>, next: Option<string>)
    requires OwnersOk(st) && Referenced(st)
    ensures var page := Page(OfOne(st.entries, wallet), ReadCursor(cursor, d.zone), Clamp(limit));
            && next == NextText(OfOne(st.entries, wallet), cursor, Clamp(limit), d)
            && |lines| == |page|
            && forall k :: 0 <= k < |page| ==>
                 && lines[k].entry == page[k] && page[k] in st.entries && page[k].wallet == wallet
                 && lines[k].direction == DirectionOf(page[k].amount)
                 && lines[k].kind == TxnOf(st, page[k]).kind
                 && IsOwner(st, OtherSide(TxnOf(st, page[k]), page[k]), lines[k].counterparty)
  {
    var es := OfOne(st.entries, wallet);
    var pairs, hasMore := FetchPage(es, cursor, Clamp(limit), d.zone);
    forall e <- pairs ensures e in st.entries && e.wallet == wallet {
      var k :| 0 <= k < |es| && es[k] == e;
    }
    assert forall k :: 0 <= k < |pairs| ==> pairs[k] in pairs;
    lines := RenderRows(st, pairs);
    next := NextCursor(pairs, hasMore, d);
  }

  method NextCursor(pairs: seq<Entry>, hasMore: bool, d: Driver) returns (next: Option<string>)
    ensures next == CursorAfter(pairs, hasMore, d)
  {
    if hasMore && pairs != [] {
      var last := pairs[|pairs| - 1];
      return Some(Cursor.EncodeCursor(d.stamp(last.at), last.id));
    }
    return None;
  }

  method RenderRows(st: Store, pairs: seq<Entry>) returns (lines: seq<Line>)
    requires OwnersOk(st) && Referenced(st) && forall e <- pairs :: e in st.entries
    ensures |lines| == |pairs|
    ensures forall k :: 0 <= k < |pairs| ==>
              && lines[k].entry == pairs[k] && lines[k].direction == DirectionOf(pairs[k].amount)
              && lines[k].kind == TxnOf(st, pairs[k]).kind
              && IsOwner(st, OtherSide(TxnOf(st, pairs[k]), pairs[k]), lines[k].counterparty)
  {
    var others := OtherWallets(st, pairs);
    var names := CounterpartyNames(st, others);
    lines := [];
    for k := 0 to |pairs|
      invariant |lines| == k
      invariant forall j :: 0 <= j < k ==>
                  && lines[j].entry == pairs[j] && lines[j].direction == DirectionOf(pairs[j].amount)
                  && lines[j].kind == TxnOf(st, pairs[j]).kind
                  && IsOwner(st, OtherSide(TxnOf(st, pairs[j]), pairs[j]), lines[j].counterparty)
    {
      var t := TxnOf(st, pairs[k]);
      var other := OtherSide(t, pairs[k]);
      assert other in others;
      var direction := if pairs[k].amount < 0 then Debit else Credit;
      lines := lines + [Line(pairs[k], direction, t.kind, if other in names then Some(names[other]) else None)];
    }
  }

  /** The query returns only rows of the table it reads. */
  lemma QueryFrom(es: seq<Entry>, cursor: Option<Position>, n: nat)
    ensures forall x <- Take(Below(Sorted(es), cursor), n) :: x in es
  {
    forall x <- Take(Below(Sorted(es), cursor), n) ensures x in es {
      BelowFrom(Sorted(es), cursor, x);
      SortedFrom(es, x);
    }
  }

  lemma {:induction false} BelowFrom(rows: seq<Entry>, cursor: Option<Position>, x: Entry)
    requires x in Below(rows, cursor)
    ensures x in rows
  {
    if x != rows[0] {
      BelowFrom(rows[1..], cursor, x);
    }
  }

  lemma {:induction false} SortedFrom(es: seq<Entry>, x: Entry)
    requires x in Sorted(es)
    ensures x in es
  {
    InsertRowHas(es[|es| - 1], Sorted(es[..|es| - 1]));
    if x != es[|es| - 1] {
      SortedFrom(es[..|es| - 1], x);
    }
  }
}
