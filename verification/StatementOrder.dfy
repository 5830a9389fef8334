/** The statement lists entries by the time their transactions began; the running balance grows by
    entry id. When the two agree, and a schedule in which they do not. */
module StatementOrder {
  import opened Tables
  import opened Ledger
  import opened Atomic
  import opened Interleaving
  import opened Reachability
  import opened Guarantees
  import opened Solo
  import opened Schedules
  import opened Statement
  import opened StatementRuns

  function Reversed(c: seq<Entry>): (r: seq<Entry>)
    ensures |r| == |c| && forall k :: 0 <= k < |c| ==> r[k] == c[|c| - 1 - k]
  {
    if c == [] then [] else [c[|c| - 1]] + Reversed(c[..|c| - 1])
  }

  /** created_at never decreases along the entry ids. */
  predicate InTimeOrder(c: seq<Entry>) {
    forall i, j :: 0 <= i < j < |c| ==> c[i].at <= c[j].at
  }

  /** The balance that the next row down shows; zero under the last one. */
  function BalanceUnder(rows: seq<Entry>, k: nat): int
    requires k < |rows|
  {
    if k + 1 < |rows| then rows[k + 1].balanceAfter else 0
  }

  /** Read from the newest row down, each balance_after is the next row's plus the amount. */
  predicate RunsDown(rows: seq<Entry>) {
    forall k {:trigger BalanceUnder(rows, k)} :: 0 <= k < |rows| ==>
      rows[k].balanceAfter == BalanceUnder(rows, k) + rows[k].amount
  }

  lemma {:induction false} TimedIsReversed(c: seq<Entry>)
    requires AscendingIds(c) && InTimeOrder(c)
    ensures Sorted(c) == Reversed(c)
  {
    if |c| > 1 {
      var n := |c| - 1;
      TimedIsReversed(c[..n]);
      assert Reversed(c[..n])[0] == c[n - 1];
      assert Less(KeyOf(c[n - 1]), KeyOf(c[n]));
    }
  }

  /** The statement lists a wallet's entries in reverse id order exactly when created_at never decreases
      along the ids. */
  lemma StatementIsReversed(c: seq<Entry>)
    requires AscendingIds(c)
    ensures Sorted(c) == Reversed(c) <==> InTimeOrder(c)
  {
    if InTimeOrder(c) {
      TimedIsReversed(c);
    } else if Sorted(c) == Reversed(c) {
      SortedIsOrdered(c);
      forall i, j | 0 <= i < j < |c| ensures c[i].at <= c[j].at {
        assert Less(KeyOf(Reversed(c)[|c| - 1 - i]), KeyOf(Reversed(c)[|c| - 1 - j]));
      }
    }
  }

  lemma ReversedRunsDown(c: seq<Entry>)
    requires Running(c)
    ensures RunsDown(Reversed(c))
  {
    var rows := Reversed(c);
    forall k | 0 <= k < |rows| ensures rows[k].balanceAfter == BalanceUnder(rows, k) + rows[k].amount {
      var i := |c| - 1 - k;
      assert rows[k] == c[i] && c[i].balanceAfter == BalanceBefore(c, i) + c[i].amount;
      assert i > 0 ==> rows[k + 1] == c[i - 1];
    }
  }

  // --- exactly when the balance column runs --------------------------------------------

  /** The wallet never had the same balance twice, counting the zero it started from. */
  predicate DistinctBalances(c: seq<Entry>) {
    forall i, j :: 0 <= i < j <= |c| ==> BalanceBefore(c, i) != BalanceBefore(c, j)
  }

  /** With distinct balances a row can only stand on the row that was written before it. */
  lemma OnePlace(c: seq<Entry>, e: Entry, m: nat)
    requires Running(c) && DistinctBalances(c) && e in c && m < |c|
    requires e.balanceAfter - e.amount == BalanceBefore(c, m)
    ensures e == c[m]
  {
    var i :| 0 <= i < |c| && c[i] == e;
    assert c[i].balanceAfter == BalanceBefore(c, i) + c[i].amount;
    assert BalanceBefore(c, i) == BalanceBefore(c, m);
  }

  /** From the bottom row up, a column that runs lists the entries in the order they were written. */
  lemma {:induction false} RunningPlaces(c: seq<Entry>, rows: seq<Entry>, m: nat)
    requires Running(c) && DistinctBalances(c) && RunsDown(rows) && |rows| == |c| && m < |c|
    requires forall k :: 0 <= k < |rows| ==> rows[k] in c
    ensures rows[|rows| - 1 - m] == c[m]
  {
    var r := |rows| - 1 - m;
    var row := rows[r];
    assert row in c;
    if m > 0 {
      RunningPlaces(c, rows, m - 1);
      assert rows[r + 1] == c[m - 1];
    }
    assert row.balanceAfter == BalanceUnder(rows, r) + row.amount;
    OnePlace(c, row, m);
  }

  /** For a wallet that never had the same balance twice, the balance column of its statement runs, row
      by row down to zero, exactly when created_at never decreases along the entry ids. */
  lemma ColumnRuns(c: seq<Entry>)
    requires AscendingIds(c) && Running(c)
    ensures InTimeOrder(c) ==> RunsDown(Sorted(c))
    ensures DistinctBalances(c) ==> (RunsDown(Sorted(c)) <==> InTimeOrder(c))
  {
    StatementIsReversed(c);
    ReversedRunsDown(c);
    if DistinctBalances(c) && RunsDown(Sorted(c)) {
      SortedIsOrdered(c);
      var rows := Sorted(c);
      assert forall k :: 0 <= k < |rows| ==> rows[k] in c;
      forall m | 0 <= m < |c| ensures rows[|rows| - 1 - m] == c[m] {
        RunningPlaces(c, rows, m);
      }
      assert forall k :: 0 <= k < |rows| ==> rows[k] == rows[|rows| - 1 - (|c| - 1 - k)];
      assert rows == Reversed(c);
    }
  }

  /** This holds for every wallet of every reachable state. */
  lemma StatementRunsDown(es: seq<Event>, w: WalletId)
    requires Exec(es, true).Some? && w in Exec(es, true).value.store.wallets
    ensures var c := OfOne(Exec(es, true).value.store.entries, w);
            && (InTimeOrder(c) ==> RunsDown(Sorted(c)))
            && (DistinctBalances(c) ==> (RunsDown(Sorted(c)) <==> InTimeOrder(c)))
  {
    AlwaysChained(es, w);
    ColumnRuns(OfOne(Exec(es, true).value.store.entries, w));
  }

  /** Balances 100, 0, 50, 0 by id. Listed with the second pair first, the column runs all the same, so
      the condition on the balances is needed. */
  lemma CoincidenceRuns() returns (c: seq<Entry>)
    ensures AscendingIds(c) && Running(c) && !InTimeOrder(c) && !DistinctBalances(c) && RunsDown(Sorted(c))
  {
    var a, b := Entry(1, 1, 2, 100, 100, 1), Entry(2, 2, 2, -100, 0, 1);
    var x, y := Entry(3, 3, 2, 50, 50, 0), Entry(4, 4, 2, -50, 0, 0);
    c := [a, b, x, y];
    assert BalanceBefore(c, 0) == BalanceBefore(c, 2);
    assert Sorted([]) == [];
    assert [a][..0] == [] && Sorted([a]) == [a];
    assert [a, b][..1] == [a] && Sorted([a, b]) == [b, a];
    assert [a, b, x][..2] == [a, b] && InsertRow(x, [b, a]) == [b] + InsertRow(x, [a]);
    assert Sorted([a, b, x]) == [b, a, x];
    assert c[..3] == [a, b, x];
    PlaceThird(a, b, x, y);
  }

  lemma PlaceThird(a: Entry, b: Entry, x: Entry, y: Entry)
    requires Less(KeyOf(y), KeyOf(a)) && Less(KeyOf(y), KeyOf(b)) && Less(KeyOf(x), KeyOf(y))
    ensures InsertRow(y, [b, a, x]) == [b, a, y, x]
  {
    assert [b, a, x][1..] == [a, x] && [a, x][1..] == [x];
    assert InsertRow(y, [x]) == [y, x];
    assert InsertRow(y, [a, x]) == [a, y, x];
  }

  // --- a statement out of order ------------------------------------------------------

  lemma Ticking(es: seq<Event>, s: State, now: int) returns (es': seq<Event>, s': State)
    requires Leads(es, true, s) && AllAtRest(s) && s.clock <= now
    ensures Leads(es', true, s') && AllAtRest(s') && s' == s.(clock := now)
  {
    es', s' := es + [Tick(now)], Do(s, Tick(now), true);
    assert es'[..|es|] == es;
  }

  const EARLY: Call := Send(1, 2, 100, None)
  const LATE: Call := Send(1, 2, 200, None)

  /** One transfer begins; the clock moves; another begins. */
  lemma TwoStarts() returns (es: seq<Event>, s: State, i: nat)
    ensures Leads(es, true, s) && AllAtRest(s) && TwoFunded(s.store) && |s.actors| == i + 2
    ensures forall j :: i <= j < i + 2 ==>
              s.actors[j].pc == Lookup && s.actors[j].savepoint == NOTHING && s.actors[j].cache == map[]
    ensures s.actors[i].call == EARLY && s.actors[i + 1].call == LATE
    ensures s.actors[i].x.ids.at == 0 && s.actors[i + 1].x.ids.at == 1
  {
    var es0, s0 := TwoUsers(true);
    i := |s0.actors|;
    var es1, s1 := Entering(es0, true, s0, EARLY, map[]);
    var es2, s2 := Ticking(es1, s1, s1.clock + 1);
    es, s := Entering(es2, true, s2, LATE, map[]);
  }

  /** The later transfer commits first. */
  lemma LateFirst() returns (es: seq<Event>, s: State, before: seq<Entry>)
    ensures Leads(es, true, s) && |s.store.entries| == |before| + 4 && before <= s.store.entries
    ensures var e, n := s.store.entries, |before|;
            && e[n].wallet == e[n + 2].wallet == 2 && e[n + 1].wallet == e[n + 3].wallet == 3
            && e[n].amount == -200 && e[n].balanceAfter == GRANT - 200
            && e[n + 2].amount == -100 && e[n + 2].balanceAfter == GRANT - 300
            && e[n].at == 1 && e[n + 2].at == 0 && (forall x <- before :: x.at == 0)
  {
    var es0, s0, i := TwoStarts();
    var es1, s1 := Sending(es0, true, s0, i + 1, GRANT, GRANT);
    es, s := Sending(es1, true, s1, i, GRANT - 200, GRANT + 200);
    before := s0.store.entries;
  }

  lemma MaxFirst(rows: seq<Entry>, m: Entry)
    requires Descending(rows) && m in rows
    requires forall x <- rows :: x == m || Less(KeyOf(x), KeyOf(m))
    ensures rows[0] == m
  {
    var p :| 0 <= p < |rows| && rows[p] == m;
    assert rows[0] in rows;
    assert p > 0 ==> Less(KeyOf(rows[p]), KeyOf(rows[0]));
  }

  lemma TopRows(c: seq<Entry>, top: Entry, next: Entry)
    requires AscendingIds(c) && top in c && next in c && top != next
    requires forall x <- c :: x == top || x == next || (x.at <= next.at && x.id < next.id)
    requires next.at < top.at
    ensures |Sorted(c)| >= 2 && Sorted(c)[0] == top && Sorted(c)[1] == next
  {
    SortedIsOrdered(c);
    var rows := Sorted(c);
    MaxFirst(rows, top);
    assert rows == [top] + rows[1..];
    assert Descending(rows[1..]);
    assert forall x <- rows[1..] :: x in rows && x != top by {
      assert forall k :: 1 <= k < |rows| ==> Less(KeyOf(rows[k]), KeyOf(rows[0]));
    }
    MaxFirst(rows[1..], next);
  }

  lemma LateOnTop(e: seq<Entry>, n: nat)
    requires |e| == n + 4 && IdOrdered(e) && e[n].at == 1 && e[n + 2].at == 0
    requires e[n].wallet == e[n + 2].wallet == 2 && e[n + 1].wallet == e[n + 3].wallet == 3
    requires forall k :: 0 <= k < n ==> e[k].at == 0
    ensures var rows := Sorted(OfOne(e, 2)); |rows| >= 2 && rows[0] == e[n] && rows[1] == e[n + 2]
  {
    var c := OfOne(e, 2);
    OfOneOrdered(e, 2);
    OfOneHas(e, 2, e[n]);
    OfOneHas(e, 2, e[n + 2]);
    forall x <- c | x != e[n] && x != e[n + 2] ensures x.at <= e[n + 2].at && x.id < e[n + 2].id {
      OfOneHas(e, 2, x);
      var k :| 0 <= k < |e| && e[k] == x;
      assert k < n;
    }
    TopRows(c, e[n], e[n + 2]);
  }

  /** A reachable state in which a statement's balance column does not run: the row of the transfer that
      began last stands on top although the other one was written after it. */
  lemma StatementOutOfOrder() returns (es: seq<Event>, s: State)
    ensures Exec(es, true) == Some(s) && 2 in s.store.wallets
    ensures !RunsDown(Sorted(OfOne(s.store.entries, 2)))
  {
    var before;
    es, s, before := LateFirst();
    ReachableInv(es);
    assert LedgerInv(s.store);
    var e, n := s.store.entries, |before|;
    assert forall k :: 0 <= k < n ==> e[k] == before[k];
    LateOnTop(e, n);
    assert BalanceUnder(Sorted(OfOne(e, 2)), 0) == e[n + 2].balanceAfter;
    assert s.store.entries[n].wallet in s.store.wallets;
  }
}
