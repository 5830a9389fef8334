/** Sums of a function over a finite set. */
module SetSums {

  ghost function Total<K(!new)>(ids: set<K>, f: K -> int): int {
    if ids == {} then 0
    else
      var w :| w in ids;
      f(w) + Total(ids - {w}, f)
  }

  lemma {:induction false} TotalPick<K(!new)>(ids: set<K>, f: K -> int, w: K)
    requires w in ids
    ensures Total(ids, f) == f(w) + Total(ids - {w}, f)
    decreases ids
  {
    var v :| v in ids && Total(ids, f) == f(v) + Total(ids - {v}, f);
    if v != w {
      TotalPick(ids - {v}, f, w);
      TotalPick(ids - {w}, f, v);
      assert ids - {v} - {w} == ids - {w} - {v};
    }
  }

  lemma {:induction false} TotalSame<K(!new)>(ids: set<K>, f: K -> int, g: K -> int)
    requires forall w <- ids :: f(w) == g(w)
    ensures Total(ids, f) == Total(ids, g)
    decreases ids
  {
    if ids != {} {
      var w :| w in ids;
      TotalPick(ids, f, w);
      TotalPick(ids, g, w);
      TotalSame(ids - {w}, f, g);
    }
  }

  lemma {:induction false} TotalZero<K(!new)>(ids: set<K>, f: K -> int)
    requires forall w <- ids :: f(w) == 0
    ensures Total(ids, f) == 0
    decreases ids
  {
    if ids != {} {
      var w :| w in ids;
      TotalPick(ids, f, w);
      TotalZero(ids - {w}, f);
    }
  }

  lemma {:induction false} TotalAtLeast<K(!new)>(ids: set<K>, f: K -> int)
    requires forall w <- ids :: 0 <= f(w)
    ensures 0 <= Total(ids, f)
    decreases ids
  {
    if ids != {} {
      var w :| w in ids;
      TotalPick(ids, f, w);
      TotalAtLeast(ids - {w}, f);
    }
  }
}
