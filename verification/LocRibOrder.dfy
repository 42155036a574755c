/** What sorting and reversing after every push does to the order of an entry
    (src/speaker/manager.rs:48-50). */
module LocRibOrders {
  import opened Basics
  import opened Routes
  import opened LocRibs

  /** No two places hold routes that compare equal. */
  ghost predicate AllDiffer(s: seq<Route>) {
    forall i, j | 0 <= i < j < |s| :: Cmp(s[i], s[j]) != Equal
  }

  /** `t` is `s` with `a` put in somewhere. */
  ghost predicate PutInto(s: seq<Route>, a: Route, t: seq<Route>) {
    exists p :: 0 <= p <= |s| && t == s[..p] + [a] + s[p..]
  }

  /** Some `x` stands before some `y`. */
  ghost predicate Before(s: seq<Route>, x: Route, y: Route) {
    exists p, q :: 0 <= p < q < |s| && s[p] == x && s[q] == y
  }

  lemma BeforeShifted(r: Route, s: seq<Route>, x: Route, y: Route)
    ensures Before(s, x, y) ==> Before([r] + s, x, y)
    ensures y in s ==> Before([r] + s, r, y)
  {
    var t := [r] + s;
    if Before(s, x, y) {
      var p, q :| 0 <= p < q < |s| && s[p] == x && s[q] == y;
      assert t[p + 1] == x && t[q + 1] == y;
    }
    if y in s {
      var q :| 0 <= q < |s| && s[q] == y;
      assert t[0] == r && t[q + 1] == y;
    }
  }

  lemma {:induction false} InsertHas(r: Route, s: seq<Route>)
    ensures r in Insert(r, s) && forall x <- s :: x in Insert(r, s)
  {
    hide Cmp;
    if s != [] && Cmp(s[0], r) != Greater {
      InsertHas(r, s[1..]);
    }
  }

  lemma {:induction false} InsertKeepsBefore(r: Route, s: seq<Route>, x: Route, y: Route)
    requires Before(s, x, y)
    ensures Before(Insert(r, s), x, y)
  {
    hide Cmp;
    if s == [] || Cmp(s[0], r) == Greater {
      BeforeShifted(r, s, x, y);
    } else {
      var p, q :| 0 <= p < q < |s| && s[p] == x && s[q] == y;
      var rest := s[1..];
      InsertHas(r, rest);
      assert rest[q - 1] == y;
      if p > 0 {
        assert rest[p - 1] == x;
        InsertKeepsBefore(r, rest, x, y);
      }
      BeforeShifted(s[0], Insert(r, rest), x, y);
    }
  }

  /** An element that is not greater stays in front of what is inserted. */
  lemma {:induction false} InsertedBehind(r: Route, s: seq<Route>, x: Route)
    requires Ascending(s) && x in s && AtMost(x, r)
    ensures Before(Insert(r, s), x, r)
  {
    hide Cmp;
    AscendingTail(s);
    CmpLaws(s[0], s[0], s[0]);
    if Cmp(s[0], r) == Greater {
      CmpLaws(s[0], x, r);
      assert false;
    } else {
      InsertHas(r, s[1..]);
      if x in s[1..] {
        InsertedBehind(r, s[1..], x);
      }
      BeforeShifted(s[0], Insert(r, s[1..]), x, r);
    }
  }

  /** The sort is stable. */
  lemma {:induction false} SortKeepsBefore(s: seq<Route>, i: nat, j: nat)
    requires i < j < |s| && AtMost(s[i], s[j])
    ensures Before(StableSort(s), s[i], s[j])
  {
    hide AtMost, Insert;
    var init, last := s[..|s| - 1], s[|s| - 1];
    StableSortSorts(init);
    if j < |s| - 1 {
      SortKeepsBefore(init, i, j);
      InsertKeepsBefore(last, StableSort(init), s[i], s[j]);
    } else {
      assert s[i] in multiset(init);
      assert s[i] in multiset(StableSort(init));
      InsertedBehind(last, StableSort(init), s[i]);
    }
  }

  lemma ReversedBefore(s: seq<Route>, x: Route, y: Route)
    requires Before(s, x, y)
    ensures Before(Reversed(s), y, x)
  {
    ReversedAt(s);
    var p, q :| 0 <= p < q < |s| && s[p] == x && s[q] == y;
    assert Reversed(s)[|s| - 1 - q] == y && Reversed(s)[|s| - 1 - p] == x;
  }

  /** Routes that compare equal change places. */
  lemma EqualRoutesFlip(s: seq<Route>, a: Route, i: nat, j: nat)
    requires i < j < |s| && Cmp(s[i], s[j]) == Equal
    ensures Before(Resort(s + [a]), s[j], s[i])
  {
    hide Cmp, StableSort, Reversed;
    SortKeepsBefore(s + [a], i, j);
    ReversedBefore(StableSort(s + [a]), s[i], s[j]);
  }

  lemma {:induction false} InsertSplits(r: Route, s: seq<Route>) returns (q: nat)
    ensures q <= |s| && Insert(r, s) == s[..q] + [r] + s[q..]
  {
    hide Cmp;
    if s == [] || Cmp(s[0], r) == Greater {
      q := 0;
    } else {
      q := InsertSplits(r, s[1..]);
      assert [s[0]] + (s[1..][..q] + [r] + s[1..][q..]) == s[..q + 1] + [r] + s[q + 1..];
      q := q + 1;
    }
  }

  lemma {:induction false} ReversedSum(s: seq<Route>, t: seq<Route>)
    ensures Reversed(s + t) == Reversed(t) + Reversed(s)
  {
    if s == [] {
      assert s + t == t;
    } else {
      assert (s + t)[1..] == s[1..] + t;
      ReversedSum(s[1..], t);
    }
  }

  lemma {:induction false} ReversedTwice(s: seq<Route>)
    ensures Reversed(Reversed(s)) == s
  {
    if s != [] {
      ReversedTwice(s[1..]);
      ReversedSum(Reversed(s[1..]), [s[0]]);
      assert [s[0]][1..] == [];
    }
  }

  lemma ReversedOne(r: Route)
    ensures Reversed([r]) == [r]
  {
    assert [r][1..] == [];
  }

  /** What a descending list without equal routes ends with is below the first of the rest turned round. */
  lemma LastIsBelow(s: seq<Route>)
    requires |s| > 1 && Descending(s) && AllDiffer(s)
    ensures var t := Reversed(s[..|s| - 1]); t != [] && Cmp(t[0], s[|s| - 1]) == Greater
  {
    hide Cmp, Reversed;
    var init := s[..|s| - 1];
    ReversedAt(init);
    assert Reversed(init)[0] == s[|s| - 2];
    CmpLaws(s[|s| - 2], s[|s| - 1], s[|s| - 1]);
  }

  /** A list without equal routes, the best first, is sorted by turning it round. */
  lemma {:induction false} SortOfDiffering(s: seq<Route>)
    requires Descending(s) && AllDiffer(s)
    ensures StableSort(s) == Reversed(s)
  {
    hide Cmp, AtMost;
    if s != [] {
      var init, last := s[..|s| - 1], s[|s| - 1];
      assert StableSort(s) == Insert(last, StableSort(init));
      assert forall i | 0 <= i < |init| :: init[i] == s[i];
      SortOfDiffering(init);
      if |s| > 1 {
        LastIsBelow(s);
      }
      assert Insert(last, Reversed(init)) == [last] + Reversed(init);
      hide StableSort, Insert, Reversed;
      ReversedOne(last);
      ReversedSum(init, [last]);
      assert s == init + [last];
    }
  }

  lemma PutBetween(front: seq<Route>, a: Route, back: seq<Route>)
    ensures PutInto(front + back, a, front + [a] + back)
  {
    var s := front + back;
    assert s[..|front|] == front && s[|front|..] == back;
  }

  lemma ReversedBetween(front: seq<Route>, a: Route, back: seq<Route>)
    ensures Reversed(front + [a] + back) == Reversed(back) + [a] + Reversed(front)
  {
    hide Reversed;
    ReversedOne(a);
    ReversedSum(front + [a], back);
    ReversedSum(front, [a]);
    assert Reversed(back) + ([a] + Reversed(front)) == Reversed(back) + [a] + Reversed(front);
  }

  lemma ReversedSplit(s: seq<Route>, a: Route, q: nat)
    requires q <= |s|
    ensures var t := Reversed(s);
            PutInto(s, a, Reversed(t[..q] + [a] + t[q..]))
  {
    hide Reversed, PutInto;
    var t := Reversed(s);
    var front, back := t[..q], t[q..];
    assert t == front + back;
    ReversedTwice(s);
    ReversedSum(front, back);
    ReversedBetween(front, a, back);
    PutBetween(Reversed(back), a, Reversed(front));
  }

  lemma DifferingKeepOrder(s: seq<Route>, a: Route)
    requires Descending(s) && AllDiffer(s)
    ensures PutInto(s, a, Resort(s + [a]))
  {
    hide Insert, Descending, AllDiffer;
    assert (s + [a])[..|s|] == s;
    assert StableSort(s + [a]) == Insert(a, StableSort(s));
    hide StableSort;
    SortOfDiffering(s);
    var q := InsertSplits(a, Reversed(s));
    ReversedSplit(s, a, q);
  }

  lemma KeptOrder(s: seq<Route>, a: Route, i: nat, j: nat)
    requires i < j < |s| && NoDuplicates(s + [a]) && PutInto(s, a, Resort(s + [a]))
    ensures Cmp(s[i], s[j]) != Equal
  {
    hide Cmp, Resort;
    if Cmp(s[i], s[j]) == Equal {
      EqualRoutesFlip(s, a, i, j);
      var t := Resort(s + [a]);
      var p :| 0 <= p <= |s| && t == s[..p] + [a] + s[p..];
      var x, y :| 0 <= x < y < |t| && t[x] == s[j] && t[y] == s[i];
      PlaceOf(s, a, p, t, x, j);
      PlaceOf(s, a, p, t, y, i);
      assert false;
    }
  }

  lemma PlaceOf(s: seq<Route>, a: Route, p: nat, t: seq<Route>, x: nat, j: nat)
    requires p <= |s| && t == s[..p] + [a] + s[p..] && NoDuplicates(s + [a])
    requires x < |t| && j < |s| && t[x] == s[j]
    ensures x == if j < p then j else j + 1
  {
    var u := s + [a];
    assert u[j] == s[j] && u[|s|] == a && t[p] == a;
    assert x != p;
    if x < p {
      assert t[x] == u[x];
    } else {
      assert t[x] == u[x - 1];
    }
  }

  /** A push keeps an entry in order, the new route put in somewhere, when no two of its routes
      compare equal, and, where places can be told apart at all, only then. */
  lemma PushKeepsOrderIff(s: seq<Route>, a: Route)
    requires Descending(s)
    ensures AllDiffer(s) ==> PutInto(s, a, Resort(s + [a]))
    ensures NoDuplicates(s + [a]) ==> (PutInto(s, a, Resort(s + [a])) <==> AllDiffer(s))
  {
    hide Cmp, Resort, Descending, PutInto;
    if AllDiffer(s) {
      DifferingKeepOrder(s, a);
    } else if NoDuplicates(s + [a]) && PutInto(s, a, Resort(s + [a])) {
      var i, j :| 0 <= i < j < |s| && Cmp(s[i], s[j]) == Equal;
      KeptOrder(s, a, i, j);
    }
  }

  lemma ReversedThree(x: Route, y: Route, z: Route)
    ensures Reversed([x, y, z]) == [z, y, x]
  {
    hide Reversed;
    ReversedOne(x);
    ReversedOne(y);
    ReversedOne(z);
    ReversedSum([x], [y]);
    ReversedSum([x, y], [z]);
    assert [x, y, z] == [x, y] + [z] && [x, y] == [x] + [y];
  }

  /** Two equal routes change places whenever a worse one is pushed. */
  lemma EqualPairFlips(x: Route, y: Route, a: Route)
    requires Cmp(x, y) == Equal && Cmp(a, x) == Less
    ensures Resort([x, y] + [a]) == [y, x, a]
  {
    hide Cmp, Reversed;
    CmpLaws(a, x, y);
    CmpLaws(x, y, a);
    CmpLaws(y, a, x);
    assert StableSort([x]) == Insert(x, []) by {
      assert [x][..0] == [];
    }
    assert StableSort([x, y]) == Insert(y, StableSort([x])) by {
      assert [x, y][..1] == [x];
    }
    assert StableSort([x, y, a]) == Insert(a, StableSort([x, y])) by {
      assert [x, y, a][..2] == [x, y];
    }
    hide StableSort;
    assert Insert(x, []) == [x] && Insert(y, []) == [y];
    assert [x][1..] == [];
    assert Insert(y, [x]) == [x] + Insert(y, []) == [x, y];
    assert Insert(a, [x, y]) == [a] + [x, y] == [a, x, y];
    assert [x, y] + [a] == [x, y, a];
    ReversedThree(a, x, y);
  }
}
