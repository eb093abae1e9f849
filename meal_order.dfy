/** The order of a day's meals. Every place that touches a day's list sorts
    it with Python's stable `list.sort(key=lambda x: x["zeit"])`; that sort is
    modelled by `SortByZeit`, an insertion sort that puts each meal after the
    meals already placed whose time is not later. Times are "HH:MM" strings
    compared as Python compares `str` values. */
module MealOrder {
  import opened Text
  import opened Model

  predicate SortedByZeit(s: seq<Meal>) {
    forall i, j :: 0 <= i < j < |s| ==> Le(s[i].zeit, s[j].zeit)
  }

  /** The meals of `s` whose time is `t`, in their order in `s`. A sort is
      stable when it keeps this subsequence for every `t`. */
  function WithZeit(s: seq<Meal>, t: string): seq<Meal> {
    if s == [] then [] else (if s[0].zeit == t then [s[0]] else []) + WithZeit(s[1..], t)
  }

  /** `x` inserted into the sorted `s` after every meal whose time is not
      later than `x`'s. */
  function InsertByZeit(s: seq<Meal>, x: Meal): seq<Meal> {
    if s == [] then [x]
    else if Lt(x.zeit, s[0].zeit) then [x] + s
    else [s[0]] + InsertByZeit(s[1..], x)
  }

  /** The list as Python's stable sort by `zeit` leaves it. */
  function SortByZeit(s: seq<Meal>): seq<Meal> {
    if s == [] then [] else InsertByZeit(SortByZeit(s[..|s| - 1]), s[|s| - 1])
  }

  /** Where `InsertByZeit` puts `x`. */
  function InsertionPoint(s: seq<Meal>, x: Meal): (k: nat)
    ensures k <= |s|
  {
    if s == [] || Lt(x.zeit, s[0].zeit) then 0 else 1 + InsertionPoint(s[1..], x)
  }

  /** `InsertByZeit(s, x)` splits `s` at the insertion point: every meal
      before `x` has a time not later than `x`'s, and, when `s` is sorted,
      every meal after it a strictly later time. */
  lemma InsertAt(s: seq<Meal>, x: Meal)
    ensures InsertByZeit(s, x) == s[..InsertionPoint(s, x)] + [x] + s[InsertionPoint(s, x)..]
    ensures forall i :: 0 <= i < InsertionPoint(s, x) ==> Le(s[i].zeit, x.zeit)
    ensures SortedByZeit(s) ==> forall i :: InsertionPoint(s, x) <= i < |s| ==> Lt(x.zeit, s[i].zeit)
  {
    InsertShape(s, x);
    InsertAfterNotLater(s, x);
    if SortedByZeit(s) {
      InsertBeforeLater(s, x);
    }
  }

  lemma {:induction false} InsertShape(s: seq<Meal>, x: Meal)
    ensures InsertByZeit(s, x) == s[..InsertionPoint(s, x)] + [x] + s[InsertionPoint(s, x)..]
  {
    if s != [] && !Lt(x.zeit, s[0].zeit) {
      var t := s[1..];
      InsertShape(t, x);
      var k := InsertionPoint(t, x);
      assert s[..k + 1] == [s[0]] + t[..k];
      assert s[k + 1..] == t[k..];
    }
  }

  lemma {:induction false} InsertAfterNotLater(s: seq<Meal>, x: Meal)
    ensures forall i :: 0 <= i < InsertionPoint(s, x) ==> Le(s[i].zeit, x.zeit)
  {
    if s != [] && !Lt(x.zeit, s[0].zeit) {
      InsertAfterNotLater(s[1..], x);
    }
  }

  lemma {:induction false} InsertBeforeLater(s: seq<Meal>, x: Meal)
    requires SortedByZeit(s)
    ensures forall i :: InsertionPoint(s, x) <= i < |s| ==> Lt(x.zeit, s[i].zeit)
  {
    if s == [] {
    } else if Lt(x.zeit, s[0].zeit) {
      forall i | 0 <= i < |s|
        ensures Lt(x.zeit, s[i].zeit)
      {
        if i > 0 {
          LtLeTransitive(x.zeit, s[0].zeit, s[i].zeit);
        }
      }
    } else {
      InsertBeforeLater(s[1..], x);
    }
  }

  /** Inserting into a sorted list keeps it sorted and adds exactly `x`. */
  lemma InsertKeepsSorted(s: seq<Meal>, x: Meal)
    requires SortedByZeit(s)
    ensures SortedByZeit(InsertByZeit(s, x))
    ensures multiset(InsertByZeit(s, x)) == multiset(s) + multiset{x}
  {
    InsertSorted(s, x);
    InsertMultiset(s, x);
  }

  /** Position by position, the insertion is `s` up to the insertion point,
      then `x`, then the rest of `s`. */
  lemma InsertElements(s: seq<Meal>, x: Meal)
    ensures |InsertByZeit(s, x)| == |s| + 1
    ensures InsertByZeit(s, x)[InsertionPoint(s, x)] == x
    ensures forall i :: 0 <= i < InsertionPoint(s, x) ==> InsertByZeit(s, x)[i] == s[i]
    ensures forall i :: InsertionPoint(s, x) < i <= |s| ==> InsertByZeit(s, x)[i] == s[i - 1]
  {
    InsertShape(s, x);
  }

  lemma InsertSorted(s: seq<Meal>, x: Meal)
    requires SortedByZeit(s)
    ensures SortedByZeit(InsertByZeit(s, x))
  {
    InsertElements(s, x);
    InsertAfterNotLater(s, x);
    InsertBeforeLater(s, x);
    var k := InsertionPoint(s, x);
    var r := InsertByZeit(s, x);
    forall i, j | 0 <= i < j < |r|
      ensures Le(r[i].zeit, r[j].zeit)
    {
      if j == k {
      } else if i == k {
        LtIsStrict(x.zeit, s[j - 1].zeit);
      } else if i < k < j {
        assert r[i] == s[i] && r[j] == s[j - 1];
      }
    }
  }

  lemma InsertMultiset(s: seq<Meal>, x: Meal)
    ensures multiset(InsertByZeit(s, x)) == multiset(s) + multiset{x}
  {
    InsertShape(s, x);
    var k := InsertionPoint(s, x);
    assert s == s[..k] + s[k..];
  }

  lemma {:induction false} WithZeitConcat(a: seq<Meal>, b: seq<Meal>, t: string)
    ensures WithZeit(a + b, t) == WithZeit(a, t) + WithZeit(b, t)
  {
    if a == [] {
      assert a + b == b;
    } else {
      var h := if a[0].zeit == t then [a[0]] else [];
      assert (a + b)[0] == a[0] && (a + b)[1..] == a[1..] + b;
      assert WithZeit(a + b, t) == h + WithZeit(a[1..] + b, t);
      WithZeitConcat(a[1..], b, t);
      AppendAssociative(h, WithZeit(a[1..], t), WithZeit(b, t));
    }
  }

  lemma {:induction false} WithZeitNone(s: seq<Meal>, t: string)
    requires forall i :: 0 <= i < |s| ==> s[i].zeit != t
    ensures WithZeit(s, t) == []
  {
    if s != [] {
      WithZeitNone(s[1..], t);
    }
  }

  lemma {:induction false} WithZeitMember(s: seq<Meal>, t: string, m: Meal)
    requires m in WithZeit(s, t)
    ensures m in s && m.zeit == t
  {
    if s[0] != m || s[0].zeit != t {
      WithZeitMember(s[1..], t, m);
    }
  }

  lemma WithZeitOfHead(s: seq<Meal>)
    ensures s != [] ==> WithZeit(s, s[0].zeit) != []
  {
  }

  /** Insertion puts `x` after every meal of the same time. */
  lemma InsertIsStable(s: seq<Meal>, x: Meal, t: string)
    requires SortedByZeit(s)
    ensures WithZeit(InsertByZeit(s, x), t) == WithZeit(s, t) + (if x.zeit == t then [x] else [])
  {
    InsertShape(s, x);
    var k := InsertionPoint(s, x);
    var a, b := s[..k], s[k..];
    WithZeitAround(a, x, b, t);
    assert s == a + b;
    WithZeitConcat(a, b, t);
    if x.zeit == t {
      InsertBeforeLater(s, x);
      LaterHaveOtherTimes(s, k, x);
      WithZeitNone(b, t);
    }
  }

  lemma WithZeitAround(a: seq<Meal>, x: Meal, b: seq<Meal>, t: string)
    ensures WithZeit(a + [x] + b, t) == WithZeit(a, t) + (if x.zeit == t then [x] else []) + WithZeit(b, t)
  {
    WithZeitConcat(a + [x], b, t);
    WithZeitConcat(a, [x], t);
    assert [x][1..] == [];
  }

  lemma LaterHaveOtherTimes(s: seq<Meal>, k: nat, x: Meal)
    requires k <= |s|
    requires forall i :: k <= i < |s| ==> Lt(x.zeit, s[i].zeit)
    ensures forall i :: 0 <= i < |s[k..]| ==> s[k..][i].zeit != x.zeit
  {
    forall i | 0 <= i < |s[k..]|
      ensures s[k..][i].zeit != x.zeit
    {
      LtIsStrict(x.zeit, s[k + i].zeit);
    }
  }

  /** `SortByZeit` sorts, permutes, and is stable. */
  lemma SortByZeitCorrect(s: seq<Meal>)
    ensures SortedByZeit(SortByZeit(s))
    ensures multiset(SortByZeit(s)) == multiset(s)
    ensures |SortByZeit(s)| == |s|
    ensures forall t :: WithZeit(SortByZeit(s), t) == WithZeit(s, t)
  {
    SortByZeitSorts(s);
    SortByZeitStable(s);
  }

  lemma {:induction false} SortByZeitSorts(s: seq<Meal>)
    ensures SortedByZeit(SortByZeit(s))
    ensures multiset(SortByZeit(s)) == multiset(s)
    ensures |SortByZeit(s)| == |s|
  {
    if s != [] {
      var p, x := s[..|s| - 1], s[|s| - 1];
      assert s == p + [x];
      SortByZeitSorts(p);
      InsertKeepsSorted(SortByZeit(p), x);
      assert |multiset(SortByZeit(s))| == |multiset(s)|;
    }
  }

  lemma {:induction false} SortByZeitStable(s: seq<Meal>)
    ensures forall t :: WithZeit(SortByZeit(s), t) == WithZeit(s, t)
  {
    if s != [] {
      var p, x := s[..|s| - 1], s[|s| - 1];
      assert s == p + [x];
      SortByZeitStable(p);
      SortByZeitSorts(p);
      forall t
        ensures WithZeit(SortByZeit(s), t) == WithZeit(s, t)
      {
        InsertIsStable(SortByZeit(p), x, t);
        WithZeitConcat(p, [x], t);
      }
    }
  }

  /** A list that is already sorted is left as it is. */
  lemma {:induction false} SortedIsFixpoint(s: seq<Meal>)
    requires SortedByZeit(s)
    ensures SortByZeit(s) == s
  {
    if s != [] {
      var p, x := s[..|s| - 1], s[|s| - 1];
      assert SortedByZeit(p);
      SortedIsFixpoint(p);
      InsertAt(p, x);
      assert forall i :: 0 <= i < |p| ==> p[i] == s[i] && Le(p[i].zeit, x.zeit);
      assert InsertionPoint(p, x) == |p|;
      assert s == p + [x];
    }
  }

  /** A sorted list is determined by its per-time subsequences: any sorted
      list that keeps the order of equal times of `s` is `SortByZeit(s)`.
      So `SortByZeit` is the one result a stable sort can have. */
  lemma {:induction false} StableSortIsUnique(a: seq<Meal>, b: seq<Meal>)
    requires SortedByZeit(a) && SortedByZeit(b)
    requires forall t :: WithZeit(a, t) == WithZeit(b, t)
    ensures a == b
    decreases |a|
  {
    WithZeitOfHead(a);
    WithZeitOfHead(b);
    if a == [] || b == [] {
      if a != [] || b != [] {
        assert false;
      }
    } else {
      var ta, tb := a[0].zeit, b[0].zeit;
      assert b[0] in WithZeit(b, tb);
      WithZeitMember(a, tb, b[0]);
      assert a[0] in WithZeit(a, ta);
      WithZeitMember(b, ta, a[0]);
      LeReflexive(ta);
      LeReflexive(tb);
      assert Le(ta, tb) && Le(tb, ta);
      LeAntisymmetric(ta, tb);
      assert ta == tb;
      assert WithZeit(a, ta) == [a[0]] + WithZeit(a[1..], ta);
      assert WithZeit(b, ta) == [b[0]] + WithZeit(b[1..], ta);
      assert a[0] == WithZeit(a, ta)[0] == WithZeit(b, ta)[0] == b[0];
      forall t
        ensures WithZeit(a[1..], t) == WithZeit(b[1..], t)
      {
        if ta == t {
          assert WithZeit(a[1..], t) == WithZeit(a, t)[1..];
          assert WithZeit(b[1..], t) == WithZeit(b, t)[1..];
        } else {
          assert WithZeit(a[1..], t) == WithZeit(a, t);
          assert WithZeit(b[1..], t) == WithZeit(b, t);
        }
      }
      StableSortIsUnique(a[1..], b[1..]);
      assert a == [a[0]] + a[1..] && b == [b[0]] + b[1..];
    }
  }

  /** The result of any stable sort of `s` by time is `SortByZeit(s)`. */
  lemma StableSortIsSortByZeit(s: seq<Meal>, r: seq<Meal>)
    requires SortedByZeit(r)
    requires forall t :: WithZeit(r, t) == WithZeit(s, t)
    ensures r == SortByZeit(s)
  {
    SortByZeitCorrect(s);
    StableSortIsUnique(r, SortByZeit(s));
  }

  /** Appending to a sorted list and sorting again puts the new meal after
      every meal whose time is not later and before every later one. */
  lemma AppendThenSort(s: seq<Meal>, x: Meal)
    requires SortedByZeit(s)
    ensures SortByZeit(s + [x]) == InsertByZeit(s, x)
    ensures SortByZeit(s + [x]) == s[..InsertionPoint(s, x)] + [x] + s[InsertionPoint(s, x)..]
    ensures forall i :: 0 <= i < InsertionPoint(s, x) ==> Le(s[i].zeit, x.zeit)
    ensures forall i :: InsertionPoint(s, x) <= i < |s| ==> Lt(x.zeit, s[i].zeit)
  {
    assert (s + [x])[..|s|] == s;
    SortedIsFixpoint(s);
    InsertAt(s, x);
  }

  // Times of day as the time widget yields them and `strftime("%H:%M")`
  // formats them.

  type Hour = h: int | 0 <= h < 24
  type Minute = m: int | 0 <= m < 60

  datatype TimeOfDay = TimeOfDay(hour: Hour, minute: Minute)

  function Minutes(t: TimeOfDay): int {
    t.hour * 60 + t.minute
  }

  function Digit(d: int): char
    requires 0 <= d < 10
  {
    ('0' as int + d) as char
  }

  /** `t.strftime("%H:%M")`. */
  function FormatZeit(t: TimeOfDay): (s: string)
    ensures |s| == 5 && s[2] == ':'
  {
    [Digit(t.hour / 10), Digit(t.hour % 10), ':', Digit(t.minute / 10), Digit(t.minute % 10)]
  }

  /** The times of the migration's slot table are what the time widget
      gives for those hours, so migrated and newly added meals at the same
      hour have equal `zeit` strings and keep their order when sorted. */
  lemma FormatZeitSlotTimes()
    ensures FormatZeit(TimeOfDay(8, 0)) == "08:00"
    ensures FormatZeit(TimeOfDay(12, 0)) == "12:00"
    ensures FormatZeit(TimeOfDay(15, 0)) == "15:00"
    ensures FormatZeit(TimeOfDay(18, 0)) == "18:00"
  {
  }

  /** Comparing two formatted times as strings is comparing them in time,
      which is why sorting the meals by their `zeit` string sorts them
      chronologically. */
  lemma FormatZeitOrder(a: TimeOfDay, b: TimeOfDay)
    ensures Le(FormatZeit(a), FormatZeit(b)) <==> Minutes(a) <= Minutes(b)
  {
    var a1, a2, a3, a4 := a.hour / 10, a.hour % 10, a.minute / 10, a.minute % 10;
    var b1, b2, b3, b4 := b.hour / 10, b.hour % 10, b.minute / 10, b.minute % 10;
    assert Minutes(a) == 600 * a1 + 60 * a2 + 10 * a3 + a4;
    assert Minutes(b) == 600 * b1 + 60 * b2 + 10 * b3 + b4;
    assert 0 <= a2 < 10 && 0 <= a3 < 6 && 0 <= a4 < 10;
    assert 0 <= b2 < 10 && 0 <= b3 < 6 && 0 <= b4 < 10;
    var x4, y4 := [Digit(a4)], [Digit(b4)];
    var x3, y3 := [Digit(a3)] + x4, [Digit(b3)] + y4;
    var x2, y2 := [':'] + x3, [':'] + y3;
    var x1, y1 := [Digit(a2)] + x2, [Digit(b2)] + y2;
    assert FormatZeit(a) == [Digit(a1)] + x1 && FormatZeit(b) == [Digit(b1)] + y1;
    LeCons(Digit(a1), x1, Digit(b1), y1);
    LeCons(Digit(a2), x2, Digit(b2), y2);
    LeCons(':', x3, ':', y3);
    LeCons(Digit(a3), x4, Digit(b3), y4);
    LeCons(Digit(a4), [], Digit(b4), []);
    var lex := if a1 != b1 then a1 < b1
               else if a2 != b2 then a2 < b2
               else if a3 != b3 then a3 < b3
               else a4 <= b4;
    assert Le(FormatZeit(a), FormatZeit(b)) == lex;
  }

  lemma LeCons(c: char, u: string, d: char, v: string)
    ensures Le([c] + u, [d] + v) == if c != d then c < d else Le(u, v)
  {
    assert ([c] + u)[1..] == u && ([d] + v)[1..] == v;
  }

  /** Different times format differently. */
  lemma FormatZeitInjective(a: TimeOfDay, b: TimeOfDay)
    requires FormatZeit(a) == FormatZeit(b)
    ensures a == b
  {
    LeReflexive(FormatZeit(a));
    FormatZeitOrder(a, b);
    FormatZeitOrder(b, a);
  }
}
