/** Values indexed by a calendar day, and the stable sort by day that both
    downloaders apply to what they return. Days are day ordinals. */
module DatedSeries {

  /** One observation: a day ordinal and the value recorded for it. */
  datatype Dated<T> = Dated(day: int, value: T)

  /** Ascending by day (ties allowed: a payload may name one day twice). */
  predicate Ascending<T>(s: seq<Dated<T>>) {
    forall i, j :: 0 <= i < j < |s| ==> s[i].day <= s[j].day
  }

  /** Every day of `s` lies in the inclusive window [lo, hi]. */
  predicate WithinWindow<T>(s: seq<Dated<T>>, lo: int, hi: int) {
    forall i :: 0 <= i < |s| ==> lo <= s[i].day <= hi
  }

  /** An element no later than the head can go in front of an ascending series. */
  lemma AscendingCons<T>(a: Dated<T>, t: seq<Dated<T>>)
    requires Ascending(t)
    requires t == [] || a.day <= t[0].day
    ensures Ascending([a] + t)
  {
    var r := [a] + t;
    forall i, j | 0 <= i < j < |r|
      ensures r[i].day <= r[j].day
    {
      if i == 0 {
        assert r[j] == t[j - 1];
      } else {
        assert r[i] == t[i - 1] && r[j] == t[j - 1];
      }
    }
  }

  /** What follows the head of an ascending series is ascending. */
  lemma AscendingTail<T>(s: seq<Dated<T>>)
    requires Ascending(s) && s != []
    ensures Ascending(s[1..])
    ensures |s| > 1 ==> s[0].day <= s[1].day
  {
    var t := s[1..];
    forall i, j | 0 <= i < j < |t|
      ensures t[i].day <= t[j].day
    {
      assert t[i] == s[i + 1] && t[j] == s[j + 1];
    }
  }

  /** The step of `Insert` past the head `s[0]`, given what inserting `x`
      into the tail produced. */
  lemma InsertStep<T>(x: Dated<T>, s: seq<Dated<T>>, rest: seq<Dated<T>>)
    requires Ascending(s) && s != [] && s[0].day < x.day
    requires Ascending(rest) && |rest| == |s|
    requires multiset(rest) == multiset(s[1..]) + multiset{x}
    requires rest[0].day == if s[1..] != [] && s[1..][0].day < x.day then s[1..][0].day else x.day
    ensures Ascending([s[0]] + rest)
    ensures multiset([s[0]] + rest) == multiset(s) + multiset{x}
    ensures ([s[0]] + rest)[0] == s[0]
  {
    AscendingTail(s);
    AscendingCons(s[0], rest);
    assert s == [s[0]] + s[1..];
  }

  /** Inserts `x` in front of the first element whose day is not earlier:
      an element inserted this way stays ahead of later elements of its day. */
  function Insert<T>(x: Dated<T>, s: seq<Dated<T>>): (r: seq<Dated<T>>)
    requires Ascending(s)
    ensures Ascending(r)
    ensures multiset(r) == multiset(s) + multiset{x}
    ensures |r| == |s| + 1
    ensures r[0].day == if s != [] && s[0].day < x.day then s[0].day else x.day
  {
    if s == [] || x.day <= s[0].day then
      AscendingCons(x, s);
      [x] + s
    else
      AscendingTail(s);
      var rest := Insert(x, s[1..]);
      InsertStep(x, s, rest);
      [s[0]] + rest
  }

  /** Insertion puts an element no later than the head in front. */
  lemma InsertAtFront<T>(x: Dated<T>, s: seq<Dated<T>>)
    requires Ascending(s)
    requires s == [] || x.day <= s[0].day
    ensures Insert(x, s) == [x] + s
  {
  }

  /** Stable sort by day, the behaviour of Python's `list.sort(key=...)`. */
  function SortByDay<T>(s: seq<Dated<T>>): (r: seq<Dated<T>>)
    ensures Ascending(r)
    ensures multiset(r) == multiset(s)
    ensures |r| == |s|
  {
    if s == [] then []
    else
      assert s == [s[0]] + s[1..];
      Insert(s[0], SortByDay(s[1..]))
  }

  /** Sorting changes nothing in a series that is already ascending: a
      series written sorted reads back as written. */
  lemma {:induction false} SortAscendingIsIdentity<T>(s: seq<Dated<T>>)
    requires Ascending(s)
    ensures SortByDay(s) == s
  {
    if s != [] {
      AscendingTail(s);
      SortAscendingIsIdentity(s[1..]);
      InsertAtFront(s[0], s[1..]);
      assert s == [s[0]] + s[1..];
    }
  }

  /** The elements of `s` recorded for day `d`, in their order in `s`. */
  function OnDay<T>(s: seq<Dated<T>>, d: int): seq<Dated<T>> {
    if s == [] then []
    else if s[0].day == d then [s[0]] + OnDay(s[1..], d)
    else OnDay(s[1..], d)
  }

  /** The elements of day `d` in `[a] + t`: `a` if it is of that day, then those of `t`. */
  lemma OnDayCons<T>(a: Dated<T>, t: seq<Dated<T>>, d: int)
    ensures a.day == d ==> OnDay([a] + t, d) == [a] + OnDay(t, d)
    ensures a.day != d ==> OnDay([a] + t, d) == OnDay(t, d)
  {
    assert ([a] + t)[1..] == t;
  }

  /** An inserted element goes ahead of every element of its own day, and
      leaves the elements of every other day as they were. */
  lemma {:induction false} InsertOnDay<T>(x: Dated<T>, s: seq<Dated<T>>, d: int)
    requires Ascending(s)
    ensures x.day == d ==> OnDay(Insert(x, s), d) == [x] + OnDay(s, d)
    ensures x.day != d ==> OnDay(Insert(x, s), d) == OnDay(s, d)
  {
    if s == [] || x.day <= s[0].day {
      InsertAtFront(x, s);
      OnDayCons(x, s, d);
    } else {
      AscendingTail(s);
      var tail := s[1..];
      var rest := Insert(x, tail);
      InsertOnDay(x, tail, d);
      assert Insert(x, s) == [s[0]] + rest;
      OnDayCons(s[0], rest, d);
      assert s == [s[0]] + tail;
      OnDayCons(s[0], tail, d);
      if x.day == d {
        assert s[0].day != d;
        assert OnDay(Insert(x, s), d) == OnDay(rest, d) == [x] + OnDay(tail, d);
      }
    }
  }

  /** The sort is stable: the elements of any one day keep their input order. */
  lemma {:induction false} SortByDayStable<T>(s: seq<Dated<T>>, d: int)
    ensures OnDay(SortByDay(s), d) == OnDay(s, d)
  {
    if s != [] {
      SortByDayStable(s[1..], d);
      InsertOnDay(s[0], SortByDay(s[1..]), d);
    }
  }

  /** Sorting keeps exactly the elements it was given. */
  lemma SortKeepsElements<T>(s: seq<Dated<T>>, x: Dated<T>)
    ensures x in SortByDay(s) <==> x in s
  {
    var r := SortByDay(s);
    assert multiset(r) == multiset(s);
    assert x in r <==> x in multiset(r);
    assert x in s <==> x in multiset(s);
  }

  /** Sorting keeps the window: if every input day is in [lo, hi], so is
      every output day. */
  lemma SortKeepsWindow<T>(s: seq<Dated<T>>, lo: int, hi: int)
    requires WithinWindow(s, lo, hi)
    ensures WithinWindow(SortByDay(s), lo, hi)
  {
    var r := SortByDay(s);
    forall i | 0 <= i < |r|
      ensures lo <= r[i].day <= hi
    {
      SortKeepsElements(s, r[i]);
      var k :| 0 <= k < |s| && s[k] == r[i];
    }
  }
}
