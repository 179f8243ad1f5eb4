/**
 * Ordering the rate history by date. The service sorts with a stable
 * library sort keyed on the date; here that sort is an insertion sort proved
 * sorted, a permutation of its input and stable, and any two sorts with those
 * properties are proved to agree, so it stands for the library's result.
 */
module Ordering {
  import opened Entities

  predicate SortedByDate(s: seq<Observation>)
  {
    forall i, j :: 0 <= i < j < |s| ==> s[i].date <= s[j].date
  }

  /** The observations of s dated d, in the order they have in s. */
  function OnDate(s: seq<Observation>, d: int): (r: seq<Observation>)
  {
    if s == [] then []
    else (if s[0].date == d then [s[0]] else []) + OnDate(s[1..], d)
  }

  /** Inserts x before the first element that is not earlier than x. */
  function Insert(x: Observation, s: seq<Observation>): (r: seq<Observation>)
    ensures multiset(r) == multiset(s) + multiset{x}
    ensures |r| == |s| + 1
  {
    if s == [] || x.date <= s[0].date then [x] + s
    else
      assert s == [s[0]] + s[1..];
      [s[0]] + Insert(x, s[1..])
  }

  lemma {:induction false} InsertSorted(x: Observation, s: seq<Observation>)
    requires SortedByDate(s)
    ensures SortedByDate(Insert(x, s))
  {
    if s != [] && s[0].date < x.date {
      var t := Insert(x, s[1..]);
      InsertSorted(x, s[1..]);
      forall k | 0 <= k < |t| ensures s[0].date <= t[k].date {
        assert t[k] in multiset(t);
        assert t[k] == x || t[k] in multiset(s[1..]);
        if t[k] != x {
          var m :| 0 <= m < |s[1..]| && s[1..][m] == t[k];
          assert s[m + 1] == t[k];
        }
      }
    }
  }

  /** Inserting x adds x in front of the other observations dated like x. */
  lemma {:induction false} InsertOnDate(x: Observation, s: seq<Observation>, d: int)
    ensures OnDate(Insert(x, s), d) == (if x.date == d then [x] else []) + OnDate(s, d)
  {
    var r := Insert(x, s);
    var mine := if x.date == d then [x] else [];
    if s == [] || x.date <= s[0].date {
      assert r == [x] + s && r[0] == x && r[1..] == s;
    } else {
      var head := if s[0].date == d then [s[0]] else [];
      assert r[0] == s[0] && r[1..] == Insert(x, s[1..]);
      assert OnDate(r, d) == head + OnDate(r[1..], d);
      InsertOnDate(x, s[1..], d);
      assert OnDate(s, d) == head + OnDate(s[1..], d);
      assert x.date == d ==> head == [];
      assert x.date != d ==> mine == [];
    }
  }

  /** A stable sort of the history by ascending date. */
  function SortByDate(s: seq<Observation>): (r: seq<Observation>)
    ensures SortedByDate(r)
    ensures multiset(r) == multiset(s)
    ensures |r| == |s|
  {
    if s == [] then []
    else
      var t := SortByDate(s[1..]);
      InsertSorted(s[0], t);
      assert s == [s[0]] + s[1..];
      Insert(s[0], t)
  }

  /** Observations with the same date keep their relative order. */
  lemma {:induction false} SortByDateStable(s: seq<Observation>, d: int)
    ensures OnDate(SortByDate(s), d) == OnDate(s, d)
  {
    if s != [] {
      SortByDateStable(s[1..], d);
      InsertOnDate(s[0], SortByDate(s[1..]), d);
    }
  }

  /** Two date-sorted sequences that agree on every date's subsequence are equal. */
  lemma {:induction false} StableSortUnique(a: seq<Observation>, b: seq<Observation>)
    requires SortedByDate(a) && SortedByDate(b)
    requires forall d :: OnDate(a, d) == OnDate(b, d)
    ensures a == b
    decreases |a| + |b|
  {
    if a == [] && b == [] {
    } else if a == [] {
      OnDateHead(b);
      assert false;
    } else if b == [] {
      OnDateHead(a);
      assert false;
    } else {
      OnDateHead(a);
      OnDateHead(b);
      if a[0].date < b[0].date {
        OnDateEarlier(b, a[0].date);
        assert false;
      }
      if b[0].date < a[0].date {
        OnDateEarlier(a, b[0].date);
        assert false;
      }
      assert OnDate(a, a[0].date) == OnDate(b, b[0].date);
      assert OnDate(a, a[0].date)[0] == a[0] && OnDate(b, b[0].date)[0] == b[0];
      forall d ensures OnDate(a[1..], d) == OnDate(b[1..], d) {
        var head := if a[0].date == d then [a[0]] else [];
        assert OnDate(a, d) == head + OnDate(a[1..], d);
        assert OnDate(b, d) == head + OnDate(b[1..], d);
        assert (head + OnDate(a[1..], d))[|head|..] == OnDate(a[1..], d);
        assert (head + OnDate(b[1..], d))[|head|..] == OnDate(b[1..], d);
      }
      StableSortUnique(a[1..], b[1..]);
      assert a == [a[0]] + a[1..] && b == [b[0]] + b[1..];
    }
  }

  lemma OnDateHead(s: seq<Observation>)
    requires s != []
    ensures OnDate(s, s[0].date) == [s[0]] + OnDate(s[1..], s[0].date)
  {
  }

  /** A sorted sequence has nothing dated before its first element. */
  lemma {:induction false} OnDateEarlier(s: seq<Observation>, d: int)
    requires SortedByDate(s) && s != [] && d < s[0].date
    ensures OnDate(s, d) == []
  {
    if |s| > 1 {
      assert SortedByDate(s[1..]);
      OnDateEarlier(s[1..], d);
    }
  }

  /** The sorted history starts at the earliest date of the history and ends at the latest. */
  lemma SortByDateBounds(s: seq<Observation>)
    requires s != []
    ensures var r := SortByDate(s);
            && r[0] in s && r[|r| - 1] in s
            && forall o :: o in s ==> r[0].date <= o.date <= r[|r| - 1].date
  {
    SortedPermutationBounds(s, SortByDate(s));
  }

  lemma SortedPermutationBounds(s: seq<Observation>, r: seq<Observation>)
    requires s != [] && SortedByDate(r) && multiset(r) == multiset(s)
    ensures |r| == |s|
    ensures r[0] in s && r[|r| - 1] in s
    ensures forall o :: o in s ==> r[0].date <= o.date <= r[|r| - 1].date
  {
    assert |r| == |multiset(r)| == |multiset(s)| == |s|;
    forall o | o in s ensures r[0].date <= o.date <= r[|r| - 1].date {
      assert o in multiset(s);
      assert o in r;
      var i :| 0 <= i < |r| && r[i] == o;
    }
    assert r[0] in multiset(s) && r[|r| - 1] in multiset(s);
  }
}
