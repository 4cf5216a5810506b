/**
 * `list.sort(key=lambda x: x["minutes"])` on an arrivals list (mta.py):
 * Python's sort is stable, so entries with equal minutes keep the order
 * in which they were appended. `SortByMinutes` is that sort as a function
 * (insertion sort); `SortInPlace` runs it on an array.
 */
module ArrivalSort {
  import opened Extraction

  predicate SortedByMinutes(s: seq<Arrival>)
  {
    forall i, j :: 0 <= i < j < |s| ==> s[i].minutes <= s[j].minutes
  }

  /** The entries of `s` that are `k` minutes away, in their order in `s`. */
  function WithMinutes(s: seq<Arrival>, k: int): seq<Arrival>
  {
    if |s| == 0 then []
    else WithMinutes(s[..|s| - 1], k) + (if s[|s| - 1].minutes == k then [s[|s| - 1]] else [])
  }

  /** Place `x` after every entry of `t` that is no later than it. */
  function Insert(t: seq<Arrival>, x: Arrival): seq<Arrival>
  {
    if |t| == 0 || t[|t| - 1].minutes <= x.minutes then t + [x]
    else Insert(t[..|t| - 1], x) + [t[|t| - 1]]
  }

  function SortByMinutes(s: seq<Arrival>): seq<Arrival>
  {
    if |s| == 0 then [] else Insert(SortByMinutes(s[..|s| - 1]), s[|s| - 1])
  }

  // ----- the filter by minutes -----

  lemma {:induction false} WithMinutesAppend(s: seq<Arrival>, t: seq<Arrival>, k: int)
    ensures WithMinutes(s + t, k) == WithMinutes(s, k) + WithMinutes(t, k)
    decreases |t|
  {
    if |t| == 0 {
      assert s + t == s;
    } else {
      var init, last := t[..|t| - 1], t[|t| - 1];
      assert (s + t)[..|s + t| - 1] == s + init;
      WithMinutesAppend(s, init, k);
    }
  }

  // ----- insertion -----

  lemma {:induction false} InsertMultiset(t: seq<Arrival>, x: Arrival)
    ensures multiset(Insert(t, x)) == multiset(t) + multiset{x}
  {
    if |t| > 0 && t[|t| - 1].minutes > x.minutes {
      var init, last := t[..|t| - 1], t[|t| - 1];
      assert t == init + [last];
      InsertMultiset(init, x);
    }
  }

  lemma {:induction false} InsertSorted(t: seq<Arrival>, x: Arrival)
    requires SortedByMinutes(t)
    ensures SortedByMinutes(Insert(t, x))
  {
    if |t| > 0 && t[|t| - 1].minutes > x.minutes {
      var init, last := t[..|t| - 1], t[|t| - 1];
      assert t == init + [last];
      InsertSorted(init, x);
      InsertMultiset(init, x);
      var r := Insert(init, x);
      forall i | 0 <= i < |r| ensures r[i].minutes <= last.minutes {
        assert r[i] in multiset(r);
        assert r[i] == x || r[i] in multiset(init);
        if r[i] != x {
          var j :| 0 <= j < |init| && init[j] == r[i];
          assert t[j] == init[j];
        }
      }
    }
  }

  /** Inserting `x` puts it after every entry with its minutes and changes no other key's order. */
  lemma {:induction false} InsertKeepsOrder(t: seq<Arrival>, x: Arrival, k: int)
    ensures WithMinutes(Insert(t, x), k) == WithMinutes(t, k) + (if x.minutes == k then [x] else [])
  {
    if |t| == 0 || t[|t| - 1].minutes <= x.minutes {
      WithMinutesAppend(t, [x], k);
      assert [x][..0] == [];
    } else {
      var init, last := t[..|t| - 1], t[|t| - 1];
      InsertKeepsOrder(init, x, k);
      WithMinutesAppend(Insert(init, x), [last], k);
      assert [last][..0] == [];
    }
  }

  // ----- the sort -----

  lemma {:induction false} SortSorted(s: seq<Arrival>)
    ensures SortedByMinutes(SortByMinutes(s))
  {
    if |s| > 0 {
      SortSorted(s[..|s| - 1]);
      InsertSorted(SortByMinutes(s[..|s| - 1]), s[|s| - 1]);
    }
  }

  /** The sorted list holds exactly the entries of the input, each as often. */
  lemma {:induction false} SortPermutes(s: seq<Arrival>)
    ensures multiset(SortByMinutes(s)) == multiset(s)
  {
    if |s| > 0 {
      var init, last := s[..|s| - 1], s[|s| - 1];
      assert s == init + [last];
      SortPermutes(init);
      InsertMultiset(SortByMinutes(init), last);
    }
  }

  /** Stability: for every minutes value, the entries with that value keep their input order. */
  lemma {:induction false} SortStable(s: seq<Arrival>, k: int)
    ensures WithMinutes(SortByMinutes(s), k) == WithMinutes(s, k)
  {
    if |s| > 0 {
      var init, last := s[..|s| - 1], s[|s| - 1];
      SortStable(init, k);
      InsertKeepsOrder(SortByMinutes(init), last, k);
    }
  }

  lemma SortLength(s: seq<Arrival>)
    ensures |SortByMinutes(s)| == |s|
  {
    SortPermutes(s);
    assert |multiset(SortByMinutes(s))| == |multiset(s)|;
  }

  // ----- the in-place sort -----

  /** Where `Insert` puts `x`: after the first `j` entries, when every later entry is later than `x`. */
  lemma {:induction false} InsertAt(t: seq<Arrival>, x: Arrival, j: nat)
    requires j <= |t|
    requires j == 0 || t[j - 1].minutes <= x.minutes
    requires forall k :: j <= k < |t| ==> t[k].minutes > x.minutes
    ensures Insert(t, x) == t[..j] + [x] + t[j..]
  {
    if j < |t| {
      var init, last := t[..|t| - 1], t[|t| - 1];
      InsertAt(init, x, j);
      assert init[..j] == t[..j];
      assert init[j..] + [last] == t[j..];
    }
  }

  /** Move `a[i]` left past the entries before it that are later than it. */
  method InsertInPlace(a: array<Arrival>, i: nat)
    requires i < a.Length
    modifies a
    ensures a[..i + 1] == Insert(old(a[..i]), old(a[i]))
    ensures a[i + 1..] == old(a[i + 1..])
  {
    var x := a[i];
    ghost var t := a[..i];
    var j := i;
    while j > 0 && a[j - 1].minutes > x.minutes
      invariant 0 <= j <= i
      invariant forall k :: 0 <= k < j ==> a[k] == t[k]
      invariant forall k :: j < k <= i ==> a[k] == t[k - 1]
      invariant forall k :: j <= k < i ==> t[k].minutes > x.minutes
      invariant a[i + 1..] == old(a[i + 1..])
    {
      a[j] := a[j - 1];
      j := j - 1;
    }
    a[j] := x;
    InsertAt(t, x, j);
    Shifted(a[..i + 1], t, x, j);
  }

  /** A list agreeing with `t` before `j`, holding `x` at `j` and `t` shifted by one after it. */
  lemma Shifted(r: seq<Arrival>, t: seq<Arrival>, x: Arrival, j: nat)
    requires |r| == |t| + 1 && j <= |t|
    requires forall k :: 0 <= k < j ==> r[k] == t[k]
    requires r[j] == x
    requires forall k :: j < k < |r| ==> r[k] == t[k - 1]
    ensures r == t[..j] + [x] + t[j..]
  {
  }

  /** Stable insertion sort of `a` by minutes. */
  method SortInPlace(a: array<Arrival>)
    modifies a
    ensures a[..] == SortByMinutes(old(a[..]))
  {
    ghost var s := a[..];
    var i := 0;
    while i < a.Length
      invariant 0 <= i <= a.Length
      invariant a[..i] == SortByMinutes(s[..i])
      invariant a[i..] == s[i..]
    {
      assert s[..i + 1][..i] == s[..i];
      assert a[i] == s[i];
      InsertInPlace(a, i);
      i := i + 1;
    }
    assert a[..] == a[..a.Length];
    assert s == s[..a.Length];
  }
}
