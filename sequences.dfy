/** Sequence operations shared by the components: the `filter` that removes
    or counts list entries, and the first-occurrence deduplication that
    underlies every insertion-ordered grouping (a JavaScript `Map`, or the
    keys of a plain object filled in order). */
module Sequences {

  /** `s.filter(keep)`: the entries of `s` for which `keep` holds, in order. */
  function Filter<T(!new)>(s: seq<T>, keep: T -> bool): (r: seq<T>)
    ensures |r| <= |s|
    ensures forall x :: x in r <==> x in s && keep(x)
    ensures |r| == |s| <==> forall x :: x in s ==> keep(x)
  {
    if s == [] then []
    else
      var init := Filter(s[..|s| - 1], keep);
      var last := s[|s| - 1];
      assert s == s[..|s| - 1] + [last];
      if keep(last) then init + [last] else init
  }

  /** Filtering distributes over concatenation: together with the value of
      Filter on a single element, this characterises it completely, and it
      is what "keeps the remaining entries in their order" means. */
  lemma {:induction false} FilterAppend<T(!new)>(a: seq<T>, b: seq<T>, keep: T -> bool)
    ensures Filter(a + b, keep) == Filter(a, keep) + Filter(b, keep)
    decreases |b|
  {
    if b == [] {
      assert a + b == a;
    } else {
      var b' := b[..|b| - 1];
      var last := b[|b| - 1];
      assert (a + b)[..|a + b| - 1] == a + b';
      assert b[..|b| - 1] == b';
      FilterAppend(a, b', keep);
    }
  }

  /** Filtering a single entry keeps it exactly when `keep` holds. */
  lemma FilterSingleton<T(!new)>(x: T, keep: T -> bool)
    ensures Filter([x], keep) == if keep(x) then [x] else []
  {
    assert [x][..0] == [];
  }

  /** Filtering keeps every entry in place when all of them pass. */
  lemma {:induction false} FilterKeepsAll<T(!new)>(s: seq<T>, keep: T -> bool)
    requires forall x :: x in s ==> keep(x)
    ensures Filter(s, keep) == s
  {
    if s != [] {
      var init := s[..|s| - 1];
      assert forall x :: x in init ==> x in s;
      FilterKeepsAll(init, keep);
      assert s == init + [s[|s| - 1]];
    }
  }

  /** Filtering drops everything when nothing passes. */
  lemma {:induction false} FilterKeepsNone<T(!new)>(s: seq<T>, keep: T -> bool)
    requires forall x :: x in s ==> !keep(x)
    ensures Filter(s, keep) == []
  {
    if s != [] {
      var init := s[..|s| - 1];
      assert forall x :: x in init ==> x in s;
      FilterKeepsNone(init, keep);
      assert s[|s| - 1] in s;
    }
  }

  /** Filtering after appending one entry. */
  lemma FilterSnoc<T(!new)>(s: seq<T>, x: T, keep: T -> bool)
    ensures Filter(s + [x], keep) == Filter(s, keep) + (if keep(x) then [x] else [])
  {
    assert (s + [x])[..|s|] == s;
  }

  /** No entry occurs twice. */
  predicate Distinct<T(==)>(s: seq<T>) {
    forall i, j :: 0 <= i < j < |s| ==> s[i] != s[j]
  }

  /** The index of the first occurrence of `x` in `s`. */
  function FirstIndex<T(==)>(s: seq<T>, x: T): (i: nat)
    requires x in s
    ensures i < |s| && s[i] == x
    ensures forall j :: 0 <= j < i ==> s[j] != x
  {
    if s[0] == x then 0 else 1 + FirstIndex(s[1..], x)
  }

  /** Any index holding `x` with no earlier `x` is the first index. */
  lemma FirstIndexUnique<T>(s: seq<T>, x: T, i: nat)
    requires i < |s| && s[i] == x
    requires forall j :: 0 <= j < i ==> s[j] != x
    ensures FirstIndex(s, x) == i
  {
  }

  /** The first index of a value already present does not move when
      entries are appended. */
  lemma FirstIndexPrefix<T>(s: seq<T>, t: seq<T>, x: T)
    requires x in s
    ensures x in s + t && FirstIndex(s + t, x) == FirstIndex(s, x)
  {
    var i := FirstIndex(s, x);
    assert (s + t)[i] == x;
    FirstIndexUnique(s + t, x, i);
  }

  /** The distinct values of `s`, each at the place of its first occurrence:
      the key order of an insertion-ordered map filled from `s`. */
  function Dedup<T(==,!new)>(s: seq<T>): (r: seq<T>)
    ensures Distinct(r)
    ensures forall x :: x in r <==> x in s
    ensures |r| <= |s|
  {
    if s == [] then []
    else
      var init := Dedup(s[..|s| - 1]);
      var last := s[|s| - 1];
      assert s == s[..|s| - 1] + [last];
      if last in init then init else init + [last]
  }

  lemma DedupSnoc<T(!new)>(s: seq<T>, x: T)
    ensures Dedup(s + [x]) == if x in Dedup(s) then Dedup(s) else Dedup(s) + [x]
  {
    assert (s + [x])[..|s|] == s;
  }

  /** The deduplicated values appear in the order of their first occurrences. */
  lemma {:induction false} DedupFirstOccurrenceOrder<T(!new)>(s: seq<T>)
    ensures forall p, q :: 0 <= p < q < |Dedup(s)| ==>
      FirstIndex(s, Dedup(s)[p]) < FirstIndex(s, Dedup(s)[q])
  {
    if s != [] {
      var init := s[..|s| - 1];
      var last := s[|s| - 1];
      assert s == init + [last];
      DedupFirstOccurrenceOrder(init);
      var d := Dedup(init);
      forall x | x in d
        ensures FirstIndex(s, x) == FirstIndex(init, x)
      {
        FirstIndexPrefix(init, [last], x);
      }
      if last !in d {
        assert Dedup(s) == d + [last];
        FirstIndexUnique(s, last, |init|);
        forall p | 0 <= p < |d|
          ensures FirstIndex(s, d[p]) < |init|
        {
          assert d[p] in d;
        }
      }
    }
  }

  /** How many times `x` occurs in `s`. */
  function Occurrences<T(==)>(s: seq<T>, x: T): (n: nat)
    ensures n <= |s|
    ensures n == 0 <==> x !in s
  {
    if s == [] then 0
    else
      var init := s[..|s| - 1];
      assert s == init + [s[|s| - 1]];
      Occurrences(init, x) + (if s[|s| - 1] == x then 1 else 0)
  }

  lemma OccurrencesSnoc<T>(s: seq<T>, y: T, x: T)
    ensures Occurrences(s + [y], x) == Occurrences(s, x) + (if y == x then 1 else 0)
  {
    assert (s + [y])[..|s|] == s;
  }

  /** The sum, over the values in `keys`, of their occurrence counts in `s`. */
  function SumOccurrences<T(==)>(keys: seq<T>, s: seq<T>): nat {
    if keys == [] then 0
    else SumOccurrences(keys[..|keys| - 1], s) + Occurrences(s, keys[|keys| - 1])
  }

  lemma {:induction false} SumOccurrencesSnoc<T>(keys: seq<T>, s: seq<T>, y: T)
    requires Distinct(keys)
    ensures SumOccurrences(keys, s + [y]) == SumOccurrences(keys, s) + (if y in keys then 1 else 0)
    decreases |keys|
  {
    if keys != [] {
      var init := keys[..|keys| - 1];
      var last := keys[|keys| - 1];
      assert keys == init + [last];
      assert y in keys <==> y in init || y == last;
      assert last !in init by {
        forall i | 0 <= i < |init| ensures init[i] != last {
          assert keys[i] == init[i];
        }
      }
      SumOccurrencesSnoc(init, s, y);
      OccurrencesSnoc(s, y, last);
    }
  }

  lemma SumOccurrencesAppendKey<T>(keys: seq<T>, s: seq<T>, x: T)
    ensures SumOccurrences(keys + [x], s) == SumOccurrences(keys, s) + Occurrences(s, x)
  {
    assert (keys + [x])[..|keys|] == keys;
  }

  /** Every entry of `s` is counted exactly once against its distinct
      value: the group sizes of an insertion-ordered grouping sum to the
      number of entries grouped. */
  lemma {:induction false} DedupCountsEveryEntry<T(!new)>(s: seq<T>)
    ensures SumOccurrences(Dedup(s), s) == |s|
  {
    if s != [] {
      var init := s[..|s| - 1];
      var last := s[|s| - 1];
      assert s == init + [last];
      DedupCountsEveryEntry(init);
      var d := Dedup(init);
      DedupSnoc(init, last);
      SumOccurrencesSnoc(d, init, last);
      if last !in d {
        SumOccurrencesAppendKey(d, s, last);
        OccurrencesSnoc(init, last, last);
      }
    }
  }
}
