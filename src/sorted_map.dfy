/** A `TreeMap<String, String>` as the list of its entries in ascending key
    order (the order of `String.compareTo`). */
module SortedMap {

  type Entries = seq<(string, string)>

  /** `a.compareTo(b) < 0`: lexicographic order on characters, a proper
      prefix first. */
  predicate Less(a: string, b: string) {
    if |a| == 0 then |b| > 0
    else if |b| == 0 then false
    else if a[0] != b[0] then a[0] < b[0]
    else Less(a[1..], b[1..])
  }

  lemma {:induction false} LessIrreflexive(a: string)
    ensures !Less(a, a)
  {
    if |a| > 0 {
      LessIrreflexive(a[1..]);
    }
  }

  lemma {:induction false} LessTransitive(a: string, b: string, c: string)
    requires Less(a, b) && Less(b, c)
    ensures Less(a, c)
  {
    if |a| > 0 && |b| > 0 && |c| > 0 && a[0] == b[0] && b[0] == c[0] {
      LessTransitive(a[1..], b[1..], c[1..]);
    }
  }

  lemma {:induction false} LessTotal(a: string, b: string)
    requires a != b
    ensures Less(a, b) || Less(b, a)
  {
    if |a| > 0 && |b| > 0 && a[0] == b[0] {
      assert a == [a[0]] + a[1..] && b == [b[0]] + b[1..];
      LessTotal(a[1..], b[1..]);
    }
  }

  lemma LessAsymmetric(a: string, b: string)
    requires Less(a, b)
    ensures !Less(b, a)
  {
    if Less(b, a) {
      LessTransitive(a, b, a);
      LessIrreflexive(a);
    }
  }

  /** Keys strictly ascending from one entry to the next. */
  predicate Sorted(t: Entries) {
    forall i :: 0 < i < |t| ==> Less(t[i - 1].0, t[i].0)
  }

  /** The entries as a map; an earlier entry hides a later one with its key
      (which never happens in a sorted list). */
  function ToMap(t: Entries): (m: map<string, string>)
  {
    if t == [] then map[] else ToMap(t[1..])[t[0].0 := t[0].1]
  }

  lemma {:induction false} ToMapHas(t: Entries, i: nat)
    requires i < |t|
    ensures t[i].0 in ToMap(t)
  {
    if i > 0 {
      ToMapHas(t[1..], i - 1);
    }
  }

  /** Every key of the map comes from some entry. */
  lemma {:induction false} ToMapIndex(t: Entries, k: string) returns (i: nat)
    requires k in ToMap(t)
    ensures i < |t| && t[i].0 == k
  {
    if t[0].0 == k {
      i := 0;
    } else {
      i := ToMapIndex(t[1..], k);
      i := i + 1;
    }
  }

  /** `TreeMap.put`: insert, or replace the value of an existing key. */
  function Put(t: Entries, k: string, v: string): (r: Entries)
    requires Sorted(t)
    ensures Sorted(r)
    ensures ToMap(r) == ToMap(t)[k := v]
    ensures |r| > 0 && (r[0].0 == k || (t != [] && r[0] == t[0]))
  {
    if t == [] then [(k, v)]
    else if t[0].0 == k then [(k, v)] + t[1..]
    else if Less(k, t[0].0) then [(k, v)] + t
    else
      LessTotal(k, t[0].0);
      var rest := Put(t[1..], k, v);
      PutConsSorted(t, k, rest);
      assert ([t[0]] + rest)[1..] == rest;
      [t[0]] + rest
  }

  lemma PutConsSorted(t: Entries, k: string, rest: Entries)
    requires Sorted(t) && t != [] && Less(t[0].0, k) && Sorted(rest)
    requires |rest| > 0 && (rest[0].0 == k || (t[1..] != [] && rest[0] == t[1..][0]))
    ensures Sorted([t[0]] + rest)
  {
    var r := [t[0]] + rest;
    forall i | 0 < i < |r|
      ensures Less(r[i - 1].0, r[i].0)
    {
      if i > 1 {
        assert r[i - 1] == rest[i - 2] && r[i] == rest[i - 1];
      }
    }
  }

  /** In a sorted list the first key is below every other key. */
  lemma {:induction false} SortedHeadLeast(t: Entries, i: nat)
    requires Sorted(t) && 0 < i < |t|
    ensures Less(t[0].0, t[i].0)
  {
    if i > 1 {
      SortedHeadLeast(t, i - 1);
      LessTransitive(t[0].0, t[i - 1].0, t[i].0);
    }
  }

  lemma SortedTail(t: Entries)
    requires Sorted(t) && t != []
    ensures Sorted(t[1..])
    ensures t[0].0 !in ToMap(t[1..])
    ensures ToMap(t[1..]) == ToMap(t) - {t[0].0}
  {
    if t[0].0 in ToMap(t[1..]) {
      var j := ToMapIndex(t[1..], t[0].0);
      SortedHeadLeast(t, j + 1);
      LessIrreflexive(t[0].0);
    }
  }

  /** A sorted entry list is determined by the map it holds: however the
      entries were put, the resulting `TreeMap` is the same. */
  lemma {:induction false} SortedUnique(a: Entries, b: Entries)
    requires Sorted(a) && Sorted(b) && ToMap(a) == ToMap(b)
    ensures a == b
  {
    if a == [] || b == [] {
      if a != [] { ToMapHas(a, 0); }
      if b != [] { ToMapHas(b, 0); }
    } else {
      if a[0].0 != b[0].0 {
        ToMapHas(a, 0);
        var j := ToMapIndex(b, a[0].0);
        ToMapHas(b, 0);
        var i := ToMapIndex(a, b[0].0);
        SortedHeadLeast(a, i);
        SortedHeadLeast(b, j);
        LessAsymmetric(a[0].0, b[0].0);
      }
      assert ToMap(a)[a[0].0] == a[0].1 && ToMap(b)[b[0].0] == b[0].1;
      assert a[0] == b[0];
      SortedTail(a);
      SortedTail(b);
      SortedUnique(a[1..], b[1..]);
      assert a == [a[0]] + a[1..] && b == [b[0]] + b[1..];
    }
  }
}
