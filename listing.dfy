/** The file selection of `read_raw_data`: a directory listing is sorted the way
    Python's `sorted` orders strings, the names that do not end in ".npz" are dropped,
    and the remaining files are visited in that order. */
module Listing {

  /** Python's `str` ordering: code point by code point, a proper prefix first. */
  predicate NameLeq(a: string, b: string): (r: bool)
    ensures a == b ==> r
  {
    if |a| == 0 then true
    else if |b| == 0 then false
    else if a[0] != b[0] then a[0] < b[0]
    else NameLeq(a[1..], b[1..])
  }

  lemma {:induction false} NameLeqTotal(a: string, b: string)
    ensures NameLeq(a, b) || NameLeq(b, a)
  {
    if |a| > 0 && |b| > 0 && a[0] == b[0] {
      NameLeqTotal(a[1..], b[1..]);
    }
  }

  lemma {:induction false} NameLeqTransitive(a: string, b: string, c: string)
    requires NameLeq(a, b) && NameLeq(b, c)
    ensures NameLeq(a, c)
  {
    if |a| > 0 && |b| > 0 && |c| > 0 && a[0] == b[0] && b[0] == c[0] {
      NameLeqTransitive(a[1..], b[1..], c[1..]);
    }
  }

  lemma {:induction false} NameLeqAntisymmetric(a: string, b: string)
    requires NameLeq(a, b) && NameLeq(b, a)
    ensures a == b
  {
    if |a| > 0 && |b| > 0 {
      NameLeqAntisymmetric(a[1..], b[1..]);
      assert a == [a[0]] + a[1..] && b == [b[0]] + b[1..];
    }
  }

  predicate SortedNames(names: seq<string>)
  {
    forall i, j :: 0 <= i < j < |names| ==> NameLeq(names[i], names[j])
  }

  /** Puts `name` in front of the first name it does not follow. */
  function Insert(name: string, names: seq<string>): (r: seq<string>)
    ensures |r| == |names| + 1
  {
    if names == [] || NameLeq(name, names[0]) then [name] + names
    else [names[0]] + Insert(name, names[1..])
  }

  /** `sorted(listing)`, written as an insertion sort. */
  function SortNames(listing: seq<string>): (r: seq<string>)
    ensures |r| == |listing|
  {
    if listing == [] then [] else Insert(listing[0], SortNames(listing[1..]))
  }

  lemma {:induction false} InsertPermutes(name: string, names: seq<string>)
    ensures multiset(Insert(name, names)) == multiset(names) + multiset{name}
  {
    if names != [] && !NameLeq(name, names[0]) {
      InsertPermutes(name, names[1..]);
      assert names == [names[0]] + names[1..];
    }
  }

  lemma {:induction false} InsertSorted(name: string, names: seq<string>)
    requires SortedNames(names)
    ensures SortedNames(Insert(name, names))
  {
    if names != [] && !NameLeq(name, names[0]) {
      var tail := names[1..];
      InsertSorted(name, tail);
      InsertPermutes(name, tail);
      var r := Insert(name, names);
      NameLeqTotal(name, names[0]);
      forall j | 0 < j < |r| ensures NameLeq(names[0], r[j]) {
        var e := r[j];
        assert e in multiset(Insert(name, tail));
        assert e == name || e in multiset(tail);
        if e != name {
          var k :| 0 <= k < |tail| && tail[k] == e;
          assert names[k + 1] == e;
        }
      }
    } else if names != [] {
      forall j | 0 < j < |names| ensures NameLeq(name, names[j]) {
        NameLeqTransitive(name, names[0], names[j]);
      }
    }
  }

  /** `sorted` returns the listing's names, each as often as it occurs, in ascending order. */
  lemma {:induction false} SortNamesSortsAndPermutes(listing: seq<string>)
    ensures SortedNames(SortNames(listing))
    ensures multiset(SortNames(listing)) == multiset(listing)
  {
    if listing != [] {
      SortNamesSortsAndPermutes(listing[1..]);
      InsertSorted(listing[0], SortNames(listing[1..]));
      InsertPermutes(listing[0], SortNames(listing[1..]));
      assert listing == [listing[0]] + listing[1..];
    }
  }

  /** `filename.endswith('.npz')`. */
  predicate IsNpz(name: string)
  {
    |name| >= 4 && name[|name| - 4..] == ".npz"
  }

  /** The list comprehension of line 15: the .npz names, in their order. */
  function NpzOnly(names: seq<string>): (r: seq<string>)
    ensures |r| <= |names|
    ensures forall i :: 0 <= i < |r| ==> IsNpz(r[i])
  {
    if names == [] then []
    else if IsNpz(names[0]) then [names[0]] + NpzOnly(names[1..])
    else NpzOnly(names[1..])
  }

  /** A name survives the filter exactly when it is listed and ends in ".npz". */
  lemma {:induction false} NpzOnlyMembership(names: seq<string>, name: string)
    ensures name in NpzOnly(names) <==> name in names && IsNpz(name)
  {
    if names != [] {
      NpzOnlyMembership(names[1..], name);
      assert names == [names[0]] + names[1..];
    }
  }

  /** The filter keeps the sorted order. */
  lemma {:induction false} NpzOnlyKeepsOrder(names: seq<string>)
    requires SortedNames(names)
    ensures SortedNames(NpzOnly(names))
  {
    if names != [] {
      var tail := names[1..];
      assert SortedNames(tail) by {
        forall i, j | 0 <= i < j < |tail| ensures NameLeq(tail[i], tail[j]) {
          assert tail[i] == names[i + 1] && tail[j] == names[j + 1];
        }
      }
      NpzOnlyKeepsOrder(tail);
      if IsNpz(names[0]) {
        var r := NpzOnly(names);
        forall j | 0 < j < |r| ensures NameLeq(names[0], r[j]) {
          assert r[j] in NpzOnly(tail);
          NpzOnlyMembership(tail, r[j]);
          var k :| 0 <= k < |tail| && tail[k] == r[j];
          assert names[k + 1] == r[j];
        }
      }
    }
  }
}
