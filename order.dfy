/** Python's ordering of `str` values (by code point, a proper prefix first)
    and `sorted` on a list of names. */
module Order {
  import opened Seqs

  /** `a <= b` on Python strings. */
  predicate StrLe(a: string, b: string) {
    a == [] || (b != [] && (a[0] < b[0] || (a[0] == b[0] && StrLe(a[1..], b[1..]))))
  }

  lemma {:induction false} StrLeTotal(a: string, b: string)
    ensures StrLe(a, b) || StrLe(b, a)
  {
    if a != [] && b != [] && a[0] == b[0] {
      StrLeTotal(a[1..], b[1..]);
    }
  }

  lemma {:induction false} StrLeTransitive(a: string, b: string, c: string)
    requires StrLe(a, b) && StrLe(b, c)
    ensures StrLe(a, c)
  {
    if a != [] && a[0] == b[0] && b[0] == c[0] {
      StrLeTransitive(a[1..], b[1..], c[1..]);
    }
  }

  lemma {:induction false} StrLeAntisymmetric(a: string, b: string)
    requires StrLe(a, b) && StrLe(b, a)
    ensures a == b
  {
    if a != [] {
      StrLeAntisymmetric(a[1..], b[1..]);
      assert a == [a[0]] + a[1..] && b == [b[0]] + b[1..];
    }
  }

  ghost predicate Sorted(s: seq<string>) {
    forall i, j :: 0 <= i < j < |s| ==> StrLe(s[i], s[j])
  }

  function Insert(x: string, s: seq<string>): (r: seq<string>)
    ensures multiset(r) == multiset(s) + multiset{x}
  {
    if s == [] then [x]
    else if StrLe(x, s[0]) then [x] + s
    else
      assert s == [s[0]] + s[1..];
      [s[0]] + Insert(x, s[1..])
  }

  lemma {:induction false} InsertSorted(x: string, s: seq<string>)
    requires Sorted(s)
    ensures Sorted(Insert(x, s))
  {
    if s == [] {
    } else if StrLe(x, s[0]) {
      forall j | 1 <= j < |s| + 1 ensures StrLe(x, ([x] + s)[j]) {
        if j > 1 { StrLeTransitive(x, s[0], s[j - 1]); }
      }
    } else {
      StrLeTotal(x, s[0]);
      var t := s[1..];
      InsertSorted(x, t);
      var r := Insert(x, t);
      forall j | 0 <= j < |r| ensures StrLe(s[0], r[j]) {
        assert r[j] in multiset(r);
        assert r[j] == x || r[j] in multiset(t);
        if r[j] != x {
          var k :| 0 <= k < |t| && t[k] == r[j];
          assert t[k] == s[k + 1];
        }
      }
    }
  }

  /** `sorted(names)`. */
  function SortStrings(names: seq<string>): (r: seq<string>)
    ensures multiset(r) == multiset(names)
  {
    if names == [] then []
    else
      assert names == [names[0]] + names[1..];
      Insert(names[0], SortStrings(names[1..]))
  }

  lemma {:induction false} SortStringsSorted(names: seq<string>)
    ensures Sorted(SortStrings(names))
  {
    if names != [] {
      SortStringsSorted(names[1..]);
      InsertSorted(names[0], SortStrings(names[1..]));
    }
  }

  /** Keeping only some names of a sorted list leaves it sorted. */
  lemma {:induction false} FilterSorted(s: seq<string>, p: string -> bool)
    requires Sorted(s)
    ensures Sorted(Filter(s, p))
  {
    if s != [] {
      var init := s[..|s| - 1];
      var last := s[|s| - 1];
      assert forall i :: 0 <= i < |init| ==> init[i] == s[i];
      FilterSorted(init, p);
      var f := Filter(init, p);
      forall i | 0 <= i < |f| ensures StrLe(f[i], last) {
        assert f[i] in init;
      }
    }
  }
}
