/** `sorted(set(...))` on strings: ascending by code point, without repetition. */
module Sorting {
  /** Lexicographic order. */
  predicate Below(a: string, b: string) {
    b != [] && (a == [] || a[0] < b[0] || (a[0] == b[0] && Below(a[1..], b[1..])))
  }

  lemma {:induction false} BelowIsTotal(a: string, b: string)
    ensures Below(a, b) || a == b || Below(b, a)
    ensures !(Below(a, b) && Below(b, a)) && !Below(a, a)
  {
    if a != [] {
      BelowIsTotal(a[1..], a[1..]);
    }
    if a != [] && b != [] {
      BelowIsTotal(a[1..], b[1..]);
      if a[0] == b[0] && a[1..] == b[1..] {
        assert a == [a[0]] + a[1..] == b;
      }
    }
  }

  lemma {:induction false} BelowIsTransitive(a: string, b: string, c: string)
    requires Below(a, b) && Below(b, c)
    ensures Below(a, c)
  {
    if a != [] && a[0] == b[0] == c[0] {
      BelowIsTransitive(a[1..], b[1..], c[1..]);
    }
  }

  ghost predicate Ascending(s: seq<string>) {
    forall i, j :: 0 <= i < j < |s| ==> Below(s[i], s[j])
  }

  ghost predicate SameElements(s: seq<string>, t: seq<string>) {
    forall x :: x in s <==> x in t
  }

  function Insert(s: seq<string>, x: string): seq<string> {
    if s == [] then [x]
    else if s[0] == x then s
    else if Below(x, s[0]) then [x] + s
    else [s[0]] + Insert(s[1..], x)
  }

  lemma {:induction false} InsertIsSorted(s: seq<string>, x: string)
    requires Ascending(s)
    ensures Ascending(Insert(s, x)) && forall y :: y in Insert(s, x) <==> y in s || y == x
  {
    if s != [] {
      BelowIsTotal(x, s[0]);
      if s[0] == x {
      } else if Below(x, s[0]) {
        forall j | 0 <= j < |s|
          ensures Below(x, s[j])
        {
          if j > 0 { BelowIsTransitive(x, s[0], s[j]); }
        }
      } else {
        var rest := Insert(s[1..], x);
        InsertIsSorted(s[1..], x);
        forall j | 0 <= j < |rest|
          ensures Below(s[0], rest[j])
        {
          assert rest[j] in rest;
          if rest[j] != x {
            var k :| 0 <= k < |s[1..]| && s[1..][k] == rest[j];
            assert s[k + 1] == rest[j];
          }
        }
        assert s == [s[0]] + s[1..];
      }
    }
  }

  /** `sorted(set(names))`. */
  function SortUnique(names: seq<string>): seq<string> {
    if names == [] then [] else Insert(SortUnique(names[1..]), names[0])
  }

  lemma {:induction false} SortUniqueIsSorted(names: seq<string>)
    ensures Ascending(SortUnique(names)) && SameElements(SortUnique(names), names)
  {
    if names != [] {
      SortUniqueIsSorted(names[1..]);
      InsertIsSorted(SortUnique(names[1..]), names[0]);
      assert names == [names[0]] + names[1..];
    }
  }

  /** The ascending list of a set is unique. */
  lemma {:induction false} AscendingIsUnique(s: seq<string>, t: seq<string>)
    requires Ascending(s) && Ascending(t) && SameElements(s, t)
    ensures s == t
    decreases |s|
  {
    FirstIsIn(t);
    if s != [] {
      assert s[0] in s && s[0] in t;
      var j :| 0 <= j < |t| && t[j] == s[0];
      assert t[0] in t && t[0] in s;
      var k :| 0 <= k < |s| && s[k] == t[0];
      BelowIsTotal(s[0], t[0]);
      assert s[0] == t[0];
      forall x
        ensures x in s[1..] <==> x in t[1..]
      {
        BelowIsTotal(x, s[0]);
        TailElements(s, x);
        TailElements(t, x);
      }
      AscendingIsUnique(s[1..], t[1..]);
    }
  }

  lemma FirstIsIn(s: seq<string>)
    ensures s != [] ==> s[0] in s
  {
  }

  lemma TailElements(s: seq<string>, x: string)
    requires s != [] && Ascending(s)
    ensures x in s[1..] <==> x in s && x != s[0]
  {
    assert s == [s[0]] + s[1..];
    BelowIsTotal(s[0], s[0]);
    if x in s[1..] {
      var k :| 0 <= k < |s[1..]| && s[1..][k] == x;
      assert Below(s[0], s[k + 1]);
    }
  }

  /** An already ascending list is left alone. */
  lemma SortedIsFixed(names: seq<string>)
    requires Ascending(names)
    ensures SortUnique(names) == names
  {
    SortUniqueIsSorted(names);
    AscendingIsUnique(SortUnique(names), names);
  }

  method SortSet(elements: set<string>) returns (r: seq<string>)
    ensures Ascending(r) && forall x :: x in r <==> x in elements
  {
    r := [];
    var rest := elements;
    while rest != {}
      invariant rest <= elements && Ascending(r)
      invariant forall x :: x in r <==> x in elements - rest
      decreases rest
    {
      var x :| x in rest;
      InsertIsSorted(r, x);
      r := Insert(r, x);
      rest := rest - {x};
    }
  }
}
