/** JavaScript's order on strings, sorted lists of them, and joining with newlines. */
module Strings {

  /** Code unit by code unit; a proper prefix comes first. */
  predicate Less(s: string, t: string) {
    t != "" && (s == "" || s[0] < t[0] || (s[0] == t[0] && Less(s[1..], t[1..])))
  }

  lemma {:induction false} Trichotomy(s: string, t: string)
    ensures s == t ==> !Less(s, t)
    ensures s != t ==> (Less(s, t) <==> !Less(t, s))
  {
    if s != "" && t != "" && s[0] == t[0] {
      Trichotomy(s[1..], t[1..]);
      assert s == [s[0]] + s[1..] && t == [t[0]] + t[1..];
    }
  }

  lemma {:induction false} Transitive(s: string, t: string, u: string)
    requires Less(s, t) && Less(t, u)
    ensures Less(s, u)
  {
    if s != "" && s[0] == t[0] == u[0] { Transitive(s[1..], t[1..], u[1..]); }
  }

  lemma {:induction false} LessAfter(p: string, s: string, t: string)
    requires Less(s, t)
    ensures Less(p + s, p + t)
  {
    if p == "" {
      assert p + s == s && p + t == t;
    } else {
      LessAfter(p[1..], s, t);
      assert (p + s)[1..] == p[1..] + s && (p + t)[1..] == p[1..] + t;
    }
  }

  lemma {:induction false} LessBefore(s: string, t: string, p: string, q: string)
    requires |s| == |t| && Less(s, t)
    ensures Less(s + p, t + q)
  {
    if s[0] == t[0] {
      LessBefore(s[1..], t[1..], p, q);
      assert (s + p)[1..] == s[1..] + p && (t + q)[1..] == t[1..] + q;
    }
  }

  // ---- Sorted lists -------------------------------------------------------

  function Elems<T>(s: seq<T>): set<T> { set x | x in s }

  predicate Ascending(s: seq<string>) { forall i, j :: 0 <= i < j < |s| ==> Less(s[i], s[j]) }

  predicate Distinct(s: seq<string>) { forall i, j :: 0 <= i < j < |s| ==> s[i] != s[j] }

  /** Puts x before the first element that is not below it. */
  function Insert(x: string, s: seq<string>): seq<string> {
    if s == [] || !Less(s[0], x) then [x] + s else [s[0]] + Insert(x, s[1..])
  }

  /** What `[...ids].sort()` computes. */
  function Sort(s: seq<string>): seq<string> { if s == [] then [] else Insert(s[0], Sort(s[1..])) }

  lemma {:induction false} InsertElems(x: string, s: seq<string>)
    ensures multiset(Insert(x, s)) == multiset([x]) + multiset(s)
  {
    if s != [] && Less(s[0], x) {
      InsertElems(x, s[1..]);
      assert s == [s[0]] + s[1..];
    }
  }

  lemma {:induction false} InsertAscends(x: string, s: seq<string>)
    requires Ascending(s) && x !in s
    ensures Ascending(Insert(x, s)) && Elems(Insert(x, s)) == Elems(s) + {x}
  {
    if s == [] {
    } else if Less(s[0], x) {
      InsertAscends(x, s[1..]);
      var r := Insert(x, s[1..]);
      forall y | y in r ensures Less(s[0], y) { assert y in Elems(r); }
      assert Elems([s[0]] + r) == Elems(r) + {s[0]};
      assert Elems(s) == Elems(s[1..]) + {s[0]};
    } else {
      Trichotomy(s[0], x);
      forall j | 0 < j < |s| ensures Less(x, s[j]) { Transitive(x, s[0], s[j]); }
    }
  }

  /** Sorting keeps the elements, repeats and all. */
  lemma {:induction false} SortPermutes(s: seq<string>)
    ensures multiset(Sort(s)) == multiset(s)
  {
    if s != [] {
      SortPermutes(s[1..]);
      InsertElems(s[0], Sort(s[1..]));
      assert s == [s[0]] + s[1..];
    }
  }

  /** Sorting different strings puts them in ascending order. */
  lemma {:induction false} SortAscends(s: seq<string>)
    requires Distinct(s)
    ensures Ascending(Sort(s)) && Elems(Sort(s)) == Elems(s)
  {
    if s != [] {
      SortAscends(s[1..]);
      assert s[0] !in Elems(s[1..]);
      InsertAscends(s[0], Sort(s[1..]));
      assert Elems(s) == Elems(s[1..]) + {s[0]};
    }
  }

  lemma HeadIsLeast(a: seq<string>, b: seq<string>)
    requires Ascending(a) && Ascending(b) && Elems(a) == Elems(b) && a != []
    ensures b != [] && a[0] == b[0]
  {
    assert a[0] in Elems(b);
    assert b[0] in Elems(a);
    var i :| 0 <= i < |b| && b[i] == a[0];
    var j :| 0 <= j < |a| && a[j] == b[0];
    Trichotomy(a[0], b[0]);
  }

  /** A set has one ascending listing. */
  lemma {:induction false} AscendingUnique(a: seq<string>, b: seq<string>)
    requires Ascending(a) && Ascending(b) && Elems(a) == Elems(b)
    ensures a == b
  {
    assert b != [] ==> b[0] in Elems(b);
    if a == [] {
    } else {
      HeadIsLeast(a, b);
      Trichotomy(a[0], a[0]);
      assert a[0] !in a[1..] && b[0] !in b[1..];
      assert Elems(a[1..]) == Elems(a) - {a[0]} && Elems(b[1..]) == Elems(b) - {b[0]};
      AscendingUnique(a[1..], b[1..]);
      assert a == [a[0]] + a[1..] && b == [b[0]] + b[1..];
    }
  }

  lemma {:induction false} ListingExists(keys: set<string>)
    ensures exists s :: Ascending(s) && Elems(s) == keys
  {
    if keys == {} {
      assert Ascending([]) && Elems([]) == keys;
    } else {
      var x :| x in keys;
      ListingExists(keys - {x});
      var s :| Ascending(s) && Elems(s) == keys - {x};
      assert x !in Elems(s);
      InsertAscends(x, s);
      assert keys - {x} + {x} == keys;
    }
  }

  /** The strings of a set in ascending order. */
  ghost function Listing(keys: set<string>): (s: seq<string>)
    ensures Ascending(s) && Elems(s) == keys
  {
    ListingExists(keys);
    var s :| Ascending(s) && Elems(s) == keys;
    s
  }

  lemma SortIsListing(s: seq<string>)
    requires Distinct(s)
    ensures Sort(s) == Listing(Elems(s))
  {
    SortAscends(s);
    AscendingUnique(Sort(s), Listing(Elems(s)));
  }

  // ---- Joining ------------------------------------------------------------

  function Join(s: seq<string>): string {
    if s == [] then "" else if |s| == 1 then s[0] else s[0] + "\n" + Join(s[1..])
  }

  predicate Plain(s: seq<string>) { forall i :: 0 <= i < |s| ==> '\n' !in s[i] }

  /** Joined lists of newline-free strings are equal only when the lists are, but that the empty
      list and the list of one empty string both join to the empty string. */
  lemma {:induction false} JoinInjective(a: seq<string>, b: seq<string>)
    requires Plain(a) && Plain(b) && Join(a) == Join(b)
    ensures a == b || (a == [] && b == [""]) || (a == [""] && b == [])
    decreases |a| + |b|
  {
    if |a| > 1 || |b| > 1 {
      HeadsAgree(a, b);
      JoinInjective(a[1..], b[1..]);
      assert a == [a[0]] + a[1..] && b == [b[0]] + b[1..];
    }
  }

  lemma FirstNewline(p: string, q: string, r: string, s: string)
    requires '\n' !in p && '\n' !in r && p + "\n" + q == r + "\n" + s
    ensures p == r && q == s
  {
    var x, y := p + "\n" + q, r + "\n" + s;
    assert x[|p|] == '\n' == y[|p|] && y[|r|] == '\n' == x[|r|];
    assert x[..|p|] == p && y[..|r|] == r && x[|p| + 1..] == q && y[|r| + 1..] == s;
  }

  lemma HeadsAgree(a: seq<string>, b: seq<string>)
    requires Plain(a) && Plain(b) && Join(a) == Join(b) && (|a| > 1 || |b| > 1)
    ensures |a| > 1 && |b| > 1 && a[0] == b[0] && Join(a[1..]) == Join(b[1..])
  {
    if |a| > 1 { assert Join(a)[|a[0]|] == '\n'; }
    if |b| > 1 { assert Join(b)[|b[0]|] == '\n'; }
    if |a| > 1 && |b| > 1 { FirstNewline(a[0], Join(a[1..]), b[0], Join(b[1..])); }
  }
}
