/** Python's `sorted`: a stable sort by key, the order of strings, and sorted sets of strings. */
module Sorting {

  ghost predicate Total<T(!new)>(le: (T, T) -> bool) {
    && (forall x, y :: le(x, y) || le(y, x))
    && (forall x, y, z :: le(x, y) && le(y, z) ==> le(x, z))
  }

  // `x` goes in front of the elements it is not above, so equal keys keep their order.
  function Insert<T>(x: T, s: seq<T>, le: (T, T) -> bool): seq<T> {
    if s == [] then [x] else if le(x, s[0]) then [x] + s else [s[0]] + Insert(x, s[1..], le)
  }

  function Sort<T>(s: seq<T>, le: (T, T) -> bool): seq<T> {
    if s == [] then [] else Insert(s[0], Sort(s[1..], le), le)
  }

  predicate Sorted<T>(s: seq<T>, le: (T, T) -> bool) {
    forall i, j | 0 <= i < j < |s| :: le(s[i], s[j])
  }

  lemma {:induction false} InsertSorts<T(!new)>(x: T, s: seq<T>, le: (T, T) -> bool)
    requires Total(le) && Sorted(s, le)
    ensures Sorted(Insert(x, s, le), le) && multiset(Insert(x, s, le)) == multiset{x} + multiset(s)
  {
    if s == [] {
    } else if le(x, s[0]) {
      assert multiset([x] + s) == multiset{x} + multiset(s);
    } else {
      InsertSorts(x, s[1..], le);
      var rest := Insert(x, s[1..], le);
      assert s == [s[0]] + s[1..];
      forall y | y in rest ensures le(s[0], y) {
        assert y in multiset(rest);
        assert y in multiset{x} + multiset(s[1..]);
      }
    }
  }

  lemma {:induction false} SortSorts<T(!new)>(s: seq<T>, le: (T, T) -> bool)
    requires Total(le)
    ensures Sorted(Sort(s, le), le) && multiset(Sort(s, le)) == multiset(s) && |Sort(s, le)| == |s|
    ensures forall x :: x in Sort(s, le) <==> x in s
  {
    if s != [] {
      SortSorts(s[1..], le);
      InsertSorts(s[0], Sort(s[1..], le), le);
      assert s == [s[0]] + s[1..];
    }
    assert |multiset(Sort(s, le))| == |multiset(s)|;
    forall x ensures x in Sort(s, le) <==> x in s {
      assert x in multiset(Sort(s, le)) <==> x in multiset(s);
    }
  }

  // Elements of `s` that the order cannot tell apart are the same element.
  ghost predicate TiesEqual<T(!new)>(s: seq<T>, le: (T, T) -> bool) {
    forall x, y | x in s && y in s && le(x, y) && le(y, x) :: x == y
  }

  lemma TailCounts<T>(s: seq<T>)
    requires s != []
    ensures multiset(s[1..]) == multiset(s) - multiset{s[0]} && s == [s[0]] + s[1..]
  {
    assert s == [s[0]] + s[1..];
  }

  lemma HeadsEqual<T(!new)>(s: seq<T>, t: seq<T>, le: (T, T) -> bool)
    requires Total(le) && Sorted(s, le) && Sorted(t, le) && TiesEqual(s, le) && multiset(s) == multiset(t) && s != [] && t != []
    ensures s[0] == t[0]
  {
    assert s[0] in multiset(t) && t[0] in multiset(s);
    assert le(s[0], t[0]) && le(t[0], s[0]);
  }

  lemma {:induction false} SortedUnique<T(!new)>(s: seq<T>, t: seq<T>, le: (T, T) -> bool)
    requires Total(le) && Sorted(s, le) && Sorted(t, le) && TiesEqual(s, le) && multiset(s) == multiset(t)
    ensures s == t
  {
    assert |multiset(s)| == |s| && |multiset(t)| == |t|;
    if s != [] {
      HeadsEqual(s, t, le);
      TailCounts(s);
      TailCounts(t);
      SortedUnique(s[1..], t[1..], le);
    }
  }

  // Sorting forgets the order it was given whenever ties are equal elements.
  lemma SortForgetsOrder<T(!new)>(s: seq<T>, t: seq<T>, le: (T, T) -> bool)
    requires Total(le) && TiesEqual(s, le) && multiset(s) == multiset(t)
    ensures Sort(s, le) == Sort(t, le)
  {
    SortSorts(s, le);
    SortSorts(t, le);
    SortedUnique(Sort(s, le), Sort(t, le), le);
  }

  lemma {:induction false} SortOfSorted<T(!new)>(s: seq<T>, le: (T, T) -> bool)
    requires Sorted(s, le)
    ensures Sort(s, le) == s
  {
    if s != [] {
      SortOfSorted(s[1..], le);
    }
  }

  /******* strings, compared by code point *******/

  predicate StrLe(a: string, b: string) {
    a == "" || (b != "" && (a[0] < b[0] || (a[0] == b[0] && StrLe(a[1..], b[1..]))))
  }

  lemma {:induction false} StrTotal(a: string, b: string)
    ensures StrLe(a, b) || StrLe(b, a)
    ensures StrLe(a, b) && StrLe(b, a) ==> a == b
  {
    if a != "" && b != "" && a[0] == b[0] {
      StrTotal(a[1..], b[1..]);
      assert a == [a[0]] + a[1..] && b == [b[0]] + b[1..];
    }
  }

  lemma {:induction false} StrTransitive(a: string, b: string, c: string)
    requires StrLe(a, b) && StrLe(b, c)
    ensures StrLe(a, c)
  {
    if a != "" && a[0] == b[0] == c[0] { StrTransitive(a[1..], b[1..], c[1..]); }
  }

  lemma StrLeTotal()
    ensures Total(StrLe)
  {
    forall a, b ensures StrLe(a, b) || StrLe(b, a) { StrTotal(a, b); }
    forall a, b, c | StrLe(a, b) && StrLe(b, c) ensures StrLe(a, c) { StrTransitive(a, b, c); }
  }

  predicate StrLt(a: string, b: string) {
    a != b && StrLe(a, b)
  }

  // Tuples of strings compare from the left.
  predicate LexLe(a: seq<string>, b: seq<string>) {
    a == [] || (b != [] && (StrLt(a[0], b[0]) || (a[0] == b[0] && LexLe(a[1..], b[1..]))))
  }

  lemma {:induction false} LexTotal(a: seq<string>, b: seq<string>)
    ensures LexLe(a, b) || LexLe(b, a)
    ensures LexLe(a, b) && LexLe(b, a) ==> a == b
  {
    if a != [] && b != [] {
      StrTotal(a[0], b[0]);
      if a[0] == b[0] {
        LexTotal(a[1..], b[1..]);
        assert a == [a[0]] + a[1..] && b == [b[0]] + b[1..];
      }
    }
  }

  lemma {:induction false} LexTransitive(a: seq<string>, b: seq<string>, c: seq<string>)
    requires LexLe(a, b) && LexLe(b, c)
    ensures LexLe(a, c)
  {
    if a != [] {
      StrTotal(a[0], b[0]);
      StrTotal(b[0], c[0]);
      StrTransitive(a[0], b[0], c[0]);
      StrTotal(a[0], c[0]);
      if a[0] == b[0] == c[0] { LexTransitive(a[1..], b[1..], c[1..]); }
    }
  }

  /******* sorted sets of strings *******/

  function AddSorted(x: string, s: seq<string>): seq<string> {
    if s == [] || StrLt(x, s[0]) then [x] + s
    else if x == s[0] then s
    else [s[0]] + AddSorted(x, s[1..])
  }

  // `sorted({...})` over the strings listed.
  function SortedSet(s: seq<string>): seq<string> {
    if s == [] then [] else AddSorted(s[0], SortedSet(s[1..]))
  }

  predicate Increasing(s: seq<string>) {
    forall i, j | 0 <= i < j < |s| :: StrLt(s[i], s[j])
  }

  lemma StrLtTransitive(a: string, b: string, c: string)
    requires StrLt(a, b) && StrLt(b, c)
    ensures StrLt(a, c)
  {
    StrTransitive(a, b, c);
    StrTotal(a, b);
  }

  lemma {:induction false} AddSortedOk(x: string, s: seq<string>)
    requires Increasing(s)
    ensures Increasing(AddSorted(x, s)) && forall y :: y in AddSorted(x, s) <==> y == x || y in s
  {
    if s == [] {
    } else if StrLt(x, s[0]) {
      forall j | 0 < j < |s| ensures StrLt(x, s[j]) { StrLtTransitive(x, s[0], s[j]); }
    } else if x != s[0] {
      AddSortedOk(x, s[1..]);
      StrTotal(x, s[0]);
      var rest := AddSorted(x, s[1..]);
      forall y | y in rest ensures StrLt(s[0], y) {
        if y != x {
          var j :| 0 <= j < |s[1..]| && s[1..][j] == y;
          assert s[j + 1] == y;
        }
      }
    }
  }

  lemma {:induction false} SortedSetOk(s: seq<string>)
    ensures Increasing(SortedSet(s)) && forall y :: y in SortedSet(s) <==> y in s
  {
    if s != [] {
      SortedSetOk(s[1..]);
      AddSortedOk(s[0], SortedSet(s[1..]));
    }
  }

  lemma HasMember(s: seq<string>)
    ensures s == [] || exists y :: y in s
  {
    if s != [] { assert s[0] in s; }
  }

  lemma {:induction false} IncreasingUnique(s: seq<string>, t: seq<string>)
    requires Increasing(s) && Increasing(t) && forall y :: y in s <==> y in t
    ensures s == t
  {
    if s == [] || t == [] {
      HasMember(s);
      HasMember(t);
    } else {
      assert s[0] in s && s[0] in t && t[0] in s;
      StrTotal(s[0], t[0]);
      forall y ensures y in s[1..] <==> y in t[1..] {
        assert y in s <==> y == s[0] || y in s[1..];
        assert y in t <==> y == t[0] || y in t[1..];
        assert s[0] !in s[1..] && t[0] !in t[1..];
      }
      IncreasingUnique(s[1..], t[1..]);
    }
  }

  // A sorted set depends only on which strings were listed.
  lemma SortedSetUnique(s: seq<string>, t: seq<string>)
    requires forall y :: y in s <==> y in t
    ensures SortedSet(s) == SortedSet(t)
  {
    SortedSetOk(s);
    SortedSetOk(t);
    IncreasingUnique(SortedSet(s), SortedSet(t));
  }
}
