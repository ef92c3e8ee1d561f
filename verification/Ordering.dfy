/** Orders and sorting: code-point order on strings, and a stable sort whose
    result is determined by its elements. */
module Ordering {
  /** Strict lexicographic order by code point. Python compares strings this
      way, and Redis breaks score ties this way. */
  predicate Before(a: string, b: string)
    decreases |a|
  {
    b != [] && (a == [] || a[0] < b[0] || (a[0] == b[0] && Before(a[1..], b[1..])))
  }

  predicate AtMost(a: string, b: string) { a == b || Before(a, b) }

  /** One string comes before another when it is a proper prefix of it, or has the
      smaller character where they first differ. */
  lemma {:induction false} BeforeIs(a: string, b: string)
    ensures Before(a, b) <==> a < b || exists n :: 0 <= n < |a| && n < |b| && a[..n] == b[..n] && a[n] < b[n]
    decreases |a|
  {
    if a != [] && b != [] && a[0] == b[0] {
      BeforeIs(a[1..], b[1..]);
      assert a == [a[0]] + a[1..] && b == [b[0]] + b[1..];
      assert a[1..] < b[1..] <==> a < b;
      if n :| 0 <= n < |a[1..]| && n < |b[1..]| && a[1..][..n] == b[1..][..n] && a[1..][n] < b[1..][n] {
        assert a[..n + 1] == [a[0]] + a[1..][..n] && b[..n + 1] == [b[0]] + b[1..][..n];
      }
      if n :| 0 <= n < |a| && n < |b| && a[..n] == b[..n] && a[n] < b[n] {
        assert n > 0;
        assert a[1..][..n - 1] == a[..n][1..] && b[1..][..n - 1] == b[..n][1..];
      }
    } else if a != [] && b != [] {
      forall n | 0 < n < |a| && n < |b| ensures a[..n] != b[..n] {
        assert a[..n][0] != b[..n][0];
      }
      assert a[..0] == b[..0];
    }
  }

  lemma {:induction false} BeforeIsTotal(a: string, b: string)
    ensures a == b || Before(a, b) || Before(b, a)
    ensures !(Before(a, b) && Before(b, a))
    ensures !Before(a, a)
    decreases |a|
  {
    if a != [] && b != [] {
      BeforeIsTotal(a[1..], b[1..]);
      assert a == [a[0]] + a[1..] && b == [b[0]] + b[1..];
    }
    if a != [] {
      BeforeIsTotal(a[1..], a[1..]);
    }
  }

  lemma {:induction false} BeforeIsTransitive(a: string, b: string, c: string)
    requires Before(a, b) && Before(b, c)
    ensures Before(a, c)
    decreases |a|
  {
    if a != [] && a[0] == b[0] == c[0] {
      BeforeIsTransitive(a[1..], b[1..], c[1..]);
    }
  }

  // ---------------------------------------------------------------- names not yet in use

  lemma {:induction false} LongestName(names: set<string>) returns (n: nat)
    ensures forall s :: s in names ==> |s| <= n
    decreases |names|
  {
    if names == {} {
      n := 0;
    } else {
      var s :| s in names;
      var m := LongestName(names - {s});
      n := if |s| > m then |s| else m;
      forall t | t in names ensures |t| <= n {
        assert t == s || t in names - {s};
      }
    }
  }

  lemma {:induction false} FreshNumber(taken: set<nat>) returns (n: nat)
    ensures n !in taken
  {
    var highest := Highest(taken);
    n := highest + 1;
  }

  lemma {:induction false} Highest(numbers: set<nat>) returns (n: nat)
    ensures forall i :: i in numbers ==> i <= n
    decreases |numbers|
  {
    if numbers == {} {
      n := 0;
    } else {
      var i :| i in numbers;
      var m := Highest(numbers - {i});
      n := if m > i then m else i;
      forall j | j in numbers ensures j <= n {
        assert j == i || j in numbers - {i};
      }
    }
  }

  lemma {:induction false} FreshName(taken: set<string>) returns (name: string)
    ensures name !in taken
  {
    var n := LongestName(taken);
    name := seq(n + 1, _ => 'a');
    assert |name| > n;
  }

  lemma {:induction false} FreshNames(n: nat, taken: set<string>) returns (names: set<string>)
    ensures |names| == n && names !! taken
    decreases n
  {
    if n == 0 {
      names := {};
    } else {
      var rest := FreshNames(n - 1, taken);
      var name := FreshName(taken + rest);
      names := rest + {name};
    }
  }

  /** `part` is `whole` with some elements left out. */
  ghost predicate Subsequence<T>(part: seq<T>, whole: seq<T>)
    decreases |whole|
  {
    if whole == [] then part == []
    else (part != [] && part[0] == whole[0] && Subsequence(part[1..], whole[1..])) || Subsequence(part, whole[1..])
  }

  // ---------------------------------------------------------------- sorting

  ghost predicate TotalPreorder<T(!new)>(le: (T, T) -> bool) {
    && (forall x, y :: le(x, y) || le(y, x))
    && (forall x, y, z :: le(x, y) && le(y, z) ==> le(x, z))
  }

  ghost predicate Sorted<T>(s: seq<T>, le: (T, T) -> bool) {
    forall i, j :: 0 <= i < j < |s| ==> le(s[i], s[j])
  }

  function Insert<T>(x: T, s: seq<T>, le: (T, T) -> bool): (r: seq<T>)
    ensures multiset(r) == multiset([x]) + multiset(s)
    ensures |r| == |s| + 1
    decreases |s|
  {
    if s == [] then [x]
    else if le(x, s[0]) then [x] + s
    else
      assert s == [s[0]] + s[1..];
      [s[0]] + Insert(x, s[1..], le)
  }

  function SortBy<T>(s: seq<T>, le: (T, T) -> bool): (r: seq<T>)
    ensures multiset(r) == multiset(s)
    ensures |r| == |s|
    decreases |s|
  {
    if s == [] then [] else
      assert s == [s[0]] + s[1..];
      Insert(s[0], SortBy(s[1..], le), le)
  }

  lemma {:induction false} InsertSorts<T(!new)>(x: T, s: seq<T>, le: (T, T) -> bool)
    requires TotalPreorder(le) && Sorted(s, le)
    ensures Sorted(Insert(x, s, le), le)
    decreases |s|
  {
    if s != [] && !le(x, s[0]) {
      InsertSorts(x, s[1..], le);
      var rest := Insert(x, s[1..], le);
      forall j | 0 <= j < |rest| ensures le(s[0], rest[j]) {
        assert rest[j] in multiset(rest);
        assert rest[j] == x || rest[j] in s[1..];
      }
    }
  }

  lemma {:induction false} SortByIsSorted<T(!new)>(s: seq<T>, le: (T, T) -> bool)
    requires TotalPreorder(le)
    ensures Sorted(SortBy(s, le), le)
    decreases |s|
  {
    if s != [] {
      SortByIsSorted(s[1..], le);
      InsertSorts(s[0], SortBy(s[1..], le), le);
    }
  }

  lemma {:induction false} SameElements<T>(a: seq<T>, b: seq<T>, x: T)
    requires multiset(a) == multiset(b)
    ensures x in a <==> x in b
    ensures |a| == |b|
  {
    assert x in a <==> x in multiset(a);
    assert |a| == |multiset(a)| == |multiset(b)| == |b|;
  }

  /** No two different elements of the list tie. */
  ghost predicate NoTies<T>(s: seq<T>, le: (T, T) -> bool) {
    forall x, y :: x in s && y in s && le(x, y) && le(y, x) ==> x == y
  }

  lemma {:induction false} TailElements<T>(s: seq<T>)
    requires s != []
    ensures multiset(s[1..]) == multiset(s) - multiset{s[0]}
  {
    assert s == [s[0]] + s[1..];
    assert multiset(s) == multiset{s[0]} + multiset(s[1..]);
  }

  lemma {:induction false} SameHead<T>(a: seq<T>, b: seq<T>, le: (T, T) -> bool)
    requires a != [] && b != [] && b[0] in a && a[0] in b
    requires Sorted(a, le) && Sorted(b, le) && NoTies(a, le)
    ensures a[0] == b[0]
  {
    var i :| 0 <= i < |b| && b[i] == a[0];
    var j :| 0 <= j < |a| && a[j] == b[0];
  }

  lemma {:induction false} TailSorted<T>(s: seq<T>, le: (T, T) -> bool)
    requires s != [] && Sorted(s, le)
    ensures Sorted(s[1..], le)
    ensures NoTies(s, le) ==> NoTies(s[1..], le)
  {
  }

  lemma {:induction false} SameLength<T>(a: seq<T>, b: seq<T>)
    requires multiset(a) == multiset(b)
    ensures |a| == |b|
  {
    assert |a| == |multiset(a)| && |b| == |multiset(b)|;
  }

  lemma {:induction false} SameHeadAndTail<T>(a: seq<T>, b: seq<T>)
    requires |a| == |b| > 0 && a[0] == b[0] && a[1..] == b[1..]
    ensures a == b
  {
    assert a == [a[0]] + a[1..];
  }

  /** Dropping the common head leaves the same problem. */
  lemma {:induction false} Tails<T>(a: seq<T>, b: seq<T>, le: (T, T) -> bool)
    requires a != [] && b != [] && multiset(a) == multiset(b)
    requires Sorted(a, le) && Sorted(b, le) && NoTies(a, le)
    ensures a[0] == b[0] && multiset(a[1..]) == multiset(b[1..])
    ensures Sorted(a[1..], le) && Sorted(b[1..], le) && NoTies(a[1..], le)
  {
    SameElements(a, b, a[0]);
    SameElements(a, b, b[0]);
    SameHead(a, b, le);
    TailElements(a);
    TailElements(b);
    TailSorted(a, le);
    TailSorted(b, le);
  }

  /** Where nothing ties there is only one sorted arrangement. */
  lemma {:induction false} SortedIsUnique<T>(a: seq<T>, b: seq<T>, le: (T, T) -> bool)
    requires multiset(a) == multiset(b) && Sorted(a, le) && Sorted(b, le) && NoTies(a, le)
    ensures a == b
    decreases |a|
  {
    SameLength(a, b);
    if a != [] {
      Tails(a, b, le);
      SortedIsUnique(a[1..], b[1..], le);
      SameHeadAndTail(a, b);
    }
  }

  /** Sorting forgets the order its input came in. */
  lemma {:induction false} SortForgetsOrder<T(!new)>(a: seq<T>, b: seq<T>, le: (T, T) -> bool)
    requires TotalPreorder(le) && multiset(a) == multiset(b) && NoTies(a, le)
    ensures SortBy(a, le) == SortBy(b, le)
  {
    SortByIsSorted(a, le);
    SortByIsSorted(b, le);
    forall x ensures x in SortBy(a, le) <==> x in a {
      SameElements(SortBy(a, le), a, x);
    }
    SortedIsUnique(SortBy(a, le), SortBy(b, le), le);
  }
}
