/** Sorting by a total order gives one result per multiset, whatever the input order. */
module Sorting {

  ghost predicate TotalPreorder<T(!new)>(leq: (T, T) -> bool) {
    && (forall x, y :: leq(x, y) || leq(y, x))
    && (forall x, y, z :: leq(x, y) && leq(y, z) ==> leq(x, z))
  }

  ghost predicate TotalOrder<T(!new)>(leq: (T, T) -> bool) {
    TotalPreorder(leq) && forall x, y :: leq(x, y) && leq(y, x) ==> x == y
  }

  /** No two different elements of the sequence tie. */
  ghost predicate Untied<T>(s: seq<T>, leq: (T, T) -> bool) {
    forall x, y :: x in s && y in s && leq(x, y) && leq(y, x) ==> x == y
  }

  predicate Ordered<T>(s: seq<T>, leq: (T, T) -> bool) {
    forall i, j :: 0 <= i < j < |s| ==> leq(s[i], s[j])
  }

  function Insert<T>(x: T, s: seq<T>, leq: (T, T) -> bool): seq<T> {
    if s == [] then [x]
    else if leq(x, s[0]) then [x] + s
    else [s[0]] + Insert(x, s[1..], leq)
  }

  function Sort<T>(s: seq<T>, leq: (T, T) -> bool): seq<T> {
    if s == [] then [] else Insert(s[0], Sort(s[1..], leq), leq)
  }

  lemma {:induction false} InsertPermutes<T>(x: T, s: seq<T>, leq: (T, T) -> bool)
    ensures multiset(Insert(x, s, leq)) == multiset(s) + multiset{x}
  {
    if s != [] {
      assert s == [s[0]] + s[1..];
      InsertPermutes(x, s[1..], leq);
    }
  }

  lemma {:induction false} SortPermutes<T>(s: seq<T>, leq: (T, T) -> bool)
    ensures multiset(Sort(s, leq)) == multiset(s)
  {
    if s != [] {
      assert s == [s[0]] + s[1..];
      SortPermutes(s[1..], leq);
      InsertPermutes(s[0], Sort(s[1..], leq), leq);
    }
  }

  /** Sorting keeps exactly the elements. */
  lemma {:induction false} SortMembers<T>(s: seq<T>, leq: (T, T) -> bool, x: T)
    ensures x in Sort(s, leq) <==> x in s
  {
    SortPermutes(s, leq);
    assert x in multiset(Sort(s, leq)) <==> x in multiset(s);
  }

  lemma {:induction false} InsertOrders<T(!new)>(x: T, s: seq<T>, leq: (T, T) -> bool)
    requires TotalPreorder(leq) && Ordered(s, leq)
    ensures Ordered(Insert(x, s, leq), leq)
  {
    if s != [] && !leq(x, s[0]) {
      InsertOrders(x, s[1..], leq);
      var rest := Insert(x, s[1..], leq);
      InsertPermutes(x, s[1..], leq);
      forall j | 0 <= j < |rest| ensures leq(s[0], rest[j]) {
        assert rest[j] in multiset(rest);
        assert rest[j] == x || rest[j] in s[1..];
      }
    }
  }

  lemma {:induction false} SortOrders<T(!new)>(s: seq<T>, leq: (T, T) -> bool)
    requires TotalPreorder(leq)
    ensures Ordered(Sort(s, leq), leq)
  {
    if s != [] {
      SortOrders(s[1..], leq);
      InsertOrders(s[0], Sort(s[1..], leq), leq);
    }
  }

  lemma {:induction false} FirstsAgree<T(!new)>(a: seq<T>, b: seq<T>, leq: (T, T) -> bool)
    requires TotalPreorder(leq) && Untied(a, leq) && Ordered(a, leq) && Ordered(b, leq) && multiset(a) == multiset(b)
    requires a != [] && b != []
    ensures a[0] == b[0]
  {
    assert a[0] in multiset(b) && b[0] in multiset(a);
    assert a[0] in b && b[0] in a;
    assert leq(a[0], a[0]) && leq(b[0], b[0]);
    assert leq(a[0], b[0]) && leq(b[0], a[0]);
  }

  lemma {:induction false} DropFirst<T>(s: seq<T>)
    requires s != []
    ensures multiset(s[1..]) == multiset(s) - multiset{s[0]}
  {
    assert s == [s[0]] + s[1..];
  }

  lemma {:induction false} TailsAgree<T>(a: seq<T>, b: seq<T>)
    requires a != [] && b != [] && a[0] == b[0] && multiset(a) == multiset(b)
    ensures multiset(a[1..]) == multiset(b[1..])
  {
    DropFirst(a);
    DropFirst(b);
  }

  lemma {:induction false} SameSize<T>(a: seq<T>, b: seq<T>)
    requires multiset(a) == multiset(b)
    ensures |a| == |b|
  {
    assert |a| == |multiset(a)| && |b| == |multiset(b)|;
  }

  lemma {:induction false} Rebuild<T>(a: seq<T>, b: seq<T>)
    requires a != [] && b != [] && a[0] == b[0] && a[1..] == b[1..]
    ensures a == b
  {
    assert a == [a[0]] + a[1..] && b == [b[0]] + b[1..];
  }

  lemma {:induction false} RestKeeps<T>(s: seq<T>, leq: (T, T) -> bool)
    requires s != []
    ensures Ordered(s, leq) ==> Ordered(s[1..], leq)
    ensures Untied(s, leq) ==> Untied(s[1..], leq)
  {
    assert forall x :: x in s[1..] ==> x in s;
  }

  lemma {:induction false} OrderedUnique<T(!new)>(a: seq<T>, b: seq<T>, leq: (T, T) -> bool)
    requires TotalPreorder(leq) && Untied(a, leq) && Ordered(a, leq) && Ordered(b, leq) && multiset(a) == multiset(b)
    ensures a == b
  {
    hide TotalPreorder, Untied, Ordered;
    SameSize(a, b);
    if a != [] {
      FirstsAgree(a, b, leq);
      TailsAgree(a, b);
      RestKeeps(a, leq);
      RestKeeps(b, leq);
      OrderedUnique(a[1..], b[1..], leq);
      Rebuild(a, b);
    }
  }

  /** Permuted inputs sort to the same sequence. */
  lemma {:induction false} SortIsCanonical<T(!new)>(a: seq<T>, b: seq<T>, leq: (T, T) -> bool)
    requires TotalPreorder(leq) && Untied(a, leq) && multiset(a) == multiset(b)
    ensures Sort(a, leq) == Sort(b, leq)
  {
    forall x | x in Sort(a, leq) ensures x in a { SortMembers(a, leq, x); }
    SortPermutes(a, leq);
    SortPermutes(b, leq);
    SortOrders(a, leq);
    SortOrders(b, leq);
    OrderedUnique(Sort(a, leq), Sort(b, leq), leq);
  }

  // ---------------------------------------------------------------- dictionary order

  predicate LexLeq<T(==)>(a: seq<T>, b: seq<T>, less: (T, T) -> bool) {
    if a == [] then true
    else if b == [] then false
    else if a[0] != b[0] then less(a[0], b[0])
    else LexLeq(a[1..], b[1..], less)
  }

  /** `a` is a prefix of `b`, or smaller at the first place where they differ. */
  lemma {:induction false} LexLeqIff<T>(a: seq<T>, b: seq<T>, less: (T, T) -> bool)
    ensures LexLeq(a, b, less) <==>
            exists n :: 0 <= n <= |a| && n <= |b| && a[..n] == b[..n] && (n == |a| || (n < |b| && a[n] != b[n] && less(a[n], b[n])))
  {
    if a == [] {
      assert a[..0] == b[..0];
    } else if b != [] && a[0] == b[0] {
      LexLeqIff(a[1..], b[1..], less);
      if m :| 0 <= m <= |a[1..]| && m <= |b[1..]| && a[1..][..m] == b[1..][..m] && (m == |a[1..]| || (m < |b[1..]| && a[1..][m] != b[1..][m] && less(a[1..][m], b[1..][m]))) {
        assert a[..m + 1] == [a[0]] + a[1..][..m] && b[..m + 1] == [b[0]] + b[1..][..m];
      }
      if n :| 0 <= n <= |a| && n <= |b| && a[..n] == b[..n] && (n == |a| || (n < |b| && a[n] != b[n] && less(a[n], b[n]))) {
        assert n > 0;
        assert a[1..][..n - 1] == a[..n][1..] && b[1..][..n - 1] == b[..n][1..];
      }
    } else if b != [] {
      assert a[..0] == b[..0];
      assert forall n :: 0 < n <= |a| && n <= |b| ==> a[..n][0] == a[0] && b[..n][0] == b[0];
    }
  }

  ghost predicate StrictTotal<T(!new)>(less: (T, T) -> bool) {
    && (forall x, y :: x != y ==> less(x, y) || less(y, x))
    && (forall x, y :: less(x, y) ==> !less(y, x) && x != y)
    && (forall x, y, z :: less(x, y) && less(y, z) ==> less(x, z))
  }

  lemma {:induction false} LexTotal<T(!new)>(a: seq<T>, b: seq<T>, less: (T, T) -> bool)
    requires StrictTotal(less)
    ensures LexLeq(a, b, less) || LexLeq(b, a, less)
    ensures LexLeq(a, b, less) && LexLeq(b, a, less) ==> a == b
  {
    if a != [] && b != [] && a[0] == b[0] {
      LexTotal(a[1..], b[1..], less);
      assert a == [a[0]] + a[1..] && b == [b[0]] + b[1..];
    }
  }

  lemma {:induction false} LexTransitive<T(!new)>(a: seq<T>, b: seq<T>, c: seq<T>, less: (T, T) -> bool)
    requires StrictTotal(less) && LexLeq(a, b, less) && LexLeq(b, c, less)
    ensures LexLeq(a, c, less)
  {
    if a != [] && b != [] && c != [] && a[0] == b[0] && b[0] == c[0] { LexTransitive(a[1..], b[1..], c[1..], less); }
  }

  predicate StrLeq(a: string, b: string) {
    LexLeq(a, b, (x: char, y: char) => x < y)
  }

  lemma {:induction false} StringsAreOrdered()
    ensures TotalOrder(StrLeq)
  {
    var less := (x: char, y: char) => x < y;
    forall x: string, y: string ensures (StrLeq(x, y) || StrLeq(y, x)) && (StrLeq(x, y) && StrLeq(y, x) ==> x == y) { LexTotal(x, y, less); }
    forall x: string, y: string, z: string | StrLeq(x, y) && StrLeq(y, z) ensures StrLeq(x, z) { LexTransitive(x, y, z, less); }
  }

  /** Strings are compared character by character. */
  lemma {:induction false} StrLeqIff(a: string, b: string)
    ensures StrLeq(a, b) <==> exists n :: 0 <= n <= |a| && n <= |b| && a[..n] == b[..n] && (n == |a| || (n < |b| && a[n] < b[n]))
  {
    LexLeqIff(a, b, (x: char, y: char) => x < y);
  }

  function SortStrings(s: seq<string>): seq<string> {
    Sort(s, StrLeq)
  }
}
