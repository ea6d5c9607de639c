/** Replacing physical root paths in error text by a token. */
module PathRedaction {

  const TOKEN := "<workspace>"
  const INNER := "workspace"
  const DEFAULT_PREFIXES := ["/var/sandbox/workspaces", "/sandbox/workspaces"]

  // ---------------------------------------------------------------- the algorithm

  /** root.replace(/\/+$/, '') */
  function TrimSlashes(root: string): (r: string)
    ensures |r| <= |root| && r == root[..|r|]
    ensures r != [] ==> r[|r| - 1] != '/'
    ensures forall i :: |r| <= i < |root| ==> root[i] == '/'
  {
    if root == [] || root[|root| - 1] != '/' then root else TrimSlashes(root[..|root| - 1])
  }

  /** text.replaceAll(root, TOKEN): leftmost, non-overlapping. */
  function Replace(s: string, root: string): string
    requires root != []
    decreases |s|
  {
    if s == [] then s
    else if root <= s then TOKEN + Replace(s[|root|..], root)
    else [s[0]] + Replace(s[1..], root)
  }

  /** Every run of two or more tokens becomes one. */
  function Collapse(s: string): string
    decreases |s|
  {
    if s == [] then s
    else if TOKEN + TOKEN <= s then Collapse(s[|TOKEN|..])
    else [s[0]] + Collapse(s[1..])
  }

  function ReplaceRoots(s: string, roots: seq<string>): string
    requires forall i :: 0 <= i < |roots| ==> roots[i] != []
  {
    if roots == [] then s else Replace(ReplaceRoots(s, roots[..|roots| - 1]), roots[|roots| - 1])
  }

  predicate LongestFirst(roots: seq<string>) {
    forall i, j :: 0 <= i < j < |roots| ==> |roots[i]| >= |roots[j]|
  }

  /** The trimmed, non-empty roots a call works with, defaults included. */
  ghost predicate RootOf(given: seq<string>, r: string) {
    r != [] && exists i :: 0 <= i < |given + DEFAULT_PREFIXES| && r == TrimSlashes((given + DEFAULT_PREFIXES)[i])
  }

  /** `roots` lists exactly the normalised roots, longest first. */
  ghost predicate Normalised(given: seq<string>, roots: seq<string>) {
    LongestFirst(roots) && forall r :: r in roots <==> RootOf(given, r)
  }

  predicate Distinct(roots: seq<string>) {
    forall i, j :: 0 <= i < j < |roots| ==> roots[i] != roots[j]
  }

  /** Insert before the first shorter root: a stable sort by descending length. */
  function InsertRoot(r: string, roots: seq<string>): seq<string> {
    if roots == [] then [r]
    else if |roots[0]| < |r| then [r] + roots
    else [roots[0]] + InsertRoot(r, roots[1..])
  }

  /** `x` is among the first `n` given roots, and there before `y`. */
  ghost predicate Earlier(all: seq<string>, n: nat, x: string, y: string)
    requires n <= |all|
  {
    exists p :: 0 <= p < n && TrimSlashes(all[p]) == x && forall q :: 0 <= q <= p ==> TrimSlashes(all[q]) != y
  }

  /** Roots of one length stand in the order in which they were first given. */
  ghost predicate TiesInOrder(all: seq<string>, n: nat, roots: seq<string>)
    requires n <= |all|
  {
    forall i, j :: 0 <= i < j < |roots| && |roots[i]| == |roots[j]| ==> Earlier(all, n, roots[i], roots[j])
  }

  /** Every insertion leaves the others as they are and goes behind all of at least its length. */
  lemma {:induction false} InsertsAt(r: string, roots: seq<string>) returns (n: nat)
    requires LongestFirst(roots)
    ensures n <= |roots| && InsertRoot(r, roots) == roots[..n] + [r] + roots[n..]
    ensures forall i :: n <= i < |roots| ==> |roots[i]| < |r|
  {
    if roots == [] || |roots[0]| < |r| {
      n := 0;
    } else {
      var m := InsertsAt(r, roots[1..]);
      n := m + 1;
      assert roots == [roots[0]] + roots[1..];
      forall i | n <= i < |roots| ensures |roots[i]| < |r| { assert roots[i] == roots[1..][i - 1]; }
    }
  }

  lemma {:induction false} InsertKeepsTies(all: seq<string>, k: nat, roots: seq<string>)
    requires k < |all| && LongestFirst(roots) && TiesInOrder(all, k, roots)
    requires forall i :: 0 <= i < |roots| ==> Earlier(all, k, roots[i], TrimSlashes(all[k]))
    ensures TiesInOrder(all, k + 1, InsertRoot(TrimSlashes(all[k]), roots))
  {
    var r := TrimSlashes(all[k]);
    var n := InsertsAt(r, roots);
    var out := InsertRoot(r, roots);
    assert forall j :: n < j < |out| ==> out[j] == roots[j - 1];
    forall i, j | 0 <= i < j < |out| && |out[i]| == |out[j]| ensures Earlier(all, k + 1, out[i], out[j]) {
      if i != n {
        var x, y := roots[if i < n then i else i - 1], if j == n then r else roots[if j < n then j else j - 1];
        assert out[i] == x && out[j] == y;
        assert Earlier(all, k, x, y);
        EarlierGrows(all, k, x, y);
      }
    }
  }

  lemma {:induction false} EarlierGrows(all: seq<string>, k: nat, x: string, y: string)
    requires k < |all| && Earlier(all, k, x, y)
    ensures Earlier(all, k + 1, x, y)
  {
  }

  lemma {:induction false} TiesGrow(all: seq<string>, k: nat, roots: seq<string>)
    requires k < |all| && TiesInOrder(all, k, roots)
    ensures TiesInOrder(all, k + 1, roots)
  {
    hide Earlier;
    forall i, j | 0 <= i < j < |roots| && |roots[i]| == |roots[j]| ensures Earlier(all, k + 1, roots[i], roots[j]) {
      EarlierGrows(all, k, roots[i], roots[j]);
    }
  }

  lemma {:induction false} InsertMembers(r: string, roots: seq<string>, x: string)
    ensures x in InsertRoot(r, roots) <==> x == r || x in roots
  {
    if roots != [] {
      assert x in roots <==> x == roots[0] || x in roots[1..];
      InsertMembers(r, roots[1..], x);
    }
  }

  lemma {:induction false} InsertKeepsOrder(r: string, roots: seq<string>)
    requires LongestFirst(roots)
    ensures LongestFirst(InsertRoot(r, roots))
  {
    if roots != [] && |roots[0]| >= |r| {
      InsertKeepsOrder(r, roots[1..]);
      var rest := InsertRoot(r, roots[1..]);
      forall i | 0 <= i < |rest| ensures |rest[i]| <= |roots[0]| { InsertMembers(r, roots[1..], rest[i]); }
    }
  }

  lemma {:induction false} InsertKeepsDistinct(r: string, roots: seq<string>)
    requires r !in roots && Distinct(roots)
    ensures Distinct(InsertRoot(r, roots))
  {
    if roots != [] && |roots[0]| >= |r| {
      InsertKeepsDistinct(r, roots[1..]);
      InsertMembers(r, roots[1..], roots[0]);
      assert roots[0] !in roots[1..];
    }
  }

  lemma {:induction false} NoTies(all: seq<string>)
    ensures TiesInOrder(all, 0, [])
  {
  }

  lemma {:induction false} NewComesLater(all: seq<string>, k: nat, roots: seq<string>, i: nat)
    requires k < |all| && i < |roots| && TrimSlashes(all[k]) != [] && TrimSlashes(all[k]) !in roots
    requires forall r :: r in roots <==> r != [] && exists p :: 0 <= p < k && r == TrimSlashes(all[p])
    ensures Earlier(all, k, roots[i], TrimSlashes(all[k]))
  {
    assert roots[i] in roots;
  }

  method NormaliseRoots(given: seq<string>) returns (roots: seq<string>)
    ensures Normalised(given, roots) && Distinct(roots)
    ensures TiesInOrder(given + DEFAULT_PREFIXES, |given + DEFAULT_PREFIXES|, roots)
  {
    hide TiesInOrder;
    var all := given + DEFAULT_PREFIXES;
    roots := [];
    var seen: set<string> := {};
    var k := 0;
    NoTies(all);
    while k < |all|
      invariant k <= |all| && LongestFirst(roots)
      invariant forall r :: r in roots <==> r != [] && exists i :: 0 <= i < k && r == TrimSlashes(all[i])
      invariant forall r :: r in seen <==> r in roots
      invariant Distinct(roots) && TiesInOrder(all, k, roots)
    {
      var trimmed := TrimSlashes(all[k]);
      TiesGrow(all, k, roots);
      if trimmed != [] && trimmed !in seen {
        InsertKeepsOrder(trimmed, roots);
        InsertKeepsDistinct(trimmed, roots);
        forall i | 0 <= i < |roots| ensures Earlier(all, k, roots[i], trimmed) { NewComesLater(all, k, roots, i); }
        InsertKeepsTies(all, k, roots);
        forall x ensures x in InsertRoot(trimmed, roots) <==> x == trimmed || x in roots { InsertMembers(trimmed, roots, x); }
        roots := InsertRoot(trimmed, roots);
        seen := seen + {trimmed};
      }
      k := k + 1;
    }
  }

  /** No given or default root with a slash left after trimming is readable in the result. */
  method RedactPhysicalPaths(text: string, given: seq<string>) returns (redacted: string, ghost roots: seq<string>)
    ensures Normalised(given, roots) && Distinct(roots) && Proper(roots)
    ensures TiesInOrder(given + DEFAULT_PREFIXES, |given + DEFAULT_PREFIXES|, roots)
    ensures redacted == Redacted(text, roots)
    ensures forall q :: RootOf(given, q) && Bare(q) && '/' in q ==> !Contains(redacted, q)
  {
    hide TiesInOrder;
    var list := NormaliseRoots(given);
    assert forall i :: 0 <= i < |list| ==> list[i] in list;
    roots := list;
    redacted := text;
    var k := 0;
    while k < |list|
      invariant k <= |list|
      invariant redacted == ReplaceRoots(text, list[..k])
    {
      assert list[..k + 1][..k] == list[..k];
      redacted := Replace(redacted, list[k]);
      k := k + 1;
    }
    assert list[..k] == list;
    redacted := Collapse(redacted);
    forall q | RootOf(given, q) && Bare(q) && '/' in q ensures !Contains(redacted, q) {
      SlashIsNotInToken(q);
      NoRootSurvives(text, roots, q);
    }
  }

  // ---------------------------------------------------------------- substrings

  predicate Contains(s: string, q: string) {
    q <= s || (s != [] && Contains(s[1..], q))
  }

  /** No angle bracket: such a string cannot straddle the edge of a token. */
  predicate Bare(q: string) {
    q != [] && '<' !in q && '>' !in q
  }

  lemma {:induction false} ContainsTail(s: string, n: nat, q: string)
    requires n <= |s| && Contains(s[n..], q)
    ensures Contains(s, q)
  {
    if n > 0 {
      assert s[1..][n - 1..] == s[n..];
      ContainsTail(s[1..], n - 1, q);
    } else {
      assert s[0..] == s;
    }
  }

  lemma {:induction false} ContainsAt(s: string, n: nat, q: string)
    requires n <= |s| && q <= s[n..]
    ensures Contains(s, q)
  {
    assert Contains(s[n..], q);
    ContainsTail(s, n, q);
  }

  lemma {:induction false} ContainsWhere(s: string, q: string) returns (n: nat)
    requires Contains(s, q)
    ensures n <= |s| && q <= s[n..]
  {
    if q <= s {
      n := 0;
      assert s[0..] == s;
    } else {
      var m := ContainsWhere(s[1..], q);
      n := m + 1;
      assert s[1..][m..] == s[n..];
    }
  }

  lemma {:induction false} ContainsTransitive(s: string, t: string, q: string)
    requires Contains(s, t) && Contains(t, q)
    ensures Contains(s, q)
  {
    var m := ContainsWhere(s, t);
    var n := ContainsWhere(t, q);
    assert s[m + n..] == s[m..][n..];
    assert t == s[m..][..|t|];
    assert q <= s[m + n..];
    ContainsAt(s, m + n, q);
  }

  /** A bare string found behind a closing bracket was on one side of it. */
  lemma {:induction false} Barrier(a: string, b: string, q: string)
    requires Bare(q) && a != [] && a[|a| - 1] == '>' && Contains(a + b, q)
    ensures Contains(a, q) || Contains(b, q)
  {
    var n := ContainsWhere(a + b, q);
    if n >= |a| {
      assert (a + b)[n..] == b[n - |a|..];
      ContainsAt(b, n - |a|, q);
    } else {
      var k := |a| - 1 - n;
      assert (a + b)[n..][k] == '>';
      assert |q| <= k;
      assert q <= a[n..];
      ContainsAt(a, n, q);
    }
  }

  lemma {:induction false} BareInToken(q: string)
    requires Bare(q) && Contains(TOKEN, q)
    ensures Contains(INNER, q)
  {
    var n := ContainsWhere(TOKEN, q);
    assert TOKEN[0] == '<' && TOKEN[10] == '>';
    assert q[0] == TOKEN[n..][0] == TOKEN[n];
    assert n > 0;
    assert n + |q| <= 10;
    assert INNER == TOKEN[1..10];
    assert q <= INNER[n - 1..] by { assert INNER[n - 1..] == TOKEN[n..10]; }
    ContainsAt(INNER, n - 1, q);
  }

  lemma {:induction false} InnerInToken(q: string)
    requires Contains(INNER, q)
    ensures Contains(TOKEN, q)
  {
    assert INNER <= TOKEN[1..];
    ContainsAt(TOKEN, 1, INNER);
    ContainsTransitive(TOKEN, INNER, q);
  }

  // ---------------------------------------------------------------- one replacement

  /** What a bracket-free prefix of the output says about the input. */
  lemma {:induction false} PrefixBack(x: string, root: string, u: string)
    requires root != [] && '<' !in u && u <= Replace(x, root)
    ensures u <= x
    decreases |x|
  {
    if u != [] {
      assert u[0] == Replace(x, root)[0] && u[0] != '<';
      assert !(root <= x);
      PrefixBack(x[1..], root, u[1..]);
      assert u == [u[0]] + u[1..] && x == [x[0]] + x[1..];
    }
  }

  /** Replacing one root brings in no bare string except what the token itself spells. */
  lemma {:induction false} ReplaceBringsIn(s: string, root: string, q: string)
    requires root != [] && Bare(q) && Contains(Replace(s, root), q)
    ensures Contains(s, q) || Contains(INNER, q)
    decreases |s|
  {
    if s != [] {
      if root <= s {
        var rest := Replace(s[|root|..], root);
        Barrier(TOKEN, rest, q);
        if Contains(TOKEN, q) {
          BareInToken(q);
        } else {
          ReplaceBringsIn(s[|root|..], root, q);
          if Contains(s[|root|..], q) { ContainsTail(s, |root|, q); }
        }
      } else {
        var rest := Replace(s[1..], root);
        assert ([s[0]] + rest)[1..] == rest;
        if q <= [s[0]] + rest {
          PrefixBack(s, root, q);
        } else {
          ReplaceBringsIn(s[1..], root, q);
        }
      }
    }
  }

  lemma {:induction false} ReplaceRemoves(s: string, root: string)
    requires Bare(root) && !Contains(INNER, root)
    ensures !Contains(Replace(s, root), root)
    decreases |s|
  {
    if s != [] {
      if root <= s {
        var rest := Replace(s[|root|..], root);
        ReplaceRemoves(s[|root|..], root);
        if Contains(TOKEN + rest, root) {
          Barrier(TOKEN, rest, root);
          BareInToken(root);
        }
      } else {
        var rest := Replace(s[1..], root);
        ReplaceRemoves(s[1..], root);
        assert ([s[0]] + rest)[1..] == rest;
        if root <= [s[0]] + rest { PrefixBack(s, root, root); }
      }
    }
  }

  /** A replacement either finds nothing and changes nothing, or leaves a token. */
  lemma {:induction false} ReplaceLeavesToken(s: string, root: string)
    requires root != []
    ensures Contains(s, root) ==> Contains(Replace(s, root), TOKEN)
    ensures !Contains(s, root) ==> Replace(s, root) == s
    decreases |s|
  {
    if s != [] {
      if root <= s {
        assert TOKEN <= Replace(s, root);
      } else {
        ReplaceLeavesToken(s[1..], root);
        assert ([s[0]] + Replace(s[1..], root))[1..] == Replace(s[1..], root);
        assert [s[0]] + s[1..] == s;
      }
    }
  }

  // ---------------------------------------------------------------- collapsing

  lemma {:induction false} CollapseFirst(x: string)
    requires x != []
    ensures Collapse(x) != []
    ensures x[0] == '<' ==> Collapse(x)[0] == '<'
    ensures x[0] != '<' ==> Collapse(x) == [x[0]] + Collapse(x[1..])
    decreases |x|
  {
    if TOKEN + TOKEN <= x {
      assert x[0] == (TOKEN + TOKEN)[0] == '<';
      assert x[|TOKEN|] == (TOKEN + TOKEN)[|TOKEN|] == '<';
      CollapseFirst(x[|TOKEN|..]);
    }
  }

  lemma {:induction false} CollapsePrefixBack(x: string, u: string)
    requires '<' !in u && u <= Collapse(x)
    ensures u <= x
    decreases |x|
  {
    if u != [] && x != [] {
      CollapseFirst(x);
      assert u[0] == Collapse(x)[0] && u[0] != '<';
      CollapsePrefixBack(x[1..], u[1..]);
      assert u == [u[0]] + u[1..] && x == [x[0]] + x[1..];
    }
  }

  lemma {:induction false} CollapseBringsInNothing(s: string, q: string)
    requires Bare(q) && Contains(Collapse(s), q)
    ensures Contains(s, q)
    decreases |s|
  {
    if s != [] {
      if TOKEN + TOKEN <= s {
        CollapseBringsInNothing(s[|TOKEN|..], q);
        ContainsTail(s, |TOKEN|, q);
      } else {
        assert ([s[0]] + Collapse(s[1..]))[1..] == Collapse(s[1..]);
        if q <= Collapse(s) { CollapsePrefixBack(s, q); } else { CollapseBringsInNothing(s[1..], q); }
      }
    }
  }

  lemma {:induction false} TokenForth(s: string)
    requires TOKEN <= s
    ensures TOKEN <= Collapse(s)
    decreases |s|
  {
    if TOKEN + TOKEN <= s {
      var rest := s[|TOKEN|..];
      assert TOKEN <= rest;
      TokenForth(rest);
    } else {
      var m := |TOKEN| - 1;
      CollapsePlain(s[1..], m);
      assert Collapse(s)[1..][..m] == s[1..][..m] == TOKEN[1..];
      assert Collapse(s)[0] == TOKEN[0];
    }
  }

  lemma {:induction false} CollapseKeepsToken(s: string)
    ensures Contains(s, TOKEN) <==> Contains(Collapse(s), TOKEN)
    decreases |s|
  {
    if s != [] {
      if TOKEN <= s {
        TokenForth(s);
      } else {
        assert !(TOKEN + TOKEN <= s);
        CollapseKeepsToken(s[1..]);
        assert Collapse(s)[1..] == Collapse(s[1..]);
        if TOKEN <= Collapse(s) { TokenBack(s); }
      }
    }
  }

  /** Text up to the next opening bracket is copied. */
  lemma {:induction false} CollapsePlain(s: string, n: nat)
    requires n <= |s| && forall i :: 0 <= i < n ==> s[i] != '<'
    ensures |Collapse(s)| >= n && Collapse(s)[..n] == s[..n]
  {
    hide Collapse;
    if n > 0 {
      CollapseFirst(s);
      CollapsePlain(s[1..], n - 1);
      assert Collapse(s)[..n] == [s[0]] + Collapse(s[1..])[..n - 1];
      assert s[..n] == [s[0]] + s[1..][..n - 1];
    }
  }

  // ---------------------------------------------------------------- all roots

  predicate Proper(roots: seq<string>) {
    forall i :: 0 <= i < |roots| ==> roots[i] != []
  }

  function Redacted(text: string, roots: seq<string>): string
    requires Proper(roots)
  {
    Collapse(ReplaceRoots(text, roots))
  }

  lemma {:induction false} RootsBringIn(s: string, roots: seq<string>, q: string)
    requires Proper(roots) && Bare(q) && Contains(ReplaceRoots(s, roots), q) && !Contains(INNER, q)
    ensures Contains(s, q) && q !in roots
  {
    if roots != [] {
      var n := |roots| - 1;
      ReplaceBringsIn(ReplaceRoots(s, roots[..n]), roots[n], q);
      RootsBringIn(s, roots[..n], q);
      if q == roots[n] { ReplaceRemoves(ReplaceRoots(s, roots[..n]), q); }
      assert roots == roots[..n] + [roots[n]];
    }
  }

  /** No root that the token does not itself spell survives, nested and overlapping roots included. */
  lemma {:induction false} NoRootSurvives(text: string, roots: seq<string>, q: string)
    requires Proper(roots) && q in roots && Bare(q) && !Contains(INNER, q)
    ensures !Contains(Redacted(text, roots), q)
  {
    if Contains(Redacted(text, roots), q) {
      CollapseBringsInNothing(ReplaceRoots(text, roots), q);
      RootsBringIn(text, roots, q);
    }
  }

  lemma {:induction false} ContainsCharacters(s: string, q: string, c: char)
    requires Contains(s, q) && c in q
    ensures c in s
  {
    if !(q <= s) { ContainsCharacters(s[1..], q, c); }
  }

  /** A root with a slash left after trimming is never spelled by the token. */
  lemma {:induction false} SlashIsNotInToken(q: string)
    requires '/' in q
    ensures !Contains(INNER, q)
  {
    if Contains(INNER, q) { ContainsCharacters(INNER, q, '/'); }
  }

  ghost predicate Mentions(text: string, roots: seq<string>) {
    Contains(text, TOKEN) || exists r :: r in roots && Contains(text, r)
  }

  /** After the roots are replaced: unchanged and free of them, or a token is there. */
  lemma {:induction false} TokenIffMentioned(text: string, roots: seq<string>)
    requires Proper(roots) && forall r :: r in roots ==> Bare(r)
    ensures Contains(ReplaceRoots(text, roots), TOKEN) <==> Mentions(text, roots)
    ensures !Contains(ReplaceRoots(text, roots), TOKEN) ==> ReplaceRoots(text, roots) == text
  {
    if roots != [] {
      var n := |roots| - 1;
      assert roots == roots[..n] + [roots[n]];
      TokenIffMentioned(text, roots[..n]);
      var s := ReplaceRoots(text, roots[..n]);
      ReplaceLeavesToken(s, roots[n]);
    }
  }

  /** Exactly when a bare root is still readable: the token spells it, and there is a token. */
  lemma {:induction false} RootSurvivesIff(text: string, roots: seq<string>, q: string)
    requires Proper(roots) && (forall r :: r in roots ==> Bare(r)) && q in roots
    ensures Contains(Redacted(text, roots), q) <==> Contains(INNER, q) && Mentions(text, roots)
  {
    TokenIffMentioned(text, roots);
    var s := ReplaceRoots(text, roots);
    CollapseKeepsToken(s);
    if Contains(INNER, q) {
      if Mentions(text, roots) {
        InnerInToken(q);
        ContainsTransitive(Collapse(s), TOKEN, q);
      } else if Contains(Collapse(s), q) {
        CollapseBringsInNothing(s, q);
      }
    } else {
      NoRootSurvives(text, roots, q);
    }
  }

  // ---------------------------------------------------------------- twice is once

  lemma {:induction false} NothingToReplace(s: string, roots: seq<string>)
    requires Proper(roots) && forall r :: r in roots ==> !Contains(s, r)
    ensures ReplaceRoots(s, roots) == s
  {
    if roots != [] {
      var n := |roots| - 1;
      NothingToReplace(s, roots[..n]);
      ReplaceLeavesToken(s, roots[n]);
    }
  }

  /** A collapsed text starts with two tokens nowhere. */
  lemma {:induction false} CollapsedHasNoRun(s: string)
    ensures !Contains(Collapse(s), TOKEN + TOKEN)
    decreases |s|
  {
    if s != [] {
      if TOKEN + TOKEN <= s {
        CollapsedHasNoRun(s[|TOKEN|..]);
      } else {
        CollapsedHasNoRun(s[1..]);
        var out := Collapse(s);
        assert out[1..] == Collapse(s[1..]);
        if TOKEN + TOKEN <= out { RunBack(s); }
      }
    }
  }

  /** If a copied first character began a run in the output, the input had the run. */
  lemma {:induction false} RunBack(s: string)
    requires s != [] && TOKEN + TOKEN <= [s[0]] + Collapse(s[1..])
    ensures TOKEN + TOKEN <= s
  {
    var m := |TOKEN| - 1;
    var out := [s[0]] + Collapse(s[1..]);
    assert out[1..] == Collapse(s[1..]);
    assert TOKEN[1..] <= out[1..] by { assert TOKEN[1..] == (TOKEN + TOKEN)[1..|TOKEN|]; }
    CollapsePrefixBack(s[1..], TOKEN[1..]);
    PlainTail(s[1..], m);
    assert TOKEN <= out[1..][m..] by { assert out[1..][m..] == out[|TOKEN|..]; assert TOKEN == (TOKEN + TOKEN)[|TOKEN|..]; }
    var rest := s[|TOKEN|..];
    assert s[1..][m..] == rest;
    TokenBack(rest);
  }

  lemma {:induction false} PlainTail(s: string, n: nat)
    requires n <= |s| && forall i :: 0 <= i < n ==> s[i] != '<'
    ensures |Collapse(s)| >= n && Collapse(s)[n..] == Collapse(s[n..])
  {
    if n > 0 {
      CollapseFirst(s);
      PlainTail(s[1..], n - 1);
      assert s[1..][n - 1..] == s[n..];
    } else {
      assert s[0..] == s && Collapse(s)[0..] == Collapse(s);
    }
  }

  lemma {:induction false} TokenBack(s: string)
    requires TOKEN <= Collapse(s)
    ensures TOKEN <= s
  {
    if !(TOKEN + TOKEN <= s) {
      assert Collapse(s)[1..] == Collapse(s[1..]);
      assert TOKEN[1..] <= Collapse(s)[1..];
      CollapsePrefixBack(s[1..], TOKEN[1..]);
    }
  }

  lemma {:induction false} CollapseFixed(s: string)
    requires !Contains(s, TOKEN + TOKEN)
    ensures Collapse(s) == s
  {
    if s != [] {
      CollapseFixed(s[1..]);
      assert [s[0]] + s[1..] == s;
    }
  }

  /** Redacting a redacted text changes nothing. */
  lemma {:induction false} RedactIsIdempotent(text: string, roots: seq<string>)
    requires Proper(roots) && forall r :: r in roots ==> Bare(r) && !Contains(INNER, r)
    ensures Redacted(Redacted(text, roots), roots) == Redacted(text, roots)
  {
    var out := Redacted(text, roots);
    forall r | r in roots ensures !Contains(out, r) { NoRootSurvives(text, roots, r); }
    NothingToReplace(out, roots);
    CollapsedHasNoRun(ReplaceRoots(text, roots));
    CollapseFixed(out);
  }

  // ---------------------------------------------------------------- exactly when twice is once

  /** How a character changes the bracket depth. */
  function Delta(c: char): int {
    if c == '<' then 1 else if c == '>' then -1 else 0
  }

  /** Some token in `s` starts at bracket depth `d` or deeper, counting from depth `b`. */
  predicate Deep(s: string, b: int, d: int) {
    (TOKEN <= s && b >= d) || (s != [] && Deep(s[1..], b + Delta(s[0]), d))
  }

  /** Text without brackets in front changes nothing. */
  lemma {:induction false} DeepSkips(x: string, y: string, b: int, d: int)
    requires '<' !in x && '>' !in x
    ensures Deep(x + y, b, d) <==> Deep(y, b, d)
  {
    if x == [] {
      assert x + y == y;
    } else {
      assert (x + y)[1..] == x[1..] + y && (x + y)[0] == x[0] != TOKEN[0];
      DeepSkips(x[1..], y, b, d);
    }
  }

  /** A token in front counts itself, and leaves the depth as it was. */
  lemma {:induction false} DeepToken(y: string, b: int, d: int)
    ensures Deep(TOKEN + y, b, d) <==> b >= d || Deep(y, b, d)
  {
    var s := TOKEN + y;
    var last: string := ">";
    assert s[1..] == INNER + (last + y);
    DeepSkips(INNER, last + y, b + 1, d);
    assert (last + y)[1..] == y && (last + y)[0] == '>' != TOKEN[0];
  }

  lemma {:induction false} DeepWeaker(s: string, b: int, d: int, e: int)
    requires Deep(s, b, d) && e <= d
    ensures Deep(s, b, e)
  {
    if !(TOKEN <= s && b >= d) { DeepWeaker(s[1..], b + Delta(s[0]), d, e); }
  }

  lemma {:induction false} DeepBound(s: string, b: int, d: int)
    requires Deep(s, b, d)
    ensures d <= b + |s|
  {
    if !(TOKEN <= s && b >= d) { DeepBound(s[1..], b + Delta(s[0]), d); }
  }

  lemma {:induction false} TokenIsSomewhereDeep(s: string, b: int)
    requires Contains(s, TOKEN)
    ensures Deep(s, b, b - |s|)
  {
    if !(TOKEN <= s) {
      TokenIsSomewhereDeep(s[1..], b + Delta(s[0]));
      DeepWeaker(s[1..], b + Delta(s[0]), b + Delta(s[0]) - |s[1..]|, b - |s|);
    }
  }

  /** The depth of the deepest token. */
  lemma {:induction false} Deepest(s: string, d: int) returns (m: int)
    requires Deep(s, 0, d)
    ensures Deep(s, 0, m) && !Deep(s, 0, m + 1)
    decreases |s| - d
  {
    DeepBound(s, 0, d);
    if Deep(s, 0, d + 1) {
      DeepBound(s, 0, d + 1);
      m := Deepest(s, d + 1);
    } else {
      m := d;
    }
  }

  lemma {:induction false} CollapseKeepsDepth(s: string, b: int, d: int)
    requires Deep(s, b, d)
    ensures Deep(Collapse(s), b, d)
    decreases |s|
  {
    if TOKEN + TOKEN <= s {
      var rest := s[|TOKEN|..];
      assert s == TOKEN + rest && TOKEN <= rest;
      DeepToken(rest, b, d);
      CollapseKeepsDepth(rest, b, d);
    } else if TOKEN <= s && b >= d {
      TokenForth(s);
    } else {
      CollapseKeepsDepth(s[1..], b + Delta(s[0]), d);
      assert Collapse(s)[1..] == Collapse(s[1..]);
    }
  }

  /** A root found in bracket-free text puts a token at the depth of that text. */
  lemma {:induction false} FoundInside(x: string, y: string, root: string, b: int)
    requires root != [] && '<' !in x && '>' !in x && Contains(x, root)
    ensures Deep(Replace(x + y, root), b, b)
  {
    var s := x + y;
    if root <= s {
      assert TOKEN <= Replace(s, root);
    } else {
      assert x != [] && !(root <= x);
      assert s[1..] == x[1..] + y;
      FoundInside(x[1..], y, root, b);
      assert Replace(s, root)[1..] == Replace(s[1..], root);
    }
  }

  lemma {:induction false} BarePrefix(x: string, y: string, root: string)
    requires Bare(root) && root <= x + ">" + y
    ensures root <= x
  {
    var s := x + ">" + y;
    assert s[|x|] == '>';
    assert |root| <= |x|;
    assert s[..|root|] == x[..|root|];
  }

  /** Bracket-free text that does not hold a bare root is copied up to the next closing bracket. */
  lemma {:induction false} CopiedInside(x: string, y: string, root: string)
    requires Bare(root) && '<' !in x && '>' !in x && !Contains(x, root)
    ensures Replace(x + ">" + y, root) == x + ">" + Replace(y, root)
  {
    var s := x + ">" + y;
    assert s[|x|] == '>';
    if root <= s { BarePrefix(x, y, root); }
    if x == [] {
      assert s[1..] == y;
    } else {
      assert s[1..] == x[1..] + ">" + y;
      CopiedInside(x[1..], y, root);
    }
  }

  /** Replacing a bare root keeps tokens as deep as they were; a root the token spells pushes them deeper. */
  lemma {:induction false} ReplaceDeepens(s: string, root: string, b: int, d: int)
    requires Bare(root) && Deep(s, b, d)
    ensures Deep(Replace(s, root), b, if Contains(INNER, root) then d + 1 else d)
    decreases |s|
  {
    var d' := if Contains(INNER, root) then d + 1 else d;
    if root <= s {
      var rest := s[|root|..];
      assert s == root + rest;
      DeepSkips(root, rest, b, d);
      ReplaceDeepens(rest, root, b, d);
      DeepToken(Replace(rest, root), b, d');
    } else if TOKEN <= s && b >= d {
      ReplaceToken(s, root, b, d);
    } else {
      ReplaceDeepens(s[1..], root, b + Delta(s[0]), d);
      assert Replace(s, root)[1..] == Replace(s[1..], root);
    }
  }

  lemma {:induction false} ReplaceToken(s: string, root: string, b: int, d: int)
    requires Bare(root) && TOKEN <= s && b >= d
    ensures Deep(Replace(s, root), b, if Contains(INNER, root) then d + 1 else d)
  {
    var y := s[|TOKEN|..];
    assert s[1..] == INNER + (">" + y) == INNER + ">" + y;
    assert s[0] == '<' && root[0] != '<';
    var out := Replace(s, root);
    assert out == "<" + Replace(s[1..], root) && out[1..] == Replace(s[1..], root);
    if Contains(INNER, root) {
      FoundInside(INNER, ">" + y, root, b + 1);
      DeepWeaker(out[1..], b + 1, b + 1, d + 1);
    } else {
      CopiedInside(INNER, y, root);
      assert TOKEN <= out;
    }
  }

  lemma {:induction false} RootsDeepen(s: string, roots: seq<string>, d: int)
    requires Proper(roots) && (forall r :: r in roots ==> Bare(r)) && Deep(s, 0, d)
    ensures Deep(ReplaceRoots(s, roots), 0, if exists r :: r in roots && Contains(INNER, r) then d + 1 else d)
    decreases |roots|
  {
    hide Deep, Contains, Replace;
    if roots != [] {
      var n := |roots| - 1;
      var front, last := roots[..n], roots[n];
      assert roots == front + [last];
      var mid := ReplaceRoots(s, front);
      var e := if exists r :: r in front && Contains(INNER, r) then d + 1 else d;
      RootsDeepen(s, front, d);
      ReplaceDeepens(mid, last, 0, e);
      var f := if Contains(INNER, last) then e + 1 else e;
      DeepWeaker(Replace(mid, last), 0, f, if exists r :: r in roots && Contains(INNER, r) then d + 1 else d);
    }
  }

  /** With a root the token spells, a text that mentions anything changes again when redacted again. */
  lemma {:induction false} SpelledRootNeverSettles(text: string, roots: seq<string>)
    requires Proper(roots) && (forall r :: r in roots ==> Bare(r)) && (exists r :: r in roots && Contains(INNER, r))
    requires Mentions(text, roots)
    ensures Redacted(Redacted(text, roots), roots) != Redacted(text, roots)
  {
    hide Deep, Replace, ReplaceRoots, Collapse;
    var out := Redacted(text, roots);
    TokenIffMentioned(text, roots);
    CollapseKeepsToken(ReplaceRoots(text, roots));
    TokenIsSomewhereDeep(out, 0);
    hide Contains;
    var m := Deepest(out, 0 - |out|);
    RootsDeepen(out, roots, m);
    CollapseKeepsDepth(ReplaceRoots(out, roots), 0, m + 1);
  }

  lemma {:induction false} UnmentionedIsUnchanged(text: string, roots: seq<string>)
    requires Proper(roots) && (forall r :: r in roots ==> Bare(r)) && !Mentions(text, roots)
    ensures Redacted(text, roots) == text
  {
    hide Replace, ReplaceRoots, Collapse;
    TokenIffMentioned(text, roots);
    if Contains(text, TOKEN + TOKEN) {
      assert Contains(TOKEN + TOKEN, TOKEN);
      ContainsTransitive(text, TOKEN + TOKEN, TOKEN);
    }
    CollapseFixed(text);
  }

  /**
   * Redacting twice equals redacting once exactly when no root is spelled by the token, or the
   * text mentions neither a root nor the token. Both can be checked before the call.
   */
  lemma {:induction false} IdempotentIff(text: string, roots: seq<string>)
    requires Proper(roots) && forall r :: r in roots ==> Bare(r)
    ensures Redacted(Redacted(text, roots), roots) == Redacted(text, roots)
            <==> (forall r :: r in roots ==> !Contains(INNER, r)) || !Mentions(text, roots)
  {
    hide Contains, Redacted, Mentions;
    if forall r :: r in roots ==> !Contains(INNER, r) {
      RedactIsIdempotent(text, roots);
    } else if !Mentions(text, roots) {
      UnmentionedIsUnchanged(text, roots);
    } else {
      SpelledRootNeverSettles(text, roots);
    }
  }

  // ---------------------------------------------------------------- longest first

  lemma {:induction false} ContainsShorter(s: string, q: string)
    requires Contains(s, q)
    ensures |q| <= |s| && (|q| == |s| ==> q == s)
  {
    var n := ContainsWhere(s, q);
  }

  /** A text that is one of the roots becomes a single token: no shorter root cuts it up first. */
  lemma {:induction false} WholeRootBecomesToken(roots: seq<string>, k: nat)
    requires Proper(roots) && LongestFirst(roots) && Distinct(roots) && k < |roots|
    requires forall r :: r in roots ==> Bare(r) && !Contains(INNER, r)
    ensures Redacted(roots[k], roots) == TOKEN
  {
    var r := roots[k];
    forall q | q in roots[..k] ensures !Contains(r, q) {
      var i :| 0 <= i < k && roots[i] == q;
      if Contains(r, q) { ContainsShorter(r, q); }
    }
    NothingToReplace(r, roots[..k]);
    assert roots[..k + 1][..k] == roots[..k];
    assert Replace(r, r) == TOKEN by { assert r[|r|..] == []; assert TOKEN + [] == TOKEN; }
    assert ReplaceRoots(r, roots[..k + 1]) == TOKEN;
    TokenStays(r, roots, k + 1);
    CollapseFixed(TOKEN) by { if Contains(TOKEN, TOKEN + TOKEN) { ContainsShorter(TOKEN, TOKEN + TOKEN); } }
  }

  // ---------------------------------------------------------------- everything else is kept

  /** Replacing goes on behind the first occurrence and keeps what is in front of it. */
  lemma {:induction false} ReplaceAtFirst(a: string, root: string, b: string)
    requires root != [] && forall n :: 0 <= n < |a| ==> !(root <= (a + root + b)[n..])
    ensures Replace(a + root + b, root) == a + TOKEN + Replace(b, root)
  {
    var s := a + root + b;
    if a == [] {
      assert s[|root|..] == b;
    } else {
      assert s[0..] == s;
      var t := a[1..] + root + b;
      assert s[1..] == t;
      forall n | 0 <= n < |a[1..]| ensures !(root <= t[n..]) { assert t[n..] == s[n + 1..]; }
      ReplaceAtFirst(a[1..], root, b);
      assert [a[0]] + a[1..] == a;
    }
  }

  /** Collapsing drops one token of the first adjacent pair and goes on with the other. */
  lemma {:induction false} CollapseAtFirst(a: string, b: string)
    requires forall n :: 0 <= n < |a| ==> !(TOKEN + TOKEN <= (a + TOKEN + TOKEN + b)[n..])
    ensures Collapse(a + TOKEN + TOKEN + b) == a + Collapse(TOKEN + b)
  {
    var s := a + TOKEN + TOKEN + b;
    if a == [] {
      assert s == TOKEN + TOKEN + b && s[|TOKEN|..] == TOKEN + b;
    } else {
      assert s[0..] == s;
      var t := a[1..] + TOKEN + TOKEN + b;
      assert s[1..] == t;
      forall n | 0 <= n < |a[1..]| ensures !(TOKEN + TOKEN <= t[n..]) { assert t[n..] == s[n + 1..]; }
      CollapseAtFirst(a[1..], b);
      assert [a[0]] + a[1..] == a;
    }
  }

  lemma {:induction false} BareBeforeToken(a: string, q: string)
    requires Bare(q) && Contains(a + TOKEN, q)
    ensures Contains(a, q) || Contains(TOKEN, q)
  {
    if a == [] {
      assert a + TOKEN == TOKEN;
    } else if q <= a + TOKEN {
      assert (a + TOKEN)[|a|] == '<';
      assert forall i :: 0 <= i < |q| ==> q[i] == (a + TOKEN)[i];
      assert q == a[..|q|];
    } else {
      assert (a + TOKEN)[1..] == a[1..] + TOKEN;
      BareBeforeToken(a[1..], q);
    }
  }

  lemma {:induction false} StaysFrom(s: string, roots: seq<string>, k: nat, t: string)
    requires Proper(roots) && k <= |roots| && ReplaceRoots(s, roots[..k]) == t
    requires forall i :: k <= i < |roots| ==> !Contains(t, roots[i])
    ensures ReplaceRoots(s, roots) == t
    decreases |roots|
  {
    hide Contains, Replace;
    if k < |roots| {
      var n := |roots| - 1;
      assert roots[..n][..k] == roots[..k];
      StaysFrom(s, roots[..n], k, t);
      ReplaceLeavesToken(t, roots[n]);
    } else {
      assert roots[..k] == roots;
    }
  }

  lemma {:induction false} CollapseBehindPlain(a: string, t: string)
    requires '<' !in a
    ensures Collapse(a + t) == a + Collapse(t)
  {
    if a == [] {
      assert a + t == t;
    } else {
      assert (a + t)[0] == a[0] && (a + t)[1..] == a[1..] + t && [a[0]] + a[1..] == a;
      CollapseFirst(a + t);
      CollapseBehindPlain(a[1..], t);
    }
  }

  lemma {:induction false} OneTokenCollapsed(a: string, b: string)
    requires '<' !in a && '<' !in b
    ensures Collapse(a + TOKEN + b) == a + TOKEN + b
  {
    var t, u := TOKEN + b, TOKEN[1..] + b;
    assert a + TOKEN + b == a + t && t[1..] == u && u + [] == u && [t[0]] + u == t;
    CollapseBehindPlain(a, t);
    CollapseBehindPlain(u, []);
    NoRun(b);
  }

  lemma {:induction false} NoRun(b: string)
    requires '<' !in b
    ensures !(TOKEN + TOKEN <= TOKEN + b)
  {
    var t := TOKEN + b;
    assert (TOKEN + TOKEN)[|TOKEN|] == '<';
    if |t| >= |TOKEN + TOKEN| {
      assert t[|TOKEN|] == b[0] && b[0] in b;
    }
  }

  /** A root in the middle of a text that mentions no other becomes one token; the text around it is kept to the letter. */
  lemma {:induction false} SurroundingsAreKept(a: string, b: string, roots: seq<string>, k: nat)
    requires Proper(roots) && k < |roots| && '<' !in a && '<' !in b
    requires forall r :: r in roots ==> Bare(r) && !Contains(INNER, r) && !Contains(a, r) && !Contains(b, r)
    requires forall i :: 0 <= i < k ==> !Contains(a + roots[k] + b, roots[i])
    requires forall n :: 0 <= n < |a| ==> !(roots[k] <= (a + roots[k] + b)[n..])
    ensures Redacted(a + roots[k] + b, roots) == a + TOKEN + b
  {
    hide Contains, Replace, Collapse;
    var r, t := roots[k], a + TOKEN + b;
    NothingToReplace(a + r + b, roots[..k]);
    ReplaceAtFirst(a, r, b);
    ReplaceLeavesToken(b, r);
    assert roots[..k + 1][..k] == roots[..k];
    assert ReplaceRoots(a + r + b, roots[..k + 1]) == t;
    forall i | k + 1 <= i < |roots| ensures !Contains(t, roots[i]) { TokenHidesRoot(a, b, roots[i]); }
    StaysFrom(a + r + b, roots, k + 1, t);
    OneTokenCollapsed(a, b);
  }

  lemma {:induction false} TokenHidesRoot(a: string, b: string, q: string)
    requires Bare(q) && !Contains(INNER, q) && !Contains(a, q) && !Contains(b, q)
    ensures !Contains(a + TOKEN + b, q)
  {
    if Contains(a + TOKEN + b, q) {
      Barrier(a + TOKEN, b, q);
      BareBeforeToken(a, q);
      BareInToken(q);
    }
  }

  lemma {:induction false} TokenStays(s: string, roots: seq<string>, k: nat)
    requires Proper(roots) && k <= |roots| && ReplaceRoots(s, roots[..k]) == TOKEN
    requires forall r :: r in roots ==> Bare(r) && !Contains(INNER, r)
    ensures ReplaceRoots(s, roots) == TOKEN
    decreases |roots|
  {
    hide Contains, Replace;
    if k < |roots| {
      var n := |roots| - 1;
      assert roots[..n][..k] == roots[..k];
      TokenStays(s, roots[..n], k);
      if Contains(TOKEN, roots[n]) { BareInToken(roots[n]); }
      ReplaceLeavesToken(TOKEN, roots[n]);
    } else {
      assert roots[..k] == roots;
    }
  }

  lemma {:induction false} DefaultsAreBare()
    ensures forall k :: 0 <= k < 2 ==> Bare(DEFAULT_PREFIXES[k]) && TrimSlashes(DEFAULT_PREFIXES[k]) == DEFAULT_PREFIXES[k]
  {
    hide Contains;
  }

  /** The slash has to survive the trimming: with the root "workspace/" the token itself spells it. */
  lemma {:induction false} TrimmedSlashIsNotEnough(roots: seq<string>)
    requires Normalised(["workspace/"], roots) && Proper(roots)
    ensures INNER in roots && Contains(Redacted("/sandbox/workspaces", roots), INNER)
  {
    var slash: string := "workspace/";
    assert TrimSlashes(slash) == INNER by { assert slash[..|slash| - 1] == INNER; }
    DefaultsAreBare();
    var d0, d1 := DEFAULT_PREFIXES[0], DEFAULT_PREFIXES[1];
    assert Contains(d1, d1) && Contains(INNER, INNER) && Bare(INNER);
    hide Contains, Redacted, TrimSlashes, Bare;
    var all := [slash] + DEFAULT_PREFIXES;
    assert all[0] == slash && all[1] == d0 && all[2] == d1;
    forall r | r in roots ensures Bare(r) {
      assert RootOf([slash], r);
      var i :| 0 <= i < |all| && r == TrimSlashes(all[i]);
    }
    assert RootOf([slash], INNER) && RootOf([slash], d1);
    RootSurvivesIff(d1, roots, INNER);
  }

  /** With that root, redacting twice is not redacting once. */
  lemma {:induction false} TokenRootIsNotIdempotent()
    ensures var roots := DEFAULT_PREFIXES + [INNER];
            && Proper(roots) && Redacted(INNER, roots) == TOKEN
            && Redacted(TOKEN, roots) == "<" + TOKEN + ">"
  {
    hide Replace, ReplaceRoots, Contains, Collapse;
    ShortText(INNER);
    ShortText(TOKEN);
    WholeInner();
    ReplaceInner();
    ShortIsCollapsed(TOKEN);
    ShortIsCollapsed("<" + TOKEN + ">");
  }

  lemma {:induction false} WholeInner()
    ensures Replace(INNER, INNER) == TOKEN
  {
    assert INNER[|INNER|..] == [];
    assert TOKEN + [] == TOKEN;
  }

  lemma {:induction false} ShortText(s: string)
    requires |s| <= |TOKEN|
    ensures ReplaceRoots(s, DEFAULT_PREFIXES + [INNER]) == Replace(s, INNER)
  {
    hide Replace;
    var roots := DEFAULT_PREFIXES + [INNER];
    assert roots[..2] == DEFAULT_PREFIXES && roots[2] == INNER;
    TooShort(s);
  }

  lemma {:induction false} ReplaceInner()
    ensures Replace(TOKEN, INNER) == "<" + TOKEN + ">"
  {
    var rest := TOKEN[1..];
    assert rest == INNER + ">";
    assert INNER[0] == 'w' && TOKEN[0] == '<';
    assert rest[|INNER|..] == ">";
    var last: string := ">";
    assert Replace(last, INNER) == ">" by { assert last[1..] == []; }
    assert Replace(rest, INNER) == TOKEN + ">";
  }

  lemma {:induction false} TooShort(s: string)
    requires |s| <= |TOKEN|
    ensures ReplaceRoots(s, DEFAULT_PREFIXES) == s
  {
    forall r | r in DEFAULT_PREFIXES ensures !Contains(s, r) { if Contains(s, r) { ContainsShorter(s, r); } }
    NothingToReplace(s, DEFAULT_PREFIXES);
  }

  lemma {:induction false} ShortIsCollapsed(s: string)
    requires |s| < |TOKEN + TOKEN|
    ensures Collapse(s) == s
  {
    if Contains(s, TOKEN + TOKEN) { ContainsShorter(s, TOKEN + TOKEN); }
    CollapseFixed(s);
  }
}
