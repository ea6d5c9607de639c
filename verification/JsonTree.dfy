/** Plain JSON values as JavaScript builds and prints them: ordered objects and their text. */
module JsonTree {
  import opened Sorting
  import opened Text

  predicate NumeralChar(c: char) {
    IsDigit(c) || c in {'-', '+', '.', 'e'}
  }

  predicate NumeralText(s: string) {
    s != [] && forall i :: 0 <= i < |s| ==> NumeralChar(s[i])
  }

  /** A finite number other than -0, as the text it prints to: the two determine each other. */
  type Numeral = s: string | NumeralText(s) witness "0"

  datatype Tree =
    | TNull | TStr(s: string) | TBool(b: bool) | TNum(n: Numeral) | TArr(items: seq<Tree>) | TObj(fields: seq<Field>)

  /** An own property; an object lists its properties in enumeration order. */
  datatype Field = Field(key: string, value: Tree)

  // ---------------------------------------------------------------- enumeration order

  /** An array index: a decimal without leading zeros below 2^32 - 1. */
  predicate IsIndex(k: string) {
    Digits(k) && (|k| == 1 || k[0] != '0') && Value(k) < 0xFFFF_FFFF
  }

  /** Indices come first, by value; other keys follow, here in sorted order. */
  predicate EnumLess(a: string, b: string) {
    if IsIndex(a) then IsIndex(b) ==> Value(a) < Value(b)
    else !IsIndex(b) && a != b && StrLeq(a, b)
  }

  lemma {:induction false} LeadingDigit(k: string)
    requires Digits(k) && k[0] != '0'
    ensures Value(k) > 0
  {
    if |k| > 1 { LeadingDigit(k[..|k| - 1]); } else { assert k[..0] == []; }
  }

  lemma {:induction false} IndexText(k: string)
    requires Digits(k) && (|k| == 1 || k[0] != '0')
    ensures Decimal(Value(k)) == k
  {
    var p, c := k[..|k| - 1], k[|k| - 1];
    assert k == p + [c];
    if p == [] {
      assert Value(k) == DigitValue(c);
    } else {
      LeadingDigit(p);
      IndexText(p);
      assert Value(k) / 10 == Value(p) && Value(k) % 10 == DigitValue(c);
    }
  }

  /** The index keys are exactly the decimals below 2^32 - 1. */
  lemma {:induction false} IndexIff(k: string)
    ensures IsIndex(k) <==> exists n: nat :: n < 4294967295 && k == Decimal(n)
  {
    if IsIndex(k) { IndexText(k); }
    if n: nat :| n < 4294967295 && k == Decimal(n) {
      DecimalValue(n);
      DecimalHead(n);
    }
  }

  lemma {:induction false} DecimalHead(n: nat)
    ensures |Decimal(n)| == 1 || Decimal(n)[0] != '0'
    ensures n > 0 ==> Decimal(n)[0] != '0'
  {
    if n >= 10 { DecimalHead(n / 10); }
  }

  lemma {:induction false} EnumTotal(a: string, b: string)
    ensures a == b || EnumLess(a, b) || EnumLess(b, a)
    ensures !(EnumLess(a, b) && EnumLess(b, a)) && !EnumLess(a, a)
  {
    if IsIndex(a) && IsIndex(b) {
      IndexText(a);
      IndexText(b);
    }
    LexTotal(a, b, (x: char, y: char) => x < y);
  }

  lemma {:induction false} EnumTransitive(a: string, b: string, c: string)
    requires EnumLess(a, b) && EnumLess(b, c)
    ensures EnumLess(a, c)
  {
    if !IsIndex(a) {
      LexTransitive(a, b, c, (x: char, y: char) => x < y);
      LexTotal(a, b, (x: char, y: char) => x < y);
    }
  }

  ghost predicate InOrder(fields: seq<Field>) {
    forall i, j :: 0 <= i < j < |fields| ==> EnumLess(fields[i].key, fields[j].key)
  }

  predicate Has(fields: seq<Field>, k: string) {
    exists i :: 0 <= i < |fields| && fields[i].key == k
  }

  /** Objects in enumeration order with the same keys list them alike. */
  lemma {:induction false} SameKeysSameOrder(a: seq<Field>, b: seq<Field>)
    requires InOrder(a) && InOrder(b) && forall k :: Has(a, k) <==> Has(b, k)
    ensures |a| == |b| && forall i :: 0 <= i < |a| ==> a[i].key == b[i].key
  {
    if a == [] {
      if b != [] { assert Has(b, b[0].key); }
    } else {
      assert Has(a, a[0].key);
      var j :| 0 <= j < |b| && b[j].key == a[0].key;
      assert Has(b, b[0].key);
      var i :| 0 <= i < |a| && a[i].key == b[0].key;
      EnumTotal(a[0].key, b[0].key);
      assert a[0].key == b[0].key;
      forall k ensures Has(a[1..], k) <==> Has(b[1..], k) {
        HasRest(a, k);
        HasRest(b, k);
      }
      SameKeysSameOrder(a[1..], b[1..]);
      assert forall n :: 0 < n < |a| ==> a[n] == a[1..][n - 1] && b[n] == b[1..][n - 1];
    }
  }

  lemma {:induction false} HasRest(a: seq<Field>, k: string)
    requires a != [] && InOrder(a)
    ensures Has(a[1..], k) <==> Has(a, k) && k != a[0].key
  {
    EnumTotal(a[0].key, a[0].key);
    if Has(a[1..], k) {
      var i :| 0 <= i < |a[1..]| && a[1..][i].key == k;
      assert a[i + 1].key == k;
    }
    if Has(a, k) && k != a[0].key {
      var i :| 0 <= i < |a| && a[i].key == k;
      assert a[1..][i - 1].key == k;
    }
  }

  // ---------------------------------------------------------------- assignment

  /**
   * out[k] = t: an existing key keeps its place, a new index goes among the indices by value,
   * any other new key goes to the end.
   */
  function Put(out: seq<Field>, k: string, t: Tree): seq<Field> {
    if out == [] then [Field(k, t)]
    else if out[0].key == k then [Field(k, t)] + out[1..]
    else if IsIndex(k) && (!IsIndex(out[0].key) || Value(k) < Value(out[0].key)) then [Field(k, t)] + out
    else [out[0]] + Put(out[1..], k, t)
  }

  lemma {:induction false} PutMembers(out: seq<Field>, k: string, t: Tree, f: Field)
    ensures f in Put(out, k, t) ==> f == Field(k, t) || f in out
    ensures f in out && f.key != k ==> f in Put(out, k, t)
    ensures Field(k, t) in Put(out, k, t)
  {
    if out != [] {
      assert out == [out[0]] + out[1..];
      PutMembers(out[1..], k, t, f);
    }
  }

  lemma {:induction false} HasIff(fields: seq<Field>, k: string)
    ensures Has(fields, k) <==> exists f :: f in fields && f.key == k
  {
    if Has(fields, k) {
      var i :| 0 <= i < |fields| && fields[i].key == k;
      assert fields[i] in fields;
    }
    if f :| f in fields && f.key == k {
      var i :| 0 <= i < |fields| && fields[i] == f;
      assert fields[i].key == k;
    }
  }

  lemma {:induction false} PutHas(out: seq<Field>, k: string, t: Tree, x: string)
    ensures Has(Put(out, k, t), x) <==> x == k || Has(out, x)
  {
    HasIff(out, x);
    HasIff(Put(out, k, t), x);
    PutMembers(out, k, t, Field(k, t));
    if f :| f in Put(out, k, t) && f.key == x { PutMembers(out, k, t, f); }
    if f :| f in out && f.key == x { PutMembers(out, k, t, f); }
  }

  /** Assigning keys in sorted order keeps an object in enumeration order. */
  lemma {:induction false} PutKeepsOrder(out: seq<Field>, k: string, t: Tree)
    requires InOrder(out)
    requires !IsIndex(k) ==> forall i :: 0 <= i < |out| && !IsIndex(out[i].key) ==> StrLeq(out[i].key, k)
    ensures InOrder(Put(out, k, t))
  {
    if out != [] {
      var head, rest := out[0], out[1..];
      if head.key == k {
      } else if IsIndex(k) && (!IsIndex(head.key) || Value(k) < Value(head.key)) {
        forall j | 0 <= j < |out| ensures EnumLess(k, out[j].key) {
          if j > 0 { EnumTransitive(k, head.key, out[j].key); }
        }
      } else {
        PutKeepsOrder(rest, k, t);
        assert EnumLess(head.key, k) by {
          EnumTotal(head.key, k);
          if IsIndex(head.key) && IsIndex(k) { IndexText(head.key); IndexText(k); }
        }
        var tail := Put(rest, k, t);
        forall j | 0 <= j < |tail| ensures EnumLess(head.key, tail[j].key) {
          PutMembers(rest, k, t, tail[j]);
          if tail[j] != Field(k, t) {
            var i :| 0 <= i < |rest| && rest[i] == tail[j];
            assert out[i + 1] == tail[j];
          }
        }
      }
    }
  }

  // ---------------------------------------------------------------- text

  function HexDigit(d: int): char
    requires 0 <= d < 16
  {
    if d < 10 then ('0' as int + d) as char else ('a' as int + d - 10) as char
  }

  /** One character inside a JSON string. */
  function Escaped(c: char): (s: string)
    ensures s != []
  {
    if c == '"' then ['\\', '"']
    else if c == '\\' then ['\\', '\\']
    else if c == '\U{08}' then ['\\', 'b']
    else if c == '\U{0C}' then ['\\', 'f']
    else if c == '\n' then ['\\', 'n']
    else if c == '\r' then ['\\', 'r']
    else if c == '\t' then ['\\', 't']
    else if c < ' ' then ['\\', 'u', '0', '0', HexDigit(c as int / 16), HexDigit(c as int % 16)]
    else [c]
  }

  /** A string's characters and its closing quote. */
  function Body(s: string): string {
    if s == [] then ['"'] else Escaped(s[0]) + Body(s[1..])
  }

  function Quoted(s: string): string {
    ['"'] + Body(s)
  }

  function Count(t: Tree): nat {
    match t
    case TArr(items) => |items|
    case TObj(fields) => |fields|
    case _ => 0
  }

  /** JSON.stringify without spacing. */
  function JsonText(t: Tree): string
    decreases t, Count(t) + 1
  {
    match t
    case TNull => "null"
    case TBool(b) => if b then "true" else "false"
    case TNum(n) => n
    case TStr(s) => Quoted(s)
    case TArr(_) => "[" + Rest(t, 0)
    case TObj(_) => "{" + Rest(t, 0)
  }

  /** The members of an array or object from the i-th on, and the closing bracket. */
  function Rest(t: Tree, i: nat): string
    requires (t.TArr? || t.TObj?) && i <= Count(t)
    decreases t, Count(t) - i
  {
    if i == Count(t) then if t.TArr? then "]" else "}"
    else (if i == 0 then "" else ",") + Member(t, i) + Rest(t, i + 1)
  }

  function Member(t: Tree, i: nat): string
    requires (t.TArr? || t.TObj?) && i < Count(t)
    decreases t, 0
  {
    match t
    case TArr(items) => JsonText(items[i])
    case TObj(fields) => Quoted(fields[i].key) + [':'] + JsonText(fields[i].value)
  }

  // ---------------------------------------------------------------- the text determines the value

  /** What may follow a value. */
  predicate Delimited(a: string) {
    a == [] || a[0] in {',', ']', '}'}
  }

  lemma {:induction false} EscapeIsPrefixFree(c: char, d: char, x: string, y: string)
    requires Escaped(c) + x == Escaped(d) + y
    ensures c == d && x == y
  {
    var s := Escaped(c) + x;
    assert s[0] == Escaped(c)[0] == Escaped(d)[0];
    if Escaped(c)[0] == '\\' {
      assert s[1] == Escaped(c)[1] == Escaped(d)[1];
      if Escaped(c)[1] == 'u' {
        assert s[4] == Escaped(c)[4] == Escaped(d)[4] && s[5] == Escaped(c)[5] == Escaped(d)[5];
        assert c as int == c as int / 16 * 16 + c as int % 16;
        assert d as int == d as int / 16 * 16 + d as int % 16;
      }
    }
    assert |Escaped(c)| == |Escaped(d)|;
    assert x == s[|Escaped(c)|..] && y == s[|Escaped(d)|..];
  }

  lemma {:induction false} EscapeIsNotQuote(c: char)
    ensures Escaped(c)[0] != '"'
  {
  }

  lemma {:induction false} BodyIsPrefixFree(s: string, u: string, x: string, y: string)
    requires Body(s) + x == Body(u) + y
    ensures s == u && x == y
  {
    hide Escaped;
    if s != [] { EscapeIsNotQuote(s[0]); }
    if u != [] { EscapeIsNotQuote(u[0]); }
    var whole := Body(s) + x;
    assert whole[0] == Body(s)[0] == Body(u)[0];
    if s == [] {
      assert u == [];
      assert x == whole[1..] && y == whole[1..];
    } else {
      assert whole == Escaped(s[0]) + (Body(s[1..]) + x);
      assert whole == Escaped(u[0]) + (Body(u[1..]) + y);
      EscapeIsPrefixFree(s[0], u[0], Body(s[1..]) + x, Body(u[1..]) + y);
      BodyIsPrefixFree(s[1..], u[1..], x, y);
      assert s == [s[0]] + s[1..] && u == [u[0]] + u[1..];
    }
  }

  lemma {:induction false} Cancel(p: string, a: string, b: string)
    requires p + a == p + b
    ensures a == b
  {
    assert a == (p + a)[|p|..] && b == (p + b)[|p|..];
  }

  lemma {:induction false} QuoteIsPrefixFree(s: string, u: string, x: string, y: string)
    requires Quoted(s) + x == Quoted(u) + y
    ensures s == u && x == y
  {
    hide Body;
    assert Quoted(s) + x == ['"'] + (Body(s) + x);
    assert Quoted(u) + y == ['"'] + (Body(u) + y);
    Cancel(['"'], Body(s) + x, Body(u) + y);
    BodyIsPrefixFree(s, u, x, y);
  }

  /** How many characters at the front can belong to a number. */
  function Span(s: string): (n: nat)
    ensures n <= |s| && forall i :: 0 <= i < n ==> NumeralChar(s[i])
    ensures s != [] && NumeralChar(s[0]) ==> n > 0
  {
    if s == [] || !NumeralChar(s[0]) then 0 else 1 + Span(s[1..])
  }

  lemma {:induction false} NumeralSpan(m: string, a: string)
    requires (forall i :: 0 <= i < |m| ==> NumeralChar(m[i])) && Delimited(a)
    ensures Span(m + a) == |m|
  {
    if m == [] {
      assert m + a == a;
    } else {
      assert (m + a)[1..] == m[1..] + a;
      NumeralSpan(m[1..], a);
    }
  }

  lemma {:induction false} NumeralIsPrefixFree(m: Numeral, n: Numeral, a: string, b: string)
    requires m + a == n + b && Delimited(a) && Delimited(b)
    ensures m == n && a == b
  {
    NumeralSpan(m, a);
    NumeralSpan(n, b);
    var s := m + a;
    assert m == s[..|m|] && n == s[..|n|] && a == s[|m|..] && b == s[|n|..];
  }

  /** The first character tells the kind of value. */
  predicate Opens(t: Tree, c: char) {
    match t
    case TNull => c == 'n'
    case TBool(b) => c == if b then 't' else 'f'
    case TNum(_) => NumeralChar(c)
    case TStr(_) => c == '"'
    case TArr(_) => c == '['
    case TObj(_) => c == '{'
  }

  lemma {:induction false} FirstCharacter(t: Tree)
    ensures JsonText(t) != [] && Opens(t, JsonText(t)[0])
  {
  }

  lemma {:induction false} RestStarts(t: Tree, i: nat)
    requires (t.TArr? || t.TObj?) && i <= Count(t)
    ensures Rest(t, i) != []
    ensures i == Count(t) ==> Rest(t, i)[0] == if t.TArr? then ']' else '}'
    ensures 0 < i < Count(t) ==> Rest(t, i)[0] == ','
    ensures 0 == i < Count(t) ==> Rest(t, i)[0] !in {',', ']', '}'}
  {
    if 0 == i < Count(t) && t.TArr? { FirstCharacter(t.items[0]); }
  }

  ghost predicate SameKind(t: Tree, u: Tree) {
    (t.TArr? && u.TArr?) || (t.TObj? && u.TObj?)
  }

  ghost predicate SameMember(t: Tree, u: Tree, i: nat)
    requires SameKind(t, u) && i < Count(t) && i < Count(u)
  {
    if t.TArr? then t.items[i] == u.items[i] else t.fields[i] == u.fields[i]
  }

  lemma {:induction false} SameMembers(t: Tree, u: Tree)
    requires SameKind(t, u) && Count(t) == Count(u) && forall k :: 0 <= k < Count(t) ==> SameMember(t, u, k)
    ensures t == u
  {
    if t.TArr? {
      forall k | 0 <= k < Count(t) ensures t.items[k] == u.items[k] { assert SameMember(t, u, k); }
      assert t.items == u.items;
    } else {
      forall k | 0 <= k < Count(t) ensures t.fields[k] == u.fields[k] { assert SameMember(t, u, k); }
      assert t.fields == u.fields;
    }
  }

  /** Values whose texts begin alike are of one kind. */
  lemma {:induction false} SameOpening(t: Tree, u: Tree, a: string, b: string)
    requires JsonText(t) + a == JsonText(u) + b
    ensures (t.TNull? <==> u.TNull?) && (t.TNum? <==> u.TNum?) && (t.TStr? <==> u.TStr?) && (t.TArr? <==> u.TArr?) && (t.TObj? <==> u.TObj?)
    ensures t.TBool? ==> t == u
  {
    hide JsonText;
    FirstCharacter(t);
    FirstCharacter(u);
    assert (JsonText(t) + a)[0] == JsonText(t)[0] && (JsonText(u) + b)[0] == JsonText(u)[0];
  }

  lemma {:induction false} LeafIsPrefixFree(t: Tree, u: Tree, a: string, b: string)
    requires JsonText(t) + a == JsonText(u) + b && Delimited(a) && Delimited(b) && !t.TArr? && !t.TObj?
    ensures t == u && a == b
  {
    SameOpening(t, u, a, b);
    hide Quoted;
    match t
    case TNum(n) => NumeralIsPrefixFree(n, u.n, a, b);
    case TStr(v) => QuoteIsPrefixFree(v, u.s, a, b);
    case _ =>
      hide JsonText;
      Cancel(JsonText(t), a, b);
  }

  lemma {:induction false} OpenBracket(t: Tree, a: string)
    requires t.TArr? || t.TObj?
    ensures JsonText(t) + a == (if t.TArr? then "[" else "{") + (Rest(t, 0) + a)
  {
    hide Rest;
    var p: string := if t.TArr? then "[" else "{";
    assert JsonText(t) == p + Rest(t, 0);
  }

  /** The text of a value can be read off the front of a longer text, one way only. */
  lemma {:induction false} TextIsPrefixFree(t: Tree, u: Tree, a: string, b: string)
    requires JsonText(t) + a == JsonText(u) + b && Delimited(a) && Delimited(b)
    ensures t == u && a == b
    decreases t, Count(t) + 1
  {
    hide JsonText, Rest, SameMember;
    if t.TArr? || t.TObj? {
      SameOpening(t, u, a, b);
      OpenBracket(t, a);
      OpenBracket(u, b);
      Cancel(if t.TArr? then "[" else "{", Rest(t, 0) + a, Rest(u, 0) + b);
      RestIsPrefixFree(t, u, 0, a, b);
      SameMembers(t, u);
    } else {
      LeafIsPrefixFree(t, u, a, b);
    }
  }

  lemma {:induction false} RestUnfolds(t: Tree, i: nat, a: string)
    requires (t.TArr? || t.TObj?) && i < Count(t)
    ensures Rest(t, i) + a == (if i == 0 then "" else ",") + (Member(t, i) + (Rest(t, i + 1) + a))
  {
    hide Member;
    var p: string := if i == 0 then "" else ",";
    assert Rest(t, i) == p + Member(t, i) + Rest(t, i + 1);
  }

  lemma {:induction false} RestIsPrefixFree(t: Tree, u: Tree, i: nat, a: string, b: string)
    requires SameKind(t, u) && i <= Count(t) && i <= Count(u) && Rest(t, i) + a == Rest(u, i) + b
    ensures Count(t) == Count(u) && a == b
    ensures forall k :: i <= k < Count(t) ==> SameMember(t, u, k)
    decreases t, Count(t) - i
  {
    hide Rest, Member, SameMember;
    SameCount(t, u, i, a, b);
    if i == Count(t) {
      RestEnds(t, u, i);
      Cancel(Rest(t, i), a, b);
    } else {
      RestUnfolds(t, i, a);
      RestUnfolds(u, i, b);
      var x, y := Rest(t, i + 1) + a, Rest(u, i + 1) + b;
      RestDelimits(t, i + 1, a);
      RestDelimits(u, i + 1, b);
      Cancel(if i == 0 then "" else ",", Member(t, i) + x, Member(u, i) + y);
      MemberIsPrefixFree(t, u, i, x, y);
      RestIsPrefixFree(t, u, i + 1, a, b);
    }
  }

  /** Both lists end here, or neither does. */
  lemma {:induction false} SameCount(t: Tree, u: Tree, i: nat, a: string, b: string)
    requires SameKind(t, u) && i <= Count(t) && i <= Count(u) && Rest(t, i) + a == Rest(u, i) + b
    ensures i == Count(t) <==> i == Count(u)
  {
    RestStarts(t, i);
    RestStarts(u, i);
    hide Rest;
    assert (Rest(t, i) + a)[0] == Rest(t, i)[0] && (Rest(u, i) + b)[0] == Rest(u, i)[0];
  }

  lemma {:induction false} RestEnds(t: Tree, u: Tree, i: nat)
    requires SameKind(t, u) && i == Count(t) == Count(u)
    ensures Rest(t, i) == Rest(u, i)
  {
  }

  lemma {:induction false} RestDelimits(t: Tree, i: nat, a: string)
    requires (t.TArr? || t.TObj?) && 0 < i <= Count(t)
    ensures Delimited(Rest(t, i) + a)
  {
    RestStarts(t, i);
    hide Rest;
    assert (Rest(t, i) + a)[0] == Rest(t, i)[0];
  }

  lemma {:induction false} MemberUnfolds(t: Tree, i: nat, x: string)
    requires t.TObj? && i < Count(t)
    ensures Member(t, i) + x == Quoted(t.fields[i].key) + ([':'] + (JsonText(t.fields[i].value) + x))
  {
    hide Quoted, JsonText;
    assert Member(t, i) == Quoted(t.fields[i].key) + [':'] + JsonText(t.fields[i].value);
  }

  lemma {:induction false} MemberIsPrefixFree(t: Tree, u: Tree, i: nat, x: string, y: string)
    requires SameKind(t, u) && i < Count(t) && i < Count(u) && Member(t, i) + x == Member(u, i) + y
    requires Delimited(x) && Delimited(y)
    ensures SameMember(t, u, i) && x == y
    decreases t, 0
  {
    hide Quoted, JsonText;
    match t
    case TArr(items) => TextIsPrefixFree(items[i], u.items[i], x, y);
    case TObj(fields) =>
      var f, h := fields[i], u.fields[i];
      MemberUnfolds(t, i, x);
      MemberUnfolds(u, i, y);
      hide Member;
      QuoteIsPrefixFree(f.key, h.key, [':'] + (JsonText(f.value) + x), [':'] + (JsonText(h.value) + y));
      Cancel([':'], JsonText(f.value) + x, JsonText(h.value) + y);
      TextIsPrefixFree(f.value, h.value, x, y);
  }

  /** Equal text exactly for equal values, property order included. */
  lemma {:induction false} SameTextIffSameTree(t: Tree, u: Tree)
    ensures JsonText(t) == JsonText(u) <==> t == u
  {
    if JsonText(t) == JsonText(u) {
      assert JsonText(t) + [] == JsonText(u) + [];
      TextIsPrefixFree(t, u, [], []);
    }
  }
}
