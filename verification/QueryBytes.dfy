/** The signed form of a query: sorted, percent-encoded key=value pairs joined by '&'. */
module QueryBytes {
  import opened Statuses
  import opened Sorting
  import opened Text

  /** A JavaScript string: UTF-16 code units. */
  type Unit = x: int | 0 <= x < 0x1_0000
  type Units = seq<Unit>

  // ---------------------------------------------------------------- code points

  predicate High(u: int) { 0xD800 <= u < 0xDC00 }
  predicate Low(u: int) { 0xDC00 <= u < 0xE000 }

  predicate Scalar(cp: int) {
    0 <= cp < 0x11_0000 && !High(cp) && !Low(cp)
  }

  /** None for a lone surrogate: encodeURIComponent throws. */
  function CodePoints(s: Units): (r: Option<seq<int>>)
    ensures r.Some? ==> forall i :: 0 <= i < |r.value| ==> Scalar(r.value[i])
  {
    if s == [] then Some([])
    else if Low(s[0]) then None
    else if High(s[0]) then
      if |s| < 2 || !Low(s[1]) then None
      else
        var rest := CodePoints(s[2..]);
        if rest.None? then None else Some([0x1_0000 + (s[0] - 0xD800) * 0x400 + (s[1] - 0xDC00)] + rest.value)
    else
      var rest := CodePoints(s[1..]);
      if rest.None? then None else Some([s[0]] + rest.value)
  }

  function UnitsOf(cp: int): Units
    requires Scalar(cp)
  {
    if cp < 0x1_0000 then [cp] else [0xD800 + (cp - 0x1_0000) / 0x400, 0xDC00 + (cp - 0x1_0000) % 0x400]
  }

  function ToUnits(cps: seq<int>): Units
    requires forall i :: 0 <= i < |cps| ==> Scalar(cps[i])
  {
    if cps == [] then [] else UnitsOf(cps[0]) + ToUnits(cps[1..])
  }

  /** The code points of a string determine it. */
  lemma {:induction false} CodePointsRoundTrip(s: Units)
    requires CodePoints(s).Some?
    ensures ToUnits(CodePoints(s).value) == s
  {
    if s != [] {
      var cps := CodePoints(s).value;
      if High(s[0]) {
        CodePointsRoundTrip(s[2..]);
        assert cps[1..] == CodePoints(s[2..]).value;
        assert UnitsOf(cps[0]) == [s[0], s[1]];
        assert s == [s[0], s[1]] + s[2..];
      } else {
        CodePointsRoundTrip(s[1..]);
        assert cps[1..] == CodePoints(s[1..]).value;
        assert s == [s[0]] + s[1..];
      }
    }
  }

  /** Every sequence of scalar values has a string that is read as these code points. */
  lemma {:induction false} UnitsRoundTrip(cps: seq<int>)
    requires forall i :: 0 <= i < |cps| ==> Scalar(cps[i])
    ensures CodePoints(ToUnits(cps)) == Some(cps)
  {
    if cps != [] {
      UnitsRoundTrip(cps[1..]);
      hide CodePoints, UnitsOf;
      FirstUnits(cps[0], ToUnits(cps[1..]), cps[1..]);
      assert [cps[0]] + cps[1..] == cps;
    }
  }

  lemma {:induction false} FirstUnits(cp: int, tail: Units, rest: seq<int>)
    requires Scalar(cp) && CodePoints(tail) == Some(rest)
    ensures CodePoints(UnitsOf(cp) + tail) == Some([cp] + rest)
  {
    var s := UnitsOf(cp) + tail;
    assert s[|UnitsOf(cp)|..] == tail;
    if cp >= 0x1_0000 { assert s[0] == UnitsOf(cp)[0] && s[1] == UnitsOf(cp)[1]; }
  }

  /** The Unicode scalar values: all code points but the surrogates. */
  lemma {:induction false} ScalarIff(cp: int)
    ensures Scalar(cp) <==> 0 <= cp <= 0xD7FF || 0xE000 <= cp <= 0x10FFFF
  {
  }

  // ---------------------------------------------------------------- percent-encoding

  /** What encodeURIComponent leaves as it is, by ASCII code: digits, letters and - _ . ! ~ * ' ( ). */
  lemma {:induction false} UnreservedIff(cp: int)
    ensures Unreserved(cp) <==> 48 <= cp <= 57 || 65 <= cp <= 90 || 97 <= cp <= 122 || cp in {33, 39, 40, 41, 42, 45, 46, 95, 126}
  {
  }

  predicate Unreserved(cp: int) {
    || 'a' as int <= cp <= 'z' as int || 'A' as int <= cp <= 'Z' as int || '0' as int <= cp <= '9' as int
    || cp in {'-' as int, '_' as int, '.' as int, '!' as int, '~' as int, '*' as int, '\'' as int, '(' as int, ')' as int}
  }

  function Hex(d: int): (c: char)
    requires 0 <= d < 16
    ensures IsDigit(c) || 'A' <= c <= 'F'
  {
    if d < 10 then ('0' as int + d) as char else ('A' as int + d - 10) as char
  }

  function Unhex(c: char): int {
    if IsDigit(c) then c as int - '0' as int else c as int - 'A' as int + 10
  }

  function Percent(b: int): string
    requires 0 <= b < 256
  {
    ['%', Hex(b / 16), Hex(b % 16)]
  }

  /** The UTF-8 bytes of a code point. */
  function Utf8(cp: int): (r: seq<int>)
    requires Scalar(cp)
    ensures 1 <= |r| <= 4 && forall i :: 0 <= i < |r| ==> 0 <= r[i] < 256
  {
    if cp < 0x80 then [cp]
    else if cp < 0x800 then [0xC0 + cp / 64, 0x80 + cp % 64]
    else if cp < 0x1_0000 then [0xE0 + cp / 4096, 0x80 + cp / 64 % 64, 0x80 + cp % 64]
    else [0xF0 + cp / 262144, 0x80 + cp / 4096 % 64, 0x80 + cp / 64 % 64, 0x80 + cp % 64]
  }

  function PercentAll(bytes: seq<int>): string
    requires forall i :: 0 <= i < |bytes| ==> 0 <= bytes[i] < 256
  {
    if bytes == [] then [] else Percent(bytes[0]) + PercentAll(bytes[1..])
  }

  function EncodeCp(cp: int): (s: string)
    requires Scalar(cp)
  {
    if Unreserved(cp) then [cp as char] else PercentAll(Utf8(cp))
  }

  function EncodeAll(cps: seq<int>): string
    requires forall i :: 0 <= i < |cps| ==> Scalar(cps[i])
  {
    if cps == [] then [] else EncodeCp(cps[0]) + EncodeAll(cps[1..])
  }

  predicate Safe(c: char) {
    c == '%' || (c < 0x80 as char && Unreserved(c as int))
  }

  lemma {:induction false} PercentAllSafe(bytes: seq<int>)
    requires forall i :: 0 <= i < |bytes| ==> 0 <= bytes[i] < 256
    ensures forall i :: 0 <= i < |PercentAll(bytes)| ==> Safe(PercentAll(bytes)[i])
  {
    if bytes != [] { PercentAllSafe(bytes[1..]); }
  }

  /** Encoded text holds only unreserved characters and '%': never '&' or '='. */
  lemma {:induction false} EncodedIsSafe(cps: seq<int>)
    requires forall i :: 0 <= i < |cps| ==> Scalar(cps[i])
    ensures forall i :: 0 <= i < |EncodeAll(cps)| ==> Safe(EncodeAll(cps)[i])
    ensures '&' !in EncodeAll(cps) && '=' !in EncodeAll(cps)
  {
    if cps != [] {
      EncodedIsSafe(cps[1..]);
      if !Unreserved(cps[0]) { PercentAllSafe(Utf8(cps[0])); }
    }
  }

  // ---------------------------------------------------------------- decoding

  /** The byte spelled by the escape at position i. */
  function ByteAt(s: string, i: nat): int {
    if i + 2 < |s| then Unhex(s[i + 1]) * 16 + Unhex(s[i + 2]) else 0
  }

  datatype Decoded = Decoded(cp: int, length: nat)

  function DecodeFirst(s: string): Decoded
    requires s != []
  {
    if s[0] != '%' then Decoded(s[0] as int, 1)
    else
      var b := ByteAt(s, 0);
      if b < 0x80 then Decoded(b, 3)
      else if b < 0xE0 then Decoded((b - 0xC0) * 64 + (ByteAt(s, 3) - 0x80), 6)
      else if b < 0xF0 then Decoded((b - 0xE0) * 4096 + (ByteAt(s, 3) - 0x80) * 64 + (ByteAt(s, 6) - 0x80), 9)
      else Decoded((b - 0xF0) * 262144 + (ByteAt(s, 3) - 0x80) * 4096 + (ByteAt(s, 6) - 0x80) * 64 + (ByteAt(s, 9) - 0x80), 12)
  }

  lemma {:induction false} PercentByte(b: int, rest: string)
    requires 0 <= b < 256
    ensures ByteAt(Percent(b) + rest, 0) == b
  {
    assert b == b / 16 * 16 + b % 16;
    var s := Percent(b) + rest;
    assert s[1] == Hex(b / 16) && s[2] == Hex(b % 16);
  }

  lemma {:induction false} ByteShift(p: string, s: string, i: nat)
    requires |p| == 3
    ensures ByteAt(p + s, i + 3) == ByteAt(s, i)
  {
  }

  lemma {:induction false} PercentAllLength(bytes: seq<int>)
    requires forall i :: 0 <= i < |bytes| ==> 0 <= bytes[i] < 256
    ensures |PercentAll(bytes)| == 3 * |bytes|
  {
    if bytes != [] { PercentAllLength(bytes[1..]); }
  }

  lemma {:induction false} PercentAllAt(bytes: seq<int>, rest: string, k: nat)
    requires k < |bytes| && forall i :: 0 <= i < |bytes| ==> 0 <= bytes[i] < 256
    ensures ByteAt(PercentAll(bytes) + rest, 3 * k) == bytes[k]
  {
    hide ByteAt, Percent;
    var tail := PercentAll(bytes[1..]) + rest;
    assert PercentAll(bytes) + rest == Percent(bytes[0]) + tail;
    if k == 0 {
      PercentByte(bytes[0], tail);
    } else {
      PercentAllAt(bytes[1..], rest, k - 1);
      assert |Percent(bytes[0])| == 3 by { PercentSize(bytes[0]); }
      ByteShift(Percent(bytes[0]), tail, 3 * (k - 1));
    }
  }

  lemma {:induction false} PercentSize(b: int)
    requires 0 <= b < 256
    ensures |Percent(b)| == 3 && Percent(b)[0] == '%'
  {
  }

  /** What the leading byte of a code point says about its length. */
  lemma {:induction false} LeadByte(cp: int)
    requires Scalar(cp)
    ensures var b := Utf8(cp);
            && (|b| == 1 <==> b[0] < 0x80) && (|b| == 2 <==> 0x80 <= b[0] < 0xE0) && (|b| == 3 <==> 0xE0 <= b[0] < 0xF0)
            && (|b| == 1 ==> b[0] == cp)
            && (|b| == 2 ==> (b[0] - 0xC0) * 64 + (b[1] - 0x80) == cp)
            && (|b| == 3 ==> (b[0] - 0xE0) * 4096 + (b[1] - 0x80) * 64 + (b[2] - 0x80) == cp)
            && (|b| == 4 ==> (b[0] - 0xF0) * 262144 + (b[1] - 0x80) * 4096 + (b[2] - 0x80) * 64 + (b[3] - 0x80) == cp)
  {
    Reassemble(cp);
  }

  /** Percent-encoding is a prefix code: the first code point can be read off. */
  lemma {:induction false} DecodesFirst(cp: int, rest: string)
    requires Scalar(cp)
    ensures DecodeFirst(EncodeCp(cp) + rest) == Decoded(cp, |EncodeCp(cp)|)
  {
    if !Unreserved(cp) {
      var bytes := Utf8(cp);
      PercentAllLength(bytes);
      PercentSize(bytes[0]);
      assert (EncodeCp(cp) + rest)[0] == '%';
      LeadByte(cp);
      hide PercentAll, ByteAt, Utf8;
      PercentAllAt(bytes, rest, 0);
      if |bytes| > 1 { PercentAllAt(bytes, rest, 1); }
      if |bytes| > 2 { PercentAllAt(bytes, rest, 2); }
      if |bytes| > 3 { PercentAllAt(bytes, rest, 3); }
    }
  }

  lemma {:induction false} Reassemble(cp: int)
    requires Scalar(cp)
    ensures cp == cp / 64 * 64 + cp % 64
    ensures cp / 64 == cp / 4096 * 64 + cp / 64 % 64
    ensures cp / 4096 == cp / 262144 * 64 + cp / 4096 % 64
  {
  }

  lemma {:induction false} EncodeIsInjective(a: seq<int>, b: seq<int>)
    requires forall i :: 0 <= i < |a| ==> Scalar(a[i])
    requires forall i :: 0 <= i < |b| ==> Scalar(b[i])
    requires EncodeAll(a) == EncodeAll(b)
    ensures a == b
  {
    if a != [] { EncodeNotEmpty(a[0]); }
    if b != [] { EncodeNotEmpty(b[0]); }
    if a != [] && b != [] {
      DecodesFirst(a[0], EncodeAll(a[1..]));
      DecodesFirst(b[0], EncodeAll(b[1..]));
      var n := |EncodeCp(a[0])|;
      assert EncodeAll(a)[n..] == EncodeAll(a[1..]);
      assert EncodeAll(b)[n..] == EncodeAll(b[1..]);
      hide EncodeCp, DecodeFirst;
      EncodeIsInjective(a[1..], b[1..]);
      assert a == [a[0]] + a[1..] && b == [b[0]] + b[1..];
    }
  }

  lemma {:induction false} EncodeNotEmpty(cp: int)
    requires Scalar(cp)
    ensures EncodeCp(cp) != []
  {
  }

  // ---------------------------------------------------------------- the query

  /** Own keys in insertion order, and their values. */
  datatype Params = Params(keys: seq<Units>, vals: map<Units, Units>)

  ghost predicate WellFormed(p: Params) {
    && (forall k :: k in p.keys <==> k in p.vals)
    && (forall i, j :: 0 <= i < j < |p.keys| ==> p.keys[i] != p.keys[j])
  }

  /** Array.prototype.sort: by code units. */
  predicate UnitsLeq(a: Units, b: Units) {
    LexLeq(a, b, (x: Unit, y: Unit) => x < y)
  }

  predicate Encodable(s: Units) {
    CodePoints(s).Some?
  }

  function EncodeUri(s: Units): string
    requires Encodable(s)
  {
    EncodeAll(CodePoints(s).value)
  }

  function Value(p: Params, k: Units): Units {
    if k in p.vals then p.vals[k] else []
  }

  predicate AllEncodable(p: Params, keys: seq<Units>) {
    forall i :: 0 <= i < |keys| ==> Encodable(keys[i]) && Encodable(Value(p, keys[i]))
  }

  function Pair(p: Params, k: Units): string
    requires Encodable(k) && Encodable(Value(p, k))
  {
    EncodeUri(k) + ['='] + EncodeUri(Value(p, k))
  }

  function Pairs(p: Params, keys: seq<Units>): (r: seq<string>)
    requires AllEncodable(p, keys)
  {
    seq(|keys|, i requires 0 <= i < |keys| => Pair(p, keys[i]))
  }

  /** None when a key or value holds a lone surrogate. */
  function CanonicalQueryBytes(p: Params): Option<string> {
    var keys := Sort(p.keys, UnitsLeq);
    if AllEncodable(p, keys) then Some(JoinWith(Pairs(p, keys), '&')) else None
  }

  /** Dictionary order on code units. */
  ghost predicate Before(a: Units, b: Units) {
    exists n :: 0 <= n <= |a| && n <= |b| && a[..n] == b[..n] && (n == |a| || (n < |b| && a[n] < b[n]))
  }

  /** The result lists every parameter once, keys ascending, each as its encoded key, '=' and encoded value. */
  lemma {:induction false} KeysAscend(p: Params) returns (keys: seq<Units>)
    requires CanonicalQueryBytes(p).Some?
    ensures multiset(keys) == multiset(p.keys) && forall i, j :: 0 <= i < j < |keys| ==> Before(keys[i], keys[j])
    ensures AllEncodable(p, keys) && CanonicalQueryBytes(p) == Some(JoinWith(Pairs(p, keys), '&'))
    ensures forall i :: 0 <= i < |keys| ==> Pairs(p, keys)[i] == EncodeUri(keys[i]) + "=" + EncodeUri(Value(p, keys[i]))
  {
    keys := Sort(p.keys, UnitsLeq);
    UnitsAreOrdered();
    SortPermutes(p.keys, UnitsLeq);
    SortOrders(p.keys, UnitsLeq);
    forall i, j | 0 <= i < j < |keys| ensures Before(keys[i], keys[j]) {
      LexLeqIff(keys[i], keys[j], (x: Unit, y: Unit) => x < y);
      assert UnitsLeq(keys[i], keys[j]);
    }
    hide EncodeAll;
  }

  lemma {:induction false} UnitsAreOrdered()
    ensures TotalOrder(UnitsLeq)
  {
    var less := (x: Unit, y: Unit) => x < y;
    forall x: Units, y: Units ensures (UnitsLeq(x, y) || UnitsLeq(y, x)) && (UnitsLeq(x, y) && UnitsLeq(y, x) ==> x == y) { LexTotal(x, y, less); }
    forall x: Units, y: Units, z: Units | UnitsLeq(x, y) && UnitsLeq(y, z) ensures UnitsLeq(x, z) { LexTransitive(x, y, z, less); }
  }

  /** The order in which parameters were added is invisible. */
  lemma {:induction false} OrderIsIrrelevant(p: Params, q: Params)
    requires p.vals == q.vals && multiset(p.keys) == multiset(q.keys)
    ensures CanonicalQueryBytes(p) == CanonicalQueryBytes(q)
  {
    UnitsAreOrdered();
    SortIsCanonical(p.keys, q.keys, UnitsLeq);
    var keys := Sort(p.keys, UnitsLeq);
    assert AllEncodable(p, keys) <==> AllEncodable(q, keys);
    if AllEncodable(p, keys) { assert Pairs(p, keys) == Pairs(q, keys); }
  }

  lemma {:induction false} UriIsInjective(a: Units, b: Units)
    requires Encodable(a) && Encodable(b) && EncodeUri(a) == EncodeUri(b)
    ensures a == b
  {
    hide EncodeAll, CodePoints;
    EncodeIsInjective(CodePoints(a).value, CodePoints(b).value);
    CodePointsRoundTrip(a);
    CodePointsRoundTrip(b);
  }

  lemma {:induction false} PairIsInjective(p: Params, q: Params, j: Units, k: Units)
    requires Encodable(j) && Encodable(Value(p, j)) && Encodable(k) && Encodable(Value(q, k)) && Pair(p, j) == Pair(q, k)
    ensures j == k && Value(p, j) == Value(q, k)
  {
    hide EncodeAll, CodePoints;
    EncodedIsSafe(CodePoints(j).value);
    EncodedIsSafe(CodePoints(k).value);
    SplitFirst(EncodeUri(j), EncodeUri(Value(p, j)), '=');
    SplitFirst(EncodeUri(k), EncodeUri(Value(q, k)), '=');
    assert EncodeUri(j) == SplitOn(Pair(p, j), '=')[0] == EncodeUri(k);
    assert EncodeUri(Value(p, j)) == Pair(p, j)[|EncodeUri(j)| + 1..];
    assert EncodeUri(Value(q, k)) == Pair(q, k)[|EncodeUri(k)| + 1..];
    UriIsInjective(j, k);
    UriIsInjective(Value(p, j), Value(q, k));
  }

  lemma {:induction false} PairHasNoAmpersand(p: Params, k: Units)
    requires Encodable(k) && Encodable(Value(p, k))
    ensures '&' !in Pair(p, k) && Pair(p, k) != []
  {
    hide EncodeAll, CodePoints;
    EncodedIsSafe(CodePoints(k).value);
    EncodedIsSafe(CodePoints(Value(p, k)).value);
  }

  lemma {:induction false} JoinedPairs(p: Params, keys: seq<Units>)
    requires AllEncodable(p, keys)
    ensures keys != [] ==> SplitOn(JoinWith(Pairs(p, keys), '&'), '&') == Pairs(p, keys)
    ensures JoinWith(Pairs(p, keys), '&') == [] <==> keys == []
  {
    hide Pair;
    forall i | 0 <= i < |keys| ensures '&' !in Pairs(p, keys)[i] && Pairs(p, keys)[i] != [] { PairHasNoAmpersand(p, keys[i]); }
    if keys != [] { SplitJoin(Pairs(p, keys), '&'); }
  }

  /** Equal bytes mean equal parameters. */
  lemma {:induction false} QueryBytesAreInjective(p: Params, q: Params)
    requires WellFormed(p) && WellFormed(q) && CanonicalQueryBytes(p).Some?
    requires CanonicalQueryBytes(p) == CanonicalQueryBytes(q)
    ensures p.vals == q.vals
  {
    var a, b := Sort(p.keys, UnitsLeq), Sort(q.keys, UnitsLeq);
    JoinedPairs(p, a);
    JoinedPairs(q, b);
    assert Pairs(p, a) == Pairs(q, b);
    forall i | 0 <= i < |a| ensures a[i] == b[i] && Value(p, a[i]) == Value(q, b[i]) {
      assert Pairs(p, a)[i] == Pairs(q, b)[i];
      PairIsInjective(p, q, a[i], b[i]);
    }
    assert a == b;
    forall k ensures k in p.vals <==> k in a { SortMembers(p.keys, UnitsLeq, k); }
    forall k ensures k in q.vals <==> k in b { SortMembers(q.keys, UnitsLeq, k); }
    forall k | k in p.vals ensures p.vals[k] == q.vals[k] {
      var i :| 0 <= i < |a| && a[i] == k;
      assert Value(p, a[i]) == Value(q, b[i]);
    }
  }

  /** Two parameter maps have the same signed bytes exactly when they are equal. */
  lemma {:induction false} SameBytesIffSameParams(p: Params, q: Params)
    requires WellFormed(p) && WellFormed(q) && CanonicalQueryBytes(p).Some?
    ensures CanonicalQueryBytes(p) == CanonicalQueryBytes(q) <==> p.vals == q.vals
  {
    hide CanonicalQueryBytes;
    if CanonicalQueryBytes(p) == CanonicalQueryBytes(q) { QueryBytesAreInjective(p, q); }
    if p.vals == q.vals {
      SameKeys(p.keys, q.keys);
      OrderIsIrrelevant(p, q);
    }
  }

  /** Two duplicate-free lists of the same keys are permutations of each other. */
  lemma {:induction false} SameKeys(a: seq<Units>, b: seq<Units>)
    requires forall i, j :: 0 <= i < j < |a| ==> a[i] != a[j]
    requires forall i, j :: 0 <= i < j < |b| ==> b[i] != b[j]
    requires forall k :: k in a <==> k in b
    ensures multiset(a) == multiset(b)
  {
    forall k ensures multiset(a)[k] == multiset(b)[k] {
      CountOne(a, k);
      CountOne(b, k);
    }
  }

  lemma {:induction false} CountOne(a: seq<Units>, k: Units)
    requires forall i, j :: 0 <= i < j < |a| ==> a[i] != a[j]
    ensures multiset(a)[k] == if k in a then 1 else 0
  {
    if a != [] {
      var n := |a| - 1;
      assert a == a[..n] + [a[n]];
      CountOne(a[..n], k);
      assert a[n] !in a[..n];
    }
  }
}
