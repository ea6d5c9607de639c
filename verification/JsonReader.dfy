/** Reading JSON text back, by the grammar of RFC 8259 sections 3 to 7 without white space between tokens. */
module JsonReader {
  import opened Statuses
  import opened Text
  import opened JsonTree

  datatype Read<T> = Read(value: T, rest: string) | Bad

  // ---------------------------------------------------------------- strings

  predicate IsHex(c: char) {
    '0' <= c <= '9' || 'a' <= c <= 'f' || 'A' <= c <= 'F'
  }

  function HexValue(c: char): (n: nat)
    requires IsHex(c)
    ensures n < 16
  {
    if c <= '9' then c as int - '0' as int else if c <= 'F' then c as int - 'A' as int + 10 else c as int - 'a' as int + 10
  }

  function FourHex(s: string): (n: nat)
    requires |s| == 4 && forall i :: 0 <= i < 4 ==> IsHex(s[i])
  {
    ((HexValue(s[0]) * 16 + HexValue(s[1])) * 16 + HexValue(s[2])) * 16 + HexValue(s[3])
  }

  /** What the character after a backslash stands for, \u aside. */
  function ShortEscape(c: char): Option<char> {
    match c
    case '"' => Some('"')
    case '\\' => Some('\\')
    case '/' => Some('/')
    case 'b' => Some(8 as char)
    case 'f' => Some(12 as char)
    case 'n' => Some(10 as char)
    case 'r' => Some(13 as char)
    case 't' => Some(9 as char)
    case _ => None
  }

  /** One character of a string, escaped or not; a lone surrogate is no character. */
  function ReadChar(s: string): (r: Read<char>)
    ensures r.Read? ==> |r.rest| < |s|
  {
    if s == [] || s[0] < ' ' || s[0] == '"' then Bad
    else if s[0] != '\\' then Read(s[0], s[1..])
    else if |s| < 2 then Bad
    else if ShortEscape(s[1]).Some? then Read(ShortEscape(s[1]).value, s[2..])
    else if s[1] == 'u' && |s| >= 6 && forall i :: 2 <= i < 6 ==> IsHex(s[i]) then
      var n := FourHex(s[2..6]);
      if n < 0xD800 || 0xE000 <= n <= 0xFFFF then Read(n as char, s[6..]) else Bad
    else Bad
  }

  /** The rest of a string after its opening quote. */
  function ReadBody(s: string): (r: Read<string>)
    ensures r.Read? ==> |r.rest| < |s|
    decreases |s|
  {
    if s == [] then Bad
    else if s[0] == '"' then Read([], s[1..])
    else
      var c := ReadChar(s);
      if c.Bad? then Bad
      else
        var more := ReadBody(c.rest);
        if more.Bad? then Bad else Read([c.value] + more.value, more.rest)
  }

  lemma {:induction false} HexReadsBack(d: int)
    requires 0 <= d < 16
    ensures IsHex(HexDigit(d)) && HexValue(HexDigit(d)) == d
  {
  }

  lemma {:induction false} CharReadsBack(c: char, a: string)
    ensures ReadChar(Escaped(c) + a) == Read(c, a) && Escaped(c)[0] != '"'
  {
    var s := Escaped(c) + a;
    assert s[0] == Escaped(c)[0];
    assert s[|Escaped(c)|..] == a;
    if Escaped(c)[0] == '\\' {
      assert s[1] == Escaped(c)[1];
      if Escaped(c)[1] == 'u' {
        HexReadsBack(0);
        HexReadsBack(c as int / 16);
        HexReadsBack(c as int % 16);
        assert s[2..6] == ['0', '0', HexDigit(c as int / 16), HexDigit(c as int % 16)];
      }
    }
  }

  lemma {:induction false} BodyReadsBack(s: string, a: string)
    ensures ReadBody(Body(s) + a) == Read(s, a)
  {
    hide ReadChar, Escaped;
    var text := Body(s) + a;
    if s == [] {
      assert text[0] == '"' && text[1..] == a;
    } else {
      var more := Body(s[1..]) + a;
      assert text == Escaped(s[0]) + more;
      CharReadsBack(s[0], more);
      assert text[0] == Escaped(s[0])[0];
      BodyReadsBack(s[1..], a);
      assert [s[0]] + s[1..] == s;
    }
  }

  // ---------------------------------------------------------------- values

  function ReadValue(s: string): (r: Read<Tree>)
    ensures r.Read? ==> |r.rest| < |s|
    decreases |s|, 1
  {
    if s == [] then Bad
    else if "null" <= s then Read(TNull, s[4..])
    else if "true" <= s then Read(TBool(true), s[4..])
    else if "false" <= s then Read(TBool(false), s[5..])
    else if s[0] == '"' then
      var b := ReadBody(s[1..]);
      if b.Bad? then Bad else Read(TStr(b.value), b.rest)
    else if "[]" <= s then Read(TArr([]), s[2..])
    else if s[0] == '[' then
      var items := ReadItems(s[1..]);
      if items.Bad? then Bad else Read(TArr(items.value), items.rest)
    else if "{}" <= s then Read(TObj([]), s[2..])
    else if s[0] == '{' then
      var fields := ReadFields(s[1..]);
      if fields.Bad? then Bad else Read(TObj(fields.value), fields.rest)
    else if NumeralChar(s[0]) then Read(TNum(s[..Span(s)]), s[Span(s)..])
    else Bad
  }

  /** Items up to the closing bracket, at least one. */
  function ReadItems(s: string): (r: Read<seq<Tree>>)
    ensures r.Read? ==> |r.rest| < |s|
    decreases |s|, 2
  {
    var v := ReadValue(s);
    if v.Bad? || v.rest == [] then Bad
    else if v.rest[0] == ']' then Read([v.value], v.rest[1..])
    else if v.rest[0] != ',' then Bad
    else
      var more := ReadItems(v.rest[1..]);
      if more.Bad? then Bad else Read([v.value] + more.value, more.rest)
  }

  function ReadField(s: string): (r: Read<Field>)
    ensures r.Read? ==> |r.rest| < |s|
    decreases |s|, 1
  {
    if s == [] || s[0] != '"' then Bad
    else
      var key := ReadBody(s[1..]);
      if key.Bad? || key.rest == [] || key.rest[0] != ':' then Bad
      else
        var v := ReadValue(key.rest[1..]);
        if v.Bad? then Bad else Read(Field(key.value, v.value), v.rest)
  }

  /** Fields up to the closing brace, at least one. */
  function ReadFields(s: string): (r: Read<seq<Field>>)
    ensures r.Read? ==> |r.rest| < |s|
    decreases |s|, 2
  {
    var f := ReadField(s);
    if f.Bad? || f.rest == [] then Bad
    else if f.rest[0] == '}' then Read([f.value], f.rest[1..])
    else if f.rest[0] != ',' then Bad
    else
      var more := ReadFields(f.rest[1..]);
      if more.Bad? then Bad else Read([f.value] + more.value, more.rest)
  }

  // ---------------------------------------------------------------- what was printed reads back

  lemma {:induction false} LiteralReadsBack(t: Tree, a: string)
    requires t.TNull? || t.TBool?
    ensures ReadValue(JsonText(t) + a) == Read(t, a)
  {
    hide ReadBody, ReadItems, ReadFields, Span;
    var text := JsonText(t) + a;
    assert text[0] == JsonText(t)[0];
    assert text[|JsonText(t)|..] == a;
    assert JsonText(t) <= text;
  }

  lemma {:induction false} NumeralReadsBack(n: Numeral, a: string)
    requires Delimited(a)
    ensures ReadValue(JsonText(TNum(n)) + a) == Read(TNum(n), a)
  {
    hide ReadBody, ReadItems, ReadFields, Span;
    NumeralSpan(n, a);
    var text := n + a;
    assert text[0] == n[0];
    assert text[..|n|] == n && text[|n|..] == a;
  }

  lemma {:induction false} StringReadsBack(v: string, a: string)
    ensures ReadValue(JsonText(TStr(v)) + a) == Read(TStr(v), a)
  {
    BodyReadsBack(v, a);
    hide Body, ReadBody, ReadItems, ReadFields, Span;
    var text := JsonText(TStr(v)) + a;
    assert text == ['"'] + (Body(v) + a);
    assert text[0] == '"' && text[1..] == Body(v) + a;
  }

  lemma {:induction false} LeafReadsBack(t: Tree, a: string)
    requires Delimited(a) && !t.TArr? && !t.TObj?
    ensures ReadValue(JsonText(t) + a) == Read(t, a)
  {
    hide JsonText, ReadValue;
    match t
    case TNum(n) => NumeralReadsBack(n, a);
    case TStr(v) => StringReadsBack(v, a);
    case _ => LiteralReadsBack(t, a);
  }

  lemma {:induction false} EmptyReadsBack(t: Tree, a: string)
    requires (t.TArr? || t.TObj?) && Count(t) == 0
    ensures ReadValue(JsonText(t) + a) == Read(t, a)
  {
    var text := JsonText(t) + a;
    assert JsonText(t) == if t.TArr? then "[]" else "{}";
    assert text[2..] == a && text[0] == JsonText(t)[0] && text[1] == JsonText(t)[1];
  }

  /** Every value is read back from its text, whatever may follow a value. */
  lemma {:induction false} ValueReadsBack(t: Tree, a: string)
    requires Delimited(a)
    ensures ReadValue(JsonText(t) + a) == Read(t, a)
    decreases t, Count(t) + 1
  {
    hide JsonText, Rest, ReadValue;
    if !t.TArr? && !t.TObj? {
      LeafReadsBack(t, a);
    } else if Count(t) == 0 {
      EmptyReadsBack(t, a);
    } else {
      RestUnfolds(t, 0, a);
      var inner := Member(t, 0) + (Rest(t, 1) + a);
      assert "" + inner == inner;
      if t.TArr? { ItemsReadBack(t, 0, a); assert t.items[0..] == t.items; }
      else { FieldsReadBack(t, 0, a); assert t.fields[0..] == t.fields; }
      OpenBracket(t, a);
      InnerStarts(t, a);
      Bracketed(t, JsonText(t) + a, inner);
    }
  }

  lemma {:induction false} InnerStarts(t: Tree, a: string)
    requires (t.TArr? || t.TObj?) && Count(t) > 0
    ensures Rest(t, 0) + a != [] && (Rest(t, 0) + a)[0] !in {',', ']', '}'}
  {
    RestStarts(t, 0);
    hide Rest;
    assert (Rest(t, 0) + a)[0] == Rest(t, 0)[0];
  }

  lemma {:induction false} Bracketed(t: Tree, text: string, inner: string)
    requires t.TArr? || t.TObj?
    requires text == (if t.TArr? then "[" else "{") + inner && inner != [] && inner[0] !in {',', ']', '}'}
    ensures t.TArr? && ReadItems(inner).Read? ==> ReadValue(text) == Read(TArr(ReadItems(inner).value), ReadItems(inner).rest)
    ensures t.TObj? && ReadFields(inner).Read? ==> ReadValue(text) == Read(TObj(ReadFields(inner).value), ReadFields(inner).rest)
  {
    hide ReadItems, ReadFields;
    assert text[0] == if t.TArr? then '[' else '{';
    assert text[1..] == inner && text[1] == inner[0];
  }

  /** After member `i` comes the end, or a comma and the next member. */
  lemma {:induction false} AfterMember(t: Tree, i: nat, a: string)
    requires (t.TArr? || t.TObj?) && i < Count(t)
    ensures Delimited(Rest(t, i + 1) + a)
    ensures i + 1 == Count(t) ==> Rest(t, i + 1) + a == [if t.TArr? then ']' else '}'] + a
    ensures i + 1 < Count(t) ==> Rest(t, i + 1) + a == [','] + (Member(t, i + 1) + (Rest(t, i + 2) + a))
  {
    RestDelimits(t, i + 1, a);
    if i + 1 < Count(t) { RestUnfolds(t, i + 1, a); }
    hide Member;
  }

  lemma {:induction false} ItemsReadBack(t: Tree, i: nat, a: string)
    requires t.TArr? && i < Count(t)
    ensures ReadItems(Member(t, i) + (Rest(t, i + 1) + a)) == Read(t.items[i..], a)
    decreases t, Count(t) - i
  {
    hide JsonText, Rest, ReadValue;
    var after := Rest(t, i + 1) + a;
    AfterMember(t, i, a);
    ValueReadsBack(t.items[i], after);
    if i + 1 == Count(t) {
      assert t.items[i..] == [t.items[i]];
      assert after[1..] == a;
    } else {
      ItemsReadBack(t, i + 1, a);
      assert after[1..] == Member(t, i + 1) + (Rest(t, i + 2) + a);
      assert t.items[i..] == [t.items[i]] + t.items[i + 1..];
    }
  }

  lemma {:induction false} FieldReadsBack(t: Tree, i: nat, after: string)
    requires t.TObj? && i < Count(t) && Delimited(after)
    ensures ReadField(Member(t, i) + after) == Read(t.fields[i], after)
    decreases t, 0
  {
    hide JsonText, Body, ReadValue, ReadBody;
    var f := t.fields[i];
    MemberUnfolds(t, i, after);
    var value := JsonText(f.value) + after;
    var text := Member(t, i) + after;
    assert text[0] == '"' && text[1..] == Body(f.key) + ([':'] + value);
    BodyReadsBack(f.key, [':'] + value);
    assert ([':'] + value)[1..] == value;
    ValueReadsBack(f.value, after);
  }

  lemma {:induction false} FieldsReadBack(t: Tree, i: nat, a: string)
    requires t.TObj? && i < Count(t)
    ensures ReadFields(Member(t, i) + (Rest(t, i + 1) + a)) == Read(t.fields[i..], a)
    decreases t, Count(t) - i
  {
    hide Rest, ReadField, Member;
    var after := Rest(t, i + 1) + a;
    AfterMember(t, i, a);
    FieldReadsBack(t, i, after);
    if i + 1 == Count(t) {
      assert t.fields[i..] == [t.fields[i]];
      assert after[1..] == a;
    } else {
      FieldsReadBack(t, i + 1, a);
      assert after[1..] == Member(t, i + 1) + (Rest(t, i + 2) + a);
      assert t.fields[i..] == [t.fields[i]] + t.fields[i + 1..];
    }
  }

  /** Reading the whole text of a value gives the value and leaves nothing. */
  lemma {:induction false} TextReadsBack(t: Tree)
    ensures ReadValue(JsonText(t)) == Read(t, [])
  {
    ValueReadsBack(t, []);
    assert JsonText(t) + [] == JsonText(t);
  }
}
