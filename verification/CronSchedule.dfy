/** Five-field cron expressions: parsing, matching, and the bounded search for the next minute. */
module CronSchedule {
  import opened Statuses
  import opened Text

  datatype Spec = Spec(min: nat, max: nat)

  const FIELD_SPECS := [Spec(0, 59), Spec(0, 23), Spec(1, 31), Spec(1, 12), Spec(0, 7)]

  // ---------------------------------------------------------------- fields

  /** from, from + step, ... up to `to`. */
  datatype Range = Range(from: nat, to: nat, step: nat)

  predicate InRange(v: int, r: Range)
    requires r.step > 0
  {
    r.from <= v <= r.to && (v - r.from) % r.step == 0
  }

  function ParseNumber(value: string, min: nat, max: nat): (r: Option<nat>)
    ensures r.Some? ==> min <= r.value <= max
  {
    if Digits(value) && min <= Value(value) <= max then Some(Value(value)) else None
  }

  function ParseBase(base: string, spec: Spec, step: nat): (r: Option<Range>)
    ensures r.Some? ==> r.value.step == step
  {
    if base == "*" then Some(Range(spec.min, spec.max, step))
    else
      var ends := SplitOn(base, '-');
      if |ends| > 2 then None
      else
        var from := ParseNumber(ends[0], spec.min, spec.max);
        var to := ParseNumber(ends[|ends| - 1], spec.min, spec.max);
        if from.None? || to.None? || to.value < from.value then None
        else Some(Range(from.value, to.value, step))
  }

  /** One comma-separated item: base, or base/step. */
  function ParseItem(item: string, spec: Spec): (r: Option<Range>)
    ensures r.Some? ==> r.value.step > 0
  {
    var parts := SplitOn(Trim(item), '/');
    if |parts| > 2 then None
    else
      var step := if |parts| == 1 then Some(1) else ParseNumber(parts[1], 1, spec.max);
      if step.None? then None else ParseBase(parts[0], spec, step.value)
  }

  predicate WellFormed(raw: string, spec: Spec) {
    var items := SplitOn(raw, ',');
    forall k :: 0 <= k < |items| ==> ParseItem(items[k], spec).Some?
  }

  /** The values a field stands for: the union of its items' ranges. */
  predicate Denotes(raw: string, spec: Spec, v: int) {
    var items := SplitOn(raw, ',');
    exists k :: 0 <= k < |items| && ParseItem(items[k], spec).Some? && InRange(v, ParseItem(items[k], spec).value)
  }

  datatype Field = Field(values: set<int>, wildcard: bool)

  /** for (value = from; value <= to; value += step) values.add(value) */
  method AddRange(values0: set<int>, range: Range) returns (values: set<int>)
    requires range.step > 0
    ensures forall v :: v in values <==> v in values0 || InRange(v, range)
  {
    values := values0;
    var value := range.from;
    while value <= range.to
      invariant value >= range.from && (value - range.from) % range.step == 0
      invariant forall v :: v in values <==> v in values0 || (v < value && InRange(v, range))
      decreases range.to - value
    {
      values := values + {value};
      NextMultiple(value, range);
      value := value + range.step;
    }
  }

  /** A value is in a range exactly when some number of steps from the start leads to it without passing the end. */
  lemma {:induction false} InRangeIff(v: int, r: Range)
    requires r.step > 0
    ensures InRange(v, r) <==> v <= r.to && exists k: nat :: v == r.from + k * r.step
  {
    if InRange(v, r) {
      var k := (v - r.from) / r.step;
      assert v - r.from == k * r.step;
    }
    if k: nat :| v == r.from + k * r.step { MultipleMod(k, r.step, 0); }
  }

  predicate DenotedBefore(items: seq<string>, spec: Spec, k: nat, v: int)
    requires k <= |items|
  {
    exists i :: 0 <= i < k && ParseItem(items[i], spec).Some? && InRange(v, ParseItem(items[i], spec).value)
  }

  /** The field is rejected exactly when an item is malformed, and otherwise means its denotation. */
  method ParseField(raw: string, spec: Spec) returns (r: Option<Field>)
    ensures r.Some? <==> WellFormed(raw, spec)
    ensures r.Some? ==> forall v :: v in r.value.values <==> Denotes(raw, spec, v)
    ensures r.Some? ==> (r.value.wildcard <==> Trim(raw) == "*")
  {
    hide ParseItem, InRange, SplitOn, Trim;
    var items := SplitOn(raw, ',');
    var values: set<int> := {};
    var k := 0;
    while k < |items|
      invariant k <= |items|
      invariant forall i :: 0 <= i < k ==> ParseItem(items[i], spec).Some?
      invariant forall v :: v in values <==> DenotedBefore(items, spec, k, v)
    {
      var parsed := ParseItem(items[k], spec);
      if parsed.None? { return None; }
      ghost var before := values;
      values := AddRange(values, parsed.value);
      forall v ensures v in values <==> DenotedBefore(items, spec, k + 1, v) {
        assert v in values <==> v in before || InRange(v, parsed.value);
        assert v in before <==> DenotedBefore(items, spec, k, v);
      }
      k := k + 1;
    }
    forall v ensures DenotedBefore(items, spec, |items|, v) <==> Denotes(raw, spec, v) {}
    r := Some(Field(values, Trim(raw) == "*"));
  }

  /** No member of a range lies strictly between two neighbours. */
  lemma NextMultiple(value: int, r: Range)
    requires r.step > 0 && value >= r.from && (value - r.from) % r.step == 0
    ensures (value + r.step - r.from) % r.step == 0
    ensures forall v :: value < v < value + r.step ==> !InRange(v, r)
  {
    var q := (value - r.from) / r.step;
    assert value - r.from == q * r.step;
    assert value + r.step - r.from == (q + 1) * r.step;
    MultipleMod(q + 1, r.step, 0);
    forall v | value < v < value + r.step ensures !InRange(v, r) {
      MultipleMod(q, r.step, v - value);
      assert v - r.from == q * r.step + (v - value);
    }
  }

  lemma {:induction false} MultipleMod(q: int, step: int, rest: int)
    requires 0 <= rest < step
    ensures (q * step + rest) % step == rest
  {
    var n := q * step + rest;
    var d := n / step;
    AtLeastOnce(q - d, step);
    AtLeastOnce(d - q, step);
    assert (q - d) * step == q * step - d * step;
    assert (d - q) * step == d * step - q * step;
    assert n == d * step + n % step;
  }

  lemma {:induction false} AtLeastOnce(k: int, step: int)
    requires step > 0
    ensures k >= 1 ==> k * step >= step
  {
    if k >= 1 { assert k * step == step + (k - 1) * step; }
  }

  // ---------------------------------------------------------------- what the item syntax means

  datatype Base = Star | Single(n: nat) | Span(a: nat, b: nat)
  datatype Item = Item(base: Base, step: Option<nat>)

  function ShowBase(b: Base): string {
    match b
    case Star => "*"
    case Single(n) => Decimal(n)
    case Span(x, y) => Decimal(x) + ['-'] + Decimal(y)
  }

  function ShowItem(i: Item): string {
    if i.step.None? then ShowBase(i.base) else ShowBase(i.base) + ['/'] + Decimal(i.step.value)
  }

  predicate Valid(i: Item, spec: Spec) {
    && (i.base.Single? ==> spec.min <= i.base.n <= spec.max)
    && (i.base.Span? ==> spec.min <= i.base.a <= i.base.b <= spec.max)
    && (i.step.Some? ==> 1 <= i.step.value <= spec.max)
  }

  function Meaning(i: Item, spec: Spec): (r: Range)
    requires Valid(i, spec)
    ensures r.step > 0
  {
    var step := if i.step.None? then 1 else i.step.value;
    match i.base
    case Star => Range(spec.min, spec.max, step)
    case Single(n) => Range(n, n, step)
    case Span(x, y) => Range(x, y, step)
  }

  lemma {:induction false} ParseDecimal(n: nat, min: nat, max: nat)
    requires min <= n <= max
    ensures ParseNumber(Decimal(n), min, max) == Some(n)
  {
    DecimalValue(n);
  }

  lemma {:induction false} ParseShownBase(b: Base, spec: Spec, step: nat)
    requires Valid(Item(b, None), spec)
    ensures ParseBase(ShowBase(b), spec, step) == Some(Meaning(Item(b, None), spec).(step := step))
  {
    match b
    case Star =>
    case Single(n) =>
      ParseDecimal(n, spec.min, spec.max);
      SplitUnjoined(Decimal(n), '-');
      assert IsDigit(Decimal(n)[0]);
    case Span(x, y) =>
      ParseDecimal(x, spec.min, spec.max);
      ParseDecimal(y, spec.min, spec.max);
      SplitFirst(Decimal(x), Decimal(y), '-');
      SplitUnjoined(Decimal(y), '-');
      assert IsDigit(ShowBase(b)[0]);
  }

  lemma {:induction false} ShownCharacters(i: Item)
    ensures forall k :: 0 <= k < |ShowItem(i)| ==> !IsSpace(ShowItem(i)[k]) && ShowItem(i)[k] != ','
    ensures forall k :: 0 <= k < |ShowBase(i.base)| ==> ShowBase(i.base)[k] != '/'
  {
    var b := ShowBase(i.base);
    assert forall k :: 0 <= k < |b| ==> IsDigit(b[k]) || b[k] == '*' || b[k] == '-';
    if i.step.Some? {
      var d := Decimal(i.step.value);
      assert forall k :: 0 <= k < |d| ==> IsDigit(d[k]);
    }
  }

  /** Writing an item down and parsing it gives the range it stands for. */
  lemma {:induction false} ItemRoundTrip(i: Item, spec: Spec)
    requires Valid(i, spec)
    ensures ParseItem(ShowItem(i), spec) == Some(Meaning(i, spec))
  {
    ShownCharacters(i);
    TrimPlain(ShowItem(i));
    var b := ShowBase(i.base);
    if i.step.None? {
      SplitUnjoined(b, '/');
      ParseShownBase(i.base, spec, 1);
    } else {
      var d := Decimal(i.step.value);
      SplitFirst(b, d, '/');
      SplitUnjoined(d, '/');
      ParseDecimal(i.step.value, 1, spec.max);
      ParseShownBase(i.base, spec, i.step.value);
    }
  }

  // ---------------------------------------------------------------- exactly which items are accepted

  /** Digits that read as this number, leading zeros or not. */
  predicate Numeral(s: string, n: nat) {
    Digits(s) && Value(s) == n
  }

  ghost predicate SpellsBase(s: string, b: Base) {
    match b
    case Star => s == "*"
    case Single(n) => Numeral(s, n)
    case Span(x, y) => exists a, d :: Numeral(a, x) && Numeral(d, y) && s == a + ['-'] + d
  }

  ghost predicate Spells(s: string, i: Item) {
    match i.step
    case None => SpellsBase(s, i.base)
    case Some(n) => exists b, d :: SpellsBase(b, i.base) && Numeral(d, n) && s == b + ['/'] + d
  }

  lemma {:induction false} SplitsInTwo(s: string, c: char)
    ensures |SplitOn(s, c)| == 1 ==> SplitOn(s, c)[0] == s
    ensures |SplitOn(s, c)| == 2 ==> s == SplitOn(s, c)[0] + [c] + SplitOn(s, c)[1]
  {
    JoinSplit(s, c);
  }

  lemma {:induction false} BaseSpelled(s: string, b: Base, spec: Spec, step: nat)
    requires Valid(Item(b, None), spec) && SpellsBase(s, b)
    ensures ParseBase(s, spec, step) == Some(Meaning(Item(b, None), spec).(step := step)) && '/' !in s
  {
    match b
    case Star =>
    case Single(n) => SplitUnjoined(s, '-');
    case Span(x, y) =>
      var a, d :| Numeral(a, x) && Numeral(d, y) && s == a + ['-'] + d;
      SplitFirst(a, d, '-');
      SplitUnjoined(d, '-');
      assert IsDigit(s[0]);
  }

  lemma {:induction false} ParsedBase(s: string, spec: Spec, step: nat) returns (b: Base)
    requires ParseBase(s, spec, step).Some?
    ensures Valid(Item(b, None), spec) && SpellsBase(s, b)
  {
    if s == "*" {
      b := Star;
    } else {
      SplitsInTwo(s, '-');
      var ends := SplitOn(s, '-');
      if |ends| == 1 {
        b := Single(Value(s));
      } else {
        assert Numeral(ends[0], Value(ends[0])) && Numeral(ends[1], Value(ends[1]));
        b := Span(Value(ends[0]), Value(ends[1]));
      }
    }
  }

  lemma {:induction false} ParsedItem(item: string, spec: Spec) returns (i: Item)
    requires ParseItem(item, spec).Some?
    ensures Valid(i, spec) && Spells(Trim(item), i)
  {
    var s := Trim(item);
    var parts := SplitOn(s, '/');
    SplitsInTwo(s, '/');
    if |parts| == 1 {
      var b := ParsedBase(s, spec, 1);
      i := Item(b, None);
    } else {
      var n := Value(parts[1]);
      var b := ParsedBase(parts[0], spec, n);
      assert Numeral(parts[1], n);
      i := Item(b, Some(n));
    }
  }

  lemma {:induction false} ItemSpelled(item: string, i: Item, spec: Spec)
    requires Valid(i, spec) && Spells(Trim(item), i)
    ensures ParseItem(item, spec) == Some(Meaning(i, spec))
  {
    var s := Trim(item);
    match i.step
    case None =>
      BaseSpelled(s, i.base, spec, 1);
      SplitUnjoined(s, '/');
    case Some(n) =>
      var b, d :| SpellsBase(b, i.base) && Numeral(d, n) && s == b + ['/'] + d;
      BaseSpelled(b, i.base, spec, n);
      SplitFirst(b, d, '/');
      SplitUnjoined(d, '/');
  }

  /** An item is accepted, with this range, exactly when it spells, blanks around it aside, a valid item of that meaning. */
  lemma {:induction false} ItemAcceptedIff(item: string, spec: Spec, r: Range)
    ensures ParseItem(item, spec) == Some(r) <==> exists i :: Valid(i, spec) && Spells(Trim(item), i) && Meaning(i, spec) == r
  {
    if i :| Valid(i, spec) && Spells(Trim(item), i) && Meaning(i, spec) == r { ItemSpelled(item, i, spec); }
    if ParseItem(item, spec) == Some(r) {
      var i := ParsedItem(item, spec);
      ItemSpelled(item, i, spec);
    }
  }

  function ShowItems(items: seq<Item>): (r: seq<string>)
    ensures |r| == |items|
  {
    seq(|items|, k requires 0 <= k < |items| => ShowItem(items[k]))
  }

  /** A written-out list is well formed and denotes exactly the union of its items. */
  lemma {:induction false} FieldRoundTrip(items: seq<Item>, spec: Spec, v: int)
    requires |items| >= 1 && forall k :: 0 <= k < |items| ==> Valid(items[k], spec)
    ensures WellFormed(JoinWith(ShowItems(items), ','), spec)
    ensures Denotes(JoinWith(ShowItems(items), ','), spec, v) <==>
            exists k :: 0 <= k < |items| && InRange(v, Meaning(items[k], spec))
  {
    var pieces := ShowItems(items);
    forall k | 0 <= k < |items|
      ensures ',' !in pieces[k] && ParseItem(pieces[k], spec) == Some(Meaning(items[k], spec))
    {
      ShownCharacters(items[k]);
      ItemRoundTrip(items[k], spec);
    }
    SplitJoin(pieces, ',');
  }

  // ---------------------------------------------------------------- expressions

  datatype Cron = Cron(minute: Field, hour: Field, dayOfMonth: Field, month: Field, dayOfWeek: Field)

  /** Maximal runs of non-blank characters. */
  function Words(s: string, word: string): seq<string> {
    if s == [] then if word == [] then [] else [word]
    else if !IsSpace(s[0]) then Words(s[1..], word + [s[0]])
    else (if word == [] then [] else [word]) + Words(s[1..], [])
  }

  predicate Blank(s: string) {
    forall i :: 0 <= i < |s| ==> IsSpace(s[i])
  }

  predicate Word(s: string) {
    s != [] && forall i :: 0 <= i < |s| ==> !IsSpace(s[i])
  }

  /** The words with these blanks before, between and after them. */
  function Spaced(words: seq<string>, gaps: seq<string>): string
    requires |gaps| == |words| + 1
  {
    if words == [] then gaps[0] else gaps[0] + words[0] + Spaced(words[1..], gaps[1..])
  }

  lemma {:induction false} WordsSkip(gap: string, rest: string)
    requires Blank(gap)
    ensures Words(gap + rest, []) == Words(rest, [])
  {
    if gap == [] {
      assert gap + rest == rest;
    } else {
      assert (gap + rest)[1..] == gap[1..] + rest;
      WordsSkip(gap[1..], rest);
    }
  }

  lemma {:induction false} WordsTake(w: string, rest: string, word: string)
    requires w == [] || Word(w)
    ensures Words(w + rest, word) == Words(rest, word + w)
  {
    if w == [] {
      assert w + rest == rest && word + w == word;
    } else {
      assert (w + rest)[1..] == w[1..] + rest && word + [w[0]] + w[1..] == word + w;
      WordsTake(w[1..], rest, word + [w[0]]);
    }
  }

  /** However the words are set apart, they are found again. */
  lemma {:induction false} WordsOfSpaced(words: seq<string>, gaps: seq<string>)
    requires |gaps| == |words| + 1
    requires forall k :: 0 <= k < |words| ==> Word(words[k])
    requires forall k :: 0 <= k < |gaps| ==> Blank(gaps[k]) && (0 < k < |words| ==> gaps[k] != [])
    ensures Words(Spaced(words, gaps), []) == words
  {
    if words == [] {
      WordsSkip(gaps[0], []);
      assert gaps[0] + [] == gaps[0];
    } else {
      var rest := Spaced(words[1..], gaps[1..]);
      WordsOfSpaced(words[1..], gaps[1..]);
      assert gaps[0] + words[0] + rest == gaps[0] + (words[0] + rest);
      WordsSkip(gaps[0], words[0] + rest);
      WordsTake(words[0], rest, []);
      assert [] + words[0] == words[0];
      if |words| > 1 {
        assert gaps[1..][0] == gaps[1] && IsSpace(gaps[1][0]) && rest[0] == gaps[1][0];
      } else {
        assert rest == gaps[1];
      }
      assert words == [words[0]] + words[1..];
    }
  }

  ghost predicate Means(f: Field, raw: string, spec: Spec) {
    && WellFormed(raw, spec)
    && (forall v :: v in f.values <==> Denotes(raw, spec, v))
    && (f.wildcard <==> Trim(raw) == "*")
  }

  ghost predicate MeansAll(c: Cron, w: seq<string>)
    requires |w| == 5
  {
    && Means(c.minute, w[0], FIELD_SPECS[0]) && Means(c.hour, w[1], FIELD_SPECS[1])
    && Means(c.dayOfMonth, w[2], FIELD_SPECS[2]) && Means(c.month, w[3], FIELD_SPECS[3])
    && Means(c.dayOfWeek, w[4], FIELD_SPECS[4])
  }

  method ParseCronExpression(expression: string) returns (r: Option<Cron>)
    ensures var w := Words(expression, []);
            r.Some? <==> |w| == 5 && forall k :: 0 <= k < 5 ==> WellFormed(w[k], FIELD_SPECS[k])
    ensures r.Some? ==> |Words(expression, [])| == 5 && MeansAll(r.value, Words(expression, []))
  {
    hide WellFormed, Denotes, Words;
    var w := Words(expression, []);
    if |w| != 5 { return None; }
    var parsed: seq<Field> := [];
    while |parsed| < 5
      invariant |parsed| <= 5
      invariant forall k :: 0 <= k < |parsed| ==> Means(parsed[k], w[k], FIELD_SPECS[k])
      decreases 5 - |parsed|
    {
      var k := |parsed|;
      var f := ParseField(w[k], FIELD_SPECS[k]);
      if f.None? { return None; }
      parsed := parsed + [f.value];
    }
    r := Some(Cron(parsed[0], parsed[1], parsed[2], parsed[3], parsed[4]));
  }

  // ---------------------------------------------------------------- matching

  datatype Local = Local(minute: int, hour: int, dayOfMonth: int, month: int, dayOfWeek: int)

  predicate ValidLocal(p: Local) {
    0 <= p.minute < 60 && 0 <= p.hour < 24 && 1 <= p.dayOfMonth <= 31 && 1 <= p.month <= 12 && 0 <= p.dayOfWeek <= 6
  }

  predicate CronMatches(c: Cron, p: Local) {
    if p.minute !in c.minute.values || p.hour !in c.hour.values then false
    else if p.month !in c.month.values then false
    else
      var dayOfWeekMatch := p.dayOfWeek in c.dayOfWeek.values || (p.dayOfWeek == 0 && 7 in c.dayOfWeek.values);
      var dayOfMonthMatch := p.dayOfMonth in c.dayOfMonth.values;
      if c.dayOfMonth.wildcard then dayOfWeekMatch
      else if c.dayOfWeek.wildcard then dayOfMonthMatch
      else dayOfMonthMatch || dayOfWeekMatch
  }

  lemma {:induction false} TrimmedStar(raw: string)
    requires Trim(raw) == "*"
    ensures forall k :: 0 <= k < |raw| ==> raw[k] == '*' || IsSpace(raw[k])
    decreases |raw|
  {
    if IsSpace(raw[0]) {
      TrimmedStar(raw[1..]);
      assert forall k :: 0 < k < |raw| ==> raw[k] == raw[1..][k - 1];
    } else if IsSpace(raw[|raw| - 1]) {
      TrimmedStar(raw[..|raw| - 1]);
      assert forall k :: 0 <= k < |raw| - 1 ==> raw[k] == raw[..|raw| - 1][k];
    }
  }

  lemma {:induction false} StarDenotesAll(raw: string, spec: Spec, v: int)
    requires Trim(raw) == "*" && spec.min <= v <= spec.max
    ensures Denotes(raw, spec, v)
  {
    TrimmedStar(raw);
    SplitUnjoined(raw, ',');
    SplitUnjoined("*", '/');
    assert ParseItem(SplitOn(raw, ',')[0], spec) == Some(Range(spec.min, spec.max, 1));
  }

  /** Day fields are joined by OR when both are constrained and by AND otherwise; Sunday is 0 or 7. */
  ghost predicate Traditional(w: seq<string>, p: Local)
    requires |w| == 5
  {
    var onDate := Denotes(w[2], FIELD_SPECS[2], p.dayOfMonth);
    var onWeekday := Denotes(w[4], FIELD_SPECS[4], p.dayOfWeek) || (p.dayOfWeek == 0 && Denotes(w[4], FIELD_SPECS[4], 7));
    && Denotes(w[0], FIELD_SPECS[0], p.minute) && Denotes(w[1], FIELD_SPECS[1], p.hour) && Denotes(w[3], FIELD_SPECS[3], p.month)
    && if Trim(w[2]) != "*" && Trim(w[4]) != "*" then onDate || onWeekday else onDate && onWeekday
  }

  lemma {:induction false} MatchesTraditionalCron(c: Cron, w: seq<string>, p: Local)
    requires |w| == 5 && MeansAll(c, w) && ValidLocal(p)
    ensures CronMatches(c, p) <==> Traditional(w, p)
  {
    hide Denotes, WellFormed;
    if Trim(w[2]) == "*" { StarDenotesAll(w[2], FIELD_SPECS[2], p.dayOfMonth); }
    if Trim(w[4]) == "*" { StarDenotesAll(w[4], FIELD_SPECS[4], p.dayOfWeek); }
  }

  // ---------------------------------------------------------------- the next occurrence

  const MINUTE := 60000
  const WINDOW: nat := 370 * 24 * 60

  /** Local calendar fields of each whole minute since the epoch. */
  type Zone = int -> Local

  predicate Fires(c: Cron, zone: Zone, m: int) {
    CronMatches(c, zone(m))
  }

  function Search(c: Cron, zone: Zone, m: int, n: nat): (r: Option<int>)
    ensures r.Some? ==> m <= r.value < m + n && Fires(c, zone, r.value)
    ensures r.Some? ==> forall k :: m <= k < r.value ==> !Fires(c, zone, k)
    ensures r.None? ==> forall k :: m <= k < m + n ==> !Fires(c, zone, k)
    decreases n
  {
    if n == 0 then None else if Fires(c, zone, m) then Some(m) else Search(c, zone, m + 1, n - 1)
  }

  /** The instant of the next occurrence, in milliseconds. */
  function Next(c: Cron, zone: Zone, after: int): (r: Option<int>)
    ensures r.Some? ==> IsNext(c, zone, after, r.value)
    ensures r.None? <==> forall m :: after / MINUTE < m <= after / MINUTE + WINDOW ==> !Fires(c, zone, m)
  {
    var found := Search(c, zone, after / MINUTE + 1, WINDOW);
    if found.None? then None else Some(found.value * MINUTE)
  }

  /** The least firing whole minute strictly after an instant. */
  ghost predicate IsNext(c: Cron, zone: Zone, after: int, t: int) {
    && t % MINUTE == 0 && after < t && Fires(c, zone, t / MINUTE)
    && forall m :: after < m * MINUTE < t ==> !Fires(c, zone, m)
  }

  method NextCronOccurrence(c: Cron, zone: Zone, after: int) returns (r: Option<int>)
    ensures r == Next(c, zone, after)
    ensures r.Some? ==> IsNext(c, zone, after, r.value)
    ensures r.None? <==> forall m :: after / MINUTE < m <= after / MINUTE + WINDOW ==> !Fires(c, zone, m)
  {
    hide IsNext, Fires;
    var candidate := after / MINUTE + 1;
    var i := 0;
    while i < WINDOW
      invariant 0 <= i <= WINDOW && candidate == after / MINUTE + 1 + i
      invariant Search(c, zone, after / MINUTE + 1, WINDOW) == Search(c, zone, candidate, WINDOW - i)
    {
      if Fires(c, zone, candidate) { return Some(candidate * MINUTE); }
      candidate := candidate + 1;
      i := i + 1;
    }
    r := None;
  }
}
