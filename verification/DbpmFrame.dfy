/** The password reply: one line, framed out of a byte stream that arrives in arbitrary chunks. */
module DbpmFrame {
  import opened Statuses

  type Byte = x: int | 0 <= x < 256
  type Bytes = seq<Byte>

  /** Fatal UTF-8 decoding of a line to code points; None where it throws. */
  type Decoder = Bytes -> Option<seq<nat>>

  const NEWLINE: Byte := 0x0A
  const OK_PREFIX: seq<nat> := ['O' as int, 'K' as int, ':' as int, ' ' as int]

  datatype Failure = BadResponse | ErrorResponse | FrameTooLarge | Timeout | ConnectFailed | ConnectionError | Eof

  datatype Outcome = Waiting | Password(text: seq<nat>) | Failed(why: Failure)

  predicate Control(cp: nat) {
    cp < 0x20 || 0x7F <= cp < 0xA0
  }

  function ParseLine(line: Bytes, decode: Decoder): (r: Outcome)
    ensures !r.Waiting?
    ensures r.Password? <==> decode(line).Some? && OK_PREFIX <= decode(line).value && |decode(line).value| > |OK_PREFIX|
                             && forall i :: |OK_PREFIX| <= i < |decode(line).value| ==> !Control(decode(line).value[i])
    ensures r.Password? ==> decode(line) == Some(OK_PREFIX + r.text)
    ensures r == Failed(ErrorResponse) <==> decode(line).Some? && !(OK_PREFIX <= decode(line).value)
    ensures r.Failed? && r.why != ErrorResponse ==> r.why == BadResponse
  {
    var text := decode(line);
    if text.None? then Failed(BadResponse)
    else if !(OK_PREFIX <= text.value) then Failed(ErrorResponse)
    else
      var password := text.value[|OK_PREFIX|..];
      assert text.value == OK_PREFIX + password;
      assert forall i :: 0 <= i < |password| ==> password[i] == text.value[i + |OK_PREFIX|];
      if password == [] || exists i :: 0 <= i < |password| && Control(password[i]) then
        assert password != [] ==> exists i :: |OK_PREFIX| <= i < |text.value| && Control(text.value[i]) by {
          if password != [] {
            var i :| 0 <= i < |password| && Control(password[i]);
            assert Control(text.value[i + |OK_PREFIX|]);
          }
        }
        Failed(BadResponse)
      else Password(password)
  }

  // ---------------------------------------------------------------- the whole stream at once

  /** Position of the first newline, or the length. */
  function LineEnd(s: Bytes): (n: nat)
    ensures n <= |s|
    ensures forall i :: 0 <= i < n ==> s[i] != NEWLINE
    ensures n < |s| ==> s[n] == NEWLINE
  {
    if s == [] || s[0] == NEWLINE then 0 else 1 + LineEnd(s[1..])
  }

  /** The reply, if the whole stream were looked at in one piece. */
  function Settle(s: Bytes, max: nat, decode: Decoder): Outcome {
    var n := LineEnd(s);
    if n == |s| then if n > max then Failed(FrameTooLarge) else Waiting
    else if n + 1 > max then Failed(FrameTooLarge)
    else ParseLine(s[..n], decode)
  }

  lemma {:induction false} LineEndAppend(a: Bytes, b: Bytes)
    ensures LineEnd(a + b) == if LineEnd(a) < |a| then LineEnd(a) else |a| + LineEnd(b)
  {
    if a == [] {
      assert a + b == b;
    } else if a[0] != NEWLINE {
      assert (a + b)[1..] == a[1..] + b;
      LineEndAppend(a[1..], b);
    }
  }

  /** Later bytes never change a settled outcome. */
  lemma {:induction false} SettledStays(a: Bytes, b: Bytes, max: nat, decode: Decoder)
    requires !Settle(a, max, decode).Waiting?
    ensures Settle(a + b, max, decode) == Settle(a, max, decode)
  {
    LineEndAppend(a, b);
    var n := LineEnd(a);
    if n < |a| { assert (a + b)[..n] == a[..n]; }
  }

  // ---------------------------------------------------------------- chunk by chunk

  /** `chunks` holds the line so far; `received` counts its bytes. */
  datatype State = State(chunks: seq<Bytes>, received: nat, outcome: Outcome)

  const START := State([], 0, Waiting)

  function Concat(chunks: seq<Bytes>): Bytes {
    if chunks == [] then [] else Concat(chunks[..|chunks| - 1]) + chunks[|chunks| - 1]
  }

  function Finish(s: State, o: Outcome): State {
    if s.outcome.Waiting? then State([], s.received, o) else s
  }

  /** The `data` handler. */
  function OnData(s: State, chunk: Bytes, max: nat, decode: Decoder): State {
    var n := LineEnd(chunk);
    var usable := if n == |chunk| then n else n + 1;
    var counted := s.(received := s.received + usable);
    if counted.received > max then Finish(counted, Failed(FrameTooLarge))
    else if n == |chunk| then counted.(chunks := s.chunks + [chunk])
    else Finish(counted, ParseLine(Concat(s.chunks + [chunk[..n]]), decode))
  }

  function Run(chunks: seq<Bytes>, max: nat, decode: Decoder): State {
    if chunks == [] then START else OnData(Run(chunks[..|chunks| - 1], max, decode), chunks[|chunks| - 1], max, decode)
  }

  /** While waiting, the collected chunks are exactly the newline-free stream so far. */
  ghost predicate InStep(s: State, stream: Bytes, max: nat, decode: Decoder) {
    && s.outcome == Settle(stream, max, decode)
    && (s.outcome.Waiting? ==> Concat(s.chunks) == stream && s.received == |stream| && LineEnd(stream) == |stream|)
  }

  lemma {:induction false} ConcatAppend(chunks: seq<Bytes>, c: Bytes)
    ensures Concat(chunks + [c]) == Concat(chunks) + c
  {
    assert (chunks + [c])[..|chunks|] == chunks;
  }

  lemma {:induction false} DataKeepsStep(s: State, stream: Bytes, chunk: Bytes, max: nat, decode: Decoder)
    requires InStep(s, stream, max, decode)
    ensures InStep(OnData(s, chunk, max, decode), stream + chunk, max, decode)
  {
    if s.outcome.Waiting? {
      LineEndAppend(stream, chunk);
      var n := LineEnd(chunk);
      ConcatAppend(s.chunks, chunk);
      ConcatAppend(s.chunks, chunk[..n]);
      assert (stream + chunk)[..|stream| + n] == stream + chunk[..n];
    } else {
      SettledStays(stream, chunk, max, decode);
    }
  }

  lemma {:induction false} RunInStep(chunks: seq<Bytes>, max: nat, decode: Decoder)
    ensures InStep(Run(chunks, max, decode), Concat(chunks), max, decode)
  {
    hide OnData;
    if chunks == [] {
      assert Concat(chunks) == [];
    } else {
      hide InStep;
      var n := |chunks| - 1;
      RunInStep(chunks[..n], max, decode);
      DataKeepsStep(Run(chunks[..n], max, decode), Concat(chunks[..n]), chunks[n], max, decode);
    }
  }

  /** However the stream is cut up, the outcome is that of the stream in one piece. */
  lemma {:induction false} ChunkingIsIrrelevant(a: seq<Bytes>, b: seq<Bytes>, max: nat, decode: Decoder)
    requires Concat(a) == Concat(b)
    ensures Run(a, max, decode).outcome == Run(b, max, decode).outcome == Settle(Concat(a), max, decode)
  {
    hide Settle, Run;
    RunInStep(a, max, decode);
    RunInStep(b, max, decode);
  }

  // ---------------------------------------------------------------- what the reply is

  /**
   * The outcome a byte stream calls for: nothing yet while up to `max` bytes hold no newline, a
   * refusal once the first `max` bytes hold none and more came, and otherwise what the first line
   * says, without its newline and whatever follows it.
   */
  ghost predicate Framed(stream: Bytes, max: nat, decode: Decoder, o: Outcome) {
    && (o.Waiting? <==> |stream| <= max && NEWLINE !in stream)
    && (o == Failed(FrameTooLarge) <==> |stream| > max && NEWLINE !in stream[..max])
    && (forall n: nat :: n < |stream| && n < max && stream[n] == NEWLINE && NEWLINE !in stream[..n] ==> o == ParseLine(stream[..n], decode))
  }

  lemma {:induction false} FirstNewline(s: Bytes, k: nat)
    requires k < |s| && s[k] == NEWLINE && NEWLINE !in s[..k]
    ensures LineEnd(s) == k
  {
    if k > 0 {
      assert s[..k][0] == s[0] && s[..k] == [s[0]] + s[1..][..k - 1];
      FirstNewline(s[1..], k - 1);
    }
  }

  lemma {:induction false} SettleIsFramed(s: Bytes, max: nat, decode: Decoder)
    ensures Framed(s, max, decode, Settle(s, max, decode))
  {
    var n := LineEnd(s);
    if n < |s| { assert s[n] in s; }
    if n < max && n < |s| { assert s[..if max <= |s| then max else |s|][n] == NEWLINE; }
    forall k: nat | k < |s| && k < max && s[k] == NEWLINE && NEWLINE !in s[..k] ensures k == n { FirstNewline(s, k); }
  }

  /** A stream calls for one outcome only. */
  lemma {:induction false} FramedIsUnique(s: Bytes, max: nat, decode: Decoder, o: Outcome)
    requires Framed(s, max, decode, o)
    ensures o == Settle(s, max, decode)
  {
    SettleIsFramed(s, max, decode);
    var n := LineEnd(s);
    if n < |s| && n < max { assert NEWLINE !in s[..n]; }
  }

  /** However the stream is cut up, the request ends with exactly the outcome the stream calls for. */
  lemma {:induction false} ReplyIffFramed(chunks: seq<Bytes>, max: nat, decode: Decoder, o: Outcome)
    ensures Run(chunks, max, decode).outcome == o <==> Framed(Concat(chunks), max, decode, o)
  {
    ChunkingIsIrrelevant(chunks, chunks, max, decode);
    SettleIsFramed(Concat(chunks), max, decode);
    hide Settle, Framed, Run;
    if Framed(Concat(chunks), max, decode, o) { FramedIsUnique(Concat(chunks), max, decode, o); }
  }

  /** A line that fits is parsed without its newline; what follows it does not matter. */
  lemma {:induction false} ReplyIsTheFirstLine(chunks: seq<Bytes>, line: Bytes, rest: Bytes, max: nat, decode: Decoder)
    requires Concat(chunks) == line + [NEWLINE] + rest && NEWLINE !in line && |line| + 1 <= max
    ensures Run(chunks, max, decode).outcome == ParseLine(line, decode)
  {
    var stream := Concat(chunks);
    assert stream[..|line|] == line && stream[|line|] == NEWLINE;
    ReplyIffFramed(chunks, max, decode, Run(chunks, max, decode).outcome);
    hide Run, ParseLine, Concat;
  }

  /** Neither a C0 control (U+0000 to U+001F), nor DEL, nor a C1 control (U+0080 to U+009F). */
  predicate Printable(text: seq<nat>) {
    forall i :: 0 <= i < |text| ==> text[i] >= 32 && text[i] != 127 && !(128 <= text[i] <= 159)
  }

  /** The password is what follows the prefix, and a password exactly if it is neither empty nor holds a control character. */
  lemma {:induction false} PasswordIff(chunks: seq<Bytes>, line: Bytes, rest: Bytes, password: seq<nat>, max: nat, decode: Decoder)
    requires Concat(chunks) == line + [NEWLINE] + rest && NEWLINE !in line && |line| + 1 <= max
    ensures Run(chunks, max, decode).outcome == Password(password) <==> decode(line) == Some(OK_PREFIX + password) && password != [] && Printable(password)
  {
    ReplyIsTheFirstLine(chunks, line, rest, max, decode);
    hide Run, Concat;
    var r := ParseLine(line, decode);
    if r == Password(password) {
      var text := decode(line).value;
      assert forall i :: 0 <= i < |password| ==> password[i] == text[i + |OK_PREFIX|];
    }
    if decode(line) == Some(OK_PREFIX + password) && password != [] && Printable(password) {
      var text := decode(line).value;
      assert OK_PREFIX <= text;
      forall i | |OK_PREFIX| <= i < |text| ensures !Control(text[i]) { assert text[i] == password[i - |OK_PREFIX|]; }
      assert r.text == (OK_PREFIX + r.text)[|OK_PREFIX|..] && password == (OK_PREFIX + password)[|OK_PREFIX|..];
    }
  }

  /** The first settled outcome is the last. */
  lemma {:induction false} OutcomeIsFinal(a: seq<Bytes>, more: seq<Bytes>, max: nat, decode: Decoder)
    requires !Run(a, max, decode).outcome.Waiting?
    ensures Run(a + more, max, decode).outcome == Run(a, max, decode).outcome
    decreases |more|
  {
    if more == [] {
      assert a + more == a;
    } else {
      var n := |more| - 1;
      OutcomeIsFinal(a, more[..n], max, decode);
      assert (a + more)[..|a + more| - 1] == a + more[..n];
    }
  }

  // ---------------------------------------------------------------- the request object

  class Request {
    const max: nat
    const decode: Decoder
    var chunks: seq<Bytes>
    var received: nat
    var settled: bool
    var outcome: Outcome
    ghost var stream: Bytes
    ghost var data: bool   // no timeout, error or close has settled the request

    ghost predicate Valid()
      reads this
    {
      && (settled <==> !outcome.Waiting?)
      && (data ==> InStep(State(chunks, received, outcome), stream, max, decode))
      && (!data ==> settled)
    }

    constructor (max: nat, decode: Decoder)
      ensures Valid() && !settled && stream == [] && data && this.max == max && this.decode == decode
    {
      this.max, this.decode := max, decode;
      chunks, received, settled, outcome, stream, data := [], 0, false, Waiting, [], true;
    }

    method Conclude(o: Outcome)
      requires !o.Waiting? && (settled <==> !outcome.Waiting?)
      modifies this`settled, this`outcome, this`chunks
      ensures settled && outcome == (if old(settled) then old(outcome) else o)
      ensures chunks == (if old(settled) then old(chunks) else [])
    {
      if settled { return; }
      settled := true;
      chunks := [];
      outcome := o;
    }

    method Data(chunk: Bytes)
      requires Valid()
      modifies this
      ensures Valid() && stream == old(stream) + chunk && data == old(data)
      ensures data ==> Framed(stream, max, decode, outcome)
      ensures old(settled) ==> outcome == old(outcome)
    {
      if data { DataKeepsStep(State(chunks, received, outcome), stream, chunk, max, decode); }
      if data { SettleIsFramed(stream + chunk, max, decode); }
      hide Settle, Framed;
      stream := stream + chunk;
      var newline := LineEnd(chunk);
      var usable := if newline == |chunk| then |chunk| else newline + 1;
      received := received + usable;
      if received > max {
        Conclude(Failed(FrameTooLarge));
      } else if newline == |chunk| {
        chunks := chunks + [chunk];
      } else {
        chunks := chunks + [chunk[..newline]];
        Conclude(ParseLine(Concat(chunks), decode));
      }
    }

    /** Timeout, abort, socket error or close. */
    method Interrupted(why: Failure)
      requires Valid()
      modifies this
      ensures Valid() && settled && stream == old(stream)
      ensures outcome == if old(settled) then old(outcome) else Failed(why)
    {
      if !settled { data := false; }
      Conclude(Failed(why));
    }
  }
}
