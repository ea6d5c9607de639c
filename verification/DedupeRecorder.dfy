/** Concurrent `record` calls on one recorder, interleaved at every await. */
module DedupeRecorder {
  import opened Statuses

  type Key = nat
  type CallId = nat

  /** An envelope is identified by its position in the log. */
  datatype Progress =
    | InTx                               // owner (or undeduplicated): transaction under way
    | Committed(envelope: nat)           // committed, continuation not yet run
    | Failing                            // transaction failed, continuation not yet run
    | Joining(owner: CallId)             // waiting for the owner's promise
    | Returned(result: Option<nat>)
    | Threw

  /** `joined` remembers whose promise a joiner waited for. */
  datatype Call = Call(key: Option<Key>, progress: Progress, joined: Option<CallId>)

  datatype Entry = Entry(key: Option<Key>, writer: CallId)

  /** `promises[c]` is what owner c released to its joiners. */
  datatype State = State(calls: map<CallId, Call>, seen: set<Key>, pending: map<Key, CallId>,
                         promises: map<CallId, Option<nat>>, log: seq<Entry>)

  const START := State(map[], {}, map[], map[], [])

  datatype Act =
    | Begin(c: CallId, key: Option<Key>)
    | Commit(c: CallId)
    | Fail(c: CallId)
    | Release(c: CallId, emitThrows: bool)
    | Wake(c: CallId)

  predicate At(s: State, c: CallId, p: Progress) {
    c in s.calls && s.calls[c].progress == p
  }

  function Put(s: State, c: CallId, call: Call): State {
    s.(calls := s.calls[c := call])
  }

  /** Up to the first await: the lock check has passed, the key is claimed or not. */
  function BeginStep(s: State, c: CallId, key: Option<Key>): State {
    if c in s.calls then s
    else if key.None? then Put(s, c, Call(key, InTx, None))
    else if key.value in s.seen then Put(s, c, Call(key, Returned(None), None))
    else if key.value in s.pending then Put(s, c, Call(key, Joining(s.pending[key.value]), Some(s.pending[key.value])))
    else Put(s, c, Call(key, InTx, None)).(pending := s.pending[key.value := c])
  }

  function CommitStep(s: State, c: CallId): State {
    if !At(s, c, InTx) then s
    else Put(s, c, s.calls[c].(progress := Committed(|s.log|))).(log := s.log + [Entry(s.calls[c].key, c)])
  }

  function ReleaseStep(s: State, c: CallId, emitThrows: bool): State {
    if c !in s.calls then s
    else
      var call := s.calls[c];
      match call.progress
      case Committed(e) =>
        var after := Put(s, c, call.(progress := if emitThrows then Threw else Returned(Some(e))));
        if call.key.None? then after
        else after.(seen := s.seen + {call.key.value}, pending := s.pending - {call.key.value}, promises := s.promises[c := Some(e)])
      case Failing =>
        var after := Put(s, c, call.(progress := Threw));
        if call.key.None? then after
        else after.(pending := s.pending - {call.key.value}, promises := s.promises[c := None])
      case _ => s
  }

  function WakeStep(s: State, c: CallId): State {
    if c !in s.calls || !s.calls[c].progress.Joining? || s.calls[c].progress.owner !in s.promises then s
    else Put(s, c, s.calls[c].(progress := Returned(s.promises[s.calls[c].progress.owner])))
  }

  function Step(s: State, act: Act): State {
    match act
    case Begin(c, key) => BeginStep(s, c, key)
    case Commit(c) => CommitStep(s, c)
    case Fail(c) => if At(s, c, InTx) then Put(s, c, s.calls[c].(progress := Failing)) else s
    case Release(c, t) => ReleaseStep(s, c, t)
    case Wake(c) => WakeStep(s, c)
  }

  // ---------------------------------------------------------------- invariant

  /** Between claim and release. */
  predicate InFlight(p: Progress) {
    p.InTx? || p.Committed? || p.Failing?
  }

  /** A call holds the claim on its key exactly while it is in flight. */
  ghost predicate Claims(s: State) {
    && (forall k :: k in s.pending ==> s.pending[k] in s.calls && s.calls[s.pending[k]].key == Some(k) && InFlight(s.calls[s.pending[k]].progress))
    && (forall c :: c in s.calls && s.calls[c].key.Some? && InFlight(s.calls[c].progress) ==>
          s.calls[c].key.value in s.pending && s.pending[s.calls[c].key.value] == c)
    && (forall c :: c in s.promises ==> c in s.calls && s.calls[c].key.Some? && !InFlight(s.calls[c].progress))
  }

  /** `seen` is exactly the keys whose commit was released, and none of them is in flight. */
  ghost predicate SeenExact(s: State) {
    && (forall k :: k in s.seen <==> exists c :: c in s.promises && c in s.calls && s.calls[c].key == Some(k) && s.promises[c].Some?)
    && (forall k :: k in s.seen ==> k !in s.pending)
  }

  /** A logged event is its call's only one and is on its way to, or in, a promise. */
  ghost predicate EntryOk(s: State, i: nat)
    requires i < |s.log|
  {
    var e := s.log[i];
    && e.writer in s.calls && s.calls[e.writer].key == e.key
    && (e.key.Some? ==> s.calls[e.writer].progress == Committed(i) || (e.writer in s.promises && s.promises[e.writer] == Some(i)))
  }

  ghost predicate Logged(s: State) {
    && (forall i :: 0 <= i < |s.log| ==> EntryOk(s, i))
    && (forall c :: c in s.calls && s.calls[c].progress.Committed? ==>
          s.calls[c].progress.envelope < |s.log| && s.log[s.calls[c].progress.envelope] == Entry(s.calls[c].key, c))
    && (forall c :: c in s.promises && s.promises[c].Some? ==> s.promises[c].value < |s.log| && s.log[s.promises[c].value].writer == c)
  }

  ghost predicate Unique(s: State) {
    forall i, j :: 0 <= i < j < |s.log| && s.log[i].key.Some? ==> s.log[i].key != s.log[j].key
  }

  /** A joiner waits for, or has received, the promise of a call with its own key. */
  ghost predicate JoinerOk(s: State, c: CallId)
    requires c in s.calls
  {
    var call := s.calls[c];
    && (call.progress.Joining? ==> call.joined == Some(call.progress.owner))
    && (call.joined.Some? ==>
          && call.joined.value in s.calls && call.key.Some? && s.calls[call.joined.value].key == call.key
          && s.calls[call.joined.value].joined.None?
          && (call.joined.value in s.promises || InFlight(s.calls[call.joined.value].progress))
          && (call.progress.Joining? || (call.joined.value in s.promises && call.progress == Returned(s.promises[call.joined.value]))))
  }

  ghost predicate Joiners(s: State) {
    forall c :: c in s.calls ==> JoinerOk(s, c)
  }

  ghost predicate Inv(s: State) {
    Claims(s) && SeenExact(s) && Logged(s) && Unique(s) && Joiners(s)
  }

  lemma {:induction false} StepClaims(s: State, act: Act)
    requires Claims(s)
    ensures Claims(Step(s, act))
  {
    if act.Release? { ReleaseClaims(s, act.c, act.emitThrows); } else { QuietClaims(s, act); }
  }

  /** Commit, failure and wake-up: one call moves on, in flight or not as before. */
  lemma {:induction false} ProgressFacts(s: State, act: Act)
    requires (act.Commit? || act.Fail? || act.Wake?) && Step(s, act) != s
    ensures var s', c := Step(s, act), act.c;
            && c in s.calls && c in s'.calls && s'.calls == s.calls[c := s'.calls[c]]
            && s'.calls[c].key == s.calls[c].key && s'.calls[c].joined == s.calls[c].joined
            && InFlight(s'.calls[c].progress) == InFlight(s.calls[c].progress)
            && !s.calls[c].progress.Committed? && (s'.calls[c].progress.Committed? ==> act.Commit?)
            && s'.pending == s.pending && s'.promises == s.promises && s'.seen == s.seen
            && (!act.Commit? ==> s'.log == s.log)
  {
  }

  lemma {:induction false} BeginFacts(s: State, c: CallId, key: Option<Key>)
    requires c !in s.calls
    ensures var s' := BeginStep(s, c, key);
            && c in s'.calls && s'.calls == s.calls[c := s'.calls[c]] && s'.calls[c].key == key
            && !s'.calls[c].progress.Committed?
            && s'.promises == s.promises && s'.seen == s.seen && s'.log == s.log
            && (key.Some? && InFlight(s'.calls[c].progress) ==> key.value !in s.seen && key.value !in s.pending && s'.pending == s.pending[key.value := c])
            && (key.None? || !InFlight(s'.calls[c].progress) ==> s'.pending == s.pending)
  {
  }

  lemma {:induction false} QuietClaims(s: State, act: Act)
    requires Claims(s) && !act.Release?
    ensures Claims(Step(s, act))
  {
    if Step(s, act) == s { return; }
    if act.Begin? { BeginFacts(s, act.c, act.key); } else { ProgressFacts(s, act); }
    hide Step, BeginStep;
  }

  lemma {:induction false} ReleaseClaims(s: State, c: CallId, t: bool)
    requires Claims(s)
    ensures Claims(ReleaseStep(s, c, t))
  {
    var s' := ReleaseStep(s, c, t);
    if s' != s {
      ReleaseFacts(s, c, t);
      hide ReleaseStep;
      forall k | k in s'.pending ensures s'.pending[k] != c { assert s'.pending[k] == s.pending[k]; }
    }
  }

  /** Where `seen`, the promises and the claims stay as they are. */
  lemma {:induction false} SeenFrame(s: State, s': State)
    requires SeenExact(s) && Claims(s) && s'.seen == s.seen && s'.promises == s.promises
    requires forall k :: k in s'.pending ==> k in s.pending || k !in s.seen
    requires forall c :: c in s.calls ==> c in s'.calls && s'.calls[c].key == s.calls[c].key
    ensures SeenExact(s')
  {
    forall k ensures k in s'.seen <==> exists c :: c in s'.promises && c in s'.calls && s'.calls[c].key == Some(k) && s'.promises[c].Some? {
      if k in s.seen {
        var c :| c in s.promises && c in s.calls && s.calls[c].key == Some(k) && s.promises[c].Some?;
        assert c in s'.promises && c in s'.calls;
      }
    }
  }

  lemma {:induction false} ReleaseSeen(s: State, c: CallId, t: bool)
    requires SeenExact(s) && Claims(s)
    ensures SeenExact(ReleaseStep(s, c, t))
  {
    var s' := ReleaseStep(s, c, t);
    if s' != s {
      ReleaseFacts(s, c, t);
      PromiseOnce(s, c);
      hide ReleaseStep;
      forall k ensures k in s'.seen <==> exists d :: d in s'.promises && d in s'.calls && s'.calls[d].key == Some(k) && s'.promises[d].Some? {
        if k in s.seen {
          var d :| d in s.promises && d in s.calls && s.calls[d].key == Some(k) && s.promises[d].Some?;
          assert d in s'.promises && d in s'.calls;
        } else if k in s'.seen {
          assert c in s'.promises && c in s'.calls;
        }
      }
    }
  }

  lemma {:induction false} StepSeen(s: State, act: Act)
    requires SeenExact(s) && Claims(s)
    ensures SeenExact(Step(s, act))
  {
    if Step(s, act) == s { return; }
    if act.Release? {
      ReleaseSeen(s, act.c, act.emitThrows);
    } else {
      if act.Begin? { BeginFacts(s, act.c, act.key); } else { ProgressFacts(s, act); }
      hide Step, BeginStep;
      SeenFrame(s, Step(s, act));
    }
  }

  /** What a release does, in terms of the call and its promise. */
  lemma {:induction false} ReleaseFacts(s: State, c: CallId, t: bool)
    requires ReleaseStep(s, c, t) != s
    ensures var s' := ReleaseStep(s, c, t);
            && c in s.calls && (s.calls[c].progress.Committed? || s.calls[c].progress.Failing?)
            && s'.log == s.log && c in s'.calls && s'.calls == s.calls[c := s'.calls[c]]
            && s'.calls[c].key == s.calls[c].key && s'.calls[c].joined == s.calls[c].joined && !InFlight(s'.calls[c].progress)
            && !s'.calls[c].progress.Joining?
            && (s.calls[c].key.None? ==> s'.promises == s.promises && s'.pending == s.pending && s'.seen == s.seen)
            && (s.calls[c].key.Some? ==>
                  var ok := s.calls[c].progress.Committed?;
                  && s'.promises == s.promises[c := if ok then Some(s.calls[c].progress.envelope) else None]
                  && s'.pending == s.pending - {s.calls[c].key.value}
                  && s'.seen == s.seen + if ok then {s.calls[c].key.value} else {})
  {
  }

  lemma {:induction false} ReleaseLogged(s: State, c: CallId, t: bool)
    requires Logged(s) && Claims(s) && ReleaseStep(s, c, t) != s
    ensures Logged(ReleaseStep(s, c, t))
  {
    var s' := ReleaseStep(s, c, t);
    ReleaseFacts(s, c, t);
    PromiseOnce(s, c);
    hide Claims, ReleaseStep;
    forall i | 0 <= i < |s'.log| ensures EntryOk(s', i) { assert EntryOk(s, i); }
  }

  /** A call in flight has not settled its promise. */
  lemma {:induction false} PromiseOnce(s: State, c: CallId)
    requires Claims(s) && c in s.calls && InFlight(s.calls[c].progress)
    ensures c !in s.promises
  {
  }

  lemma {:induction false} QuietLogged(s: State, act: Act)
    requires Logged(s) && Claims(s) && (act.Begin? || act.Fail? || act.Wake?)
    ensures Logged(Step(s, act))
  {
    var s' := Step(s, act);
    if s' == s { return; }
    if act.Begin? {
      NoPromise(s, act.c);
      BeginFacts(s, act.c, act.key);
    } else {
      ProgressFacts(s, act);
    }
    hide Claims, Step, BeginStep;
    forall i | 0 <= i < |s'.log| ensures EntryOk(s', i) { assert EntryOk(s, i); }
  }

  lemma {:induction false} NoPromise(s: State, c: CallId)
    requires Claims(s) && c !in s.calls
    ensures c !in s.promises
  {
  }

  lemma {:induction false} CommitLogged(s: State, c: CallId)
    requires Logged(s) && Claims(s)
    ensures Logged(CommitStep(s, c))
  {
    if At(s, c, InTx) { PromiseOnce(s, c); }
    hide Claims;
    var s' := CommitStep(s, c);
    forall i | 0 <= i < |s'.log| ensures EntryOk(s', i) { if i < |s.log| { assert EntryOk(s, i); } }
  }

  lemma {:induction false} StepLogged(s: State, act: Act)
    requires Logged(s) && Claims(s)
    ensures Logged(Step(s, act))
  {
    if Step(s, act) == s { return; }
    if act.Release? { ReleaseLogged(s, act.c, act.emitThrows); }
    else if act.Commit? { CommitLogged(s, act.c); }
    else { QuietLogged(s, act); }
  }

  /** While a call is in its transaction, its key is not in the log. */
  lemma {:induction false} NotYetLogged(s: State, c: CallId)
    requires Claims(s) && SeenExact(s) && Logged(s) && At(s, c, InTx) && s.calls[c].key.Some?
    ensures forall i :: 0 <= i < |s.log| ==> s.log[i].key != s.calls[c].key
  {
    forall i | 0 <= i < |s.log| ensures s.log[i].key != s.calls[c].key { assert EntryOk(s, i); }
  }

  lemma {:induction false} StepUnique(s: State, act: Act)
    requires Claims(s) && SeenExact(s) && Logged(s) && Unique(s)
    ensures Unique(Step(s, act))
  {
    if act.Commit? && At(s, act.c, InTx) && s.calls[act.c].key.Some? { NotYetLogged(s, act.c); }
    hide Claims, SeenExact, Logged;
  }

  /** One call changed; a joiner's facts about it are kept. */
  lemma {:induction false} JoinerFrame(s: State, s': State, c: CallId, d: CallId)
    requires c in s.calls && JoinerOk(s, c) && c in s'.calls && s'.calls[c] == s.calls[c]
    requires d in s'.calls && s'.calls == s.calls[d := s'.calls[d]]
    requires d in s.calls ==> s'.calls[d].key == s.calls[d].key && s'.calls[d].joined == s.calls[d].joined
    requires forall x :: x in s.promises ==> x in s'.promises && s'.promises[x] == s.promises[x]
    requires d in s.calls && InFlight(s.calls[d].progress) && s.calls[d].key.Some? ==> d in s'.promises || InFlight(s'.calls[d].progress)
    ensures JoinerOk(s', c)
  {
  }

  lemma {:induction false} StepJoiners(s: State, act: Act)
    requires Claims(s) && Joiners(s)
    ensures Joiners(Step(s, act))
  {
    var s' := Step(s, act);
    if s' != s {
      var d := act.c;
      StepFrame(s, act);
      forall c | c in s'.calls ensures JoinerOk(s', c) {
        if c != d { JoinerFrame(s, s', c, d); } else { OwnJoiner(s, act); }
      }
    }
  }

  lemma {:induction false} StepFrame(s: State, act: Act)
    requires Claims(s) && Step(s, act) != s
    ensures var s', d := Step(s, act), act.c;
            && d in s'.calls && s'.calls == s.calls[d := s'.calls[d]]
            && (d in s.calls ==> s'.calls[d].key == s.calls[d].key && s'.calls[d].joined == s.calls[d].joined)
            && (forall x :: x in s.promises ==> x in s'.promises && s'.promises[x] == s.promises[x])
            && (d in s.calls && InFlight(s.calls[d].progress) && s.calls[d].key.Some? ==> d in s'.promises || InFlight(s'.calls[d].progress))
  {
    if act.Release? {
      ReleaseFacts(s, act.c, act.emitThrows);
      PromiseOnce(s, act.c);
    } else if act.Begin? {
      BeginFacts(s, act.c, act.key);
    } else {
      ProgressFacts(s, act);
    }
    hide Claims, Step, BeginStep, ReleaseStep;
  }

  lemma {:induction false} OwnJoiner(s: State, act: Act)
    requires Claims(s) && Joiners(s) && Step(s, act) != s && act.c in Step(s, act).calls
    ensures JoinerOk(Step(s, act), act.c)
  {
    var d := act.c;
    match act
    case Begin(c, key) =>
      if key.Some? && key.value in s.pending { assert JoinerOk(s, s.pending[key.value]); }
    case _ => assert JoinerOk(s, d);
  }

  lemma {:induction false} StepKeeps(s: State, act: Act)
    requires Inv(s)
    ensures Inv(Step(s, act))
  {
    hide Claims, SeenExact, Logged, Unique, Joiners, Step;
    StepClaims(s, act);
    StepSeen(s, act);
    StepLogged(s, act);
    StepUnique(s, act);
    StepJoiners(s, act);
  }

  // ---------------------------------------------------------------- over every interleaving

  ghost predicate History(hist: seq<State>, acts: seq<Act>) {
    && |hist| == |acts| + 1
    && hist[0] == START
    && forall i :: 0 <= i < |acts| ==> hist[i + 1] == Step(hist[i], acts[i])
  }

  lemma {:induction false} HistoryInv(hist: seq<State>, acts: seq<Act>, n: nat)
    requires History(hist, acts) && n < |hist|
    ensures Inv(hist[n])
  {
    hide Step;
    if n > 0 {
      hide Inv;
      HistoryInv(hist, acts, n - 1);
      StepKeeps(hist[n - 1], acts[n - 1]);
    }
  }

  /** At most one event per dedupe key is ever committed. */
  lemma {:induction false} OneEventPerKey(hist: seq<State>, acts: seq<Act>, n: nat, i: nat, j: nat)
    requires History(hist, acts) && n < |hist| && i < |hist[n].log| && j < |hist[n].log|
    requires hist[n].log[i].key.Some? && hist[n].log[i].key == hist[n].log[j].key
    ensures i == j
  {
    hide Step, Claims, SeenExact, Logged, Joiners;
    HistoryInv(hist, acts, n);
  }

  /** `seen` is exactly the keys of released commits, and is disjoint from the keys in flight. */
  lemma {:induction false} SeenIsReleasedCommits(hist: seq<State>, acts: seq<Act>, n: nat, k: Key)
    requires History(hist, acts) && n < |hist|
    ensures k in hist[n].seen <==> exists i :: 0 <= i < |hist[n].log| && hist[n].log[i].key == Some(k) && hist[n].log[i].writer in hist[n].promises
    ensures !(k in hist[n].seen && k in hist[n].pending)
    ensures k in hist[n].pending <==> exists c :: c in hist[n].calls && hist[n].calls[c].key == Some(k) && InFlight(hist[n].calls[c].progress)
  {
    hide Step, Joiners, Unique;
    HistoryInv(hist, acts, n);
    var s := hist[n];
    if k in s.seen {
      var c :| c in s.promises && c in s.calls && s.calls[c].key == Some(k) && s.promises[c].Some?;
      assert EntryOk(s, s.promises[c].value);
    }
    if i :| 0 <= i < |s.log| && s.log[i].key == Some(k) && s.log[i].writer in s.promises {
      assert EntryOk(s, i);
      assert s.promises[s.log[i].writer].Some?;
    }
    if k in s.pending { assert s.pending[k] in s.calls; }
  }

  /** A joiner that returned got exactly what the owner of its key released. */
  lemma {:induction false} JoinersGetTheOwnersResult(hist: seq<State>, acts: seq<Act>, n: nat, c: CallId)
    requires History(hist, acts) && n < |hist| && c in hist[n].calls && hist[n].calls[c].joined.Some?
    ensures var s, owner := hist[n], hist[n].calls[c].joined.value;
            && owner in s.calls && s.calls[owner].key == s.calls[c].key && s.calls[c].key.Some?
            && (s.calls[c].progress.Joining? || (owner in s.promises && s.calls[c].progress == Returned(s.promises[owner])))
            && (owner in s.promises && s.promises[owner].Some? ==>
                  s.promises[owner].value < |s.log| && s.log[s.promises[owner].value] == Entry(s.calls[c].key, owner))
  {
    hide Step, Claims, SeenExact, Unique;
    HistoryInv(hist, acts, n);
    var s, owner := hist[n], hist[n].calls[c].joined.value;
    assert JoinerOk(s, c);
    if owner in s.promises && s.promises[owner].Some? { assert EntryOk(s, s.promises[owner].value); }
  }

  /** A call whose transaction fails throws and leaves no trace: no event, its key not recorded and free again. */
  lemma {:induction false} FailedCallThrows(hist: seq<State>, acts: seq<Act>, n: nat, c: CallId, t: bool)
    requires History(hist, acts) && n < |hist| && At(hist[n], c, InTx)
    ensures var s, s' := hist[n], Step(Step(hist[n], Fail(c)), Release(c, t));
            && At(s', c, Threw) && s'.log == s.log && s'.seen == s.seen
            && (s.calls[c].key.Some? ==> s.calls[c].key.value !in s'.seen && s'.pending == s.pending - {s.calls[c].key.value})
  {
    HistoryInv(hist, acts, n);
    hide Logged, Joiners, Unique;
  }

  /** After a failed owner lets go, the next call with its key owns the write. */
  lemma {:induction false} FailureLeavesKeyClaimable(hist: seq<State>, acts: seq<Act>, n: nat, c: CallId, d: CallId, t: bool)
    requires History(hist, acts) && n < |hist| && At(hist[n], c, Failing) && hist[n].calls[c].key.Some? && d !in hist[n].calls
    ensures var after := Step(Step(hist[n], Release(c, t)), Begin(d, hist[n].calls[c].key));
            At(after, d, InTx) && after.pending[hist[n].calls[c].key.value] == d
  {
    hide Logged, Joiners, Unique;
    HistoryInv(hist, acts, n);
  }

  /** A committed key is refused from its release on, for as long as the recorder lives. */
  lemma {:induction false} CommittedKeyStaysClosed(hist: seq<State>, acts: seq<Act>, n: nat, m: nat, k: Key)
    requires History(hist, acts) && n <= m < |hist| && k in hist[n].seen
    ensures k in hist[m].seen
    decreases m
  {
    if n < m { CommittedKeyStaysClosed(hist, acts, n, m - 1, k); }
  }

  // ---------------------------------------------------------------- what a call itself returns

  predicate Ended(s: State, c: CallId) {
    c in s.calls && (s.calls[c].progress.Returned? || s.calls[c].progress.Threw?)
  }

  /** Who a call is never changes, and once it has returned or thrown nothing else does. */
  lemma {:induction false} CallStays(hist: seq<State>, acts: seq<Act>, m: nat, n: nat, c: CallId)
    requires History(hist, acts) && m <= n < |hist| && c in hist[m].calls
    ensures c in hist[n].calls && hist[n].calls[c].key == hist[m].calls[c].key && hist[n].calls[c].joined == hist[m].calls[c].joined
    ensures Ended(hist[m], c) ==> hist[n].calls[c] == hist[m].calls[c]
    ensures hist[m].log <= hist[n].log
    decreases n
  {
    if m < n {
      CallStays(hist, acts, m, n - 1, c);
      CallStep(hist[n - 1], acts[n - 1], c);
    }
  }

  lemma {:induction false} CallStep(s: State, act: Act, c: CallId)
    requires c in s.calls
    ensures var s' := Step(s, act);
            && c in s'.calls && s'.calls[c].key == s.calls[c].key && s'.calls[c].joined == s.calls[c].joined
            && (Ended(s, c) || act.c != c ==> s'.calls[c] == s.calls[c]) && s.log <= s'.log
  {
  }

  /** A call in flight joined nobody, and the event it has committed is in the log. */
  lemma {:induction false} JoinerProgress(hist: seq<State>, acts: seq<Act>, n: nat, c: CallId)
    requires History(hist, acts) && n < |hist| && c in hist[n].calls && InFlight(hist[n].calls[c].progress)
    ensures hist[n].calls[c].joined.None?
    ensures hist[n].calls[c].progress.Committed? ==>
              var e := hist[n].calls[c].progress.envelope; e < |hist[n].log| && hist[n].log[e] == Entry(hist[n].calls[c].key, c)
  {
    hide Step, Claims, SeenExact, Unique;
    HistoryInv(hist, acts, n);
    assert JoinerOk(hist[n], c);
  }

  /** This release hands the call its own committed event `e`. */
  predicate Releases(hist: seq<State>, acts: seq<Act>, m: nat, c: CallId, e: nat, throws: bool)
    requires m < |acts| < |hist|
  {
    acts[m] == Release(c, throws) && At(hist[m], c, Committed(e))
  }

  /**
   * A call that joined nobody returned event `e` exactly when its own release found `e` committed
   * and emitting it did not throw; and then `e` is the event this call wrote.
   */
  lemma {:induction false} OwnReturnIff(hist: seq<State>, acts: seq<Act>, n: nat, c: CallId, e: nat)
    requires History(hist, acts) && n < |hist|
    ensures At(hist[n], c, Returned(Some(e))) && hist[n].calls[c].joined.None? <==> exists m: nat :: m < n && Releases(hist, acts, m, c, e, false)
    ensures At(hist[n], c, Returned(Some(e))) && hist[n].calls[c].joined.None? ==> e < |hist[n].log| && hist[n].log[e] == Entry(hist[n].calls[c].key, c)
  {
    hide Step;
    if m: nat :| m < n && Releases(hist, acts, m, c, e, false) {
      JoinerProgress(hist, acts, m, c);
      ReleaseEnds(hist[m], c, e, false);
      CallStays(hist, acts, m + 1, n, c);
      CallStays(hist, acts, m, n, c);
    }
    if At(hist[n], c, Returned(Some(e))) && hist[n].calls[c].joined.None? {
      var m := ReturnedBy(hist, acts, n, c, e);
      JoinerProgress(hist, acts, m, c);
      CallStays(hist, acts, m, n, c);
    }
  }

  lemma {:induction false} ReleaseEnds(s: State, c: CallId, e: nat, throws: bool)
    requires At(s, c, Committed(e))
    ensures At(Step(s, Release(c, throws)), c, if throws then Threw else Returned(Some(e)))
  {
  }

  lemma {:induction false} ReturnedBy(hist: seq<State>, acts: seq<Act>, n: nat, c: CallId, e: nat) returns (m: nat)
    requires History(hist, acts) && n < |hist| && At(hist[n], c, Returned(Some(e))) && hist[n].calls[c].joined.None?
    ensures m < n && Releases(hist, acts, m, c, e, false)
  {
    var s, act := hist[n - 1], acts[n - 1];
    if c in s.calls && s.calls[c] == hist[n].calls[c] {
      hide Step;
      m := ReturnedBy(hist, acts, n - 1, c, e);
    } else {
      m := n - 1;
      if c in s.calls {
        hide Step;
        CallStep(s, act, c);
        HistoryInv(hist, acts, n - 1);
        assert JoinerOk(s, c);
        OwnEnd(s, act, c);
      }
    }
  }

  /** A call in flight, or waiting, ends only by its own release, or its wake-up. */
  lemma {:induction false} OwnEnd(s: State, act: Act, c: CallId)
    requires c in s.calls && !Ended(s, c) && Ended(Step(s, act), c)
    ensures act.c == c && (act.Release? || (act.Wake? && s.calls[c].progress.Joining?))
    ensures act.Release? ==> s.calls[c].progress.Failing? || s.calls[c].progress.Committed?
    ensures act.Release? && s.calls[c].progress.Failing? ==> At(Step(s, act), c, Threw)
    ensures act.Release? && s.calls[c].progress.Committed? ==>
              At(Step(s, act), c, if act.emitThrows then Threw else Returned(Some(s.calls[c].progress.envelope)))
    ensures act.Wake? ==> At(Step(s, act), c, Returned(s.promises[s.calls[c].progress.owner])) && s.calls[c].progress.owner in s.promises
  {
  }

  /** A call throws exactly when its transaction failed, or emitting its committed event threw. */
  lemma {:induction false} ThrewIff(hist: seq<State>, acts: seq<Act>, n: nat, c: CallId)
    requires History(hist, acts) && n < |hist|
    ensures At(hist[n], c, Threw) <==>
              exists m: nat :: m < n && ReleaseThrows(hist, acts, m, c)
  {
    hide Step;
    if m: nat :| m < n && ReleaseThrows(hist, acts, m, c) {
      ThrowingEnds(hist[m], acts[m], c);
      CallStays(hist, acts, m + 1, n, c);
    }
    if At(hist[n], c, Threw) { var m := ThrownBy(hist, acts, n, c); }
  }

  predicate ReleaseThrows(hist: seq<State>, acts: seq<Act>, m: nat, c: CallId)
    requires m < |acts| < |hist|
  {
    && acts[m].Release? && acts[m].c == c && c in hist[m].calls
    && (hist[m].calls[c].progress.Failing? || (hist[m].calls[c].progress.Committed? && acts[m].emitThrows))
  }

  lemma {:induction false} ThrowingEnds(s: State, act: Act, c: CallId)
    requires act.Release? && act.c == c && c in s.calls
    requires s.calls[c].progress.Failing? || (s.calls[c].progress.Committed? && act.emitThrows)
    ensures At(Step(s, act), c, Threw)
  {
  }

  lemma {:induction false} ThrownBy(hist: seq<State>, acts: seq<Act>, n: nat, c: CallId) returns (m: nat)
    requires History(hist, acts) && n < |hist| && At(hist[n], c, Threw)
    ensures m < n && ReleaseThrows(hist, acts, m, c)
  {
    var s, act := hist[n - 1], acts[n - 1];
    if At(s, c, Threw) {
      hide Step;
      m := ThrownBy(hist, acts, n - 1, c);
    } else {
      m := n - 1;
      if c in s.calls {
        if Ended(s, c) { CallStep(s, act, c); } else { OwnEnd(s, act, c); }
      }
    }
  }

  /** This call began on a key that was already in `seen`. */
  predicate BeginsSeen(hist: seq<State>, acts: seq<Act>, m: nat, c: CallId)
    requires m < |acts| < |hist|
  {
    acts[m].Begin? && acts[m].c == c && c !in hist[m].calls && acts[m].key.Some? && acts[m].key.value in hist[m].seen
  }

  /** A call that joined nobody is a duplicate exactly when its key had been recorded when it began. */
  lemma {:induction false} DuplicateIff(hist: seq<State>, acts: seq<Act>, n: nat, c: CallId)
    requires History(hist, acts) && n < |hist|
    ensures At(hist[n], c, Returned(None)) && hist[n].calls[c].joined.None? <==> exists m: nat :: m < n && BeginsSeen(hist, acts, m, c)
  {
    hide Step;
    if m: nat :| m < n && BeginsSeen(hist, acts, m, c) {
      SeenEnds(hist[m], acts[m]);
      CallStays(hist, acts, m + 1, n, c);
    }
    if At(hist[n], c, Returned(None)) && hist[n].calls[c].joined.None? { var m := DuplicateBy(hist, acts, n, c); }
  }

  lemma {:induction false} SeenEnds(s: State, act: Act)
    requires act.Begin? && act.c !in s.calls && act.key.Some? && act.key.value in s.seen
    ensures At(Step(s, act), act.c, Returned(None)) && Step(s, act).calls[act.c].joined.None?
  {
  }

  lemma {:induction false} DuplicateBy(hist: seq<State>, acts: seq<Act>, n: nat, c: CallId) returns (m: nat)
    requires History(hist, acts) && n < |hist| && At(hist[n], c, Returned(None)) && hist[n].calls[c].joined.None?
    ensures m < n && BeginsSeen(hist, acts, m, c)
  {
    var s, act := hist[n - 1], acts[n - 1];
    if c in s.calls && s.calls[c] == hist[n].calls[c] {
      hide Step;
      m := DuplicateBy(hist, acts, n - 1, c);
    } else {
      m := n - 1;
      if c in s.calls {
        hide Step;
        CallStep(s, act, c);
        HistoryInv(hist, acts, n - 1);
        assert JoinerOk(s, c);
        OwnEnd(s, act, c);
      }
    }
  }

  /**
   * Every event, with or without a dedupe key, is written by one call that joined nobody and wrote
   * nothing else; until the call lets go it is in flight, afterwards it returned this event, or threw
   * because emitting it threw.
   */
  lemma {:induction false} WriterReturnsItsEvent(hist: seq<State>, acts: seq<Act>, n: nat, e: nat)
    requires History(hist, acts) && n < |hist| && e < |hist[n].log|
    ensures var s, c := hist[n], hist[n].log[e].writer;
            && c in s.calls && s.calls[c].joined.None? && s.calls[c].key == s.log[e].key
            && (|| s.calls[c].progress == Committed(e)
                || s.calls[c].progress == Returned(Some(e))
                || (s.calls[c].progress.Threw? && exists m: nat :: m < n && Releases(hist, acts, m, c, e, true)))
            && forall i :: 0 <= i < |s.log| && s.log[i].writer == c ==> i == e
  {
    if e < |hist[n - 1].log| {
      WriterReturnsItsEvent(hist, acts, n - 1, e);
      WriterStep(hist, acts, n - 1, e);
    } else {
      FreshWriter(hist, acts, n - 1);
    }
  }

  lemma {:induction false} WriterStep(hist: seq<State>, acts: seq<Act>, n: nat, e: nat)
    requires History(hist, acts) && n < |acts| && e < |hist[n].log|
    requires var s, c := hist[n], hist[n].log[e].writer;
             && c in s.calls && (forall i :: 0 <= i < |s.log| && s.log[i].writer == c ==> i == e)
             && (s.calls[c].progress == Committed(e) || s.calls[c].progress == Returned(Some(e)) || s.calls[c].progress.Threw?)
    ensures var s, s', c := hist[n], hist[n + 1], hist[n].log[e].writer;
            && s.log <= s'.log && c in s'.calls && s'.calls[c].joined == s.calls[c].joined && s'.calls[c].key == s.calls[c].key
            && (|| s'.calls[c].progress == s.calls[c].progress
                || s'.calls[c].progress == Returned(Some(e))
                || (s'.calls[c].progress.Threw? && Releases(hist, acts, n, c, e, true)))
            && forall i :: 0 <= i < |s'.log| && s'.log[i].writer == c ==> i == e
  {
  }

  /** A commit logs the event of a call that has logged nothing so far. */
  lemma {:induction false} FreshWriter(hist: seq<State>, acts: seq<Act>, n: nat)
    requires History(hist, acts) && n < |acts| && |hist[n + 1].log| > |hist[n].log|
    ensures var s, s', e := hist[n], hist[n + 1], |hist[n].log|;
            && |s'.log| == e + 1 && var c := s'.log[e].writer;
            && c in s'.calls && s'.calls[c].joined.None? && s'.calls[c].key == s'.log[e].key && s'.calls[c].progress == Committed(e)
            && forall i :: 0 <= i < e ==> s'.log[i].writer != c
  {
    var s, c := hist[n], acts[n].c;
    HistoryInv(hist, acts, n);
    hide Claims, SeenExact, Unique, Logged;
    assert JoinerOk(s, c);
    forall i | 0 <= i < |s.log| ensures s.log[i].writer != c {
      WriterReturnsItsEvent(hist, acts, n, i);
    }
  }

  /** A call with a new key, or none, that is not disturbed records one event and returns it. */
  lemma {:induction false} FreshCallRecords(hist: seq<State>, acts: seq<Act>, n: nat, c: CallId)
    requires History(hist, acts) && n + 3 < |hist| && c !in hist[n].calls && acts[n].Begin?
    requires acts[n].key.Some? ==> acts[n].key.value !in hist[n].seen && acts[n].key.value !in hist[n].pending
    requires acts[n].c == c && acts[n + 1] == Commit(c) && acts[n + 2] == Release(c, false)
    ensures var s, s', key := hist[n], hist[n + 3], acts[n].key;
            && s'.log == s.log + [Entry(key, c)] && At(s', c, Returned(Some(|s.log|)))
            && s'.seen == s.seen + (if key.Some? then {key.value} else {}) && s'.pending == s.pending
  {
    BeginFacts(hist[n], c, acts[n].key);
    assert hist[n + 1] == Step(hist[n], acts[n]) && hist[n + 2] == Step(hist[n + 1], acts[n + 1]) && hist[n + 3] == Step(hist[n + 2], acts[n + 2]);
  }

  /** A joiner that is woken returns exactly when the owner has let go. */
  lemma {:induction false} JoinerReturnsIff(hist: seq<State>, acts: seq<Act>, n: nat, c: CallId, owner: CallId)
    requires History(hist, acts) && n < |acts| && At(hist[n], c, Joining(owner)) && acts[n] == Wake(c)
    ensures owner in hist[n].calls
    ensures Ended(hist[n + 1], c) <==> !InFlight(hist[n].calls[owner].progress)
  {
    HistoryInv(hist, acts, n);
    hide SeenExact, Unique, Logged;
    assert JoinerOk(hist[n], c);
  }

  // ---------------------------------------------------------------- the recorder's own two tables

  class Recorder {
    var seen: set<Key>
    var pending: map<Key, CallId>
    var calls: map<CallId, Call>
    var promises: map<CallId, Option<nat>>
    var log: seq<Entry>

    ghost function View(): State
      reads this
    {
      State(calls, seen, pending, promises, log)
    }

    constructor ()
      ensures View() == START && Inv(View())
    {
      seen, pending, calls, promises, log := {}, map[], map[], map[], [];
    }

    /** #claimDedupeKey and the part of `record` before the first await. */
    method BeginRecord(c: CallId, key: Option<Key>)
      requires c !in calls && Inv(View())
      modifies this
      ensures View() == Step(old(View()), Begin(c, key)) && Inv(View())
    {
      StepKeeps(View(), Begin(c, key));
      hide Inv;
      if key.Some? {
        if key.value in seen {
          calls := calls[c := Call(key, Returned(None), None)];
          return;
        }
        if key.value in pending {
          var owner := pending[key.value];
          calls := calls[c := Call(key, Joining(owner), Some(owner))];
          return;
        }
        pending := pending[key.value := c];
      }
      calls := calls[c := Call(key, InTx, None)];
    }

    /** The owner's continuation: mark on success, always drop the claim, settle the promise. */
    method ReleaseClaim(c: CallId, emitThrows: bool)
      requires c in calls && (calls[c].progress.Committed? || calls[c].progress.Failing?) && Inv(View())
      modifies this
      ensures View() == Step(old(View()), Release(c, emitThrows)) && Inv(View())
    {
      StepKeeps(View(), Release(c, emitThrows));
      hide Inv;
      var call := calls[c];
      var result := if call.progress.Committed? then Some(call.progress.envelope) else None;
      if call.key.Some? {
        if result.Some? { seen := seen + {call.key.value}; }
        pending := pending - {call.key.value};
        promises := promises[c := result];
      }
      calls := calls[c := call.(progress := if result.Some? && !emitThrows then Returned(result) else Threw)];
    }
  }
}
