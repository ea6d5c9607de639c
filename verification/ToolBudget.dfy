/** The per-Run convergence guard: tool-call, repetition, turn and time limits. */
module ToolBudget {
  import opened Statuses
  import opened Sorting

  // ---------------------------------------------------------------- fingerprints

  /** Tool arguments: JSON trees whose objects list their keys in insertion order. */
  datatype Json = Leaf(text: string) | Arr(items: seq<Json>) | Obj(keys: seq<string>, vals: map<string, Json>)

  /** stableValue: the same tree with every object's fields in key order. */
  datatype Stable = SLeaf(text: string) | SArr(items: seq<Stable>) | SObj(fields: seq<Field>)
  datatype Field = Field(key: string, value: Stable)

  function StableValue(v: Json): Stable {
    match v
    case Leaf(t) => SLeaf(t)
    case Arr(items) => SArr(seq(|items|, i requires 0 <= i < |items| => StableValue(items[i])))
    case Obj(keys, vals) =>
      var sorted := SortStrings(keys);
      SObj(seq(|sorted|, i requires 0 <= i < |sorted| =>
        Field(sorted[i], if sorted[i] in vals then StableValue(vals[sorted[i]]) else SLeaf(""))))
  }

  datatype Fingerprint = Fingerprint(tool: string, args: Stable)

  function FingerprintOf(tool: string, args: Option<Json>): Fingerprint {
    Fingerprint(tool, StableValue(if args.Some? then args.value else Obj([], map[])))
  }

  /** The same value up to the order in which object keys are listed, at every level. */
  ghost predicate SameUpToKeyOrder(a: Json, b: Json) {
    match a
    case Leaf(t) => b == Leaf(t)
    case Arr(items) => b.Arr? && |b.items| == |items| && forall i :: 0 <= i < |items| ==> SameUpToKeyOrder(items[i], b.items[i])
    case Obj(keys, vals) =>
      && b.Obj? && multiset(keys) == multiset(b.keys) && vals.Keys == b.vals.Keys
      && forall k :: k in vals ==> SameUpToKeyOrder(vals[k], b.vals[k])
  }

  /** Key order never makes two calls look different. */
  lemma {:induction false} KeyOrderIsIrrelevant(a: Json, b: Json)
    requires SameUpToKeyOrder(a, b)
    ensures StableValue(a) == StableValue(b)
    decreases a
  {
    match a
    case Leaf(_) =>
    case Arr(items) =>
      forall i | 0 <= i < |items| ensures StableValue(items[i]) == StableValue(b.items[i]) { KeyOrderIsIrrelevant(items[i], b.items[i]); }
    case Obj(keys, vals) =>
      StringsAreOrdered();
      SortIsCanonical(keys, b.keys, StrLeq);
      var sorted := SortStrings(keys);
      forall i | 0 <= i < |sorted| && sorted[i] in vals ensures StableValue(vals[sorted[i]]) == StableValue(b.vals[sorted[i]]) {
        KeyOrderIsIrrelevant(vals[sorted[i]], b.vals[sorted[i]]);
      }
      assert StableValue(a).fields == StableValue(b).fields;
  }

  /** And what differs beyond key order still looks different, where every listed key has a value. */
  ghost predicate Proper(v: Json) {
    match v
    case Leaf(_) => true
    case Arr(items) => forall i :: 0 <= i < |items| ==> Proper(items[i])
    case Obj(keys, vals) =>
      && (forall k :: k in keys <==> k in vals)
      && (forall k :: k in vals ==> Proper(vals[k]))
  }

  lemma {:induction false} OnlyKeyOrderIsForgotten(a: Json, b: Json)
    requires Proper(a) && Proper(b) && StableValue(a) == StableValue(b)
    ensures SameUpToKeyOrder(a, b)
    decreases a
  {
    match a
    case Leaf(_) =>
    case Arr(items) =>
      forall i | 0 <= i < |items| ensures SameUpToKeyOrder(items[i], b.items[i]) {
        assert StableValue(a).items[i] == StableValue(b).items[i];
        OnlyKeyOrderIsForgotten(items[i], b.items[i]);
      }
    case Obj(keys, vals) =>
      var s, u := SortStrings(keys), SortStrings(b.keys);
      assert |s| == |StableValue(a).fields| == |StableValue(b).fields| == |u|;
      forall i | 0 <= i < |s| ensures s[i] == u[i] { assert StableValue(a).fields[i] == StableValue(b).fields[i]; }
      assert s == u;
      SortPermutes(keys, StrLeq);
      SortPermutes(b.keys, StrLeq);
      forall k ensures k in keys <==> k in b.keys { SortMembers(keys, StrLeq, k); SortMembers(b.keys, StrLeq, k); }
      assert vals.Keys == b.vals.Keys;
      forall k | k in vals ensures SameUpToKeyOrder(vals[k], b.vals[k]) {
        SortMembers(keys, StrLeq, k);
        var i :| 0 <= i < |s| && s[i] == k;
        assert StableValue(a).fields[i] == StableValue(b).fields[i];
        OnlyKeyOrderIsForgotten(vals[k], b.vals[k]);
      }
  }

  // ---------------------------------------------------------------- the guard

  datatype Reason = IdenticalLimit | CallLimit | TurnLimit | Deadline

  datatype Limits = Limits(maxToolCalls: nat, maxIdentical: nat, maxModelTurns: nat, deadlineAt: int)

  datatype Budget = Budget(seen: map<Fingerprint, nat>, toolCalls: nat, modelTurns: nat, exhausted: Option<Reason>)

  function Exhaust(b: Budget, r: Reason): Budget {
    if b.exhausted.None? then b.(exhausted := Some(r)) else b
  }

  function Seen(b: Budget, k: Fingerprint): nat {
    if k in b.seen then b.seen[k] else 0
  }

  function Install(l: Limits, now: int): Budget {
    var b := Budget(map[], 0, 0, None);
    if l.deadlineAt - now <= 0 then Exhaust(b, Deadline) else b
  }

  datatype Hook = ToolCall(policyBlocks: bool, key: Fingerprint, now: int) | ModelTurn(now: int)

  predicate Allowed(b: Budget, h: Hook, l: Limits) {
    && h.ToolCall? && !h.policyBlocks && b.exhausted.None?
    && Seen(b, h.key) < l.maxIdentical && b.toolCalls < l.maxToolCalls && l.deadlineAt - h.now > 0
  }

  function CallStep(b: Budget, h: Hook, l: Limits): Budget
    requires h.ToolCall?
  {
    if h.policyBlocks || b.exhausted.Some? then b
    else if Seen(b, h.key) >= l.maxIdentical then Exhaust(b, IdenticalLimit)
    else if b.toolCalls >= l.maxToolCalls then Exhaust(b, CallLimit)
    else if l.deadlineAt - h.now <= 0 then Exhaust(b, Deadline)
    else
      var counted := b.(seen := b.seen[h.key := Seen(b, h.key) + 1], toolCalls := b.toolCalls + 1);
      if counted.toolCalls >= l.maxToolCalls then Exhaust(counted, CallLimit) else counted
  }

  function TurnStep(b: Budget, now: int, l: Limits): Budget {
    var counted := b.(modelTurns := b.modelTurns + 1);
    var limited := if counted.modelTurns >= l.maxModelTurns then Exhaust(counted, TurnLimit) else counted;
    if limited.exhausted.None? && l.deadlineAt - now <= 0 then Exhaust(limited, Deadline) else limited
  }

  function Step(b: Budget, h: Hook, l: Limits): Budget {
    match h
    case ToolCall(_, _, _) => CallStep(b, h, l)
    case ModelTurn(now) => TurnStep(b, now, l)
  }

  /** The model gets tools in this turn. */
  predicate OffersTools(b: Budget, h: Hook, l: Limits) {
    h.ModelTurn? && TurnStep(b, h.now, l).exhausted.None?
  }

  // ---------------------------------------------------------------- over every sequence of hook calls

  ghost predicate History(hist: seq<Budget>, hooks: seq<Hook>, l: Limits) {
    && |hist| == |hooks| + 1
    && (exists now :: hist[0] == Install(l, now))
    && forall i :: 0 <= i < |hooks| ==> hist[i + 1] == Step(hist[i], hooks[i], l)
  }

  ghost function AllowedCalls(hist: seq<Budget>, hooks: seq<Hook>, l: Limits, n: nat): nat
    requires History(hist, hooks, l) && n <= |hooks|
  {
    if n == 0 then 0 else AllowedCalls(hist, hooks, l, n - 1) + if Allowed(hist[n - 1], hooks[n - 1], l) then 1 else 0
  }

  ghost function AllowedOf(hist: seq<Budget>, hooks: seq<Hook>, l: Limits, n: nat, k: Fingerprint): nat
    requires History(hist, hooks, l) && n <= |hooks|
  {
    if n == 0 then 0
    else AllowedOf(hist, hooks, l, n - 1, k) + if Allowed(hist[n - 1], hooks[n - 1], l) && hooks[n - 1].key == k then 1 else 0
  }

  lemma {:induction false} StepCounts(b: Budget, h: Hook, l: Limits, k: Fingerprint)
    ensures Step(b, h, l).toolCalls == b.toolCalls + if Allowed(b, h, l) then 1 else 0
    ensures Seen(Step(b, h, l), k) == Seen(b, k) + if Allowed(b, h, l) && h.key == k then 1 else 0
    ensures Allowed(b, h, l) ==> b.toolCalls < l.maxToolCalls && Seen(b, h.key) < l.maxIdentical
  {
  }

  /** The guard lets through at most maxToolCalls calls, and maxIdentical per fingerprint. */
  lemma {:induction false} CallsStayWithinBudget(hist: seq<Budget>, hooks: seq<Hook>, l: Limits, n: nat, k: Fingerprint)
    requires History(hist, hooks, l) && n < |hist|
    ensures AllowedCalls(hist, hooks, l, n) == hist[n].toolCalls <= l.maxToolCalls
    ensures AllowedOf(hist, hooks, l, n, k) == Seen(hist[n], k) <= l.maxIdentical
  {
    if n > 0 {
      hide Allowed, Step, Seen;
      CallsStayWithinBudget(hist, hooks, l, n - 1, k);
      StepCounts(hist[n - 1], hooks[n - 1], l, k);
    }
  }

  ghost function Total(seen: map<Fingerprint, nat>): nat {
    if seen == map[] then 0 else var k :| k in seen; seen[k] + Total(seen - {k})
  }

  lemma {:induction false} TotalWithout(seen: map<Fingerprint, nat>, k: Fingerprint)
    requires k in seen
    ensures Total(seen) == seen[k] + Total(seen - {k})
    decreases |seen|
  {
    var j :| j in seen && Total(seen) == seen[j] + Total(seen - {j});
    if j != k {
      TotalWithout(seen - {j}, k);
      TotalWithout(seen - {k}, j);
      assert seen - {j} - {k} == seen - {k} - {j};
    }
  }

  lemma {:induction false} TotalCounted(seen: map<Fingerprint, nat>, k: Fingerprint)
    ensures Total(seen[k := (if k in seen then seen[k] else 0) + 1]) == Total(seen) + 1
  {
    var seen' := seen[k := (if k in seen then seen[k] else 0) + 1];
    TotalWithout(seen', k);
    assert seen' - {k} == seen - {k};
    if k in seen { TotalWithout(seen, k); } else { assert seen - {k} == seen; }
  }

  /** The per-fingerprint counts always add up to the total. */
  lemma {:induction false} CountsAddUp(hist: seq<Budget>, hooks: seq<Hook>, l: Limits, n: nat)
    requires History(hist, hooks, l) && n < |hist|
    ensures Total(hist[n].seen) == hist[n].toolCalls
  {
    hide Total;
    if n > 0 {
      CountsAddUp(hist, hooks, l, n - 1);
      if hooks[n - 1].ToolCall? { TotalCounted(hist[n - 1].seen, hooks[n - 1].key); }
    } else {
      assert Total(map[]) == 0 by { EmptyTotal(); }
    }
  }

  lemma {:induction false} EmptyTotal()
    ensures Total(map[]) == 0
  {
  }

  /** Once exhausted: the first reason stays, no call is let through, no turn offers tools. */
  lemma {:induction false} ExhaustionIsFinal(hist: seq<Budget>, hooks: seq<Hook>, l: Limits, n: nat, m: nat)
    requires History(hist, hooks, l) && n <= m < |hist| && hist[n].exhausted.Some?
    ensures hist[m].exhausted == hist[n].exhausted && hist[m].toolCalls == hist[n].toolCalls && hist[m].seen == hist[n].seen
    ensures m < |hooks| ==> !Allowed(hist[m], hooks[m], l) && !OffersTools(hist[m], hooks[m], l)
    decreases m
  {
    if n < m { ExhaustionIsFinal(hist, hooks, l, n, m - 1); }
  }

  /** The last permitted call and the last permitted turn exhaust the budget at once. */
  lemma {:induction false} LimitsExhaust(hist: seq<Budget>, hooks: seq<Hook>, l: Limits, n: nat)
    requires History(hist, hooks, l) && n < |hist|
    ensures hist[n].toolCalls >= l.maxToolCalls > 0 ==> hist[n].exhausted.Some?
    ensures hist[n].modelTurns >= l.maxModelTurns > 0 ==> hist[n].exhausted.Some?
  {
    if n > 0 {
      LimitsExhaust(hist, hooks, l, n - 1);
      if hist[n - 1].exhausted.Some? { ExhaustionIsFinal(hist, hooks, l, n - 1, n); }
    }
  }

  // ---------------------------------------------------------------- the limits, told from the hooks alone

  /** The calls that policy let pass. */
  function Calls(hooks: seq<Hook>, n: nat): nat
    requires n <= |hooks|
  {
    if n == 0 then 0 else Calls(hooks, n - 1) + if hooks[n - 1].ToolCall? && !hooks[n - 1].policyBlocks then 1 else 0
  }

  function CallsLike(hooks: seq<Hook>, n: nat, k: Fingerprint): nat
    requires n <= |hooks|
  {
    if n == 0 then 0
    else CallsLike(hooks, n - 1, k) + if hooks[n - 1].ToolCall? && !hooks[n - 1].policyBlocks && hooks[n - 1].key == k then 1 else 0
  }

  function Turns(hooks: seq<Hook>, n: nat): nat
    requires n <= |hooks|
  {
    if n == 0 then 0 else Turns(hooks, n - 1) + if hooks[n - 1].ModelTurn? then 1 else 0
  }

  /** The hook counts, and comes at or after the deadline. */
  predicate Late(h: Hook, l: Limits) {
    (h.ModelTurn? || !h.policyBlocks) && h.now >= l.deadlineAt
  }

  /** Installed in time, and none of the first `n` hooks used up or overran a limit. */
  ghost predicate Within(hooks: seq<Hook>, l: Limits, start: int, n: nat)
    requires n <= |hooks|
  {
    && start < l.deadlineAt
    && (Calls(hooks, n) == 0 || Calls(hooks, n) < l.maxToolCalls)
    && (Turns(hooks, n) == 0 || Turns(hooks, n) < l.maxModelTurns)
    && (forall k :: CallsLike(hooks, n, k) <= l.maxIdentical)
    && (forall i :: 0 <= i < n ==> !Late(hooks[i], l))
  }

  /** Every model turn is counted, exhausted or not. */
  lemma {:induction false} TurnsAreCounted(hist: seq<Budget>, hooks: seq<Hook>, l: Limits, n: nat)
    requires History(hist, hooks, l) && n < |hist|
    ensures hist[n].modelTurns == Turns(hooks, n)
  {
    if n > 0 { TurnsAreCounted(hist, hooks, l, n - 1); }
  }

  lemma {:induction false} WithinShrinks(hooks: seq<Hook>, l: Limits, start: int, n: nat)
    requires 0 < n <= |hooks| && Within(hooks, l, start, n)
    ensures Within(hooks, l, start, n - 1)
  {
    var m := n - 1;
    forall k ensures CallsLike(hooks, m, k) <= CallsLike(hooks, n, k) { }
  }

  lemma {:induction false} WithinStep(hooks: seq<Hook>, l: Limits, start: int, n: nat)
    requires n < |hooks| && Within(hooks, l, start, n)
    ensures var h := hooks[n];
            Within(hooks, l, start, n + 1) <==>
              && !Late(h, l)
              && (h.ModelTurn? ==> Turns(hooks, n + 1) < l.maxModelTurns)
              && (h.ToolCall? && !h.policyBlocks ==> Calls(hooks, n + 1) < l.maxToolCalls && CallsLike(hooks, n, h.key) < l.maxIdentical)
  {
    var h, m := hooks[n], n + 1;
    if Within(hooks, l, start, m) {
      if h.ToolCall? { assert CallsLike(hooks, m, h.key) <= l.maxIdentical; }
    } else {
      forall k ensures CallsLike(hooks, m, k) == CallsLike(hooks, n, k) + (if h.ToolCall? && !h.policyBlocks && h.key == k then 1 else 0) { }
    }
  }

  /** While the budget is open, every call that policy let pass was let through and counted. */
  ghost predicate Counted(b: Budget, hooks: seq<Hook>, n: nat)
    requires n <= |hooks|
  {
    && b.toolCalls == Calls(hooks, n) && b.modelTurns == Turns(hooks, n)
    && forall k :: Seen(b, k) == CallsLike(hooks, n, k)
  }

  lemma {:induction false} OpenIff(hist: seq<Budget>, hooks: seq<Hook>, l: Limits, start: int, n: nat)
    requires History(hist, hooks, l) && hist[0] == Install(l, start) && n < |hist|
    ensures hist[n].exhausted.None? <==> Within(hooks, l, start, n)
    ensures hist[n].exhausted.None? ==> Counted(hist[n], hooks, n)
  {
    TurnsAreCounted(hist, hooks, l, n);
    if n > 0 {
      OpenIff(hist, hooks, l, start, n - 1);
      if hist[n - 1].exhausted.None? {
        TurnsAreCounted(hist, hooks, l, n - 1);
        WithinStep(hooks, l, start, n - 1);
        hide Within;
        CountedStep(hist[n - 1], hooks, l, n - 1);
      } else {
        ExhaustionIsFinal(hist, hooks, l, n - 1, n);
        if Within(hooks, l, start, n) { WithinShrinks(hooks, l, start, n); }
      }
    }
  }

  lemma {:induction false} CountedStep(b: Budget, hooks: seq<Hook>, l: Limits, n: nat)
    requires n < |hooks| && b.exhausted.None? && Counted(b, hooks, n)
    ensures var h, b' := hooks[n], Step(b, hooks[n], l);
            && (b'.exhausted.None? <==>
                  && !Late(h, l)
                  && (h.ModelTurn? ==> Turns(hooks, n + 1) < l.maxModelTurns)
                  && (h.ToolCall? && !h.policyBlocks ==> Calls(hooks, n + 1) < l.maxToolCalls && CallsLike(hooks, n, h.key) < l.maxIdentical))
            && (b'.exhausted.None? ==> Counted(b', hooks, n + 1))
  {
    var h := hooks[n];
    if Step(b, h, l).exhausted.None? {
      forall k ensures Seen(Step(b, h, l), k) == CallsLike(hooks, n + 1, k) { StepCounts(b, h, l, k); }
    }
  }

  /**
   * A call is let through exactly when policy does not block it, nothing was used up before it, and
   * it is itself within the call limit, the repetition limit and the deadline.
   */
  lemma {:induction false} AllowedIff(hist: seq<Budget>, hooks: seq<Hook>, l: Limits, start: int, n: nat)
    requires History(hist, hooks, l) && hist[0] == Install(l, start) && n < |hooks| && hooks[n].ToolCall?
    ensures Allowed(hist[n], hooks[n], l) <==>
              && !hooks[n].policyBlocks && Within(hooks, l, start, n) && hooks[n].now < l.deadlineAt
              && Calls(hooks, n + 1) <= l.maxToolCalls && CallsLike(hooks, n + 1, hooks[n].key) <= l.maxIdentical
  {
    OpenIff(hist, hooks, l, start, n);
    hide Within;
  }

  /** A model turn gets tools exactly when nothing is used up, this turn included. */
  lemma {:induction false} OffersToolsIff(hist: seq<Budget>, hooks: seq<Hook>, l: Limits, start: int, n: nat)
    requires History(hist, hooks, l) && hist[0] == Install(l, start) && n < |hooks| && hooks[n].ModelTurn?
    ensures OffersTools(hist[n], hooks[n], l) <==> Within(hooks, l, start, n + 1)
  {
    OpenIff(hist, hooks, l, start, n + 1);
    hide Within;
  }

  /** The reason kept for good names the limit that the first hook over the line hit. */
  lemma {:induction false} ReasonIsTheFirstLimit(hist: seq<Budget>, hooks: seq<Hook>, l: Limits, start: int, n: nat, m: nat)
    requires History(hist, hooks, l) && hist[0] == Install(l, start) && n < m < |hist|
    requires Within(hooks, l, start, n) && !Within(hooks, l, start, n + 1)
    ensures var h := hooks[n];
            hist[m].exhausted == Some(
              if h.ModelTurn? then if Turns(hooks, n + 1) >= l.maxModelTurns then TurnLimit else Deadline
              else if CallsLike(hooks, n + 1, h.key) > l.maxIdentical then IdenticalLimit
              else if Calls(hooks, n + 1) > l.maxToolCalls then CallLimit
              else if h.now >= l.deadlineAt then Deadline
              else CallLimit)
  {
    OpenIff(hist, hooks, l, start, n);
    OpenIff(hist, hooks, l, start, n + 1);
    hide Within;
    ExhaustionIsFinal(hist, hooks, l, n + 1, m);
  }

  /** Installed at or after the deadline, the budget is exhausted by it from the start. */
  lemma {:induction false} LateInstall(hist: seq<Budget>, hooks: seq<Hook>, l: Limits, start: int, n: nat)
    requires History(hist, hooks, l) && hist[0] == Install(l, start) && n < |hist|
    ensures hist[n].exhausted == Some(Deadline) <== start >= l.deadlineAt
  {
    if start >= l.deadlineAt { ExhaustionIsFinal(hist, hooks, l, 0, n); }
  }

  /** Two calls count as the same exactly when tool and arguments agree up to key order; absent arguments are `{}`. */
  lemma {:induction false} SameFingerprintIff(t: string, a: Option<Json>, u: string, b: Option<Json>)
    requires (a.Some? ==> Proper(a.value)) && (b.Some? ==> Proper(b.value))
    ensures var none := Obj([], map[]);
            FingerprintOf(t, a) == FingerprintOf(u, b) <==>
              t == u && SameUpToKeyOrder(if a.Some? then a.value else none, if b.Some? then b.value else none)
  {
    var none := Obj([], map[]);
    var v, w := if a.Some? then a.value else none, if b.Some? then b.value else none;
    assert Proper(none);
    hide StableValue, SameUpToKeyOrder, Proper;
    if SameUpToKeyOrder(v, w) { KeyOrderIsIrrelevant(v, w); }
    if StableValue(v) == StableValue(w) { OnlyKeyOrderIsForgotten(v, w); }
  }

  function Final(b: Budget, hooks: seq<Hook>, l: Limits): Budget {
    if hooks == [] then b else Step(Final(b, hooks[..|hooks| - 1], l), hooks[|hooks| - 1], l)
  }

  /** The hook calls that policy let pass. */
  function Unblocked(hooks: seq<Hook>): seq<Hook> {
    if hooks == [] then []
    else
      var n := |hooks| - 1;
      Unblocked(hooks[..n]) + if hooks[n].ToolCall? && hooks[n].policyBlocks then [] else [hooks[n]]
  }

  /** Policy-blocked calls consume nothing: leaving them all out gives the same budget. */
  lemma {:induction false} PolicyBlocksAreFree(b: Budget, hooks: seq<Hook>, l: Limits)
    ensures Final(b, hooks, l) == Final(b, Unblocked(hooks), l)
  {
    if hooks != [] {
      var n := |hooks| - 1;
      PolicyBlocksAreFree(b, hooks[..n], l);
      var front, rest := Unblocked(hooks[..n]), Unblocked(hooks);
      if hooks[n].ToolCall? && hooks[n].policyBlocks {
        assert rest == front;
      } else {
        assert rest == front + [hooks[n]] && rest[..|front|] == front;
      }
    }
  }

  // ---------------------------------------------------------------- the installed hooks

  class Guard {
    const limits: Limits
    var seen: map<Fingerprint, nat>
    var toolCalls: nat
    var modelTurns: nat
    var exhaustedReason: Option<Reason>

    ghost function View(): Budget
      reads this
    {
      Budget(seen, toolCalls, modelTurns, exhaustedReason)
    }

    constructor (limits: Limits, now: int)
      ensures View() == Install(limits, now) && this.limits == limits
    {
      this.limits := limits;
      seen, toolCalls, modelTurns, exhaustedReason := map[], 0, 0, None;
      new;
      if limits.deadlineAt - now <= 0 { NoteExhausted(Deadline); }
    }

    method NoteExhausted(reason: Reason)
      modifies this`exhaustedReason
      ensures View() == Exhaust(old(View()), reason)
    {
      if exhaustedReason.None? { exhaustedReason := Some(reason); }
    }

    /** Runs after the policy hook; `policyBlocks` is that hook's verdict. */
    method BeforeToolCall(policyBlocks: bool, tool: string, args: Option<Json>, now: int) returns (allowed: bool)
      modifies this
      ensures var h := ToolCall(policyBlocks, FingerprintOf(tool, args), now);
              View() == Step(old(View()), h, limits) && allowed == Allowed(old(View()), h, limits)
    {
      if policyBlocks || exhaustedReason.Some? { return false; }
      var key := FingerprintOf(tool, args);
      var identical := if key in seen then seen[key] else 0;
      if identical >= limits.maxIdentical {
        NoteExhausted(IdenticalLimit);
        return false;
      }
      if toolCalls >= limits.maxToolCalls {
        NoteExhausted(CallLimit);
        return false;
      }
      if limits.deadlineAt - now <= 0 {
        NoteExhausted(Deadline);
        return false;
      }
      seen := seen[key := identical + 1];
      toolCalls := toolCalls + 1;
      if toolCalls >= limits.maxToolCalls { NoteExhausted(CallLimit); }
      allowed := true;
    }

    method PrepareNextTurn(now: int) returns (offersTools: bool)
      modifies this
      ensures View() == Step(old(View()), ModelTurn(now), limits)
      ensures offersTools == OffersTools(old(View()), ModelTurn(now), limits)
    {
      modelTurns := modelTurns + 1;
      if modelTurns >= limits.maxModelTurns { NoteExhausted(TurnLimit); }
      if exhaustedReason.None? && limits.deadlineAt - now <= 0 { NoteExhausted(Deadline); }
      offersTools := exhaustedReason.None?;
    }
  }
}
