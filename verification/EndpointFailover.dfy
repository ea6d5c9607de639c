/** Sticky endpoint selection with a blacklist, and sequential acquires over it. */
module EndpointFailover {
  import opened Statuses

  /** `blocked[i]` is the time until which endpoint i is blacklisted. */
  datatype Selector = Selector(primary: nat, blocked: seq<int>)

  ghost predicate Distinct(order: seq<nat>) {
    forall k, l :: 0 <= k < l < |order| ==> order[k] != order[l]
  }

  predicate Fits(order: seq<nat>, n: nat) {
    forall k :: 0 <= k < |order| ==> order[k] < n
  }

  predicate Valid(s: Selector) {
    s.primary < |s.blocked|
  }

  predicate Blacklisted(s: Selector, i: nat, now: int)
    requires i < |s.blocked|
  {
    s.blocked[i] > now
  }

  // ---------------------------------------------------------------- the plan

  /** Primary first, then the others by index, up to index n. */
  function Sticky(primary: nat, n: nat): seq<nat> {
    if n == 0 then [primary]
    else Sticky(primary, n - 1) + if n - 1 == primary then [] else [n - 1]
  }

  function Unblocked(s: Selector, order: seq<nat>, now: int): seq<nat>
    requires Fits(order, |s.blocked|)
  {
    if order == [] then []
    else
      var n := |order| - 1;
      Unblocked(s, order[..n], now) + if Blacklisted(s, order[n], now) then [] else [order[n]]
  }

  lemma {:induction false} StickyFacts(primary: nat, n: nat, i: nat)
    ensures Sticky(primary, n) != [] && Sticky(primary, n)[0] == primary
    ensures i in Sticky(primary, n) <==> i == primary || i < n
    ensures Distinct(Sticky(primary, n))
  {
    if n > 0 {
      StickyFacts(primary, n - 1, i);
      StickyFacts(primary, n - 1, n - 1);
      if n - 1 != primary { assert n - 1 !in Sticky(primary, n - 1); }
    }
  }

  lemma {:induction false} StickyInRange(s: Selector)
    requires Valid(s)
    ensures Fits(Sticky(s.primary, |s.blocked|), |s.blocked|)
  {
    forall k | 0 <= k < |Sticky(s.primary, |s.blocked|)| ensures Sticky(s.primary, |s.blocked|)[k] < |s.blocked| {
      StickyFacts(s.primary, |s.blocked|, Sticky(s.primary, |s.blocked|)[k]);
    }
  }

  lemma {:induction false} UnblockedFacts(s: Selector, order: seq<nat>, now: int, i: nat)
    requires Fits(order, |s.blocked|)
    requires Distinct(order)
    ensures i in Unblocked(s, order, now) <==> i in order && i < |s.blocked| && !Blacklisted(s, i, now)
    ensures Distinct(Unblocked(s, order, now))
    ensures order != [] && !Blacklisted(s, order[0], now) ==> Unblocked(s, order, now) != [] && Unblocked(s, order, now)[0] == order[0]
  {
    if order != [] {
      var n := |order| - 1;
      var front := Unblocked(s, order[..n], now);
      assert order == order[..n] + [order[n]];
      UnblockedFacts(s, order[..n], now, i);
      UnblockedFacts(s, order[..n], now, order[n]);
      assert order[n] !in order[..n];
      assert order[n] !in front;
      if n > 0 { assert order[..n][0] == order[0]; }
    }
  }

  /** Whatever is not the primary comes in index order. */
  ghost predicate InTurn(primary: nat, order: seq<nat>) {
    forall k, l :: 0 <= k < l < |order| ==> order[k] == primary || order[k] < order[l]
  }

  lemma {:induction false} StickyInTurn(primary: nat, n: nat)
    ensures InTurn(primary, Sticky(primary, n))
  {
    if n > 0 {
      StickyInTurn(primary, n - 1);
      var front := Sticky(primary, n - 1);
      forall k | 0 <= k < |front| ensures front[k] == primary || front[k] < n - 1 { StickyFacts(primary, n - 1, front[k]); }
    }
  }

  lemma {:induction false} UnblockedInTurn(s: Selector, order: seq<nat>, now: int, primary: nat)
    requires Fits(order, |s.blocked|) && Distinct(order) && InTurn(primary, order)
    ensures InTurn(primary, Unblocked(s, order, now))
  {
    if order != [] {
      var n := |order| - 1;
      var front := Unblocked(s, order[..n], now);
      UnblockedInTurn(s, order[..n], now, primary);
      forall k | 0 <= k < |front| ensures front[k] == primary || front[k] < order[n] {
        UnblockedFacts(s, order[..n], now, front[k]);
        var i :| 0 <= i < n && order[i] == front[k];
      }
    }
  }

  datatype Plan = Planned(order: seq<nat>, probe: bool)

  function PlanOf(s: Selector, now: int): Plan
    requires Valid(s)
  {
    StickyInRange(s);
    var sticky := Sticky(s.primary, |s.blocked|);
    var available := Unblocked(s, sticky, now);
    if available != [] then Planned(available, false) else Planned(sticky, true)
  }

  /** What a plan promises. */
  ghost predicate GoodPlan(s: Selector, now: int, p: Plan)
    requires Valid(s)
  {
    && p.order != []
    && Fits(p.order, |s.blocked|)
    && Distinct(p.order)
    && (p.probe <==> forall i :: 0 <= i < |s.blocked| ==> Blacklisted(s, i, now))
    && (forall i :: 0 <= i < |s.blocked| ==> (i in p.order <==> p.probe || !Blacklisted(s, i, now)))
    && (p.probe || !Blacklisted(s, s.primary, now) ==> p.order[0] == s.primary)
    && InTurn(s.primary, p.order)
  }

  /** Unblocked endpoints once each, an unblocked primary first; all of them when all are blocked. */
  lemma {:induction false} PlanIsGood(s: Selector, now: int)
    requires Valid(s)
    ensures GoodPlan(s, now, PlanOf(s, now))
  {
    hide Sticky, Unblocked, Distinct, InTurn;
    StickyInRange(s);
    var sticky := Sticky(s.primary, |s.blocked|);
    var available := Unblocked(s, sticky, now);
    StickyFacts(s.primary, |s.blocked|, 0);
    StickyInTurn(s.primary, |s.blocked|);
    UnblockedInTurn(s, sticky, now, s.primary);
    UnblockedFacts(s, sticky, now, 0);
    forall i | 0 <= i < |s.blocked|
      ensures i in sticky && (i in available <==> !Blacklisted(s, i, now))
    {
      StickyFacts(s.primary, |s.blocked|, i);
      UnblockedFacts(s, sticky, now, i);
    }
    forall i | i in available ensures i < |s.blocked| && !Blacklisted(s, i, now) { UnblockedFacts(s, sticky, now, i); }
    assert forall k :: 0 <= k < |available| ==> available[k] in available;
    assert available != [] ==> available[0] in available;
    assert available == [] ==> forall i :: 0 <= i < |s.blocked| ==> Blacklisted(s, i, now);
  }

  /** The promise leaves no choice: there is one good plan. */
  lemma {:induction false} GoodPlanIsUnique(s: Selector, now: int, p: Plan, q: Plan)
    requires Valid(s) && GoodPlan(s, now, p) && GoodPlan(s, now, q)
    ensures p == q
  {
    forall i ensures i in p.order <==> i in q.order { SameMembers(s, now, p, q, i); }
    hide InTurn, Distinct;
    if p.probe || !Blacklisted(s, s.primary, now) {
      LedIsAscending(s.primary, p.order);
      LedIsAscending(s.primary, q.order);
      forall i ensures i in p.order[1..] <==> i in q.order[1..] { TailMember(p.order, i); TailMember(q.order, i); }
      AscendingIsUnique(p.order[1..], q.order[1..]);
      assert p.order == [s.primary] + p.order[1..] && q.order == [s.primary] + q.order[1..];
    } else {
      UnledIsAscending(s.primary, p.order);
      UnledIsAscending(s.primary, q.order);
      AscendingIsUnique(p.order, q.order);
    }
  }

  lemma {:induction false} LedIsAscending(primary: nat, order: seq<nat>)
    requires order != [] && order[0] == primary && Distinct(order) && InTurn(primary, order)
    ensures Ascending(order[1..])
  {
  }

  lemma {:induction false} UnledIsAscending(primary: nat, order: seq<nat>)
    requires primary !in order && InTurn(primary, order)
    ensures Ascending(order)
  {
  }

  lemma {:induction false} TailMember(order: seq<nat>, i: nat)
    requires order != [] && Distinct(order)
    ensures i in order[1..] <==> i in order && i != order[0]
  {
  }

  ghost predicate Ascending(order: seq<nat>) {
    forall k, l :: 0 <= k < l < |order| ==> order[k] < order[l]
  }

  lemma {:induction false} SameMembers(s: Selector, now: int, p: Plan, q: Plan, i: nat)
    requires Valid(s) && GoodPlan(s, now, p) && GoodPlan(s, now, q)
    ensures p.probe == q.probe && (i in p.order <==> i in q.order)
  {
  }

  lemma {:induction false} AscendingIsUnique(a: seq<nat>, b: seq<nat>)
    requires Ascending(a) && Ascending(b) && forall i :: i in a <==> i in b
    ensures a == b
  {
    assert forall k :: 0 <= k < |a| ==> a[k] in a;
    assert forall k :: 0 <= k < |b| ==> b[k] in b;
    if a == [] {
    } else {
      assert a[0] in b && b[0] in a;
      assert a == [a[0]] + a[1..] && b == [b[0]] + b[1..];
      assert a[0] == b[0];
      forall i ensures i in a[1..] <==> i in b[1..] {
        assert i in a <==> i == a[0] || i in a[1..];
        assert i in b <==> i == b[0] || i in b[1..];
      }
      AscendingIsUnique(a[1..], b[1..]);
    }
  }

  // ---------------------------------------------------------------- one acquire

  datatype Attempt = Success | Fatal | Network | Expired

  /** What the world does at the k-th turn: is the budget already gone, how does the attempt end, when. */
  datatype Turn = Turn(aborted: bool, attempt: Attempt, at: int)

  type Script = nat -> Turn

  datatype Result = Acquired(index: nat) | FatalError(index: nat) | BudgetExhausted | AllFailed

  datatype Acquire = Acquire(after: Selector, result: Result, tried: seq<nat>)

  function Fail(s: Selector, i: nat, until: int): Selector
    requires i < |s.blocked|
  {
    s.(blocked := s.blocked[i := until])
  }

  function Walk(s: Selector, order: seq<nat>, k: nat, script: Script, ms: int): Acquire
    requires k <= |order| && Fits(order, |s.blocked|)
    decreases |order| - k
  {
    var turn := script(k);
    if turn.aborted then Acquire(s, BudgetExhausted, [])
    else if k == |order| then Acquire(s, AllFailed, [])
    else
      var i := order[k];
      match turn.attempt
      case Success => Acquire(Selector(i, s.blocked[i := 0]), Acquired(i), [i])
      case Fatal => Acquire(s, FatalError(i), [i])
      case Expired => Acquire(Fail(s, i, turn.at + ms), BudgetExhausted, [i])
      case Network =>
        var rest := Walk(Fail(s, i, turn.at + ms), order, k + 1, script, ms);
        rest.(tried := [i] + rest.tried)
  }

  lemma {:induction false} WalkTurn(s: Selector, order: seq<nat>, k: nat, script: Script, ms: int)
    requires k <= |order| && Fits(order, |s.blocked|)
    ensures script(k).aborted ==> Walk(s, order, k, script, ms) == Acquire(s, BudgetExhausted, [])
    ensures !script(k).aborted && k == |order| ==> Walk(s, order, k, script, ms) == Acquire(s, AllFailed, [])
    ensures !script(k).aborted && k < |order| ==>
      var i, turn, whole := order[k], script(k), Walk(s, order, k, script, ms);
      && (turn.attempt.Success? ==> whole == Acquire(Selector(i, s.blocked[i := 0]), Acquired(i), [i]))
      && (turn.attempt.Fatal? ==> whole == Acquire(s, FatalError(i), [i]))
      && (turn.attempt.Expired? ==> whole == Acquire(Fail(s, i, turn.at + ms), BudgetExhausted, [i]))
      && (turn.attempt.Network? ==> var rest := Walk(Fail(s, i, turn.at + ms), order, k + 1, script, ms);
                                    whole == rest.(tried := [i] + rest.tried))
  {
  }

  lemma {:induction false} FitsAt(order: seq<nat>, n: nat, k: nat)
    requires Fits(order, n) && k < |order|
    ensures order[k] < n
  {
  }

  /** What a walk over the plan leaves behind. */
  ghost predicate WalkOutcome(s: Selector, order: seq<nat>, k: nat, script: Script, ms: int, r: Acquire)
    requires k <= |order| && Fits(order, |s.blocked|)
  {
    var t := |r.tried|;
    && Valid(r.after) && |r.after.blocked| == |s.blocked|
    && k + t <= |order| && r.tried == order[k..k + t]
    && (r.result.AllFailed? ==> k + t == |order|)
    && (r.result.Acquired? || r.result.FatalError? ==> t > 0 && r.result.index == r.tried[t - 1])
    && r.after.primary == (if r.result.Acquired? then r.result.index else s.primary)
    && (forall i :: 0 <= i < |s.blocked| && i !in r.tried ==> r.after.blocked[i] == s.blocked[i])
    && (forall l :: 0 <= l < t ==>
          r.after.blocked[r.tried[l]] ==
            if l == t - 1 && r.result.Acquired? then 0
            else if l == t - 1 && r.result.FatalError? then s.blocked[r.tried[l]]
            else script(k + l).at + ms)
  }

  lemma {:induction false} WalkFacts(s: Selector, order: seq<nat>, k: nat, script: Script, ms: int)
    requires Valid(s) && k <= |order|
    requires Fits(order, |s.blocked|)
    requires Distinct(order)
    ensures WalkOutcome(s, order, k, script, ms, Walk(s, order, k, script, ms))
    decreases |order| - k
  {
    var turn := script(k);
    if !turn.aborted && k < |order| && turn.attempt.Network? {
      var s1 := Fail(s, order[k], turn.at + ms);
      WalkFacts(s1, order, k + 1, script, ms);
      var rest := Walk(s1, order, k + 1, script, ms);
      assert Walk(s, order, k, script, ms) == rest.(tried := [order[k]] + rest.tried);
      hide Walk;
      NetworkTurn(s, order, k, script, ms, rest);
    }
  }

  /** A network fault in front of a walk. */
  lemma {:induction false} NetworkTurn(s: Selector, order: seq<nat>, k: nat, script: Script, ms: int, rest: Acquire)
    requires Valid(s) && k < |order| && Fits(order, |s.blocked|)
    requires Distinct(order) && WalkOutcome(Fail(s, order[k], script(k).at + ms), order, k + 1, script, ms, rest)
    ensures WalkOutcome(s, order, k, script, ms, rest.(tried := [order[k]] + rest.tried))
  {
    var i, r := order[k], rest.(tried := [order[k]] + rest.tried);
    var t := |r.tried|;
    assert order[k..k + t] == [i] + order[k + 1..k + 1 + |rest.tried|];
    forall l | 0 <= l < |rest.tried| ensures rest.tried[l] == order[k + 1 + l] && rest.tried[l] != i {}
    forall l | 0 <= l < t
      ensures r.after.blocked[r.tried[l]] ==
        if l == t - 1 && r.result.Acquired? then 0
        else if l == t - 1 && r.result.FatalError? then s.blocked[r.tried[l]]
        else script(k + l).at + ms
    {
      if l > 0 { assert r.tried[l] == rest.tried[l - 1] && k + l == k + 1 + (l - 1); }
    }
  }

  function AcquireStep(s: Selector, now: int, script: Script, ms: int): Acquire
    requires Valid(s)
  {
    PlanIsGood(s, now);
    Walk(s, PlanOf(s, now).order, 0, script, ms)
  }

  /** Each planned endpoint is tried at most once, in plan order; the outcome decides what changes. */
  lemma {:induction false} AcquireFacts(s: Selector, now: int, script: Script, ms: int)
    requires Valid(s)
    ensures var r, p := AcquireStep(s, now, script, ms), PlanOf(s, now);
            && Valid(r.after) && |r.after.blocked| == |s.blocked|
            && r.tried <= p.order && Distinct(r.tried)
            && (r.result.AllFailed? ==> r.tried == p.order && forall l :: 0 <= l < |p.order| ==>
                  p.order[l] < |s.blocked| && r.after.blocked[p.order[l]] == script(l).at + ms)
            && (r.result.FatalError? ==> r.result.index < |s.blocked| && r.after.primary == s.primary
                                         && r.after.blocked[r.result.index] == s.blocked[r.result.index])
            && (r.result.Acquired? ==> r.result.index < |s.blocked| && r.after.primary == r.result.index && r.after.blocked[r.result.index] == 0)
            && (!r.result.Acquired? ==> r.after.primary == s.primary)
            && (forall i :: 0 <= i < |s.blocked| && i !in r.tried ==> r.after.blocked[i] == s.blocked[i])
  {
    PlanIsGood(s, now);
    var order := PlanOf(s, now).order;
    WalkFacts(s, order, 0, script, ms);
    var r := AcquireStep(s, now, script, ms);
    assert order[0..|r.tried|] == order[..|r.tried|];
    hide Walk;
  }

  /** Turn `t` is the first that does not simply pass on to the next endpoint. */
  ghost predicate StopsAt(script: Script, t: nat, n: nat) {
    && t <= n
    && (forall l :: 0 <= l < t ==> !script(l).aborted && script(l).attempt.Network?)
    && (script(t).aborted || t == n || !script(t).attempt.Network?)
  }

  lemma {:induction false} WalkEndsAt(s: Selector, order: seq<nat>, k: nat, script: Script, ms: int, t: nat)
    requires k <= t && Fits(order, |s.blocked|) && StopsAt(script, t, |order|)
    ensures var r, turn := Walk(s, order, k, script, ms), script(t);
            && r.result == (if turn.aborted then BudgetExhausted
                            else if t == |order| then AllFailed
                            else if turn.attempt.Success? then Acquired(order[t])
                            else if turn.attempt.Fatal? then FatalError(order[t])
                            else BudgetExhausted)
            && r.tried == order[k..if turn.aborted || t == |order| then t else t + 1]
    decreases t - k
  {
    if k < t { WalkEndsAt(Fail(s, order[k], script(k).at + ms), order, k + 1, script, ms, t); }
  }

  /**
   * The first turn that is out of budget, out of endpoints, or ends its attempt other than by a
   * network fault decides the result: that endpoint is acquired or its error passed on.
   */
  lemma {:induction false} AcquireEndsAt(s: Selector, now: int, script: Script, ms: int, t: nat)
    requires Valid(s) && StopsAt(script, t, |PlanOf(s, now).order|)
    ensures var r, order, turn := AcquireStep(s, now, script, ms), PlanOf(s, now).order, script(t);
            && r.result == (if turn.aborted then BudgetExhausted
                            else if t == |order| then AllFailed
                            else if turn.attempt.Success? then Acquired(order[t])
                            else if turn.attempt.Fatal? then FatalError(order[t])
                            else BudgetExhausted)
            && r.tried == order[..if turn.aborted || t == |order| then t else t + 1]
  {
    PlanIsGood(s, now);
    hide GoodPlan, Walk, StopsAt, PlanOf;
    var order := PlanOf(s, now).order;
    PlanFits(s, now);
    WalkEndsAt(s, order, 0, script, ms, t);
  }

  lemma {:induction false} PlanFits(s: Selector, now: int)
    requires Valid(s)
    ensures Fits(PlanOf(s, now).order, |s.blocked|)
  {
    PlanIsGood(s, now);
  }

  /**
   * An endpoint whose attempt met a network fault, or outlived the budget, sits out every plan until
   * exactly the blacklist time has passed, unless all endpoints do.
   */
  lemma {:induction false} FailedEndpointSitsOut(s: Selector, now: int, script: Script, ms: int, l: nat, later: int)
    requires Valid(s) && l < |AcquireStep(s, now, script, ms).tried|
    requires script(l).attempt.Network? || script(l).attempt.Expired?
    ensures var r := AcquireStep(s, now, script, ms);
            && Valid(r.after) && r.tried[l] < |s.blocked|
            && (r.tried[l] in PlanOf(r.after, later).order <==> PlanOf(r.after, later).probe || script(l).at + ms <= later)
  {
    BlockedAfter(s, now, script, ms, l);
    hide AcquireStep, PlanOf, Distinct, InTurn;
    PlanIsGood(AcquireStep(s, now, script, ms).after, later);
  }

  lemma {:induction false} BlockedAfter(s: Selector, now: int, script: Script, ms: int, l: nat)
    requires Valid(s) && l < |AcquireStep(s, now, script, ms).tried|
    requires script(l).attempt.Network? || script(l).attempt.Expired?
    ensures var r := AcquireStep(s, now, script, ms);
            Valid(r.after) && |r.after.blocked| == |s.blocked| && r.tried[l] < |s.blocked| && r.after.blocked[r.tried[l]] == script(l).at + ms
  {
    PlanIsGood(s, now);
    var order := PlanOf(s, now).order;
    WalkFacts(s, order, 0, script, ms);
    assert AcquireStep(s, now, script, ms).tried[l] == order[l];
    hide Walk, PlanOf, Distinct, InTurn;
    TriedEnds(s, order, 0, script, ms, l);
  }

  /** The last turn of a walk tells how it ended. */
  lemma {:induction false} TriedEnds(s: Selector, order: seq<nat>, k: nat, script: Script, ms: int, l: nat)
    requires k <= |order| && Fits(order, |s.blocked|) && l < |Walk(s, order, k, script, ms).tried|
    ensures var r := Walk(s, order, k, script, ms);
            && (l == |r.tried| - 1 && r.result.Acquired? ==> script(k + l).attempt.Success?)
            && (l == |r.tried| - 1 && r.result.FatalError? ==> script(k + l).attempt.Fatal?)
    decreases |order| - k
  {
    var turn := script(k);
    if !turn.aborted && k < |order| && turn.attempt.Network? && l > 0 {
      TriedEnds(Fail(s, order[k], turn.at + ms), order, k + 1, script, ms, l - 1);
    }
  }

  // ---------------------------------------------------------------- a life of acquires

  datatype Call = Call(now: int, script: Script)

  ghost predicate History(hist: seq<Selector>, calls: seq<Call>, ms: int) {
    && |hist| == |calls| + 1
    && Valid(hist[0]) && hist[0].primary == 0
    && forall i :: 0 <= i < |calls| ==> Valid(hist[i]) && hist[i + 1] == AcquireStep(hist[i], calls[i].now, calls[i].script, ms).after
  }

  /** The endpoint of the latest successful acquire among the first n, or the first endpoint. */
  ghost function LastSuccess(hist: seq<Selector>, calls: seq<Call>, ms: int, n: nat): nat
    requires History(hist, calls, ms) && n <= |calls|
  {
    if n == 0 then 0
    else
      var r := AcquireStep(hist[n - 1], calls[n - 1].now, calls[n - 1].script, ms).result;
      if r.Acquired? then r.index else LastSuccess(hist, calls, ms, n - 1)
  }

  /** The primary is the most recently successful endpoint; no expiry of a blacklist entry moves it back. */
  lemma {:induction false} PrimaryIsTheLastSuccess(hist: seq<Selector>, calls: seq<Call>, ms: int, n: nat)
    requires History(hist, calls, ms) && n < |hist|
    ensures hist[n].primary == LastSuccess(hist, calls, ms, n)
  {
    hide AcquireStep;
    if n > 0 {
      PrimaryIsTheLastSuccess(hist, calls, ms, n - 1);
      AcquireFacts(hist[n - 1], calls[n - 1].now, calls[n - 1].script, ms);
    }
  }

  // ---------------------------------------------------------------- the selector object

  class EndpointSelector {
    var primary: nat
    var blockedUntil: seq<int>
    const blacklistMs: int

    ghost predicate Ready()
      reads this
    {
      Valid(View())
    }

    ghost function View(): Selector
      reads this
    {
      Selector(primary, blockedUntil)
    }

    constructor (size: nat, blacklistMs: int)
      requires size > 0
      ensures Ready() && View() == Selector(0, seq(size, i => 0)) && this.blacklistMs == blacklistMs
    {
      this.primary := 0;
      this.blockedUntil := seq(size, i => 0);
      this.blacklistMs := blacklistMs;
    }

    method Plan(now: int) returns (p: Plan)
      requires Ready()
      ensures p == PlanOf(View(), now)
      ensures GoodPlan(View(), now, p)
    {
      hide GoodPlan, Distinct;
      PlanIsGood(View(), now);
      StickyInRange(View());
      var sticky := [primary];
      var i := 0;
      while i < |blockedUntil|
        invariant 0 <= i <= |blockedUntil| && sticky == Sticky(primary, i)
      {
        if i != primary { sticky := sticky + [i]; }
        i := i + 1;
      }
      ghost var s := View();
      var available: seq<nat> := [];
      var k := 0;
      while k < |sticky|
        invariant 0 <= k <= |sticky| && available == Unblocked(s, sticky[..k], now)
      {
        assert sticky[..k + 1][..k] == sticky[..k];
        if blockedUntil[sticky[k]] <= now { available := available + [sticky[k]]; }
        k := k + 1;
      }
      assert sticky[..k] == sticky;
      p := if available != [] then Planned(available, false) else Planned(sticky, true);
    }

    method ReportSuccess(index: nat)
      requires Ready() && index < |blockedUntil|
      modifies this`primary, this`blockedUntil
      ensures Ready() && View() == Selector(index, old(View()).blocked[index := 0])
    {
      blockedUntil := blockedUntil[index := 0];
      primary := index;
    }

    method ReportFailure(index: nat, now: int)
      requires Ready() && index < |blockedUntil|
      modifies this`blockedUntil
      ensures Ready() && View() == Fail(old(View()), index, now + blacklistMs)
    {
      blockedUntil := blockedUntil[index := now + blacklistMs];
    }

    /** One endpoint's turn: None means a network fault, on to the next. */
    method TryEndpoint(index: nat, turn: Turn) returns (done: Option<Result>)
      requires Ready() && index < |blockedUntil|
      modifies this`primary, this`blockedUntil
      ensures Ready() && |View().blocked| == |old(View()).blocked|
      ensures done == match turn.attempt case Success => Some(Acquired(index)) case Fatal => Some(FatalError(index))
                                         case Expired => Some(BudgetExhausted) case Network => None
      ensures View() == match turn.attempt
                        case Success => Selector(index, old(View()).blocked[index := 0])
                        case Fatal => old(View())
                        case _ => Fail(old(View()), index, turn.at + blacklistMs)
    {
      match turn.attempt {
        case Expired =>
          ReportFailure(index, turn.at);
          done := Some(BudgetExhausted);
        case Success =>
          ReportSuccess(index);
          done := Some(Acquired(index));
        case Fatal => done := Some(FatalError(index));
        case Network =>
          ReportFailure(index, turn.at);
          done := None;
      }
    }

    /** acquireWithFailover: network faults move on, success sticks, fatal errors change nothing. */
    method AcquireWithFailover(now: int, script: Script) returns (result: Result, tried: seq<nat>)
      requires Ready()
      modifies this`primary, this`blockedUntil
      ensures Ready()
      ensures Acquire(View(), result, tried) == AcquireStep(old(View()), now, script, blacklistMs)
    {
      var plan := Plan(now);
      ghost var whole := AcquireStep(View(), now, script, blacklistMs);
      hide GoodPlan, PlanOf, Distinct, Walk, Fail, Fits, Blacklisted;
      tried := [];
      var k := 0;
      assert Glued(whole, tried, whole);
      while k < |plan.order|
        invariant 0 <= k <= |plan.order| && Ready() && Fits(plan.order, |View().blocked|)
        invariant Glued(whole, tried, Walk(View(), plan.order, k, script, blacklistMs))
      {
        hide Glued, AcquireStep;
        ghost var before := View();
        WalkTurn(before, plan.order, k, script, blacklistMs);
        FitsAt(plan.order, |before.blocked|, k);
        if script(k).aborted {
          GluedEnd(whole, tried, before, BudgetExhausted, []);
          return BudgetExhausted, tried;
        }
        var done := TryEndpoint(plan.order[k], script(k));
        if done.Some? {
          GluedEnd(whole, tried, View(), done.value, [plan.order[k]]);
          return done.value, tried + [plan.order[k]];
        }
        GluedStep(whole, tried, plan.order[k], Walk(View(), plan.order, k + 1, script, blacklistMs));
        tried := tried + [plan.order[k]];
        k := k + 1;
      }
      WalkTurn(View(), plan.order, k, script, blacklistMs);
      result := if script(k).aborted then BudgetExhausted else AllFailed;
      GluedEnd(whole, tried, View(), result, []);
    }
  }

  /** The endpoints already tried, followed by the rest of the walk, make up the whole. */
  ghost predicate Glued(whole: Acquire, tried: seq<nat>, rest: Acquire) {
    whole == Acquire(rest.after, rest.result, tried + rest.tried)
  }

  lemma {:induction false} GluedStep(whole: Acquire, tried: seq<nat>, i: nat, rest: Acquire)
    requires Glued(whole, tried, rest.(tried := [i] + rest.tried))
    ensures Glued(whole, tried + [i], rest)
  {
    assert tried + ([i] + rest.tried) == (tried + [i]) + rest.tried;
  }

  lemma {:induction false} GluedEnd(whole: Acquire, tried: seq<nat>, s: Selector, r: Result, last: seq<nat>)
    requires Glued(whole, tried, Acquire(s, r, last))
    ensures whole == Acquire(s, r, tried + last) && tried + [] == tried
  {
  }
}
