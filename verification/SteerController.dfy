/** The worker-side consumer of durable steer requests: paged, incremental, rebuilt after a crash. */
module SteerController {

  type SteerId = nat

  datatype Event = Requested(id: SteerId, message: nat) | Delivered(id: SteerId) | Other

  datatype Request = Request(id: SteerId, message: nat)

  const PAGE_SIZE: nat := 500

  // ---------------------------------------------------------------- one event at a time

  function Keep(s: seq<Request>, drop: set<SteerId>): seq<Request> {
    if s == [] then []
    else
      var n := |s| - 1;
      Keep(s[..n], drop) + if s[n].id in drop then [] else [s[n]]
  }

  /** Map.set: an existing key keeps its place. */
  function Put(s: seq<Request>, r: Request): seq<Request> {
    if s == [] then [r]
    else if s[0].id == r.id then [r] + s[1..]
    else [s[0]] + Put(s[1..], r)
  }

  function After(s: seq<Request>, e: Event): seq<Request> {
    match e
    case Requested(id, m) => Put(s, Request(id, m))
    case Delivered(id) => Keep(s, {id})
    case Other => s
  }

  /** Reading the whole log in one go. */
  function Fold(log: seq<Event>): seq<Request> {
    if log == [] then [] else After(Fold(log[..|log| - 1]), log[|log| - 1])
  }

  // ---------------------------------------------------------------- what should be pending

  function Requests(log: seq<Event>): seq<Request> {
    if log == [] then []
    else
      var n := |log| - 1;
      Requests(log[..n]) + if log[n].Requested? then [Request(log[n].id, log[n].message)] else []
  }

  function DeliveredIds(log: seq<Event>): set<SteerId> {
    set i | 0 <= i < |log| && log[i].Delivered? :: log[i].id
  }

  /** The accepted requests without a delivered event, in the order they were accepted. */
  function Outstanding(log: seq<Event>): seq<Request> {
    Keep(Requests(log), DeliveredIds(log))
  }

  /** A steer id is its request event's own id, and is delivered only after it was requested. */
  ghost predicate WellFormed(log: seq<Event>) {
    && (forall i, j :: 0 <= i < j < |log| && log[i].Requested? && log[j].Requested? ==> log[i].id != log[j].id)
    && (forall j :: 0 <= j < |log| && log[j].Delivered? ==> exists i :: 0 <= i < j && log[i].Requested? && log[i].id == log[j].id)
  }

  lemma {:induction false} KeepMembers(s: seq<Request>, drop: set<SteerId>, r: Request)
    ensures r in Keep(s, drop) <==> r in s && r.id !in drop
  {
    if s != [] {
      KeepMembers(s[..|s| - 1], drop, r);
      assert s == s[..|s| - 1] + [s[|s| - 1]];
    }
  }

  lemma {:induction false} KeepAppend(s: seq<Request>, r: Request, drop: set<SteerId>)
    ensures Keep(s + [r], drop) == Keep(s, drop) + if r.id in drop then [] else [r]
  {
    assert (s + [r])[..|s|] == s;
  }

  lemma {:induction false} KeepTwice(s: seq<Request>, a: set<SteerId>, b: set<SteerId>)
    ensures Keep(Keep(s, a), b) == Keep(s, a + b)
  {
    if s != [] {
      var n := |s| - 1;
      KeepTwice(s[..n], a, b);
      if s[n].id in a {
        assert Keep(s, a) == Keep(s[..n], a);
      } else {
        assert Keep(s, a) == Keep(s[..n], a) + [s[n]];
        KeepAppend(Keep(s[..n], a), s[n], b);
      }
    }
  }

  lemma {:induction false} KeepAll(s: seq<Request>, drop: set<SteerId>)
    requires forall r :: r in s ==> r.id !in drop
    ensures Keep(s, drop) == s
  {
    if s != [] {
      var n := |s| - 1;
      assert s == s[..n] + [s[n]];
      forall r | r in s[..n] ensures r.id !in drop { assert r in s; }
      KeepAll(s[..n], drop);
      assert s[n] in s;
    }
  }

  lemma {:induction false} PutFresh(s: seq<Request>, r: Request)
    requires forall x :: x in s ==> x.id != r.id
    ensures Put(s, r) == s + [r]
  {
    if s != [] {
      assert s[0] in s;
      PutFresh(s[1..], r);
    }
  }

  /** A request for a known id takes its place on the list. */
  lemma {:induction false} PutReplaces(s: seq<Request>, r: Request, i: nat)
    requires i < |s| && s[i].id == r.id && forall k :: 0 <= k < i ==> s[k].id != r.id
    ensures Put(s, r) == s[i := r]
  {
    if i > 0 {
      PutReplaces(s[1..], r, i - 1);
      assert s[i := r] == [s[0]] + s[1..][i - 1 := r];
    }
  }

  lemma {:induction false} RequestsMembers(log: seq<Event>, r: Request)
    ensures r in Requests(log) <==> exists i :: 0 <= i < |log| && log[i] == Requested(r.id, r.message)
  {
    if log != [] {
      var n := |log| - 1;
      RequestsMembers(log[..n], r);
      assert log == log[..n] + [log[n]];
    }
  }

  lemma {:induction false} WellFormedPrefix(log: seq<Event>, n: nat)
    requires WellFormed(log) && n <= |log|
    ensures WellFormed(log[..n])
  {
    forall j | 0 <= j < n && log[j].Delivered?
      ensures exists i :: 0 <= i < j && log[..n][i].Requested? && log[..n][i].id == log[..n][j].id
    {
      var i :| 0 <= i < j && log[i].Requested? && log[i].id == log[j].id;
      assert log[..n][i].Requested?;
    }
  }

  lemma {:induction false} FreshRequest(log: seq<Event>, n: nat)
    requires WellFormed(log) && n < |log| && log[n].Requested?
    ensures forall r :: r in Requests(log[..n]) ==> r.id != log[n].id
    ensures log[n].id !in DeliveredIds(log[..n])
  {
    forall r | r in Requests(log[..n]) ensures r.id != log[n].id {
      RequestsMembers(log[..n], r);
      var i :| 0 <= i < n && log[..n][i] == Requested(r.id, r.message);
      assert log[i].Requested?;
    }
  }

  /** On a well-formed log the event-by-event state is exactly what is outstanding. */
  lemma {:induction false} FoldIsOutstanding(log: seq<Event>)
    requires WellFormed(log)
    ensures Fold(log) == Outstanding(log)
  {
    if log != [] {
      var n := |log| - 1;
      var e := log[n];
      WellFormedPrefix(log, n);
      FoldIsOutstanding(log[..n]);
      var reqs, ids := Requests(log[..n]), DeliveredIds(log[..n]);
      assert DeliveredIds(log) == ids + if e.Delivered? then {e.id} else {} by { assert log == log[..n] + [e]; }
      match e
      case Requested(id, m) =>
        var r := Request(id, m);
        assert DeliveredIds(log) == ids && Requests(log) == reqs + [r];
        FreshRequest(log, n);
        KeepAppend(reqs, r, ids);
        forall x | x in Keep(reqs, ids) ensures x.id != id { KeepMembers(reqs, ids, x); }
        PutFresh(Keep(reqs, ids), r);
      case Delivered(id) =>
        assert Requests(log) == reqs;
        KeepTwice(reqs, ids, {id});
      case Other =>
        assert DeliveredIds(log) == ids && Requests(log) == reqs;
    }
  }

  // ---------------------------------------------------------------- the incremental state

  /** Ids already taken off the pending list whose delivered event is still to be read. */
  ghost predicate Ahead(log: seq<Event>, cursor: nat, gone: set<SteerId>)
    requires cursor <= |log|
  {
    forall id :: id in gone ==>
      && (exists j :: cursor <= j < |log| && log[j] == Delivered(id))
      && (exists i :: 0 <= i < cursor && log[i].Requested? && log[i].id == id)
  }

  /** Reading one more event keeps the list in step with the one-shot fold. */
  lemma {:induction false} ReadOne(log: seq<Event>, c: nat, gone: set<SteerId>)
    requires WellFormed(log) && c < |log| && Ahead(log, c, gone)
    ensures var gone' := if log[c].Delivered? then gone - {log[c].id} else gone;
            Ahead(log, c + 1, gone') && After(Keep(Fold(log[..c]), gone), log[c]) == Keep(Fold(log[..c + 1]), gone')
  {
    var e, s := log[c], Fold(log[..c]);
    var gone' := if e.Delivered? then gone - {e.id} else gone;
    assert log[..c + 1][..c] == log[..c];
    forall id | id in gone'
      ensures exists j :: c + 1 <= j < |log| && log[j] == Delivered(id)
      ensures exists i :: 0 <= i < c + 1 && log[i].Requested? && log[i].id == id
    {
      var j :| c <= j < |log| && log[j] == Delivered(id);
      assert j != c;
      var i :| 0 <= i < c && log[i].Requested? && log[i].id == id;
    }
    match e
    case Requested(id, m) =>
      WellFormedPrefix(log, c);
      FoldIsOutstanding(log[..c]);
      FreshRequest(log, c);
      forall x | x in s ensures x.id != id { KeepMembers(Requests(log[..c]), DeliveredIds(log[..c]), x); }
      forall x | x in Keep(s, gone) ensures x.id != id { KeepMembers(s, gone, x); }
      PutFresh(s, Request(id, m));
      PutFresh(Keep(s, gone), Request(id, m));
      KeepAppend(s, Request(id, m), gone);
    case Delivered(id) =>
      KeepTwice(s, gone, {id});
      KeepTwice(s, {id}, gone - {id});
      assert gone + {id} == {id} + (gone - {id});
    case Other =>
  }

  lemma {:induction false} AheadGrows(log: seq<Event>, more: seq<Event>, cursor: nat, gone: set<SteerId>)
    requires cursor <= |log| && Ahead(log, cursor, gone)
    ensures Ahead(log + more, cursor, gone)
  {
    var log' := log + more;
    forall id | id in gone
      ensures exists j :: cursor <= j < |log'| && log'[j] == Delivered(id)
      ensures exists i :: 0 <= i < cursor && log'[i].Requested? && log'[i].id == id
    {
      var j :| cursor <= j < |log| && log[j] == Delivered(id);
      assert log'[j] == Delivered(id);
      var i :| 0 <= i < cursor && log[i].Requested? && log[i].id == id;
      assert log'[i].Requested?;
    }
  }

  /** The list agrees with what has been read so far, less what was taken off it since. */
  ghost predicate InStep(log: seq<Event>, cursor: nat, pending: seq<Request>, gone: set<SteerId>) {
    && WellFormed(log) && cursor <= |log| && Ahead(log, cursor, gone)
    && pending == Keep(Fold(log[..cursor]), gone)
  }

  function GoneAfter(gone: set<SteerId>, e: Event): set<SteerId> {
    if e.Delivered? then gone - {e.id} else gone
  }

  lemma {:induction false} ReadKeepsStep(log: seq<Event>, cursor: nat, pending: seq<Request>, gone: set<SteerId>)
    requires InStep(log, cursor, pending, gone) && cursor < |log|
    ensures InStep(log, cursor + 1, After(pending, log[cursor]), GoneAfter(gone, log[cursor]))
  {
    hide WellFormed, Ahead, Keep, Fold, After;
    ReadOne(log, cursor, gone);
  }

  lemma {:induction false} ArrivalKeepsStep(log: seq<Event>, more: seq<Event>, cursor: nat, pending: seq<Request>, gone: set<SteerId>)
    requires InStep(log, cursor, pending, gone) && WellFormed(log + more)
    ensures InStep(log + more, cursor, pending, gone)
  {
    hide WellFormed, Keep, Fold;
    AheadGrows(log, more, cursor, gone);
    hide Ahead;
    assert (log + more)[..cursor] == log[..cursor];
  }

  lemma {:induction false} DeliveryKeepsStep(log: seq<Event>, cursor: nat, pending: seq<Request>, gone: set<SteerId>, r: Request)
    requires InStep(log, cursor, pending, gone) && r in pending
    ensures InStep(log + [Delivered(r.id)], cursor, Keep(pending, {r.id}), gone + {r.id})
    ensures exists i :: 0 <= i < |log| && log[i].Requested? && log[i].id == r.id
  {
    hide WellFormed, Keep, Fold, Ahead;
    RequestedBefore(log, cursor, gone, r);
    var i :| 0 <= i < cursor && log[i] == Requested(r.id, r.message);
    KeepTwice(Fold(log[..cursor]), gone, {r.id});
    DeliveryFits(log, cursor, gone, r.id);
    assert (log + [Delivered(r.id)])[..cursor] == log[..cursor];
  }

  /** What others commit later still fits after a delivery was written in between. */
  lemma {:induction false} DeliveryInserts(log: seq<Event>, future: seq<Event>, id: SteerId)
    requires WellFormed(log + future) && exists i :: 0 <= i < |log| && log[i].Requested? && log[i].id == id
    ensures WellFormed(log + [Delivered(id)] + future)
  {
    var old', new' := log + future, log + [Delivered(id)] + future;
    var n := |log|;
    var i :| 0 <= i < n && log[i].Requested? && log[i].id == id;
    assert forall k :: 0 <= k < n ==> new'[k] == old'[k] == log[k];
    assert forall k :: n < k < |new'| ==> new'[k] == old'[k - 1];
    forall j | 0 <= j < |new'| && new'[j].Delivered? ensures exists h :: 0 <= h < j && new'[h].Requested? && new'[h].id == new'[j].id {
      if j == n {
        assert new'[i].Requested?;
      } else {
        var j0 := if j < n then j else j - 1;
        var h0 :| 0 <= h0 < j0 && old'[h0].Requested? && old'[h0].id == old'[j0].id;
        assert new'[if h0 < n then h0 else h0 + 1] == old'[h0];
      }
    }
    forall a, b | 0 <= a < b < |new'| && new'[a].Requested? && new'[b].Requested? ensures new'[a].id != new'[b].id {
      assert a != n && b != n;
      assert new'[a] == old'[if a < n then a else a - 1] && new'[b] == old'[if b < n then b else b - 1];
    }
  }

  datatype Outcome = Delivers | LoadFails | SteerFails | RecordFails

  /** What the controller did, in order: steered the runtime, wrote a delivered event. */
  datatype Did = Steered(id: SteerId) | Wrote(id: SteerId)

  /** Every delivered event was written after the runtime had been steered. */
  ghost predicate SteeredFirst(trace: seq<Did>) {
    forall j :: 0 <= j < |trace| && trace[j].Wrote? ==> exists i :: 0 <= i < j && trace[i] == Steered(trace[j].id)
  }

  lemma {:induction false} SteerExtends(trace: seq<Did>, id: SteerId)
    requires SteeredFirst(trace)
    ensures SteeredFirst(trace + [Steered(id)]) && SteeredFirst(trace + [Steered(id), Wrote(id)])
  {
    var one, two := trace + [Steered(id)], trace + [Steered(id), Wrote(id)];
    assert two[|trace|] == Steered(id);
    forall j | 0 <= j < |trace| && trace[j].Wrote?
      ensures exists i :: 0 <= i < j && one[i] == Steered(one[j].id)
      ensures exists i :: 0 <= i < j && two[i] == Steered(two[j].id)
    {
      var i :| 0 <= i < j && trace[i] == Steered(trace[j].id);
      assert one[i] == Steered(one[j].id) && two[i] == Steered(two[j].id);
    }
  }

  /** How the i-th delivery of a poll goes; without any trouble named, it goes well. */
  function OutcomeOf(outcomes: seq<Outcome>, i: int): Outcome {
    if 0 <= i < |outcomes| then outcomes[i] else Delivers
  }

  /** The first of `n` deliveries to fail, or `n`. */
  function FirstFailure(outcomes: seq<Outcome>, n: nat): (f: nat)
    ensures f <= n && (f < n ==> !OutcomeOf(outcomes, f).Delivers?)
    ensures forall i :: 0 <= i < f ==> OutcomeOf(outcomes, i).Delivers?
  {
    if n == 0 then 0
    else
      var f := FirstFailure(outcomes, n - 1);
      if f < n - 1 then f else if OutcomeOf(outcomes, n - 1).Delivers? then n else n - 1
  }

  lemma {:induction false} FailsFirstAt(outcomes: seq<Outcome>, n: nat, i: nat)
    requires i <= n && (forall k :: 0 <= k < i ==> OutcomeOf(outcomes, k).Delivers?) && (i < n ==> !OutcomeOf(outcomes, i).Delivers?)
    ensures FirstFailure(outcomes, n) == i
  {
    var f := FirstFailure(outcomes, n);
    assert f < i ==> OutcomeOf(outcomes, f).Delivers?;
    assert i < f ==> OutcomeOf(outcomes, i).Delivers?;
  }

  /** Steering and recording each of these requests. */
  function Deliveries(s: seq<Request>): seq<Did> {
    if s == [] then []
    else
      var n := |s| - 1;
      Deliveries(s[..n]) + [Steered(s[n].id), Wrote(s[n].id)]
  }

  lemma {:induction false} NoDeliveries(s: seq<Request>)
    ensures Deliveries(s[..0]) == []
  {
  }

  lemma {:induction false} OneMoreDelivery(s: seq<Request>, i: nat)
    requires i < |s|
    ensures Deliveries(s[..i + 1]) == Deliveries(s[..i]) + [Steered(s[i].id), Wrote(s[i].id)]
  {
    assert s[..i + 1][..i] == s[..i];
  }

  /** What a poll that gets as far as the n-th request does: the last one may have been steered only. */
  function Report(todo: seq<Request>, outcomes: seq<Outcome>, n: nat): seq<Did>
    requires n <= |todo|
  {
    Deliveries(todo[..n]) + if n < |todo| && OutcomeOf(outcomes, n).RecordFails? then [Steered(todo[n].id)] else []
  }

  /** `log` is the Run's durable event log; sequence numbers are positions, counted from one. */
  class Controller {
    var log: seq<Event>
    var cursor: nat
    var pending: seq<Request>
    var trace: seq<Did>
    ghost var gone: set<SteerId>

    ghost predicate Valid()
      reads this
    {
      cursor <= |log| && InStep(log, cursor, pending, gone) && SteeredFirst(trace)
    }

    /** A rebuilt controller knows nothing but the log. */
    constructor (log: seq<Event>)
      requires WellFormed(log)
      ensures Valid() && this.log == log && cursor == 0 && pending == [] && trace == []
    {
      this.log, cursor, pending, trace, gone := log, 0, [], [], {};
      new;
      assert log[..0] == [];
    }

    method Arrive(more: seq<Event>)
      requires Valid() && WellFormed(log + more)
      modifies this`log
      ensures Valid() && log == old(log) + more
    {
      ArrivalKeepsStep(log, more, cursor, pending, gone);
      hide InStep, SteeredFirst;
      log := log + more;
    }

    /** The next part of the future arrives, up to position `b`. */
    method ArriveUpTo(future: seq<Event>, a: nat, b: nat) returns (c: nat)
      requires Valid() && a <= |future| && WellFormed(log + future[a..])
      modifies this`log
      ensures Valid() && a <= c <= |future| && log == old(log) + future[a..c] && WellFormed(log + future[c..])
      ensures forall j :: |old(log)| <= j < |log| ==> log[j] in future
    {
      hide InStep, SteeredFirst, WellFormed;
      c := if a < b <= |future| then b else a;
      var more := future[a..c];
      assert log + future[a..] == (log + more) + future[c..];
      assert (log + future[a..])[..|log + more|] == log + more;
      WellFormedPrefix(log + future[a..], |log + more|);
      Arrive(more);
    }

    /** Apply one page of events to the pending list. */
    method ReadPage(size: nat)
      requires Valid() && cursor + size <= |log|
      modifies this`cursor, this`pending, this`gone
      ensures Valid() && cursor == old(cursor) + size
    {
      hide InStep, SteeredFirst, After, GoneAfter;
      var page := log[cursor..cursor + size];
      var k := 0;
      while k < |page|
        invariant k <= |page| && Valid() && cursor == old(cursor) + k
      {
        assert page[k] == log[cursor];
        ReadKeepsStep(log, cursor, pending, gone);
        gone := GoneAfter(gone, page[k]);
        pending := After(pending, page[k]);
        cursor := cursor + 1;
        k := k + 1;
      }
    }

    /**
     * Page after page until a short one, while other transactions keep committing: before
     * page k, `future` has arrived up to `upto[k]`. Afterwards the list is exactly what is
     * outstanding in the log as of the last page.
     */
    method ReadNewEvents(future: seq<Event>, upto: seq<nat>) returns (a: nat)
      requires Valid() && WellFormed(log + future)
      modifies this`log, this`cursor, this`pending, this`gone
      ensures Valid() && cursor == |log| && pending == Outstanding(log)
      ensures a <= |future| && log == old(log) + future[..a]
    {
      hide InStep, SteeredFirst;
      var k := 0;
      a := 0;
      assert log == log + future[..0];
      while true
        invariant Valid() && cursor <= |log| && a <= |future| && log == old(log) + future[..a]
        decreases |old(log)| + |future| - cursor
      {
        if k < |upto| && a < upto[k] <= |future| {
          WellFormedPrefix(old(log) + future, |old(log)| + upto[k]);
          assert log + future[a..upto[k]] == (old(log) + future)[..|old(log)| + upto[k]];
          Arrive(future[a..upto[k]]);
          a := upto[k];
        }
        k := k + 1;
        var unread := |log| - cursor;
        var size := if unread < PAGE_SIZE then unread else PAGE_SIZE;
        ReadPage(size);
        if size < PAGE_SIZE { break; }
      }
      CaughtUp(log, pending, gone);
    }

    /** Steer the runtime, then record the delivery, then take the request off the list. */
    method DeliverOne(r: Request, outcome: Outcome) returns (ok: bool)
      requires Valid() && r in pending
      modifies this`log, this`pending, this`trace, this`gone
      ensures Valid() && ok == outcome.Delivers?
      ensures ok ==> log == old(log) + [Delivered(r.id)] && pending == Keep(old(pending), {r.id})
      ensures !ok ==> log == old(log) && pending == old(pending)
      ensures trace == old(trace) + match outcome
                                    case Delivers => [Steered(r.id), Wrote(r.id)]
                                    case RecordFails => [Steered(r.id)]
                                    case _ => []
    {
      DeliveryKeepsStep(log, cursor, pending, gone, r);
      SteerExtends(trace, r.id);
      hide InStep, SteeredFirst, Keep;
      if outcome.LoadFails? || outcome.SteerFails? { return false; }
      trace := trace + [Steered(r.id)];
      if outcome.RecordFails? { return false; }
      log := log + [Delivered(r.id)];
      trace := trace + [Wrote(r.id)];
      assert trace == old(trace) + [Steered(r.id), Wrote(r.id)];
      gone := gone + {r.id};
      pending := Keep(pending, {r.id});
      ok := true;
    }

    /** Deliver what is pending, one request after the other, up to the first failure. */
    method DeliverPending(future: seq<Event>, from: nat, later: seq<nat>, outcomes: seq<Outcome>) returns (ok: bool)
      requires Valid() && from <= |future| && WellFormed(log + future[from..]) && DistinctReqs(pending)
      modifies this`log, this`pending, this`trace, this`gone
      ensures Valid() && old(log) <= log
      ensures forall j :: |old(log)| <= j < |log| ==> log[j] in future || (log[j].Delivered? && Wrote(log[j].id) in trace)
      ensures var todo := old(pending);
              var n := FirstFailure(outcomes, |todo|);
              && ok == (n == |todo|) && pending == todo[n..]
              && (forall k :: 0 <= k < n ==> Delivered(todo[k].id) in log)
              && trace == old(trace) + Report(todo, outcomes, n)
    {
      hide InStep, SteeredFirst, Keep, WellFormed, FirstFailure, OutcomeOf, Deliveries;
      var a, i, todo := from, 0, pending;
      assert todo[0..] == todo;
      NoDeliveries(todo);
      while i < |todo|
        invariant i <= |todo| && Valid() && pending == todo[i..] && cursor == old(cursor) && old(log) <= log
        invariant 0 <= a <= |future| && WellFormed(log + future[a..])
        invariant forall j :: |old(log)| <= j < |log| ==> log[j] in future || (log[j].Delivered? && Wrote(log[j].id) in trace)
        invariant forall k :: 0 <= k < i ==> OutcomeOf(outcomes, k).Delivers?
        invariant forall k :: 0 <= k < i ==> Delivered(todo[k].id) in log
        invariant trace == old(trace) + Deliveries(todo[..i])
      {
        a := ArriveUpTo(future, a, if i < |later| then later[i] else a);
        var r := todo[i];
        DeliveryKeepsStep(log, cursor, pending, gone, r);
        ghost var before, did := log, trace;
        var one := DeliverOne(r, OutcomeOf(outcomes, i));
        assert forall d :: d in did ==> d in trace;
        if !one {
          FailsFirstAt(outcomes, |todo|, i);
          return false;
        }
        DeliveryInserts(before, future[a..], r.id);
        assert Wrote(r.id) in trace && log[|log| - 1] == Delivered(r.id);
        assert todo[i..][1..] == todo[i + 1..];
        DropFirst(todo[i..]);
        OneMoreDelivery(todo, i);
        i := i + 1;
      }
      FailsFirstAt(outcomes, |todo|, i);
      ok := true;
    }

    /**
     * One poll, with other transactions committing between pages (`upto`) and between deliveries
     * (`later`). Up to the first failure every outstanding request is steered and then recorded, in
     * order; the request that failed and all later ones are kept. What the poll adds to the log are
     * the others' events and its own deliveries.
     */
    method PollOnce(future: seq<Event>, upto: seq<nat>, later: seq<nat>, outcomes: seq<Outcome>) returns (ok: bool)
      requires Valid() && WellFormed(log + future)
      modifies this
      ensures Valid() && old(log) <= log && cursor <= |log|
      ensures forall j :: |old(log)| <= j < |log| ==> log[j] in future || (log[j].Delivered? && Wrote(log[j].id) in trace)
      ensures var todo := Outstanding(log[..cursor]);
              var n := FirstFailure(outcomes, |todo|);
              && ok == (n == |todo|) && pending == todo[n..]
              && (forall k :: 0 <= k < n ==> Delivered(todo[k].id) in log)
              && trace == old(trace) + Report(todo, outcomes, n)
    {
      hide InStep, SteeredFirst, WellFormed, Outstanding, FirstFailure, Report, DistinctReqs;
      var a := ReadNewEvents(future, upto);
      ghost var base := log;
      assert base + future[a..] == old(log) + future;
      InStepFacts(log, cursor, pending, gone);
      DistinctIds(base);
      ok := DeliverPending(future, a, later, outcomes);
      assert log[..cursor] == base;
    }
  }

  lemma {:induction false} InStepFacts(log: seq<Event>, cursor: nat, pending: seq<Request>, gone: set<SteerId>)
    requires InStep(log, cursor, pending, gone)
    ensures WellFormed(log) && cursor <= |log|
  {
  }

  lemma {:induction false} CaughtUp(log: seq<Event>, pending: seq<Request>, gone: set<SteerId>)
    requires InStep(log, |log|, pending, gone)
    ensures pending == Outstanding(log)
  {
    NothingAhead(log, gone);
    hide Keep, Fold, Ahead, WellFormed;
    assert log[..|log|] == log;
    KeepAll(Fold(log), {});
    FoldIsOutstanding(log);
  }

  lemma {:induction false} NothingAhead(log: seq<Event>, gone: set<SteerId>)
    requires Ahead(log, |log|, gone)
    ensures gone == {}
  {
    forall id ensures id !in gone {}
  }

  lemma {:induction false} RequestedBefore(log: seq<Event>, cursor: nat, gone: set<SteerId>, r: Request)
    requires WellFormed(log) && cursor <= |log| && r in Keep(Fold(log[..cursor]), gone)
    ensures exists i :: 0 <= i < cursor && log[i] == Requested(r.id, r.message)
  {
    KeepMembers(Fold(log[..cursor]), gone, r);
    WellFormedPrefix(log, cursor);
    FoldIsOutstanding(log[..cursor]);
    KeepMembers(Requests(log[..cursor]), DeliveredIds(log[..cursor]), r);
    RequestsMembers(log[..cursor], r);
    var i :| 0 <= i < cursor && log[..cursor][i] == Requested(r.id, r.message);
    assert log[i] == Requested(r.id, r.message);
  }

  lemma {:induction false} DeliveryFits(log: seq<Event>, cursor: nat, gone: set<SteerId>, id: SteerId)
    requires WellFormed(log) && cursor <= |log| && Ahead(log, cursor, gone)
    requires exists i :: 0 <= i < cursor && log[i].Requested? && log[i].id == id
    ensures WellFormed(log + [Delivered(id)]) && Ahead(log + [Delivered(id)], cursor, gone + {id})
  {
    var log' := log + [Delivered(id)];
    var i :| 0 <= i < cursor && log[i].Requested? && log[i].id == id;
    assert log'[i].Requested? && log'[i].id == id && log'[|log|] == Delivered(id);
    forall j | 0 <= j < |log'| && log'[j].Delivered?
      ensures exists i :: 0 <= i < j && log'[i].Requested? && log'[i].id == log'[j].id
    {
      if j < |log| {
        var h :| 0 <= h < j && log[h].Requested? && log[h].id == log[j].id;
        assert log'[h].Requested?;
      }
    }
    AheadGrows(log, [Delivered(id)], cursor, gone);
  }

  /** Outstanding requests carry different ids. */
  lemma {:induction false} DistinctIds(log: seq<Event>)
    requires WellFormed(log)
    ensures DistinctReqs(Outstanding(log))
  {
    RequestsDistinct(log);
    KeepDistinct(Requests(log), DeliveredIds(log));
  }

  ghost predicate DistinctReqs(s: seq<Request>) {
    forall i, j :: 0 <= i < j < |s| ==> s[i].id != s[j].id
  }

  lemma {:induction false} RequestsDistinct(log: seq<Event>)
    requires WellFormed(log)
    ensures DistinctReqs(Requests(log))
  {
    if log != [] {
      var n := |log| - 1;
      WellFormedPrefix(log, n);
      RequestsDistinct(log[..n]);
      if log[n].Requested? {
        FreshRequest(log, n);
        assert forall i :: 0 <= i < |Requests(log[..n])| ==> Requests(log[..n])[i] in Requests(log[..n]);
      }
    }
  }

  lemma {:induction false} KeepDistinct(s: seq<Request>, drop: set<SteerId>)
    requires DistinctReqs(s)
    ensures DistinctReqs(Keep(s, drop))
  {
    if s != [] {
      var n := |s| - 1;
      KeepDistinct(s[..n], drop);
      forall i | 0 <= i < |Keep(s[..n], drop)| ensures Keep(s[..n], drop)[i].id != s[n].id {
        KeepMembers(s[..n], drop, Keep(s[..n], drop)[i]);
      }
    }
  }

  lemma {:induction false} DropFirst(s: seq<Request>)
    requires s != [] && DistinctReqs(s)
    ensures Keep(s, {s[0].id}) == s[1..]
  {
    if |s| == 1 {
      assert s[..0] == [];
    } else {
      var n := |s| - 1;
      DropFirst(s[..n]);
      assert s[..n][1..] + [s[n]] == s[1..];
    }
  }
}
