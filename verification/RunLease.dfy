/**
 * Execution attempts of one Run under its exclusive lease, interleaved with every other
 * ledger transaction, crashes and redeliveries. Each numbered attempt is one job delivery.
 */
module RunLease {
  import opened Statuses
  import opened LedgerState
  import opened LedgerSteps
  import opened LedgerTheorems
  import opened LedgerGuarantees

  /** Where an attempt stands; each step up to the next label holds at most one transaction. */
  datatype Pc =
    | Holding | CheckAccepted | CheckRetrying | CheckQueued | Dispatch | Claiming | Recovering
    | Gate | Launch | LaunchCheck | Executing | Settling | Done

  /**
   * `entry` is the status read when the lease was taken, `local` the attempt's copy of the
   * Run, `resume` the claimed interaction it would continue. `movedAt` remembers where in the
   * log this attempt moved the Run into RUNNING, `prompted` that it entered the executor.
   */
  datatype Attempt = Attempt(pc: Pc, entry: RunStatus, local: RunStatus, resume: Option<nat>,
                             applied: bool, movedAt: Option<nat>, prompted: bool)

  datatype World = World(db: Db, run: RunId, attempts: map<nat, Attempt>, holder: Option<nat>)

  datatype Act =
    | Environment(op: Op)
    | RecoveryCancel
    | Acquire(a: nat)
    | Proceed(a: nat, cancel: bool)
    | Settle(a: nat, from: RunStatus, to: RunStatus)
    | Release(a: nat)

  /** Transactions that put a Run into STARTING or RUNNING are issued under its lease only. */
  predicate NeedsLease(op: Op, run: RunId) {
    || (op.Cas? && op.run == run && (op.to.Starting? || op.to.Running?))
    || (op.ResumeApproval? && op.run == run)
    || (op.ResumeInput? && op.run == run)
  }

  function Status(w: World): RunStatus
    requires w.run in w.db.runs
  {
    w.db.runs[w.run].status
  }

  predicate IsContinuation(x: Interaction) {
    x.status.InputResolved? && (x.phase.Claimed? || x.phase.Applied?)
  }

  function Put(w: World, a: nat, t: Attempt): World {
    w.(attempts := w.attempts[a := t])
  }

  /** #transition: on success the new status, otherwise the status found. */
  function TryMove(w: World, a: nat, from: RunStatus, to: RunStatus, next: Pc): World
    requires w.run in w.db.runs && a in w.attempts
  {
    var t := w.attempts[a].(pc := next);
    match CasStep(w.db, w.run, from, to)
    case Commit(db) =>
      Put(w.(db := db), a, t.(local := to, movedAt := if to.Running? then Some(|w.db.log|) else t.movedAt))
    case Abort(_) => Put(w, a, t.(local := Status(w)))
  }

  function TryResume(w: World, a: nat, tx: Tx): World
    requires a in w.attempts
  {
    var t := w.attempts[a];
    match tx
    case Commit(db) => Put(w.(db := db), a, t.(pc := Claiming, local := Running, movedAt := Some(|w.db.log|)))
    case Abort(_) => Put(w, a, t.(pc := Done))
  }

  /** One step of an attempt; `cancel` is what its cancellation check saw. */
  function Move(w: World, a: nat, cancel: bool): World
    requires w.run in w.db.runs && a in w.attempts
  {
    var t := w.attempts[a];
    match t.pc
    case Holding =>
      var s := Status(w);
      Put(w, a, t.(pc := if TerminalRun(s) then Done else CheckAccepted, entry := s, local := s))
    case CheckAccepted =>
      if cancel then Put(w, a, t.(pc := Settling))
      else if t.local.Accepted? then TryMove(w, a, Accepted, Queued, CheckRetrying)
      else Put(w, a, t.(pc := CheckRetrying))
    case CheckRetrying =>
      if cancel then Put(w, a, t.(pc := Settling))
      else if t.local.Retrying? then TryMove(w, a, Retrying, Queued, CheckQueued)
      else Put(w, a, t.(pc := CheckQueued))
    case CheckQueued =>
      if !t.local.Queued? then Put(w, a, t.(pc := Dispatch))
      else if cancel then Put(w, a, t.(pc := Settling))
      else TryMove(w, a, Queued, Starting, Dispatch)
    case Dispatch =>
      if t.local.Cancelling? then Put(w, a, t.(pc := Settling))
      else if t.local.WaitingApproval? then TryResume(w, a, ResumeApprovalStep(w.db, w.run))
      else if t.local.WaitingInput? then TryResume(w, a, ResumeInputStep(w.db, w.run))
      else Put(w, a, t.(pc := Claiming))
    case Claiming =>
      var last := LastInput(w.db.interactions, w.run, IsContinuation);
      if !t.entry.Running? || last.None? then Put(w, a, t.(pc := Gate))
      else
        var x := w.db.interactions[last.value];
        if x.phase.Applied? then Put(w, a, t.(pc := Recovering, applied := true))
        else if x.te in w.db.tools && w.db.tools[x.te].status.ToolSucceeded? then Put(w, a, t.(pc := Gate, resume := last))
        else Put(w, a, t.(pc := Gate))
    case Recovering => TryMove(w, a, Running, RunSucceeded, Done)
    case Gate =>
      if t.entry.Starting? || (t.entry.Running? && t.resume.None?)
      then Put(w, a, t.(pc := if cancel || t.local.Cancelling? then Settling else Done))
      else Put(w, a, t.(pc := Launch))
    case Launch =>
      if !t.local.Starting? then Put(w, a, t.(pc := LaunchCheck))
      else if cancel then Put(w, a, t.(pc := Settling))
      else TryMove(w, a, Starting, Running, LaunchCheck)
    case LaunchCheck =>
      if cancel then Put(w, a, t.(pc := Settling))
      else if !t.local.Running? then Put(w, a, t.(pc := Done))
      else Put(w, a, t.(pc := Executing, prompted := true))
    case Executing => Put(w, a, t.(pc := Settling))
    case Settling => Put(w, a, t.(pc := Done))
    case Done => w
  }

  predicate Owns(w: World, a: nat) {
    a in w.attempts && w.holder == Some(a)
  }

  /** A disabled act changes nothing. */
  function Act1(w: World, act: Act): World
    requires w.run in w.db.runs
  {
    match act
    case Environment(op) => if NeedsLease(op, w.run) then w else w.(db := Apply(w.db, op))
    case RecoveryCancel =>
      if w.holder.Some? || !Status(w).Starting? then w
      else w.(db := Unwind(w.db, w.run))  // STARTING -> RUNNING -> CANCELLING -> CANCELLED in one transaction
    case Acquire(a) =>
      if w.holder.Some? || a in w.attempts then w
      else Put(w, a, Attempt(Holding, Accepted, Accepted, None, false, None, false)).(holder := Some(a))
    case Proceed(a, cancel) => if Owns(w, a) then Move(w, a, cancel) else w
    case Settle(a, from, to) =>
      if Owns(w, a) && w.attempts[a].pc.Settling? then w.(db := Apply(w.db, Cas(w.run, from, to))) else w
    case Release(a) =>
      if Owns(w, a) then Put(w, a, w.attempts[a].(pc := Done)).(holder := None) else w
  }

  ghost predicate Worlds(ws: seq<World>, acts: seq<Act>) {
    && |ws| == |acts| + 1
    && ws[0].run in ws[0].db.runs && ws[0].attempts == map[] && ws[0].holder.None?
    && forall i :: 0 <= i < |acts| ==> ws[i].run in ws[i].db.runs && ws[i + 1] == Act1(ws[i], acts[i])
  }

  // ---------------------------------------------------------------- what each attempt has earned

  predicate Before(pc: Pc) {
    !pc.Holding? && !pc.Executing? && !pc.Settling? && !pc.Done?
  }

  /** The log shows this attempt moving the Run into RUNNING. */
  predicate Moved(w: World, t: Attempt) {
    t.movedAt.Some? ==>
      t.movedAt.value < |w.db.log| && w.db.log[t.movedAt.value].key.RunMoved?
      && w.db.log[t.movedAt.value].key.run == w.run && w.db.log[t.movedAt.value].key.to.Running?
  }

  /** The interaction it would continue is answered, claimed, and its tool SUCCEEDED. */
  predicate Continues(w: World, t: Attempt) {
    t.resume.Some? ==>
      && t.entry.Running? && Answered(w.db, t.resume.value)
      && w.db.interactions[t.resume.value].te.run == w.run
      && PhaseRank(w.db.interactions[t.resume.value].phase) >= PhaseRank(Claimed)
      && Succeeded(w.db, w.db.interactions[t.resume.value].te)
  }

  predicate Earned(t: Attempt) {
    t.movedAt.Some? || t.resume.Some?
  }

  ghost predicate Fair(w: World, a: nat)
    requires a in w.attempts && w.run in w.db.runs
  {
    var t := w.attempts[a];
    && (t.pc.Done? || w.holder == Some(a))
    && Moved(w, t) && Continues(w, t)
    && (t.prompted ==> Earned(t) && !t.applied)
    && (Before(t.pc) && t.movedAt.None? ==>
          && (Status(w).Running? ==> t.entry.Running?)
          && (t.local.Running? ==> t.entry.Running?))
    && (t.pc.Launch? || t.pc.LaunchCheck? ==> (t.entry.Running? ==> t.resume.Some?))
    && (Before(t.pc) || t.pc.Holding? ==> !t.prompted)
    && (t.pc.Holding? ==> !Earned(t))
    && (t.applied ==> !t.prompted && (t.pc.Recovering? || t.pc.Done?))
  }

  ghost predicate LeaseInv(w: World) {
    && w.run in w.db.runs
    && (forall a :: a in w.attempts ==> Fair(w, a))
    && (forall a, b :: a in w.attempts && b in w.attempts && a != b && w.attempts[a].movedAt.Some?
                       ==> w.attempts[a].movedAt != w.attempts[b].movedAt)
  }

  // ---------------------------------------------------------------- how ledger steps move the Run

  lemma {:induction false} CloseToolsRuns(db: Db, run: RunId, order: seq<TeId>)
    ensures CloseTools(db, run, order).runs == db.runs
    ensures CancelTools(db, run, order).runs == db.runs
    decreases |order|
  {
    if order != [] {
      var te := order[0];
      if te.run == run && te in db.tools && !TerminalTool(db.tools[te].status) {
        CloseToolsRuns(FinishTool(db, te, if db.tools[te].status.ToolRunning? then ToolUnknown else ToolCancelled, Some(Marker(2)), None), run, order[1..]);
        CloseToolsRuns(FinishTool(db, te, ToolCancelled, Some(Marker(3)), None), run, order[1..]);
      } else {
        CloseToolsRuns(db, run, order[1..]);
      }
    }
  }

  lemma {:induction false} CancelApprovalsRuns(db: Db, run: RunId, i: nat)
    ensures CancelApprovals(db, run, i).runs == db.runs
    decreases |db.approvals| - i
  {
    if i < |db.approvals| {
      CancelApprovalsRuns(db, run, i + 1);
      if db.approvals[i].te.run == run && db.approvals[i].status.ApprovalPending? {
        CancelApprovalsRuns(DecideApproval(db, i, ApprovalCancelled), run, i + 1);
      }
    }
  }

  lemma {:induction false} TransitionRuns(db: Db, run: RunId, to: RunStatus)
    requires run in db.runs
    ensures Transition(db, run, to).runs == db.runs[run := db.runs[run].(status := to)]
    ensures |db.log| < |Transition(db, run, to).log|
    ensures Transition(db, run, to).log[|db.log|].key == RunMoved(run, db.runs[run].status, to)
  {
    hide CloseTools, Advance;
    var moved := MoveRun(db, run, to, None);
    CloseToolsRuns(moved, run, moved.toolOrder);
    assert moved.log[|db.log|].key == RunMoved(run, db.runs[run].status, to);
    CloseToolsAdvance(moved, run, moved.toolOrder);
    assert moved.log <= CloseTools(moved, run, moved.toolOrder).log by { AdvanceLog(moved, CloseTools(moved, run, moved.toolOrder)); }
  }

  lemma {:induction false} AdvanceLog(db: Db, db': Db)
    requires Advance(db, db')
    ensures db.log <= db'.log
  {
  }

  lemma {:induction false} UnwindRuns(db: Db, run: RunId)
    requires run in db.runs
    ensures var r := Unwind(db, run).runs; r == db.runs[run := db.runs[run].(status := RunCancelled)]
  {
    hide Transition;
    TransitionRuns(MoveRun(MoveRun(db, run, Running, None), run, Cancelling, None), run, RunCancelled);
  }

  lemma {:induction false} ClosingRuns(db: Db, op: Op, run: RunId)
    requires Closing(op) && run in db.runs && !NeedsLease(op, run)
    ensures var r := Apply(db, op).runs; run in r && (r[run].status.Running? ==> db.runs[run].status.Running?)
  {
    hide CloseTools, CancelTools, CancelApprovals, Unwind, Transition, LastInput;
    match op
    case Cas(r, _, t) => if r in db.runs { TransitionRuns(db, r, t); }
    case CancelParkedApproval(r) =>
      var db1 := CancelTools(CancelApprovals(db, r, 0), r, db.toolOrder);
      CancelApprovalsRuns(db, r, 0);
      CloseToolsRuns(CancelApprovals(db, r, 0), r, db.toolOrder);
      if r in db1.runs { UnwindRuns(db1, r); }
    case CancelParkedInput(r) =>
      if CancelParkedInputStep(db, r).Commit? {
        var pending := LastInput(db.interactions, r, IsPending);
        var chosen := if pending.Some? then pending else LastInput(db.interactions, r, IsSettled);
        var te := db.interactions[chosen.value].te;
        var db1 := if pending.Some? then WithdrawInput(db, pending.value) else db;
        var db2 := if TerminalTool(db1.tools[te].status) then db1 else FinishTool(db1, te, ToolCancelled, Some(Marker(4)), None);
        UnwindRuns(db2, r);
      }
  }

  lemma {:induction false} LocateRuns(db: Db, ctx: Ctx, call: CallId, sig: Signature, args: Fp, policy: Option<Fp>, pending: bool, claimed: Option<TeId>)
    ensures var g := GetOrCreate(db, ctx, call, sig, args, policy, pending); g.Got? ==> g.db.runs == db.runs
    ensures var g := LocateTool(db, ctx, call, sig, args, claimed); g.Got? ==> g.db.runs == db.runs
    ensures var g := LocateInputTool(db, ctx, call, sig, args, claimed); g.Got? ==> g.db.runs == db.runs
  {
  }

  lemma {:induction false} ParkApprovalRuns(db: Db, ctx: Ctx, te: TeId, s: RunStatus, run: RunId)
    requires te in db.tools && run in db.runs
    ensures var tx := ParkForApproval(db, ctx, te, s);
            tx.Commit? ==> run in tx.db.runs && (tx.db.runs[run].status.Running? ==> db.runs[run].status.Running?)
  {
    hide ApprovalFor;
  }

  lemma {:induction false} ParkInputRuns(db: Db, ctx: Ctx, te: TeId, request: Fp, s: RunStatus, run: RunId)
    requires te in db.tools && run in db.runs
    ensures var tx := ParkForInput(db, ctx, te, request, s);
            tx.Commit? ==> run in tx.db.runs && (tx.db.runs[run].status.Running? ==> db.runs[run].status.Running?)
  {
    hide InputFor, HasPendingInput;
  }

  lemma {:induction false} CallRuns(db: Db, op: Op)
    requires op.Policy? || op.Start? || op.End? || op.MarkUnknown?
    ensures Apply(db, op).runs == db.runs
  {
    if op.Policy? {
      hide GetOrCreate, ReplayAllowed;
      LocateRuns(db, op.ctx, op.call, op.sig, op.given, Some(op.pf), false, None);
    } else {
      hide Apply;
      CallFrame(db, op);
    }
  }

  lemma {:induction false} PlainRuns(db: Db, op: Op, run: RunId)
    requires !Closing(op) && !op.RequestApproval? && !op.RequestInput? && run in db.runs && !NeedsLease(op, run)
    ensures var r := Apply(db, op).runs; run in r && (r[run].status.Running? ==> db.runs[run].status.Running?)
  {
    if op.Policy? || op.Start? || op.End? || op.MarkUnknown? {
      CallRuns(db, op);
    } else {
      hide LastInput, LastApproval, HasPendingInput, HasPendingApproval;
    }
  }

  /** Without the lease no transaction brings the Run into RUNNING. */
  lemma {:induction false} OnlyTheLeaseHolderStarts(db: Db, op: Op, run: RunId)
    requires run in db.runs && !NeedsLease(op, run)
    ensures var r := Apply(db, op).runs; run in r && (r[run].status.Running? ==> db.runs[run].status.Running?)
  {
    if Closing(op) {
      ClosingRuns(db, op, run);
    } else if op.RequestApproval? || op.RequestInput? {
      hide LocateTool, LocateInputTool, ParkForApproval, ParkForInput;
      LocateRuns(db, op.ctx, op.call, op.sig, op.given, None, false, op.claimed);
      if Step(db, op).Commit? {
        var te, s := Te(op.ctx.run, op.call), db.runs[op.ctx.run].status;
        if op.RequestApproval? {
          ParkApprovalRuns(LocateTool(db, op.ctx, op.call, op.sig, op.given, op.claimed).db, op.ctx, te, s, run);
        } else {
          ParkInputRuns(LocateInputTool(db, op.ctx, op.call, op.sig, op.given, op.claimed).db, op.ctx, te, op.request, s, run);
        }
      }
    } else {
      PlainRuns(db, op, run);
    }
  }

  // ---------------------------------------------------------------- preservation

  /** An attempt that stands still keeps what it earned while the ledger moves on. */
  lemma {:induction false} StandsStill(w: World, w': World, a: nat)
    requires a in w.attempts && w.run in w.db.runs && Fair(w, a)
    requires w'.run == w.run && w'.run in w'.db.runs && a in w'.attempts && w'.attempts[a] == w.attempts[a]
    requires Advance(w.db, w'.db)
    requires w.attempts[a].pc.Done? || w'.holder == w.holder
    requires Before(w.attempts[a].pc) && Status(w').Running? ==> Status(w).Running?
    ensures Fair(w', a)
  {
    var t := w.attempts[a];
    if t.resume.Some? { assert InputAdvance(w.db.interactions[t.resume.value], w'.db.interactions[t.resume.value]); }
    assert w.db.log <= w'.db.log;
  }

  /** Only the ledger moved. */
  lemma {:induction false} LedgerMoves(w: World, db': Db)
    requires LeaseInv(w) && Advance(w.db, db') && w.run in db'.runs
    requires forall a :: a in w.attempts && Before(w.attempts[a].pc) && db'.runs[w.run].status.Running? ==> Status(w).Running?
    ensures LeaseInv(w.(db := db'))
  {
    hide Advance, Fair;
    forall a | a in w.attempts ensures Fair(w.(db := db'), a) { StandsStill(w, w.(db := db'), a); }
  }

  /** The lease holder stepped to `w'`; everyone else is done. */
  lemma {:induction false} HolderSteps(w: World, w': World, a: nat)
    requires LeaseInv(w) && Owns(w, a) && w'.run == w.run && w'.run in w'.db.runs
    requires a in w'.attempts && w'.attempts == w.attempts[a := w'.attempts[a]]
    requires Advance(w.db, w'.db) && Fair(w', a)
    requires w'.attempts[a].movedAt == w.attempts[a].movedAt || (w'.attempts[a].movedAt.Some? && w'.attempts[a].movedAt.value >= |w.db.log|)
    ensures LeaseInv(w')
  {
    hide Advance;
    forall b | b in w'.attempts ensures Fair(w', b) {
      if b != a { assert Fair(w, b); StandsStill(w, w', b); }
    }
    forall b | b in w.attempts && b != a && w.attempts[b].movedAt.Some? ensures w.attempts[b].movedAt.value < |w.db.log| {
      assert Fair(w, b);
    }
  }

  lemma {:induction false} TryMoveKeeps(w: World, a: nat, from: RunStatus, to: RunStatus, next: Pc)
    requires LeaseInv(w) && Owns(w, a) && !w.attempts[a].prompted
    requires Before(w.attempts[a].pc) && (next.Done? || Before(next))
    requires w.attempts[a].applied ==> next.Done?
    requires next.LaunchCheck? ==> w.attempts[a].pc.Launch?
    requires !next.Launch?
    ensures LeaseInv(TryMove(w, a, from, to, next))
  {
    hide Advance, Transition;
    var w' := TryMove(w, a, from, to, next);
    CasAdvance(w.db, w.run, from, to);
    SelfAdvance(w.db);
    TransitionRuns(w.db, w.run, to);
    var t, t' := w.attempts[a], w'.attempts[a];
    assert Fair(w, a);
    assert Moved(w', t') by { AdvanceLog(w.db, w'.db); }
    assert Continues(w', t') by { ContinuesOn(w, w', t); }
    HolderSteps(w, w', a);
  }

  lemma {:induction false} ContinuesOn(w: World, w': World, t: Attempt)
    requires Continues(w, t) && Advance(w.db, w'.db) && w'.run == w.run
    ensures Continues(w', t)
  {
    if t.resume.Some? { assert InputAdvance(w.db.interactions[t.resume.value], w'.db.interactions[t.resume.value]); }
  }

  lemma {:induction false} ResumeMoves(db: Db, run: RunId)
    requires run in db.runs
    ensures var tx := ResumeApprovalStep(db, run);
            tx.Commit? ==> run in tx.db.runs && tx.db.runs[run].status.Running?
                           && |db.log| < |tx.db.log| && tx.db.log[|db.log|].key == RunMoved(run, db.runs[run].status, Running)
    ensures var tx := ResumeInputStep(db, run);
            tx.Commit? ==> run in tx.db.runs && tx.db.runs[run].status.Running?
                           && |db.log| < |tx.db.log| && tx.db.log[|db.log|].key == RunMoved(run, db.runs[run].status, Running)
  {
    hide LastInput, LastApproval, HasPendingInput, HasPendingApproval;
  }

  lemma {:induction false} TryResumeKeeps(w: World, a: nat, op: Op)
    requires LeaseInv(w) && Owns(w, a) && w.attempts[a].pc.Dispatch?
    requires op == ResumeInput(w.run) || op == ResumeApproval(w.run)
    ensures LeaseInv(TryResume(w, a, Step(w.db, op)))
  {
    hide Advance, ResumeInputStep, ResumeApprovalStep;
    var w' := TryResume(w, a, Step(w.db, op));
    PlainAdvance(w.db, op);
    SelfAdvance(w.db);
    ResumeMoves(w.db, w.run);
    assert Fair(w, a);
    assert Continues(w', w'.attempts[a]) by { ContinuesOn(w, w', w.attempts[a]); }
    HolderSteps(w, w', a);
  }

  /** A step on the attempt's own variables only. */
  lemma {:induction false} LocalKeeps(w: World, a: nat, t: Attempt)
    requires LeaseInv(w) && Owns(w, a)
    requires t.movedAt == w.attempts[a].movedAt && Fair(Put(w, a, t), a)
    ensures LeaseInv(Put(w, a, t))
  {
    hide Advance, Fair;
    SelfAdvance(w.db);
    HolderSteps(w, Put(w, a, t), a);
  }

  lemma {:induction false} ClaimingKeeps(w: World, a: nat, cancel: bool)
    requires LeaseInv(w) && Owns(w, a) && w.attempts[a].pc.Claiming?
    ensures LeaseInv(Move(w, a, cancel))
  {
    hide LastInput, TryMove, TryResume, LeaseInv;
    assert Fair(w, a) by { FairOf(w, a); }
    LocalKeeps(w, a, Move(w, a, cancel).attempts[a]);
  }

  lemma {:induction false} FairOf(w: World, a: nat)
    requires LeaseInv(w) && a in w.attempts
    ensures w.run in w.db.runs && Fair(w, a)
  {
  }

  /** Going on without a transaction. */
  lemma {:induction false} PassKeeps(w: World, a: nat, next: Pc)
    requires LeaseInv(w) && Owns(w, a) && w.attempts[a].pc in {CheckAccepted, CheckRetrying, CheckQueued, Dispatch, Launch}
    requires next in {CheckRetrying, CheckQueued, Dispatch, Claiming, Settling} || (next.LaunchCheck? && w.attempts[a].pc.Launch?)
    ensures LeaseInv(Put(w, a, w.attempts[a].(pc := next)))
  {
    hide LeaseInv;
    FairOf(w, a);
    LocalKeeps(w, a, w.attempts[a].(pc := next));
  }

  lemma {:induction false} BeforeFacts(w: World, a: nat)
    requires LeaseInv(w) && a in w.attempts && Before(w.attempts[a].pc)
    ensures w.run in w.db.runs && !w.attempts[a].prompted && (w.attempts[a].applied ==> w.attempts[a].pc.Recovering?)
  {
    FairOf(w, a);
  }

  lemma {:induction false} CheckKeeps(w: World, a: nat, cancel: bool)
    requires LeaseInv(w) && Owns(w, a) && w.attempts[a].pc in {CheckAccepted, CheckRetrying, CheckQueued}
    ensures LeaseInv(Move(w, a, cancel))
  {
    hide LastInput, TryMove, TryResume, LeaseInv, ResumeInputStep, ResumeApprovalStep;
    BeforeFacts(w, a);
    var t := w.attempts[a];
    match t.pc
    case CheckAccepted =>
      if !cancel && t.local.Accepted? { TryMoveKeeps(w, a, Accepted, Queued, CheckRetrying); }
      else { PassKeeps(w, a, if cancel then Settling else CheckRetrying); }
    case CheckRetrying =>
      if !cancel && t.local.Retrying? { TryMoveKeeps(w, a, Retrying, Queued, CheckQueued); }
      else { PassKeeps(w, a, if cancel then Settling else CheckQueued); }
    case CheckQueued =>
      if t.local.Queued? && !cancel { TryMoveKeeps(w, a, Queued, Starting, Dispatch); }
      else { PassKeeps(w, a, if t.local.Queued? then Settling else Dispatch); }
  }

  lemma {:induction false} LateKeeps(w: World, a: nat, cancel: bool)
    requires LeaseInv(w) && Owns(w, a) && w.attempts[a].pc in {Dispatch, Recovering, Launch}
    ensures LeaseInv(Move(w, a, cancel))
  {
    hide LastInput, TryMove, TryResume, LeaseInv, ResumeInputStep, ResumeApprovalStep;
    BeforeFacts(w, a);
    var t := w.attempts[a];
    match t.pc
    case Dispatch =>
      if t.local.WaitingApproval? { TryResumeKeeps(w, a, ResumeApproval(w.run)); }
      else if t.local.WaitingInput? { TryResumeKeeps(w, a, ResumeInput(w.run)); }
      else { PassKeeps(w, a, if t.local.Cancelling? then Settling else Claiming); }
    case Recovering => TryMoveKeeps(w, a, Running, RunSucceeded, Done);
    case Launch =>
      if t.local.Starting? && !cancel { TryMoveKeeps(w, a, Starting, Running, LaunchCheck); }
      else { PassKeeps(w, a, if t.local.Starting? then Settling else LaunchCheck); }
  }

  lemma {:induction false} MoveKeeps(w: World, a: nat, cancel: bool)
    requires LeaseInv(w) && Owns(w, a)
    ensures LeaseInv(Move(w, a, cancel))
  {
    var pc := w.attempts[a].pc;
    if pc.Done? { return; }
    hide Move;
    if pc in {CheckAccepted, CheckRetrying, CheckQueued} { CheckKeeps(w, a, cancel); }
    else if pc in {Dispatch, Recovering, Launch} { LateKeeps(w, a, cancel); }
    else if pc.Claiming? { ClaimingKeeps(w, a, cancel); }
    else { LocalMoveKeeps(w, a, cancel); }
  }

  lemma {:induction false} LocalMoveKeeps(w: World, a: nat, cancel: bool)
    requires LeaseInv(w) && Owns(w, a) && w.attempts[a].pc in {Holding, Gate, LaunchCheck, Executing, Settling}
    ensures LeaseInv(Move(w, a, cancel))
  {
    hide LastInput, TryMove, TryResume, LeaseInv, ResumeInputStep, ResumeApprovalStep;
    FairOf(w, a);
    LocalKeeps(w, a, Move(w, a, cancel).attempts[a]);
  }

  lemma {:induction false} ActKeeps(w: World, act: Act)
    requires LeaseInv(w)
    ensures LeaseInv(Act1(w, act)) && Act1(w, act).run == w.run
  {
    hide Move, Apply, Advance, Unwind;
    match act
    case Environment(op) =>
      if !NeedsLease(op, w.run) {
        OnlyTheLeaseHolderStarts(w.db, op, w.run);
        StepAdvance(w.db, op);
        LedgerMoves(w, Apply(w.db, op));
      }
    case RecoveryCancel =>
      UnwindRuns(w.db, w.run);
      UnwindAdvance(w.db, w.run);
      LedgerMoves(w, Unwind(w.db, w.run));
    case Acquire(a) => AcquireKeeps(w, a);
    case Proceed(a, cancel) => if Owns(w, a) { MoveKeeps(w, a, cancel); MoveRunId(w, a, cancel); }
    case Settle(a, from, to) =>
      if Owns(w, a) && w.attempts[a].pc.Settling? {
        StepAdvance(w.db, Cas(w.run, from, to));
        CasKeepsRun(w.db, w.run, from, to);
        forall b | b in w.attempts ensures !Before(w.attempts[b].pc) { assert Fair(w, b); }
        LedgerMoves(w, Apply(w.db, Cas(w.run, from, to)));
      }
    case Release(a) => if Owns(w, a) { ReleaseKeeps(w, a); }
  }

  lemma {:induction false} MoveRunId(w: World, a: nat, cancel: bool)
    requires w.run in w.db.runs && a in w.attempts
    ensures Move(w, a, cancel).run == w.run
  {
    hide CasStep, ResumeInputStep, ResumeApprovalStep, LastInput;
  }

  lemma {:induction false} CasKeepsRun(db: Db, run: RunId, from: RunStatus, to: RunStatus)
    requires run in db.runs
    ensures run in Apply(db, Cas(run, from, to)).runs
  {
    hide Transition;
    TransitionRuns(db, run, to);
  }

  lemma {:induction false} AcquireKeeps(w: World, a: nat)
    requires LeaseInv(w)
    ensures LeaseInv(Act1(w, Acquire(a)))
  {
    hide Advance;
    SelfAdvance(w.db);
    var w' := Act1(w, Acquire(a));
    forall b | b in w'.attempts ensures Fair(w', b) {
      if b in w.attempts { assert Fair(w, b); StandsStill(w, w', b); }
    }
  }

  lemma {:induction false} ReleaseKeeps(w: World, a: nat)
    requires LeaseInv(w) && Owns(w, a)
    ensures LeaseInv(Act1(w, Release(a)))
  {
    hide Advance;
    SelfAdvance(w.db);
    var w' := Act1(w, Release(a));
    forall b | b in w'.attempts ensures Fair(w', b) {
      assert Fair(w, b);
      if b != a { StandsStill(w, w', b); }
    }
  }

  // ---------------------------------------------------------------- over every run

  lemma {:induction false} WorldsInv(ws: seq<World>, acts: seq<Act>, n: nat)
    requires Worlds(ws, acts) && n < |ws|
    ensures LeaseInv(ws[n])
  {
    hide Act1;
    if n > 0 {
      hide LeaseInv;
      WorldsInv(ws, acts, n - 1);
      ActKeeps(ws[n - 1], acts[n - 1]);
    }
  }

  /**
   * Whatever crashes, redeliveries, cancels, decisions and answers happen, an attempt that
   * entered the executor moved the Run into RUNNING itself, or found it RUNNING and continues
   * an answer that is CLAIMED or by now APPLIED and whose tool SUCCEEDED; and it is not an
   * attempt that took the branch for applied answers.
   */
  lemma {:induction false} ExecutorEntryIsEarned(ws: seq<World>, acts: seq<Act>, n: nat, a: nat)
    requires Worlds(ws, acts) && n < |ws| && a in ws[n].attempts && ws[n].attempts[a].prompted
    ensures var t := ws[n].attempts[a];
            || (t.movedAt.Some? && t.movedAt.value < |ws[n].db.log|
                && ws[n].db.log[t.movedAt.value].key.RunMoved? && ws[n].db.log[t.movedAt.value].key.to.Running?
                && ws[n].db.log[t.movedAt.value].key.run == ws[n].run)
            || (t.entry.Running? && t.resume.Some? && Answered(ws[n].db, t.resume.value)
                && PhaseRank(ws[n].db.interactions[t.resume.value].phase) >= PhaseRank(Claimed)
                && Succeeded(ws[n].db, ws[n].db.interactions[t.resume.value].te))
    ensures !ws[n].attempts[a].applied
  {
    hide Act1;
    WorldsInv(ws, acts, n);
    FairOf(ws[n], a);
  }

  /** Two prompts of one Run never rest on the same move into RUNNING. */
  lemma {:induction false} PromptsRestOnDistinctMoves(ws: seq<World>, acts: seq<Act>, n: nat, a: nat, b: nat)
    requires Worlds(ws, acts) && n < |ws| && a in ws[n].attempts && b in ws[n].attempts
    requires ws[n].attempts[a].movedAt.Some? && ws[n].attempts[a].movedAt == ws[n].attempts[b].movedAt
    ensures a == b
  {
    hide Act1, Fair;
    WorldsInv(ws, acts, n);
  }

  /** Exclusion: at most one attempt is between taking the lease and giving it up. */
  lemma {:induction false} OneAttemptAtATime(ws: seq<World>, acts: seq<Act>, n: nat, a: nat, b: nat)
    requires Worlds(ws, acts) && n < |ws| && a in ws[n].attempts && b in ws[n].attempts
    requires !ws[n].attempts[a].pc.Done? && !ws[n].attempts[b].pc.Done?
    ensures a == b
  {
    hide Act1;
    WorldsInv(ws, acts, n);
    FairOf(ws[n], a);
    FairOf(ws[n], b);
  }

  /** A continuation is taken up exactly in phase CLAIMED; APPLIED only finishes the Run. */
  lemma {:induction false} ContinuationByPhase(w: World, a: nat, cancel: bool)
    requires w.run in w.db.runs && a in w.attempts && w.attempts[a].pc.Claiming?
    requires w.attempts[a].entry.Running? && w.attempts[a].resume.None? && !w.attempts[a].applied
    ensures var t, last := Move(w, a, cancel).attempts[a], LastInput(w.db.interactions, w.run, IsContinuation);
            && (t.resume.Some? <==> last.Some? && w.db.interactions[last.value].phase.Claimed? && Succeeded(w.db, w.db.interactions[last.value].te))
            && (t.applied <==> last.Some? && w.db.interactions[last.value].phase.Applied?)
            && (t.applied ==> t.pc.Recovering?)
  {
    hide LastInput, TryMove, TryResume;
  }

  /** The applied branch ends the attempt, and the Run if it is still RUNNING, without a prompt. */
  lemma {:induction false} AppliedFinishesTheRun(w: World, a: nat, cancel: bool)
    requires w.run in w.db.runs && a in w.attempts && w.attempts[a].pc.Recovering?
    ensures var w' := Move(w, a, cancel);
            && w'.attempts[a].pc.Done? && w'.attempts[a].prompted == w.attempts[a].prompted
            && w'.run in w'.db.runs
            && Status(w') == if Status(w).Running? then RunSucceeded else Status(w)
  {
    hide Transition;
    TransitionRuns(w.db, w.run, RunSucceeded);
  }

  /**
   * Exclusion is needed: when two attempts both advanced from QUEUED, the one that loses the
   * race to RUNNING reads RUNNING back and prompts as well, on a move it did not make.
   */
  lemma {:induction false} WithoutExclusionTheLoserPrompts(w: World, a: nat, b: nat)
    requires w.run in w.db.runs && Status(w).Starting? && a != b
    requires a in w.attempts && w.attempts[a] == Attempt(Launch, Queued, Starting, None, false, None, false)
    requires b in w.attempts && w.attempts[b] == w.attempts[a]
    ensures var w1 := Move(w, b, false);
            && w1.run in w1.db.runs && a in w1.attempts && w1.attempts[b].movedAt.Some?
            && var w2 := Move(w1, a, false);
               && w2.run in w2.db.runs && a in w2.attempts
               && var t := Move(w2, a, false).attempts[a]; t.prompted && t.movedAt.None? && t.resume.None?
  {
    hide Transition;
    TransitionRuns(w.db, w.run, Running);
  }

  // ---------------------------------------------------------------- what an undisturbed attempt does

  /** `n` steps of one attempt with nothing in between and no cancellation seen. */
  function Alone(w: World, a: nat, n: nat): World
    decreases n
  {
    if n == 0 || w.run !in w.db.runs then w else Alone(Act1(w, Proceed(a, false)), a, n - 1)
  }

  /** An answer of the Run that an attempt has claimed, whatever became of it since. */
  predicate WasClaimed(db: Db, run: RunId, i: nat) {
    && i < |db.interactions| && db.interactions[i].te.run == run && db.interactions[i].status.InputResolved?
    && PhaseRank(db.interactions[i].phase) >= PhaseRank(Claimed)
  }

  /** The newest answer of the Run that was claimed is not applied yet, and its call SUCCEEDED. */
  ghost predicate ClaimStands(w: World) {
    exists i: nat :: NewestClaim(w, i) && w.db.interactions[i].phase.Claimed? && Succeeded(w.db, w.db.interactions[i].te)
  }

  ghost predicate NewestClaim(w: World, i: nat) {
    WasClaimed(w.db, w.run, i) && forall k: nat :: k > i ==> !WasClaimed(w.db, w.run, k)
  }

  lemma {:induction false} NewestClaimIs(w: World, i: nat)
    ensures NewestClaim(w, i) <==> LastInput(w.db.interactions, w.run, IsContinuation) == Some(i)
  {
    hide LastInput;
    var last := LastInput(w.db.interactions, w.run, IsContinuation);
    if last.Some? { assert WasClaimed(w.db, w.run, last.value); }
  }

  lemma {:induction false} ClaimStandsIff(w: World)
    ensures var last := LastInput(w.db.interactions, w.run, IsContinuation);
            ClaimStands(w) <==> last.Some? && w.db.interactions[last.value].phase.Claimed? && Succeeded(w.db, w.db.interactions[last.value].te)
  {
    hide LastInput, IsContinuation;
    var last := LastInput(w.db.interactions, w.run, IsContinuation);
    if last.Some? { NewestClaimIs(w, last.value); }
    if i: nat :| NewestClaim(w, i) && w.db.interactions[i].phase.Claimed? && Succeeded(w.db, w.db.interactions[i].te) { NewestClaimIs(w, i); }
  }

  /** The Run can be carried on by a delivery that finds it in this state. */
  ghost predicate Continuable(w: World)
    requires w.run in w.db.runs
  {
    match Status(w)
    case Accepted => true
    case Retrying => true
    case Queued => true
    case WaitingApproval => ResumeApprovalStep(w.db, w.run).Commit?
    case WaitingInput => ResumeInputStep(w.db, w.run).Commit?
    case Running => ClaimStands(w)
    case _ => false
  }

  /** The attempt is in the executor, the Run RUNNING by its own move or by the answer it continues. */
  predicate InExecutor(w: World, a: nat, entry: RunStatus) {
    && Owns(w, a) && w.run in w.db.runs && Status(w).Running?
    && var t := w.attempts[a];
    && t.pc.Executing? && t.prompted && t.entry == entry
    && (if entry.Running? then t.movedAt.None? && t.resume.Some? else t.movedAt.Some? && t.resume.None?)
  }

  /** The attempt is over, or will be, without a prompt. */
  predicate Refused(w: World, a: nat) {
    Owns(w, a) && w.run in w.db.runs && (w.attempts[a].pc.Settling? || w.attempts[a].pc.Done?) && !w.attempts[a].prompted
  }

  /** The attempt is over without a prompt. */
  predicate Ended(w: World, a: nat) {
    Refused(w, a) && w.attempts[a].pc.Done?
  }

  /** The attempt stands at a label and its copy of the Run is up to date. */
  predicate Stands(w: World, a: nat, pc: Pc, entry: RunStatus, status: RunStatus) {
    && Owns(w, a) && w.run in w.db.runs && Status(w) == status
    && var t := w.attempts[a];
    && t.pc == pc && t.entry == entry && t.local == status && !t.prompted
    && (t.movedAt.Some? <==> status.Running? && !entry.Running?)
    && (!entry.Running? ==> t.resume.None?)
  }

  lemma {:induction false} AloneStep(w: World, a: nat, n: nat)
    requires w.run in w.db.runs && n > 0
    ensures Alone(w, a, n) == Alone(Act1(w, Proceed(a, false)), a, n - 1)
  {
    hide Act1;
  }

  lemma {:induction false} RefusedStays(w: World, a: nat, n: nat)
    requires Refused(w, a)
    ensures Refused(Alone(w, a, n), a) && (n > 0 ==> Alone(w, a, n).attempts[a].pc.Done?)
    decreases n
  {
    if n > 0 {
      RefusedSteps(w, a, false);
      AloneStep(w, a, n);
      hide Act1, Refused;
      RefusedStays(Act1(w, Proceed(a, false)), a, n - 1);
    }
  }

  lemma {:induction false} RefusedSteps(w: World, a: nat, cancel: bool)
    requires Refused(w, a)
    ensures w.run in w.db.runs && Refused(Act1(w, Proceed(a, cancel)), a) && Act1(w, Proceed(a, cancel)).attempts[a].pc.Done?
  {
    hide LastInput, TryMove, TryResume;
  }

  /** Steps that leave the ledger alone. */
  lemma {:induction false} LocalStep(w: World, a: nat, pc: Pc, entry: RunStatus, status: RunStatus)
    requires Stands(w, a, pc, entry, status)
    requires match pc
             case CheckAccepted => !status.Accepted?
             case CheckRetrying => !status.Retrying?
             case CheckQueued => !status.Queued?
             case Dispatch => !status.Cancelling? && !status.WaitingApproval? && !status.WaitingInput?
             case Claiming => !entry.Running?
             case Gate => !entry.Starting? && (entry.Running? ==> w.attempts[a].resume.Some?)
             case Launch => !status.Starting?
             case _ => false
    ensures var w' := Act1(w, Proceed(a, false));
            && Stands(w', a, match pc
                             case CheckAccepted => CheckRetrying
                             case CheckRetrying => CheckQueued
                             case CheckQueued => Dispatch
                             case Dispatch => Claiming
                             case Claiming => Gate
                             case Gate => Launch
                             case _ => LaunchCheck, entry, status)
            && w'.db == w.db && w'.run == w.run && w'.attempts[a].resume == w.attempts[a].resume
  {
    hide LastInput, TryMove, TryResume;
  }

  /** Compare-and-sets of an attempt that has the Run to itself. */
  lemma {:induction false} MovingStep(w: World, a: nat, pc: Pc, entry: RunStatus, status: RunStatus)
    requires Stands(w, a, pc, entry, status) && !entry.Running?
    requires match pc
             case CheckAccepted => status.Accepted?
             case CheckRetrying => status.Retrying?
             case CheckQueued => status.Queued?
             case Launch => status.Starting?
             case _ => false
    ensures var w' := Act1(w, Proceed(a, false));
            match pc
            case CheckAccepted => Stands(w', a, CheckRetrying, entry, Queued)
            case CheckRetrying => Stands(w', a, CheckQueued, entry, Queued)
            case CheckQueued => Stands(w', a, Dispatch, entry, Starting)
            case _ => Stands(w', a, LaunchCheck, entry, Running)
  {
    hide Transition;
    TransitionRuns(w.db, w.run, Queued);
    TransitionRuns(w.db, w.run, Starting);
    TransitionRuns(w.db, w.run, Running);
  }

  /** A parked Run is resumed, or the attempt ends. */
  lemma {:induction false} ResumingStep(w: World, a: nat, status: RunStatus)
    requires Stands(w, a, Dispatch, status, status) && (status.WaitingApproval? || status.WaitingInput?)
    ensures var w' := Act1(w, Proceed(a, false));
            if Continuable(w) then Stands(w', a, Claiming, status, Running) else Refused(w', a)
  {
    hide ResumeApprovalStep, ResumeInputStep;
    ResumeMoves(w.db, w.run);
  }

  /** An attempt that found the Run RUNNING: it continues a claimed answer and refuses anything else. */
  lemma {:induction false} ClaimingStep(w: World, a: nat)
    requires Stands(w, a, Claiming, Running, Running) && w.attempts[a].resume.None?
    ensures var w1 := Act1(w, Proceed(a, false));
            w1.run in w1.db.runs && var w2 := Act1(w1, Proceed(a, false));
            if ClaimStands(w) then Stands(w2, a, Launch, Running, Running) && w2.attempts[a].resume.Some? else Refused(w2, a)
  {
    ClaimStandsIff(w);
    hide LastInput, Transition, ClaimStands;
    TransitionRuns(w.db, w.run, RunSucceeded);
  }

  lemma {:induction false} EndingStep(w: World, a: nat, pc: Pc, status: RunStatus)
    requires Stands(w, a, pc, status, status)
    requires (pc.Dispatch? && status.Cancelling?) || (pc.Gate? && status.Starting?)
    ensures Refused(Act1(w, Proceed(a, false)), a)
  {
    hide LastInput, TryMove, TryResume;
  }

  lemma {:induction false} LastStep(w: World, a: nat, entry: RunStatus)
    requires Stands(w, a, LaunchCheck, entry, Running) && (entry.Running? ==> w.attempts[a].resume.Some?)
    ensures InExecutor(Act1(w, Proceed(a, false)), a, entry)
  {
    hide LastInput, TryMove, TryResume;
  }

  lemma {:induction false} StandsInRun(w: World, a: nat, pc: Pc, entry: RunStatus, status: RunStatus)
    requires Stands(w, a, pc, entry, status)
    ensures w.run in w.db.runs && a in w.attempts && Status(w) == status
    ensures !entry.Running? ==> w.attempts[a].resume.None?
  {
  }

  lemma {:induction false} EntryStands(w: World, a: nat)
    requires w.run in w.db.runs && w.holder.None? && a !in w.attempts
    ensures var w0 := Act1(w, Acquire(a));
            && w0.run in w0.db.runs
            && var w1 := Act1(w0, Proceed(a, false));
            && w1.run == w.run && w1.db == w.db
            && (if TerminalRun(Status(w)) then Refused(w1, a)
                else Stands(w1, a, CheckAccepted, Status(w), Status(w)) && w1.attempts[a].resume.None?)
  {
    hide LastInput, TryMove, TryResume;
  }

  /** From the launch on: STARTING or RUNNING leads into the executor. */
  lemma {:induction false} FromLaunch(w: World, a: nat, entry: RunStatus, status: RunStatus)
    requires Stands(w, a, Launch, entry, status) && (if status.Starting? then !entry.Running? else status.Running?)
    requires entry.Running? ==> w.attempts[a].resume.Some?
    ensures InExecutor(Alone(w, a, 2), a, entry)
  {
    StandsInRun(w, a, Launch, entry, status);
    if status.Starting? { MovingStep(w, a, Launch, entry, status); } else { LocalStep(w, a, Launch, entry, status); }
    hide Act1, Stands;
    var w1 := Act1(w, Proceed(a, false));
    StandsInRun(w1, a, LaunchCheck, entry, Running);
    LastStep(w1, a, entry);
    AloneStep(w, a, 2);
    AloneStep(w1, a, 1);
  }

  /** From the claim check on, for an attempt that moved the Run itself. */
  lemma {:induction false} FromClaiming(w: World, a: nat, entry: RunStatus, status: RunStatus)
    requires Stands(w, a, Claiming, entry, status) && !entry.Running? && !entry.Starting? && (status.Starting? || status.Running?)
    ensures InExecutor(Alone(w, a, 4), a, entry)
  {
    hide Act1, Stands;
    StandsInRun(w, a, Claiming, entry, status);
    LocalStep(w, a, Claiming, entry, status);
    var w1 := Act1(w, Proceed(a, false));
    StandsInRun(w1, a, Gate, entry, status);
    LocalStep(w1, a, Gate, entry, status);
    var w2 := Act1(w1, Proceed(a, false));
    FromLaunch(w2, a, entry, status);
    AloneStep(w, a, 4);
    AloneStep(w1, a, 3);
  }

  /** From the QUEUED check on, for a Run that is QUEUED by now. */
  lemma {:induction false} FromQueued(w: World, a: nat, entry: RunStatus)
    requires Stands(w, a, CheckQueued, entry, Queued) && !entry.Running? && !entry.Starting?
    ensures InExecutor(Alone(w, a, 6), a, entry)
  {
    hide Act1, Stands;
    StandsInRun(w, a, CheckQueued, entry, Queued);
    MovingStep(w, a, CheckQueued, entry, Queued);
    var w1 := Act1(w, Proceed(a, false));
    StandsInRun(w1, a, Dispatch, entry, Starting);
    LocalStep(w1, a, Dispatch, entry, Starting);
    var w2 := Act1(w1, Proceed(a, false));
    FromClaiming(w2, a, entry, Starting);
    AloneStep(w, a, 6);
    AloneStep(w1, a, 5);
  }

  /** From the dispatch on, for a Run no check has moved. */
  lemma {:induction false} FromDispatch(w: World, a: nat, status: RunStatus)
    requires Stands(w, a, Dispatch, status, status) && w.attempts[a].resume.None?
    requires !TerminalRun(status) && !status.Accepted? && !status.Retrying? && !status.Queued?
    ensures w.run in w.db.runs && if Continuable(w) then InExecutor(Alone(w, a, 5), a, status) else Ended(Alone(w, a, 5), a)
  {
    StandsInRun(w, a, Dispatch, status, status);
    var w1 := Act1(w, Proceed(a, false));
    AloneStep(w, a, 5);
    if status.WaitingApproval? || status.WaitingInput? {
      ResumingStep(w, a, status);
      hide Act1, Stands, Refused, InExecutor, Continuable;
      if Continuable(w) { FromClaiming(w1, a, status, Running); } else { RefusedStays(w1, a, 4); }
    } else if status.Cancelling? {
      EndingStep(w, a, Dispatch, status);
      hide Act1, Stands, Refused;
      RefusedStays(w1, a, 4);
    } else {
      FromDispatchHeld(w, a, status);
    }
  }

  lemma {:induction false} FromDispatchHeld(w: World, a: nat, status: RunStatus)
    requires Stands(w, a, Dispatch, status, status) && w.attempts[a].resume.None? && (status.Starting? || status.Running?)
    ensures w.run in w.db.runs && if Continuable(w) then InExecutor(Alone(w, a, 5), a, status) else Ended(Alone(w, a, 5), a)
  {
    hide Act1, Stands, ClaimStands, InExecutor, Refused;
    StandsInRun(w, a, Dispatch, status, status);
    LocalStep(w, a, Dispatch, status, status);
    var w1 := Act1(w, Proceed(a, false));
    StandsInRun(w1, a, Claiming, status, status);
    AloneStep(w, a, 5);
    AloneStep(w1, a, 4);
    var w2 := Act1(w1, Proceed(a, false));
    if status.Running? {
      SameClaim(w, w1);
      ClaimingStep(w1, a);
      AloneStep(w2, a, 3);
      var w3 := Act1(w2, Proceed(a, false));
      if ClaimStands(w) { FromLaunch(w3, a, status, status); } else { RefusedStays(w3, a, 2); }
    } else {
      LocalStep(w1, a, Claiming, status, status);
      StandsInRun(w2, a, Gate, status, status);
      EndingStep(w2, a, Gate, status);
      AloneStep(w2, a, 3);
      RefusedStays(Act1(w2, Proceed(a, false)), a, 2);
    }
  }

  lemma {:induction false} SameClaim(w: World, w': World)
    requires w'.db == w.db && w'.run == w.run
    ensures ClaimStands(w') == ClaimStands(w)
    ensures w.run in w.db.runs ==> Continuable(w') == Continuable(w)
  {
    hide LastInput, ResumeApprovalStep, ResumeInputStep;
  }

  /**
   * A delivery that has the Run to itself enters the executor exactly when the Run can be carried
   * on: from ACCEPTED, RETRYING and QUEUED always, from a parked status exactly when the resume
   * commits, from RUNNING exactly with a claimed answer. Otherwise it ends without a prompt.
   */
  lemma {:induction false} AttemptPromptsIff(w: World, a: nat)
    requires w.run in w.db.runs && w.holder.None? && a !in w.attempts
    ensures var w' := Alone(Act1(w, Acquire(a)), a, 9);
            if Continuable(w) then InExecutor(w', a, Status(w)) else Ended(w', a)
  {
    EntryStands(w, a);
    var s := Status(w);
    var w0 := Act1(w, Acquire(a));
    AloneStep(w0, a, 9);
    var w1 := Act1(w0, Proceed(a, false));
    if TerminalRun(s) {
      hide Act1, Stands, Refused;
      RefusedStays(w1, a, 8);
    } else {
      hide Act1, Stands, Refused, InExecutor, ClaimStands, ResumeApprovalStep, ResumeInputStep;
      StandsInRun(w1, a, CheckAccepted, s, s);
      AloneStep(w1, a, 8);
      if s.Accepted? { MovingStep(w1, a, CheckAccepted, s, s); } else { LocalStep(w1, a, CheckAccepted, s, s); }
      var w2 := Act1(w1, Proceed(a, false));
      var s2 := if s.Accepted? then Queued else s;
      StandsInRun(w2, a, CheckRetrying, s, s2);
      AloneStep(w2, a, 7);
      if s.Retrying? { MovingStep(w2, a, CheckRetrying, s, s); } else { LocalStep(w2, a, CheckRetrying, s, s2); }
      var w3 := Act1(w2, Proceed(a, false));
      if s2.Queued? || s.Retrying? {
        FromQueued(w3, a, s);
      } else {
        StandsInRun(w3, a, CheckQueued, s, s);
        AloneStep(w3, a, 6);
        LocalStep(w3, a, CheckQueued, s, s);
        var w4 := Act1(w3, Proceed(a, false));
        SameClaim(w, w4);
        FromDispatch(w4, a, s);
      }
    }
  }

  /** When the holder of the lease dies, the next delivery carries the Run on from what the ledger says. */
  lemma {:induction false} RedeliveryPromptsIff(w: World, a: nat, b: nat)
    requires w.run in w.db.runs && Owns(w, a) && b !in w.attempts
    ensures var w' := Alone(Act1(Act1(w, Release(a)), Acquire(b)), b, 9);
            if Continuable(w) then InExecutor(w', b, Status(w)) else Ended(w', b)
  {
    var freed := Act1(w, Release(a));
    SameClaim(w, freed);
    AttemptPromptsIff(freed, b);
  }

  /** A cancellation seen at a check sends the attempt to settle the Run, and it is prompted in no later state of the history. */
  lemma {:induction false} CancelSeenNeverPrompts(ws: seq<World>, acts: seq<Act>, i: nat, n: nat, a: nat)
    requires Worlds(ws, acts) && i < |acts| && i < n < |ws| && acts[i] == Proceed(a, true) && Owns(ws[i], a)
    requires var t := ws[i].attempts[a];
             || t.pc.CheckAccepted? || t.pc.CheckRetrying? || t.pc.LaunchCheck?
             || (t.pc.CheckQueued? && t.local.Queued?) || (t.pc.Launch? && t.local.Starting?) || Refusing(t)
    ensures a in ws[n].attempts && !ws[n].attempts[a].prompted && (ws[n].attempts[a].pc.Settling? || ws[n].attempts[a].pc.Done?)
    ensures n == i + 1 ==> ws[n].attempts[a].pc.Settling?
    decreases n
  {
    if n == i + 1 {
      WorldsInv(ws, acts, i);
      FairOf(ws[i], a);
      hide LastInput, TryMove, TryResume, LeaseInv;
    } else {
      CancelSeenNeverPrompts(ws, acts, i, n - 1, a);
      StaysRefused(ws[n - 1], acts[n - 1], a);
    }
  }

  /** At the gate, and about to refuse re-entry into a STARTING or RUNNING Run. */
  predicate Refusing(t: Attempt) {
    t.pc.Gate? && (t.entry.Starting? || (t.entry.Running? && t.resume.None?))
  }

  /** An attempt on a CANCELLING Run, and one that comes out of the executor, go on to settle the Run. */
  lemma {:induction false} GoesOnToSettle(w: World, a: nat, cancel: bool)
    requires w.run in w.db.runs && Owns(w, a)
    requires var t := w.attempts[a]; t.pc.Executing? || ((t.pc.Dispatch? || Refusing(t)) && t.local.Cancelling?)
    ensures Act1(w, Proceed(a, cancel)).attempts[a].pc.Settling? && Act1(w, Proceed(a, cancel)).db == w.db
  {
    hide LastInput, TryMove, TryResume;
  }

  /** Settling moves the Run exactly along an edge from the status it is in; nobody else can settle it. */
  lemma {:induction false} SettleMovesIff(w: World, a: nat, from: RunStatus, to: RunStatus)
    requires w.run in w.db.runs
    ensures var w' := Act1(w, Settle(a, from, to));
            && w'.run in w'.db.runs && w'.attempts == w.attempts && w'.holder == w.holder
            && Status(w') == if Owns(w, a) && w.attempts[a].pc.Settling? && Status(w) == from && RunEdge(from, to)
                                && !from.WaitingApproval? && !from.WaitingInput? then to else Status(w)
  {
    hide Transition;
    TransitionRuns(w.db, w.run, to);
  }

  lemma {:induction false} StaysRefused(w: World, act: Act, a: nat)
    requires w.run in w.db.runs && a in w.attempts && !w.attempts[a].prompted && (w.attempts[a].pc.Settling? || w.attempts[a].pc.Done?)
    ensures var w' := Act1(w, act);
            a in w'.attempts && !w'.attempts[a].prompted && (w'.attempts[a].pc.Settling? || w'.attempts[a].pc.Done?)
  {
    if act.Proceed? && act.a in w.attempts {
      OthersStand(w, act.a, act.cancel, a);
      RefusedMove(w, a, act.cancel);
    }
    hide Apply, Unwind, Move;
  }

  lemma {:induction false} RefusedMove(w: World, a: nat, cancel: bool)
    requires w.run in w.db.runs && a in w.attempts && !w.attempts[a].prompted && (w.attempts[a].pc.Settling? || w.attempts[a].pc.Done?)
    ensures var t := Move(w, a, cancel).attempts[a]; !t.prompted && t.pc.Done?
  {
    hide LastInput, TryMove, TryResume;
  }

  /**
   * An attempt comes to settle the Run only out of the executor, after a cancellation it saw at one
   * of its checks, or on a Run that it found CANCELLING; a refused attempt leaves the Run as it is.
   */
  lemma {:induction false} SettlesOnlyForAReason(ws: seq<World>, acts: seq<Act>, n: nat, a: nat)
    requires Worlds(ws, acts) && n < |ws| && a in ws[n].attempts
    ensures ws[n].attempts[a].pc.Executing? ==> ws[n].attempts[a].prompted
    ensures ws[n].attempts[a].pc.Settling? ==>
              ws[n].attempts[a].prompted || ws[n].attempts[a].local.Cancelling? || exists i :: 0 <= i < n && acts[i] == Proceed(a, true)
  {
    if n > 0 {
      var w, act := ws[n - 1], acts[n - 1];
      if a in w.attempts { SettlesOnlyForAReason(ws, acts, n - 1, a); }
      SettlingStep(w, act, a);
      hide Act1;
      if i :| 0 <= i < n - 1 && acts[i] == Proceed(a, true) { assert acts[i] == Proceed(a, true); }
    }
  }

  lemma {:induction false} SettlingMove(w: World, a: nat, cancel: bool)
    requires w.run in w.db.runs && a in w.attempts
    ensures var t, t' := w.attempts[a], Move(w, a, cancel).attempts[a];
            && (t.prompted ==> t'.prompted) && (t'.pc.Executing? ==> t'.prompted || t.pc.Executing?)
            && (t'.pc.Settling? ==> cancel || t.pc.Executing? || t'.local.Cancelling?)
  {
    hide LastInput, CasStep, ResumeApprovalStep, ResumeInputStep;
  }

  lemma {:induction false} SettlingStep(w: World, act: Act, a: nat)
    requires w.run in w.db.runs && a in Act1(w, act).attempts
    ensures var t' := Act1(w, act).attempts[a];
            && (a !in w.attempts ==> t'.pc.Holding?)
            && (a in w.attempts ==>
                  var t := w.attempts[a];
                  && (t.prompted ==> t'.prompted)
                  && (t'.pc.Executing? ==> t'.prompted || t.pc.Executing?)
                  && (t'.pc.Settling? ==> act == Proceed(a, true) || t.pc.Executing? || t'.local.Cancelling? || (t.pc.Settling? && t' == t)))
  {
    if act.Proceed? && act.a in w.attempts {
      SettlingMove(w, act.a, act.cancel);
      OthersStand(w, act.a, act.cancel, a);
    }
    hide Apply, Unwind, Move;
  }

  lemma {:induction false} OthersStand(w: World, a: nat, cancel: bool, b: nat)
    requires w.run in w.db.runs && a in w.attempts
    ensures Move(w, a, cancel).attempts.Keys == w.attempts.Keys
    ensures b in w.attempts && b != a ==> Move(w, a, cancel).attempts[b] == w.attempts[b]
  {
    hide LastInput, CasStep, ResumeApprovalStep, ResumeInputStep;
  }

  /** Recovery without a lease closes a Run exactly when it is STARTING and nobody holds it. */
  lemma {:induction false} RecoveryCancelIff(w: World)
    requires w.run in w.db.runs
    ensures var w' := Act1(w, RecoveryCancel);
            && w'.run in w'.db.runs && w'.attempts == w.attempts && w'.holder == w.holder
            && Status(w') == (if w.holder.None? && Status(w).Starting? then RunCancelled else Status(w))
  {
    hide Unwind;
    UnwindRuns(w.db, w.run);
  }
}
