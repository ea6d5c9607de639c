/** The promises of the governance ledger, over every history of attempted transactions. */
module LedgerGuarantees {
  import opened Statuses
  import opened LedgerState
  import opened LedgerSteps
  import opened LedgerInvariant
  import opened LedgerSafety
  import opened LedgerTheorems

  lemma {:induction false} Monotone(hist: seq<Db>, ops: seq<Op>, i: nat, j: nat)
    requires History(hist, ops) && i <= j < |hist|
    ensures Advance(hist[i], hist[j])
    decreases j
  {
    hide Advance, Apply;
    if i == j {
      SelfAdvance(hist[i]);
    } else {
      Monotone(hist, ops, i, j - 1);
      StepAdvance(hist[j - 1], ops[j - 1]);
      AdvanceTransitive(hist[i], hist[j - 1], hist[j]);
    }
  }

  // ---------------------------------------------------------------- what closing a Run may do

  /** Open rows may be closed; nothing starts, nothing is decided, nothing is answered. */
  ghost predicate OnlyCloses(db: Db, db': Db) {
    && (forall te :: te in db'.tools ==> te in db.tools)
    && (forall te :: te in db'.tools && db'.tools[te] != db.tools[te] ==>
          db'.tools[te].status.ToolUnknown? || db'.tools[te].status.ToolCancelled?)
    && |db'.approvals| == |db.approvals|
    && (forall i :: 0 <= i < |db.approvals| && db'.approvals[i] != db.approvals[i] ==> db'.approvals[i].status.ApprovalCancelled?)
    && |db'.interactions| == |db.interactions|
    && (forall i :: 0 <= i < |db.interactions| && db'.interactions[i] != db.interactions[i] ==> db'.interactions[i].status.InputCancelled?)
  }

  lemma {:induction false} OnlyClosesTransitive(a: Db, b: Db, c: Db)
    requires OnlyCloses(a, b) && OnlyCloses(b, c)
    ensures OnlyCloses(a, c)
  {
  }

  lemma {:induction false} CloseToolsCloses(db: Db, run: RunId, order: seq<TeId>)
    ensures OnlyCloses(db, CloseTools(db, run, order))
    decreases |order|
  {
    if order != [] {
      var te := order[0];
      var db1 :=
        if te.run != run || te !in db.tools || TerminalTool(db.tools[te].status) then db
        else FinishTool(db, te, if db.tools[te].status.ToolRunning? then ToolUnknown else ToolCancelled, Some(Marker(2)), None);
      CloseToolsCloses(db1, run, order[1..]);
      OnlyClosesTransitive(db, db1, CloseTools(db1, run, order[1..]));
    }
  }

  lemma {:induction false} CancelToolsCloses(db: Db, run: RunId, order: seq<TeId>)
    ensures OnlyCloses(db, CancelTools(db, run, order))
    decreases |order|
  {
    if order != [] {
      var te := order[0];
      var db1 :=
        if te.run != run || te !in db.tools || TerminalTool(db.tools[te].status) then db
        else FinishTool(db, te, ToolCancelled, Some(Marker(3)), None);
      CancelToolsCloses(db1, run, order[1..]);
      OnlyClosesTransitive(db, db1, CancelTools(db1, run, order[1..]));
    }
  }

  lemma {:induction false} CancelApprovalsCloses(db: Db, run: RunId, i: nat)
    ensures OnlyCloses(db, CancelApprovals(db, run, i))
    decreases |db.approvals| - i
  {
    if i < |db.approvals| {
      if db.approvals[i].te.run == run && db.approvals[i].status.ApprovalPending? {
        var db1 := DecideApproval(db, i, ApprovalCancelled);
        CancelApprovalsCloses(db1, run, i + 1);
        OnlyClosesTransitive(db, db1, CancelApprovals(db1, run, i + 1));
      } else {
        CancelApprovalsCloses(db, run, i + 1);
      }
    }
  }

  lemma {:induction false} TransitionCloses(db: Db, run: RunId, to: RunStatus)
    requires run in db.runs
    ensures OnlyCloses(db, Transition(db, run, to))
  {
    hide CloseTools;
    var moved := MoveRun(db, run, to, None);
    CloseToolsCloses(moved, run, moved.toolOrder);
    OnlyClosesTransitive(db, moved, CloseTools(moved, run, moved.toolOrder));
  }

  lemma {:induction false} UnwindCloses(db: Db, run: RunId)
    requires run in db.runs
    ensures OnlyCloses(db, Unwind(db, run))
  {
    hide Transition, CloseTools;
    var db1 := MoveRun(MoveRun(db, run, Running, None), run, Cancelling, None);
    TransitionCloses(db1, run, RunCancelled);
    OnlyClosesTransitive(db, db1, Transition(db1, run, RunCancelled));
  }

  lemma {:induction false} WithdrawCloses(db: Db, pending: Option<nat>, te: TeId)
    requires te in db.tools
    requires pending.Some? ==> pending.value < |db.interactions|
    ensures var db1 := if pending.Some? then WithdrawInput(db, pending.value) else db;
            OnlyCloses(db, if TerminalTool(db1.tools[te].status) then db1 else FinishTool(db1, te, ToolCancelled, Some(Marker(4)), None))
  {
  }

  lemma {:induction false} CancelParkedApprovalCloses(db: Db, run: RunId)
    ensures var tx := CancelParkedApprovalStep(db, run); tx.Commit? ==> OnlyCloses(db, tx.db)
  {
    hide OnlyCloses, CloseTools, CancelTools, CancelApprovals, Unwind;
    if CancelParkedApprovalStep(db, run).Commit? {
      var db1 := CancelApprovals(db, run, 0);
      var db2 := CancelTools(db1, run, db.toolOrder);
      CancelApprovalsCloses(db, run, 0);
      CancelToolsCloses(db1, run, db.toolOrder);
      OnlyClosesTransitive(db, db1, db2);
      UnwindCloses(db2, run);
      OnlyClosesTransitive(db, db2, Unwind(db2, run));
    }
  }

  lemma {:induction false} CancelParkedInputCloses(db: Db, run: RunId)
    ensures var tx := CancelParkedInputStep(db, run); tx.Commit? ==> OnlyCloses(db, tx.db)
  {
    hide OnlyCloses, CloseTools, Unwind, LastInput;
    if CancelParkedInputStep(db, run).Commit? {
      var pending := LastInput(db.interactions, run, IsPending);
      var chosen := if pending.Some? then pending else LastInput(db.interactions, run, IsSettled);
      var te := db.interactions[chosen.value].te;
      var db1 := if pending.Some? then WithdrawInput(db, pending.value) else db;
      var db2 := if TerminalTool(db1.tools[te].status) then db1 else FinishTool(db1, te, ToolCancelled, Some(Marker(4)), None);
      WithdrawCloses(db, pending, te);
      UnwindCloses(db2, run);
      OnlyClosesTransitive(db, db2, Unwind(db2, run));
    }
  }

  predicate Closing(op: Op) {
    op.Cas? || op.CancelParkedApproval? || op.CancelParkedInput?
  }

  lemma {:induction false} ClosingCloses(db: Db, op: Op)
    requires Closing(op)
    ensures OnlyCloses(db, Apply(db, op))
  {
    hide Transition, CancelParkedApprovalStep, CancelParkedInputStep;
    match op
    case Cas(r, _, t) => if r in db.runs { TransitionCloses(db, r, t); }
    case CancelParkedApproval(r) => CancelParkedApprovalCloses(db, r);
    case CancelParkedInput(r) => CancelParkedInputCloses(db, r);
  }

  // ---------------------------------------------------------------- an approved call starts once

  predicate Waiting(db: Db, te: TeId) {
    te in db.tools && db.tools[te].status.ToolWaiting?
  }

  predicate Runs(db: Db, te: TeId) {
    te in db.tools && db.tools[te].status.ToolRunning?
  }

  predicate Rejects(db: Db, a: nat) {
    a < |db.approvals| && db.approvals[a].status.Rejected?
  }

  /** This start presents the approval a human granted for exactly this recorded call. */
  predicate PresentsApproval(db: Db, op: Op, te: TeId) {
    && op.Start? && !op.preflight
    && te == Te(op.ctx.run, op.call) && te in db.tools && Fenced(db, op.ctx)
    && op.approval.Some? && op.approval.value < |db.approvals|
    && db.approvals[op.approval.value] == Approval(te, Approved)
    && op.sig == db.tools[te].sig
    && (if op.args.Some? then op.args.value else EMPTY_ARGS) == db.tools[te].args
  }

  /** The dispatch binding changes one row's binding and no status. */
  lemma {:induction false} BindKeepsStatus(db: Db, ctx: Ctx, te: TeId, request: Fp, x: TeId)
    requires te in db.tools && x in db.tools
    ensures var tx := BindDispatched(db, ctx, te, request);
            tx.Commit? ==> x in tx.db.tools && tx.db.tools[x].status == db.tools[x].status
  {
  }

  lemma {:induction false} StartLeavesParking(db: Db, op: Op, te: TeId)
    requires op.Start? && Waiting(db, te) && Runs(Apply(db, op), te)
    ensures PresentsApproval(db, op, te)
  {
    hide BindDispatched;
    var te', given := Te(op.ctx.run, op.call), if op.args.Some? then op.args.value else EMPTY_ARGS;
    var g := GetOrCreate(db, op.ctx, op.call, op.sig, given, None, true);
    if te' in db.tools {
      BindKeepsStatus(db, op.ctx, te', given, te);
      BindKeepsStatus(StartTool(db, te', true, By(op.ctx)), op.ctx, te', given, te);
    } else if g.Got? {
      BindKeepsStatus(StartTool(g.db, te', true, By(op.ctx)), op.ctx, te', given, te);
    }
  }

  lemma {:induction false} LocateKeepsParking(db: Db, ctx: Ctx, call: CallId, sig: Signature, args: Fp, policy: Option<Fp>, pending: bool, claimed: Option<TeId>, te: TeId)
    requires Waiting(db, te)
    ensures var g := GetOrCreate(db, ctx, call, sig, args, policy, pending); g.Got? ==> Waiting(g.db, te)
    ensures var g := LocateTool(db, ctx, call, sig, args, claimed); g.Got? ==> Waiting(g.db, te)
    ensures var g := LocateInputTool(db, ctx, call, sig, args, claimed); g.Got? ==> Waiting(g.db, te)
  {
  }

  /** Policy, parking and input requests leave a parked call parked. */
  lemma {:induction false} PolicyKeepsParking(db: Db, op: Op, te: TeId)
    requires op.Policy? && Waiting(db, te)
    ensures Waiting(Apply(db, op), te)
  {
    hide GetOrCreate;
    LocateKeepsParking(db, op.ctx, op.call, op.sig, op.given, Some(op.pf), false, None, te);
  }

  lemma {:induction false} RequestKeepsParking(db: Db, op: Op, te: TeId)
    requires (op.RequestApproval? || op.RequestInput?) && Waiting(db, te)
    ensures Waiting(Apply(db, op), te)
  {
    hide LocateTool, LocateInputTool, ParkForApproval, ParkForInput;
    LocateKeepsParking(db, op.ctx, op.call, op.sig, op.given, None, false, op.claimed, te);
    if Step(db, op).Commit? {
      var here := Te(op.ctx.run, op.call);
      if op.RequestApproval? {
        var db1 := LocateTool(db, op.ctx, op.call, op.sig, op.given, op.claimed).db;
        ParkKeepsParking(db1, op.ctx, here, EMPTY_ARGS, db.runs[op.ctx.run].status, te);
      } else {
        var db1 := LocateInputTool(db, op.ctx, op.call, op.sig, op.given, op.claimed).db;
        ParkKeepsParking(db1, op.ctx, here, op.request, db.runs[op.ctx.run].status, te);
      }
    }
  }

  lemma {:induction false} ParkKeepsParking(db: Db, ctx: Ctx, here: TeId, request: Fp, run: RunStatus, te: TeId)
    requires here in db.tools && Waiting(db, te)
    ensures var tx := ParkForApproval(db, ctx, here, run); tx.Commit? ==> Waiting(tx.db, te)
    ensures var tx := ParkForInput(db, ctx, here, request, run); tx.Commit? ==> Waiting(tx.db, te)
  {
    hide ApprovalFor, InputFor, HasPendingInput;
  }

  lemma {:induction false} EndingStartsNothing(db: Db, op: Op, te: TeId)
    requires (op.End? || op.MarkUnknown?) && Waiting(db, te)
    ensures !Runs(Apply(db, op), te)
  {
  }

  lemma {:induction false} OtherStepsStartNothing(db: Db, op: Op, te: TeId)
    requires !op.Start? && !op.Policy? && !op.RequestApproval? && !op.RequestInput? && !op.End? && !op.MarkUnknown? && !Closing(op)
    requires Waiting(db, te)
    ensures !Runs(Apply(db, op), te)
  {
    hide LastInput, LastApproval, HasPendingInput, HasPendingApproval;
  }

  lemma {:induction false} OnlyApprovedStartLeavesParking(db: Db, op: Op, te: TeId)
    requires Waiting(db, te) && Runs(Apply(db, op), te)
    ensures PresentsApproval(db, op, te)
  {
    hide Apply;
    if Closing(op) { ClosingCloses(db, op); }
    else if op.Start? { StartLeavesParking(db, op, te); }
    else if op.Policy? { PolicyKeepsParking(db, op, te); }
    else if op.RequestApproval? || op.RequestInput? { RequestKeepsParking(db, op, te); }
    else if op.End? || op.MarkUnknown? { EndingStartsNothing(db, op, te); }
    else { OtherStepsStartNothing(db, op, te); }
  }

  /** The write-once dispatch binding of a sandbox call accepts this start. */
  predicate Bindable(db: Db, op: Op, te: TeId)
    requires op.Start? && te in db.tools
  {
    db.tools[te].sig.sandbox && op.ctx.sandboxed ==>
      && te.run in db.runs && db.runs[te.run] == Run(op.ctx.session, Running)
      && (db.tools[te].binding.None? || db.tools[te].binding == Some(Binding(if op.args.Some? then op.args.value else EMPTY_ARGS, op.ctx.fence)))
  }

  /** Exactly which steps move a parked call into RUNNING. */
  lemma {:induction false} ParkedCallStartsIff(db: Db, op: Op, te: TeId)
    requires Waiting(db, te)
    ensures Runs(Apply(db, op), te) <==> PresentsApproval(db, op, te) && Bindable(db, op, te)
  {
    hide Apply;
    if Runs(Apply(db, op), te) {
      OnlyApprovedStartLeavesParking(db, op, te);
      BindableIfRuns(db, op, te);
    } else if PresentsApproval(db, op, te) && Bindable(db, op, te) {
      RunsIfBindable(db, op, te);
    }
  }

  lemma {:induction false} BindableIfRuns(db: Db, op: Op, te: TeId)
    requires Waiting(db, te) && PresentsApproval(db, op, te) && Runs(Apply(db, op), te)
    ensures Bindable(db, op, te)
  {
  }

  lemma {:induction false} RunsIfBindable(db: Db, op: Op, te: TeId)
    requires Waiting(db, te) && PresentsApproval(db, op, te) && Bindable(db, op, te)
    ensures Runs(Apply(db, op), te)
  {
  }

  /** A call parked for approval enters RUNNING at most once, and only on its own granted approval. */
  lemma {:induction false} ParkedCallStartsOnce(hist: seq<Db>, ops: seq<Op>, te: TeId, i: nat, j: nat)
    requires History(hist, ops) && i < |ops| && j < |ops|
    requires Waiting(hist[i], te) && Runs(hist[i + 1], te)
    requires Waiting(hist[j], te) && Runs(hist[j + 1], te)
    ensures i == j
    ensures PresentsApproval(hist[i], ops[i], te)
  {
    hide Apply;
    OnlyApprovedStartLeavesParking(hist[i], ops[i], te);
    if i < j { Monotone(hist, ops, i + 1, j); }
    if j < i { Monotone(hist, ops, j + 1, i); }
  }

  /** Racing replays: of all starts presenting an approval for a call, one commits. */
  lemma {:induction false} ApprovalConsumedOnce(hist: seq<Db>, ops: seq<Op>, i: nat, j: nat)
    requires History(hist, ops) && i < |ops| && j < |ops|
    requires ops[i].Start? && ops[i].approval.Some? && !ops[i].preflight && Step(hist[i], ops[i]).Commit?
    requires ops[j].Start? && ops[j].approval.Some? && !ops[j].preflight && Step(hist[j], ops[j]).Commit?
    requires ops[i].ctx.run == ops[j].ctx.run && ops[i].call == ops[j].call
    ensures i == j
  {
    ConsumedStarts(hist[i], ops[i]);
    ConsumedStarts(hist[j], ops[j]);
    if i < j { Monotone(hist, ops, i + 1, j); }
    if j < i { Monotone(hist, ops, j + 1, i); }
  }

  /**
   * Exactly when a start that presents an approval commits. On a parked row the approval must be
   * granted for that call; on a PROPOSED row it is not looked at.
   */
  lemma {:induction false} PresentingStartCommitsIff(db: Db, op: Op)
    requires op.Start? && op.approval.Some? && !op.preflight
    ensures var te, given := Te(op.ctx.run, op.call), if op.args.Some? then op.args.value else EMPTY_ARGS;
            Step(db, op).Commit? <==>
              && Fenced(db, op.ctx) && te in db.tools && db.tools[te].sig == op.sig && db.tools[te].args == given
              && Bindable(db, op, te)
              && (|| db.tools[te].status.Proposed?
                  || (db.tools[te].status.ToolWaiting? && op.approval.value < |db.approvals| && db.approvals[op.approval.value] == Approval(te, Approved)))
  {
  }

  /** In every history, a committed start that presents an approval rests on a grant exactly when the row was parked. */
  lemma {:induction false} PresentedApprovalCountsIffParked(hist: seq<Db>, ops: seq<Op>, i: nat)
    requires History(hist, ops) && i < |ops| && ops[i].Start? && ops[i].approval.Some? && !ops[i].preflight && Step(hist[i], ops[i]).Commit?
    ensures var te, a := Te(ops[i].ctx.run, ops[i].call), ops[i].approval.value;
            (a < |hist[i].approvals| && hist[i].approvals[a] == Approval(te, Approved)) <==> Waiting(hist[i], te)
  {
    hide Apply, Local, ParkedRuns;
    HistoryInv(hist, ops, i);
    PresentingStartCommitsIff(hist[i], ops[i]);
    hide Step;
  }

  const EXAMPLE_CTX := Ctx(0, 0, 0, false)
  const EXAMPLE_SIG := Signature(1, false)

  /** A reachable start that names an approval which does not exist, on a PROPOSED row, and commits. */
  lemma {:induction false} UncheckedApprovalOnProposedRow() returns (hist: seq<Db>, ops: seq<Op>)
    ensures History(hist, ops) && |ops| == 4
    ensures ops[3] == Start(EXAMPLE_CTX, 0, EXAMPLE_SIG, Some(Json(1)), Some(0), false) && hist[3].approvals == []
    ensures Te(0, 0) in hist[3].tools && hist[3].tools[Te(0, 0)].status.Proposed? && Runs(hist[4], Te(0, 0))
  {
    var row := Tool(EXAMPLE_SIG, Json(1), Proposed, Some(Json(2)), false, None, None);
    var h1 := EMPTY.(sessions := map[0 := Session(0, true)]);
    var h2 := Emit(h1.(runs := map[0 := Run(0, Accepted)]), RunCreated(0), None);
    var h3 := Emit(AddTool(h2, Te(0, 0), row), PolicyAudited(Te(0, 0)), By(EXAMPLE_CTX));
    ops := [NewSession(0), NewRun(0, 0), Policy(EXAMPLE_CTX, 0, EXAMPLE_SIG, Json(1), RequireApproval, Json(2)), Start(EXAMPLE_CTX, 0, EXAMPLE_SIG, Some(Json(1)), Some(0), false)];
    assert Apply(EMPTY, ops[0]) == h1;
    assert Apply(h1, ops[1]) == h2;
    assert Apply(h2, ops[2]) == h3;
    hist := [EMPTY, h1, h2, h3, Apply(h3, ops[3])];
    ConsumedOrStarted(h3, ops[3]);
  }

  lemma {:induction false} ConsumedOrStarted(db: Db, op: Op)
    requires op.Start? && op.approval.Some? && !op.preflight && Te(op.ctx.run, op.call) in db.tools
    requires Fenced(db, op.ctx) && Bindable(db, op, Te(op.ctx.run, op.call)) && db.tools[Te(op.ctx.run, op.call)].status.Proposed?
    requires db.tools[Te(op.ctx.run, op.call)].sig == op.sig
    requires db.tools[Te(op.ctx.run, op.call)].args == if op.args.Some? then op.args.value else EMPTY_ARGS
    ensures Runs(Apply(db, op), Te(op.ctx.run, op.call))
  {
    PresentingStartCommitsIff(db, op);
    ConsumedStarts(db, op);
  }

  lemma {:induction false} ConsumedStarts(db: Db, op: Op)
    requires op.Start? && op.approval.Some? && !op.preflight && Step(db, op).Commit?
    ensures var te := Te(op.ctx.run, op.call);
            te in db.tools && ToolRank(db.tools[te].status) < 2 && Runs(Apply(db, op), te)
  {
  }

  lemma {:induction false} LocateApprovals(db: Db, ctx: Ctx, call: CallId, sig: Signature, args: Fp, policy: Option<Fp>, pending: bool, claimed: Option<TeId>)
    ensures var g := GetOrCreate(db, ctx, call, sig, args, policy, pending);
            g.Got? ==> g.db.approvals == db.approvals && g.db.interactions == db.interactions
    ensures var g := LocateTool(db, ctx, call, sig, args, claimed); g.Got? ==> g.db.approvals == db.approvals && g.db.interactions == db.interactions
    ensures var g := LocateInputTool(db, ctx, call, sig, args, claimed); g.Got? ==> g.db.approvals == db.approvals && g.db.interactions == db.interactions
  {
  }

  lemma {:induction false} RequestApprovalFrame(db: Db, op: Op)
    requires op.RequestApproval?
    ensures var db' := Apply(db, op);
            db'.approvals == db.approvals || db'.approvals == db.approvals + [Approval(Te(op.ctx.run, op.call), ApprovalPending)]
  {
    hide ApprovalFor, LocateTool;
    LocateApprovals(db, op.ctx, op.call, op.sig, op.given, None, false, op.claimed);
  }

  lemma {:induction false} LaunchFrame(db: Db, ctx: Ctx, te: TeId, given: Fp, approval: Option<nat>)
    requires te in db.tools
    ensures var tx := Launch(db, ctx, te, given, approval);
            tx.Commit? ==> tx.db.approvals == db.approvals && tx.db.interactions == db.interactions && tx.db.runs == db.runs
  {
  }

  lemma {:induction false} FinishFrame(db: Db, ctx: Ctx, te: TeId, to: ToolStatus, result: Option<Fp>, artifact: bool)
    requires te in db.tools
    ensures var tx := FinishCall(db, ctx, te, to, result, artifact);
            tx.Commit? ==> tx.db.approvals == db.approvals && tx.db.interactions == db.interactions && tx.db.runs == db.runs
  {
  }

  /** Starting and ending calls touches no question and no Run. */
  lemma {:induction false} CallFrame(db: Db, op: Op)
    requires op.Start? || op.End? || op.MarkUnknown?
    ensures Apply(db, op).approvals == db.approvals && Apply(db, op).interactions == db.interactions && Apply(db, op).runs == db.runs
  {
    hide GetOrCreate, Launch, FinishCall;
    if op.MarkUnknown? { return; }
    var te := Te(op.ctx.run, op.call);
    var given := if op.Start? && op.args.Some? then op.args.value else EMPTY_ARGS;
    var g := if te in db.tools then Got(db, false, false) else GetOrCreate(db, op.ctx, op.call, op.sig, given, None, op.Start?);
    GetOrCreateRow(db, op.ctx, op.call, op.sig, given, None, op.Start?);
    if g.Got? {
      if op.Start? { LaunchFrame(g.db, op.ctx, te, given, if te in db.tools then op.approval else None); }
      else { FinishFrame(g.db, op.ctx, te, if op.isError then ToolFailed else ToolSucceeded, op.result, op.artifact); }
    }
  }

  lemma {:induction false} PolicyFrame(db: Db, op: Op)
    requires op.Policy?
    ensures Apply(db, op).approvals == db.approvals && Apply(db, op).interactions == db.interactions
  {
    hide GetOrCreate, ReplayAllowed;
    LocateApprovals(db, op.ctx, op.call, op.sig, op.given, Some(op.pf), false, None);
  }

  /** Approvals appear pending and are settled by decisions and parked cancels alone. */
  lemma {:induction false} ApprovalFrame(db: Db, op: Op)
    requires !op.Decide? && !Closing(op) && !op.RequestApproval?
    ensures Apply(db, op).approvals == db.approvals
  {
    if op.Start? || op.End? || op.MarkUnknown? { CallFrame(db, op); }
    else if op.Policy? { PolicyFrame(db, op); }
    else {
      hide InputFor, HasPendingInput, LastInput, LastApproval, LocateInputTool;
      if op.RequestInput? { LocateApprovals(db, op.ctx, op.call, op.sig, op.given, None, false, op.claimed); }
    }
  }

  lemma {:induction false} RejectionComesFromParking(db: Db, op: Op, a: nat)
    requires !Rejects(db, a) && Rejects(Apply(db, op), a)
    ensures a < |db.approvals| && Waiting(db, db.approvals[a].te)
  {
    if op.Decide? { return; }
    hide Apply;
    if Closing(op) { ClosingCloses(db, op); }
    else if op.RequestApproval? { RequestApprovalFrame(db, op); }
    else { ApprovalFrame(db, op); }
  }

  /** The step that rejected an approval. */
  lemma {:induction false} FirstRejection(hist: seq<Db>, ops: seq<Op>, a: nat, j: nat) returns (k: nat)
    requires History(hist, ops) && j < |hist| && Rejects(hist[j], a)
    ensures k < j && !Rejects(hist[k], a) && Rejects(hist[k + 1], a)
  {
    hide Apply;
    if Rejects(hist[j - 1], a) { k := FirstRejection(hist, ops, a, j - 1); } else { k := j - 1; }
  }

  /** A call whose approval is ever rejected is in RUNNING in no state of the history. */
  lemma {:induction false} RejectedCallNeverRuns(hist: seq<Db>, ops: seq<Op>, a: nat, j: nat, n: nat)
    requires History(hist, ops) && j < |hist| && n < |hist| && Rejects(hist[j], a)
    ensures !Runs(hist[n], hist[j].approvals[a].te)
  {
    hide Apply, Local, ParkedRuns;
    var k := FirstRejection(hist, ops, a, j);
    RejectionComesFromParking(hist[k], ops[k], a);
    Monotone(hist, ops, k, j);
    if n <= k {
      Monotone(hist, ops, n, k);
    } else {
      HistoryInv(hist, ops, k + 1);
      Monotone(hist, ops, k, k + 1);
      Monotone(hist, ops, k + 1, n);
    }
  }

  // ---------------------------------------------------------------- decisions and answers are final

  /** Verdicts, answers and results are final; a call's identity, policy and dispatch binding are written once. */
  lemma {:induction false} VerdictsAreFinal(hist: seq<Db>, ops: seq<Op>, i: nat, j: nat, n: nat)
    requires History(hist, ops) && i <= j < |hist|
    ensures n < |hist[i].approvals| && !hist[i].approvals[n].status.ApprovalPending? ==>
              n < |hist[j].approvals| && hist[j].approvals[n] == hist[i].approvals[n]
    ensures n < |hist[i].interactions| && hist[i].interactions[n].status.InputResolved? ==>
              n < |hist[j].interactions| && hist[j].interactions[n].response == hist[i].interactions[n].response
    ensures forall te :: te in hist[i].tools && TerminalTool(hist[i].tools[te].status) ==>
              te in hist[j].tools && hist[j].tools[te].status == hist[i].tools[te].status && hist[j].tools[te].result == hist[i].tools[te].result
    ensures forall te :: te in hist[i].tools ==>
              && te in hist[j].tools && hist[j].tools[te].sig == hist[i].tools[te].sig && hist[j].tools[te].args == hist[i].tools[te].args
              && (hist[i].tools[te].binding.Some? ==> hist[j].tools[te].binding == hist[i].tools[te].binding)
              && (hist[i].tools[te].policy.Some? ==> hist[j].tools[te].policy == hist[i].tools[te].policy)
  {
    hide Apply;
    Monotone(hist, ops, i, j);
    if n < |hist[i].approvals| { assert ApprovalAdvance(hist[i].approvals[n], hist[j].approvals[n]); }
    if n < |hist[i].interactions| { assert InputAdvance(hist[i].interactions[n], hist[j].interactions[n]); }
  }

  predicate Answered(db: Db, i: nat) {
    i < |db.interactions| && db.interactions[i].status.InputResolved?
  }

  predicate Succeeded(db: Db, te: TeId) {
    te in db.tools && db.tools[te].status.ToolSucceeded?
  }

  /** The tool's result is the answer the interaction stores. */
  predicate CarriesAnswer(db: Db, i: nat)
    requires i < |db.interactions|
  {
    && Succeeded(db, db.interactions[i].te) && db.interactions[i].response.Some?
    && db.tools[db.interactions[i].te].result == Some(AnswerOf(i, db.interactions[i].response.value))
  }

  lemma {:induction false} RequestInputFrame(db: Db, op: Op)
    requires op.RequestInput?
    ensures var db' := Apply(db, op);
            db'.interactions == db.interactions
            || db'.interactions == db.interactions + [Interaction(Te(op.ctx.run, op.call), op.request, InputPending, None, NoPhase)]
  {
    hide InputFor, LocateInputTool, HasPendingInput;
    LocateApprovals(db, op.ctx, op.call, op.sig, op.given, None, false, op.claimed);
  }

  lemma {:induction false} RecorderInputFrame(db: Db, op: Op)
    requires op.Policy? || op.RequestApproval? || op.Start? || op.End? || op.MarkUnknown? || op.Note?
    ensures Apply(db, op).interactions == db.interactions
  {
    if op.Start? || op.End? || op.MarkUnknown? { CallFrame(db, op); }
    else if op.Policy? { PolicyFrame(db, op); }
    else {
      hide FindApproval, ApprovalFor, LocateTool;
      if op.RequestApproval? { LocateApprovals(db, op.ctx, op.call, op.sig, op.given, None, false, op.claimed); }
    }
  }

  /** Interactions appear pending and are answered by responses alone. */
  lemma {:induction false} InputFrame(db: Db, op: Op, i: nat)
    requires !op.Respond? && !Closing(op) && !op.RequestInput? && Answered(Apply(db, op), i)
    ensures Answered(db, i)
  {
    if op.Policy? || op.RequestApproval? || op.Start? || op.End? || op.MarkUnknown? || op.Note? {
      hide Apply;
      RecorderInputFrame(db, op);
    } else {
      hide HasPendingInput, HasPendingApproval, LastInput, LastApproval;
    }
  }

  lemma {:induction false} AnswerCompletesTool(db: Db, op: Op, i: nat)
    requires !Answered(db, i) && Answered(Apply(db, op), i)
    ensures CarriesAnswer(Apply(db, op), i)
  {
    if op.Respond? { return; }
    hide Apply;
    if Closing(op) { ClosingCloses(db, op); }
    else if op.RequestInput? { RequestInputFrame(db, op); }
    else { InputFrame(db, op, i); }
  }

  /** In every state the tool of an answered interaction has SUCCEEDED with exactly that answer. */
  lemma {:induction false} AnsweredToolSucceeded(hist: seq<Db>, ops: seq<Op>, n: nat, i: nat)
    requires History(hist, ops) && n < |hist| && Answered(hist[n], i)
    ensures CarriesAnswer(hist[n], i)
    decreases n
  {
    hide Apply;
    StepAdvance(hist[n - 1], ops[n - 1]);
    if Answered(hist[n - 1], i) {
      AnsweredToolSucceeded(hist, ops, n - 1, i);
      assert InputAdvance(hist[n - 1].interactions[i], hist[n].interactions[i]);
      assert ToolAdvance(hist[n - 1].tools[hist[n].interactions[i].te], hist[n].tools[hist[n].interactions[i].te]);
    } else {
      AnswerCompletesTool(hist[n - 1], ops[n - 1], i);
    }
  }

  // ---------------------------------------------------------------- open questions park the Run

  predicate OpenApproval(db: Db, i: nat, run: RunId) {
    i < |db.approvals| && db.approvals[i].te.run == run && db.approvals[i].status.ApprovalPending?
  }

  predicate OpenInput(db: Db, i: nat, run: RunId) {
    i < |db.interactions| && db.interactions[i].te.run == run && db.interactions[i].status.InputPending?
  }

  /** A Run has at most one open question of each kind, and while it has one it waits for it. */
  lemma {:induction false} OpenQuestionsParkTheRun(hist: seq<Db>, ops: seq<Op>, n: nat, run: RunId, i: nat, j: nat)
    requires History(hist, ops) && n < |hist|
    ensures OpenApproval(hist[n], i, run) && OpenApproval(hist[n], j, run) ==> i == j
    ensures OpenInput(hist[n], i, run) && OpenInput(hist[n], j, run) ==> i == j
    ensures OpenApproval(hist[n], i, run) ==> run in hist[n].runs && hist[n].runs[run].status.WaitingApproval?
    ensures OpenInput(hist[n], i, run) ==> run in hist[n].runs && hist[n].runs[run].status.WaitingInput?
  {
    hide Apply, Local, Linked;
    HistoryInv(hist, ops, n);
  }

  /** A RUNNING Run has no open question. */
  lemma {:induction false} RunningRunHasNoOpenQuestion(hist: seq<Db>, ops: seq<Op>, n: nat, run: RunId)
    requires History(hist, ops) && n < |hist| && run in hist[n].runs && hist[n].runs[run].status.Running?
    ensures !HasPendingApproval(hist[n], run) && !HasPendingInput(hist[n], run)
  {
    hide Apply, Local, Linked;
    HistoryInv(hist, ops, n);
  }

  // ---------------------------------------------------------------- the log agrees with the tables

  /** Where an event of one tool execution sits in that execution's own event list. */
  lemma {:induction false} EventPosition(log: seq<Event>, te: TeId, p: nat)
    requires p < |log| && ToolEventOf(log[p].key, te)
    ensures |ToolEvents(log[..p], te)| < |ToolEvents(log, te)|
    ensures ToolEvents(log, te)[|ToolEvents(log[..p], te)|] == log[p].key
  {
    var n := |log| - 1;
    if p < n {
      EventPosition(log[..n], te, p);
      assert log[..n][..p] == log[..p];
    }
  }

  lemma {:induction false} EventOrder(log: seq<Event>, te: TeId, p: nat, q: nat)
    requires p < q < |log| && ToolEventOf(log[p].key, te)
    ensures |ToolEvents(log[..p], te)| < |ToolEvents(log[..q], te)|
  {
    EventPosition(log[..q], te, p);
    assert log[..q][..p] == log[..p];
  }

  /**
   * Two events of one execution are a start and then its end: at most one start, at most one
   * end, and never a start after an end.
   */
  lemma {:induction false} ToolEventsAreStartThenEnd(hist: seq<Db>, ops: seq<Op>, n: nat, te: TeId, p: nat, q: nat)
    requires History(hist, ops) && n < |hist| && p < q < |hist[n].log|
    requires ToolEventOf(hist[n].log[p].key, te) && ToolEventOf(hist[n].log[q].key, te)
    ensures hist[n].log[p].key == ToolStarted(te) && hist[n].log[q].key != ToolStarted(te)
  {
    hide Apply, Linked, ParkedRuns, Shape, ApprovalLog, InputLog, RunLog, Fencing, ToolEvents, Tally;
    HistoryInv(hist, ops, n);
    EventPosition(hist[n].log, te, p);
    EventPosition(hist[n].log, te, q);
    EventOrder(hist[n].log, te, p, q);
    if te in hist[n].tools { assert ToolHistory(te, hist[n].tools[te], ToolEvents(hist[n].log, te)); }
  }

  /** The stored status is terminal exactly as the log says it ended. */
  lemma {:induction false} TerminalEventMatchesStatus(hist: seq<Db>, ops: seq<Op>, n: nat, te: TeId, p: nat)
    requires History(hist, ops) && n < |hist| && p < |hist[n].log| && ToolEventOf(hist[n].log[p].key, te)
    ensures te in hist[n].tools
    ensures hist[n].log[p].key.ToolCompleted? ==> hist[n].tools[te].status.ToolSucceeded?
    ensures hist[n].log[p].key.ToolErrored? ==>
              hist[n].tools[te].status in {ToolFailed, ToolUnknown, ToolCancelled}
    ensures hist[n].log[p].key.ToolStarted? ==> ToolRank(hist[n].tools[te].status) >= 2
  {
    hide Apply, Linked, ParkedRuns, Shape, ApprovalLog, InputLog, RunLog, Fencing, ToolEvents, Tally;
    HistoryInv(hist, ops, n);
    EventPosition(hist[n].log, te, p);
    if te in hist[n].tools { assert ToolHistory(te, hist[n].tools[te], ToolEvents(hist[n].log, te)); }
  }

  lemma {:induction false} EventWitness(log: seq<Event>, te: TeId, k: EventKey) returns (p: nat)
    requires k in ToolEvents(log, te)
    ensures p < |log| && log[p].key == k
  {
    var n := |log| - 1;
    if log[n].key == k { p := n; } else { p := EventWitness(log[..n], te, k); }
  }

  /** An ended execution is announced, unless policy denied it before it began. */
  lemma {:induction false} EndedToolIsAnnounced(hist: seq<Db>, ops: seq<Op>, n: nat, te: TeId)
    requires History(hist, ops) && n < |hist| && te in hist[n].tools && TerminalTool(hist[n].tools[te].status)
    ensures (exists p: nat :: p < |hist[n].log|
              && hist[n].log[p].key == if hist[n].tools[te].status.ToolSucceeded? then ToolCompleted(te) else ToolErrored(te))
            || (hist[n].tools[te].status.ToolFailed? && hist[n].tools[te].policy.Some? && ToolEvents(hist[n].log, te) == [])
  {
    hide Apply, Linked, ParkedRuns, Shape, ApprovalLog, InputLog, RunLog, Fencing, ToolEvents, Tally;
    HistoryInv(hist, ops, n);
    assert ToolHistory(te, hist[n].tools[te], ToolEvents(hist[n].log, te));
    var k := if hist[n].tools[te].status.ToolSucceeded? then ToolCompleted(te) else ToolErrored(te);
    var evs := ToolEvents(hist[n].log, te);
    if evs != [] {
      assert evs[|evs| - 1] == k;
      var p := EventWitness(hist[n].log, te, k);
    }
  }

  /** Every question is announced once, every decision and answer once, and the log never runs ahead. */
  lemma {:induction false} QuestionEventsMatchRows(hist: seq<Db>, ops: seq<Op>, n: nat, a: nat)
    requires History(hist, ops) && n < |hist|
    ensures Tally(hist[n].log, ApprovalAsked(a)) == One(a < |hist[n].approvals|)
    ensures Tally(hist[n].log, ApprovalSettled(a)) ==
            One(a < |hist[n].approvals| && !hist[n].approvals[a].status.ApprovalPending?)
    ensures Tally(hist[n].log, InputAsked(a)) == One(a < |hist[n].interactions|)
    ensures Tally(hist[n].log, InputAnswered(a)) == One(Answered(hist[n], a))
    ensures Tally(hist[n].log, InputWithdrawn(a)) ==
            One(a < |hist[n].interactions| && hist[n].interactions[a].status.InputCancelled?)
  {
    hide Apply, Linked, ParkedRuns, Shape, ToolLog, RunLog, Fencing, ToolEvents, Tally;
    HistoryInv(hist, ops, n);
  }

  /** Replaying the log gives every Run's stored status, along legal edges only. */
  lemma {:induction false} LogReplaysRuns(hist: seq<Db>, ops: seq<Op>, n: nat, run: RunId, p: nat)
    requires History(hist, ops) && n < |hist|
    ensures RunFold(hist[n].log, run) == if run in hist[n].runs then Some(hist[n].runs[run].status) else None
    ensures p < |hist[n].log| && hist[n].log[p].key.RunMoved? ==>
              && RunEdge(hist[n].log[p].key.from, hist[n].log[p].key.to)
              && RunFold(hist[n].log[..p], hist[n].log[p].key.run) == Some(hist[n].log[p].key.from)
  {
    hide Apply, Linked, ParkedRuns, Shape, ToolLog, ApprovalLog, InputLog, Fencing, RunFold;
    HistoryInv(hist, ops, n);
  }

  // ---------------------------------------------------------------- cancellation leaves nothing open

  lemma {:induction false} CloseToolsFinishes(db: Db, run: RunId, order: seq<TeId>, te: TeId)
    requires te in db.tools && te.run == run && (te in order || TerminalTool(db.tools[te].status))
    ensures var db' := CloseTools(db, run, order); te in db'.tools && TerminalTool(db'.tools[te].status)
    decreases |order|
  {
    if order != [] {
      var head := order[0];
      var db1 :=
        if head.run != run || head !in db.tools || TerminalTool(db.tools[head].status) then db
        else FinishTool(db, head, if db.tools[head].status.ToolRunning? then ToolUnknown else ToolCancelled, Some(Marker(2)), None);
      assert te in order ==> te == head || te in order[1..];
      CloseToolsFinishes(db1, run, order[1..], te);
    }
  }

  lemma {:induction false} UnwindFinishes(db: Db, mid: Db, te: TeId)
    requires Inv(db) && te in db.tools && te.run in mid.runs && mid.toolOrder == db.toolOrder && mid.tools.Keys == db.tools.Keys
    ensures var db' := Unwind(mid, te.run); te in db'.tools && TerminalTool(db'.tools[te].status)
  {
    hide Inv, CloseTools;
    ClosedAtTheEnd(db, MoveRun(MoveRun(MoveRun(mid, te.run, Running, None), te.run, Cancelling, None), te.run, RunCancelled, None), te);
  }

  lemma {:induction false} ParkedApprovalFinishes(db: Db, te: TeId)
    requires Inv(db) && te in db.tools && CancelParkedApprovalStep(db, te.run).Commit?
    ensures var db' := CancelParkedApprovalStep(db, te.run).db; te in db'.tools && TerminalTool(db'.tools[te].status)
  {
    hide Inv, Unwind, CancelTools, CancelApprovals;
    CancelKeepsTools(db, te.run, db.toolOrder);
    UnwindFinishes(db, CancelTools(CancelApprovals(db, te.run, 0), te.run, db.toolOrder), te);
  }

  lemma {:induction false} ParkedInputFinishes(db: Db, te: TeId)
    requires Inv(db) && te in db.tools && CancelParkedInputStep(db, te.run).Commit?
    ensures var db' := CancelParkedInputStep(db, te.run).db; te in db'.tools && TerminalTool(db'.tools[te].status)
  {
    hide Inv, Unwind, LastInput;
    var pending := LastInput(db.interactions, te.run, IsPending);
    var chosen := if pending.Some? then pending else LastInput(db.interactions, te.run, IsSettled);
    var x := db.interactions[chosen.value].te;
    var db1 := if pending.Some? then WithdrawInput(db, pending.value) else db;
    var db2 := if TerminalTool(db1.tools[x].status) then db1 else FinishTool(db1, x, ToolCancelled, Some(Marker(4)), None);
    assert db2.tools.Keys == db.tools.Keys;
    UnwindFinishes(db, db2, te);
  }

  /** Whatever cancels a Run leaves none of its tool executions open. */
  lemma {:induction false} CancelledRunHasNoOpenTool(hist: seq<Db>, ops: seq<Op>, i: nat, te: TeId)
    requires History(hist, ops) && i < |ops| && Step(hist[i], ops[i]).Commit? && te in hist[i + 1].tools
    requires ops[i] == CancelParkedApproval(te.run) || ops[i] == CancelParkedInput(te.run) || ops[i] == Cas(te.run, Cancelling, RunCancelled)
    ensures TerminalTool(hist[i + 1].tools[te].status)
  {
    hide CloseTools, Inv, CancelParkedApprovalStep, CancelParkedInputStep;
    var db := hist[i];
    HistoryInv(hist, ops, i);
    ClosingCloses(db, ops[i]);
    match ops[i]
    case Cas(r, _, t) => ClosedAtTheEnd(db, MoveRun(db, r, t, None), te);
    case CancelParkedApproval(_) => ParkedApprovalFinishes(db, te);
    case CancelParkedInput(_) => ParkedInputFinishes(db, te);
  }

  lemma {:induction false} ClosedAtTheEnd(db: Db, moved: Db, te: TeId)
    requires Inv(db) && moved.toolOrder == db.toolOrder && moved.tools.Keys == db.tools.Keys
    ensures var db' := CloseTools(moved, te.run, moved.toolOrder);
            te in db.tools ==> te in db'.tools && TerminalTool(db'.tools[te].status)
  {
    if te in db.tools {
      assert te in db.toolOrder by { ListedTool(db, te); }
      CloseToolsFinishes(moved, te.run, moved.toolOrder, te);
    }
  }

  lemma {:induction false} ListedTool(db: Db, te: TeId)
    requires Inv(db) && te in db.tools
    ensures te in db.toolOrder
  {
    hide ToolLog, ApprovalLog, InputLog, RunLog, Fencing, Linked, ParkedRuns;
  }

  lemma {:induction false} CancelKeepsTools(db: Db, run: RunId, order: seq<TeId>)
    ensures var db' := CancelTools(CancelApprovals(db, run, 0), run, order);
            db'.toolOrder == db.toolOrder && db'.tools.Keys == db.tools.Keys
  {
    ApprovalsKeepTools(db, run, 0);
    ToolsKeepKeys(CancelApprovals(db, run, 0), run, order);
  }

  lemma {:induction false} ApprovalsKeepTools(db: Db, run: RunId, i: nat)
    ensures CancelApprovals(db, run, i).toolOrder == db.toolOrder && CancelApprovals(db, run, i).tools == db.tools
    decreases |db.approvals| - i
  {
    if i < |db.approvals| {
      if db.approvals[i].te.run == run && db.approvals[i].status.ApprovalPending? {
        ApprovalsKeepTools(DecideApproval(db, i, ApprovalCancelled), run, i + 1);
      } else {
        ApprovalsKeepTools(db, run, i + 1);
      }
    }
  }

  lemma {:induction false} ToolsKeepKeys(db: Db, run: RunId, order: seq<TeId>)
    ensures CancelTools(db, run, order).toolOrder == db.toolOrder && CancelTools(db, run, order).tools.Keys == db.tools.Keys
    decreases |order|
  {
    if order != [] {
      var te := order[0];
      var db1 :=
        if te.run != run || te !in db.tools || TerminalTool(db.tools[te].status) then db
        else FinishTool(db, te, ToolCancelled, Some(Marker(3)), None);
      ToolsKeepKeys(db1, run, order[1..]);
    }
  }

  // ---------------------------------------------------------------- fencing

  predicate Recorder(op: Op) {
    op.Policy? || op.RequestApproval? || op.RequestInput? || op.Start? || op.End? || op.MarkUnknown? || op.Note? || op.Checkpoint?
  }

  lemma {:induction false} RecorderNeedsFence(db: Db, op: Op)
    requires Recorder(op) && !Fenced(db, op.ctx)
    ensures Step(db, op) == Abort(StaleFence)
  {
  }

  /** Once a session's fence has passed a holder's token, nothing that holder attempts commits. */
  lemma {:induction false} StaleHolderNeverCommits(hist: seq<Db>, ops: seq<Op>, i: nat, j: nat)
    requires History(hist, ops) && i <= j < |ops| && Recorder(ops[j])
    requires ops[j].ctx.session in hist[i].sessions && ops[j].ctx.fence < hist[i].sessions[ops[j].ctx.session].fence
    ensures Step(hist[j], ops[j]) == Abort(StaleFence) && hist[j + 1] == hist[j]
  {
    hide Step;
    Monotone(hist, ops, i, j);
    RecorderNeedsFence(hist[j], ops[j]);
  }

  /** Acquiring a fence makes every earlier token of that session stale. */
  lemma {:induction false} AcquireMakesEarlierHoldersStale(hist: seq<Db>, ops: seq<Op>, i: nat, j: nat)
    requires History(hist, ops) && i < j < |ops| && Recorder(ops[j])
    requires ops[i].AcquireFence? && ops[i].session == ops[j].ctx.session && Step(hist[i], ops[i]).Commit?
    requires ops[j].ctx.fence <= hist[i].sessions[ops[j].ctx.session].fence
    ensures hist[j + 1] == hist[j]
  {
    StaleHolderNeverCommits(hist, ops, i + 1, j);
  }

  /** Recorder events of a session stand in the log in non-decreasing fence order. */
  lemma {:induction false} LogIsFenceOrdered(hist: seq<Db>, ops: seq<Op>, n: nat, p: nat, q: nat)
    requires History(hist, ops) && n < |hist| && p < q < |hist[n].log|
    requires hist[n].log[p].writer.Some? && hist[n].log[q].writer.Some?
    requires hist[n].log[p].writer.value.session == hist[n].log[q].writer.value.session
    ensures hist[n].log[p].writer.value.fence <= hist[n].log[q].writer.value.fence
  {
    hide Apply, Linked, ParkedRuns, Shape, ToolLog, ApprovalLog, InputLog, RunLog;
    HistoryInv(hist, ops, n);
  }

  // ---------------------------------------------------------------- the protocol gets through

  /** A worker under the current fence, its Run RUNNING, and a proposed call nobody has asked about. */
  ghost predicate ReadyToAsk(db: Db, ctx: Ctx, te: TeId) {
    && Inv(db) && Fenced(db, ctx) && te.run == ctx.run
    && ctx.run in db.runs && db.runs[ctx.run] == Run(ctx.session, Running)
    && te in db.tools && db.tools[te].status.Proposed? && db.tools[te].binding.None?
    && (forall i :: 0 <= i < |db.approvals| ==> db.approvals[i].te != te)
  }

  /** The call's row as the worker knows it. */
  predicate RowIs(db: Db, te: TeId, t: Tool, status: ToolStatus) {
    te in db.tools && db.tools[te].sig == t.sig && db.tools[te].args == t.args && db.tools[te].binding.None? && db.tools[te].status == status
  }

  predicate RunIs(db: Db, ctx: Ctx, status: RunStatus) {
    Fenced(db, ctx) && ctx.run in db.runs && db.runs[ctx.run] == Run(ctx.session, status)
  }

  /** The newest approval is this call's, in the given status, and no other of the Run is pending. */
  predicate NewestApproval(db: Db, te: TeId, a: nat, status: ApprovalStatus) {
    && a == |db.approvals| - 1 && db.approvals[a] == Approval(te, status)
    && forall i :: 0 <= i < a && db.approvals[i].te.run == te.run ==> !db.approvals[i].status.ApprovalPending?
  }

  lemma {:induction false} NonePending(db: Db, run: RunId)
    requires Inv(db) && run in db.runs && db.runs[run].status.Running?
    ensures forall i :: 0 <= i < |db.approvals| && db.approvals[i].te.run == run ==> !db.approvals[i].status.ApprovalPending?
  {
    hide Local, Linked;
  }

  lemma {:induction false} AskingParks(db: Db, ctx: Ctx, te: TeId) returns (db': Db)
    requires ReadyToAsk(db, ctx, te)
    ensures Step(db, RequestApproval(ctx, te.call, db.tools[te].sig, db.tools[te].args, Some(te))) == Commit(db')
    ensures RunIs(db', ctx, WaitingApproval) && RowIs(db', te, db.tools[te], ToolWaiting) && NewestApproval(db', te, |db.approvals|, ApprovalPending)
  {
    NonePending(db, ctx.run);
    ParkedFacts(db, ctx, te);
    hide Inv, ParkForApproval, NewestApproval, RowIs, RunIs;
    ParkingFresh(db, ctx, te);
    db' := MoveRun(AddApproval(ParkTool(db, te), te, By(ctx)), ctx.run, WaitingApproval, By(ctx));
  }

  lemma {:induction false} ParkedFacts(db: Db, ctx: Ctx, te: TeId)
    requires Fenced(db, ctx) && te.run == ctx.run && ctx.run in db.runs && db.runs[ctx.run] == Run(ctx.session, Running)
    requires te in db.tools && db.tools[te].binding.None?
    requires forall i :: 0 <= i < |db.approvals| && db.approvals[i].te.run == ctx.run ==> !db.approvals[i].status.ApprovalPending?
    ensures var db' := MoveRun(AddApproval(ParkTool(db, te), te, By(ctx)), ctx.run, WaitingApproval, By(ctx));
            RunIs(db', ctx, WaitingApproval) && RowIs(db', te, db.tools[te], ToolWaiting) && NewestApproval(db', te, |db.approvals|, ApprovalPending)
  {
    var db' := MoveRun(AddApproval(ParkTool(db, te), te, By(ctx)), ctx.run, WaitingApproval, By(ctx));
    assert forall i :: 0 <= i < |db.approvals| ==> db'.approvals[i] == db.approvals[i];
  }

  lemma {:induction false} ParkingFresh(db: Db, ctx: Ctx, te: TeId)
    requires te in db.tools && db.tools[te].status.Proposed? && ctx.run in db.runs
    requires forall i :: 0 <= i < |db.approvals| ==> db.approvals[i].te != te
    ensures ParkForApproval(db, ctx, te, Running) == Commit(MoveRun(AddApproval(ParkTool(db, te), te, By(ctx)), ctx.run, WaitingApproval, By(ctx)))
  {
    hide FindApproval, ApprovalFor;
    assert ApprovalFor(ParkTool(db, te).approvals, te).None?;
  }

  lemma {:induction false} DecidingSettles(db: Db, ctx: Ctx, te: TeId, t: Tool, a: nat, approve: bool) returns (db': Db)
    requires te.run == ctx.run && RunIs(db, ctx, WaitingApproval) && RowIs(db, te, t, ToolWaiting) && NewestApproval(db, te, a, ApprovalPending)
    ensures Step(db, Decide(a, None, approve)) == Commit(db')
    ensures RunIs(db', ctx, WaitingApproval) && RowIs(db', te, t, if approve then ToolWaiting else ToolFailed)
    ensures NewestApproval(db', te, a, if approve then Approved else Rejected)
  {
    db' := Step(db, Decide(a, None, approve)).db;
    assert forall i :: 0 <= i < a ==> db'.approvals[i] == db.approvals[i];
  }

  lemma {:induction false} ResumingRuns(db: Db, ctx: Ctx, te: TeId, t: Tool, a: nat, approve: bool) returns (db': Db)
    requires te.run == ctx.run && RunIs(db, ctx, WaitingApproval) && RowIs(db, te, t, if approve then ToolWaiting else ToolFailed)
    requires NewestApproval(db, te, a, if approve then Approved else Rejected)
    ensures Step(db, ResumeApproval(ctx.run)) == Commit(db')
    ensures RunIs(db', ctx, Running) && RowIs(db', te, t, if approve then ToolWaiting else ToolFailed)
    ensures NewestApproval(db', te, a, if approve then Approved else Rejected)
  {
    assert !HasPendingApproval(db, ctx.run);
    assert LastApproval(db.approvals, ctx.run) == Some(a);
    hide HasPendingApproval, LastApproval;
    db' := MoveRun(db, ctx.run, Running, None);
  }

  /**
   * The protocol gets through: from any reachable state with a proposed call, asking, deciding
   * and resuming all commit, the Run is RUNNING again, and the call runs if and only if approved.
   */
  lemma {:induction false} AskDecideResume(db: Db, ctx: Ctx, te: TeId, approve: bool) returns (asked: Db, decided: Db, resumed: Db)
    requires ReadyToAsk(db, ctx, te)
    ensures var t, a := db.tools[te], |db.approvals|;
            && Step(db, RequestApproval(ctx, te.call, t.sig, t.args, Some(te))) == Commit(asked)
            && Step(asked, Decide(a, None, approve)) == Commit(decided)
            && Step(decided, ResumeApproval(ctx.run)) == Commit(resumed)
            && RunIs(resumed, ctx, Running)
            && (Runs(Apply(resumed, Start(ctx, te.call, t.sig, Some(t.args), Some(a), false)), te) <==> approve)
  {
    var t, a := db.tools[te], |db.approvals|;
    asked := AskingParks(db, ctx, te);
    hide Step, Apply, Inv, NewestApproval;
    decided := DecidingSettles(asked, ctx, te, t, a, approve);
    resumed := ResumingRuns(decided, ctx, te, t, a, approve);
    var start := Start(ctx, te.call, t.sig, Some(t.args), Some(a), false);
    if approve {
      ApprovedIsPresented(resumed, ctx, te, t, a);
      ParkedCallStartsIff(resumed, start, te);
    } else {
      FailedStays(resumed, start, te, t);
    }
  }

  lemma {:induction false} ApprovedIsPresented(db: Db, ctx: Ctx, te: TeId, t: Tool, a: nat)
    requires te.run == ctx.run && RunIs(db, ctx, Running) && RowIs(db, te, t, ToolWaiting) && NewestApproval(db, te, a, Approved)
    ensures var start := Start(ctx, te.call, t.sig, Some(t.args), Some(a), false);
            Waiting(db, te) && PresentsApproval(db, start, te) && Bindable(db, start, te)
  {
  }

  lemma {:induction false} FailedStays(db: Db, op: Op, te: TeId, t: Tool)
    requires RowIs(db, te, t, ToolFailed)
    ensures !Runs(Apply(db, op), te)
  {
    hide Apply;
    StepAdvance(db, op);
  }

  // ---------------------------------------------------------------- and so does a question to the user

  ghost predicate ReadyToAskUser(db: Db, ctx: Ctx, te: TeId) {
    && Inv(db) && RunIs(db, ctx, Running) && te.run == ctx.run
    && te in db.tools && (db.tools[te].status.Proposed? || db.tools[te].status.ToolRunning?)
    && (forall i :: 0 <= i < |db.interactions| ==> db.interactions[i].te != te)
  }

  /** The newest interaction is this call's, and no other of the Run is pending. */
  predicate NewestInput(db: Db, te: TeId, i: nat, x: Interaction) {
    && i == |db.interactions| - 1 && db.interactions[i] == x && x.te == te
    && forall k :: 0 <= k < i && db.interactions[k].te.run == te.run ==> !db.interactions[k].status.InputPending?
  }

  lemma {:induction false} NoneAsked(db: Db, run: RunId)
    requires Inv(db) && run in db.runs && db.runs[run].status.Running?
    ensures forall i :: 0 <= i < |db.interactions| && db.interactions[i].te.run == run ==> !db.interactions[i].status.InputPending?
  {
    hide Local, Linked;
  }

  lemma {:induction false} ParkingInput(db: Db, ctx: Ctx, te: TeId, request: Fp)
    requires te in db.tools && (db.tools[te].status.Proposed? || db.tools[te].status.ToolRunning?) && ctx.run in db.runs
    requires forall i :: 0 <= i < |db.interactions| ==> db.interactions[i].te != te
    requires !HasPendingInput(db, ctx.run)
    ensures var db1 := if db.tools[te].status.Proposed? then StartTool(db, te, false, None) else db;
            ParkForInput(db, ctx, te, request, Running) == Commit(MoveRun(AddInput(db1, te, request, By(ctx)), ctx.run, WaitingInput, By(ctx)))
  {
    hide InputFor;
    var db1 := if db.tools[te].status.Proposed? then StartTool(db, te, false, None) else db;
    assert !HasPendingInput(db1, ctx.run);
    assert InputFor(db1.interactions, te).None?;
    hide HasPendingInput;
  }

  lemma {:induction false} AskingUserParks(db: Db, ctx: Ctx, te: TeId, request: Fp) returns (db': Db)
    requires ReadyToAskUser(db, ctx, te)
    ensures Step(db, RequestInput(ctx, te.call, db.tools[te].sig, db.tools[te].args, Some(te), request)) == Commit(db')
    ensures RunIs(db', ctx, WaitingInput) && Runs(db', te)
    ensures NewestInput(db', te, |db.interactions|, Interaction(te, request, InputPending, None, NoPhase))
  {
    NoneAsked(db, ctx.run);
    assert !HasPendingInput(db, ctx.run);
    ParkedInputFacts(db, ctx, te, request);
    hide Inv, ParkForInput, NewestInput, RunIs, Runs, HasPendingInput;
    ReadyInputFacts(db, ctx, te);
    ParkingInput(db, ctx, te, request);
    var db1 := if db.tools[te].status.Proposed? then StartTool(db, te, false, None) else db;
    db' := MoveRun(AddInput(db1, te, request, By(ctx)), ctx.run, WaitingInput, By(ctx));
  }

  lemma {:induction false} ReadyInputFacts(db: Db, ctx: Ctx, te: TeId)
    requires ReadyToAskUser(db, ctx, te)
    ensures Fenced(db, ctx) && ctx.run in db.runs && db.runs[ctx.run] == Run(ctx.session, Running)
  {
    hide Inv;
  }

  lemma {:induction false} ParkedInputFacts(db: Db, ctx: Ctx, te: TeId, request: Fp)
    requires RunIs(db, ctx, Running) && te.run == ctx.run
    requires te in db.tools && (db.tools[te].status.Proposed? || db.tools[te].status.ToolRunning?)
    requires forall i :: 0 <= i < |db.interactions| && db.interactions[i].te.run == ctx.run ==> !db.interactions[i].status.InputPending?
    ensures var db1 := if db.tools[te].status.Proposed? then StartTool(db, te, false, None) else db;
            var db' := MoveRun(AddInput(db1, te, request, By(ctx)), ctx.run, WaitingInput, By(ctx));
            && RunIs(db', ctx, WaitingInput) && Runs(db', te)
            && NewestInput(db', te, |db.interactions|, Interaction(te, request, InputPending, None, NoPhase))
  {
    var db1 := if db.tools[te].status.Proposed? then StartTool(db, te, false, None) else db;
    var db' := MoveRun(AddInput(db1, te, request, By(ctx)), ctx.run, WaitingInput, By(ctx));
    assert forall i :: 0 <= i < |db.interactions| ==> db'.interactions[i] == db.interactions[i];
  }

  lemma {:induction false} AnsweringCompletes(db: Db, ctx: Ctx, te: TeId, request: Fp, i: nat, response: Fp) returns (db': Db)
    requires te.run == ctx.run && RunIs(db, ctx, WaitingInput) && Runs(db, te)
    requires NewestInput(db, te, i, Interaction(te, request, InputPending, None, NoPhase))
    ensures Step(db, Respond(ctx.run, i, response)) == Commit(db')
    ensures RunIs(db', ctx, WaitingInput) && NewestInput(db', te, i, Interaction(te, request, InputResolved, Some(response), Ready))
    ensures CarriesAnswer(db', i)
  {
    db' := AnswerInput(FinishTool(db, te, ToolSucceeded, Some(AnswerOf(i, response)), None), i, response);
    assert forall k :: 0 <= k < i ==> db'.interactions[k] == db.interactions[k];
  }

  lemma {:induction false} ResumingClaims(db: Db, ctx: Ctx, te: TeId, request: Fp, i: nat, response: Fp) returns (db': Db)
    requires te.run == ctx.run && RunIs(db, ctx, WaitingInput)
    requires NewestInput(db, te, i, Interaction(te, request, InputResolved, Some(response), Ready)) && CarriesAnswer(db, i)
    ensures Step(db, ResumeInput(ctx.run)) == Commit(db')
    ensures RunIs(db', ctx, Running) && NewestInput(db', te, i, Interaction(te, request, InputResolved, Some(response), Claimed))
    ensures CarriesAnswer(db', i)
  {
    assert !HasPendingInput(db, ctx.run);
    assert LastInput(db.interactions, ctx.run, IsResolved) == Some(i);
    hide HasPendingInput, LastInput;
    db' := MoveRun(SetPhase(db, i, Claimed), ctx.run, Running, None);
    assert forall k :: 0 <= k < i ==> db'.interactions[k] == db.interactions[k];
  }

  /**
   * A question to the user gets through: from any reachable state, asking, answering, resuming and
   * checkpointing all commit, the Run is RUNNING again, the tool carries the answer, and the
   * interaction ends APPLIED.
   */
  lemma {:induction false} AskAnswerResumeApply(db: Db, ctx: Ctx, te: TeId, request: Fp, response: Fp)
    returns (asked: Db, answered: Db, resumed: Db, applied: Db)
    requires ReadyToAskUser(db, ctx, te)
    ensures var t, i := db.tools[te], |db.interactions|;
            && Step(db, RequestInput(ctx, te.call, t.sig, t.args, Some(te), request)) == Commit(asked)
            && Step(asked, Respond(ctx.run, i, response)) == Commit(answered)
            && Step(answered, ResumeInput(ctx.run)) == Commit(resumed)
            && Step(resumed, Checkpoint(ctx, i)) == Commit(applied)
            && RunIs(applied, ctx, Running) && i < |applied.interactions| && CarriesAnswer(applied, i)
            && applied.interactions[i] == Interaction(te, request, InputResolved, Some(response), Applied)
  {
    var i := |db.interactions|;
    asked := AskingUserParks(db, ctx, te, request);
    answered := AnsweringCompletes(asked, ctx, te, request, i, response);
    resumed := ResumingClaims(answered, ctx, te, request, i, response);
    hide Inv, Step, NewestInput, ReadyToAskUser;
    applied := ApplyingSettles(resumed, ctx, te, i, Interaction(te, request, InputResolved, Some(response), Claimed));
  }

  lemma {:induction false} ApplyingSettles(db: Db, ctx: Ctx, te: TeId, i: nat, x: Interaction) returns (db': Db)
    requires RunIs(db, ctx, Running) && NewestInput(db, te, i, x) && x.status.InputResolved? && x.phase.Claimed? && CarriesAnswer(db, i)
    ensures Step(db, Checkpoint(ctx, i)) == Commit(db')
    ensures RunIs(db', ctx, Running) && i < |db'.interactions| && CarriesAnswer(db', i) && db'.interactions[i] == x.(phase := Applied)
  {
    db' := Emit(SetPhase(db, i, Applied), Noted(ctx.run), By(ctx));
  }
}
