/** What the governance ledger guarantees over whole histories. */
module LedgerTheorems {
  import opened Statuses
  import opened LedgerState
  import opened LedgerSteps
  import opened LedgerInvariant
  import opened LedgerSafety

  /** The states passed through by a sequence of attempted transactions, oldest first. */
  ghost predicate History(hist: seq<Db>, ops: seq<Op>) {
    && |hist| == |ops| + 1
    && hist[0] == EMPTY
    && forall i :: 0 <= i < |ops| ==> hist[i + 1] == Apply(hist[i], ops[i])
  }

  lemma {:induction false} HistoryInv(hist: seq<Db>, ops: seq<Op>, i: nat)
    requires History(hist, ops) && i < |hist|
    ensures Inv(hist[i])
  {
    hide Apply, Local, Linked, ParkedRuns;
    if i == 0 {
      EmptyInv();
    } else {
      HistoryInv(hist, ops, i - 1);
      StepKeeps(hist[i - 1], ops[i - 1]);
    }
  }

  lemma {:induction false} EmptyInv()
    ensures Inv(EMPTY)
  {
  }

  // ---------------------------------------------------------------- rows only move forward

  predicate ToolAdvance(a: Tool, b: Tool) {
    && a.sig == b.sig && a.args == b.args
    && (a.status == b.status || (!TerminalTool(a.status) && ToolRank(a.status) < ToolRank(b.status)))
    && (TerminalTool(a.status) ==> a.result == b.result)
    && (a.binding.Some? ==> b.binding == a.binding) && (a.policy.Some? ==> b.policy == a.policy)
  }

  predicate ApprovalAdvance(a: Approval, b: Approval) {
    a.te == b.te && (a.status == b.status || a.status.ApprovalPending?)
  }

  predicate InputAdvance(a: Interaction, b: Interaction) {
    && a.te == b.te && a.request == b.request
    && (a.status.InputPending? || (b.status == a.status && b.response == a.response && PhaseRank(a.phase) <= PhaseRank(b.phase)))
  }

  ghost predicate Advance(db: Db, db': Db) {
    && (forall te :: te in db.tools ==> te in db'.tools && ToolAdvance(db.tools[te], db'.tools[te]))
    && |db.approvals| <= |db'.approvals|
    && (forall i :: 0 <= i < |db.approvals| ==> ApprovalAdvance(db.approvals[i], db'.approvals[i]))
    && |db.interactions| <= |db'.interactions|
    && (forall i :: 0 <= i < |db.interactions| ==> InputAdvance(db.interactions[i], db'.interactions[i]))
    && (forall s :: s in db.sessions ==> s in db'.sessions && db.sessions[s].fence <= db'.sessions[s].fence)
    && db.log <= db'.log
  }

  lemma {:induction false} AdvanceTransitive(a: Db, b: Db, c: Db)
    requires Advance(a, b) && Advance(b, c)
    ensures Advance(a, c)
  {
    forall te | te in a.tools
      ensures te in c.tools && ToolAdvance(a.tools[te], c.tools[te])
    {
      assert ToolAdvance(a.tools[te], b.tools[te]);
      assert ToolAdvance(b.tools[te], c.tools[te]);
    }
    forall i | 0 <= i < |a.approvals|
      ensures ApprovalAdvance(a.approvals[i], c.approvals[i])
    {
      assert ApprovalAdvance(a.approvals[i], b.approvals[i]);
      assert ApprovalAdvance(b.approvals[i], c.approvals[i]);
    }
    forall i | 0 <= i < |a.interactions|
      ensures InputAdvance(a.interactions[i], c.interactions[i])
    {
      assert InputAdvance(a.interactions[i], b.interactions[i]);
      assert InputAdvance(b.interactions[i], c.interactions[i]);
    }
  }

  lemma {:induction false} CloseToolsAdvance(db: Db, run: RunId, order: seq<TeId>)
    ensures Advance(db, CloseTools(db, run, order))
    decreases |order|
  {
    hide Advance;
    SelfAdvance(db);
    if order != [] {
      var te := order[0];
      var db1 :=
        if te.run != run || te !in db.tools || TerminalTool(db.tools[te].status) then db
        else FinishTool(db, te, if db.tools[te].status.ToolRunning? then ToolUnknown else ToolCancelled, Some(Marker(2)), None);
      if te in db.tools { RowAdvance(db, db1, te); }
      CloseToolsAdvance(db1, run, order[1..]);
      AdvanceTransitive(db, db1, CloseTools(db1, run, order[1..]));
    }
  }

  lemma {:induction false} CancelToolsAdvance(db: Db, run: RunId, order: seq<TeId>)
    ensures Advance(db, CancelTools(db, run, order))
    decreases |order|
  {
    hide Advance;
    SelfAdvance(db);
    if order != [] {
      var te := order[0];
      var db1 :=
        if te.run != run || te !in db.tools || TerminalTool(db.tools[te].status) then db
        else FinishTool(db, te, ToolCancelled, Some(Marker(3)), None);
      if te in db.tools { RowAdvance(db, db1, te); }
      CancelToolsAdvance(db1, run, order[1..]);
      AdvanceTransitive(db, db1, CancelTools(db1, run, order[1..]));
    }
  }

  lemma {:induction false} CancelApprovalsAdvance(db: Db, run: RunId, i: nat)
    ensures Advance(db, CancelApprovals(db, run, i))
    decreases |db.approvals| - i
  {
    hide Advance;
    SelfAdvance(db);
    if i < |db.approvals| {
      if db.approvals[i].te.run == run && db.approvals[i].status.ApprovalPending? {
        var db1 := DecideApproval(db, i, ApprovalCancelled);
        QuestionAdvance(db, db1);
        CancelApprovalsAdvance(db1, run, i + 1);
        AdvanceTransitive(db, db1, CancelApprovals(db1, run, i + 1));
      } else {
        CancelApprovalsAdvance(db, run, i + 1);
      }
    }
  }

  lemma {:induction false} TransitionAdvance(db: Db, run: RunId, to: RunStatus)
    requires run in db.runs
    ensures Advance(db, Transition(db, run, to))
  {
    hide CloseTools;
    var moved := MoveRun(db, run, to, None);
    CloseToolsAdvance(moved, run, moved.toolOrder);
    AdvanceTransitive(db, moved, CloseTools(moved, run, moved.toolOrder));
  }

  lemma {:induction false} UnwindAdvance(db: Db, run: RunId)
    requires run in db.runs
    ensures Advance(db, Unwind(db, run))
  {
    hide Transition, CloseTools;
    var db1 := MoveRun(MoveRun(db, run, Running, None), run, Cancelling, None);
    TransitionAdvance(db1, run, RunCancelled);
    AdvanceTransitive(db, db1, Transition(db1, run, RunCancelled));
  }

  lemma {:induction false} CancelParkedAdvance(db: Db, run: RunId)
    ensures var tx := CancelParkedApprovalStep(db, run); tx.Commit? ==> Advance(db, tx.db)
    ensures var tx := CancelParkedInputStep(db, run); tx.Commit? ==> Advance(db, tx.db)
  {
    hide Advance, CloseTools, CancelTools, CancelApprovals, Unwind;
    if CancelParkedApprovalStep(db, run).Commit? {
      var db1 := CancelApprovals(db, run, 0);
      var db2 := CancelTools(db1, run, db.toolOrder);
      CancelApprovalsAdvance(db, run, 0);
      CancelToolsAdvance(db1, run, db.toolOrder);
      AdvanceTransitive(db, db1, db2);
      UnwindAdvance(db2, run);
      AdvanceTransitive(db, db2, Unwind(db2, run));
    }
    if CancelParkedInputStep(db, run).Commit? {
      var pending := LastInput(db.interactions, run, IsPending);
      var chosen := if pending.Some? then pending else LastInput(db.interactions, run, IsSettled);
      var te := db.interactions[chosen.value].te;
      var db1 := if pending.Some? then WithdrawInput(db, pending.value) else db;
      var db2 := if TerminalTool(db1.tools[te].status) then db1 else FinishTool(db1, te, ToolCancelled, Some(Marker(4)), None);
      WithdrawAdvance(db, pending, te);
      UnwindAdvance(db2, run);
      AdvanceTransitive(db, db2, Unwind(db2, run));
    }
  }

  lemma {:induction false} WithdrawAdvance(db: Db, pending: Option<nat>, te: TeId)
    requires te in db.tools
    requires pending.Some? ==> pending.value < |db.interactions| && db.interactions[pending.value].status.InputPending?
    ensures var db1 := if pending.Some? then WithdrawInput(db, pending.value) else db;
            Advance(db, if TerminalTool(db1.tools[te].status) then db1 else FinishTool(db1, te, ToolCancelled, Some(Marker(4)), None))
  {
  }

  /** Everything but one tool row, the Runs and the log's tail is untouched. */
  lemma {:induction false} RowAdvance(db: Db, db': Db, te: TeId)
    requires te in db'.tools && db'.tools == db.tools[te := db'.tools[te]]
    requires te in db.tools ==> ToolAdvance(db.tools[te], db'.tools[te])
    requires db'.approvals == db.approvals && db'.interactions == db.interactions
    requires db'.sessions == db.sessions && db.log <= db'.log
    ensures Advance(db, db')
  {
  }

  /** No tool row changed; approvals, interactions and fences moved forward. */
  lemma {:induction false} QuestionAdvance(db: Db, db': Db)
    requires db'.tools == db.tools && db.log <= db'.log
    requires |db.approvals| <= |db'.approvals|
    requires forall i :: 0 <= i < |db.approvals| ==> ApprovalAdvance(db.approvals[i], db'.approvals[i])
    requires |db.interactions| <= |db'.interactions|
    requires forall i :: 0 <= i < |db.interactions| ==> InputAdvance(db.interactions[i], db'.interactions[i])
    requires forall s :: s in db.sessions ==> s in db'.sessions && db.sessions[s].fence <= db'.sessions[s].fence
    ensures Advance(db, db')
  {
  }

  lemma {:induction false} PolicyAdvance(db: Db, ctx: Ctx, call: CallId, sig: Signature, args: Fp, d: Decision, pf: Fp)
    ensures var tx := PolicyStep(db, ctx, call, sig, args, d, pf); tx.Commit? ==> Advance(db, tx.db)
  {
    hide Advance, GetOrCreate, ReplayAllowed;
    var tx := PolicyStep(db, ctx, call, sig, args, d, pf);
    if tx.Commit? {
      GetOrCreateRow(db, ctx, call, sig, args, Some(pf), false);
      var db1 := GetOrCreate(db, ctx, call, sig, args, Some(pf), false).db;
      RowAdvance(db, db1, Te(ctx.run, call));
      RowAdvance(db1, tx.db, Te(ctx.run, call));
      AdvanceTransitive(db, db1, tx.db);
    }
  }

  lemma {:induction false} GetOrCreateRow(db: Db, ctx: Ctx, call: CallId, sig: Signature, args: Fp, policy: Option<Fp>, pending: bool)
    ensures var g := GetOrCreate(db, ctx, call, sig, args, policy, pending);
            g.Got? ==>
              var te := Te(ctx.run, call);
              && g.db == db.(tools := db.tools[te := g.db.tools[te]], toolOrder := g.db.toolOrder)
              && (te in db.tools ==> ToolAdvance(db.tools[te], g.db.tools[te]))
  {
  }

  lemma {:induction false} LocateAdvance(db: Db, ctx: Ctx, call: CallId, sig: Signature, args: Fp, claimed: Option<TeId>, input: bool)
    ensures var g := if input then LocateInputTool(db, ctx, call, sig, args, claimed) else LocateTool(db, ctx, call, sig, args, claimed);
            g.Got? ==>
              var te := Te(ctx.run, call);
              var row := g.db.tools[te];
              && g.db == db.(tools := db.tools[te := row], toolOrder := g.db.toolOrder)
              && (te in db.tools ==> ToolAdvance(db.tools[te], row))
  {
  }

  lemma {:induction false} RequestApprovalAdvance(db: Db, ctx: Ctx, call: CallId, sig: Signature, args: Fp, claimed: Option<TeId>)
    ensures var tx := RequestApprovalStep(db, ctx, call, sig, args, claimed); tx.Commit? ==> Advance(db, tx.db)
  {
    hide Advance, LocateTool, FindApproval, ApprovalFor;
    var tx := RequestApprovalStep(db, ctx, call, sig, args, claimed);
    if tx.Commit? {
      LocateAdvance(db, ctx, call, sig, args, claimed, false);
      var db1 := LocateTool(db, ctx, call, sig, args, claimed).db;
      var te := Te(ctx.run, call);
      var db2 := if db1.tools[te].status.Proposed? then ParkTool(db1, te) else db1;
      RowAdvance(db, db2, te);
      QuestionAdvance(db2, tx.db);
      AdvanceTransitive(db, db2, tx.db);
    }
  }

  lemma {:induction false} RequestInputAdvance(db: Db, ctx: Ctx, call: CallId, sig: Signature, args: Fp, claimed: Option<TeId>, request: Fp)
    ensures var tx := RequestInputStep(db, ctx, call, sig, args, claimed, request); tx.Commit? ==> Advance(db, tx.db)
  {
    hide Advance, LocateInputTool, InputFor;
    var tx := RequestInputStep(db, ctx, call, sig, args, claimed, request);
    if tx.Commit? {
      LocateAdvance(db, ctx, call, sig, args, claimed, true);
      var db1 := LocateInputTool(db, ctx, call, sig, args, claimed).db;
      var te := Te(ctx.run, call);
      var db2 := if db1.tools[te].status.Proposed? then StartTool(db1, te, false, None) else db1;
      RowAdvance(db, db2, te);
      QuestionAdvance(db2, tx.db);
      AdvanceTransitive(db, db2, tx.db);
    }
  }

  lemma {:induction false} BindAdvance(db: Db, ctx: Ctx, te: TeId, request: Fp)
    requires te in db.tools
    ensures var tx := BindDispatched(db, ctx, te, request); tx.Commit? ==> Advance(db, tx.db)
  {
    hide Advance;
    var tx := BindDispatched(db, ctx, te, request);
    if tx.Commit? { RowAdvance(db, tx.db, te); }
  }

  lemma {:induction false} StartAdvance(db: Db, ctx: Ctx, call: CallId, sig: Signature, args: Option<Fp>, approval: Option<nat>, preflight: bool)
    ensures var tx := StartStep(db, ctx, call, sig, args, approval, preflight); tx.Commit? ==> Advance(db, tx.db)
  {
    hide Advance, BindDispatched;
    var tx := StartStep(db, ctx, call, sig, args, approval, preflight);
    SelfAdvance(db);
    if tx.Commit? && tx.db != db {
      var te := Te(ctx.run, call);
      var given := if args.Some? then args.value else EMPTY_ARGS;
      var db1 := if te in db.tools then db else GetOrCreate(db, ctx, call, sig, given, None, true).db;
      var db2 := if ToolRank(db1.tools[te].status) < 2 then StartTool(db1, te, true, By(ctx)) else db1;
      RowAdvance(db, db2, te);
      BindAdvance(db2, ctx, te, given);
      AdvanceTransitive(db, db2, tx.db);
    }
  }

  lemma {:induction false} FinishAdvance(db: Db, te: TeId, start: bool, to: ToolStatus, result: Option<Fp>, w: Option<Writer>)
    requires te in db.tools && TerminalTool(to) && !TerminalTool(db.tools[te].status)
    requires start ==> db.tools[te].status.Proposed?
    ensures Advance(db, FinishTool(if start then StartTool(db, te, false, None) else db, te, to, result, w))
  {
    hide Advance;
    RowAdvance(db, FinishTool(if start then StartTool(db, te, false, None) else db, te, to, result, w), te);
  }

  lemma {:induction false} EndAdvance(db: Db, ctx: Ctx, call: CallId, sig: Signature, isError: bool, result: Option<Fp>, args: Option<Fp>, artifact: bool)
    ensures var tx := EndStep(db, ctx, call, sig, isError, result, args, artifact); tx.Commit? ==> Advance(db, tx.db)
  {
    hide Advance, FinishTool;
    var tx := EndStep(db, ctx, call, sig, isError, result, args, artifact);
    SelfAdvance(db);
    if tx.Commit? && tx.db != db {
      var te := Te(ctx.run, call);
      var db1 := if te in db.tools then db else GetOrCreate(db, ctx, call, sig, EMPTY_ARGS, None, false).db;
      var start := db1.tools[te].status.Proposed?;
      var db2 := if start then StartTool(db1, te, false, None) else db1;
      var db3 := FinishTool(db2, te, if isError then ToolFailed else ToolSucceeded, result, By(ctx));
      RowAdvance(db, db1, te);
      FinishAdvance(db1, te, start, if isError then ToolFailed else ToolSucceeded, result, By(ctx));
      AdvanceTransitive(db, db1, db3);
      NoteAdvance(db3, Noted(ctx.run), By(ctx));
      AdvanceTransitive(db, db3, Emit(db3, Noted(ctx.run), By(ctx)));
    }
  }

  lemma {:induction false} NoteAdvance(db: Db, k: EventKey, w: Option<Writer>)
    ensures Advance(db, Emit(db, k, w))
  {
  }

  lemma {:induction false} UnknownAdvance(db: Db, ctx: Ctx, call: CallId, sig: Signature, result: Option<Fp>, args: Option<Fp>)
    ensures var tx := UnknownStep(db, ctx, call, sig, result, args); tx.Commit? ==> Advance(db, tx.db)
  {
    hide Advance;
    var tx := UnknownStep(db, ctx, call, sig, result, args);
    if tx.Commit? { RowAdvance(db, tx.db, Te(ctx.run, call)); }
  }

  lemma {:induction false} DecideAdvance(db: Db, a: nat, hint: Option<RunId>, approve: bool)
    ensures var tx := DecideStep(db, a, hint, approve); tx.Commit? ==> Advance(db, tx.db)
  {
    hide Advance;
    var tx := DecideStep(db, a, hint, approve);
    if tx.Commit? {
      var te := db.approvals[a].te;
      var db1 := if db.approvals[a].status.ApprovalPending? then DecideApproval(db, a, if approve then Approved else Rejected) else db;
      QuestionAdvance(db, db1);
      RowAdvance(db1, tx.db, te);
      AdvanceTransitive(db, db1, tx.db);
    }
  }

  lemma {:induction false} RespondAdvance(db: Db, run: RunId, i: nat, response: Fp)
    ensures var tx := RespondStep(db, run, i, response); tx.Commit? ==> Advance(db, tx.db)
  {
    hide Advance;
    var tx := RespondStep(db, run, i, response);
    if tx.Commit? {
      var te := db.interactions[i].te;
      var db1 := if db.interactions[i].status.InputPending? && db.tools[te].status.ToolRunning?
                 then FinishTool(db, te, ToolSucceeded, Some(AnswerOf(i, response)), None) else db;
      RowAdvance(db, db1, te);
      QuestionAdvance(db1, tx.db);
      AdvanceTransitive(db, db1, tx.db);
    }
  }

  lemma {:induction false} CasAdvance(db: Db, run: RunId, from: RunStatus, to: RunStatus)
    ensures var tx := CasStep(db, run, from, to); tx.Commit? ==> Advance(db, tx.db)
  {
    hide Advance, Transition;
    if run in db.runs { TransitionAdvance(db, run, to); }
  }

  /** Steps that move a Run, a phase, a fence or only the log. */
  lemma {:induction false} PlainAdvance(db: Db, op: Op)
    requires op.Note? || op.Checkpoint? || op.ResumeApproval? || op.ResumeInput? || op.AcquireFence?
             || op.Activate? || op.NewSession? || op.NewRun?
    ensures Step(db, op).Commit? ==> Advance(db, Step(db, op).db)
  {
    hide Advance, LastInput, LastApproval;
    var tx := Step(db, op);
    if tx.Commit? { QuestionAdvance(db, tx.db); }
  }

  /** No step ever moves a row backwards or rewrites a settled one. */
  lemma {:induction false} StepAdvance(db: Db, op: Op)
    ensures Advance(db, Apply(db, op))
  {
    hide Advance, PolicyStep, RequestApprovalStep, RequestInputStep, StartStep, EndStep, UnknownStep, DecideStep, RespondStep, CasStep, CancelParkedApprovalStep, CancelParkedInputStep;
    SelfAdvance(db);
    match op
    case Policy(c, k, s, f, d, p) => PolicyAdvance(db, c, k, s, f, d, p);
    case RequestApproval(c, k, s, f, t) => RequestApprovalAdvance(db, c, k, s, f, t);
    case RequestInput(c, k, s, f, t, r) => RequestInputAdvance(db, c, k, s, f, t, r);
    case Start(c, k, s, a, ap, p) => StartAdvance(db, c, k, s, a, ap, p);
    case End(c, k, s, e, r, a, x) => EndAdvance(db, c, k, s, e, r, a, x);
    case MarkUnknown(c, k, s, r, a) => UnknownAdvance(db, c, k, s, r, a);
    case Decide(a, h, v) => DecideAdvance(db, a, h, v);
    case Respond(r, i, x) => RespondAdvance(db, r, i, x);
    case Cas(r, f, t) => CasAdvance(db, r, f, t);
    case CancelParkedApproval(r) => CancelParkedAdvance(db, r);
    case CancelParkedInput(r) => CancelParkedAdvance(db, r);
    case _ => PlainAdvance(db, op);
  }

  lemma {:induction false} SelfAdvance(db: Db)
    ensures Advance(db, db)
  {
  }
}
