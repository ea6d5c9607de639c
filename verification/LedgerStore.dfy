/**
 * The transactions as the services run them: rows are rewritten one statement at a time,
 * and a failure after the first write rolls the tables back.
 */
module LedgerStore {
  import opened Statuses
  import opened LedgerState
  import opened LedgerSteps
  import opened LedgerInvariant
  import opened LedgerSafety

  /** What a caller observes of a transaction: its outcome and the tables it left behind. */
  ghost predicate Observed(tx: Tx, before: Db, after: Db, err: Option<Err>) {
    match tx
    case Commit(db) => err.None? && after == db
    case Abort(e) => err == Some(e) && after == before
  }

  /** The same for a tail of a transaction, whose caller rolls back. */
  ghost predicate Finished(tx: Tx, after: Db, err: Option<Err>) {
    match tx
    case Commit(db) => err.None? && after == db
    case Abort(e) => err == Some(e)
  }

  class Ledger {
    var sessions: map<SessionId, Session>
    var runs: map<RunId, Run>
    var tools: map<TeId, Tool>
    var toolOrder: seq<TeId>
    var approvals: seq<Approval>
    var interactions: seq<Interaction>
    var log: seq<Event>

    function Tables(): Db
      reads this
    {
      Db(sessions, runs, tools, toolOrder, approvals, interactions, log)
    }

    ghost predicate Valid()
      reads this
    {
      Inv(Tables())
    }

    constructor ()
      ensures Tables() == EMPTY
    {
      sessions, runs, tools, toolOrder := map[], map[], map[], [];
      approvals, interactions, log := [], [], [];
    }

    // -------------------------------------------------------------- statements

    method Rollback(saved: Db)
      modifies this
      ensures Tables() == saved
    {
      sessions, runs, tools, toolOrder := saved.sessions, saved.runs, saved.tools, saved.toolOrder;
      approvals, interactions, log := saved.approvals, saved.interactions, saved.log;
    }

    method Append(k: EventKey, w: Option<Writer>)
      modifies this`log
      ensures Tables() == Emit(old(Tables()), k, w)
    {
      log := log + [Event(k, w)];
    }

    method TransitionTool(te: TeId, to: ToolStatus)
      requires te in tools
      modifies this`tools
      ensures Tables() == SetStatus(old(Tables()), te, to)
    {
      tools := tools[te := tools[te].(status := to)];
    }

    method CompleteTool(te: TeId, to: ToolStatus, result: Option<Fp>, w: Option<Writer>)
      requires te in tools
      modifies this`tools, this`log
      ensures Tables() == FinishTool(old(Tables()), te, to, result, w)
    {
      tools := tools[te := tools[te].(status := to, result := result)];
      Append(if to.ToolSucceeded? then ToolCompleted(te) else ToolErrored(te), w);
    }

    method UpdateRunStatus(run: RunId, to: RunStatus, w: Option<Writer>)
      requires run in runs
      modifies this`runs, this`log
      ensures Tables() == MoveRun(old(Tables()), run, to, w)
    {
      var from := runs[run].status;
      runs := runs[run := runs[run].(status := to)];
      Append(RunMoved(run, from, to), w);
    }

    /** Insert-if-absent; an existing row must describe the same call. */
    method GetOrCreateTool(ctx: Ctx, call: CallId, sig: Signature, args: Fp, policy: Option<Fp>, policyPending: bool)
      returns (err: Option<Err>, created: bool, adopted: bool)
      modifies this`tools, this`toolOrder
      ensures match GetOrCreate(old(Tables()), ctx, call, sig, args, policy, policyPending)
              case Got(db, c, a) => err.None? && Tables() == db && created == c && adopted == a
              case Refused(e) => err == Some(e) && Tables() == old(Tables())
      ensures err.None? && Te(ctx.run, call) !in old(tools) ==> tools[Te(ctx.run, call)].status.Proposed?
    {
      err, created, adopted := None, false, false;
      var te := Te(ctx.run, call);
      if ctx.run !in runs { err := Some(NotFound); return; }
      if runs[ctx.run].session != ctx.session { err := Some(Conflict); return; }
      if te !in tools {
        tools := tools[te := Tool(sig, args, Proposed, policy, policyPending, None, None)];
        toolOrder := toolOrder + [te];
        created := true;
        return;
      }
      var t := tools[te];
      if t.sig != sig || t.args != args { err := Some(Conflict); return; }
      if policy.Some? && t.policy.None? && t.policyPending && t.status.Proposed? && t.binding.None? && t.result.None? {
        tools := tools[te := t.(policy := policy, policyPending := false)];
        adopted := true;
      } else if policy.Some? && t.policy != policy {
        err := Some(PolicyConflict);
      }
    }

    // -------------------------------------------------------------- recorder

    method RecordPolicyDecision(ctx: Ctx, call: CallId, sig: Signature, args: Fp, d: Decision, pf: Fp) returns (err: Option<Err>)
      modifies this
      ensures Observed(Step(old(Tables()), Policy(ctx, call, sig, args, d, pf)), old(Tables()), Tables(), err)
      ensures old(Valid()) ==> Valid()
    {
      StepInv(Tables(), Policy(ctx, call, sig, args, d, pf));
      hide Inv;
      if !Fenced(Tables(), ctx) { return Some(StaleFence); }
      var saved := Tables();
      var te := Te(ctx.run, call);
      var created, adopted;
      err, created, adopted := GetOrCreateTool(ctx, call, sig, args, Some(pf), false);
      if err.Some? { return; }
      if !created && !adopted && !ReplayAllowed(tools[te], d, pf) {
        Rollback(saved);
        return Some(PolicyConflict);
      }
      if tools[te].status.Proposed? {
        if d.Deny? {
          TransitionTool(te, ToolFailed);
        } else if d.Allow? && adopted {
          TransitionTool(te, ToolRunning);
          Append(ToolStarted(te), By(ctx));
        }
      }
      if created || adopted { Append(PolicyAudited(te), By(ctx)); }
    }

    /** The claimed row, or insert-if-absent; both re-check the call's identity. */
    method LocateForApproval(ctx: Ctx, call: CallId, sig: Signature, args: Fp, claimed: Option<TeId>) returns (err: Option<Err>)
      modifies this`tools, this`toolOrder
      ensures match LocateTool(old(Tables()), ctx, call, sig, args, claimed)
              case Got(db, _, _) => err.None? && Tables() == db
              case Refused(e) => err == Some(e) && Tables() == old(Tables())
    {
      if claimed.None? {
        var created, adopted;
        err, created, adopted := GetOrCreateTool(ctx, call, sig, args, None, false);
        return;
      }
      var te := claimed.value;
      if te !in tools || ctx.run !in runs { return Some(NotFound); }
      if te != Te(ctx.run, call) || runs[ctx.run].session != ctx.session { return Some(Conflict); }
      if tools[te].sig != sig || tools[te].args != args { return Some(Conflict); }
      err := None;
    }

    method AskApproval(ctx: Ctx, call: CallId, sig: Signature, args: Fp, claimed: Option<TeId>) returns (err: Option<Err>)
      modifies this
      ensures Observed(Step(old(Tables()), RequestApproval(ctx, call, sig, args, claimed)), old(Tables()), Tables(), err)
      ensures old(Valid()) ==> Valid()
    {
      StepInv(Tables(), RequestApproval(ctx, call, sig, args, claimed));
      hide Inv, ParkForApproval, LocateTool;
      if !Fenced(Tables(), ctx) { return Some(StaleFence); }
      if ctx.run !in runs { return Some(NotFound); }
      var run := runs[ctx.run].status;
      if !run.Running? && !run.WaitingApproval? { return Some(Conflict); }
      var saved := Tables();
      var te := Te(ctx.run, call);
      err := LocateForApproval(ctx, call, sig, args, claimed);
      if err.Some? { return; }
      err := ParkApproval(ctx, te, run);
      if err.Some? { Rollback(saved); }
    }

    method ParkApproval(ctx: Ctx, te: TeId, run: RunStatus) returns (err: Option<Err>)
      requires te in tools
      modifies this
      ensures Finished(ParkForApproval(old(Tables()), ctx, te, run), Tables(), err)
    {
      hide FindApproval, ApprovalFor;
      if tools[te].status.Proposed? { TransitionTool(te, ToolWaiting); }
      var existing := ApprovalFor(approvals, te);
      if existing.Some? && !approvals[existing.value].status.ApprovalPending? { return Some(PolicyConflict); }
      if existing.None? {
        approvals := approvals + [Approval(te, ApprovalPending)];
        if run.WaitingApproval? { return Some(Conflict); }
        Append(ApprovalAsked(|approvals| - 1), By(ctx));
      }
      if run.Running? && ctx.run in runs { UpdateRunStatus(ctx.run, WaitingApproval, By(ctx)); }
      err := None;
    }

    method LocateForInput(ctx: Ctx, call: CallId, sig: Signature, args: Fp, claimed: Option<TeId>) returns (err: Option<Err>)
      modifies this`tools, this`toolOrder
      ensures match LocateInputTool(old(Tables()), ctx, call, sig, args, claimed)
              case Got(db, _, _) => err.None? && Tables() == db
              case Refused(e) => err == Some(e) && Tables() == old(Tables())
    {
      err := None;
      if claimed.Some? {
        if claimed.value !in tools { return Some(NotFound); }
        if claimed.value != Te(ctx.run, call) { return Some(Conflict); }
      } else if Te(ctx.run, call) !in tools {
        var created, adopted;
        err, created, adopted := GetOrCreateTool(ctx, call, sig, args, None, false);
      }
    }

    method AskInput(ctx: Ctx, call: CallId, sig: Signature, args: Fp, claimed: Option<TeId>, request: Fp) returns (err: Option<Err>)
      modifies this
      ensures Observed(Step(old(Tables()), RequestInput(ctx, call, sig, args, claimed, request)), old(Tables()), Tables(), err)
      ensures old(Valid()) ==> Valid()
    {
      StepInv(Tables(), RequestInput(ctx, call, sig, args, claimed, request));
      hide Inv, ParkForInput, LocateInputTool;
      if !Fenced(Tables(), ctx) { return Some(StaleFence); }
      if ctx.run !in runs { return Some(NotFound); }
      if runs[ctx.run].session != ctx.session { return Some(Conflict); }
      var run := runs[ctx.run].status;
      if !run.Running? && !run.WaitingInput? { return Some(Conflict); }
      var saved := Tables();
      var te := Te(ctx.run, call);
      err := LocateForInput(ctx, call, sig, args, claimed);
      if err.Some? { return; }
      err := ParkInput(ctx, te, request, run);
      if err.Some? { Rollback(saved); }
    }

    method ParkInput(ctx: Ctx, te: TeId, request: Fp, run: RunStatus) returns (err: Option<Err>)
      requires te in tools
      modifies this
      ensures Finished(ParkForInput(old(Tables()), ctx, te, request, run), Tables(), err)
    {
      hide InputFor;
      err := None;
      if tools[te].status.Proposed? { TransitionTool(te, ToolRunning); }
      if !tools[te].status.ToolRunning? { return Some(Conflict); }
      var existing := InputFor(interactions, te);
      if existing.Some? {
        var row := interactions[existing.value];
        if row.request != request || !row.status.InputPending? { err := Some(Conflict); }
        return;
      }
      if run.WaitingInput? || HasPendingInput(Tables(), ctx.run) { return Some(Conflict); }
      interactions := interactions + [Interaction(te, request, InputPending, None, NoPhase)];
      Append(InputAsked(|interactions| - 1), By(ctx));
      if ctx.run !in runs { return Some(NotFound); }
      UpdateRunStatus(ctx.run, WaitingInput, By(ctx));
    }

    /** Write-once request hash and fence of a sandbox call about to be dispatched. */
    method BindRequest(ctx: Ctx, te: TeId, request: Fp) returns (err: Option<Err>)
      requires te in tools
      modifies this`tools
      ensures Observed(BindDispatched(old(Tables()), ctx, te, request), old(Tables()), Tables(), err)
    {
      err := None;
      var t := tools[te];
      if !(t.status.ToolRunning? && t.sig.sandbox && ctx.sandboxed) { return; }
      if te.run !in runs { return Some(NotFound); }
      if runs[te.run].session != ctx.session || !runs[te.run].status.Running? { return Some(Conflict); }
      var b := Binding(request, ctx.fence);
      if t.binding.None? {
        tools := tools[te := t.(binding := Some(b))];
      } else if t.binding != Some(b) {
        err := Some(Conflict);
      }
    }

    method RecordToolStarted(ctx: Ctx, call: CallId, sig: Signature, args: Option<Fp>, approval: Option<nat>, preflight: bool)
      returns (err: Option<Err>)
      modifies this
      ensures Observed(Step(old(Tables()), Start(ctx, call, sig, args, approval, preflight)), old(Tables()), Tables(), err)
      ensures old(Valid()) ==> Valid()
    {
      StepInv(Tables(), Start(ctx, call, sig, args, approval, preflight));
      hide Inv, GetOrCreate, Launch;
      if !Fenced(Tables(), ctx) { return Some(StaleFence); }
      var saved := Tables();
      var te := Te(ctx.run, call);
      var given := if args.Some? then args.value else EMPTY_ARGS;
      if te in tools {
        var t := tools[te];
        if t.sig != sig || (!(preflight && args.None?) && t.args != given) { return Some(Conflict); }
        if t.status.ToolWaiting? {
          if approval.None? { return Some(Conflict); }
          if approval.value >= |approvals| { return Some(NotFound); }
          if approvals[approval.value].te != te || !approvals[approval.value].status.Approved? { return Some(Conflict); }
          if preflight { return None; }
        }
        if TerminalTool(t.status) { return if approval.Some? then Some(Conflict) else None; }
      } else {
        if approval.Some? { return Some(Conflict); }
        var created, adopted;
        err, created, adopted := GetOrCreateTool(ctx, call, sig, given, None, true);
        if err.Some? { return; }
      }
      err := LaunchTool(ctx, te, given, approval);
      if err.Some? { Rollback(saved); }
    }

    /** The start event is appended after the binding, and only when the row moved. */
    method LaunchTool(ctx: Ctx, te: TeId, given: Fp, approval: Option<nat>) returns (err: Option<Err>)
      requires te in tools
      modifies this
      ensures Finished(Launch(old(Tables()), ctx, te, given, approval), Tables(), err)
    {
      hide BindDispatched;
      var changed := !tools[te].status.ToolRunning?;
      if changed {
        TransitionTool(te, ToolRunning);
      } else if approval.Some? {
        return Some(Conflict);
      }
      BindCommutes(Tables(), ctx, te, given, ToolStarted(te), By(ctx));
      err := BindRequest(ctx, te, given);
      if err.None? && changed { Append(ToolStarted(te), By(ctx)); }
    }

    method RecordToolEnded(ctx: Ctx, call: CallId, sig: Signature, isError: bool, result: Option<Fp>, args: Option<Fp>, artifact: bool)
      returns (err: Option<Err>)
      modifies this
      ensures Observed(Step(old(Tables()), End(ctx, call, sig, isError, result, args, artifact)), old(Tables()), Tables(), err)
      ensures old(Valid()) ==> Valid()
    {
      StepInv(Tables(), End(ctx, call, sig, isError, result, args, artifact));
      hide Inv, GetOrCreate, FinishCall;
      err := None;
      if !Fenced(Tables(), ctx) { return Some(StaleFence); }
      var te := Te(ctx.run, call);
      var to := if isError then ToolFailed else ToolSucceeded;
      if te in tools {
        if tools[te].sig != sig || (args.Some? && tools[te].args != args.value) { return Some(Conflict); }
      } else {
        var created, adopted;
        err, created, adopted := GetOrCreateTool(ctx, call, sig, EMPTY_ARGS, None, false);
        if err.Some? { return; }
      }
      FreshCallFinishes(Tables(), ctx, te, to, result, artifact);
      err := EndCall(ctx, te, to, result, artifact);
    }

    method EndCall(ctx: Ctx, te: TeId, to: ToolStatus, result: Option<Fp>, artifact: bool) returns (err: Option<Err>)
      requires te in tools
      modifies this
      ensures Observed(FinishCall(old(Tables()), ctx, te, to, result, artifact), old(Tables()), Tables(), err)
    {
      err := None;
      if tools[te].status.Proposed? || tools[te].status.ToolRunning? {
        if tools[te].status.Proposed? { TransitionTool(te, ToolRunning); }
        CompleteTool(te, to, result, By(ctx));
        if artifact && to.ToolSucceeded? { Append(Noted(ctx.run), By(ctx)); }
      } else if tools[te].status != to || (result.Some? && tools[te].result != result) {
        err := Some(Conflict);
      }
    }

    method RecordToolUnknown(ctx: Ctx, call: CallId, sig: Signature, result: Option<Fp>, args: Option<Fp>) returns (err: Option<Err>)
      modifies this
      ensures Observed(Step(old(Tables()), MarkUnknown(ctx, call, sig, result, args)), old(Tables()), Tables(), err)
      ensures old(Valid()) ==> Valid()
    {
      StepInv(Tables(), MarkUnknown(ctx, call, sig, result, args));
      hide Inv;
      if !Fenced(Tables(), ctx) { return Some(StaleFence); }
      var te := Te(ctx.run, call);
      if te !in tools { return Some(Conflict); }
      var t := tools[te];
      if t.sig != sig || (args.Some? && t.args != args.value) { return Some(Conflict); }
      if t.status.ToolRunning? {
        CompleteTool(te, ToolUnknown, Some(if result.Some? then result.value else Marker(0)), By(ctx));
        return None;
      }
      err := if t.status.ToolUnknown? && (result.None? || result == t.result) then None else Some(Conflict);
    }

    // -------------------------------------------------------------- humans

    method Resolve(a: nat, runHint: Option<RunId>, approve: bool) returns (err: Option<Err>)
      modifies this
      ensures Observed(Step(old(Tables()), Decide(a, runHint, approve)), old(Tables()), Tables(), err)
      ensures old(Valid()) ==> Valid()
    {
      StepInv(Tables(), Decide(a, runHint, approve));
      hide Inv;
      if a >= |approvals| { return Some(NotFound); }
      var te := approvals[a].te;
      if runHint.Some? && runHint.value != te.run { return Some(Conflict); }
      if te.run !in runs || te !in tools { return Some(NotFound); }
      var to := if approve then Approved else Rejected;
      if !approvals[a].status.ApprovalPending? {
        return if approvals[a].status == to then None else Some(Conflict);
      }
      if !runs[te.run].status.WaitingApproval? || !tools[te].status.ToolWaiting? { return Some(Conflict); }
      approvals := approvals[a := approvals[a].(status := to)];
      Append(ApprovalSettled(a), None);
      if !approve { CompleteTool(te, ToolFailed, Some(Marker(1)), None); }
      err := None;
    }

    method Answer(run: RunId, i: nat, response: Fp) returns (err: Option<Err>)
      modifies this
      ensures Observed(Step(old(Tables()), Respond(run, i, response)), old(Tables()), Tables(), err)
      ensures old(Valid()) ==> Valid()
    {
      StepInv(Tables(), Respond(run, i, response));
      hide Inv;
      err := None;
      if run !in runs || i >= |interactions| { return Some(NotFound); }
      var row := interactions[i];
      if row.te.run != run { return Some(Conflict); }
      if row.te !in tools { return Some(NotFound); }
      if !row.status.InputPending? {
        return if row.status.InputResolved? && row.response == Some(response) then None else Some(Conflict);
      }
      if !runs[run].status.WaitingInput? { return Some(Conflict); }
      var saved := Tables();
      var answer := Some(AnswerOf(i, response));
      interactions := interactions[i := row.(status := InputResolved, response := Some(response), phase := Ready)];
      if tools[row.te].status.ToolRunning? {
        CompleteTool(row.te, ToolSucceeded, answer, None);
      } else if !(tools[row.te].status.ToolSucceeded? && tools[row.te].result == answer) {
        Rollback(saved);
        return Some(Conflict);
      }
      Append(InputAnswered(i), None);
    }

    // -------------------------------------------------------------- resuming under the Run lease

    /** WAITING_APPROVAL -> RUNNING once the newest approval is settled and its tool agrees. */
    method ResumeAfterApproval(run: RunId) returns (err: Option<Err>)
      modifies this
      ensures Observed(Step(old(Tables()), ResumeApproval(run)), old(Tables()), Tables(), err)
      ensures old(Valid()) ==> Valid()
    {
      StepInv(Tables(), ResumeApproval(run));
      hide Inv, LastApproval;
      if run !in runs { return Some(NotFound); }
      if !runs[run].status.WaitingApproval? || HasPendingApproval(Tables(), run) { return Some(Conflict); }
      var last := LastApproval(approvals, run);
      if last.None? { return Some(Conflict); }
      var a := approvals[last.value];
      if a.te !in tools { return Some(NotFound); }
      var parked, failed := tools[a.te].status.ToolWaiting?, tools[a.te].status.ToolFailed?;
      if !(a.status.Approved? && parked) && !(a.status.Rejected? && failed) { return Some(Conflict); }
      UpdateRunStatus(run, Running, None);
      err := None;
    }

    /** WAITING_INPUT -> RUNNING claims the newest answered interaction. */
    method ResumeAfterInput(run: RunId) returns (err: Option<Err>)
      modifies this
      ensures Observed(Step(old(Tables()), ResumeInput(run)), old(Tables()), Tables(), err)
      ensures old(Valid()) ==> Valid()
    {
      StepInv(Tables(), ResumeInput(run));
      hide Inv, LastInput;
      if run !in runs { return Some(NotFound); }
      if !runs[run].status.WaitingInput? || HasPendingInput(Tables(), run) { return Some(Conflict); }
      var last := LastInput(interactions, run, IsResolved);
      if last.None? { return Some(Conflict); }
      var x := interactions[last.value];
      if x.te !in tools { return Some(NotFound); }
      if !tools[x.te].status.ToolSucceeded? || x.phase.Applied? { return Some(Conflict); }
      interactions := interactions[last.value := x.(phase := Claimed)];
      UpdateRunStatus(run, Running, None);
      err := None;
    }

    // -------------------------------------------------------------- cancelling a parked Run

    method CloseOpenTools(run: RunId)
      modifies this`tools, this`log
      ensures Tables() == CloseTools(old(Tables()), run, toolOrder)
    {
      var k := 0;
      assert toolOrder[0..] == toolOrder;
      while k < |toolOrder|
        invariant k <= |toolOrder|
        invariant CloseTools(Tables(), run, toolOrder[k..]) == CloseTools(old(Tables()), run, toolOrder)
      {
        var te := toolOrder[k];
        assert toolOrder[k..][1..] == toolOrder[k + 1..];
        if te.run == run && te in tools && !TerminalTool(tools[te].status) {
          CompleteTool(te, if tools[te].status.ToolRunning? then ToolUnknown else ToolCancelled, Some(Marker(2)), None);
        }
        k := k + 1;
      }
    }

    method CancelOpenTools(run: RunId)
      modifies this`tools, this`log
      ensures Tables() == CancelTools(old(Tables()), run, toolOrder)
    {
      var k := 0;
      assert toolOrder[0..] == toolOrder;
      while k < |toolOrder|
        invariant k <= |toolOrder|
        invariant CancelTools(Tables(), run, toolOrder[k..]) == CancelTools(old(Tables()), run, toolOrder)
      {
        var te := toolOrder[k];
        assert toolOrder[k..][1..] == toolOrder[k + 1..];
        if te.run == run && te in tools && !TerminalTool(tools[te].status) {
          CompleteTool(te, ToolCancelled, Some(Marker(3)), None);
        }
        k := k + 1;
      }
    }

    method CancelPendingApprovals(run: RunId)
      modifies this`approvals, this`log
      ensures Tables() == CancelApprovals(old(Tables()), run, 0)
    {
      var k := 0;
      while k < |approvals|
        invariant k <= |approvals|
        invariant CancelApprovals(Tables(), run, k) == CancelApprovals(old(Tables()), run, 0)
        decreases |approvals| - k
      {
        if approvals[k].te.run == run && approvals[k].status.ApprovalPending? {
          approvals := approvals[k := approvals[k].(status := ApprovalCancelled)];
          Append(ApprovalSettled(k), None);
        }
        k := k + 1;
      }
    }

    /** WAITING -> RUNNING -> CANCELLING -> CANCELLED, then close what is left. */
    method UnwindRun(run: RunId)
      requires run in runs
      modifies this`runs, this`tools, this`log
      ensures Tables() == Unwind(old(Tables()), run)
    {
      hide CloseTools;
      UpdateRunStatus(run, Running, None);
      UpdateRunStatus(run, Cancelling, None);
      UpdateRunStatus(run, RunCancelled, None);
      CloseOpenTools(run);
    }

    method CancelWaitingApproval(run: RunId) returns (err: Option<Err>)
      modifies this
      ensures Observed(Step(old(Tables()), CancelParkedApproval(run)), old(Tables()), Tables(), err)
      ensures old(Valid()) ==> Valid()
    {
      StepInv(Tables(), CancelParkedApproval(run));
      hide Inv, Unwind, CancelTools, CancelApprovals;
      if run !in runs { return Some(NotFound); }
      if !runs[run].status.WaitingApproval? { return Some(Conflict); }
      CancelPendingApprovals(run);
      CancelOpenTools(run);
      UnwindRun(run);
      err := None;
    }

    method WithdrawOpenQuestion(pending: Option<nat>, te: TeId)
      requires te in tools && (pending.Some? ==> pending.value < |interactions|)
      modifies this`interactions, this`tools, this`log
      ensures Tables() == WithdrawQuestion(old(Tables()), pending, te)
    {
      if pending.Some? {
        interactions := interactions[pending.value := interactions[pending.value].(status := InputCancelled)];
        Append(InputWithdrawn(pending.value), None);
      }
      if !TerminalTool(tools[te].status) { CompleteTool(te, ToolCancelled, Some(Marker(4)), None); }
    }

    method CancelWaitingInput(run: RunId) returns (err: Option<Err>)
      modifies this
      ensures Observed(Step(old(Tables()), CancelParkedInput(run)), old(Tables()), Tables(), err)
      ensures old(Valid()) ==> Valid()
    {
      StepInv(Tables(), CancelParkedInput(run));
      hide Inv, Unwind, LastInput, WithdrawQuestion;
      if run !in runs { return Some(NotFound); }
      if !runs[run].status.WaitingInput? { return Some(Conflict); }
      var pending := LastInput(interactions, run, IsPending);
      var chosen := if pending.Some? then pending else LastInput(interactions, run, IsSettled);
      if chosen.None? { return Some(Conflict); }
      if exists i :: 0 <= i < chosen.value && interactions[i].te.run == run && interactions[i].status.InputPending? {
        return Some(Conflict);
      }
      var te := interactions[chosen.value].te;
      if te !in tools { return Some(NotFound); }
      if tools[te].status.ToolUnknown? { return Some(Conflict); }
      WithdrawOpenQuestion(pending, te);
      UnwindRun(run);
      err := None;
    }

    // -------------------------------------------------------------- approved replay

    /** This granted approval still has its call parked, with the same name and arguments. */
    predicate Claimable(a: nat, run: RunId, name: nat, args: Fp)
      reads this
    {
      && a < |approvals| && approvals[a].te.run == run && approvals[a].status.Approved?
      && approvals[a].te in tools
      && var t := tools[approvals[a].te]; t.sig.name == name && t.status.ToolWaiting? && t.args == args
    }

    /** The oldest claimable approval of a Run, if there is one. */
    method FindResolvedByDigest(run: RunId, name: nat, args: Fp) returns (found: Option<nat>)
      ensures found.Some? ==> Claimable(found.value, run, name, args)
      ensures forall i: nat :: Claimable(i, run, name, args) ==> found.Some? && found.value <= i
    {
      var k := 0;
      while k < |approvals|
        invariant k <= |approvals|
        invariant forall i: nat :: i < k ==> !Claimable(i, run, name, args)
      {
        if approvals[k].te.run == run && approvals[k].status.Approved? && approvals[k].te in tools {
          var t := tools[approvals[k].te];
          if t.sig.name == name && t.status.ToolWaiting? && t.args == args { return Some(k); }
        }
        k := k + 1;
      }
      found := None;
    }

    /** Claim an approved call for replay: the start transaction is the one-time claim. */
    method Consume(ctx: Ctx, call: CallId, sig: Signature, args: Fp, expected: Fp, a: nat) returns (err: Option<Err>)
      modifies this
      ensures args != expected ==> err.Some? && Tables() == old(Tables())
      ensures args == expected ==>
                Observed(Step(old(Tables()), Start(ctx, call, sig, Some(args), Some(a), false)), old(Tables()), Tables(), err)
      ensures err.None? ==> Te(ctx.run, call) in tools && tools[Te(ctx.run, call)].status.ToolRunning?
      ensures old(Valid()) ==> Valid()
    {
      hide Inv;
      if args != expected { return Some(Conflict); }
      err := RecordToolStarted(ctx, call, sig, Some(args), Some(a), false);
    }
  }

  lemma {:induction false} StepInv(db: Db, op: Op)
    ensures Inv(db) ==> var tx := Step(db, op); tx.Commit? ==> Inv(tx.db)
  {
    hide Inv, Step;
    if Inv(db) { StepKeeps(db, op); }
  }

  /** Ending a call that has not started cannot fail. */
  lemma {:induction false} FreshCallFinishes(db: Db, ctx: Ctx, te: TeId, to: ToolStatus, result: Option<Fp>, artifact: bool)
    requires te in db.tools
    ensures db.tools[te].status.Proposed? ==> FinishCall(db, ctx, te, to, result, artifact).Commit?
    ensures db.tools[te].status.ToolWaiting? && !to.ToolWaiting? ==> FinishCall(db, ctx, te, to, result, artifact) == Abort(Conflict)
  {
  }

  /** Binding the request and appending an event touch different tables. */
  lemma {:induction false} BindCommutes(db: Db, ctx: Ctx, te: TeId, request: Fp, k: EventKey, w: Option<Writer>)
    requires te in db.tools
    ensures match BindDispatched(db, ctx, te, request)
            case Commit(after) => BindDispatched(Emit(db, k, w), ctx, te, request) == Commit(Emit(after, k, w))
            case Abort(e) => BindDispatched(Emit(db, k, w), ctx, te, request) == Abort(e)
  {
  }
}
