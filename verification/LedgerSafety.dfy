/** Every transaction keeps the ledger invariant, so every history does. */
module LedgerSafety {
  import opened Statuses
  import opened LedgerState
  import opened LedgerSteps
  import opened LedgerInvariant

  // ---------------------------------------------------------------- frames

  /** A tool row moved forward: approvals stay consistent with it. */
  lemma {:induction false} LinkedTool(db: Db, db': Db, te: TeId)
    requires Linked(db) && db'.approvals == db.approvals
    requires te in db'.tools && db'.tools == db.tools[te := db'.tools[te]]
    requires te !in db.tools ==> forall i :: 0 <= i < |db.approvals| ==> db.approvals[i].te != te
    requires te !in db.tools ==> !db'.tools[te].status.ToolWaiting?
    requires te in db.tools ==>
               && (db'.tools[te].status.Proposed? ==> db.tools[te].status.Proposed?)
               && (db'.tools[te].status.ToolWaiting? ==> db.tools[te].status.ToolWaiting?)
               && (db.tools[te].status.ToolFailed? ==> db'.tools[te].status.ToolFailed?)
    ensures Linked(db')
  {
    forall x | x in db'.tools && db'.tools[x].status.ToolWaiting?
      ensures LiveApproval(db', x)
    {
      assert LiveApproval(db, x);
    }
  }

  lemma {:induction false} SameRows(db: Db, db': Db)
    requires Linked(db) && ParkedRuns(db)
    requires db'.approvals == db.approvals && db'.tools == db.tools
    requires db'.interactions == db.interactions && db'.runs == db.runs
    ensures Linked(db') && ParkedRuns(db')
  {
    forall x | x in db'.tools && db'.tools[x].status.ToolWaiting?
      ensures LiveApproval(db', x)
    {
      assert LiveApproval(db, x);
    }
  }

  lemma {:induction false} SameParked(db: Db, db': Db)
    requires ParkedRuns(db)
    requires db'.approvals == db.approvals && db'.interactions == db.interactions && db'.runs == db.runs
    ensures ParkedRuns(db')
  {
  }

  // ---------------------------------------------------------------- invariant-keeping writes

  lemma {:induction false} AddToolKeeps(db: Db, te: TeId, t: Tool)
    requires Inv(db) && te !in db.tools && te.run in db.runs && t.status.Proposed? && t.policy.None?
    ensures Inv(AddTool(db, te, t))
  {
    hide ToolLog, ApprovalLog, InputLog, RunLog, Fencing, ParkedRuns;
    AddToolLocal(db, te, t);
    LinkedTool(db, AddTool(db, te, t), te);
    SameParked(db, AddTool(db, te, t));
  }

  lemma {:induction false} StartToolKeeps(db: Db, te: TeId, emit: bool, w: Option<Writer>)
    requires Inv(db) && te in db.tools && WriterOk(db, w)
    requires db.tools[te].status.Proposed? || (emit && db.tools[te].status.ToolWaiting?)
    ensures Inv(StartTool(db, te, emit, w))
  {
    hide Local, ParkedRuns;
    if emit { StartToolLocal(db, te, w); } else { SilentMoveLocal(db, te, ToolRunning); }
    LinkedTool(db, StartTool(db, te, emit, w), te);
    SameParked(db, StartTool(db, te, emit, w));
  }

  lemma {:induction false} FinishToolKeeps(db: Db, te: TeId, to: ToolStatus, result: Option<Fp>, w: Option<Writer>)
    requires Inv(db) && te in db.tools && WriterOk(db, w)
    requires !TerminalTool(db.tools[te].status) && TerminalTool(to)
    ensures Inv(FinishTool(db, te, to, result, w))
  {
    hide Local, ParkedRuns;
    FinishToolLocal(db, te, to, result, w);
    LinkedTool(db, FinishTool(db, te, to, result, w), te);
    SameParked(db, FinishTool(db, te, to, result, w));
  }

  lemma {:induction false} EmitKeeps(db: Db, k: EventKey, w: Option<Writer>)
    requires Inv(db) && WriterOk(db, w) && k.Noted?
    ensures Inv(Emit(db, k, w))
  {
    hide Local, ParkedRuns, Linked;
    EmitLocal(db, k, w);
    SameRows(db, Emit(db, k, w));
  }

  lemma {:induction false} BindDispatchedKeeps(db: Db, ctx: Ctx, te: TeId, request: Fp)
    requires Inv(db) && te in db.tools
    ensures var tx := BindDispatched(db, ctx, te, request); tx.Commit? ==> Inv(tx.db)
  {
    hide Local, ParkedRuns;
    var b := Binding(request, ctx.fence);
    BindLocal(db, te, b);
    LinkedTool(db, Bind(db, te, b), te);
    SameParked(db, Bind(db, te, b));
  }

  lemma {:induction false} GetOrCreateKeeps(db: Db, ctx: Ctx, call: CallId, sig: Signature, args: Fp, pending: bool)
    requires Inv(db)
    ensures var g := GetOrCreate(db, ctx, call, sig, args, None, pending);
            g.Got? ==> && Inv(g.db) && g.db == db.(tools := g.db.tools, toolOrder := g.db.toolOrder)
                       && g.db.tools == db.tools[Te(ctx.run, call) := g.db.tools[Te(ctx.run, call)]]
                       && (Te(ctx.run, call) in db.tools ==> g.db == db)
                       && (Te(ctx.run, call) !in db.tools ==> g.db.tools[Te(ctx.run, call)].status.Proposed?)
  {
    hide Local, ParkedRuns, Linked;
    var te := Te(ctx.run, call);
    if te !in db.tools && ctx.run in db.runs {
      AddToolKeeps(db, te, Tool(sig, args, Proposed, None, pending, None, None));
    }
  }

  lemma FenceWriter(db: Db, ctx: Ctx)
    requires Fenced(db, ctx)
    ensures WriterOk(db, By(ctx)) && WriterOk(db, None)
  {
  }

  // ---------------------------------------------------------------- recorder transactions

  /** Nothing has been announced about a row that is absent or still PROPOSED. */
  lemma {:induction false} Untouched(db: Db, te: TeId)
    requires Inv(db)
    requires te in db.tools ==> db.tools[te].status.Proposed?
    ensures ToolEvents(db.log, te) == []
    ensures te !in db.tools ==> forall i :: 0 <= i < |db.approvals| ==> db.approvals[i].te != te
  {
    hide ToolEvents, Tally, RunFold, ApprovalLog, InputLog, RunLog, Fencing, ParkedRuns;
  }

  lemma {:induction false} PolicyCreates(db: Db, te: TeId, t: Tool, w: Option<Writer>)
    requires Inv(db) && te !in db.tools && te.run in db.runs && WriterOk(db, w)
    requires t.policy.Some? && (t.status.Proposed? || t.status.ToolFailed?)
    ensures Inv(Emit(AddTool(db, te, t), PolicyAudited(te), w))
  {
    hide Local, ParkedRuns, Linked, ToolEvents;
    Untouched(db, te);
    AuditedLocal(db, te, t, w);
    LinkedTool(db, Emit(AddTool(db, te, t), PolicyAudited(te), w), te);
    SameParked(db, Emit(AddTool(db, te, t), PolicyAudited(te), w));
  }

  /** Adopting a pre-policy placeholder: optionally start or deny it, then record policy and audit. */
  lemma {:induction false} PolicyAdopts(db: Db, te: TeId, pf: Fp, to: ToolStatus, w: Option<Writer>)
    requires Inv(db) && te in db.tools && te.run in db.runs && WriterOk(db, w)
    requires db.tools[te].status.Proposed? && db.tools[te].policy.None?
    requires to.Proposed? || to.ToolRunning? || to.ToolFailed?
    ensures var base := if to.ToolRunning? then StartTool(db, te, true, w) else db;
            var t := db.tools[te].(policy := Some(pf), policyPending := false, status := to);
            Inv(Emit(base.(tools := base.tools[te := t]), PolicyAudited(te), w))
  {
    hide Local, ParkedRuns, Linked, ToolEvents, Tally, RunFold;
    var base := if to.ToolRunning? then StartTool(db, te, true, w) else db;
    var t := db.tools[te].(policy := Some(pf), policyPending := false, status := to);
    Untouched(db, te);
    if to.ToolRunning? {
      StartToolKeeps(db, te, true, w);
      AppendOne(db.log, Event(ToolStarted(te), w), te);
    }
    AuditedLocal(base, te, t, w);
    var db' := Emit(base.(tools := base.tools[te := t]), PolicyAudited(te), w);
    LinkedTool(base, db', te);
    SameParked(base, db');
  }

  lemma {:induction false} PolicyKeeps(db: Db, ctx: Ctx, call: CallId, sig: Signature, args: Fp, d: Decision, pf: Fp)
    requires Inv(db)
    ensures var tx := PolicyStep(db, ctx, call, sig, args, d, pf); tx.Commit? ==> Inv(tx.db)
  {
    hide Local, ParkedRuns, Linked;
    var tx := PolicyStep(db, ctx, call, sig, args, d, pf);
    var te := Te(ctx.run, call);
    var g := GetOrCreate(db, ctx, call, sig, args, Some(pf), false);
    if tx.Commit? {
      var w := By(ctx);
      FenceWriter(db, ctx);
      if g.created {
        var t := Tool(sig, args, if d.Deny? then ToolFailed else Proposed, Some(pf), false, None, None);
        PolicyCreates(db, te, t, w);
        assert db.tools[te := t.(status := Proposed)][te := t] == db.tools[te := t];
      } else if g.adopted {
        var to := if d.Allow? then ToolRunning else if d.Deny? then ToolFailed else Proposed;
        PolicyAdopts(db, te, pf, to, w);
        var base := if d.Allow? then StartTool(db, te, true, w) else db;
        var t := db.tools[te].(policy := Some(pf), policyPending := false, status := to);
        assert tx.db.tools == base.tools[te := t];
      } else if d.Deny? && db.tools[te].status.Proposed? {
        SilentMoveLocal(db, te, ToolFailed);
        LinkedTool(db, tx.db, te);
        SameParked(db, tx.db);
      }
    }
  }

  lemma {:induction false} StartKeeps(db: Db, ctx: Ctx, call: CallId, sig: Signature, args: Option<Fp>,
                                      approval: Option<nat>, preflight: bool)
    requires Inv(db)
    ensures var tx := StartStep(db, ctx, call, sig, args, approval, preflight); tx.Commit? ==> Inv(tx.db)
  {
    hide Local, ParkedRuns, Linked;
    var te := Te(ctx.run, call);
    var given := if args.Some? then args.value else EMPTY_ARGS;
    if Fenced(db, ctx) {
      FenceWriter(db, ctx);
      if te in db.tools {
        BindDispatchedKeeps(db, ctx, te, given);
        if db.tools[te].status.Proposed? || db.tools[te].status.ToolWaiting? {
          StartToolKeeps(db, te, true, By(ctx));
          BindDispatchedKeeps(StartTool(db, te, true, By(ctx)), ctx, te, given);
        }
      } else {
        GetOrCreateKeeps(db, ctx, call, sig, given, true);
        var g := GetOrCreate(db, ctx, call, sig, given, None, true);
        if g.Got? {
          StartToolKeeps(g.db, te, true, By(ctx));
          BindDispatchedKeeps(StartTool(g.db, te, true, By(ctx)), ctx, te, given);
        }
      }
    }
  }

  lemma {:induction false} EndKeeps(db: Db, ctx: Ctx, call: CallId, sig: Signature, isError: bool,
                                    result: Option<Fp>, args: Option<Fp>, artifact: bool)
    requires Inv(db)
    ensures var tx := EndStep(db, ctx, call, sig, isError, result, args, artifact); tx.Commit? ==> Inv(tx.db)
  {
    hide Local, ParkedRuns, Linked;
    var te := Te(ctx.run, call);
    var to := if isError then ToolFailed else ToolSucceeded;
    var tx := EndStep(db, ctx, call, sig, isError, result, args, artifact);
    if tx.Commit? {
      FenceWriter(db, ctx);
      GetOrCreateKeeps(db, ctx, call, sig, EMPTY_ARGS, false);
      var g := if te in db.tools then Got(db, false, false) else GetOrCreate(db, ctx, call, sig, EMPTY_ARGS, None, false);
      var t := g.db.tools[te];
      if t.status.Proposed? { StartToolKeeps(g.db, te, false, None); }
      if t.status.Proposed? || t.status.ToolRunning? {
        var db2 := if t.status.Proposed? then StartTool(g.db, te, false, None) else g.db;
        FinishToolKeeps(db2, te, to, result, By(ctx));
        EmitKeeps(FinishTool(db2, te, to, result, By(ctx)), Noted(ctx.run), By(ctx));
      }
    }
  }

  lemma {:induction false} UnknownKeeps(db: Db, ctx: Ctx, call: CallId, sig: Signature, result: Option<Fp>, args: Option<Fp>)
    requires Inv(db)
    ensures var tx := UnknownStep(db, ctx, call, sig, result, args); tx.Commit? ==> Inv(tx.db)
  {
    hide Local, ParkedRuns, Linked;
    var te := Te(ctx.run, call);
    if Fenced(db, ctx) && te in db.tools && db.tools[te].status.ToolRunning? {
      FinishToolKeeps(db, te, ToolUnknown, Some(if result.Some? then result.value else Marker(0)), By(ctx));
    }
  }

  // ---------------------------------------------------------------- parking

  /** Parking a tool and opening its approval moves the Run from RUNNING to WAITING_APPROVAL. */
  lemma {:induction false} OpenApprovalKeeps(db: Db, te: TeId, w: Option<Writer>)
    requires Inv(db) && te in db.tools && WriterOk(db, w)
    requires te.run in db.runs && db.runs[te.run].status.Running?
    requires forall i :: 0 <= i < |db.approvals| ==> db.approvals[i].te != te
    ensures var parked := if db.tools[te].status.Proposed? then ParkTool(db, te) else db;
            Inv(MoveRun(AddApproval(parked, te, w), te.run, WaitingApproval, w))
  {
    hide Shape, ToolLog, ApprovalLog, InputLog, RunLog, Fencing, Linked;
    var parked := if db.tools[te].status.Proposed? then ParkTool(db, te) else db;
    if db.tools[te].status.Proposed? { SilentMoveLocal(db, te, ToolWaiting); }
    AddApprovalLocal(parked, te, w);
    var asked := AddApproval(parked, te, w);
    MoveRunLocal(asked, te.run, WaitingApproval, w);
    OpenApprovalLinked(db, te, w);
  }

  lemma {:induction false} OpenApprovalLinked(db: Db, te: TeId, w: Option<Writer>)
    requires Linked(db) && te in db.tools && te.run in db.runs
    ensures var parked := if db.tools[te].status.Proposed? then ParkTool(db, te) else db;
            Linked(MoveRun(AddApproval(parked, te, w), te.run, WaitingApproval, w))
  {
    var parked := if db.tools[te].status.Proposed? then ParkTool(db, te) else db;
    var db' := MoveRun(AddApproval(parked, te, w), te.run, WaitingApproval, w);
    assert db'.approvals[|db.approvals|] == Approval(te, ApprovalPending);
    forall x | x in db'.tools && db'.tools[x].status.ToolWaiting?
      ensures LiveApproval(db', x)
    {
      if x != te {
        assert LiveApproval(db, x);
        var i :| 0 <= i < |db.approvals| && db.approvals[i].te == x
                 && (db.approvals[i].status.ApprovalPending? || db.approvals[i].status.Approved?);
        assert db'.approvals[i] == db.approvals[i];
      }
    }
  }

  lemma {:induction false} RequestApprovalKeeps(db: Db, ctx: Ctx, call: CallId, sig: Signature, args: Fp, claimed: Option<TeId>)
    requires Inv(db)
    ensures var tx := RequestApprovalStep(db, ctx, call, sig, args, claimed); tx.Commit? ==> Inv(tx.db)
  {
    hide Local, Linked;
    var te := Te(ctx.run, call);
    var tx := RequestApprovalStep(db, ctx, call, sig, args, claimed);
    if tx.Commit? {
      FenceWriter(db, ctx);
      GetOrCreateKeeps(db, ctx, call, sig, args, false);
      var db1 := LocateTool(db, ctx, call, sig, args, claimed).db;
      assert Inv(db1) && db1.approvals == db.approvals && db1.runs == db.runs;
      var existing := ApprovalFor(db1.approvals, te);
      if existing.None? {
        OpenApprovalKeeps(db1, te, By(ctx));
      } else {
        NotProposed(db1, existing.value);
      }
    }
  }

  lemma {:induction false} NotProposed(db: Db, i: nat)
    requires Inv(db) && i < |db.approvals|
    ensures db.approvals[i].te in db.tools && !db.tools[db.approvals[i].te].status.Proposed?
  {
    hide Local, ParkedRuns;
  }

  lemma {:induction false} OpenInputKeeps(db: Db, te: TeId, request: Fp, w: Option<Writer>)
    requires Inv(db) && te in db.tools && WriterOk(db, w)
    requires te.run in db.runs && db.runs[te.run].status.Running?
    requires forall i :: 0 <= i < |db.interactions| ==> db.interactions[i].te != te
    ensures Inv(MoveRun(AddInput(db, te, request, w), te.run, WaitingInput, w))
  {
    hide Shape, ToolLog, ApprovalLog, InputLog, RunLog, Fencing;
    AddInputLocal(db, te, request, w);
    MoveRunLocal(AddInput(db, te, request, w), te.run, WaitingInput, w);
    var db' := MoveRun(AddInput(db, te, request, w), te.run, WaitingInput, w);
    forall x | x in db'.tools && db'.tools[x].status.ToolWaiting? ensures LiveApproval(db', x) { assert LiveApproval(db, x); }
  }

  lemma {:induction false} RequestInputKeeps(db: Db, ctx: Ctx, call: CallId, sig: Signature, args: Fp,
                                             claimed: Option<TeId>, request: Fp)
    requires Inv(db)
    ensures var tx := RequestInputStep(db, ctx, call, sig, args, claimed, request); tx.Commit? ==> Inv(tx.db)
  {
    hide Local, Linked, ParkedRuns;
    var te := Te(ctx.run, call);
    var tx := RequestInputStep(db, ctx, call, sig, args, claimed, request);
    if tx.Commit? {
      FenceWriter(db, ctx);
      GetOrCreateKeeps(db, ctx, call, sig, args, false);
      var db1 := LocateInputTool(db, ctx, call, sig, args, claimed).db;
      assert Inv(db1);
      if db1.tools[te].status.Proposed? { StartToolKeeps(db1, te, false, None); }
      var db2 := if db1.tools[te].status.Proposed? then StartTool(db1, te, false, None) else db1;
      if InputFor(db2.interactions, te).None? { OpenInputKeeps(db2, te, request, By(ctx)); }
    }
  }

  // ---------------------------------------------------------------- humans

  lemma {:induction false} DecideKeeps(db: Db, a: nat, runHint: Option<RunId>, approve: bool)
    requires Inv(db)
    ensures var tx := DecideStep(db, a, runHint, approve); tx.Commit? ==> Inv(tx.db)
  {
    hide Shape, ToolLog, ApprovalLog, InputLog, RunLog, Fencing;
    var tx := DecideStep(db, a, runHint, approve);
    if tx.Commit? && db.approvals[a].status.ApprovalPending? {
      var to := if approve then Approved else Rejected;
      var te := db.approvals[a].te;
      DecideApprovalLocal(db, a, to);
      var db1 := DecideApproval(db, a, to);
      if !approve { FinishToolLocal(db1, te, ToolFailed, Some(Marker(1)), None); }
      UniqueApproval(db, a);
      forall x | x in tx.db.tools && tx.db.tools[x].status.ToolWaiting?
        ensures LiveApproval(tx.db, x)
      {
        assert LiveApproval(db, x);
        var i :| 0 <= i < |db.approvals| && db.approvals[i].te == x
                 && (db.approvals[i].status.ApprovalPending? || db.approvals[i].status.Approved?);
        assert tx.db.approvals[i] == if i == a then Approval(te, to) else db.approvals[i];
      }
    }
  }

  lemma {:induction false} UniqueApproval(db: Db, a: nat)
    requires Inv(db) && a < |db.approvals|
    ensures forall i :: 0 <= i < |db.approvals| && i != a ==> db.approvals[i].te != db.approvals[a].te
  {
    hide ToolLog, ApprovalLog, InputLog, RunLog, Fencing, Linked, ParkedRuns;
  }

  /** Answering or withdrawing a question, or changing its phase, never opens one. */
  lemma {:induction false} SettledInput(db: Db, db': Db, i: nat)
    requires Linked(db) && ParkedRuns(db) && i < |db.interactions|
    requires db'.tools == db.tools && db'.runs == db.runs && db'.approvals == db.approvals
    requires i < |db'.interactions| && db'.interactions == db.interactions[i := db'.interactions[i]]
    requires db'.interactions[i].te == db.interactions[i].te
    requires db'.interactions[i].status.InputPending? ==> db.interactions[i].status.InputPending?
    ensures Linked(db') && ParkedRuns(db')
  {
    forall x | x in db'.tools && db'.tools[x].status.ToolWaiting? ensures LiveApproval(db', x) { assert LiveApproval(db, x); }
  }

  lemma {:induction false} RespondKeeps(db: Db, run: RunId, i: nat, response: Fp)
    requires Inv(db)
    ensures var tx := RespondStep(db, run, i, response); tx.Commit? ==> Inv(tx.db)
  {
    hide Local, Linked, ParkedRuns;
    var tx := RespondStep(db, run, i, response);
    if tx.Commit? && db.interactions[i].status.InputPending? {
      var te := db.interactions[i].te;
      var answer := Some(AnswerOf(i, response));
      var done := if db.tools[te].status.ToolRunning? then FinishTool(db, te, ToolSucceeded, answer, None) else db;
      if db.tools[te].status.ToolRunning? { FinishToolKeeps(db, te, ToolSucceeded, answer, None); }
      AnswerInputLocal(done, i, response);
      SettledInput(done, AnswerInput(done, i, response), i);
    }
  }

  // ---------------------------------------------------------------- Run moves

  /** A Run may move anywhere once nothing is pending on it. */
  lemma {:induction false} MoveRunKeeps(db: Db, run: RunId, to: RunStatus)
    requires Inv(db) && run in db.runs && RunEdge(db.runs[run].status, to)
    requires !HasPendingApproval(db, run) && !HasPendingInput(db, run)
    ensures Inv(MoveRun(db, run, to, None))
    ensures !HasPendingApproval(MoveRun(db, run, to, None), run) && !HasPendingInput(MoveRun(db, run, to, None), run)
  {
    hide Local;
    MoveRunLocal(db, run, to, None);
    var db' := MoveRun(db, run, to, None);
    forall x | x in db'.tools && db'.tools[x].status.ToolWaiting? ensures LiveApproval(db', x) { assert LiveApproval(db, x); }
  }

  lemma {:induction false} NothingPending(db: Db, run: RunId)
    requires Inv(db) && run in db.runs
    ensures !db.runs[run].status.WaitingApproval? ==> !HasPendingApproval(db, run)
    ensures !db.runs[run].status.WaitingInput? ==> !HasPendingInput(db, run)
  {
    hide Local, Linked;
  }

  lemma {:induction false} ResumeKeeps(db: Db, run: RunId)
    requires Inv(db)
    ensures var tx := ResumeApprovalStep(db, run); tx.Commit? ==> Inv(tx.db)
    ensures var tx := ResumeInputStep(db, run); tx.Commit? ==> Inv(tx.db)
  {
    hide Local, Linked, ParkedRuns;
    if run in db.runs {
      NothingPending(db, run);
      if ResumeApprovalStep(db, run).Commit? { MoveRunKeeps(db, run, Running); }
      if ResumeInputStep(db, run).Commit? {
        var last := LastInput(db.interactions, run, IsResolved).value;
        SetPhaseLocal(db, last, Claimed);
        var claimed := SetPhase(db, last, Claimed);
        SettledInput(db, claimed, last);
        NothingPending(claimed, run);
        assert !HasPendingInput(claimed, run);
        MoveRunKeeps(claimed, run, Running);
      }
    }
  }

  lemma {:induction false} AppliedKeeps(db: Db, ctx: Ctx, i: nat)
    requires Inv(db)
    ensures var tx := AppliedStep(db, ctx, i); tx.Commit? ==> Inv(tx.db)
  {
    hide Local, Linked, ParkedRuns;
    if AppliedStep(db, ctx, i).Commit? {
      FenceWriter(db, ctx);
      SetPhaseLocal(db, i, Applied);
      SettledInput(db, SetPhase(db, i, Applied), i);
      EmitKeeps(db, Noted(ctx.run), By(ctx));
      EmitKeeps(SetPhase(db, i, Applied), Noted(ctx.run), By(ctx));
    }
  }

  lemma {:induction false} CloseToolsKeeps(db: Db, run: RunId, order: seq<TeId>)
    requires Inv(db)
    ensures Inv(CloseTools(db, run, order))
    decreases |order|
  {
    hide Local, Linked, ParkedRuns;
    if order != [] {
      var te := order[0];
      if te.run != run || te !in db.tools || TerminalTool(db.tools[te].status) {
        CloseToolsKeeps(db, run, order[1..]);
      } else {
        var to := if db.tools[te].status.ToolRunning? then ToolUnknown else ToolCancelled;
        FinishToolKeeps(db, te, to, Some(Marker(2)), None);
        CloseToolsKeeps(FinishTool(db, te, to, Some(Marker(2)), None), run, order[1..]);
      }
    }
  }

  lemma {:induction false} CasKeeps(db: Db, run: RunId, from: RunStatus, to: RunStatus)
    requires Inv(db)
    ensures var tx := CasStep(db, run, from, to); tx.Commit? ==> Inv(tx.db)
  {
    hide Local, Linked, ParkedRuns;
    if CasStep(db, run, from, to).Commit? {
      NothingPending(db, run);
      MoveRunKeeps(db, run, to);
      CloseToolsKeeps(MoveRun(db, run, to, None), run, db.toolOrder);
    }
  }

  lemma {:induction false} UnwindKeeps(db: Db, run: RunId)
    requires Inv(db) && run in db.runs
    requires db.runs[run].status.WaitingApproval? || db.runs[run].status.WaitingInput?
    requires !HasPendingApproval(db, run) && !HasPendingInput(db, run)
    ensures Inv(Unwind(db, run))
  {
    hide Local, Linked, ParkedRuns;
    MoveRunKeeps(db, run, Running);
    var db1 := MoveRun(db, run, Running, None);
    MoveRunKeeps(db1, run, Cancelling);
    var db2 := MoveRun(db1, run, Cancelling, None);
    MoveRunKeeps(db2, run, RunCancelled);
    CloseToolsKeeps(MoveRun(db2, run, RunCancelled, None), run, db2.toolOrder);
  }

  // ---------------------------------------------------------------- cancelling a parked Run

  /**
   * Withdrawing the pending approvals leaves parked tools without a live approval until the
   * tools are cancelled too; `Gone` names the Run whose tools are in that state.
   */
  ghost predicate LinkedExcept(db: Db, gone: RunId) {
    && (forall i :: 0 <= i < |db.approvals| ==>
          && db.approvals[i].te in db.tools
          && !db.tools[db.approvals[i].te].status.Proposed?
          && (db.approvals[i].status.Rejected? ==> db.tools[db.approvals[i].te].status.ToolFailed?))
    && (forall te :: te in db.tools && te.run != gone && db.tools[te].status.ToolWaiting? ==> LiveApproval(db, te))
  }

  lemma {:induction false} CancelApprovalsFacts(db: Db, run: RunId, i: nat)
    requires Local(db) && LinkedExcept(db, run) && ParkedRuns(db)
    requires forall j :: 0 <= j < i && j < |db.approvals| && db.approvals[j].te.run == run ==> !db.approvals[j].status.ApprovalPending?
    ensures var db' := CancelApprovals(db, run, i);
            && Local(db') && LinkedExcept(db', run) && ParkedRuns(db') && !HasPendingApproval(db', run)
            && db'.runs == db.runs && db'.tools == db.tools && db'.interactions == db.interactions && db'.toolOrder == db.toolOrder
    decreases |db.approvals| - i
  {
    hide Local;
    if i < |db.approvals| {
      if db.approvals[i].te.run == run && db.approvals[i].status.ApprovalPending? {
        DecideApprovalLocal(db, i, ApprovalCancelled);
        var db1 := DecideApproval(db, i, ApprovalCancelled);
        forall te | te in db1.tools && te.run != run && db1.tools[te].status.ToolWaiting?
          ensures LiveApproval(db1, te)
        {
          assert LiveApproval(db, te);
          var j :| 0 <= j < |db.approvals| && db.approvals[j].te == te
                   && (db.approvals[j].status.ApprovalPending? || db.approvals[j].status.Approved?);
          assert db1.approvals[j] == db.approvals[j];
        }
        CancelApprovalsFacts(db1, run, i + 1);
      } else {
        CancelApprovalsFacts(db, run, i + 1);
      }
    }
  }

  /** Cancelling a tool of the named Run keeps everything, and it is then no longer parked. */
  lemma {:induction false} CancelParkedTools(db: Db, run: RunId, order: seq<TeId>)
    requires Local(db) && LinkedExcept(db, run) && ParkedRuns(db)
    ensures var db' := CancelTools(db, run, order);
            && Local(db') && LinkedExcept(db', run) && ParkedRuns(db')
            && db'.runs == db.runs && db'.approvals == db.approvals && db'.interactions == db.interactions
            && db'.tools.Keys == db.tools.Keys
            && (forall te :: te in db.tools && TerminalTool(db.tools[te].status) ==> TerminalTool(db'.tools[te].status))
            && (forall te :: te in order && te in db.tools && te.run == run ==> TerminalTool(db'.tools[te].status))
    decreases |order|
  {
    hide Local, ParkedRuns;
    if order != [] {
      var te := order[0];
      if te.run != run || te !in db.tools || TerminalTool(db.tools[te].status) {
        CancelParkedTools(db, run, order[1..]);
      } else {
        FinishToolLocal(db, te, ToolCancelled, Some(Marker(3)), None);
        var db1 := FinishTool(db, te, ToolCancelled, Some(Marker(3)), None);
        SameParked(db, db1);
        forall x | x in db1.tools && x.run != run && db1.tools[x].status.ToolWaiting? ensures LiveApproval(db1, x) { assert LiveApproval(db, x); }
        CancelParkedTools(db1, run, order[1..]);
      }
    }
  }

  lemma {:induction false} LinkedAgain(db: Db, run: RunId)
    requires LinkedExcept(db, run)
    requires forall te :: te in db.tools && te.run == run ==> TerminalTool(db.tools[te].status)
    ensures Linked(db)
  {
  }

  lemma {:induction false} CancelParkedApprovalKeeps(db: Db, run: RunId)
    requires Inv(db)
    ensures var tx := CancelParkedApprovalStep(db, run); tx.Commit? ==> Inv(tx.db)
  {
    hide ToolLog, ApprovalLog, InputLog, RunLog, Fencing, ParkedRuns;
    if CancelParkedApprovalStep(db, run).Commit? {
      CancelApprovalsFacts(db, run, 0);
      var db1 := CancelApprovals(db, run, 0);
      CancelParkedTools(db1, run, db.toolOrder);
      var db2 := CancelTools(db1, run, db.toolOrder);
      LinkedAgain(db2, run);
      NothingPending(db2, run);
      UnwindKeeps(db2, run);
    }
  }

  lemma {:induction false} CancelParkedInputKeeps(db: Db, run: RunId)
    requires Inv(db)
    ensures var tx := CancelParkedInputStep(db, run); tx.Commit? ==> Inv(tx.db)
  {
    hide Local, ParkedRuns, Linked;
    var tx := CancelParkedInputStep(db, run);
    if tx.Commit? {
      var pending := LastInput(db.interactions, run, IsPending);
      var chosen := if pending.Some? then pending else LastInput(db.interactions, run, IsSettled);
      var te := db.interactions[chosen.value].te;
      var db1 := if pending.Some? then WithdrawInput(db, pending.value) else db;
      if pending.Some? {
        WithdrawInputLocal(db, pending.value);
        SettledInput(db, db1, pending.value);
      }
      assert !HasPendingInput(db1, run);
      if !TerminalTool(db1.tools[te].status) { FinishToolKeeps(db1, te, ToolCancelled, Some(Marker(4)), None); }
      var db2 := if TerminalTool(db1.tools[te].status) then db1 else FinishTool(db1, te, ToolCancelled, Some(Marker(4)), None);
      assert !HasPendingInput(db2, run);
      NothingPending(db2, run);
      UnwindKeeps(db2, run);
    }
  }

  // ---------------------------------------------------------------- sessions, creation, every step

  lemma {:induction false} SessionKeeps(db: Db, session: SessionId, s: Session)
    requires Inv(db)
    requires session in db.sessions ==> db.sessions[session].fence <= s.fence
    ensures Inv(db.(sessions := db.sessions[session := s]))
  {
    hide Local, ParkedRuns, Linked;
    SessionLocal(db, session, s);
    SameRows(db, db.(sessions := db.sessions[session := s]));
  }

  lemma {:induction false} NewRunKeeps(db: Db, run: RunId, session: SessionId)
    requires Inv(db)
    ensures var tx := NewRunStep(db, run, session); tx.Commit? ==> Inv(tx.db)
  {
    hide Local;
    var tx := NewRunStep(db, run, session);
    if tx.Commit? {
      NewRunLocal(db, run, session);
      forall x | x in tx.db.tools && tx.db.tools[x].status.ToolWaiting? ensures LiveApproval(tx.db, x) { assert LiveApproval(db, x); }
    }
  }

  /** One step of any actor keeps the invariant. */
  lemma {:induction false} StepKeeps(db: Db, op: Op)
    requires Inv(db)
    ensures Inv(Apply(db, op))
  {
    hide Local, ParkedRuns, Linked;
    match op
    case Policy(c, k, s, f, d, p) => PolicyKeeps(db, c, k, s, f, d, p);
    case RequestApproval(c, k, s, f, t) => RequestApprovalKeeps(db, c, k, s, f, t);
    case RequestInput(c, k, s, f, t, r) => RequestInputKeeps(db, c, k, s, f, t, r);
    case Start(c, k, s, a, ap, p) => StartKeeps(db, c, k, s, a, ap, p);
    case End(c, k, s, e, r, a, x) => EndKeeps(db, c, k, s, e, r, a, x);
    case MarkUnknown(c, k, s, r, a) => UnknownKeeps(db, c, k, s, r, a);
    case Note(c) => if Fenced(db, c) { EmitKeeps(db, Noted(c.run), By(c)); }
    case Checkpoint(c, i) => AppliedKeeps(db, c, i);
    case Decide(a, h, v) => DecideKeeps(db, a, h, v);
    case Respond(r, i, x) => RespondKeeps(db, r, i, x);
    case ResumeApproval(r) => ResumeKeeps(db, r);
    case ResumeInput(r) => ResumeKeeps(db, r);
    case Cas(r, f, t) => CasKeeps(db, r, f, t);
    case CancelParkedApproval(r) => CancelParkedApprovalKeeps(db, r);
    case CancelParkedInput(r) => CancelParkedInputKeeps(db, r);
    case AcquireFence(s, r) =>
      if s in db.sessions { SessionKeeps(db, s, Session(db.sessions[s].fence + 1, true)); }
    case Activate(s, b) =>
      if s in db.sessions { SessionKeeps(db, s, db.sessions[s].(active := b)); }
    case NewSession(s) =>
      if s !in db.sessions { SessionKeeps(db, s, Session(0, true)); }
    case NewRun(r, s) => NewRunKeeps(db, r, s);
  }
}
