/**
 * What each transaction does to a reachable ledger and exactly when it commits, in terms of the
 * rows a caller can look up beforehand.
 */
module LedgerEffects {
  import opened Statuses
  import opened LedgerState
  import opened LedgerSteps
  import opened LedgerInvariant
  import opened LedgerTheorems
  import opened LedgerGuarantees

  function Key(op: Op): TeId
    requires Recorder(op) && !op.Note? && !op.Checkpoint?
  {
    Te(op.ctx.run, op.call)
  }

  /** A recorder is turned away for its fence exactly when its token is not the current one. */
  lemma {:induction false} StaleIffNotFenced(db: Db, op: Op)
    requires Recorder(op)
    ensures Step(db, op) == Abort(StaleFence) <==> !Fenced(db, op.ctx)
  {
    if !Fenced(db, op.ctx) { RecorderNeedsFence(db, op); } else { OtherErrors(db, op); }
  }

  lemma {:induction false} OtherErrors(db: Db, op: Op)
    requires Recorder(op) && Fenced(db, op.ctx)
    ensures Step(db, op) != Abort(StaleFence)
  {
    hide FindApproval, ApprovalFor, InputFor, HasPendingInput, AddApproval, AddInput, MoveRun, StartTool, FinishTool;
  }

  /** The call may be recorded: its Run is this recorder's, and an existing row is the same call. */
  predicate OwnCall(db: Db, op: Op, given: Fp)
    requires Recorder(op) && !op.Note? && !op.Checkpoint?
  {
    && op.ctx.run in db.runs && db.runs[op.ctx.run].session == op.ctx.session
    && (Key(op) in db.tools ==> db.tools[Key(op)].sig == op.sig && db.tools[Key(op)].args == given)
  }

  // ---------------------------------------------------------------- the first policy decision

  /** No policy has been decided for the call, and a row that waits for one is untouched. */
  predicate Undecided(db: Db, te: TeId) {
    te in db.tools ==>
      var t := db.tools[te];
      t.policy.None? && t.policyPending && t.status.Proposed? && t.binding.None? && t.result.None?
  }

  /** A first decision is accepted exactly on an undecided call of the recorder's own Run. */
  lemma {:induction false} FirstDecisionCommitsIff(db: Db, op: Op)
    requires op.Policy? && (Key(op) in db.tools ==> db.tools[Key(op)].policy.None?)
    ensures Step(db, op).Commit? <==> Fenced(db, op.ctx) && OwnCall(db, op, op.given) && Undecided(db, Key(op))
  {
  }

  /**
   * What a first decision leaves: a denied call has FAILED, an allowed call is RUNNING if its start
   * was already announced to the recorder and PROPOSED otherwise, a call that needs approval is
   * PROPOSED. The decision is stored and audited once; a start event appears only with the start.
   */
  lemma {:induction false} FirstDecisionDecides(db: Db, op: Op)
    requires op.Policy? && (Key(op) in db.tools ==> db.tools[Key(op)].policy.None?) && Step(db, op).Commit?
    ensures var te, db' := Key(op), Step(db, op).db;
            && te in db'.tools && db'.tools[te].policy == Some(op.pf) && !db'.tools[te].policyPending
            && db'.tools[te].sig == op.sig && db'.tools[te].args == op.given
            && db'.tools[te].status == (match op.decision
                                        case Deny => ToolFailed
                                        case Allow => if te in db.tools then ToolRunning else Proposed
                                        case RequireApproval => Proposed)
            && db'.log == db.log + (if op.decision.Allow? && te in db.tools then [Event(ToolStarted(te), By(op.ctx))] else [])
                          + [Event(PolicyAudited(te), By(op.ctx))]
            && db' == db.(tools := db.tools[te := db'.tools[te]], toolOrder := db'.toolOrder, log := db'.log)
  {
  }

  /**
   * A decision on a call that already has one is accepted exactly if it is the recorded one and the
   * call stands where that decision can have left it: not begun, or FAILED by a denial, waiting for
   * the approval, or allowed and started but not yet dispatched.
   */
  lemma {:induction false} ReplayCommitsIff(db: Db, op: Op)
    requires op.Policy? && Key(op) in db.tools && db.tools[Key(op)].policy.Some?
    ensures var t := db.tools[Key(op)];
            Step(db, op).Commit? <==>
              && Fenced(db, op.ctx) && OwnCall(db, op, op.given) && t.policy == Some(op.pf)
              && (|| t.status.Proposed?
                  || (t.status.ToolFailed? && op.decision.Deny?)
                  || (t.status.ToolWaiting? && op.decision.RequireApproval?)
                  || (t.status.ToolRunning? && t.binding.None? && op.decision.Allow?))
  {
    hide DenyTool, StartTool;
  }

  /** Repeating a first decision on the ledger it left commits again and changes nothing. */
  lemma {:induction false} DecisionReplaysSilently(db: Db, op: Op)
    requires op.Policy? && (Key(op) in db.tools ==> db.tools[Key(op)].policy.None?) && Step(db, op).Commit?
    ensures Step(Step(db, op).db, op) == Commit(Step(db, op).db)
  {
    FirstDecisionCommitsIff(db, op);
    FirstDecisionDecides(db, op);
    var db' := Step(db, op).db;
    hide Step;
    assert Fenced(db', op.ctx) && OwnCall(db', op, op.given);
    ReplayOfOwn(db', op);
  }

  lemma {:induction false} ReplayOfOwn(db: Db, op: Op)
    requires op.Policy? && Fenced(db, op.ctx) && OwnCall(db, op, op.given) && Key(op) in db.tools && db.tools[Key(op)].policy == Some(op.pf)
    requires var t := db.tools[Key(op)];
             if op.decision.Deny? then t.status.ToolFailed? else t.status.Proposed? || (op.decision.Allow? && t.status.ToolRunning? && t.binding.None?)
    ensures Step(db, op) == Commit(db)
  {
  }

  /** A call whose first decision was a denial is RUNNING in no state of the history, before or after. */
  lemma {:induction false} DeniedCallNeverRuns(hist: seq<Db>, ops: seq<Op>, i: nat, n: nat)
    requires History(hist, ops) && i < |ops| && n < |hist| && ops[i].Policy? && ops[i].decision.Deny? && Step(hist[i], ops[i]).Commit?
    requires Key(ops[i]) in hist[i].tools ==> hist[i].tools[Key(ops[i])].policy.None?
    ensures !Runs(hist[n], Key(ops[i]))
    ensures n > i ==> Key(ops[i]) in hist[n].tools && hist[n].tools[Key(ops[i])].status.ToolFailed?
  {
    FirstDecisionCommitsIff(hist[i], ops[i]);
    FirstDecisionDecides(hist[i], ops[i]);
    hide Step;
    var te := Key(ops[i]);
    if n <= i {
      Monotone(hist, ops, n, i);
    } else {
      Monotone(hist, ops, i + 1, n);
      assert ToolAdvance(hist[i + 1].tools[te], hist[n].tools[te]);
    }
  }

  // ---------------------------------------------------------------- starting and ending

  /** A start without an approval: exactly when it commits. A parked call never starts this way. */
  lemma {:induction false} PlainStartCommitsIff(db: Db, op: Op)
    requires op.Start? && op.approval.None? && !op.preflight
    ensures var te, given := Key(op), if op.args.Some? then op.args.value else EMPTY_ARGS;
            Step(db, op).Commit? <==>
              && Fenced(db, op.ctx)
              && (if te in db.tools then
                    && db.tools[te].sig == op.sig && db.tools[te].args == given
                    && !db.tools[te].status.ToolWaiting?
                    && (TerminalTool(db.tools[te].status) || Bindable(db, op, te))
                  else
                    && op.ctx.run in db.runs && db.runs[op.ctx.run].session == op.ctx.session
                    && (op.sig.sandbox && op.ctx.sandboxed ==> db.runs[op.ctx.run].status.Running?))
  {
  }

  /** A preflight only looks at a parked call, and starts any other as usual. */
  lemma {:induction false} PreflightLeavesParkedCalls(db: Db, op: Op)
    requires op.Start? && op.preflight && Waiting(db, Key(op))
    ensures var t := db.tools[Key(op)];
            Step(db, op) == Commit(db) <==>
              && Fenced(db, op.ctx) && t.sig == op.sig && (op.args.Some? ==> t.args == op.args.value)
              && op.approval.Some? && op.approval.value < |db.approvals| && db.approvals[op.approval.value] == Approval(Key(op), Approved)
    ensures Step(db, op).Commit? ==> Step(db, op).db == db
  {
  }

  lemma {:induction false} LaunchBinds(db: Db, ctx: Ctx, te: TeId, given: Fp, approval: Option<nat>)
    requires te in db.tools && Launch(db, ctx, te, given, approval).Commit?
    ensures var t, db' := db.tools[te], Launch(db, ctx, te, given, approval).db;
            && te in db'.tools && db'.tools[te].status.ToolRunning?
            && db'.tools[te].binding == (if t.sig.sandbox && ctx.sandboxed then Some(Binding(given, ctx.fence)) else t.binding)
  {
  }

  /** The dispatch binding a committed start leaves on a sandbox call is this start's own request and fence. */
  lemma {:induction false} StartBinds(db: Db, op: Op)
    requires op.Start? && !op.preflight && Step(db, op).Commit?
    requires Key(op) in db.tools ==> !TerminalTool(db.tools[Key(op)].status)
    ensures var te, db' := Key(op), Step(db, op).db;
            && te in db'.tools && db'.tools[te].status.ToolRunning?
            && (op.sig.sandbox && op.ctx.sandboxed ==>
                  db'.tools[te].binding == Some(Binding(if op.args.Some? then op.args.value else EMPTY_ARGS, op.ctx.fence)))
            && (!(op.sig.sandbox && op.ctx.sandboxed) ==>
                  db'.tools[te].binding == if te in db.tools then db.tools[te].binding else None)
  {
    hide Launch;
    var te, given := Key(op), if op.args.Some? then op.args.value else EMPTY_ARGS;
    if te in db.tools {
      LaunchBinds(db, op.ctx, te, given, op.approval);
    } else {
      LaunchBinds(GetOrCreate(db, op.ctx, op.call, op.sig, given, None, true).db, op.ctx, te, given, None);
    }
  }

  lemma {:induction false} EndCommitsIff(db: Db, op: Op)
    requires op.End?
    ensures var te, to := Key(op), if op.isError then ToolFailed else ToolSucceeded;
            Step(db, op).Commit? <==>
              && Fenced(db, op.ctx)
              && (if te in db.tools then
                    var t := db.tools[te];
                    && t.sig == op.sig && (op.args.Some? ==> t.args == op.args.value)
                    && (t.status.Proposed? || t.status.ToolRunning? || (t.status == to && (op.result.Some? ==> t.result == op.result)))
                  else op.ctx.run in db.runs && db.runs[op.ctx.run].session == op.ctx.session)
  {
    hide FinishTool, StartTool;
  }

  /** An end that moves the row announces it once, and then the artifact of a success; a repeated end is silent. */
  lemma {:induction false} EndIsAnnouncedIffMoved(db: Db, op: Op)
    requires op.End? && Step(db, op).Commit?
    ensures var te, db' := Key(op), Step(db, op).db;
            && (te in db.tools && TerminalTool(db.tools[te].status) ==> db' == db)
            && (!(te in db.tools && TerminalTool(db.tools[te].status)) ==>
                  && te in db'.tools && db'.tools[te].result == op.result
                  && db'.log == db.log + [Event(if op.isError then ToolErrored(te) else ToolCompleted(te), By(op.ctx))]
                                + if op.artifact && !op.isError then [Event(Noted(op.ctx.run), By(op.ctx))] else [])
  {
  }

  /** An unknown outcome is recorded exactly for a RUNNING call of the same identity, or repeated silently. */
  lemma {:induction false} UnknownCommitsIff(db: Db, op: Op)
    requires op.MarkUnknown?
    ensures Step(db, op).Commit? <==>
              && Fenced(db, op.ctx) && Key(op) in db.tools
              && var t := db.tools[Key(op)];
              && t.sig == op.sig && (op.args.Some? ==> t.args == op.args.value)
              && (t.status.ToolRunning? || (t.status.ToolUnknown? && (op.result.Some? ==> t.result == op.result)))
    ensures Step(db, op).Commit? ==>
              var te, db' := Key(op), Step(db, op).db;
              && te in db'.tools && db'.tools[te].status.ToolUnknown? && (op.result.Some? ==> db'.tools[te].result == op.result)
              && (db.tools[te].status.ToolUnknown? ==> db' == db)
              && (db.tools[te].status.ToolRunning? ==> db'.tools[te].result.Some? && db'.log == db.log + [Event(ToolErrored(te), By(op.ctx))])
  {
  }

  // ---------------------------------------------------------------- parking

  predicate AskedFor(db: Db, te: TeId) {
    exists i :: 0 <= i < |db.approvals| && db.approvals[i].te == te
  }

  predicate PendingFor(db: Db, te: TeId) {
    exists i :: 0 <= i < |db.approvals| && db.approvals[i].te == te && db.approvals[i].status.ApprovalPending?
  }

  /** The request names its row, or leaves it to be found or created. */
  predicate NamesRow(db: Db, op: Op)
    requires op.RequestApproval? || op.RequestInput?
  {
    op.claimed.Some? ==> op.claimed.value == Key(op) && Key(op) in db.tools
  }

  lemma {:induction false} ApprovalForIs(db: Db, te: TeId)
    requires Inv(db)
    ensures ApprovalFor(db.approvals, te).None? <==> !AskedFor(db, te)
    ensures ApprovalFor(db.approvals, te).Some? ==> (db.approvals[ApprovalFor(db.approvals, te).value].status.ApprovalPending? <==> PendingFor(db, te))
  {
    hide FindApproval, ToolLog, ApprovalLog, InputLog, RunLog, Fencing, Linked, ParkedRuns;
  }

  lemma {:induction false} LocateIff(db: Db, op: Op)
    requires op.RequestApproval?
    ensures var g := LocateTool(db, op.ctx, op.call, op.sig, op.given, op.claimed);
            && (g.Got? <==> OwnCall(db, op, op.given) && NamesRow(db, op))
            && (g.Got? ==> g.db == db.(tools := db.tools[Key(op) := g.db.tools[Key(op)]], toolOrder := g.db.toolOrder)
                           && (Key(op) in db.tools ==> g.db.toolOrder == db.toolOrder)
                           && g.db.tools[Key(op)] == if Key(op) in db.tools then db.tools[Key(op)] else Tool(op.sig, op.given, Proposed, None, false, None, None))
  {
  }

  lemma {:induction false} RequestUnfolds(db: Db, op: Op)
    requires op.RequestApproval?
    ensures var g := LocateTool(db, op.ctx, op.call, op.sig, op.given, op.claimed);
            && (Step(db, op).Commit? <==>
                  && Fenced(db, op.ctx) && op.ctx.run in db.runs
                  && (db.runs[op.ctx.run].status.Running? || db.runs[op.ctx.run].status.WaitingApproval?)
                  && g.Got? && ParkForApproval(g.db, op.ctx, Key(op), db.runs[op.ctx.run].status).Commit?)
            && (Step(db, op).Commit? ==> Step(db, op) == ParkForApproval(g.db, op.ctx, Key(op), db.runs[op.ctx.run].status))
  {
    hide LocateTool, ParkForApproval;
  }

  lemma {:induction false} ParkingIff(db: Db, ctx: Ctx, te: TeId, run: RunStatus)
    requires te in db.tools
    ensures var asked := ApprovalFor(db.approvals, te);
            ParkForApproval(db, ctx, te, run).Commit? <==>
              if asked.None? then !run.WaitingApproval? else db.approvals[asked.value].status.ApprovalPending?
  {
    hide ApprovalFor;
  }

  /**
   * An approval request commits exactly for an own call of a Run that is RUNNING with nothing asked
   * about the call, or that already waits for an approval of this very call.
   */
  lemma {:induction false} ApprovalRequestCommitsIff(db: Db, op: Op)
    requires Inv(db) && op.RequestApproval?
    ensures Step(db, op).Commit? <==>
              && Fenced(db, op.ctx) && OwnCall(db, op, op.given) && NamesRow(db, op)
              && (|| (db.runs[op.ctx.run].status.Running? && !AskedFor(db, Key(op)))
                  || (db.runs[op.ctx.run].status.WaitingApproval? && PendingFor(db, Key(op))))
  {
    RequestUnfolds(db, op);
    LocateIff(db, op);
    ApprovalForIs(db, Key(op));
    if PendingFor(db, Key(op)) { PendingWaits(db, Key(op)); }
    hide Step, LocateTool, ApprovalFor, ParkForApproval, Inv, AskedFor, PendingFor;
    var g := LocateTool(db, op.ctx, op.call, op.sig, op.given, op.claimed);
    if g.Got? && op.ctx.run in db.runs { ParkingIff(g.db, op.ctx, Key(op), db.runs[op.ctx.run].status); }
  }

  lemma {:induction false} PendingWaits(db: Db, te: TeId)
    requires Inv(db) && PendingFor(db, te)
    ensures te in db.tools && te.run in db.runs && db.runs[te.run].status.WaitingApproval? && AskedFor(db, te)
  {
    hide ToolLog, ApprovalLog, InputLog, RunLog, Fencing, Linked;
  }

  lemma {:induction false} ParkingEffect(db: Db, ctx: Ctx, te: TeId, run: RunStatus)
    requires te in db.tools && ctx.run in db.runs && db.runs[ctx.run].status == run && ParkForApproval(db, ctx, te, run).Commit?
    ensures var asked, db', w := ApprovalFor(db.approvals, te), ParkForApproval(db, ctx, te, run).db, By(ctx);
            && (asked.Some? && !run.Running? && !db.tools[te].status.Proposed? ==> db' == db)
            && (asked.None? && run.Running? ==>
                  && db'.tools == db.tools[te := db.tools[te].(status := if db.tools[te].status.Proposed? then ToolWaiting else db.tools[te].status)]
                  && db'.interactions == db.interactions && db'.approvals == db.approvals + [Approval(te, ApprovalPending)]
                  && db'.runs == db.runs[ctx.run := db.runs[ctx.run].(status := WaitingApproval)]
                  && db'.log == db.log + [Event(ApprovalAsked(|db.approvals|), w), Event(RunMoved(ctx.run, Running, WaitingApproval), w)])
  {
    hide ApprovalFor;
  }

  /** At a committed request, the Run is RUNNING exactly if nothing was asked about the call. */
  lemma {:induction false} AskedMeansParked(db: Db, op: Op)
    requires Inv(db) && op.RequestApproval? && Step(db, op).Commit?
    ensures AskedFor(db, Key(op)) <==> ApprovalFor(db.approvals, Key(op)).Some?
    ensures op.ctx.run in db.runs && (AskedFor(db, Key(op)) <==> !db.runs[op.ctx.run].status.Running?)
    ensures AskedFor(db, Key(op)) ==> Key(op) in db.tools && !db.tools[Key(op)].status.Proposed?
  {
    ApprovalForIs(db, Key(op));
    ApprovalRequestCommitsIff(db, op);
    if PendingFor(db, Key(op)) { PendingWaits(db, Key(op)); }
    if AskedFor(db, Key(op)) { AskedIsNotProposed(db, Key(op)); }
    hide Step, ApprovalFor, Inv, AskedFor, PendingFor;
  }

  /** A first request parks the call, asks once and suspends the Run; a repeated one changes nothing. */
  lemma {:induction false} ApprovalRequestParks(db: Db, op: Op)
    requires Inv(db) && op.RequestApproval? && Step(db, op).Commit?
    ensures var te, db', w := Key(op), Step(db, op).db, By(op.ctx);
            if AskedFor(db, te) then db' == db
            else
              && te in db'.tools && db'.tools[te].status == (if te in db.tools && !db.tools[te].status.Proposed? then db.tools[te].status else ToolWaiting)
              && db'.tools == db.tools[te := db'.tools[te]] && db'.interactions == db.interactions
              && db'.approvals == db.approvals + [Approval(te, ApprovalPending)]
              && db'.runs == db.runs[te.run := db.runs[te.run].(status := WaitingApproval)]
              && db'.log == db.log + [Event(ApprovalAsked(|db.approvals|), w), Event(RunMoved(te.run, Running, WaitingApproval), w)]
  {
    RequestUnfolds(db, op);
    LocateIff(db, op);
    AskedMeansParked(db, op);
    hide Step, LocateTool, ApprovalFor, ParkForApproval, Inv, AskedFor, PendingFor, NamesRow, OwnCall;
    var g := LocateTool(db, op.ctx, op.call, op.sig, op.given, op.claimed);
    var t := g.db.tools[Key(op)];
    ParkingEffect(g.db, op.ctx, Key(op), db.runs[op.ctx.run].status);
    TwiceUpdated(db.tools, Key(op), t, t.(status := if t.status.Proposed? then ToolWaiting else t.status));
    if AskedFor(db, Key(op)) { SameAgain(db, g.db, Key(op)); }
  }

  lemma {:induction false} SameAgain(db: Db, db': Db, te: TeId)
    requires te in db.tools && db' == db.(tools := db.tools[te := db.tools[te]], toolOrder := db.toolOrder)
    ensures db' == db
  {
    assert db.tools[te := db.tools[te]] == db.tools;
  }

  lemma {:induction false} AskedIsNotProposed(db: Db, te: TeId)
    requires Inv(db) && AskedFor(db, te)
    ensures te in db.tools && !db.tools[te].status.Proposed?
  {
    hide Local, ParkedRuns;
  }

  predicate AskedUser(db: Db, te: TeId) {
    exists i :: 0 <= i < |db.interactions| && db.interactions[i].te == te
  }

  predicate SameQuestionPending(db: Db, te: TeId, request: Fp) {
    exists i :: 0 <= i < |db.interactions| && db.interactions[i].te == te && db.interactions[i].request == request && db.interactions[i].status.InputPending?
  }

  lemma {:induction false} InputForIs(db: Db, te: TeId, request: Fp)
    requires Inv(db)
    ensures var r := InputFor(db.interactions, te);
            && (r.None? <==> !AskedUser(db, te))
            && (r.Some? ==> (db.interactions[r.value].request == request && db.interactions[r.value].status.InputPending? <==> SameQuestionPending(db, te, request)))
            && (r.Some? && db.interactions[r.value].status.InputPending? ==> te.run in db.runs && db.runs[te.run].status.WaitingInput?)
  {
    hide InputFor, ToolLog, ApprovalLog, InputLog, RunLog, Fencing, Linked;
  }

  lemma {:induction false} LocateInputIff(db: Db, op: Op)
    requires op.RequestInput?
    ensures var g := LocateInputTool(db, op.ctx, op.call, op.sig, op.given, op.claimed);
            && (g.Got? <==> NamesRow(db, op) && (Key(op) !in db.tools ==> op.ctx.run in db.runs && db.runs[op.ctx.run].session == op.ctx.session))
            && (g.Got? ==> g.db == db.(tools := db.tools[Key(op) := g.db.tools[Key(op)]], toolOrder := g.db.toolOrder)
                           && g.db.tools[Key(op)] == if Key(op) in db.tools then db.tools[Key(op)] else Tool(op.sig, op.given, Proposed, None, false, None, None))
  {
  }

  /** The call is not parked and not finished. */
  predicate MayAskUser(db: Db, te: TeId) {
    te in db.tools ==> db.tools[te].status.Proposed? || db.tools[te].status.ToolRunning?
  }

  lemma {:induction false} InputUnfolds(db: Db, op: Op)
    requires op.RequestInput?
    ensures var g := LocateInputTool(db, op.ctx, op.call, op.sig, op.given, op.claimed);
            && (Step(db, op).Commit? <==>
                  && Fenced(db, op.ctx) && op.ctx.run in db.runs && db.runs[op.ctx.run].session == op.ctx.session
                  && (db.runs[op.ctx.run].status.Running? || db.runs[op.ctx.run].status.WaitingInput?)
                  && g.Got? && ParkForInput(g.db, op.ctx, Key(op), op.request, db.runs[op.ctx.run].status).Commit?)
            && (Step(db, op).Commit? ==> Step(db, op) == ParkForInput(g.db, op.ctx, Key(op), op.request, db.runs[op.ctx.run].status))
  {
    hide LocateInputTool, ParkForInput;
  }

  lemma {:induction false} SamePending(db: Db, db': Db, run: RunId)
    requires db'.interactions == db.interactions
    ensures HasPendingInput(db', run) <==> HasPendingInput(db, run)
  {
  }

  lemma {:induction false} InputParkingIff(db: Db, ctx: Ctx, te: TeId, request: Fp, run: RunStatus)
    requires te in db.tools && ctx.run in db.runs
    ensures var asked := InputFor(db.interactions, te);
            ParkForInput(db, ctx, te, request, run).Commit? <==>
              && (db.tools[te].status.Proposed? || db.tools[te].status.ToolRunning?)
              && if asked.None? then !run.WaitingInput? && !HasPendingInput(db, ctx.run)
                 else db.interactions[asked.value].request == request && db.interactions[asked.value].status.InputPending?
  {
    hide InputFor;
    if db.tools[te].status.Proposed? { SamePending(db, StartTool(db, te, false, None), ctx.run); }
    hide HasPendingInput;
  }

  lemma {:induction false} InputRequestCommitsIff(db: Db, op: Op)
    requires Inv(db) && op.RequestInput?
    ensures var te := Key(op);
            Step(db, op).Commit? <==>
              && Fenced(db, op.ctx) && op.ctx.run in db.runs && db.runs[op.ctx.run].session == op.ctx.session
              && NamesRow(db, op) && MayAskUser(db, te)
              && (|| (db.runs[op.ctx.run].status.Running? && !AskedUser(db, te))
                  || (db.runs[op.ctx.run].status.WaitingInput? && SameQuestionPending(db, te, op.request)))
  {
    InputUnfolds(db, op);
    LocateInputIff(db, op);
    InputForIs(db, Key(op), op.request);
    if op.ctx.run in db.runs && db.runs[op.ctx.run].status.Running? {
      NoneAsked(db, op.ctx.run);
      assert !HasPendingInput(db, op.ctx.run);
    }
    hide Step, LocateInputTool, InputFor, ParkForInput, Inv, AskedUser, SameQuestionPending, HasPendingInput;
    var g := LocateInputTool(db, op.ctx, op.call, op.sig, op.given, op.claimed);
    if g.Got? && op.ctx.run in db.runs { InputParkingIff(g.db, op.ctx, Key(op), op.request, db.runs[op.ctx.run].status); SamePending(db, g.db, op.ctx.run); }
  }

  lemma {:induction false} InputParkingEffect(db: Db, ctx: Ctx, te: TeId, request: Fp, run: RunStatus)
    requires te in db.tools && ctx.run in db.runs && db.runs[ctx.run].status == run && ParkForInput(db, ctx, te, request, run).Commit?
    ensures var asked, db', w := InputFor(db.interactions, te), ParkForInput(db, ctx, te, request, run).db, By(ctx);
            && db'.tools == db.tools[te := db.tools[te].(status := ToolRunning)] && db'.approvals == db.approvals
            && (if asked.Some? then db'.interactions == db.interactions && db'.runs == db.runs && db'.log == db.log
                else
                  && db'.interactions == db.interactions + [Interaction(te, request, InputPending, None, NoPhase)]
                  && db'.runs == db.runs[ctx.run := db.runs[ctx.run].(status := WaitingInput)]
                  && db'.log == db.log + [Event(InputAsked(|db.interactions|), w), Event(RunMoved(ctx.run, run, WaitingInput), w)])
  {
    hide InputFor, HasPendingInput;
  }

  /** A first question starts the call silently, asks once and suspends the Run; a repeated one changes no question. */
  lemma {:induction false} InputRequestParks(db: Db, op: Op)
    requires Inv(db) && op.RequestInput? && Step(db, op).Commit?
    ensures var te, db', w := Key(op), Step(db, op).db, By(op.ctx);
            && te in db'.tools && db'.tools[te].status.ToolRunning? && db'.tools == db.tools[te := db'.tools[te]] && db'.approvals == db.approvals
            && (if AskedUser(db, te) then db'.interactions == db.interactions && db'.runs == db.runs && db'.log == db.log
                else
                  && db'.interactions == db.interactions + [Interaction(te, op.request, InputPending, None, NoPhase)]
                  && db'.runs == db.runs[te.run := db.runs[te.run].(status := WaitingInput)]
                  && db'.log == db.log + [Event(InputAsked(|db.interactions|), w), Event(RunMoved(te.run, Running, WaitingInput), w)])
  {
    InputUnfolds(db, op);
    LocateInputIff(db, op);
    var g := LocateInputTool(db, op.ctx, op.call, op.sig, op.given, op.claimed);
    InputParkingEffect(g.db, op.ctx, Key(op), op.request, db.runs[op.ctx.run].status);
    AskedMeansWaiting(db, op);
    hide Step, LocateInputTool, InputFor, ParkForInput, Inv, AskedUser;
    TwiceUpdated(db.tools, Key(op), g.db.tools[Key(op)], g.db.tools[Key(op)].(status := ToolRunning));
  }

  lemma {:induction false} TwiceUpdated(m: map<TeId, Tool>, te: TeId, x: Tool, y: Tool)
    ensures m[te := x][te := y] == m[te := y] && m[te := y][te] == y
  {
  }

  /** At a committed request, the Run is RUNNING exactly if nothing was asked about the call. */
  lemma {:induction false} AskedMeansWaiting(db: Db, op: Op)
    requires Inv(db) && op.RequestInput? && Step(db, op).Commit?
    ensures AskedUser(db, Key(op)) <==> InputFor(db.interactions, Key(op)).Some?
    ensures !AskedUser(db, Key(op)) ==> op.ctx.run in db.runs && db.runs[op.ctx.run].status.Running?
  {
    InputForIs(db, Key(op), op.request);
    InputRequestCommitsIff(db, op);
    SameIsAsked(db, Key(op), op.request);
    hide Step, InputFor, Inv, AskedUser, SameQuestionPending;
  }

  lemma {:induction false} SameIsAsked(db: Db, te: TeId, request: Fp)
    ensures SameQuestionPending(db, te, request) ==> AskedUser(db, te)
  {
  }

  // ---------------------------------------------------------------- deciding and answering

  /** A decision commits exactly on a pending approval of a parked call, or repeats the verdict. */
  lemma {:induction false} DecisionCommitsIff(db: Db, op: Op)
    requires Inv(db) && op.Decide?
    ensures Step(db, op).Commit? <==>
              && op.a < |db.approvals| && (op.runHint.Some? ==> op.runHint.value == db.approvals[op.a].te.run)
              && (if db.approvals[op.a].status.ApprovalPending? then Waiting(db, db.approvals[op.a].te)
                  else db.approvals[op.a].status == if op.approve then Approved else Rejected)
  {
    if op.a < |db.approvals| { ApprovalRefers(db, op.a); }
    hide Inv;
  }

  lemma {:induction false} ApprovalRefers(db: Db, a: nat)
    requires Inv(db) && a < |db.approvals|
    ensures var te := db.approvals[a].te;
            te in db.tools && te.run in db.runs && (db.approvals[a].status.ApprovalPending? ==> db.runs[te.run].status.WaitingApproval?)
  {
    hide ToolLog, ApprovalLog, InputLog, RunLog, Fencing, Linked;
  }

  /** The events of a decision: its own, and the end of a rejected call; a repeated verdict is silent. */
  lemma {:induction false} DecisionIsAnnouncedOnce(db: Db, op: Op)
    requires op.Decide? && Step(db, op).Commit?
    ensures var te, db' := db.approvals[op.a].te, Step(db, op).db;
            if !db.approvals[op.a].status.ApprovalPending? then db' == db
            else
              && db'.log == db.log + [Event(ApprovalSettled(op.a), None)] + (if op.approve then [] else [Event(ToolErrored(te), None)])
              && db'.approvals == db.approvals[op.a := Approval(te, if op.approve then Approved else Rejected)]
              && db'.runs == db.runs && db'.interactions == db.interactions
              && te in db.tools && db'.tools == if op.approve then db.tools else db.tools[te := db.tools[te].(status := ToolFailed, result := Some(Marker(1)))]
  {
  }

  /** An answer commits exactly on the Run's pending question while its call runs, or repeats the answer. */
  lemma {:induction false} AnswerCommitsIff(db: Db, op: Op)
    requires Inv(db) && op.Respond?
    ensures Step(db, op).Commit? <==>
              && op.interaction < |db.interactions| && db.interactions[op.interaction].te.run == op.run
              && var x := db.interactions[op.interaction];
              && (|| (x.status.InputPending? && (|| Runs(db, x.te)
                                                 || (Succeeded(db, x.te) && db.tools[x.te].result == Some(AnswerOf(op.interaction, op.response)))))
                  || (x.status.InputResolved? && x.response == Some(op.response)))
  {
    if op.interaction < |db.interactions| { InteractionRefers(db, op.interaction); }
    hide Inv;
  }

  lemma {:induction false} InteractionRefers(db: Db, i: nat)
    requires Inv(db) && i < |db.interactions|
    ensures var te := db.interactions[i].te;
            te in db.tools && te.run in db.runs && (db.interactions[i].status.InputPending? ==> db.runs[te.run].status.WaitingInput?)
  {
    hide ToolLog, ApprovalLog, InputLog, RunLog, Fencing, Linked;
  }

  /** The events of an answer: the end of its call if it ran, and its own; a repeated answer is silent. */
  lemma {:induction false} AnswerIsAnnouncedOnce(db: Db, op: Op)
    requires op.Respond? && Step(db, op).Commit?
    ensures var i, db' := op.interaction, Step(db, op).db;
            var x := db.interactions[i];
            if x.status.InputResolved? then db' == db
            else
              && db'.interactions == db.interactions[i := Interaction(x.te, x.request, InputResolved, Some(op.response), Ready)]
              && CarriesAnswer(db', i) && db'.runs == db.runs && db'.approvals == db.approvals
              && db'.log == db.log + (if Runs(db, x.te) then [Event(ToolCompleted(x.te), None)] else []) + [Event(InputAnswered(i), None)]
  {
  }

  // ---------------------------------------------------------------- resuming

  /** The newest approval of the Run is settled and its call is where the verdict puts it. */
  predicate ApprovalResumable(db: Db, run: RunId) {
    exists i :: 0 <= i < |db.approvals| && db.approvals[i].te.run == run
                && (forall k :: i < k < |db.approvals| ==> db.approvals[k].te.run != run)
                && db.approvals[i].te in db.tools
                && (|| (db.approvals[i].status.Approved? && db.tools[db.approvals[i].te].status.ToolWaiting?)
                    || (db.approvals[i].status.Rejected? && db.tools[db.approvals[i].te].status.ToolFailed?))
  }

  lemma {:induction false} NewestSettled(db: Db, run: RunId)
    ensures var last := LastApproval(db.approvals, run);
            ApprovalResumable(db, run) <==>
              && last.Some? && var a := db.approvals[last.value];
              && a.te in db.tools
              && ((a.status.Approved? && db.tools[a.te].status.ToolWaiting?) || (a.status.Rejected? && db.tools[a.te].status.ToolFailed?))
  {
    hide LastApproval;
  }

  lemma {:induction false} ApprovalResumeCommitsIff(db: Db, op: Op)
    requires Inv(db) && op.ResumeApproval?
    ensures Step(db, op).Commit? <==>
              op.run in db.runs && db.runs[op.run].status.WaitingApproval? && !HasPendingApproval(db, op.run) && ApprovalResumable(db, op.run)
    ensures Step(db, op).Commit? ==> Step(db, op).db == MoveRun(db, op.run, Running, None)
  {
    hide HasPendingApproval, Inv, MoveRun;
    NewestSettled(db, op.run);
    hide LastApproval, ApprovalResumable;
    var last := LastApproval(db.approvals, op.run);
    if last.Some? { ApprovalRefers(db, last.value); }
  }

  /** The newest answered interaction of the Run. */
  predicate NewestAnswer(db: Db, run: RunId, i: nat) {
    && i < |db.interactions| && db.interactions[i].te.run == run && db.interactions[i].status.InputResolved?
    && forall k :: i < k < |db.interactions| ==> !(db.interactions[k].te.run == run && db.interactions[k].status.InputResolved?)
  }

  lemma {:induction false} NewestAnswerIs(db: Db, run: RunId, i: nat)
    ensures NewestAnswer(db, run, i) <==> LastInput(db.interactions, run, IsResolved) == Some(i)
  {
    hide LastInput;
  }

  lemma {:induction false} InputResumeUnfolds(db: Db, run: RunId)
    requires Inv(db)
    ensures var last, tx := LastInput(db.interactions, run, IsResolved), ResumeInputStep(db, run);
            && (tx.Commit? <==>
                  && run in db.runs && db.runs[run].status.WaitingInput? && !HasPendingInput(db, run)
                  && last.Some? && Succeeded(db, db.interactions[last.value].te) && !db.interactions[last.value].phase.Applied?)
            && (tx.Commit? ==> tx.db == MoveRun(SetPhase(db, last.value, Claimed), run, Running, None))
  {
    hide Inv, LastInput, HasPendingInput, IsResolved, MoveRun, SetPhase;
    var last := LastInput(db.interactions, run, IsResolved);
    if last.Some? { InteractionRefers(db, last.value); }
  }

  lemma {:induction false} InputResumeCommitsIff(db: Db, op: Op)
    requires Inv(db) && op.ResumeInput?
    ensures Step(db, op).Commit? <==>
              && op.run in db.runs && db.runs[op.run].status.WaitingInput? && !HasPendingInput(db, op.run)
              && exists i: nat :: i < |db.interactions| && NewestAnswer(db, op.run, i) && Succeeded(db, db.interactions[i].te) && !db.interactions[i].phase.Applied?
    ensures Step(db, op).Commit? ==> exists i: nat :: i < |db.interactions| && NewestAnswer(db, op.run, i) && Step(db, op).db == MoveRun(SetPhase(db, i, Claimed), op.run, Running, None)
  {
    InputResumeUnfolds(db, op.run);
    hide Inv, ResumeInputStep, LastInput, HasPendingInput, NewestAnswer, IsResolved, MoveRun, SetPhase;
    var last := LastInput(db.interactions, op.run, IsResolved);
    forall i: nat ensures NewestAnswer(db, op.run, i) <==> last == Some(i) { NewestAnswerIs(db, op.run, i); }
    if last.Some? { assert last.value < |db.interactions|; }
  }

  lemma {:induction false} CheckpointCommitsIff(db: Db, op: Op)
    requires op.Checkpoint?
    ensures Step(db, op).Commit? <==>
              && Fenced(db, op.ctx) && op.interaction < |db.interactions|
              && var x := db.interactions[op.interaction]; x.phase.Applied? || (x.status.InputResolved? && x.phase.Claimed?)
    ensures Step(db, op).Commit? ==>
              && Step(db, op).db.interactions == db.interactions[op.interaction := db.interactions[op.interaction].(phase := Applied)]
              && Step(db, op).db == db.(interactions := Step(db, op).db.interactions, log := db.log + [Event(Noted(op.ctx.run), By(op.ctx))])
  {
  }

  // ---------------------------------------------------------------- moving and cancelling Runs

  /** How closing a Run leaves a call that was still open: a running one has an unknown outcome. */
  function Closed(t: Tool): Tool {
    t.(status := if t.status.ToolRunning? then ToolUnknown else ToolCancelled, result := Some(Marker(2)))
  }

  predicate OpenCallOf(db: Db, run: RunId, te: TeId) {
    te in db.tools && te.run == run && !TerminalTool(db.tools[te].status)
  }

  lemma {:induction false} ClosingCall(db: Db, run: RunId, order: seq<TeId>, te: TeId)
    ensures var db' := CloseTools(db, run, order);
            && (te in db'.tools <==> te in db.tools)
            && (te in db.tools ==> db'.tools[te] == if te in order && OpenCallOf(db, run, te) then Closed(db.tools[te]) else db.tools[te])
            && db'.runs == db.runs && db'.approvals == db.approvals && db'.interactions == db.interactions && db'.sessions == db.sessions
            && db'.toolOrder == db.toolOrder
    decreases |order|
  {
    if order != [] {
      var head := order[0];
      var db1 := if !OpenCallOf(db, run, head) then db
                 else FinishTool(db, head, if db.tools[head].status.ToolRunning? then ToolUnknown else ToolCancelled, Some(Marker(2)), None);
      assert te in order <==> te == head || te in order[1..];
      ClosingCall(db1, run, order[1..], te);
    }
  }

  lemma {:induction false} CancellingCall(db: Db, run: RunId, order: seq<TeId>, te: TeId)
    ensures var db' := CancelTools(db, run, order);
            && (te in db'.tools <==> te in db.tools)
            && (te in db.tools ==> db'.tools[te] == if te in order && OpenCallOf(db, run, te)
                                                    then db.tools[te].(status := ToolCancelled, result := Some(Marker(3))) else db.tools[te])
            && db'.runs == db.runs && db'.approvals == db.approvals && db'.interactions == db.interactions && db'.sessions == db.sessions
            && db'.toolOrder == db.toolOrder
    decreases |order|
  {
    if order != [] {
      var head := order[0];
      var db1 := if !OpenCallOf(db, run, head) then db else FinishTool(db, head, ToolCancelled, Some(Marker(3)), None);
      assert te in order <==> te == head || te in order[1..];
      CancellingCall(db1, run, order[1..], te);
    }
  }

  lemma {:induction false} CancellingApproval(db: Db, run: RunId, i: nat, a: nat)
    ensures var db' := CancelApprovals(db, run, i);
            && |db'.approvals| == |db.approvals|
            && (a < |db.approvals| ==> db'.approvals[a] == if i <= a && OpenApproval(db, a, run) then Approval(db.approvals[a].te, ApprovalCancelled) else db.approvals[a])
            && db'.tools == db.tools && db'.toolOrder == db.toolOrder && db'.runs == db.runs && db'.interactions == db.interactions && db'.sessions == db.sessions
    decreases |db.approvals| - i
  {
    if i < |db.approvals| {
      if OpenApproval(db, i, run) { CancellingApproval(DecideApproval(db, i, ApprovalCancelled), run, i + 1, a); }
      else { CancellingApproval(db, run, i + 1, a); }
    }
  }

  /** A compare-and-set commits exactly from the expected status along an edge it may take. */
  lemma {:induction false} CasCommitsIff(db: Db, op: Op)
    requires op.Cas?
    ensures Step(db, op).Commit? <==>
              op.run in db.runs && db.runs[op.run].status == op.from && RunEdge(op.from, op.to) && !op.from.WaitingApproval? && !op.from.WaitingInput?
  {
    hide Transition;
  }

  /** It moves the Run and nothing else, except that reaching CANCELLED closes every open call of the Run. */
  lemma {:induction false} CasEffect(db: Db, op: Op, te: TeId)
    requires Inv(db) && op.Cas? && Step(db, op).Commit?
    ensures var db' := Step(db, op).db;
            && db'.runs == db.runs[op.run := db.runs[op.run].(status := op.to)]
            && db'.approvals == db.approvals && db'.interactions == db.interactions && db'.sessions == db.sessions
            && (te in db'.tools <==> te in db.tools)
            && (te in db.tools ==> db'.tools[te] == if op.to.RunCancelled? && OpenCallOf(db, op.run, te) then Closed(db.tools[te]) else db.tools[te])
            && (!op.to.RunCancelled? ==> db' == MoveRun(db, op.run, op.to, None))
  {
    if te in db.tools { ListedTool(db, te); }
    hide Inv, CloseTools;
    ClosingCall(MoveRun(db, op.run, op.to, None), op.run, db.toolOrder, te);
  }

  /** What every unwinding of a parked Run does to the Run and its calls. */
  lemma {:induction false} UnwindEffect(db: Db, run: RunId, te: TeId)
    requires run in db.runs
    ensures var db' := Unwind(db, run);
            && db'.runs == db.runs[run := db.runs[run].(status := RunCancelled)]
            && db'.approvals == db.approvals && db'.interactions == db.interactions && db'.sessions == db.sessions
            && (te in db'.tools <==> te in db.tools)
            && (te in db.tools ==> db'.tools[te] == if te in db.toolOrder && OpenCallOf(db, run, te) then Closed(db.tools[te]) else db.tools[te])
  {
    hide CloseTools;
    var mid := MoveRun(MoveRun(MoveRun(db, run, Running, None), run, Cancelling, None), run, RunCancelled, None);
    ClosingCall(mid, run, mid.toolOrder, te);
  }

  /** Cancelling a Run parked on approvals commits exactly while it is parked, withdraws its open approvals and cancels its open calls. */
  lemma {:induction false} CancelParkedApprovalEffect(db: Db, op: Op, te: TeId, a: nat)
    requires Inv(db) && op.CancelParkedApproval?
    ensures Step(db, op).Commit? <==> op.run in db.runs && db.runs[op.run].status.WaitingApproval?
    ensures Step(db, op).Commit? ==>
              var db' := Step(db, op).db;
              && db'.runs == db.runs[op.run := db.runs[op.run].(status := RunCancelled)]
              && db'.interactions == db.interactions && |db'.approvals| == |db.approvals|
              && (a < |db.approvals| ==> db'.approvals[a] == if OpenApproval(db, a, op.run) then Approval(db.approvals[a].te, ApprovalCancelled) else db.approvals[a])
              && (te in db'.tools <==> te in db.tools)
              && (te in db.tools ==> db'.tools[te] == if OpenCallOf(db, op.run, te) then db.tools[te].(status := ToolCancelled, result := Some(Marker(3))) else db.tools[te])
  {
    if te in db.tools { ListedTool(db, te); }
    hide Inv, Unwind, CancelTools, CancelApprovals, OpenApproval;
    var db1 := CancelApprovals(db, op.run, 0);
    var db2 := CancelTools(db1, op.run, db.toolOrder);
    CancellingApproval(db, op.run, 0, a);
    CancellingCall(db1, op.run, db.toolOrder, te);
    if op.run in db2.runs { UnwindEffect(db2, op.run, te); }
  }

  /** The question a cancel of a parked Run is about: the pending one, or the newest settled one. */
  predicate AboutQuestion(db: Db, run: RunId, i: nat) {
    && i < |db.interactions| && db.interactions[i].te.run == run
    && (|| db.interactions[i].status.InputPending?
        || (!HasPendingInput(db, run) && forall k :: i < k < |db.interactions| ==> db.interactions[k].te.run != run))
  }

  lemma {:induction false} QuestionChosen(db: Db, run: RunId, i: nat)
    requires Inv(db)
    ensures var pending := LastInput(db.interactions, run, IsPending);
            var chosen := if pending.Some? then pending else LastInput(db.interactions, run, IsSettled);
            && (AboutQuestion(db, run, i) <==> chosen == Some(i))
            && (pending.Some? <==> HasPendingInput(db, run))
            && (chosen.Some? ==> !exists k :: 0 <= k < chosen.value && db.interactions[k].te.run == run && db.interactions[k].status.InputPending?)
  {
    hide LastInput, Local, Linked;
  }

  lemma {:induction false} CancelInputUnfolds(db: Db, run: RunId, i: nat)
    requires i < |db.interactions| && db.interactions[i].te.run == run
    requires !exists k :: 0 <= k < i && db.interactions[k].te.run == run && db.interactions[k].status.InputPending?
    requires LastInput(db.interactions, run, IsPending) == if db.interactions[i].status.InputPending? then Some(i) else None
    requires !db.interactions[i].status.InputPending? ==> LastInput(db.interactions, run, IsSettled) == Some(i)
    ensures var tx, asked := CancelParkedInputStep(db, run), db.interactions[i].te;
            && (tx.Commit? <==> run in db.runs && db.runs[run].status.WaitingInput? && asked in db.tools && !db.tools[asked].status.ToolUnknown?)
            && (tx.Commit? ==>
                  var db1 := WithdrawQuestion(db, if db.interactions[i].status.InputPending? then Some(i) else None, asked);
                  run in db1.runs && tx.db == Unwind(db1, run))
  {
    hide Unwind, LastInput, IsPending, IsSettled;
  }

  lemma {:induction false} PendingChosen(db: Db, run: RunId, i: nat)
    requires Inv(db) && AboutQuestion(db, run, i)
    ensures LastInput(db.interactions, run, IsPending) == if db.interactions[i].status.InputPending? then Some(i) else None
  {
    QuestionChosen(db, run, i);
    hide LastInput, Inv;
  }

  lemma {:induction false} WithdrawEffect(db: Db, pending: Option<nat>, asked: TeId, te: TeId)
    requires asked in db.tools && (pending.Some? ==> pending.value < |db.interactions|)
    ensures var db1 := WithdrawQuestion(db, pending, asked);
            && db1.runs == db.runs && db1.approvals == db.approvals && db1.toolOrder == db.toolOrder && db1.sessions == db.sessions
            && db1.interactions == (if pending.Some? then db.interactions[pending.value := db.interactions[pending.value].(status := InputCancelled)] else db.interactions)
            && (te in db1.tools <==> te in db.tools)
            && (te in db.tools ==> db1.tools[te] == if te == asked && !TerminalTool(db.tools[te].status)
                                                    then db.tools[te].(status := ToolCancelled, result := Some(Marker(4))) else db.tools[te])
  {
  }

  /**
   * Cancelling a Run parked on a question commits exactly while it is parked and the question's call
   * has no unknown outcome. It withdraws the open question, cancels its call and closes the others.
   */
  lemma {:induction false} CancelParkedInputEffect(db: Db, op: Op, i: nat, te: TeId)
    requires Inv(db) && op.CancelParkedInput? && AboutQuestion(db, op.run, i)
    ensures var asked := db.interactions[i].te;
            Step(db, op).Commit? <==> op.run in db.runs && db.runs[op.run].status.WaitingInput? && asked in db.tools && !db.tools[asked].status.ToolUnknown?
    ensures Step(db, op).Commit? ==>
              var db', asked := Step(db, op).db, db.interactions[i].te;
              && db'.runs == db.runs[op.run := db.runs[op.run].(status := RunCancelled)] && db'.approvals == db.approvals
              && db'.interactions == (if db.interactions[i].status.InputPending? then db.interactions[i := db.interactions[i].(status := InputCancelled)] else db.interactions)
              && (te in db'.tools <==> te in db.tools)
              && (te in db.tools ==> db'.tools[te] == if !OpenCallOf(db, op.run, te) then db.tools[te]
                                                      else if te == asked then db.tools[te].(status := ToolCancelled, result := Some(Marker(4)))
                                                      else Closed(db.tools[te]))
  {
    QuestionChosen(db, op.run, i);
    PendingChosen(db, op.run, i);
    CancelInputUnfolds(db, op.run, i);
    if te in db.tools { ListedTool(db, te); }
    var asked := db.interactions[i].te;
    assert asked.run == op.run;
    hide Inv, Unwind, AboutQuestion, WithdrawQuestion, CancelParkedInputStep;
    if Step(db, op).Commit? {
      var pending: Option<nat> := if db.interactions[i].status.InputPending? then Some(i) else None;
      var db1 := WithdrawQuestion(db, pending, asked);
      WithdrawEffect(db, pending, asked, te);
      UnwindEffect(db1, op.run, te);
    }
  }

  /** Without any question there is nothing to cancel. */
  lemma {:induction false} CancelParkedInputNeedsQuestion(db: Db, op: Op)
    requires Inv(db) && op.CancelParkedInput? && Step(db, op).Commit?
    ensures exists i: nat :: i < |db.interactions| && AboutQuestion(db, op.run, i)
  {
    hide Unwind, WithdrawQuestion, LastInput, Inv;
    var pending := LastInput(db.interactions, op.run, IsPending);
    var chosen := if pending.Some? then pending else LastInput(db.interactions, op.run, IsSettled);
    QuestionChosen(db, op.run, chosen.value);
  }

  // ---------------------------------------------------------------- fences, sessions, creation

  /** A fence is handed out exactly to an active session for its own RUNNING Run, and is always the next number. */
  lemma {:induction false} FenceCommitsIff(db: Db, op: Op)
    requires op.AcquireFence?
    ensures Step(db, op).Commit? <==>
              op.session in db.sessions && db.sessions[op.session].active && op.run in db.runs && db.runs[op.run] == Run(op.session, Running)
    ensures Step(db, op).Commit? ==>
              Step(db, op).db == db.(sessions := db.sessions[op.session := Session(db.sessions[op.session].fence + 1, true)])
  {
  }

  /** New Runs start ACCEPTED in an existing session and are announced; new sessions start active at fence 0. */
  lemma {:induction false} CreationEffects(db: Db, op: Op)
    requires op.NewRun? || op.NewSession? || op.Activate? || op.Note?
    ensures op.NewRun? ==> (Step(db, op).Commit? <==> op.run !in db.runs && op.session in db.sessions)
    ensures op.NewRun? && Step(db, op).Commit? ==>
              Step(db, op).db == db.(runs := db.runs[op.run := Run(op.session, Accepted)], log := db.log + [Event(RunCreated(op.run), None)])
    ensures op.NewSession? ==> (Step(db, op).Commit? <==> op.session !in db.sessions)
    ensures op.NewSession? && Step(db, op).Commit? ==> Step(db, op).db == db.(sessions := db.sessions[op.session := Session(0, true)])
    ensures op.Activate? ==> (Step(db, op).Commit? <==> op.session in db.sessions)
    ensures op.Activate? && Step(db, op).Commit? ==>
              Step(db, op).db == db.(sessions := db.sessions[op.session := Session(db.sessions[op.session].fence, op.active)])
    ensures op.Note? ==> (Step(db, op).Commit? <==> Fenced(db, op.ctx) && op.ctx.run in db.runs)
    ensures op.Note? && Step(db, op).Commit? ==> Step(db, op).db == db.(log := db.log + [Event(Noted(op.ctx.run), By(op.ctx))])
  {
  }

  // ---------------------------------------------------------------- which error a refusal gives

  /** The row the operation is about does not exist. */
  predicate Missing(db: Db, op: Op) {
    match op
    case Policy(ctx, _, _, _, _, _) => ctx.run !in db.runs
    case RequestApproval(ctx, _, _, _, claimed) =>
      || ctx.run !in db.runs
      || ((db.runs[ctx.run].status.Running? || db.runs[ctx.run].status.WaitingApproval?) && claimed.Some? && claimed.value !in db.tools)
    case RequestInput(ctx, _, _, _, claimed, _) =>
      || ctx.run !in db.runs
      || (&& db.runs[ctx.run].session == ctx.session && (db.runs[ctx.run].status.Running? || db.runs[ctx.run].status.WaitingInput?)
          && claimed.Some? && claimed.value !in db.tools)
    case Start(ctx, _, sig, args, approval, preflight) =>
      if Key(op) in db.tools then
        var t := db.tools[Key(op)];
        && t.sig == sig && ((preflight && args.None?) || t.args == if args.Some? then args.value else EMPTY_ARGS)
        && t.status.ToolWaiting? && approval.Some? && approval.value >= |db.approvals|
      else approval.None? && ctx.run !in db.runs
    case End(ctx, _, _, _, _, _, _) => Key(op) !in db.tools && ctx.run !in db.runs
    case MarkUnknown(_, _, _, _, _) => false
    case Note(ctx) => ctx.run !in db.runs
    case Checkpoint(_, i) => i >= |db.interactions|
    case Decide(a, _, _) => a >= |db.approvals|
    case Respond(run, i, _) => run !in db.runs || i >= |db.interactions|
    case ResumeApproval(run) => run !in db.runs
    case ResumeInput(run) => run !in db.runs
    case Cas(run, _, _) => run !in db.runs
    case CancelParkedApproval(run) => run !in db.runs
    case CancelParkedInput(run) => run !in db.runs
    case AcquireFence(session, run) => session !in db.sessions || run !in db.runs
    case Activate(session, _) => session !in db.sessions
    case NewSession(_) => false
    case NewRun(run, session) => run !in db.runs && session !in db.sessions
  }

  lemma {:induction false} RowsRefer(db: Db)
    requires Inv(db)
    ensures forall te :: te in db.tools ==> te.run in db.runs
    ensures forall i :: 0 <= i < |db.approvals| ==> db.approvals[i].te in db.tools
    ensures forall i :: 0 <= i < |db.interactions| ==> db.interactions[i].te in db.tools
  {
    hide ToolLog, ApprovalLog, InputLog, RunLog, Fencing, ParkedRuns;
  }

  lemma {:induction false} CallRefers(db: Db, te: TeId)
    requires Inv(db) && te in db.tools
    ensures te.run in db.runs
  {
    RowsRefer(db);
  }

  lemma {:induction false} RequestMissing(db: Db, op: Op)
    requires op.RequestApproval? || op.RequestInput?
    ensures Step(db, op) == Abort(NotFound) <==> Fenced(db, op.ctx) && Missing(db, op)
  {
    hide ApprovalFor, InputFor, HasPendingInput, AddApproval, MoveRun;
  }

  lemma {:induction false} RecorderMissing(db: Db, op: Op)
    requires Inv(db) && Recorder(op) && !op.RequestApproval? && !op.RequestInput?
    ensures Step(db, op) == Abort(NotFound) <==> Fenced(db, op.ctx) && Missing(db, op)
  {
    hide Inv, FinishCall, FinishTool, Launch, GetOrCreate;
    match op
    case Start(_, _, _, _, _, _) => StartMissing(db, op);
    case End(_, _, _, _, _, _, _) => EndMissing(db, op);
    case Policy(_, _, _, _, _, _) => PolicyMissing(db, op);
    case _ =>
  }

  lemma {:induction false} PolicyMissing(db: Db, op: Op)
    requires op.Policy?
    ensures Step(db, op) == Abort(NotFound) <==> Fenced(db, op.ctx) && Missing(db, op)
  {
    hide DenyTool, StartTool, ReplayAllowed;
  }

  lemma {:induction false} EndMissing(db: Db, op: Op)
    requires op.End?
    ensures Step(db, op) == Abort(NotFound) <==> Fenced(db, op.ctx) && Missing(db, op)
  {
    hide FinishTool, StartTool;
  }

  lemma {:induction false} LaunchFinds(db: Db, ctx: Ctx, te: TeId, given: Fp, approval: Option<nat>)
    requires te in db.tools && te.run in db.runs
    ensures Launch(db, ctx, te, given, approval) != Abort(NotFound)
  {
  }

  lemma {:induction false} StartedRowMissing(db: Db, op: Op)
    requires op.Start? && Key(op) in db.tools && op.ctx.run in db.runs
    ensures Step(db, op) == Abort(NotFound) <==> Fenced(db, op.ctx) && Missing(db, op)
  {
    hide Launch, GetOrCreate;
    LaunchFinds(db, op.ctx, Key(op), if op.args.Some? then op.args.value else EMPTY_ARGS, op.approval);
  }

  lemma {:induction false} NewRowMissing(db: Db, op: Op)
    requires op.Start? && Key(op) !in db.tools
    ensures Step(db, op) == Abort(NotFound) <==> Fenced(db, op.ctx) && Missing(db, op)
  {
    hide Launch;
    var given := if op.args.Some? then op.args.value else EMPTY_ARGS;
    var got := GetOrCreate(db, op.ctx, op.call, op.sig, given, None, true);
    if got.Got? { LaunchFinds(got.db, op.ctx, Key(op), given, None); }
  }

  lemma {:induction false} StartMissing(db: Db, op: Op)
    requires Inv(db) && op.Start?
    ensures Step(db, op) == Abort(NotFound) <==> Fenced(db, op.ctx) && Missing(db, op)
  {
    hide Inv, Step, Missing;
    if Key(op) in db.tools {
      CallRefers(db, Key(op));
      StartedRowMissing(db, op);
    } else {
      NewRowMissing(db, op);
    }
  }

  lemma {:induction false} CancelMissing(db: Db, op: Op)
    requires Inv(db) && (op.CancelParkedApproval? || op.CancelParkedInput?)
    ensures Step(db, op) == Abort(NotFound) <==> Missing(db, op)
  {
    RowsRefer(db);
    hide Inv, LastInput, Unwind, WithdrawQuestion, CancelTools, CancelApprovals, IsPending, IsSettled;
    match op
    case CancelParkedApproval(run) => CancelKeepsRuns(db, run);
    case CancelParkedInput(run) =>
      var pending := LastInput(db.interactions, run, IsPending);
      var chosen := if pending.Some? then pending else LastInput(db.interactions, run, IsSettled);
      if chosen.Some? {
        var te := db.interactions[chosen.value].te;
        WithdrawEffect(db, pending, te, te);
      }
  }

  lemma {:induction false} HandoverMissing(db: Db, op: Op)
    requires Inv(db) && (op.Decide? || op.Respond? || op.ResumeApproval? || op.ResumeInput?)
    ensures Step(db, op) == Abort(NotFound) <==> Missing(db, op)
  {
    hide Inv, LastApproval, LastInput, HasPendingApproval, HasPendingInput, FinishTool, MoveRun, SetPhase, DecideApproval, AnswerInput, IsResolved;
    match op
    case Decide(a, _, _) => if a < |db.approvals| { ApprovalRefers(db, a); }
    case Respond(_, i, _) => if i < |db.interactions| { InteractionRefers(db, i); }
    case ResumeApproval(run) =>
      var last := LastApproval(db.approvals, run);
      if last.Some? { ApprovalRefers(db, last.value); }
    case ResumeInput(run) =>
      var last := LastInput(db.interactions, run, IsResolved);
      if last.Some? { InteractionRefers(db, last.value); }
  }

  lemma {:induction false} ServiceMissing(db: Db, op: Op)
    requires Inv(db) && !Recorder(op)
    ensures Step(db, op) == Abort(NotFound) <==> Missing(db, op)
  {
    if op.CancelParkedApproval? || op.CancelParkedInput? {
      CancelMissing(db, op);
    } else if op.Decide? || op.Respond? || op.ResumeApproval? || op.ResumeInput? {
      HandoverMissing(db, op);
    } else {
      hide Inv, Transition;
    }
  }

  lemma {:induction false} CancelKeepsRuns(db: Db, run: RunId)
    ensures CancelTools(CancelApprovals(db, run, 0), run, db.toolOrder).runs == db.runs
  {
    CancellingApproval(db, run, 0, 0);
    CancellingCall(CancelApprovals(db, run, 0), run, db.toolOrder, Te(run, 0));
    hide CancelTools, CancelApprovals;
  }

  /** On a reachable ledger "not found" is the answer exactly when the row asked about is missing. */
  lemma {:induction false} NotFoundIff(db: Db, op: Op)
    requires Inv(db)
    ensures Step(db, op) == Abort(NotFound) <==> (Recorder(op) ==> Fenced(db, op.ctx)) && Missing(db, op)
  {
    if op.RequestApproval? || op.RequestInput? { RequestMissing(db, op); }
    else if Recorder(op) { RecorderMissing(db, op); }
    else { ServiceMissing(db, op); }
    hide Step, Missing, Inv;
  }

  /** A policy conflict is the answer exactly to another decision on a decided call. */
  lemma {:induction false} PolicyConflictIff(db: Db, op: Op)
    requires op.Policy?
    ensures Step(db, op) == Abort(PolicyConflict) <==>
              && Fenced(db, op.ctx) && OwnCall(db, op, op.given) && Key(op) in db.tools
              && !Undecided(db, Key(op)) && !ReplayAllowed(db.tools[Key(op)], op.decision, op.pf)
  {
    hide DenyTool, StartTool;
  }

  /** And to a request about a call whose approval is settled. */
  lemma {:induction false} SettledConflictIff(db: Db, op: Op)
    requires Inv(db) && op.RequestApproval?
    ensures Step(db, op) == Abort(PolicyConflict) <==>
              && Fenced(db, op.ctx) && OwnCall(db, op, op.given) && NamesRow(db, op)
              && (db.runs[op.ctx.run].status.Running? || db.runs[op.ctx.run].status.WaitingApproval?)
              && AskedFor(db, Key(op)) && !PendingFor(db, Key(op))
  {
    ApprovalForIs(db, Key(op));
    LocateIff(db, op);
    LocateRefuses(db, op);
    hide ApprovalFor, AskedFor, PendingFor, Inv, LocateTool, ParkForApproval, NamesRow;
    var g := LocateTool(db, op.ctx, op.call, op.sig, op.given, op.claimed);
    if g.Got? && op.ctx.run in db.runs { SettledPark(g.db, op.ctx, Key(op), db.runs[op.ctx.run].status); }
  }

  lemma {:induction false} SettledPark(db: Db, ctx: Ctx, te: TeId, run: RunStatus)
    requires te in db.tools
    ensures var asked := ApprovalFor(db.approvals, te);
            ParkForApproval(db, ctx, te, run) == Abort(PolicyConflict) <==> asked.Some? && !db.approvals[asked.value].status.ApprovalPending?
  {
    hide ApprovalFor;
  }

  lemma {:induction false} LocateRefuses(db: Db, op: Op)
    requires op.RequestApproval?
    ensures LocateTool(db, op.ctx, op.call, op.sig, op.given, op.claimed) != Refused(PolicyConflict)
  {
  }
}
