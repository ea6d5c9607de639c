/**
 * The governance transactions. Each is all-or-nothing: it commits a new state or aborts
 * and leaves the tables untouched. Any interleaving of workers, deciders, responders,
 * cancellers and crashes is a sequence of these steps.
 */
module LedgerSteps {
  import opened Statuses
  import opened LedgerState

  datatype Err = StaleFence | NotFound | Conflict | PolicyConflict

  datatype Tx = Commit(db: Db) | Abort(err: Err)

  /** The frozen context of one recorder. */
  datatype Ctx = Ctx(run: RunId, session: SessionId, fence: nat, sandboxed: bool)

  datatype Decision = Allow | Deny | RequireApproval

  function By(ctx: Ctx): Option<Writer> {
    Some(Writer(ctx.session, ctx.fence))
  }

  /** assertExecutionFence: ACTIVE session whose current token is the caller's. */
  predicate Fenced(db: Db, ctx: Ctx) {
    ctx.session in db.sessions && db.sessions[ctx.session] == Session(ctx.fence, true)
  }

  // ---------------------------------------------------------------- tool rows

  datatype Got = Got(db: Db, created: bool, adopted: bool) | Refused(err: Err)

  /** ToolExecutionRepository.getOrCreate. */
  function GetOrCreate(db: Db, ctx: Ctx, call: CallId, sig: Signature, args: Fp,
                       policy: Option<Fp>, policyPending: bool): (r: Got)
    ensures r.Got? ==> Te(ctx.run, call) in r.db.tools
  {
    var te := Te(ctx.run, call);
    if ctx.run !in db.runs then Refused(NotFound)
    else if db.runs[ctx.run].session != ctx.session then Refused(Conflict)
    else if te in db.tools then
      var t := db.tools[te];
      if t.sig != sig || t.args != args then Refused(Conflict)
      else if && policy.Some? && t.policy.None? && t.policyPending
              && t.status.Proposed? && t.binding.None? && t.result.None? then
        Got(SetPolicy(db, te, policy.value), false, true)
      else if policy.Some? && t.policy != policy then Refused(PolicyConflict)
      else Got(db, false, false)
    else Got(AddTool(db, te, Tool(sig, args, Proposed, policy, policyPending, None, None)), true, false)
  }

  /** assertCompatiblePolicyReplay: may this decision meet a row that already has a policy? */
  predicate ReplayAllowed(t: Tool, d: Decision, pf: Fp) {
    && t.policy == Some(pf)
    && match d
       case Allow => t.status.Proposed? || (t.status.ToolRunning? && t.binding.None?)
       case Deny => t.status.ToolFailed? || t.status.Proposed?
       case RequireApproval => t.status.ToolWaiting? || t.status.Proposed?
  }

  function PolicyStep(db: Db, ctx: Ctx, call: CallId, sig: Signature, args: Fp, d: Decision, pf: Fp): Tx {
    if !Fenced(db, ctx) then Abort(StaleFence)
    else
      match GetOrCreate(db, ctx, call, sig, args, Some(pf), false)
      case Refused(e) => Abort(e)
      case Got(db1, created, adopted) =>
        var te := Te(ctx.run, call);
        if !created && !adopted && !ReplayAllowed(db1.tools[te], d, pf) then Abort(PolicyConflict)
        else
          var proposed := db1.tools[te].status.Proposed?;
          var db2 :=
            if d.Deny? && proposed then DenyTool(db1, te)
            else if d.Allow? && adopted && proposed then StartTool(db1, te, true, By(ctx))
            else db1;
          Commit(if created || adopted then Emit(db2, PolicyAudited(te), By(ctx)) else db2)
  }

  /** The row a request step works on: the claimed one, or insert-if-absent. */
  function LocateTool(db: Db, ctx: Ctx, call: CallId, sig: Signature, args: Fp, claimed: Option<TeId>): (r: Got)
    ensures r.Got? ==> Te(ctx.run, call) in r.db.tools
  {
    if claimed.None? then GetOrCreate(db, ctx, call, sig, args, None, false)
    else if claimed.value !in db.tools || ctx.run !in db.runs then Refused(NotFound)
    else if claimed.value != Te(ctx.run, call) || db.runs[ctx.run].session != ctx.session then Refused(Conflict)
    else if db.tools[claimed.value].sig != sig || db.tools[claimed.value].args != args then Refused(Conflict)
    else Got(db, false, false)
  }

  // ---------------------------------------------------------------- parking

  function RequestApprovalStep(db: Db, ctx: Ctx, call: CallId, sig: Signature, args: Fp, claimed: Option<TeId>): Tx {
    if !Fenced(db, ctx) then Abort(StaleFence)
    else if ctx.run !in db.runs then Abort(NotFound)
    else if !db.runs[ctx.run].status.Running? && !db.runs[ctx.run].status.WaitingApproval? then Abort(Conflict)
    else
      match LocateTool(db, ctx, call, sig, args, claimed)
      case Refused(e) => Abort(e)
      case Got(db1, _, _) =>
        ParkForApproval(db1, ctx, Te(ctx.run, call), db.runs[ctx.run].status)
  }

  /** Park the call, ask once, and suspend the Run that was in status `run`. */
  function ParkForApproval(db: Db, ctx: Ctx, te: TeId, run: RunStatus): Tx
    requires te in db.tools
  {
    var db1 := if db.tools[te].status.Proposed? then ParkTool(db, te) else db;
    var existing := ApprovalFor(db1.approvals, te);
    if existing.Some? && !db1.approvals[existing.value].status.ApprovalPending? then Abort(PolicyConflict)
    else if existing.None? && run.WaitingApproval? then Abort(Conflict)
    else
      var db2 := if existing.None? then AddApproval(db1, te, By(ctx)) else db1;
      if run.Running? && ctx.run in db2.runs
      then Commit(MoveRun(db2, ctx.run, WaitingApproval, By(ctx)))
      else Commit(db2)
  }

  /** requestInteraction finds a row by its call id without re-checking name and arguments. */
  function LocateInputTool(db: Db, ctx: Ctx, call: CallId, sig: Signature, args: Fp, claimed: Option<TeId>): (r: Got)
    ensures r.Got? ==> Te(ctx.run, call) in r.db.tools
  {
    if claimed.Some? then
      if claimed.value !in db.tools then Refused(NotFound)
      else if claimed.value != Te(ctx.run, call) then Refused(Conflict)
      else Got(db, false, false)
    else if Te(ctx.run, call) in db.tools then Got(db, false, false)
    else GetOrCreate(db, ctx, call, sig, args, None, false)
  }

  function RequestInputStep(db: Db, ctx: Ctx, call: CallId, sig: Signature, args: Fp,
                            claimed: Option<TeId>, request: Fp): Tx {
    if !Fenced(db, ctx) then Abort(StaleFence)
    else if ctx.run !in db.runs then Abort(NotFound)
    else if db.runs[ctx.run].session != ctx.session then Abort(Conflict)
    else if !db.runs[ctx.run].status.Running? && !db.runs[ctx.run].status.WaitingInput? then Abort(Conflict)
    else
      match LocateInputTool(db, ctx, call, sig, args, claimed)
      case Refused(e) => Abort(e)
      case Got(db1, _, _) =>
        ParkForInput(db1, ctx, Te(ctx.run, call), request, db.runs[ctx.run].status)
  }

  /** Start the call silently, ask once, and suspend the Run that was in status `run`. */
  function ParkForInput(db: Db, ctx: Ctx, te: TeId, request: Fp, run: RunStatus): Tx
    requires te in db.tools
  {
    var db1 := if db.tools[te].status.Proposed? then StartTool(db, te, false, None) else db;
    if !db1.tools[te].status.ToolRunning? then Abort(Conflict)
    else
      var existing := InputFor(db1.interactions, te);
      if existing.Some? then
        var row := db1.interactions[existing.value];
        if row.request != request || !row.status.InputPending? then Abort(Conflict) else Commit(db1)
      else if run.WaitingInput? || HasPendingInput(db1, ctx.run) then Abort(Conflict)
      else
        var db2 := AddInput(db1, te, request, By(ctx));
        if ctx.run in db2.runs then Commit(MoveRun(db2, ctx.run, WaitingInput, By(ctx))) else Abort(NotFound)
  }

  // ---------------------------------------------------------------- tool life

  /** bindDispatchedSandboxRequest: write-once request hash and fence of a dispatched sandbox call. */
  function BindDispatched(db: Db, ctx: Ctx, te: TeId, request: Fp): Tx
    requires te in db.tools
  {
    var t := db.tools[te];
    var b := Binding(request, ctx.fence);
    if !(t.status.ToolRunning? && t.sig.sandbox && ctx.sandboxed) then Commit(db)
    else if te.run !in db.runs then Abort(NotFound)
    else if db.runs[te.run].session != ctx.session || !db.runs[te.run].status.Running? then Abort(Conflict)
    else if t.binding.None? then Commit(Bind(db, te, b))
    else if t.binding == Some(b) then Commit(db)
    else Abort(Conflict)
  }

  /** Move the row into RUNNING unless it already is, and bind its request. */
  function Launch(db: Db, ctx: Ctx, te: TeId, given: Fp, approval: Option<nat>): Tx
    requires te in db.tools
  {
    if !db.tools[te].status.ToolRunning? then BindDispatched(StartTool(db, te, true, By(ctx)), ctx, te, given)
    else if approval.Some? then Abort(Conflict)
    else BindDispatched(db, ctx, te, given)
  }

  /** `args` is None when the caller passes undefined. */
  function StartStep(db: Db, ctx: Ctx, call: CallId, sig: Signature, args: Option<Fp>,
                     approval: Option<nat>, preflight: bool): Tx {
    var te := Te(ctx.run, call);
    var given := if args.Some? then args.value else EMPTY_ARGS;
    if !Fenced(db, ctx) then Abort(StaleFence)
    else if te in db.tools then
      var t := db.tools[te];
      if t.sig != sig || (!(preflight && args.None?) && t.args != given) then Abort(Conflict)
      else if t.status.ToolWaiting? then
        if approval.None? then Abort(Conflict)
        else if approval.value >= |db.approvals| then Abort(NotFound)
        else if db.approvals[approval.value] != Approval(te, Approved) then Abort(Conflict)
        else if preflight then Commit(db)
        else Launch(db, ctx, te, given, approval)
      else if TerminalTool(t.status) then
        if approval.Some? then Abort(Conflict) else Commit(db)
      else Launch(db, ctx, te, given, approval)
    else if approval.Some? then Abort(Conflict)
    else
      match GetOrCreate(db, ctx, call, sig, given, None, true)
      case Refused(e) => Abort(e)
      case Got(db1, _, _) => Launch(db1, ctx, te, given, None)
  }

  function EndStep(db: Db, ctx: Ctx, call: CallId, sig: Signature, isError: bool,
                   result: Option<Fp>, args: Option<Fp>, artifact: bool): Tx {
    var te := Te(ctx.run, call);
    var to := if isError then ToolFailed else ToolSucceeded;
    if !Fenced(db, ctx) then Abort(StaleFence)
    else if te in db.tools && (db.tools[te].sig != sig || (args.Some? && db.tools[te].args != args.value)) then Abort(Conflict)
    else
      match (if te in db.tools then Got(db, false, false)
             else GetOrCreate(db, ctx, call, sig, EMPTY_ARGS, None, false))
      case Refused(e) => Abort(e)
      case Got(db1, _, _) =>
        FinishCall(db1, ctx, te, to, result, artifact)
  }

  function FinishCall(db: Db, ctx: Ctx, te: TeId, to: ToolStatus, result: Option<Fp>, artifact: bool): Tx
    requires te in db.tools
  {
    var t := db.tools[te];
    if t.status.Proposed? || t.status.ToolRunning? then
      var db1 := if t.status.Proposed? then StartTool(db, te, false, None) else db;
      var db2 := FinishTool(db1, te, to, result, By(ctx));
      Commit(if artifact && to.ToolSucceeded? then Emit(db2, Noted(ctx.run), By(ctx)) else db2)
    else if t.status == to then
      if result.Some? && t.result != result then Abort(Conflict) else Commit(db)
    else Abort(Conflict)
  }

  function UnknownStep(db: Db, ctx: Ctx, call: CallId, sig: Signature, result: Option<Fp>, args: Option<Fp>): Tx {
    var te := Te(ctx.run, call);
    if !Fenced(db, ctx) then Abort(StaleFence)
    else if te !in db.tools then Abort(Conflict)
    else
      var t := db.tools[te];
      if t.sig != sig || (args.Some? && t.args != args.value) then Abort(Conflict)
      else if t.status.ToolRunning? then
        Commit(FinishTool(db, te, ToolUnknown, Some(if result.Some? then result.value else Marker(0)), By(ctx)))
      else if t.status.ToolUnknown? && (result.None? || result == t.result) then Commit(db)
      else Abort(Conflict)
  }

  function NoteStep(db: Db, ctx: Ctx): Tx {
    if !Fenced(db, ctx) then Abort(StaleFence)
    else if ctx.run !in db.runs then Abort(NotFound)
    else Commit(Emit(db, Noted(ctx.run), By(ctx)))
  }

  // ---------------------------------------------------------------- humans

  /** ApprovalDecisionService.resolve. */
  function DecideStep(db: Db, a: nat, runHint: Option<RunId>, approve: bool): Tx {
    var to := if approve then Approved else Rejected;
    if a >= |db.approvals| then Abort(NotFound)
    else
      var te := db.approvals[a].te;
      if runHint.Some? && runHint.value != te.run then Abort(Conflict)
      else if te.run !in db.runs || te !in db.tools then Abort(NotFound)
      else if db.approvals[a].status.ApprovalPending? then
        if !db.runs[te.run].status.WaitingApproval? || !db.tools[te].status.ToolWaiting? then Abort(Conflict)
        else
          var db1 := DecideApproval(db, a, to);
          Commit(if approve then db1 else FinishTool(db1, te, ToolFailed, Some(Marker(1)), None))
      else if db.approvals[a].status == to then Commit(db)
      else Abort(Conflict)
  }

  /** InteractionResponseService.respond. */
  function RespondStep(db: Db, run: RunId, i: nat, response: Fp): Tx {
    if run !in db.runs || i >= |db.interactions| then Abort(NotFound)
    else
      var row := db.interactions[i];
      if row.te.run != run then Abort(Conflict)
      else if row.te !in db.tools then Abort(NotFound)
      else
        match row.status
        case InputResolved => if row.response == Some(response) then Commit(db) else Abort(Conflict)
        case InputCancelled => Abort(Conflict)
        case InputPending =>
          var answer := Some(AnswerOf(i, response));
          if !db.runs[run].status.WaitingInput? then Abort(Conflict)
          else if db.tools[row.te].status.ToolRunning? then
            Commit(AnswerInput(FinishTool(db, row.te, ToolSucceeded, answer, None), i, response))
          else if db.tools[row.te].status.ToolSucceeded? && db.tools[row.te].result == answer then
            Commit(AnswerInput(db, i, response))
          else Abort(Conflict)
  }

  // ---------------------------------------------------------------- resume under the Run lease

  function ResumeApprovalStep(db: Db, run: RunId): Tx {
    if run !in db.runs then Abort(NotFound)
    else if !db.runs[run].status.WaitingApproval? || HasPendingApproval(db, run) then Abort(Conflict)
    else
      var last := LastApproval(db.approvals, run);
      if last.None? then Abort(Conflict)
      else
        var a := db.approvals[last.value];
        if a.te !in db.tools then Abort(NotFound)
        else if || (a.status.Approved? && db.tools[a.te].status.ToolWaiting?)
                || (a.status.Rejected? && db.tools[a.te].status.ToolFailed?) then
          Commit(MoveRun(db, run, Running, None))
        else Abort(Conflict)
  }

  predicate IsResolved(x: Interaction) { x.status.InputResolved? }

  function ResumeInputStep(db: Db, run: RunId): Tx {
    if run !in db.runs then Abort(NotFound)
    else if !db.runs[run].status.WaitingInput? || HasPendingInput(db, run) then Abort(Conflict)
    else
      var last := LastInput(db.interactions, run, IsResolved);
      if last.None? then Abort(Conflict)
      else
        var x := db.interactions[last.value];
        if x.te !in db.tools then Abort(NotFound)
        else if !db.tools[x.te].status.ToolSucceeded? || x.phase.Applied? then Abort(Conflict)
        else Commit(MoveRun(SetPhase(db, last.value, Claimed), run, Running, None))
  }

  /** Checkpoint transaction: the answered tool result is in the durable session. */
  function AppliedStep(db: Db, ctx: Ctx, i: nat): Tx {
    if !Fenced(db, ctx) then Abort(StaleFence)
    else if i >= |db.interactions| then Abort(NotFound)
    else
      var x := db.interactions[i];
      if x.phase.Applied? then Commit(Emit(db, Noted(ctx.run), By(ctx)))
      else if x.status.InputResolved? && x.phase.Claimed? then
        Commit(Emit(SetPhase(db, i, Applied), Noted(ctx.run), By(ctx)))
      else Abort(Conflict)
  }

  // ---------------------------------------------------------------- Run transitions and cancellation

  /** closeOpenToolExecutionsInTxn over the tools listed in creation order. */
  function CloseTools(db: Db, run: RunId, order: seq<TeId>): Db
    decreases |order|
  {
    if order == [] then db
    else
      var te := order[0];
      var db1 :=
        if te.run != run || te !in db.tools || TerminalTool(db.tools[te].status) then db
        else FinishTool(db, te, if db.tools[te].status.ToolRunning? then ToolUnknown else ToolCancelled, Some(Marker(2)), None);
      CloseTools(db1, run, order[1..])
  }

  /** Cancel every unfinished tool of a parked Run. */
  function CancelTools(db: Db, run: RunId, order: seq<TeId>): Db
    decreases |order|
  {
    if order == [] then db
    else
      var te := order[0];
      var db1 :=
        if te.run != run || te !in db.tools || TerminalTool(db.tools[te].status) then db
        else FinishTool(db, te, ToolCancelled, Some(Marker(3)), None);
      CancelTools(db1, run, order[1..])
  }

  /** Withdraw every pending approval of a Run from index `i` on. */
  function CancelApprovals(db: Db, run: RunId, i: nat): Db
    decreases |db.approvals| - i
  {
    if i >= |db.approvals| then db
    else if db.approvals[i].te.run == run && db.approvals[i].status.ApprovalPending? then
      CancelApprovals(DecideApproval(db, i, ApprovalCancelled), run, i + 1)
    else CancelApprovals(db, run, i + 1)
  }

  /** applyRunTransitionInTxn after its compare-and-set succeeded. */
  function Transition(db: Db, run: RunId, to: RunStatus): Db
    requires run in db.runs
  {
    var moved := MoveRun(db, run, to, None);
    if to.RunCancelled? then CloseTools(moved, run, moved.toolOrder) else moved
  }

  /**
   * A compare-and-set along one edge of the state machine, by a worker, the cancel service
   * or recovery. Leaving a WAITING status is reserved to the resume and parked-cancel steps.
   */
  function CasStep(db: Db, run: RunId, from: RunStatus, to: RunStatus): Tx {
    if run !in db.runs then Abort(NotFound)
    else if !RunEdge(from, to) || from.WaitingApproval? || from.WaitingInput? then Abort(Conflict)
    else if db.runs[run].status != from then Abort(Conflict)
    else Commit(Transition(db, run, to))
  }

  /** WAITING -> RUNNING -> CANCELLING -> CANCELLED inside one transaction. */
  function Unwind(db: Db, run: RunId): Db
    requires run in db.runs
  {
    Transition(MoveRun(MoveRun(db, run, Running, None), run, Cancelling, None), run, RunCancelled)
  }

  function CancelParkedApprovalStep(db: Db, run: RunId): Tx {
    if run !in db.runs then Abort(NotFound)
    else if !db.runs[run].status.WaitingApproval? then Abort(Conflict)
    else
      var db1 := CancelTools(CancelApprovals(db, run, 0), run, db.toolOrder);
      if run !in db1.runs then Abort(NotFound) else Commit(Unwind(db1, run))
  }

  predicate IsPending(x: Interaction) { x.status.InputPending? }
  predicate IsSettled(x: Interaction) { !x.status.InputPending? }

  function CancelParkedInputStep(db: Db, run: RunId): Tx {
    if run !in db.runs then Abort(NotFound)
    else if !db.runs[run].status.WaitingInput? then Abort(Conflict)
    else
      var pending := LastInput(db.interactions, run, IsPending);
      var chosen := if pending.Some? then pending else LastInput(db.interactions, run, IsSettled);
      if chosen.None? then Abort(Conflict)
      else if exists i :: 0 <= i < chosen.value && db.interactions[i].te.run == run && db.interactions[i].status.InputPending? then
        Abort(Conflict)  // more than one pending interaction
      else
        var te := db.interactions[chosen.value].te;
        if te !in db.tools then Abort(NotFound)
        else if db.tools[te].status.ToolUnknown? then Abort(Conflict)
        else
          var db1 := WithdrawQuestion(db, pending, te);
          if run !in db1.runs then Abort(NotFound) else Commit(Unwind(db1, run))
  }

  /** Withdraw the open question, if any, and cancel the call that asked it. */
  function WithdrawQuestion(db: Db, pending: Option<nat>, te: TeId): Db
    requires te in db.tools && (pending.Some? ==> pending.value < |db.interactions|)
  {
    var db1 := if pending.Some? then WithdrawInput(db, pending.value) else db;
    if TerminalTool(db1.tools[te].status) then db1 else FinishTool(db1, te, ToolCancelled, Some(Marker(4)), None)
  }

  // ---------------------------------------------------------------- sessions and creation

  function AcquireFenceStep(db: Db, session: SessionId, run: RunId): Tx {
    if session !in db.sessions || run !in db.runs then Abort(NotFound)
    else if !db.sessions[session].active || db.runs[run] != Run(session, Running) then Abort(StaleFence)
    else Commit(db.(sessions := db.sessions[session := Session(db.sessions[session].fence + 1, true)]))
  }

  function ActivateStep(db: Db, session: SessionId, active: bool): Tx {
    if session !in db.sessions then Abort(NotFound)
    else Commit(db.(sessions := db.sessions[session := db.sessions[session].(active := active)]))
  }

  function NewSessionStep(db: Db, session: SessionId): Tx {
    if session in db.sessions then Abort(Conflict)
    else Commit(db.(sessions := db.sessions[session := Session(0, true)]))
  }

  function NewRunStep(db: Db, run: RunId, session: SessionId): Tx {
    if run in db.runs then Abort(Conflict)
    else if session !in db.sessions then Abort(NotFound)
    else Commit(Emit(db.(runs := db.runs[run := Run(session, Accepted)]), RunCreated(run), None))
  }

  // ---------------------------------------------------------------- the step system

  datatype Op =
    | Policy(ctx: Ctx, call: CallId, sig: Signature, given: Fp, decision: Decision, pf: Fp)
    | RequestApproval(ctx: Ctx, call: CallId, sig: Signature, given: Fp, claimed: Option<TeId>)
    | RequestInput(ctx: Ctx, call: CallId, sig: Signature, given: Fp, claimed: Option<TeId>, request: Fp)
    | Start(ctx: Ctx, call: CallId, sig: Signature, args: Option<Fp>, approval: Option<nat>, preflight: bool)
    | End(ctx: Ctx, call: CallId, sig: Signature, isError: bool, result: Option<Fp>, args: Option<Fp>, artifact: bool)
    | MarkUnknown(ctx: Ctx, call: CallId, sig: Signature, result: Option<Fp>, args: Option<Fp>)
    | Note(ctx: Ctx)
    | Checkpoint(ctx: Ctx, interaction: nat)
    | Decide(a: nat, runHint: Option<RunId>, approve: bool)
    | Respond(run: RunId, interaction: nat, response: Fp)
    | ResumeApproval(run: RunId)
    | ResumeInput(run: RunId)
    | Cas(run: RunId, from: RunStatus, to: RunStatus)
    | CancelParkedApproval(run: RunId)
    | CancelParkedInput(run: RunId)
    | AcquireFence(session: SessionId, run: RunId)
    | Activate(session: SessionId, active: bool)
    | NewSession(session: SessionId)
    | NewRun(run: RunId, session: SessionId)

  function Step(db: Db, op: Op): Tx {
    match op
    case Policy(c, k, s, f, d, p) => PolicyStep(db, c, k, s, f, d, p)
    case RequestApproval(c, k, s, f, t) => RequestApprovalStep(db, c, k, s, f, t)
    case RequestInput(c, k, s, f, t, r) => RequestInputStep(db, c, k, s, f, t, r)
    case Start(c, k, s, a, ap, p) => StartStep(db, c, k, s, a, ap, p)
    case End(c, k, s, e, r, a, x) => EndStep(db, c, k, s, e, r, a, x)
    case MarkUnknown(c, k, s, r, a) => UnknownStep(db, c, k, s, r, a)
    case Note(c) => NoteStep(db, c)
    case Checkpoint(c, i) => AppliedStep(db, c, i)
    case Decide(a, h, v) => DecideStep(db, a, h, v)
    case Respond(r, i, x) => RespondStep(db, r, i, x)
    case ResumeApproval(r) => ResumeApprovalStep(db, r)
    case ResumeInput(r) => ResumeInputStep(db, r)
    case Cas(r, f, t) => CasStep(db, r, f, t)
    case CancelParkedApproval(r) => CancelParkedApprovalStep(db, r)
    case CancelParkedInput(r) => CancelParkedInputStep(db, r)
    case AcquireFence(s, r) => AcquireFenceStep(db, s, r)
    case Activate(s, b) => ActivateStep(db, s, b)
    case NewSession(s) => NewSessionStep(db, s)
    case NewRun(r, s) => NewRunStep(db, r, s)
  }

  function Apply(db: Db, op: Op): Db {
    var tx := Step(db, op);
    if tx.Commit? then tx.db else db
  }

  // ---------------------------------------------------------------- what single transactions record

  /**
   * A decision re-evaluated on a row that already has a policy: accepted exactly for the same
   * call, the same fingerprint and a compatible status, and then it at most denies an unstarted
   * call. It starts nothing and writes nothing to the log.
   */
  lemma {:induction false} PolicyReplayOnlyDenies(db: Db, op: Op)
    requires op.Policy? && Te(op.ctx.run, op.call) in db.tools && db.tools[Te(op.ctx.run, op.call)].policy.Some?
    ensures var te := Te(op.ctx.run, op.call);
            var t := db.tools[te];
            && (Step(db, op).Commit? <==>
                  && Fenced(db, op.ctx) && op.ctx.run in db.runs && db.runs[op.ctx.run].session == op.ctx.session
                  && t.sig == op.sig && t.args == op.given && ReplayAllowed(t, op.decision, op.pf))
            && (Step(db, op).Commit? ==>
                  Step(db, op).db == if op.decision.Deny? && t.status.Proposed? then DenyTool(db, te) else db)
  {
  }

  /** A committed start leaves the call RUNNING or finished, and is announced exactly when it moved the row. */
  lemma {:induction false} StartIsAnnouncedIffMoved(db: Db, op: Op)
    requires op.Start? && !op.preflight && Step(db, op).Commit?
    ensures var te, db' := Te(op.ctx.run, op.call), Step(db, op).db;
            && te in db'.tools && ToolRank(db'.tools[te].status) >= 2
            && db'.log == db.log + if te in db.tools && ToolRank(db.tools[te].status) >= 2 then [] else [Event(ToolStarted(te), By(op.ctx))]
  {
    hide BindDispatched;
    var te, given := Te(op.ctx.run, op.call), if op.args.Some? then op.args.value else EMPTY_ARGS;
    var db1 := if te in db.tools then db else GetOrCreate(db, op.ctx, op.call, op.sig, given, None, true).db;
    BindIsQuiet(db1, op.ctx, te, given);
    BindIsQuiet(StartTool(db1, te, true, By(op.ctx)), op.ctx, te, given);
  }

  lemma {:induction false} BindIsQuiet(db: Db, ctx: Ctx, te: TeId, request: Fp)
    requires te in db.tools
    ensures var tx := BindDispatched(db, ctx, te, request);
            tx.Commit? ==> tx.db.log == db.log && te in tx.db.tools && tx.db.tools[te].status == db.tools[te].status
  {
  }

  lemma {:induction false} FinishRecords(db: Db, ctx: Ctx, te: TeId, to: ToolStatus, result: Option<Fp>, artifact: bool)
    requires te in db.tools
    ensures var tx := FinishCall(db, ctx, te, to, result, artifact);
            tx.Commit? ==> te in tx.db.tools && tx.db.tools[te].status == to && (result.Some? ==> tx.db.tools[te].result == result) && db.log <= tx.db.log
  {
  }

  /** A committed end leaves the call in the status it reports. */
  lemma {:induction false} EndRecordsOutcome(db: Db, op: Op)
    requires op.End? && Step(db, op).Commit?
    ensures var te, db' := Te(op.ctx.run, op.call), Step(db, op).db;
            && te in db'.tools && db'.tools[te].status == (if op.isError then ToolFailed else ToolSucceeded)
            && (op.result.Some? ==> db'.tools[te].result == op.result)
            && db.log <= db'.log
  {
    hide FinishCall;
    var te := Te(op.ctx.run, op.call);
    var db1 := if te in db.tools then db else GetOrCreate(db, op.ctx, op.call, op.sig, EMPTY_ARGS, None, false).db;
    FinishRecords(db1, op.ctx, te, if op.isError then ToolFailed else ToolSucceeded, op.result, op.artifact);
  }

  /** A committed decision is the one that was made; a rejection ends the parked call with it. */
  lemma {:induction false} DecisionIsRecorded(db: Db, op: Op)
    requires op.Decide? && Step(db, op).Commit?
    ensures var db' := Step(db, op).db;
            && op.a < |db'.approvals| && db'.approvals[op.a].te == db.approvals[op.a].te
            && db'.approvals[op.a].status == (if op.approve then Approved else Rejected)
            && (db.approvals[op.a].status.ApprovalPending? ==>
                  var te := db.approvals[op.a].te;
                  te in db'.tools && (if op.approve then db'.tools[te].status.ToolWaiting? else db'.tools[te].status.ToolFailed?))
  {
  }
}
