/** The durable governance tables and the single-row writes that transactions are made of. */
module LedgerState {
  import opened Statuses

  type SessionId = nat
  type RunId = nat
  type CallId = nat

  /** The key (run_id, tool_call_id) is unique, so it stands for the tool execution id. */
  datatype TeId = Te(run: RunId, call: CallId)

  /** A canonical-JSON fingerprint, observed only through equality. */
  datatype Fp = Json(id: nat) | AnswerOf(interaction: nat, response: Fp) | Marker(id: nat)

  const EMPTY_ARGS := Json(0)

  datatype Signature = Signature(name: nat, sandbox: bool)

  datatype Session = Session(fence: nat, active: bool)
  datatype Run = Run(session: SessionId, status: RunStatus)
  datatype Binding = Binding(request: Fp, fence: nat)
  datatype Tool = Tool(sig: Signature, args: Fp, status: ToolStatus,
                       policy: Option<Fp>, policyPending: bool,
                       binding: Option<Binding>, result: Option<Fp>)
  datatype Approval = Approval(te: TeId, status: ApprovalStatus)
  datatype Interaction = Interaction(te: TeId, request: Fp, status: InputStatus,
                                     response: Option<Fp>, phase: ResumePhase)

  datatype EventKey =
    | ToolStarted(te: TeId) | ToolCompleted(te: TeId) | ToolErrored(te: TeId)
    | ApprovalAsked(approval: nat) | ApprovalSettled(approval: nat)
    | InputAsked(interaction: nat) | InputAnswered(interaction: nat) | InputWithdrawn(interaction: nat)
    | RunCreated(run: RunId) | RunMoved(run: RunId, from: RunStatus, to: RunStatus)
    | PolicyAudited(te: TeId) | Noted(run: RunId)

  /** Who wrote an event: a recorder under a session fence, or (None) an unfenced service. */
  datatype Writer = Writer(session: SessionId, fence: nat)
  datatype Event = Event(key: EventKey, writer: Option<Writer>)

  /** Approvals and interactions are in creation order; an index is the row's id. */
  datatype Db = Db(
    sessions: map<SessionId, Session>,
    runs: map<RunId, Run>,
    tools: map<TeId, Tool>,
    toolOrder: seq<TeId>,
    approvals: seq<Approval>,
    interactions: seq<Interaction>,
    log: seq<Event>)

  const EMPTY := Db(map[], map[], map[], [], [], [], [])

  // ---------------------------------------------------------------- views of the log

  predicate ToolEventOf(k: EventKey, te: TeId) {
    (k.ToolStarted? || k.ToolCompleted? || k.ToolErrored?) && k.te == te
  }

  /** The tool.execution.* events of one tool execution, in log order. */
  function ToolEvents(log: seq<Event>, te: TeId): seq<EventKey> {
    if log == [] then []
    else
      var n := |log| - 1;
      ToolEvents(log[..n], te) + if ToolEventOf(log[n].key, te) then [log[n].key] else []
  }

  /** How often an event key occurs. */
  function Tally(log: seq<Event>, k: EventKey): nat {
    if log == [] then 0
    else
      var n := |log| - 1;
      Tally(log[..n], k) + if log[n].key == k then 1 else 0
  }

  /** The status a reader of the log alone would compute for a Run. */
  function RunFold(log: seq<Event>, run: RunId): Option<RunStatus> {
    if log == [] then None
    else
      var n := |log| - 1;
      match log[n].key
      case RunCreated(r) => if r == run then Some(Accepted) else RunFold(log[..n], run)
      case RunMoved(r, _, to) => if r == run then Some(to) else RunFold(log[..n], run)
      case _ => RunFold(log[..n], run)
  }

  // ---------------------------------------------------------------- row writes

  function Emit(db: Db, k: EventKey, w: Option<Writer>): Db {
    db.(log := db.log + [Event(k, w)])
  }

  function SetStatus(db: Db, te: TeId, to: ToolStatus): Db
    requires te in db.tools
  {
    db.(tools := db.tools[te := db.tools[te].(status := to)])
  }

  function AddTool(db: Db, te: TeId, t: Tool): Db {
    db.(tools := db.tools[te := t], toolOrder := db.toolOrder + [te])
  }

  function SetPolicy(db: Db, te: TeId, pf: Fp): Db
    requires te in db.tools
  {
    db.(tools := db.tools[te := db.tools[te].(policy := Some(pf), policyPending := false)])
  }

  function Bind(db: Db, te: TeId, b: Binding): Db
    requires te in db.tools
  {
    db.(tools := db.tools[te := db.tools[te].(binding := Some(b))])
  }

  /** PROPOSED -> FAILED by policy: no tool event. */
  function DenyTool(db: Db, te: TeId): Db
    requires te in db.tools
  {
    SetStatus(db, te, ToolFailed)
  }

  function ParkTool(db: Db, te: TeId): Db
    requires te in db.tools
  {
    SetStatus(db, te, ToolWaiting)
  }

  function StartTool(db: Db, te: TeId, emit: bool, w: Option<Writer>): Db
    requires te in db.tools
  {
    var moved := SetStatus(db, te, ToolRunning);
    if emit then Emit(moved, ToolStarted(te), w) else moved
  }

  /** Any terminal status other than SUCCEEDED is announced as tool.execution.failed. */
  function FinishTool(db: Db, te: TeId, to: ToolStatus, result: Option<Fp>, w: Option<Writer>): Db
    requires te in db.tools
  {
    var row := db.tools[te].(status := to, result := result);
    Emit(db.(tools := db.tools[te := row]),
         if to.ToolSucceeded? then ToolCompleted(te) else ToolErrored(te), w)
  }

  function AddApproval(db: Db, te: TeId, w: Option<Writer>): Db {
    Emit(db.(approvals := db.approvals + [Approval(te, ApprovalPending)]), ApprovalAsked(|db.approvals|), w)
  }

  function DecideApproval(db: Db, a: nat, to: ApprovalStatus): Db
    requires a < |db.approvals|
  {
    Emit(db.(approvals := db.approvals[a := db.approvals[a].(status := to)]), ApprovalSettled(a), None)
  }

  function AddInput(db: Db, te: TeId, request: Fp, w: Option<Writer>): Db {
    Emit(db.(interactions := db.interactions + [Interaction(te, request, InputPending, None, NoPhase)]),
         InputAsked(|db.interactions|), w)
  }

  function AnswerInput(db: Db, i: nat, response: Fp): Db
    requires i < |db.interactions|
  {
    var row := db.interactions[i].(status := InputResolved, response := Some(response), phase := Ready);
    Emit(db.(interactions := db.interactions[i := row]), InputAnswered(i), None)
  }

  function WithdrawInput(db: Db, i: nat): Db
    requires i < |db.interactions|
  {
    Emit(db.(interactions := db.interactions[i := db.interactions[i].(status := InputCancelled)]), InputWithdrawn(i), None)
  }

  function SetPhase(db: Db, i: nat, p: ResumePhase): Db
    requires i < |db.interactions|
  {
    db.(interactions := db.interactions[i := db.interactions[i].(phase := p)])
  }

  function MoveRun(db: Db, run: RunId, to: RunStatus, w: Option<Writer>): Db
    requires run in db.runs
  {
    Emit(db.(runs := db.runs[run := db.runs[run].(status := to)]), RunMoved(run, db.runs[run].status, to), w)
  }

  // ---------------------------------------------------------------- look-ups

  /** First approval of a tool execution, preferring a pending one. */
  function FindApproval(aps: seq<Approval>, te: TeId, pendingOnly: bool): (r: Option<nat>)
    ensures r.Some? ==> r.value < |aps| && aps[r.value].te == te && (pendingOnly ==> aps[r.value].status.ApprovalPending?)
    ensures r.None? ==> forall i :: 0 <= i < |aps| && aps[i].te == te ==> pendingOnly && !aps[i].status.ApprovalPending?
  {
    if aps == [] then None
    else
      var n := |aps| - 1;
      var earlier := FindApproval(aps[..n], te, pendingOnly);
      if earlier.Some? then earlier
      else if aps[n].te == te && (pendingOnly ==> aps[n].status.ApprovalPending?) then Some(n)
      else None
  }

  function ApprovalFor(aps: seq<Approval>, te: TeId): (r: Option<nat>)
    ensures r.Some? ==> r.value < |aps| && aps[r.value].te == te
    ensures r.None? ==> forall i :: 0 <= i < |aps| ==> aps[i].te != te
  {
    var p := FindApproval(aps, te, true);
    if p.Some? then p else FindApproval(aps, te, false)
  }

  predicate HasPendingApproval(db: Db, run: RunId) {
    exists i :: 0 <= i < |db.approvals| && db.approvals[i].te.run == run && db.approvals[i].status.ApprovalPending?
  }

  predicate HasPendingInput(db: Db, run: RunId) {
    exists i :: 0 <= i < |db.interactions| && db.interactions[i].te.run == run && db.interactions[i].status.InputPending?
  }

  /** Newest approval of a Run. */
  function LastApproval(aps: seq<Approval>, run: RunId): (r: Option<nat>)
    ensures r.Some? ==> r.value < |aps| && aps[r.value].te.run == run
    ensures r.Some? ==> forall i :: r.value < i < |aps| ==> aps[i].te.run != run
    ensures r.None? ==> forall i :: 0 <= i < |aps| ==> aps[i].te.run != run
  {
    if aps == [] then None
    else if aps[|aps| - 1].te.run == run then Some(|aps| - 1)
    else LastApproval(aps[..|aps| - 1], run)
  }

  /** The interaction row of one tool call. */
  function InputFor(xs: seq<Interaction>, te: TeId): (r: Option<nat>)
    ensures r.Some? ==> r.value < |xs| && xs[r.value].te == te
    ensures r.None? ==> forall i :: 0 <= i < |xs| ==> xs[i].te != te
  {
    if xs == [] then None
    else
      var n := |xs| - 1;
      var earlier := InputFor(xs[..n], te);
      if earlier.Some? then earlier else if xs[n].te == te then Some(n) else None
  }

  /** Newest interaction of a Run whose status satisfies a predicate. */
  function LastInput(xs: seq<Interaction>, run: RunId, p: Interaction -> bool): (r: Option<nat>)
    ensures r.Some? ==> r.value < |xs| && xs[r.value].te.run == run && p(xs[r.value])
    ensures r.Some? ==> forall i :: r.value < i < |xs| ==> !(xs[i].te.run == run && p(xs[i]))
    ensures r.None? ==> forall i :: 0 <= i < |xs| ==> !(xs[i].te.run == run && p(xs[i]))
  {
    if xs == [] then None
    else
      var n := |xs| - 1;
      if xs[n].te.run == run && p(xs[n]) then Some(n) else LastInput(xs[..n], run, p)
  }
}
