/** What every committed transaction keeps, proved write by write. */
module LedgerInvariant {
  import opened Statuses
  import opened LedgerState

  // ---------------------------------------------------------------- the invariant

  /** Foreign keys resolve, and a tool execution has at most one approval and one interaction. */
  ghost predicate Shape(db: Db) {
    && (forall te :: te in db.tools <==> te in db.toolOrder)
    && (forall te :: te in db.tools ==> te.run in db.runs)
    && (forall i :: 0 <= i < |db.approvals| ==> db.approvals[i].te in db.tools)
    && (forall i, j :: 0 <= i < j < |db.approvals| ==> db.approvals[i].te != db.approvals[j].te)
    && (forall i :: 0 <= i < |db.interactions| ==> db.interactions[i].te in db.tools)
    && (forall i, j :: 0 <= i < j < |db.interactions| ==> db.interactions[i].te != db.interactions[j].te)
  }

  /** The events a tool row in this status may have produced, in order. */
  predicate ToolHistory(te: TeId, t: Tool, evs: seq<EventKey>) {
    var started := ToolStarted(te);
    match t.status
    case Proposed => evs == []
    case ToolWaiting => evs == []
    case ToolRunning => evs == [] || evs == [started]
    case ToolSucceeded => evs == [ToolCompleted(te)] || evs == [started, ToolCompleted(te)]
    case ToolFailed =>
      || evs == [ToolErrored(te)] || evs == [started, ToolErrored(te)]
      || (evs == [] && t.policy.Some?)  // denied by policy
    case _ => evs == [ToolErrored(te)] || evs == [started, ToolErrored(te)]
  }

  ghost predicate ToolLog(db: Db) {
    && (forall te :: te in db.tools ==> ToolHistory(te, db.tools[te], ToolEvents(db.log, te)))
    && (forall te :: te !in db.tools ==> ToolEvents(db.log, te) == [])
    && (forall te :: Tally(db.log, PolicyAudited(te)) == if te in db.tools && db.tools[te].policy.Some? then 1 else 0)
  }

  function One(b: bool): nat { if b then 1 else 0 }

  ghost predicate ApprovalLog(db: Db) {
    forall a: nat ::
      && Tally(db.log, ApprovalAsked(a)) == One(a < |db.approvals|)
      && Tally(db.log, ApprovalSettled(a)) == One(a < |db.approvals| && !db.approvals[a].status.ApprovalPending?)
  }

  ghost predicate InputLog(db: Db) {
    forall i: nat ::
      && Tally(db.log, InputAsked(i)) == One(i < |db.interactions|)
      && Tally(db.log, InputAnswered(i)) == One(i < |db.interactions| && db.interactions[i].status.InputResolved?)
      && Tally(db.log, InputWithdrawn(i)) == One(i < |db.interactions| && db.interactions[i].status.InputCancelled?)
  }

  /** Every recorded Run move starts where the previous one ended and follows the state machine. */
  ghost predicate LegalMoves(log: seq<Event>) {
    forall i :: 0 <= i < |log| && log[i].key.RunMoved? ==>
      && RunEdge(log[i].key.from, log[i].key.to)
      && RunFold(log[..i], log[i].key.run) == Some(log[i].key.from)
  }

  ghost predicate RunLog(db: Db) {
    && LegalMoves(db.log)
    && (forall r :: r in db.runs ==> RunFold(db.log, r) == Some(db.runs[r].status))
    && (forall r :: r !in db.runs ==> RunFold(db.log, r) == None)
  }

  /** Recorder events of a session carry non-decreasing fences, none above the current one. */
  ghost predicate FenceOrder(log: seq<Event>) {
    forall i, j :: 0 <= i < j < |log| && log[i].writer.Some? && log[j].writer.Some?
                   && log[i].writer.value.session == log[j].writer.value.session
                   ==> log[i].writer.value.fence <= log[j].writer.value.fence
  }

  ghost predicate Fencing(db: Db) {
    && FenceOrder(db.log)
    && (forall i :: 0 <= i < |db.log| && db.log[i].writer.Some? ==>
          && db.log[i].writer.value.session in db.sessions
          && db.log[i].writer.value.fence <= db.sessions[db.log[i].writer.value.session].fence)
  }

  /** The part of the invariant that holds after every single row write. */
  ghost predicate Local(db: Db) {
    Shape(db) && ToolLog(db) && ApprovalLog(db) && InputLog(db) && RunLog(db) && Fencing(db)
  }

  /** A settled approval and its tool agree; a parked tool always has a live approval. */
  ghost predicate Linked(db: Db) {
    && (forall i :: 0 <= i < |db.approvals| ==>
          && db.approvals[i].te in db.tools
          && !db.tools[db.approvals[i].te].status.Proposed?
          && (db.approvals[i].status.Rejected? ==> db.tools[db.approvals[i].te].status.ToolFailed?))
    && (forall te :: te in db.tools && db.tools[te].status.ToolWaiting? ==> LiveApproval(db, te))
  }

  ghost predicate LiveApproval(db: Db, te: TeId) {
    exists i :: 0 <= i < |db.approvals| && db.approvals[i].te == te
                && (db.approvals[i].status.ApprovalPending? || db.approvals[i].status.Approved?)
  }

  /** An open question pins its Run to the matching WAITING status, and there is one at a time. */
  ghost predicate ParkedRuns(db: Db) {
    && (forall i :: 0 <= i < |db.approvals| && db.approvals[i].status.ApprovalPending? ==>
          db.approvals[i].te.run in db.runs && db.runs[db.approvals[i].te.run].status.WaitingApproval?)
    && (forall i, j :: 0 <= i < j < |db.approvals| && db.approvals[i].te.run == db.approvals[j].te.run
          ==> !(db.approvals[i].status.ApprovalPending? && db.approvals[j].status.ApprovalPending?))
    && (forall i :: 0 <= i < |db.interactions| && db.interactions[i].status.InputPending? ==>
          db.interactions[i].te.run in db.runs && db.runs[db.interactions[i].te.run].status.WaitingInput?)
    && (forall i, j :: 0 <= i < j < |db.interactions| && db.interactions[i].te.run == db.interactions[j].te.run
          ==> !(db.interactions[i].status.InputPending? && db.interactions[j].status.InputPending?))
  }

  ghost predicate Inv(db: Db) {
    Local(db) && Linked(db) && ParkedRuns(db)
  }

  /** The write is unfenced, or made under the session's current token. */
  ghost predicate WriterOk(db: Db, w: Option<Writer>) {
    w.Some? ==> w.value.session in db.sessions && db.sessions[w.value.session].fence == w.value.fence
  }

  // ---------------------------------------------------------------- one appended event

  lemma {:induction false} AppendOne(log: seq<Event>, e: Event, te: TeId)
    ensures ToolEvents(log + [e], te) == if ToolEventOf(e.key, te) then ToolEvents(log, te) + [e.key] else ToolEvents(log, te)
    ensures Tally(log + [e], PolicyAudited(te)) == Tally(log, PolicyAudited(te)) + One(e.key == PolicyAudited(te))
  {
    assert (log + [e])[..|log|] == log;
  }

  lemma {:induction false} AppendFacts(log: seq<Event>, e: Event)
    ensures forall te :: ToolEvents(log + [e], te) == ToolEvents(log, te) + if ToolEventOf(e.key, te) then [e.key] else []
    ensures forall k :: Tally(log + [e], k) == Tally(log, k) + One(e.key == k)
    ensures forall r :: RunFold(log + [e], r) ==
                        if e.key == RunCreated(r) then Some(Accepted)
                        else if e.key.RunMoved? && e.key.run == r then Some(e.key.to)
                        else RunFold(log, r)
  {
    assert (log + [e])[..|log|] == log;
  }

  lemma {:induction false} AppendMoves(log: seq<Event>, e: Event)
    requires LegalMoves(log)
    requires e.key.RunMoved? ==> RunEdge(e.key.from, e.key.to) && RunFold(log, e.key.run) == Some(e.key.from)
    ensures LegalMoves(log + [e])
  {
    hide ToolEvents, Tally, RunFold;
    var log' := log + [e];
    forall i | 0 <= i < |log'| && log'[i].key.RunMoved?
      ensures RunEdge(log'[i].key.from, log'[i].key.to) && RunFold(log'[..i], log'[i].key.run) == Some(log'[i].key.from)
    {
      assert log'[..i] == log[..i];
      if i == |log| { assert log[..i] == log; } else { assert log'[i] == log[i]; }
    }
  }

  /** The log grew by one event and the named tables did not change, so their agreement is kept. */
  lemma {:induction false} QuietTools(db: Db, db': Db, e: Event)
    requires ToolLog(db) && db'.tools == db.tools && db'.log == db.log + [e]
    requires !(e.key.ToolStarted? || e.key.ToolCompleted? || e.key.ToolErrored? || e.key.PolicyAudited?)
    ensures ToolLog(db')
  {
    hide ToolEvents, Tally, RunFold;
    AppendFacts(db.log, e);
  }

  lemma {:induction false} QuietApprovals(db: Db, db': Db, e: Event)
    requires ApprovalLog(db) && db'.approvals == db.approvals && db'.log == db.log + [e]
    requires !(e.key.ApprovalAsked? || e.key.ApprovalSettled?)
    ensures ApprovalLog(db')
  {
    hide ToolEvents, Tally, RunFold;
    AppendFacts(db.log, e);
  }

  lemma {:induction false} QuietInputs(db: Db, db': Db, e: Event)
    requires InputLog(db) && db'.interactions == db.interactions && db'.log == db.log + [e]
    requires !(e.key.InputAsked? || e.key.InputAnswered? || e.key.InputWithdrawn?)
    ensures InputLog(db')
  {
    hide ToolEvents, Tally, RunFold;
    AppendFacts(db.log, e);
  }

  lemma {:induction false} QuietRuns(db: Db, db': Db, e: Event)
    requires RunLog(db) && db'.runs == db.runs && db'.log == db.log + [e]
    requires !(e.key.RunMoved? || e.key.RunCreated?)
    ensures RunLog(db')
  {
    hide ToolEvents, Tally, RunFold;
    AppendFacts(db.log, e);
    AppendMoves(db.log, e);
  }

  lemma {:induction false} AppendFence(db: Db, db': Db, e: Event)
    requires Fencing(db) && WriterOk(db, e.writer)
    requires db'.sessions == db.sessions && db'.log == db.log + [e]
    ensures Fencing(db')
  {
  }

  lemma {:induction false} EmitLocal(db: Db, k: EventKey, w: Option<Writer>)
    requires Local(db) && WriterOk(db, w) && k.Noted?
    ensures Local(Emit(db, k, w))
  {
    hide ToolLog, ApprovalLog, InputLog, RunLog, Fencing;
    var db', e := Emit(db, k, w), Event(k, w);
    QuietTools(db, db', e);
    QuietApprovals(db, db', e);
    QuietInputs(db, db', e);
    QuietRuns(db, db', e);
    AppendFence(db, db', e);
  }

  // ---------------------------------------------------------------- tool writes

  lemma {:induction false} AddToolLocal(db: Db, te: TeId, t: Tool)
    requires Local(db) && te !in db.tools && te.run in db.runs
    requires t.status.Proposed? && t.policy.None?
    ensures Local(AddTool(db, te, t))
  {
    hide ToolEvents, Tally, RunFold, RunLog, Fencing, ApprovalLog, InputLog;
    var db' := AddTool(db, te, t);
    forall x ensures x in db'.tools <==> x in db'.toolOrder { assert x in db'.toolOrder <==> x in db.toolOrder || x == te; }
    SameLog(db, db');
  }

  /** Tables that agree with the log keep agreeing when neither they nor the log change. */
  lemma {:induction false} SameLog(db: Db, db': Db)
    requires Local(db) && db'.log == db.log && db'.runs == db.runs && db'.sessions == db.sessions
    requires db'.approvals == db.approvals && db'.interactions == db.interactions
    ensures RunLog(db') && Fencing(db') && ApprovalLog(db') && InputLog(db')
  {
    hide ToolEvents, Tally, RunFold, Shape, ToolLog;
  }

  /** Only one tool row and the log changed: the other tables' agreement is kept. */
  lemma {:induction false} ToolEventLocal(db: Db, db': Db, e: Event)
    requires Local(db) && WriterOk(db, e.writer)
    requires db' == db.(tools := db'.tools, toolOrder := db'.toolOrder, log := db.log + [e])
    requires e.key.ToolStarted? || e.key.ToolCompleted? || e.key.ToolErrored? || e.key.PolicyAudited?
    ensures ApprovalLog(db') && InputLog(db') && RunLog(db') && Fencing(db')
  {
    hide ToolLog, ApprovalLog, InputLog, RunLog, Fencing;
    QuietApprovals(db, db', e);
    QuietInputs(db, db', e);
    QuietRuns(db, db', e);
    AppendFence(db, db', e);
  }

  /** One row and one event about it: the log still tells every row's history. */
  lemma {:induction false} RowEvent(db: Db, db': Db, te: TeId, e: Event)
    requires ToolLog(db) && te in db'.tools && db'.tools == db.tools[te := db'.tools[te]] && db'.log == db.log + [e]
    requires ToolEventOf(e.key, te) || (e.key == PolicyAudited(te) && (te in db.tools ==> db.tools[te].policy.None?))
    requires db'.tools[te].policy.Some? <==> e.key.PolicyAudited? || (te in db.tools && db.tools[te].policy.Some?)
    requires ToolHistory(te, db'.tools[te], ToolEvents(db.log, te) + if e.key.PolicyAudited? then [] else [e.key])
    ensures ToolLog(db')
  {
    hide ToolEvents, Tally, RunFold, ToolHistory;
    forall x
      ensures ToolEvents(db'.log, x) == if x == te && !e.key.PolicyAudited? then ToolEvents(db.log, x) + [e.key] else ToolEvents(db.log, x)
      ensures Tally(db'.log, PolicyAudited(x)) == Tally(db.log, PolicyAudited(x)) + One(x == te && e.key.PolicyAudited?)
    {
      AppendOne(db.log, e, x);
    }
    assert ToolEvents(db.log, te) + [] == ToolEvents(db.log, te);
  }

  lemma {:induction false} ShapeAddTool(db: Db, te: TeId, t: Tool)
    requires Shape(db) && te !in db.tools && te.run in db.runs
    ensures Shape(AddTool(db, te, t))
  {
    var db' := AddTool(db, te, t);
    forall x ensures x in db'.tools <==> x in db'.toolOrder { assert x in db'.toolOrder <==> x in db.toolOrder || x == te; }
  }

  /** A row created or adopted by a policy decision, together with its audit record. */
  lemma {:induction false} AuditedLocal(db: Db, te: TeId, t: Tool, w: Option<Writer>)
    requires Local(db) && WriterOk(db, w) && te.run in db.runs
    requires te !in db.tools || db.tools[te].policy.None?
    requires t.policy.Some? && ToolHistory(te, t, ToolEvents(db.log, te))
    ensures Local(Emit(if te in db.tools then db.(tools := db.tools[te := t]) else AddTool(db, te, t), PolicyAudited(te), w))
  {
    hide ToolEvents, Tally, RunFold, RunLog, Fencing, ApprovalLog, InputLog, ToolLog, ToolHistory;
    var e := Event(PolicyAudited(te), w);
    var row := if te in db.tools then db.(tools := db.tools[te := t]) else AddTool(db, te, t);
    if te !in db.tools { ShapeAddTool(db, te, t); }
    assert ToolEvents(db.log, te) + [] == ToolEvents(db.log, te);
    RowEvent(db, Emit(row, e.key, w), te, e);
    ToolEventLocal(db, Emit(row, e.key, w), e);
  }

  /** PROPOSED -> WAITING_APPROVAL, an unannounced start, or a policy denial: no event. */
  lemma {:induction false} SilentMoveLocal(db: Db, te: TeId, to: ToolStatus)
    requires Local(db) && te in db.tools
    requires db.tools[te].status.Proposed?
    requires to.ToolWaiting? || to.ToolRunning? || (to.ToolFailed? && db.tools[te].policy.Some?)
    ensures Local(SetStatus(db, te, to))
  {
    hide ToolEvents, Tally, RunFold, RunLog, Fencing, ApprovalLog, InputLog;
    SameLog(db, SetStatus(db, te, to));
  }

  lemma {:induction false} BindLocal(db: Db, te: TeId, b: Binding)
    requires Local(db) && te in db.tools
    ensures Local(Bind(db, te, b))
  {
    hide ToolEvents, Tally, RunFold, RunLog, Fencing, ApprovalLog, InputLog;
    SameLog(db, Bind(db, te, b));
  }

  lemma {:induction false} StartToolLocal(db: Db, te: TeId, w: Option<Writer>)
    requires Local(db) && te in db.tools && WriterOk(db, w)
    requires db.tools[te].status.Proposed? || db.tools[te].status.ToolWaiting?
    ensures Local(StartTool(db, te, true, w))
  {
    hide ToolEvents, Tally, RunFold, RunLog, Fencing, ApprovalLog, InputLog;
    var e := Event(ToolStarted(te), w);
    var db' := StartTool(db, te, true, w);
    assert ToolHistory(te, db'.tools[te], ToolEvents(db.log, te) + [e.key]);
    RowEvent(db, db', te, e);
    ToolEventLocal(db, db', e);
  }

  lemma {:induction false} FinishToolLocal(db: Db, te: TeId, to: ToolStatus, result: Option<Fp>, w: Option<Writer>)
    requires Local(db) && te in db.tools && WriterOk(db, w)
    requires !TerminalTool(db.tools[te].status) && TerminalTool(to)
    ensures Local(FinishTool(db, te, to, result, w))
  {
    hide ToolEvents, Tally, RunFold, RunLog, Fencing, ApprovalLog, InputLog;
    var e := Event(if to.ToolSucceeded? then ToolCompleted(te) else ToolErrored(te), w);
    var db' := FinishTool(db, te, to, result, w);
    assert ToolHistory(te, db'.tools[te], ToolEvents(db.log, te) + [e.key]);
    RowEvent(db, db', te, e);
    ToolEventLocal(db, db', e);
  }

  // ---------------------------------------------------------------- approval and interaction writes

  lemma {:induction false} ApprovalEventLocal(db: Db, db': Db, e: Event)
    requires Local(db) && WriterOk(db, e.writer)
    requires db' == db.(approvals := db'.approvals, log := db.log + [e])
    requires e.key.ApprovalAsked? || e.key.ApprovalSettled?
    ensures ToolLog(db') && InputLog(db') && RunLog(db') && Fencing(db')
  {
    hide ToolLog, ApprovalLog, InputLog, RunLog, Fencing;
    QuietTools(db, db', e);
    QuietInputs(db, db', e);
    QuietRuns(db, db', e);
    AppendFence(db, db', e);
  }

  lemma {:induction false} AddApprovalLocal(db: Db, te: TeId, w: Option<Writer>)
    requires Local(db) && te in db.tools && WriterOk(db, w)
    requires forall i :: 0 <= i < |db.approvals| ==> db.approvals[i].te != te
    ensures Local(AddApproval(db, te, w))
  {
    hide ToolEvents, Tally, RunFold, RunLog, Fencing, ToolLog, InputLog;
    var e := Event(ApprovalAsked(|db.approvals|), w);
    AppendFacts(db.log, e);
    ApprovalEventLocal(db, AddApproval(db, te, w), e);
  }

  lemma {:induction false} DecideApprovalLocal(db: Db, a: nat, to: ApprovalStatus)
    requires Local(db) && a < |db.approvals|
    requires db.approvals[a].status.ApprovalPending? && !to.ApprovalPending?
    ensures Local(DecideApproval(db, a, to))
  {
    hide ToolEvents, Tally, RunFold, RunLog, Fencing, ToolLog, InputLog;
    var e := Event(ApprovalSettled(a), None);
    AppendFacts(db.log, e);
    ApprovalEventLocal(db, DecideApproval(db, a, to), e);
  }

  lemma {:induction false} InputEventLocal(db: Db, db': Db, e: Event)
    requires Local(db) && WriterOk(db, e.writer)
    requires db' == db.(interactions := db'.interactions, log := db.log + [e])
    requires e.key.InputAsked? || e.key.InputAnswered? || e.key.InputWithdrawn?
    ensures ToolLog(db') && ApprovalLog(db') && RunLog(db') && Fencing(db')
  {
    hide ToolLog, ApprovalLog, InputLog, RunLog, Fencing;
    QuietTools(db, db', e);
    QuietApprovals(db, db', e);
    QuietRuns(db, db', e);
    AppendFence(db, db', e);
  }

  lemma {:induction false} AddInputLocal(db: Db, te: TeId, request: Fp, w: Option<Writer>)
    requires Local(db) && te in db.tools && WriterOk(db, w)
    requires forall i :: 0 <= i < |db.interactions| ==> db.interactions[i].te != te
    ensures Local(AddInput(db, te, request, w))
  {
    hide ToolEvents, Tally, RunFold, RunLog, Fencing, ToolLog, ApprovalLog;
    var e := Event(InputAsked(|db.interactions|), w);
    AppendFacts(db.log, e);
    InputEventLocal(db, AddInput(db, te, request, w), e);
  }

  lemma {:induction false} AnswerInputLocal(db: Db, i: nat, response: Fp)
    requires Local(db) && i < |db.interactions| && db.interactions[i].status.InputPending?
    ensures Local(AnswerInput(db, i, response))
  {
    hide ToolEvents, Tally, RunFold, RunLog, Fencing, ToolLog, ApprovalLog;
    var e := Event(InputAnswered(i), None);
    AppendFacts(db.log, e);
    InputEventLocal(db, AnswerInput(db, i, response), e);
  }

  lemma {:induction false} WithdrawInputLocal(db: Db, i: nat)
    requires Local(db) && i < |db.interactions| && db.interactions[i].status.InputPending?
    ensures Local(WithdrawInput(db, i))
  {
    hide ToolEvents, Tally, RunFold, RunLog, Fencing, ToolLog, ApprovalLog;
    var e := Event(InputWithdrawn(i), None);
    AppendFacts(db.log, e);
    InputEventLocal(db, WithdrawInput(db, i), e);
  }

  lemma {:induction false} SetPhaseLocal(db: Db, i: nat, p: ResumePhase)
    requires Local(db) && i < |db.interactions|
    ensures Local(SetPhase(db, i, p))
  {
    hide ToolEvents, Tally, RunFold;
  }

  // ---------------------------------------------------------------- run and session writes

  lemma {:induction false} RunEventLocal(db: Db, db': Db, e: Event)
    requires Local(db) && WriterOk(db, e.writer)
    requires db' == db.(runs := db'.runs, log := db.log + [e])
    requires e.key.RunMoved? || e.key.RunCreated?
    ensures ToolLog(db') && ApprovalLog(db') && InputLog(db') && Fencing(db')
  {
    hide ToolLog, ApprovalLog, InputLog, RunLog, Fencing;
    QuietTools(db, db', e);
    QuietApprovals(db, db', e);
    QuietInputs(db, db', e);
    AppendFence(db, db', e);
  }

  lemma {:induction false} MoveRunLocal(db: Db, run: RunId, to: RunStatus, w: Option<Writer>)
    requires Local(db) && run in db.runs && WriterOk(db, w)
    requires RunEdge(db.runs[run].status, to)
    ensures Local(MoveRun(db, run, to, w))
  {
    hide ToolEvents, Tally, RunFold, InputLog, Fencing, ToolLog, ApprovalLog;
    var e := Event(RunMoved(run, db.runs[run].status, to), w);
    AppendFacts(db.log, e);
    AppendMoves(db.log, e);
    RunEventLocal(db, MoveRun(db, run, to, w), e);
  }

  lemma {:induction false} NewRunLocal(db: Db, run: RunId, session: SessionId)
    requires Local(db) && run !in db.runs
    ensures Local(Emit(db.(runs := db.runs[run := Run(session, Accepted)]), RunCreated(run), None))
  {
    hide ToolEvents, Tally, RunFold, InputLog, Fencing, ToolLog, ApprovalLog;
    var e := Event(RunCreated(run), None);
    AppendFacts(db.log, e);
    AppendMoves(db.log, e);
    RunEventLocal(db, Emit(db.(runs := db.runs[run := Run(session, Accepted)]), RunCreated(run), None), e);
  }

  lemma {:induction false} SessionLocal(db: Db, session: SessionId, s: Session)
    requires Local(db)
    requires session in db.sessions ==> db.sessions[session].fence <= s.fence
    ensures Local(db.(sessions := db.sessions[session := s]))
  {
    hide ToolEvents, Tally, RunFold;
  }
}
