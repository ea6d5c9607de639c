/** What becomes of an answered interaction: claimed, continued once, applied. */
module RunContinuation {
  import opened Statuses
  import opened LedgerState
  import opened LedgerSteps
  import opened LedgerTheorems
  import opened LedgerGuarantees
  import opened RunLease

  /** An answered interaction in this hand-off phase. */
  predicate InPhase(db: Db, i: nat, p: ResumePhase) {
    Answered(db, i) && db.interactions[i].phase == p
  }

  /** This act is the attempt's look at the claimed interactions, and it takes up `i`. */
  predicate TakesUp(w: World, act: Act, a: nat, i: nat) {
    && act.Proceed? && act.a == a && Owns(w, a)
    && w.attempts[a].pc.Claiming? && w.attempts[a].entry.Running?
    && LastInput(w.db.interactions, w.run, IsContinuation) == Some(i)
    && InPhase(w.db, i, Claimed) && Succeeded(w.db, w.db.interactions[i].te)
  }

  /** This act is the attempt's resume of a parked Run, and it claims `i`. */
  predicate ClaimsInput(w: World, act: Act, a: nat, i: nat) {
    && act.Proceed? && act.a == a && Owns(w, a)
    && w.attempts[a].pc.Dispatch? && w.attempts[a].local.WaitingInput?
    && ResumeInputStep(w.db, w.run).Commit?
    && LastInput(w.db.interactions, w.run, IsResolved) == Some(i)
  }

  /** This act commits the checkpoint of interaction `i`. */
  predicate Checkpoints(w: World, act: Act, i: nat) {
    act.Environment? && act.op.Checkpoint? && act.op.interaction == i && Step(w.db, act.op).Commit?
  }

  // ---------------------------------------------------------------- the ledger under an act

  lemma {:induction false} MoveAdvance(w: World, a: nat, cancel: bool)
    requires w.run in w.db.runs && a in w.attempts
    ensures Advance(w.db, Move(w, a, cancel).db)
  {
    hide Advance, CasStep, ResumeInputStep, ResumeApprovalStep, LastInput;
    SelfAdvance(w.db);
    CasAdvance(w.db, w.run, Accepted, Queued);
    CasAdvance(w.db, w.run, Retrying, Queued);
    CasAdvance(w.db, w.run, Queued, Starting);
    CasAdvance(w.db, w.run, Running, RunSucceeded);
    CasAdvance(w.db, w.run, Starting, Running);
    PlainAdvance(w.db, ResumeApproval(w.run));
    PlainAdvance(w.db, ResumeInput(w.run));
  }

  lemma {:induction false} ActAdvance(w: World, act: Act)
    requires w.run in w.db.runs
    ensures Advance(w.db, Act1(w, act).db)
  {
    hide Advance, Move, Apply, Unwind;
    SelfAdvance(w.db);
    match act
    case Environment(op) => StepAdvance(w.db, op);
    case RecoveryCancel => UnwindAdvance(w.db, w.run);
    case Proceed(a, c) => if a in w.attempts { MoveAdvance(w, a, c); }
    case Settle(_, f, t) => StepAdvance(w.db, Cas(w.run, f, t));
    case _ =>
  }

  lemma {:induction false} WorldsAdvance(ws: seq<World>, acts: seq<Act>, m: nat, n: nat)
    requires Worlds(ws, acts) && m <= n < |ws|
    ensures Advance(ws[m].db, ws[n].db)
    decreases n
  {
    hide Advance, Act1;
    if m == n {
      SelfAdvance(ws[m].db);
    } else {
      WorldsAdvance(ws, acts, m, n - 1);
      ActAdvance(ws[n - 1], acts[n - 1]);
      AdvanceTransitive(ws[m].db, ws[n - 1].db, ws[n].db);
    }
  }

  // ---------------------------------------------------------------- who took up what

  lemma {:induction false} ResumeIsSetByTakingUp(w: World, act: Act, a: nat)
    requires w.run in w.db.runs && a in Act1(w, act).attempts && Act1(w, act).attempts[a].resume.Some?
    ensures || (a in w.attempts && w.attempts[a].resume == Act1(w, act).attempts[a].resume)
            || TakesUp(w, act, a, Act1(w, act).attempts[a].resume.value)
  {
    hide Apply, Unwind, CasStep, ResumeInputStep, ResumeApprovalStep, LastInput;
  }

  /** The step at which an attempt took up the interaction it continues. */
  lemma {:induction false} TakenUpAt(ws: seq<World>, acts: seq<Act>, n: nat, a: nat) returns (m: nat)
    requires Worlds(ws, acts) && n < |ws| && a in ws[n].attempts && ws[n].attempts[a].resume.Some?
    ensures m < n && TakesUp(ws[m], acts[m], a, ws[n].attempts[a].resume.value)
    decreases n
  {
    hide Act1, TakesUp;
    ResumeIsSetByTakingUp(ws[n - 1], acts[n - 1], a);
    if a in ws[n - 1].attempts && ws[n - 1].attempts[a].resume == ws[n].attempts[a].resume {
      m := TakenUpAt(ws, acts, n - 1, a);
    } else {
      m := n - 1;
    }
  }

  /**
   * An attempt that entered the executor without moving the Run itself took up, at a definite
   * step of its own, the newest continuation, in phase exactly CLAIMED and with its tool SUCCEEDED.
   */
  lemma {:induction false} UnmovedPromptTookUpAClaim(ws: seq<World>, acts: seq<Act>, n: nat, a: nat) returns (m: nat)
    requires Worlds(ws, acts) && n < |ws| && a in ws[n].attempts && ws[n].attempts[a].prompted && ws[n].attempts[a].movedAt.None?
    ensures ws[n].attempts[a].resume.Some? && m < n && TakesUp(ws[m], acts[m], a, ws[n].attempts[a].resume.value)
  {
    hide Act1, TakesUp;
    WorldsInv(ws, acts, n);
    FairOf(ws[n], a);
    m := TakenUpAt(ws, acts, n, a);
  }

  lemma {:induction false} AppliedStays(ws: seq<World>, acts: seq<Act>, k: nat, m: nat, i: nat)
    requires Worlds(ws, acts) && k <= m < |ws| && InPhase(ws[k].db, i, Applied)
    ensures InPhase(ws[m].db, i, Applied)
  {
    hide Act1;
    WorldsAdvance(ws, acts, k, m);
    assert InputAdvance(ws[k].db.interactions[i], ws[m].db.interactions[i]);
  }

  /** Once APPLIED, an interaction is neither taken up nor claimed again by any attempt. */
  lemma {:induction false} AppliedIsNeverTakenUp(ws: seq<World>, acts: seq<Act>, k: nat, m: nat, a: nat, i: nat)
    requires Worlds(ws, acts) && k <= m < |acts| && InPhase(ws[k].db, i, Applied)
    ensures !TakesUp(ws[m], acts[m], a, i) && !ClaimsInput(ws[m], acts[m], a, i)
  {
    AppliedStays(ws, acts, k, m, i);
    hide Act1, LastInput, HasPendingInput;
  }

  /** An attempt delivered after an interaction was APPLIED never continues it. */
  lemma {:induction false} LaterAttemptsLeaveItAlone(ws: seq<World>, acts: seq<Act>, k: nat, n: nat, a: nat, i: nat)
    requires Worlds(ws, acts) && k <= n < |ws| && InPhase(ws[k].db, i, Applied) && a !in ws[k].attempts && a in ws[n].attempts
    ensures ws[n].attempts[a].resume != Some(i)
  {
    hide Act1, TakesUp, InPhase;
    if ws[n].attempts[a].resume == Some(i) {
      var m := TakenUpAt(ws, acts, n, a);
      if k <= m {
        AppliedIsNeverTakenUp(ws, acts, k, m, a, i);
      } else {
        TakerIsThere(ws[m], acts[m], a, i);
        AttemptsStay(ws, acts, m, k, a);
      }
    }
  }

  lemma {:induction false} TakerIsThere(w: World, act: Act, a: nat, i: nat)
    requires TakesUp(w, act, a, i)
    ensures a in w.attempts
  {
  }

  lemma {:induction false} AttemptsStay(ws: seq<World>, acts: seq<Act>, m: nat, n: nat, a: nat)
    requires Worlds(ws, acts) && m <= n < |ws| && a in ws[m].attempts
    ensures a in ws[n].attempts
    decreases n
  {
    if m < n {
      AttemptsStay(ws, acts, m, n - 1, a);
      AttemptStays(ws[n - 1], acts[n - 1], a);
      hide Act1;
    }
  }

  lemma {:induction false} AttemptStays(w: World, act: Act, a: nat)
    requires w.run in w.db.runs && a in w.attempts
    ensures a in Act1(w, act).attempts && (w.attempts[a].applied ==> Act1(w, act).attempts[a].applied)
  {
    hide Apply, Unwind, CasStep, ResumeInputStep, ResumeApprovalStep, LastInput;
  }

  // ---------------------------------------------------------------- the applied branch

  /** This act finds the newest continuation already APPLIED. */
  predicate FindsApplied(w: World, act: Act, a: nat) {
    && act.Proceed? && act.a == a && Owns(w, a)
    && w.attempts[a].pc.Claiming? && w.attempts[a].entry.Running?
    && var last := LastInput(w.db.interactions, w.run, IsContinuation);
       last.Some? && w.db.interactions[last.value].phase.Applied?
  }

  lemma {:induction false} AppliedFlagStays(ws: seq<World>, acts: seq<Act>, m: nat, n: nat, a: nat)
    requires Worlds(ws, acts) && m <= n < |ws| && a in ws[m].attempts && ws[m].attempts[a].applied
    ensures a in ws[n].attempts && ws[n].attempts[a].applied
    decreases n
  {
    if m < n {
      AppliedFlagStays(ws, acts, m, n - 1, a);
      AttemptStays(ws[n - 1], acts[n - 1], a);
      hide Act1;
    }
  }

  /** An attempt that finds the newest continuation APPLIED prompts at no later time. */
  lemma {:induction false} FoundAppliedNeverPrompts(ws: seq<World>, acts: seq<Act>, m: nat, n: nat, a: nat)
    requires Worlds(ws, acts) && m < n < |ws| && FindsApplied(ws[m], acts[m], a)
    ensures a in ws[n].attempts && !ws[n].attempts[a].prompted
  {
    assert a in ws[m + 1].attempts && ws[m + 1].attempts[a].applied by { hide LastInput, TryMove, TryResume, Apply; }
    hide Act1;
    AppliedFlagStays(ws, acts, m + 1, n, a);
    WorldsInv(ws, acts, n);
    FairOf(ws[n], a);
  }

  // ---------------------------------------------------------------- the window between claim and entry

  lemma {:induction false} CloseKeepsPhase(db: Db, db': Db, i: nat)
    requires InPhase(db, i, Claimed) && OnlyCloses(db, db') && Advance(db, db')
    ensures InPhase(db', i, Claimed)
  {
    assert InputAdvance(db.interactions[i], db'.interactions[i]);
  }

  lemma {:induction false} OtherStepKeepsPhase(db: Db, op: Op, i: nat)
    requires InPhase(db, i, Claimed) && (op.Respond? || op.ResumeApproval? || op.ResumeInput? || op.AcquireFence? || op.Activate?
                                         || op.NewSession? || op.NewRun? || op.Decide? || op.Checkpoint?)
    ensures InPhase(Apply(db, op), i, if op.Checkpoint? && op.interaction == i && Step(db, op).Commit? then Applied else Claimed)
  {
    hide HasPendingInput, HasPendingApproval, LastInput, LastApproval;
  }

  /** A claimed interaction is applied by its checkpoint and by nothing else. */
  lemma {:induction false} StepPhase(db: Db, op: Op, i: nat)
    requires InPhase(db, i, Claimed)
    ensures InPhase(Apply(db, op), i, if op.Checkpoint? && op.interaction == i && Step(db, op).Commit? then Applied else Claimed)
  {
    if Closing(op) {
      hide Apply;
      ClosingCloses(db, op);
      StepAdvance(db, op);
      CloseKeepsPhase(db, Apply(db, op), i);
    } else if op.RequestInput? {
      hide Apply;
      RequestInputFrame(db, op);
    } else if op.Policy? || op.RequestApproval? || op.Start? || op.End? || op.MarkUnknown? || op.Note? {
      hide Apply;
      RecorderInputFrame(db, op);
    } else {
      OtherStepKeepsPhase(db, op, i);
    }
  }

  lemma {:induction false} CasPhase(w: World, from: RunStatus, to: RunStatus, i: nat)
    requires w.run in w.db.runs && InPhase(w.db, i, Claimed)
    ensures var tx := CasStep(w.db, w.run, from, to); tx.Commit? ==> InPhase(tx.db, i, Claimed)
  {
    hide CasStep, InPhase;
    StepPhase(w.db, Cas(w.run, from, to), i);
  }

  lemma {:induction false} MovePhase(w: World, a: nat, cancel: bool, i: nat)
    requires w.run in w.db.runs && a in w.attempts && InPhase(w.db, i, Claimed)
    ensures InPhase(Move(w, a, cancel).db, i, Claimed)
  {
    hide CasStep, ResumeInputStep, ResumeApprovalStep, LastInput, InPhase;
    CasPhase(w, Accepted, Queued, i);
    CasPhase(w, Retrying, Queued, i);
    CasPhase(w, Queued, Starting, i);
    CasPhase(w, Running, RunSucceeded, i);
    CasPhase(w, Starting, Running, i);
    StepPhase(w.db, ResumeApproval(w.run), i);
    StepPhase(w.db, ResumeInput(w.run), i);
  }

  lemma {:induction false} ActPhase(w: World, act: Act, i: nat)
    requires w.run in w.db.runs && InPhase(w.db, i, Claimed)
    ensures InPhase(Act1(w, act).db, i, if Checkpoints(w, act, i) then Applied else Claimed)
  {
    hide Move, Apply, Unwind, InPhase, Step;
    match act
    case Environment(op) => StepPhase(w.db, op, i);
    case RecoveryCancel =>
      UnwindCloses(w.db, w.run);
      UnwindAdvance(w.db, w.run);
      CloseKeepsPhase(w.db, Unwind(w.db, w.run), i);
    case Proceed(a, c) => if a in w.attempts { MovePhase(w, a, c, i); }
    case Settle(_, f, t) => StepPhase(w.db, Cas(w.run, f, t), i);
    case _ =>
  }

  /** From its claim on, an interaction is APPLIED exactly when a checkpoint of it has committed, else still CLAIMED. */
  lemma {:induction false} AppliedIffCheckpointed(ws: seq<World>, acts: seq<Act>, m: nat, n: nat, i: nat)
    requires Worlds(ws, acts) && m <= n < |ws| && InPhase(ws[m].db, i, Claimed)
    ensures InPhase(ws[n].db, i, Applied) <==> exists k :: m <= k < n && Checkpoints(ws[k], acts[k], i)
    ensures InPhase(ws[n].db, i, Applied) || InPhase(ws[n].db, i, Claimed)
    decreases n
  {
    hide Act1, Checkpoints;
    if m < n {
      AppliedIffCheckpointed(ws, acts, m, n - 1, i);
      if InPhase(ws[n - 1].db, i, Applied) {
        AppliedStays(ws, acts, n - 1, n, i);
      } else {
        ActPhase(ws[n - 1], acts[n - 1], i);
      }
    }
  }

  /**
   * The exact window: from its entry into the executor on, the answer continued by an attempt that
   * did not move the Run is APPLIED if and only if its checkpoint committed since the take-up; at
   * the entry itself, between take-up and entry.
   */
  lemma {:induction false} AppliedAtEntryIff(ws: seq<World>, acts: seq<Act>, n: nat, a: nat) returns (m: nat, i: nat)
    requires Worlds(ws, acts) && n < |ws| && a in ws[n].attempts && ws[n].attempts[a].prompted && ws[n].attempts[a].movedAt.None?
    ensures m < n && ws[n].attempts[a].resume == Some(i) && TakesUp(ws[m], acts[m], a, i)
    ensures InPhase(ws[n].db, i, Applied) <==> exists k :: m < k < n && Checkpoints(ws[k], acts[k], i)
    ensures InPhase(ws[n].db, i, Applied) || InPhase(ws[n].db, i, Claimed)
  {
    m := UnmovedPromptTookUpAClaim(ws, acts, n, a);
    i := ws[n].attempts[a].resume.value;
    hide Act1;
    AppliedIffCheckpointed(ws, acts, m, n, i);
    assert !Checkpoints(ws[m], acts[m], i);
  }

  /** The window is real: a checkpoint between take-up and entry does not stop the entry. */
  lemma {:induction false} AppliedMeanwhileStillPrompts(w: World, a: nat, ctx: Ctx, i: nat) returns (ws: seq<World>)
    requires w.run in w.db.runs && Owns(w, a) && w.attempts[a] == Attempt(Gate, Running, Running, Some(i), false, None, false)
    requires InPhase(w.db, i, Claimed) && Fenced(w.db, ctx)
    ensures |ws| == 4 && ws[0] == Act1(w, Environment(Checkpoint(ctx, i)))
    ensures forall k :: 0 <= k < 3 ==> ws[k].run in ws[k].db.runs && ws[k + 1] == Act1(ws[k], Proceed(a, false))
    ensures a in ws[3].attempts && ws[3].attempts[a].pc.Executing? && InPhase(ws[3].db, i, Applied)
  {
    var w0 := Act1(w, Environment(Checkpoint(ctx, i)));
    assert w0.db == Emit(SetPhase(w.db, i, Applied), Noted(ctx.run), By(ctx));
    hide Apply, LastInput, TryMove, TryResume;
    var w1 := Act1(w0, Proceed(a, false));
    var w2 := Act1(w1, Proceed(a, false));
    var w3 := Act1(w2, Proceed(a, false));
    ws := [w0, w1, w2, w3];
  }
}
