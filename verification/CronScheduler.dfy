/** Claiming due schedules: one all-or-nothing batch at a time, at any clock times. */
module CronScheduler {
  import opened Statuses
  import opened CronSchedule

  type JobId = nat

  datatype Schedule = Once(runAt: int) | Recurring(cron: Cron, zone: Zone)

  datatype Job = Job(schedule: Schedule, created: int, next: Option<int>, enabled: bool, deleted: bool,
                     skipMissed: bool, forbid: bool, claim: Option<nat>)

  /** RowOpen: QUEUED or RUNNING with an unfinished Run. */
  datatype RowStatus = RowClaimed | RowSkipped | RowOpen | RowClosed

  datatype Row = Row(job: JobId, at: int, status: RowStatus, byScheduler: bool)

  datatype Table = Table(jobs: map<JobId, Job>, rows: seq<Row>)

  // ---------------------------------------------------------------- one claim

  predicate HasOpen(rows: seq<Row>, j: JobId) {
    exists i :: 0 <= i < |rows| && rows[i].job == j && (rows[i].status.RowClaimed? || rows[i].status.RowOpen?)
  }

  /** The unique key (cron_job_id, scheduled_at). */
  predicate Taken(rows: seq<Row>, j: JobId, at: int) {
    exists i :: 0 <= i < |rows| && rows[i].job == j && rows[i].at == at
  }

  function ClaimStatus(rows: seq<Row>, j: JobId, job: Job, at: int, now: int, grace: int): RowStatus {
    if now - at > grace && job.skipMissed then RowSkipped
    else if job.forbid && HasOpen(rows, j) then RowSkipped
    else RowClaimed
  }

  /** #nextAfter: None when the search throws. */
  function NextAfter(job: Job, at: int): Option<Option<int>> {
    match job.schedule
    case Once(_) => Some(None)
    case Recurring(c, z) => var n := Next(c, z, at); if n.None? then None else Some(n)
  }

  predicate Pending(t: Table, j: JobId) {
    j in t.jobs && t.jobs[j].next.Some?
  }

  /** One round of the loop in claimDue; None rolls the batch back. */
  function ClaimOne(t: Table, j: JobId, now: int, grace: int): Option<Table> {
    if !Pending(t, j) then None
    else
      var job := t.jobs[j];
      var at := job.next.value;
      var after := NextAfter(job, at);
      if after.None? || Taken(t.rows, j, at) then None
      else
        var moved := job.(next := after.value, enabled := if job.schedule.Once? then false else job.enabled, claim := None);
        Some(Table(t.jobs[j := moved], t.rows + [Row(j, at, ClaimStatus(t.rows, j, job, at, now, grace), true)]))
  }

  /** A job is due, unclaimed and live. */
  predicate Due(t: Table, j: JobId, now: int) {
    Pending(t, j) && t.jobs[j].enabled && !t.jobs[j].deleted && t.jobs[j].claim.None? && t.jobs[j].next.value <= now
  }

  /** What claimDueBatch may pick: distinct due jobs, at most `limit`. */
  predicate Batch(t: Table, due: seq<JobId>, now: int, limit: nat) {
    && |due| <= limit
    && (forall k :: 0 <= k < |due| ==> Due(t, due[k], now))
    && (forall k, l :: 0 <= k < l < |due| ==> due[k] != due[l])
  }

  function Mark(t: Table, due: seq<JobId>, token: nat): (r: Table)
    ensures forall j :: Pending(t, j) ==> Pending(r, j)
  {
    t.(jobs := map j | j in t.jobs :: if j in due then t.jobs[j].(claim := Some(token)) else t.jobs[j])
  }

  function ClaimAll(t: Table, due: seq<JobId>, now: int, grace: int): Option<Table> {
    if due == [] then Some(t)
    else
      var n := |due| - 1;
      var prior := ClaimAll(t, due[..n], now, grace);
      if prior.None? then None else ClaimOne(prior.value, due[n], now, grace)
  }

  lemma {:induction false} ClaimAllFrame(t: Table, due: seq<JobId>, now: int, grace: int, j: JobId)
    requires ClaimAll(t, due, now, grace).Some? && j !in due
    ensures var t' := ClaimAll(t, due, now, grace).value;
            t'.jobs.Keys == t.jobs.Keys && (j in t.jobs ==> t'.jobs[j] == t.jobs[j]) && Slots(t'.rows, j) == Slots(t.rows, j)
  {
    if due != [] {
      var n := |due| - 1;
      hide Slots, ClaimStatus, NextAfter, Taken;
      ClaimAllFrame(t, due[..n], now, grace, j);
      var t1, t' := ClaimAll(t, due[..n], now, grace).value, ClaimAll(t, due, now, grace).value;
      SlotsAppend(t1.rows, t'.rows[|t1.rows|], j);
    }
  }

  /** One new row per claimed job, at its due instant; a slot is SKIPPED exactly for lateness or overlap. */
  lemma {:induction false} ClaimAllRows(t: Table, due: seq<JobId>, now: int, grace: int, k: nat)
    requires ClaimAll(t, due, now, grace).Some? && forall k, l :: 0 <= k < l < |due| ==> due[k] != due[l]
    ensures var rows := ClaimAll(t, due, now, grace).value.rows;
            && |rows| == |t.rows| + |due| && rows[..|t.rows|] == t.rows
            && (k < |due| ==> due[k] in t.jobs && var r, job := rows[|t.rows| + k], t.jobs[due[k]];
                  && r.job == due[k] && Some(r.at) == job.next && r.byScheduler && (r.status.RowClaimed? || r.status.RowSkipped?)
                  && (r.status.RowSkipped? <==> (now - r.at > grace && job.skipMissed) || (job.forbid && HasOpen(t.rows, due[k]))))
  {
    if due != [] {
      var n := |due| - 1;
      hide NextAfter, Taken, Slots;
      ClaimAllRows(t, due[..n], now, grace, k);
      ClaimAllFrame(t, due[..n], now, grace, due[n]);
      OpenFrame(t, due[..n], now, grace, due[n]);
    }
  }

  /** Claiming other jobs opens no execution of this one. */
  lemma {:induction false} OpenFrame(t: Table, due: seq<JobId>, now: int, grace: int, j: JobId)
    requires ClaimAll(t, due, now, grace).Some? && j !in due
    ensures HasOpen(ClaimAll(t, due, now, grace).value.rows, j) <==> HasOpen(t.rows, j)
  {
    if due != [] {
      var n := |due| - 1;
      hide NextAfter, Taken;
      OpenFrame(t, due[..n], now, grace, j);
      var t1, t' := ClaimAll(t, due[..n], now, grace).value, ClaimAll(t, due, now, grace).value;
      assert forall i :: 0 <= i < |t1.rows| ==> t'.rows[i] == t1.rows[i];
    }
  }

  // ---------------------------------------------------------------- the schedule is followed exactly

  /** Scheduled instants of the scheduler-made rows of one job, oldest first. */
  function Slots(rows: seq<Row>, j: JobId): seq<int> {
    if rows == [] then []
    else
      var n := |rows| - 1;
      Slots(rows[..n], j) + if rows[n].job == j && rows[n].byScheduler then [rows[n].at] else []
  }

  /** The instant before position i: the creation time for the first one. */
  function Prior(created: int, s: seq<int>, i: nat): int
    requires i <= |s|
  {
    if i == 0 then created else s[i - 1]
  }

  /** Each instant is the next occurrence after the one before it. */
  ghost predicate Chain(c: Cron, z: Zone, created: int, s: seq<int>) {
    forall i :: 0 <= i < |s| ==> IsNext(c, z, Prior(created, s, i), s[i])
  }

  ghost predicate OnSchedule(job: Job, s: seq<int>) {
    match job.schedule
    case Once(at) => (s == [] || s == [at]) && (job.next.Some? ==> s == [] && job.next == Some(at))
    case Recurring(c, z) =>
      && Chain(c, z, job.created, s)
      && (job.next.Some? ==> IsNext(c, z, Prior(job.created, s, |s|), job.next.value))
      && (job.next.None? ==> s == [])
  }

  ghost predicate ScheduleInv(t: Table) {
    && (forall j :: j in t.jobs ==> OnSchedule(t.jobs[j], Slots(t.rows, j)) && t.jobs[j].claim.None?)
    && (forall i :: 0 <= i < |t.rows| ==> t.rows[i].job in t.jobs)
    && (forall j :: j !in t.jobs ==> Slots(t.rows, j) == [])
  }

  lemma {:induction false} NextFacts(c: Cron, z: Zone, after: int, t: int)
    requires IsNext(c, z, after, t)
    ensures after < t && t % MINUTE == 0 && Fires(c, z, t / MINUTE)
  {
  }

  lemma {:induction false} NothingBetween(c: Cron, z: Zone, after: int, t: int, x: int)
    requires IsNext(c, z, after, t) && x % MINUTE == 0 && after < x < t
    ensures !Fires(c, z, x / MINUTE)
  {
    hide Fires;
    assert x == (x / MINUTE) * MINUTE;
  }

  lemma {:induction false} ChainPrefix(c: Cron, z: Zone, created: int, s: seq<int>, n: nat)
    requires Chain(c, z, created, s) && n <= |s|
    ensures Chain(c, z, created, s[..n])
  {
    hide IsNext;
    forall i | 0 <= i < n ensures IsNext(c, z, Prior(created, s[..n], i), s[..n][i]) {
      assert IsNext(c, z, Prior(created, s, i), s[i]);
    }
  }

  lemma {:induction false} ChainExtends(c: Cron, z: Zone, created: int, s: seq<int>, t: int)
    requires Chain(c, z, created, s) && IsNext(c, z, Prior(created, s, |s|), t)
    ensures Chain(c, z, created, s + [t])
  {
    hide IsNext;
    forall i | 0 <= i < |s| + 1 ensures IsNext(c, z, Prior(created, s + [t], i), (s + [t])[i]) {
      if i < |s| { assert IsNext(c, z, Prior(created, s, i), s[i]); }
    }
  }

  /** A chain is strictly increasing and misses no occurrence up to its end. */
  lemma {:induction false} ChainIsExact(c: Cron, z: Zone, created: int, s: seq<int>, t: int)
    requires Chain(c, z, created, s) && s != []
    ensures forall i :: 0 <= i < |s| ==> created < s[i] <= s[|s| - 1]
    ensures t in s <==> t % MINUTE == 0 && created < t <= s[|s| - 1] && Fires(c, z, t / MINUTE)
  {
    hide Fires, IsNext;
    var n := |s| - 1;
    var last, before := s[n], Prior(created, s, n);
    NextFacts(c, z, before, last);
    if n > 0 {
      ChainPrefix(c, z, created, s, n);
      ChainIsExact(c, z, created, s[..n], t);
      assert s == s[..n] + [last];
    }
    if t % MINUTE == 0 && before < t < last { NothingBetween(c, z, before, last, t); }
  }

  lemma {:induction false} ChainIncreases(c: Cron, z: Zone, created: int, s: seq<int>, i: nat, k: nat)
    requires Chain(c, z, created, s) && i < k < |s|
    ensures s[i] < s[k]
  {
    hide IsNext;
    NextFacts(c, z, Prior(created, s, k), s[k]);
    if i < k - 1 { ChainIncreases(c, z, created, s, i, k - 1); }
  }

  lemma {:induction false} SlotsAppend(rows: seq<Row>, r: Row, j: JobId)
    ensures Slots(rows + [r], j) == Slots(rows, j) + if r.job == j && r.byScheduler then [r.at] else []
  {
    assert (rows + [r])[..|rows|] == rows;
  }

  lemma {:induction false} SlotsHold(rows: seq<Row>, i: nat)
    requires i < |rows| && rows[i].byScheduler
    ensures rows[i].at in Slots(rows, rows[i].job)
  {
    if i < |rows| - 1 { SlotsHold(rows[..|rows| - 1], i); }
  }

  /** The scheduler itself never occupies a slot that is still to come. */
  lemma {:induction false} NextSlotIsFree(job: Job, j: JobId, rows: seq<Row>, i: nat)
    requires OnSchedule(job, Slots(rows, j)) && job.next.Some?
    requires i < |rows| && rows[i].job == j && rows[i].at == job.next.value
    ensures !rows[i].byScheduler
  {
    hide Fires, IsNext, Chain, Slots;
    if rows[i].byScheduler {
      SlotsHold(rows, i);
      var s := Slots(rows, j);
      if job.schedule.Recurring? {
        NextFacts(job.schedule.cron, job.schedule.zone, Prior(job.created, s, |s|), job.next.value);
        ChainIsExact(job.schedule.cron, job.schedule.zone, job.created, s, job.next.value);
      }
    }
  }

  lemma {:induction false} ClaimOneFollows(t: Table, j: JobId, now: int, grace: int)
    requires Pending(t, j) && OnSchedule(t.jobs[j], Slots(t.rows, j)) && ClaimOne(t, j, now, grace).Some?
    ensures var t' := ClaimOne(t, j, now, grace).value;
            && OnSchedule(t'.jobs[j], Slots(t'.rows, j)) && t'.jobs[j].claim.None?
            && Slots(t'.rows, j) == Slots(t.rows, j) + [t.jobs[j].next.value]
            && forall k :: k != j ==> Slots(t'.rows, k) == Slots(t.rows, k)
  {
    var t' := ClaimOne(t, j, now, grace).value;
    var r := t'.rows[|t.rows|];
    forall k ensures Slots(t'.rows, k) == Slots(t.rows, k) + if r.job == k && r.byScheduler then [r.at] else [] {
      SlotsAppend(t.rows, r, k);
    }
    hide Slots, Next, IsNext, Chain;
    var job, s := t.jobs[j], Slots(t.rows, j);
    match job.schedule
    case Once(_) =>
    case Recurring(c, z) =>
      ChainExtends(c, z, job.created, s, job.next.value);
      assert Prior(job.created, s + [job.next.value], |s| + 1) == job.next.value;
  }

  ghost predicate AllOnSchedule(t: Table) {
    forall j :: j in t.jobs ==> OnSchedule(t.jobs[j], Slots(t.rows, j))
  }

  lemma {:induction false} ClaimOneKeeps(t: Table, j: JobId, now: int, grace: int)
    requires AllOnSchedule(t) && ClaimOne(t, j, now, grace).Some?
    ensures AllOnSchedule(ClaimOne(t, j, now, grace).value)
    ensures ClaimOne(t, j, now, grace).value.jobs[j].claim.None?
  {
    ClaimOneFollows(t, j, now, grace);
    hide OnSchedule, Slots, NextAfter, ClaimStatus, Taken;
  }

  /** Every job stays on its schedule, and no claimed job keeps the batch token. */
  lemma {:induction false} ClaimAllKeeps(t: Table, due: seq<JobId>, now: int, grace: int)
    requires AllOnSchedule(t) && ClaimAll(t, due, now, grace).Some?
    requires forall k, l :: 0 <= k < l < |due| ==> due[k] != due[l]
    ensures var t' := ClaimAll(t, due, now, grace).value;
            AllOnSchedule(t') && forall j :: j in due ==> j in t'.jobs && t'.jobs[j].claim.None?
  {
    hide OnSchedule, Slots, AllOnSchedule, NextAfter, ClaimStatus, Taken;
    if due != [] {
      var n := |due| - 1;
      ClaimAllKeeps(t, due[..n], now, grace);
      ClaimOneKeeps(ClaimAll(t, due[..n], now, grace).value, due[n], now, grace);
      assert due == due[..n] + [due[n]];
    }
  }

  // ---------------------------------------------------------------- when a batch is refused

  /** The slot cannot be advanced past, or a manual run already took it. */
  ghost predicate Stuck(t: Table, j: JobId)
    requires Pending(t, j)
  {
    NextAfter(t.jobs[j], t.jobs[j].next.value).None?
    || exists i :: 0 <= i < |t.rows| && t.rows[i].job == j && t.rows[i].at == t.jobs[j].next.value && !t.rows[i].byScheduler
  }

  lemma {:induction false} ClaimOneFailsIff(t: Table, j: JobId, now: int, grace: int)
    requires Pending(t, j) && OnSchedule(t.jobs[j], Slots(t.rows, j))
    ensures ClaimOne(t, j, now, grace).None? <==> Stuck(t, j)
  {
    hide OnSchedule, Slots, NextAfter;
    if Taken(t.rows, j, t.jobs[j].next.value) {
      var i :| 0 <= i < |t.rows| && t.rows[i].job == j && t.rows[i].at == t.jobs[j].next.value;
      NextSlotIsFree(t.jobs[j], j, t.rows, i);
    }
  }

  lemma {:induction false} BatchRows(t: Table, due: seq<JobId>, now: int, grace: int)
    requires ClaimAll(t, due, now, grace).Some? && forall k, l :: 0 <= k < l < |due| ==> due[k] != due[l]
    ensures var rows := ClaimAll(t, due, now, grace).value.rows;
            && |rows| == |t.rows| + |due| && rows[..|t.rows|] == t.rows
            && forall k :: 0 <= k < |due| ==> rows[|t.rows| + k].job == due[k]
  {
    hide ClaimAll, HasOpen;
    ClaimAllRows(t, due, now, grace, 0);
    forall k | 0 <= k < |due| ensures ClaimAll(t, due, now, grace).value.rows[|t.rows| + k].job == due[k] { ClaimAllRows(t, due, now, grace, k); }
  }

  /** A batch is rolled back exactly when one of its jobs is stuck. */
  lemma {:induction false} BatchFailsIff(t: Table, due: seq<JobId>, now: int, grace: int)
    requires forall k :: 0 <= k < |due| ==> Pending(t, due[k])
    requires forall k, l :: 0 <= k < l < |due| ==> due[k] != due[l]
    requires AllOnSchedule(t)
    ensures ClaimAll(t, due, now, grace).None? <==> exists k :: 0 <= k < |due| && Stuck(t, due[k])
    decreases |due|
  {
    hide OnSchedule, Slots, NextAfter, ClaimOne, Stuck;
    if due != [] {
      var n := |due| - 1;
      BatchFailsIff(t, due[..n], now, grace);
      assert forall k :: 0 <= k < n ==> due[..n][k] == due[k];
      if ClaimAll(t, due[..n], now, grace).Some? {
        ClaimAllFrame(t, due[..n], now, grace, due[n]);
        ClaimAllKeeps(t, due[..n], now, grace);
        var t1 := ClaimAll(t, due[..n], now, grace).value;
        ClaimOneFailsIff(t1, due[n], now, grace);
        BatchRows(t, due[..n], now, grace);
        StuckFrame(t, t1, due[n], due[..n]);
      } else {
        assert exists k :: 0 <= k < n && Stuck(t, due[..n][k]);
      }
    }
  }

  lemma {:induction false} StuckFrame(t: Table, t1: Table, j: JobId, others: seq<JobId>)
    requires Pending(t, j) && Pending(t1, j) && t1.jobs[j] == t.jobs[j] && j !in others
    requires |t1.rows| == |t.rows| + |others| && t1.rows[..|t.rows|] == t.rows
    requires forall k :: 0 <= k < |others| ==> t1.rows[|t.rows| + k].job == others[k]
    ensures Stuck(t, j) <==> Stuck(t1, j)
  {
    hide NextAfter;
    assert forall i :: 0 <= i < |t.rows| ==> t1.rows[i] == t.rows[i];
    forall i | |t.rows| <= i < |t1.rows| ensures t1.rows[i].job != j {
      assert t1.rows[|t.rows| + (i - |t.rows|)].job == others[i - |t.rows|];
    }
  }

  // ---------------------------------------------------------------- every step of the scheduler

  datatype Op =
    | Create(j: JobId, schedule: Schedule, enabled: bool, skipMissed: bool, forbid: bool, now: int)
    | ClaimDue(due: seq<JobId>, now: int, limit: nat, grace: int, token: nat)
    | RunManual(j: JobId, now: int)
    | UpdateRow(i: nat, status: RowStatus)
    | Delete(j: JobId)

  function CreateStep(t: Table, op: Op): Table
    requires op.Create?
  {
    var first := match op.schedule case Once(at) => Some(at) case Recurring(c, z) => Next(c, z, op.now);
    if op.j in t.jobs || (op.enabled && first.None?) then t
    else t.(jobs := t.jobs[op.j := Job(op.schedule, op.now, if op.enabled then first else None, op.enabled, false,
                                       op.skipMissed, op.forbid, None)])
  }

  function ClaimStep(t: Table, op: Op): Table
    requires op.ClaimDue?
  {
    if !Batch(t, op.due, op.now, op.limit) then t
    else
      var done := ClaimAll(Mark(t, op.due, op.token), op.due, op.now, op.grace);
      if done.None? then t else done.value
  }

  function ManualStep(t: Table, j: JobId, now: int): Table {
    if j !in t.jobs || t.jobs[j].deleted || (t.jobs[j].forbid && HasOpen(t.rows, j)) || Taken(t.rows, j, now) then t
    else t.(rows := t.rows + [Row(j, now, RowClaimed, false)])
  }

  function Apply(t: Table, op: Op): Table {
    match op
    case Create(_, _, _, _, _, _) => CreateStep(t, op)
    case ClaimDue(_, _, _, _, _) => ClaimStep(t, op)
    case RunManual(j, now) => ManualStep(t, j, now)
    case UpdateRow(i, status) => if i < |t.rows| then t.(rows := t.rows[i := t.rows[i].(status := status)]) else t
    case Delete(j) => if j in t.jobs then t.(jobs := t.jobs[j := t.jobs[j].(deleted := true, enabled := false)]) else t
  }

  lemma {:induction false} SlotsIgnoreStatus(rows: seq<Row>, i: nat, status: RowStatus, j: JobId)
    requires i < |rows|
    ensures Slots(rows[i := rows[i].(status := status)], j) == Slots(rows, j)
  {
    var rows' := rows[i := rows[i].(status := status)];
    var n := |rows| - 1;
    if i < n {
      SlotsIgnoreStatus(rows[..n], i, status, j);
      assert rows'[..n] == rows[..n][i := rows[i].(status := status)];
    } else {
      assert rows'[..n] == rows[..n];
    }
  }

  lemma {:induction false} SlotsOfStrangers(rows: seq<Row>, j: JobId)
    requires forall i :: 0 <= i < |rows| ==> rows[i].job != j
    ensures Slots(rows, j) == []
  {
    if rows != [] { SlotsOfStrangers(rows[..|rows| - 1], j); }
  }

  lemma {:induction false} ClaimStepKeeps(t: Table, op: Op)
    requires ScheduleInv(t) && op.ClaimDue?
    ensures ScheduleInv(ClaimStep(t, op))
  {
    hide OnSchedule, Slots, ClaimAll, AllOnSchedule;
    var m := Mark(t, op.due, op.token);
    var done := ClaimAll(m, op.due, op.now, op.grace);
    if Batch(t, op.due, op.now, op.limit) && done.Some? {
      var t' := done.value;
      assert AllOnSchedule(m) by { MarkOnSchedule(t, op.due, op.token); }
      ClaimAllKeeps(m, op.due, op.now, op.grace);
      ClaimAllRows(m, op.due, op.now, op.grace, 0);
      forall j | j in t'.jobs ensures OnSchedule(t'.jobs[j], Slots(t'.rows, j)) && t'.jobs[j].claim.None? {
        OnScheduleOf(t', j);
        if j !in op.due { ClaimAllFrame(m, op.due, op.now, op.grace, j); }
      }
      ClaimAllKeys(m, op.due, op.now, op.grace);
      forall i | 0 <= i < |t'.rows| ensures t'.rows[i].job in t'.jobs {
        if i >= |t.rows| { ClaimAllRows(m, op.due, op.now, op.grace, i - |t.rows|); }
        else { assert t'.rows[i] == t'.rows[..|t.rows|][i]; }
      }
      forall j | j !in t'.jobs ensures Slots(t'.rows, j) == [] { SlotsOfStrangers(t'.rows, j); }
    }
  }

  lemma {:induction false} OnScheduleOf(t: Table, j: JobId)
    requires AllOnSchedule(t) && j in t.jobs
    ensures OnSchedule(t.jobs[j], Slots(t.rows, j))
  {
  }

  lemma {:induction false} ClaimAllKeys(t: Table, due: seq<JobId>, now: int, grace: int)
    requires ClaimAll(t, due, now, grace).Some?
    ensures ClaimAll(t, due, now, grace).value.jobs.Keys == t.jobs.Keys
  {
    hide NextAfter, Taken, ClaimStatus;
    if due != [] { ClaimAllKeys(t, due[..|due| - 1], now, grace); }
  }

  lemma {:induction false} MarkOnSchedule(t: Table, due: seq<JobId>, token: nat)
    requires ScheduleInv(t)
    ensures AllOnSchedule(Mark(t, due, token))
  {
    hide Slots, Chain, IsNext;
  }

  lemma {:induction false} ApplyKeeps(t: Table, op: Op)
    requires ScheduleInv(t)
    ensures ScheduleInv(Apply(t, op))
  {
    hide Slots, Next, IsNext, Chain, ClaimStep;
    var t' := Apply(t, op);
    match op
    case ClaimDue(_, _, _, _, _) => ClaimStepKeeps(t, op);
    case Create(_, schedule, _, _, _, now) =>
      if schedule.Recurring? { EmptyChain(schedule.cron, schedule.zone, now); }
    case RunManual(j, now) =>
      if t' != t { forall k ensures Slots(t'.rows, k) == Slots(t.rows, k) { SlotsAppend(t.rows, t'.rows[|t.rows|], k); } }
    case UpdateRow(i, status) =>
      if i < |t.rows| { forall k ensures Slots(t'.rows, k) == Slots(t.rows, k) { SlotsIgnoreStatus(t.rows, i, status, k); } }
    case Delete(_) =>
  }

  lemma {:induction false} EmptyChain(c: Cron, z: Zone, created: int)
    ensures Chain(c, z, created, [])
  {
  }

  ghost predicate History(hist: seq<Table>, ops: seq<Op>) {
    && |hist| == |ops| + 1
    && hist[0] == Table(map[], [])
    && forall i :: 0 <= i < |ops| ==> hist[i + 1] == Apply(hist[i], ops[i])
  }

  lemma {:induction false} HistoryInv(hist: seq<Table>, ops: seq<Op>, n: nat)
    requires History(hist, ops) && n < |hist|
    ensures ScheduleInv(hist[n])
  {
    hide Apply;
    if n > 0 {
      hide ScheduleInv;
      HistoryInv(hist, ops, n - 1);
      ApplyKeeps(hist[n - 1], ops[n - 1]);
    }
  }

  /**
   * After any series of batches at any clock times, with manual runs and deletions between
   * them, the scheduler-made rows of a recurring job stand at exactly the occurrences from
   * creation up to the latest one: in order, none skipped, none repeated.
   */
  lemma {:induction false} RowsAreTheFirstOccurrences(hist: seq<Table>, ops: seq<Op>, n: nat, j: JobId, t: int, a: nat, b: nat)
    requires History(hist, ops) && n < |hist| && j in hist[n].jobs && hist[n].jobs[j].schedule.Recurring?
    requires Slots(hist[n].rows, j) != []
    ensures var job, s := hist[n].jobs[j], Slots(hist[n].rows, j);
            && IsNext(job.schedule.cron, job.schedule.zone, job.created, s[0])
            && (a < b < |s| ==> s[a] < s[b] && IsNext(job.schedule.cron, job.schedule.zone, s[a], s[a + 1]))
            && (t in s <==> t % MINUTE == 0 && job.created < t <= s[|s| - 1] && Fires(job.schedule.cron, job.schedule.zone, t / MINUTE))
  {
    hide Apply, Slots, IsNext, Fires;
    HistoryInv(hist, ops, n);
    var job, s := hist[n].jobs[j], Slots(hist[n].rows, j);
    ChainIsExact(job.schedule.cron, job.schedule.zone, job.created, s, t);
    if a < b < |s| {
      ChainIncreases(job.schedule.cron, job.schedule.zone, job.created, s, a, b);
      assert Prior(job.created, s, a + 1) == s[a];
    }
  }

  /** What is claimed next is the occurrence right after the latest row, so nothing falls between. */
  lemma {:induction false} NextRunFollowsTheRows(hist: seq<Table>, ops: seq<Op>, n: nat, j: JobId)
    requires History(hist, ops) && n < |hist| && j in hist[n].jobs && hist[n].jobs[j].schedule.Recurring? && hist[n].jobs[j].next.Some?
    ensures var job, s := hist[n].jobs[j], Slots(hist[n].rows, j);
            IsNext(job.schedule.cron, job.schedule.zone, if s == [] then job.created else s[|s| - 1], job.next.value)
  {
    hide Apply, Slots, IsNext, Chain;
    HistoryInv(hist, ops, n);
  }

  /** A one-time job gets at most one scheduler row, at its own instant. */
  lemma {:induction false} OnceRunsOnce(hist: seq<Table>, ops: seq<Op>, n: nat, j: JobId)
    requires History(hist, ops) && n < |hist| && j in hist[n].jobs && hist[n].jobs[j].schedule.Once?
    ensures var job, s := hist[n].jobs[j], Slots(hist[n].rows, j);
            (s == [] || s == [job.schedule.runAt]) && (job.next.Some? ==> s == [] && job.next == Some(job.schedule.runAt))
  {
    hide Apply, Slots;
    HistoryInv(hist, ops, n);
  }

  // ---------------------------------------------------------------- a live job is never lost

  /** The job can still fire: an upcoming slot, enabled and unclaimed; a one-time job only until it has run. */
  ghost predicate Live(t: Table, j: JobId) {
    && j in t.jobs && !t.jobs[j].deleted && t.jobs[j].claim.None?
    && var job := t.jobs[j];
    match job.schedule
    case Recurring(_, _) => job.enabled && job.next.Some?
    case Once(at) =>
      if Slots(t.rows, j) == [] then job.enabled && job.next == Some(at)
      else Slots(t.rows, j) == [at] && !job.enabled && job.next.None?
  }

  /** What an edit-free job keeps for life. */
  ghost predicate SameTerms(a: Job, b: Job) {
    a.schedule == b.schedule && a.created == b.created && a.skipMissed == b.skipMissed && a.forbid == b.forbid
  }

  /** What a committed batch leaves of one of its jobs. */
  lemma {:induction false} ClaimAllJob(t: Table, due: seq<JobId>, now: int, grace: int, k: nat)
    requires ClaimAll(t, due, now, grace).Some? && k < |due| && forall k, l :: 0 <= k < l < |due| ==> due[k] != due[l]
    ensures var t', j := ClaimAll(t, due, now, grace).value, due[k];
            && Pending(t, j) && j in t'.jobs && SameTerms(t'.jobs[j], t.jobs[j]) && t'.jobs[j].claim.None? && t'.jobs[j].deleted == t.jobs[j].deleted
            && (t.jobs[j].schedule.Once? ==> !t'.jobs[j].enabled && t'.jobs[j].next.None?)
            && (t.jobs[j].schedule.Recurring? ==> t'.jobs[j].enabled == t.jobs[j].enabled && t'.jobs[j].next.Some?)
            && Slots(t'.rows, j) == Slots(t.rows, j) + [t.jobs[j].next.value]
  {
    var n := |due| - 1;
    hide Slots, ClaimStatus, Taken, Next;
    var t1, t' := ClaimAll(t, due[..n], now, grace).value, ClaimAll(t, due, now, grace).value;
    SlotsAppend(t1.rows, t'.rows[|t1.rows|], due[k]);
    if k < n { ClaimAllJob(t, due[..n], now, grace, k); } else { ClaimAllFrame(t, due[..n], now, grace, due[n]); }
  }

  lemma {:induction false} LiveThroughBatch(t: Table, op: Op, j: JobId)
    requires ScheduleInv(t) && j in t.jobs && op.ClaimDue?
    ensures j in Apply(t, op).jobs && SameTerms(Apply(t, op).jobs[j], t.jobs[j])
    ensures Live(t, j) ==> Live(Apply(t, op), j)
  {
    hide Slots, ClaimAll, OnSchedule, NextAfter;
    var m := Mark(t, op.due, op.token);
    if Batch(t, op.due, op.now, op.limit) && ClaimAll(m, op.due, op.now, op.grace).Some? {
      if j in op.due {
        var k :| 0 <= k < |op.due| && op.due[k] == j;
        ClaimAllJob(m, op.due, op.now, op.grace, k);
        if t.jobs[j].schedule.Once? { OnceSlots(t, j); }
      } else {
        ClaimAllFrame(m, op.due, op.now, op.grace, j);
      }
    }
  }

  lemma {:induction false} OnceSlots(t: Table, j: JobId)
    requires ScheduleInv(t) && j in t.jobs && t.jobs[j].schedule.Once? && t.jobs[j].next.Some?
    ensures Slots(t.rows, j) == [] && t.jobs[j].next == Some(t.jobs[j].schedule.runAt)
  {
    hide Slots;
  }

  lemma {:induction false} LiveThroughOther(t: Table, op: Op, j: JobId)
    requires j in t.jobs && !op.ClaimDue?
    ensures j in Apply(t, op).jobs && SameTerms(Apply(t, op).jobs[j], t.jobs[j])
    ensures Live(t, j) && op != Delete(j) ==> Live(Apply(t, op), j)
  {
    hide Slots, Next, HasOpen, Taken;
    var t' := Apply(t, op);
    if op.RunManual? && t' != t { SlotsAppend(t.rows, t'.rows[|t.rows|], j); }
    if op.UpdateRow? && op.i < |t.rows| { SlotsIgnoreStatus(t.rows, op.i, op.status, j); }
  }

  /** A new job is taken on unless it is enabled and its expression fires nowhere in the search window. */
  lemma {:induction false} CreatedIff(t: Table, op: Op)
    requires op.Create? && op.j !in t.jobs
    ensures op.j in Apply(t, op).jobs <==>
              !op.enabled || op.schedule.Once?
              || exists m :: op.now / MINUTE < m <= op.now / MINUTE + WINDOW && Fires(op.schedule.cron, op.schedule.zone, m)
    ensures op.j in Apply(t, op).jobs && !op.enabled ==> !Apply(t, op).jobs[op.j].enabled && Apply(t, op).jobs[op.j].next.None?
  {
    hide Fires;
  }

  lemma {:induction false} CreatedIsLive(t: Table, op: Op)
    requires ScheduleInv(t) && op.Create? && op.j !in t.jobs && op.j in Apply(t, op).jobs
    ensures var job := Apply(t, op).jobs[op.j];
            job.schedule == op.schedule && job.created == op.now && job.skipMissed == op.skipMissed && job.forbid == op.forbid
    ensures op.enabled ==> Live(Apply(t, op), op.j)
  {
    hide Slots, Next, OnSchedule;
  }

  /**
   * A job keeps the terms it was created with, and one created enabled stays live until it is deleted:
   * a recurring job always has a next slot and is due from that instant on, a one-time job is due from
   * its instant until it has its one row.
   */
  lemma {:induction false} JobStaysLive(hist: seq<Table>, ops: seq<Op>, m: nat, n: nat)
    requires History(hist, ops) && m < n < |hist| && ops[m].Create? && ops[m].j !in hist[m].jobs && ops[m].j in hist[m + 1].jobs
    ensures var op, j := ops[m], ops[m].j;
            && j in hist[n].jobs && var job := hist[n].jobs[j];
            && job.schedule == op.schedule && job.created == op.now && job.skipMissed == op.skipMissed && job.forbid == op.forbid
            && (op.enabled && (forall i :: m < i < n ==> ops[i] != Delete(j)) ==> Live(hist[n], j))
    decreases n
  {
    hide Apply, Live, ScheduleInv;
    var op, j := ops[m], ops[m].j;
    if n == m + 1 {
      HistoryInv(hist, ops, m);
      CreatedIsLive(hist[m], op);
    } else {
      JobStaysLive(hist, ops, m, n - 1);
      HistoryInv(hist, ops, n - 1);
      if ops[n - 1].ClaimDue? { LiveThroughBatch(hist[n - 1], ops[n - 1], j); } else { LiveThroughOther(hist[n - 1], ops[n - 1], j); }
    }
  }

  /** A live job whose slot has come may be picked, and only then. */
  lemma {:induction false} LiveIsDueFromItsSlot(t: Table, j: JobId, now: int)
    requires Live(t, j)
    ensures Due(t, j, now) <==> t.jobs[j].next.Some? && t.jobs[j].next.value <= now
  {
    hide Slots;
  }

  /** A deleted job never gets another row, scheduled or manual. */
  lemma {:induction false} DeletedJobGetsNoRows(hist: seq<Table>, ops: seq<Op>, m: nat, n: nat, i: nat)
    requires History(hist, ops) && m < n < |hist| && ops[m].Delete? && ops[m].j in hist[m].jobs
    ensures ops[m].j in hist[n].jobs && hist[n].jobs[ops[m].j].deleted && !hist[n].jobs[ops[m].j].enabled && |hist[m].rows| <= |hist[n].rows|
    ensures |hist[m].rows| <= i < |hist[n].rows| ==> hist[n].rows[i].job != ops[m].j
    decreases n
  {
    if n > m + 1 {
      DeletedJobGetsNoRows(hist, ops, m, n - 1, i);
      hide Apply;
      DeletedStays(hist[n - 1], ops[n - 1], ops[m].j, i);
    }
  }

  lemma {:induction false} DeletedStays(t: Table, op: Op, j: JobId, i: nat)
    requires j in t.jobs && t.jobs[j].deleted && !t.jobs[j].enabled
    ensures var t' := Apply(t, op);
            && j in t'.jobs && t'.jobs[j].deleted && !t'.jobs[j].enabled && |t.rows| <= |t'.rows|
            && (i < |t.rows| ==> t'.rows[i].job == t.rows[i].job)
            && (|t.rows| <= i < |t'.rows| ==> t'.rows[i].job != j)
  {
    hide ClaimAll, Next, HasOpen, Taken;
    if op.ClaimDue? && Batch(t, op.due, op.now, op.limit) && ClaimAll(Mark(t, op.due, op.token), op.due, op.now, op.grace).Some? {
      var m := Mark(t, op.due, op.token);
      ClaimAllFrame(m, op.due, op.now, op.grace, j);
      BatchRows(m, op.due, op.now, op.grace);
      var rows := Apply(t, op).rows;
      assert i < |t.rows| ==> rows[..|t.rows|][i] == rows[i];
      if |t.rows| <= i < |rows| { assert rows[|t.rows| + (i - |t.rows|)].job == op.due[i - |t.rows|]; }
    }
  }

  /** A batch commits exactly when none of its jobs is stuck, and then every one of them has its row. */
  lemma {:induction false} BatchCommitsIff(t: Table, op: Op, k: nat)
    requires ScheduleInv(t) && op.ClaimDue? && Batch(t, op.due, op.now, op.limit)
    ensures var stuck := exists k :: 0 <= k < |op.due| && Stuck(t, op.due[k]);
            var rows := Apply(t, op).rows;
            && (stuck ==> Apply(t, op) == t)
            && (!stuck ==> |rows| == |t.rows| + |op.due| && rows[..|t.rows|] == t.rows)
            && (!stuck && k < |op.due| ==>
                  var r, job := rows[|t.rows| + k], t.jobs[op.due[k]];
                  && r.job == op.due[k] && Some(r.at) == job.next && r.byScheduler && (r.status.RowClaimed? || r.status.RowSkipped?)
                  && (r.status.RowSkipped? <==> (op.now - r.at > op.grace && job.skipMissed) || (job.forbid && HasOpen(t.rows, op.due[k]))))
  {
    MarkedBatch(t, op.due, op.now, op.limit, op.grace, op.token);
    hide ClaimAll, Stuck, ScheduleInv, HasOpen;
    if ClaimAll(Mark(t, op.due, op.token), op.due, op.now, op.grace).Some? { BatchLeaves(t, op, k); }
  }

  lemma {:induction false} BatchLeaves(t: Table, op: Op, k: nat)
    requires op.ClaimDue? && Batch(t, op.due, op.now, op.limit) && ClaimAll(Mark(t, op.due, op.token), op.due, op.now, op.grace).Some?
    ensures var rows := Apply(t, op).rows;
            && |rows| == |t.rows| + |op.due| && rows[..|t.rows|] == t.rows
            && (k < |op.due| ==>
                  var r, job := rows[|t.rows| + k], t.jobs[op.due[k]];
                  && r.job == op.due[k] && Some(r.at) == job.next && r.byScheduler && (r.status.RowClaimed? || r.status.RowSkipped?)
                  && (r.status.RowSkipped? <==> (op.now - r.at > op.grace && job.skipMissed) || (job.forbid && HasOpen(t.rows, op.due[k]))))
  {
    DistinctBatch(t, op);
    hide ClaimAll, HasOpen;
    ClaimAllRows(Mark(t, op.due, op.token), op.due, op.now, op.grace, k);
  }

  /** A manual run is taken on exactly for a live schedule slot-free instant with no forbidden overlap. */
  lemma {:induction false} ManualRunIff(t: Table, j: JobId, now: int)
    ensures var t' := Apply(t, RunManual(j, now));
            var ok := j in t.jobs && !t.jobs[j].deleted
                      && forall i :: 0 <= i < |t.rows| && t.rows[i].job == j ==> t.rows[i].at != now && (t.jobs[j].forbid ==> !OpenRow(t.rows[i]));
            && t'.jobs == t.jobs && (!ok ==> t'.rows == t.rows)
            && (ok ==> t'.rows == t.rows + [Row(j, now, RowClaimed, false)])
  {
  }

  // ---------------------------------------------------------------- a stuck job stays stuck

  ghost predicate StuckJob(t: Table, j: JobId) {
    Pending(t, j) && Stuck(t, j)
  }

  /** A batch that contains a stuck job changes nothing, for the other due jobs either. */
  lemma {:induction false} StuckBatchChangesNothing(t: Table, op: Op, j: JobId)
    requires ScheduleInv(t) && StuckJob(t, j) && op.ClaimDue? && j in op.due
    ensures Apply(t, op) == t
  {
    hide ClaimAll, Stuck, ScheduleInv;
    if Batch(t, op.due, op.now, op.limit) {
      MarkedBatch(t, op.due, op.now, op.limit, op.grace, op.token);
      var k :| 0 <= k < |op.due| && op.due[k] == j;
      assert Stuck(t, op.due[k]);
    }
  }

  /** The slot and whatever holds it survive. */
  lemma {:induction false} StuckFrameByRows(t: Table, t': Table, j: JobId)
    requires StuckJob(t, j) && j in t'.jobs && t'.jobs[j].schedule == t.jobs[j].schedule && t'.jobs[j].next == t.jobs[j].next
    requires |t.rows| <= |t'.rows|
    requires forall i :: 0 <= i < |t.rows| ==> t'.rows[i].job == t.rows[i].job && t'.rows[i].at == t.rows[i].at && t'.rows[i].byScheduler == t.rows[i].byScheduler
    ensures StuckJob(t', j)
  {
    hide Next;
    if i :| 0 <= i < |t.rows| && t.rows[i].job == j && t.rows[i].at == t.jobs[j].next.value && !t.rows[i].byScheduler {
      assert t'.rows[i].job == j;
    }
  }

  lemma {:induction false} StuckThroughOthers(t: Table, op: Op, j: JobId)
    requires StuckJob(t, j) && op.ClaimDue? && j !in op.due
    ensures StuckJob(Apply(t, op), j)
  {
    hide ClaimAll, StuckJob, Batch, ClaimStatus, Slots;
    var m := Mark(t, op.due, op.token);
    if Batch(t, op.due, op.now, op.limit) && ClaimAll(m, op.due, op.now, op.grace).Some? {
      StuckPending(t, j);
      DistinctBatch(t, op);
      ClaimAllFrame(m, op.due, op.now, op.grace, j);
      BatchRows(m, op.due, op.now, op.grace);
      var t' := Apply(t, op);
      forall i | 0 <= i < |t.rows| ensures t'.rows[i] == t.rows[i] { assert t'.rows[i] == t'.rows[..|t.rows|][i]; }
      StuckFrameByRows(t, t', j);
    }
  }

  lemma {:induction false} DistinctBatch(t: Table, op: Op)
    requires op.ClaimDue? && Batch(t, op.due, op.now, op.limit)
    ensures forall k, l :: 0 <= k < l < |op.due| ==> op.due[k] != op.due[l]
  {
  }

  lemma {:induction false} StuckThroughPlain(t: Table, op: Op, j: JobId)
    requires StuckJob(t, j) && !op.ClaimDue?
    ensures StuckJob(Apply(t, op), j)
  {
    hide Next, StuckJob, HasOpen, Taken;
    StuckPending(t, j);
    StuckFrameByRows(t, Apply(t, op), j);
  }

  lemma {:induction false} StuckStays(t: Table, op: Op, j: JobId)
    requires ScheduleInv(t) && StuckJob(t, j)
    ensures StuckJob(Apply(t, op), j)
  {
    hide Apply, StuckJob, ScheduleInv;
    if op.ClaimDue? {
      if j in op.due { StuckBatchChangesNothing(t, op, j); } else { StuckThroughOthers(t, op, j); }
    } else {
      StuckThroughPlain(t, op, j);
    }
  }

  lemma {:induction false} StuckPending(t: Table, j: JobId)
    requires StuckJob(t, j)
    ensures j in t.jobs
  {
  }

  /**
   * Nothing unsticks a job: from then on every batch that contains it is rolled back, other due
   * jobs included, until it is deleted and so no longer picked.
   */
  lemma {:induction false} StuckIsForever(hist: seq<Table>, ops: seq<Op>, m: nat, n: nat, j: JobId)
    requires History(hist, ops) && m <= n < |hist| && StuckJob(hist[m], j)
    ensures StuckJob(hist[n], j)
    ensures n < |ops| && ops[n].ClaimDue? && j in ops[n].due ==> hist[n + 1] == hist[n]
    decreases n
  {
    hide Apply, StuckJob, ScheduleInv;
    if m < n {
      StuckIsForever(hist, ops, m, n - 1, j);
      HistoryInv(hist, ops, n - 1);
      StuckStays(hist[n - 1], ops[n - 1], j);
    }
    HistoryInv(hist, ops, n);
    if n < |ops| && ops[n].ClaimDue? && j in ops[n].due { StuckBatchChangesNothing(hist[n], ops[n], j); }
  }

  /** A manual run at the very instant of a pending slot sticks the job. */
  lemma {:induction false} ManualRunCanStick(t: Table, j: JobId)
    requires Pending(t, j) && !t.jobs[j].deleted && !(t.jobs[j].forbid && HasOpen(t.rows, j)) && !Taken(t.rows, j, t.jobs[j].next.value)
    ensures StuckJob(Apply(t, RunManual(j, t.jobs[j].next.value)), j)
  {
    hide NextAfter, HasOpen, Taken;
    var t' := Apply(t, RunManual(j, t.jobs[j].next.value));
    assert t'.rows[|t.rows|] == Row(j, t.jobs[j].next.value, RowClaimed, false);
  }

  // ---------------------------------------------------------------- forbidden overlap

  predicate OpenRow(r: Row) {
    r.status.RowClaimed? || r.status.RowOpen?
  }

  /** No two executions of the job are open. */
  ghost predicate NoOverlap(rows: seq<Row>, j: JobId) {
    forall a, b :: 0 <= a < b < |rows| && rows[a].job == j && rows[b].job == j ==> !(OpenRow(rows[a]) && OpenRow(rows[b]))
  }

  /** Status updates never reopen an execution. */
  predicate Reopens(t: Table, op: Op) {
    op.UpdateRow? && op.i < |t.rows| && !OpenRow(t.rows[op.i]) && (op.status.RowClaimed? || op.status.RowOpen?)
  }

  lemma {:induction false} ClaimOneNoOverlap(t: Table, j: JobId, now: int, grace: int, k: JobId)
    requires k in t.jobs && t.jobs[k].forbid && NoOverlap(t.rows, k) && ClaimOne(t, j, now, grace).Some?
    ensures NoOverlap(ClaimOne(t, j, now, grace).value.rows, k)
  {
    hide NextAfter, Taken;
    var rows, rows' := t.rows, ClaimOne(t, j, now, grace).value.rows;
    assert forall i :: 0 <= i < |rows| ==> rows'[i] == rows[i];
  }

  lemma {:induction false} ClaimAllNoOverlap(t: Table, due: seq<JobId>, now: int, grace: int, k: JobId)
    requires k in t.jobs && t.jobs[k].forbid && NoOverlap(t.rows, k) && ClaimAll(t, due, now, grace).Some?
    ensures var t' := ClaimAll(t, due, now, grace).value; k in t'.jobs && t'.jobs[k].forbid && NoOverlap(t'.rows, k)
  {
    hide NoOverlap, NextAfter, Taken, ClaimStatus;
    if due != [] {
      var n := |due| - 1;
      ClaimAllNoOverlap(t, due[..n], now, grace, k);
      ClaimOneNoOverlap(ClaimAll(t, due[..n], now, grace).value, due[n], now, grace, k);
    }
  }

  lemma {:induction false} StepNoOverlap(t: Table, op: Op, k: JobId)
    requires k in t.jobs && t.jobs[k].forbid && NoOverlap(t.rows, k) && !Reopens(t, op)
    ensures k in Apply(t, op).jobs && Apply(t, op).jobs[k].forbid && NoOverlap(Apply(t, op).rows, k)
  {
    hide ClaimAll, Next;
    match op
    case ClaimDue(due, now, _, grace, token) =>
      if Batch(t, due, now, op.limit) && ClaimAll(Mark(t, due, token), due, now, grace).Some? {
        ClaimAllNoOverlap(Mark(t, due, token), due, now, grace, k);
      }
    case RunManual(j, now) =>
      var rows' := Apply(t, op).rows;
      assert forall i :: 0 <= i < |t.rows| ==> rows'[i] == t.rows[i];
    case _ =>
  }

  /** A job that forbids overlap never has two open executions, scheduled or manual. */
  lemma {:induction false} ForbiddenOverlapNeverHappens(hist: seq<Table>, ops: seq<Op>, m: nat, n: nat, k: JobId)
    requires History(hist, ops) && m <= n < |hist| && k in hist[m].jobs && hist[m].jobs[k].forbid
    requires (m == 0 || k !in hist[m - 1].jobs) && forall i :: m <= i < n ==> !Reopens(hist[i], ops[i])
    ensures k in hist[n].jobs && hist[n].jobs[k].forbid && NoOverlap(hist[n].rows, k)
    decreases n
  {
    hide Apply;
    if m == n {
      NewJobHasNoRows(hist, ops, m, k);
    } else {
      ForbiddenOverlapNeverHappens(hist, ops, m, n - 1, k);
      StepNoOverlap(hist[n - 1], ops[n - 1], k);
    }
  }

  lemma {:induction false} NewJobHasNoRows(hist: seq<Table>, ops: seq<Op>, m: nat, k: JobId)
    requires History(hist, ops) && m < |hist| && k in hist[m].jobs && (m == 0 || k !in hist[m - 1].jobs)
    ensures forall i :: 0 <= i < |hist[m].rows| ==> hist[m].rows[i].job != k
  {
    if m > 0 {
      HistoryInv(hist, ops, m - 1);
      var t, op := hist[m - 1], ops[m - 1];
      NewJobIsCreated(t, op, k);
      hide Apply, OnSchedule, Slots;
    }
  }

  lemma {:induction false} NewJobIsCreated(t: Table, op: Op, k: JobId)
    requires k !in t.jobs && k in Apply(t, op).jobs
    ensures op.Create? && Apply(t, op).rows == t.rows
  {
    hide ClaimAll, Next;
    if op.ClaimDue? && ClaimAll(Mark(t, op.due, op.token), op.due, op.now, op.grace).Some? {
      ClaimAllKeys(Mark(t, op.due, op.token), op.due, op.now, op.grace);
    }
  }

  // ---------------------------------------------------------------- the transaction as the service runs it

  class CronStore {
    var jobs: map<JobId, Job>
    var rows: seq<Row>

    function View(): Table
      reads this
    {
      Table(jobs, rows)
    }

    constructor ()
      ensures View() == Table(map[], []) && ScheduleInv(View())
    {
      jobs, rows := map[], [];
    }

    /** Stamp the picked rows with the batch token. */
    method ClaimDueBatch(due: seq<JobId>, token: nat)
      modifies this`jobs
      ensures View() == Mark(old(View()), due, token)
    {
      jobs := map j | j in jobs :: if j in due then jobs[j].(claim := Some(token)) else jobs[j];
    }

    method CountByToken(token: nat) returns (residual: nat)
      ensures residual == 0 <==> forall j :: j in jobs ==> jobs[j].claim != Some(token)
    {
      var held := set j | j in jobs && jobs[j].claim == Some(token);
      residual := |held|;
      if residual == 0 { assert forall j :: j in jobs && jobs[j].claim == Some(token) ==> j in held; }
    }

    /** Advance one claimed job; on failure the caller rolls back. */
    method ClaimJob(j: JobId, now: int, grace: int) returns (ok: bool, status: RowStatus)
      requires j in jobs && jobs[j].next.Some?
      modifies this
      ensures ok == ClaimOne(old(View()), j, now, grace).Some?
      ensures ok ==> View() == ClaimOne(old(View()), j, now, grace).value
      ensures ok ==> |rows| == |old(rows)| + 1 && rows[..|old(rows)|] == old(rows) && rows[|old(rows)|] == Row(j, old(jobs)[j].next.value, status, true)
    {
      var job := jobs[j];
      var at := job.next.value;
      var next: Option<int> := None;
      status := RowClaimed;
      if job.schedule.Recurring? {
        next := NextCronOccurrence(job.schedule.cron, job.schedule.zone, at);
        if next.None? { return false, status; }
      }
      var shouldSkip := now - at > grace && job.skipMissed;
      var blocked := !shouldSkip && job.forbid && HasOpen(rows, j);
      status := if shouldSkip || blocked then RowSkipped else RowClaimed;
      if Taken(rows, j, at) { return false, status; }
      rows := rows + [Row(j, at, status, true)];
      jobs := jobs[j := job.(next := next, enabled := if job.schedule.Once? then false else job.enabled, claim := None)];
      ok := true;
    }

    /**
     * claimDue: the batch commits as a whole or leaves no trace, and never trips its residual check.
     * Handed out are exactly the executions that are CLAIMED, in the order of their rows.
     */
    method ClaimDueJobs(due: seq<JobId>, now: int, limit: nat, grace: int, token: nat) returns (ok: bool, claims: seq<Claim>)
      requires Batch(View(), due, now, limit) && ScheduleInv(View())
      modifies this
      ensures View() == ClaimStep(old(View()), ClaimDue(due, now, limit, grace, token))
      ensures ScheduleInv(View())
      ensures ok <==> !exists k :: 0 <= k < |due| && Stuck(old(View()), due[k])
      ensures !ok ==> View() == old(View()) && claims == []
      ensures ok ==> HandsOut(claims, rows, |old(rows)|, due)
    {
      hide ScheduleInv, OnSchedule, Slots, ClaimOne, HandsOut, ClaimAll, Stuck;
      ghost var start := Mark(View(), due, token);
      ClaimStepKeeps(View(), ClaimDue(due, now, limit, grace, token));
      MarkedBatch(View(), due, now, limit, grace, token);
      var saved := View();
      ok, claims := true, [];
      ClaimDueBatch(due, token);
      var k := 0;
      ClaimAllNone(start, due, now, grace);
      HandsOutNothing(rows);
      while k < |due|
        invariant k <= |due|
        invariant ClaimAll(start, due[..k], now, grace) == Some(View())
        invariant forall l :: k <= l < |due| ==> Pending(View(), due[l])
        invariant HandsOut(claims, rows, |old(rows)|, due[..k])
      {
        var status;
        ClaimAllNext(start, due, k, now, grace);
        ghost var before := View();
        ok, status := ClaimJob(due[k], now, grace);
        if !ok {
          FailsEarly(start, due, k + 1, now, grace);
          jobs, rows := saved.jobs, saved.rows;
          return false, [];
        }
        forall l | k + 1 <= l < |due| ensures Pending(View(), due[l]) { ClaimOneFrame(before, due[k], now, grace, due[l]); }
        HandsOutOneMore(claims, before.rows, rows, |old(rows)|, due, k);
        if status.RowClaimed? { claims := claims + [Claim(due[k], |rows| - 1)]; }
        k := k + 1;
      }
      assert due[..k] == due;
      NoResidual(saved, due, now, limit, grace, token);
      var residual := CountByToken(token);
      if residual != 0 {
        assert false;
      }
    }
  }

  /** An execution handed to the worker: the job and the position of its row. */
  datatype Claim = Claim(job: JobId, row: nat)

  /** The claims are those of the batch's rows, from `base` on, that are CLAIMED, each once and in order. */
  ghost predicate HandsOut(claims: seq<Claim>, rows: seq<Row>, base: nat, due: seq<JobId>) {
    && |rows| == base + |due|
    && (forall r :: base <= r < |rows| ==> rows[r].job == due[r - base] && (Claim(rows[r].job, r) in claims <==> rows[r].status.RowClaimed?))
    && (forall i :: 0 <= i < |claims| ==> base <= claims[i].row < |rows| && claims[i].job == rows[claims[i].row].job)
    && (forall a, b :: 0 <= a < b < |claims| ==> claims[a].row < claims[b].row)
  }

  lemma {:induction false} HandsOutNothing(rows: seq<Row>)
    ensures HandsOut([], rows, |rows|, [])
  {
  }

  lemma {:induction false} HandsOutOneMore(claims: seq<Claim>, rows: seq<Row>, rows': seq<Row>, base: nat, due: seq<JobId>, k: nat)
    requires k < |due| && HandsOut(claims, rows, base, due[..k])
    requires |rows'| == |rows| + 1 && rows'[..|rows|] == rows && rows'[|rows|].job == due[k]
    ensures var claims' := if rows'[|rows|].status.RowClaimed? then claims + [Claim(due[k], |rows|)] else claims;
            HandsOut(claims', rows', base, due[..k + 1])
  {
    hide HandsOut;
    assert forall r :: 0 <= r < |rows| ==> rows'[r] == rows[r];
    if rows'[|rows|].status.RowClaimed? {
      HandsOutTheLast(claims, rows, rows', base, due, k);
    } else {
      HandsOutNoMore(claims, rows, rows', base, due, k);
    }
  }

  lemma {:induction false} HandsOutNoMore(claims: seq<Claim>, rows: seq<Row>, rows': seq<Row>, base: nat, due: seq<JobId>, k: nat)
    requires k < |due| && HandsOut(claims, rows, base, due[..k])
    requires |rows'| == |rows| + 1 && (forall r :: 0 <= r < |rows| ==> rows'[r] == rows[r]) && rows'[|rows|].job == due[k] && !rows'[|rows|].status.RowClaimed?
    ensures HandsOut(claims, rows', base, due[..k + 1])
  {
    assert forall l :: 0 <= l < k ==> due[..k + 1][l] == due[..k][l];
    assert forall i :: 0 <= i < |claims| ==> claims[i] != Claim(due[k], |rows|);
  }

  lemma {:induction false} HandsOutTheLast(claims: seq<Claim>, rows: seq<Row>, rows': seq<Row>, base: nat, due: seq<JobId>, k: nat)
    requires k < |due| && HandsOut(claims, rows, base, due[..k])
    requires |rows'| == |rows| + 1 && (forall r :: 0 <= r < |rows| ==> rows'[r] == rows[r]) && rows'[|rows|].job == due[k] && rows'[|rows|].status.RowClaimed?
    ensures HandsOut(claims + [Claim(due[k], |rows|)], rows', base, due[..k + 1])
  {
    var added := Claim(due[k], |rows|);
    assert forall l :: 0 <= l < k ==> due[..k + 1][l] == due[..k][l];
    assert forall c :: c in claims + [added] <==> c in claims || c == added;
  }

  lemma {:induction false} ClaimOneFrame(t: Table, j: JobId, now: int, grace: int, k: JobId)
    requires ClaimOne(t, j, now, grace).Some? && k != j && Pending(t, k)
    ensures Pending(ClaimOne(t, j, now, grace).value, k)
  {
  }

  lemma {:induction false} ClaimAllNone(t: Table, due: seq<JobId>, now: int, grace: int)
    ensures ClaimAll(t, due[..0], now, grace) == Some(t)
  {
  }

  lemma {:induction false} ClaimAllNext(t: Table, due: seq<JobId>, k: nat, now: int, grace: int)
    requires k < |due| && ClaimAll(t, due[..k], now, grace).Some?
    ensures ClaimAll(t, due[..k + 1], now, grace) == ClaimOne(ClaimAll(t, due[..k], now, grace).value, due[k], now, grace)
  {
    assert due[..k + 1][..k] == due[..k];
  }

  lemma {:induction false} FailsEarly(t: Table, due: seq<JobId>, k: nat, now: int, grace: int)
    requires k <= |due| && ClaimAll(t, due[..k], now, grace).None?
    ensures ClaimAll(t, due, now, grace).None?
    decreases |due|
  {
    if k == |due| {
      assert due[..k] == due;
    } else {
      assert due[..|due| - 1][..k] == due[..k];
      FailsEarly(t, due[..|due| - 1], k, now, grace);
    }
  }

  /** Marking changes neither which jobs are stuck nor which are pending. */
  lemma {:induction false} MarkedBatch(t: Table, due: seq<JobId>, now: int, limit: nat, grace: int, token: nat)
    requires Batch(t, due, now, limit) && ScheduleInv(t)
    ensures var m := Mark(t, due, token);
            ClaimAll(m, due, now, grace).None? <==> exists k :: 0 <= k < |due| && Stuck(t, due[k])
  {
    hide OnSchedule, Slots, ClaimAll, ScheduleInv;
    var m := Mark(t, due, token);
    MarkOnSchedule(t, due, token);
    BatchFailsIff(m, due, now, grace);
    forall k | 0 <= k < |due| ensures Stuck(m, due[k]) <==> Stuck(t, due[k]) {
      assert NextAfter(m.jobs[due[k]], m.jobs[due[k]].next.value) == NextAfter(t.jobs[due[k]], t.jobs[due[k]].next.value);
    }
  }

  lemma {:induction false} NoResidual(t: Table, due: seq<JobId>, now: int, limit: nat, grace: int, token: nat)
    requires Batch(t, due, now, limit) && ScheduleInv(t) && ClaimAll(Mark(t, due, token), due, now, grace).Some?
    ensures forall j :: j in ClaimAll(Mark(t, due, token), due, now, grace).value.jobs ==>
              ClaimAll(Mark(t, due, token), due, now, grace).value.jobs[j].claim.None?
  {
    hide OnSchedule, Slots, ClaimAll;
    ClaimStepKeeps(t, ClaimDue(due, now, limit, grace, token));
  }
}
