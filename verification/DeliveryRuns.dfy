/** core/demo_delivery.py under concurrency: any number of workers, crashes, re-enqueues and sweeps. */
module DeliveryRuns {
  import opened Prelude
  import opened DemoDelivery

  /** A step of a job. */
  datatype Mark = Mark(job: nat, step: Step)

  /** A run of `dispatch_one`: about to claim the next step, holding one before its action, or after it. */
  datatype Worker =
    | Deciding(job: nat, next: nat)
    | Holding(job: nat, step: Step)
    | Reporting(job: nat, step: Step, status: Status, error: Option<ErrorCode>)
  {
    ghost predicate Holds(m: Mark) {
      !Deciding? && job == m.job && step == m.step
    }
  }

  datatype Lease = Lease(job: nat, at: int)

  /** The table, the live workers, and what has happened: claims, external actions and leases, in order. */
  datatype State = State(jobs: Jobs, workers: map<nat, Worker>, claims: seq<Mark>, actions: seq<Mark>,
                         leases: seq<Lease>, claimedAt: map<Mark, int>, clock: int)

  datatype Event =
    | Insert(id: nat, grantex: bool, hasLead: bool, now: int)
    | Enqueue(id: nat, now: int)
    | Start(w: nat, id: nat)
    | TryClaim(w: nat, now: int)
    | DoWork(w: nat, reply: Reply)
    | Report(w: nat, now: int)
    | Crash(w: nat)
    | SweepStale(now: int)

  const EMPTY: State := State(map[], map[], [], [], [], map[], 0)

  /** A queued task may be delivered any number of times, so a worker may start on any job at any time. */
  ghost predicate Enabled(s: State, e: Event) {
    match e
    case Insert(id, _, _, _) => id !in s.jobs
    case Start(w, _) => w !in s.workers
    case TryClaim(w, _) => w in s.workers && s.workers[w].Deciding? && s.workers[w].next < |STEPS|
    case DoWork(w, _) => w in s.workers && s.workers[w].Holding? && s.workers[w].job in s.jobs
    case Report(w, _) => w in s.workers && s.workers[w].Reporting?
    case Crash(w) => w in s.workers
    case _ => true
  }

  function Later(clock: int, now: int): int {
    if clock < now then now else clock
  }

  ghost function Apply(s: State, e: Event): State
    requires Enabled(s, e)
  {
    match e
    case Insert(id, grantex, hasLead, now) =>
      s.(jobs := s.jobs[id := Prepared(grantex, hasLead, now)], clock := Later(s.clock, now))
    case Enqueue(id, now) =>
      s.(jobs := Leased(s.jobs, id, now), clock := Later(s.clock, now),
         leases := if id in s.jobs && Due(s.jobs[id], now) then s.leases + [Lease(id, now)] else s.leases)
    case Start(w, id) => s.(workers := s.workers[w := Deciding(id, 0)])
    case TryClaim(w, now) => AfterClaim(s, w, now)
    case DoWork(w, reply) =>
      var m := Mark(s.workers[w].job, s.workers[w].step);
      var work := WorkOn(m.step, s.jobs[m.job].grantex, s.jobs[m.job].hasLead, reply);
      s.(workers := s.workers[w := Reporting(m.job, m.step, work.status, work.error)],
         actions := if work.acts then s.actions + [m] else s.actions)
    case Report(w, now) =>
      var r := s.workers[w];
      s.(jobs := Finished(s.jobs, r.job, r.step, r.status, r.error, now), clock := Later(s.clock, now),
         workers := s.workers[w := Deciding(r.job, Index(r.step) + 1)])
    case Crash(w) => s.(workers := s.workers - {w})
    case SweepStale(now) => s.(jobs := Swept(s.jobs, now), clock := Later(s.clock, now))
  }

  ghost function AfterClaim(s: State, w: nat, now: int): State
    requires w in s.workers && s.workers[w].Deciding? && s.workers[w].next < |STEPS|
  {
    var m := Mark(s.workers[w].job, STEPS[s.workers[w].next]);
    if m.job in s.jobs && s.jobs[m.job].status.Of(m.step) == Pending then
      s.(jobs := Claimed(s.jobs, m.job, m.step, now), workers := s.workers[w := Holding(m.job, m.step)],
         claims := s.claims + [m], claimedAt := s.claimedAt[m := now], clock := Later(s.clock, now))
    else
      s.(workers := s.workers[w := Deciding(m.job, s.workers[w].next + 1)], clock := Later(s.clock, now))
  }

  ghost predicate Next(s: State, t: State) {
    exists e :: Enabled(s, e) && t == Apply(s, e)
  }

  ghost predicate Run(states: seq<State>) {
    |states| > 0 && states[0] == EMPTY && forall i :: 0 <= i < |states| - 1 ==> Next(states[i], states[i + 1])
  }

  // ----- the invariant -----

  ghost function StatusAt(jobs: Jobs, m: Mark): Status {
    if m.job in jobs then jobs[m.job].status.Of(m.step) else Pending
  }

  predicate Acted(status: Status) {
    status == SmtpAccepted || status == Completed || status == NeedsReview
  }

  ghost predicate ClaimsInv(jobs: Jobs, claims: seq<Mark>) {
    && Distinct(claims)
    && (forall m :: m in claims ==> StatusAt(jobs, m) != Pending)
    && (forall m: Mark :: StatusAt(jobs, m) != Pending && StatusAt(jobs, m) != Skipped ==> m in claims)
  }

  ghost predicate ActionsInv(jobs: Jobs, claims: seq<Mark>, actions: seq<Mark>) {
    && Distinct(actions)
    && (forall m :: m in actions ==>
          && m in claims && m.job in jobs && StatusAt(jobs, m) != Skipped
          && (m.step == Agent ==> !jobs[m.job].grantex && jobs[m.job].hasLead))
    && (forall m: Mark :: Acted(StatusAt(jobs, m)) ==> m in actions)
  }

  ghost predicate WorkerInv(jobs: Jobs, claims: seq<Mark>, actions: seq<Mark>, w: Worker) {
    !w.Deciding? ==>
      var m := Mark(w.job, w.step);
      && m in claims && (StatusAt(jobs, m) == Processing || StatusAt(jobs, m) == Unknown)
      && (w.Holding? ==> m !in actions)
      && (w.Reporting? ==>
            && (Acted(w.status) ==> m in actions)
            && (w.status == Skipped ==> m !in actions)
            && (Acted(w.status) || w.status == Failed || w.status == Skipped))
  }

  ghost predicate Apart(w: Worker, v: Worker) {
    w.Deciding? || v.Deciding? || w.job != v.job || w.step != v.step
  }

  ghost predicate WorkersInv(jobs: Jobs, claims: seq<Mark>, actions: seq<Mark>, workers: map<nat, Worker>) {
    && (forall w :: w in workers ==> WorkerInv(jobs, claims, actions, workers[w]))
    && (forall w, v {:trigger workers[w], workers[v]} :: w in workers && v in workers && w != v ==> Apart(workers[w], workers[v]))
  }

  ghost predicate LeasesInv(jobs: Jobs, leases: seq<Lease>) {
    && (forall i :: 0 <= i < |leases| ==> leases[i].job in jobs && jobs[leases[i].job].publishAfter >= leases[i].at + 300)
    && (forall i, j :: 0 <= i < j < |leases| && leases[i].job == leases[j].job ==> leases[j].at >= leases[i].at + 300)
  }

  ghost predicate Inv(s: State) {
    && ClaimsInv(s.jobs, s.claims)
    && ActionsInv(s.jobs, s.claims, s.actions)
    && WorkersInv(s.jobs, s.claims, s.actions, s.workers)
    && LeasesInv(s.jobs, s.leases)
  }

  /** How the status of a step may change: never back, and never once it is settled. */
  ghost predicate Follows(before: Status, after: Status) {
    before == after || before == Pending || (before == Processing && after != Pending)
  }

  ghost predicate JobsFollow(before: Jobs, after: Jobs) {
    forall m: Mark :: m.job in before ==> m.job in after && Follows(StatusAt(before, m), StatusAt(after, m))
  }

  /** A table update that moves one step and leaves the rest of the columns the invariant reads alone. */
  ghost predicate Moves(before: Jobs, after: Jobs, m: Mark, status: Status) {
    && m.job in before && after.Keys == before.Keys
    && (forall id :: id in after ==> after[id].grantex == before[id].grantex && after[id].hasLead == before[id].hasLead
                                     && after[id].publishAfter == before[id].publishAfter)
    && (forall n: Mark :: StatusAt(after, n) == if n == m then status else StatusAt(before, n))
  }

  lemma ClaimMoves(jobs: Jobs, m: Mark, now: int)
    requires m.job in jobs && StatusAt(jobs, m) == Pending
    ensures Moves(jobs, Claimed(jobs, m.job, m.step, now), m, Processing)
  {}

  lemma FinishMoves(jobs: Jobs, m: Mark, status: Status, error: Option<ErrorCode>, now: int)
    requires m.job in jobs && StatusAt(jobs, m) == Processing
    ensures Moves(jobs, Finished(jobs, m.job, m.step, status, error, now), m, status)
  {}

  lemma ClaimKeeps(s: State, w: nat, now: int)
    requires Inv(s) && Enabled(s, TryClaim(w, now))
    ensures Inv(AfterClaim(s, w, now)) && JobsFollow(s.jobs, AfterClaim(s, w, now).jobs)
  {
    var m := Mark(s.workers[w].job, STEPS[s.workers[w].next]);
    if m.job in s.jobs && StatusAt(s.jobs, m) == Pending {
      ClaimMoves(s.jobs, m, now);
      assert m !in s.claims;
      var t := AfterClaim(s, w, now);
      assert forall n :: n in t.claims <==> n in s.claims || n == m;
    }
  }

  lemma WorkKeeps(s: State, w: nat, reply: Reply)
    requires Inv(s) && Enabled(s, DoWork(w, reply))
    ensures Inv(Apply(s, DoWork(w, reply)))
  {
    var t := Apply(s, DoWork(w, reply));
    var m := Mark(s.workers[w].job, s.workers[w].step);
    assert forall n :: n in t.actions ==> n in s.actions || n == m;
    assert forall n :: n in s.actions ==> n in t.actions;
  }

  lemma ReportKeeps(s: State, w: nat, now: int)
    requires Inv(s) && Enabled(s, Report(w, now))
    ensures Inv(Apply(s, Report(w, now))) && JobsFollow(s.jobs, Apply(s, Report(w, now)).jobs)
  {
    var r := s.workers[w];
    var m := Mark(r.job, r.step);
    if StatusAt(s.jobs, m) == Processing {
      FinishMoves(s.jobs, m, r.status, r.error, now);
    }
  }

  lemma SweepMoves(jobs: Jobs, now: int)
    ensures Swept(jobs, now).Keys == jobs.Keys
    ensures forall m: Mark :: StatusAt(Swept(jobs, now), m) == StatusAt(jobs, m)
              || (StatusAt(jobs, m) == Processing && StatusAt(Swept(jobs, now), m) == Unknown
                  && m.job in jobs && Stale(jobs[m.job], now))
  {
    forall m: Mark
      ensures StatusAt(Swept(jobs, now), m) == StatusAt(jobs, m)
           || (StatusAt(jobs, m) == Processing && StatusAt(Swept(jobs, now), m) == Unknown
               && m.job in jobs && Stale(jobs[m.job], now))
    {
      if m.job in jobs {
        match m.step case Notification => case Confirmation => case Agent =>
      }
    }
  }

  lemma SweepKeeps(s: State, now: int)
    requires Inv(s)
    ensures Inv(Apply(s, SweepStale(now))) && JobsFollow(s.jobs, Swept(s.jobs, now))
  {
    SweepMoves(s.jobs, now);
  }

  lemma EnqueueKeeps(s: State, id: nat, now: int)
    requires Inv(s)
    ensures Inv(Apply(s, Enqueue(id, now))) && JobsFollow(s.jobs, Leased(s.jobs, id, now))
  {
    var t := Apply(s, Enqueue(id, now));
    assert forall m: Mark :: StatusAt(t.jobs, m) == StatusAt(s.jobs, m);
  }

  lemma InsertKeeps(s: State, id: nat, grantex: bool, hasLead: bool, now: int)
    requires Inv(s) && id !in s.jobs
    ensures var t := Apply(s, Insert(id, grantex, hasLead, now)); Inv(t) && JobsFollow(s.jobs, t.jobs)
  {
    var t := Apply(s, Insert(id, grantex, hasLead, now));
    forall m: Mark
      ensures m.job != id ==> StatusAt(t.jobs, m) == StatusAt(s.jobs, m)
      ensures m.job == id ==> m !in s.claims && (StatusAt(t.jobs, m) == Pending || StatusAt(t.jobs, m) == Skipped)
    {
      match m.step case Notification => case Confirmation => case Agent =>
    }
  }

  lemma StepKeeps(s: State, e: Event)
    requires Inv(s) && Enabled(s, e)
    ensures Inv(Apply(s, e)) && JobsFollow(s.jobs, Apply(s, e).jobs)
  {
    match e
    case Insert(id, grantex, hasLead, now) => InsertKeeps(s, id, grantex, hasLead, now);
    case Enqueue(id, now) => EnqueueKeeps(s, id, now);
    case TryClaim(w, now) => ClaimKeeps(s, w, now);
    case DoWork(w, reply) => WorkKeeps(s, w, reply);
    case Report(w, now) => ReportKeeps(s, w, now);
    case SweepStale(now) => SweepKeeps(s, now);
    case Start(w, id) =>
    case Crash(w) =>
  }

  lemma NextKeeps(s: State, t: State)
    requires Inv(s) && Next(s, t)
    ensures Inv(t) && JobsFollow(s.jobs, t.jobs)
  {
    var e :| Enabled(s, e) && t == Apply(s, e);
    StepKeeps(s, e);
  }

  lemma {:induction false} RunKeeps(states: seq<State>, i: nat)
    requires Run(states) && i < |states|
    ensures Inv(states[i])
  {
    if i > 0 {
      RunKeeps(states, i - 1);
      assert Next(states[i - 1], states[i - 1 + 1]);
      NextKeeps(states[i - 1], states[i]);
    }
  }

  lemma RunFollows(states: seq<State>, j: nat)
    requires Run(states) && 0 < j < |states|
    ensures JobsFollow(states[j - 1].jobs, states[j].jobs)
  {
    RunKeeps(states, j - 1);
    assert Next(states[j - 1], states[j - 1 + 1]);
    NextKeeps(states[j - 1], states[j]);
  }

  // ----- what follows, for every run -----

  /** At most once: no step is claimed twice, no external action is started twice, and none without a claim. */
  lemma AtMostOnce(states: seq<State>, i: nat)
    requires Run(states) && i < |states|
    ensures Distinct(states[i].claims) && Distinct(states[i].actions)
    ensures forall m :: m in states[i].actions ==> m in states[i].claims
  {
    RunKeeps(states, i);
  }

  /** The status column tells the truth: an accepted outcome was really acted on, a pending or skipped step
      never was, and the sales agent only ever ran for a non-Grantex enquiry that has a lead. */
  lemma StatusIsHonest(states: seq<State>, i: nat, m: Mark)
    requires Run(states) && i < |states|
    ensures Acted(StatusAt(states[i].jobs, m)) ==> m in states[i].actions
    ensures StatusAt(states[i].jobs, m) in {Pending, Skipped} ==> m !in states[i].actions
    ensures m in states[i].actions && m.step == Agent ==>
              m.job in states[i].jobs && !states[i].jobs[m.job].grantex && states[i].jobs[m.job].hasLead
  {
    RunKeeps(states, i);
  }

  lemma {:induction false} ChainAdvances(tables: seq<Jobs>, i: nat, j: nat, m: Mark)
    requires i <= j < |tables| && m.job in tables[i] && forall k :: 0 <= k < |tables| - 1 ==> JobsFollow(tables[k], tables[k + 1])
    ensures m.job in tables[j] && Follows(StatusAt(tables[i], m), StatusAt(tables[j], m))
  {
    if i < j {
      ChainAdvances(tables, i, j - 1, m);
      assert JobsFollow(tables[j - 1], tables[j - 1 + 1]);
    }
  }

  /** Statuses only move forward over a whole run, and a settled one never changes again. */
  lemma StatusesOnlyAdvance(states: seq<State>, i: nat, j: nat, m: Mark)
    requires Run(states) && i <= j < |states| && m.job in states[i].jobs
    ensures m.job in states[j].jobs && Follows(StatusAt(states[i].jobs, m), StatusAt(states[j].jobs, m))
  {
    var tables := seq(|states|, k requires 0 <= k < |states| => states[k].jobs);
    forall k | 0 <= k < |tables| - 1 ensures JobsFollow(tables[k], tables[k + 1]) {
      RunFollows(states, k + 1);
    }
    ChainAdvances(tables, i, j, m);
  }

  /** A worker that reports after its step was given up on changes nothing in the table; otherwise its step
      takes the reported status, exactly. */
  lemma LateReportChangesNothing(states: seq<State>, i: nat, w: nat, now: int)
    requires Run(states) && i < |states| && Enabled(states[i], Report(w, now))
    ensures var s := states[i];
            var m := Mark(s.workers[w].job, s.workers[w].step);
            var after := Apply(s, Report(w, now)).jobs;
            if StatusAt(s.jobs, m) == Unknown then after == s.jobs else StatusAt(after, m) == s.workers[w].status
  {
    RunKeeps(states, i);
  }

  /** Two successful leases of one job are at least five minutes apart, whatever clocks the workers use. */
  lemma LeasesApart(states: seq<State>, k: nat, i: nat, j: nat)
    requires Run(states) && k < |states| && i < j < |states[k].leases| && states[k].leases[i].job == states[k].leases[j].job
    ensures states[k].leases[j].at >= states[k].leases[i].at + 300
  {
    RunKeeps(states, k);
  }

  // ----- under one monotone clock -----

  /** The event happens no earlier than everything before it. */
  ghost predicate OnTime(s: State, e: Event) {
    match e
    case Insert(_, _, _, now) => s.clock <= now
    case Enqueue(_, now) => s.clock <= now
    case TryClaim(_, now) => s.clock <= now
    case Report(_, now) => s.clock <= now
    case SweepStale(now) => s.clock <= now
    case _ => true
  }

  ghost predicate TimedRun(states: seq<State>) {
    && |states| > 0 && states[0] == EMPTY
    && forall i :: 0 <= i < |states| - 1 ==> TimedNext(states[i], states[i + 1])
  }

  ghost predicate TimedNext(s: State, t: State) {
    exists e :: Enabled(s, e) && OnTime(s, e) && t == Apply(s, e)
  }

  ghost predicate ClockInv(s: State) {
    && (forall m :: m in s.claims ==> m in s.claimedAt && m.job in s.jobs && s.claimedAt[m] <= s.jobs[m.job].updatedAt)
    && (forall id :: id in s.jobs ==> s.jobs[id].updatedAt <= s.clock)
  }

  lemma ClockStep(s: State, e: Event)
    requires ClockInv(s) && Enabled(s, e) && OnTime(s, e)
    ensures ClockInv(Apply(s, e))
  {
    var t := Apply(s, e);
    if e.TryClaim? {
      var m := Mark(s.workers[e.w].job, STEPS[s.workers[e.w].next]);
      assert forall n :: n in t.claims ==> n in s.claims || n == m;
    }
  }

  lemma {:induction false} TimedRunKeeps(states: seq<State>, i: nat)
    requires TimedRun(states) && i < |states|
    ensures Inv(states[i]) && ClockInv(states[i])
  {
    if i > 0 {
      TimedRunKeeps(states, i - 1);
      assert TimedNext(states[i - 1], states[i - 1 + 1]);
      var e :| Enabled(states[i - 1], e) && OnTime(states[i - 1], e) && states[i] == Apply(states[i - 1], e);
      StepKeeps(states[i - 1], e);
      ClockStep(states[i - 1], e);
    }
  }

  /** A sweep gives up only on steps that were claimed more than fifteen minutes before. */
  lemma GivenUpOnlyWhenOld(states: seq<State>, i: nat, m: Mark, now: int)
    requires TimedRun(states) && i < |states|
    requires StatusAt(states[i].jobs, m) != Unknown && StatusAt(Swept(states[i].jobs, now), m) == Unknown
    ensures m in states[i].claimedAt && states[i].claimedAt[m] < now - 900
  {
    TimedRunKeeps(states, i);
    SweepMoves(states[i].jobs, now);
  }
}
