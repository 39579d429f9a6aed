/** core/demo_delivery.py: the marketing outbox, whose external actions run at most once. */
module DemoDelivery {
  import opened Prelude

  datatype Step = Notification | Confirmation | Agent

  const STEPS: seq<Step> := [Notification, Confirmation, Agent]

  function Index(step: Step): nat {
    match step
    case Notification => 0
    case Confirmation => 1
    case Agent => 2
  }

  datatype Status = Pending | Processing | SmtpAccepted | Failed | Completed | NeedsReview | Skipped | Unknown

  datatype ErrorCode = ProcessingFailed | LeadUnavailable | SalesProcessingFailed | EmailNotAccepted

  /** The three status columns. */
  datatype Statuses = Statuses(notification: Status, confirmation: Status, agent: Status) {
    function Of(step: Step): Status {
      match step
      case Notification => notification
      case Confirmation => confirmation
      case Agent => agent
    }

    function With(step: Step, status: Status): (r: Statuses)
      ensures forall s: Step :: r.Of(s) == if s == step then status else Of(s)
    {
      match step
      case Notification => this.(notification := status)
      case Confirmation => this.(confirmation := status)
      case Agent => this.(agent := status)
    }

    /** `'...' IN (notification_status, confirmation_status, agent_status)`. */
    predicate Has(status: Status) {
      status == notification || status == confirmation || status == agent
    }
  }

  /** A row of `demo_delivery_jobs`; `grantex` and `hasLead` stand for the sealed payload and the lead id. */
  datatype Job = Job(status: Statuses, publishAfter: int, updatedAt: int,
                     errors: map<Step, Option<ErrorCode>>, grantex: bool, hasLead: bool) {
    /** The step's entry in `error_codes`, if it has one. */
    function ErrorOf(step: Step): Option<Option<ErrorCode>> {
      if step in errors then Some(errors[step]) else None
    }
  }

  type Jobs = map<nat, Job>

  /** `prepare`: the sales agent is never due for a Grantex enquiry. */
  function Prepared(grantex: bool, hasLead: bool, now: int): Job {
    Job(Statuses(Pending, Pending, if grantex then Skipped else Pending),
        now, now, map[], grantex, hasLead)
  }

  predicate Due(job: Job, now: int) {
    job.publishAfter <= now && job.status.Has(Pending)
  }

  /** The conditional update of `enqueue`: lease the job for five minutes. */
  function Leased(jobs: Jobs, id: nat, now: int): Jobs {
    if id in jobs && Due(jobs[id], now) then jobs[id := jobs[id].(publishAfter := now + 300)] else jobs
  }

  /** `_claim`. */
  function Claimed(jobs: Jobs, id: nat, step: Step, now: int): Jobs {
    if id in jobs && jobs[id].status.Of(step) == Pending then
      jobs[id := jobs[id].(status := jobs[id].status.With(step, Processing), updatedAt := now)]
    else jobs
  }

  /** `_finish`. */
  function Finished(jobs: Jobs, id: nat, step: Step, status: Status, error: Option<ErrorCode>, now: int): Jobs {
    if id in jobs && jobs[id].status.Of(step) == Processing then
      jobs[id := jobs[id].(status := jobs[id].status.With(step, status), updatedAt := now,
                           errors := jobs[id].errors[step := error])]
    else jobs
  }

  predicate Stale(job: Job, now: int) {
    job.updatedAt < now - 900
  }

  function GiveUp(status: Status): Status {
    if status == Processing then Unknown else status
  }

  function GivenUp(job: Job): Job {
    job.(status := Statuses(GiveUp(job.status.notification), GiveUp(job.status.confirmation), GiveUp(job.status.agent)))
  }

  /** The first statement of `sweep`: an action that may or may not have happened is never retried. */
  function Swept(jobs: Jobs, now: int): Jobs {
    map id | id in jobs :: if Stale(jobs[id], now) && jobs[id].status.Has(Processing) then GivenUp(jobs[id]) else jobs[id]
  }

  /** The second: the fifty oldest jobs that are due. */
  function DueIds(jobs: Jobs, order: seq<nat>, now: int, limit: nat): seq<nat> {
    if order == [] || limit == 0 then []
    else if order[0] in jobs && Due(jobs[order[0]], now) then [order[0]] + DueIds(jobs, order[1..], now, limit - 1)
    else DueIds(jobs, order[1..], now, limit)
  }

  /** The jobs leased one after the other, the i-th at clock reading `at(i)`. */
  function LeasedAll(jobs: Jobs, ids: seq<nat>, at: nat -> int): Jobs {
    if ids == [] then jobs
    else Leased(LeasedAll(jobs, ids[..|ids| - 1], at), ids[|ids| - 1], at(|ids| - 1))
  }

  // ----- one step's work -----

  datatype Verdict = Accepted | Review | Refused

  /** What the world answers: an unreadable payload, an exception from the action, or its result. */
  datatype Reply = Unreadable | Raised | Said(verdict: Verdict)

  datatype Work = Work(acts: bool, status: Status, error: Option<ErrorCode>)

  /** The body of `dispatch_one` between `_claim` and `_finish`; `acts` when the e-mail or the agent is started. */
  function WorkOn(step: Step, grantex: bool, hasLead: bool, reply: Reply): Work {
    if reply.Unreadable? then Work(false, Failed, Some(ProcessingFailed))
    else if step.Agent? && grantex then Work(false, Skipped, None)
    else if step.Agent? && !hasLead then Work(false, Skipped, Some(LeadUnavailable))
    else if reply.Raised? then Work(true, Failed, Some(ProcessingFailed))
    else if step.Agent? then
      match reply.verdict
      case Accepted => Work(true, Completed, None)
      case Review => Work(true, NeedsReview, None)
      case Refused => Work(true, Failed, Some(SalesProcessingFailed))
    else if reply.verdict.Accepted? then Work(true, SmtpAccepted, None)
    else Work(true, Failed, Some(EmailNotAccepted))
  }

  /** What each outcome means: an e-mail counts as sent only when the server took it, the agent as done or for review
      only when it said so, a step as skipped only when there is nothing to run, and all else as failed. */
  lemma OutcomesMean(step: Step, grantex: bool, hasLead: bool, reply: Reply)
    ensures var w := WorkOn(step, grantex, hasLead, reply);
            && (w.status == SmtpAccepted <==> !step.Agent? && reply == Said(Accepted))
            && (w.status == Completed <==> step.Agent? && !grantex && hasLead && reply == Said(Accepted))
            && (w.status == NeedsReview <==> step.Agent? && !grantex && hasLead && reply == Said(Review))
            && (w.status == Skipped <==> step.Agent? && (grantex || !hasLead) && !reply.Unreadable?)
            && w.status in {SmtpAccepted, Completed, NeedsReview, Skipped, Failed}
            && (w.acts <==> !reply.Unreadable? && w.status != Skipped)
            && (w.error == None <==> w.status in {SmtpAccepted, Completed, NeedsReview} || (w.status == Skipped && grantex))
            && (w.error == Some(EmailNotAccepted) <==> !step.Agent? && reply.Said? && w.status == Failed)
            && (w.error == Some(SalesProcessingFailed) <==> step.Agent? && reply == Said(Refused) && w.status == Failed)
  {}

  /** What a sweep gives up: exactly the steps in processing of jobs untouched for over 900 seconds. */
  lemma SweptExactly(jobs: Jobs, now: int, id: nat, step: Step)
    requires id in jobs
    ensures id in Swept(jobs, now)
    ensures var job, after := jobs[id], Swept(jobs, now)[id];
            && after.status.Of(step) == (if job.status.Of(step) == Processing && job.updatedAt + 900 < now then Unknown else job.status.Of(step))
            && after == job.(status := after.status)
  {}

  /** How a step fares in a run of `dispatch_one` that has come past it (`done`) or not. */
  ghost predicate Dispatched(before: Job, after: Job, outcomes: map<Step, Status>, s: Step, done: bool, reply: Reply) {
    var worked := done && before.status.Of(s) == Pending;
    var work := WorkOn(s, before.grantex, before.hasLead, reply);
    && after.status.Of(s) == (if worked then work.status else before.status.Of(s))
    && after.ErrorOf(s) == (if worked then Some(work.error) else before.ErrorOf(s))
    && (s in outcomes <==> worked) && (worked ==> outcomes[s] == work.status)
  }

  /** One turn of the loop, as far as step `s` is concerned. */
  lemma DispatchedOneMore(before: Job, mid: Job, after: Job, outcomes: map<Step, Status>, step: Step, reply: Reply, s: Step, other: Reply)
    requires Dispatched(before, mid, outcomes, s, Index(s) < Index(step), other) && (s == step ==> other == reply)
    requires mid.grantex == before.grantex && mid.hasLead == before.hasLead
    requires var work := WorkOn(step, mid.grantex, mid.hasLead, reply);
             && after.status == (if mid.status.Of(step) == Pending then mid.status.With(step, work.status) else mid.status)
             && after.errors == (if mid.status.Of(step) == Pending then mid.errors[step := work.error] else mid.errors)
    ensures var status := WorkOn(step, mid.grantex, mid.hasLead, reply).status;
            Dispatched(before, after, if mid.status.Of(step) == Pending then outcomes[step := status] else outcomes, s,
                       Index(s) < Index(step) + 1, other)
  {}

  // ----- the table, updated in place -----

  class Outbox {
    var jobs: Jobs
    var order: seq<nat>

    ghost predicate Valid()
      reads this
    {
      Distinct(order) && forall id :: id in order <==> id in jobs
    }

    constructor ()
      ensures Valid() && jobs == map[] && order == []
    {
      jobs, order := map[], [];
    }

    /** `prepare`; `id` is a fresh uuid. */
    method Prepare(id: nat, grantex: bool, hasLead: bool, now: int)
      requires Valid() && id !in jobs
      modifies this
      ensures Valid() && jobs == old(jobs)[id := Prepared(grantex, hasLead, now)] && order == old(order) + [id]
      ensures Due(jobs[id], now) && forall step: Step :: jobs[id].status.Of(step) == Pending <==> !(step.Agent? && grantex)
    {
      jobs := jobs[id := Prepared(grantex, hasLead, now)];
      order := order + [id];
    }

    /** `enqueue`; `delivered` says whether the broker took the message. */
    method Enqueue(id: nat, now: int, delivered: bool) returns (ok: bool)
      requires Valid()
      modifies this`jobs
      ensures Valid() && jobs == Leased(old(jobs), id, now)
      ensures ok <==> delivered && id in old(jobs) && Due(old(jobs)[id], now)
    {
      var leased := id in jobs && Due(jobs[id], now);
      if leased {
        jobs := jobs[id := jobs[id].(publishAfter := now + 300)];
      }
      ok := leased && delivered;
    }

    /** `_claim`: whether this caller got the step. */
    method Claim(id: nat, step: Step, now: int) returns (row: Option<Job>)
      requires Valid()
      modifies this`jobs
      ensures Valid() && jobs == Claimed(old(jobs), id, step, now)
      ensures row.Some? <==> id in old(jobs) && old(jobs)[id].status.Of(step) == Pending
      ensures row.Some? ==> row.value == old(jobs)[id]
    {
      row := None;
      if id in jobs && jobs[id].status.Of(step) == Pending {
        row := Some(jobs[id]);
        jobs := jobs[id := jobs[id].(status := jobs[id].status.With(step, Processing), updatedAt := now)];
      }
    }

    /** `_finish`. */
    method Finish(id: nat, step: Step, status: Status, error: Option<ErrorCode>, now: int)
      requires Valid()
      modifies this`jobs
      ensures Valid() && jobs == Finished(old(jobs), id, step, status, error, now)
    {
      if id in jobs && jobs[id].status.Of(step) == Processing {
        var job := jobs[id];
        jobs := jobs[id := job.(status := job.status.With(step, status), updatedAt := now, errors := job.errors[step := error])];
      }
    }

    /** `dispatch_one`, run without interference: every pending step ends with the outcome of its work, the
        other steps and the other jobs are untouched, and only the pending steps are reported. */
    method DispatchOne(id: nat, replies: Step -> Reply, now: int) returns (outcomes: map<Step, Status>)
      requires Valid()
      modifies this`jobs
      ensures Valid() && jobs.Keys == old(jobs).Keys
      ensures forall other :: other in jobs && other != id ==> jobs[other] == old(jobs)[other]
      ensures id in jobs ==> forall s: Step :: Dispatched(old(jobs)[id], jobs[id], outcomes, s, true, replies(s))
      ensures id !in jobs ==> outcomes == map[]
    {
      outcomes := map[];
      ghost var before := jobs;
      for i := 0 to |STEPS|
        invariant Valid() && jobs.Keys == before.Keys
        invariant forall other :: other in jobs && other != id ==> jobs[other] == before[other]
        invariant id !in jobs ==> outcomes == map[]
        invariant id in jobs ==> jobs[id].grantex == before[id].grantex && jobs[id].hasLead == before[id].hasLead
        invariant id in jobs ==> forall s: Step :: Dispatched(before[id], jobs[id], outcomes, s, Index(s) < i, replies(s))
      {
        var step := STEPS[i];
        assert Index(step) == i;
        ghost var mid, were := jobs, outcomes;
        var status := DispatchStep(id, step, replies(step), now);
        if status.Some? {
          outcomes := outcomes[step := status.value];
        }
        if id in jobs {
          forall s: Step ensures Dispatched(before[id], jobs[id], outcomes, s, Index(s) < i + 1, replies(s)) {
            DispatchedOneMore(before[id], mid[id], jobs[id], were, step, replies(step), s, replies(s));
          }
        }
      }
    }

    /** One turn of the loop: claim, work, finish. */
    method DispatchStep(id: nat, step: Step, reply: Reply, now: int) returns (outcome: Option<Status>)
      requires Valid()
      modifies this`jobs
      ensures Valid() && jobs.Keys == old(jobs).Keys
      ensures forall other :: other in jobs && other != id ==> jobs[other] == old(jobs)[other]
      ensures id in jobs ==>
                var job := old(jobs)[id];
                var work := WorkOn(step, job.grantex, job.hasLead, reply);
                && jobs[id].grantex == job.grantex && jobs[id].hasLead == job.hasLead
                && outcome == (if job.status.Of(step) == Pending then Some(work.status) else None)
                && jobs[id].status == (if job.status.Of(step) == Pending then job.status.With(step, work.status) else job.status)
                && jobs[id].errors == (if job.status.Of(step) == Pending then job.errors[step := work.error] else job.errors)
      ensures id !in jobs ==> outcome == None
    {
      outcome := None;
      var row := Claim(id, step, now);
      if row.Some? {
        var work := WorkOn(step, row.value.grantex, row.value.hasLead, reply);
        Finish(id, step, work.status, work.error, now);
        outcome := Some(work.status);
        assert old(jobs)[id].status.With(step, Processing).With(step, work.status) == old(jobs)[id].status.With(step, work.status);
      }
    }

    /** `sweep`: give up on stale steps at `now`, then lease the jobs that are due, each at its own later clock
        reading; `delivered` is the broker's answer per job. */
    method Sweep(enabled: bool, now: int, at: nat -> int, delivered: nat -> bool) returns (count: nat)
      requires Valid() && forall i: nat :: now <= at(i)
      modifies this`jobs
      ensures Valid()
      ensures !enabled ==> jobs == old(jobs) && count == 0
      ensures enabled ==> var due := DueIds(Swept(old(jobs), now), order, now, 50);
                          jobs == LeasedAll(Swept(old(jobs), now), due, at) && count == Taken(due, delivered) <= 50
    {
      count := 0;
      if !enabled { return; }
      jobs := Swept(jobs, now);
      ghost var swept := jobs;
      var due := DueIds(jobs, order, now, 50);
      DueBounded(jobs, order, now, 50);
      for i := 0 to |due|
        invariant Valid() && jobs == LeasedAll(swept, due[..i], at)
        invariant forall j :: i <= j < |due| ==> due[j] in jobs && jobs[due[j]] == swept[due[j]]
        invariant count == Taken(due[..i], delivered) <= i
      {
        OneMoreLeased(swept, due, i, at, delivered);
        var ok := Enqueue(due[i], at(i), delivered(due[i]));
        count := count + if ok then 1 else 0;
      }
      assert due[..|due|] == due;
    }
  }

  /** How many of the jobs the broker took. */
  function Taken(ids: seq<nat>, delivered: nat -> bool): nat {
    if ids == [] then 0 else Taken(ids[..|ids| - 1], delivered) + if delivered(ids[|ids| - 1]) then 1 else 0
  }

  lemma OneMoreLeased(jobs: Jobs, due: seq<nat>, i: nat, at: nat -> int, delivered: nat -> bool)
    requires i < |due|
    ensures LeasedAll(jobs, due[..i + 1], at) == Leased(LeasedAll(jobs, due[..i], at), due[i], at(i))
    ensures Taken(due[..i + 1], delivered) == Taken(due[..i], delivered) + if delivered(due[i]) then 1 else 0
  {
    assert due[..i + 1][..i] == due[..i];
  }

  /** The selection is bounded, and takes only known jobs that are due. */
  lemma {:induction false} DueBounded(jobs: Jobs, order: seq<nat>, now: int, limit: nat)
    ensures |DueIds(jobs, order, now, limit)| <= limit
    ensures forall id :: id in DueIds(jobs, order, now, limit) ==> id in order && id in jobs && Due(jobs[id], now)
    ensures Distinct(order) ==> Distinct(DueIds(jobs, order, now, limit))
    decreases |order|
  {
    if order != [] && limit != 0 {
      DueBounded(jobs, order[1..], now, limit);
      DueBounded(jobs, order[1..], now, limit - 1);
    }
  }

  /** And it takes the earliest: a due job that is left out comes after everything taken, and the limit was reached. */
  lemma {:induction false} DueEarliest(jobs: Jobs, order: seq<nat>, now: int, limit: nat, i: nat)
    requires Distinct(order) && i < |order| && order[i] in jobs && Due(jobs[order[i]], now) && order[i] !in DueIds(jobs, order, now, limit)
    ensures |DueIds(jobs, order, now, limit)| == limit
    ensures forall j :: i <= j < |order| ==> order[j] !in DueIds(jobs, order, now, limit)
    decreases |order|
  {
    if limit != 0 && i > 0 {
      var taken := order[0] in jobs && Due(jobs[order[0]], now);
      assert order == [order[0]] + order[1..];
      DueEarliest(jobs, order[1..], now, if taken then limit - 1 else limit, i - 1);
      forall j | i <= j < |order| ensures order[j] !in DueIds(jobs, order, now, limit) {
        assert order[j] == order[1..][j - 1];
      }
    }
  }
}
