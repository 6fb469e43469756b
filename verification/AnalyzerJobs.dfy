/** Analyzer jobs: enqueued by a request (api/v1/analyzer_jobs.py), claimed and run by one worker that may stop anywhere
    (workers/analyzer_runner.py). */
module AnalyzerJobs {
  import opened Prelude

  const BATCH_SIZE := 10

  /** The width of the column error_message. */
  const MESSAGE_LIMIT := 2000

  type Id = nat
  type Org = nat

  datatype Status = Queued | Running | Succeeded | Failed

  datatype Report = Report(summary: string, full: string)

  datatype Job = Job(
    org: Org, observable: Id, analyzer: string, createdAt: int, status: Status,
    startedAt: Option<int>, finishedAt: Option<int>, report: Option<Report>, errorMessage: Option<string>)

  /** What comes of running a job: the analyzer is not registered, returns, or raises. */
  datatype Outcome = Unregistered | Returned(result: Report) | Raised(message: string)

  function NewJob(org: Org, observable: Id, analyzer: string, now: int): Job {
    Job(org, observable, analyzer, now, Queued, None, None, None, None)
  }

  function Started(j: Job, now: int): Job { j.(status := Running, startedAt := Some(now)) }

  /** A message that does not fit its column makes the commit fail. */
  predicate Storable(o: Outcome) { o.Raised? ==> |o.message| <= MESSAGE_LIMIT }

  function Finished(j: Job, o: Outcome, now: int): Job {
    match o
    case Unregistered =>
      j.(status := Failed, errorMessage := Some("analyzer_not_found:" + j.analyzer), finishedAt := Some(now))
    case Returned(r) => j.(status := Succeeded, report := Some(r), finishedAt := Some(now))
    case Raised(m) => j.(status := Failed, errorMessage := Some(m), finishedAt := Some(now))
  }

  function WithStatus(jobs: map<Id, Job>, status: Status): set<Id> { set j | j in jobs && jobs[j].status == status }

  /** An answer to the claim's query: the oldest queued jobs, ties in any order. */
  ghost predicate IsBatch(jobs: map<Id, Job>, batch: seq<Id>) {
    && Distinct(batch) && |batch| == Min(BATCH_SIZE, |WithStatus(jobs, Queued)|)
    && (forall i :: 0 <= i < |batch| ==> batch[i] in jobs && jobs[batch[i]].status == Queued)
    && (forall i, j :: 0 <= i < j < |batch| ==> jobs[batch[i]].createdAt <= jobs[batch[j]].createdAt)
    && (forall i, q :: 0 <= i < |batch| && q in jobs && jobs[q].status == Queued && q !in batch
          ==> jobs[batch[i]].createdAt <= jobs[q].createdAt)
  }

  function Claimed(jobs: map<Id, Job>, batch: seq<Id>, starts: Id -> int): map<Id, Job> {
    map j | j in jobs :: if j in batch then Started(jobs[j], starts(j)) else jobs[j]
  }

  /* ---------- the table, the worker, and the steps in between ---------- */

  /** The batch a poll has claimed, and how many of its jobs it has been through. */
  datatype Work = Work(batch: seq<Id>, done: nat)

  datatype State = State(jobs: map<Id, Job>, work: Option<Work>)

  datatype Step =
    | Enqueue(id: Id, org: Org, observable: Id, analyzer: string, now: int)
    | Claim(batch: seq<Id>, starts: Id -> int)
    | RunNext(outcome: Outcome, now: int)
    | EndPoll
    | Crash

  ghost predicate Enabled(s: State, e: Step) {
    match e
    case Enqueue(id, _, _, _, _) => id !in s.jobs
    case Claim(batch, _) => s.work.None? && IsBatch(s.jobs, batch)
    case RunNext(_, _) =>
      && s.work.Some? && s.work.value.done < |s.work.value.batch|
      && s.work.value.batch[s.work.value.done] in s.jobs
    case EndPoll => s.work.Some? && s.work.value.done == |s.work.value.batch|
    case Crash => true
  }

  function Next(w: Work): Id
    requires w.done < |w.batch|
  {
    w.batch[w.done]
  }

  ghost function Apply(s: State, e: Step): State
    requires Enabled(s, e)
  {
    match e
    case Enqueue(id, org, observable, analyzer, now) => s.(jobs := s.jobs[id := NewJob(org, observable, analyzer, now)])
    case Claim(batch, starts) => State(Claimed(s.jobs, batch, starts), Some(Work(batch, 0)))
    case RunNext(o, now) =>
      var w := s.work.value;
      if Storable(o) then State(s.jobs[Next(w) := Finished(s.jobs[Next(w)], o, now)], Some(w.(done := w.done + 1)))
      else s.(work := None)
    case EndPoll => s.(work := None)
    case Crash => s.(work := None)
  }

  const Start := State(map[], None)

  ghost predicate IsRun(s: State, steps: seq<Step>, s': State)
    decreases |steps|
  {
    if steps == [] then s' == s
    else Enabled(s, steps[0]) && IsRun(Apply(s, steps[0]), steps[1..], s')
  }

  /* ---------- what every step keeps ---------- */

  predicate Terminal(j: Job) { j.status == Succeeded || j.status == Failed }

  /** Which columns are filled follows from the status. */
  predicate JobOk(j: Job) {
    && (j.startedAt.Some? <==> j.status != Queued)
    && (j.finishedAt.Some? <==> Terminal(j))
    && (j.report.Some? <==> j.status == Succeeded)
    && (j.errorMessage.Some? <==> j.status == Failed)
  }

  /** How a row may change: forward only, and not at all once terminal. */
  predicate Follows(a: Job, b: Job) {
    && b.org == a.org && b.observable == a.observable && b.analyzer == a.analyzer && b.createdAt == a.createdAt
    && (a.status == Running ==> b.startedAt == a.startedAt && b.status != Queued)
    && (Terminal(a) ==> b == a)
  }

  /** The jobs a poll has yet to run are running. */
  ghost predicate WorkOk(s: State) {
    s.work.Some? ==>
      var w := s.work.value;
      && Distinct(w.batch) && w.done <= |w.batch|
      && forall i :: w.done <= i < |w.batch| ==> w.batch[i] in s.jobs && s.jobs[w.batch[i]].status == Running
  }

  ghost predicate JobsOk(jobs: map<Id, Job>) { forall j :: j in jobs ==> JobOk(jobs[j]) }

  ghost predicate JobsFollow(jobs: map<Id, Job>, jobs': map<Id, Job>) {
    forall j :: j in jobs ==> j in jobs' && Follows(jobs[j], jobs'[j])
  }

  lemma RunOneIsOk(j: Job, o: Outcome, now: int)
    requires JobOk(j) && j.status == Running
    ensures JobOk(Finished(j, o, now)) && Follows(j, Finished(j, o, now)) && Terminal(Finished(j, o, now))
  {
  }

  lemma ClaimIsOk(jobs: map<Id, Job>, batch: seq<Id>, starts: Id -> int)
    requires JobsOk(jobs) && IsBatch(jobs, batch)
    ensures JobsOk(Claimed(jobs, batch, starts)) && JobsFollow(jobs, Claimed(jobs, batch, starts))
    ensures var claimed := Claimed(jobs, batch, starts);
            forall i :: 0 <= i < |batch| ==> batch[i] in claimed && claimed[batch[i]].status == Running
  {
  }

  lemma StepKeeps(s: State, e: Step)
    requires Enabled(s, e) && JobsOk(s.jobs) && WorkOk(s)
    ensures var s' := Apply(s, e); JobsOk(s'.jobs) && WorkOk(s') && JobsFollow(s.jobs, s'.jobs)
  {
    match e
    case Claim(batch, starts) => ClaimIsOk(s.jobs, batch, starts);
    case RunNext(o, now) =>
      hide IsBatch;
      RunOneIsOk(s.jobs[Next(s.work.value)], o, now);
      hide JobOk, Follows, Finished;
      assert JobsFollow(s.jobs, s.jobs) by { FollowsSelf(s.jobs); }
    case _ =>
  }

  lemma FollowsSelf(jobs: map<Id, Job>)
    ensures JobsFollow(jobs, jobs)
  {
  }

  lemma FollowsTwice(jobs: map<Id, Job>, jobs': map<Id, Job>, jobs'': map<Id, Job>)
    requires JobsFollow(jobs, jobs') && JobsFollow(jobs', jobs'') && JobsOk(jobs')
    ensures JobsFollow(jobs, jobs'')
  {
  }

  /** In every run the columns agree with the status, and rows only ever move forward. */
  lemma {:induction false} RunKeeps(s: State, steps: seq<Step>, s': State)
    requires IsRun(s, steps, s') && JobsOk(s.jobs) && WorkOk(s)
    ensures JobsOk(s'.jobs) && WorkOk(s') && JobsFollow(s.jobs, s'.jobs)
    decreases |steps|
  {
    hide Enabled, Apply, JobsOk, WorkOk, JobsFollow;
    FollowsSelf(s.jobs);
    if steps != [] {
      var t := Apply(s, steps[0]);
      StepKeeps(s, steps[0]);
      RunKeeps(t, steps[1..], s');
      FollowsTwice(s.jobs, t.jobs, s'.jobs);
    }
  }

  lemma ReachableJobs(steps: seq<Step>, s: State, j: Id)
    requires IsRun(Start, steps, s) && j in s.jobs
    ensures JobOk(s.jobs[j])
  {
    RunKeeps(Start, steps, s);
  }

  function TimesClaimed(steps: seq<Step>, j: Id): nat {
    if steps == [] then 0 else (if steps[0].Claim? && j in steps[0].batch then 1 else 0) + TimesClaimed(steps[1..], j)
  }

  /** A job is claimed at most once: what a crash leaves running is never selected again. */
  lemma {:induction false} ClaimedAtMostOnce(s: State, steps: seq<Step>, s': State, j: Id)
    requires IsRun(s, steps, s') && JobsOk(s.jobs) && WorkOk(s)
    ensures TimesClaimed(steps, j) <= if j in s.jobs && s.jobs[j].status != Queued then 0 else 1
    ensures j in s.jobs && s.jobs[j].status != Queued ==> j in s'.jobs && s'.jobs[j].status != Queued
    ensures j in s'.jobs ==>
              (TimesClaimed(steps, j) == 1 <==>
               s'.jobs[j].status != Queued && (j in s.jobs ==> s.jobs[j].status == Queued))
    decreases |steps|
  {
    hide Enabled, Apply, JobsOk, WorkOk, JobsFollow;
    if steps != [] {
      var t := Apply(s, steps[0]);
      StepKeeps(s, steps[0]);
      ClaimStep(s, steps[0], j);
      ClaimedAtMostOnce(t, steps[1..], s', j);
    }
  }

  lemma ClaimStep(s: State, e: Step, j: Id)
    requires Enabled(s, e) && JobsOk(s.jobs) && WorkOk(s)
    ensures var t := Apply(s, e);
            && (j in s.jobs ==> j in t.jobs)
            && (e.Claim? && j in e.batch ==> j in s.jobs && s.jobs[j].status == Queued && t.jobs[j].status == Running)
            && (!(e.Claim? && j in e.batch) && j in t.jobs ==>
                  (t.jobs[j].status != Queued <==> j in s.jobs && s.jobs[j].status != Queued))
  {
    match e
    case RunNext(o, now) =>
      hide IsBatch;
      RunOneIsOk(s.jobs[Next(s.work.value)], o, now);
    case _ =>
  }

  /* ---------- polls ---------- */

  /** The jobs after the first k of a claimed batch have been run. */
  function AfterRuns(jobs: map<Id, Job>, ran: seq<Id>, analyze: Id -> Outcome, ends: Id -> int): map<Id, Job> {
    map j | j in jobs :: if j in ran then Finished(jobs[j], analyze(j), ends(j)) else jobs[j]
  }

  /** How far a poll gets: to the first job whose result cannot be stored, or where it is cut short, or to the end. */
  function Reached(batch: seq<Id>, analyze: Id -> Outcome, cut: nat): (k: nat)
    ensures k <= |batch| && k <= cut
    ensures forall i :: 0 <= i < k ==> Storable(analyze(batch[i]))
    ensures k < |batch| && k < cut ==> !Storable(analyze(batch[k]))
  {
    if batch == [] || cut == 0 || !Storable(analyze(batch[0])) then 0 else 1 + Reached(batch[1..], analyze, cut - 1)
  }

  function AfterPoll(jobs: map<Id, Job>, batch: seq<Id>, analyze: Id -> Outcome, starts: Id -> int, ends: Id -> int,
                     cut: nat)
    : map<Id, Job>
  {
    AfterRuns(Claimed(jobs, batch, starts), batch[..Reached(batch, analyze, cut)], analyze, ends)
  }

  lemma RunsStep(jobs: map<Id, Job>, batch: seq<Id>, k: nat, analyze: Id -> Outcome, ends: Id -> int)
    requires Distinct(batch) && k < |batch| && batch[k] in jobs
    ensures var before, j := AfterRuns(jobs, batch[..k], analyze, ends), batch[k];
            && before.Keys == jobs.Keys && before[j] == jobs[j]
            && AfterRuns(jobs, batch[..k + 1], analyze, ends) == before[j := Finished(jobs[j], analyze(j), ends(j))]
  {
    hide Finished;
    assert batch[..k + 1] == batch[..k] + [batch[k]] && batch[k] !in batch[..k];
  }

  datatype Observable = Observable(org: Org, dataType: string, deleted: bool)

  datatype Error = ObservableNotFound | AnalyzerNotFound | DataTypeNotSupported

  lemma FinishedIs(j: Job, o: Outcome, now: int)
    ensures Finished(j, o, now)
            == j.(status := if o.Returned? then Succeeded else Failed,
                  report := if o.Returned? then Some(o.result) else j.report,
                  errorMessage := if o.Unregistered? then Some("analyzer_not_found:" + j.analyzer)
                                  else if o.Raised? then Some(o.message) else j.errorMessage,
                  finishedAt := Some(now))
  {
  }

  class Runner {
    var jobs: map<Id, Job>

    constructor (jobs: map<Id, Job>)
      ensures this.jobs == jobs
    {
      this.jobs := jobs;
    }

    /** A job is queued only for a live observable of the organization whose type a registered analyzer takes. */
    method EnqueueJob(observables: map<Id, Observable>, registry: map<string, set<string>>, org: Org, observable: Id,
                      analyzer: string, newId: Id, now: int) returns (r: Result<Id, Error>)
      requires newId !in jobs
      modifies this
      ensures r.Success? <==> && observable in observables
                              && observables[observable].org == org && !observables[observable].deleted
                              && analyzer in registry && observables[observable].dataType in registry[analyzer]
      ensures r.Success? ==>
                && r.value == newId
                && State(jobs, None) == Apply(State(old(jobs), None), Enqueue(newId, org, observable, analyzer, now))
      ensures r.Failure? ==> jobs == old(jobs)
      ensures r == Failure(AnalyzerNotFound) ==> analyzer !in registry
      ensures r == Failure(DataTypeNotSupported) ==> analyzer in registry
    {
      if !(observable in observables && observables[observable].org == org && !observables[observable].deleted) {
        return Failure(ObservableNotFound);
      }
      if analyzer !in registry {
        return Failure(AnalyzerNotFound);
      }
      if observables[observable].dataType !in registry[analyzer] {
        return Failure(DataTypeNotSupported);
      }
      jobs := jobs[newId := NewJob(org, observable, analyzer, now)];
      return Success(newId);
    }

    /** One poll: the claim is committed first, then each job on its own. It is cut short before the job at `cut`, if
        there is one, or ends with an exception at a job whose result cannot be stored. */
    method RunPending(batch: seq<Id>, analyze: Id -> Outcome, starts: Id -> int, ends: Id -> int, cut: nat)
      returns (processed: Option<nat>)
      requires IsBatch(jobs, batch)
      modifies this
      ensures jobs == AfterPoll(old(jobs), batch, analyze, starts, ends, cut)
      ensures processed == if Reached(batch, analyze, cut) == |batch| then Some(|batch|) else None
    {
      hide *;
      BatchIsOfJobs(jobs, batch);
      PollIs(jobs, batch, analyze, starts, ends, cut);
      ghost var claimed := Claimed(jobs, batch, starts);
      ClaimedKeys(jobs, batch, starts);
      jobs := ClaimBatch(jobs, batch, starts);
      NothingRun(claimed, batch, analyze, ends);
      var count := 0;
      while count < |batch|
        invariant 0 <= count <= Reached(batch, analyze, cut)
        invariant jobs == AfterRuns(claimed, batch[..count], analyze, ends)
      {
        RunsStep(claimed, batch, count, analyze, ends);
        var j := batch[count];
        if count == cut {
          return None;
        }
        if !Storable(analyze(j)) {
          return None;
        }
        var job := jobs[j];
        match analyze(j) {
          case Unregistered =>
            job := job.(status := Failed, errorMessage := Some("analyzer_not_found:" + job.analyzer));
          case Returned(report) => job := job.(status := Succeeded, report := Some(report));
          case Raised(message) => job := job.(status := Failed, errorMessage := Some(message));
        }
        job := job.(finishedAt := Some(ends(j)));
        FinishedIs(jobs[j], analyze(j), ends(j));
        jobs := jobs[j := job];
        count := count + 1;
      }
      return Some(count);
    }
  }

  method ClaimBatch(jobs: map<Id, Job>, batch: seq<Id>, starts: Id -> int) returns (r: map<Id, Job>)
    requires Distinct(batch) && forall i :: 0 <= i < |batch| ==> batch[i] in jobs
    ensures r == Claimed(jobs, batch, starts)
  {
    r := jobs;
    for k := 0 to |batch|
      invariant r == Claimed(jobs, batch[..k], starts)
    {
      var j := batch[k];
      assert batch[..k + 1] == batch[..k] + [j] && j !in batch[..k];
      r := r[j := r[j].(status := Running, startedAt := Some(starts(j)))];
    }
    assert batch[..|batch|] == batch;
  }

  lemma PollIs(jobs: map<Id, Job>, batch: seq<Id>, analyze: Id -> Outcome, starts: Id -> int, ends: Id -> int, cut: nat)
    ensures AfterPoll(jobs, batch, analyze, starts, ends, cut)
            == AfterRuns(Claimed(jobs, batch, starts), batch[..Reached(batch, analyze, cut)], analyze, ends)
  {
    hide AfterRuns, Claimed, Reached;
  }

  lemma BatchIsOfJobs(jobs: map<Id, Job>, batch: seq<Id>)
    requires IsBatch(jobs, batch)
    ensures Distinct(batch) && forall i :: 0 <= i < |batch| ==> batch[i] in jobs && jobs[batch[i]].status == Queued
  {
  }

  lemma ClaimedKeys(jobs: map<Id, Job>, batch: seq<Id>, starts: Id -> int)
    ensures Claimed(jobs, batch, starts).Keys == jobs.Keys
  {
  }

  lemma NothingRun(jobs: map<Id, Job>, batch: seq<Id>, analyze: Id -> Outcome, ends: Id -> int)
    ensures AfterRuns(jobs, batch[..0], analyze, ends) == jobs
  {
  }

  /* ---------- polls are runs of the steps ---------- */

  lemma {:induction false} RunThenStep(s: State, steps: seq<Step>, s': State, e: Step)
    requires IsRun(s, steps, s') && Enabled(s', e)
    ensures IsRun(s, steps + [e], Apply(s', e))
    decreases |steps|
  {
    hide Enabled, Apply;
    if steps == [] {
      assert IsRun(Apply(s, e), [], Apply(s, e));
      assert [e][1..] == [] && steps + [e] == [e];
    } else {
      RunThenStep(Apply(s, steps[0]), steps[1..], s', e);
      assert (steps + [e])[1..] == steps[1..] + [e];
    }
  }

  lemma {:induction false} JobsRun(jobs: map<Id, Job>, batch: seq<Id>, analyze: Id -> Outcome, starts: Id -> int,
                                   ends: Id -> int, k: nat)
    returns (steps: seq<Step>)
    requires IsBatch(jobs, batch) && k <= |batch| && forall i :: 0 <= i < k ==> Storable(analyze(batch[i]))
    ensures IsRun(State(jobs, None), steps,
                  State(AfterRuns(Claimed(jobs, batch, starts), batch[..k], analyze, ends), Some(Work(batch, k))))
  {
    var s, claimed := State(jobs, None), Claimed(jobs, batch, starts);
    if k == 0 {
      assert IsRun(s, [], s);
      RunThenStep(s, [], s, Claim(batch, starts));
      NothingRun(claimed, batch, analyze, ends);
      steps := [] + [Claim(batch, starts)];
    } else {
      BatchIsOfJobs(jobs, batch);
      ClaimedKeys(jobs, batch, starts);
      hide IsBatch, IsRun, Claimed, AfterRuns, Finished;
      steps := JobsRun(jobs, batch, analyze, starts, ends, k - 1);
      var j := batch[k - 1];
      var mid := State(AfterRuns(claimed, batch[..k - 1], analyze, ends), Some(Work(batch, k - 1)));
      RunsStep(claimed, batch, k - 1, analyze, ends);
      RunThenStep(s, steps, mid, RunNext(analyze(j), ends(j)));
      steps := steps + [RunNext(analyze(j), ends(j))];
    }
  }

  /** A poll, however far it gets, is a run of the steps. */
  lemma PollRun(jobs: map<Id, Job>, batch: seq<Id>, analyze: Id -> Outcome, starts: Id -> int, ends: Id -> int,
                cut: nat)
    returns (steps: seq<Step>)
    requires IsBatch(jobs, batch)
    ensures IsRun(State(jobs, None), steps, State(AfterPoll(jobs, batch, analyze, starts, ends, cut), None))
  {
    BatchIsOfJobs(jobs, batch);
    hide IsBatch, IsRun, Claimed, AfterRuns, Finished;
    var k := Reached(batch, analyze, cut);
    steps := JobsRun(jobs, batch, analyze, starts, ends, k);
    var mid := State(AfterRuns(Claimed(jobs, batch, starts), batch[..k], analyze, ends), Some(Work(batch, k)));
    RunThenStep(State(jobs, None), steps, mid, if k == |batch| then EndPoll else Crash);
    steps := steps + [if k == |batch| then EndPoll else Crash];
  }

  /* ---------- draining the queue ---------- */

  datatype Poll = Poll(batch: seq<Id>, analyze: Id -> Outcome, starts: Id -> int, ends: Id -> int, cut: nat)

  /** The poll goes through its whole batch. */
  ghost predicate Completes(p: Poll) { Reached(p.batch, p.analyze, p.cut) == |p.batch| }

  ghost predicate IsDrain(jobs: map<Id, Job>, polls: seq<Poll>, jobs': map<Id, Job>)
    decreases |polls|
  {
    if polls == [] then jobs' == jobs
    else
      var p := polls[0];
      IsBatch(jobs, p.batch) && IsDrain(AfterPoll(jobs, p.batch, p.analyze, p.starts, p.ends, p.cut), polls[1..], jobs')
  }

  /** What one poll does to each job. */
  lemma PollOne(jobs: map<Id, Job>, p: Poll, j: Id)
    requires IsBatch(jobs, p.batch)
    ensures var after := AfterPoll(jobs, p.batch, p.analyze, p.starts, p.ends, p.cut);
            && (j in after <==> j in jobs) && (j in p.batch ==> j in jobs)
            && (j in jobs && j !in p.batch ==> after[j] == jobs[j])
            && (j in p.batch && j in jobs ==> after[j].status == Running || Terminal(after[j]))
            && (j in p.batch && j in jobs && Completes(p) ==> Terminal(after[j]))
  {
    assert p.batch[..|p.batch|] == p.batch;
  }

  lemma QueueLeft(jobs: map<Id, Job>, p: Poll)
    requires IsBatch(jobs, p.batch)
    ensures WithStatus(AfterPoll(jobs, p.batch, p.analyze, p.starts, p.ends, p.cut), Queued)
            == WithStatus(jobs, Queued) - ToSet(p.batch)
  {
    hide IsBatch, AfterPoll, Completes;
    forall j
      ensures j in WithStatus(AfterPoll(jobs, p.batch, p.analyze, p.starts, p.ends, p.cut), Queued)
              <==> j in WithStatus(jobs, Queued) - ToSet(p.batch)
    {
      PollOne(jobs, p, j);
    }
  }

  lemma BatchSize(jobs: map<Id, Job>, batch: seq<Id>)
    requires IsBatch(jobs, batch)
    ensures ToSet(batch) <= WithStatus(jobs, Queued) && |ToSet(batch)| == Min(BATCH_SIZE, |WithStatus(jobs, Queued)|)
  {
    BatchIsOfJobs(jobs, batch);
    DistinctSize(batch);
    assert |batch| == Min(BATCH_SIZE, |WithStatus(jobs, Queued)|);
    hide IsBatch, Distinct;
  }

  lemma TakenAway(queued: set<Id>, taken: set<Id>)
    requires taken <= queued && |taken| == Min(BATCH_SIZE, |queued|)
    ensures |queued - taken| == Max(0, |queued| - BATCH_SIZE)
  {
    assert queued == (queued - taken) + taken;
  }

  lemma PollShrinksQueue(jobs: map<Id, Job>, p: Poll)
    requires IsBatch(jobs, p.batch)
    ensures var after := AfterPoll(jobs, p.batch, p.analyze, p.starts, p.ends, p.cut);
            |WithStatus(after, Queued)| == Max(0, |WithStatus(jobs, Queued)| - BATCH_SIZE)
  {
    hide *;
    BatchSize(jobs, p.batch);
    QueueLeft(jobs, p);
    TakenAway(WithStatus(jobs, Queued), ToSet(p.batch));
  }

  /** The queue empties in exactly as many polls as the batches it fills, crashes or not. */
  lemma {:induction false} QueueEmpties(jobs: map<Id, Job>, polls: seq<Poll>, jobs': map<Id, Job>)
    requires IsDrain(jobs, polls, jobs')
    ensures |WithStatus(jobs', Queued)| == Max(0, |WithStatus(jobs, Queued)| - 10 * |polls|)
    ensures WithStatus(jobs', Queued) == {} <==> |polls| >= CeilDiv(|WithStatus(jobs, Queued)|, 10)
    decreases |polls|
  {
    hide IsBatch, AfterPoll, WithStatus;
    if polls != [] {
      var p := polls[0];
      PollShrinksQueue(jobs, p);
      QueueEmpties(AfterPoll(jobs, p.batch, p.analyze, p.starts, p.ends, p.cut), polls[1..], jobs');
    }
  }

  /** If every poll completes, each job that was queued is by then queued still or terminal; with enough polls,
      terminal. A job that was running before stays running for ever. */
  lemma {:induction false} DrainedJobs(jobs: map<Id, Job>, polls: seq<Poll>, jobs': map<Id, Job>, j: Id)
    requires IsDrain(jobs, polls, jobs') && j in jobs
    ensures j in jobs' && (jobs[j].status != Queued ==> jobs'[j] == jobs[j])
    ensures (forall i :: 0 <= i < |polls| ==> Completes(polls[i])) && jobs[j].status == Queued
            ==> jobs'[j].status == Queued || Terminal(jobs'[j])
    decreases |polls|
  {
    hide AfterPoll, Completes;
    if polls != [] {
      var p := polls[0];
      PollOne(jobs, p, j);
      BatchIsOfJobs(jobs, p.batch);
      DrainedJobs(AfterPoll(jobs, p.batch, p.analyze, p.starts, p.ends, p.cut), polls[1..], jobs', j);
    }
  }

  /** k queued jobs are all terminal after ceil(k / 10) polls, if those complete. */
  lemma TerminalAfterCeilPolls(jobs: map<Id, Job>, polls: seq<Poll>, jobs': map<Id, Job>, j: Id)
    requires IsDrain(jobs, polls, jobs') && j in jobs && jobs[j].status == Queued
    requires forall i :: 0 <= i < |polls| ==> Completes(polls[i])
    requires |polls| >= CeilDiv(|WithStatus(jobs, Queued)|, BATCH_SIZE)
    ensures j in jobs' && Terminal(jobs'[j])
  {
    hide IsDrain, Completes;
    QueueEmpties(jobs, polls, jobs');
    DrainedJobs(jobs, polls, jobs', j);
    assert j !in WithStatus(jobs', Queued);
  }

  /** A poll leaves one of its jobs running exactly when it does not complete. */
  lemma StrandsExactlyWhen(jobs: map<Id, Job>, p: Poll)
    requires IsBatch(jobs, p.batch)
    ensures var after := AfterPoll(jobs, p.batch, p.analyze, p.starts, p.ends, p.cut);
            (exists j :: j in p.batch && j in after && after[j].status == Running)
            <==> exists i :: 0 <= i < |p.batch| && (i == p.cut || !Storable(p.analyze(p.batch[i])))
  {
    var k := Reached(p.batch, p.analyze, p.cut);
    BatchIsOfJobs(jobs, p.batch);
    hide IsBatch;
    if k < |p.batch| {
      assert p.batch[k] in p.batch && p.batch[k] !in p.batch[..k];
    } else {
      hide AfterPoll;
      forall j | j in p.batch
        ensures Terminal(AfterPoll(jobs, p.batch, p.analyze, p.starts, p.ends, p.cut)[j])
      {
        PollOne(jobs, p, j);
      }
    }
  }

  /** Nothing cuts the poll short and every result can be stored. */
  predicate RunsThrough(p: Poll) {
    |p.batch| <= p.cut && forall i :: 0 <= i < |p.batch| ==> IsShort(p.analyze(p.batch[i]))
  }

  /** The result has no message of more than 2000 characters. */
  predicate IsShort(o: Outcome) { match o case Raised(message) => |message| < 2001 case _ => true }

  lemma CompletesExactlyWhen(p: Poll)
    ensures Completes(p) <==> RunsThrough(p)
  {
    var k := Reached(p.batch, p.analyze, p.cut);
  }

  lemma PollStrands(jobs: map<Id, Job>, p: Poll) returns (j: Id)
    requires IsBatch(jobs, p.batch) && !RunsThrough(p)
    ensures var after := AfterPoll(jobs, p.batch, p.analyze, p.starts, p.ends, p.cut);
            j in jobs && jobs[j].status == Queued && j in after && after[j].status == Running
  {
    StrandsExactlyWhen(jobs, p);
    BatchIsOfJobs(jobs, p.batch);
    hide IsBatch, AfterPoll;
    if |p.batch| > p.cut {
      assert p.batch[p.cut] in p.batch;
    } else {
      var i :| 0 <= i < |p.batch| && !Storable(p.analyze(p.batch[i]));
    }
    var after := AfterPoll(jobs, p.batch, p.analyze, p.starts, p.ends, p.cut);
    j :| j in p.batch && j in after && after[j].status == Running;
  }

  /** A poll that does not complete leaves some job of the queue running to the end. */
  lemma {:induction false} StrandedStays(jobs: map<Id, Job>, polls: seq<Poll>, jobs': map<Id, Job>, i: nat)
    returns (j: Id)
    requires IsDrain(jobs, polls, jobs') && i < |polls| && !RunsThrough(polls[i])
    ensures j in jobs && jobs[j].status == Queued && j in jobs' && jobs'[j].status == Running
    decreases |polls|
  {
    var p := polls[0];
    var after := AfterPoll(jobs, p.batch, p.analyze, p.starts, p.ends, p.cut);
    BatchIsOfJobs(jobs, p.batch);
    hide IsBatch, AfterPoll, Completes, RunsThrough;
    if i == 0 {
      j := PollStrands(jobs, p);
      DrainedJobs(after, polls[1..], jobs', j);
    } else {
      j := StrandedStays(after, polls[1..], jobs', i - 1);
      PollOne(jobs, p, j);
    }
  }

  lemma {:induction false} DrainKeepsJobs(jobs: map<Id, Job>, polls: seq<Poll>, jobs': map<Id, Job>)
    requires IsDrain(jobs, polls, jobs')
    ensures jobs'.Keys == jobs.Keys && WithStatus(jobs', Queued) <= WithStatus(jobs, Queued)
    decreases |polls|
  {
    if polls != [] {
      var p := polls[0];
      ClaimedKeys(jobs, p.batch, p.starts);
      QueueLeft(jobs, p);
      hide IsBatch, Claimed, WithStatus;
      DrainKeepsJobs(AfterPoll(jobs, p.batch, p.analyze, p.starts, p.ends, p.cut), polls[1..], jobs');
    }
  }

  ghost predicate AllTerminal(jobs: map<Id, Job>, jobs': map<Id, Job>) {
    forall j :: j in jobs && jobs[j].status == Queued ==> j in jobs' && Terminal(jobs'[j])
  }

  /** The jobs that were queued are all terminal exactly after ceil(k / 10) polls none of which was cut short or met a
      result that cannot be stored. */
  lemma AllTerminalExactlyWhen(jobs: map<Id, Job>, polls: seq<Poll>, jobs': map<Id, Job>)
    requires IsDrain(jobs, polls, jobs')
    ensures AllTerminal(jobs, jobs')
            <==> && |polls| >= CeilDiv(|WithStatus(jobs, Queued)|, 10)
                 && forall i :: 0 <= i < |polls| ==> RunsThrough(polls[i])
  {
    hide IsDrain, Completes, RunsThrough;
    QueueEmpties(jobs, polls, jobs');
    DrainKeepsJobs(jobs, polls, jobs');
    if AllTerminal(jobs, jobs') {
      assert forall j :: j in WithStatus(jobs', Queued) ==> j in WithStatus(jobs, Queued);
      assert WithStatus(jobs', Queued) == {};
      forall i | 0 <= i < |polls|
        ensures RunsThrough(polls[i])
      {
        if !RunsThrough(polls[i]) {
          var j := StrandedStays(jobs, polls, jobs', i);
        }
      }
    }
    if && |polls| >= CeilDiv(|WithStatus(jobs, Queued)|, BATCH_SIZE)
       && forall i :: 0 <= i < |polls| ==> RunsThrough(polls[i])
    {
      forall i | 0 <= i < |polls|
        ensures Completes(polls[i])
      {
        CompletesExactlyWhen(polls[i]);
      }
      forall j | j in jobs && jobs[j].status == Queued
        ensures j in jobs' && Terminal(jobs'[j])
      {
        TerminalAfterCeilPolls(jobs, polls, jobs', j);
      }
    }
  }

  /* ---------- progress while jobs go on being enqueued ---------- */

  /** The queued jobs at least as old as this one, itself included. */
  ghost function Ahead(jobs: map<Id, Job>, j: Id): set<Id> {
    set q | q in WithStatus(jobs, Queued) && j in jobs && jobs[q].createdAt <= jobs[j].createdAt
  }

  ghost function Rank(jobs: map<Id, Job>, j: Id): nat { |Ahead(jobs, j)| }

  ghost predicate OnlyYounger(steps: seq<Step>, createdAt: int) {
    forall i :: 0 <= i < |steps| ==> steps[i].Enqueue? ==> steps[i].now > createdAt
  }

  function Claims(steps: seq<Step>): nat {
    if steps == [] then 0 else (if steps[0].Claim? then 1 else 0) + Claims(steps[1..])
  }

  lemma LeftOut(queued: set<Id>, batch: seq<Id>, j: Id)
    requires Distinct(batch) && ToSet(batch) <= queued && j in queued && j !in batch
    ensures |batch| < |queued|
  {
    DistinctSize(batch);
    assert j in queued - ToSet(batch);
    assert queued == ToSet(batch) + (queued - ToSet(batch));
  }

  /** A claim takes the job itself or ten that are no younger. */
  lemma ClaimAdvances(jobs: map<Id, Job>, batch: seq<Id>, starts: Id -> int, j: Id)
    requires IsBatch(jobs, batch) && j in WithStatus(jobs, Queued) && j !in batch
    ensures Rank(Claimed(jobs, batch, starts), j) + BATCH_SIZE <= Rank(jobs, j)
  {
    var before, after := Ahead(jobs, j), Ahead(Claimed(jobs, batch, starts), j);
    LeftOut(WithStatus(jobs, Queued), batch, j);
    DistinctSize(batch);
    assert after == before - ToSet(batch);
    assert ToSet(batch) <= before;
    assert before == after + ToSet(batch);
  }

  lemma StepAdvances(s: State, e: Step, j: Id)
    requires Enabled(s, e) && WorkOk(s) && j in WithStatus(s.jobs, Queued)
    requires e.Enqueue? ==> e.now > s.jobs[j].createdAt
    ensures var s' := Apply(s, e);
            && j in s'.jobs && s'.jobs[j].createdAt == s.jobs[j].createdAt
            && (s'.jobs[j].status == Queued ==>
                  Rank(s'.jobs, j) + (if e.Claim? then BATCH_SIZE else 0) <= Rank(s.jobs, j))
  {
    var s' := Apply(s, e);
    match e
    case Claim(batch, starts) =>
      if j !in batch {
        ClaimAdvances(s.jobs, batch, starts, j);
      }
    case Enqueue(_, _, _, _, _) => assert Ahead(s'.jobs, j) == Ahead(s.jobs, j);
    case RunNext(_, _) =>
      assert Ahead(s'.jobs, j) == Ahead(s.jobs, j);
    case _ =>
  }

  lemma {:induction false} RunAdvances(s: State, steps: seq<Step>, s': State, j: Id)
    requires IsRun(s, steps, s') && JobsOk(s.jobs) && WorkOk(s) && j in WithStatus(s.jobs, Queued)
    requires OnlyYounger(steps, s.jobs[j].createdAt)
    ensures j in s'.jobs
    ensures s'.jobs[j].status == Queued ==> Rank(s'.jobs, j) + BATCH_SIZE * Claims(steps) <= Rank(s.jobs, j)
    decreases |steps|
  {
    hide Enabled, Apply, JobsOk, WorkOk, Rank, JobsFollow, Follows;
    if steps != [] {
      var t := Apply(s, steps[0]);
      StepKeeps(s, steps[0]);
      StepAdvances(s, steps[0], j);
      if t.jobs[j].status == Queued {
        RunAdvances(t, steps[1..], s', j);
      } else {
        ClaimedAtMostOnce(t, steps[1..], s', j);
      }
    }
  }

  lemma QueuedHasRank(jobs: map<Id, Job>, j: Id)
    requires j in WithStatus(jobs, Queued)
    ensures Rank(jobs, j) > 0
  {
    assert j in Ahead(jobs, j);
  }

  /** In a live system, with jobs being enqueued and the worker crashing and restarting at any point: a job with n
      queued jobs no younger has been claimed by the time of ceil(n / 10) claims, while only younger jobs are
      enqueued. */
  lemma ClaimedInCeilPolls(before: seq<Step>, s: State, steps: seq<Step>, s': State, j: Id)
    requires IsRun(Start, before, s) && IsRun(s, steps, s') && j in WithStatus(s.jobs, Queued)
    requires OnlyYounger(steps, s.jobs[j].createdAt) && Claims(steps) >= CeilDiv(Rank(s.jobs, j), 10)
    ensures j in s'.jobs && s'.jobs[j].status != Queued
  {
    RunKeeps(Start, before, s);
    hide IsRun, Rank, JobsOk, WorkOk, OnlyYounger;
    RunAdvances(s, steps, s', j);
    if s'.jobs[j].status == Queued {
      QueuedHasRank(s'.jobs, j);
    }
  }

  /** Nothing goes wrong: no crash, and every result can be stored. */
  ghost predicate Smooth(steps: seq<Step>) {
    forall i :: 0 <= i < |steps| ==> !steps[i].Crash? && (steps[i].RunNext? ==> Storable(steps[i].outcome))
  }

  /** If this job is running, the worker has yet to come to it. */
  ghost predicate InHand(s: State, j: Id) {
    j in s.jobs && s.jobs[j].status == Running ==>
      s.work.Some? && s.work.value.done <= |s.work.value.batch| && j in s.work.value.batch[s.work.value.done..]
  }

  lemma StepKeepsInHand(s: State, e: Step, j: Id)
    requires Enabled(s, e) && InHand(s, j) && WorkOk(s) && !e.Crash? && (e.RunNext? ==> Storable(e.outcome))
    ensures InHand(Apply(s, e), j)
  {
    match e
    case Claim(batch, starts) => assert batch[0..] == batch;
    case RunNext(o, now) =>
      var w := s.work.value;
      assert w.batch[w.done..] == [Next(w)] + w.batch[w.done + 1..];
    case _ =>
  }

  lemma {:induction false} RunKeepsInHand(s: State, steps: seq<Step>, s': State, j: Id)
    requires IsRun(s, steps, s') && JobsOk(s.jobs) && WorkOk(s) && InHand(s, j) && Smooth(steps)
    ensures InHand(s', j)
    decreases |steps|
  {
    hide Enabled, Apply, JobsOk, WorkOk, InHand;
    if steps != [] {
      StepKeeps(s, steps[0]);
      StepKeepsInHand(s, steps[0], j);
      RunKeepsInHand(Apply(s, steps[0]), steps[1..], s', j);
    }
  }

  /** If in addition nothing goes wrong and the worker is idle at the end, the job is terminal. */
  lemma TerminalInCeilPolls(before: seq<Step>, s: State, steps: seq<Step>, s': State, j: Id)
    requires IsRun(Start, before, s) && IsRun(s, steps, s') && j in WithStatus(s.jobs, Queued)
    requires OnlyYounger(steps, s.jobs[j].createdAt) && Claims(steps) >= CeilDiv(Rank(s.jobs, j), 10)
    requires Smooth(steps) && s'.work.None?
    ensures j in s'.jobs && Terminal(s'.jobs[j])
  {
    hide IsRun, Rank, OnlyYounger, Smooth;
    RunKeeps(Start, before, s);
    ClaimedInCeilPolls(before, s, steps, s', j);
    RunKeepsInHand(s, steps, s', j);
  }

  /* ---------- what each step writes, column by column ---------- */

  /** Every row but this one is as it was. */
  ghost predicate OnlyAt(jobs: map<Id, Job>, jobs': map<Id, Job>, x: Id) {
    forall j :: j != x ==> (j in jobs' <==> j in jobs) && (j in jobs ==> jobs'[j] == jobs[j])
  }

  predicate IsNew(j: Job, org: Org, observable: Id, analyzer: string, now: int) {
    && j.org == org && j.observable == observable && j.analyzer == analyzer && j.createdAt == now
    && j.status == Queued && j.startedAt == None && j.finishedAt == None && j.report == None && j.errorMessage == None
  }

  /** The same job but for what a claim or a result writes. */
  predicate SameJob(a: Job, b: Job) {
    b.org == a.org && b.observable == a.observable && b.analyzer == a.analyzer && b.createdAt == a.createdAt
  }

  predicate IsStarted(a: Job, b: Job, at: int) {
    && SameJob(a, b) && b.status == Running && b.startedAt == Some(at)
    && b.finishedAt == a.finishedAt && b.report == a.report && b.errorMessage == a.errorMessage
  }

  /** The row tells how the job ended. */
  predicate IsFinished(a: Job, b: Job, o: Outcome, at: int) {
    && SameJob(a, b) && b.startedAt == a.startedAt && b.finishedAt == Some(at)
    && match o
       case Returned(report) => b.status == Succeeded && b.report == Some(report) && b.errorMessage == a.errorMessage
       case Raised(message) => b.status == Failed && b.errorMessage == Some(message) && b.report == a.report
       case Unregistered =>
         b.status == Failed && b.errorMessage == Some("analyzer_not_found:" + a.analyzer) && b.report == a.report
  }

  /** A claim starts at most ten queued jobs, and leaves none that is older than one it starts. */
  ghost predicate ClaimWrites(jobs: map<Id, Job>, batch: seq<Id>, starts: Id -> int, jobs': map<Id, Job>) {
    var queued := set j | j in jobs && jobs[j].status == Queued;
    && jobs'.Keys == jobs.Keys && ToSet(batch) <= queued && |batch| == |ToSet(batch)|
    && |batch| == (if |queued| < 10 then |queued| else 10)
    && (forall j :: j in jobs ==> if j in batch then IsStarted(jobs[j], jobs'[j], starts(j)) else jobs'[j] == jobs[j])
    && (forall j, q :: j in queued && j in batch && q in queued && q !in batch ==>
          jobs[j].createdAt <= jobs[q].createdAt)
  }

  ghost predicate Writes(s: State, e: Step, s': State) {
    match e
    case Enqueue(id, org, observable, analyzer, now) =>
      && id !in s.jobs && id in s'.jobs && IsNew(s'.jobs[id], org, observable, analyzer, now)
      && OnlyAt(s.jobs, s'.jobs, id)
    case Claim(batch, starts) => ClaimWrites(s.jobs, batch, starts, s'.jobs) && s'.work == Some(Work(batch, 0))
    case RunNext(o, now) =>
      && s.work.Some? && s.work.value.done < |s.work.value.batch|
      && var j := s.work.value.batch[s.work.value.done];
         if IsShort(o)
         then j in s.jobs && j in s'.jobs && IsFinished(s.jobs[j], s'.jobs[j], o, now) && OnlyAt(s.jobs, s'.jobs, j)
              && s'.work == Some(Work(s.work.value.batch, s.work.value.done + 1))
         else s'.jobs == s.jobs && s'.work == None
    case _ => s'.jobs == s.jobs && s'.work == None
  }

  lemma ClaimWritesIt(jobs: map<Id, Job>, batch: seq<Id>, starts: Id -> int)
    requires IsBatch(jobs, batch)
    ensures ClaimWrites(jobs, batch, starts, Claimed(jobs, batch, starts))
  {
    DistinctSize(batch);
    assert WithStatus(jobs, Queued) == set j | j in jobs && jobs[j].status == Queued;
    forall j, q | j in batch && q in jobs && jobs[q].status == Queued && q !in batch
      ensures jobs[j].createdAt <= jobs[q].createdAt
    {
      var i :| 0 <= i < |batch| && batch[i] == j;
    }
  }

  /** Whatever step the worker or a request takes, it writes these columns and no others. */
  lemma StepWrites(s: State, e: Step)
    requires Enabled(s, e)
    ensures Writes(s, e, Apply(s, e))
  {
    match e {
      case Claim(batch, starts) =>
        hide ClaimWrites, IsBatch, Claimed;
        ClaimWritesIt(s.jobs, batch, starts);
      case _ =>
    }
  }
}
