/** The registry of scan jobs: caps on running jobs, eviction of finished ones (scan_job_manager.py, JobManager). */
module JobRegistry {
  import opened Common

  const MAX_RUNNING := 3
  const MAX_FINISHED := 5

  type Id = nat
  datatype ScanType = AGroup | ExpiryLevel1 | ExpiryLevel5 | CupBreakout
  datatype Status = Running | Completed | Failed | Cancelled

  /** Whether the job's task has taken its first step. A task cancelled before that never enters its own code. */
  datatype Phase = Scheduled | Doomed | Begun

  datatype Job = Job(scanType: ScanType, device: Option<int>, status: Status, phase: Phase, completionTime: int)

  type Jobs = map<Id, Job>

  datatype StartError = AlreadyRunning(jobId: Id) | TooMany

  // ---- What one call does ----------------------------------------------------------------

  ghost function RunningOf(jobs: Jobs, t: ScanType): set<Id> {
    set id | id in jobs && jobs[id].scanType == t && jobs[id].status.Running?
  }

  ghost function FinishedOf(jobs: Jobs, t: ScanType): set<Id> {
    set id | id in jobs && jobs[id].scanType == t && !jobs[id].status.Running?
  }

  ghost function RunningOn(jobs: Jobs, t: ScanType, device: Option<int>): set<Id> {
    set id | id in RunningOf(jobs, t) && jobs[id].device == device
  }

  function NewJob(t: ScanType, device: Option<int>): Job {
    Job(t, device, Running, Scheduled, 0)
  }

  /** A start is refused exactly for a running job of the same type and device, or for three running jobs of the type. */
  ghost predicate MayStart(jobs: Jobs, t: ScanType, device: Option<int>, allowConcurrent: bool) {
    (allowConcurrent || RunningOn(jobs, t, device) == {}) && |RunningOf(jobs, t)| < MAX_RUNNING
  }

  /** Finished jobs of the type that completed after this one. */
  ghost function Newer(jobs: Jobs, t: ScanType, id: Id): set<Id>
    requires id in jobs
  {
    set k | k in FinishedOf(jobs, t) && jobs[k].completionTime > jobs[id].completionTime
  }

  /** Only the five most recently completed jobs of the type stay. */
  ghost function Evicted(jobs: Jobs, t: ScanType): Jobs {
    map id | id in jobs && (id in FinishedOf(jobs, t) ==> |Newer(jobs, t, id)| < MAX_FINISHED) :: jobs[id]
  }

  /** The task ends: its status and time are recorded, then old finished jobs of its type go. */
  ghost function Finish(jobs: Jobs, id: Id, outcome: Status, now: int): Jobs
    requires id in jobs
  {
    Evicted(jobs[id := jobs[id].(status := outcome, completionTime := now)], jobs[id].scanType)
  }

  /** A cancel reaches a running job's task; before its first step that leaves the job as it is, for ever. */
  function Cancel(jobs: Jobs, id: Id): Jobs {
    if id in jobs && jobs[id].status.Running? && jobs[id].phase.Scheduled? then jobs[id := jobs[id].(phase := Doomed)]
    else jobs
  }

  function Begin(jobs: Jobs, id: Id): Jobs {
    if id in jobs && jobs[id].phase.Scheduled? then jobs[id := jobs[id].(phase := Begun)] else jobs
  }

  // ---- Steps -----------------------------------------------------------------------------

  datatype Event =
    | StartJob(id: Id, scanType: ScanType, device: Option<int>, allowConcurrent: bool)
    | BeginTask(id: Id)
    | CancelJob(id: Id)
    | EndTask(id: Id, outcome: Status, now: int)

  datatype Past = Past(id: Id, scanType: ScanType)

  /** `used` are the identifiers drawn so far, `clock` the last completion time, and `history` every job that ever
      finished, newest first. */
  datatype Registry = Registry(jobs: Jobs, used: set<Id>, clock: int, history: seq<Past>)

  /** Identifiers are never drawn twice, time moves on between completions, and only a task that began can end. */
  ghost predicate Enabled(r: Registry, e: Event) {
    match e
    case StartJob(id, _, _, _) => id !in r.used
    case BeginTask(_) => true
    case CancelJob(_) => true
    case EndTask(id, outcome, now) =>
      id in r.jobs && r.jobs[id].status.Running? && r.jobs[id].phase.Begun? && !outcome.Running? && now > r.clock
  }

  ghost function Step(r: Registry, e: Event): Registry {
    if !Enabled(r, e) then r
    else
      match e
      case StartJob(id, t, device, allow) =>
        if MayStart(r.jobs, t, device, allow) then r.(jobs := r.jobs[id := NewJob(t, device)], used := r.used + {id})
        else r.(used := r.used + {id})
      case BeginTask(id) => r.(jobs := Begin(r.jobs, id))
      case CancelJob(id) => r.(jobs := Cancel(r.jobs, id))
      case EndTask(id, outcome, now) =>
        Registry(Finish(r.jobs, id, outcome, now), r.used, now, [Past(id, r.jobs[id].scanType)] + r.history)
  }

  /** The registry after the first `n` events. */
  ghost function Run(events: seq<Event>, n: nat): Registry
    requires n <= |events|
  {
    if n == 0 then Registry(map[], {}, 0, []) else Step(Run(events, n - 1), events[n - 1])
  }

  // ---- Eviction keeps the newest five ----------------------------------------------------

  /** Finished jobs of the type, newest first: the list the eviction sorts. */
  ghost predicate NewestFirst(jobs: Jobs, t: ScanType, ids: seq<Id>) {
    && (forall id :: id in ids <==> id in FinishedOf(jobs, t))
    && (forall i :: 0 <= i < |ids| ==> ids[i] in jobs)
    && (forall i, j :: 0 <= i < j < |ids| ==> jobs[ids[i]].completionTime > jobs[ids[j]].completionTime)
  }

  function SetOf(ids: seq<Id>): set<Id> { set id | id in ids }

  lemma {:induction false} SetOfSize(ids: seq<Id>)
    requires forall i, j :: 0 <= i < j < |ids| ==> ids[i] != ids[j]
    ensures |SetOf(ids)| == |ids|
  {
    if ids != [] {
      var front, last := ids[..|ids| - 1], ids[|ids| - 1];
      SetOfSize(front);
      assert SetOf(ids) == SetOf(front) + {last};
    }
  }

  /** The position in that list is the number of newer finished jobs. */
  lemma RankIsPosition(jobs: Jobs, t: ScanType, ids: seq<Id>, i: nat)
    requires NewestFirst(jobs, t, ids) && i < |ids|
    ensures |Newer(jobs, t, ids[i])| == i
  {
    var newer := ids[..i];
    SetOfSize(newer);
    forall k | k in Newer(jobs, t, ids[i])
      ensures k in newer
    {
      assert k in ids;
      var j :| 0 <= j < |ids| && ids[j] == k;
      assert newer[j] == k;
    }
    assert SetOf(newer) == Newer(jobs, t, ids[i]);
  }

  function FirstFive(ids: seq<Id>): (five: seq<Id>)
    ensures five == if |ids| <= 5 then ids else ids[..5]
  {
    if |ids| <= MAX_FINISHED then ids else ids[..MAX_FINISHED]
  }

  lemma EvictedIff(jobs: Jobs, t: ScanType, ids: seq<Id>, id: Id)
    requires NewestFirst(jobs, t, ids) && id in FinishedOf(jobs, t)
    ensures id in Evicted(jobs, t) <==> id in FirstFive(ids)
  {
    assert id in ids;
    var i :| 0 <= i < |ids| && ids[i] == id;
    RankIsPosition(jobs, t, ids, i);
    if i < MAX_FINISHED {
      assert FirstFive(ids)[i] == id;
    } else {
      forall j | 0 <= j < |FirstFive(ids)|
        ensures FirstFive(ids)[j] != id
      {
        assert jobs[ids[j]].completionTime > jobs[ids[i]].completionTime;
      }
    }
  }

  /** Hence eviction keeps the first five of the list. */
  lemma EvictedIsFirstFive(jobs: Jobs, t: ScanType, ids: seq<Id>)
    requires NewestFirst(jobs, t, ids)
    ensures NewestFirst(Evicted(jobs, t), t, FirstFive(ids))
  {
    forall id | id in FinishedOf(jobs, t)
      ensures id in Evicted(jobs, t) <==> id in FirstFive(ids)
    {
      EvictedIff(jobs, t, ids, id);
    }
    forall id | id in FirstFive(ids)
      ensures id in FinishedOf(Evicted(jobs, t), t)
    {
      assert id in ids;
    }
  }

  // ---- Every reachable registry ----------------------------------------------------------

  /** The finished jobs of one type among all that ever finished, newest first. */
  function OfType(history: seq<Past>, t: ScanType): seq<Id> {
    if history == [] then []
    else (if history[0].scanType == t then [history[0].id] else []) + OfType(history[1..], t)
  }

  /** Every job has a drawn identifier; a finished one began and completed no later than the clock says. */
  ghost predicate Dated(r: Registry) {
    && (forall id :: id in r.jobs ==> id in r.used)
    && (forall id :: id in r.jobs && !r.jobs[id].status.Running? ==>
          r.jobs[id].completionTime <= r.clock && r.jobs[id].phase.Begun?)
  }

  lemma StepDated(r: Registry, e: Event)
    requires Dated(r)
    ensures Dated(Step(r, e))
  {
  }

  /** The finished jobs kept are exactly the five most recently completed of all that ever finished. */
  ghost predicate KeepsTheNewest(r: Registry, t: ScanType) {
    NewestFirst(r.jobs, t, FirstFive(OfType(r.history, t)))
  }

  lemma FinishListed(jobs: Jobs, t: ScanType, ids: seq<Id>, id: Id, outcome: Status, now: int)
    requires NewestFirst(jobs, t, ids) && id in RunningOf(jobs, t) && !outcome.Running?
    requires forall k :: k in FinishedOf(jobs, t) ==> jobs[k].completionTime < now
    ensures NewestFirst(jobs[id := jobs[id].(status := outcome, completionTime := now)], t, [id] + ids)
  {
    var jobs' := jobs[id := jobs[id].(status := outcome, completionTime := now)];
    assert FinishedOf(jobs', t) == FinishedOf(jobs, t) + {id};
    assert forall k :: k in ids ==> k != id && jobs'[k] == jobs[k];
  }

  lemma FirstFiveAgain(id: Id, ids: seq<Id>)
    ensures FirstFive([id] + FirstFive(ids)) == FirstFive([id] + ids)
  {
  }

  lemma SameFinished(jobs: Jobs, jobs': Jobs, t: ScanType, ids: seq<Id>)
    requires NewestFirst(jobs, t, ids) && FinishedOf(jobs', t) == FinishedOf(jobs, t)
    requires forall id :: id in FinishedOf(jobs, t) ==> jobs'[id] == jobs[id]
    ensures NewestFirst(jobs', t, ids)
  {
    assert forall i :: 0 <= i < |ids| ==> ids[i] in FinishedOf(jobs, t);
  }

  lemma OtherTypesStay(jobs: Jobs, t: ScanType, id: Id, outcome: Status, now: int)
    requires id in jobs && jobs[id].scanType != t
    ensures FinishedOf(Finish(jobs, id, outcome, now), t) == FinishedOf(jobs, t)
    ensures forall k :: k in FinishedOf(jobs, t) ==> Finish(jobs, id, outcome, now)[k] == jobs[k]
  {
  }

  lemma OfTypeCons(past: Past, history: seq<Past>, t: ScanType)
    ensures OfType([past] + history, t) == if past.scanType == t then [past.id] + OfType(history, t) else OfType(history, t)
  {
    assert ([past] + history)[1..] == history;
  }

  lemma EndTaskKeepsTheNewest(r: Registry, t: ScanType, id: Id, outcome: Status, now: int)
    requires Dated(r) && KeepsTheNewest(r, t) && Enabled(r, EndTask(id, outcome, now))
    ensures KeepsTheNewest(Step(r, EndTask(id, outcome, now)), t)
  {
    var t' := r.jobs[id].scanType;
    var ids := OfType(r.history, t);
    OfTypeCons(Past(id, t'), r.history, t);
    if t' == t {
      FinishListed(r.jobs, t, FirstFive(ids), id, outcome, now);
      EvictedIsFirstFive(r.jobs[id := r.jobs[id].(status := outcome, completionTime := now)], t, [id] + FirstFive(ids));
      FirstFiveAgain(id, ids);
    } else {
      OtherTypesStay(r.jobs, t, id, outcome, now);
      SameFinished(r.jobs, Finish(r.jobs, id, outcome, now), t, FirstFive(ids));
    }
  }

  lemma OtherStepsFinishNothing(r: Registry, e: Event, t: ScanType)
    requires Dated(r) && (e.EndTask? ==> !Enabled(r, e))
    ensures FinishedOf(Step(r, e).jobs, t) == FinishedOf(r.jobs, t) && Step(r, e).history == r.history
    ensures forall id :: id in FinishedOf(r.jobs, t) ==> Step(r, e).jobs[id] == r.jobs[id]
  {
  }

  lemma StepKeepsTheNewest(r: Registry, e: Event, t: ScanType)
    requires Dated(r) && KeepsTheNewest(r, t)
    ensures KeepsTheNewest(Step(r, e), t)
  {
    if e.EndTask? && Enabled(r, e) {
      EndTaskKeepsTheNewest(r, t, e.id, e.outcome, e.now);
    } else {
      OtherStepsFinishNothing(r, e, t);
      SameFinished(r.jobs, Step(r, e).jobs, t, FirstFive(OfType(r.history, t)));
    }
  }

  /** In every reachable registry the finished jobs of a type are exactly its five most recently completed ones. */
  lemma {:induction false} KeptAreTheFiveNewest(events: seq<Event>, n: nat, t: ScanType)
    requires n <= |events|
    ensures Dated(Run(events, n)) && KeepsTheNewest(Run(events, n), t)
  {
    if n > 0 {
      KeptAreTheFiveNewest(events, n - 1, t);
      StepDated(Run(events, n - 1), events[n - 1]);
      StepKeepsTheNewest(Run(events, n - 1), events[n - 1], t);
    }
  }

  // ---- Running jobs ----------------------------------------------------------------------

  lemma SubsetSize(a: set<Id>, b: set<Id>)
    requires a <= b
    ensures |a| <= |b|
  {
    assert b == a + (b - a);
  }

  lemma StepRunning(r: Registry, e: Event, t: ScanType)
    ensures RunningOf(Step(r, e).jobs, t) <= RunningOf(r.jobs, t) +
            (if e.StartJob? && e.scanType == t && MayStart(r.jobs, t, e.device, e.allowConcurrent) then {e.id} else {})
  {
  }

  /** At most three jobs of a type run in any reachable registry. */
  lemma {:induction false} AtMostThreeRun(events: seq<Event>, n: nat, t: ScanType)
    requires n <= |events|
    ensures |RunningOf(Run(events, n).jobs, t)| <= 3
  {
    if n > 0 {
      var r, e := Run(events, n - 1), events[n - 1];
      AtMostThreeRun(events, n - 1, t);
      StepRunning(r, e, t);
      var more := if e.StartJob? && e.scanType == t && MayStart(r.jobs, t, e.device, e.allowConcurrent) then {e.id} else {};
      SubsetSize(RunningOf(Step(r, e).jobs, t), RunningOf(r.jobs, t) + more);
    }
  }

  ghost predicate OnePerDevice(jobs: Jobs) {
    forall a, b :: (a in jobs && b in jobs && jobs[a].status.Running? && jobs[b].status.Running?
                    && jobs[a].scanType == jobs[b].scanType && jobs[a].device == jobs[b].device) ==> a == b
  }

  lemma StepOnePerDevice(r: Registry, e: Event)
    requires OnePerDevice(r.jobs) && (e.StartJob? ==> !e.allowConcurrent)
    ensures OnePerDevice(Step(r, e).jobs)
  {
    if e.StartJob? && Enabled(r, e) && MayStart(r.jobs, e.scanType, e.device, false) {
      forall a | a in r.jobs && r.jobs[a].status.Running? && r.jobs[a].scanType == e.scanType
        ensures r.jobs[a].device != e.device
      {
        assert a !in RunningOn(r.jobs, e.scanType, e.device);
      }
    }
  }

  /** Unless a caller asked for concurrent jobs, no device runs two jobs of one type. */
  lemma {:induction false} AtMostOnePerDevice(events: seq<Event>, n: nat)
    requires n <= |events| && forall i :: 0 <= i < n && events[i].StartJob? ==> !events[i].allowConcurrent
    ensures OnePerDevice(Run(events, n).jobs)
  {
    if n > 0 {
      AtMostOnePerDevice(events, n - 1);
      StepOnePerDevice(Run(events, n - 1), events[n - 1]);
    }
  }

  /** A running job is never evicted: it stays until its own task ends. */
  lemma RunningIsNeverEvicted(r: Registry, e: Event, id: Id)
    requires id in r.jobs && r.jobs[id].status.Running? && Dated(r)
    ensures id in Step(r, e).jobs
    ensures Step(r, e).jobs[id].status.Running? || (e.EndTask? && e.id == id)
  {
    if e.EndTask? && Enabled(r, e) && e.id == id {
      var jobs' := r.jobs[id := r.jobs[id].(status := e.outcome, completionTime := e.now)];
      assert Newer(jobs', r.jobs[id].scanType, id) == {};
    }
  }

  // ---- A job cancelled before its first step ---------------------------------------------

  lemma StepKeepsDoomed(r: Registry, e: Event, id: Id)
    requires Dated(r) && id in r.jobs && r.jobs[id].status.Running? && r.jobs[id].phase.Doomed?
    ensures id in Step(r, e).jobs && Step(r, e).jobs[id] == r.jobs[id]
  {
  }

  /** It is reported as running for ever. */
  lemma {:induction false} DoomedRunsForEver(events: seq<Event>, m: nat, n: nat, id: Id)
    requires m <= n <= |events|
    requires id in Run(events, m).jobs && Run(events, m).jobs[id].status.Running? && Run(events, m).jobs[id].phase.Doomed?
    ensures id in Run(events, n).jobs && Run(events, n).jobs[id] == Run(events, m).jobs[id]
  {
    if n > m {
      DoomedRunsForEver(events, m, n - 1, id);
      KeptAreTheFiveNewest(events, n - 1, AGroup);
      StepKeepsDoomed(Run(events, n - 1), events[n - 1], id);
    }
  }

  ghost function DoomedOf(jobs: Jobs, t: ScanType): set<Id> {
    set id | id in RunningOf(jobs, t) && jobs[id].phase.Doomed?
  }
}
