/** Which cancelled jobs ever end, and which types stay blocked: a task cancelled before its first step never enters
    its own code (scan_job_manager.py:335-351, 386-393). */
module JobLiveness {
  import opened Common
  import opened JobRegistry

  // ---- Read off the events ---------------------------------------------------------------

  predicate Starts(e: Event, id: Id) { e.StartJob? && e.id == id }

  predicate Touches(e: Event, id: Id) { e == BeginTask(id) || e == CancelJob(id) }

  /** The identifier was first drawn by event `s`, and no later event up to `n` lets the task step or cancels it. */
  ghost predicate Untouched(events: seq<Event>, n: nat, id: Id, s: nat) {
    && s < n <= |events| && Starts(events[s], id)
    && (forall j :: 0 <= j < s ==> !Starts(events[j], id))
    && (forall j :: s < j < n ==> !Touches(events[j], id))
  }

  /** After its start the job is first heard of in event `k`. */
  ghost predicate FirstTouch(events: seq<Event>, n: nat, id: Id, s: nat, k: nat) {
    k < n <= |events| && Untouched(events, k, id, s) && Touches(events[k], id)
  }

  ghost predicate NeverTouched(events: seq<Event>, n: nat, id: Id) {
    exists s: nat :: Untouched(events, n, id, s)
  }

  ghost predicate FirstIs(events: seq<Event>, n: nat, id: Id, e: Event) {
    exists s: nat, k: nat :: FirstTouch(events, n, id, s, k) && events[k] == e
  }

  /** The job was cancelled before its task took a step. */
  ghost predicate CancelledFirst(events: seq<Event>, n: nat, id: Id) {
    FirstIs(events, n, id, CancelJob(id))
  }

  lemma FirstTouchIsOne(events: seq<Event>, n: nat, id: Id, s: nat, k: nat, s': nat, k': nat)
    requires FirstTouch(events, n, id, s, k) && FirstTouch(events, n, id, s', k')
    ensures s == s' && k == k'
  {
  }

  lemma TouchedWasTouched(events: seq<Event>, n: nat, id: Id, s: nat, k: nat)
    requires FirstTouch(events, n, id, s, k)
    ensures !NeverTouched(events, n, id)
  {
    forall s': nat
      ensures !Untouched(events, n, id, s')
    {
    }
  }

  ghost predicate Drawn(events: seq<Event>, n: nat, id: Id)
    requires n <= |events|
  {
    exists s :: 0 <= s < n && Starts(events[s], id)
  }

  ghost predicate Tells(events: seq<Event>, n: nat, id: Id, phase: Phase) {
    match phase
    case Scheduled => NeverTouched(events, n, id)
    case Doomed => FirstIs(events, n, id, CancelJob(id))
    case Begun => FirstIs(events, n, id, BeginTask(id))
  }

  // ---- The phase is what the events tell -------------------------------------------------

  lemma {:induction false} UsedAreDrawn(events: seq<Event>, n: nat, id: Id)
    requires n <= |events|
    ensures id in Run(events, n).used <==> Drawn(events, n, id)
  {
    if n > 0 {
      UsedAreDrawn(events, n - 1, id);
      if Drawn(events, n, id) && !Drawn(events, n - 1, id) {
        assert Starts(events[n - 1], id);
      }
    }
  }

  lemma FirstIsLater(events: seq<Event>, n: nat, id: Id, e: Event)
    requires n < |events| && FirstIs(events, n, id, e)
    ensures FirstIs(events, n + 1, id, e)
  {
    var s: nat, k: nat :| FirstTouch(events, n, id, s, k) && events[k] == e;
    assert FirstTouch(events, n + 1, id, s, k);
  }

  lemma NeverTouchedLater(events: seq<Event>, n: nat, id: Id)
    requires n < |events| && NeverTouched(events, n, id)
    ensures if Touches(events[n], id) then FirstIs(events, n + 1, id, events[n]) else NeverTouched(events, n + 1, id)
  {
    var s: nat :| Untouched(events, n, id, s);
    if Touches(events[n], id) {
      assert FirstTouch(events, n + 1, id, s, n);
    } else {
      assert Untouched(events, n + 1, id, s);
    }
  }

  /** What one event does to the phase of a job that stays registered. */
  lemma StepPhase(r: Registry, e: Event, id: Id)
    requires Dated(r) && id in Step(r, e).jobs
    ensures if id !in r.jobs then Starts(e, id) && id !in r.used && Step(r, e).jobs[id].phase.Scheduled?
            else Step(r, e).jobs[id].phase ==
                 if !r.jobs[id].phase.Scheduled? || !Touches(e, id) then r.jobs[id].phase
                 else if e.CancelJob? then Doomed else Begun
  {
  }

  lemma {:induction false} PhaseIsTold(events: seq<Event>, n: nat, id: Id)
    requires n <= |events| && id in Run(events, n).jobs
    ensures Tells(events, n, id, Run(events, n).jobs[id].phase)
  {
    if n > 0 {
      var r, e := Run(events, n - 1), events[n - 1];
      KeptAreTheFiveNewest(events, n - 1, AGroup);
      StepPhase(r, e, id);
      if id !in r.jobs {
        UsedAreDrawn(events, n - 1, id);
        assert Untouched(events, n, id, n - 1);
      } else {
        PhaseIsTold(events, n - 1, id);
        if r.jobs[id].phase.Scheduled? {
          NeverTouchedLater(events, n - 1, id);
        } else {
          FirstIsLater(events, n - 1, id, if r.jobs[id].phase.Doomed? then CancelJob(id) else BeginTask(id));
        }
      }
    }
  }

  /** A registered job is doomed if and only if it was cancelled before its task took a step. */
  lemma DoomedIffCancelledFirst(events: seq<Event>, n: nat, id: Id)
    requires n <= |events| && id in Run(events, n).jobs
    ensures Run(events, n).jobs[id].phase.Doomed? <==> CancelledFirst(events, n, id)
  {
    PhaseIsTold(events, n, id);
    if CancelledFirst(events, n, id) {
      var s: nat, k: nat :| FirstTouch(events, n, id, s, k) && events[k] == CancelJob(id);
      TouchedWasTouched(events, n, id, s, k);
      if Run(events, n).jobs[id].phase.Begun? {
        var s': nat, k': nat :| FirstTouch(events, n, id, s', k') && events[k'] == BeginTask(id);
        FirstTouchIsOne(events, n, id, s, k, s', k');
      }
    }
  }

  // ---- Which jobs can end ----------------------------------------------------------------

  /** The registry after all the events. */
  ghost function After(events: seq<Event>): Registry { Run(events, |events|) }

  lemma {:induction false} RunOfLonger(events: seq<Event>, more: seq<Event>, n: nat)
    requires n <= |events|
    ensures Run(events + more, n) == Run(events, n)
  {
    if n > 0 {
      RunOfLonger(events, more, n - 1);
    }
  }

  lemma AfterOneMore(events: seq<Event>, e: Event)
    ensures After(events + [e]) == Step(After(events), e)
  {
    RunOfLonger(events, [e], |events|);
  }

  ghost predicate Runs(events: seq<Event>, id: Id) {
    id in After(events).jobs && After(events).jobs[id].status.Running?
  }

  ghost predicate EndsUnder(events: seq<Event>, more: seq<Event>, id: Id) {
    !Runs(events + more, id)
  }

  /** Ends one job whose task is not doomed. */
  function Ending(r: Registry, id: Id): seq<Event> {
    [BeginTask(id), EndTask(id, Cancelled, r.clock + 1)]
  }

  lemma AfterEnding(events: seq<Event>, id: Id)
    ensures After(events + Ending(After(events), id))
            == Step(Step(After(events), BeginTask(id)), EndTask(id, Cancelled, After(events).clock + 1))
  {
    var r := After(events);
    AfterOneMore(events, BeginTask(id));
    AfterOneMore(events + [BeginTask(id)], EndTask(id, Cancelled, r.clock + 1));
    assert events + Ending(r, id) == events + [BeginTask(id)] + [EndTask(id, Cancelled, r.clock + 1)];
  }

  lemma FinishStopsOne(jobs: Jobs, id: Id, outcome: Status, now: int, t: ScanType)
    requires id in jobs && !outcome.Running?
    ensures RunningOf(Finish(jobs, id, outcome, now), t) == RunningOf(jobs, t) - {id}
    ensures forall k :: k in RunningOf(jobs, t) && k != id ==> Finish(jobs, id, outcome, now)[k] == jobs[k]
  {
  }

  /** Afterwards it no longer runs; every other running job is as before. */
  lemma EndingEnds(events: seq<Event>, id: Id, t: ScanType)
    requires Runs(events, id) && !After(events).jobs[id].phase.Doomed?
    ensures var jobs, jobs' := After(events).jobs, After(events + Ending(After(events), id)).jobs;
            && RunningOf(jobs', t) == RunningOf(jobs, t) - {id}
            && forall k :: k in RunningOf(jobs', t) ==> jobs'[k] == jobs[k]
  {
    var r := After(events);
    AfterEnding(events, id);
    var begun := Step(r, BeginTask(id));
    assert RunningOf(begun.jobs, t) == RunningOf(r.jobs, t);
    FinishStopsOne(begun.jobs, id, Cancelled, r.clock + 1, t);
  }

  lemma EndingIsNoRun(events: seq<Event>, id: Id)
    requires Runs(events, id) && !After(events).jobs[id].phase.Doomed?
    ensures EndsUnder(events, Ending(After(events), id), id)
  {
    var t := After(events).jobs[id].scanType;
    EndingEnds(events, id, t);
    var jobs' := After(events + Ending(After(events), id)).jobs;
    assert id !in RunningOf(jobs', t);
    AfterEnding(events, id);
  }

  lemma DoomedRunsOn(events: seq<Event>, more: seq<Event>, id: Id)
    requires Runs(events, id) && After(events).jobs[id].phase.Doomed?
    ensures Runs(events + more, id) && After(events + more).jobs[id] == After(events).jobs[id]
  {
    RunOfLonger(events, more, |events|);
    DoomedRunsForEver(events + more, |events|, |events + more|, id);
  }

  /** A running job can still end, under some continuation, if and only if it was not cancelled before its task took
      a step; one that was is reported as running for ever. */
  lemma EndsIff(events: seq<Event>, id: Id)
    requires Runs(events, id)
    ensures (exists more: seq<Event> :: EndsUnder(events, more, id)) <==> !CancelledFirst(events, |events|, id)
  {
    DoomedIffCancelledFirst(events, |events|, id);
    if After(events).jobs[id].phase.Doomed? {
      forall more: seq<Event>
        ensures !EndsUnder(events, more, id)
      {
        DoomedRunsOn(events, more, id);
      }
    } else {
      EndingIsNoRun(events, id);
    }
  }

  // ---- Which types can start again -------------------------------------------------------

  /** The running jobs of a type that were cancelled before their first step. */
  ghost function Stuck(events: seq<Event>, t: ScanType): set<Id> {
    set id | id in RunningOf(After(events).jobs, t) && CancelledFirst(events, |events|, id)
  }

  lemma StuckAreDoomed(events: seq<Event>, t: ScanType)
    ensures Stuck(events, t) == DoomedOf(After(events).jobs, t)
  {
    forall id | id in RunningOf(After(events).jobs, t)
      ensures id in Stuck(events, t) <==> id in DoomedOf(After(events).jobs, t)
    {
      DoomedIffCancelledFirst(events, |events|, id);
    }
  }

  /** Some continuation ends every job of the type but the doomed ones. */
  lemma {:induction false} EndAllOthers(events: seq<Event>, t: ScanType, left: set<Id>) returns (more: seq<Event>)
    requires left == RunningOf(After(events).jobs, t) - DoomedOf(After(events).jobs, t)
    ensures var jobs, jobs' := After(events).jobs, After(events + more).jobs;
            && RunningOf(jobs', t) == DoomedOf(jobs, t)
            && forall k :: k in RunningOf(jobs', t) ==> jobs'[k] == jobs[k]
    decreases left
  {
    if left == {} {
      more := [];
      assert events + more == events;
      assert RunningOf(After(events).jobs, t) == DoomedOf(After(events).jobs, t) + left;
    } else {
      var id :| id in left;
      var first := Ending(After(events), id);
      EndingEnds(events, id, t);
      var jobs, mid := After(events).jobs, After(events + first).jobs;
      assert DoomedOf(mid, t) == DoomedOf(jobs, t);
      assert left - {id} == RunningOf(mid, t) - DoomedOf(mid, t);
      var rest := EndAllOthers(events + first, t, left - {id});
      more := first + rest;
      assert events + more == events + first + rest;
    }
  }

  ghost predicate StartsUnder(events: seq<Event>, more: seq<Event>, t: ScanType, device: Option<int>, allow: bool) {
    MayStart(After(events + more).jobs, t, device, allow)
  }

  /** No stuck job of this type belongs to the device. */
  ghost predicate DeviceFree(events: seq<Event>, t: ScanType, device: Option<int>) {
    forall id :: id in Stuck(events, t) ==> After(events).jobs[id].device != device
  }

  lemma StuckBlock(events: seq<Event>, more: seq<Event>, t: ScanType, device: Option<int>, allow: bool)
    requires StartsUnder(events, more, t, device, allow)
    ensures |Stuck(events, t)| < MAX_RUNNING && (allow || DeviceFree(events, t, device))
  {
    var jobs, jobs' := After(events).jobs, After(events + more).jobs;
    StuckAreDoomed(events, t);
    forall id | id in Stuck(events, t)
      ensures id in RunningOf(jobs', t) && jobs'[id] == jobs[id]
    {
      DoomedRunsOn(events, more, id);
    }
    SubsetSize(Stuck(events, t), RunningOf(jobs', t));
    if !allow {
      forall id | id in Stuck(events, t)
        ensures jobs[id].device != device
      {
        assert id !in RunningOn(jobs', t, device);
      }
    }
  }

  /** A job of this type can be started for this device at some later moment if and only if fewer than three jobs of
      the type are stuck and, unless concurrent jobs are allowed, none of those belongs to the device. */
  lemma StartsAgainIff(events: seq<Event>, t: ScanType, device: Option<int>, allow: bool)
    ensures (exists more: seq<Event> :: StartsUnder(events, more, t, device, allow))
            <==> |Stuck(events, t)| < 3 && (allow || DeviceFree(events, t, device))
  {
    if |Stuck(events, t)| < MAX_RUNNING && (allow || DeviceFree(events, t, device)) {
      var jobs := After(events).jobs;
      var more := EndAllOthers(events, t, RunningOf(jobs, t) - DoomedOf(jobs, t));
      StuckAreDoomed(events, t);
      assert allow || RunningOn(After(events + more).jobs, t, device) == {};
      assert StartsUnder(events, more, t, device, allow);
    }
    if more: seq<Event> :| StartsUnder(events, more, t, device, allow) {
      StuckBlock(events, more, t, device, allow);
    }
  }

  // ---- Runs that get there ---------------------------------------------------------------

  const CANCEL_AT_ONCE := [StartJob(0, AGroup, None, false), CancelJob(0)]

  /** Two events suffice for one such job. */
  lemma CancelledAtOnceRunsForEver(more: seq<Event>)
    ensures After(CANCEL_AT_ONCE).jobs == map[0 := Job(AGroup, None, Running, Doomed, 0)]
    ensures Runs(CANCEL_AT_ONCE + more, 0)
  {
    var events := CANCEL_AT_ONCE;
    var started := Run(events, 1);
    assert started == Step(Run(events, 0), events[0]);
    assert RunningOf(map[], AGroup) == {} && RunningOn(map[], AGroup, None) == {};
    assert started.jobs == map[0 := NewJob(AGroup, None)];
    assert Run(events, 2) == Step(started, events[1]);
    DoomedRunsOn(events, more, 0);
  }

  /** A start that is let in and cancelled before the task's first step. */
  function StartAndCancel(id: Id, t: ScanType): seq<Event> {
    [StartJob(id, t, Some(id), false), CancelJob(id)]
  }

  lemma OneMoreStuck(events: seq<Event>, id: Id, t: ScanType)
    requires id !in After(events).used && |RunningOf(After(events).jobs, t)| < MAX_RUNNING
    requires RunningOn(After(events).jobs, t, Some(id)) == {}
    ensures After(events + StartAndCancel(id, t))
            == var r := After(events); r.(jobs := r.jobs[id := NewJob(t, Some(id)).(phase := Doomed)], used := r.used + {id})
  {
    var r := After(events);
    AfterOneMore(events, StartJob(id, t, Some(id), false));
    AfterOneMore(events + [StartJob(id, t, Some(id), false)], CancelJob(id));
    assert events + StartAndCancel(id, t) == events + [StartJob(id, t, Some(id), false)] + [CancelJob(id)];
  }

  lemma NextStuck(events: seq<Event>, ids: set<Id>, id: Id, t: ScanType)
    requires After(events).used == ids && RunningOf(After(events).jobs, t) == DoomedOf(After(events).jobs, t) == ids
    requires id !in ids && |ids| < MAX_RUNNING && forall k :: k in ids ==> After(events).jobs[k].device != Some(id)
    ensures var r := After(events + StartAndCancel(id, t));
            && r.used == RunningOf(r.jobs, t) == DoomedOf(r.jobs, t) == ids + {id}
            && r.jobs[id].device == Some(id)
            && forall k :: k in ids ==> r.jobs[k].device == After(events).jobs[k].device
  {
    OneMoreStuck(events, id, t);
  }

  lemma FirstStuck(t: ScanType)
    ensures var r := After(StartAndCancel(0, t));
            && r.used == RunningOf(r.jobs, t) == DoomedOf(r.jobs, t) == {0}
            && r.jobs[0].device == Some(0)
  {
    assert [] + StartAndCancel(0, t) == StartAndCancel(0, t);
    assert After([]) == Registry(map[], {}, 0, []);
    NextStuck([], {}, 0, t);
  }

  lemma ThreeStuck(t: ScanType, one: seq<Event>, two: seq<Event>)
    requires one == StartAndCancel(0, t) && two == one + StartAndCancel(1, t)
    ensures |Stuck(two + StartAndCancel(2, t), t)| == 3
  {
    hide After, RunningOf, DoomedOf, Stuck;
    FirstStuck(t);
    NextStuck(one, {0}, 1, t);
    NextStuck(two, {0} + {1}, 2, t);
    StuckAreDoomed(two + StartAndCancel(2, t), t);
    assert {0} + {1} + {2} == {0, 1, 2};
  }

  /** Three devices that start and cancel at once: afterwards no device can ever start a job of the type. */
  lemma ThreeCancelledAtOnceBlockTheType(t: ScanType, more: seq<Event>, device: Option<int>, allow: bool)
    ensures var events := StartAndCancel(0, t) + StartAndCancel(1, t) + StartAndCancel(2, t);
            !MayStart(After(events + more).jobs, t, device, allow)
  {
    var events := StartAndCancel(0, t) + StartAndCancel(1, t) + StartAndCancel(2, t);
    ThreeStuck(t, StartAndCancel(0, t), StartAndCancel(0, t) + StartAndCancel(1, t));
    if StartsUnder(events, more, t, device, allow) {
      StuckBlock(events, more, t, device, allow);
    }
  }
}
