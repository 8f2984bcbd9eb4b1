/** class JobManager: the registry changed in place (scan_job_manager.py:284-393). */
module JobManagerClass {
  import opened Common
  import opened JobRegistry

  /** No two finished jobs of the type completed at the same instant. */
  ghost predicate DistinctTimes(jobs: Jobs, t: ScanType) {
    forall a, b :: a in FinishedOf(jobs, t) && b in FinishedOf(jobs, t) && a != b ==>
                     jobs[a].completionTime != jobs[b].completionTime
  }

  /** Identifiers in order of completion, newest first; equal times in any order. */
  ghost predicate Descending(jobs: Jobs, ids: seq<Id>) {
    && (forall i :: 0 <= i < |ids| ==> ids[i] in jobs)
    && (forall i, j :: 0 <= i < j < |ids| ==> ids[i] != ids[j] && jobs[ids[i]].completionTime >= jobs[ids[j]].completionTime)
  }

  /** One more job in a descending list, behind those that completed no earlier. */
  function Inserted(jobs: Jobs, ids: seq<Id>, id: Id): seq<Id>
    requires id in jobs && forall k :: k in ids ==> k in jobs
  {
    if ids == [] || jobs[ids[|ids| - 1]].completionTime >= jobs[id].completionTime then ids + [id]
    else Inserted(jobs, ids[..|ids| - 1], id) + [ids[|ids| - 1]]
  }

  lemma {:induction false} InsertedElements(jobs: Jobs, ids: seq<Id>, id: Id)
    requires id in jobs && forall k :: k in ids ==> k in jobs
    ensures forall k :: k in Inserted(jobs, ids, id) <==> k in ids || k == id
  {
    if ids != [] && jobs[ids[|ids| - 1]].completionTime < jobs[id].completionTime {
      InsertedElements(jobs, ids[..|ids| - 1], id);
      assert ids == ids[..|ids| - 1] + [ids[|ids| - 1]];
    }
  }

  lemma {:induction false} InsertedDescends(jobs: Jobs, ids: seq<Id>, id: Id)
    requires Descending(jobs, ids) && id in jobs && id !in ids
    ensures Descending(jobs, Inserted(jobs, ids, id))
  {
    if ids != [] && jobs[ids[|ids| - 1]].completionTime < jobs[id].completionTime {
      var front, last := ids[..|ids| - 1], ids[|ids| - 1];
      InsertedDescends(jobs, front, id);
      InsertedElements(jobs, front, id);
      AppendDescends(jobs, Inserted(jobs, front, id), last);
    } else if ids != [] {
      AppendDescends(jobs, ids, id);
    }
  }

  lemma AppendDescends(jobs: Jobs, ids: seq<Id>, last: Id)
    requires Descending(jobs, ids) && last in jobs && last !in ids
    requires forall k :: k in ids ==> k in jobs && jobs[k].completionTime >= jobs[last].completionTime
    ensures Descending(jobs, ids + [last])
  {
  }

  /** The finished jobs of a type, sorted by completion time, newest first. */
  method SortFinished(jobs: Jobs, t: ScanType) returns (ids: seq<Id>)
    ensures Descending(jobs, ids) && SetOf(ids) == FinishedOf(jobs, t)
  {
    ids := [];
    var left := jobs.Keys;
    while left != {}
      invariant left <= jobs.Keys && Descending(jobs, ids)
      invariant SetOf(ids) == FinishedOf(jobs, t) - left
    {
      var id :| id in left;
      left := left - {id};
      if jobs[id].scanType == t && !jobs[id].status.Running? {
        assert id !in SetOf(ids);
        InsertedElements(jobs, ids, id);
        InsertedDescends(jobs, ids, id);
        ghost var before := ids;
        ids := Inserted(jobs, ids, id);
        assert SetOf(ids) == SetOf(before) + {id};
      }
    }
  }

  lemma SortedIsNewestFirst(jobs: Jobs, t: ScanType, ids: seq<Id>)
    requires Descending(jobs, ids) && SetOf(ids) == FinishedOf(jobs, t) && DistinctTimes(jobs, t)
    ensures NewestFirst(jobs, t, ids)
  {
    forall id
      ensures id in ids <==> id in SetOf(ids)
    {
    }
    forall i, j | 0 <= i < j < |ids|
      ensures jobs[ids[i]].completionTime > jobs[ids[j]].completionTime
    {
      assert ids[i] in SetOf(ids) && ids[j] in SetOf(ids);
    }
  }

  class JobManager {
    var jobs: Jobs

    constructor ()
      ensures jobs == map[]
    {
      jobs := map[];
    }

    /** A start is either refused, changing nothing, or adds one running job. */
    method StartJob(id: Id, t: ScanType, device: Option<int>, allowConcurrent: bool) returns (error: Option<StartError>)
      requires id !in jobs
      modifies this
      ensures error.None? <==> MayStart(old(jobs), t, device, allowConcurrent)
      ensures error.None? <==> (allowConcurrent || RunningOn(old(jobs), t, device) == {}) && |RunningOf(old(jobs), t)| < 3
      ensures jobs == if error.None? then old(jobs)[id := NewJob(t, device)] else old(jobs)
      ensures error.Some? && error.value.AlreadyRunning? ==>
                !allowConcurrent && error.value.jobId in RunningOn(jobs, t, device)
      ensures error.Some? && error.value.TooMany? ==> |RunningOf(jobs, t)| >= 3
    {
      var running := set k | k in jobs && jobs[k].scanType == t && jobs[k].status.Running?;
      assert running == RunningOf(jobs, t);
      if !allowConcurrent {
        var same := set k | k in running && jobs[k].device == device;
        assert same == RunningOn(jobs, t, device);
        if same != {} {
          var k :| k in same;
          return Some(AlreadyRunning(k));
        }
      }
      if |running| >= MAX_RUNNING {
        return Some(TooMany);
      }
      jobs := jobs[id := NewJob(t, device)];
      error := None;
    }

    /** Delete everything behind the fifth finished job of the type. */
    method EvictOld(t: ScanType)
      modifies this
      ensures DistinctTimes(old(jobs), t) ==> jobs == Evicted(old(jobs), t)
      ensures forall id :: id in old(jobs) && id !in FinishedOf(old(jobs), t) ==> id in jobs
      ensures forall id :: id in jobs ==> id in old(jobs) && jobs[id] == old(jobs)[id]
      ensures |FinishedOf(jobs, t)| <= 5
    {
      var finished := SortFinished(jobs, t);
      ghost var before := jobs;
      var i := MAX_FINISHED;
      while i < |finished|
        invariant MAX_FINISHED <= i && (|finished| <= MAX_FINISHED || i <= |finished|)
        invariant jobs == Without(before, finished, i)
      {
        jobs := jobs - {finished[i]};
        i := i + 1;
      }
      WithoutIsEvicted(before, t, finished, i);
    }

    /** The task of a job ends. */
    method EndTask(id: Id, outcome: Status, now: int)
      requires id in jobs && !outcome.Running?
      modifies this
      ensures DistinctTimes(old(jobs)[id := old(jobs)[id].(status := outcome, completionTime := now)], old(jobs)[id].scanType)
              ==> jobs == Finish(old(jobs), id, outcome, now)
      ensures |FinishedOf(jobs, old(jobs)[id].scanType)| <= MAX_FINISHED
    {
      var t := jobs[id].scanType;
      jobs := jobs[id := jobs[id].(status := outcome, completionTime := now)];
      EvictOld(t);
    }

    /** Another device's job is treated as if it did not exist. */
    method CancelJob(id: Id, device: Option<int>) returns (accepted: bool)
      modifies this
      ensures accepted <==> id in old(jobs) && old(jobs)[id].status.Running? && (device.Some? ==> old(jobs)[id].device == device)
      ensures jobs == if accepted then Cancel(old(jobs), id) else old(jobs)
    {
      accepted := false;
      if id in jobs && (device.None? || jobs[id].device == device) && jobs[id].status.Running? {
        jobs := Cancel(jobs, id);
        accepted := true;
      }
    }
  }

  /** The registry without entries five to `i` of the list. */
  ghost function Without(jobs: Jobs, ids: seq<Id>, i: nat): Jobs {
    map id | id in jobs && !(exists k :: MAX_FINISHED <= k < i && k < |ids| && ids[k] == id) :: jobs[id]
  }

  lemma FewFinished(jobs: Jobs, t: ScanType, ids: seq<Id>, i: nat)
    requires Descending(jobs, ids) && SetOf(ids) == FinishedOf(jobs, t) && i >= |ids|
    ensures |FinishedOf(Without(jobs, ids, i), t)| <= MAX_FINISHED
  {
    var five := FirstFive(ids);
    SetOfSize(five);
    forall id | id in FinishedOf(Without(jobs, ids, i), t)
      ensures id in SetOf(five)
    {
      assert id in SetOf(ids);
      var k :| 0 <= k < |ids| && ids[k] == id;
      assert five[k] == id;
    }
    SubsetSize(FinishedOf(Without(jobs, ids, i), t), SetOf(five));
  }

  lemma WithoutIsEvicted(jobs: Jobs, t: ScanType, ids: seq<Id>, i: nat)
    requires Descending(jobs, ids) && SetOf(ids) == FinishedOf(jobs, t) && i >= |ids|
    ensures DistinctTimes(jobs, t) ==> Without(jobs, ids, i) == Evicted(jobs, t)
    ensures forall id :: id in jobs && id !in FinishedOf(jobs, t) ==> id in Without(jobs, ids, i)
    ensures |FinishedOf(Without(jobs, ids, i), t)| <= MAX_FINISHED
  {
    FewFinished(jobs, t, ids, i);
    forall id | id in jobs && id !in FinishedOf(jobs, t)
      ensures id in Without(jobs, ids, i)
    {
      assert id !in SetOf(ids);
    }
    if DistinctTimes(jobs, t) {
      SortedIsNewestFirst(jobs, t, ids);
      forall id | id in FinishedOf(jobs, t)
        ensures id in Evicted(jobs, t) <==> id in Without(jobs, ids, i)
      {
        assert id in SetOf(ids);
        var k :| 0 <= k < |ids| && ids[k] == id;
        RankIsPosition(jobs, t, ids, k);
        assert id in Without(jobs, ids, i) <==> k < MAX_FINISHED;
      }
    }
  }

  /** In a reachable registry completion times differ, also with the job that ends next: the class does what the
      steps say. */
  lemma ReachableTimesDiffer(events: seq<Event>, n: nat, id: Id, outcome: Status, now: int)
    requires n <= |events| && Enabled(Run(events, n), EndTask(id, outcome, now))
    ensures var jobs := Run(events, n).jobs;
            DistinctTimes(jobs[id := jobs[id].(status := outcome, completionTime := now)], jobs[id].scanType)
  {
    var r := Run(events, n);
    var t := r.jobs[id].scanType;
    var jobs' := r.jobs[id := r.jobs[id].(status := outcome, completionTime := now)];
    KeptAreTheFiveNewest(events, n, t);
    var ids := FirstFive(OfType(r.history, t));
    FinishListed(r.jobs, t, ids, id, outcome, now);
    NewestFirstIsDistinct(jobs', t, [id] + ids);
  }

  lemma NewestFirstIsDistinct(jobs: Jobs, t: ScanType, ids: seq<Id>)
    requires NewestFirst(jobs, t, ids)
    ensures DistinctTimes(jobs, t)
  {
    forall a, b | a in FinishedOf(jobs, t) && b in FinishedOf(jobs, t) && a != b
      ensures jobs[a].completionTime != jobs[b].completionTime
    {
      assert a in ids && b in ids;
      var i, j :| 0 <= i < |ids| && 0 <= j < |ids| && ids[i] == a && ids[j] == b;
    }
  }
}
