/** The object that keeps the queue, in the source's form: its dictionaries are updated in place, and the background
    flush is cut where it awaits the workbook (scan_sync.py:93-163). */
module SheetSyncService {
  import opened SheetSync

  /** How one request ends. A lost answer may come from a write that took effect. */
  datatype Outcome = Written | LostBefore | LostAfter

  class ScanSheetSync {
    var rowByKey: map<Key, nat>
    var values: map<nat, Cells>
    var dirty: set<nat>
    var nextRow: nat
    var awake: bool
    // what the suspended flush holds in its local variables
    var writing: bool
    var run: seq<nat>
    var sent: seq<Cells>
    var rest: seq<seq<nat>>
    // the workbook, and all that happened so far
    ghost var applied: bool
    ghost var sheet: map<nat, Cells>
    ghost var history: seq<Event>
    ghost var worlds: seq<World>

    function Value(): Queue
      reads this
    {
      Queue(rowByKey, values, dirty, nextRow)
    }

    ghost function Contents(): World
      reads this
    {
      World(Value(), if writing then Writing(run, sent, applied, rest) else Idle, sheet)
    }

    /** The object is where a run of its history leads. */
    ghost predicate Valid()
      reads this
    {
      Run(history, worlds) && worlds[|history|] == Contents()
    }

    /** No row was ever queued again while its own write was in flight. */
    ghost predicate NeverDisturbed()
      requires Valid()
      reads this
    {
      forall i :: 0 <= i < |history| ==> Undisturbed(worlds[i], history[i])
    }

    constructor ()
      ensures Valid() && history == [] && !writing && dirty == {} && nextRow == 2
    {
      rowByKey, values, dirty, nextRow, awake := map[], map[], {}, FIRST_ROW, false;
      writing, run, sent, rest := false, [], [], [];
      applied, sheet, history, worlds := false, map[], [], [START];
    }

    /** Note the event that led here. */
    ghost method Record(e: Event)
      requires Run(history, worlds) && Enabled(worlds[|history|], e) && Contents() == Next(worlds[|history|], e)
      modifies this`history, this`worlds
      ensures Valid() && history == old(history) + [e] && worlds == old(worlds) + [Contents()]
    {
      RunGrows(history, worlds, e);
      history, worlds := history + [e], worlds + [Contents()];
    }

    /** Called by the scanner's hooks; never waits. Rows stay where they are, and for every key the queue holds what it
        was last given. */
    method Enqueue(rows: seq<(Key, Cells)>)
      requires Valid()
      modifies this
      ensures Valid() && history == old(history) + [SheetSync.Enqueue(rows)] && awake
      ensures RowsKept(old(Value()), Value()) && QueueOk(Value())
      ensures forall key :: Held(Value(), key) == Latest(history, |history|, key)
    {
      Mark(rows);
      awake := true;
      Record(SheetSync.Enqueue(rows));
      LastIsKept(history, worlds);
      AllHeld(history, worlds);
    }

    /** The loop over the rows. */
    method Mark(rows: seq<(Key, Cells)>)
      modifies this`rowByKey, this`values, this`dirty, this`nextRow
      ensures Value() == PutAll(old(Value()), rows)
    {
      for i := 0 to |rows|
        invariant Value() == PutAll(old(Value()), rows[..i])
      {
        assert rows[..i + 1][..i] == rows[..i];
        var (key, cells) := rows[i];
        var row: nat;
        if key in rowByKey {
          row := rowByKey[key];
        } else {
          row := nextRow;
          nextRow := nextRow + 1;
          rowByKey := rowByKey[key := row];
        }
        values := values[row := cells];
        dirty := dirty + {row};
        assert Value() == Put(PutAll(old(Value()), rows[..i]), key, cells);
      }
      assert rows[..|rows|] == rows;
    }

    /** Turn to the first of these batches: the request carries the cells its rows have now. */
    method Send(runs: seq<seq<nat>>)
      requires AllHaveCells(Value(), runs)
      modifies this`writing, this`run, this`sent, this`rest, this`applied
      ensures Contents() == old(Contents()).(flusher := Begin(Value(), runs))
      ensures writing <==> runs != []
    {
      writing := runs != [];
      if writing {
        run, rest := runs[0], runs[1..];
        applied := false;
        sent := seq(|run|, k requires 0 <= k < |run| && run[k] in values reads this => values[run[k]]);
        assert sent == CellsOf(Value(), run);
      }
    }

    /** The flush begins: it is about to write a block of consecutive marked rows with their latest cells, and every
        marked row is in that block or in a batch behind it. */
    method StartFlush()
      requires Valid() && !writing && dirty != {}
      modifies this
      ensures Valid() && history == old(history) + [SheetSync.StartFlush] && Value() == old(Value())
      ensures writing && !applied && 0 < |run| <= 200 && Contiguous(run) && |sent| == |run|
      ensures forall k :: 0 <= k < |run| ==> run[k] in dirty && run[k] in values && sent[k] == values[run[k]]
      ensures Covered(Contents())
    {
      ghost var before := Contents();
      RunKeeps(history, worlds, |history|);
      StartMeans(before);
      var runs := Batch(Sorted(dirty));
      Send(runs);
      Record(SheetSync.StartFlush);
    }

    /** The workbook carries the request out; the object does not learn of it yet. */
    ghost method TakesEffect()
      requires Valid() && writing && !applied
      modifies this`applied, this`sheet, this`history, this`worlds
      ensures Valid() && history == old(history) + [TakeEffect] && applied
    {
      RunKeeps(history, worlds, |history|);
      sheet := WriteBlock(sheet, run[0], sent);
      applied := true;
      Record(TakeEffect);
    }

    method Unmark()
      requires writing
      modifies this`dirty
      ensures Contents() == old(Contents()).(queue := WithoutMarks(old(Value()), run))
      ensures dirty == old(dirty - set r | r in run)
    {
      dirty := dirty - set r | r in run;
    }

    /** A good answer: the marks of the request go. If all unmarked rows were current, they still are exactly when no
        row of the request was given other cells meanwhile. */
    method OnWritten()
      requires Valid() && writing && applied
      modifies this
      ensures Valid() && history == old(history) + [Succeed]
      ensures values == old(values) && rowByKey == old(rowByKey) && dirty == old(dirty - set r | r in run)
      ensures InFlightShape(old(Contents())) && (CleanRowsCurrent(old(Contents())) ==>
                (CleanRowsCurrent(Contents()) <==> StillCurrent(old(Contents()))))
      ensures writing <==> old(rest) != []
      ensures writing ==> !applied && rest == old(rest)[1..]
    {
      ghost var before := Contents();
      RunKeeps(history, worlds, |history|);
      WrittenMeans(before);
      Unmark();
      Send(rest);
      Record(Succeed);
    }

    /** A fault, before or after the write took effect: nothing is unmarked, so the same rows go out again. */
    method OnFailed()
      requires Valid() && writing
      modifies this
      ensures Valid() && history == old(history) + [Fail] && !writing
      ensures Value() == old(Value()) && old(run) != [] && old(run[0]) in dirty
    {
      RunKeeps(history, worlds, |history|);
      assert run[0] in run;
      writing := false;
      Record(Fail);
    }

    /** One request of a flush. */
    method WriteOne(outcome: Outcome) returns (ok: bool)
      requires Valid() && writing && !applied
      modifies this
      ensures Valid() && values == old(values) && rowByKey == old(rowByKey) && ok == outcome.Written?
      ensures ok ==> history == old(history) + [TakeEffect] + [Succeed]
      ensures ok && writing ==> !applied && |rest| < old(|rest|)
      ensures !ok ==> !writing && dirty != {}
    {
      if !outcome.LostBefore? {
        TakesEffect();
      }
      ok := outcome.Written?;
      if ok {
        OnWritten();
      } else {
        OnFailed();
      }
    }

    /** One whole flush while nothing is queued. Without a fault it leaves nothing marked, and unless a row was ever
        queued again in flight the sheet then holds one row per key, each with its latest cells. A fault ends it and
        leaves something marked. */
    method Flush(outcomes: seq<Outcome>) returns (done: bool)
      requires Valid() && !writing && dirty != {}
      modifies this
      ensures Valid() && !writing && values == old(values) && rowByKey == old(rowByKey)
      ensures done <==> dirty == {}
      ensures done && NeverDisturbed() ==> sheet == values && QueueOk(Value())
      ensures (forall o :: o in outcomes ==> o.Written?) ==> done
    {
      ghost var start := |history|;
      StartFlush();
      var k := 0;
      done := true;
      while writing && done
        invariant Valid() && values == old(values) && rowByKey == old(rowByKey)
        invariant done ==> QuietFlush(history, start, |history|) && (writing ==> !applied)
        invariant !done ==> !writing && dirty != {} && !(forall o :: o in outcomes ==> o.Written?)
        decreases writing, |rest|
      {
        ghost var before := history;
        var outcome := if k < |outcomes| then outcomes[k] else Written;
        done := WriteOne(outcome);
        k := k + 1;
        if done {
          QuietGrows(before, start);
        }
      }
      if done {
        FlushEnds(history, worlds, start);
      }
    }
  }

  lemma QuietGrows(events: seq<Event>, start: nat)
    requires QuietFlush(events, start, |events|)
    ensures QuietFlush(events + [TakeEffect] + [Succeed], start, |events| + 2)
  {
  }

  /** A flush without faults that has come to its end. */
  lemma FlushEnds(events: seq<Event>, worlds: seq<World>, start: nat)
    requires Run(events, worlds) && QuietFlush(events, start, |events|) && worlds[|events|].flusher.Idle?
    ensures var w := worlds[|events|];
            && w.queue.dirty == {}
            && ((forall i :: 0 <= i < |events| ==> Undisturbed(worlds[i], events[i])) ==> w.sheet == w.queue.values && QueueOk(w.queue))
  {
    QuietFlushCovers(events, worlds, start, |events|);
    assert forall r :: r in worlds[|events|].queue.dirty ==> Pending(worlds[|events|].flusher, r);
    if forall i :: 0 <= i < |events| ==> Undisturbed(worlds[i], events[i]) {
      FinalFlush(events, worlds, start, |events|);
    }
  }

  lemma RunGrows(events: seq<Event>, worlds: seq<World>, e: Event)
    requires Run(events, worlds) && Enabled(worlds[|events|], e)
    ensures Run(events + [e], worlds + [Next(worlds[|events|], e)])
  {
    var events', worlds' := events + [e], worlds + [Next(worlds[|events|], e)];
    assert Moves(worlds[|events|], e, worlds'[|events| + 1]);
    hide Moves, Next, Enabled;
    forall i, j | 0 <= i < |events'| && j == i + 1
      ensures Moves(worlds'[i], events'[i], worlds'[j])
    {
      if i < |events| {
        StepAt(events, worlds, i);
      }
    }
  }

  lemma LastIsKept(events: seq<Event>, worlds: seq<World>)
    requires Run(events, worlds) && events != []
    ensures RowsKept(worlds[|events| - 1].queue, worlds[|events|].queue) && QueueOk(worlds[|events|].queue)
  {
    RunStep(events, worlds, |events| - 1);
  }

  lemma AllHeld(events: seq<Event>, worlds: seq<World>)
    requires Run(events, worlds)
    ensures forall key :: Held(worlds[|events|].queue, key) == Latest(events, |events|, key)
  {
    forall key
      ensures Held(worlds[|events|].queue, key) == Latest(events, |events|, key)
    {
      QueueHoldsLatest(events, worlds, |events|, key);
    }
  }

  ghost predicate AllHaveCells(q: Queue, runs: seq<seq<nat>>) {
    forall k, r :: 0 <= k < |runs| && r in runs[k] ==> r in q.values
  }

  /** The request in flight carries the latest cells of a block of marked rows. */
  ghost predicate Sends(w: World) {
    && w.flusher.Writing? && !w.flusher.applied && GoodRun(w.flusher.run) && |w.flusher.sent| == |w.flusher.run|
    && forall k :: 0 <= k < |w.flusher.run| ==>
                     var r := w.flusher.run[k]; r in w.queue.dirty && r in w.queue.values && w.flusher.sent[k] == w.queue.values[r]
  }

  lemma StartMeans(w: World)
    requires Inv(w) && Enabled(w, SheetSync.StartFlush)
    ensures var next, runs := Next(w, SheetSync.StartFlush), Batched(Sorted(w.queue.dirty));
            && AllHaveCells(w.queue, runs) && Covered(next) && next == w.(flusher := Begin(w.queue, runs)) && Sends(next)
  {
    var next, runs := Next(w, SheetSync.StartFlush), Batched(Sorted(w.queue.dirty));
    StartKeeps(w);
    StartCovers(w);
    SortedRunsAreMarked(w.queue);
    var r :| r in w.queue.dirty;
    assert Pending(next.flusher, r);
    var all := [next.flusher.run] + next.flusher.rest;
    assert all[0] == next.flusher.run;
    forall k | 0 <= k < |next.flusher.run|
      ensures next.flusher.run[k] in w.queue.dirty
    {
      assert next.flusher.run[k] in next.flusher.run;
    }
  }

  ghost function WithoutMarks(q: Queue, run: seq<nat>): Queue {
    q.(dirty := q.dirty - set r | r in run)
  }

  lemma WrittenMeans(w: World)
    requires Inv(w) && Enabled(w, Succeed)
    ensures var next := Next(w, Succeed);
            && next == w.(queue := WithoutMarks(w.queue, w.flusher.run), flusher := Begin(next.queue, w.flusher.rest))
            && AllHaveCells(next.queue, w.flusher.rest)
            && (CleanRowsCurrent(w) ==> (CleanRowsCurrent(next) <==> StillCurrent(w)))
  {
    SucceedKeeps(w);
    RestIsMarked(w);
    if CleanRowsCurrent(w) {
      SucceedCleanIff(w);
    }
  }

  lemma SortedRunsAreMarked(q: Queue)
    requires QueueOk(q)
    ensures AllHaveCells(q, Batched(Sorted(q.dirty)))
  {
    var runs := Batched(Sorted(q.dirty));
    forall k, r | 0 <= k < |runs| && r in runs[k]
      ensures r in q.values
    {
      InFlatten(runs, k, r);
    }
  }

  lemma RestIsMarked(w: World)
    requires Inv(w) && w.flusher.Writing?
    ensures AllHaveCells(w.queue, w.flusher.rest)
  {
    var all := [w.flusher.run] + w.flusher.rest;
    assert forall k :: 0 <= k < |w.flusher.rest| ==> w.flusher.rest[k] == all[k + 1];
  }
}
