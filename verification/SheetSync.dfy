/** The worksheet sync of one scan (scan_sync.py): rows queued in memory by the scanner, flushed in
    contiguous batches by a background task whose writes may fail before or after taking effect. */
module SheetSync {
  import opened Common

  type Key = string
  type Cells = seq<string>

  const FIRST_ROW := 2  // row 1 holds the headers
  const MAX_ROWS_PER_REQUEST := 200

  // ---- The queue -------------------------------------------------------------------------

  datatype Queue = Queue(rowByKey: map<Key, nat>, values: map<nat, Cells>, dirty: set<nat>, nextRow: nat)

  const EMPTY_QUEUE := Queue(map[], map[], {}, FIRST_ROW)

  function Put(q: Queue, key: Key, cells: Cells): Queue {
    var row := if key in q.rowByKey then q.rowByKey[key] else q.nextRow;
    Queue(q.rowByKey[key := row],
          q.values[row := cells],
          q.dirty + {row},
          if key in q.rowByKey then q.nextRow else q.nextRow + 1)
  }

  function PutAll(q: Queue, rows: seq<(Key, Cells)>): Queue {
    if rows == [] then q else Put(PutAll(q, rows[..|rows| - 1]), rows[|rows| - 1].0, rows[|rows| - 1].1)
  }

  // ---- Batches ---------------------------------------------------------------------------

  /** Consecutive row numbers, in order. */
  predicate Contiguous(run: seq<nat>) {
    forall k :: 0 <= k < |run| ==> run[k] == run[0] + k
  }

  function Flatten(runs: seq<seq<nat>>): seq<nat> {
    if runs == [] then [] else Flatten(runs[..|runs| - 1]) + runs[|runs| - 1]
  }

  /** One more row: extend the last run when the row continues it and there is room. */
  function AddRow(runs: seq<seq<nat>>, row: nat): seq<seq<nat>>
    requires forall k :: 0 <= k < |runs| ==> |runs[k]| > 0
  {
    if runs != [] && row == runs[|runs| - 1][|runs[|runs| - 1]| - 1] + 1 && |runs[|runs| - 1]| < MAX_ROWS_PER_REQUEST then
      runs[..|runs| - 1] + [runs[|runs| - 1] + [row]]
    else runs + [[row]]
  }

  ghost predicate GoodRun(run: seq<nat>) {
    0 < |run| <= MAX_ROWS_PER_REQUEST && Contiguous(run)
  }

  ghost predicate GoodRuns(runs: seq<seq<nat>>) {
    forall k :: 0 <= k < |runs| ==> GoodRun(runs[k])
  }

  lemma FlattenAppend(runs: seq<seq<nat>>, run: seq<nat>)
    ensures Flatten(runs + [run]) == Flatten(runs) + run
  {
    assert (runs + [run])[..|runs|] == runs;
  }

  lemma AddRowFlattens(runs: seq<seq<nat>>, row: nat)
    requires forall k :: 0 <= k < |runs| ==> |runs[k]| > 0
    ensures Flatten(AddRow(runs, row)) == Flatten(runs) + [row]
  {
    if |AddRow(runs, row)| == |runs| {
      var front, last := runs[..|runs| - 1], runs[|runs| - 1];
      FlattenAppend(front, last);
      FlattenAppend(front, last + [row]);
      assert runs == front + [last];
    } else {
      FlattenAppend(runs, [row]);
    }
  }

  lemma RunAppend(run: seq<nat>, row: nat)
    requires GoodRun(run) && row == run[|run| - 1] + 1 && |run| < MAX_ROWS_PER_REQUEST
    ensures GoodRun(run + [row])
  {
  }

  lemma AddedRunGood(runs: seq<seq<nat>>, row: nat, k: nat)
    requires GoodRuns(runs) && k < |AddRow(runs, row)|
    ensures GoodRun(AddRow(runs, row)[k])
  {
    var next := AddRow(runs, row);
    if k < |next| - 1 {
      assert next[k] == runs[k];
    } else if |next| == |runs| {
      RunAppend(runs[k], row);
    } else {
      assert next[k] == [row];
    }
  }

  lemma AddRowGood(runs: seq<seq<nat>>, row: nat)
    requires GoodRuns(runs)
    ensures GoodRuns(AddRow(runs, row))
    ensures Flatten(AddRow(runs, row)) == Flatten(runs) + [row]
  {
    AddRowFlattens(runs, row);
    forall k | 0 <= k < |AddRow(runs, row)|
      ensures GoodRun(AddRow(runs, row)[k])
    {
      AddedRunGood(runs, row, k);
    }
  }

  function Batched(rows: seq<nat>): (runs: seq<seq<nat>>)
    ensures GoodRuns(runs)
    ensures Flatten(runs) == rows
  {
    if rows == [] then []
    else
      var before := Batched(rows[..|rows| - 1]);
      AddRowGood(before, rows[|rows| - 1]);
      AddRow(before, rows[|rows| - 1])
  }

  /** The loop of `_flush`. By the contract of `Batched`, batching loses no row, repeats none and never
      writes a row elsewhere: the batches are contiguous, bounded and flatten back to the list. */
  method Batch(rows: seq<nat>) returns (runs: seq<seq<nat>>)
    ensures runs == Batched(rows)
  {
    runs := [];
    for i := 0 to |rows|
      invariant runs == Batched(rows[..i])
    {
      assert rows[..i + 1][..i] == rows[..i];
      runs := AddRow(runs, rows[i]);
    }
    assert rows[..|rows|] == rows;
  }

  function Least(s: set<nat>): (m: nat)
    requires s != {}
    ensures m in s && forall x :: x in s ==> m <= x
  {
    assert exists m :: m in s && forall x :: x in s ==> m <= x by {
      var y :| y in s;
      LeastExists(s, y);
    }
    var m :| m in s && forall x :: x in s ==> m <= x;
    m
  }

  lemma {:induction false} LeastExists(s: set<nat>, y: nat)
    requires y in s
    ensures exists m :: m in s && forall x :: x in s ==> m <= x
  {
    if x :| x in s && x < y {
      LeastExists(s, x);
    }
  }

  function Sorted(s: set<nat>): (rows: seq<nat>)
    ensures forall r :: r in rows <==> r in s
    ensures forall j, k :: 0 <= j < k < |rows| ==> rows[j] < rows[k]
  {
    if s == {} then []
    else
      var m := Least(s);
      var rest := Sorted(s - {m});
      assert forall r :: r in [m] + rest <==> r == m || r in rest;
      assert forall k :: 0 <= k < |rest| ==> rest[k] in rest;
      [m] + rest
  }

  // ---- The queue, the flusher and the sheet as one world ---------------------------------

  /** `Writing`: a request with the cells `sent` for the rows `run` is in flight. */
  datatype Flusher = Idle | Writing(run: seq<nat>, sent: seq<Cells>, applied: bool, rest: seq<seq<nat>>)

  datatype World = World(queue: Queue, flusher: Flusher, sheet: map<nat, Cells>)

  const START := World(EMPTY_QUEUE, Idle, map[])

  datatype Event =
    | Enqueue(rows: seq<(Key, Cells)>)
    | StartFlush
    | TakeEffect  // the sheet changes; the answer is still outstanding
    | Succeed
    | Fail        // before or after taking effect

  ghost function CellsOf(q: Queue, run: seq<nat>): (cells: seq<Cells>)
    requires forall r :: r in run ==> r in q.values
    ensures |cells| == |run| && forall k :: 0 <= k < |run| ==> cells[k] == q.values[run[k]]
  {
    seq(|run|, k requires 0 <= k < |run| => assert run[k] in run; q.values[run[k]])
  }

  ghost function Begin(q: Queue, runs: seq<seq<nat>>): Flusher {
    if runs == [] || !(forall r :: r in runs[0] ==> r in q.values) then Idle
    else Writing(runs[0], CellsOf(q, runs[0]), false, runs[1..])
  }

  /** The request writes a block of rows starting at `first`. */
  function WriteBlock(sheet: map<nat, Cells>, first: nat, cells: seq<Cells>): (written: map<nat, Cells>)
    ensures forall r :: r in written <==> r in sheet || first <= r < first + |cells|
    ensures forall r :: r in sheet && !(first <= r < first + |cells|) ==> written[r] == sheet[r]
    ensures forall k :: 0 <= k < |cells| ==> written[first + k] == cells[k]
  {
    if cells == [] then sheet
    else WriteBlock(sheet, first, cells[..|cells| - 1])[first + |cells| - 1 := cells[|cells| - 1]]
  }

  ghost predicate Enabled(w: World, e: Event) {
    match e
    case Enqueue(_) => true
    case StartFlush => w.flusher.Idle? && w.queue.dirty != {}
    case TakeEffect => w.flusher.Writing? && !w.flusher.applied && |w.flusher.run| > 0
    case Succeed => w.flusher.Writing? && w.flusher.applied
    case Fail => w.flusher.Writing?
  }

  ghost function Next(w: World, e: Event): World
    requires Enabled(w, e)
  {
    match e
    case Enqueue(rows) => w.(queue := PutAll(w.queue, rows))
    case StartFlush => w.(flusher := Begin(w.queue, Batched(Sorted(w.queue.dirty))))
    case TakeEffect =>
      w.(sheet := WriteBlock(w.sheet, w.flusher.run[0], w.flusher.sent), flusher := w.flusher.(applied := true))
    case Succeed =>
      var q := w.queue.(dirty := w.queue.dirty - set r | r in w.flusher.run);
      w.(queue := q, flusher := Begin(q, w.flusher.rest))
    case Fail => w.(flusher := Idle)
  }

  // ---- Invariant -------------------------------------------------------------------------

  ghost predicate HasKey(q: Queue, row: nat) {
    exists k :: k in q.rowByKey && q.rowByKey[k] == row
  }

  /** One row per key, one key per row, and the rows are exactly 2, 3, ... */
  ghost predicate QueueOk(q: Queue) {
    && q.nextRow >= 2
    && (forall k :: k in q.rowByKey ==> 2 <= q.rowByKey[k] < q.nextRow)
    && (forall j, k :: j in q.rowByKey && k in q.rowByKey && q.rowByKey[j] == q.rowByKey[k] ==> j == k)
    && (forall r :: r in q.values <==> 2 <= r < q.nextRow)
    && (forall r :: r in q.values ==> HasKey(q, r))
    && q.dirty <= q.values.Keys
  }

  /** Every row not marked dirty stands on the sheet with its latest cells. */
  ghost predicate CleanRowsCurrent(w: World) {
    forall r :: r in w.queue.values && r !in w.queue.dirty ==> r in w.sheet && w.sheet[r] == w.queue.values[r]
  }

  /** The request in flight addresses a block of marked rows; once applied, the block stands on the sheet. */
  ghost predicate InFlightShape(w: World) {
    w.flusher.Writing? ==>
      var f := w.flusher;
      && |f.run| > 0 && Contiguous(f.run) && |f.sent| == |f.run|
      && (forall r :: r in f.run ==> r in w.queue.dirty && r in w.queue.values)
      && (f.applied ==> forall k :: 0 <= k < |f.run| ==> f.run[k] in w.sheet && w.sheet[f.run[k]] == f.sent[k])
  }

  /** No row of the request in flight has been given other cells meanwhile. */
  ghost predicate StillCurrent(w: World)
    requires InFlightShape(w)
  {
    w.flusher.Writing? ==> forall k :: 0 <= k < |w.flusher.run| ==> w.flusher.sent[k] == w.queue.values[w.flusher.run[k]]
  }

  /** No row is in two of the batches. */
  ghost predicate Apart(runs: seq<seq<nat>>) {
    forall i, j, r :: 0 <= i < |runs| && 0 <= j < |runs| && i != j && r in runs[i] ==> r !in runs[j]
  }

  ghost predicate AllDirty(q: Queue, runs: seq<seq<nat>>) {
    forall k, r :: 0 <= k < |runs| && r in runs[k] ==> r in q.dirty
  }

  ghost predicate QueuedRunsGood(w: World) {
    w.flusher.Writing? ==>
      var all := [w.flusher.run] + w.flusher.rest;
      GoodRuns(all) && Apart(all) && AllDirty(w.queue, all)
  }

  /** What holds in every reachable world, whatever fails and whatever is queued when. */
  ghost predicate Inv(w: World) {
    QueueOk(w.queue) && w.sheet.Keys <= w.queue.values.Keys && InFlightShape(w) && QueuedRunsGood(w)
  }

  /** No row is queued again while a request that carries it is in flight. */
  ghost predicate Undisturbed(w: World, e: Event) {
    e.Enqueue? && w.flusher.Writing? ==>
      forall k :: 0 <= k < |e.rows| ==> e.rows[k].0 in w.queue.rowByKey ==> w.queue.rowByKey[e.rows[k].0] !in w.flusher.run
  }

  /** Every key keeps its row number. */
  ghost predicate RowsKept(before: Queue, after: Queue) {
    forall k :: k in before.rowByKey ==> k in after.rowByKey && after.rowByKey[k] == before.rowByKey[k]
  }

  lemma PutHasKeys(q: Queue, key: Key, cells: Cells, r: nat)
    requires QueueOk(q) && r in Put(q, key, cells).values
    ensures HasKey(Put(q, key, cells), r)
  {
    var next := Put(q, key, cells);
    if r in q.values {
      var k :| k in q.rowByKey && q.rowByKey[k] == r;
      assert next.rowByKey[k] == r;
    } else {
      assert next.rowByKey[key] == r;
    }
  }

  lemma PutKeepsRows(q: Queue, key: Key, cells: Cells)
    requires QueueOk(q)
    ensures var next := Put(q, key, cells);
            && RowsKept(q, next)
            && (forall k :: k in next.rowByKey ==> FIRST_ROW <= next.rowByKey[k] < next.nextRow)
            && (forall j, k :: j in next.rowByKey && k in next.rowByKey && next.rowByKey[j] == next.rowByKey[k] ==> j == k)
  {
  }

  lemma PutKeeps(q: Queue, key: Key, cells: Cells)
    requires QueueOk(q)
    ensures QueueOk(Put(q, key, cells)) && RowsKept(q, Put(q, key, cells))
  {
    PutKeepsRows(q, key, cells);
    var next := Put(q, key, cells);
    forall r | r in next.values
      ensures HasKey(next, r)
    {
      PutHasKeys(q, key, cells, r);
    }
  }

  lemma {:induction false} PutAllKeeps(q: Queue, rows: seq<(Key, Cells)>)
    requires QueueOk(q)
    ensures QueueOk(PutAll(q, rows)) && RowsKept(q, PutAll(q, rows))
  {
    if rows != [] {
      PutAllKeeps(q, rows[..|rows| - 1]);
      PutKeeps(PutAll(q, rows[..|rows| - 1]), rows[|rows| - 1].0, rows[|rows| - 1].1);
    }
  }

  /** What an enqueue may touch: rows it marks, and among the old rows only those of its keys. */
  ghost predicate TouchesOnly(q: Queue, next: Queue, rows: seq<(Key, Cells)>) {
    && q.dirty <= next.dirty
    && q.values.Keys <= next.values.Keys
    && (forall r :: r in next.values && r !in next.dirty ==> r in q.values && r !in q.dirty && next.values[r] == q.values[r])
    && (forall r :: r in q.values && next.values[r] != q.values[r] ==>
          exists k :: 0 <= k < |rows| && rows[k].0 in q.rowByKey && q.rowByKey[rows[k].0] == r)
  }

  lemma {:induction false} PutAllTouches(q: Queue, rows: seq<(Key, Cells)>)
    requires QueueOk(q)
    ensures TouchesOnly(q, PutAll(q, rows), rows)
  {
    if rows != [] {
      var before, last := rows[..|rows| - 1], |rows| - 1;
      PutAllTouches(q, before);
      PutAllKeeps(q, before);
      var mid, next := PutAll(q, before), PutAll(q, rows);
      forall r | r in q.values && next.values[r] != q.values[r]
        ensures exists k :: 0 <= k < |rows| && rows[k].0 in q.rowByKey && q.rowByKey[rows[k].0] == r
      {
        if mid.values[r] != q.values[r] {
          var k :| 0 <= k < |before| && before[k].0 in q.rowByKey && q.rowByKey[before[k].0] == r;
          assert rows[k] == before[k];
        } else {
          var k :| k in q.rowByKey && q.rowByKey[k] == r;
          assert mid.rowByKey[k] == r;
          assert rows[last].0 == k;
        }
      }
    }
  }

  lemma EnqueueKeeps(w: World, rows: seq<(Key, Cells)>)
    requires Inv(w)
    ensures var next := Next(w, Enqueue(rows));
            && Inv(next) && RowsKept(w.queue, next.queue)
            && (CleanRowsCurrent(w) ==> CleanRowsCurrent(next))
            && (StillCurrent(w) && Undisturbed(w, Enqueue(rows)) ==> StillCurrent(next))
  {
    PutAllKeeps(w.queue, rows);
    PutAllTouches(w.queue, rows);
  }

  /** The flusher turns to the first of these batches, or to rest. */
  ghost predicate Takes(f: Flusher, runs: seq<seq<nat>>) {
    if runs == [] then f.Idle? else f.Writing? && f.run == runs[0] && !f.applied && f.rest == runs[1..]
  }

  lemma BeginKeeps(w: World, runs: seq<seq<nat>>)
    requires QueueOk(w.queue) && w.sheet.Keys <= w.queue.values.Keys && GoodRuns(runs) && Apart(runs) && AllDirty(w.queue, runs)
    ensures var next := w.(flusher := Begin(w.queue, runs));
            && Inv(next) && StillCurrent(next)
            && Takes(next.flusher, runs)
  {
    if runs != [] {
      assert [runs[0]] + runs[1..] == runs;
    }
  }

  /** Distinct batches share no row, because the list they flatten to has no repetition. */
  lemma {:induction false} BatchesApart(runs: seq<seq<nat>>)
    requires forall a, b :: 0 <= a < b < |Flatten(runs)| ==> Flatten(runs)[a] < Flatten(runs)[b]
    ensures Apart(runs)
  {
    if runs != [] {
      var front, last := runs[..|runs| - 1], runs[|runs| - 1];
      var flat := Flatten(runs);
      assert forall a :: 0 <= a < |Flatten(front)| ==> Flatten(front)[a] == flat[a];
      BatchesApart(front);
      forall i, r | 0 <= i < |front| && r in front[i]
        ensures r !in last
      {
        InFlatten(front, i, r);
        var before := Flatten(front);
        var a :| 0 <= a < |before| && before[a] == r;
        assert forall b :: 0 <= b < |last| ==> flat[|before| + b] == last[b];
        assert flat[a] == r;
      }
      assert forall i :: 0 <= i < |front| ==> runs[i] == front[i];
    }
  }

  lemma {:induction false} InFlatten(runs: seq<seq<nat>>, i: nat, r: nat)
    requires i < |runs| && r in runs[i]
    ensures r in Flatten(runs)
  {
    if i < |runs| - 1 {
      InFlatten(runs[..|runs| - 1], i, r);
    }
  }

  lemma StartKeeps(w: World)
    requires Inv(w) && Enabled(w, StartFlush)
    ensures Inv(Next(w, StartFlush)) && StillCurrent(Next(w, StartFlush))
    ensures Takes(Next(w, StartFlush).flusher, Batched(Sorted(w.queue.dirty)))
  {
    var rows := Sorted(w.queue.dirty);
    var runs := Batched(rows);
    forall k, r | 0 <= k < |runs| && r in runs[k]
      ensures r in w.queue.dirty
    {
      InFlatten(runs, k, r);
    }
    BatchesApart(runs);
    BeginKeeps(w, runs);
  }

  lemma BlockRows(run: seq<nat>, r: nat)
    requires |run| > 0 && Contiguous(run)
    ensures run[0] <= r < run[0] + |run| <==> r in run
  {
    if run[0] <= r < run[0] + |run| {
      assert run[r - run[0]] == r;
    }
  }

  lemma EffectKeeps(w: World)
    requires Inv(w) && Enabled(w, TakeEffect)
    ensures Inv(Next(w, TakeEffect))
    ensures CleanRowsCurrent(w) ==> CleanRowsCurrent(Next(w, TakeEffect))
  {
    var f := w.flusher;
    var next := Next(w, TakeEffect);
    forall k | 0 <= k < |f.run|
      ensures f.run[k] in next.sheet && next.sheet[f.run[k]] == f.sent[k]
    {
      assert f.run[k] == f.run[0] + k;
    }
    forall r: nat
      ensures f.run[0] <= r < f.run[0] + |f.run| <==> r in f.run
    {
      BlockRows(f.run, r);
    }
  }

  lemma SucceedKeeps(w: World)
    requires Inv(w) && Enabled(w, Succeed)
    ensures Inv(Next(w, Succeed)) && StillCurrent(Next(w, Succeed))
    ensures Takes(Next(w, Succeed).flusher, w.flusher.rest)
  {
    var f, all := w.flusher, [w.flusher.run] + w.flusher.rest;
    var next := w.(queue := Next(w, Succeed).queue);
    assert forall k :: 0 <= k < |f.rest| ==> f.rest[k] == all[k + 1];
    forall k, r | 0 <= k < |f.rest| && r in f.rest[k]
      ensures r in next.queue.dirty
    {
      assert r in all[k + 1] && r !in all[0];
    }
    BeginKeeps(next, f.rest);
  }

  /** Clearing the marks of a finished request is right exactly when none of its rows was given other
      cells while it was in flight. */
  lemma SucceedCleanIff(w: World)
    requires Inv(w) && Enabled(w, Succeed) && CleanRowsCurrent(w)
    ensures CleanRowsCurrent(Next(w, Succeed)) <==> StillCurrent(w)
  {
    var f, next := w.flusher, Next(w, Succeed);
    if CleanRowsCurrent(next) {
      forall k | 0 <= k < |f.run|
        ensures f.sent[k] == w.queue.values[f.run[k]]
      {
        assert f.run[k] in next.queue.values && f.run[k] !in next.queue.dirty;
      }
    }
  }

  lemma StepKeeps(w: World, e: Event)
    requires Inv(w) && Enabled(w, e)
    ensures Inv(Next(w, e)) && RowsKept(w.queue, Next(w, e).queue)
    ensures CleanRowsCurrent(w) ==> (CleanRowsCurrent(Next(w, e)) <==> (e == Succeed ==> StillCurrent(w)))
    ensures StillCurrent(w) && Undisturbed(w, e) ==> StillCurrent(Next(w, e))
  {
    match e
    case Enqueue(rows) => EnqueueKeeps(w, rows);
    case StartFlush => StartKeeps(w);
    case TakeEffect => EffectKeeps(w);
    case Succeed =>
      SucceedKeeps(w);
      if CleanRowsCurrent(w) {
        SucceedCleanIff(w);
      }
    case Fail =>
  }

  // ---- Whole runs ------------------------------------------------------------------------

  ghost predicate Moves(w: World, e: Event, next: World) {
    Enabled(w, e) && next == Next(w, e)
  }

  /** An interleaving of hooks, flushes and faults, with the world at every moment. */
  ghost predicate Run(events: seq<Event>, worlds: seq<World>) {
    && |worlds| == |events| + 1
    && worlds[0] == START
    && forall i, j :: 0 <= i < |events| && j == i + 1 ==> Moves(worlds[i], events[i], worlds[j])
  }

  lemma StepAt(events: seq<Event>, worlds: seq<World>, i: nat)
    requires Run(events, worlds) && i < |events|
    ensures Moves(worlds[i], events[i], worlds[i + 1])
  {
  }

  lemma {:induction false} RunKeeps(events: seq<Event>, worlds: seq<World>, n: nat)
    requires Run(events, worlds) && n < |worlds|
    ensures Inv(worlds[n])
  {
    if n > 0 {
      RunKeeps(events, worlds, n - 1);
      StepAt(events, worlds, n - 1);
      StepKeeps(worlds[n - 1], events[n - 1]);
    }
  }

  lemma RunStep(events: seq<Event>, worlds: seq<World>, i: nat)
    requires Run(events, worlds) && i < |events|
    ensures Enabled(worlds[i], events[i]) && Inv(worlds[i]) && Inv(worlds[i + 1])
    ensures RowsKept(worlds[i].queue, worlds[i + 1].queue)
    ensures CleanRowsCurrent(worlds[i]) ==> (CleanRowsCurrent(worlds[i + 1]) <==> (events[i] == Succeed ==> StillCurrent(worlds[i])))
    ensures StillCurrent(worlds[i]) && Undisturbed(worlds[i], events[i]) ==> StillCurrent(worlds[i + 1])
  {
    RunKeeps(events, worlds, i);
    StepAt(events, worlds, i);
    StepKeeps(worlds[i], events[i]);
  }

  /** A key that has a row keeps it for ever. (Distinct keys have distinct rows: `QueueOk`, part of `Inv`.) */
  lemma RowNumbersAreForEver(events: seq<Event>, worlds: seq<World>, i: nat, n: nat)
    requires Run(events, worlds) && i <= n < |worlds|
    ensures RowsKept(worlds[i].queue, worlds[n].queue)
  {
    forall j, k | i <= j < n && k == j + 1
      ensures RowsKept(worlds[j].queue, worlds[k].queue)
    {
      RunStep(events, worlds, j);
    }
    RowsKeptThroughout(worlds, i, n);
  }

  lemma {:induction false} RowsKeptThroughout(worlds: seq<World>, i: nat, n: nat)
    requires i <= n < |worlds|
    requires forall j, k :: i <= j < n && k == j + 1 ==> RowsKept(worlds[j].queue, worlds[k].queue)
    ensures RowsKept(worlds[i].queue, worlds[n].queue)
  {
    if i < n {
      RowsKeptThroughout(worlds, i, n - 1);
      RowsKeptChain(worlds[i].queue, worlds[n - 1].queue, worlds[n].queue);
    }
  }

  lemma RowsKeptChain(a: Queue, b: Queue, c: Queue)
    requires RowsKept(a, b) && RowsKept(b, c)
    ensures RowsKept(a, c)
  {
  }

  /** A success finds the rows of its request unchanged since they were sent. */
  ghost predicate FineSuccess(w: World, e: Event) {
    e == Succeed ==> InFlightShape(w) && StillCurrent(w)
  }

  ghost predicate CleanThrough(worlds: seq<World>, n: nat)
    requires n < |worlds|
  {
    forall i :: 0 <= i <= n ==> CleanRowsCurrent(worlds[i])
  }

  ghost predicate FineBefore(events: seq<Event>, worlds: seq<World>, n: nat)
    requires n <= |events| && n < |worlds|
  {
    forall i :: 0 <= i < n ==> FineSuccess(worlds[i], events[i])
  }

  lemma CleanStep(events: seq<Event>, worlds: seq<World>, i: nat)
    requires Run(events, worlds) && i < |events| && CleanRowsCurrent(worlds[i])
    ensures CleanRowsCurrent(worlds[i + 1]) <==> FineSuccess(worlds[i], events[i])
  {
    RunStep(events, worlds, i);
  }

  lemma OneMoreClean(worlds: seq<World>, n: nat)
    requires n + 1 < |worlds|
    ensures CleanThrough(worlds, n + 1) <==> CleanThrough(worlds, n) && CleanRowsCurrent(worlds[n + 1])
  {
  }

  lemma OneMoreFine(events: seq<Event>, worlds: seq<World>, n: nat)
    requires n < |events| && n + 1 < |worlds|
    ensures FineBefore(events, worlds, n + 1) <==> FineBefore(events, worlds, n) && FineSuccess(worlds[n], events[n])
  {
  }

  /** Over every interleaving and fault schedule: every clean row is current at every moment if and only if
      no row was given other cells while a request that then succeeded was carrying it. */
  lemma {:induction false} CleanRowsAlwaysCurrentIff(events: seq<Event>, worlds: seq<World>, n: nat)
    requires Run(events, worlds) && n <= |events|
    ensures CleanThrough(worlds, n) <==> FineBefore(events, worlds, n)
  {
    if n > 0 {
      CleanRowsAlwaysCurrentIff(events, worlds, n - 1);
      OneMoreClean(worlds, n - 1);
      OneMoreFine(events, worlds, n - 1);
      if CleanThrough(worlds, n - 1) {
        CleanStep(events, worlds, n - 1);
      }
    }
  }

  /** In particular all is well when no row is queued again while its own write is in flight. */
  lemma {:induction false} UndisturbedRunsAreClean(events: seq<Event>, worlds: seq<World>, n: nat)
    requires Run(events, worlds) && n <= |events|
    requires forall i :: 0 <= i < n ==> Undisturbed(worlds[i], events[i])
    ensures CleanRowsCurrent(worlds[n]) && InFlightShape(worlds[n]) && StillCurrent(worlds[n])
  {
    if n > 0 {
      UndisturbedRunsAreClean(events, worlds, n - 1);
      RunStep(events, worlds, n - 1);
    }
  }

  // ---- A run that loses a value ----------------------------------------------------------

  function OneRow(cells: Cells, dirty: set<nat>): Queue { Queue(map["k" := 2], map[2 := cells], dirty, 3) }

  function LosingRun(first: Cells, newer: Cells): seq<Event> {
    [Enqueue([("k", first)]), StartFlush, TakeEffect, Enqueue([("k", newer)]), Succeed]
  }

  function LosingWorlds(first: Cells, newer: Cells): seq<World> {
    [START,
     World(OneRow(first, {2}), Idle, map[]),
     World(OneRow(first, {2}), Writing([2], [first], false, []), map[]),
     World(OneRow(first, {2}), Writing([2], [first], true, []), map[2 := first]),
     World(OneRow(newer, {2}), Writing([2], [first], true, []), map[2 := first]),
     World(OneRow(newer, {}), Idle, map[2 := first])]
  }

  lemma QueueTheRow(w: World, cells: Cells)
    requires w.queue == EMPTY_QUEUE || (exists before: Cells :: w.queue == OneRow(before, {2}))
    ensures Moves(w, Enqueue([("k", cells)]), w.(queue := OneRow(cells, {2})))
  {
    OnePut(w.queue, "k", cells);
    assert Put(w.queue, "k", cells) == OneRow(cells, {2});
  }

  lemma OneSorted(rows: set<nat>, row: nat)
    requires rows == {row}
    ensures Sorted(rows) == [row]
  {
    var rest := rows - {Least(rows)};
    assert rest == {};
  }

  lemma OneBatch(rows: seq<nat>, row: nat)
    requires rows == [row]
    ensures Batched(rows) == [[row]]
  {
    var none := rows[..|rows| - 1];
    assert none == [];
    assert Batched(none) == [];
  }

  lemma BeginTheRow(cells: Cells)
    ensures Begin(OneRow(cells, {2}), [[2]]) == Writing([2], [cells], false, [])
  {
    assert CellsOf(OneRow(cells, {2}), [2]) == [cells];
  }

  lemma StartMoves(w: World, runs: seq<seq<nat>>, flusher: Flusher)
    requires w.flusher.Idle? && w.queue.dirty != {} && Batched(Sorted(w.queue.dirty)) == runs && Begin(w.queue, runs) == flusher
    ensures Moves(w, StartFlush, w.(flusher := flusher))
  {
  }

  lemma FlushTheRow(w: World, cells: Cells)
    requires w == World(OneRow(cells, {2}), Idle, map[])
    ensures Moves(w, StartFlush, w.(flusher := Writing([2], [cells], false, [])))
  {
    hide Sorted, Batched, Begin, Moves;
    OneSorted(w.queue.dirty, 2);
    OneBatch(Sorted(w.queue.dirty), 2);
    BeginTheRow(cells);
    StartMoves(w, [[2]], Writing([2], [cells], false, []));
  }

  lemma WriteTheRow(cells: Cells)
    ensures Moves(World(OneRow(cells, {2}), Writing([2], [cells], false, []), map[]), TakeEffect,
                  World(OneRow(cells, {2}), Writing([2], [cells], true, []), map[2 := cells]))
  {
    assert WriteBlock(map[], 2, [cells]) == map[2 := cells];
  }

  lemma MarkTheRowWritten(cells: Cells, sent: Cells)
    ensures Moves(World(OneRow(cells, {2}), Writing([2], [sent], true, []), map[2 := sent]), Succeed,
                  World(OneRow(cells, {}), Idle, map[2 := sent]))
  {
    assert {2} - (set r | r in [2]) == {};
  }

  /** Otherwise a newer value can be lost. In this run a row is queued, its write takes effect, it is queued again with
      other cells, and then the answer arrives: nothing is marked, and the sheet has the older cells for good. */
  lemma RequeueInFlightLosesTheNewerValue(first: Cells, newer: Cells)
    requires first != newer
    ensures var events, worlds := LosingRun(first, newer), LosingWorlds(first, newer);
            && Run(events, worlds)
            && !Undisturbed(worlds[3], events[3]) && !FineSuccess(worlds[4], events[4])
            && worlds[5].queue.dirty == {} && worlds[5].flusher.Idle?
            && Held(worlds[5].queue, "k") == Some(newer) && worlds[5].sheet == map[2 := first]
            && !CleanRowsCurrent(worlds[5])
  {
    LosingRunIsRun(first, newer);
    var events, worlds := LosingRun(first, newer), LosingWorlds(first, newer);
    assert "k" in worlds[3].queue.rowByKey && events[3].rows[0].0 == "k";
    assert worlds[4].flusher.sent[0] == first && 2 in worlds[5].queue.values;
  }

  lemma LosingRunIsRun(first: Cells, newer: Cells)
    ensures Run(LosingRun(first, newer), LosingWorlds(first, newer))
  {
    hide Moves;
    var events, worlds := LosingRun(first, newer), LosingWorlds(first, newer);
    QueueTheRow(worlds[0], first);
    FlushTheRow(worlds[1], first);
    WriteTheRow(first);
    assert worlds[3].queue == OneRow(first, {2});
    QueueTheRow(worlds[3], newer);
    MarkTheRowWritten(newer, first);
  }

  lemma OnePut(q: Queue, key: Key, cells: Cells)
    ensures PutAll(q, [(key, cells)]) == Put(q, key, cells)
  {
    var rows := [(key, cells)];
    assert rows[..|rows| - 1] == [];
  }

  // ---- The final flush -------------------------------------------------------------------

  ghost predicate Pending(f: Flusher, r: nat) {
    f.Writing? && (r in f.run || InSome(f.rest, r))
  }

  ghost predicate InSome(runs: seq<seq<nat>>, r: nat) {
    exists k :: 0 <= k < |runs| && r in runs[k]
  }

  lemma {:induction false} FlattenInSome(runs: seq<seq<nat>>, r: nat)
    requires r in Flatten(runs)
    ensures InSome(runs, r)
  {
    var last := |runs| - 1;
    if r in runs[last] {
    } else {
      FlattenInSome(runs[..last], r);
      var k :| 0 <= k < last && r in runs[..last][k];
      assert r in runs[k];
    }
  }

  lemma TakesPending(f: Flusher, runs: seq<seq<nat>>, r: nat)
    requires Takes(f, runs) && InSome(runs, r)
    ensures Pending(f, r)
  {
    var k :| 0 <= k < |runs| && r in runs[k];
    if k > 0 {
      assert runs[1..][k - 1] == runs[k];
    }
  }

  /** Every marked row is in a batch still to be written. */
  ghost predicate Covered(w: World) {
    forall r :: r in w.queue.dirty ==> Pending(w.flusher, r)
  }

  lemma StartCovers(w: World)
    requires Inv(w) && Enabled(w, StartFlush)
    ensures Covered(Next(w, StartFlush))
  {
    StartKeeps(w);
    forall r | r in w.queue.dirty
      ensures Pending(Next(w, StartFlush).flusher, r)
    {
      assert r in Sorted(w.queue.dirty);
      FlattenInSome(Batched(Sorted(w.queue.dirty)), r);
      TakesPending(Next(w, StartFlush).flusher, Batched(Sorted(w.queue.dirty)), r);
    }
  }

  lemma SucceedCovers(w: World)
    requires Inv(w) && Enabled(w, Succeed) && Covered(w)
    ensures Covered(Next(w, Succeed))
  {
    SucceedKeeps(w);
    forall r | r in Next(w, Succeed).queue.dirty
      ensures Pending(Next(w, Succeed).flusher, r)
    {
      assert Pending(w.flusher, r) && r !in w.flusher.run;
      TakesPending(Next(w, Succeed).flusher, w.flusher.rest, r);
    }
  }

  /** From event `i` to `n`: one flush, started at `i`, with no fault and no row queued meanwhile. */
  ghost predicate QuietFlush(events: seq<Event>, i: nat, n: nat) {
    i < n <= |events| && events[i] == StartFlush && forall j :: i < j < n ==> events[j] == TakeEffect || events[j] == Succeed
  }

  lemma StepCovers(w: World, e: Event)
    requires Inv(w) && Enabled(w, e) && Covered(w) && (e == TakeEffect || e == Succeed)
    ensures Covered(Next(w, e))
  {
    if e == Succeed {
      SucceedCovers(w);
    }
  }

  lemma {:induction false} QuietFlushCovers(events: seq<Event>, worlds: seq<World>, i: nat, n: nat)
    requires Run(events, worlds) && QuietFlush(events, i, n)
    ensures Covered(worlds[n])
  {
    assert |worlds| == |events| + 1;
    hide Run, Inv, Covered, Enabled, Next;
    RunKeeps(events, worlds, n - 1);
    StepAt(events, worlds, n - 1);
    if n == i + 1 {
      StartCovers(worlds[i]);
    } else {
      QuietFlushCovers(events, worlds, i, n - 1);
      StepCovers(worlds[n - 1], events[n - 1]);
    }
  }

  /** After any undisturbed history, one flush that meets no fault leaves nothing marked, and the sheet holds
      exactly one row per key, with the latest cells. */
  lemma FinalFlush(events: seq<Event>, worlds: seq<World>, i: nat, n: nat)
    requires Run(events, worlds) && QuietFlush(events, i, n) && worlds[n].flusher.Idle?
    requires forall j :: 0 <= j < n ==> Undisturbed(worlds[j], events[j])
    ensures worlds[n].queue.dirty == {}
    ensures worlds[n].sheet == worlds[n].queue.values
    ensures QueueOk(worlds[n].queue)
  {
    QuietFlushCovers(events, worlds, i, n);
    UndisturbedRunsAreClean(events, worlds, n);
    RunKeeps(events, worlds, n);
  }

  // ---- The latest cells of a key, read off the history -----------------------------------

  function LatestIn(rows: seq<(Key, Cells)>, key: Key): Option<Cells> {
    if rows == [] then None
    else if rows[|rows| - 1].0 == key then Some(rows[|rows| - 1].1)
    else LatestIn(rows[..|rows| - 1], key)
  }

  ghost function Latest(events: seq<Event>, n: nat, key: Key): Option<Cells>
    requires n <= |events|
  {
    if n == 0 then None
    else if events[n - 1].Enqueue? && LatestIn(events[n - 1].rows, key).Some? then LatestIn(events[n - 1].rows, key)
    else Latest(events, n - 1, key)
  }

  function Held(q: Queue, key: Key): Option<Cells> {
    if key in q.rowByKey && q.rowByKey[key] in q.values then Some(q.values[q.rowByKey[key]]) else None
  }

  lemma {:induction false} PutAllHolds(q: Queue, rows: seq<(Key, Cells)>, key: Key)
    requires QueueOk(q)
    ensures Held(PutAll(q, rows), key) == if LatestIn(rows, key).Some? then LatestIn(rows, key) else Held(q, key)
  {
    if rows != [] {
      PutAllKeeps(q, rows[..|rows| - 1]);
      PutAllHolds(q, rows[..|rows| - 1], key);
    }
  }

  lemma StepHolds(w: World, e: Event, key: Key)
    requires QueueOk(w.queue) && Enabled(w, e)
    ensures Held(Next(w, e).queue, key) ==
            if e.Enqueue? && LatestIn(e.rows, key).Some? then LatestIn(e.rows, key) else Held(w.queue, key)
  {
    if e.Enqueue? {
      PutAllHolds(w.queue, e.rows, key);
    }
  }

  /** The queue holds, for every key, the cells it was last given. */
  lemma {:induction false} QueueHoldsLatest(events: seq<Event>, worlds: seq<World>, n: nat, key: Key)
    requires Run(events, worlds) && n <= |events|
    ensures Held(worlds[n].queue, key) == Latest(events, n, key)
  {
    if n > 0 {
      QueueHoldsLatest(events, worlds, n - 1, key);
      assert QueueOk(worlds[n - 1].queue) by {
        RunKeeps(events, worlds, n - 1);
      }
      StepAt(events, worlds, n - 1);
      StepHolds(worlds[n - 1], events[n - 1], key);
    }
  }
}
