/** One scan job's growing logs and the pages a client reads from them (scan_job_manager.py:60-197). */
module ScanJobs {
  import opened Common
  import opened JobRegistry

  datatype Failure = Failure(symbol: string, error: string)

  datatype ProgressItem = ProgressItem(number: nat, symbol: string, success: bool, error: Option<string>)

  /** What one strategy found for a stock. */
  datatype Signal = Signal(
    symbol: string,
    qualifies: bool,
    dailyRsi: Option<real>,
    weeklyRsi: Option<real>,
    monthlyRsi: Option<real>,
    explanation: string)

  type Qualifying = seq<(string, Signal)>

  /** A stock that qualified, with the names of its strategies and the detail of each. */
  datatype PartialItem = PartialItem(number: nat, symbol: string, strategies: seq<string>, signals: seq<(string, Signal)>)

  datatype Page<T> = Page(items: seq<T>, next: nat, status: Status)

  /** Everything a job accumulates. */
  datatype Log = Log(
    processed: nat,
    successful: nat,
    failed: nat,
    failures: seq<Failure>,
    signalsFound: nat,
    partials: seq<PartialItem>,
    progress: seq<ProgressItem>)

  const EMPTY := Log(0, 0, 0, [], 0, [], [])

  /** A stock has been processed. */
  function Progressed(log: Log, symbol: string, success: bool, error: Option<string>): Log {
    var item := ProgressItem(|log.progress| + 1, symbol, success, error);
    var counted := log.(processed := log.processed + 1, progress := log.progress + [item]);
    if success then counted.(successful := log.successful + 1)
    else if error.Some? && error.value != "" then
      counted.(failed := log.failed + 1, failures := log.failures + [Failure(symbol, error.value)])
    else counted.(failed := log.failed + 1)
  }

  function Names(qualifying: Qualifying): (names: seq<string>)
    ensures |names| == |qualifying| && forall k :: 0 <= k < |names| ==> names[k] == qualifying[k].0
  {
    seq(|qualifying|, k requires 0 <= k < |qualifying| => qualifying[k].0)
  }

  /** A stock has qualified for some strategies; for none nothing is recorded. */
  function Qualified(log: Log, symbol: string, qualifying: Qualifying): Log {
    if qualifying == [] then log
    else log.(signalsFound := log.signalsFound + |qualifying|,
              partials := log.partials + [PartialItem(|log.partials| + 1, symbol, Names(qualifying), qualifying)])
  }

  /** All signals of the recorded stocks. */
  function SignalsIn(partials: seq<PartialItem>): nat {
    if partials == [] then 0 else SignalsIn(partials[..|partials| - 1]) + |partials[|partials| - 1].signals|
  }

  /** The entries behind a cursor, and the cursor to go on with. */
  function After<T>(entries: seq<T>, after: nat, status: Status): Page<T> {
    var items := if after <= |entries| then entries[after..] else [];
    Page(items, after + |items|, status)
  }

  // ---- Invariant -------------------------------------------------------------------------

  /** The counters agree with the logs, and entries carry their own position. */
  ghost predicate Consistent(log: Log) {
    && log.processed == |log.progress| == log.successful + log.failed
    && |log.failures| <= log.failed
    && (log.signalsFound == 0 <==> log.partials == [])
    && (forall i :: 0 <= i < |log.progress| ==> log.progress[i].number == i + 1)
    && (forall i :: 0 <= i < |log.partials| ==> log.partials[i].number == i + 1)
  }

  lemma RecordingKeepsConsistent(log: Log, symbol: string, success: bool, error: Option<string>, qualifying: Qualifying)
    requires Consistent(log)
    ensures Consistent(Progressed(log, symbol, success, error)) && Consistent(Qualified(log, symbol, qualifying))
    ensures log.progress <= Progressed(log, symbol, success, error).progress
    ensures log.partials <= Qualified(log, symbol, qualifying).partials
  {
  }

  function Successes(progress: seq<ProgressItem>): nat {
    if progress == [] then 0 else Successes(progress[..|progress| - 1]) + if progress[|progress| - 1].success then 1 else 0
  }

  /** The failed entries that carry an error, in order. */
  function Failures(progress: seq<ProgressItem>): seq<Failure> {
    if progress == [] then []
    else
      var last := progress[|progress| - 1];
      Failures(progress[..|progress| - 1])
      + if !last.success && last.error.Some? && last.error.value != "" then [Failure(last.symbol, last.error.value)] else []
  }

  /** Counters and failures are those of the progress log. */
  ghost predicate Tallied(log: Log) {
    && log.processed == |log.progress| && log.successful == Successes(log.progress)
    && log.failed == log.processed - log.successful && log.failures == Failures(log.progress)
  }

  lemma ProgressIsTallied(log: Log, symbol: string, success: bool, error: Option<string>)
    requires Tallied(log)
    ensures Tallied(Progressed(log, symbol, success, error))
    ensures Progressed(log, symbol, success, error).progress ==
            log.progress + [ProgressItem(|log.progress| + 1, symbol, success, error)]
  {
    var next := Progressed(log, symbol, success, error);
    assert next.progress[..|next.progress| - 1] == log.progress;
  }

  /** The count of signals is the number of signals in the recorded results. */
  lemma SignalsAreCounted(log: Log, symbol: string, qualifying: Qualifying)
    requires log.signalsFound == SignalsIn(log.partials)
    ensures var next := Qualified(log, symbol, qualifying); next.signalsFound == SignalsIn(next.partials)
  {
    var next := Qualified(log, symbol, qualifying);
    if qualifying != [] {
      assert next.partials[..|log.partials|] == log.partials;
    }
  }

  /** A qualifying stock is listed once, with the names and details of its strategies; any other one is not. */
  lemma ResultIsListed(log: Log, symbol: string, qualifying: Qualifying)
    ensures var next := Qualified(log, symbol, qualifying);
            if qualifying == [] then next == log
            else |next.partials| == |log.partials| + 1 && log.partials <= next.partials
                 && var item := next.partials[|log.partials|];
                    && item.number == |log.partials| + 1 && item.symbol == symbol && item.signals == qualifying
                    && |item.strategies| == |qualifying|
                    && forall k :: 0 <= k < |qualifying| ==> item.strategies[k] == qualifying[k].0
  {
  }

  /** Reading a page and then the page behind it is reading everything once: no entry twice, none missing. */
  lemma PagesJoin<T>(entries: seq<T>, later: seq<T>, after: nat, status: Status)
    requires entries <= later && after <= |entries|
    ensures var first := After(entries, after, status);
            entries[..after] + first.items == entries &&
            first.items + After(later, first.next, status).items == later[after..]
  {
    assert later == entries + later[|entries|..];
  }

  class ScanJob {
    var status: Status
    var processed: nat
    var successful: nat
    var failed: nat
    var failures: seq<Failure>
    var signalsFound: nat
    var partials: seq<PartialItem>
    var progress: seq<ProgressItem>

    ghost function Contents(): Log
      reads this
    {
      Log(processed, successful, failed, failures, signalsFound, partials, progress)
    }

    constructor ()
      ensures status.Running? && Contents() == EMPTY && Tallied(Contents())
    {
      status, processed, successful, failed, failures := Running, 0, 0, 0, [];
      signalsFound, partials, progress := 0, [], [];
    }

    method RecordProgress(symbol: string, success: bool, error: Option<string>)
      modifies this
      ensures Contents() == Progressed(old(Contents()), symbol, success, error) && status == old(status)
      ensures Consistent(old(Contents())) ==> Consistent(Contents())
      ensures Tallied(old(Contents())) ==> Tallied(Contents())
    {
      hide Consistent, Tallied;
      ghost var before := Contents();
      processed := processed + 1;
      progress := progress + [ProgressItem(|progress| + 1, symbol, success, error)];
      if success {
        successful := successful + 1;
      } else {
        failed := failed + 1;
        if error.Some? && error.value != "" {
          failures := failures + [Failure(symbol, error.value)];
        }
      }
      if Consistent(before) {
        RecordingKeepsConsistent(before, symbol, success, error, []);
      }
      if Tallied(before) {
        ProgressIsTallied(before, symbol, success, error);
      }
    }

    method RecordResult(symbol: string, qualifying: Qualifying)
      modifies this
      ensures Contents() == Qualified(old(Contents()), symbol, qualifying) && status == old(status)
      ensures Consistent(old(Contents())) ==> Consistent(Contents())
      ensures old(signalsFound == SignalsIn(partials)) ==> signalsFound == SignalsIn(partials)
    {
      ghost var before := Contents();
      if qualifying != [] {
        signalsFound := signalsFound + |qualifying|;
        partials := partials + [PartialItem(|partials| + 1, symbol, Names(qualifying), qualifying)];
      }
      if Consistent(before) {
        RecordingKeepsConsistent(before, symbol, true, None, qualifying);
      }
      if before.signalsFound == SignalsIn(before.partials) {
        SignalsAreCounted(before, symbol, qualifying);
      }
    }

    /** The page completes a list that ends at the cursor, and in a consistent job its entries are numbered on from
        there. A cursor beyond the log gets nothing. */
    method PartialAfter(after: nat) returns (page: Page<PartialItem>)
      ensures page.next == after + |page.items| && page.status == status
      ensures if after <= |partials| then partials[..after] + page.items == partials else page.items == []
      ensures Consistent(Contents()) ==> forall k :: 0 <= k < |page.items| ==> page.items[k].number == after + k + 1
    {
      var items := if after <= |partials| then partials[after..] else [];
      page := Page(items, after + |items|, status);
    }

    method ProgressAfter(after: nat) returns (page: Page<ProgressItem>)
      ensures page.next == after + |page.items| && page.status == status
      ensures if after <= |progress| then progress[..after] + page.items == progress else page.items == []
      ensures Consistent(Contents()) ==> forall k :: 0 <= k < |page.items| ==> page.items[k].number == after + k + 1
    {
      var items := if after <= |progress| then progress[after..] else [];
      page := Page(items, after + |items|, status);
    }
  }
}
