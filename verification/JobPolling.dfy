/** A client polling a job's logs through cursors, over any interleaving of replies, failures and repeated polls
    (useScanJob.ts:113-228 against scan_job_manager.py:191-197). */
module JobPolling {
  import opened Common
  import opened JobRegistry
  import opened ScanJobs

  /** A job as the server holds it. */
  datatype Served = Served(log: Log, status: Status)

  /** What getJob answers with. */
  datatype Snapshot = Snapshot(status: Status, signalsFound: nat, processed: nat)

  /** Where one tick loop stands. A request carries its reply once the server has answered it. */
  datatype Phase =
    | Waiting
    | AskedJob(job: Option<Snapshot>)
    | AskedPartial(seen: Snapshot, after: nat, partials: Option<Page<PartialItem>>)
    | AskedProgress(seen: Snapshot, caughtUp: bool, after: nat, progress: Option<Page<ProgressItem>>)
    | Ended(status: Status, partialsComplete: bool, progressComplete: bool)
    | Stopped

  /** The loop started by one pollJob call. */
  datatype Loop = Loop(job: Id, phase: Phase)

  datatype Client = Client(
    generation: nat,
    active: Option<Id>,
    partialCursor: nat,
    partial: seq<PartialItem>,
    progressCursor: nat,
    progress: seq<ProgressItem>,
    loops: map<nat, Loop>)

  datatype World = World(client: Client, server: map<Id, Served>)

  // ---- The client ------------------------------------------------------------------------

  /** The guard after every await: this loop has not been superseded. */
  predicate Current(c: Client, g: nat) {
    g in c.loops && c.active == Some(c.loops[g].job) && c.generation == g
  }

  function To(c: Client, g: nat, phase: Phase): Client
    requires g in c.loops
  {
    c.(loops := c.loops[g := c.loops[g].(phase := phase)])
  }

  /** pollJob: a fresh generation, empty lists, and a tick that asks for the job at once. */
  function PollJob(c: Client, job: Id): Client {
    Client(c.generation + 1, Some(job), 0, [], 0, [], c.loops[c.generation + 1 := Loop(job, AskedJob(None))])
  }

  /** Cancelling and unmounting. */
  function StopPolling(c: Client): Client {
    c.(active := None)
  }

  function TimerFires(c: Client, g: nat): Client
    requires g in c.loops
  {
    To(c, g, if Current(c, g) then AskedJob(None) else Stopped)
  }

  function Settle(seen: Snapshot, partialsComplete: bool, progressComplete: bool): Phase {
    if seen.status.Running? then Waiting else Ended(seen.status, partialsComplete, progressComplete)
  }

  /** The progress log is fetched only if there can be something in it. */
  function TowardsProgress(c: Client, seen: Snapshot, partialsComplete: bool): Phase {
    if seen.processed > 0 || c.progressCursor > 0 then AskedProgress(seen, partialsComplete, c.progressCursor, None)
    else Settle(seen, partialsComplete, true)
  }

  function TowardsPartial(c: Client, seen: Snapshot): Phase {
    if seen.signalsFound > 0 || c.partialCursor > 0 then AskedPartial(seen, c.partialCursor, None)
    else TowardsProgress(c, seen, true)
  }

  function JobArrives(c: Client, g: nat, seen: Snapshot): Client
    requires g in c.loops
  {
    To(c, g, if Current(c, g) then TowardsPartial(c, seen) else Stopped)
  }

  /** A superseded loop drops its page, but goes on to the next request and even sets its timer. */
  function TakePartial(c: Client, g: nat, page: Page<PartialItem>): Client {
    if Current(c, g) && page.items != [] then c.(partialCursor := page.next, partial := c.partial + page.items) else c
  }

  function TakeProgress(c: Client, g: nat, page: Page<ProgressItem>): Client {
    if Current(c, g) && page.items != [] then c.(progressCursor := page.next, progress := c.progress + page.items) else c
  }

  function PartialArrives(c: Client, g: nat, seen: Snapshot, page: Page<PartialItem>): Client
    requires g in c.loops
  {
    var c' := TakePartial(c, g, page);
    To(c', g, TowardsProgress(c', seen, true))
  }

  function ProgressArrives(c: Client, g: nat, seen: Snapshot, caughtUp: bool, page: Page<ProgressItem>): Client
    requires g in c.loops
  {
    To(TakeProgress(c, g, page), g, Settle(seen, caughtUp, true))
  }

  /** A failed request. Both page requests are best effort; without the job itself the loop retries, or stops for good
      when the job is gone or the recovery window is over. */
  function RequestFails(c: Client, g: nat, gone: bool, giveUp: bool): Client
    requires g in c.loops
  {
    match c.loops[g].phase
    case AskedPartial(seen, _, _) => To(c, g, TowardsProgress(c, seen, false))
    case AskedProgress(seen, caughtUp, _, _) => To(c, g, Settle(seen, caughtUp, false))
    case AskedJob(_) =>
      if !Current(c, g) then To(c, g, Stopped)
      else if gone then To(c, g, Stopped).(active := None)
      else To(c, g, if giveUp then Stopped else Waiting)
    case _ => c
  }

  /** A reply reaches the client. */
  function ReplyArrives(c: Client, g: nat): Client
    requires g in c.loops
  {
    match c.loops[g].phase
    case AskedJob(Some(seen)) => JobArrives(c, g, seen)
    case AskedPartial(seen, _, Some(page)) => PartialArrives(c, g, seen, page)
    case AskedProgress(seen, caughtUp, _, Some(page)) => ProgressArrives(c, g, seen, caughtUp, page)
    case _ => c
  }

  // ---- The server ------------------------------------------------------------------------

  /** The server answers the loop's open request from what it holds now; the reply travels on its own. */
  function Answered(phase: Phase, s: Served): Phase {
    match phase
    case AskedJob(None) => AskedJob(Some(Snapshot(s.status, s.log.signalsFound, s.log.processed)))
    case AskedPartial(seen, after, None) => AskedPartial(seen, after, Some(After(s.log.partials, after, s.status)))
    case AskedProgress(seen, caughtUp, after, None) =>
      AskedProgress(seen, caughtUp, after, Some(After(s.log.progress, after, s.status)))
    case _ => phase
  }

  /** Only a running job's runner records anything. */
  function Recorded(s: Served, symbol: string, success: bool, error: Option<string>): Served {
    if s.status.Running? then s.(log := Progressed(s.log, symbol, success, error)) else s
  }

  function Found(s: Served, symbol: string, qualifying: Qualifying): Served {
    if s.status.Running? then s.(log := Qualified(s.log, symbol, qualifying)) else s
  }

  function Closed(s: Served, outcome: Status): Served {
    if s.status.Running? then s.(status := outcome) else s
  }

  // ---- Steps -----------------------------------------------------------------------------

  datatype Event =
    | NewJob(job: Id)
    | RecordProgress(job: Id, symbol: string, success: bool, error: Option<string>)
    | RecordResult(job: Id, symbol: string, qualifying: Qualifying)
    | CloseJob(job: Id, outcome: Status)
    | Poll(job: Id)
    | Stop
    | Timer(loop: nat)
    | Answer(loop: nat)
    | Arrive(loop: nat)
    | Fail(loop: nat, gone: bool, giveUp: bool)

  /** An event that cannot happen changes nothing. */
  function Step(w: World, e: Event): World {
    match e
    case NewJob(job) => if job in w.server then w else w.(server := w.server[job := Served(EMPTY, Running)])
    case RecordProgress(job, symbol, success, error) =>
      if job in w.server then w.(server := w.server[job := Recorded(w.server[job], symbol, success, error)]) else w
    case RecordResult(job, symbol, qualifying) =>
      if job in w.server then w.(server := w.server[job := Found(w.server[job], symbol, qualifying)]) else w
    case CloseJob(job, outcome) => if job in w.server then w.(server := w.server[job := Closed(w.server[job], outcome)]) else w
    case Poll(job) => if job in w.server then w.(client := PollJob(w.client, job)) else w
    case Stop => w.(client := StopPolling(w.client))
    case Timer(g) => if g in w.client.loops && w.client.loops[g].phase.Waiting? then w.(client := TimerFires(w.client, g)) else w
    case Answer(g) =>
      if g in w.client.loops && w.client.loops[g].job in w.server then
        w.(client := To(w.client, g, Answered(w.client.loops[g].phase, w.server[w.client.loops[g].job])))
      else w
    case Arrive(g) => if g in w.client.loops then w.(client := ReplyArrives(w.client, g)) else w
    case Fail(g, gone, giveUp) => if g in w.client.loops then w.(client := RequestFails(w.client, g, gone, giveUp)) else w
  }

  function Run(events: seq<Event>, n: nat): World
    requires n <= |events|
  {
    if n == 0 then World(Client(0, None, 0, [], 0, [], map[]), map[]) else Step(Run(events, n - 1), events[n - 1])
  }

  // ---- Invariant -------------------------------------------------------------------------

  /** A snapshot that shows the job ended shows its final counts. */
  ghost predicate Truthful(seen: Snapshot, s: Served) {
    !seen.status.Running? ==>
      s.status == seen.status && seen.signalsFound == s.log.signalsFound && seen.processed == s.log.processed
  }

  /** A page continues a list of `after` entries of a log; read after the job's end, it does so to the log's end. */
  ghost predicate Continues<T>(page: Page<T>, after: nat, entries: seq<T>, ended: bool) {
    && after <= |entries|
    && page.items <= entries[after..]
    && page.next == after + |page.items|
    && (ended ==> page.items == entries[after..])
  }

  /** What the loop of the current generation may rely on. */
  ghost predicate PhaseOk(c: Client, phase: Phase, s: Served) {
    match phase
    case Waiting => true
    case Stopped => true
    case AskedJob(reply) => reply.Some? ==> Truthful(reply.value, s)
    case AskedPartial(seen, after, reply) =>
      && Truthful(seen, s) && after == |c.partial|
      && (reply.Some? ==> Continues(reply.value, after, s.log.partials, !seen.status.Running?))
    case AskedProgress(seen, caughtUp, after, reply) =>
      && Truthful(seen, s) && after == |c.progress|
      && (caughtUp && !seen.status.Running? ==> c.partial == s.log.partials)
      && (reply.Some? ==> Continues(reply.value, after, s.log.progress, !seen.status.Running?))
    case Ended(status, partialsComplete, progressComplete) =>
      && s.status == status && !status.Running?
      && (partialsComplete ==> c.partial == s.log.partials)
      && (progressComplete ==> c.progress == s.log.progress)
  }

  /** Both lists are beginnings of the polled job's logs, up to their cursors. */
  ghost predicate ListsOk(c: Client, s: Served) {
    && c.partialCursor == |c.partial| && c.partial <= s.log.partials
    && c.progressCursor == |c.progress| && c.progress <= s.log.progress
    && Consistent(s.log)
  }

  ghost predicate Polls(c: Client, s: Served) {
    && c.generation in c.loops && c.active == Some(c.loops[c.generation].job)
    && ListsOk(c, s) && PhaseOk(c, c.loops[c.generation].phase, s)
  }

  ghost predicate Inv(w: World) {
    && (forall job :: job in w.server ==> Consistent(w.server[job].log))
    && (w.client.active.Some? ==> w.client.active.value in w.server && Polls(w.client, w.server[w.client.active.value]))
  }

  // ---- Steps keep it ---------------------------------------------------------------------

  lemma AnswerOk(c: Client, phase: Phase, s: Served)
    requires ListsOk(c, s) && PhaseOk(c, phase, s)
    ensures PhaseOk(c, Answered(phase, s), s)
  {
  }

  lemma TowardsProgressOk(c: Client, seen: Snapshot, caughtUp: bool, s: Served)
    requires ListsOk(c, s) && Truthful(seen, s)
    requires caughtUp && !seen.status.Running? ==> c.partial == s.log.partials
    ensures PhaseOk(c, TowardsProgress(c, seen, caughtUp), s)
  {
  }

  lemma TowardsPartialOk(c: Client, seen: Snapshot, s: Served)
    requires ListsOk(c, s) && Truthful(seen, s)
    ensures PhaseOk(c, TowardsPartial(c, seen), s)
  {
    if !(seen.signalsFound > 0 || c.partialCursor > 0) {
      TowardsProgressOk(c, seen, true, s);
    }
  }

  lemma AppendPage<T>(list: seq<T>, page: Page<T>, entries: seq<T>, ended: bool)
    requires list <= entries && Continues(page, |list|, entries, ended)
    ensures list + page.items <= entries && page.next == |list + page.items|
    ensures ended ==> list + page.items == entries
  {
    assert entries == list + entries[|list|..];
  }

  lemma TakePartialOk(c: Client, seen: Snapshot, page: Page<PartialItem>, s: Served)
    requires Polls(c, s) && c.loops[c.generation].phase == AskedPartial(seen, |c.partial|, Some(page))
    ensures ListsOk(TakePartial(c, c.generation, page), s)
    ensures !seen.status.Running? ==> TakePartial(c, c.generation, page).partial == s.log.partials
  {
    AppendPage(c.partial, page, s.log.partials, !seen.status.Running?);
  }

  lemma TakeProgressOk(c: Client, seen: Snapshot, caughtUp: bool, page: Page<ProgressItem>, s: Served)
    requires Polls(c, s) && c.loops[c.generation].phase == AskedProgress(seen, caughtUp, |c.progress|, Some(page))
    ensures ListsOk(TakeProgress(c, c.generation, page), s)
    ensures !seen.status.Running? ==> TakeProgress(c, c.generation, page).progress == s.log.progress
  {
    AppendPage(c.progress, page, s.log.progress, !seen.status.Running?);
  }

  lemma CurrentArrives(c: Client, s: Served)
    requires Polls(c, s)
    ensures Polls(ReplyArrives(c, c.generation), s)
  {
    var g := c.generation;
    match c.loops[g].phase
    case AskedJob(Some(seen)) =>
      TowardsPartialOk(c, seen, s);
    case AskedPartial(seen, _, Some(page)) =>
      TakePartialOk(c, seen, page, s);
      TowardsProgressOk(TakePartial(c, g, page), seen, true, s);
    case AskedProgress(seen, caughtUp, _, Some(page)) =>
      TakeProgressOk(c, seen, caughtUp, page, s);
    case _ =>
  }

  lemma CurrentFails(c: Client, s: Served, gone: bool, giveUp: bool)
    requires Polls(c, s)
    ensures var c' := RequestFails(c, c.generation, gone, giveUp); c'.active.Some? ==> Polls(c', s)
  {
    if c.loops[c.generation].phase.AskedPartial? {
      TowardsProgressOk(c, c.loops[c.generation].phase.seen, false, s);
    }
  }

  /** A superseded loop changes neither the lists nor the current loop. */
  lemma StaleChangesNothing(c: Client, g: nat, gone: bool, giveUp: bool)
    requires g in c.loops && !Current(c, g)
    ensures ReplyArrives(c, g) == To(c, g, ReplyArrives(c, g).loops[g].phase)
    ensures RequestFails(c, g, gone, giveUp) == To(c, g, RequestFails(c, g, gone, giveUp).loops[g].phase)
    ensures TimerFires(c, g) == To(c, g, Stopped)
  {
    assert c == To(c, g, c.loops[g].phase) by {
      assert c.loops[g := c.loops[g]] == c.loops;
    }
  }

  lemma OtherLoopMoves(c: Client, s: Served, g: nat, phase: Phase)
    requires Polls(c, s) && g in c.loops && g != c.generation
    ensures Polls(To(c, g, phase), s)
  {
    assert To(c, g, phase).loops[c.generation] == c.loops[c.generation];
  }

  lemma ClientStepOk(w: World, e: Event)
    requires Inv(w) && (e.Timer? || e.Answer? || e.Arrive? || e.Fail?) && e.loop in w.client.loops && w.client.active.Some?
    ensures Inv(Step(w, e))
  {
    var c, g, s := w.client, e.loop, w.server[w.client.active.value];
    if g == c.generation {
      match e
      case Timer(_) =>
      case Answer(_) => AnswerOk(c, c.loops[g].phase, s);
      case Arrive(_) => CurrentArrives(c, s);
      case Fail(_, gone, giveUp) => CurrentFails(c, s, gone, giveUp);
    } else {
      StaleChangesNothing(c, g, e.Fail? && e.gone, e.Fail? && e.giveUp);
      OtherLoopMoves(c, s, g, Step(w, e).client.loops[g].phase);
    }
  }

  /** What the server adds leaves everything the client has true. */
  lemma GrowthOk(c: Client, s: Served, s': Served)
    requires Polls(c, s) && Consistent(s'.log) && s.log.partials <= s'.log.partials && s.log.progress <= s'.log.progress
    requires !s.status.Running? ==> s' == s
    ensures Polls(c, s')
  {
  }

  /** One job of the server has grown or ended. */
  lemma ServerStepOk(w: World, job: Id, s': Served)
    requires Inv(w) && job in w.server && Consistent(s'.log)
    requires w.server[job].log.partials <= s'.log.partials && w.server[job].log.progress <= s'.log.progress
    requires !w.server[job].status.Running? ==> s' == w.server[job]
    ensures Inv(w.(server := w.server[job := s']))
  {
    if w.client.active == Some(job) {
      GrowthOk(w.client, w.server[job], s');
    }
  }

  lemma PollOk(w: World, job: Id)
    requires Inv(w) && job in w.server
    ensures Inv(w.(client := PollJob(w.client, job)))
  {
  }

  lemma LoopStepOk(w: World, e: Event)
    requires Inv(w) && (e.Timer? || e.Answer? || e.Arrive? || e.Fail?)
    ensures Inv(Step(w, e))
  {
    if e.loop in w.client.loops {
      if w.client.active.Some? {
        ClientStepOk(w, e);
      } else {
        StaleChangesNothing(w.client, e.loop, e.Fail? && e.gone, e.Fail? && e.giveUp);
      }
    }
  }

  lemma StepOk(w: World, e: Event)
    requires Inv(w)
    ensures Inv(Step(w, e))
  {
    match e
    case NewJob(job) =>
    case RecordProgress(job, symbol, success, error) =>
      if job in w.server {
        RecordingKeepsConsistent(w.server[job].log, symbol, success, error, []);
        ServerStepOk(w, job, Recorded(w.server[job], symbol, success, error));
      }
    case RecordResult(job, symbol, qualifying) =>
      if job in w.server {
        RecordingKeepsConsistent(w.server[job].log, symbol, true, None, qualifying);
        ServerStepOk(w, job, Found(w.server[job], symbol, qualifying));
      }
    case CloseJob(job, outcome) =>
      if job in w.server {
        ServerStepOk(w, job, Closed(w.server[job], outcome));
      }
    case Poll(job) =>
      if job in w.server {
        PollOk(w, job);
      }
    case Stop =>
    case _ =>
      LoopStepOk(w, e);
  }

  lemma {:induction false} RunOk(events: seq<Event>, n: nat)
    requires n <= |events|
    ensures Inv(Run(events, n))
  {
    if n > 0 {
      RunOk(events, n - 1);
      StepOk(Run(events, n - 1), events[n - 1]);
    }
  }

  // ---- What a reader sees ----------------------------------------------------------------

  /** While a job is polled, both lists are beginnings of its logs: nothing twice, nothing left out. */
  lemma ListsArePrefixes(events: seq<Event>, n: nat)
    requires n <= |events| && Run(events, n).client.active.Some?
    ensures var w := Run(events, n);
            && w.client.active.value in w.server
            && w.client.partial <= w.server[w.client.active.value].log.partials
            && w.client.progress <= w.server[w.client.active.value].log.progress
            && (forall i :: 0 <= i < |w.client.partial| ==> w.client.partial[i].number == i + 1)
            && (forall i :: 0 <= i < |w.client.progress| ==> w.client.progress[i].number == i + 1)
  {
    RunOk(events, n);
  }

  /** Once the current loop has seen the end of its job and the fetch behind it succeeded (or was not needed), the
      list is the whole log. */
  lemma CompleteAtTheEnd(events: seq<Event>, n: nat)
    requires n <= |events|
    requires var c := Run(events, n).client;
             c.active.Some? && c.generation in c.loops && c.loops[c.generation].phase.Ended?
    ensures Run(events, n).client.active.value in Run(events, n).server
    ensures var w := Run(events, n);
            var phase, log := w.client.loops[w.client.generation].phase, w.server[w.client.active.value].log;
            && w.server[w.client.active.value].status == phase.status && !phase.status.Running?
            && (phase.partialsComplete ==> w.client.partial == log.partials)
            && (phase.progressComplete ==> w.client.progress == log.progress)
  {
    RunOk(events, n);
  }

  /** A request of this loop failed for good: the recovery window was over. */
  ghost predicate GaveUp(events: seq<Event>, n: nat, g: nat)
    requires n <= |events|
  {
    exists i :: 0 <= i < n && events[i].Fail? && events[i].loop == g && events[i].giveUp
  }

  /** The loop that counts has stopped asking. */
  ghost predicate Silent(c: Client) {
    c.active.Some? && c.generation in c.loops && c.loops[c.generation].phase.Stopped?
  }

  lemma FailStops(c: Client, g: nat, gone: bool, giveUp: bool)
    requires g in c.loops && Silent(RequestFails(c, g, gone, giveUp)) && (c.active.Some? ==> Current(c, c.generation))
    ensures (g == c.generation && giveUp) || Silent(c)
  {
  }

  lemma OthersNeverStop(w: World, e: Event)
    requires Inv(w) && !e.Fail? && Silent(Step(w, e).client)
    ensures Silent(w.client) && w.client.generation == Step(w, e).client.generation
  {
    hide Recorded, Found, Closed, PhaseOk, ListsOk, Consistent;
  }

  lemma StepStops(w: World, e: Event)
    requires Inv(w) && Silent(Step(w, e).client)
    ensures var g := Step(w, e).client.generation;
            (e.Fail? && e.loop == g && e.giveUp) || (Silent(w.client) && w.client.generation == g)
  {
    if e.Fail? {
      hide Silent;
      if e.loop in w.client.loops {
        FailStops(w.client, e.loop, e.gone, e.giveUp);
      }
    } else {
      OthersNeverStop(w, e);
    }
  }

  /** The loop that counts stops asking only when its job has ended or a request of it failed beyond recovery. */
  lemma {:induction false} PollingGoesOn(events: seq<Event>, n: nat)
    requires n <= |events|
    requires Silent(Run(events, n).client)
    ensures GaveUp(events, n, Run(events, n).client.generation)
  {
    if n > 0 {
      RunOk(events, n - 1);
      StepStops(Run(events, n - 1), events[n - 1]);
      var g := Run(events, n).client.generation;
      if !(events[n - 1].Fail? && events[n - 1].loop == g && events[n - 1].giveUp) {
        PollingGoesOn(events, n - 1);
      }
    }
  }

  /** A loop that was superseded once never acts again: its replies leave the lists, the cursors and the polled job
      as they are. */
  lemma SupersededIsSilent(w: World, e: Event)
    requires e.Timer? || e.Answer? || e.Arrive? || e.Fail?
    requires e.loop in w.client.loops && !Current(w.client, e.loop)
    ensures var c, c' := w.client, Step(w, e).client;
            && c'.partial == c.partial && c'.progress == c.progress && c'.active == c.active && c'.generation == c.generation
            && c'.partialCursor == c.partialCursor && c'.progressCursor == c.progressCursor
            && !Current(c', e.loop)
  {
    StaleChangesNothing(w.client, e.loop, e.Fail? && e.gone, e.Fail? && e.giveUp);
  }

  ghost predicate LoopsKnown(c: Client) {
    forall g :: g in c.loops ==> g <= c.generation
  }

  lemma StepSuperseded(w: World, e: Event, g: nat)
    requires LoopsKnown(w.client) && g in w.client.loops && !Current(w.client, g)
    ensures LoopsKnown(Step(w, e).client) && g in Step(w, e).client.loops && !Current(Step(w, e).client, g)
  {
    if (e.Timer? || e.Answer? || e.Arrive? || e.Fail?) && e.loop in w.client.loops {
      LoopMoves(w, e);
    }
  }

  lemma LoopMoves(w: World, e: Event)
    requires (e.Timer? || e.Answer? || e.Arrive? || e.Fail?) && e.loop in w.client.loops
    ensures var c, c' := w.client, Step(w, e).client;
            && c'.generation == c.generation && (c'.active == c.active || c'.active == None)
            && c'.loops.Keys == c.loops.Keys
            && (forall g :: g in c.loops ==> c'.loops[g].job == c.loops[g].job)
  {
  }

  /** For ever: no later event makes it current again. */
  lemma {:induction false} SupersededForEver(events: seq<Event>, m: nat, n: nat, g: nat)
    requires m <= n <= |events| && g in Run(events, m).client.loops && !Current(Run(events, m).client, g)
    ensures g in Run(events, n).client.loops && !Current(Run(events, n).client, g)
  {
    if n > m {
      SupersededForEver(events, m, n - 1, g);
      AllLoopsKnown(events, n - 1);
      StepSuperseded(Run(events, n - 1), events[n - 1], g);
    }
  }

  lemma {:induction false} AllLoopsKnown(events: seq<Event>, n: nat)
    requires n <= |events|
    ensures LoopsKnown(Run(events, n).client)
  {
    if n > 0 {
      AllLoopsKnown(events, n - 1);
      var w, e := Run(events, n - 1), events[n - 1];
      if (e.Timer? || e.Answer? || e.Arrive? || e.Fail?) && e.loop in w.client.loops {
        LoopMoves(w, e);
      }
    }
  }
}
