/** The polling hook, changed in place by its handlers (useScanJob.ts:89-228, 302-317), against a server job read through its
    cursor methods. */
module ScanJobHooks {
  import opened Common
  import JobRegistry
  import opened ScanJobs
  import opened JobPolling

  class ScanJobHook {
    var generation: nat
    var activeJob: Option<JobRegistry.Id>
    var partialCursor: nat
    var partial: seq<PartialItem>
    var progressCursor: nat
    var progress: seq<ProgressItem>
    var loops: map<nat, Loop>
    // what the server holds, and all that happened so far
    ghost var server: map<JobRegistry.Id, Served>
    ghost var history: seq<Event>

    ghost function Contents(): Client
      reads this
    {
      Client(generation, activeJob, partialCursor, partial, progressCursor, progress, loops)
    }

    /** Hook and server are where their history leads, and keep what the protocol keeps. */
    ghost predicate Valid()
      reads this
    {
      World(Contents(), server) == Run(history, |history|) && Inv(World(Contents(), server))
    }

    /** While a job is polled both lists are duplicate-free, gap-free beginnings of its logs, and whatever the loop that
        saw its end could fetch is complete. */
    ghost predicate Promises()
      reads this
    {
      activeJob.Some? ==>
        && activeJob.value in server && generation in loops
        && partial <= server[activeJob.value].log.partials && progress <= server[activeJob.value].log.progress
        && (forall i :: 0 <= i < |partial| ==> partial[i].number == i + 1)
        && (forall i :: 0 <= i < |progress| ==> progress[i].number == i + 1)
        && var phase := loops[generation].phase;
           phase.Ended? ==>
             && server[activeJob.value].status == phase.status && !phase.status.Running?
             && (phase.partialsComplete ==> partial == server[activeJob.value].log.partials)
             && (phase.progressComplete ==> progress == server[activeJob.value].log.progress)
    }

    constructor ()
      ensures Valid() && Promises() && history == []
    {
      generation, activeJob, partialCursor, partial, progressCursor, progress := 0, None, 0, [], 0, [];
      loops, server, history := map[], map[], [];
    }

    /** Note the event that led here. */
    ghost method Record(before: World, e: Event)
      requires before == Run(history, |history|) && Inv(before) && World(Contents(), server) == Step(before, e)
      modifies this`history
      ensures Valid() && history == old(history) + [e]
    {
      hide Run, Step, Inv;
      RunGrows(history, e);
      StepOk(before, e);
      history := history + [e];
    }

    /** A valid hook keeps its promises. */
    lemma Kept()
      requires Valid()
      ensures Promises()
    {
    }

    // ---- Calls and timers ------------------------------------------------------------------

    /** Empty lists and one loop that counts, whatever other loops are still alive. */
    method Poll(job: JobRegistry.Id)
      requires Valid() && job in server
      modifies this
      ensures Valid() && Promises() && history == old(history) + [Event.Poll(job)]
      ensures partial == [] && progress == [] && activeJob == Some(job)
      ensures forall g :: g in loops && Current(Contents(), g) ==> g == generation && g > old(generation)
    {
      hide Run, Step, Inv, Promises;
      ghost var before := World(Contents(), server);
      Restart(job);
      PollStep(before, job);
      Record(before, Event.Poll(job));
      Kept();
    }

    method Restart(job: JobRegistry.Id)
      modifies this`generation, this`activeJob, this`partialCursor, this`progressCursor, this`partial, this`progress, this`loops
      ensures Contents() == PollJob(old(Contents()), job)
    {
      generation := generation + 1;
      activeJob := Some(job);
      partialCursor, progressCursor := 0, 0;
      partial, progress := [], [];
      loops := loops[generation := Loop(job, AskedJob(None))];
    }

    /** After cancelling or unmounting no loop counts. */
    method StopPolling()
      requires Valid()
      modifies this
      ensures Valid() && Promises() && history == old(history) + [Stop]
      ensures forall g :: g in loops ==> !Current(Contents(), g)
    {
      hide Run, Step, Inv, Promises;
      ghost var before := World(Contents(), server);
      activeJob := None;
      StopStep(before);
      Record(before, Stop);
      Kept();
    }

    method Superseded(g: nat) returns (yes: bool)
      requires g in loops
      ensures yes == !Current(Contents(), g)
    {
      yes := activeJob != Some(loops[g].job) || generation != g;
    }

    method MoveTo(g: nat, phase: Phase)
      requires g in loops
      modifies this`loops
      ensures Contents() == To(old(Contents()), g, phase)
    {
      loops := loops[g := loops[g].(phase := phase)];
    }

    method OnTimer(g: nat)
      requires Valid() && g in loops && loops[g].phase.Waiting?
      modifies this
      ensures Valid() && Promises() && history == old(history) + [Timer(g)]
      ensures loops.Keys == old(loops).Keys && (loops[g].phase.AskedJob? <==> old(Current(Contents(), g)))
    {
      hide Run, Step, Inv, Promises;
      ghost var before := World(Contents(), server);
      var superseded := Superseded(g);
      MoveTo(g, if superseded then Stopped else AskedJob(None));
      LoopStep(before, Timer(g));
      Record(before, Timer(g));
      Kept();
    }

    // ---- Replies ---------------------------------------------------------------------------

    /** After the partial results: ask for the progress log, or settle. */
    method AskProgress(g: nat, seen: Snapshot, partialsComplete: bool)
      requires g in loops
      modifies this`loops
      ensures Contents() == To(old(Contents()), g, TowardsProgress(old(Contents()), seen, partialsComplete))
    {
      if seen.processed > 0 || progressCursor > 0 {
        MoveTo(g, AskedProgress(seen, partialsComplete, progressCursor, None));
      } else if seen.status.Running? {
        MoveTo(g, Waiting);
      } else {
        MoveTo(g, Ended(seen.status, partialsComplete, true));
      }
    }

    method OnJob(g: nat, seen: Snapshot)
      requires g in loops
      modifies this`loops
      ensures Contents() == JobArrives(old(Contents()), g, seen)
    {
      var superseded := Superseded(g);
      if superseded {
        MoveTo(g, Stopped);
        return;
      }
      if seen.signalsFound > 0 || partialCursor > 0 {
        MoveTo(g, AskedPartial(seen, partialCursor, None));
      } else {
        AskProgress(g, seen, true);
      }
    }

    method OnPartial(g: nat, seen: Snapshot, page: Page<PartialItem>)
      requires g in loops
      modifies this`partialCursor, this`partial, this`loops
      ensures Contents() == PartialArrives(old(Contents()), g, seen, page)
    {
      var superseded := Superseded(g);
      if !superseded && |page.items| > 0 {
        partialCursor := page.next;
        partial := partial + page.items;
      }
      AskProgress(g, seen, true);
    }

    method OnProgress(g: nat, seen: Snapshot, caughtUp: bool, page: Page<ProgressItem>)
      requires g in loops
      modifies this`progressCursor, this`progress, this`loops
      ensures Contents() == ProgressArrives(old(Contents()), g, seen, caughtUp, page)
    {
      var superseded := Superseded(g);
      if !superseded && |page.items| > 0 {
        progressCursor := page.next;
        progress := progress + page.items;
      }
      MoveTo(g, if seen.status.Running? then Waiting else Ended(seen.status, caughtUp, true));
    }

    /** The reply a loop waits for arrives. Lists only grow, and a superseded loop changes neither of them. */
    method OnReply(g: nat)
      requires Valid() && g in loops
      modifies this
      ensures Valid() && Promises() && history == old(history) + [Arrive(g)]
      ensures old(partial) <= partial && old(progress) <= progress && activeJob == old(activeJob)
      ensures old(!Current(Contents(), g)) ==> partial == old(partial) && progress == old(progress)
      ensures match old(loops[g].phase)
              case AskedJob(Some(seen)) =>
                old(Current(Contents(), g)) ==>
                  g in loops && (loops[g].phase.AskedPartial? <==> seen.signalsFound > 0 || old(partialCursor) > 0)
              case _ => true
    {
      hide Run, Step, Inv, Promises;
      ghost var before := World(Contents(), server);
      hide ReplyArrives;
      TakeReply(g);
      ListsGrow(before.client, g);
      LoopStep(before, Arrive(g));
      Record(before, Arrive(g));
      Kept();
    }

    method TakeReply(g: nat)
      requires g in loops
      modifies this
      ensures Contents() == ReplyArrives(old(Contents()), g) && server == old(server) && history == old(history)
    {
      match loops[g].phase {
        case AskedJob(Some(seen)) => OnJob(g, seen);
        case AskedPartial(seen, _, Some(page)) => OnPartial(g, seen, page);
        case AskedProgress(seen, caughtUp, _, Some(page)) => OnProgress(g, seen, caughtUp, page);
        case _ =>
      }
    }

    /** A request fails: lists stay, and polling ends for good only if the job is gone. */
    method OnFailed(g: nat, gone: bool, giveUp: bool)
      requires Valid() && g in loops
      modifies this
      ensures Valid() && Promises() && history == old(history) + [Fail(g, gone, giveUp)]
      ensures partial == old(partial) && progress == old(progress) && generation == old(generation)
      ensures activeJob != old(activeJob) ==> gone && old(Current(Contents(), g)) && activeJob.None?
      ensures old(loops[g].phase.AskedJob? && Current(Contents(), g)) && !gone ==> g in loops && loops[g].phase == if giveUp then Stopped else Waiting
    {
      hide Run, Step, Inv, Promises;
      ghost var before := World(Contents(), server);
      hide RequestFails;
      TakeFailure(g, gone, giveUp);
      FailureKeepsLists(before.client, g, gone, giveUp);
      LoopStep(before, Fail(g, gone, giveUp));
      Record(before, Fail(g, gone, giveUp));
      Kept();
    }

    method TakeFailure(g: nat, gone: bool, giveUp: bool)
      requires g in loops
      modifies this`loops, this`activeJob
      ensures Contents() == RequestFails(old(Contents()), g, gone, giveUp)
    {
      match loops[g].phase {
        case AskedPartial(seen, _, _) => AskProgress(g, seen, false);
        case AskedProgress(seen, caughtUp, _, _) =>
          MoveTo(g, if seen.status.Running? then Waiting else Ended(seen.status, caughtUp, false));
        case AskedJob(_) =>
          var superseded := Superseded(g);
          MoveTo(g, if superseded || gone || giveUp then Stopped else Waiting);
          if !superseded && gone {
            activeJob := None;
          }
        case _ =>
      }
    }

    // ---- The server's side -----------------------------------------------------------------

    /** The server answers the loop's open request by reading the job behind the cursor it was sent. */
    method OnAnswer(g: nat, job: ScanJob)
      requires Valid() && g in loops && loops[g].job in server
      requires server[loops[g].job] == Served(job.Contents(), job.status)
      modifies this
      ensures Valid() && Promises() && history == old(history) + [Answer(g)]
      ensures partial == old(partial) && progress == old(progress) && activeJob == old(activeJob)
    {
      hide Run, Step, Inv, Promises;
      ghost var before := World(Contents(), server);
      hide Answered;
      var phase := Answering(loops[g].phase, job);
      MoveTo(g, phase);
      AnswerStep(before, g);
      Record(before, Answer(g));
      Kept();
    }

    static method Answering(phase: Phase, job: ScanJob) returns (answered: Phase)
      ensures answered == Answered(phase, Served(job.Contents(), job.status))
    {
      match phase {
        case AskedJob(None) =>
          answered := AskedJob(Some(Snapshot(job.status, job.signalsFound, job.processed)));
        case AskedPartial(seen, after, None) =>
          var page := job.PartialAfter(after);
          PageIs(job.partials, after, page);
          answered := AskedPartial(seen, after, Some(page));
        case AskedProgress(seen, caughtUp, after, None) =>
          var page := job.ProgressAfter(after);
          PageIs(job.progress, after, page);
          answered := AskedProgress(seen, caughtUp, after, Some(page));
        case _ =>
          answered := phase;
      }
    }

    /** Something happens to the jobs themselves; the hook does not learn of it. */
    ghost method ServerMoves(e: Event)
      requires Valid() && (e.NewJob? || e.RecordProgress? || e.RecordResult? || e.CloseJob?)
      modifies this`server, this`history
      ensures Valid() && Promises() && history == old(history) + [e]
      ensures Contents() == old(Contents())
    {
      hide Run, Step, Inv, Promises;
      ghost var before := World(Contents(), server);
      ServerSideOnly(before, e);
      server := Step(before, e).server;
      Record(before, e);
      Kept();
    }
  }

  /** What a page promises determines it. */
  lemma PageIs<T>(entries: seq<T>, after: nat, page: Page<T>)
    requires page.next == after + |page.items|
    requires if after <= |entries| then entries[..after] + page.items == entries else page.items == []
    ensures page == After(entries, after, page.status)
  {
    if after <= |entries| {
      assert entries[after..] == (entries[..after] + page.items)[after..] == page.items;
    }
  }

  lemma ListsGrow(c: Client, g: nat)
    requires g in c.loops
    ensures var c' := ReplyArrives(c, g);
            && c.partial <= c'.partial && c.progress <= c'.progress && c'.active == c.active
            && (!Current(c, g) ==> c'.partial == c.partial && c'.progress == c.progress)
            && match c.loops[g].phase
               case AskedJob(Some(seen)) =>
                 Current(c, g) ==> g in c'.loops && (c'.loops[g].phase.AskedPartial? <==> seen.signalsFound > 0 || c.partialCursor > 0)
               case _ => true
  {
  }

  lemma PollStep(w: World, job: JobRegistry.Id)
    requires job in w.server
    ensures Step(w, Event.Poll(job)) == w.(client := PollJob(w.client, job))
    ensures forall g :: g in PollJob(w.client, job).loops && Current(PollJob(w.client, job), g) ==> g == w.client.generation + 1
  {
  }

  lemma StopStep(w: World)
    ensures Step(w, Stop) == w.(client := StopPolling(w.client))
  {
  }

  lemma AnswerStep(w: World, g: nat)
    requires g in w.client.loops && w.client.loops[g].job in w.server
    ensures Step(w, Answer(g)) == w.(client := To(w.client, g, Answered(w.client.loops[g].phase, w.server[w.client.loops[g].job])))
  {
  }

  lemma FailureKeepsLists(c: Client, g: nat, gone: bool, giveUp: bool)
    requires g in c.loops
    ensures var c' := RequestFails(c, g, gone, giveUp);
            && c'.partial == c.partial && c'.progress == c.progress && c'.generation == c.generation
            && (c'.active != c.active ==> gone && Current(c, g) && c'.active.None?)
            && (c.loops[g].phase.AskedJob? && Current(c, g) && !gone ==> g in c'.loops && c'.loops[g].phase == if giveUp then Stopped else Waiting)
  {
  }

  lemma LoopStep(w: World, e: Event)
    requires (e.Timer? || e.Arrive? || e.Fail?) && e.loop in w.client.loops && (e.Timer? ==> w.client.loops[e.loop].phase.Waiting?)
    ensures Step(w, e) == match e
                          case Timer(g) => w.(client := TimerFires(w.client, g))
                          case Arrive(g) => w.(client := ReplyArrives(w.client, g))
                          case Fail(g, gone, giveUp) => w.(client := RequestFails(w.client, g, gone, giveUp))
  {
  }

  lemma ServerSideOnly(w: World, e: Event)
    requires e.NewJob? || e.RecordProgress? || e.RecordResult? || e.CloseJob?
    ensures Step(w, e) == World(w.client, Step(w, e).server)
  {
  }

  lemma RunGrows(events: seq<Event>, e: Event)
    ensures Run(events + [e], |events| + 1) == Step(Run(events, |events|), e)
  {
    RunOfLonger(events, e, |events|);
  }

  lemma {:induction false} RunOfLonger(events: seq<Event>, e: Event, n: nat)
    requires n <= |events|
    ensures Run(events + [e], n) == Run(events, n)
  {
    if n > 0 {
      RunOfLonger(events, e, n - 1);
    }
  }
}
