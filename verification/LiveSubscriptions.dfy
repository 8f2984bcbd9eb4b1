/** Whether the transport carries anything that nobody refers to any more (subscription_manager.py:12-18 against
    market_data_service.py:138-208). */
module LiveSubscriptions {
  import opened Common
  import opened Live

  /** The unsubscribe for this token is under way on the present connection. */
  predicate Leaving(w: World, t: Token) {
    w.holder.SendingUnsubscribe? && w.holder.token == t && w.holder.conn == w.conn
  }

  /** While connected, only registered tokens are subscribed, and those just being unsubscribed. */
  ghost predicate OnlyRegistered(w: World) {
    w.state.Connected? ==> forall t :: t in w.subscribed ==> t in w.byToken || Leaving(w, t)
  }

  /** An unsubscribe of a subscribed token fails, or a group is restored that holds a token released since the
      connection was made. */
  predicate Leaks(w: World, e: Event) {
    && Enabled(w, e) && w.state.Connected?
    && match e
       case SendDone(ok) => !ok && w.holder.SendingUnsubscribe? && w.holder.conn == w.conn && w.holder.token in w.subscribed
       case GroupDone(ok) => ok && exists t :: t in w.task.groups[0] && t !in w.byToken && !Leaving(w, t)
       case _ => false
  }

  lemma SendLeaks(w: World, ok: bool)
    requires Inv(w) && OnlyRegistered(w) && Enabled(w, SendDone(ok))
    ensures OnlyRegistered(Step(w, SendDone(ok))) <==> !Leaks(w, SendDone(ok))
  {
    if Leaks(w, SendDone(ok)) {
      assert w.holder.token in Step(w, SendDone(ok)).subscribed && w.holder.token !in Step(w, SendDone(ok)).byToken;
    }
  }

  lemma GroupLeaks(w: World, ok: bool)
    requires Inv(w) && OnlyRegistered(w) && Enabled(w, GroupDone(ok))
    ensures OnlyRegistered(Step(w, GroupDone(ok))) <==> !Leaks(w, GroupDone(ok))
  {
    var next := Step(w, GroupDone(ok));
    if Leaks(w, GroupDone(ok)) {
      var t :| t in w.task.groups[0] && t !in w.byToken && !Leaving(w, t);
      assert t in next.subscribed && !Leaving(next, t);
    }
  }

  lemma ReleaseKeeps(w: World, symbol: Symbol)
    requires Inv(w) && OnlyRegistered(w) && w.holder.Free?
    ensures OnlyRegistered(Release(w, symbol))
  {
    var tokens := TokensOf(w.byToken, symbol);
    if symbol in w.refcounts && w.refcounts[symbol] == 1 && tokens != {} {
      assert Entry(tokens) in tokens;
    }
  }

  lemma ResolveKeeps(w: World, found: Option<Match>)
    requires Inv(w) && OnlyRegistered(w) && Enabled(w, ResolveDone(found))
    ensures OnlyRegistered(Step(w, ResolveDone(found)))
  {
  }

  lemma TickKeeps(w: World, token: Token, tick: Tick)
    requires OnlyRegistered(w)
    ensures OnlyRegistered(HandleTick(w, token, tick))
  {
    assert HandleTick(w, token, tick).byToken.Keys == w.byToken.Keys;
  }

  /** One event keeps the transport clean exactly if it does not leak. */
  lemma StepLeaks(w: World, e: Event)
    requires Inv(w) && OnlyRegistered(w)
    ensures OnlyRegistered(Step(w, e)) <==> !Leaks(w, e)
  {
    if Enabled(w, e) {
      match e
      case ReleaseCall(symbol) => ReleaseKeeps(w, symbol);
      case ResolveDone(found) => ResolveKeeps(w, found);
      case SendDone(ok) => SendLeaks(w, ok);
      case GroupDone(ok) => GroupLeaks(w, ok);
      case TickArrives(token, tick) => TickKeeps(w, token, tick);
      case _ =>
    }
  }

  ghost predicate CleanThrough(events: seq<Event>, n: nat)
    requires n <= |events|
  {
    forall i :: 0 <= i <= n ==> OnlyRegistered(Run(events, i))
  }

  ghost predicate NoLeakBefore(events: seq<Event>, n: nat)
    requires n <= |events|
  {
    forall i :: 0 <= i < n ==> !Leaks(Run(events, i), events[i])
  }

  lemma OneMoreClean(events: seq<Event>, n: nat)
    requires n < |events|
    ensures CleanThrough(events, n + 1) <==> CleanThrough(events, n) && OnlyRegistered(Run(events, n + 1))
    ensures NoLeakBefore(events, n + 1) <==> NoLeakBefore(events, n) && !Leaks(Run(events, n), events[n])
  {
    hide OnlyRegistered, Leaks, Run;
  }

  lemma LastIsClean(events: seq<Event>, n: nat)
    requires n <= |events| && CleanThrough(events, n)
    ensures OnlyRegistered(Run(events, n))
  {
  }

  lemma StartIsClean(events: seq<Event>)
    ensures CleanThrough(events, 0) && NoLeakBefore(events, 0)
  {
  }

  lemma NextIs(events: seq<Event>, n: nat)
    requires n < |events|
    ensures Run(events, n + 1) == Step(Run(events, n), events[n])
  {
  }

  /** At every moment of a run only registered tokens are subscribed if and only if no event leaked one. */
  lemma {:induction false} OnlyRegisteredAreSubscribedIff(events: seq<Event>, n: nat)
    requires n <= |events|
    ensures CleanThrough(events, n) <==> NoLeakBefore(events, n)
  {
    hide Run, Step, Leaks, OnlyRegistered, CleanThrough, NoLeakBefore, Inv;
    if n == 0 {
      StartIsClean(events);
    } else {
      OnlyRegisteredAreSubscribedIff(events, n - 1);
      OneMoreClean(events, n - 1);
      if CleanThrough(events, n - 1) {
        LastIsClean(events, n - 1);
        RunOk(events, n - 1);
        NextIs(events, n - 1);
        StepLeaks(Run(events, n - 1), events[n - 1]);
      }
    }
  }

  /** So in the quiet moments of such a run the transport carries exactly what is registered. */
  lemma SubscribedAreRegistered(events: seq<Event>, n: nat)
    requires n <= |events| && NoLeakBefore(events, n)
    requires var w := Run(events, n);
             w.state.Connected? && !w.task.Restoring? && !w.holder.SendingSubscribe? && !w.holder.SendingUnsubscribe? && !w.failed
    ensures Run(events, n).subscribed == Run(events, n).byToken.Keys
  {
    hide Leaks;
    OnlyRegisteredAreSubscribedIff(events, n);
    RegisteredAreSubscribed(events, n);
    assert OnlyRegistered(Run(events, n));
  }

  // ---- When a connection counts as failed ------------------------------------------------

  /** A subscription could not be sent on the present connection. */
  predicate FailsToSubscribe(w: World, e: Event) {
    && Enabled(w, e)
    && match e
       case SendDone(ok) => !ok && w.holder.SendingSubscribe? && w.holder.conn == w.conn
       case GroupDone(ok) => !ok
       case _ => false
  }

  ghost predicate FailedSince(events: seq<Event>, n: nat, from: nat)
    requires n <= |events|
  {
    exists i :: from <= i < n && FailsToSubscribe(Run(events, i), events[i])
  }

  ghost predicate Connects(events: seq<Event>, i: nat)
    requires i < |events|
  {
    events[i].ConnectDone? && Enabled(Run(events, i), events[i])
  }

  lemma StepFails(w: World, e: Event)
    ensures Step(w, e).failed == if e.ConnectDone? && Enabled(w, e) then false else w.failed || FailsToSubscribe(w, e)
  {
  }

  lemma OneMoreFailure(events: seq<Event>, n: nat, from: nat)
    requires from <= n < |events|
    ensures FailedSince(events, n + 1, from) <==> FailedSince(events, n, from) || FailsToSubscribe(Run(events, n), events[n])
  {
    hide Run, FailsToSubscribe;
  }

  /** A connection counts as failed if and only if a subscription failed on it: since event `from`, with which it was
      made (or the run began). */
  lemma {:induction false} FailedIff(events: seq<Event>, n: nat, from: nat)
    requires from <= n <= |events|
    requires from == 0 || Connects(events, from - 1)
    requires forall i :: from <= i < n ==> !Connects(events, i)
    ensures Run(events, n).failed <==> FailedSince(events, n, from)
  {
    if n > from {
      FailedIff(events, n - 1, from);
      OneMoreFailure(events, n - 1, from);
      hide Run, FailsToSubscribe, FailedSince, Step, Enabled;
      NextIs(events, n - 1);
      StepFails(Run(events, n - 1), events[n - 1]);
      assert !Connects(events, n - 1);
    } else if from > 0 {
      NextIs(events, from - 1);
      StepFails(Run(events, from - 1), events[from - 1]);
    }
  }

  // ---- A run that leaks ------------------------------------------------------------------

  /** Two symbols; the second is released while the first group is being restored. */
  const LEAKING := [
    AcquireCall(1), ResolveDone(Some(Match(7, 0))), AcquireCall(2), ResolveDone(Some(Match(8, 1))),
    ConnectDone([{7}, {8}]), ReleaseCall(2), SendDone(true), GroupDone(true), GroupDone(true)]

  function Registers(ticksFor: map<Token, Symbol>): map<Token, Info> {
    map t | t in ticksFor :: Info(ticksFor[t], if t == 7 then 0 else 1, [])
  }

  lemma LeaksAfterSix(w: World)
    requires w == Run(LEAKING, 5)
    ensures w.byToken == Registers(map[7 := 1, 8 := 2]) && w.refcounts == map[1 := 1, 2 := 1]
    ensures w.state.Connected? && w.holder.Free? && w.conn == 1 && w.subscribed == {} && !w.failed && w.task == Restoring([{7}, {8}])
  {
    var w1, w2, w3, w4 := Run(LEAKING, 1), Run(LEAKING, 2), Run(LEAKING, 3), Run(LEAKING, 4);
    assert w1 == Acquire(START, 1);
    assert w2 == Resolved(w1, 1, Some(Match(7, 0)));
    assert w3 == Acquire(w2, 2);
    assert w4 == Resolved(w3, 2, Some(Match(8, 1)));
    assert Union([{7}, {8}][1..]) == {8} by {
      assert [{7}, {8}][1..] == [{8}] && [{8}][1..] == [];
    }
    assert Union([{7}, {8}]) == {7, 8} == w4.byToken.Keys;
    assert w == ConnectedNow(w4, [{7}, {8}]);
    assert w.byToken == Registers(map[7 := 1, 8 := 2]);
  }

  lemma ReleaseTheSecond(w5: World, w6: World, w7: World)
    requires w5.byToken == Registers(map[7 := 1, 8 := 2]) && w5.refcounts == map[1 := 1, 2 := 1]
    requires w5.state.Connected? && w5.holder.Free? && w5.conn == 1 && w5.subscribed == {} && w5.task.Restoring?
    requires w6 == Step(w5, ReleaseCall(2)) && w7 == Step(w6, SendDone(true))
    ensures w7 == w5.(byToken := Registers(map[7 := 1]), refcounts := map[1 := 1], calls := w7.calls)
  {
    assert TokensOf(w5.byToken, 2) == {8};
    assert Entry(TokensOf(w5.byToken, 2)) in TokensOf(w5.byToken, 2);
    assert w6.byToken == Registers(map[7 := 1]) && w6.holder == SendingUnsubscribe(8, 1);
    assert w6.refcounts == map[1 := 1];
    assert 7 in w6.byToken;
    assert w7 == UnsubscribeSent(w6, 8, 1, true);
  }

  lemma RestoreBoth(w7: World, w8: World, w9: World)
    requires w7.task == Restoring([{7}, {8}]) && w7.subscribed == {}
    requires w8 == Step(w7, GroupDone(true)) && w9 == Step(w8, GroupDone(true))
    ensures w9 == w7.(task := Listening, subscribed := {7, 8})
  {
    assert [{7}, {8}][1..] == [{8}] && [{8}][1..] == [];
    assert w8 == GroupSent(w7, true) && w8.subscribed == {7};
    assert w9 == GroupSent(w8, true);
  }

  /** A quiet connection, nothing failed, and yet a released symbol's token is subscribed. */
  lemma ReleasedWhileRestoringStaysSubscribed(events: seq<Event>, w: World)
    requires events == LEAKING && w == Run(events, 9)
    ensures w.state.Connected? && w.task.Listening? && w.holder.Free? && !w.failed
    ensures w.byToken.Keys == {7} && 2 !in w.refcounts && w.subscribed == {7, 8}
  {
    LeaksAfterSix(Run(events, 5));
    hide Run, Step;
    NextIs(events, 5);
    NextIs(events, 6);
    NextIs(events, 7);
    NextIs(events, 8);
    ReleaseTheSecond(Run(events, 5), Run(events, 6), Run(events, 7));
    RestoreBoth(Run(events, 7), Run(events, 8), w);
  }
}
