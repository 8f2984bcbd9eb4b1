/** The two live-data classes wired together, changed in place between awaits (subscription_manager.py:26-59,
    market_data_service.py:71-226). Each handler is one segment between two awaits of the source. */
module LiveService {
  import opened Common
  import opened Live

  class MarketDataService {
    var refcounts: map<Symbol, nat>
    var holder: Holder
    var state: Connection
    var byToken: map<Token, Info>
    var task: Task
    var stopped: bool
    var conn: nat
    // the callbacks made, what the transport has subscribed, and all that happened so far
    ghost var calls: seq<Call>
    ghost var subscribed: set<Token>
    ghost var failed: bool
    ghost var history: seq<Event>

    ghost function Contents(): World
      reads this
    {
      World(refcounts, calls, holder, state, byToken, task, stopped, conn, subscribed, failed)
    }

    /** The object is where its history leads, and keeps what the protocol keeps. */
    ghost predicate Valid()
      reads this
    {
      Contents() == Run(history, |history|) && Inv(Contents())
    }

    /** Connected, no message under way and none failed on this connection. */
    ghost predicate Quiet()
      reads this
    {
      state.Connected? && !task.Restoring? && !holder.SendingSubscribe? && !holder.SendingUnsubscribe? && !failed
    }

    /** What holds whenever the service awaits something: in quiet moments every registered token is subscribed on the
        transport, the connection task lives while anything is registered and stops when nothing is, every registered symbol is referenced, and
        for each symbol the callbacks alternate while the count is the number of references given out. */
    ghost predicate Promises()
      reads this
    {
      && (Quiet() ==> byToken.Keys <= subscribed)
      && (byToken != map[] ==> !task.NoTask? && !task.Finished? && !stopped)
      && (byToken == map[] && !holder.SendingUnsubscribe? ==> task.NoTask? && (state.Connected? ==> holder.Closing?))
      && (forall t :: t in byToken ==> byToken[t].symbol in refcounts && TokensOf(byToken, byToken[t].symbol) == {t})
      && (forall s: Symbol :: Alternates(calls, s, s in refcounts))
      && (forall s: Symbol :: Count(Contents(), s) == Outstanding(history, |history|, s))
    }

    constructor ()
      ensures Valid() && history == [] && Promises()
    {
      refcounts, holder, state, byToken, task, stopped := map[], Free, Disconnected, map[], NoTask, false;
      calls, conn, subscribed, failed, history := [], 0, {}, false, [];
    }

    /** Note the event that led here. */
    ghost method Record(before: World, e: Event)
      requires before == Run(history, |history|) && Inv(before) && Contents() == Step(before, e)
      modifies this`history
      ensures Valid() && history == old(history) + [e]
    {
      hide Run, Step, Inv;
      RunGrows(history, e);
      StepOk(before, e);
      history := history + [e];
    }

    /** Every valid service keeps its promises. */
    lemma Kept()
      requires Valid()
      ensures Promises()
    {
      forall s: Symbol
        ensures Alternates(calls, s, s in refcounts) && Count(Contents(), s) == Outstanding(history, |history|, s)
      {
        CallbacksAlternate(history, |history|, s);
        CountIsOutstanding(history, |history|, s);
      }
    }

    // ---- The lock's holder -----------------------------------------------------------------

    method AcquireSymbol(symbol: Symbol)
      requires Valid() && holder.Free?
      modifies this
      ensures Valid() && Promises() && history == old(history) + [AcquireCall(symbol)]
      ensures symbol in refcounts && (holder.Resolving? <==> symbol !in old(refcounts))
    {
      hide Run, Promises, Served;
      ghost var before := Contents();
      var count := if symbol in refcounts then refcounts[symbol] else 0;
      refcounts := refcounts[symbol := count + 1];
      if count == 0 {
        calls := calls + [Subscribe(symbol)];
        holder := Resolving(symbol);
      }
      Record(before, AcquireCall(symbol));
      Kept();
    }

    method ReleaseSymbol(symbol: Symbol)
      requires Valid() && holder.Free?
      modifies this
      ensures Valid() && Promises() && history == old(history) + [ReleaseCall(symbol)]
      ensures symbol !in refcounts ==> TokensOf(byToken, symbol) == {}
    {
      hide Run, Promises, Served;
      ghost var before := Contents();
      if symbol in refcounts {
        if refcounts[symbol] > 1 {
          refcounts := refcounts[symbol := refcounts[symbol] - 1];
        } else {
          refcounts := refcounts - {symbol};
          calls := calls + [Unsubscribe(symbol)];
          UnsubscribeNow(symbol);
        }
      }
      Record(before, ReleaseCall(symbol));
      Kept();
    }

    /** Up to the send, or to its end when there is nothing to send. */
    method UnsubscribeNow(symbol: Symbol)
      requires forall t, u :: t in byToken && u in byToken && byToken[t].symbol == byToken[u].symbol ==> t == u
      modifies this`byToken, this`holder, this`stopped, this`task
      ensures Contents() == UnsubscribeSymbol(old(Contents()), symbol)
    {
      var tokens := set t | t in byToken && byToken[t].symbol == symbol;
      assert tokens == TokensOf(byToken, symbol);
      if tokens == {} {
        holder := Free;
        return;
      }
      var token :| token in tokens;
      assert Entry(tokens) in tokens;
      byToken := byToken - {token};
      if state.Connected? {
        holder := SendingUnsubscribe(token, conn);
      } else {
        FinishUnsubscribe();
      }
    }

    method FinishUnsubscribe()
      modifies this`stopped, this`task, this`holder
      ensures Contents() == AfterUnsubscribe(old(Contents()))
    {
      if |byToken| == 0 {
        stopped := true;
        task := NoTask;
        holder := Closing;
      } else {
        holder := Free;
      }
    }

    /** The equity was looked up. */
    method OnResolved(found: Option<Match>)
      requires Valid() && holder.Resolving? && (found.Some? ==> found.value.token !in byToken)
      modifies this
      ensures Valid() && Promises() && history == old(history) + [ResolveDone(found)]
      ensures found.Some? ==> found.value.token in byToken && !task.NoTask? && !task.Finished? && !stopped
    {
      hide Run, Promises, Served;
      ghost var before := Contents();
      if found.None? {
        holder := Free;
      } else {
        Register(holder.symbol, found.value);
      }
      Record(before, ResolveDone(found));
      Kept();
    }

    method Register(symbol: Symbol, equity: Match)
      modifies this`byToken, this`stopped, this`task, this`holder
      ensures Contents() == Resolved(old(Contents()), symbol, Some(equity))
    {
      byToken := byToken[equity.token := Info(symbol, equity.exchange, [])];
      if task.NoTask? || task.Finished? {
        stopped := false;
        task := Connecting;
      }
      holder := if state.Connected? then SendingSubscribe(equity.token, conn) else Free;
    }

    /** The transport is done with a message of the holder; a good one reached only the connection it was sent on. */
    method OnSent(ok: bool)
      requires Valid() && (holder.SendingSubscribe? || holder.SendingUnsubscribe?)
      modifies this
      ensures Valid() && Promises() && history == old(history) + [SendDone(ok)]
      ensures !holder.SendingSubscribe? && !holder.SendingUnsubscribe?
    {
      hide Run, Promises, Inv, Step;
      ghost var before := Contents();
      SendStep(before, ok);
      if holder.SendingSubscribe? {
        FinishSubscribe(holder.token, holder.conn, ok);
      } else {
        LeaveTransport(holder.token, holder.conn, ok);
        FinishUnsubscribe();
      }
      Record(before, SendDone(ok));
      Kept();
    }

    method FinishSubscribe(token: Token, sentOn: nat, ok: bool)
      modifies this`subscribed, this`failed, this`holder
      ensures Contents() == SubscribeSent(old(Contents()), token, sentOn, ok)
    {
      if sentOn == conn {
        if ok {
          subscribed := subscribed + {token};
        } else {
          failed := true;
        }
      }
      holder := Free;
    }

    ghost method LeaveTransport(token: Token, sentOn: nat, ok: bool)
      modifies this`subscribed
      ensures AfterUnsubscribe(Contents()) == UnsubscribeSent(old(Contents()), token, sentOn, ok)
    {
      if ok && sentOn == conn {
        subscribed := subscribed - {token};
      }
    }

    /** The end of stop(). */
    method OnClosed()
      requires Valid() && holder.Closing?
      modifies this
      ensures Valid() && Promises() && history == old(history) + [CloseDone]
      ensures state.Halted? && holder.Free? && byToken == map[]
    {
      hide Run, Promises, Served;
      ghost var before := Contents();
      state, holder := Halted, Free;
      subscribed := {};
      Record(before, CloseDone);
      Kept();
    }

    // ---- The connection task ---------------------------------------------------------------

    /** Connected: the registered tokens are taken down by exchange, to be subscribed group by group. */
    method OnConnected(groups: seq<set<Token>>)
      requires Valid() && task.Connecting? && Union(groups) == byToken.Keys
      modifies this
      ensures Valid() && Promises() && history == old(history) + [ConnectDone(groups)]
      ensures state.Connected? && conn == old(conn) + 1 && byToken == old(byToken)
    {
      hide Run, Promises, Inv, Step, Union;
      ghost var before := Contents();
      state, conn := Connected, conn + 1;
      subscribed, failed := {}, false;
      task := if groups == [] then Listening else Restoring(groups);
      ConnectStep(before, groups);
      Record(before, ConnectDone(groups));
      Kept();
    }

    /** One group has been sent; after the last one the task listens. */
    method OnGroupSent(ok: bool)
      requires Valid() && task.Restoring? && task.groups != []
      modifies this
      ensures Valid() && Promises() && history == old(history) + [GroupDone(ok)]
      ensures task.Listening? <==> |old(task).groups| == 1
    {
      hide Run, Promises, Inv;
      ghost var before := Contents();
      var group, rest := task.groups[0], task.groups[1..];
      if ok {
        subscribed := subscribed + group;
      } else {
        failed := true;
      }
      task := if rest == [] then Listening else Restoring(rest);
      Record(before, GroupDone(ok));
      Kept();
    }

    /** The connection could not be made, or was lost. */
    method OnInterrupted()
      requires Valid() && (task.Connecting? || task.Listening?)
      modifies this
      ensures Valid() && Promises() && history == old(history) + [ConnectionLost]
      ensures task.Sleeping? && state.Reconnecting? && byToken == old(byToken)
    {
      hide Run, Promises, Served;
      ghost var before := Contents();
      state, task := if stopped then state else Reconnecting, if stopped then Finished else Sleeping;
      Record(before, ConnectionLost);
      Kept();
    }

    /** The back-off is over. */
    method OnWake()
      requires Valid() && task.Sleeping?
      modifies this
      ensures Valid() && Promises() && history == old(history) + [Wake]
      ensures task.Connecting?
    {
      hide Run, Promises, Served;
      ghost var before := Contents();
      task := if stopped then Finished else Connecting;
      Record(before, Wake);
      Kept();
    }

    /** A tick reaches the candles of its own symbol, or of none. */
    method OnTick(token: Token, tick: Tick)
      requires Valid() && task.Listening?
      modifies this`byToken, this`history
      ensures Valid() && Promises() && history == old(history) + [TickArrives(token, tick)]
      ensures byToken.Keys == old(byToken).Keys
      ensures forall t :: t in byToken ==> byToken[t].symbol == old(byToken)[t].symbol &&
                                           byToken[t].ticks == old(byToken)[t].ticks + if t == token then [tick] else []
    {
      hide Run, Promises, Inv;
      ghost var before := Contents();
      if token in byToken {
        var info := byToken[token];
        byToken := byToken[token := info.(ticks := info.ticks + [tick])];
      }
      Record(before, TickArrives(token, tick));
      Kept();
    }

    // ---- The event loop --------------------------------------------------------------------

    /** Whatever comes next is handed to its handler. */
    method Handle(e: Event)
      requires Valid() && Enabled(Contents(), e)
      modifies this
      ensures Valid() && Promises() && history == old(history) + [e]
    {
      match e
      case AcquireCall(symbol) => AcquireSymbol(symbol);
      case ReleaseCall(symbol) => ReleaseSymbol(symbol);
      case ResolveDone(found) => OnResolved(found);
      case SendDone(ok) => OnSent(ok);
      case CloseDone => OnClosed();
      case ConnectDone(groups) => OnConnected(groups);
      case ConnectionLost => OnInterrupted();
      case GroupDone(ok) => OnGroupSent(ok);
      case Wake => OnWake();
      case TickArrives(token, tick) => OnTick(token, tick);
    }
  }

  lemma SendStep(w: World, ok: bool)
    requires w.holder.SendingSubscribe? || w.holder.SendingUnsubscribe?
    ensures Step(w, SendDone(ok)) == if w.holder.SendingSubscribe? then SubscribeSent(w, w.holder.token, w.holder.conn, ok)
                                     else UnsubscribeSent(w, w.holder.token, w.holder.conn, ok)
  {
  }

  lemma ConnectStep(w: World, groups: seq<set<Token>>)
    requires w.task.Connecting? && Union(groups) == w.byToken.Keys
    ensures Step(w, ConnectDone(groups)) == ConnectedNow(w, groups)
  {
  }

  lemma RunGrows(events: seq<Event>, e: Event)
    ensures Run(events + [e], |events| + 1) == Step(Run(events, |events|), e)
  {
    RunOfLonger(events, e, |events|);
  }

  lemma {:induction false} RunOfLonger(events: seq<Event>, e: Event, n: nat)
    requires n <= |events|
    ensures Run(events + [e], n) == Run(events, n)
  {
    if n > 0 {
      RunOfLonger(events, e, n - 1);
    }
  }
}
