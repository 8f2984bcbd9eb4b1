/** Reference-counted live subscriptions over a reconnecting transport, as the steps between two awaits
    (subscription_manager.py:35-59, market_data_service.py:121-226). */
module Live {
  import opened Common

  type Symbol = nat
  type Token = nat
  type Tick = int

  datatype Call = Subscribe(symbol: Symbol) | Unsubscribe(symbol: Symbol)

  datatype Connection = Connected | Reconnecting | Disconnected | Halted

  /** A registered symbol with the ticks its candles were built from. */
  datatype Info = Info(symbol: Symbol, exchange: int, ticks: seq<Tick>)

  datatype Match = Match(token: Token, exchange: int)

  /** What the one holder of the subscription lock is waiting for. `conn` is the connection a message was sent on. */
  datatype Holder =
    | Free
    | Resolving(symbol: Symbol)
    | SendingSubscribe(token: Token, conn: nat)
    | SendingUnsubscribe(token: Token, conn: nat)
    | Closing

  /** Where the connection task stands. A cancelled task never takes another step, so it is gone at once. */
  datatype Task = NoTask | Connecting | Restoring(groups: seq<set<Token>>) | Listening | Sleeping | Finished

  datatype World = World(
    refcounts: map<Symbol, nat>,
    calls: seq<Call>,
    holder: Holder,
    state: Connection,
    byToken: map<Token, Info>,
    task: Task,
    stopped: bool,
    conn: nat,
    subscribed: set<Token>,
    failed: bool)

  const START := World(map[], [], Free, Disconnected, map[], NoTask, false, 0, {}, false)

  // ---- The subscription manager ----------------------------------------------------------

  function Count(w: World, symbol: Symbol): nat {
    if symbol in w.refcounts then w.refcounts[symbol] else 0
  }

  /** acquire: only the first reference calls back. */
  function Acquire(w: World, symbol: Symbol): World {
    var counted := w.(refcounts := w.refcounts[symbol := Count(w, symbol) + 1]);
    if Count(w, symbol) == 0 then counted.(calls := w.calls + [Subscribe(symbol)], holder := Resolving(symbol)) else counted
  }

  /** release: a symbol without references is ignored, and only the last reference calls back. */
  ghost function Release(w: World, symbol: Symbol): World {
    if symbol !in w.refcounts then w
    else if w.refcounts[symbol] > 1 then w.(refcounts := w.refcounts[symbol := w.refcounts[symbol] - 1])
    else UnsubscribeSymbol(w.(refcounts := w.refcounts - {symbol}, calls := w.calls + [Unsubscribe(symbol)]), symbol)
  }

  // ---- The market data service -----------------------------------------------------------

  function EnsureRunning(w: World): World {
    if w.task.NoTask? || w.task.Finished? then w.(stopped := false, task := Connecting) else w
  }

  /** The equity was looked up: register its token, see that the task runs, and subscribe if connected. */
  function Resolved(w: World, symbol: Symbol, found: Option<Match>): World {
    if found.None? then w.(holder := Free)
    else
      var token := found.value.token;
      var running := EnsureRunning(w.(byToken := w.byToken[token := Info(symbol, found.value.exchange, [])]));
      running.(holder := if running.state.Connected? then SendingSubscribe(token, w.conn) else Free)
  }

  /** stop(), up to the await of the transport's close. */
  function BeginStop(w: World): World {
    w.(stopped := true, task := NoTask, holder := Closing)
  }

  /** The end of unsubscribing: with no symbol left the connection goes too. */
  function AfterUnsubscribe(w: World): World {
    if w.byToken == map[] then BeginStop(w) else w.(holder := Free)
  }

  function TokensOf(byToken: map<Token, Info>, symbol: Symbol): set<Token> {
    set t | t in byToken && byToken[t].symbol == symbol
  }

  ghost function UnsubscribeSymbol(w: World, symbol: Symbol): World {
    if TokensOf(w.byToken, symbol) == {} then w.(holder := Free)
    else
      var token := Entry(TokensOf(w.byToken, symbol));
      var removed := w.(byToken := w.byToken - {token});
      if w.state.Connected? then removed.(holder := SendingUnsubscribe(token, w.conn)) else AfterUnsubscribe(removed)
  }

  /** The token found for a symbol; in reachable states there is only one. */
  ghost function Entry(tokens: set<Token>): (t: Token)
    requires tokens != {}
    ensures t in tokens
  {
    var t :| t in tokens; t
  }

  /** A message reaches only the connection it was sent on. */
  function SubscribeSent(w: World, token: Token, conn: nat, ok: bool): World {
    var idle := w.(holder := Free);
    if conn != w.conn then idle
    else if ok then idle.(subscribed := w.subscribed + {token})
    else idle.(failed := true)
  }

  function UnsubscribeSent(w: World, token: Token, conn: nat, ok: bool): World {
    AfterUnsubscribe(if ok && conn == w.conn then w.(subscribed := w.subscribed - {token}) else w)
  }

  function Closed(w: World): World {
    w.(state := Halted, subscribed := {}, holder := Free)
  }

  /** Connected: a new, empty connection, and a snapshot of the registered tokens to restore, exchange by exchange. */
  function ConnectedNow(w: World, groups: seq<set<Token>>): World {
    w.(state := Connected, conn := w.conn + 1, subscribed := {}, failed := false, task := Restored(groups))
  }

  function Restored(groups: seq<set<Token>>): Task {
    if groups == [] then Listening else Restoring(groups)
  }

  function GroupSent(w: World, ok: bool): World
    requires w.task.Restoring? && w.task.groups != []
  {
    var next := w.(task := Restored(w.task.groups[1..]));
    if ok then next.(subscribed := w.subscribed + w.task.groups[0]) else next.(failed := true)
  }

  /** The connection could not be made, or was lost. */
  function Interrupted(w: World): World {
    if w.stopped then w.(task := Finished) else w.(state := Reconnecting, task := Sleeping)
  }

  function Woken(w: World): World {
    w.(task := if w.stopped then Finished else Connecting)
  }

  /** A tick for a token that is not registered is dropped. */
  function HandleTick(w: World, token: Token, tick: Tick): World {
    if token !in w.byToken then w
    else w.(byToken := w.byToken[token := w.byToken[token].(ticks := w.byToken[token].ticks + [tick])])
  }

  // ---- Steps -----------------------------------------------------------------------------

  datatype Event =
    | AcquireCall(symbol: Symbol)
    | ReleaseCall(symbol: Symbol)
    | ResolveDone(found: Option<Match>)
    | SendDone(ok: bool)
    | CloseDone
    | ConnectDone(groups: seq<set<Token>>)
    | ConnectionLost
    | GroupDone(ok: bool)
    | Wake
    | TickArrives(token: Token, tick: Tick)

  function Union(groups: seq<set<Token>>): set<Token> {
    if groups == [] then {} else groups[0] + Union(groups[1..])
  }

  /** Who may step when; different symbols have different tokens. */
  predicate Enabled(w: World, e: Event) {
    match e
    case AcquireCall(_) => w.holder.Free?
    case ReleaseCall(_) => w.holder.Free?
    case ResolveDone(found) => w.holder.Resolving? && (found.Some? ==> found.value.token !in w.byToken)
    case SendDone(_) => w.holder.SendingSubscribe? || w.holder.SendingUnsubscribe?
    case CloseDone => w.holder.Closing?
    case ConnectDone(groups) => w.task.Connecting? && Union(groups) == w.byToken.Keys
    case ConnectionLost => w.task.Connecting? || w.task.Listening?
    case GroupDone(_) => w.task.Restoring? && w.task.groups != []
    case Wake => w.task.Sleeping?
    case TickArrives(_, _) => w.task.Listening?
  }

  ghost function Step(w: World, e: Event): World {
    if !Enabled(w, e) then w
    else
      match e
      case AcquireCall(symbol) => Acquire(w, symbol)
      case ReleaseCall(symbol) => Release(w, symbol)
      case ResolveDone(found) => Resolved(w, w.holder.symbol, found)
      case SendDone(ok) =>
        if w.holder.SendingSubscribe? then SubscribeSent(w, w.holder.token, w.holder.conn, ok)
        else UnsubscribeSent(w, w.holder.token, w.holder.conn, ok)
      case CloseDone => Closed(w)
      case ConnectDone(groups) => ConnectedNow(w, groups)
      case ConnectionLost => Interrupted(w)
      case GroupDone(ok) => GroupSent(w, ok)
      case Wake => Woken(w)
      case TickArrives(token, tick) => HandleTick(w, token, tick)
  }

  ghost function Run(events: seq<Event>, n: nat): World
    requires n <= |events|
  {
    if n == 0 then START else Step(Run(events, n - 1), events[n - 1])
  }

  // ---- Invariant -------------------------------------------------------------------------

  /** Only referenced symbols are registered, each under one token; the symbol being looked up is not yet. */
  ghost predicate Registered(w: World) {
    && (forall s :: s in w.refcounts ==> w.refcounts[s] > 0)
    && (forall t :: t in w.byToken ==> w.byToken[t].symbol in w.refcounts)
    && (forall t, u :: t in w.byToken && u in w.byToken && w.byToken[t].symbol == w.byToken[u].symbol ==> t == u)
    && (w.holder.Resolving? ==> w.holder.symbol in w.refcounts && TokensOf(w.byToken, w.holder.symbol) == {})
  }

  /** The connection task is alive while anything is registered, and the state tells where it is. */
  ghost predicate Alive(w: World) {
    && !w.task.Finished?
    && (!w.task.NoTask? ==> !w.stopped)
    && (w.byToken != map[] ==> !w.task.NoTask?)
    && (w.task.NoTask? && !w.holder.Closing? ==> w.byToken == map[] && !w.state.Connected?)
    && (w.holder.Closing? ==> w.task.NoTask? && w.byToken == map[])
    && (w.task.Connecting? || w.task.Sleeping? ==> !w.state.Connected?)
    && (w.task.Restoring? || w.task.Listening? ==> w.state.Connected?)
    && (w.holder.SendingSubscribe? || w.holder.SendingUnsubscribe? ==> w.holder.conn <= w.conn && !w.task.NoTask?)
  }

  ghost predicate TaskPending(w: World, t: Token) {
    w.task.Restoring? && t in Union(w.task.groups)
  }

  ghost predicate HolderPending(w: World, t: Token) {
    w.holder.SendingSubscribe? && w.holder.token == t && w.holder.conn == w.conn
  }

  /** On this connection every registered token is subscribed, still to be restored, or just being sent. */
  ghost predicate Served(w: World) {
    w.task.Restoring? || w.task.Listening? ==>
      w.failed || forall t :: t in w.byToken ==> t in w.subscribed || TaskPending(w, t) || HolderPending(w, t)
  }

  /** An unsubscribe in flight is for a token no longer registered. */
  ghost predicate Departing(w: World) {
    w.holder.SendingUnsubscribe? ==> w.holder.token !in w.byToken
  }

  /** With nothing registered, and no unsubscribe to wait for, no task runs and no connection is kept; a token that is
      being subscribed is registered. */
  ghost predicate Rests(w: World) {
    && (w.byToken == map[] && !w.holder.SendingUnsubscribe? ==> w.task.NoTask? && (w.state.Connected? ==> w.holder.Closing?))
    && (w.holder.SendingSubscribe? ==> w.holder.token in w.byToken)
  }

  ghost predicate Inv(w: World) {
    Registered(w) && Alive(w) && Served(w) && Departing(w) && Rests(w)
  }

  // ---- Steps keep it ---------------------------------------------------------------------

  lemma AcquireOk(w: World, symbol: Symbol)
    requires Inv(w) && w.holder.Free?
    ensures Inv(Acquire(w, symbol))
  {
    if Count(w, symbol) == 0 {
      assert TokensOf(w.byToken, symbol) == {};
    }
  }

  lemma AfterUnsubscribeOk(w: World)
    requires Registered(w.(holder := Free)) && Alive(w.(holder := Free)) && Served(w.(holder := Free)) && !w.task.NoTask?
    ensures Inv(AfterUnsubscribe(w))
  {
  }

  /** Taking a symbol's last reference away leaves only other symbols' entries. */
  lemma RemovedOk(w: World, symbol: Symbol, token: Token)
    requires Inv(w) && w.holder.Free? && symbol in w.refcounts && token in TokensOf(w.byToken, symbol)
    ensures var removed := w.(refcounts := w.refcounts - {symbol}, calls := w.calls + [Unsubscribe(symbol)], byToken := w.byToken - {token});
            Registered(removed) && Alive(removed) && Served(removed)
  {
    assert forall t :: t in w.byToken - {token} ==> w.byToken[t].symbol != symbol;
  }

  lemma ReleaseOk(w: World, symbol: Symbol)
    requires Inv(w) && w.holder.Free?
    ensures Inv(Release(w, symbol))
  {
    if symbol in w.refcounts && w.refcounts[symbol] == 1 {
      var tokens := TokensOf(w.byToken, symbol);
      if tokens == {} {
        assert forall t :: t in w.byToken ==> t !in tokens;
      } else {
        var token := Entry(tokens);
        RemovedOk(w, symbol, token);
        var removed := w.(refcounts := w.refcounts - {symbol}, calls := w.calls + [Unsubscribe(symbol)], byToken := w.byToken - {token});
        if !w.state.Connected? {
          AfterUnsubscribeOk(removed);
        }
      }
    }
  }

  lemma ResolvedOk(w: World, found: Option<Match>)
    requires Inv(w) && w.holder.Resolving? && (found.Some? ==> found.value.token !in w.byToken)
    ensures Inv(Resolved(w, w.holder.symbol, found))
  {
    assert forall t :: t in w.byToken ==> t !in TokensOf(w.byToken, w.holder.symbol);
  }

  lemma SendDoneOk(w: World, ok: bool)
    requires Inv(w) && (w.holder.SendingSubscribe? || w.holder.SendingUnsubscribe?)
    ensures Inv(Step(w, SendDone(ok)))
  {
    if w.holder.SendingUnsubscribe? {
      AfterUnsubscribeOk(if ok && w.holder.conn == w.conn then w.(subscribed := w.subscribed - {w.holder.token}) else w);
    }
  }

  lemma ConnectOk(w: World, groups: seq<set<Token>>)
    requires Inv(w) && w.task.Connecting? && Union(groups) == w.byToken.Keys
    ensures Inv(ConnectedNow(w, groups))
  {
  }

  lemma GroupOk(w: World, ok: bool)
    requires Inv(w) && w.task.Restoring? && w.task.groups != []
    ensures Inv(GroupSent(w, ok))
  {
    assert Union(w.task.groups) == w.task.groups[0] + Union(w.task.groups[1..]);
  }

  lemma TickOk(w: World, token: Token, tick: Tick)
    requires Inv(w)
    ensures Inv(HandleTick(w, token, tick))
  {
    assert HandleTick(w, token, tick).byToken.Keys == w.byToken.Keys;
    assert forall t :: t in w.byToken ==> HandleTick(w, token, tick).byToken[t].symbol == w.byToken[t].symbol;
  }

  lemma StepOk(w: World, e: Event)
    requires Inv(w)
    ensures Inv(Step(w, e))
  {
    if Enabled(w, e) {
      match e
      case AcquireCall(symbol) => AcquireOk(w, symbol);
      case ReleaseCall(symbol) => ReleaseOk(w, symbol);
      case ResolveDone(found) => ResolvedOk(w, found);
      case SendDone(ok) => SendDoneOk(w, ok);
      case ConnectDone(groups) => ConnectOk(w, groups);
      case GroupDone(ok) => GroupOk(w, ok);
      case TickArrives(token, tick) => TickOk(w, token, tick);
      case _ =>
    }
  }

  lemma {:induction false} RunOk(events: seq<Event>, n: nat)
    requires n <= |events|
    ensures Inv(Run(events, n))
  {
    if n > 0 {
      RunOk(events, n - 1);
      StepOk(Run(events, n - 1), events[n - 1]);
    }
  }

  // ---- What it guarantees ----------------------------------------------------------------

  /** While connected, with no message in flight and none failed on this connection, every registered token is
      subscribed on the transport. */
  lemma RegisteredAreSubscribed(events: seq<Event>, n: nat)
    requires n <= |events|
    requires var w := Run(events, n);
             w.state.Connected? && !w.task.Restoring? && !w.holder.SendingSubscribe? && !w.holder.SendingUnsubscribe? && !w.failed
    ensures Run(events, n).byToken.Keys <= Run(events, n).subscribed
  {
    RunOk(events, n);
  }

  /** While any symbol is registered the connection task lives, never meets the stop flag, and so never gives up:
      the state does not go back to disconnected. */
  lemma NeverGivesUp(events: seq<Event>, n: nat)
    requires n <= |events|
    ensures var w := Run(events, n);
            && (w.byToken != map[] ==> !w.task.NoTask? && !w.stopped)
            && !w.task.Finished?
            && (w.holder.Free? && w.task.NoTask? ==> !w.state.Connected?)
  {
    RunOk(events, n);
  }

  /** When the last symbol has gone the connection goes too: with nothing registered and no unsubscribe in flight there
      is no task and, once the transport is closed, no connection. */
  lemma StopsWithTheLastSymbol(events: seq<Event>, n: nat)
    requires n <= |events| && Run(events, n).byToken == map[] && !Run(events, n).holder.SendingUnsubscribe?
    ensures var w := Run(events, n); w.task.NoTask? && (w.state.Connected? ==> w.holder.Closing?)
  {
    RunOk(events, n);
  }

  /** Every registered symbol is referenced, under exactly one token. */
  lemma RegisteredAreReferenced(events: seq<Event>, n: nat, t: Token)
    requires n <= |events| && t in Run(events, n).byToken
    ensures var w := Run(events, n); Count(w, w.byToken[t].symbol) > 0 && TokensOf(w.byToken, w.byToken[t].symbol) == {t}
  {
    RunOk(events, n);
  }

  /** Nothing but the release of its symbol's last reference unregisters a token. */
  lemma OnlyTheLastReleaseUnregisters(w: World, e: Event, t: Token)
    requires Inv(w) && t in w.byToken && t !in Step(w, e).byToken
    ensures e == ReleaseCall(w.byToken[t].symbol) && w.refcounts[w.byToken[t].symbol] == 1
  {
    if e.ReleaseCall? && Enabled(w, e) {
      var tokens := TokensOf(w.byToken, e.symbol);
      if tokens != {} {
        assert Entry(tokens) in tokens;
      }
    }
  }

  /** A tick reaches the candles of its own symbol, or of none. */
  lemma TicksStayApart(w: World, token: Token, tick: Tick)
    ensures token !in w.byToken ==> HandleTick(w, token, tick) == w
    ensures HandleTick(w, token, tick) == w.(byToken := HandleTick(w, token, tick).byToken)
    ensures forall t :: t in w.byToken ==>
              t in HandleTick(w, token, tick).byToken &&
              HandleTick(w, token, tick).byToken[t].ticks == if t == token then w.byToken[t].ticks + [tick] else w.byToken[t].ticks
  {
  }

  /** The calls for one symbol alternate, beginning with a subscription; `open` says whether the last one is. */
  ghost predicate Alternates(calls: seq<Call>, symbol: Symbol, open: bool) {
    if calls == [] then !open
    else
      var last, before := calls[|calls| - 1], calls[..|calls| - 1];
      if last.symbol != symbol then Alternates(before, symbol, open)
      else open == last.Subscribe? && Alternates(before, symbol, !open)
  }

  lemma AlternatesAppend(calls: seq<Call>, call: Call, symbol: Symbol, open: bool)
    ensures Alternates(calls + [call], symbol, open) ==
            if call.symbol != symbol then Alternates(calls, symbol, open)
            else open == call.Subscribe? && Alternates(calls, symbol, !open)
  {
    assert (calls + [call])[..|calls|] == calls;
  }

  /** What one step does to references and calls. */
  lemma StepCalls(w: World, e: Event)
    requires Inv(w)
    ensures var w' := Step(w, e);
            match e
            case AcquireCall(s) =>
              if !w.holder.Free? then w' == w
              else w'.refcounts == w.refcounts[s := Count(w, s) + 1] &&
                   w'.calls == if s in w.refcounts then w.calls else w.calls + [Subscribe(s)]
            case ReleaseCall(s) =>
              if !w.holder.Free? || s !in w.refcounts then w' == w
              else if w.refcounts[s] > 1 then w'.refcounts == w.refcounts[s := w.refcounts[s] - 1] && w'.calls == w.calls
              else w'.refcounts == w.refcounts - {s} && w'.calls == w.calls + [Unsubscribe(s)]
            case _ => w'.refcounts == w.refcounts && w'.calls == w.calls
  {
  }

  lemma AcquireAlternates(w: World, s: Symbol, symbol: Symbol)
    requires Inv(w) && w.holder.Free? && Alternates(w.calls, symbol, symbol in w.refcounts)
    ensures var w' := Step(w, AcquireCall(s)); Alternates(w'.calls, symbol, symbol in w'.refcounts)
  {
    StepCalls(w, AcquireCall(s));
    AlternatesAppend(w.calls, Subscribe(s), symbol, true);
    AlternatesAppend(w.calls, Subscribe(s), symbol, false);
  }

  lemma ReleaseAlternates(w: World, s: Symbol, symbol: Symbol)
    requires Inv(w) && w.holder.Free? && Alternates(w.calls, symbol, symbol in w.refcounts)
    ensures var w' := Step(w, ReleaseCall(s)); Alternates(w'.calls, symbol, symbol in w'.refcounts)
  {
    StepCalls(w, ReleaseCall(s));
    AlternatesAppend(w.calls, Unsubscribe(s), symbol, true);
    AlternatesAppend(w.calls, Unsubscribe(s), symbol, false);
  }

  lemma StepAlternates(w: World, e: Event, symbol: Symbol)
    requires Inv(w) && Alternates(w.calls, symbol, symbol in w.refcounts)
    ensures Alternates(Step(w, e).calls, symbol, symbol in Step(w, e).refcounts)
  {
    if Enabled(w, e) {
      match e
      case AcquireCall(s) => AcquireAlternates(w, s, symbol);
      case ReleaseCall(s) => ReleaseAlternates(w, s, symbol);
      case _ => StepCalls(w, e);
    }
  }

  /** For every symbol the callbacks strictly alternate, and the last one is a subscription exactly while it is referenced. */
  lemma {:induction false} CallbacksAlternate(events: seq<Event>, n: nat, symbol: Symbol)
    requires n <= |events|
    ensures Alternates(Run(events, n).calls, symbol, symbol in Run(events, n).refcounts)
  {
    if n > 0 {
      CallbacksAlternate(events, n - 1, symbol);
      RunOk(events, n - 1);
      StepAlternates(Run(events, n - 1), events[n - 1], symbol);
    }
  }

  /** References taken and not given back; a release without one is ignored. */
  ghost function Outstanding(events: seq<Event>, n: nat, symbol: Symbol): nat
    requires n <= |events|
  {
    if n == 0 then 0
    else
      var before, granted := Outstanding(events, n - 1, symbol), Enabled(Run(events, n - 1), events[n - 1]);
      if granted && events[n - 1] == AcquireCall(symbol) then before + 1
      else if granted && events[n - 1] == ReleaseCall(symbol) && before > 0 then before - 1
      else before
  }

  lemma {:induction false} CountIsOutstanding(events: seq<Event>, n: nat, symbol: Symbol)
    requires n <= |events|
    ensures Count(Run(events, n), symbol) == Outstanding(events, n, symbol)
  {
    if n > 0 {
      CountIsOutstanding(events, n - 1, symbol);
      RunOk(events, n - 1);
      StepCalls(Run(events, n - 1), events[n - 1]);
    }
  }
}
