/** The reconnect machine of an MCU pipeline (signaling/mcu/pipeline.go).

    Two kinds of timers, goroutines that have been started but have not yet run, callbacks
    that arrive late, and Close all compete for one mutex.  Every method and every timer
    callback holds that mutex for its whole body, so one event below is one critical section.
    `time.Timer.Stop` cannot call back a timer that has already fired: a timer is *armed*,
    then *fired* (its callback waits for the mutex), then gone, and Stop only reaches the first.
 */
module McuPipeline {
  import opened Common

  type ConnId = nat
  type TimerId = nat

  ghost predicate Below(timers: set<TimerId>, bound: TimerId) {
    forall t :: t in timers ==> t < bound
  }

  /** Work handed to the Go runtime that is not finished yet. */
  datatype Runtime = Runtime(
    watchGo: nat,                   // `go p.watch()` not yet run
    reconnectGo: nat,               // `go p.reconnect()` not yet run
    watchArmed: set<TimerId>,
    watchFired: set<TimerId>,       // callback waiting for the mutex
    reconnectArmed: set<TimerId>,
    reconnectFired: set<TimerId>,
    next: TimerId)
  {
    /** Every timer is in at most one place, and `next` has never been used. */
    ghost predicate Valid() {
      && Below(watchArmed, next) && Below(watchFired, next)
      && Below(reconnectArmed, next) && Below(reconnectFired, next)
      && watchArmed !! watchFired && reconnectArmed !! reconnectFired
    }

    predicate WatchPending() {
      watchGo > 0 || watchArmed != {} || watchFired != {}
    }

    predicate RetryTimerPending() {
      reconnectArmed != {} || reconnectFired != {}
    }

    /** An upper bound for the events this work can still cause once the pipeline is closed. */
    function Budget(): nat {
      3 * (watchGo + reconnectGo)
      + 2 * (|watchArmed| + |reconnectArmed|)
      + |watchFired| + |reconnectFired|
    }
  }

  /** What has happened so far, for stating conservation. */
  datatype Tally = Tally(
    started: bool,          // Connect got past its closed test
    rises: nat,             // changes of `connecting` from false to true
    timerAttaches: nat,     // Attach calls made by the reconnect timer
    connectAttaches: nat,   // Attach calls made by Connect
    granted: nat,           // Attach calls that succeeded
    lapsed: nat,            // of these, purged by the manager before the MCU came back
    joined: nat)            // onConnect calls
  {
    /** The MCU may still come back for one of the Attach calls. */
    predicate Awaited() { joined + lapsed < granted }
  }

  datatype State = State(
    connecting: bool,
    closed: bool,
    reconnector: Option<TimerId>,
    watcher: Option<TimerId>,
    connection: Option<ConnId>,
    rt: Runtime,
    tally: Tally)

  const INIT := State(false, false, None, None, None,
                      Runtime(0, 0, {}, {}, {}, {}, 0), Tally(false, 0, 0, 0, 0, 0, 0))

  datatype Event =
    | Connect(attachOk: bool)
    | RunWatch
    | RunReconnect
    | FireWatch(t: TimerId)
    | FireReconnect(t: TimerId)
    | WatchTimeout(t: TimerId)
    | ReconnectTimeout(t: TimerId, attachOk: bool)
    | OnConnect(c: ConnId)
    | OnClosed(c: ConnId)
    | Lapse
    | Close
  {
    /** Events of the runtime, as opposed to calls from outside the pipeline. */
    predicate Internal() {
      RunWatch? || RunReconnect? || FireWatch? || FireReconnect? || WatchTimeout? || ReconnectTimeout?
    }
  }

  /** Goroutines and callbacks run only if they are pending; an Attach that was granted lets
      the MCU come back with one connection, unless the manager has purged it (module McuManager).
      Everything else may happen at any time. */
  predicate Enabled(s: State, e: Event) {
    match e
    case RunWatch => s.rt.watchGo > 0
    case RunReconnect => s.rt.reconnectGo > 0
    case FireWatch(t) => t in s.rt.watchArmed
    case FireReconnect(t) => t in s.rt.reconnectArmed
    case WatchTimeout(t) => t in s.rt.watchFired
    case ReconnectTimeout(t, _) => t in s.rt.reconnectFired
    case OnConnect(_) => s.tally.Awaited()
    case Lapse => s.tally.Awaited()
    case _ => true
  }

  function StopWatcher(rt: Runtime, timer: Option<TimerId>): Runtime {
    if timer.Some? then rt.(watchArmed := rt.watchArmed - {timer.value}) else rt
  }

  function StopReconnector(rt: Runtime, timer: Option<TimerId>): Runtime {
    if timer.Some? then rt.(reconnectArmed := rt.reconnectArmed - {timer.value}) else rt
  }

  function AfterConnect(s: State, attachOk: bool): State {
    if s.closed then s
    else
      s.(rt := s.rt.(watchGo := s.rt.watchGo + 1,
                     reconnectGo := s.rt.reconnectGo + if attachOk then 0 else 1),
         tally := s.tally.(started := true,
                           connectAttaches := s.tally.connectAttaches + 1,
                           granted := s.tally.granted + if attachOk then 1 else 0))
  }

  function AfterOnConnect(s: State, c: ConnId): State {
    s.(connecting := false, connection := Some(c), tally := s.tally.(joined := s.tally.joined + 1))
  }

  function AfterOnClosed(s: State, c: ConnId): State {
    if s.connection != Some(c) || s.connecting || s.closed then s
    else s.(connection := None, rt := s.rt.(reconnectGo := s.rt.reconnectGo + 1))
  }

  function AfterWatch(s: State): State
    requires s.rt.watchGo > 0
  {
    var rt := StopWatcher(s.rt.(watchGo := s.rt.watchGo - 1), s.watcher);
    s.(watcher := Some(rt.next),
       rt := rt.(watchArmed := rt.watchArmed + {rt.next}, next := rt.next + 1))
  }

  function AfterWatchTimeout(s: State, t: TimerId): State {
    var s := s.(watcher := None, rt := s.rt.(watchFired := s.rt.watchFired - {t}));
    if s.closed then s
    else
      s.(rt := s.rt.(watchGo := s.rt.watchGo + 1,
                     reconnectGo := s.rt.reconnectGo + if s.connection.None? && !s.connecting then 1 else 0))
  }

  function AfterReconnect(s: State): State
    requires s.rt.reconnectGo > 0
  {
    var s := s.(rt := s.rt.(reconnectGo := s.rt.reconnectGo - 1));
    if s.connecting then s
    else
      var rt := StopReconnector(s.rt, s.reconnector);
      s.(connecting := true,
         reconnector := Some(rt.next),
         rt := rt.(reconnectArmed := rt.reconnectArmed + {rt.next}, next := rt.next + 1),
         tally := s.tally.(rises := s.tally.rises + 1))
  }

  function AfterReconnectTimeout(s: State, t: TimerId, attachOk: bool): State {
    var s := s.(reconnector := None, rt := s.rt.(reconnectFired := s.rt.reconnectFired - {t}));
    if !s.connecting || s.closed then s
    else if !attachOk then
      s.(connecting := false,
         rt := s.rt.(reconnectGo := s.rt.reconnectGo + 1),
         tally := s.tally.(timerAttaches := s.tally.timerAttaches + 1))
    else
      s.(connecting := false,
         rt := if s.watcher.Some?
               then StopWatcher(s.rt, s.watcher).(watchGo := s.rt.watchGo + 1)
               else s.rt,
         tally := s.tally.(timerAttaches := s.tally.timerAttaches + 1, granted := s.tally.granted + 1))
  }

  function AfterClose(s: State): State {
    s.(connection := None, closed := true, reconnector := None, watcher := None,
       rt := StopWatcher(StopReconnector(s.rt, s.reconnector), s.watcher))
  }

  function Next(s: State, e: Event): State
    requires Enabled(s, e)
  {
    match e
    case Connect(ok) => AfterConnect(s, ok)
    case RunWatch => AfterWatch(s)
    case RunReconnect => AfterReconnect(s)
    case FireWatch(t) =>
      s.(rt := s.rt.(watchArmed := s.rt.watchArmed - {t}, watchFired := s.rt.watchFired + {t}))
    case FireReconnect(t) =>
      s.(rt := s.rt.(reconnectArmed := s.rt.reconnectArmed - {t}, reconnectFired := s.rt.reconnectFired + {t}))
    case WatchTimeout(t) => AfterWatchTimeout(s, t)
    case ReconnectTimeout(t, ok) => AfterReconnectTimeout(s, t, ok)
    case OnConnect(c) => AfterOnConnect(s, c)
    case OnClosed(c) => AfterOnClosed(s, c)
    case Lapse => s.(tally := s.tally.(lapsed := s.tally.lapsed + 1))
    case Close => AfterClose(s)
  }

  predicate Legal(s: State, es: seq<Event>)
    decreases es
  {
    es == [] || (Enabled(s, es[0]) && Legal(Next(s, es[0]), es[1..]))
  }

  function Run(s: State, es: seq<Event>): State
    requires Legal(s, es)
    decreases es
  {
    if es == [] then s else Run(Next(s, es[0]), es[1..])
  }

  // ---- Safety over every run ----

  ghost predicate Inv(s: State) {
    && s.rt.Valid()
    && (s.tally.started && !s.closed ==> s.rt.WatchPending())
    && (s.connecting && !s.closed ==> s.rt.RetryTimerPending())
    && s.tally.timerAttaches + (if s.connecting then 1 else 0) <= s.tally.rises
    && s.tally.joined + s.tally.lapsed <= s.tally.granted <= s.tally.timerAttaches + s.tally.connectAttaches
  }

  lemma RunKept(s: State, e: Event)
    requires Inv(s) && Enabled(s, e) && (e.RunWatch? || e.RunReconnect?)
    ensures Inv(Next(s, e))
  {
    var rt, rt' := s.rt, Next(s, e).rt;
    if e.RunWatch? {
      assert rt.next in rt'.watchArmed;
    } else if !s.connecting {
      assert rt.next in rt'.reconnectArmed;
    }
  }

  lemma TimerKept(s: State, e: Event)
    requires Inv(s) && Enabled(s, e) && (e.FireWatch? || e.FireReconnect? || e.WatchTimeout? || e.ReconnectTimeout?)
    ensures Inv(Next(s, e))
  {
    var rt' := Next(s, e).rt;
    match e {
      case FireWatch(t) => assert t in rt'.watchFired;
      case FireReconnect(t) => assert t in rt'.reconnectFired;
      case _ =>
    }
  }

  lemma InvKept(s: State, e: Event)
    requires Inv(s) && Enabled(s, e)
    ensures Inv(Next(s, e))
  {
    if e.RunWatch? || e.RunReconnect? {
      RunKept(s, e);
    } else if e.Internal() {
      TimerKept(s, e);
    }
  }

  lemma {:induction false} InvOfRun(s: State, es: seq<Event>)
    requires Inv(s) && Legal(s, es)
    ensures Inv(Run(s, es))
    decreases es
  {
    if es != [] {
      InvKept(s, es[0]);
      InvOfRun(Next(s, es[0]), es[1..]);
    }
  }

  /** From Connect until Close there is always watch work pending, and while the pipeline is
      connecting a reconnect timer is armed or its callback is waiting. */
  lemma WatchdogNeverLost(es: seq<Event>)
    requires Legal(INIT, es)
    ensures var s := Run(INIT, es);
            s.tally.started && !s.closed ==>
              s.rt.WatchPending() && (s.connecting ==> s.rt.RetryTimerPending())
  {
    InvOfRun(INIT, es);
  }

  /** Each timer-driven Attach uses up its own rise of `connecting`, even when a timer that was
      stopped too late still runs its callback; the MCU never joins more often than it was asked. */
  lemma ReconnectConservation(es: seq<Event>)
    requires Legal(INIT, es)
    ensures var s := Run(INIT, es);
            && s.tally.timerAttaches + (if s.connecting then 1 else 0) <= s.tally.rises
            && s.tally.joined <= s.tally.timerAttaches + s.tally.connectAttaches
  {
    InvOfRun(INIT, es);
  }

  // ---- After Close ----

  function InternalCount(es: seq<Event>): nat {
    if es == [] then 0 else (if es[0].Internal() then 1 else 0) + InternalCount(es[1..])
  }

  lemma StopShrinks(armed: set<TimerId>, timer: Option<TimerId>)
    ensures timer.Some? ==> |armed - {timer.value}| <= |armed|
  {
    if timer.Some? && timer.value in armed {
      assert armed == (armed - {timer.value}) + {timer.value};
    } else if timer.Some? {
      assert armed - {timer.value} == armed;
    }
  }

  lemma ClosedRunWatch(s: State)
    requires s.closed && s.rt.Valid() && s.rt.watchGo > 0
    ensures AfterWatch(s).rt.Valid() && AfterWatch(s).rt.Budget() < s.rt.Budget()
  {
    StopShrinks(s.rt.watchArmed, s.watcher);
    assert s.rt.next !in StopWatcher(s.rt, s.watcher).watchArmed;
  }

  lemma ClosedRunReconnect(s: State)
    requires s.closed && s.rt.Valid() && s.rt.reconnectGo > 0
    ensures AfterReconnect(s).rt.Valid() && AfterReconnect(s).rt.Budget() < s.rt.Budget()
  {
    if !s.connecting {
      StopShrinks(s.rt.reconnectArmed, s.reconnector);
      assert s.rt.next !in StopReconnector(s.rt, s.reconnector).reconnectArmed;
    }
  }

  lemma FireCost(armed: set<TimerId>, fired: set<TimerId>, t: TimerId)
    requires t in armed && armed !! fired
    ensures 2 * |armed - {t}| + |fired + {t}| == 2 * |armed| + |fired| - 1
  {
    assert armed == (armed - {t}) + {t};
  }

  /** A step of a closed pipeline never attaches, and uses up pending work. */
  lemma ClosedStep(s: State, e: Event)
    requires s.closed && s.rt.Valid() && Enabled(s, e)
    ensures var s' := Next(s, e);
            && s'.closed && s'.rt.Valid()
            && s'.tally.timerAttaches == s.tally.timerAttaches
            && s'.tally.connectAttaches == s.tally.connectAttaches
            && s'.rt.Budget() + (if e.Internal() then 1 else 0) <= s.rt.Budget()
  {
    match e {
      case RunWatch => ClosedRunWatch(s);
      case RunReconnect => ClosedRunReconnect(s);
      case FireWatch(t) => FireCost(s.rt.watchArmed, s.rt.watchFired, t);
      case FireReconnect(t) => FireCost(s.rt.reconnectArmed, s.rt.reconnectFired, t);
      case Close =>
        StopShrinks(s.rt.watchArmed, s.watcher);
        StopShrinks(s.rt.reconnectArmed, s.reconnector);
      case _ =>
    }
  }

  /** Whatever happens after Close, no Attach is issued any more, and the work that was pending
      runs dry: the number of further goroutine runs, timer expiries and callbacks is bounded. */
  lemma {:induction false} NothingAttachesAfterClose(s: State, es: seq<Event>)
    requires s.closed && s.rt.Valid() && Legal(s, es)
    ensures var s' := Run(s, es);
            && s'.closed
            && s'.tally.timerAttaches == s.tally.timerAttaches
            && s'.tally.connectAttaches == s.tally.connectAttaches
            && InternalCount(es) + s'.rt.Budget() <= s.rt.Budget()
    decreases es
  {
    if es != [] {
      ClosedStep(s, es[0]);
      NothingAttachesAfterClose(Next(s, es[0]), es[1..]);
    }
  }

  /** After a Close, and until another one, the connection is set exactly if the MCU joined late. */
  lemma {:induction false} ClosedHoldsLateJoin(s: State, es: seq<Event>)
    requires s.closed && s.connection.None? && Legal(s, es)
    requires forall e :: e in es ==> !e.Close?
    ensures Run(s, es).closed
    ensures Run(s, es).connection.Some? <==> exists e :: e in es && e.OnConnect?
    decreases es
  {
    if es != [] {
      if es[0].OnConnect? {
        assert es[0] in es;
        ClosedKeepsConnection(Next(s, es[0]), es[1..]);
      } else {
        ClosedHoldsLateJoin(Next(s, es[0]), es[1..]);
        assert forall e :: e in es <==> e == es[0] || e in es[1..];
      }
    }
  }

  /** A continuation of `s` without another Close, after which the connection is set. */
  ghost predicate GetsConnection(s: State, es: seq<Event>) {
    Legal(s, es) && (forall e :: e in es ==> !e.Close?) && Run(s, es).connection.Some?
  }

  /** "Closed implies no connection" is not an invariant, since onConnect does not test `closed`.
      What counts is known when Close returns: a closed pipeline can still get a connection exactly
      if an Attach was granted that the MCU has not come back for and the manager has not purged. */
  lemma ClosedHoldsConnectionIff(s: State)
    requires s.closed && s.connection.None?
    ensures (exists es :: GetsConnection(s, es)) <==> s.tally.Awaited()
  {
    if s.tally.Awaited() {
      RunOne(s, OnConnect(0), []);
      assert GetsConnection(s, [OnConnect(0)] + []);
    }
    forall es | GetsConnection(s, es) ensures s.tally.Awaited() {
      ClosedHoldsLateJoin(s, es);
      JoinWasGranted(s, es);
    }
  }

  /** In particular right after Close, which drops the connection there was. */
  lemma CloseDropsConnection(s: State)
    ensures Next(s, Close).closed && Next(s, Close).connection.None?
    ensures (exists es :: GetsConnection(Next(s, Close), es)) <==> s.tally.Awaited()
  {
    ClosedHoldsConnectionIff(Next(s, Close));
  }

  /** A closed pipeline is granted no further Attach, so who joins was granted one before. */
  lemma {:induction false} JoinWasGranted(s: State, es: seq<Event>)
    requires s.closed && Legal(s, es) && exists e :: e in es && e.OnConnect?
    ensures s.tally.Awaited()
    decreases es
  {
    if !es[0].OnConnect? {
      assert forall e :: e in es <==> e == es[0] || e in es[1..];
      JoinWasGranted(Next(s, es[0]), es[1..]);
    }
  }

  /** It does happen: the MCU is asked, the pipeline is closed, and then the MCU joins. */
  lemma LateJoinHappens(c: ConnId)
    ensures var es := [Connect(true), Close, OnConnect(c)];
            Legal(INIT, es) && Run(INIT, es).closed && Run(INIT, es).connection == Some(c)
  {
    Run3(INIT, Connect(true), Close, OnConnect(c));
  }

  lemma {:induction false} ClosedKeepsConnection(s: State, es: seq<Event>)
    requires s.closed && s.connection.Some? && Legal(s, es)
    requires forall e :: e in es ==> !e.Close?
    ensures Run(s, es).closed && Run(s, es).connection.Some?
    decreases es
  {
    if es != [] {
      assert es[0] in es;
      ClosedKeepsConnection(Next(s, es[0]), es[1..]);
    }
  }

  // ---- A retry is always within reach ----

  lemma RunOne(s: State, e: Event, es: seq<Event>)
    requires Enabled(s, e) && Legal(Next(s, e), es)
    ensures Legal(s, [e] + es) && Run(s, [e] + es) == Run(Next(s, e), es)
  {
    assert ([e] + es)[1..] == es;
  }

  ghost predicate AllInternal(es: seq<Event>) {
    forall e :: e in es ==> e.Internal()
  }

  /** `es` is runtime work alone, and ends with one more timer-driven Attach. */
  ghost predicate LeadsToAttach(s: State, es: seq<Event>) {
    AllInternal(es) && Legal(s, es) && Run(s, es).tally.timerAttaches > s.tally.timerAttaches
  }

  /** When the pending runtime work of a pipeline leads to another Attach without any help from
      outside: exactly if there is no connection, or a reconnect is under way.  In particular an
      open pipeline without connection always has a retry scheduled. */
  lemma RetryIff(s: State)
    requires Inv(s) && s.tally.started && !s.closed
    ensures (exists es :: LeadsToAttach(s, es))
            <==> s.connection.None? || s.connecting || s.rt.reconnectGo > 0
  {
    if s.connection.None? || s.connecting || s.rt.reconnectGo > 0 {
      var es := RetryWithinReach(s);
      assert LeadsToAttach(s, es);
    } else {
      forall es | AllInternal(es) && Legal(s, es)
        ensures !LeadsToAttach(s, es)
      {
        NoRetryWhileConnected(s, es);
      }
    }
  }

  lemma {:induction false} NoRetryWhileConnected(s: State, es: seq<Event>)
    requires s.connection.Some? && !s.connecting && s.rt.reconnectGo == 0
    requires AllInternal(es) && Legal(s, es)
    ensures Run(s, es).tally.timerAttaches == s.tally.timerAttaches
    decreases es
  {
    if es != [] {
      assert es[0] in es;
      NoRetryWhileConnected(Next(s, es[0]), es[1..]);
    }
  }

  /** The retry takes at most six events. */
  lemma RetryWithinReach(s: State) returns (es: seq<Event>)
    requires Inv(s) && s.tally.started && !s.closed
    requires s.connection.None? || s.connecting || s.rt.reconnectGo > 0
    ensures |es| <= 6 && AllInternal(es)
    ensures Legal(s, es) && Run(s, es).tally.timerAttaches == s.tally.timerAttaches + 1
  {
    if s.connecting {
      es := RetryFromTimer(s);
    } else if s.rt.reconnectGo > 0 {
      es := RetryFromGoroutine(s);
    } else if s.rt.watchFired != {} {
      es := RetryFromCallback(s);
    } else if s.rt.watchArmed != {} {
      es := RetryFromWatchTimer(s);
    } else {
      assert s.rt.next in AfterWatch(s).rt.watchArmed;
      InvKept(s, RunWatch);
      var rest := RetryFromWatchTimer(AfterWatch(s));
      RunOne(s, RunWatch, rest);
      es := [RunWatch] + rest;
    }
  }

  lemma RetryFromWatchTimer(s: State) returns (es: seq<Event>)
    requires Inv(s) && s.tally.started && !s.closed && s.connection.None? && !s.connecting
    requires s.rt.watchArmed != {}
    ensures |es| <= 5 && AllInternal(es)
    ensures Legal(s, es) && Run(s, es).tally.timerAttaches == s.tally.timerAttaches + 1
  {
    var t :| t in s.rt.watchArmed;
    assert t in Next(s, FireWatch(t)).rt.watchFired;
    InvKept(s, FireWatch(t));
    var rest := RetryFromCallback(Next(s, FireWatch(t)));
    RunOne(s, FireWatch(t), rest);
    es := [FireWatch(t)] + rest;
  }

  lemma RetryFromCallback(s: State) returns (es: seq<Event>)
    requires Inv(s) && s.tally.started && !s.closed && s.connection.None? && !s.connecting
    requires s.rt.watchFired != {}
    ensures |es| <= 4 && AllInternal(es)
    ensures Legal(s, es) && Run(s, es).tally.timerAttaches == s.tally.timerAttaches + 1
  {
    var t :| t in s.rt.watchFired;
    var s1 := Next(s, WatchTimeout(t));
    InvKept(s, WatchTimeout(t));
    var rest := RetryFromGoroutine(s1);
    RunOne(s, WatchTimeout(t), rest);
    es := [WatchTimeout(t)] + rest;
  }

  /** Without any help from the watchdog. */
  ghost predicate Unwatched(es: seq<Event>) {
    forall e :: e in es ==> e.RunReconnect? || e.FireReconnect? || e.ReconnectTimeout?
  }

  lemma RetryFromGoroutine(s: State) returns (es: seq<Event>)
    requires Inv(s) && !s.closed && !s.connecting && s.rt.reconnectGo > 0
    ensures |es| <= 3 && AllInternal(es) && Unwatched(es)
    ensures Legal(s, es) && Run(s, es).tally.timerAttaches == s.tally.timerAttaches + 1
  {
    InvKept(s, RunReconnect);
    var rest := RetryFromTimer(Next(s, RunReconnect));
    RunOne(s, RunReconnect, rest);
    es := [RunReconnect] + rest;
  }

  lemma RetryFromTimer(s: State) returns (es: seq<Event>)
    requires Inv(s) && !s.closed && s.connecting
    ensures |es| <= 2 && AllInternal(es) && Unwatched(es)
    ensures Legal(s, es) && Run(s, es).tally.timerAttaches == s.tally.timerAttaches + 1
    ensures !Run(s, es).connecting && Run(s, es).rt.reconnectGo == s.rt.reconnectGo
  {
    if s.rt.reconnectFired != {} {
      var t :| t in s.rt.reconnectFired;
      RunOne(s, ReconnectTimeout(t, true), []);
      es := [ReconnectTimeout(t, true)] + [];
    } else {
      var t :| t in s.rt.reconnectArmed;
      var s1 := Next(s, FireReconnect(t));
      RunOne(s1, ReconnectTimeout(t, true), []);
      RunOne(s, FireReconnect(t), [ReconnectTimeout(t, true)] + []);
      es := [FireReconnect(t)] + ([ReconnectTimeout(t, true)] + []);
    }
  }

  /** The pipeline itself learns that it has no connection: its connection has closed, its first Attach
      was refused, or an Attach of the reconnect timer was. */
  ghost predicate Fails(s: State, e: Event) {
    || (e.OnClosed? && s.connection == Some(e.c) && !s.connecting)
    || e == Connect(false)
    || (e.ReconnectTimeout? && !e.attachOk && s.connecting)
  }

  /** Then an open pipeline does not wait for the watchdog: another Attach is at most three events of
      the reconnect goroutine and its timer away. */
  lemma FailureStartsReconnect(s: State, e: Event) returns (es: seq<Event>)
    requires Inv(s) && !s.closed && Enabled(s, e) && Fails(s, e)
    ensures |es| <= 3 && Unwatched(es)
    ensures Legal(Next(s, e), es) && Run(Next(s, e), es).tally.timerAttaches == Next(s, e).tally.timerAttaches + 1
  {
    InvKept(s, e);
    if Next(s, e).connecting {
      es := RetryFromTimer(Next(s, e));
    } else {
      es := RetryFromGoroutine(Next(s, e));
    }
  }

  /** Conversely, once the MCU has joined, a reconnect that was under way attaches no more, unless
      another goroutine for it is waiting. */
  lemma JoinEndsReconnect(s: State, c: ConnId, es: seq<Event>)
    requires Enabled(s, OnConnect(c)) && s.rt.reconnectGo == 0
    requires AllInternal(es) && Legal(Next(s, OnConnect(c)), es)
    ensures Run(Next(s, OnConnect(c)), es).tally.timerAttaches == s.tally.timerAttaches
    ensures Run(Next(s, OnConnect(c)), es).connection == Some(c)
  {
    NoRetryWhileConnected(Next(s, OnConnect(c)), es);
    InternalKeepsConnection(Next(s, OnConnect(c)), es);
  }

  lemma {:induction false} InternalKeepsConnection(s: State, es: seq<Event>)
    requires AllInternal(es) && Legal(s, es)
    ensures Run(s, es).connection == s.connection
    decreases es
  {
    if es != [] {
      assert es[0] in es;
      InternalKeepsConnection(Next(s, es[0]), es[1..]);
    }
  }

  /** An Attach that is granted to the reconnect timer begins a new watch period: the watch timer in
      use is stopped, and the goroutine that arms another one is started. */
  lemma AttachRestartsWatch(s: State, t: TimerId)
    requires Enabled(s, ReconnectTimeout(t, true)) && s.connecting && !s.closed && s.watcher.Some?
    ensures var s' := Next(s, ReconnectTimeout(t, true));
            && s.watcher.value !in s'.rt.watchArmed && s'.rt.watchGo > s.rt.watchGo
            && s'.tally.granted == s.tally.granted + 1
  {
  }

  /** The watchdog starts no second reconnect beside one that is under way, and no reconnect at all while
      there is a connection; nor does an Attach that is granted right after it start a second watch. */
  lemma WatchdogStartsNothingTwice(s: State, t: TimerId, u: TimerId)
    requires Enabled(s, WatchTimeout(t)) && !s.closed
    ensures var s' := Next(s, WatchTimeout(t));
            && s'.rt.watchGo == s.rt.watchGo + 1
            && s'.rt.reconnectGo == s.rt.reconnectGo + (if s.connection.Some? || s.connecting then 0 else 1)
            && (Enabled(s', ReconnectTimeout(u, true)) ==>
                  Next(s', ReconnectTimeout(u, true)).rt.watchGo == s'.rt.watchGo)
  {
  }

  /** A goroutine that arms a timer stops the one in use before, and leaves all others alone. */
  lemma NewTimerReplacesOld(s: State)
    requires s.rt.Valid()
    ensures s.rt.watchGo > 0 ==>
              var s' := Next(s, RunWatch);
              && s'.watcher.Some? && s'.watcher.value !in s.rt.watchArmed
              && (forall t :: t in s'.rt.watchArmed <==>
                    t == s'.watcher.value || (t in s.rt.watchArmed && s.watcher != Some(t)))
    ensures s.rt.reconnectGo > 0 && !s.connecting ==>
              var s' := Next(s, RunReconnect);
              && s'.reconnector.Some? && s'.reconnector.value !in s.rt.reconnectArmed
              && (forall t :: t in s'.rt.reconnectArmed <==>
                    t == s'.reconnector.value || (t in s.rt.reconnectArmed && s.reconnector != Some(t)))
  {
  }

  /** Close leaves nothing to do, if nothing is pending but the two timers in use. */
  lemma CloseSilences(s: State)
    requires s.rt.watchGo == 0 && s.rt.reconnectGo == 0 && s.rt.watchFired == {} && s.rt.reconnectFired == {}
    requires s.rt.watchArmed <= if s.watcher.Some? then {s.watcher.value} else {}
    requires s.rt.reconnectArmed <= if s.reconnector.Some? then {s.reconnector.value} else {}
    ensures Next(s, Close).rt.Budget() == 0
  {
    assert Next(s, Close).rt.watchArmed == {} && Next(s, Close).rt.reconnectArmed == {};
  }

  // ---- Where no retry is scheduled ----

  /** Nobody tells the pipeline of a new connection, closes it, or says again that `c` has closed. */
  ghost predicate Undisturbed(es: seq<Event>, c: ConnId) {
    forall e :: e in es ==> !e.OnConnect? && !e.Close? && e != OnClosed(c)
  }

  lemma {:induction false} ConnectionKept(s: State, es: seq<Event>, c: ConnId)
    requires !s.closed && (s.connection == Some(c) || s.connection.None?)
    requires Legal(s, es) && Undisturbed(es, c)
    ensures Run(s, es).connection == s.connection && !Run(s, es).closed
    ensures s.tally.started ==> Run(s, es).tally.started
    decreases es
  {
    if es != [] {
      assert es[0] in es;
      ConnectionKept(Next(s, es[0]), es[1..], c);
    }
  }

  /** "A dead connection is dropped" holds exactly unless the pipeline is connecting when it is told:
      then onClosed leaves the connection in place, and nothing but a new connection, another report
      or Close takes it away. */
  lemma DeadConnectionStaysIff(s: State, c: ConnId, es: seq<Event>)
    requires !s.closed && s.connection == Some(c)
    requires Legal(Next(s, OnClosed(c)), es) && Undisturbed(es, c)
    ensures Run(Next(s, OnClosed(c)), es).connection == Some(c) <==> s.connecting
  {
    ConnectionKept(Next(s, OnClosed(c)), es, c);
  }

  /** An open pipeline has connection `c`, and its own work never leads to another Attach. */
  ghost predicate Stuck(s: State, c: ConnId) {
    !s.closed && s.connection == Some(c) && forall es :: !LeadsToAttach(s, es)
  }

  /** The dead connection stays with no retry to come exactly if the pipeline was connecting when it
      died, and that reconnect is over. */
  lemma StuckIff(s: State, c: ConnId, es: seq<Event>)
    requires Inv(s) && s.tally.started && !s.closed && s.connection == Some(c)
    requires Legal(Next(s, OnClosed(c)), es) && Undisturbed(es, c)
    ensures var t := Run(Next(s, OnClosed(c)), es);
            Stuck(t, c) <==> s.connecting && !t.connecting && t.rt.reconnectGo == 0
  {
    InvKept(s, OnClosed(c));
    ConnectionKept(Next(s, OnClosed(c)), es, c);
    InvOfRun(Next(s, OnClosed(c)), es);
    RetryIff(Run(Next(s, OnClosed(c)), es));
  }

  /** Runtime work alone, after `c` has closed, leaves the pipeline stuck with it. */
  ghost predicate GetsStuck(s: State, c: ConnId, es: seq<Event>) {
    AllInternal(es) && Legal(Next(s, OnClosed(c)), es) && Stuck(Run(Next(s, OnClosed(c)), es), c)
  }

  /** And that can happen whenever the pipeline is connecting when its connection dies. */
  lemma GetsStuckIff(s: State, c: ConnId)
    requires Inv(s) && s.tally.started && !s.closed && s.connection == Some(c)
    ensures (exists es :: GetsStuck(s, c, es)) <==> s.connecting
  {
    if s.connecting {
      var es := ReconnectEnds(s);
      StuckIff(s, c, es);
      assert GetsStuck(s, c, es);
    }
    forall es | GetsStuck(s, c, es) ensures s.connecting { StuckIff(s, c, es); }
  }

  /** The reconnect goroutines that wait find `connecting` set; then the timer attaches. */
  lemma {:induction false} ReconnectEnds(s: State) returns (es: seq<Event>)
    requires Inv(s) && s.tally.started && !s.closed && s.connecting
    ensures AllInternal(es) && Legal(s, es)
    ensures !Run(s, es).connecting && Run(s, es).rt.reconnectGo == 0
    decreases s.rt.reconnectGo
  {
    if s.rt.reconnectGo > 0 {
      InvKept(s, RunReconnect);
      var rest := ReconnectEnds(Next(s, RunReconnect));
      RunOne(s, RunReconnect, rest);
      es := [RunReconnect] + rest;
    } else {
      es := RetryFromTimer(s);
    }
  }

  /** A reconnect goroutine that is overtaken by onConnect. */
  const OVERTAKEN: seq<Event> := [
    Connect(true),                          // asks the MCU, starts watching
    RunWatch, FireWatch(0), WatchTimeout(0),  // no connection yet: starts a reconnect goroutine
    OnConnect(7),                           // the MCU joins first
    RunReconnect,                           // and only now the goroutine runs
    OnClosed(7),                            // connection 7 dies while `connecting` is set
    FireReconnect(1), ReconnectTimeout(1, true)]

  /** A run from the start in which that happens. */
  lemma DeadConnectionCanStay()
    ensures Legal(INIT, OVERTAKEN) && OnClosed(7) in OVERTAKEN
    ensures Stuck(Run(INIT, OVERTAKEN), 7) && !Run(INIT, OVERTAKEN).rt.RetryTimerPending()
  {
    var es := OVERTAKEN;
    assert es[6] == OnClosed(7);
    OvertakenWatch();
    OvertakenJoin();
    OvertakenClose();
    RunConcat(INIT, es[0..3], es[3..6]);
    RunConcat(INIT, es[0..3] + es[3..6], es[6..9]);
    assert es[0..3] + es[3..6] + es[6..9] == es;
    InvOfRun(INIT, es);
    RetryIff(STALE);
  }

  const WATCHED := State(
    false, false, None, Some(0), None, Runtime(0, 0, {}, {0}, {}, {}, 1), Tally(true, 0, 0, 1, 1, 0, 0))
  const JOINED := State(
    true, false, Some(1), None, Some(7), Runtime(1, 0, {}, {}, {1}, {}, 2), Tally(true, 1, 0, 1, 1, 0, 1))
  const STALE := State(
    false, false, None, None, Some(7), Runtime(1, 0, {}, {}, {}, {}, 2), Tally(true, 1, 1, 1, 2, 0, 1))

  lemma OvertakenWatch()
    ensures Legal(INIT, OVERTAKEN[0..3]) && Run(INIT, OVERTAKEN[0..3]) == WATCHED
  {
    var s2 := Next(Next(INIT, Connect(true)), RunWatch);
    assert s2.rt == Runtime(0, 0, {0}, {}, {}, {}, 1);
    assert Next(s2, FireWatch(0)).rt == WATCHED.rt;
    Run3(INIT, Connect(true), RunWatch, FireWatch(0));
    assert OVERTAKEN[0..3] == [Connect(true), RunWatch, FireWatch(0)];
  }

  lemma OvertakenJoin()
    ensures Legal(WATCHED, OVERTAKEN[3..6]) && Run(WATCHED, OVERTAKEN[3..6]) == JOINED
  {
    var s1 := Next(WATCHED, WatchTimeout(0));
    assert s1.rt == Runtime(1, 1, {}, {}, {}, {}, 1);
    assert Next(Next(s1, OnConnect(7)), RunReconnect).rt == JOINED.rt;
    Run3(WATCHED, WatchTimeout(0), OnConnect(7), RunReconnect);
    assert OVERTAKEN[3..6] == [WatchTimeout(0), OnConnect(7), RunReconnect];
  }

  lemma OvertakenClose()
    ensures Legal(JOINED, OVERTAKEN[6..9]) && Run(JOINED, OVERTAKEN[6..9]) == STALE
  {
    var s2 := Next(Next(JOINED, OnClosed(7)), FireReconnect(1));
    assert s2.rt == Runtime(1, 0, {}, {}, {}, {1}, 2);
    assert Next(s2, ReconnectTimeout(1, true)).rt == STALE.rt;
    Run3(JOINED, OnClosed(7), FireReconnect(1), ReconnectTimeout(1, true));
    assert OVERTAKEN[6..9] == [OnClosed(7), FireReconnect(1), ReconnectTimeout(1, true)];
  }

  lemma Run3(s: State, e: Event, f: Event, g: Event)
    requires Enabled(s, e) && Enabled(Next(s, e), f) && Enabled(Next(Next(s, e), f), g)
    ensures Legal(s, [e, f, g]) && Run(s, [e, f, g]) == Next(Next(Next(s, e), f), g)
  {
    RunOne(Next(Next(s, e), f), g, []);
    RunOne(Next(s, e), f, [g] + []);
    RunOne(s, e, [f] + ([g] + []));
    assert [e] + ([f] + ([g] + [])) == [e, f, g];
  }

  lemma {:induction false} RunConcat(s: State, es: seq<Event>, fs: seq<Event>)
    requires Legal(s, es) && Legal(Run(s, es), fs)
    ensures Legal(s, es + fs) && Run(s, es + fs) == Run(Run(s, es), fs)
    decreases es
  {
    if es == [] {
      assert [] + fs == fs;
    } else {
      RunConcat(Next(s, es[0]), es[1..], fs);
      RunOne(s, es[0], es[1..] + fs);
      assert [es[0]] + (es[1..] + fs) == es + fs;
    }
  }

  // ---- The object itself ----

  /** The pipeline as the source writes it, one method per critical section.  The `rt` and `tally`
      fields stand for what the Go runtime holds and for what an observer has counted. */
  class Pipeline {
    var connecting: bool
    var closed: bool
    var reconnector: Option<TimerId>
    var watcher: Option<TimerId>
    var connection: Option<ConnId>
    ghost var rt: Runtime
    ghost var tally: Tally

    ghost function Abs(): State
      reads this
    {
      State(connecting, closed, reconnector, watcher, connection, rt, tally)
    }

    constructor ()
      ensures Abs() == INIT
    {
      connecting, closed := false, false;
      reconnector, watcher, connection := None, None, None;
      rt, tally := INIT.rt, INIT.tally;
    }

    method Connect(attachOk: bool) returns (err: bool)
      modifies this
      ensures err == old(closed)
      ensures Abs() == AfterConnect(old(Abs()), attachOk)
    {
      if closed {
        return true;
      }
      tally := tally.(started := true, connectAttaches := tally.connectAttaches + 1);
      if attachOk {
        tally := tally.(granted := tally.granted + 1);
      } else {
        rt := rt.(reconnectGo := rt.reconnectGo + 1);
      }
      rt := rt.(watchGo := rt.watchGo + 1);
      return false;
    }

    method OnConnect(conn: ConnId)
      modifies this
      ensures Abs() == AfterOnConnect(old(Abs()), conn)
    {
      connecting := false;
      connection := Some(conn);
      tally := tally.(joined := tally.joined + 1);
    }

    method OnClosed(conn: ConnId)
      modifies this
      ensures Abs() == AfterOnClosed(old(Abs()), conn)
    {
      if Some(conn) != connection {
        return;
      }
      if connecting || closed {
        return;
      }
      connection := None;
      rt := rt.(reconnectGo := rt.reconnectGo + 1);
    }

    method Watch(timer: TimerId)
      requires rt.watchGo > 0 && timer == rt.next
      modifies this
      ensures Abs() == AfterWatch(old(Abs()))
    {
      rt := rt.(watchGo := rt.watchGo - 1);
      if watcher.Some? {
        rt := rt.(watchArmed := rt.watchArmed - {watcher.value});
      }
      watcher := Some(timer);
      rt := rt.(watchArmed := rt.watchArmed + {timer}, next := timer + 1);
    }

    method WatchTimeout(ghost t: TimerId)
      requires t in rt.watchFired
      modifies this
      ensures Abs() == AfterWatchTimeout(old(Abs()), t)
    {
      rt := rt.(watchFired := rt.watchFired - {t});
      watcher := None;
      if closed {
        return;
      }
      if connection.None? && !connecting {
        rt := rt.(reconnectGo := rt.reconnectGo + 1);
      }
      rt := rt.(watchGo := rt.watchGo + 1);
    }

    method Reconnect(timer: TimerId)
      requires rt.reconnectGo > 0 && timer == rt.next
      modifies this
      ensures Abs() == AfterReconnect(old(Abs()))
    {
      rt := rt.(reconnectGo := rt.reconnectGo - 1);
      if connecting {
        return;
      }
      if reconnector.Some? {
        rt := rt.(reconnectArmed := rt.reconnectArmed - {reconnector.value});
      }
      connecting := true;
      tally := tally.(rises := tally.rises + 1);
      reconnector := Some(timer);
      rt := rt.(reconnectArmed := rt.reconnectArmed + {timer}, next := timer + 1);
    }

    method ReconnectTimeout(ghost t: TimerId, attachOk: bool)
      requires t in rt.reconnectFired
      modifies this
      ensures Abs() == AfterReconnectTimeout(old(Abs()), t, attachOk)
    {
      rt := rt.(reconnectFired := rt.reconnectFired - {t});
      reconnector := None;
      if !connecting || closed {
        return;
      }
      tally := tally.(timerAttaches := tally.timerAttaches + 1);
      if !attachOk {
        connecting := false;
        rt := rt.(reconnectGo := rt.reconnectGo + 1);
      } else {
        tally := tally.(granted := tally.granted + 1);
        connecting := false;
        if watcher.Some? {
          rt := rt.(watchArmed := rt.watchArmed - {watcher.value}, watchGo := rt.watchGo + 1);
        }
      }
    }

    /** Returns the connection that Close goes on to detach and close. */
    method Close() returns (conn: Option<ConnId>)
      modifies this
      ensures conn == old(connection)
      ensures Abs() == AfterClose(old(Abs()))
    {
      conn := connection;
      connection := None;
      closed := true;
      if reconnector.Some? {
        rt := rt.(reconnectArmed := rt.reconnectArmed - {reconnector.value});
        reconnector := None;
      }
      if watcher.Some? {
        rt := rt.(watchArmed := rt.watchArmed - {watcher.value});
        watcher := None;
      }
    }

    /** The connection a message is sent to; none once closed, even if the MCU joined late. */
    method Send() returns (conn: Option<ConnId>)
      ensures conn.Some? <==> !closed && connection.Some?
      ensures conn.Some? ==> conn == connection
    {
      if closed || connection.None? {
        return None;
      }
      return connection;
    }

    /** Text is handed on only from the current connection of an open pipeline. */
    method OnText(conn: ConnId) returns (handled: bool)
      ensures handled <==> connection == Some(conn) && !closed
    {
      if Some(conn) != connection {
        return false;
      }
      return !closed;
    }
  }
}
