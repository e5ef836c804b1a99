/** Sending on, closing, and watching the close of a connection
    (signaling/connection/connection.go:247-280 and 333-352).

    Any number of goroutines call RawSend, OnClosed and Close.  RawSend holds the read lock while it
    puts a payload on the send channel; Close marks the connection closed under the write lock but
    closes the send channel after releasing it, and takes the callbacks under a second write lock. */
module Connection {
  import opened Common

  type ThreadId = nat
  type Payload = nat
  type Callback = ThreadId            // each OnClosed call registers one callback of its own

  const SEND_CAPACITY := 256

  /** The fields of a connection, with what has happened to its send channel and callbacks:
      `registered` lists all callbacks ever registered, and the first `early` of them were there
      when Close took them. */
  datatype Shared = Shared(
    closed: bool,
    queue: seq<Payload>,
    callbacks: seq<Callback>,
    closeCalls: nat,                  // close(c.send) executed
    registered: seq<Callback>,
    taken: bool,
    early: nat,
    ran: seq<Callback>)

  const FRESH := Shared(false, [], [], 0, [], false, 0, [])

  /** Where a goroutine is. */
  datatype Thread =
    | Sending(p: Payload)             // RawSend: to take the read lock
    | SendLocked(p: Payload)          // to look at `closed`
    | SendReady(p: Payload)           // saw the connection open; to put the payload
    | SendUnlock
    | Registering                     // OnClosed: to take the write lock
    | RegisterLocked
    | Closing                         // Close: to take the write lock
    | CloseLocked
    | CloseSend                       // marked closed; to close the send channel
    | Taking                          // to take the write lock again
    | TakeLocked
    | RunCallbacks(todo: seq<Callback>)
    | Finished
  {
    predicate Reads() { SendLocked? || SendReady? || SendUnlock? }
    predicate Writes() { RegisterLocked? || CloseLocked? || TakeLocked? }
    predicate Initial() { Sending? || Registering? || Closing? }
    predicate Winning() { CloseSend? || Taking? || TakeLocked? || RunCallbacks? }
  }

  /** `winner` is the call of Close that found the connection open. */
  datatype State = State(sh: Shared, threads: map<ThreadId, Thread>, winner: Option<ThreadId>)

  const INIT := State(FRESH, map[], None)

  datatype Event =
    | Start(t: ThreadId, op: Thread)
    | Step(t: ThreadId)
    | Drain                           // the write loop takes a payload

  ghost predicate NoWriter(s: State) {
    forall t :: t in s.threads ==> !s.threads[t].Writes()
  }

  ghost predicate NoReader(s: State) {
    forall t :: t in s.threads ==> !s.threads[t].Reads()
  }

  ghost predicate Enabled(s: State, e: Event) {
    match e
    case Start(t, op) => t !in s.threads && op.Initial()
    case Drain => s.sh.queue != []
    case Step(t) =>
      && t in s.threads && !s.threads[t].Finished?
      && match s.threads[t]
         case Sending(_) => NoWriter(s)
         case Registering => NoWriter(s) && NoReader(s)
         case Closing => NoWriter(s) && NoReader(s)
         case Taking => NoWriter(s) && NoReader(s)
         case _ => true
  }

  // The critical sections.

  function AfterPut(sh: Shared, p: Payload): Shared {
    if |sh.queue| < SEND_CAPACITY then sh.(queue := sh.queue + [p]) else sh
  }

  function AfterRegister(sh: Shared, cb: Callback): Shared {
    sh.(callbacks := sh.callbacks + [cb], registered := sh.registered + [cb])
  }

  function AfterTake(sh: Shared): Shared {
    sh.(callbacks := [], taken := true, early := |sh.registered|)
  }

  function AfterStep(s: State, t: ThreadId): State
    requires t in s.threads
  {
    var sh := s.sh;
    match s.threads[t]
    case Sending(p) => s.(threads := s.threads[t := SendLocked(p)])
    case SendLocked(p) => s.(threads := s.threads[t := if sh.closed then SendUnlock else SendReady(p)])
    case SendReady(p) => s.(sh := AfterPut(sh, p), threads := s.threads[t := SendUnlock])
    case SendUnlock => s.(threads := s.threads[t := Finished])
    case Registering => s.(threads := s.threads[t := RegisterLocked])
    case RegisterLocked => s.(sh := AfterRegister(sh, t), threads := s.threads[t := Finished])
    case Closing => s.(threads := s.threads[t := CloseLocked])
    case CloseLocked =>
      if sh.closed then s.(threads := s.threads[t := Finished])
      else s.(sh := sh.(closed := true), threads := s.threads[t := CloseSend], winner := Some(t))
    case CloseSend => s.(sh := sh.(closeCalls := sh.closeCalls + 1), threads := s.threads[t := Taking])
    case Taking => s.(threads := s.threads[t := TakeLocked])
    case TakeLocked => s.(sh := AfterTake(sh), threads := s.threads[t := RunCallbacks(sh.callbacks)])
    case RunCallbacks(todo) =>
      if todo == [] then s.(threads := s.threads[t := Finished])
      else s.(sh := sh.(ran := sh.ran + [todo[0]]), threads := s.threads[t := RunCallbacks(todo[1..])])
    case Finished => s
  }

  ghost function Next(s: State, e: Event): State
    requires Enabled(s, e)
  {
    match e
    case Start(t, op) => s.(threads := s.threads[t := op])
    case Drain => s.(sh := s.sh.(queue := s.sh.queue[1..]))
    case Step(t) => AfterStep(s, t)
  }

  // ---- The invariant ----

  ghost predicate Exclusive(s: State) {
    forall t, u :: t in s.threads && u in s.threads && t != u && s.threads[t].Writes() ==>
      !s.threads[u].Reads() && !s.threads[u].Writes()
  }

  ghost predicate CallbacksOk(sh: Shared) {
    && sh.early <= |sh.registered| && (!sh.taken ==> sh.early == 0 && sh.ran == [])
    && sh.callbacks == sh.registered[sh.early..]
  }

  /** How far the winning Close has come, and what that means for the shared fields. */
  ghost predicate WinnerOk(sh: Shared, at: Thread)
    requires CallbacksOk(sh)
  {
    match at
    case CloseSend => sh.closeCalls == 0 && !sh.taken
    case Taking => sh.closeCalls == 1 && !sh.taken
    case TakeLocked => sh.closeCalls == 1 && !sh.taken
    case RunCallbacks(todo) => sh.closeCalls == 1 && sh.taken && sh.ran + todo == sh.registered[..sh.early]
    case Finished => sh.closeCalls == 1 && sh.taken && sh.ran == sh.registered[..sh.early]
    case _ => false
  }

  ghost predicate CloseOk(s: State) {
    && CallbacksOk(s.sh)
    && s.sh.closed == s.winner.Some?
    && (s.winner.None? ==> s.sh.closeCalls == 0 && !s.sh.taken)
    && (s.winner.Some? ==> s.winner.value in s.threads && WinnerOk(s.sh, s.threads[s.winner.value]))
  }

  ghost predicate ThreadOk(s: State, t: ThreadId)
    requires t in s.threads
  {
    && (s.threads[t].Winning() ==> s.winner == Some(t))
    && (s.threads[t].SendReady? ==> !s.sh.closed)
    && (t in s.sh.registered ==> s.threads[t].Finished? && s.winner != Some(t))
  }

  ghost predicate ThreadsOk(s: State) {
    forall t :: t in s.threads ==> ThreadOk(s, t)
  }

  ghost predicate RegisteredOk(s: State) {
    && (forall t :: t in s.sh.registered ==> t in s.threads)
    && Distinct(s.sh.registered)
  }

  ghost predicate Inv(s: State) {
    && Exclusive(s) && CloseOk(s) && ThreadsOk(s) && RegisteredOk(s)
    && |s.sh.queue| <= SEND_CAPACITY
  }

  lemma ExclusiveKept(s: State, t: ThreadId)
    requires Exclusive(s) && Enabled(s, Step(t))
    ensures Exclusive(AfterStep(s, t))
  {
  }

  lemma CloseKept(s: State, t: ThreadId)
    requires CloseOk(s) && t in s.threads && ThreadOk(s, t)
    ensures CloseOk(AfterStep(s, t))
  {
    var sh, sh' := s.sh, AfterStep(s, t).sh;
    match s.threads[t] {
      case RegisterLocked =>
        assert sh'.callbacks == sh'.registered[sh'.early..];
        assert sh'.registered[..sh.early] == sh.registered[..sh.early];
      case TakeLocked => assert [] + sh.callbacks == sh.registered[..|sh.registered|];
      case RunCallbacks(todo) =>
        assert todo != [] ==> sh'.ran + todo[1..] == sh.ran + todo;
        assert sh.ran + [] == sh.ran;
      case _ =>
    }
  }

  lemma ThreadsKept(s: State, t: ThreadId)
    requires Exclusive(s) && CloseOk(s) && ThreadsOk(s) && Enabled(s, Step(t))
    ensures ThreadsOk(AfterStep(s, t))
  {
    var s' := AfterStep(s, t);
    forall u | u in s'.threads ensures ThreadOk(s', u) {
      assert ThreadOk(s, u) && ThreadOk(s, t);
    }
  }

  lemma RegisteredKept(s: State, t: ThreadId)
    requires ThreadsOk(s) && RegisteredOk(s) && t in s.threads
    ensures RegisteredOk(AfterStep(s, t))
  {
    assert ThreadOk(s, t);
  }

  lemma InvKept(s: State, e: Event)
    requires Inv(s) && Enabled(s, e)
    ensures Inv(Next(s, e))
  {
    match e {
      case Step(t) =>
        assert ThreadOk(s, t);
        ExclusiveKept(s, t);
        CloseKept(s, t);
        ThreadsKept(s, t);
        RegisteredKept(s, t);
      case Start(t, op) => assert forall u :: u in s.threads ==> ThreadOk(s, u);
      case Drain => assert forall u :: u in s.threads ==> ThreadOk(s, u);
    }
  }

  // ---- Over every run ----

  ghost predicate Legal(s: State, es: seq<Event>)
    decreases es
  {
    es == [] || (Enabled(s, es[0]) && Legal(Next(s, es[0]), es[1..]))
  }

  ghost function Run(s: State, es: seq<Event>): State
    requires Legal(s, es)
    decreases es
  {
    if es == [] then s else Run(Next(s, es[0]), es[1..])
  }

  lemma {:induction false} InvOfRun(s: State, es: seq<Event>)
    requires Inv(s) && Legal(s, es)
    ensures Inv(Run(s, es))
    decreases es
  {
    if es != [] {
      InvKept(s, es[0]);
      InvOfRun(Next(s, es[0]), es[1..]);
    }
  }

  /** The send channel is closed at most once, holds at most 256 payloads, and a goroutine that is
      about to put a payload on it always finds it open. */
  lemma SendCloseSafety(es: seq<Event>, t: ThreadId)
    requires Legal(INIT, es)
    ensures var s := Run(INIT, es);
            && s.sh.closeCalls <= 1
            && |s.sh.queue| <= SEND_CAPACITY
            && (t in s.threads && s.threads[t].SendReady? ==> s.sh.closeCalls == 0)
            && (t in s.threads && s.threads[t].CloseSend? ==> s.sh.closeCalls == 0)
  {
    InvOfRun(INIT, es);
    var s := Run(INIT, es);
    assert t in s.threads ==> ThreadOk(s, t);
  }

  /** Once the send channel is closed nothing is put on it: the queue only ever loses its front. */
  lemma {:induction false} ClosedQueueOnlyDrains(s: State, es: seq<Event>)
    requires Inv(s) && Legal(s, es) && s.sh.closeCalls == 1
    ensures exists k :: 0 <= k <= |s.sh.queue| && Run(s, es).sh.queue == s.sh.queue[k..]
    decreases es
  {
    if es == [] {
      assert s.sh.queue == s.sh.queue[0..];
    } else {
      var s' := Next(s, es[0]);
      InvKept(s, es[0]);
      if es[0].Step? {
        assert ThreadOk(s, es[0].t);
      }
      var d := if es[0].Drain? then 1 else 0;
      assert s'.sh.queue == s.sh.queue[d..];
      ClosedQueueOnlyDrains(s', es[1..]);
      var k :| 0 <= k <= |s'.sh.queue| && Run(s', es[1..]).sh.queue == s'.sh.queue[k..];
      assert s.sh.queue[d..][k..] == s.sh.queue[d + k..];
    }
  }

  /** Callbacks run in the order of their registration, none of them twice, and only those registered
      before Close took them; once that Close has finished, all of those have run.  A callback
      registered later never runs. */
  lemma CallbacksRunExactlyOnce(es: seq<Event>, cb: Callback)
    requires Legal(INIT, es)
    ensures var sh := Run(INIT, es).sh;
            && sh.early <= |sh.registered| && sh.ran <= sh.registered[..sh.early]
            && Count(sh.ran, cb) <= 1
            && (cb in sh.registered[sh.early..] ==> Count(sh.ran, cb) == 0)
    ensures var s := Run(INIT, es);
            && s.winner.Some? && s.winner.value in s.threads && s.threads[s.winner.value].Finished?
            && cb in s.sh.registered[..s.sh.early] ==>
              Count(s.sh.ran, cb) == 1
  {
    InvOfRun(INIT, es);
    var s := Run(INIT, es);
    var sh := s.sh;
    assert sh.ran <= sh.registered[..sh.early];
    assert forall i :: 0 <= i < |sh.ran| ==> sh.ran[i] == sh.registered[i];
    CountDistinct(sh.ran, cb);
  }

  // ---- Nothing that was accepted is lost ----

  /** The payloads of this run's RawSend calls that found the connection open and room on its queue, in
      order. */
  ghost function Accepted(s: State, es: seq<Event>): seq<Payload>
    requires Legal(s, es)
    decreases es
  {
    if es == [] then []
    else
      AcceptedBy(s, es[0]) + Accepted(Next(s, es[0]), es[1..])
  }

  ghost function AcceptedBy(s: State, e: Event): seq<Payload>
    requires Enabled(s, e)
  {
    if e.Step? && s.threads[e.t].SendReady? && |s.sh.queue| < SEND_CAPACITY then [s.threads[e.t].p] else []
  }

  /** What the write loop takes. */
  ghost function Written(s: State, es: seq<Event>): seq<Payload>
    requires Legal(s, es)
    decreases es
  {
    if es == [] then []
    else WrittenBy(s, es[0]) + Written(Next(s, es[0]), es[1..])
  }

  ghost function WrittenBy(s: State, e: Event): seq<Payload>
    requires Enabled(s, e)
  {
    if e.Drain? then [s.sh.queue[0]] else []
  }

  /** The callbacks of the OnClosed calls that go through their critical section, in order. */
  ghost function Registrations(s: State, es: seq<Event>): seq<Callback>
    requires Legal(s, es)
    decreases es
  {
    if es == [] then []
    else
      (if es[0].Step? && s.threads[es[0].t].RegisterLocked? then [es[0].t] else [])
      + Registrations(Next(s, es[0]), es[1..])
  }

  lemma QueueStep(s: State, e: Event)
    requires Enabled(s, e)
    ensures WrittenBy(s, e) + Next(s, e).sh.queue == s.sh.queue + AcceptedBy(s, e)
  {
  }

  lemma Chained(w: seq<Payload>, q: seq<Payload>, q': seq<Payload>, a: seq<Payload>,
                ws: seq<Payload>, qs: seq<Payload>, as': seq<Payload>)
    requires w + q' == q + a && ws + qs == q' + as'
    ensures (w + ws) + qs == q + (a + as')
  {
    assert (w + ws) + qs == w + (ws + qs);
    assert w + (q' + as') == (w + q') + as';
    assert (q + a) + as' == q + (a + as');
  }

  /** Over every run, what the write loop has taken and what is still queued is exactly what was
      accepted, in the order in which it was. */
  lemma {:induction false} FirstInFirstOut(s: State, es: seq<Event>)
    requires Legal(s, es)
    ensures Written(s, es) + Run(s, es).sh.queue == s.sh.queue + Accepted(s, es)
    decreases es
  {
    if es != [] {
      var s', rest := Next(s, es[0]), es[1..];
      FirstInFirstOut(s', rest);
      QueueStep(s, es[0]);
      Chained(WrittenBy(s, es[0]), s.sh.queue, s'.sh.queue, AcceptedBy(s, es[0]),
              Written(s', rest), Run(s', rest).sh.queue, Accepted(s', rest));
    }
  }

  /** And the callbacks registered are exactly those of the OnClosed calls, in order. */
  lemma {:induction false} RegisteredInOrder(s: State, es: seq<Event>)
    requires Legal(s, es)
    ensures Run(s, es).sh.registered == s.sh.registered + Registrations(s, es)
    decreases es
  {
    if es != [] { RegisteredInOrder(Next(s, es[0]), es[1..]); }
  }

  // ---- Calls that nothing interrupts ----

  lemma RunOne(s: State, e: Event, es: seq<Event>)
    requires Enabled(s, e) && Legal(Next(s, e), es)
    ensures Legal(s, [e] + es) && Run(s, [e] + es) == Run(Next(s, e), es)
  {
    assert ([e] + es)[1..] == es;
  }

  /** `es` takes goroutine `t` to its end, with these fields. */
  ghost predicate Leads(s: State, es: seq<Event>, t: ThreadId, sh: Shared) {
    Legal(s, es) && Run(s, es).sh == sh && t in Run(s, es).threads && Run(s, es).threads[t].Finished?
  }

  lemma StepThen(s: State, t: ThreadId, es: seq<Event>, sh: Shared)
    requires Enabled(s, Step(t)) && Leads(Next(s, Step(t)), es, t, sh)
    ensures Leads(s, [Step(t)] + es, t, sh)
  {
    RunOne(s, Step(t), es);
  }

  /** RawSend puts its payload on the queue exactly if the connection is open and there is room. */
  lemma SendRuns(s: State, t: ThreadId, p: Payload) returns (es: seq<Event>)
    requires t in s.threads && s.threads[t] == Sending(p) && NoWriter(s)
    ensures var put := if !s.sh.closed && |s.sh.queue| < SEND_CAPACITY then [p] else [];
            Leads(s, es, t, s.sh.(queue := s.sh.queue + put))
  {
    var sh := s.sh.(queue := s.sh.queue + if !s.sh.closed && |s.sh.queue| < SEND_CAPACITY then [p] else []);
    var s1 := Next(s, Step(t));
    var s2 := Next(s1, Step(t));
    assert s.sh.queue + [] == s.sh.queue;
    es := [Step(t)] + [];
    if s.sh.closed {
      StepThen(s2, t, [], sh);
    } else {
      var s3 := Next(s2, Step(t));
      StepThen(s3, t, [], sh);
      StepThen(s2, t, es, sh);
      es := [Step(t)] + es;
    }
    StepThen(s1, t, es, sh);
    StepThen(s, t, [Step(t)] + es, sh);
    es := [Step(t)] + ([Step(t)] + es);
  }

  /** OnClosed appends its callback. */
  lemma RegisterRuns(s: State, t: ThreadId) returns (es: seq<Event>)
    requires t in s.threads && s.threads[t].Registering? && NoWriter(s) && NoReader(s)
    ensures Leads(s, es, t, s.sh.(callbacks := s.sh.callbacks + [t], registered := s.sh.registered + [t]))
  {
    var sh := s.sh.(callbacks := s.sh.callbacks + [t], registered := s.sh.registered + [t]);
    StepThen(Next(s, Step(t)), t, [], sh);
    StepThen(s, t, [Step(t)] + [], sh);
    es := [Step(t)] + ([Step(t)] + []);
  }

  lemma {:induction false} CallbacksRun(s: State, t: ThreadId) returns (es: seq<Event>)
    requires t in s.threads && s.threads[t].RunCallbacks?
    ensures Leads(s, es, t, s.sh.(ran := s.sh.ran + s.threads[t].todo))
    decreases s.threads[t].todo
  {
    var todo := s.threads[t].todo;
    if todo == [] {
      assert s.sh.ran + todo == s.sh.ran;
      es := [];
    } else {
      assert s.sh.ran + [todo[0]] + todo[1..] == s.sh.ran + todo;
      es := CallbacksRun(Next(s, Step(t)), t);
    }
    StepThen(s, t, es, s.sh.(ran := s.sh.ran + todo));
    es := [Step(t)] + es;
  }

  /** The first Close closes the send channel, takes all callbacks and runs them; any other does nothing. */
  lemma CloseRuns(s: State, t: ThreadId) returns (es: seq<Event>)
    requires t in s.threads && s.threads[t].Closing? && NoWriter(s) && NoReader(s)
    ensures Leads(s, es, t, if s.sh.closed then s.sh
                            else s.sh.(closed := true, closeCalls := s.sh.closeCalls + 1,
                                       callbacks := [], taken := true, early := |s.sh.registered|,
                                       ran := s.sh.ran + s.sh.callbacks))
  {
    var s1 := Next(s, Step(t));
    if s.sh.closed {
      StepThen(s1, t, [], s.sh);
      es := [Step(t)] + [];
      StepThen(s, t, es, s.sh);
    } else {
      var s2 := Next(s1, Step(t));
      var s3 := Next(s2, Step(t));
      var s4 := Next(s3, Step(t));
      var s5 := Next(s4, Step(t));
      es := CallbacksRun(s5, t);
      var sh := s5.sh.(ran := s5.sh.ran + s.sh.callbacks);
      StepThen(s4, t, es, sh);
      es := [Step(t)] + es;
      StepThen(s3, t, es, sh);
      es := [Step(t)] + es;
      StepThen(s2, t, es, sh);
      es := [Step(t)] + es;
      StepThen(s1, t, es, sh);
      es := [Step(t)] + es;
      StepThen(s, t, es, sh);
    }
    es := [Step(t)] + es;
  }

  // ---- The object itself ----

  /** The methods as single calls, each made of the critical sections above. */
  class Connection {
    var closed: bool
    var send: seq<Payload>
    var onClosedCallbacks: seq<Callback>
    ghost var sh: Shared

    ghost predicate Valid()
      reads this
    {
      && sh.closed == closed && sh.queue == send && sh.callbacks == onClosedCallbacks
      && |send| <= SEND_CAPACITY && CallbacksOk(sh)
      && sh.closeCalls == (if closed then 1 else 0) && sh.taken == closed
    }

    constructor ()
      ensures Valid() && sh == FRESH
    {
      closed, send, onClosedCallbacks, sh := false, [], [], FRESH;
    }

    method RawSend(payload: Payload) returns (ok: bool)
      requires Valid()
      modifies this
      ensures Valid()
      ensures ok <==> !old(closed) && |old(send)| < SEND_CAPACITY
      ensures send == old(send) + if ok then [payload] else []
      ensures sh == if old(closed) then old(sh) else AfterPut(old(sh), payload)
    {
      if closed {
        return false;
      }
      if |send| >= SEND_CAPACITY {
        return false;
      }
      send := send + [payload];
      sh := AfterPut(sh, payload);
      return true;
    }

    method OnClosed(cb: Callback)
      requires Valid()
      modifies this
      ensures Valid() && sh == AfterRegister(old(sh), cb)
      ensures onClosedCallbacks == old(onClosedCallbacks) + [cb]
    {
      onClosedCallbacks := onClosedCallbacks + [cb];
      sh := AfterRegister(sh, cb);
      assert sh.callbacks == sh.registered[sh.early..];
    }

    /** Runs the callbacks registered so far, in order; a second call changes nothing. */
    method Close() returns (run: seq<Callback>)
      requires Valid()
      modifies this
      ensures Valid() && closed
      ensures old(closed) ==> run == [] && sh == old(sh)
      ensures !old(closed) ==>
                && run == old(onClosedCallbacks)
                && sh == AfterTake(old(sh)).(closed := true, closeCalls := 1, ran := run)
    {
      run := [];
      if closed {
        return;
      }
      closed := true;
      sh := sh.(closed := true);
      sh := sh.(closeCalls := sh.closeCalls + 1);
      var callbacks := onClosedCallbacks;
      onClosedCallbacks := [];
      sh := AfterTake(sh);
      ghost var taken := sh;
      for i := 0 to |callbacks|
        invariant run == callbacks[..i] && sh == taken.(ran := run)
        invariant closed && send == old(send) && onClosedCallbacks == []
      {
        run := run + [callbacks[i]];
        sh := sh.(ran := run);
      }
    }
  }
}
