/** Pings, pongs and the read deadline of a connection (signaling/connection/connection.go:113-140
    and 220-241; sections 5.5.2 and 5.5.3 of RFC 6455). */
module Heartbeat {
  import opened Common

  const PONG_WAIT := 60 * SECOND
  const PING_PERIOD := PONG_WAIT * 9 / 10
  const PING_CAPACITY := 5

  type Time = int

  // ---- Ping numbers on the wire ----

  type Byte = b: int | 0 <= b < 256

  const ID_BYTES := 8

  function Pow256(n: nat): nat {
    if n == 0 then 1 else 256 * Pow256(n - 1)
  }

  /** Ping numbers wrap around. */
  function Uint64(n: nat): nat {
    n % 0x1_0000_0000_0000_0000
  }

  lemma Uint64Next(n: nat)
    ensures Uint64(Uint64(n) + 1) == Uint64(n + 1)
  {
  }

  /** The `n` low bytes of `x`, the lowest first. */
  function Encode(x: nat, n: nat): (bytes: seq<Byte>)
    ensures |bytes| == n
  {
    if n == 0 then [] else [x % 256] + Encode(x / 256, n - 1)
  }

  /** The number in the first `n` bytes; the rest is not looked at. */
  function Decode(bytes: seq<Byte>, n: nat): nat
    requires n <= |bytes|
  {
    if n == 0 then 0 else bytes[0] + 256 * Decode(bytes[1..], n - 1)
  }

  lemma {:induction false} DecodeEncode(x: nat, n: nat)
    requires x < Pow256(n)
    ensures Decode(Encode(x, n), n) == x
  {
    if n > 0 {
      assert Encode(x, n)[1..] == Encode(x / 256, n - 1);
      DecodeEncode(x / 256, n - 1);
    }
  }

  lemma UnfoldPow256()
    ensures Pow256(ID_BYTES) == 0x1_0000_0000_0000_0000
  {
    assert Pow256(2) == 0x1_0000;
    assert Pow256(4) == 0x1_0000_0000;
  }

  /** A peer that sends the payload of a ping back, sends its number back. */
  lemma EchoRoundTrip(x: nat)
    ensures Decode(Encode(Uint64(x), ID_BYTES), ID_BYTES) == Uint64(x)
  {
    UnfoldPow256();
    DecodeEncode(Uint64(x), ID_BYTES);
  }

  // ---- The machine ----

  datatype Event = Tick(at: Time) | Pong(at: Time, payload: seq<Byte>)

  /** `panicked`: the pong handler has read a number from a payload that is too short for one. */
  datatype State = State(deadline: Time, pings: seq<nat>, lastId: nat, hungUp: bool, panicked: bool)

  function Init(readStart: Time): State {
    State(readStart + PONG_WAIT, [], 0, false, false)
  }

  function AfterTick(s: State): State {
    var id := Uint64(s.lastId + 1);
    if |s.pings| < PING_CAPACITY then s.(lastId := id, pings := s.pings + [id])
    else s.(lastId := id, hungUp := true)
  }

  function AfterPong(s: State, at: Time, payload: seq<Byte>): State {
    if payload == [] || s.pings == [] then s
    else if |payload| < ID_BYTES then s.(pings := [], panicked := true)
    else if Decode(payload, ID_BYTES) == s.pings[|s.pings| - 1] then s.(pings := [], deadline := at + PONG_WAIT)
    else s.(pings := [])
  }

  function Next(s: State, e: Event): State {
    match e
    case Tick(_) => AfterTick(s)
    case Pong(at, payload) => AfterPong(s, at, payload)
  }

  function Run(s: State, es: seq<Event>): State {
    if es == [] then s else Next(Run(s, es[..|es| - 1]), es[|es| - 1])
  }

  // ---- What the queue holds ----

  function Ticks(es: seq<Event>): nat {
    if es == [] then 0 else Ticks(es[..|es| - 1]) + if es[|es| - 1].Tick? then 1 else 0
  }

  /** Ticks since the last pong with a payload. */
  function Outstanding(es: seq<Event>): nat {
    if es == [] then 0
    else
      var before := Outstanding(es[..|es| - 1]);
      match es[|es| - 1]
      case Tick(_) => before + 1
      case Pong(_, payload) => if payload != [] then 0 else before
  }

  /** The numbers of the last `k` of `n` pings. */
  function LastIds(n: nat, k: nat): seq<nat> {
    if k == 0 || n == 0 then [] else LastIds(n - 1, k - 1) + [Uint64(n)]
  }

  /** The numbers of the pings sent since the last pong with a payload. */
  function Recent(es: seq<Event>): seq<nat> {
    LastIds(Ticks(es), Outstanding(es))
  }

  lemma {:induction false} OutstandingBelowTicks(es: seq<Event>)
    ensures Outstanding(es) <= Ticks(es)
  {
    if es != [] { OutstandingBelowTicks(es[..|es| - 1]); }
  }

  /** `es[i]` is a tick that finds five pings, or more, without a pong. */
  ghost predicate FindsFive(es: seq<Event>, i: nat) {
    i < |es| && es[i].Tick? && Outstanding(es[..i]) >= PING_CAPACITY
  }

  lemma {:induction false} LastIdsLength(n: nat, k: nat)
    ensures |LastIds(n, k)| == if k <= n then k else n
  {
    if k > 0 && n > 0 { LastIdsLength(n - 1, k - 1); }
  }

  lemma FindsFiveStep(es: seq<Event>)
    requires es != []
    ensures var n := |es| - 1;
            (exists i :: FindsFive(es, i)) <==>
              (exists i :: FindsFive(es[..n], i)) || (es[n].Tick? && Outstanding(es[..n]) >= PING_CAPACITY)
  {
    var n := |es| - 1;
    forall i: nat | i < n ensures FindsFive(es, i) <==> FindsFive(es[..n], i) {
      assert es[..n][..i] == es[..i];
    }
    assert FindsFive(es, n) <==> es[n].Tick? && Outstanding(es[..n]) >= PING_CAPACITY;
  }

  /** The queue holds exactly the pings since the last pong with a payload, never more than five;
      and the connection has hung up exactly if some tick found five of them. */
  lemma {:induction false} QueueHoldsRecentPings(readStart: Time, es: seq<Event>)
    ensures var s := Run(Init(readStart), es);
            && s.lastId == Uint64(Ticks(es)) && |s.pings| <= PING_CAPACITY
            && (!s.hungUp ==> s.pings == Recent(es))
            && (s.hungUp <==> exists i :: FindsFive(es, i))
  {
    if es == [] {
      assert forall i :: !FindsFive(es, i);
    } else {
      var n := |es| - 1;
      OutstandingBelowTicks(es[..n]);
      LastIdsLength(Ticks(es[..n]), Outstanding(es[..n]));
      FindsFiveStep(es);
      Uint64Next(Ticks(es[..n]));
      QueueHoldsRecentPings(readStart, es[..n]);
    }
  }

  // ---- Payloads that are too short ----

  /** `es[i]` is a pong whose payload is too short for a number, while a ping is outstanding. */
  ghost predicate ShortPong(es: seq<Event>, i: nat) {
    i < |es| && es[i].Pong? && 0 < |es[i].payload| < ID_BYTES && Outstanding(es[..i]) > 0
  }

  /** "The pong handler copes with every payload" holds exactly if no pong of one to seven bytes comes
      while a ping is outstanding. */
  lemma {:induction false} PanicsIff(readStart: Time, es: seq<Event>)
    ensures var s := Run(Init(readStart), es);
            && (s.pings != [] <==> Outstanding(es) > 0)
            && (s.panicked <==> exists i :: ShortPong(es, i))
  {
    if es == [] {
      assert forall i :: !ShortPong(es, i);
    } else {
      var n := |es| - 1;
      PanicsIff(readStart, es[..n]);
      forall i: nat | i < n ensures ShortPong(es, i) <==> ShortPong(es[..n], i) {
        assert es[..n][..i] == es[..i];
      }
      assert ShortPong(es, n) <==> es[n].Pong? && 0 < |es[n].payload| < ID_BYTES && Outstanding(es[..n]) > 0;
    }
  }

  // ---- What moves the deadline ----

  /** A pong extends the deadline exactly if it echoes the newest ping, and that ping was sent after
      the previous pong with a payload; no other event moves it. */
  lemma OnlyNewestEchoExtends(readStart: Time, es: seq<Event>, e: Event)
    requires !Run(Init(readStart), es).hungUp
    ensures Run(Init(readStart), es + [e]).deadline ==
            if && e.Pong? && |e.payload| >= ID_BYTES && Decode(e.payload, ID_BYTES) == Uint64(Ticks(es))
               && Outstanding(es) > 0
            then e.at + PONG_WAIT
            else Run(Init(readStart), es).deadline
  {
    QueueHoldsRecentPings(readStart, es);
    OutstandingBelowTicks(es);
    LastIdsLength(Ticks(es), Outstanding(es));
    assert (es + [e])[..|es|] == es;
  }

  // ---- A peer that answers in time ----

  /** Every event comes before the read deadline in force. */
  ghost predicate InTime(s: State, es: seq<Event>)
    decreases |es|
  {
    es == [] || (es[0].at <= s.deadline && InTime(Next(s, es[0]), es[1..]))
  }

  /** How soon ping `k` has to be answered.  The write loop, which starts the ticker, and the read
      loop, which sets the first deadline, start in either order; if the ticker starts later, by
      `lag`, the first answer has that much less time. */
  function Slack(k: nat, lag: Time): Time {
    PONG_WAIT - PING_PERIOD - if k == 1 && lag > 0 then lag else 0
  }

  /** The `k`-th tick was at `last`, where tick 0 is the start of the ticker; the peer echoes each ping
      before its slack is over, and sends no other pong with a payload.  Pongs without payload may
      come at any time before what is due. */
  ghost predicate Responsive(es: seq<Event>, last: Time, lag: Time, k: nat, waiting: bool)
    decreases |es|
  {
    if es == [] then true
    else
      var due := if waiting then last + Slack(k, lag) - 1 else last + PING_PERIOD;
      match es[0]
      case Tick(at) => !waiting && at == due && Responsive(es[1..], at, lag, k + 1, true)
      case Pong(at, payload) =>
        && at <= due
        && (if payload == [] then Responsive(es[1..], last, lag, k, waiting)
            else
              && waiting && payload == Encode(Uint64(k), ID_BYTES) && last <= at
              && Responsive(es[1..], last, lag, k, false))
  }

  /** A peer that answers every ping in less than the pong wait minus the ping period (the first one
      earlier by what the ticker started late) never runs into the read deadline. */
  lemma ResponsivePeerNeverTimesOut(es: seq<Event>, readStart: Time, start: Time)
    requires start - readStart < PONG_WAIT - PING_PERIOD
    requires Responsive(es, start, start - readStart, 0, false)
    ensures InTime(Init(readStart), es)
  {
    StaysInTime(Init(readStart), es, readStart, start, start - readStart, 0, false);
  }

  /** The last ping that was answered was answered no earlier than its tick. */
  ghost predicate Ahead(s: State, readStart: Time, last: Time, lag: Time, k: nat, waiting: bool) {
    && lag < PONG_WAIT - PING_PERIOD && (k == 0 ==> !waiting && last == readStart + lag)
    && (k == 1 && waiting ==> last == readStart + lag + PING_PERIOD)
    && s.pings == (if waiting then [Uint64(k)] else []) && s.lastId == Uint64(k)
    && s.deadline >= PONG_WAIT + if k == 0 || (k == 1 && waiting) then readStart
                                 else if waiting then last - PING_PERIOD else last
  }

  lemma TickInTime(s: State, readStart: Time, last: Time, lag: Time, k: nat)
    requires Ahead(s, readStart, last, lag, k, false)
    ensures var at := last + PING_PERIOD;
            at <= s.deadline && Ahead(AfterTick(s), readStart, at, lag, k + 1, true)
  {
    Uint64Next(k);
  }

  lemma AnswerInTime(s: State, readStart: Time, last: Time, lag: Time, k: nat, at: Time)
    requires Ahead(s, readStart, last, lag, k, true) && last <= at < last + Slack(k, lag)
    ensures at <= s.deadline
    ensures Ahead(AfterPong(s, at, Encode(Uint64(k), ID_BYTES)), readStart, last, lag, k, false)
  {
    EchoRoundTrip(k);
  }

  lemma {:induction false} StaysInTime(
      s: State, es: seq<Event>, readStart: Time, last: Time, lag: Time, k: nat, waiting: bool)
    requires Ahead(s, readStart, last, lag, k, waiting) && Responsive(es, last, lag, k, waiting)
    ensures InTime(s, es)
    decreases |es|
  {
    if es != [] {
      match es[0] {
        case Tick(at) =>
          TickInTime(s, readStart, last, lag, k);
          StaysInTime(AfterTick(s), es[1..], readStart, at, lag, k + 1, true);
        case Pong(at, payload) =>
          if payload == [] {
            StaysInTime(s, es[1..], readStart, last, lag, k, waiting);
          } else {
            AnswerInTime(s, readStart, last, lag, k, at);
            StaysInTime(AfterPong(s, at, payload), es[1..], readStart, last, lag, k, false);
          }
      }
    }
  }

  /** The first answer does have less time if the ticker starts late: it comes in time exactly if
      `lag`, ping period and delay together stay within the pong wait. */
  lemma FirstAnswerInTimeIff(readStart: Time, lag: Time, delay: Time)
    requires 0 <= delay
    ensures var t := readStart + lag + PING_PERIOD;
            InTime(Init(readStart), [Tick(t), Pong(t + delay, Encode(1, ID_BYTES))])
            <==> lag + PING_PERIOD + delay <= PONG_WAIT
  {
    var t := readStart + lag + PING_PERIOD;
    var es := [Tick(t), Pong(t + delay, Encode(1, ID_BYTES))];
    var s1 := Next(Init(readStart), es[0]);
    assert es[1..] == [es[1]];
    assert InTime(s1, [es[1]]) <==> es[1].at <= s1.deadline by { assert [es[1]][1..] == []; }
  }

  /** The restriction to pongs that answer is needed: one unsolicited pong with a payload, as
      section 5.5.3 of RFC 6455 permits, empties the queue, and by OnlyNewestEchoExtends the answer
      that follows in time no longer extends the deadline. */
  lemma UnsolicitedPongSpoilsAnswer(unsolicited: seq<Byte>, delay: Time)
    requires |unsolicited| >= ID_BYTES && Decode(unsolicited, ID_BYTES) != 1 && 0 <= delay
    ensures var t := PING_PERIOD;
            !InTime(Init(0), [Tick(t), Pong(t, unsolicited), Pong(t + delay, Encode(1, ID_BYTES)), Tick(2 * t)])
  {
    var t := PING_PERIOD;
    var es := [Tick(t), Pong(t, unsolicited), Pong(t + delay, Encode(1, ID_BYTES)), Tick(2 * t)];
    var s1 := Next(Init(0), es[0]);
    var s2 := Next(s1, es[1]);
    var s3 := Next(s2, es[2]);
    assert !InTime(s3, [es[3]]);
    assert !InTime(s2, [es[2], es[3]]) by { assert [es[2], es[3]][1..] == [es[3]]; }
    assert !InTime(s1, [es[1], es[2], es[3]]) by { assert [es[1], es[2], es[3]][1..] == [es[2], es[3]]; }
    assert es[1..] == [es[1], es[2], es[3]];
  }

  // ---- The object itself ----

  class Beat {
    var ping: seq<nat>
    var lastId: nat
    var deadline: Time
    var hungUp: bool
    var panicked: bool

    ghost function Abs(): State
      reads this
    {
      State(deadline, ping, lastId, hungUp, panicked)
    }

    constructor (readStart: Time)
      ensures Abs() == Init(readStart)
    {
      ping, lastId, deadline, hungUp, panicked := [], 0, readStart + PONG_WAIT, false, false;
    }

    /** A tick of the write loop. */
    method OnTick()
      modifies this
      ensures Abs() == AfterTick(old(Abs()))
    {
      lastId := Uint64(lastId + 1);
      if |ping| < PING_CAPACITY {
        ping := ping + [lastId];
      } else {
        hungUp := true;
      }
    }

    /** The pong handler: drains the queue and looks at the last ping it held. */
    method OnPong(at: Time, payload: seq<Byte>)
      modifies this
      ensures Abs() == AfterPong(old(Abs()), at, payload)
    {
      if payload == [] {
        return;
      }
      var last: Option<nat> := None;
      ghost var k := 0;
      while ping != []
        invariant lastId == old(lastId) && deadline == old(deadline)
        invariant hungUp == old(hungUp) && panicked == old(panicked)
        invariant 0 <= k <= |old(ping)| && ping == old(ping)[k..]
        invariant last == if k == 0 then None else Some(old(ping)[k - 1])
        decreases |ping|
      {
        last := Some(ping[0]);
        ping := ping[1..];
        k := k + 1;
      }
      if last.None? {
        return;
      }
      if |payload| < ID_BYTES {
        panicked := true;
        return;
      }
      if Decode(payload, ID_BYTES) != last.value {
        return;
      }
      deadline := at + PONG_WAIT;
    }
  }
}
