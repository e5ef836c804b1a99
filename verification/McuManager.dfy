/** The MCU manager: which MCU connection is asked next, and the attach transactions by which the
    MCU comes back with a connection of its own (signaling/mcu/manager.go:100-180,
    signaling/mcu/handlers.go:34-102). */
module McuManager {
  import opened Common
  import Expiry

  type ConnId = nat
  type Tx = string
  type RecId = nat

  // ---- Round robin ----

  /** `container/list` with a cursor.  Every connection is pushed once, so an element is known by its
      connection.  A removed element has no successor. */
  datatype Ring = Ring(list: seq<ConnId>, cursor: Option<ConnId>)
  {
    ghost predicate Valid() {
      Distinct(list)
    }
  }

  function IndexOf(xs: seq<ConnId>, x: ConnId): (i: nat)
    requires x in xs
    ensures i < |xs| && xs[i] == x
  {
    if xs[0] == x then 0 else 1 + IndexOf(xs[1..], x)
  }

  /** Element.Next. */
  function Successor(list: seq<ConnId>, e: ConnId): Option<ConnId> {
    if e in list && IndexOf(list, e) + 1 < |list| then Some(list[IndexOf(list, e) + 1]) else None
  }

  /** The cursor after a call of GetConnection; it is also what the call returns. */
  function Advance(r: Ring): Option<ConnId> {
    var next := if r.cursor.Some? then Successor(r.list, r.cursor.value) else None;
    if next.Some? then next else if r.list != [] then Some(r.list[0]) else None
  }

  /** The results of `n` calls in a row. */
  function Calls(r: Ring, n: nat): seq<Option<ConnId>>
    decreases n
  {
    if n == 0 then [] else [Advance(r)] + Calls(r.(cursor := Advance(r)), n - 1)
  }

  /** Nothing is returned exactly if no connection is listed; otherwise the result is listed, even if
      the cursor stands on a connection that has gone. */
  lemma AlwaysListed(r: Ring)
    ensures Advance(r).None? <==> r.list == []
    ensures Advance(r).Some? ==> Advance(r).value in r.list
  {
  }

  lemma IndexOfUnique(xs: seq<ConnId>, i: nat)
    requires i < |xs| && Distinct(xs)
    ensures IndexOf(xs, xs[i]) == i
  {
  }

  /** The position `k` after `i`, starting over at the front where the list ends. */
  function After(i: nat, k: nat, n: nat): nat
    requires i < n && k <= n
  {
    if i + k < n then i + k else i + k - n
  }

  /** With the cursor on element `i`, the calls return the elements after it. */
  lemma {:induction false} CallsFrom(r: Ring, i: nat, n: nat, k: nat)
    requires r.Valid() && i < |r.list| && r.cursor == Some(r.list[i]) && k < n <= |r.list|
    ensures |Calls(r, n)| == n && Calls(r, n)[k] == Some(r.list[After(i, k + 1, |r.list|)])
    decreases n
  {
    IndexOfUnique(r.list, i);
    var r' := r.(cursor := Advance(r));
    var j := After(i, 1, |r.list|);
    assert r'.cursor == Some(r.list[j]);
    CallsLength(r', n - 1);
    if k > 0 {
      CallsFrom(r', j, n - 1, k - 1);
    }
  }

  lemma {:induction false} CallsLength(r: Ring, n: nat)
    ensures |Calls(r, n)| == n
    decreases n
  {
    if n > 0 { CallsLength(r.(cursor := Advance(r)), n - 1); }
  }

  /** Over an unchanged list of `n` connections, any `n` calls in a row return each of them exactly
      once: the results are a rotation of the list, wherever the cursor was. */
  lemma RoundRobin(r: Ring) returns (start: nat)
    requires r.Valid() && r.list != []
    ensures start < |r.list| && |Calls(r, |r.list|)| == |r.list|
    ensures forall k :: 0 <= k < |r.list| ==>
              Calls(r, |r.list|)[k] == Some((r.list[start..] + r.list[..start])[k])
  {
    start := Start(r);
    CallsLength(r, |r.list|);
    forall k | 0 <= k < |r.list|
      ensures Calls(r, |r.list|)[k] == Some((r.list[start..] + r.list[..start])[k])
    {
      CallIs(r, k);
    }
  }

  /** Where the next call takes its element from. */
  function Start(r: Ring): nat {
    if r.cursor.Some? && r.cursor.value in r.list then After(IndexOf(r.list, r.cursor.value), 1, |r.list|) else 0
  }

  lemma AfterAdds(i: nat, k: nat, n: nat)
    requires i < n && k < n
    ensures After(After(i, 1, n), k, n) == After(i, k + 1, n)
  {
  }

  lemma CallIs(r: Ring, k: nat)
    requires r.Valid() && k < |r.list|
    ensures |Calls(r, |r.list|)| == |r.list|
    ensures Start(r) < |r.list| && Calls(r, |r.list|)[k] == Some(r.list[After(Start(r), k, |r.list|)])
  {
    CallsLength(r, |r.list|);
    if r.cursor.Some? && r.cursor.value in r.list {
      var i := IndexOf(r.list, r.cursor.value);
      AfterAdds(i, k, |r.list|);
      CallsFrom(r, i, |r.list|, k);
    } else {
      CallFromFront(r, k);
    }
  }

  /** Without a listed element under the cursor, the first call starts at the front. */
  lemma CallFromFront(r: Ring, k: nat)
    requires r.Valid() && k < |r.list| && Advance(r) == Some(r.list[0])
    ensures |Calls(r, |r.list|)| == |r.list| && Calls(r, |r.list|)[k] == Some(r.list[k])
  {
    var n := |r.list|;
    var r' := r.(cursor := Advance(r));
    CallsLength(r', n - 1);
    assert Calls(r, n) == [Advance(r)] + Calls(r', n - 1);
    if k > 0 {
      CallsFrom(r', 0, n - 1, k - 1);
      assert Calls(r, n)[k] == Calls(r', n - 1)[k - 1];
    }
  }

  // ---- Attach transactions ----

  /** `onConnect` tells whether the handler is still set, `calls` how often it has been called. */
  datatype Record = Record(expired: bool, connection: Option<ConnId>, onConnect: bool, calls: nat)
  {
    /** No connection, and no way to get one any more. */
    predicate Dead() { connection.None? && !onConnect }
  }

  /** A request has found a record and not yet locked it; or it has made a connection for it, run
      onConnect, and is about to register the callback that clears the record, which it holds locked
      until then. */
  datatype Request = Found(rec: RecId) | Registering(rec: RecId, c: ConnId)

  /** What becomes of that callback: Close takes a connection's callbacks once. */
  datatype Callback = Unset | Set | Taken | Ran | Late

  datatype Link = Link(rec: RecId, callback: Callback)

  /** `marked`: transactions the purge loop has collected, to be removed. */
  datatype State = State(
    attached: map<Tx, RecId>,
    recs: map<RecId, Record>,
    requests: map<nat, Request>,
    conns: map<ConnId, Link>,
    marked: set<Tx>)
  {
    ghost predicate Locked(r: RecId) {
      exists q :: q in requests && requests[q].Registering? && requests[q].rec == r
    }
  }

  const INIT := State(map[], map[], map[], map[], {})

  datatype Event =
    | Attach(tx: Tx, r: RecId)
    | Expire(r: RecId)                              // 30 s have passed
    | Lookup(request: nat, tx: Tx)
    | Join(request: nat, upgraded: bool, c: ConnId)
    | Register(request: nat)
    | CloseConn(c: ConnId)                          // Close takes the callbacks
    | ConnClosed(c: ConnId)                         // the callback runs
    | Mark(tx: Tx)
    | Remove(tx: Tx)

  /** Transaction ids are random and fresh, connections are new. */
  ghost predicate Enabled(s: State, e: Event) {
    match e
    case Attach(tx, r) => tx !in s.attached && r !in s.recs
    case Expire(r) => r in s.recs
    case Lookup(request, tx) => request !in s.requests && tx in s.attached
    case Join(request, _, c) =>
      && request in s.requests && s.requests[request].Found? && s.requests[request].rec in s.recs
      && !s.Locked(s.requests[request].rec) && c !in s.conns
    case Register(request) =>
      request in s.requests && s.requests[request].Registering? && s.requests[request].c in s.conns
    case CloseConn(c) => c in s.conns && (s.conns[c].callback.Unset? || s.conns[c].callback.Set?)
    case ConnClosed(c) =>
      && c in s.conns && s.conns[c].callback.Taken? && s.conns[c].rec in s.recs && !s.Locked(s.conns[c].rec)
    case Mark(tx) =>
      && tx in s.attached && s.attached[tx] in s.recs && !s.Locked(s.attached[tx])
      && s.recs[s.attached[tx]].connection.None? && s.recs[s.attached[tx]].expired
    case Remove(tx) => tx in s.marked
  }

  /** The record is free for a connection, and the request makes one. */
  predicate Takes(rec: Record, upgraded: bool) {
    rec.connection.None? && rec.onConnect && upgraded
  }

  /** The handler with the record locked, up to the return of onConnect. */
  function AfterJoin(rec: Record, upgraded: bool, c: ConnId): Record {
    if !Takes(rec, upgraded) then rec
    else rec.(connection := Some(c), calls := rec.calls + 1, onConnect := false)
  }

  function AfterJoinStep(s: State, q: nat, upgraded: bool, c: ConnId): State
    requires q in s.requests && s.requests[q].rec in s.recs
  {
    var r := s.requests[q].rec;
    var s' := s.(recs := s.recs[r := AfterJoin(s.recs[r], upgraded, c)]);
    if !Takes(s.recs[r], upgraded) then s'.(requests := s.requests - {q})
    else s'.(requests := s.requests[q := Registering(r, c)], conns := s.conns[c := Link(r, Unset)])
  }

  function WithCallback(s: State, c: ConnId, callback: Callback): State
    requires c in s.conns
  {
    s.(conns := s.conns[c := s.conns[c].(callback := callback)])
  }

  ghost function Next(s: State, e: Event): State
    requires Enabled(s, e)
  {
    match e
    case Attach(tx, r) => s.(attached := s.attached[tx := r], recs := s.recs[r := Record(false, None, true, 0)])
    case Expire(r) => s.(recs := s.recs[r := s.recs[r].(expired := true)])
    case Lookup(request, tx) => s.(requests := s.requests[request := Found(s.attached[tx])])
    case Join(request, upgraded, c) => AfterJoinStep(s, request, upgraded, c)
    case Register(request) =>
      var c := s.requests[request].c;
      WithCallback(s, c, if s.conns[c].callback.Unset? then Set else s.conns[c].callback)
        .(requests := s.requests - {request})
    case CloseConn(c) => WithCallback(s, c, if s.conns[c].callback.Set? then Taken else Late)
    case ConnClosed(c) =>
      var r := s.conns[c].rec;
      WithCallback(s, c, Ran).(recs := s.recs[r := s.recs[r].(connection := None)])
    case Mark(tx) =>
      s.(recs := s.recs[s.attached[tx] := s.recs[s.attached[tx]].(onConnect := false)], marked := s.marked + {tx})
    case Remove(tx) => s.(attached := s.attached - {tx}, marked := s.marked - {tx})
  }

  ghost predicate Legal(s: State, es: seq<Event>)
    decreases es
  {
    es == [] || (Enabled(s, es[0]) && Legal(Next(s, es[0]), es[1..]))
  }

  ghost function Run(s: State, es: seq<Event>): State
    requires Legal(s, es)
    decreases es
  {
    if es == [] then s else Run(Next(s, es[0]), es[1..])
  }

  ghost predicate TableOk(s: State) {
    && (forall tx :: tx in s.attached ==> s.attached[tx] in s.recs)
    && (forall t, u :: t in s.attached && u in s.attached && t != u ==> s.attached[t] != s.attached[u])
    && (forall tx :: tx in s.marked ==> tx in s.attached && s.recs[s.attached[tx]].Dead())
  }

  ghost predicate RecordsOk(s: State) {
    forall r :: r in s.recs ==>
      && s.recs[r].calls <= 1
      && (s.recs[r].onConnect ==> s.recs[r].calls == 0 && s.recs[r].connection.None?)
      && (s.recs[r].connection.Some? ==>
            var c := s.recs[r].connection.value;
            s.recs[r].calls == 1 && c in s.conns && s.conns[c].rec == r && !s.conns[c].callback.Ran?)
  }

  /** The record has the connection until the callback has run; while the callback is not set, the
      request that is to do so is under way. */
  ghost predicate LinkOk(s: State, c: ConnId)
    requires c in s.conns
  {
    && s.conns[c].rec in s.recs
    && (!s.conns[c].callback.Ran? ==> s.recs[s.conns[c].rec].connection == Some(c))
    && (s.conns[c].callback.Unset? ==> exists q :: q in s.requests && s.requests[q] == Registering(s.conns[c].rec, c))
  }

  ghost predicate RequestOk(s: State, q: nat)
    requires q in s.requests
  {
    s.requests[q].Registering? ==>
      && s.requests[q].c in s.conns && s.conns[s.requests[q].c].rec == s.requests[q].rec
      && (s.conns[s.requests[q].c].callback.Unset? || s.conns[s.requests[q].c].callback.Late?)
  }

  ghost predicate LinksOk(s: State) { forall c :: c in s.conns ==> LinkOk(s, c) }

  ghost predicate RequestsOk(s: State) {
    && (forall q :: q in s.requests ==> RequestOk(s, q))
    && (forall p, q :: p in s.requests && q in s.requests && p != q && s.requests[p].Registering? ==>
          s.requests[p] != s.requests[q])
  }

  ghost predicate Inv(s: State) {
    TableOk(s) && RecordsOk(s) && LinksOk(s) && RequestsOk(s)
  }

  lemma LockedHasConnection(s: State, r: RecId)
    requires LinksOk(s) && RequestsOk(s) && s.Locked(r)
    ensures r in s.recs && s.recs[r].connection.Some?
  {
    var q :| q in s.requests && s.requests[q].Registering? && s.requests[q].rec == r;
    assert RequestOk(s, q) && LinkOk(s, s.requests[q].c);
  }

  lemma JoinedTable(s: State, q: nat, upgraded: bool, c: ConnId)
    requires TableOk(s) && RecordsOk(s) && q in s.requests && s.requests[q].rec in s.recs && c !in s.conns
    ensures var s' := AfterJoinStep(s, q, upgraded, c); TableOk(s') && RecordsOk(s')
  {
  }

  lemma JoinKept(s: State, q: nat, upgraded: bool, c: ConnId)
    requires Inv(s) && Enabled(s, Join(q, upgraded, c))
    ensures Inv(Next(s, Join(q, upgraded, c)))
  {
    var s', r := AfterJoinStep(s, q, upgraded, c), s.requests[q].rec;
    JoinedTable(s, q, upgraded, c);
    assert LinksOk(s') by {
      forall d | d in s'.conns ensures LinkOk(s', d) {
        if d in s.conns {
          assert LinkOk(s, d);
          if s.conns[d].callback.Unset? {
            var p :| p in s.requests && s.requests[p] == Registering(s.conns[d].rec, d);
            assert p in s'.requests && s'.requests[p] == s.requests[p];
          }
        } else {
          assert s'.requests[q] == Registering(r, c);
        }
      }
    }
    assert RequestsOk(s') by {
      forall p | p in s'.requests ensures RequestOk(s', p) { assert p != q ==> RequestOk(s, p); }
    }
  }

  lemma RegisterKept(s: State, q: nat)
    requires Inv(s) && Enabled(s, Register(q))
    ensures Inv(Next(s, Register(q)))
  {
    var s', c := Next(s, Register(q)), s.requests[q].c;
    assert RequestOk(s, q);
    assert LinksOk(s') by {
      forall d | d in s'.conns ensures LinkOk(s', d) {
        assert LinkOk(s, d);
        if d != c && s.conns[d].callback.Unset? {
          var p :| p in s.requests && s.requests[p] == Registering(s.conns[d].rec, d);
          assert p in s'.requests && s'.requests[p] == s.requests[p];
        }
      }
    }
    assert RequestsOk(s') by {
      forall p | p in s'.requests ensures RequestOk(s', p) { assert RequestOk(s, p); }
    }
  }

  lemma CloseConnKept(s: State, c: ConnId)
    requires Inv(s) && Enabled(s, CloseConn(c))
    ensures Inv(Next(s, CloseConn(c)))
  {
    var s' := Next(s, CloseConn(c));
    forall d | d in s'.conns ensures LinkOk(s', d) { assert LinkOk(s, d); }
    forall p | p in s'.requests ensures RequestOk(s', p) { assert RequestOk(s, p); }
  }

  lemma ConnClosedKept(s: State, c: ConnId)
    requires Inv(s) && Enabled(s, ConnClosed(c))
    ensures Inv(Next(s, ConnClosed(c)))
  {
    var s' := Next(s, ConnClosed(c));
    assert LinkOk(s, c);
    assert LinksOk(s') by {
      forall d | d in s'.conns ensures LinkOk(s', d) { assert LinkOk(s, d); }
    }
    assert RequestsOk(s') by {
      forall p | p in s'.requests ensures RequestOk(s', p) { assert RequestOk(s, p); }
    }
  }

  /** Nothing changes but the table, the other fields of records, and requests that have just come. */
  lemma LinksMoved(s: State, s': State)
    requires LinksOk(s) && RequestsOk(s) && s'.conns == s.conns
    requires forall r :: r in s.recs ==> r in s'.recs && s'.recs[r].connection == s.recs[r].connection
    requires forall q :: q in s.requests ==> q in s'.requests && s'.requests[q] == s.requests[q]
    requires forall q :: q in s'.requests && q !in s.requests ==> s'.requests[q].Found?
    ensures LinksOk(s') && RequestsOk(s')
  {
    forall d | d in s'.conns ensures LinkOk(s', d) {
      assert LinkOk(s, d);
      if s.conns[d].callback.Unset? {
        var p :| p in s.requests && s.requests[p] == Registering(s.conns[d].rec, d);
        assert p in s'.requests && s'.requests[p] == s.requests[p];
      }
    }
    forall p | p in s'.requests ensures RequestOk(s', p) { assert p in s.requests ==> RequestOk(s, p); }
  }

  lemma AttachedTable(s: State, tx: Tx, r: RecId)
    requires TableOk(s) && RecordsOk(s) && Enabled(s, Attach(tx, r))
    ensures var s' := Next(s, Attach(tx, r)); TableOk(s') && RecordsOk(s')
  {
  }

  lemma MovedTable(s: State, e: Event)
    requires TableOk(s) && RecordsOk(s) && Enabled(s, e) && (e.Expire? || e.Lookup? || e.Mark? || e.Remove?)
    ensures TableOk(Next(s, e)) && RecordsOk(Next(s, e))
  {
  }

  lemma TableKept(s: State, e: Event)
    requires Inv(s) && Enabled(s, e) && (e.Attach? || e.Expire? || e.Lookup? || e.Mark? || e.Remove?)
    ensures Inv(Next(s, e))
  {
    var s' := Next(s, e);
    assert TableOk(s') && RecordsOk(s') by {
      if e.Attach? { AttachedTable(s, e.tx, e.r); } else { MovedTable(s, e); }
    }
    assert LinksOk(s') && RequestsOk(s') by { LinksMoved(s, s'); }
  }

  lemma InvKept(s: State, e: Event)
    requires Inv(s) && Enabled(s, e)
    ensures Inv(Next(s, e))
  {
    match e {
      case Join(q, upgraded, c) => JoinKept(s, q, upgraded, c);
      case Register(q) => RegisterKept(s, q);
      case CloseConn(c) => CloseConnKept(s, c);
      case ConnClosed(c) => ConnClosedKept(s, c);
      case _ => TableKept(s, e);
    }
  }

  lemma {:induction false} InvOfRun(s: State, es: seq<Event>)
    requires Inv(s) && Legal(s, es)
    ensures Inv(Run(s, es))
    decreases es
  {
    if es != [] {
      InvKept(s, es[0]);
      InvOfRun(Next(s, es[0]), es[1..]);
    }
  }

  /** The onConnect callback of an Attach runs at most once, and has run if the MCU has come back. */
  lemma AttachIsSingleUse(es: seq<Event>, r: RecId)
    requires Legal(INIT, es) && r in Run(INIT, es).recs
    ensures Run(INIT, es).recs[r].calls <= 1
    ensures Run(INIT, es).recs[r].connection.Some? ==> Run(INIT, es).recs[r].calls == 1
  {
    InvOfRun(INIT, es);
  }

  /** A record that is dead stays so, whoever had found it before. */
  lemma {:induction false} DeadStaysDead(s: State, es: seq<Event>, r: RecId)
    requires Legal(s, es) && r in s.recs && s.recs[r].Dead()
    ensures r in Run(s, es).recs && Run(s, es).recs[r].Dead() && Run(s, es).recs[r].calls == s.recs[r].calls
    decreases es
  {
    if es != [] {
      DeadStaysDead(Next(s, es[0]), es[1..], r);
    }
  }

  /** When the purge loop removes a transaction, its record has no connection, and none can join any
      more, not even through a request that found the record before it was marked. */
  lemma PurgeRemovesOnlyDead(es: seq<Event>, tx: Tx, more: seq<Event>)
    requires Legal(INIT, es) && Enabled(Run(INIT, es), Remove(tx)) && Legal(Run(INIT, es), more)
    ensures var s := Run(INIT, es);
            && tx in s.attached && s.attached[tx] in s.recs && s.attached[tx] in Run(s, more).recs
            && Run(s, more).recs[s.attached[tx]].connection.None?
            && Run(s, more).recs[s.attached[tx]].calls == s.recs[s.attached[tx]].calls
  {
    InvOfRun(INIT, es);
    var s := Run(INIT, es);
    DeadStaysDead(s, more, s.attached[tx]);
  }

  // ---- A connection that is closed too early ----

  /** The record of the transaction has a connection that was closed before the callback was set which
      is to clear the record. */
  predicate Leaked(s: State, tx: Tx) {
    && tx in s.attached && s.attached[tx] in s.recs && s.recs[s.attached[tx]].connection.Some?
    && var c := s.recs[s.attached[tx]].connection.value;
       c in s.conns && s.conns[c].callback.Late?
  }

  lemma LeakedStep(s: State, e: Event, tx: Tx)
    requires Inv(s) && Enabled(s, e) && Leaked(s, tx)
    ensures Leaked(Next(s, e), tx)
  {
    if e.ConnClosed? {
      assert LinkOk(s, e.c);
    } else if e.Join? {
      LeakedJoin(s, e, tx);
    }
  }

  lemma LeakedJoin(s: State, e: Event, tx: Tx)
    requires Enabled(s, e) && e.Join? && Leaked(s, tx)
    ensures Leaked(Next(s, e), tx)
  {
  }

  lemma {:induction false} LeakedStays(s: State, es: seq<Event>, tx: Tx)
    requires Inv(s) && Legal(s, es) && Leaked(s, tx)
    ensures Leaked(Run(s, es), tx)
    decreases es
  {
    if es != [] {
      InvKept(s, es[0]);
      LeakedStep(s, es[0], tx);
      LeakedStays(Next(s, es[0]), es[1..], tx);
    }
  }

  ghost predicate GetsPurged(s: State, tx: Tx, es: seq<Event>) {
    Legal(s, es) && tx !in Run(s, es).attached
  }

  /** "Every record is purged in the end" holds exactly unless its connection was closed between
      onConnect and the registration of the callback: then the record keeps the dead connection, and
      no purge ever takes it. */
  lemma PurgeableIff(s: State, tx: Tx)
    requires Inv(s) && tx in s.attached
    ensures (exists es :: GetsPurged(s, tx, es)) <==> !Leaked(s, tx)
  {
    if Leaked(s, tx) {
      forall es | Legal(s, es) ensures !GetsPurged(s, tx, es) { LeakedStays(s, es, tx); }
    } else {
      var es := ReleaseRuns(s, tx);
    }
  }

  function Ahead(s: State, tx: Tx): nat
    requires tx in s.attached && s.attached[tx] in s.recs
  {
    var connection := s.recs[s.attached[tx]].connection;
    if connection.None? || connection.value !in s.conns then 0
    else
      match s.conns[connection.value].callback
      case Unset => 3
      case Set => 2
      case _ => 1
  }

  /** The callback is registered, the connection closes, the callback runs, and the record is purged. */
  lemma {:induction false} ReleaseRuns(s: State, tx: Tx) returns (es: seq<Event>)
    requires Inv(s) && tx in s.attached && !Leaked(s, tx)
    ensures GetsPurged(s, tx, es)
    decreases Ahead(s, tx)
  {
    var r := s.attached[tx];
    if s.recs[r].connection.None? {
      es := StaleRuns(s, tx);
    } else {
      var c := s.recs[r].connection.value;
      assert LinkOk(s, c);
      var e := CloseConn(c);
      if s.conns[c].callback.Unset? {
        var q :| q in s.requests && s.requests[q] == Registering(r, c);
        e := Register(q);
      } else if s.conns[c].callback.Taken? {
        NotLocked(s, c);
        e := ConnClosed(c);
      }
      InvKept(s, e);
      es := ReleaseRuns(Next(s, e), tx);
      RunOne(s, e, es);
      es := [e] + es;
    }
  }

  lemma NotLocked(s: State, c: ConnId)
    requires LinksOk(s) && RequestsOk(s) && c in s.conns && s.conns[c].callback.Taken?
    ensures !s.Locked(s.conns[c].rec)
  {
    assert LinkOk(s, c);
    forall q | q in s.requests && s.requests[q].Registering? ensures s.requests[q].rec != s.conns[c].rec {
      assert RequestOk(s, q) && LinkOk(s, s.requests[q].c);
    }
  }

  lemma StaleRuns(s: State, tx: Tx) returns (es: seq<Event>)
    requires Inv(s) && tx in s.attached && s.recs[s.attached[tx]].connection.None?
    ensures GetsPurged(s, tx, es)
  {
    var r := s.attached[tx];
    if s.Locked(r) {
      LockedHasConnection(s, r);
    }
    var s1 := Next(s, Expire(r));
    assert !s1.Locked(r);
    var s2 := Next(s1, Mark(tx));
    RunOne(s2, Remove(tx), []);
    RunOne(s1, Mark(tx), [Remove(tx)] + []);
    RunOne(s, Expire(r), [Mark(tx)] + ([Remove(tx)] + []));
    es := [Expire(r)] + ([Mark(tx)] + ([Remove(tx)] + []));
  }

  /** It happens: the MCU comes back, and the pipeline that was given the connection is closed before
      the handler has registered its callback. */
  lemma LeakHappens(tx: Tx, c: ConnId)
    ensures var es := [Attach(tx, 0), Lookup(0, tx), Join(0, true, c), CloseConn(c), Register(0)];
            Legal(INIT, es) && Leaked(Run(INIT, es), tx)
  {
    var s1 := State(map[tx := 0], map[0 := Record(false, None, true, 0)], map[], map[], {});
    var s2 := s1.(requests := map[0 := Found(0)]);
    var s3 := s1.(recs := map[0 := Record(false, Some(c), false, 1)], requests := map[0 := Registering(0, c)],
                  conns := map[c := Link(0, Unset)]);
    var s4 := s3.(conns := map[c := Link(0, Late)]);
    assert Next(INIT, Attach(tx, 0)) == s1;
    assert Next(s1, Lookup(0, tx)) == s2;
    assert Next(s2, Join(0, true, c)) == s3;
    assert Next(s3, CloseConn(c)) == s4;
    RunOne(s4, Register(0), []);
    RunOne(s3, CloseConn(c), [Register(0)]);
    RunOne(s2, Join(0, true, c), [CloseConn(c), Register(0)]);
    RunOne(s1, Lookup(0, tx), [Join(0, true, c), CloseConn(c), Register(0)]);
    RunOne(INIT, Attach(tx, 0), [Lookup(0, tx), Join(0, true, c), CloseConn(c), Register(0)]);
  }

  lemma RunOne(s: State, e: Event, es: seq<Event>)
    requires Enabled(s, e) && Legal(Next(s, e), es)
    ensures Legal(s, [e] + es) && Run(s, [e] + es) == Run(Next(s, e), es)
  {
    assert ([e] + es)[1..] == es;
  }

  // ---- Operations that nothing interrupts ----

  /** What the table holds for a transaction. */
  datatype Row = Row(rec: RecId, value: Record)
  {
    /** To be purged. */
    predicate Stale() { value.connection.None? && value.expired }
    function Marked(): Row { this.(value := value.(onConnect := false)) }
  }

  type Rows = map<Tx, Row>

  function RowsOf(s: State): Rows {
    map tx | tx in s.attached && s.attached[tx] in s.recs :: Row(s.attached[tx], s.recs[s.attached[tx]])
  }

  function StaleIn(rows: Rows): set<Tx> {
    set tx | tx in rows && rows[tx].Stale()
  }

  const NEW_RECORD := Record(false, None, true, 0)

  lemma AttachRuns(s: State, tx: Tx, r: RecId)
    requires Inv(s) && Enabled(s, Attach(tx, r))
    ensures RowsOf(Next(s, Attach(tx, r))) == RowsOf(s)[tx := Row(r, NEW_RECORD)]
  {
    RowAdded(s, tx, r, NEW_RECORD);
  }

  lemma RowAdded(s: State, tx: Tx, r: RecId, rec: Record)
    requires tx !in s.attached && r !in s.recs && forall t :: t in s.attached ==> s.attached[t] in s.recs
    ensures RowsOf(s.(attached := s.attached[tx := r], recs := s.recs[r := rec])) == RowsOf(s)[tx := Row(r, rec)]
  {
  }

  lemma JoinRuns(s: State, request: nat, upgraded: bool, c: ConnId, tx: Tx)
    requires Inv(s) && Enabled(s, Join(request, upgraded, c))
    requires tx in s.attached && s.requests[request].rec == s.attached[tx]
    ensures RowsOf(Next(s, Join(request, upgraded, c))) ==
            RowsOf(s)[tx := Row(s.attached[tx], AfterJoin(RowsOf(s)[tx].value, upgraded, c))]
  {
  }

  lemma MarkRuns(s: State, tx: Tx)
    requires Inv(s) && tx in RowsOf(s) && RowsOf(s)[tx].Stale()
    ensures Enabled(s, Mark(tx)) && RowsOf(Next(s, Mark(tx))) == RowsOf(s)[tx := RowsOf(s)[tx].Marked()]
  {
    var r := s.attached[tx];
    if s.Locked(r) {
      LockedHasConnection(s, r);
    }
    RowChanged(s, tx, s.recs[r].(onConnect := false));
  }

  lemma RowChanged(s: State, tx: Tx, rec: Record)
    requires TableOk(s) && tx in s.attached
    ensures RowsOf(s.(recs := s.recs[s.attached[tx] := rec])) == RowsOf(s)[tx := Row(s.attached[tx], rec)]
  {
  }

  lemma RowRemoved(s: State, tx: Tx)
    ensures RowsOf(s.(attached := s.attached - {tx}, marked := s.marked - {tx})) == RowsOf(s) - {tx}
  {
  }

  /** A purge marks all stale records and then removes them. */
  lemma PurgeRuns(s: State) returns (es: seq<Event>)
    requires Inv(s) && s.marked == {}
    ensures Legal(s, es) && RowsOf(Run(s, es)) == RowsOf(s) - StaleIn(RowsOf(s))
  {
    es := MarksRun(s, StaleIn(RowsOf(s)));
  }

  lemma MarkedDropped(rows: Rows, tx: Tx, row: Row, todo: set<Tx>, marked: set<Tx>)
    requires tx in todo && todo <= StaleIn(rows)
    ensures todo - {tx} <= StaleIn(rows[tx := row])
    ensures rows[tx := row] - (todo - {tx}) - (marked + {tx}) == rows - todo - marked
  {
  }

  lemma {:induction false} MarksRun(s: State, todo: set<Tx>) returns (es: seq<Event>)
    requires Inv(s) && todo <= StaleIn(RowsOf(s))
    ensures Legal(s, es) && RowsOf(Run(s, es)) == RowsOf(s) - todo - s.marked
    decreases todo
  {
    if todo == {} {
      es := RemovalsRun(s);
      assert RowsOf(s) - todo == RowsOf(s);
    } else {
      var tx :| tx in todo;
      MarkRuns(s, tx);
      InvKept(s, Mark(tx));
      MarkedDropped(RowsOf(s), tx, RowsOf(s)[tx].Marked(), todo, s.marked);
      es := MarksRun(Next(s, Mark(tx)), todo - {tx});
      RunOne(s, Mark(tx), es);
      es := [Mark(tx)] + es;
    }
  }

  lemma {:induction false} RemovalsRun(s: State) returns (es: seq<Event>)
    ensures Legal(s, es) && RowsOf(Run(s, es)) == RowsOf(s) - s.marked
    decreases s.marked
  {
    if s.marked == {} {
      es := [];
      assert RowsOf(s) - {} == RowsOf(s);
    } else {
      var tx :| tx in s.marked;
      var s1 := Next(s, Remove(tx));
      es := RemovalsRun(s1);
      RowRemoved(s, tx);
      assert RowsOf(s) - {tx} - (s.marked - {tx}) == RowsOf(s) - s.marked;
      RunOne(s, Remove(tx), es);
      es := [Remove(tx)] + es;
    }
  }

  // ---- The objects themselves ----

  class AttachedRecord {
    const born: int
    var connection: Option<ConnId>
    var onConnect: bool
    ghost const rid: RecId
    ghost var calls: nat

    constructor (now: int, ghost rid: RecId)
      ensures this.rid == rid && born == now && Abs(now) == NEW_RECORD
    {
      this.rid := rid;
      born, connection, onConnect, calls := now, None, true, 0;
    }

    ghost function Abs(now: int): Record
      reads this
    {
      Record(born < now - EXPIRATION, connection, onConnect, calls)
    }

    /** The record is as before, but for the handler if it was marked. */
    ghost predicate MarkedSince(before: Record, now: int, marked: bool)
      reads this
    {
      Abs(now) == before.(onConnect := before.onConnect && !marked)
    }

    /** The purge loop's critical section. */
    method Mark(now: int) returns (stale: bool)
      modifies this
      ensures stale == Row(rid, old(Abs(now))).Stale()
      ensures MarkedSince(old(Abs(now)), now, stale)
    {
      stale := connection.None? && born < now - EXPIRATION;
      if stale {
        onConnect := false;
      }
    }

    /** The MCU comes back for this record.  Returns whether the connection was taken. */
    method Join(upgraded: bool, c: ConnId, ghost now: int) returns (taken: bool)
      modifies this
      ensures Abs(now) == AfterJoin(old(Abs(now)), upgraded, c)
      ensures taken <==> old(connection).None? && old(onConnect) && upgraded
    {
      if connection.Some? || !onConnect {
        return false;
      }
      if !upgraded {
        return false;
      }
      connection := Some(c);
      calls := calls + 1;
      onConnect := false;
      return true;
    }
  }

  const EXPIRATION := 30 * SECOND

  /** `AttachedRows` is what AttachRuns, JoinRuns and PurgeRuns speak of. */
  class Manager {
    var list: seq<ConnId>
    var cursor: Option<ConnId>
    var attached: map<Tx, AttachedRecord>

    ghost predicate Valid()
      reads this
    {
      && Ring(list, cursor).Valid()
      && forall t, u :: t in attached && u in attached && t != u ==> attached[t] != attached[u]
    }

    ghost function AttachedRows(now: int): Rows
      reads this, attached.Values
    {
      map tx | tx in attached :: Row(attached[tx].rid, attached[tx].Abs(now))
    }

    constructor ()
      ensures Valid() && list == [] && attached == map[]
    {
      list, cursor, attached := [], None, map[];
    }

    method GetConnection() returns (c: Option<ConnId>)
      modifies this`cursor
      ensures c == cursor == Advance(Ring(list, old(cursor)))
    {
      if cursor.Some? {
        cursor := Successor(list, cursor.value);
      }
      if cursor.None? && list != [] {
        cursor := Some(list[0]);
      }
      return cursor;
    }

    method PushBack(c: ConnId)
      requires Valid() && c !in list
      modifies this`list
      ensures Valid() && list == old(list) + [c]
    {
      list := list + [c];
    }

    /** Removes a connection from the list; the cursor may go on pointing to it. */
    method Drop(c: ConnId)
      requires Valid() && c in list
      modifies this`list
      ensures Valid() && c !in list
      ensures exists i :: 0 <= i < |old(list)| && old(list)[i] == c && list == old(list)[..i] + old(list)[i + 1..]
    {
      var i := IndexOf(list, c);
      list := list[..i] + list[i + 1..];
    }

    /** Asks the next MCU connection to attach; fails only if there is none, or it refuses. */
    method Attach(tx: Tx, now: int, sendOk: bool, ghost rid: RecId) returns (c: Option<ConnId>, ok: bool)
      requires Valid() && tx !in attached
      modifies this`cursor, this`attached
      ensures Valid() && c == cursor == Advance(Ring(list, old(cursor)))
      ensures ok <==> list != [] && sendOk
      ensures AttachedRows(now) ==
              if list == [] then old(AttachedRows(now)) else old(AttachedRows(now))[tx := Row(rid, NEW_RECORD)]
    {
      c := GetConnection();
      if c.None? {
        return c, false;
      }
      var record := new AttachedRecord(now, rid);
      attached := attached[tx := record];
      return c, sendOk;
    }

    /** Takes the handler away from exactly the records without connection older than 30 seconds. */
    method MarkExpired(now: int) returns (expired: set<Tx>)
      requires Valid()
      modifies attached.Values
      ensures expired == StaleIn(old(AttachedRows(now)))
      ensures forall tx :: tx in attached ==> attached[tx].MarkedSince(old(attached[tx].Abs(now)), now, tx in expired)
    {
      expired := {};
      var todo := attached.Keys;
      ghost var rows := AttachedRows(now);
      while todo != {}
        invariant todo <= attached.Keys
        invariant forall tx :: tx in expired <==> tx in rows && tx !in todo && rows[tx].Stale()
        invariant forall tx :: tx in attached ==> attached[tx].MarkedSince(rows[tx].value, now, tx in expired)
        decreases |todo|
      {
        var tx :| tx in todo;
        var stale := attached[tx].Mark(now);
        if stale {
          expired := expired + {tx};
        }
        todo := todo - {tx};
      }
    }

    /** First marks, then removes. */
    method PurgeExpired(now: int)
      requires Valid()
      modifies this`attached, attached.Values
      ensures Valid()
      ensures AttachedRows(now) == old(AttachedRows(now)) - StaleIn(old(AttachedRows(now)))
      ensures forall tx :: tx in old(attached) && tx !in attached ==> !old(attached)[tx].onConnect
    {
      var expired := MarkExpired(now);
      attached := Expiry.RemoveAll(attached, expired);
    }
  }
}
