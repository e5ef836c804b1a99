/** The user table: which connections a user has (signaling/rtm/events.go:32-137 and
    signaling/rtm/manager.go:149-192).

    A connection arrives bound to a user record of its own.  OnConnect enters that record into the
    table, or, if the table has a record for the user, adds the connection there and binds it to that
    record instead.  Table operations hold a lock of the table and, inside it, the lock of the
    record; the purge loop holds the lock of a record while it waits for that of the table. */
module Users {
  import opened Common

  type UserId = string
  type ConnId = nat
  type RecId = nat

  // ---- The compaction loop of OnDisconnect ----

  lemma WithoutPrefix(xs: seq<ConnId>, c: ConnId, n: nat)
    requires n < |xs|
    ensures Without(xs[..n + 1], c) == Without(xs[..n], c) + if xs[n] == c then [] else [xs[n]]
  {
    assert xs[..n + 1][..n] == xs[..n];
  }

  /** A slice of length `n` that starts with `xs` and is nil from there on. */
  function Padded(xs: seq<ConnId>, n: nat): seq<Option<ConnId>> {
    seq(n, i => if 0 <= i < |xs| then Some(xs[i]) else None)
  }

  lemma PaddedPut(xs: seq<ConnId>, n: nat, x: ConnId)
    requires |xs| < n
    ensures Padded(xs, n)[|xs| := Some(x)] == Padded(xs + [x], n)
  {
  }

  /** Removes `c` by copying into a slice that is one shorter.  The copy runs out of the slice, and
      panics, exactly if `c` does not occur; otherwise everything but `c` is kept in order, and one
      nil entry is left for each further occurrence. */
  method Compact(xs: seq<ConnId>, c: ConnId) returns (panic: bool, out: seq<Option<ConnId>>)
    ensures panic <==> c !in xs
    ensures !panic ==> |Without(xs, c)| < |xs| && out == Padded(Without(xs, c), |xs| - 1)
  {
    out := [];
    if |xs| == 0 {
      return true, out;
    }
    var slots := new Option<ConnId>[|xs| - 1](_ => None);
    assert slots[..] == Padded([], slots.Length);
    var offset := 0;
    for idx := 0 to |xs|
      invariant 0 <= offset <= idx && idx - offset <= slots.Length
      invariant idx - offset == |Without(xs[..idx], c)|
      invariant slots[..] == Padded(Without(xs[..idx], c), slots.Length)
      invariant offset > 0 <==> c in xs[..idx]
    {
      WithoutPrefix(xs, c, idx);
      assert xs[..idx + 1] == xs[..idx] + [xs[idx]];
      if xs[idx] == c {
        offset := offset + 1;
      } else {
        if idx - offset >= slots.Length {
          assert offset == 0 && xs[..idx + 1] == xs;
          return true, out;
        }
        PaddedPut(Without(xs[..idx], c), slots.Length, xs[idx]);
        ghost var before := slots[..];
        slots[idx - offset] := Some(xs[idx]);
        assert slots[..] == before[idx - offset := Some(xs[idx])];
      }
    }
    assert xs[..|xs|] == xs;
    return false, slots[..];
  }

  // ---- The table ----

  datatype Record = Record(id: UserId, connections: seq<ConnId>)

  /** `Entering` and `Leaving`: inside the table operation of OnConnect or OnDisconnect. */
  datatype Phase = New | Entering | Live | Leaving | Gone

  datatype Conn = Conn(rec: RecId, phase: Phase)

  /** The purge loop collects records without connections, then locks one after the other; `held`
      is a record it has locked, found empty, and is about to take out of the table. */
  datatype Purge = Scanning(found: set<RecId>) | Sweeping(found: set<RecId>, held: Option<RecId>)

  /** The table is cut into shards, each with a lock of its own; `inside` names, by shard, the
      connection that is inside a table operation.  `broken`: the
      branch of OnDisconnect that "should not happen" was taken, or its loop ran out of bounds. */
  datatype State = State(
    users: map<UserId, RecId>,
    recs: map<RecId, Record>,
    conns: map<ConnId, Conn>,
    shard: UserId -> nat,
    inside: map<nat, ConnId>,
    purge: Purge,
    broken: bool)

  function Init(shard: UserId -> nat): State {
    State(map[], map[], map[], shard, map[], Scanning({}), false)
  }

  datatype Event =
    | Accept(c: ConnId, r: RecId, user: UserId)
    | ConnectEnter(c: ConnId)
    | ConnectApply(c: ConnId)
    | DisconnectEnter(c: ConnId)
    | DisconnectApply(c: ConnId)
    | Scan(user: UserId)
    | Sweep
    | PurgeLock(r: RecId)
    | PurgeRemove
    | PurgeDone

  function PhaseOf(s: State, c: ConnId): Phase {
    if c in s.conns && s.conns[c].rec in s.recs then s.conns[c].phase else Gone
  }

  function UserOf(s: State, c: ConnId): UserId
    requires c in s.conns && s.conns[c].rec in s.recs
  {
    s.recs[s.conns[c].rec].id
  }

  function ShardOf(s: State, c: ConnId): nat
    requires c in s.conns && s.conns[c].rec in s.recs
  {
    s.shard(UserOf(s, c))
  }

  predicate HeldByPurge(s: State, r: RecId) {
    s.purge.Sweeping? && s.purge.held == Some(r)
  }

  /** The record that the table operation for `user` works on is not locked by the purge loop. */
  predicate RecordFree(s: State, user: UserId) {
    user in s.users ==> s.users[user] in s.recs && !HeldByPurge(s, s.users[user])
  }

  predicate Enabled(s: State, e: Event) {
    match e
    case Accept(c, r, _) => c !in s.conns && r !in s.recs
    case ConnectEnter(c) => PhaseOf(s, c).New? && ShardOf(s, c) !in s.inside
    case ConnectApply(c) => PhaseOf(s, c).Entering? && RecordFree(s, UserOf(s, c))
    case DisconnectEnter(c) => PhaseOf(s, c).Live? && ShardOf(s, c) !in s.inside
    case DisconnectApply(c) => PhaseOf(s, c).Leaving? && RecordFree(s, UserOf(s, c))
    case Scan(user) =>
      s.purge.Scanning? && user in s.users && s.users[user] in s.recs && s.recs[s.users[user]].connections == []
    case Sweep => s.purge.Scanning?
    case PurgeLock(r) => s.purge.Sweeping? && s.purge.held.None? && r in s.purge.found && r in s.recs
    case PurgeRemove =>
      && s.purge.Sweeping? && s.purge.held.Some? && s.purge.held.value in s.recs
      && s.shard(s.recs[s.purge.held.value].id) !in s.inside
    case PurgeDone => s.purge == Sweeping({}, None)
  }

  function AfterConnectApply(s: State, c: ConnId): State
    requires PhaseOf(s, c).Entering? && RecordFree(s, UserOf(s, c))
  {
    var user := UserOf(s, c);
    var r := if user in s.users then s.users[user] else s.conns[c].rec;
    s.(users := s.users[user := r],
       recs := s.recs[r := s.recs[r].(connections := s.recs[r].connections + [c])],
       conns := s.conns[c := Conn(r, Live)],
       inside := s.inside - {s.shard(user)})
  }

  function AfterDisconnectApply(s: State, c: ConnId): State
    requires PhaseOf(s, c).Leaving? && RecordFree(s, UserOf(s, c))
  {
    var user := UserOf(s, c);
    var s' := s.(conns := s.conns[c := s.conns[c].(phase := Gone)], inside := s.inside - {s.shard(user)});
    if user !in s.users || c !in s.recs[s.users[user]].connections then s'.(broken := true)
    else
      var r := s.users[user];
      s'.(recs := s.recs[r := s.recs[r].(connections := Without(s.recs[r].connections, c))])
  }

  function Next(s: State, e: Event): State
    requires Enabled(s, e)
  {
    match e
    case Accept(c, r, user) => s.(recs := s.recs[r := Record(user, [])], conns := s.conns[c := Conn(r, New)])
    case ConnectEnter(c) =>
      s.(conns := s.conns[c := s.conns[c].(phase := Entering)], inside := s.inside[ShardOf(s, c) := c])
    case ConnectApply(c) => AfterConnectApply(s, c)
    case DisconnectEnter(c) =>
      s.(conns := s.conns[c := s.conns[c].(phase := Leaving)], inside := s.inside[ShardOf(s, c) := c])
    case DisconnectApply(c) => AfterDisconnectApply(s, c)
    case Scan(user) => s.(purge := Scanning(s.purge.found + {s.users[user]}))
    case Sweep => s.(purge := Sweeping(s.purge.found, None))
    case PurgeLock(r) =>
      s.(purge := Sweeping(s.purge.found - {r}, if s.recs[r].connections == [] then Some(r) else None))
    case PurgeRemove => s.(users := s.users - {s.recs[s.purge.held.value].id}, purge := s.purge.(held := None))
    case PurgeDone => s.(purge := Scanning({}))
  }

  // ---- The invariant ----

  ghost predicate TableOk(s: State) {
    forall u :: u in s.users ==> s.users[u] in s.recs && s.recs[s.users[u]].id == u
  }

  /** A connection is listed exactly once in the record it is bound to, which is the table's record
      for its user, from OnConnect to OnDisconnect; before that its record is its own. */
  ghost predicate ConnOk(s: State, c: ConnId)
    requires c in s.conns
  {
    var r := s.conns[c].rec;
    && r in s.recs
    && match s.conns[c].phase
       case New => Private(s, c)
       case Entering => Private(s, c) && ShardOf(s, c) in s.inside && s.inside[ShardOf(s, c)] == c
       case Live => Listed(s, c)
       case Leaving => Listed(s, c) && ShardOf(s, c) in s.inside && s.inside[ShardOf(s, c)] == c
       case Gone => true
  }

  ghost predicate Listed(s: State, c: ConnId)
    requires c in s.conns && s.conns[c].rec in s.recs
  {
    && UserOf(s, c) in s.users && s.users[UserOf(s, c)] == s.conns[c].rec
    && c in s.recs[s.conns[c].rec].connections
  }

  ghost predicate Private(s: State, c: ConnId)
    requires c in s.conns && s.conns[c].rec in s.recs
  {
    var r := s.conns[c].rec;
    && s.recs[r].connections == []
    && (forall u :: u in s.users ==> s.users[u] != r)
    && (forall d :: d in s.conns && d != c ==> s.conns[d].rec != r)
  }

  ghost predicate RecordOk(s: State, r: RecId)
    requires r in s.recs
  {
    && Distinct(s.recs[r].connections)
    && forall c :: c in s.recs[r].connections ==>
         c in s.conns && s.conns[c].rec == r && (s.conns[c].phase.Live? || s.conns[c].phase.Leaving?)
  }

  ghost predicate InsideOk(s: State) {
    forall k :: k in s.inside ==>
      && s.inside[k] in s.conns && s.conns[s.inside[k]].rec in s.recs && ShardOf(s, s.inside[k]) == k
      && (s.conns[s.inside[k]].phase.Entering? || s.conns[s.inside[k]].phase.Leaving?)
  }

  ghost predicate InTable(s: State, r: RecId) {
    r in s.recs && s.recs[r].id in s.users && s.users[s.recs[r].id] == r
  }

  ghost predicate PurgeOk(s: State) {
    && (forall r :: r in s.purge.found ==> InTable(s, r))
    && (forall r :: HeldByPurge(s, r) ==> InTable(s, r) && s.recs[r].connections == [] && r !in s.purge.found)
  }

  ghost predicate ConnsOk(s: State) { forall c :: c in s.conns ==> ConnOk(s, c) }

  ghost predicate RecordsOk(s: State) { forall r :: r in s.recs ==> RecordOk(s, r) }

  ghost predicate Inv(s: State) {
    TableOk(s) && ConnsOk(s) && RecordsOk(s) && InsideOk(s) && PurgeOk(s) && !s.broken
  }

  lemma AcceptedConnOk(s: State, c: ConnId, r: RecId, user: UserId, d: ConnId)
    requires Inv(s) && Enabled(s, Accept(c, r, user)) && (d in s.conns || d == c)
    ensures ConnOk(Next(s, Accept(c, r, user)), d)
  {
    var s' := Next(s, Accept(c, r, user));
    if d != c {
      assert ConnOk(s, d);
      assert s'.conns[d] == s.conns[d] && s.conns[d].rec != r;
    } else {
      assert forall b :: b in s.conns ==> ConnOk(s, b);
    }
  }

  lemma AcceptKept(s: State, c: ConnId, r: RecId, user: UserId)
    requires Inv(s) && Enabled(s, Accept(c, r, user))
    ensures Inv(Next(s, Accept(c, r, user)))
  {
    var s' := Next(s, Accept(c, r, user));
    forall d | d in s'.conns ensures ConnOk(s', d) { AcceptedConnOk(s, c, r, user, d); }
    forall q | q in s'.recs ensures RecordOk(s', q) {
      assert q != r ==> RecordOk(s, q);
    }
  }

  lemma EnteredConnOk(s: State, c: ConnId, e: Event, d: ConnId)
    requires Inv(s) && (e == ConnectEnter(c) || e == DisconnectEnter(c)) && Enabled(s, e) && d in s.conns
    ensures ConnOk(Next(s, e), d)
  {
    assert ConnOk(s, d) && ConnOk(s, c);
    var s' := Next(s, e);
    assert s'.recs == s.recs && s'.users == s.users;
    assert Private(s, d) ==> Private(s', d);
  }

  lemma EnterKept(s: State, c: ConnId, e: Event)
    requires Inv(s) && (e == ConnectEnter(c) || e == DisconnectEnter(c)) && Enabled(s, e)
    ensures Inv(Next(s, e))
  {
    var s' := Next(s, e);
    forall d | d in s'.conns ensures ConnOk(s', d) { EnteredConnOk(s, c, e, d); }
    forall q | q in s'.recs ensures RecordOk(s', q) { EnteredRecordOk(s, c, e, q); }
    EnteredRest(s, c, e);
  }

  lemma EnteredRest(s: State, c: ConnId, e: Event)
    requires Inv(s) && (e == ConnectEnter(c) || e == DisconnectEnter(c)) && Enabled(s, e)
    ensures var s' := Next(s, e); TableOk(s') && InsideOk(s') && PurgeOk(s') && !s'.broken
  {
  }

  lemma EnteredRecordOk(s: State, c: ConnId, e: Event, q: RecId)
    requires Inv(s) && (e == ConnectEnter(c) || e == DisconnectEnter(c)) && Enabled(s, e) && q in s.recs
    ensures RecordOk(Next(s, e), q)
  {
    assert RecordOk(s, q);
  }

  lemma ConnectedConnOk(s: State, c: ConnId, d: ConnId)
    requires Inv(s) && Enabled(s, ConnectApply(c)) && d in s.conns
    ensures ConnOk(Next(s, ConnectApply(c)), d)
  {
    var s' := Next(s, ConnectApply(c));
    assert ConnOk(s, d) && ConnOk(s, c);
    if d != c && (s.conns[d].phase.New? || s.conns[d].phase.Entering?) {
      assert Private(s, d);
      assert Private(s', d);
    }
  }

  lemma ConnectedRecordOk(s: State, c: ConnId, q: RecId)
    requires Inv(s) && Enabled(s, ConnectApply(c)) && q in s.recs
    ensures RecordOk(Next(s, ConnectApply(c)), q)
  {
    assert RecordOk(s, q) && ConnOk(s, c);
  }

  lemma ConnectApplyKept(s: State, c: ConnId)
    requires Inv(s) && Enabled(s, ConnectApply(c))
    ensures Inv(Next(s, ConnectApply(c)))
  {
    var s' := Next(s, ConnectApply(c));
    forall d | d in s'.conns ensures ConnOk(s', d) { ConnectedConnOk(s, c, d); }
    forall q | q in s'.recs ensures RecordOk(s', q) { ConnectedRecordOk(s, c, q); }
    ConnectedRest(s, c);
  }

  lemma ConnectedRest(s: State, c: ConnId)
    requires Inv(s) && Enabled(s, ConnectApply(c))
    ensures var s' := Next(s, ConnectApply(c)); TableOk(s') && InsideOk(s') && PurgeOk(s') && !s'.broken
  {
    assert ConnOk(s, c);
    ConnectedTableOk(s, c);
    ConnectedPurgeOk(s, c);
  }

  lemma ConnectedTableOk(s: State, c: ConnId)
    requires TableOk(s) && InsideOk(s) && Enabled(s, ConnectApply(c)) && ConnOk(s, c)
    ensures var s' := AfterConnectApply(s, c); TableOk(s') && InsideOk(s')
  {
  }

  lemma ConnectedPurgeOk(s: State, c: ConnId)
    requires PurgeOk(s) && TableOk(s) && Enabled(s, ConnectApply(c)) && c in s.conns && ConnOk(s, c)
    ensures PurgeOk(Next(s, ConnectApply(c)))
  {
    var s' := AfterConnectApply(s, c);
    forall r | InTable(s, r) ensures InTable(s', r) {}
  }

  lemma DisconnectedConnOk(s: State, c: ConnId, d: ConnId)
    requires Inv(s) && Enabled(s, DisconnectApply(c)) && d in s.conns
    ensures ConnOk(Next(s, DisconnectApply(c)), d)
  {
    var s' := Next(s, DisconnectApply(c));
    assert ConnOk(s, d) && ConnOk(s, c);
    WithoutFacts(s.recs[s.conns[c].rec].connections, c);
    if d != c && (s.conns[d].phase.New? || s.conns[d].phase.Entering?) {
      assert Private(s, d);
      assert Private(s', d);
    }
  }

  lemma DisconnectedRecordOk(s: State, c: ConnId, q: RecId)
    requires Inv(s) && Enabled(s, DisconnectApply(c)) && q in s.recs
    ensures RecordOk(Next(s, DisconnectApply(c)), q)
  {
    assert RecordOk(s, q) && ConnOk(s, c);
    WithoutFacts(s.recs[s.conns[c].rec].connections, c);
  }

  lemma DisconnectedRest(s: State, c: ConnId)
    requires Inv(s) && Enabled(s, DisconnectApply(c))
    ensures var s' := Next(s, DisconnectApply(c)); TableOk(s') && InsideOk(s') && PurgeOk(s') && !s'.broken
  {
    assert ConnOk(s, c);
  }

  lemma DisconnectApplyKept(s: State, c: ConnId)
    requires Inv(s) && Enabled(s, DisconnectApply(c))
    ensures Inv(Next(s, DisconnectApply(c)))
  {
    var s' := Next(s, DisconnectApply(c));
    forall d | d in s'.conns ensures ConnOk(s', d) { DisconnectedConnOk(s, c, d); }
    forall q | q in s'.recs ensures RecordOk(s', q) {
      assert ConnOk(s, c);
      DisconnectedRecordOk(s, c, q);
    }
    DisconnectedRest(s, c);
  }

  lemma PurgeKept(s: State, e: Event)
    requires Inv(s) && Enabled(s, e) && (e.Scan? || e.Sweep? || e.PurgeLock? || e.PurgeDone?)
    ensures Inv(Next(s, e))
  {
    var s' := Next(s, e);
    PurgeMoved(s, s'.purge);
  }

  lemma PurgeMoved(s: State, purge: Purge)
    requires TableOk(s) && ConnsOk(s) && RecordsOk(s) && InsideOk(s)
    ensures var s' := s.(purge := purge); TableOk(s') && ConnsOk(s') && RecordsOk(s') && InsideOk(s')
  {
    var s' := s.(purge := purge);
    assert ConnsOk(s') by {
      forall d | d in s'.conns ensures ConnOk(s', d) { assert ConnOk(s, d); }
    }
    assert RecordsOk(s') by {
      forall q | q in s'.recs ensures RecordOk(s', q) { assert RecordOk(s, q); }
    }
  }

  lemma PurgeRemoveKept(s: State)
    requires Inv(s) && Enabled(s, PurgeRemove)
    ensures Inv(Next(s, PurgeRemove))
  {
    var s' := Next(s, PurgeRemove);
    assert HeldByPurge(s, s.purge.held.value);
    forall d | d in s'.conns ensures ConnOk(s', d) { assert ConnOk(s, d); }
    forall q | q in s'.recs ensures RecordOk(s', q) { assert RecordOk(s, q); }
  }

  lemma InvKept(s: State, e: Event)
    requires Inv(s) && Enabled(s, e)
    ensures Inv(Next(s, e))
  {
    match e {
      case Accept(c, r, user) => AcceptKept(s, c, r, user);
      case ConnectEnter(c) => EnterKept(s, c, e);
      case ConnectApply(c) => ConnectApplyKept(s, c);
      case DisconnectEnter(c) => EnterKept(s, c, e);
      case DisconnectApply(c) => DisconnectApplyKept(s, c);
      case PurgeRemove => PurgeRemoveKept(s);
      case _ => PurgeKept(s, e);
    }
  }

  // ---- Over every run ----

  predicate Legal(s: State, es: seq<Event>)
    decreases es
  {
    es == [] || (Enabled(s, es[0]) && Legal(Next(s, es[0]), es[1..]))
  }

  function Run(s: State, es: seq<Event>): State
    requires Legal(s, es)
    decreases es
  {
    if es == [] then s else Run(Next(s, es[0]), es[1..])
  }

  lemma {:induction false} InvOfRun(s: State, es: seq<Event>)
    requires Inv(s) && Legal(s, es)
    ensures Inv(Run(s, es))
    decreases es
  {
    if es != [] {
      InvKept(s, es[0]);
      InvOfRun(Next(s, es[0]), es[1..]);
    }
  }

  /** From OnConnect to OnDisconnect the table has, for the user of a connection, exactly the record
      the connection is bound to, and that record lists the connection exactly once; no other record
      lists it.  In particular no purge takes a user with a connection out of the table. */
  lemma ListedExactlyOnce(shard: UserId -> nat, es: seq<Event>, c: ConnId, r: RecId)
    requires Legal(Init(shard), es)
    requires c in Run(Init(shard), es).conns && r in Run(Init(shard), es).recs
    requires Run(Init(shard), es).conns[c].phase.Live? || Run(Init(shard), es).conns[c].phase.Leaving?
    ensures var s := Run(Init(shard), es);
            && s.conns[c].rec in s.recs && UserOf(s, c) in s.users && s.users[UserOf(s, c)] == s.conns[c].rec
            && Count(s.recs[r].connections, c) == if r == s.conns[c].rec then 1 else 0
  {
    InvOfRun(Init(shard), es);
    var s := Run(Init(shard), es);
    assert ConnOk(s, c) && RecordOk(s, r);
    CountDistinct(s.recs[r].connections, c);
  }

  /** So the loop of OnDisconnect stays in bounds and removes exactly the connection, and the branch
      for a user without table entry is never taken. */
  lemma DisconnectNeverBreaks(shard: UserId -> nat, es: seq<Event>, c: ConnId)
    requires Legal(Init(shard), es)
    ensures !Run(Init(shard), es).broken
    ensures var s := Run(Init(shard), es);
            Enabled(s, DisconnectApply(c)) ==>
              && UserOf(s, c) in s.users
              && var xs := s.recs[s.users[UserOf(s, c)]].connections;
                 && c in xs && |Without(xs, c)| == |xs| - 1
                 && Next(s, DisconnectApply(c)).recs[s.users[UserOf(s, c)]].connections == Without(xs, c)
  {
    InvOfRun(Init(shard), es);
    var s := Run(Init(shard), es);
    if Enabled(s, DisconnectApply(c)) {
      assert ConnOk(s, c) && RecordOk(s, s.conns[c].rec);
      WithoutFacts(s.recs[s.conns[c].rec].connections, c);
    }
  }

  // ---- The two lock orders ----

  /** The purge loop holds a user's record and waits for the table; a new connection of the same user
      is inside the table operation and waits for the record. */
  predicate Deadlocked(s: State, c: ConnId) {
    && PhaseOf(s, c).Entering? && ShardOf(s, c) in s.inside && s.inside[ShardOf(s, c)] == c
    && UserOf(s, c) in s.users && s.users[UserOf(s, c)] in s.recs
    && s.recs[s.users[UserOf(s, c)]].id == UserOf(s, c)
    && HeldByPurge(s, s.users[UserOf(s, c)])
  }

  /** The purge loop can go on after some steps of the others. */
  ghost predicate PurgeGoesOn(s: State, es: seq<Event>) {
    Legal(s, es) && Enabled(Run(s, es), PurgeRemove)
  }

  /** The purge loop, holding a record, is kept waiting for good exactly in such a state: an operation
      of another user in the same shard ends on its own. */
  lemma PurgeBlockedIff(s: State)
    requires Inv(s) && s.purge.Sweeping? && s.purge.held.Some?
    ensures (forall es :: !PurgeGoesOn(s, es)) <==> exists c :: Deadlocked(s, c)
  {
    if c :| Deadlocked(s, c) {
      forall es | Legal(s, es) ensures !PurgeGoesOn(s, es) {
        DeadlockLasts(s, es, c);
        DeadlockHolds(s, es, c);
      }
    } else {
      var es := OthersRun(s);
      assert PurgeGoesOn(s, es);
    }
  }

  /** The record that the purge loop holds has a user in the shard that is occupied. */
  lemma DeadlockHolds(s: State, es: seq<Event>, c: ConnId)
    requires Legal(s, es) && Deadlocked(Run(s, es), c)
    ensures !Enabled(Run(s, es), PurgeRemove)
  {
  }

  /** Whoever is inside the shard the purge loop waits for gets out, unless that is a deadlock. */
  lemma OthersRun(s: State) returns (es: seq<Event>)
    requires Inv(s) && s.purge.Sweeping? && s.purge.held.Some? && !exists c :: Deadlocked(s, c)
    ensures PurgeGoesOn(s, es)
  {
    var r := s.purge.held.value;
    assert HeldByPurge(s, r);
    var k := s.shard(s.recs[r].id);
    if k !in s.inside {
      es := [];
    } else {
      var c := s.inside[k];
      assert ConnOk(s, c) && !Deadlocked(s, c);
      var e := if s.conns[c].phase.Entering? then ConnectApply(c) else DisconnectApply(c);
      assert UserOf(s, c) != s.recs[r].id;
      assert RecordFree(s, UserOf(s, c));
      RunOne(s, e, []);
      es := [e] + [];
    }
  }

  /** And no event ever ends it. */
  lemma {:induction false} DeadlockLasts(s: State, es: seq<Event>, c: ConnId)
    requires Inv(s) && Deadlocked(s, c) && Legal(s, es)
    ensures Deadlocked(Run(s, es), c)
    decreases es
  {
    if es != [] {
      DeadlockStep(s, es[0], c);
      InvKept(s, es[0]);
      DeadlockLasts(Next(s, es[0]), es[1..], c);
    }
  }

  lemma DeadlockStep(s: State, e: Event, c: ConnId)
    requires ConnsOk(s) && Deadlocked(s, c) && Enabled(s, e)
    ensures Deadlocked(Next(s, e), c)
  {
    if e.ConnectApply? || e.DisconnectApply? {
      assert ConnOk(s, e.c) && ConnOk(s, c);
      assert e.c != c;
    }
  }

  lemma RunOne(s: State, e: Event, es: seq<Event>)
    requires Enabled(s, e) && Legal(Next(s, e), es)
    ensures Legal(s, [e] + es) && Run(s, [e] + es) == Run(Next(s, e), es)
  {
    assert ([e] + es)[1..] == es;
  }

  lemma {:induction false} RunConcat(s: State, es: seq<Event>, fs: seq<Event>)
    requires Legal(s, es) && Legal(Run(s, es), fs)
    ensures Legal(s, es + fs) && Run(s, es + fs) == Run(Run(s, es), fs)
    decreases es
  {
    if es == [] {
      assert [] + fs == fs;
    } else {
      RunConcat(Next(s, es[0]), es[1..], fs);
      RunOne(s, es[0], es[1..] + fs);
      assert [es[0]] + (es[1..] + fs) == es + fs;
    }
  }

  /** A user who came and left, whose record is still in the table. */
  function Left(shard: UserId -> nat): State {
    State(map["u" := 0], map[0 := Record("u", [])], map[0 := Conn(0, Gone)], shard, map[], Scanning({}), false)
  }

  const VISIT := [Accept(0, 0, "u"), ConnectEnter(0), ConnectApply(0), DisconnectEnter(0), DisconnectApply(0)]
  const MEETING := [Scan("u"), Sweep, PurgeLock(0), Accept(1, 1, "u"), ConnectEnter(1)]

  lemma RunFive(s: State, es: seq<Event>, s1: State, s2: State, s3: State, s4: State)
    requires |es| == 5
    requires Enabled(s, es[0]) && s1 == Next(s, es[0])
    requires Enabled(s1, es[1]) && s2 == Next(s1, es[1])
    requires Enabled(s2, es[2]) && s3 == Next(s2, es[2])
    requires Enabled(s3, es[3]) && s4 == Next(s3, es[3])
    requires Enabled(s4, es[4])
    ensures Legal(s, es) && Run(s, es) == Next(s4, es[4])
  {
    RunOne(s4, es[4], []);
    RunOne(s3, es[3], [es[4]]);
    RunOne(s2, es[2], [es[3], es[4]]);
    RunOne(s1, es[1], [es[2], es[3], es[4]]);
    RunOne(s, es[0], [es[1], es[2], es[3], es[4]]);
    assert [es[4]] + [] == [es[4]];
    assert [es[3]] + [es[4]] == [es[3], es[4]];
    assert [es[2]] + [es[3], es[4]] == [es[2], es[3], es[4]];
    assert [es[1]] + [es[2], es[3], es[4]] == [es[1], es[2], es[3], es[4]];
    assert [es[0]] + [es[1], es[2], es[3], es[4]] == es;
  }

  /** The user's only connection is inside the table operation of OnConnect, or of OnDisconnect. */
  function Coming(shard: UserId -> nat): State {
    Init(shard).(
      recs := map[0 := Record("u", [])], conns := map[0 := Conn(0, Entering)], inside := map[shard("u") := 0])
  }

  function Going(shard: UserId -> nat): State {
    Left(shard).(
      recs := map[0 := Record("u", [0])], conns := map[0 := Conn(0, Leaving)], inside := map[shard("u") := 0])
  }

  lemma VisitComes(shard: UserId -> nat)
    ensures var s, s' := Coming(shard), Going(shard).(conns := map[0 := Conn(0, Live)], inside := map[]);
            Enabled(s, ConnectApply(0)) && Next(s, ConnectApply(0)) == s'
  {
    var s := Coming(shard);
    assert s.recs[0].connections + [0] == [0] && s.inside - {shard("u")} == map[];
  }

  lemma VisitGoes(shard: UserId -> nat)
    ensures Enabled(Going(shard), DisconnectApply(0)) && Next(Going(shard), DisconnectApply(0)) == Left(shard)
  {
    assert Without([0], 0) == [] by { assert [0][..0] == []; }
    assert Going(shard).inside - {shard("u")} == map[];
  }

  lemma VisitLeaves(shard: UserId -> nat)
    ensures Legal(Init(shard), VISIT) && Run(Init(shard), VISIT) == Left(shard)
  {
    var s1 := Coming(shard).(conns := map[0 := Conn(0, New)], inside := map[]);
    var s3 := Going(shard).(conns := map[0 := Conn(0, Live)], inside := map[]);
    assert Next(Init(shard), VISIT[0]) == s1;
    assert Next(s1, VISIT[1]) == Coming(shard);
    VisitComes(shard);
    assert Next(s3, VISIT[3]) == Going(shard);
    VisitGoes(shard);
    RunFive(Init(shard), VISIT, s1, Coming(shard), s3, Going(shard));
  }

  function Purging(shard: UserId -> nat): State {
    Left(shard).(purge := Sweeping({}, Some(0)))
  }

  lemma PurgeBegins(shard: UserId -> nat)
    ensures var s1 := Left(shard).(purge := Scanning({0}));
            var s2 := Left(shard).(purge := Sweeping({0}, None));
            && Enabled(Left(shard), Scan("u")) && Next(Left(shard), Scan("u")) == s1
            && Enabled(s1, Sweep) && Next(s1, Sweep) == s2
            && Enabled(s2, PurgeLock(0)) && Next(s2, PurgeLock(0)) == Purging(shard)
  {
    assert Left(shard).purge.found + {0} == {0};
  }

  lemma ReturnMeetsPurge(shard: UserId -> nat)
    ensures var s4 := Next(Purging(shard), Accept(1, 1, "u"));
            Enabled(s4, ConnectEnter(1)) && Deadlocked(Next(s4, ConnectEnter(1)), 1)
  {
  }

  /** The deadlock does happen: a user comes back just while the user's old record is purged. */
  lemma DeadlockHappens(shard: UserId -> nat)
    ensures Legal(Init(shard), VISIT + MEETING) && Deadlocked(Run(Init(shard), VISIT + MEETING), 1)
  {
    VisitLeaves(shard);
    PurgeBegins(shard);
    ReturnMeetsPurge(shard);
    var s1 := Left(shard).(purge := Scanning({0}));
    var s2 := Left(shard).(purge := Sweeping({0}, None));
    RunFive(Left(shard), MEETING, s1, s2, Purging(shard), Next(Purging(shard), Accept(1, 1, "u")));
    RunConcat(Init(shard), VISIT, MEETING);
  }

  // ---- Operations that nothing interrupts ----

  predicate CanConnect(s: State, c: ConnId) {
    Enabled(s, ConnectEnter(c)) && Enabled(Next(s, ConnectEnter(c)), ConnectApply(c))
  }

  function Connected(s: State, c: ConnId): State
    requires CanConnect(s, c)
  {
    Next(Next(s, ConnectEnter(c)), ConnectApply(c))
  }

  predicate CanDisconnect(s: State, c: ConnId) {
    Enabled(s, DisconnectEnter(c)) && Enabled(Next(s, DisconnectEnter(c)), DisconnectApply(c))
  }

  function Disconnected(s: State, c: ConnId): State
    requires CanDisconnect(s, c)
  {
    Next(Next(s, DisconnectEnter(c)), DisconnectApply(c))
  }

  /** What the table holds for a user. */
  datatype Row = Row(rec: RecId, connections: seq<ConnId>)

  function RowsOf(s: State): map<UserId, Row> {
    map u | u in s.users && s.users[u] in s.recs :: Row(s.users[u], s.recs[s.users[u]].connections)
  }

  /** Connection `c` is added to the user's row, which is its own if the user has none. */
  function WithConnection(rows: map<UserId, Row>, user: UserId, own: Row, c: ConnId): map<UserId, Row> {
    var row := if user in rows then rows[user] else own;
    rows[user := Row(row.rec, row.connections + [c])]
  }

  function WithoutConnection(rows: map<UserId, Row>, user: UserId, c: ConnId): map<UserId, Row> {
    if user !in rows then rows else rows[user := Row(rows[user].rec, Without(rows[user].connections, c))]
  }

  /** OnConnect is the two steps of the machine, which bind the connection to the row's record. */
  lemma ConnectRuns(s: State, c: ConnId)
    requires Inv(s) && CanConnect(s, c)
    ensures var rows := WithConnection(RowsOf(s), UserOf(s, c), Row(s.conns[c].rec, []), c);
            RowsOf(Connected(s, c)) == rows && Connected(s, c).conns[c].rec == rows[UserOf(s, c)].rec
  {
    assert ConnOk(s, c);
    ConnectApplies(Next(s, ConnectEnter(c)), c);
  }

  lemma ConnectApplies(s: State, c: ConnId)
    requires TableOk(s) && PhaseOf(s, c).Entering? && RecordFree(s, UserOf(s, c)) && Private(s, c)
    ensures var s' := AfterConnectApply(s, c);
            var rows := WithConnection(RowsOf(s), UserOf(s, c), Row(s.conns[c].rec, []), c);
            RowsOf(s') == rows && s'.conns[c].rec == rows[UserOf(s, c)].rec
  {
    var s', user := AfterConnectApply(s, c), UserOf(s, c);
    assert forall u :: u in s.users && u != user ==> s'.recs[s.users[u]] == s.recs[s.users[u]];
    assert RowsOf(s').Keys == s.users.Keys + {user};
  }

  lemma DisconnectRuns(s: State, c: ConnId)
    requires Inv(s) && CanDisconnect(s, c)
    ensures UserOf(s, c) in RowsOf(s) && c in RowsOf(s)[UserOf(s, c)].connections
    ensures RowsOf(Disconnected(s, c)) == WithoutConnection(RowsOf(s), UserOf(s, c), c)
  {
    assert ConnOk(s, c);
  }

  /** A purge that takes out these users, who have no connection. */
  lemma PurgeRuns(s: State, gone: set<UserId>) returns (es: seq<Event>)
    requires Inv(s) && s.purge == Scanning({}) && s.inside == map[]
    requires forall u :: u in gone ==> u in RowsOf(s) && RowsOf(s)[u].connections == []
    ensures Legal(s, es) && RowsOf(Run(s, es)) == RowsOf(s) - gone
  {
    assert AllEmpty(s, gone);
    es := ScanRuns(s, gone, {});
  }

  /** These users are in the table and have no connection. */
  ghost predicate AllEmpty(s: State, gone: set<UserId>) {
    forall u :: u in gone ==> u in s.users && s.users[u] in s.recs && s.recs[s.users[u]] == Record(u, [])
  }

  function RecordsOf(s: State, users: set<UserId>): set<RecId> {
    set u | u in users && u in s.users :: s.users[u]
  }

  lemma {:induction false} ScanRuns(s: State, gone: set<UserId>, seen: set<UserId>) returns (es: seq<Event>)
    requires s.purge == Scanning(RecordsOf(s, seen)) && seen <= gone && AllEmpty(s, gone) && s.inside == map[]
    ensures Legal(s, es) && Run(s, es) == s.(users := s.users - gone, purge := Scanning({}))
    decreases gone - seen
  {
    var e;
    if seen == gone {
      e := Sweep;
      es := SweepRuns(Next(s, e), gone);
    } else {
      var u :| u in gone && u !in seen;
      e := Scan(u);
      assert RecordsOf(s, seen) + {s.users[u]} == RecordsOf(s, seen + {u});
      es := ScanRuns(Next(s, e), gone, seen + {u});
    }
    RunOne(s, e, es);
    es := [e] + es;
  }

  lemma {:induction false} SweepRuns(s: State, gone: set<UserId>) returns (es: seq<Event>)
    requires s.purge == Sweeping(RecordsOf(s, gone), None) && AllEmpty(s, gone) && s.inside == map[]
    ensures Legal(s, es) && Run(s, es) == s.(users := s.users - gone, purge := Scanning({}))
    decreases gone
  {
    if gone == {} {
      assert s.users - gone == s.users;
      RunOne(s, PurgeDone, []);
      es := [PurgeDone] + [];
    } else {
      var u :| u in gone;
      var r := s.users[u];
      assert r in RecordsOf(s, gone);
      var s1 := Next(s, PurgeLock(r));
      var s2 := Next(s1, PurgeRemove);
      assert RecordsOf(s, gone) - {r} == RecordsOf(s2, gone - {u}) by {
        assert forall v :: v in gone && v != u ==> s.users[v] != r && s2.users[v] == s.users[v];
        assert forall q :: q in RecordsOf(s, gone) && q != r ==> q in RecordsOf(s2, gone - {u});
      }
      es := SweepRuns(s2, gone - {u});
      assert s2.users - (gone - {u}) == s.users - gone;
      RunOne(s1, PurgeRemove, es);
      es := [PurgeRemove] + es;
      RunOne(s, PurgeLock(r), es);
      es := [PurgeLock(r)] + es;
    }
  }

  // ---- The objects themselves ----

  class UserRecord {
    const id: UserId
    ghost const rid: RecId
    var exit: int
    var connections: seq<ConnId>

    constructor (id: UserId, ghost rid: RecId)
      ensures this.id == id && this.rid == rid && connections == []
    {
      this.id := id;
      this.rid := rid;
      exit, connections := 0, [];
    }

    ghost function OwnRow(): Row
      reads this
    {
      Row(rid, connections)
    }

    /** The critical section of OnDisconnect. */
    method Drop(c: ConnId, now: int) returns (panic: bool)
      requires Distinct(connections)
      modifies this
      ensures panic <==> c !in old(connections)
      ensures panic ==> unchanged(this)
      ensures !panic ==> connections == Without(old(connections), c) && Distinct(connections)
      ensures !panic ==> exit == if connections == [] then now else old(exit)
    {
      var slots;
      panic, slots := Compact(connections, c);
      if panic {
        return;
      }
      WithoutFacts(connections, c);
      var rest := seq(|slots|, i requires 0 <= i < |slots| && slots[i].Some? => slots[i].value);
      assert rest == Without(connections, c);
      if |rest| == 0 {
        exit := now;
      }
      connections := rest;
    }
  }

  /** `Rows` is what ConnectRuns, DisconnectRuns and PurgeRuns speak of. */
  class UserTable {
    var users: map<UserId, UserRecord>

    ghost predicate Valid()
      reads this, users.Values
    {
      forall u :: u in users ==> users[u].id == u && Distinct(users[u].connections)
    }

    ghost function Rows(): map<UserId, Row>
      reads this, users.Values
    {
      map u | u in users :: users[u].OwnRow()
    }

    constructor ()
      ensures Valid() && users == map[]
    {
      users := map[];
    }

    /** Returns the record the connection is bound to afterwards. */
    method OnConnect(c: ConnId, nur: UserRecord) returns (ur: UserRecord)
      requires Valid() && c !in nur.connections && Distinct(nur.connections)
      requires nur.id in users ==> c !in users[nur.id].connections
      modifies this, nur, users.Values
      ensures Valid() && nur.id in users && ur == users[nur.id]
      ensures ur == if nur.id in old(users) then old(users)[nur.id] else nur
      ensures Rows() == WithConnection(old(Rows()), nur.id, old(nur.OwnRow()), c)
      ensures forall r :: r in old(users.Values) && r != ur ==> unchanged(r)
    {
      if nur.id !in users {
        nur.connections := nur.connections + [c];
        users := users[nur.id := nur];
        ur := nur;
      } else {
        ur := users[nur.id];
        ur.connections := ur.connections + [c];
      }
    }

    /** `broken`: no table entry, or the copy ran out of its slice. */
    method OnDisconnect(c: ConnId, ur: UserRecord, now: int) returns (broken: bool)
      requires Valid()
      modifies users.Values
      ensures Valid()
      ensures broken <==> ur.id !in users || c !in old(users[ur.id].connections)
      ensures Rows() == if broken then old(Rows()) else WithoutConnection(old(Rows()), ur.id, c)
      ensures !broken && users[ur.id].connections == [] ==> users[ur.id].exit == now
      ensures forall r :: r in users.Values && (broken || r != users[ur.id]) ==> unchanged(r)
    {
      if ur.id !in users {
        return true;
      }
      broken := users[ur.id].Drop(c, now);
    }

    ghost predicate Inactive(u: UserId, deadline: int)
      requires u in users
      reads this, users.Values
    {
      users[u].connections == [] && users[u].exit < deadline
    }

    method CollectInactive(deadline: int) returns (empty: set<UserId>)
      ensures empty == set u | u in users && Inactive(u, deadline)
    {
      var todo := users.Keys;
      empty := {};
      while todo != {}
        invariant todo <= users.Keys
        invariant empty == set u | u in users && u !in todo && Inactive(u, deadline)
        decreases |todo|
      {
        var u :| u in todo;
        var record := users[u];
        if |record.connections| == 0 {
          if record.exit < deadline {
            empty := empty + {u};
          }
        }
        todo := todo - {u};
      }
    }

    /** Takes out exactly the users who had no connection left before the deadline. */
    method PurgeInactive(deadline: int) returns (ghost gone: set<UserId>)
      requires Valid()
      modifies this
      ensures Valid()
      ensures gone == old(set u | u in users && Inactive(u, deadline))
      ensures Rows() == old(Rows()) - gone
      ensures forall u :: u in gone ==> u in old(Rows()) && old(Rows())[u].connections == []
    {
      var empty := CollectInactive(deadline);
      gone := empty;
      while empty != {}
        invariant empty <= gone
        invariant users.Keys == old(users).Keys - (gone - empty)
        invariant forall u :: u in users ==> users[u] == old(users)[u]
        decreases |empty|
      {
        var u :| u in empty;
        assert u in users && users[u].id == u;
        var record := users[u];
        if |record.connections| == 0 {
          users := users - {record.id};
        }
        empty := empty - {u};
      }
    }
  }
}
