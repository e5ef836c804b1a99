/** A channel and its members (signaling/rtm/channel.go).

    A channel maps user ids to connections.  Every operation is one critical section of the
    channel's lock.  One path of Add leaves without unlocking; the value model therefore carries
    a `locked` flag, and no operation can start on a channel whose lock was never released. */
module Channel {
  import opened Common
  import opened Messages
  import ChannelHash

  type ConnId = nat
  type Id = string

  /** `swaps`: the configuration has a Replace handler, as that of a group channel does. */
  datatype Config = Config(group: string, swaps: bool)

  const DEFAULT_CONFIG := Config("", false)

  datatype State = State(
    id: Id, config: Option<Config>, closed: bool, locked: bool,
    members: map<Id, ConnId>, pipeline: bool)
  {
    predicate Holds(id: Id, conn: ConnId) {
      id in members && members[id] == conn
    }

    function Group(): string {
      if config.Some? then config.value.group else ""
    }

    predicate Swaps() {
      config.Some? && config.value.swaps
    }

    /** As written, with the branch for channels without configuration. */
    predicate CanBeCleanedUp() {
      if config.Some? then |members| <= 0 else |members| <= 1
    }
  }

  /** NewChannel never leaves the configuration out. */
  function New(id: Id, config: Option<Config>, pipeline: bool): State {
    State(id, Some(if config.Some? then config.value else DEFAULT_CONFIG), false, false, map[], pipeline)
  }

  datatype AddResult =
    | Added
    | Replaced(former: ConnId)
    | Already
    | ChannelClosed
    | IdExists            // leaves the lock held
  {
    predicate Ok() { Added? || Replaced? || Already? }
  }

  function TryAdd(s: State, id: Id, conn: ConnId): AddResult {
    if s.closed then ChannelClosed
    else if id !in s.members then Added
    else if s.members[id] == conn then Already
    else if !s.Swaps() then IdExists
    else Replaced(s.members[id])
  }

  function AfterAdd(s: State, id: Id, conn: ConnId): State {
    match TryAdd(s, id, conn)
    case ChannelClosed => s
    case Already => s
    case IdExists => s.(locked := true)
    case _ => s.(members := s.members[id := conn])
  }

  function AfterRemove(s: State, id: Id): State {
    s.(members := s.members - {id})
  }

  /** The close callback registered by Add removes exact matches only. */
  function AfterConnClosed(s: State, id: Id, conn: ConnId): State {
    if s.Holds(id, conn) then AfterRemove(s, id) else s
  }

  function AfterCleanup(s: State): State {
    if s.CanBeCleanedUp() then s.(closed := true, pipeline := false) else s
  }

  /** Add takes a connection exactly if the channel is open and the id is new, has this connection
      already, or may change its connection; the one it had is then named. */
  lemma AddOkIff(s: State, id: Id, conn: ConnId)
    ensures var r := TryAdd(s, id, conn);
            && (r.Ok() <==> !s.closed && (id in s.members && s.members[id] != conn ==> s.Swaps()))
            && (r.Ok() <==> !s.closed && AfterAdd(s, id, conn).Holds(id, conn))
            && (forall former :: r == Replaced(former) <==>
                  !s.closed && s.Swaps() && s.Holds(id, former) && former != conn)
            && (r == ChannelClosed <==> s.closed)
            && (r == Already <==> !s.closed && s.Holds(id, conn))
            && (r == Added <==> !s.closed && id !in s.members)
            && (forall other :: other != id ==>
                  (other in AfterAdd(s, id, conn).members <==> other in s.members)
                  && (other in s.members ==> AfterAdd(s, id, conn).members[other] == s.members[other]))
  {
  }

  /** A new channel is open, empty, and has the group, the Replace handler and the pipeline it was asked
      for; clean-up closes an empty channel and drops its pipeline, and leaves any other alone. */
  lemma NewAndCleanup(id: Id, config: Option<Config>, pipeline: bool, s: State)
    ensures var ch := New(id, config, pipeline);
            && ch.id == id && !ch.closed && !ch.locked && ch.members == map[] && ch.pipeline == pipeline
            && ch.Group() == (if config.Some? then config.value.group else "")
            && ch.Swaps() == (config.Some? && config.value.swaps)
    ensures s.config.Some? ==>
              var s' := AfterCleanup(s);
              && s'.members == s.members && s'.id == s.id && s'.config == s.config && s'.locked == s.locked
              && (s.members == map[] ==> s'.closed && !s'.pipeline)
              && (s.members != map[] ==> s' == s)
  {
  }

  // ---- Runs of one channel ----

  datatype Op = Add(id: Id, conn: ConnId) | Remove(id: Id) | ConnClosed(id: Id, conn: ConnId) | Cleanup

  function Next(s: State, op: Op): State {
    match op
    case Add(id, conn) => AfterAdd(s, id, conn)
    case Remove(id) => AfterRemove(s, id)
    case ConnClosed(id, conn) => AfterConnClosed(s, id, conn)
    case Cleanup => AfterCleanup(s)
  }

  /** The state after any sequence of operations.  Sequences that go on after the lock was left
      behind never happen; the results below hold for them too. */
  function Run(s: State, ops: seq<Op>): State {
    if ops == [] then s else Next(Run(s, ops[..|ops| - 1]), ops[|ops| - 1])
  }

  /** In state `s`, operation `op` ends the membership of `conn` under `id`. */
  predicate Ends(s: State, op: Op, id: Id, conn: ConnId) {
    || op == Remove(id)
    || op == ConnClosed(id, conn)
    || (op.Add? && op.id == id && op.conn != conn && TryAdd(s, id, op.conn).Ok())
  }

  /** `ops[i]` added `conn` for `id`, and nothing that undoes this has happened since: no other
      connection added for `id`, no removal of `id`, and `conn` itself has not closed. */
  ghost predicate StandingAdd(s: State, ops: seq<Op>, i: nat, id: Id, conn: ConnId) {
    && i < |ops| && ops[i] == Add(id, conn) && TryAdd(Run(s, ops[..i]), id, conn).Ok()
    && forall j {:trigger ops[j]} :: i < j < |ops| ==> !Ends(Run(s, ops[..j]), ops[j], id, conn)
  }

  lemma StandingAddStep(s: State, ops: seq<Op>, i: nat, id: Id, conn: ConnId)
    requires ops != [] && i < |ops| - 1
    ensures StandingAdd(s, ops, i, id, conn) <==>
              && StandingAdd(s, ops[..|ops| - 1], i, id, conn)
              && !Ends(Run(s, ops[..|ops| - 1]), ops[|ops| - 1], id, conn)
  {
    var n := |ops| - 1;
    assert forall j :: 0 <= j <= n ==> ops[..n][..j] == ops[..j];
    assert forall j :: 0 <= j < n ==> ops[..n][j] == ops[j];
  }

  lemma HoldsStep(s: State, op: Op, id: Id, conn: ConnId)
    ensures Next(s, op).Holds(id, conn) <==>
              || (op == Add(id, conn) && TryAdd(s, id, conn).Ok())
              || (s.Holds(id, conn) && !Ends(s, op, id, conn))
  {
  }

  /** The entry for an id is exactly the last connection successfully added for it that has since
      been neither removed nor closed.  So closing a replaced connection leaves its successor. */
  lemma {:induction false} ExactMembership(s: State, ops: seq<Op>, id: Id, conn: ConnId)
    requires s.members == map[]
    ensures Run(s, ops).Holds(id, conn) <==> exists i: nat :: StandingAdd(s, ops, i, id, conn)
  {
    if ops != [] {
      var n := |ops| - 1;
      var before, last := ops[..n], ops[n];
      ExactMembership(s, before, id, conn);
      HoldsStep(Run(s, before), last, id, conn);
      if last == Add(id, conn) && TryAdd(Run(s, before), id, conn).Ok() {
        assert StandingAdd(s, ops, n, id, conn);
      } else if Run(s, ops).Holds(id, conn) {
        var i: nat :| StandingAdd(s, before, i, id, conn);
        StandingAddStep(s, ops, i, id, conn);
      } else if exists i: nat :: StandingAdd(s, ops, i, id, conn) {
        var i: nat :| StandingAdd(s, ops, i, id, conn);
        assert i < n;
        StandingAddStep(s, ops, i, id, conn);
        assert false;
      }
    }
  }

  /** A closed channel is empty, whatever happened to it, and it stays closed.  In particular the
      branch of CanBeCleanedUp for channels without configuration is never taken. */
  lemma {:induction false} ClosedIsEmpty(id: Id, config: Option<Config>, pipeline: bool, ops: seq<Op>)
    ensures var s := Run(New(id, config, pipeline), ops);
            && s.config.Some? && (s.CanBeCleanedUp() <==> s.members == map[])
            && (s.closed ==> s.members == map[])
            && forall op :: s.closed ==> Next(s, op).closed
  {
    if ops != [] {
      ClosedIsEmpty(id, config, pipeline, ops[..|ops| - 1]);
    }
  }

  /** `ops[i]` brings a second connection for an id that the open channel already has. */
  ghost predicate SecondConnection(s: State, ops: seq<Op>, i: nat) {
    && i < |ops| && ops[i].Add? && !Run(s, ops[..i]).closed
    && ops[i].id in Run(s, ops[..i]).members && Run(s, ops[..i]).members[ops[i].id] != ops[i].conn
  }

  lemma LockStep(s: State, op: Op)
    ensures Next(s, op).Swaps() == s.Swaps()
    ensures Next(s, op).locked <==>
              || s.locked
              || (!s.Swaps() && op.Add? && !s.closed && op.id in s.members && s.members[op.id] != op.conn)
  {
  }

  lemma SecondConnectionStep(s: State, ops: seq<Op>, i: nat)
    requires ops != [] && i < |ops| - 1
    ensures SecondConnection(s, ops, i) <==> SecondConnection(s, ops[..|ops| - 1], i)
  {
    assert ops[..|ops| - 1][..i] == ops[..i];
  }

  /** The lock of a channel with a Replace handler is never left behind.  That of a channel without
      one is, exactly if some Add brings a second connection for an id. */
  lemma {:induction false} LockLeftBehindIff(s: State, ops: seq<Op>)
    requires !s.locked
    ensures Run(s, ops).Swaps() == s.Swaps()
    ensures Run(s, ops).locked <==> !s.Swaps() && exists i: nat :: SecondConnection(s, ops, i)
  {
    if ops != [] {
      var n := |ops| - 1;
      LockLeftBehindIff(s, ops[..n]);
      LockStep(Run(s, ops[..n]), ops[n]);
      if SecondConnection(s, ops, n) {
      } else if exists i: nat :: SecondConnection(s, ops, i) {
        var i: nat :| SecondConnection(s, ops, i);
        SecondConnectionStep(s, ops, i);
      } else if exists i: nat :: SecondConnection(s, ops[..n], i) {
        var i: nat :| SecondConnection(s, ops[..n], i);
        SecondConnectionStep(s, ops, i);
        assert false;
      }
    }
  }

  /** For instance: a call, answered on one device and then on a second one of the same user. */
  lemma SecondDeviceLocksCall(id: Id, caller: Id, callee: Id, c0: ConnId, c1: ConnId, c2: ConnId)
    requires caller != callee && c1 != c2
    ensures Run(New(id, None, false), [Add(caller, c0), Add(callee, c1), Add(callee, c2)]).locked
  {
    var ops := [Add(caller, c0), Add(callee, c1), Add(callee, c2)];
    var s := New(id, None, false);
    assert Run(s, ops[..0]) == s;
    assert ops[..1][..0] == ops[..0] && ops[..2][..1] == ops[..1];
    assert Run(s, ops[..1]) == Next(s, ops[0]);
    assert Run(s, ops[..2]) == Next(Next(s, ops[0]), ops[1]);
    assert SecondConnection(s, ops, 2);
    LockLeftBehindIff(s, ops);
  }

  // ---- The object itself ----

  class Channel {
    const id: Id
    const config: Option<Config>
    var closed: bool
    var locked: bool
    var connections: map<Id, ConnId>
    var pipeline: bool

    ghost function Abs(): State
      reads this
    {
      State(id, config, closed, locked, connections, pipeline)
    }

    constructor (id: Id, config: Option<Config>, pipeline: bool)
      ensures Abs() == New(id, config, pipeline)
    {
      this.id := id;
      if config.None? {
        this.config := Some(DEFAULT_CONFIG);
      } else {
        this.config := config;
      }
      closed, locked := false, false;
      connections := map[];
      this.pipeline := pipeline;
    }

    method Add(id: Id, conn: ConnId) returns (r: AddResult)
      requires !locked
      modifies this
      ensures r == TryAdd(old(Abs()), id, conn)
      ensures Abs() == AfterAdd(old(Abs()), id, conn)
    {
      locked := true;
      if closed {
        locked := false;
        return ChannelClosed;
      }
      var replaced: Option<ConnId> := None;
      if id in connections {
        var existing := connections[id];
        if conn == existing {
          locked := false;
          return Already;
        }
        if !(config.Some? && config.value.swaps) {
          return IdExists;
        }
        replaced := Some(existing);
      }
      connections := connections[id := conn];
      locked := false;
      return if replaced.Some? then Replaced(replaced.value) else Added;
    }

    method Remove(id: Id)
      requires !locked
      modifies this
      ensures Abs() == AfterRemove(old(Abs()), id)
    {
      connections := connections - {id};
    }

    method RemoveExact(id: Id, conn: ConnId)
      requires !locked
      modifies this
      ensures Abs() == AfterConnClosed(old(Abs()), id, conn)
    {
      if id in connections && connections[id] == conn {
        connections := connections - {id};
      }
    }

    /** With a pipeline the answer is always ok, even without a connection. */
    method Get(id: Id) returns (conn: Option<ConnId>, ok: bool)
      requires !locked
      ensures conn == if id in connections then Some(connections[id]) else None
      ensures ok <==> conn.Some? || pipeline
    {
      conn := if id in connections then Some(connections[id]) else None;
      ok := conn.Some? || pipeline;
    }

    method Size() returns (n: nat)
      requires !locked
      ensures n == |connections|
    {
      n := |connections|;
    }

    method Cleanup() returns (done: bool)
      requires !locked
      modifies this
      ensures done == old(Abs()).CanBeCleanedUp()
      ensures Abs() == AfterCleanup(old(Abs()))
    {
      if !(if config.Some? then |connections| <= 0 else |connections| <= 1) {
        return false;
      }
      closed := true;
      pipeline := false;
      return true;
    }

    /** Two parallel arrays: each member once, in no particular order, with its connection. */
    method Connections() returns (ids: array<Id>, conns: array<ConnId>)
      requires !locked
      ensures fresh(ids) && fresh(conns) && ids.Length == conns.Length == |connections|
      ensures forall i, j :: 0 <= i < j < ids.Length ==> ids[i] != ids[j]
      ensures forall i :: 0 <= i < ids.Length ==> Abs().Holds(ids[i], conns[i])
      ensures forall id :: id in connections ==> id in ids[..]
    {
      ids := new Id[|connections|];
      conns := new ConnId[|connections|];
      var idx := 0;
      var todo := connections.Keys;
      while todo != {}
        invariant todo <= connections.Keys && idx + |todo| == |connections|
        invariant forall i :: 0 <= i < idx ==> ids[i] !in todo && Abs().Holds(ids[i], conns[i])
        invariant forall i, j :: 0 <= i < j < idx ==> ids[i] != ids[j]
        invariant forall id :: id in connections && id !in todo ==> id in ids[..idx]
        decreases |todo|
      {
        var id :| id in todo;
        ids[idx] := id;
        conns[idx] := connections[id];
        ghost var done := ids[..idx];
        idx := idx + 1;
        todo := todo - {id};
        assert ids[..idx] == done + [id];
      }
      assert ids[..idx] == ids[..];
    }

    method Check(k: ChannelHash.Crypto, source: Id, m: Message) returns (err: Option<Error>)
      ensures err == ChannelHash.Check(k, Abs().Group(), pipeline, source, m)
    {
      if m.group != "" {
        if config.None? || config.value.group != m.group {
          return Some(Bad("invalid channel for group", m));
        }
      }
      if m.hash == "" {
        return Some(Bad("missing hash", m));
      }
      var hash := k.decode(m.hash);
      if hash.None? {
        return Some(Bad("hash decode error", m));
      }
      var target := m.target;
      if m.group != "" {
        target := m.group;
      } else if target == "" {
        return Some(Bad("missing target", m));
      } else if pipeline {
        return None;
      }
      if hash.value == ChannelHash.Hash(k, m.typ, source, target, m.channel) {
        return None;
      }
      if hash.value == ChannelHash.Hash(k, m.typ, source, m.target, m.channel) {
        return None;
      }
      return Some(Bad("invalid hash", m));
    }
  }
}
