/** The life of an RTM connection across the user table and the channels: its read loop enters it in the
    table, then handles messages, then closes it, and only then takes it out of the table again
    (signaling/connection/connection.go:106-142, signaling/rtm/events.go:37-133). */
module Lifecycle {
  import opened Common
  import Channel
  import ChannelHash
  import Rooms
  import TwoDevices
  import Users

  type ConnId = Channel.ConnId

  datatype State = State(rooms: Rooms.State, users: Users.State)

  datatype Event = InRooms(r: Rooms.Event) | InUsers(u: Users.Event)

  function Init(shard: Users.UserId -> nat): State {
    State(Rooms.INIT, Users.Init(shard))
  }

  /** OnConnect has returned for the connection, and OnDisconnect has not begun. */
  ghost predicate Live(users: Users.State, c: ConnId, id: Users.UserId) {
    Users.PhaseOf(users, c).Live? && Users.UserOf(users, c) == id
  }

  ghost predicate Enabled(s: State, e: Event) {
    match e
    case InRooms(r) => Rooms.Enabled(s.rooms, r) && (r.Accept? ==> Live(s.users, r.c, r.user.id))
    case InUsers(u) =>
      Users.Enabled(s.users, u) && (u.DisconnectEnter? ==> u.c in s.rooms.conns && Rooms.PcOf(s.rooms, u.c).Gone?)
  }

  ghost function Next(s: State, e: Event): State
    requires Enabled(s, e)
  {
    match e
    case InRooms(r) => s.(rooms := Rooms.Next(s.rooms, r))
    case InUsers(u) => s.(users := Users.Next(s.users, u))
  }

  ghost predicate Legal(s: State, es: seq<Event>)
    decreases es
  {
    es == [] || (Enabled(s, es[0]) && Legal(Next(s, es[0]), es[1..]))
  }

  ghost function Run(s: State, es: seq<Event>): State
    requires Legal(s, es)
    decreases es
  {
    if es == [] then s else Run(Next(s, es[0]), es[1..])
  }

  // ---- The invariant ----

  /** Until its Close has finished, a connection is live in the user table, under the same user. */
  ghost predicate OpenIsLive(s: State) {
    forall c :: c in s.rooms.conns && !s.rooms.conns[c].pc.Gone? ==> Live(s.users, c, s.rooms.conns[c].user.id)
  }

  ghost predicate Inv(s: State) {
    Rooms.Inv(s.rooms) && Users.Inv(s.users) && OpenIsLive(s)
  }

  /** A step of the user table leaves live connections live, unless it is their OnDisconnect. */
  lemma LiveStep(users: Users.State, u: Users.Event, c: ConnId, id: Users.UserId)
    requires Users.Enabled(users, u) && Live(users, c, id) && u != Users.DisconnectEnter(c)
    ensures Live(Users.Next(users, u), c, id)
  {
  }

  /** A step of the rooms keeps users, and opens no connection but by Accept. */
  lemma OpenStep(rooms: Rooms.State, r: Rooms.Event, c: ConnId)
    requires Rooms.Enabled(rooms, r) && c in Rooms.Next(rooms, r).conns && !Rooms.Next(rooms, r).conns[c].pc.Gone?
    ensures if c in rooms.conns
            then !rooms.conns[c].pc.Gone? && Rooms.Next(rooms, r).conns[c].user == rooms.conns[c].user
            else r == Rooms.Accept(c, Rooms.Next(rooms, r).conns[c].user)
  {
  }

  lemma InvKept(s: State, e: Event)
    requires Inv(s) && Enabled(s, e)
    ensures Inv(Next(s, e))
  {
    match e {
      case InRooms(r) =>
        Rooms.InvKept(s.rooms, r);
        forall c | c in Next(s, e).rooms.conns && !Next(s, e).rooms.conns[c].pc.Gone?
          ensures Live(s.users, c, Next(s, e).rooms.conns[c].user.id)
        {
          OpenStep(s.rooms, r, c);
        }
      case InUsers(u) =>
        Users.InvKept(s.users, u);
        forall c | c in s.rooms.conns && !s.rooms.conns[c].pc.Gone?
          ensures Live(Next(s, e).users, c, s.rooms.conns[c].user.id)
        {
          LiveStep(s.users, u, c, s.rooms.conns[c].user.id);
        }
    }
  }

  lemma {:induction false} InvOfRun(s: State, es: seq<Event>)
    requires Inv(s) && Legal(s, es)
    ensures Inv(Run(s, es))
    decreases es
  {
    if es != [] {
      InvKept(s, es[0]);
      InvOfRun(Next(s, es[0]), es[1..]);
    }
  }

  /** The table has the user, with a record that lists the connection exactly once. */
  ghost predicate ListedFor(users: Users.State, id: Users.UserId, c: ConnId) {
    && id in users.users && users.users[id] in users.recs
    && Count(users.recs[users.users[id]].connections, c) == 1
  }

  lemma LiveIsListed(users: Users.State, c: ConnId, id: Users.UserId)
    requires Users.Inv(users) && Live(users, c, id)
    ensures ListedFor(users, id, c)
  {
    assert Users.ConnOk(users, c) && Users.RecordOk(users, users.conns[c].rec);
    CountDistinct(users.recs[users.conns[c].rec].connections, c);
  }

  /** In every run, whoever is a member of a channel is in the user table: the user has a record there
      that lists the member's connection exactly once. */
  lemma MembersAreListed(shard: Users.UserId -> nat, es: seq<Event>, r: Rooms.Ref, id: Channel.Id, c: ConnId)
    requires Legal(Init(shard), es)
    requires r in Run(Init(shard), es).rooms.chans && Run(Init(shard), es).rooms.chans[r].Holds(id, c)
    ensures ListedFor(Run(Init(shard), es).users, id, c)
  {
    InvOfRun(Init(shard), es);
    var s := Run(Init(shard), es);
    MemberIsOpen(s.rooms, r, id, c);
    LiveIsListed(s.users, c, id);
  }

  lemma MemberIsOpen(rooms: Rooms.State, r: Rooms.Ref, id: Channel.Id, c: ConnId)
    requires Rooms.Inv(rooms) && r in rooms.chans && rooms.chans[r].Holds(id, c)
    ensures c in rooms.conns && !rooms.conns[c].pc.Gone? && rooms.conns[c].user.id == id
  {
    assert Rooms.MemberOk(rooms, r, id) && Rooms.PcOk(rooms, rooms.conns[c]);
  }

  // ---- A Close that is held up ----

  function RoomsPart(es: seq<Event>): seq<Rooms.Event> {
    if es == [] then [] else (if es[0].InRooms? then [es[0].r] else []) + RoomsPart(es[1..])
  }

  lemma {:induction false} RoomsRun(s: State, es: seq<Event>)
    requires Legal(s, es)
    ensures Rooms.Legal(s.rooms, RoomsPart(es)) && Run(s, es).rooms == Rooms.Run(s.rooms, RoomsPart(es))
    decreases es
  {
    if es != [] {
      RoomsRun(Next(s, es[0]), es[1..]);
      if es[0].InRooms? {
        Rooms.RunOne(s.rooms, es[0].r, RoomsPart(es[1..]));
      } else {
        assert [] + RoomsPart(es[1..]) == RoomsPart(es[1..]);
      }
    }
  }

  /** If Close of a connection has yet to leave a channel that was left locked, then OnDisconnect never
      runs: for ever after the user's record lists the dead connection, and no purge takes the user. */
  lemma HeldUpStaysListed(s: State, es: seq<Event>, c: ConnId, h: Rooms.Hook)
    requires Inv(s) && Legal(s, es) && h.ref in s.rooms.chans && s.rooms.chans[h.ref].locked
    requires c in s.rooms.conns && s.rooms.conns[c].pc.Closing? && h in s.rooms.conns[c].pc.todo
    ensures ListedFor(Run(s, es).users, s.rooms.conns[c].user.id, c)
  {
    RoomsRun(s, es);
    InvOfRun(s, es);
    Rooms.CloseNeverFinishes(s.rooms, RoomsPart(es), c, h);
    UserKept(s, es, c);
    LiveIsListed(Run(s, es).users, c, s.rooms.conns[c].user.id);
  }

  lemma {:induction false} UserKept(s: State, es: seq<Event>, c: ConnId)
    requires Legal(s, es) && c in s.rooms.conns
    ensures c in Run(s, es).rooms.conns && Run(s, es).rooms.conns[c].user == s.rooms.conns[c].user
    decreases es
  {
    if es != [] {
      if es[0].InRooms? {
        UserStep(s.rooms, es[0].r, c);
      }
      UserKept(Next(s, es[0]), es[1..], c);
    }
  }

  lemma UserStep(rooms: Rooms.State, r: Rooms.Event, c: ConnId)
    requires Rooms.Enabled(rooms, r) && c in rooms.conns
    ensures c in Rooms.Next(rooms, r).conns && Rooms.Next(rooms, r).conns[c].user == rooms.conns[c].user
  {
  }

  /** OnDisconnect may begin, as far as the read loop is concerned. */
  ghost predicate ReachesDisconnect(s: State, c: ConnId, es: seq<Event>) {
    Legal(s, es) && c in Run(s, es).rooms.conns && Run(s, es).rooms.conns[c].pc.Gone?
  }

  /** The read loop of a connection that is being closed can get to OnDisconnect exactly if none of the
      channels it has yet to leave was left locked. */
  lemma DisconnectReachedIff(s: State, c: ConnId)
    requires Inv(s) && c in s.rooms.conns && s.rooms.conns[c].pc.Closing?
    ensures (exists es :: ReachesDisconnect(s, c, es))
            <==> forall h :: h in s.rooms.conns[c].pc.todo ==> Rooms.Free(s.rooms, h.ref)
  {
    Rooms.CloseFinishesIff(s.rooms, c);
    if forall h :: h in s.rooms.conns[c].pc.todo ==> Rooms.Free(s.rooms, h.ref) {
      var rs := Rooms.CloseRuns(s.rooms, c);
      Lifted(s, rs);
      UserKept(s, Lift(rs), c);
      assert ReachesDisconnect(s, c, Lift(rs));
    }
    forall es | ReachesDisconnect(s, c, es) ensures Rooms.CloseFinishes(s.rooms, c, RoomsPart(es)) { RoomsRun(s, es); }
  }

  function Lift(rs: seq<Rooms.Event>): seq<Event> {
    if rs == [] then [] else [InRooms(rs[0])] + Lift(rs[1..])
  }

  lemma {:induction false} Lifted(s: State, rs: seq<Rooms.Event>)
    requires Rooms.Legal(s.rooms, rs)
    requires forall r :: r in rs && r.Accept? ==> Live(s.users, r.c, r.user.id)
    ensures Legal(s, Lift(rs)) && Run(s, Lift(rs)) == s.(rooms := Rooms.Run(s.rooms, rs))
    decreases rs
  {
    if rs != [] {
      var e := InRooms(rs[0]);
      assert rs[0] in rs;
      Lifted(Next(s, e), rs[1..]);
      assert ([e] + Lift(rs[1..]))[1..] == Lift(rs[1..]);
    }
  }
  // ---- A run in which a user is never purged ----

  lemma RunOne(s: State, e: Event, es: seq<Event>)
    requires Enabled(s, e) && Legal(Next(s, e), es)
    ensures Legal(s, [e] + es) && Run(s, [e] + es) == Run(Next(s, e), es)
  {
    assert ([e] + es)[1..] == es;
  }

  lemma {:induction false} RunConcat(s: State, es: seq<Event>, fs: seq<Event>)
    requires Legal(s, es) && Legal(Run(s, es), fs)
    ensures Legal(s, es + fs) && Run(s, es + fs) == Run(Run(s, es), fs)
    decreases es
  {
    if es == [] {
      assert [] + fs == fs;
    } else {
      RunConcat(Next(s, es[0]), es[1..], fs);
      RunOne(s, es[0], es[1..] + fs);
      assert [es[0]] + (es[1..] + fs) == es + fs;
    }
  }

  /** Nobody is inside the user table, no purge is under way, and the first `n` connections have come. */
  ghost predicate Quiet(users: Users.State, n: nat) {
    && Users.TableOk(users) && users.inside == map[] && users.purge == Users.Scanning({})
    && (forall c :: c in users.conns ==> c < n) && (forall r :: r in users.recs ==> r < n)
  }

  lemma EnterLeaves(users: Users.State, c: ConnId, n: nat)
    requires Quiet(users, n) && Users.PhaseOf(users, c).New?
    ensures Users.CanConnect(users, c)
    ensures Quiet(Users.Connected(users, c), n) && Live(Users.Connected(users, c), c, Users.UserOf(users, c))
  {
    var mid := Users.Next(users, Users.ConnectEnter(c));
    assert mid.inside - {Users.ShardOf(users, c)} == map[];
  }

  ghost predicate CanArrive(users: Users.State, c: ConnId, r: Users.RecId, id: Users.UserId) {
    && Users.Enabled(users, Users.Accept(c, r, id))
    && Users.CanConnect(Users.Next(users, Users.Accept(c, r, id)), c)
  }

  /** A connection arrives with a record of its own, and OnConnect runs for it. */
  ghost function Arrived(users: Users.State, c: ConnId, r: Users.RecId, id: Users.UserId): Users.State
    requires CanArrive(users, c, r, id)
  {
    Users.Connected(Users.Next(users, Users.Accept(c, r, id)), c)
  }

  lemma ArrivalOk(users: Users.State, c: ConnId, id: Users.UserId)
    requires Quiet(users, c)
    ensures CanArrive(users, c, c, id)
    ensures Quiet(Arrived(users, c, c, id), c + 1) && Live(Arrived(users, c, c, id), c, id)
  {
    EnterLeaves(Users.Next(users, Users.Accept(c, c, id)), c, c + 1);
  }

  lemma ArrivalKeeps(users: Users.State, c: ConnId, r: Users.RecId, id: Users.UserId, d: ConnId, other: Users.UserId)
    requires CanArrive(users, c, r, id) && Live(users, d, other)
    ensures Live(Arrived(users, c, r, id), d, other)
  {
    var u1 := Users.Next(users, Users.Accept(c, r, id));
    LiveStep(users, Users.Accept(c, r, id), d, other);
    LiveStep(u1, Users.ConnectEnter(c), d, other);
    LiveStep(Users.Next(u1, Users.ConnectEnter(c)), Users.ConnectApply(c), d, other);
  }

  lemma ArrivalRuns(s: State, c: ConnId, r: Users.RecId, id: Users.UserId) returns (es: seq<Event>)
    requires CanArrive(s.users, c, r, id)
    ensures Legal(s, es) && Run(s, es) == s.(users := Arrived(s.users, c, r, id))
  {
    var accept, enter, apply := Users.Accept(c, r, id), Users.ConnectEnter(c), Users.ConnectApply(c);
    var s1 := Next(s, InUsers(accept));
    var s2 := Next(s1, InUsers(enter));
    RunOne(s2, InUsers(apply), []);
    RunOne(s1, InUsers(enter), [InUsers(apply)] + []);
    RunOne(s, InUsers(accept), [InUsers(enter)] + ([InUsers(apply)] + []));
    es := [InUsers(accept)] + ([InUsers(enter)] + ([InUsers(apply)] + []));
  }

  /** A caller arrives, and a callee with two connections. */
  lemma AllLive(shard: Users.UserId -> nat) returns (u1: Users.State, u2: Users.State, u3: Users.State)
    ensures CanArrive(Users.Init(shard), 0, 0, "a") && u1 == Arrived(Users.Init(shard), 0, 0, "a")
    ensures CanArrive(u1, 1, 1, "b") && u2 == Arrived(u1, 1, 1, "b")
    ensures CanArrive(u2, 2, 2, "b") && u3 == Arrived(u2, 2, 2, "b")
    ensures Live(u3, 0, "a") && Live(u3, 1, "b") && Live(u3, 2, "b")
  {
    ArrivalOk(Users.Init(shard), 0, "a");
    u1 := Arrived(Users.Init(shard), 0, 0, "a");
    ArrivalOk(u1, 1, "b");
    u2 := Arrived(u1, 1, 1, "b");
    ArrivalOk(u2, 2, "b");
    u3 := Arrived(u2, 2, 2, "b");
    ArrivalKeeps(u1, 1, 1, "b", 0, "a");
    ArrivalKeeps(u2, 2, 2, "b", 0, "a");
    ArrivalKeeps(u2, 2, 2, "b", 1, "b");
  }

  lemma AllArrive(shard: Users.UserId -> nat) returns (es: seq<Event>, u3: Users.State)
    ensures Legal(Init(shard), es) && Run(Init(shard), es) == State(Rooms.INIT, u3)
    ensures Live(u3, 0, "a") && Live(u3, 1, "b") && Live(u3, 2, "b")
  {
    var u1, u2;
    u1, u2, u3 := AllLive(shard);
    es := ArrivalRuns(Init(shard), 0, 0, "a");
    var second := ArrivalRuns(State(Rooms.INIT, u1), 1, 1, "b");
    RunConcat(Init(shard), es, second);
    var third := ArrivalRuns(State(Rooms.INIT, u2), 2, 2, "b");
    RunConcat(Init(shard), es + second, third);
    es := es + second + third;
  }

  lemma CallRuns(users: Users.State, k: ChannelHash.Crypto)
    requires ChannelHash.Faithful(k) && Live(users, 0, "a") && Live(users, 1, "b") && Live(users, 2, "b")
    ensures var s, es := State(Rooms.INIT, users), Lift(TwoDevices.Whole(k));
            Legal(s, es) && Run(s, es) == State(TwoDevices.LOCKED, users)
  {
    TwoDevices.Blocks(k);
    Lifted(State(Rooms.INIT, users), TwoDevices.Whole(k));
  }

  /** The call of module TwoDevices, after all three connections have come: whatever happens from then
      on, the record of the user who was called lists the connection of the first device. */
  lemma SecondDeviceKeepsUser(shard: Users.UserId -> nat, k: ChannelHash.Crypto) returns (es: seq<Event>)
    requires ChannelHash.Faithful(k)
    ensures Legal(Init(shard), es)
    ensures forall more :: Legal(Run(Init(shard), es), more) ==>
              ListedFor(Run(Run(Init(shard), es), more).users, TwoDevices.CALLEE.id, 1)
  {
    var users;
    es, users := AllArrive(shard);
    CallRuns(users, k);
    RunConcat(Init(shard), es, Lift(TwoDevices.Whole(k)));
    es := es + Lift(TwoDevices.Whole(k));
    InitOk(shard);
    InvOfRun(Init(shard), es);
    var s := State(TwoDevices.LOCKED, users);
    forall more | Legal(s, more) ensures ListedFor(Run(s, more).users, TwoDevices.CALLEE.id, 1) {
      HeldUpStaysListed(s, more, 1, Rooms.Hook(0, "b"));
    }
  }

  lemma InitOk(shard: Users.UserId -> nat)
    ensures Inv(Init(shard))
  {
  }
}
