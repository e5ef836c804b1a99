/** Connections, channels and the channel table, step by step.

    Every connection has one read loop, which handles its messages one after the other and finally
    closes it; all read loops and the purge loop interleave.  One event below is one access to
    shared state: a table operation, one critical section of a channel, or one registration of a
    close callback (signaling/rtm/webrtc.go, signaling/rtm/channel.go, signaling/rtm/manager.go:199-219).
 */
module Rooms {
  import opened Common
  import opened Messages
  import Channel

  type ConnId = Channel.ConnId
  type Id = Channel.Id
  type Ref = nat                      // a channel object

  const NAMED_GROUP_PREFIX := "@"
  const STANDARD_PREFIX := "*"

  /** The callback that Add registers with a connection. */
  datatype Hook = Hook(ref: Ref, id: Id)

  /** What the read loop of a connection does next.  `publish`: the channel was created for a call
      and enters the table only after its creator has been added. */
  datatype Pc =
    | Idle
    | Sizing(ref: Ref)
    | Adding(ref: Ref, publish: bool)
    | Registering(ref: Ref, publish: bool)
    | Publishing(ref: Ref)
    | Removing(ref: Ref)
    | Closing(todo: seq<Hook>)
    | Gone

  datatype Conn = Conn(user: User, hooks: seq<Hook>, pc: Pc)

  datatype Entry = Entry(key: Id, ref: Ref)

  /** A pass of the purge loop first tests all entries of the table, then goes through those found. */
  datatype Purge =
    | Resting
    | Scanning(todo: set<Entry>, found: set<Entry>)
    | Sweeping(found: set<Entry>, doomed: Option<Entry>)
  {
    /** The entries whose channels the pass has still to lock. */
    function Ahead(): set<Entry> {
      match this
      case Resting => {}
      case Scanning(todo, found) => todo + found
      case Sweeping(found, _) => found
    }
  }

  datatype State = State(
    chans: map<Ref, Channel.State>,
    table: map<Id, Ref>,
    conns: map<ConnId, Conn>,
    purge: Purge)
  {
    function SetPc(c: ConnId, pc: Pc): State
      requires c in conns
    {
      this.(conns := conns[c := conns[c].(pc := pc)])
    }

    predicate Listed(r: Ref)
      requires r in chans
    {
      chans[r].id in table && table[chans[r].id] == r
    }

    /** The handler that created `r` has yet to put it into the table. */
    ghost predicate BeingPublished(r: Ref) {
      exists c :: c in conns && (conns[c].pc == Registering(r, true) || conns[c].pc == Publishing(r))
    }
  }

  const INIT := State(map[], map[], map[], Resting)

  datatype Event =
    | Accept(c: ConnId, user: User)
    | GroupLookup(c: ConnId, m: Message, ref: Ref, piped: bool)
    | SizeTest(c: ConnId)
    | CallCreate(c: ConnId, m: Message, ref: Ref, rid: Id, piped: bool)
    | AnswerLookup(c: ConnId, m: Message)
    | HangupLookup(c: ConnId, m: Message)
    | AddStep(c: ConnId)
    | RegisterStep(c: ConnId)
    | PublishStep(c: ConnId)
    | RemoveStep(c: ConnId)
    | CloseStart(c: ConnId)
    | CloseCallback(c: ConnId)
    | CloseEnd(c: ConnId)
    | PurgeStart
    | PurgeSee(key: Id)
    | PurgeTest(entry: Entry, expired: bool)
    | PurgeSweep
    | PurgeCleanup(entry: Entry)
    | PurgeRemove
    | PurgeDone

  function PcOf(s: State, c: ConnId): Pc {
    if c in s.conns then s.conns[c].pc else Gone
  }

  predicate Free(s: State, r: Ref) {
    r in s.chans && !s.chans[r].locked
  }

  /** A random channel id has not been used before. */
  ghost predicate Unused(s: State, id: Id) {
    id !in s.table && forall r :: r in s.chans ==> s.chans[r].id != id
  }

  ghost predicate Enabled(s: State, e: Event) {
    match e
    case Accept(c, _) => c !in s.conns
    case GroupLookup(c, m, r, _) => PcOf(s, c).Idle? && Vet(Some(s.conns[c].user), m).Group? && r !in s.chans
    case SizeTest(c) => PcOf(s, c).Sizing? && Free(s, s.conns[c].pc.ref)
    case CallCreate(c, m, r, rid, _) =>
      && PcOf(s, c).Idle? && Vet(Some(s.conns[c].user), m).Request? && r !in s.chans
      && Unused(s, STANDARD_PREFIX + rid)
    case AnswerLookup(c, m) =>
      // an accepting answer whose hash passed
      && PcOf(s, c).Idle? && Vet(Some(s.conns[c].user), m).Response?
      && m.group == "" && m.channel in s.table
    case HangupLookup(c, m) =>
      && PcOf(s, c).Idle? && Vet(Some(s.conns[c].user), m).Signal?
      && m.subtype == SUBTYPE_HANGUP && m.channel in s.table
    case AddStep(c) => PcOf(s, c).Adding? && Free(s, s.conns[c].pc.ref)
    case RegisterStep(c) => PcOf(s, c).Registering?
    case PublishStep(c) => PcOf(s, c).Publishing? && s.conns[c].pc.ref in s.chans
    case RemoveStep(c) => PcOf(s, c).Removing? && Free(s, s.conns[c].pc.ref)
    case CloseStart(c) => PcOf(s, c).Idle?
    case CloseCallback(c) => PcOf(s, c).Closing? && s.conns[c].pc.todo != [] && Free(s, s.conns[c].pc.todo[0].ref)
    case CloseEnd(c) => PcOf(s, c) == Closing([])
    case PurgeStart => s.purge.Resting?
    case PurgeSee(key) => s.purge.Scanning? && key in s.table && Entry(key, s.table[key]) !in s.purge.found
    case PurgeTest(entry, _) => s.purge.Scanning? && entry in s.purge.todo && Free(s, entry.ref)
    case PurgeSweep => s.purge.Scanning? && s.purge.todo == {}
    case PurgeCleanup(entry) =>
      s.purge.Sweeping? && s.purge.doomed.None? && entry in s.purge.found && Free(s, entry.ref)
    case PurgeRemove => s.purge.Sweeping? && s.purge.doomed.Some?
    case PurgeDone => s.purge == Sweeping({}, None)
  }

  function GroupKey(group: string): Id {
    NAMED_GROUP_PREFIX + group
  }

  /** Upsert: an existing channel is used, otherwise one is made and entered, in one table operation. */
  function AfterGroupLookup(s: State, c: ConnId, m: Message, r: Ref, piped: bool): State
    requires c in s.conns
  {
    var key := GroupKey(m.group);
    if key in s.table then s.SetPc(c, Sizing(s.table[key]))
    else
      var ch := Channel.New(key, Some(Channel.Config(m.group, true)), piped);
      s.(chans := s.chans[r := ch], table := s.table[key := r]).SetPc(c, Sizing(r))
  }

  function AfterCallCreate(s: State, c: ConnId, r: Ref, rid: Id, piped: bool): State
    requires c in s.conns
  {
    s.(chans := s.chans[r := Channel.New(STANDARD_PREFIX + rid, None, piped)]).SetPc(c, Adding(r, true))
  }

  function AfterSizeTest(s: State, c: ConnId): State
    requires c in s.conns && s.conns[c].pc.Sizing? && s.conns[c].pc.ref in s.chans
  {
    var r := s.conns[c].pc.ref;
    if !s.conns[c].user.MayCreate() && |s.chans[r].members| == 0 then s.SetPc(c, Idle)
    else s.SetPc(c, Adding(r, false))
  }

  function AfterAddStep(s: State, c: ConnId): State
    requires c in s.conns && s.conns[c].pc.Adding? && s.conns[c].pc.ref in s.chans
  {
    var conn := s.conns[c];
    var r, publish := conn.pc.ref, conn.pc.publish;
    var ch := s.chans[r];
    var s' := s.(chans := s.chans[r := Channel.AfterAdd(ch, conn.user.id, c)]);
    match Channel.TryAdd(ch, conn.user.id, c)
    case ChannelClosed => s'.SetPc(c, Idle)
    case IdExists => s'.SetPc(c, Idle)
    case Already => s'.SetPc(c, if publish then Publishing(r) else Idle)
    case _ => s'.SetPc(c, Registering(r, publish))
  }

  function AfterRegister(s: State, c: ConnId): State
    requires c in s.conns && s.conns[c].pc.Registering?
  {
    var conn := s.conns[c];
    var pc := if conn.pc.publish then Publishing(conn.pc.ref) else Idle;
    s.(conns := s.conns[c := conn.(hooks := conn.hooks + [Hook(conn.pc.ref, conn.user.id)], pc := pc)])
  }

  /** SetIfAbsent. */
  function AfterPublish(s: State, c: ConnId): State
    requires c in s.conns && s.conns[c].pc.Publishing? && s.conns[c].pc.ref in s.chans
  {
    var r := s.conns[c].pc.ref;
    var key := s.chans[r].id;
    (if key in s.table then s else s.(table := s.table[key := r])).SetPc(c, Idle)
  }

  function AfterRemoveStep(s: State, c: ConnId): State
    requires c in s.conns && s.conns[c].pc.Removing? && s.conns[c].pc.ref in s.chans
  {
    var r := s.conns[c].pc.ref;
    s.(chans := s.chans[r := Channel.AfterRemove(s.chans[r], s.conns[c].user.id)]).SetPc(c, Idle)
  }

  function AfterCloseStart(s: State, c: ConnId): State
    requires c in s.conns
  {
    var conn := s.conns[c];
    s.(conns := s.conns[c := conn.(hooks := [], pc := Closing(conn.hooks))])
  }

  function AfterCloseCallback(s: State, c: ConnId): State
    requires c in s.conns && s.conns[c].pc.Closing? && s.conns[c].pc.todo != []
    requires s.conns[c].pc.todo[0].ref in s.chans
  {
    var h := s.conns[c].pc.todo[0];
    s.(chans := s.chans[h.ref := Channel.AfterConnClosed(s.chans[h.ref], h.id, c)])
     .SetPc(c, Closing(s.conns[c].pc.todo[1..]))
  }

  function Entries(s: State): set<Entry> {
    set k | k in s.table :: Entry(k, s.table[k])
  }

  function AfterPurgeTest(s: State, entry: Entry, expired: bool): State
    requires s.purge.Scanning? && entry.ref in s.chans
  {
    var found := if expired && s.chans[entry.ref].CanBeCleanedUp() then {entry} else {};
    s.(purge := Scanning(s.purge.todo - {entry}, s.purge.found + found))
  }

  function AfterPurgeCleanup(s: State, entry: Entry): State
    requires s.purge.Sweeping? && entry.ref in s.chans
  {
    var ch := s.chans[entry.ref];
    var rest := s.purge.found - {entry};
    s.(chans := s.chans[entry.ref := Channel.AfterCleanup(ch)],
       purge := Sweeping(rest, if ch.CanBeCleanedUp() then Some(entry) else None))
  }

  function AfterPurgeRemove(s: State): State
    requires s.purge.Sweeping? && s.purge.doomed.Some?
  {
    s.(table := s.table - {s.purge.doomed.value.key}, purge := s.purge.(doomed := None))
  }

  ghost function Next(s: State, e: Event): State
    requires Enabled(s, e)
  {
    match e
    case Accept(c, user) => s.(conns := s.conns[c := Conn(user, [], Idle)])
    case GroupLookup(c, m, r, piped) => AfterGroupLookup(s, c, m, r, piped)
    case SizeTest(c) => AfterSizeTest(s, c)
    case CallCreate(c, m, r, rid, piped) => AfterCallCreate(s, c, r, rid, piped)
    case AnswerLookup(c, m) => s.SetPc(c, Adding(s.table[m.channel], false))
    case HangupLookup(c, m) => s.SetPc(c, Removing(s.table[m.channel]))
    case AddStep(c) => AfterAddStep(s, c)
    case RegisterStep(c) => AfterRegister(s, c)
    case PublishStep(c) => AfterPublish(s, c)
    case RemoveStep(c) => AfterRemoveStep(s, c)
    case CloseStart(c) => AfterCloseStart(s, c)
    case CloseCallback(c) => AfterCloseCallback(s, c)
    case CloseEnd(c) => s.SetPc(c, Gone)
    case PurgeStart => s.(purge := Scanning(Entries(s), {}))
    case PurgeSee(key) => s.(purge := s.purge.(todo := s.purge.todo + {Entry(key, s.table[key])}))
    case PurgeTest(entry, expired) => AfterPurgeTest(s, entry, expired)
    case PurgeSweep => s.(purge := Sweeping(s.purge.found, None))
    case PurgeCleanup(entry) => AfterPurgeCleanup(s, entry)
    case PurgeRemove => AfterPurgeRemove(s)
    case PurgeDone => s.(purge := Resting)
  }

  // ---- The invariant ----

  /** "@"-channels carry their group and can be taken over; "*"-channels carry no group. */
  ghost predicate WellNamed(ch: Channel.State) {
    && ch.config.Some?
    && (if ch.Swaps() then ch.id == GroupKey(ch.Group()) && !ch.locked
        else ch.Group() == "" && |ch.id| > 0 && ch.id[0] == '*')
  }

  ghost predicate ChansOk(s: State) {
    && (forall r :: r in s.chans ==> WellNamed(s.chans[r]) && (s.chans[r].closed ==> s.chans[r].members == map[]))
    && (forall r, q :: r in s.chans && q in s.chans && r != q && !s.chans[r].Swaps() ==> s.chans[r].id != s.chans[q].id)
  }

  /** `s'` has the same channels and possibly more, with the same identities. */
  ghost predicate SameChans(s: State, s': State) {
    && s.table == s'.table
    && forall r :: r in s.chans ==>
         && r in s'.chans && s'.chans[r].id == s.chans[r].id && s'.chans[r].config == s.chans[r].config
         && (s.chans[r].closed ==> s'.chans[r].closed)
  }

  ghost predicate TableOk(s: State) {
    forall k :: k in s.table ==> s.table[k] in s.chans && s.chans[s.table[k]].id == k
  }

  ghost predicate PurgeEntriesOk(s: State) {
    && (forall e :: e in s.purge.Ahead() ==> e.key in s.table && s.table[e.key] == e.ref)
    && (s.purge.Sweeping? && s.purge.doomed.Some? ==>
          var d := s.purge.doomed.value;
          && d.key in s.table && s.table[d.key] == d.ref && d !in s.purge.found
          && d.ref in s.chans && s.chans[d.ref].closed)
  }

  /** A confined user deals only with channels of the user's groups. */
  ghost predicate Allowed(u: User, ch: Channel.State) {
    forall groups :: u.ConfinedTo(groups) ==> ch.Swaps() && ch.Group() in groups
  }

  /** What the read loop of a connection knows about the channel it is working on. */
  ghost predicate PcOk(s: State, conn: Conn) {
    match conn.pc
    case Sizing(r) => r in s.chans && (s.Listed(r) || s.chans[r].closed) && Allowed(conn.user, s.chans[r])
    case Adding(r, publish) =>
      && r in s.chans && Allowed(conn.user, s.chans[r])
      && (if publish then Publishable(s, r) else s.Listed(r) || s.chans[r].closed)
    case Registering(r, publish) =>
      r in s.chans && Allowed(conn.user, s.chans[r]) && (publish ==> Publishable(s, r))
    case Publishing(r) => r in s.chans && Publishable(s, r)
    case Removing(r) => r in s.chans
    case Closing(todo) => conn.hooks == [] && forall h :: h in todo ==> h.ref in s.chans
    case Gone => conn.hooks == []
    case Idle => true
  }

  ghost predicate Publishable(s: State, r: Ref)
    requires r in s.chans
  {
    !s.chans[r].Swaps() && (s.chans[r].id in s.table ==> s.table[s.chans[r].id] == r)
  }

  ghost predicate ConnsOk(s: State) {
    forall c :: c in s.conns ==>
      PcOk(s, s.conns[c]) && forall h :: h in s.conns[c].hooks ==> h.ref in s.chans
  }

  /** The entry for `conn` in `r` will be taken out when the connection closes. */
  ghost predicate Backed(conn: Conn, r: Ref) {
    || Hook(r, conn.user.id) in conn.hooks
    || (conn.pc.Registering? && conn.pc.ref == r)
    || (conn.pc.Closing? && Hook(r, conn.user.id) in conn.pc.todo)
  }

  ghost predicate MemberOk(s: State, r: Ref, id: Id)
    requires r in s.chans && id in s.chans[r].members
  {
    var c := s.chans[r].members[id];
    && c in s.conns && s.conns[c].user.id == id
    && Backed(s.conns[c], r) && Allowed(s.conns[c].user, s.chans[r])
  }

  ghost predicate MembersOk(s: State) {
    forall r, id :: r in s.chans && id in s.chans[r].members ==> MemberOk(s, r, id)
  }

  ghost predicate NonEmptyListed(s: State) {
    forall r :: r in s.chans && s.chans[r].members != map[] ==> s.Listed(r) || s.BeingPublished(r)
  }

  ghost predicate Inv(s: State) {
    ChansOk(s) && TableOk(s) && PurgeEntriesOk(s) && ConnsOk(s) && MembersOk(s) && NonEmptyListed(s)
  }

  // ---- What a change of one part needs to keep the invariant ----

  ghost predicate PublisherOf(conn: Conn, r: Ref) {
    conn.pc == Registering(r, true) || conn.pc == Publishing(r)
  }

  /** Connection `c` may become `conn`: it knows what it needs to know, its entries stay backed, and
      the channel it is to publish is still published. */
  ghost predicate ConnMayBecome(s: State, c: ConnId, conn: Conn) {
    && PcOk(s, conn)
    && (forall h :: h in conn.hooks ==> h.ref in s.chans)
    && (c in s.conns ==>
          && s.conns[c].user == conn.user
          && (forall r :: r in s.chans && s.chans[r].Holds(conn.user.id, c) && Backed(s.conns[c], r) ==>
                Backed(conn, r))
          && (forall r :: r in s.chans && PublisherOf(s.conns[c], r) ==> PublisherOf(conn, r) || s.Listed(r)))
  }

  lemma ConnChangedConns(s: State, c: ConnId, conn: Conn)
    requires ConnsOk(s) && ConnMayBecome(s, c, conn)
    ensures ConnsOk(s.(conns := s.conns[c := conn]))
  {
    var s' := s.(conns := s.conns[c := conn]);
    forall d | d in s'.conns ensures PcOk(s', s'.conns[d]) {
      assert PcOk(s, s'.conns[d]);
    }
  }

  lemma ConnChangedMembers(s: State, c: ConnId, conn: Conn)
    requires MembersOk(s) && ConnMayBecome(s, c, conn)
    ensures MembersOk(s.(conns := s.conns[c := conn]))
  {
    var s' := s.(conns := s.conns[c := conn]);
    forall r, id | r in s'.chans && id in s'.chans[r].members ensures MemberOk(s', r, id) {
      assert MemberOk(s, r, id);
    }
  }

  lemma ConnChangedListed(s: State, c: ConnId, conn: Conn)
    requires NonEmptyListed(s) && ConnMayBecome(s, c, conn)
    ensures NonEmptyListed(s.(conns := s.conns[c := conn]))
  {
    var s' := s.(conns := s.conns[c := conn]);
    forall r | r in s'.chans && s'.chans[r].members != map[]
      ensures s'.Listed(r) || s'.BeingPublished(r)
    {
      if !s.Listed(r) {
        var d :| d in s.conns && PublisherOf(s.conns[d], r);
        assert d in s'.conns && PublisherOf(s'.conns[d], r);
      }
    }
  }

  /** One connection moves on, nothing else changes. */
  lemma ConnChanged(s: State, c: ConnId, conn: Conn)
    requires Inv(s) && ConnMayBecome(s, c, conn)
    ensures Inv(s.(conns := s.conns[c := conn]))
  {
    ConnChangedConns(s, c, conn);
    ConnChangedMembers(s, c, conn);
    ConnChangedListed(s, c, conn);
  }

  lemma PcKept(s: State, s': State, conn: Conn)
    requires SameChans(s, s') && PcOk(s, conn)
    ensures PcOk(s', conn)
  {
    if conn.pc.Sizing? || conn.pc.Adding? || conn.pc.Registering? {
      assert Allowed(conn.user, s'.chans[conn.pc.ref]) <==> Allowed(conn.user, s.chans[conn.pc.ref]);
    }
  }

  lemma ConnsKept(s: State, s': State)
    requires SameChans(s, s') && s.conns == s'.conns && ConnsOk(s)
    ensures ConnsOk(s')
  {
    forall d | d in s'.conns ensures PcOk(s', s'.conns[d]) {
      PcKept(s, s', s.conns[d]);
    }
  }

  lemma MemberKept(s: State, s': State, r: Ref, id: Id)
    requires SameChans(s, s') && s.conns == s'.conns
    requires r in s.chans && id in s.chans[r].members && id in s'.chans[r].members
    requires s.chans[r].members[id] == s'.chans[r].members[id]
    requires MemberOk(s, r, id)
    ensures MemberOk(s', r, id)
  {
    var u := s.conns[s.chans[r].members[id]].user;
    assert Allowed(u, s'.chans[r]) <==> Allowed(u, s.chans[r]);
  }

  /** `ch` may take the place of channel `r`: members are changed, the channel is closed, or a
      channel without Replace handler is left locked. */
  ghost predicate MayBecome(s: State, r: Ref, ch: Channel.State)
    requires r in s.chans
  {
    && ch.id == s.chans[r].id && ch.config == s.chans[r].config
    && (s.chans[r].closed ==> ch.closed)
    && (ch.closed ==> ch.members == map[])
    && (ch.locked ==> s.chans[r].locked || !ch.Swaps())
    && (ch.members != map[] ==> s.chans[r].members != map[] || s.Listed(r) || s.BeingPublished(r))
  }

  /** A member of `ch` that is not one of channel `r` is known and backed. */
  ghost predicate NewMemberOk(s: State, r: Ref, ch: Channel.State, id: Id)
    requires id in ch.members
  {
    var c := ch.members[id];
    c in s.conns && s.conns[c].user.id == id && Backed(s.conns[c], r) && Allowed(s.conns[c].user, ch)
  }

  lemma ChanChangedChans(s: State, r: Ref, ch: Channel.State)
    requires ChansOk(s) && TableOk(s) && PurgeEntriesOk(s) && r in s.chans && MayBecome(s, r, ch)
    ensures var s' := s.(chans := s.chans[r := ch]); ChansOk(s') && TableOk(s') && PurgeEntriesOk(s')
  {
  }

  lemma ChanChangedListed(s: State, r: Ref, ch: Channel.State)
    requires NonEmptyListed(s) && r in s.chans && MayBecome(s, r, ch)
    ensures NonEmptyListed(s.(chans := s.chans[r := ch]))
  {
    var s' := s.(chans := s.chans[r := ch]);
    forall q | q in s'.chans && s'.chans[q].members != map[]
      ensures s'.Listed(q) || s'.BeingPublished(q)
    {
      assert s.Listed(q) || s.BeingPublished(q);
    }
  }

  /** One channel changes, nothing else does. */
  lemma ChanChanged(s: State, r: Ref, ch: Channel.State)
    requires Inv(s) && r in s.chans && MayBecome(s, r, ch)
    requires forall id :: id in ch.members ==> s.chans[r].Holds(id, ch.members[id]) || NewMemberOk(s, r, ch, id)
    ensures Inv(s.(chans := s.chans[r := ch]))
  {
    var s' := s.(chans := s.chans[r := ch]);
    ConnsKept(s, s');
    ChanChangedChans(s, r, ch);
    ChanChangedListed(s, r, ch);
    forall q, id | q in s'.chans && id in s'.chans[q].members ensures MemberOk(s', q, id) {
      if id in s.chans[q].members && s.chans[q].members[id] == s'.chans[q].members[id] {
        MemberKept(s, s', q, id);
      } else {
        assert q == r && NewMemberOk(s, r, ch, id);
      }
    }
  }

  lemma ChanMadeChans(s: State, r: Ref, ch: Channel.State)
    requires ChansOk(s) && TableOk(s) && PurgeEntriesOk(s) && r !in s.chans && WellNamed(ch) && ch.members == map[]
    requires forall q :: q in s.chans && (!ch.Swaps() || !s.chans[q].Swaps()) ==> s.chans[q].id != ch.id
    ensures var s' := s.(chans := s.chans[r := ch]); ChansOk(s') && TableOk(s') && PurgeEntriesOk(s')
  {
  }

  /** A channel is made. */
  lemma ChanMade(s: State, r: Ref, ch: Channel.State)
    requires Inv(s) && r !in s.chans && WellNamed(ch) && ch.members == map[]
    requires forall q :: q in s.chans && (!ch.Swaps() || !s.chans[q].Swaps()) ==> s.chans[q].id != ch.id
    ensures Inv(s.(chans := s.chans[r := ch]))
  {
    var s' := s.(chans := s.chans[r := ch]);
    ConnsKept(s, s');
    ChanMadeChans(s, r, ch);
    forall q, id | q in s'.chans && id in s'.chans[q].members ensures MemberOk(s', q, id) {
      MemberKept(s, s', q, id);
    }
    forall q | q in s'.chans && s'.chans[q].members != map[] ensures s'.Listed(q) || s'.BeingPublished(q) {
      assert s.Listed(q) || s.BeingPublished(q);
    }
  }

  lemma ChanEnteredPc(s: State, r: Ref, conn: Conn)
    requires ChansOk(s) && r in s.chans && s.chans[r].id !in s.table && PcOk(s, conn)
    ensures PcOk(s.(table := s.table[s.chans[r].id := r]), conn)
  {
  }

  /** A channel enters the table under its own id. */
  lemma ChanEntered(s: State, r: Ref)
    requires Inv(s) && r in s.chans && s.chans[r].id !in s.table
    ensures Inv(s.(table := s.table[s.chans[r].id := r]))
  {
    var s' := s.(table := s.table[s.chans[r].id := r]);
    assert ConnsOk(s') by {
      forall d | d in s'.conns ensures PcOk(s', s'.conns[d]) { ChanEnteredPc(s, r, s.conns[d]); }
    }
    MembersMoved(s, s');
    assert NonEmptyListed(s') by {
      forall q | q in s'.chans && s'.chans[q].members != map[] ensures s'.Listed(q) || s'.BeingPublished(q) {
        assert s.Listed(q) || s.BeingPublished(q);
      }
    }
  }

  /** Members are looked at in channels and connections only. */
  lemma MembersMoved(s: State, s': State)
    requires MembersOk(s) && s'.chans == s.chans && s'.conns == s.conns
    ensures MembersOk(s')
  {
    forall q, id | q in s'.chans && id in s'.chans[q].members ensures MemberOk(s', q, id) {
      assert MemberOk(s, q, id);
    }
  }

  lemma DoomedRemovedPc(s: State, conn: Conn)
    requires PurgeEntriesOk(s) && TableOk(s) && Enabled(s, PurgeRemove) && PcOk(s, conn)
    ensures PcOk(Next(s, PurgeRemove), conn)
  {
  }

  /** The purge loop takes its doomed channel out of the table. */
  lemma DoomedRemoved(s: State)
    requires Inv(s) && Enabled(s, PurgeRemove)
    ensures Inv(Next(s, PurgeRemove))
  {
    var s' := Next(s, PurgeRemove);
    assert ConnsOk(s') by {
      forall d | d in s'.conns ensures PcOk(s', s'.conns[d]) { DoomedRemovedPc(s, s.conns[d]); }
    }
    MembersMoved(s, s');
    assert NonEmptyListed(s') by {
      forall q | q in s'.chans && s'.chans[q].members != map[]
        ensures s'.Listed(q) || s'.BeingPublished(q)
      {
        assert s.Listed(q) || s.BeingPublished(q);
      }
    }
  }

  // ---- Each event keeps the invariant ----

  lemma GroupKeyInjective(g: string, h: string)
    requires GroupKey(g) == GroupKey(h)
    ensures g == h
  {
    assert GroupKey(g)[1..] == g && GroupKey(h)[1..] == h;
  }

  /** A listed group channel is one for exactly that group. */
  lemma GroupChannelFound(s: State, g: string)
    requires ChansOk(s) && TableOk(s) && GroupKey(g) in s.table
    ensures var ch := s.chans[s.table[GroupKey(g)]]; ch.Swaps() && ch.Group() == g
  {
    var ch := s.chans[s.table[GroupKey(g)]];
    assert WellNamed(ch) && ch.id[0] == '@';
    GroupKeyInjective(g, ch.Group());
  }

  lemma GroupAllowed(u: User, m: Message, ch: Channel.State)
    requires Vet(Some(u), m).Group? && ch.Swaps() && ch.Group() == m.group
    ensures Allowed(u, ch)
  {
    forall groups | u.ConfinedTo(groups) ensures m.group in groups { ConfinedVerdict(u, groups, m); }
  }

  lemma CallerNotConfined(u: User, m: Message, ch: Channel.State)
    requires Vet(Some(u), m).Request? || (Vet(Some(u), m).Response? && m.group == "")
    ensures Allowed(u, ch)
  {
    forall groups | u.ConfinedTo(groups) ensures false { ConfinedVerdict(u, groups, m); }
  }

  lemma GroupFoundKept(s: State, c: ConnId, m: Message)
    requires Inv(s) && PcOf(s, c).Idle? && Vet(Some(s.conns[c].user), m).Group? && GroupKey(m.group) in s.table
    ensures Inv(s.SetPc(c, Sizing(s.table[GroupKey(m.group)])))
  {
    var r := s.table[GroupKey(m.group)];
    GroupChannelFound(s, m.group);
    GroupAllowed(s.conns[c].user, m, s.chans[r]);
    ConnChanged(s, c, s.conns[c].(pc := Sizing(r)));
  }

  lemma GroupMadeKept(s: State, m: Message, r: Ref, piped: bool)
    requires Inv(s) && r !in s.chans && GroupKey(m.group) !in s.table
    ensures var key := GroupKey(m.group);
            Inv(s.(chans := s.chans[r := Channel.New(key, Some(Channel.Config(m.group, true)), piped)],
                   table := s.table[key := r]))
  {
    var key := GroupKey(m.group);
    var ch := Channel.New(key, Some(Channel.Config(m.group, true)), piped);
    assert key[0] == '@';
    ChanMade(s, r, ch);
    ChanEntered(s.(chans := s.chans[r := ch]), r);
  }

  lemma GroupLookupKept(s: State, c: ConnId, m: Message, r: Ref, piped: bool)
    requires Inv(s) && Enabled(s, GroupLookup(c, m, r, piped))
    ensures Inv(Next(s, GroupLookup(c, m, r, piped)))
  {
    var key := GroupKey(m.group);
    if key in s.table {
      GroupFoundKept(s, c, m);
    } else {
      var ch := Channel.New(key, Some(Channel.Config(m.group, true)), piped);
      GroupMadeKept(s, m, r, piped);
      GroupFoundKept(s.(chans := s.chans[r := ch], table := s.table[key := r]), c, m);
    }
  }

  lemma CallCreateKept(s: State, c: ConnId, m: Message, r: Ref, rid: Id, piped: bool)
    requires Inv(s) && Enabled(s, CallCreate(c, m, r, rid, piped))
    ensures Inv(Next(s, CallCreate(c, m, r, rid, piped)))
  {
    var ch := Channel.New(STANDARD_PREFIX + rid, None, piped);
    assert ch.id[0] == '*';
    ChanMade(s, r, ch);
    CallerNotConfined(s.conns[c].user, m, ch);
    ConnChanged(s.(chans := s.chans[r := ch]), c, s.conns[c].(pc := Adding(r, true)));
  }

  lemma AnswerLookupKept(s: State, c: ConnId, m: Message)
    requires Inv(s) && Enabled(s, AnswerLookup(c, m))
    ensures Inv(Next(s, AnswerLookup(c, m)))
  {
    var r := s.table[m.channel];
    CallerNotConfined(s.conns[c].user, m, s.chans[r]);
    ConnChanged(s, c, s.conns[c].(pc := Adding(r, false)));
  }

  lemma AddRefusedPc(s: State, c: ConnId, pc: Pc)
    requires Inv(s) && PcOf(s, c).Adding?
    requires pc == Idle || (s.conns[c].pc.publish && pc == Publishing(s.conns[c].pc.ref))
    ensures Inv(s.SetPc(c, pc))
  {
    assert PcOk(s, s.conns[c]);
    ConnChanged(s, c, s.conns[c].(pc := pc));
  }

  lemma AddRefusedKept(s: State, c: ConnId)
    requires Inv(s) && PcOf(s, c).Adding? && Free(s, s.conns[c].pc.ref)
    requires var a := Channel.TryAdd(s.chans[s.conns[c].pc.ref], s.conns[c].user.id, c); !a.Added? && !a.Replaced?
    ensures Inv(AfterAddStep(s, c))
  {
    var r := s.conns[c].pc.ref;
    var ch := Channel.AfterAdd(s.chans[r], s.conns[c].user.id, c);
    var s1 := s.SetPc(c, AfterAddStep(s, c).conns[c].pc);
    AddRefusedPc(s, c, s1.conns[c].pc);
    RefusedMayLock(s1, r, s.conns[c].user.id, c);
    ChanChanged(s1, r, ch);
  }

  lemma RefusedMayLock(s: State, r: Ref, id: Id, c: ConnId)
    requires ChansOk(s) && r in s.chans
    requires var a := Channel.TryAdd(s.chans[r], id, c); !a.Added? && !a.Replaced?
    ensures var ch := Channel.AfterAdd(s.chans[r], id, c);
            MayBecome(s, r, ch) && ch.members == s.chans[r].members
  {
  }

  lemma AddingMayRegister(s: State, c: ConnId)
    requires ConnsOk(s) && PcOf(s, c).Adding?
    ensures ConnMayBecome(s, c, s.conns[c].(pc := Registering(s.conns[c].pc.ref, s.conns[c].pc.publish)))
  {
    assert PcOk(s, s.conns[c]);
  }

  lemma NewMemberMayJoin(s: State, s1: State, c: ConnId)
    requires ConnsOk(s) && PcOf(s, c).Adding? && Free(s, s.conns[c].pc.ref)
    requires s1 == s.SetPc(c, Registering(s.conns[c].pc.ref, s.conns[c].pc.publish))
    requires var a := Channel.TryAdd(s.chans[s.conns[c].pc.ref], s.conns[c].user.id, c); a.Added? || a.Replaced?
    ensures var conn, r := s.conns[c], s.conns[c].pc.ref;
            var ch := Channel.AfterAdd(s.chans[r], conn.user.id, c);
            && MayBecome(s1, r, ch)
            && forall id :: id in ch.members ==> s1.chans[r].Holds(id, ch.members[id]) || NewMemberOk(s1, r, ch, id)
  {
    var conn, r := s.conns[c], s.conns[c].pc.ref;
    var ch := Channel.AfterAdd(s.chans[r], conn.user.id, c);
    assert PcOk(s, conn);
    assert conn.pc.publish ==> PublisherOf(s1.conns[c], r);
    assert Allowed(conn.user, ch) <==> Allowed(conn.user, s.chans[r]);
  }

  lemma AddTakenKept(s: State, c: ConnId)
    requires Inv(s) && PcOf(s, c).Adding? && Free(s, s.conns[c].pc.ref)
    requires var r := Channel.TryAdd(s.chans[s.conns[c].pc.ref], s.conns[c].user.id, c); r.Added? || r.Replaced?
    ensures Inv(AfterAddStep(s, c))
  {
    var conn := s.conns[c];
    var r, publish := conn.pc.ref, conn.pc.publish;
    var ch' := Channel.AfterAdd(s.chans[r], conn.user.id, c);
    var s1 := s.SetPc(c, Registering(r, publish));
    AddingMayRegister(s, c);
    ConnChanged(s, c, conn.(pc := Registering(r, publish)));
    NewMemberMayJoin(s, s1, c);
    ChanChanged(s1, r, ch');
  }

  lemma AddStepKept(s: State, c: ConnId)
    requires Inv(s) && Enabled(s, AddStep(c))
    ensures Inv(Next(s, AddStep(c)))
  {
    var r := Channel.TryAdd(s.chans[s.conns[c].pc.ref], s.conns[c].user.id, c);
    if r.Added? || r.Replaced? {
      AddTakenKept(s, c);
    } else {
      AddRefusedKept(s, c);
    }
  }

  lemma RegisterKept(s: State, c: ConnId)
    requires Inv(s) && Enabled(s, RegisterStep(c))
    ensures Inv(Next(s, RegisterStep(c)))
  {
    var conn := s.conns[c];
    assert PcOk(s, conn);
    var hooks := conn.hooks + [Hook(conn.pc.ref, conn.user.id)];
    assert hooks[|conn.hooks|] == Hook(conn.pc.ref, conn.user.id);
    assert forall h :: h in conn.hooks ==> h in hooks;
    ConnChanged(s, c, conn.(hooks := hooks, pc := if conn.pc.publish then Publishing(conn.pc.ref) else Idle));
  }

  lemma PublishedMayRest(s: State, c: ConnId)
    requires ConnsOk(s) && PcOf(s, c).Publishing? && s.conns[c].pc.ref in s.chans && s.Listed(s.conns[c].pc.ref)
    ensures ConnMayBecome(s, c, s.conns[c].(pc := Idle))
  {
  }

  lemma PublishKept(s: State, c: ConnId)
    requires Inv(s) && Enabled(s, PublishStep(c))
    ensures Inv(Next(s, PublishStep(c)))
  {
    var conn := s.conns[c];
    var r := conn.pc.ref;
    assert PcOk(s, conn);
    var s1 := if s.chans[r].id in s.table then s else s.(table := s.table[s.chans[r].id := r]);
    assert Inv(s1) by {
      if s1 != s { ChanEntered(s, r); }
    }
    PublishedMayRest(s1, c);
    ConnChanged(s1, c, conn.(pc := Idle));
  }

  lemma RemoveStepKept(s: State, c: ConnId)
    requires Inv(s) && Enabled(s, RemoveStep(c))
    ensures Inv(Next(s, RemoveStep(c)))
  {
    var r := s.conns[c].pc.ref;
    ConnChanged(s, c, s.conns[c].(pc := Idle));
    ChanChanged(s.SetPc(c, Idle), r, Channel.AfterRemove(s.chans[r], s.conns[c].user.id));
  }

  lemma CallbackDone(s: State, c: ConnId)
    requires Inv(s) && PcOf(s, c).Closing? && s.conns[c].pc.todo != []
    requires var h := s.conns[c].pc.todo[0]; h.ref in s.chans && !s.chans[h.ref].Holds(h.id, c)
    ensures Inv(s.SetPc(c, Closing(s.conns[c].pc.todo[1..])))
  {
    var todo := s.conns[c].pc.todo;
    assert PcOk(s, s.conns[c]);
    assert forall g :: g in todo <==> g == todo[0] || g in todo[1..];
    ConnChanged(s, c, s.conns[c].(pc := Closing(todo[1..])));
  }

  lemma CloseCallbackKept(s: State, c: ConnId)
    requires Inv(s) && Enabled(s, CloseCallback(c))
    ensures Inv(Next(s, CloseCallback(c)))
  {
    var h := s.conns[c].pc.todo[0];
    var ch := Channel.AfterConnClosed(s.chans[h.ref], h.id, c);
    ChanChanged(s, h.ref, ch);
    CallbackDone(s.(chans := s.chans[h.ref := ch]), c);
  }

  lemma CloseEndKept(s: State, c: ConnId)
    requires Inv(s) && Enabled(s, CloseEnd(c))
    ensures Inv(Next(s, CloseEnd(c)))
  {
    assert PcOk(s, s.conns[c]);
    ConnChanged(s, c, s.conns[c].(pc := Gone));
  }

  lemma PurgeCleanupKept(s: State, entry: Entry)
    requires Inv(s) && Enabled(s, PurgeCleanup(entry))
    ensures Inv(Next(s, PurgeCleanup(entry)))
  {
    var ch := s.chans[entry.ref];
    ChanChanged(s, entry.ref, Channel.AfterCleanup(ch));
    PurgeMoved(s.(chans := s.chans[entry.ref := Channel.AfterCleanup(ch)]), Next(s, PurgeCleanup(entry)).purge);
  }

  /** The purge loop moves on, nothing else changes. */
  lemma PurgeMoved(s: State, purge: Purge)
    requires Inv(s) && PurgeEntriesOk(s.(purge := purge))
    ensures Inv(s.(purge := purge))
  {
    var s' := s.(purge := purge);
    assert ConnsOk(s') by {
      forall d | d in s'.conns ensures PcOk(s', s'.conns[d]) { assert PcOk(s, s.conns[d]); }
    }
    MembersMoved(s, s');
    assert NonEmptyListed(s') by {
      forall q | q in s'.chans && s'.chans[q].members != map[] ensures s'.Listed(q) || s'.BeingPublished(q) {
        assert s.Listed(q) || s.BeingPublished(q);
      }
    }
  }

  lemma AcceptKept(s: State, c: ConnId, user: User)
    requires Inv(s) && Enabled(s, Accept(c, user))
    ensures Inv(Next(s, Accept(c, user)))
  {
    ConnChanged(s, c, Conn(user, [], Idle));
  }

  lemma SizeTestKept(s: State, c: ConnId)
    requires Inv(s) && Enabled(s, SizeTest(c))
    ensures Inv(Next(s, SizeTest(c)))
  {
    assert PcOk(s, s.conns[c]);
    ConnChanged(s, c, AfterSizeTest(s, c).conns[c]);
  }

  lemma HangupLookupKept(s: State, c: ConnId, m: Message)
    requires Inv(s) && Enabled(s, HangupLookup(c, m))
    ensures Inv(Next(s, HangupLookup(c, m)))
  {
    ConnChanged(s, c, s.conns[c].(pc := Removing(s.table[m.channel])));
  }

  lemma CloseStartKept(s: State, c: ConnId)
    requires Inv(s) && Enabled(s, CloseStart(c))
    ensures Inv(Next(s, CloseStart(c)))
  {
    ConnChanged(s, c, AfterCloseStart(s, c).conns[c]);
  }

  lemma PurgeLoopKept(s: State, e: Event)
    requires Inv(s) && Enabled(s, e) && (e.PurgeStart? || e.PurgeSee? || e.PurgeTest? || e.PurgeSweep? || e.PurgeDone?)
    ensures Inv(Next(s, e))
  {
    PurgeMoved(s, Next(s, e).purge);
  }

  lemma LookupKept(s: State, e: Event)
    requires Inv(s) && Enabled(s, e)
    requires e.Accept? || e.GroupLookup? || e.CallCreate? || e.AnswerLookup? || e.HangupLookup?
    ensures Inv(Next(s, e))
  {
    match e {
      case Accept(c, user) => AcceptKept(s, c, user);
      case GroupLookup(c, m, r, piped) => GroupLookupKept(s, c, m, r, piped);
      case CallCreate(c, m, r, rid, piped) => CallCreateKept(s, c, m, r, rid, piped);
      case AnswerLookup(c, m) => AnswerLookupKept(s, c, m);
      case HangupLookup(c, m) => HangupLookupKept(s, c, m);
    }
  }

  lemma WorkKept(s: State, e: Event)
    requires Inv(s) && Enabled(s, e)
    requires e.SizeTest? || e.AddStep? || e.RegisterStep? || e.PublishStep? || e.RemoveStep?
    ensures Inv(Next(s, e))
  {
    match e {
      case SizeTest(c) => SizeTestKept(s, c);
      case AddStep(c) => AddStepKept(s, c);
      case RegisterStep(c) => RegisterKept(s, c);
      case PublishStep(c) => PublishKept(s, c);
      case RemoveStep(c) => RemoveStepKept(s, c);
    }
  }

  lemma InvKept(s: State, e: Event)
    requires Inv(s) && Enabled(s, e)
    ensures Inv(Next(s, e))
  {
    if e.Accept? || e.GroupLookup? || e.CallCreate? || e.AnswerLookup? || e.HangupLookup? {
      LookupKept(s, e);
    } else if e.SizeTest? || e.AddStep? || e.RegisterStep? || e.PublishStep? || e.RemoveStep? {
      WorkKept(s, e);
    } else {
      match e {
        case CloseStart(c) => CloseStartKept(s, c);
        case CloseCallback(c) => CloseCallbackKept(s, c);
        case CloseEnd(c) => CloseEndKept(s, c);
        case PurgeCleanup(entry) => PurgeCleanupKept(s, entry);
        case PurgeRemove => DoomedRemoved(s);
        case _ => PurgeLoopKept(s, e);
      }
    }
  }

  // ---- Over every run ----

  ghost predicate Legal(s: State, es: seq<Event>)
    decreases es
  {
    es == [] || (Enabled(s, es[0]) && Legal(Next(s, es[0]), es[1..]))
  }

  ghost function Run(s: State, es: seq<Event>): State
    requires Legal(s, es)
    decreases es
  {
    if es == [] then s else Run(Next(s, es[0]), es[1..])
  }

  lemma {:induction false} InvOfRun(s: State, es: seq<Event>)
    requires Inv(s) && Legal(s, es)
    ensures Inv(Run(s, es))
    decreases es
  {
    if es != [] {
      InvKept(s, es[0]);
      InvOfRun(Next(s, es[0]), es[1..]);
    }
  }

  /** Once Close of a connection has finished, no channel maps any id to it. */
  lemma NoClosedMembers(es: seq<Event>, c: ConnId, r: Ref, id: Id)
    requires Legal(INIT, es)
    requires c in Run(INIT, es).conns && Run(INIT, es).conns[c].pc.Gone? && r in Run(INIT, es).chans
    ensures !Run(INIT, es).chans[r].Holds(id, c)
  {
    InvOfRun(INIT, es);
    var s := Run(INIT, es);
    assert PcOk(s, s.conns[c]) && !Backed(s.conns[c], r);
    if id in s.chans[r].members {
      assert MemberOk(s, r, id);
    }
  }

  /** Between messages, every channel that has members is in the table under its own id: the only
      exception is a channel whose creator is still handling the call request. */
  lemma NonEmptyChannelsAreListed(es: seq<Event>, r: Ref)
    requires Legal(INIT, es) && r in Run(INIT, es).chans
    ensures var s := Run(INIT, es);
            s.chans[r].members != map[] && !s.BeingPublished(r) ==> s.Listed(r)
  {
    InvOfRun(INIT, es);
  }

  lemma ClosedStep(s: State, e: Event, r: Ref)
    requires Enabled(s, e) && r in s.chans && s.chans[r].closed
    ensures r in Next(s, e).chans && Next(s, e).chans[r].closed
  {
  }

  lemma {:induction false} ClosedForever(s: State, es: seq<Event>, r: Ref)
    requires Legal(s, es) && r in s.chans && s.chans[r].closed
    ensures r in Run(s, es).chans && Run(s, es).chans[r].closed
    decreases es
  {
    if es != [] {
      ClosedStep(s, es[0], r);
      ClosedForever(Next(s, es[0]), es[1..], r);
    }
  }

  /** However joins interleave with its scan, test and removal, the purge loop takes a channel out
      of the table only when it is the one listed there, closed and empty, and after any further
      events that channel is still closed and empty. */
  lemma PurgeDropsOnlyDeadChannels(es: seq<Event>, more: seq<Event>)
    requires Legal(INIT, es) && Enabled(Run(INIT, es), PurgeRemove) && Legal(Run(INIT, es), more)
    ensures var s := Run(INIT, es);
            var d := s.purge.doomed.value;
            && d.key in s.table && s.table[d.key] == d.ref
            && d.ref in Run(s, more).chans && Run(s, more).chans[d.ref].closed
            && Run(s, more).chans[d.ref].members == map[]
  {
    InvOfRun(INIT, es);
    var s := Run(INIT, es);
    ClosedForever(s, more, s.purge.doomed.value.ref);
    InvOfRun(s, more);
  }

  /** A user confined to some groups is only ever a member of the channels "@g" of those groups. */
  lemma ConfinedStayInTheirGroups(es: seq<Event>, c: ConnId, groups: set<string>, r: Ref, id: Id)
    requires Legal(INIT, es)
    requires c in Run(INIT, es).conns && Run(INIT, es).conns[c].user.ConfinedTo(groups)
    requires r in Run(INIT, es).chans && Run(INIT, es).chans[r].Holds(id, c)
    ensures exists g :: g in groups && Run(INIT, es).chans[r].id == GroupKey(g)
  {
    InvOfRun(INIT, es);
    var s := Run(INIT, es);
    assert MemberOk(s, r, id);
    assert s.chans[r].Group() in groups && WellNamed(s.chans[r]);
  }

  // ---- What a listed channel keeps ----

  /** The group that an id stands for. */
  function KeyGroup(key: Id): string {
    if NAMED_GROUP_PREFIX <= key then key[1..] else ""
  }

  /** Whatever channel is listed under an id, now or later, has the group the id stands for. */
  lemma ListedGroup(s: State, key: Id)
    requires ChansOk(s) && TableOk(s) && key in s.table
    ensures s.chans[s.table[key]].Group() == KeyGroup(key)
  {
    var ch := s.chans[s.table[key]];
    assert WellNamed(ch);
    if ch.Swaps() {
      assert GroupKey(ch.Group())[1..] == ch.Group();
    }
  }

  lemma ChannelStep(s: State, e: Event, r: Ref)
    requires Enabled(s, e) && r in s.chans
    ensures var s' := Next(s, e);
            && r in s'.chans && s'.chans[r].id == s.chans[r].id && s'.chans[r].config == s.chans[r].config
            && (s.chans[r].closed ==> s'.chans[r].closed)
            && (s'.chans[r].closed || s'.chans[r].pipeline == s.chans[r].pipeline)
  {
  }

  lemma {:induction false} ChannelKept(s: State, es: seq<Event>, r: Ref)
    requires Legal(s, es) && r in s.chans
    ensures var s' := Run(s, es);
            && r in s'.chans && s'.chans[r].id == s.chans[r].id && s'.chans[r].config == s.chans[r].config
            && (s.chans[r].closed ==> s'.chans[r].closed)
            && (s'.chans[r].closed || s'.chans[r].pipeline == s.chans[r].pipeline)
    decreases es
  {
    if es != [] {
      ChannelStep(s, es[0], r);
      ChannelKept(Next(s, es[0]), es[1..], r);
    }
  }

  /** A call channel that is listed under its id later is the same one, with the same pipeline unless
      it has closed. */
  lemma CallChannelKept(s: State, es: seq<Event>, key: Id)
    requires Inv(s) && Legal(s, es) && key in s.table && key in Run(s, es).table
    requires s.table[key] in s.chans && !s.chans[s.table[key]].Swaps()
    ensures var s' := Run(s, es);
            && s'.table[key] == s.table[key] && s'.table[key] in s'.chans
            && (s'.chans[s'.table[key]].closed || s'.chans[s'.table[key]].pipeline == s.chans[s.table[key]].pipeline)
  {
    InvOfRun(s, es);
    ChannelKept(s, es, s.table[key]);
  }

  // ---- A lock that was left behind ----

  lemma LockedStep(s: State, e: Event, r: Ref)
    requires Enabled(s, e) && r in s.chans && s.chans[r].locked
    ensures r in Next(s, e).chans && Next(s, e).chans[r].locked
  {
  }

  lemma BlockedStep(s: State, e: Event, c: ConnId, h: Hook)
    requires Enabled(s, e) && h.ref in s.chans && s.chans[h.ref].locked
    requires PcOf(s, c).Closing? && h in PcOf(s, c).todo
    ensures PcOf(Next(s, e), c).Closing? && h in PcOf(Next(s, e), c).todo
  {
    if e == CloseCallback(c) {
      var todo := s.conns[c].pc.todo;
      assert todo[0] != h;
      assert todo == [todo[0]] + todo[1..];
    }
  }

  /** Once the lock of a channel was left behind (Channel.LockLeftBehindIff says when), it is never
      released, and Close of a connection that has yet to leave that channel never finishes. */
  lemma {:induction false} CloseNeverFinishes(s: State, es: seq<Event>, c: ConnId, h: Hook)
    requires Legal(s, es) && h.ref in s.chans && s.chans[h.ref].locked
    requires PcOf(s, c).Closing? && h in PcOf(s, c).todo
    ensures h.ref in Run(s, es).chans && Run(s, es).chans[h.ref].locked
    ensures PcOf(Run(s, es), c).Closing? && h in PcOf(Run(s, es), c).todo
    decreases es
  {
    if es != [] {
      LockedStep(s, es[0], h.ref);
      BlockedStep(s, es[0], c, h);
      CloseNeverFinishes(Next(s, es[0]), es[1..], c, h);
    }
  }

  ghost predicate CloseFinishes(s: State, c: ConnId, es: seq<Event>) {
    Legal(s, es) && PcOf(Run(s, es), c).Gone?
  }

  lemma RunOne(s: State, e: Event, es: seq<Event>)
    requires Enabled(s, e) && Legal(Next(s, e), es)
    ensures Legal(s, [e] + es) && Run(s, [e] + es) == Run(Next(s, e), es)
  {
    assert ([e] + es)[1..] == es;
  }

  /** Close goes through its callbacks, if all the channels can be locked. */
  lemma {:induction false} CloseRuns(s: State, c: ConnId) returns (es: seq<Event>)
    requires PcOf(s, c).Closing? && forall h :: h in PcOf(s, c).todo ==> Free(s, h.ref)
    ensures CloseFinishes(s, c, es) && forall e :: e in es ==> e.CloseCallback? || e.CloseEnd?
    decreases PcOf(s, c).todo
  {
    var todo := PcOf(s, c).todo;
    var e := if todo == [] then CloseEnd(c) else CloseCallback(c);
    if todo == [] {
      es := [];
    } else {
      es := CloseRuns(Next(s, e), c);
    }
    RunOne(s, e, es);
    es := [e] + es;
  }

  /** Close of a connection can finish exactly if none of the channels it has yet to leave was left
      locked: one such channel is enough to hold it up for good. */
  lemma CloseFinishesIff(s: State, c: ConnId)
    requires Inv(s) && PcOf(s, c).Closing?
    ensures (exists es :: CloseFinishes(s, c, es)) <==> forall h :: h in PcOf(s, c).todo ==> Free(s, h.ref)
  {
    assert PcOk(s, s.conns[c]);
    if forall h :: h in PcOf(s, c).todo ==> Free(s, h.ref) {
      var es := CloseRuns(s, c);
    } else {
      var h :| h in PcOf(s, c).todo && !Free(s, h.ref);
      forall es | Legal(s, es) ensures !CloseFinishes(s, c, es) { CloseNeverFinishes(s, es, c, h); }
    }
  }

  /** A pass of the purge loop ends. */
  ghost predicate PassEnds(s: State, es: seq<Event>) {
    Legal(s, es) && Run(s, es).purge.Resting?
  }

  ghost predicate AllFree(s: State) {
    forall e :: e in s.purge.Ahead() ==> Free(s, e.ref)
  }

  lemma {:induction false} ScanRuns(s: State) returns (es: seq<Event>)
    requires s.purge.Scanning? && AllFree(s)
    ensures PassEnds(s, es)
    decreases s.purge.todo
  {
    var e := PurgeSweep;
    if s.purge.todo == {} {
      es := SweepRuns(Next(s, e));
    } else {
      var entry :| entry in s.purge.todo;
      e := PurgeTest(entry, false);
      es := ScanRuns(Next(s, e));
    }
    RunOne(s, e, es);
    es := [e] + es;
  }

  lemma {:induction false} SweepRuns(s: State) returns (es: seq<Event>)
    requires s.purge.Sweeping? && AllFree(s)
    ensures PassEnds(s, es)
    decreases s.purge.found, s.purge.doomed.Some?
  {
    var e := PurgeDone;
    if s.purge.doomed.Some? {
      e := PurgeRemove;
      es := SweepRuns(Next(s, e));
    } else if s.purge.found != {} {
      var entry :| entry in s.purge.found;
      e := PurgeCleanup(entry);
      es := SweepRuns(Next(s, e));
    } else {
      es := [];
    }
    RunOne(s, e, es);
    es := [e] + es;
  }

  lemma {:induction false} PassHeldUp(s: State, es: seq<Event>, entry: Entry)
    requires Legal(s, es) && entry in s.purge.Ahead() && entry.ref in s.chans && s.chans[entry.ref].locked
    ensures !PassEnds(s, es) && PurgeDone !in es
    decreases es
  {
    if es != [] {
      LockedStep(s, es[0], entry.ref);
      assert entry in Next(s, es[0]).purge.Ahead();
      PassHeldUp(Next(s, es[0]), es[1..], entry);
    }
  }

  /** A pass can end exactly if no channel it has yet to test or clean up was left locked. */
  lemma PassEndsIff(s: State)
    requires Inv(s) && !s.purge.Resting?
    ensures (exists es :: PassEnds(s, es)) <==> AllFree(s)
  {
    if AllFree(s) {
      var es;
      if s.purge.Scanning? { es := ScanRuns(s); } else { es := SweepRuns(s); }
    } else {
      var entry :| entry in s.purge.Ahead() && !Free(s, entry.ref);
      assert entry.ref in s.chans;
      forall es | Legal(s, es) ensures !PassEnds(s, es) { PassHeldUp(s, es, entry); }
    }
  }

  // ---- What a pass does ----

  function KeysOf(entries: set<Entry>): set<Id> {
    set e | e in entries :: e.key
  }

  /** These are channels without members whose locks are free. */
  ghost predicate AllEmpty(s: State, entries: set<Entry>) {
    forall e :: e in entries ==> Free(s, e.ref) && s.chans[e.ref].config.Some? && s.chans[e.ref].members == map[]
  }

  /** `es` takes the pass to its end, with exactly these entries gone and their channels closed. */
  ghost predicate Purges(s: State, es: seq<Event>, gone: set<Entry>) {
    && PassEnds(s, es) && Run(s, es).conns == s.conns && Run(s, es).table == s.table - KeysOf(gone)
    && forall e :: e in gone ==> e.ref in Run(s, es).chans && Run(s, es).chans[e.ref].closed
  }

  /** One channel is closed, and taken out of the table. */
  ghost function Swept(s: State, entry: Entry): State
    requires s.purge.Sweeping? && entry.ref in s.chans
  {
    s.(chans := s.chans[entry.ref := s.chans[entry.ref].(closed := true, pipeline := false)],
       table := s.table - {entry.key}, purge := Sweeping(s.purge.found - {entry}, None))
  }

  lemma SweepOne(s: State, entry: Entry)
    requires s.purge.Sweeping? && s.purge.doomed.None? && AllEmpty(s, s.purge.found) && entry in s.purge.found
    ensures Enabled(s, PurgeCleanup(entry))
    ensures var s1 := Next(s, PurgeCleanup(entry));
            Enabled(s1, PurgeRemove) && Next(s1, PurgeRemove) == Swept(s, entry)
    ensures AllEmpty(Swept(s, entry), s.purge.found - {entry})
  {
  }

  lemma {:induction false} SweepPurges(s: State) returns (es: seq<Event>)
    requires s.purge.Sweeping? && s.purge.doomed.None? && AllEmpty(s, s.purge.found)
    ensures Purges(s, es, s.purge.found)
    decreases s.purge.found
  {
    var found := s.purge.found;
    if found == {} {
      assert s.table - KeysOf(found) == s.table;
      RunOne(s, PurgeDone, []);
      es := [PurgeDone] + [];
    } else {
      var entry :| entry in found;
      SweepOne(s, entry);
      es := SweepPurges(Swept(s, entry));
      SweptThen(s, entry, es);
      es := [PurgeCleanup(entry)] + ([PurgeRemove] + es);
    }
  }

  lemma SweptThen(s: State, entry: Entry, es: seq<Event>)
    requires s.purge.Sweeping? && entry in s.purge.found && entry.ref in s.chans
    requires Enabled(s, PurgeCleanup(entry)) && Enabled(Next(s, PurgeCleanup(entry)), PurgeRemove)
    requires Next(Next(s, PurgeCleanup(entry)), PurgeRemove) == Swept(s, entry)
    requires Purges(Swept(s, entry), es, s.purge.found - {entry})
    ensures Purges(s, [PurgeCleanup(entry)] + ([PurgeRemove] + es), s.purge.found)
  {
    ClosedForever(Swept(s, entry), es, entry.ref);
    KeyGone(s.table, s.purge.found, entry);
    RunOne(Next(s, PurgeCleanup(entry)), PurgeRemove, es);
    RunOne(s, PurgeCleanup(entry), [PurgeRemove] + es);
  }

  lemma KeyGone(table: map<Id, Ref>, found: set<Entry>, entry: Entry)
    requires entry in found
    ensures table - {entry.key} - KeysOf(found - {entry}) == table - KeysOf(found)
  {
    assert KeysOf(found) == KeysOf(found - {entry}) + {entry.key} by {
      assert forall e :: e in found <==> e == entry || e in found - {entry};
    }
  }

  /** The entries of channels without members that have been there long enough. */
  ghost function Picked(s: State, entries: set<Entry>, expired: set<Id>): set<Entry> {
    set e | e in entries && e.key in expired && e.ref in s.chans && s.chans[e.ref].members == map[]
  }

  /** Ready to go on: what was found is empty, and all locks are free. */
  ghost predicate MayScan(s: State) {
    && s.purge.Scanning? && AllEmpty(s, s.purge.found)
    && forall e :: e in s.purge.todo ==> Free(s, e.ref) && s.chans[e.ref].config.Some?
  }

  lemma PickedOne(s: State, entry: Entry, expired: set<Id>)
    requires entry.ref in s.chans && s.chans[entry.ref].config.Some?
    ensures Picked(s, {entry}, expired) ==
            if entry.key in expired && s.chans[entry.ref].CanBeCleanedUp() then {entry} else {}
  {
  }

  lemma TestedMayScan(s: State, entry: Entry, expired: set<Id>)
    requires MayScan(s) && entry in s.purge.todo
    ensures MayScan(s.(purge := Scanning(s.purge.todo - {entry}, s.purge.found + Picked(s, {entry}, expired))))
  {
  }

  lemma ScanOne(s: State, entry: Entry, expired: set<Id>)
    requires MayScan(s) && entry in s.purge.todo
    ensures var step := PurgeTest(entry, entry.key in expired);
            var s1 := s.(purge := Scanning(s.purge.todo - {entry}, s.purge.found + Picked(s, {entry}, expired)));
            Enabled(s, step) && Next(s, step) == s1 && MayScan(s1)
  {
    PickedOne(s, entry, expired);
    TestedMayScan(s, entry, expired);
  }

  lemma PickedSplit(s: State, todo: set<Entry>, entry: Entry, expired: set<Id>)
    requires entry in todo
    ensures Picked(s, {entry}, expired) + Picked(s, todo - {entry}, expired) == Picked(s, todo, expired)
  {
  }

  lemma {:induction false} ScanPurges(s: State, expired: set<Id>) returns (es: seq<Event>)
    requires MayScan(s)
    ensures Purges(s, es, s.purge.found + Picked(s, s.purge.todo, expired))
    decreases s.purge.todo
  {
    var Scanning(todo, found) := s.purge;
    var gone := found + Picked(s, todo, expired);
    var step := PurgeSweep;
    if todo == {} {
      assert gone == found;
      es := SweepPurges(Next(s, step));
    } else {
      var entry :| entry in todo;
      step := PurgeTest(entry, entry.key in expired);
      ScanOne(s, entry, expired);
      var s1 := Next(s, step);
      es := ScanPurges(s1, expired);
      PickedSplit(s, todo, entry, expired);
      assert Picked(s1, s1.purge.todo, expired) == Picked(s, todo - {entry}, expired);
      assert s1.purge.found + Picked(s1, s1.purge.todo, expired) == gone;
    }
    PurgesFrom(s, step, es, gone);
    es := [step] + es;
  }

  lemma PurgesFrom(s: State, step: Event, es: seq<Event>, gone: set<Entry>)
    requires Enabled(s, step) && Next(s, step).conns == s.conns && Next(s, step).table == s.table
    requires Purges(Next(s, step), es, gone)
    ensures Purges(s, [step] + es, gone)
  {
    RunOne(s, step, es);
  }

  /** A pass that nothing interrupts closes and takes out of the table exactly the channels without
      members that have been there long enough. */
  lemma PassPurges(s: State, expired: set<Id>) returns (es: seq<Event>)
    requires Inv(s) && s.purge.Resting? && forall k :: k in s.table ==> Free(s, s.table[k])
    ensures PassEnds(s, es) && Run(s, es).conns == s.conns
    ensures forall k :: k in Run(s, es).table <==>
              k in s.table && !(k in expired && s.chans[s.table[k]].members == map[])
    ensures forall k :: k in Run(s, es).table ==> Run(s, es).table[k] == s.table[k]
    ensures forall k :: k in s.table && k !in Run(s, es).table ==>
              s.table[k] in Run(s, es).chans && Run(s, es).chans[s.table[k]].closed
  {
    var s1 := Next(s, PurgeStart);
    es := ScanPurges(s1, expired);
    var gone := Picked(s1, Entries(s), expired);
    assert s1.purge.found + Picked(s1, s1.purge.todo, expired) == gone;
    assert forall k :: k in KeysOf(gone) <==> k in s.table && k in expired && s.chans[s.table[k]].members == map[] by {
      forall k | k in s.table && k in expired && s.chans[s.table[k]].members == map[] ensures k in KeysOf(gone) {
        assert Entry(k, s.table[k]) in gone;
      }
    }
    RunOne(s, PurgeStart, es);
    assert forall k :: k in KeysOf(gone) ==> Entry(k, s.table[k]) in gone;
    es := [PurgeStart] + es;
  }

  /** Once a listed channel was left locked, no pass that begins ever ends; the loop that runs the
      passes also purges keys and users, so that ends too. */
  lemma {:induction false} NoPassEnds(s: State, es: seq<Event>, r: Ref)
    requires Legal(s, es) && s.purge.Resting? && r in s.chans && s.chans[r].locked && s.Listed(r)
    ensures PurgeDone !in es
    decreases es
  {
    if es != [] {
      var s' := Next(s, es[0]);
      LockedStep(s, es[0], r);
      if es[0].PurgeStart? {
        assert Entry(s.chans[r].id, r) in s'.purge.Ahead();
        PassHeldUp(s', es[1..], Entry(s.chans[r].id, r));
      } else {
        ListedStep(s, es[0], r);
        NoPassEnds(s', es[1..], r);
      }
    }
  }

  lemma ListedStep(s: State, e: Event, r: Ref)
    requires Enabled(s, e) && !e.PurgeRemove? && r in s.chans && s.Listed(r)
    ensures r in Next(s, e).chans && Next(s, e).Listed(r)
  {
  }
}
