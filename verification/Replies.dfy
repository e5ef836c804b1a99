/** What the server sends in return for a message, and what becomes of the channels: exactly, and in
    terms of the message, the user and the tables alone (signaling/rtm/webrtc.go:130-515,
    signaling/rtm/channel.go:357-374, signaling/rtm/group.go:34-55). */
module Replies {
  import opened Common
  import opened Messages
  import opened ChannelHash
  import opened WebRtc
  import Channel
  import Rooms

  /** One copy for each of the connections, in order. */
  function Copies(conns: seq<ConnId>, payload: Payload): seq<Send> {
    seq(|conns|, i requires 0 <= i < |conns| => Send(ToConn(conns[i]), payload))
  }

  lemma ToAllIsCopies(conns: seq<ConnId>, payload: Payload)
    ensures ToAll(conns, payload) == Copies(conns, payload)
  {
  }

  lemma {:induction false} ToOthersIsCopies(conns: seq<ConnId>, self: ConnId, payload: Payload)
    ensures ToOthers(conns, self, payload) == Copies(Without(conns, self), payload)
  {
    if conns != [] {
      ToOthersIsCopies(conns[..|conns| - 1], self, payload);
    }
  }

  /** The text of the hash for two ends and a channel. */
  function HashText(k: Crypto, typ: string, a: string, b: string, channel: string): string {
    k.encode(k.mac(HashInput(typ, a, b, channel)))
  }

  function NotFound(replyTo: nat): End {
    Returned(Some(RtmError(NoSessionForUser, "target not found", replyTo)))
  }

  // ---- Call request ----

  /** A call request makes a channel with the caller as its only member, tells the caller, and then goes
      to every connection of the user who is called. */
  lemma RequestExact(env: Env, v: View, c: ConnId, u: User, m: Message, rid: Id)
    requires Vet(Some(u), m) == Request(u)
    ensures var o := Handle(env, v, c, Some(u), m, rid);
            var id := "*" + rid;
            var hash := HashText(env.crypto, m.typ, u.id, m.target, id);
            var data := if env.forced(id) then Some(Extra(None, {}, true)) else None;
            var sent := m.(id := 0, source := u.id, profile := Some(u.Name()),
                           channel := id, hash := hash, data := data);
            var reply := Send(ToConn(c), Reply(m.id, id, hash, data));
            && o.sends == [reply] + (if m.target in v.users then Copies(v.users[m.target], Relay(sent)) else [])
            && o.end == (if m.target in v.users then Returned(None) else NotFound(0))
            && o.view == if id in v.channels then v
                         else v.Set(id, Channel.State(id, Some(Channel.DEFAULT_CONFIG), false, false,
                                                      map[u.id := c], env.forced(id)))
  {
    var id := Rooms.STANDARD_PREFIX + rid;
    if m.target in v.users {
      ToAllIsCopies(v.users[m.target], Relay(RequestRelay(env, u, m, id)));
    } else {
      assert forall xs: seq<Send> :: xs + [] == xs;
    }
  }

  // ---- Answer ----

  /** The answer names a listed channel, passes its check, and can be decoded. */
  predicate Passes(env: Env, v: View, u: User, m: Message) {
    && m.channel in v.channels && m.data.Some? && m.data.value.Answer?
    && var ch := v.channels[m.channel];
       Check(env.crypto, ch.Group(), ch.pipeline, u.id, m).None?
  }

  /** An answer in a group goes, with the hash for the two ends, to the connection the channel holds for
      its target, and changes nothing. */
  lemma GroupAnswerExact(env: Env, v: View, c: ConnId, u: User, m: Message, rid: Id)
    requires Vet(Some(u), m) == Response(u) && Passes(env, v, u, m) && m.group != ""
    ensures var o := Handle(env, v, c, Some(u), m, rid);
            var ch := v.channels[m.channel];
            var sent := m.(source := u.id, id := 0, profile := Some(u.Name()),
                           hash := HashText(env.crypto, m.typ, u.id, m.target, ch.id));
            && o.view == v
            && (if !m.data.value.accept then
                  o.sends == [] && o.end == Returned(Some(Bad("accept required for group call", m)))
                else if ch.locked then o.sends == [] && o.end == Blocked
                else if m.target !in ch.members then o.sends == [] && o.end == NotFound(0)
                else o.sends == [Send(ToConn(ch.members[m.target]), Relay(sent))] && o.end == Returned(None))
  {
  }

  /** Accepting adds the connection to the channel, unless that is closed or has another connection of
      the user that may not be replaced. */
  predicate MayJoin(ch: Channel.State, id: Id, c: ConnId) {
    !ch.closed && (id in ch.members && ch.members[id] != c ==> ch.Swaps())
  }

  function Own(v: View, u: User): seq<ConnId> {
    if u.id in v.users then v.users[u.id] else []
  }

  /** The answer only says that one of the user's devices is busy. */
  predicate OnlyBusy(v: View, u: User, m: Message)
    requires m.data.Some? && m.data.value.Answer?
  {
    !m.data.value.accept && m.data.value.reason == "reject_busy" && |Own(v, u)| > 1
  }

  /** An answer to a call, on a channel whose lock is free. */
  lemma CallAnswerExact(env: Env, v: View, c: ConnId, u: User, m: Message, rid: Id)
    requires Vet(Some(u), m) == Response(u) && Passes(env, v, u, m) && m.group == ""
    requires !v.channels[m.channel].locked
    ensures var o := Handle(env, v, c, Some(u), m, rid);
            var ch := v.channels[m.channel];
            var members := if m.data.value.accept then ch.members[u.id := c] else ch.members;
            var notes := Copies(Without(Own(v, u), c), Cleared(m.channel, m.target));
            var sent := m.(source := u.id, id := 0, profile := Some(u.Name()));
            if m.data.value.accept && !MayJoin(ch, u.id, c) then
              && o.sends == [] && o.view == v.Set(m.channel, ch.(locked := !ch.closed))
              && o.end == Returned(Some(Bad(if ch.closed then "channel is closed" else "id already exists", m)))
            else
              && o.view == v.Set(m.channel, ch.(members := members))
              && (if OnlyBusy(v, u, m) then o.sends == [] && o.end == Returned(None)
                  else if m.target !in members then o.sends == notes && o.end == NotFound(0)
                  else o.sends == notes + [Send(ToConn(members[m.target]), Relay(sent))] && o.end == Returned(None))
  {
    var ch := v.channels[m.channel];
    ToOthersIsCopies(Own(v, u), c, Cleared(m.channel, m.target));
    if m.data.value.accept && u.id in ch.members && ch.members[u.id] == c {
      assert ch.members[u.id := c] == ch.members;
    }
  }

  /** On a channel whose lock was left behind, the handler stops at the first use of the lock. */
  lemma LockedAnswerExact(env: Env, v: View, c: ConnId, u: User, m: Message, rid: Id)
    requires Vet(Some(u), m) == Response(u) && Passes(env, v, u, m) && m.group == ""
    requires v.channels[m.channel].locked
    ensures var o := Handle(env, v, c, Some(u), m, rid);
            && o.view.users == v.users && o.view.channels == v.channels
            && (if m.data.value.accept then o.sends == [] && o.end == Blocked
                else if OnlyBusy(v, u, m) then o.sends == [] && o.end == Returned(None)
                else o.sends == Copies(Without(Own(v, u), c), Cleared(m.channel, m.target)) && o.end == Blocked)
  {
    ToOthersIsCopies(Own(v, u), c, Cleared(m.channel, m.target));
  }

  // ---- Signal and hangup ----

  predicate ToGroup(m: Message) { m.group != "" && m.target == m.group }

  /** The connection the channel has for the target.  A message to the whole group is looked up only
      after a hangup has removed its sender. */
  function Held(ch: Channel.State, u: User, m: Message): Option<ConnId> {
    if m.target in ch.members && m.target != "" && !(ToGroup(m) && m.subtype == SUBTYPE_HANGUP && m.target == u.id)
    then Some(ch.members[m.target]) else None
  }

  /** A signal or hangup that passes, on a channel whose lock is free: it is handed to the pipeline, or
      to the one connection held for the target; a hangup that finds neither goes to every connection
      of the target; otherwise the sender is told that there is no target.  A hangup removes its
      sender from the channel, whoever gets it. */
  lemma SignalExact(env: Env, v: View, c: ConnId, u: User, m: Message, rid: Id)
    requires Vet(Some(u), m) == Signal(u) && m.channel in v.channels && !v.channels[m.channel].locked
    requires var ch := v.channels[m.channel]; Check(env.crypto, ch.Group(), ch.pipeline, u.id, m).None?
    ensures var o := Handle(env, v, c, Some(u), m, rid);
            var ch := v.channels[m.channel];
            var hangup := m.subtype == SUBTYPE_HANGUP;
            var direct := Relay(m.(source := u.id, id := 0));
            && o.view == v.Set(m.channel, if hangup then ch.(members := ch.members - {u.id}) else ch)
            && (if ch.pipeline && m.target != "" then
                  && o.sends == [Send(ToPipeline(ch.id), Relay(m.(source := u.id)))]
                  && o.end == Returned(env.refusal(ToPipeline(ch.id)))
                else if !ch.pipeline && Held(ch, u, m).Some? then
                  && o.sends == [Send(ToConn(Held(ch, u, m).value), direct)]
                  && o.end == Returned(env.refusal(ToConn(Held(ch, u, m).value)))
                else if hangup && !ToGroup(m) && m.target in v.users then
                  o.sends == Copies(v.users[m.target], direct) && o.end == Returned(None)
                else o.sends == [] && o.end == NotFound(m.id))
  {
    if m.target in v.users {
      ToAllIsCopies(v.users[m.target], Relay(m.(source := u.id, id := 0)));
    }
  }

  /** On a channel whose lock was left behind only a signal that needs no lock gets through. */
  lemma LockedSignalExact(env: Env, v: View, c: ConnId, u: User, m: Message, rid: Id)
    requires Vet(Some(u), m) == Signal(u) && m.channel in v.channels && v.channels[m.channel].locked
    requires var ch := v.channels[m.channel]; Check(env.crypto, ch.Group(), ch.pipeline, u.id, m).None?
    ensures var o := Handle(env, v, c, Some(u), m, rid);
            var ch := v.channels[m.channel];
            && o.view.users == v.users && o.view.channels == v.channels
            && (if m.subtype != SUBTYPE_HANGUP && ToGroup(m) && ch.pipeline then
                  && o.sends == [Send(ToPipeline(ch.id), Relay(m.(source := u.id)))]
                  && o.end == Returned(env.refusal(ToPipeline(ch.id)))
                else if m.subtype != SUBTYPE_HANGUP && m.target == "" then o.sends == [] && o.end == NotFound(m.id)
                else o.sends == [] && o.end == Blocked)
  {
  }

  /** Answers, signals and hangups for a channel that is not listed, or that do not pass its check, do
      nothing but return the error. */
  lemma RefusedExact(env: Env, v: View, c: ConnId, u: User, m: Message, rid: Id)
    requires Vet(Some(u), m) == Response(u) || Vet(Some(u), m) == Signal(u)
    ensures var o := Handle(env, v, c, Some(u), m, rid);
            && (m.channel !in v.channels ==> o == Outcome(v, [], Returned(Some(Bad("channel not found", m)))))
            && (m.channel in v.channels ==>
                  var ch := v.channels[m.channel];
                  var err := Check(env.crypto, ch.Group(), ch.pipeline, u.id, m);
                  err.Some? ==> o == Outcome(v, [], Returned(err)))
  {
  }

  // ---- Group join ----

  /** The channel a group join finds under the group's id, or makes. */
  function GroupChannel(env: Env, v: View, group: string): Channel.State {
    if "@" + group in v.channels then v.channels["@" + group]
    else Channel.State("@" + group, Some(Channel.Config(group, true)), false, false, map[], env.forced("@" + group))
  }

  /** What becomes of the channel, whether or not the user may join. */
  function JoinedChannel(ch: Channel.State, u: User, c: ConnId): Channel.State {
    if ch.locked || (!u.MayCreate() && ch.members == map[]) then ch
    else if MayJoin(ch, u.id, c) then ch.(members := ch.members[u.id := c])
    else ch.(locked := !ch.closed)
  }

  lemma JoinedView(env: Env, v: View, key: Id, c: ConnId, u: User, m: Message)
    requires key in v.channels
    ensures JoinListed(env, v, key, c, u, m).view == v.Set(key, JoinedChannel(v.channels[key], u, c))
  {
    var ch := v.channels[key];
    assert v.channels[key := ch] == v.channels;
    if u.id in ch.members && ch.members[u.id] == c {
      assert ch.members[u.id := c] == ch.members;
    }
  }

  lemma JoinedSends(env: Env, v: View, key: Id, c: ConnId, u: User, m: Message)
    requires key in v.channels && !v.channels[key].locked
    ensures var o := JoinListed(env, v, key, c, u, m);
            var ch := v.channels[key];
            var reply := Reply(m.id, ch.id, HashText(env.crypto, m.typ, u.id, m.group, ch.id),
                               Some(Extra(Some(m.group), ch.members.Keys + {u.id}, ch.pipeline)));
            if !u.MayCreate() && ch.members == map[] then
              o.sends == [] && o.end == Returned(Some(RtmError(CreateRestricted, "access denied", m.id)))
            else if !MayJoin(ch, u.id, c) then
              && o.sends == []
              && o.end == Returned(Some(Bad(if ch.closed then "channel is closed" else "id already exists", m)))
            else
              && o.end == Returned(None)
              && o.sends == (if u.id in ch.members && ch.members[u.id] != c
                             then [Send(ToConn(ch.members[u.id]), TakenOver(ch.id))] else [])
                            + [Send(ToConn(c), reply)]
  {
    var ch := v.channels[key];
    assert ch.members[u.id := c].Keys == ch.members.Keys + {u.id};
    assert u.id in ch.members ==> ch.members.Keys + {u.id} == ch.members.Keys;
  }

  lemma GroupIsJoin(env: Env, v: View, c: ConnId, u: User, m: Message, rid: Id)
    requires Vet(Some(u), m) == Group(u)
    ensures Handle(env, v, c, Some(u), m, rid) ==
            JoinListed(env, v.Set("@" + m.group, GroupChannel(env, v, m.group)), "@" + m.group, c, u, m)
  {
  }

  /** A group join, on a channel whose lock is free: whoever may join becomes a member, in place of an
      earlier connection of the same user, which is told so; and gets channel, hash and exactly the
      ids of all members.  Without the right to create channels nobody joins an empty one. */
  lemma GroupExact(env: Env, v: View, c: ConnId, u: User, m: Message, rid: Id)
    requires Vet(Some(u), m) == Group(u) && !GroupChannel(env, v, m.group).locked
    ensures var o := Handle(env, v, c, Some(u), m, rid);
            var ch := GroupChannel(env, v, m.group);
            var reply := Reply(m.id, ch.id, HashText(env.crypto, m.typ, u.id, m.group, ch.id),
                               Some(Extra(Some(m.group), ch.members.Keys + {u.id}, ch.pipeline)));
            && o.view.users == v.users && o.view.channels == v.channels["@" + m.group := JoinedChannel(ch, u, c)]
            && (if !u.MayCreate() && ch.members == map[] then
                  o.sends == [] && o.end == Returned(Some(RtmError(CreateRestricted, "access denied", m.id)))
                else if !MayJoin(ch, u.id, c) then
                  && o.sends == []
                  && o.end == Returned(Some(Bad(if ch.closed then "channel is closed" else "id already exists", m)))
                else
                  && o.end == Returned(None)
                  && o.sends == (if u.id in ch.members && ch.members[u.id] != c
                                 then [Send(ToConn(ch.members[u.id]), TakenOver(ch.id))] else [])
                                + [Send(ToConn(c), reply)])
  {
    var key, ch := "@" + m.group, GroupChannel(env, v, m.group);
    GroupIsJoin(env, v, c, u, m, rid);
    JoinedView(env, v.Set(key, ch), key, c, u, m);
    JoinedSends(env, v.Set(key, ch), key, c, u, m);
  }

  // ---- Confined users ----

  /** Listed channels have the group their id stands for (Rooms.ListedGroup, over every run). */
  ghost predicate Named(v: View) {
    forall k :: k in v.channels ==> v.channels[k].Group() == Rooms.KeyGroup(k)
  }

  /** The channel a message is about. */
  function Subject(m: Message): Id {
    if m.subtype == SUBTYPE_GROUP then "@" + m.group else m.channel
  }

  /** Whatever a confined user sends: if the server sends or changes anything at all, it is about a
      listed channel of one of the user's groups, and no other channel changes. */
  lemma ConfinedToOwnGroups(env: Env, v: View, c: ConnId, u: User, groups: set<string>, m: Message, rid: Id)
    requires u.ConfinedTo(groups) && Named(v)
    ensures var o := Handle(env, v, c, Some(u), m, rid);
            o.sends != [] || o.view != v ==>
              && Subject(m) in o.view.channels && o.view.channels[Subject(m)].Group() in groups
              && o.view.users == v.users
              && forall k :: k != Subject(m) ==>
                   (k in o.view.channels <==> k in v.channels)
                   && (k in v.channels ==> o.view.channels[k] == v.channels[k])
  {
    ConfinedVerdict(u, groups, m);
    VerdictIff(Some(u), m);
    match Vet(Some(u), m) {
      case Group(_) => ConfinedJoin(env, v, c, u, m);
      case Response(_) => ConfinedAnswer(env, v, c, u, groups, m);
      case Signal(_) => ConfinedSignal(env, v, u, groups, m);
      case _ =>
    }
  }

  lemma ConfinedJoin(env: Env, v: View, c: ConnId, u: User, m: Message)
    requires Named(v)
    ensures var o := HandleGroup(env, v, c, u, m);
            && "@" + m.group in o.view.channels && o.view.channels["@" + m.group].Group() == m.group
            && o.view.users == v.users
            && forall k :: k != "@" + m.group ==>
                 (k in o.view.channels <==> k in v.channels)
                 && (k in v.channels ==> o.view.channels[k] == v.channels[k])
  {
    var key, ch := "@" + m.group, GroupChannel(env, v, m.group);
    assert Rooms.KeyGroup(key) == m.group by { assert key[1..] == m.group; }
    JoinedView(env, v.Set(key, ch), key, c, u, m);
  }

  lemma ConfinedAnswer(env: Env, v: View, c: ConnId, u: User, groups: set<string>, m: Message)
    requires m.group in groups && m.group != ""
    ensures var o := HandleResponse(env, v, c, u, m);
            && o.view == v
            && (o.sends != [] ==> m.channel in v.channels && v.channels[m.channel].Group() in groups)
  {
    if m.channel in v.channels {
      var ch := v.channels[m.channel];
      CheckPassesIff(env.crypto, ch.Group(), ch.pipeline, u.id, m);
    }
  }

  lemma ConfinedSignal(env: Env, v: View, u: User, groups: set<string>, m: Message)
    requires m.group in groups && m.group != ""
    ensures var o := HandleSignal(env, v, u, m);
            o.sends != [] || o.view != v ==>
              && m.channel in v.channels && m.channel in o.view.channels
              && o.view.channels[m.channel].Group() in groups && o.view.users == v.users
              && forall k :: k != m.channel ==>
                   (k in o.view.channels <==> k in v.channels)
                   && (k in v.channels ==> o.view.channels[k] == v.channels[k])
  {
    if m.channel in v.channels {
      var ch := v.channels[m.channel];
      CheckPassesIff(env.crypto, ch.Group(), ch.pipeline, u.id, m);
    }
  }
}
