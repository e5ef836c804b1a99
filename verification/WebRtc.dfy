/** Handling one WebRTC message of a client (signaling/rtm/webrtc.go:113-522, with Forward of
    signaling/rtm/channel.go:357-374).

    `Handle` gives the effect of a message on the channel table and the messages the server sends
    in return; class Manager is the handler itself.  Sends are attempts, which a full or closed
    connection refuses (module Connection); only Forward tells the client so. */
module WebRtc {
  import opened Common
  import opened Messages
  import opened ChannelHash
  import Channel
  import Rooms

  type ConnId = Channel.ConnId
  type Id = Channel.Id

  /** `forced` tells which channel ids are routed through an MCU pipeline, `refusal` the error of a
      send, if any. */
  datatype Env = Env(crypto: Crypto, forced: Id -> bool, refusal: Dest -> Option<Error>)

  datatype Payload =
    | Reply(replyTo: nat, channel: Id, hash: string, data: Option<Data>)
    | Relay(m: Message)                    // a client's message, passed on
    | TakenOver(channel: Id)               // to a connection replaced in a group
    | Cleared(channel: Id, source: Id)     // to a user's other connections once a call is answered

  datatype Dest = ToConn(conn: ConnId) | ToPipeline(channel: Id)
  datatype Send = Send(dest: Dest, payload: Payload)

  datatype View = View(channels: map<Id, Channel.State>, users: map<Id, seq<ConnId>>)
  {
    function Set(key: Id, ch: Channel.State): View {
      this.(channels := channels[key := ch])
    }
  }

  /** How the handler ends: it returns, waits for a channel lock that is never released, or panics. */
  datatype End = Returned(err: Option<Error>) | Blocked | Panicked

  datatype Outcome = Outcome(view: View, sends: seq<Send>, end: End)

  function Done(view: View, sends: seq<Send>, err: Option<Error>): Outcome { Outcome(view, sends, Returned(err)) }
  function Stuck(view: View, sends: seq<Send>): Outcome { Outcome(view, sends, Blocked) }

  function ToAll(conns: seq<ConnId>, payload: Payload): (sends: seq<Send>)
    ensures |sends| == |conns| && forall i :: 0 <= i < |conns| ==> sends[i] == Send(ToConn(conns[i]), payload)
  {
    seq(|conns|, i requires 0 <= i < |conns| => Send(ToConn(conns[i]), payload))
  }

  /** A payload for all connections but one, keeping their order. */
  function ToOthers(conns: seq<ConnId>, self: ConnId, payload: Payload): seq<Send> {
    if conns == [] then []
    else if conns[|conns| - 1] == self then ToOthers(conns[..|conns| - 1], self, payload)
    else ToOthers(conns[..|conns| - 1], self, payload) + [Send(ToConn(conns[|conns| - 1]), payload)]
  }

  function NoSession(replyTo: nat): Error {
    RtmError(NoSessionForUser, "target not found", replyTo)
  }

  function AddError(r: Channel.AddResult, m: Message): Error {
    Bad(if r.ChannelClosed? then "channel is closed" else "id already exists", m)
  }

  /** A replaced connection is told so; the new member gets channel, hash and the list of members. */
  function Welcomes(ch: Channel.State, r: Channel.AddResult, c: ConnId, m: Message, hash: string): seq<Send> {
    (if r.Replaced? then [Send(ToConn(r.former), TakenOver(ch.id))] else [])
    + [Send(ToConn(c), Reply(m.id, ch.id, hash, Some(Extra(Some(m.group), ch.members.Keys, ch.pipeline))))]
  }

  function Admitted(v: View, key: Id, c: ConnId, u: User, m: Message, hash: string): Outcome
    requires key in v.channels
  {
    var r := Channel.TryAdd(v.channels[key], u.id, c);
    var ch := Channel.AfterAdd(v.channels[key], u.id, c);
    if r.Ok() then Done(v.Set(key, ch), Welcomes(ch, r, c, m, hash), None)
    else Done(v.Set(key, ch), [], Some(AddError(r, m)))
  }

  /** A group join, once the channel is listed under `key`. */
  function JoinListed(env: Env, v: View, key: Id, c: ConnId, u: User, m: Message): Outcome
    requires key in v.channels
  {
    var ch := v.channels[key];
    if ch.locked then Stuck(v, [])
    else if !u.MayCreate() && |ch.members| == 0 then
      Done(v, [], Some(RtmError(CreateRestricted, "access denied", m.id)))
    else Admitted(v, key, c, u, m, Issue(env.crypto, m.typ, u.id, m.group, ch.id))
  }

  function HandleGroup(env: Env, v: View, c: ConnId, u: User, m: Message): Outcome {
    var key := Rooms.GroupKey(m.group);
    var ch := if key in v.channels then v.channels[key]
              else Channel.New(key, Some(Channel.Config(m.group, true)), env.forced(key));
    JoinListed(env, v.Set(key, ch), key, c, u, m)
  }

  /** What goes out for a call request: the message with source, channel, hash and profile added. */
  function RequestRelay(env: Env, u: User, m: Message, id: Id): Message {
    m.(id := 0, source := u.id, channel := id, hash := Issue(env.crypto, m.typ, u.id, m.target, id),
       data := if env.forced(id) then Some(Extra(None, {}, true)) else None, profile := Some(u.Name()))
  }

  function HandleRequest(env: Env, v: View, c: ConnId, u: User, m: Message, rid: Id): Outcome {
    var id := Rooms.STANDARD_PREFIX + rid;
    var ch := Channel.AfterAdd(Channel.New(id, None, env.forced(id)), u.id, c);
    var v' := if id in v.channels then v else v.Set(id, ch);
    var relay := RequestRelay(env, u, m, id);
    var reply := Send(ToConn(c), Reply(m.id, id, relay.hash, relay.data));
    if m.target !in v.users then Done(v', [reply], Some(NoSession(0)))
    else Done(v', [reply] + ToAll(v.users[m.target], Relay(relay)), None)
  }

  /** The last part of an answer: it goes to the connection the channel holds for the target. */
  function Answered(v: View, ch: Channel.State, sends: seq<Send>, u: User, m: Message): Outcome {
    if ch.locked then Stuck(v, sends)
    else if m.target !in ch.members then Done(v, sends, Some(NoSession(0)))
    else
      var relay := m.(source := u.id, id := 0, profile := Some(u.Name()));
      Done(v, sends + [Send(ToConn(ch.members[m.target]), Relay(relay))], None)
  }

  /** Answer to a call between two users: accepting joins the channel, and the user's other
      connections are told that the call has been answered. */
  function CallAnswer(v: View, c: ConnId, u: User, m: Message): Outcome
    requires m.channel in v.channels && m.data.Some? && m.data.value.Answer?
  {
    var ch, accept := v.channels[m.channel], m.data.value.accept;
    if accept && ch.locked then Stuck(v, [])
    else
      var r := Channel.TryAdd(ch, u.id, c);
      var ch' := if accept then Channel.AfterAdd(ch, u.id, c) else ch;
      var v' := v.Set(m.channel, ch');
      if accept && !r.Ok() then Done(v', [], Some(AddError(r, m)))
      else Announced(v', c, u, m)
  }

  /** The answer is made known, unless it only says that one of several devices is busy. */
  function Announced(v: View, c: ConnId, u: User, m: Message): Outcome
    requires m.channel in v.channels && m.data.Some? && m.data.value.Answer?
  {
    var ch := v.channels[m.channel];
    if u.id !in v.users then Answered(v, ch, [], u, m)
    else if !m.data.value.accept && m.data.value.reason == "reject_busy" && |v.users[u.id]| > 1 then Done(v, [], None)
    else Answered(v, ch, ToOthers(v.users[u.id], c, Cleared(m.channel, m.target)), u, m)
  }

  function HandleResponse(env: Env, v: View, c: ConnId, u: User, m: Message): Outcome {
    if m.channel !in v.channels then Done(v, [], Some(Bad("channel not found", m)))
    else
      var ch := v.channels[m.channel];
      var err := Check(env.crypto, ch.Group(), ch.pipeline, u.id, m);
      if err.Some? then Done(v, [], err)
      else if m.data == Some(Null) then Outcome(v, [], Panicked)
      else if !(m.data.Some? && m.data.value.Answer?) then Done(v, [], Some(PlainError("cannot decode accept data")))
      else if m.group == "" then CallAnswer(v, c, u, m)
      else if !m.data.value.accept then Done(v, [], Some(Bad("accept required for group call", m)))
      else Answered(v, ch, [], u, m.(hash := Issue(env.crypto, m.typ, u.id, m.target, ch.id)))
  }

  function Forward(env: Env, v: View, ch: Channel.State, source: Id, conn: Option<ConnId>, m: Message): Outcome {
    if ch.pipeline then Done(v, [Send(ToPipeline(ch.id), Relay(m.(source := source)))], env.refusal(ToPipeline(ch.id)))
    else if conn.None? && ch.locked then Stuck(v, [])
    else if conn.None? && m.target !in ch.members then Done(v, [], Some(NoSession(m.id)))
    else
      var dest := ToConn(if conn.Some? then conn.value else ch.members[m.target]);
      Done(v, [Send(dest, Relay(m.(source := source, id := 0)))], env.refusal(dest))
  }

  /** The last part of a signal or hangup, where `ok` tells that the channel knows where to send it. */
  function Dispatched(env: Env, v: View, u: User, m: Message, conn: Option<ConnId>, ok: bool): Outcome
    requires m.channel in v.channels
  {
    if ok then Forward(env, v, v.channels[m.channel], u.id, conn, m)
    else if m.subtype != SUBTYPE_HANGUP || m.target !in v.users then Done(v, [], Some(NoSession(m.id)))
    else Done(v, ToAll(v.users[m.target], Relay(m.(source := u.id, id := 0))), None)
  }

  /** Signal or hangup, after the tests. */
  function SignalChecked(env: Env, v: View, u: User, m: Message): Outcome
    requires m.channel in v.channels
  {
    var ch := v.channels[m.channel];
    var toGroup := m.group != "" && m.target == m.group;
    var hangup := m.subtype == SUBTYPE_HANGUP;
    if ch.locked && (hangup || (!toGroup && m.target != "")) then Stuck(v, [])
    else
      var conn := if !toGroup && m.target != "" && m.target in ch.members then Some(ch.members[m.target]) else None;
      var ok := toGroup || (m.target != "" && (conn.Some? || ch.pipeline));
      Dispatched(env, v.Set(m.channel, if hangup then Channel.AfterRemove(ch, u.id) else ch), u, m, conn, ok)
  }

  function HandleSignal(env: Env, v: View, u: User, m: Message): Outcome {
    if m.channel !in v.channels then Done(v, [], Some(Bad("channel not found", m)))
    else
      var ch := v.channels[m.channel];
      var err := Check(env.crypto, ch.Group(), ch.pipeline, u.id, m);
      if err.Some? then Done(v, [], err) else SignalChecked(env, v, u, m)
  }

  function Handle(env: Env, v: View, c: ConnId, ur: Option<User>, m: Message, rid: Id): Outcome {
    match Vet(ur, m)
    case Refuse(err) => Done(v, [], Some(err))
    case Group(u) => HandleGroup(env, v, c, u, m)
    case Request(u) => HandleRequest(env, v, c, u, m, rid)
    case Response(u) => HandleResponse(env, v, c, u, m)
    case Signal(u) => HandleSignal(env, v, u, m)
  }

  // ---- What every relayed message satisfies ----

  /** `x` is the client's message `m`, sent on for user `u`.  The server adds the source and resets the
      id.  A request also gets the channel made for it, the hash for the two ends and the note on the
      pipeline; an answer keeps its hash, or in a group gets the one for the two ends; both get the
      sender's profile.  Nothing else differs. */
  ghost predicate SentOnFor(env: Env, v: View, v': View, u: User, m: Message, verdict: Verdict, x: Message) {
    match verdict
    case Request(_) =>
      && x.channel in v'.channels && Rooms.STANDARD_PREFIX <= x.channel
      && x == m.(source := u.id, id := 0, profile := Some(u.Name()), channel := x.channel,
                 hash := Issue(env.crypto, m.typ, u.id, m.target, x.channel),
                 data := if env.forced(x.channel) then Some(Extra(None, {}, true)) else None)
    case Response(_) =>
      && m.channel in v.channels
      && x == m.(source := u.id, id := 0, profile := Some(u.Name()),
                 hash := if m.group == "" then m.hash
                         else Issue(env.crypto, m.typ, u.id, m.target, v.channels[m.channel].id))
    case Signal(_) => x == m.(source := u.id, id := x.id)
    case _ => false
  }

  /** Where a relayed message may go.  A request goes to the target's connections, an answer to the
      connection its channel holds for the target; so does a signal or hangup, unless the channel is
      piped, or (hangup of a call not yet picked up) it holds none. */
  ghost predicate RightPlace(v: View, v': View, m: Message, verdict: Verdict, dest: Dest) {
    match verdict
    case Request(_) => dest.ToConn? && m.target in v.users && dest.conn in v.users[m.target]
    case Response(_) => dest.ToConn? && m.channel in v'.channels && v'.channels[m.channel].Holds(m.target, dest.conn)
    case Signal(u) =>
      && m.channel in v.channels
      && var ch := v.channels[m.channel];
         if dest.ToPipeline? then ch.pipeline && dest.channel == ch.id
         else
           || (!ch.pipeline && ch.Holds(m.target, dest.conn))
           || (&& m.subtype == SUBTYPE_HANGUP && (m.target == "" || (!ch.pipeline && m.target !in ch.members))
               && m.target in v.users && dest.conn in v.users[m.target])
    case _ => false
  }

  lemma {:induction false} ToOthersNoRelay(conns: seq<ConnId>, self: ConnId, payload: Payload)
    ensures forall x :: x in ToOthers(conns, self, payload) ==>
              x.payload == payload && x.dest.ToConn? && x.dest.conn in conns && x.dest.conn != self
  {
    if conns != [] {
      ToOthersNoRelay(conns[..|conns| - 1], self, payload);
    }
  }

  ghost predicate RelayOk(env: Env, v: View, v': View, u: User, m: Message, verdict: Verdict, x: Send) {
    x.payload.Relay? ==>
      && SentOnFor(env, v, v', u, m, verdict, x.payload.m)
      && x.payload.m.id == (if x.dest.ToConn? then 0 else m.id)
      && RightPlace(v, v', m, verdict, x.dest)
  }

  lemma RequestRelayOk(env: Env, v: View, c: ConnId, u: User, m: Message, rid: Id, x: Send)
    requires x in HandleRequest(env, v, c, u, m, rid).sends
    ensures RelayOk(env, v, HandleRequest(env, v, c, u, m, rid).view, u, m, Request(u), x)
  {
  }

  /** `m'` is the answer, with the hash it is sent on with. */
  lemma AnsweredOk(v: View, ch: Channel.State, sends: seq<Send>, u: User, m': Message, x: Send)
    requires x in Answered(v, ch, sends, u, m').sends && x.payload.Relay?
    requires forall y :: y in sends ==> !y.payload.Relay?
    ensures x.payload.m == m'.(source := u.id, id := 0, profile := Some(u.Name()))
    ensures x.dest.ToConn? && ch.Holds(m'.target, x.dest.conn)
    ensures Answered(v, ch, sends, u, m').view == v
  {
  }

  lemma CallAnswerRelays(v: View, c: ConnId, u: User, m: Message, x: Send)
    requires m.channel in v.channels && m.data.Some? && m.data.value.Answer?
    requires x in CallAnswer(v, c, u, m).sends && x.payload.Relay?
    ensures x.payload.m == m.(source := u.id, id := 0, profile := Some(u.Name()))
    ensures var v' := CallAnswer(v, c, u, m).view;
            x.dest.ToConn? && m.channel in v'.channels && v'.channels[m.channel].Holds(m.target, x.dest.conn)
  {
    var ch := v.channels[m.channel];
    var ch' := if m.data.value.accept then Channel.AfterAdd(ch, u.id, c) else ch;
    var cleared := if u.id in v.users then ToOthers(v.users[u.id], c, Cleared(m.channel, m.target)) else [];
    if u.id in v.users {
      ToOthersNoRelay(v.users[u.id], c, Cleared(m.channel, m.target));
    }
    AnsweredOk(v.Set(m.channel, ch'), ch', cleared, u, m, x);
  }

  lemma ResponseRelayOk(env: Env, v: View, c: ConnId, u: User, m: Message, x: Send)
    requires x in HandleResponse(env, v, c, u, m).sends
    ensures RelayOk(env, v, HandleResponse(env, v, c, u, m).view, u, m, Response(u), x)
  {
    if x.payload.Relay? {
      var ch := v.channels[m.channel];
      if m.group != "" {
        AnsweredOk(v, ch, [], u, m.(hash := Issue(env.crypto, m.typ, u.id, m.target, ch.id)), x);
      } else {
        CallAnswerRelays(v, c, u, m, x);
      }
    }
  }

  lemma SignalRelayOk(env: Env, v: View, u: User, m: Message, x: Send)
    requires x in HandleSignal(env, v, u, m).sends
    ensures RelayOk(env, v, HandleSignal(env, v, u, m).view, u, m, Signal(u), x)
  {
  }

  /** Every client message the server passes on carries the bound user's id as source and, unless a
      pipeline takes it, the id 0; it is otherwise the client's own, up to what the server has to add,
      and reaches only the right place. */
  lemma RelaySound(env: Env, v: View, c: ConnId, u: User, m: Message, rid: Id, x: Send)
    requires x in Handle(env, v, c, Some(u), m, rid).sends
    ensures RelayOk(env, v, Handle(env, v, c, Some(u), m, rid).view, u, m, Vet(Some(u), m), x)
  {
    VerdictUser(u, m);
    match Vet(Some(u), m) {
      case Refuse(_) =>
      case Group(_) => GroupRelaysNothing(env, v, c, u, m, x);
      case Request(_) => RequestRelayOk(env, v, c, u, m, rid, x);
      case Response(_) => ResponseRelayOk(env, v, c, u, m, x);
      case Signal(_) => SignalRelayOk(env, v, u, m, x);
    }
  }

  lemma VerdictUser(u: User, m: Message)
    ensures var verdict := Vet(Some(u), m); verdict.Refuse? || verdict.user == u
  {
  }

  lemma GroupRelaysNothing(env: Env, v: View, c: ConnId, u: User, m: Message, x: Send)
    requires x in HandleGroup(env, v, c, u, m).sends
    ensures !x.payload.Relay?
  {
  }

  /** A connection without a user can make the server send nothing at all. */
  lemma NoUserNothingSent(env: Env, v: View, c: ConnId, m: Message, rid: Id)
    ensures Handle(env, v, c, None, m, rid).sends == [] && Handle(env, v, c, None, m, rid).view == v
  {
  }

  /** "The handler copes with every message" holds but for answers whose data is the JSON value null:
      the handler decodes it to a nil record and panics, having changed and sent nothing, exactly if
      such an answer gets past the check of its hash. */
  lemma PanicsIff(env: Env, v: View, c: ConnId, ur: Option<User>, m: Message, rid: Id)
    ensures var o := Handle(env, v, c, ur, m, rid);
            && (o.end.Panicked? <==>
                  && Vet(ur, m).Response? && m.data == Some(Null) && m.channel in v.channels
                  && var ch := v.channels[m.channel];
                     Check(env.crypto, ch.Group(), ch.pipeline, ur.value.id, m).None?)
            && (o.end.Panicked? ==> o.view == v && o.sends == [])
  {
    ResponseHasUser(ur, m);
    if Vet(ur, m).Response? {
      OnlyNullPanics(v, c, ur.value, m);
    }
  }

  /** For instance: whoever is called answers with null and the hash of the call. */
  lemma NullAnswerPanics(env: Env, v: View, c: ConnId, u: User, m: Message, rid: Id)
    requires Faithful(env.crypto) && Vet(Some(u), m).Response? && m.data == Some(Null)
    requires m.group == "" && m.channel in v.channels
    requires m.hash == Issue(env.crypto, m.typ, m.target, u.id, m.channel)
    ensures Handle(env, v, c, Some(u), m, rid).end.Panicked?
  {
    var ch := v.channels[m.channel];
    PanicsIff(env, v, c, Some(u), m, rid);
    PeerHashHonoured(env.crypto, ch.Group(), ch.pipeline, m.target, u.id, u.id, m);
  }

  lemma ResponseHasUser(ur: Option<User>, m: Message)
    ensures Vet(ur, m).Response? ==> ur.Some? && Vet(ur, m).user == ur.value
  {
  }

  lemma OnlyNullPanics(v: View, c: ConnId, u: User, m: Message)
    ensures m.channel in v.channels && m.data.Some? && m.data.value.Answer? ==> !CallAnswer(v, c, u, m).end.Panicked?
  {
  }

  // ---- Every hash the server hands out is honoured ----
  //
  // The channel `ch` below is any state the channel may be in when the hash comes back; that listed
  // channels keep what is asked of it, over every run, is shown in module Refinement.

  /** `back` returns the hash of the relayed message `sent` to its sender, without a group or for the
      group that both the message and the channel have. */
  ghost predicate Returns(sent: Message, group: string, back: Message) {
    && back.typ == sent.typ && back.channel == sent.channel && back.hash == sent.hash
    && back.target == sent.source
    && (back.group == "" || back.group == sent.group == group)
  }

  /** The receiver of a relayed call request may return its hash to the caller. */
  lemma RequestHashHonoured(
      env: Env, v: View, c: ConnId, u: User, m: Message, rid: Id, x: Send, back: Message, ch: Channel.State)
    requires Faithful(env.crypto) && u.id != "" && Vet(Some(u), m).Request?
    requires x in HandleRequest(env, v, c, u, m, rid).sends && x.payload.Relay?
    requires Returns(x.payload.m, ch.Group(), back)
    ensures Check(env.crypto, ch.Group(), ch.pipeline, x.payload.m.target, back).None?
  {
    RequestRelayOk(env, v, c, u, m, rid, x);
    PeerHashHonoured(env.crypto, ch.Group(), ch.pipeline, u.id, m.target, m.target, back);
  }

  /** So may the receiver of a relayed answer, whatever hash the answer came with; but where a pipeline
      made the server pass the hash on unseen, it has to be there still. */
  lemma ResponseHashHonoured(
      env: Env, v: View, c: ConnId, u: User, m: Message, x: Send, back: Message, ch: Channel.State)
    requires Faithful(env.crypto) && u.id != "" && Vet(Some(u), m).Response?
    requires x in HandleResponse(env, v, c, u, m).sends && x.payload.Relay?
    requires m.channel in v.channels && v.channels[m.channel].id == m.channel
    requires m.group == "" && v.channels[m.channel].pipeline ==> ch.pipeline
    requires Returns(x.payload.m, ch.Group(), back)
    ensures Check(env.crypto, ch.Group(), ch.pipeline, x.payload.m.target, back).None?
  {
    ResponseRelayOk(env, v, c, u, m, x);
    if m.group != "" {
      PeerHashHonoured(env.crypto, ch.Group(), ch.pipeline, u.id, m.target, m.target, back);
    } else {
      HashInputSymmetric(m.typ, u.id, m.target, m.channel);
    }
  }

  /** The reply to a group join goes to the joiner, who is a member then. */
  lemma GroupReplyIs(env: Env, v: View, c: ConnId, u: User, m: Message, x: Send)
    requires var key := Rooms.GroupKey(m.group); key in v.channels ==> v.channels[key].id == key
    requires x in HandleGroup(env, v, c, u, m).sends && x.payload.Reply?
    ensures var key := Rooms.GroupKey(m.group);
            && x.dest == ToConn(c) && x.payload.channel == key
            && x.payload.hash == Issue(env.crypto, m.typ, u.id, m.group, key)
            && key in HandleGroup(env, v, c, u, m).view.channels
            && HandleGroup(env, v, c, u, m).view.channels[key].Holds(u.id, c)
  {
  }

  /** The hash in the server's reply to a group join is honoured for the member's messages to the
      group, on any channel of that group. */
  lemma GroupReplyHashHonoured(
      env: Env, v: View, c: ConnId, u: User, m: Message, x: Send, next: Message, ch: Channel.State)
    requires Faithful(env.crypto) && Vet(Some(u), m).Group?
    requires var key := Rooms.GroupKey(m.group); key in v.channels ==> v.channels[key].id == key
    requires x in HandleGroup(env, v, c, u, m).sends && x.payload.Reply?
    requires next.typ == m.typ && next.channel == x.payload.channel && next.hash == x.payload.hash
    requires next.group == m.group == ch.Group()
    ensures Check(env.crypto, ch.Group(), ch.pipeline, u.id, next).None?
  {
    GroupReplyIs(env, v, c, u, m, x);
    assert m.group != "";
    GroupHashHonoured(env.crypto, m.group, ch.pipeline, u.id, next);
  }

  /** The hash in the server's reply to a call request is honoured for the peer that was called. */
  lemma RequestReplyHashHonoured(
      env: Env, v: View, c: ConnId, u: User, m: Message, rid: Id, x: Send, next: Message, ch: Channel.State)
    requires Faithful(env.crypto) && Vet(Some(u), m).Request?
    requires x in HandleRequest(env, v, c, u, m, rid).sends && x.payload.Reply?
    requires next.typ == m.typ && next.channel == x.payload.channel && next.hash == x.payload.hash
    requires next.group == "" && next.target == m.target
    ensures x.dest == ToConn(c) && x.payload.channel in HandleRequest(env, v, c, u, m, rid).view.channels
    ensures Check(env.crypto, ch.Group(), ch.pipeline, u.id, next).None?
  {
    PeerHashHonoured(env.crypto, ch.Group(), ch.pipeline, u.id, m.target, u.id, next);
  }

  // ---- The handler itself ----

  class Manager {
    var channels: map<Id, Channel.Channel>
    var users: map<Id, seq<ConnId>>
    var outbox: seq<Send>

    /** Channels are listed under their own ids, so no channel is listed twice. */
    ghost predicate Valid()
      reads this`channels
    {
      forall k :: k in channels ==> channels[k].id == k
    }

    ghost function Abs(): View
      reads this`channels, this`users, channels.Values
    {
      View(map k | k in channels :: channels[k].Abs(), users)
    }

    constructor ()
      ensures Valid() && Abs() == View(map[], map[]) && outbox == []
    {
      channels, users, outbox := map[], map[], [];
    }

    method SendTo(dest: Dest, payload: Payload)
      modifies this`outbox
      ensures outbox == old(outbox) + [Send(dest, payload)]
    {
      outbox := outbox + [Send(dest, payload)];
    }

    method SendAll(conns: seq<ConnId>, payload: Payload)
      modifies this`outbox
      ensures outbox == old(outbox) + ToAll(conns, payload)
    {
      for i := 0 to |conns|
        invariant outbox == old(outbox) + ToAll(conns, payload)[..i]
      {
        SendTo(ToConn(conns[i]), payload);
      }
    }

    method SendOthers(conns: seq<ConnId>, self: ConnId, payload: Payload)
      modifies this`outbox
      ensures outbox == old(outbox) + ToOthers(conns, self, payload)
    {
      for i := 0 to |conns|
        invariant outbox == old(outbox) + ToOthers(conns[..i], self, payload)
      {
        assert conns[..i + 1][..i] == conns[..i];
        if conns[i] != self {
          SendTo(ToConn(conns[i]), payload);
        }
      }
      assert conns[..|conns|] == conns;
    }

    /** The table operation of a group join: use the channel listed under `key` or list a new one. */
    method Upsert(key: Id, group: string, piped: bool) returns (ch: Channel.Channel)
      requires Valid()
      modifies this`channels
      ensures Valid() && key in channels && ch == channels[key]
      ensures fresh(channels.Values - old(channels.Values))
      ensures Abs() == old(Abs()).Set(key, if key in old(Abs()).channels then old(Abs()).channels[key]
                                           else Channel.New(key, Some(Channel.Config(group, true)), piped))
    {
      if key in channels {
        ch := channels[key];
        assert Abs().channels[key := ch.Abs()] == Abs().channels;
      } else {
        ch := new Channel.Channel(key, Some(Channel.Config(group, true)), piped);
        channels := channels[key := ch];
      }
    }

    /** A call's channel is made and its creator added before the channel is listed. */
    method CreateCall(key: Id, piped: bool, id: Id, c: ConnId)
      requires Valid()
      modifies this`channels
      ensures Valid() && fresh(channels.Values - old(channels.Values))
      ensures Abs() == if key in old(Abs()).channels then old(Abs())
                       else old(Abs()).Set(key, Channel.AfterAdd(Channel.New(key, None, piped), id, c))
    {
      var ch := NewCall(key, piped, id, c);
      SetIfAbsent(ch);
    }

    method NewCall(key: Id, piped: bool, id: Id, c: ConnId) returns (ch: Channel.Channel)
      ensures fresh(ch) && ch.id == key && ch.Abs() == Channel.AfterAdd(Channel.New(key, None, piped), id, c)
    {
      ch := new Channel.Channel(key, None, piped);
      var r := ch.Add(id, c);
    }

    /** The table operation of a call request. */
    method SetIfAbsent(ch: Channel.Channel)
      requires Valid()
      modifies this`channels
      ensures Valid() && channels == if ch.id in old(channels) then old(channels) else old(channels)[ch.id := ch]
      ensures Abs() == if ch.id in old(Abs()).channels then old(Abs()) else old(Abs()).Set(ch.id, ch.Abs())
    {
      if ch.id !in channels {
        channels := channels[ch.id := ch];
      }
    }

    method AddMember(key: Id, id: Id, c: ConnId) returns (r: Channel.AddResult)
      requires Valid() && key in channels && !channels[key].locked
      modifies channels[key]
      ensures r == Channel.TryAdd(old(Abs()).channels[key], id, c)
      ensures Abs() == old(Abs()).Set(key, Channel.AfterAdd(old(Abs()).channels[key], id, c))
    {
      r := channels[key].Add(id, c);
    }

    method RemoveMember(key: Id, id: Id)
      requires Valid() && key in channels && !channels[key].locked
      modifies channels[key]
      ensures Abs() == old(Abs()).Set(key, Channel.AfterRemove(old(Abs()).channels[key], id))
    {
      channels[key].Remove(id);
    }

    /** The handler has done what `o` describes; `sent` is what had been sent before. */
    ghost predicate Did(sent: seq<Send>, o: Outcome, end: End)
      reads this, channels.Values
    {
      Valid() && Abs() == o.view && outbox == sent + o.sends && end == o.end
    }

    method ProcessGroup(env: Env, c: ConnId, u: User, m: Message) returns (end: End)
      requires Valid()
      modifies this, channels.Values
      ensures Did(old(outbox), HandleGroup(env, old(Abs()), c, u, m), end)
    {
      var key := Rooms.GroupKey(m.group);
      var ch := Upsert(key, m.group, env.forced(key));
      end := Join(key, env, c, u, m);
    }

    method Join(key: Id, env: Env, c: ConnId, u: User, m: Message) returns (end: End)
      requires Valid() && key in channels
      modifies this`outbox, channels.Values
      ensures Did(old(outbox), JoinListed(env, old(Abs()), key, c, u, m), end)
    {
      assert outbox + [] == outbox;
      var ch := channels[key];
      assert ch.Abs() == Abs().channels[key];
      if ch.locked {
        return Blocked;
      }
      if u.auth.Some? && !u.auth.value.canCreate {
        var size := ch.Size();
        if size == 0 {
          return Returned(Some(RtmError(CreateRestricted, "access denied", m.id)));
        }
      }
      end := Admit(key, c, u, m, Issue(env.crypto, m.typ, u.id, m.group, ch.id));
    }

    method Admit(key: Id, c: ConnId, u: User, m: Message, hash: string) returns (end: End)
      requires Valid() && key in channels && !channels[key].locked
      modifies this`outbox, channels.Values
      ensures Did(old(outbox), Admitted(old(Abs()), key, c, u, m, hash), end)
    {
      assert outbox + [] == outbox;
      var r := AddMember(key, u.id, c);
      if !r.Ok() {
        return Returned(Some(AddError(r, m)));
      }
      assert channels[key].Abs() == Abs().channels[key];
      Welcome(channels[key], r, c, m, hash);
      return Returned(None);
    }

    /** Tells a replaced connection, then the new member. */
    method Welcome(ch: Channel.Channel, r: Channel.AddResult, c: ConnId, m: Message, hash: string)
      modifies this`outbox
      ensures outbox == old(outbox) + Welcomes(ch.Abs(), r, c, m, hash)
    {
      if r.Replaced? {
        SendTo(ToConn(r.former), TakenOver(ch.id));
      }
      var data := Some(Extra(Some(m.group), ch.connections.Keys, ch.pipeline));
      SendTo(ToConn(c), Reply(m.id, ch.id, hash, data));
    }

    /** Tells the caller about the channel, then sends the request to the target's connections. */
    method PlaceCall(c: ConnId, replyTo: nat, msg: Message) returns (err: Option<Error>)
      modifies this`outbox
      ensures var reply := Send(ToConn(c), Reply(replyTo, msg.channel, msg.hash, msg.data));
              outbox == old(outbox) + if msg.target in users
                                      then [reply] + ToAll(users[msg.target], Relay(msg)) else [reply]
      ensures err == if msg.target in users then None else Some(NoSession(msg.id))
    {
      SendTo(ToConn(c), Reply(replyTo, msg.channel, msg.hash, msg.data));
      if msg.target !in users {
        return Some(NoSession(msg.id));
      }
      SendAll(users[msg.target], Relay(msg));
      return None;
    }

    method ProcessRequest(env: Env, c: ConnId, u: User, m: Message, rid: Id) returns (end: End)
      requires Valid()
      modifies this, channels.Values
      ensures Did(old(outbox), HandleRequest(env, old(Abs()), c, u, m, rid), end)
    {
      var id := Rooms.STANDARD_PREFIX + rid;
      CreateCall(id, env.forced(id), u.id, c);
      var msg := RequestRelay(env, u, m, id);
      var err := PlaceCall(c, m.id, msg);
      end := Returned(err);
    }

    /** The last part of an answer. */
    method Answer(key: Id, u: User, m: Message) returns (end: End)
      requires Valid() && key in channels
      modifies this`outbox
      ensures Did(old(outbox), Answered(old(Abs()), old(Abs()).channels[key], [], u, m), end)
    {
      assert outbox + [] == outbox;
      var ch := channels[key];
      var msg := m.(source := u.id, id := 0, profile := Some(u.Name()));
      if ch.locked {
        return Blocked;
      }
      var conn, ok := ch.Get(msg.target);
      if !ok || conn.None? {
        return Returned(Some(NoSession(msg.id)));
      }
      SendTo(ToConn(conn.value), Relay(msg));
      return Returned(None);
    }

    method ProcessResponse(env: Env, c: ConnId, u: User, m: Message) returns (end: End)
      requires Valid()
      modifies this, channels.Values
      ensures Did(old(outbox), HandleResponse(env, old(Abs()), c, u, m), end)
    {
      assert outbox + [] == outbox;
      if m.channel !in channels {
        return Returned(Some(Bad("channel not found", m)));
      }
      var ch := channels[m.channel];
      assert ch.Abs() == Abs().channels[m.channel];
      var checkErr := ch.Check(env.crypto, u.id, m);
      if checkErr.Some? {
        return Returned(checkErr);
      }
      if m.data == Some(Null) {
        return Panicked;
      }
      if !(m.data.Some? && m.data.value.Answer?) {
        return Returned(Some(PlainError("cannot decode accept data")));
      }
      if m.group != "" {
        if !m.data.value.accept {
          return Returned(Some(Bad("accept required for group call", m)));
        }
        end := Answer(m.channel, u, m.(hash := Issue(env.crypto, m.typ, u.id, m.target, ch.id)));
      } else {
        end := ProcessCallAnswer(c, u, m);
      }
    }

    /** Answer to a call between two users, after the tests. */
    method ProcessCallAnswer(c: ConnId, u: User, m: Message) returns (end: End)
      requires Valid() && m.channel in channels && m.data.Some? && m.data.value.Answer?
      modifies this, channels.Values
      ensures Did(old(outbox), CallAnswer(old(Abs()), c, u, m), end)
    {
      assert outbox + [] == outbox;
      var ch := channels[m.channel];
      assert Abs().channels[m.channel := ch.Abs()] == Abs().channels;
      if m.data.value.accept {
        if ch.locked {
          return Blocked;
        }
        var r := AddMember(m.channel, u.id, c);
        if !r.Ok() {
          return Returned(Some(AddError(r, m)));
        }
      }
      end := Announce(c, u, m);
    }

    /** Tells the user's other connections, then the caller. */
    method Announce(c: ConnId, u: User, m: Message) returns (end: End)
      requires Valid() && m.channel in channels && m.data.Some? && m.data.value.Answer?
      modifies this`outbox
      ensures Did(old(outbox), Announced(old(Abs()), c, u, m), end)
    {
      assert outbox + [] == outbox;
      if u.id in users {
        var connections := users[u.id];
        if !m.data.value.accept && m.data.value.reason == "reject_busy" && |connections| > 1 {
          return Returned(None);
        }
        SendOthers(connections, c, Cleared(m.channel, m.target));
      }
      end := Answer(m.channel, u, m);
    }

    method ForwardTo(env: Env, key: Id, source: Id, conn0: Option<ConnId>, m: Message)
      returns (end: End)
      requires Valid() && key in channels
      modifies this`outbox
      ensures Did(old(outbox), Forward(env, old(Abs()), old(Abs()).channels[key], source, conn0, m), end)
    {
      assert outbox + [] == outbox;
      var ch := channels[key];
      var msg := m.(source := source);
      if ch.pipeline {
        SendTo(ToPipeline(ch.id), Relay(msg));
        return Returned(env.refusal(ToPipeline(ch.id)));
      }
      var conn := conn0;
      if conn.None? {
        if ch.locked {
          return Blocked;
        }
        var ok;
        conn, ok := ch.Get(m.target);
      }
      if conn.None? {
        return Returned(Some(NoSession(msg.id)));
      }
      msg := msg.(id := 0);
      SendTo(ToConn(conn.value), Relay(msg));
      return Returned(env.refusal(ToConn(conn.value)));
    }

    method ProcessSignal(env: Env, u: User, m: Message) returns (end: End)
      requires Valid()
      modifies this, channels.Values
      ensures Did(old(outbox), HandleSignal(env, old(Abs()), u, m), end)
    {
      assert outbox + [] == outbox;
      if m.channel !in channels {
        return Returned(Some(Bad("channel not found", m)));
      }
      var ch := channels[m.channel];
      assert ch.Abs() == Abs().channels[m.channel];
      var checkErr := ch.Check(env.crypto, u.id, m);
      if checkErr.Some? {
        return Returned(checkErr);
      }
      end := ProcessChecked(env, u, m);
    }

    method ProcessChecked(env: Env, u: User, m: Message) returns (end: End)
      requires Valid() && m.channel in channels
      modifies this, channels.Values
      ensures Did(old(outbox), SignalChecked(env, old(Abs()), u, m), end)
    {
      assert outbox + [] == outbox;
      var ch := channels[m.channel];
      assert Abs().channels[m.channel := ch.Abs()] == Abs().channels;
      var conn: Option<ConnId>, ok := None, false;
      if m.group != "" && m.target == m.group {
        ok := true;
      } else if m.target != "" {
        if ch.locked {
          return Blocked;
        }
        conn, ok := ch.Get(m.target);
      }
      if m.subtype == SUBTYPE_HANGUP {
        if ch.locked {
          return Blocked;
        }
        RemoveMember(m.channel, u.id);
      }
      end := Dispatch(env, u, m, conn, ok);
    }

    /** Sends a signal or hangup on; a hangup of a call not yet picked up goes to all of the target's
        connections. */
    method Dispatch(env: Env, u: User, m: Message, conn: Option<ConnId>, ok: bool)
      returns (end: End)
      requires Valid() && m.channel in channels && (conn.Some? ==> ok)
      modifies this`outbox
      ensures Did(old(outbox), Dispatched(env, old(Abs()), u, m, conn, ok), end)
    {
      assert outbox + [] == outbox;
      if m.subtype == SUBTYPE_HANGUP && !ok {
        if m.target !in users {
          return Returned(Some(NoSession(m.id)));
        }
        SendAll(users[m.target], Relay(m.(source := u.id, id := 0)));
        return Returned(None);
      }
      if ok || conn.Some? {
        end := ForwardTo(env, m.channel, u.id, conn, m);
        return;
      }
      return Returned(Some(NoSession(m.id)));
    }

    /** The handler as a whole. */
    method Process(env: Env, c: ConnId, ur: Option<User>, m: Message, rid: Id) returns (end: End)
      requires Valid()
      modifies this, channels.Values
      ensures Did(old(outbox), Handle(env, old(Abs()), c, ur, m, rid), end)
    {
      assert outbox + [] == outbox;
      match Vet(ur, m) {
        case Refuse(e) => return Returned(Some(e));
        case Group(u) => end := ProcessGroup(env, c, u, m);
        case Request(u) => end := ProcessRequest(env, c, u, m, rid);
        case Response(u) => end := ProcessResponse(env, c, u, m);
        case Signal(u) => end := ProcessSignal(env, u, m);
      }
    }
  }
}
