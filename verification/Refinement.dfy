/** The step machine of Rooms and the message handler of WebRtc agree: a handler that is not
    interrupted has, step by step, exactly the effect on the channel table that `Handle` gives. */
module Refinement {
  import opened Common
  import opened Messages
  import ChannelHash
  import Channel
  import Rooms
  import WebRtc

  type ConnId = Channel.ConnId
  type Id = Channel.Id

  /** The channel table as the handler sees it. */
  function Listing(s: Rooms.State): map<Id, Channel.State> {
    map k | k in s.table && s.table[k] in s.chans :: s.chans[s.table[k]]
  }

  /** The steps `es` lead from `s` to `t`. */
  ghost predicate Leads(s: Rooms.State, es: seq<Rooms.Event>, t: Rooms.State) {
    Rooms.Legal(s, es) && Rooms.Run(s, es) == t
  }

  lemma LeadsOne(s: Rooms.State, e: Rooms.Event, es: seq<Rooms.Event>, t: Rooms.State)
    requires Rooms.Enabled(s, e) && Leads(Rooms.Next(s, e), es, t)
    ensures Leads(s, [e] + es, t)
  {
    assert ([e] + es)[1..] == es;
  }

  ghost predicate Ready(s: Rooms.State, c: ConnId) {
    c in s.conns && s.conns[c].pc.Idle?
  }

  // ---- What single steps do to the table ----

  lemma ListedChanged(s: Rooms.State, key: Id, ch: Channel.State)
    requires Rooms.TableOk(s) && key in s.table
    ensures Listing(s.(chans := s.chans[s.table[key] := ch])) == Listing(s)[key := ch]
  {
  }

  lemma AddStepParts(s: Rooms.State, c: ConnId, r: Rooms.Ref)
    requires c in s.conns && s.conns[c].pc == Rooms.Adding(r, false) && r in s.chans
    ensures var t := Rooms.AfterAddStep(s, c);
            && t.table == s.table && t.chans == s.chans[r := Channel.AfterAdd(s.chans[r], s.conns[c].user.id, c)]
            && c in t.conns && (t.conns[c].pc.Idle? || t.conns[c].pc == Rooms.Registering(r, false))
  {
  }

  lemma AddListing(s: Rooms.State, c: ConnId, key: Id)
    requires Rooms.TableOk(s) && key in s.table && c in s.conns && s.conns[c].pc == Rooms.Adding(s.table[key], false)
    ensures Listing(Rooms.AfterAddStep(s, c)) ==
            Listing(s)[key := Channel.AfterAdd(s.chans[s.table[key]], s.conns[c].user.id, c)]
  {
    var r := s.table[key];
    AddStepParts(s, c, r);
    ListedChanged(s, key, Channel.AfterAdd(s.chans[r], s.conns[c].user.id, c));
  }

  lemma LookupListing(s: Rooms.State, c: ConnId, m: Message, r: Rooms.Ref, piped: bool)
    requires Rooms.TableOk(s) && c in s.conns && r !in s.chans
    ensures var key := Rooms.GroupKey(m.group);
            var t := Rooms.AfterGroupLookup(s, c, m, r, piped);
            && key in t.table && t.table[key] in t.chans
            && t.conns == s.conns[c := s.conns[c].(pc := Rooms.Sizing(t.table[key]))]
            && t.chans[t.table[key]] == (if key in s.table then s.chans[s.table[key]]
                                         else Channel.New(key, Some(Channel.Config(m.group, true)), piped))
            && Listing(t) == Listing(s)[key := t.chans[t.table[key]]]
  {
  }

  lemma CreateListing(s: Rooms.State, c: ConnId, r: Rooms.Ref, rid: Id, piped: bool)
    requires Rooms.TableOk(s) && c in s.conns && r !in s.chans
    ensures Listing(Rooms.AfterCallCreate(s, c, r, rid, piped)) == Listing(s)
  {
  }

  lemma UnlistedAddListing(s: Rooms.State, c: ConnId)
    requires Rooms.TableOk(s) && c in s.conns && s.conns[c].pc.Adding? && s.conns[c].pc.ref in s.chans
    requires s.chans[s.conns[c].pc.ref].id !in s.table
    ensures Listing(Rooms.AfterAddStep(s, c)) == Listing(s)
  {
    assert forall k :: k in s.table ==> s.table[k] != s.conns[c].pc.ref;
  }

  // ---- Handlers ----

  /** From the Add of a listed channel that is not locked. */
  lemma AddRuns(s: Rooms.State, c: ConnId, key: Id) returns (es: seq<Rooms.Event>, t: Rooms.State)
    requires Rooms.TableOk(s) && key in s.table && c in s.conns && s.conns[c].pc == Rooms.Adding(s.table[key], false)
    requires !s.chans[s.table[key]].locked
    ensures Leads(s, es, t) && Ready(t, c)
    ensures Listing(t) == Listing(s)[key := Channel.AfterAdd(s.chans[s.table[key]], s.conns[c].user.id, c)]
  {
    AddListing(s, c, key);
    AddStepParts(s, c, s.table[key]);
    t := Rooms.AfterAddStep(s, c);
    es := [];
    if !t.conns[c].pc.Idle? {
      var u := Rooms.AfterRegister(t, c);
      assert Listing(u) == Listing(t);
      LeadsOne(t, Rooms.RegisterStep(c), [], u);
      es, t := [Rooms.RegisterStep(c)] + [], u;
    }
    LeadsOne(s, Rooms.AddStep(c), es, t);
    es := [Rooms.AddStep(c)] + es;
  }

  /** From the size test of a listed channel that is not locked. */
  lemma SizeRuns(env: WebRtc.Env, s: Rooms.State, users: map<Id, seq<ConnId>>, c: ConnId, key: Id, m: Message)
    returns (es: seq<Rooms.Event>, t: Rooms.State)
    requires Rooms.TableOk(s) && key in s.table && c in s.conns && s.conns[c].pc == Rooms.Sizing(s.table[key])
    requires !s.chans[s.table[key]].locked
    ensures Leads(s, es, t) && Ready(t, c)
    ensures Listing(t) ==
            WebRtc.JoinListed(env, WebRtc.View(Listing(s), users), key, c, s.conns[c].user, m).view.channels
  {
    t := Rooms.AfterSizeTest(s, c);
    assert Listing(t) == Listing(s);
    es := [];
    if !t.conns[c].pc.Idle? {
      es, t := AddRuns(t, c, key);
    }
    LeadsOne(s, Rooms.SizeTest(c), es, t);
    es := [Rooms.SizeTest(c)] + es;
  }

  /** A group join. */
  lemma GroupJoinAgrees(
      env: WebRtc.Env, s: Rooms.State, users: map<Id, seq<ConnId>>, c: ConnId, m: Message, r: Rooms.Ref)
    returns (es: seq<Rooms.Event>, t: Rooms.State)
    requires Rooms.Inv(s) && Rooms.Enabled(s, Rooms.GroupLookup(c, m, r, env.forced(Rooms.GroupKey(m.group))))
    ensures Leads(s, es, t) && Ready(t, c)
    ensures Listing(t) == WebRtc.HandleGroup(env, WebRtc.View(Listing(s), users), c, s.conns[c].user, m).view.channels
  {
    var key := Rooms.GroupKey(m.group);
    var look := Rooms.GroupLookup(c, m, r, env.forced(key));
    Rooms.GroupLookupKept(s, c, m, r, env.forced(key));
    var s1 := Rooms.AfterGroupLookup(s, c, m, r, env.forced(key));
    LookupListing(s, c, m, r, env.forced(key));
    Rooms.GroupChannelFound(s1, m.group);
    assert Rooms.WellNamed(s1.chans[s1.table[key]]);
    es, t := SizeRuns(env, s1, users, c, key, m);
    LeadsOne(s, look, es, t);
    es := [look] + es;
  }

  /** A call request, with a random id that is not in use. */
  lemma CallRequestAgrees(
      env: WebRtc.Env, s: Rooms.State, users: map<Id, seq<ConnId>>, c: ConnId, m: Message, r: Rooms.Ref, rid: Id)
    returns (es: seq<Rooms.Event>, t: Rooms.State)
    requires Rooms.Inv(s)
    requires Rooms.Enabled(s, Rooms.CallCreate(c, m, r, rid, env.forced(Rooms.STANDARD_PREFIX + rid)))
    ensures Leads(s, es, t) && Ready(t, c)
    ensures Listing(t) ==
            WebRtc.HandleRequest(env, WebRtc.View(Listing(s), users), c, s.conns[c].user, m, rid).view.channels
  {
    var id := Rooms.STANDARD_PREFIX + rid;
    var piped := env.forced(id);
    var s1 := Rooms.AfterCallCreate(s, c, r, rid, piped);
    CreateListing(s, c, r, rid, piped);
    var s2 := Rooms.AfterAddStep(s1, c);
    UnlistedAddListing(s1, c);
    es, t := PublishRuns(s2, c, r);
    LeadsOne(s1, Rooms.AddStep(c), es, t);
    es := [Rooms.AddStep(c)] + es;
    LeadsOne(s, Rooms.CallCreate(c, m, r, rid, piped), es, t);
    es := [Rooms.CallCreate(c, m, r, rid, piped)] + es;
  }

  lemma PublishRuns(s: Rooms.State, c: ConnId, r: Rooms.Ref) returns (es: seq<Rooms.Event>, t: Rooms.State)
    requires c in s.conns && s.conns[c].pc == Rooms.Registering(r, true) && r in s.chans && s.chans[r].id !in s.table
    ensures Leads(s, es, t) && Ready(t, c)
    ensures Listing(t) == Listing(s)[s.chans[r].id := s.chans[r]]
  {
    var u := Rooms.AfterRegister(s, c);
    assert Listing(u) == Listing(s);
    t := Rooms.AfterPublish(u, c);
    LeadsOne(u, Rooms.PublishStep(c), [], t);
    LeadsOne(s, Rooms.RegisterStep(c), [Rooms.PublishStep(c)] + [], t);
    es := [Rooms.RegisterStep(c)] + ([Rooms.PublishStep(c)] + []);
  }

  lemma AcceptView(v: WebRtc.View, c: ConnId, u: User, m: Message)
    requires m.channel in v.channels && !v.channels[m.channel].locked
    requires m.data.Some? && m.data.value.Answer? && m.data.value.accept
    ensures WebRtc.CallAnswer(v, c, u, m).view.channels ==
            v.channels[m.channel := Channel.AfterAdd(v.channels[m.channel], u.id, c)]
  {
  }

  /** An accepted call, on a channel whose lock is free. */
  lemma AcceptAgrees(s: Rooms.State, users: map<Id, seq<ConnId>>, c: ConnId, m: Message)
    returns (es: seq<Rooms.Event>, t: Rooms.State)
    requires Rooms.Inv(s) && Rooms.Enabled(s, Rooms.AnswerLookup(c, m)) && !s.chans[s.table[m.channel]].locked
    requires m.data.Some? && m.data.value.Answer? && m.data.value.accept
    ensures Leads(s, es, t) && Ready(t, c)
    ensures Listing(t) == WebRtc.CallAnswer(WebRtc.View(Listing(s), users), c, s.conns[c].user, m).view.channels
  {
    var s1 := s.SetPc(c, Rooms.Adding(s.table[m.channel], false));
    assert Listing(s1) == Listing(s);
    AcceptView(WebRtc.View(Listing(s), users), c, s.conns[c].user, m);
    es, t := AddRuns(s1, c, m.channel);
    LeadsOne(s, Rooms.AnswerLookup(c, m), es, t);
    es := [Rooms.AnswerLookup(c, m)] + es;
  }

  lemma HangupView(env: WebRtc.Env, v: WebRtc.View, u: User, m: Message)
    requires m.channel in v.channels && !v.channels[m.channel].locked && m.subtype == SUBTYPE_HANGUP
    ensures WebRtc.SignalChecked(env, v, u, m).view.channels ==
            v.channels[m.channel := Channel.AfterRemove(v.channels[m.channel], u.id)]
  {
  }

  lemma HangupListing(s: Rooms.State, c: ConnId, key: Id)
    requires Rooms.TableOk(s) && c in s.conns && key in s.table && s.conns[c].pc == Rooms.Removing(s.table[key])
    ensures Listing(Rooms.AfterRemoveStep(s, c)) ==
            Listing(s)[key := Channel.AfterRemove(s.chans[s.table[key]], s.conns[c].user.id)]
  {
    ListedChanged(s, key, Channel.AfterRemove(s.chans[s.table[key]], s.conns[c].user.id));
  }

  /** A hangup, on a channel whose lock is free. */
  lemma HangupAgrees(env: WebRtc.Env, s: Rooms.State, users: map<Id, seq<ConnId>>, c: ConnId, m: Message)
    returns (es: seq<Rooms.Event>, t: Rooms.State)
    requires Rooms.Inv(s) && Rooms.Enabled(s, Rooms.HangupLookup(c, m)) && !s.chans[s.table[m.channel]].locked
    ensures Leads(s, es, t) && Ready(t, c)
    ensures Listing(t) == WebRtc.SignalChecked(env, WebRtc.View(Listing(s), users), s.conns[c].user, m).view.channels
  {
    var s1 := s.SetPc(c, Rooms.Removing(s.table[m.channel]));
    assert Listing(s1) == Listing(s);
    HangupListing(s1, c, m.channel);
    HangupView(env, WebRtc.View(Listing(s), users), s.conns[c].user, m);
    t := Rooms.AfterRemoveStep(s1, c);
    LeadsOne(s1, Rooms.RemoveStep(c), [], t);
    LeadsOne(s, Rooms.HangupLookup(c, m), [Rooms.RemoveStep(c)] + [], t);
    es := [Rooms.HangupLookup(c, m)] + ([Rooms.RemoveStep(c)] + []);
  }

  // ---- Hashes that come back later ----

  /** The channel that a message naming `key` is checked against after the steps `es`. */
  ghost function Later(s: Rooms.State, es: seq<Rooms.Event>, key: Id): Channel.State
    requires Rooms.Inv(s) && Rooms.Legal(s, es) && key in Rooms.Run(s, es).table
    ensures Later(s, es, key).id == key && Later(s, es, key).Group() == Rooms.KeyGroup(key)
  {
    Rooms.InvOfRun(s, es);
    Rooms.ListedGroup(Rooms.Run(s, es), key);
    var t := Rooms.Run(s, es);
    t.chans[t.table[key]]
  }

  ghost function CheckLater(
      env: WebRtc.Env, s: Rooms.State, es: seq<Rooms.Event>, source: Id, back: Message): Option<Error>
    requires Rooms.Inv(s) && Rooms.Legal(s, es) && back.channel in Rooms.Run(s, es).table
  {
    var ch := Later(s, es, back.channel);
    ChannelHash.Check(env.crypto, ch.Group(), ch.pipeline, source, back)
  }

  /** The hash of a relayed call request passes when its receiver returns it, after any further steps
      of any handlers and purges, as long as the channel is listed. */
  lemma RequestHashStaysGood(
      env: WebRtc.Env, s: Rooms.State, users: map<Id, seq<ConnId>>, c: ConnId, m: Message, rid: Id,
      x: WebRtc.Send, es: seq<Rooms.Event>, back: Message)
    requires ChannelHash.Faithful(env.crypto) && Rooms.Inv(s) && c in s.conns && s.conns[c].user.id != ""
    requires Vet(Some(s.conns[c].user), m).Request? && x.payload.Relay?
    requires x in WebRtc.HandleRequest(env, WebRtc.View(Listing(s), users), c, s.conns[c].user, m, rid).sends
    requires Rooms.Legal(s, es) && back.channel in Rooms.Run(s, es).table
    requires WebRtc.Returns(x.payload.m, Rooms.KeyGroup(back.channel), back)
    ensures CheckLater(env, s, es, x.payload.m.target, back).None?
  {
    var v, u := WebRtc.View(Listing(s), users), s.conns[c].user;
    WebRtc.RequestHashHonoured(env, v, c, u, m, rid, x, back, Later(s, es, back.channel));
  }

  /** So does the hash in the reply to the caller, for the peer that was called. */
  lemma RequestReplyHashStaysGood(
      env: WebRtc.Env, s: Rooms.State, users: map<Id, seq<ConnId>>, c: ConnId, m: Message, rid: Id,
      x: WebRtc.Send, es: seq<Rooms.Event>, next: Message)
    requires ChannelHash.Faithful(env.crypto) && Rooms.Inv(s) && c in s.conns
    requires Vet(Some(s.conns[c].user), m).Request? && x.payload.Reply?
    requires x in WebRtc.HandleRequest(env, WebRtc.View(Listing(s), users), c, s.conns[c].user, m, rid).sends
    requires Rooms.Legal(s, es) && next.channel in Rooms.Run(s, es).table
    requires next.typ == m.typ && next.channel == x.payload.channel && next.hash == x.payload.hash
    requires next.group == "" && next.target == m.target
    ensures CheckLater(env, s, es, s.conns[c].user.id, next).None?
  {
    var v, u := WebRtc.View(Listing(s), users), s.conns[c].user;
    WebRtc.RequestReplyHashHonoured(env, v, c, u, m, rid, x, next, Later(s, es, next.channel));
  }

  /** So does the hash in the reply to a group join, for messages to the group, even if the group's
      channel has been purged and made anew meanwhile. */
  lemma GroupReplyHashStaysGood(
      env: WebRtc.Env, s: Rooms.State, users: map<Id, seq<ConnId>>, c: ConnId, m: Message,
      x: WebRtc.Send, es: seq<Rooms.Event>, next: Message)
    requires ChannelHash.Faithful(env.crypto) && Rooms.Inv(s) && c in s.conns
    requires Vet(Some(s.conns[c].user), m).Group? && x.payload.Reply?
    requires x in WebRtc.HandleGroup(env, WebRtc.View(Listing(s), users), c, s.conns[c].user, m).sends
    requires Rooms.Legal(s, es) && next.channel in Rooms.Run(s, es).table
    requires next.typ == m.typ && next.channel == x.payload.channel && next.hash == x.payload.hash
    requires next.group == m.group
    ensures CheckLater(env, s, es, s.conns[c].user.id, next).None?
  {
    var v, u := WebRtc.View(Listing(s), users), s.conns[c].user;
    WebRtc.GroupReplyIs(env, v, c, u, m, x);
    assert Rooms.GroupKey(m.group)[1..] == m.group;
    WebRtc.GroupReplyHashHonoured(env, v, c, u, m, x, next, Later(s, es, next.channel));
  }

  /** So does the hash of a relayed answer, when its receiver returns it.  Where a pipeline made the
      server pass it on unseen, the call channel has to be open still, and so to have that pipeline. */
  lemma ResponseHashStaysGood(
      env: WebRtc.Env, s: Rooms.State, users: map<Id, seq<ConnId>>, c: ConnId, m: Message,
      x: WebRtc.Send, es: seq<Rooms.Event>, back: Message)
    requires ChannelHash.Faithful(env.crypto) && Rooms.Inv(s) && c in s.conns && s.conns[c].user.id != ""
    requires Vet(Some(s.conns[c].user), m).Response? && x.payload.Relay? && m.channel in Listing(s)
    requires x in WebRtc.HandleResponse(env, WebRtc.View(Listing(s), users), c, s.conns[c].user, m).sends
    requires Rooms.Legal(s, es) && back.channel in Rooms.Run(s, es).table
    requires WebRtc.Returns(x.payload.m, Rooms.KeyGroup(back.channel), back)
    requires m.group == "" && Listing(s)[m.channel].pipeline ==>
               if Listing(s)[m.channel].Swaps() then Later(s, es, back.channel).pipeline
               else !Later(s, es, back.channel).closed
    ensures CheckLater(env, s, es, x.payload.m.target, back).None?
  {
    var v, u := WebRtc.View(Listing(s), users), s.conns[c].user;
    WebRtc.ResponseRelayOk(env, v, c, u, m, x);
    assert back.channel == m.channel;
    if !Listing(s)[m.channel].Swaps() {
      Rooms.CallChannelKept(s, es, m.channel);
    }
    WebRtc.ResponseHashHonoured(env, v, c, u, m, x, back, Later(s, es, back.channel));
  }
}
