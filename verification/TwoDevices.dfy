/** An everyday run that leaves the lock of a channel behind: somebody is called who has two devices,
    and the call is accepted on both (signaling/rtm/webrtc.go:382, signaling/rtm/channel.go:196-199). */
module TwoDevices {
  import opened Common
  import opened Messages
  import opened ChannelHash
  import opened Rooms
  import Channel

  const CALLER := User("a", None)
  const CALLEE := User("b", None)
  const CALL_ID := STANDARD_PREFIX + "r"

  const REQUEST := Message(1, "webrtc", SUBTYPE_CALL, "b", "", None, true, "s", "", "", "", 0, None)

  /** The answer, with the hash the callee was sent for the call. */
  function Accepting(k: Crypto): Message {
    Message(1, "webrtc", SUBTYPE_CALL, "a", "", None, false, "s", CALL_ID, "",
            Issue(k, "webrtc", "a", "b", CALL_ID), 0, Some(Answer(true, "")))
  }

  const ARRIVAL: seq<Event> := [Accept(0, CALLER), Accept(1, CALLEE), Accept(2, CALLEE)]
  const CREATE := CallCreate(0, REQUEST, 0, "r", false)
  const CALL: seq<Event> := [CREATE, AddStep(0), RegisterStep(0), PublishStep(0)]
  function First(k: Crypto): seq<Event> { [AnswerLookup(1, Accepting(k)), AddStep(1), RegisterStep(1)] }
  function Second(k: Crypto): seq<Event> { [AnswerLookup(2, Accepting(k)), AddStep(2), CloseStart(1)] }

  function Calling(members: map<Id, ConnId>, locked: bool): Channel.State {
    Channel.New(CALL_ID, None, false).(members := members, locked := locked)
  }

  const ARRIVED := State(
    map[], map[], map[0 := Conn(CALLER, [], Idle), 1 := Conn(CALLEE, [], Idle), 2 := Conn(CALLEE, [], Idle)], Resting)

  const CALLED := State(
    map[0 := Calling(map["a" := 0], false)], map[CALL_ID := 0],
    ARRIVED.conns[0 := Conn(CALLER, [Hook(0, "a")], Idle)], Resting)

  const ACCEPTED := CALLED.(
    chans := map[0 := Calling(map["a" := 0, "b" := 1], false)],
    conns := CALLED.conns[1 := Conn(CALLEE, [Hook(0, "b")], Idle)])

  const LOCKED := ACCEPTED.(
    chans := map[0 := Calling(map["a" := 0, "b" := 1], true)],
    conns := ACCEPTED.conns[1 := Conn(CALLEE, [], Closing([Hook(0, "b")]))])

  lemma Run3(s: State, e: Event, f: Event, g: Event)
    requires Enabled(s, e) && Enabled(Next(s, e), f) && Enabled(Next(Next(s, e), f), g)
    ensures Legal(s, [e, f, g]) && Run(s, [e, f, g]) == Next(Next(Next(s, e), f), g)
  {
    RunOne(Next(Next(s, e), f), g, []);
    RunOne(Next(s, e), f, [g] + []);
    RunOne(s, e, [f] + ([g] + []));
    assert [e] + ([f] + ([g] + [])) == [e, f, g];
  }

  lemma {:induction false} RunConcat(s: State, es: seq<Event>, fs: seq<Event>)
    requires Legal(s, es) && Legal(Run(s, es), fs)
    ensures Legal(s, es + fs) && Run(s, es + fs) == Run(Run(s, es), fs)
    decreases es
  {
    if es == [] {
      assert [] + fs == fs;
    } else {
      RunConcat(Next(s, es[0]), es[1..], fs);
      RunOne(s, es[0], es[1..] + fs);
      assert [es[0]] + (es[1..] + fs) == es + fs;
    }
  }

  lemma Arrives()
    ensures Legal(INIT, ARRIVAL) && Run(INIT, ARRIVAL) == ARRIVED
  {
    Run3(INIT, Accept(0, CALLER), Accept(1, CALLEE), Accept(2, CALLEE));
  }

  const CREATED := ARRIVED.(
    chans := map[0 := Calling(map[], false)], conns := ARRIVED.conns[0 := Conn(CALLER, [], Adding(0, true))])

  lemma Creates()
    ensures Enabled(ARRIVED, CREATE) && Next(ARRIVED, CREATE) == CREATED
  {
    assert Vet(Some(CALLER), REQUEST).Request?;
  }

  const JOINED := CREATED.(
    chans := CALLED.chans, conns := ARRIVED.conns[0 := Conn(CALLER, [], Registering(0, true))])

  const PUBLISHING := CALLED.(
    table := map[], conns := ARRIVED.conns[0 := Conn(CALLER, [Hook(0, "a")], Publishing(0))])

  lemma CallerJoins()
    ensures Enabled(CREATED, AddStep(0)) && Next(CREATED, AddStep(0)) == JOINED
  {
  }

  lemma CallerRegisters()
    ensures Enabled(JOINED, RegisterStep(0)) && Next(JOINED, RegisterStep(0)) == PUBLISHING
  {
    assert [] + [Hook(0, "a")] == [Hook(0, "a")];
  }

  lemma CallPublished()
    ensures Enabled(PUBLISHING, PublishStep(0)) && Next(PUBLISHING, PublishStep(0)) == CALLED
  {
  }

  lemma Calls()
    ensures Legal(ARRIVED, CALL) && Run(ARRIVED, CALL) == CALLED
  {
    Creates();
    CallerJoins();
    CallerRegisters();
    CallPublished();
    Run3(CREATED, AddStep(0), RegisterStep(0), PublishStep(0));
    RunOne(ARRIVED, CREATE, [AddStep(0), RegisterStep(0), PublishStep(0)]);
    assert [CREATE] + [AddStep(0), RegisterStep(0), PublishStep(0)] == CALL;
  }

  lemma AnswerPasses(k: Crypto)
    requires Faithful(k)
    ensures Vet(Some(CALLEE), Accepting(k)).Response? && Check(k, "", false, CALLEE.id, Accepting(k)).None?
  {
    PeerHashHonoured(k, "", false, "a", "b", "b", Accepting(k));
  }

  /** Looking up the channel leads to its Add, whoever answers. */
  lemma AnswerLooksUp(k: Crypto, s: State, c: ConnId)
    requires Faithful(k) && s.table == CALLED.table && PcOf(s, c).Idle? && c in s.conns && s.conns[c].user == CALLEE
    ensures var e := AnswerLookup(c, Accepting(k));
            Enabled(s, e) && Next(s, e) == s.SetPc(c, Adding(0, false))
  {
    AnswerPasses(k);
  }

  lemma FirstAdds()
    ensures var s := CALLED.SetPc(1, Adding(0, false));
            && Enabled(s, AddStep(1))
            && Next(s, AddStep(1)) == CALLED.(chans := ACCEPTED.chans).SetPc(1, Registering(0, false))
  {
  }

  lemma FirstAccepts(k: Crypto)
    requires Faithful(k)
    ensures Legal(CALLED, First(k)) && Run(CALLED, First(k)) == ACCEPTED
  {
    var s2 := CALLED.(chans := ACCEPTED.chans).SetPc(1, Registering(0, false));
    AnswerLooksUp(k, CALLED, 1);
    FirstAdds();
    assert Next(s2, RegisterStep(1)) == ACCEPTED by { assert [] + [Hook(0, "b")] == [Hook(0, "b")]; }
    Run3(CALLED, AnswerLookup(1, Accepting(k)), AddStep(1), RegisterStep(1));
  }

  lemma SecondAdds()
    ensures var s, s' := ACCEPTED.SetPc(2, Adding(0, false)), ACCEPTED.(chans := LOCKED.chans);
            Enabled(s, AddStep(2)) && Next(s, AddStep(2)) == s'
  {
  }

  lemma SecondAccepts(k: Crypto)
    requires Faithful(k)
    ensures Legal(ACCEPTED, Second(k)) && Run(ACCEPTED, Second(k)) == LOCKED
  {
    AnswerLooksUp(k, ACCEPTED, 2);
    SecondAdds();
    assert Next(ACCEPTED.(chans := LOCKED.chans), CloseStart(1)) == LOCKED;
    Run3(ACCEPTED, AnswerLookup(2, Accepting(k)), AddStep(2), CloseStart(1));
  }

  function Whole(k: Crypto): seq<Event> { ARRIVAL + CALL + First(k) + Second(k) }

  lemma Blocks(k: Crypto)
    requires Faithful(k)
    ensures Legal(INIT, Whole(k)) && Run(INIT, Whole(k)) == LOCKED
  {
    Arrives();
    Calls();
    FirstAccepts(k);
    SecondAccepts(k);
    RunConcat(INIT, ARRIVAL, CALL);
    RunConcat(INIT, ARRIVAL + CALL, First(k));
    RunConcat(INIT, ARRIVAL + CALL + First(k), Second(k));
  }

  /** The answer passes the server's check both times.  The second one leaves the channel locked: from
      then on the connection of the first device can never be closed, and no pass of the purge loop
      that begins ever ends. */
  lemma SecondDeviceBlocks(k: Crypto, more: seq<Event>)
    requires Faithful(k)
    ensures Check(k, "", false, CALLEE.id, Accepting(k)).None?
    ensures Legal(INIT, Whole(k))
    ensures Legal(Run(INIT, Whole(k)), more) ==>
              !PcOf(Run(Run(INIT, Whole(k)), more), 1).Gone? && PurgeDone !in more
  {
    AnswerPasses(k);
    Blocks(k);
    if Legal(LOCKED, more) {
      CloseNeverFinishes(LOCKED, more, 1, Hook(0, "b"));
      NoPassEnds(LOCKED, more, 0);
    }
  }
}
