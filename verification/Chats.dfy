/** Chat messages and join/left notices of channels (signaling/rtm/chats.go:177-237 and 302-320).

    Each message or notice is posted by a goroutine of its own.  Posting holds the channel's chats
    mutex; everything else, including membership changes, posts to other channels and other traffic
    on the same connections, interleaves one queue operation at a time. */
module Chats {
  import opened Common

  type ChanId = nat
  type ConnId = nat
  type ActorId = nat

  datatype Kind = UserText | Joined | Left

  /** Entries carry a fresh random id, which also identifies the goroutine that posts the entry. */
  datatype Entry = Entry(id: ActorId, kind: Kind, from: ConnId)

  /** What is put on a connection's send queue. */
  datatype Item =
    | Reply(ch: ChanId, e: Entry)          // tells the sender the id of the new message
    | Broadcast(ch: ChanId, e: Entry)
    | Report(ch: ChanId, id: ActorId)      // delivery report, sent after the mutex is released
    | Other

  type Queues = map<ConnId, seq<Item>>

  datatype Actor =
    | Waiting(ch: ChanId, e: Entry)                         // for the chats mutex
    | Locked(ch: ChanId, e: Entry)
    | Posted(ch: ChanId, e: Entry)                          // reply queued; to read the connections
    | Sending(ch: ChanId, e: Entry, todo: seq<ConnId>)
    | Reporting(ch: ChanId, e: Entry)
    | Done
  {
    predicate Holds(c: ChanId) { (Locked? || Posted? || Sending?) && ch == c }
  }

  /** `logs` lists what was posted to each channel; `queues` holds all that was ever put on a
      connection's send queue, whether or not it has been written out since. */
  datatype State = State(
    members: map<ChanId, set<ConnId>>,
    queues: Queues,
    logs: map<ChanId, seq<Entry>>,
    actors: map<ActorId, Actor>)
  {
    function Queue(c: ConnId): seq<Item> {
      QueueOf(queues, c)
    }

    function Log(ch: ChanId): seq<Entry> {
      if ch in logs then logs[ch] else []
    }

    function Members(ch: ChanId): set<ConnId> {
      if ch in members then members[ch] else {}
    }

    function Put(c: ConnId, item: Item): State {
      this.(queues := PutOn(queues, c, item))
    }

    function At(a: ActorId, actor: Actor): State {
      this.(actors := actors[a := actor])
    }
  }

  function QueueOf(queues: Queues, c: ConnId): seq<Item> {
    if c in queues then queues[c] else []
  }

  function PutOn(queues: Queues, c: ConnId, item: Item): Queues {
    queues[c := QueueOf(queues, c) + [item]]
  }

  const INIT := State(map[], map[], map[], map[])

  datatype Event =
    | Start(a: ActorId, ch: ChanId, kind: Kind, from: ConnId)
    | Lock(a: ActorId)
    | Post(a: ActorId, ok: bool)
    | Snapshot(a: ActorId, order: seq<ConnId>)
    | SendNext(a: ActorId, ok: bool)
    | Unlock(a: ActorId)
    | SendReport(a: ActorId, ok: bool)
    | Membership(ch: ChanId, now: set<ConnId>)
    | Traffic(c: ConnId)

  ghost predicate Enumerates(order: seq<ConnId>, cs: set<ConnId>) {
    Distinct(order) && forall c :: c in order <==> c in cs
  }

  ghost predicate Enabled(s: State, e: Event) {
    match e
    case Start(a, _, _, _) => a !in s.actors
    case Lock(a) =>
      && a in s.actors && s.actors[a].Waiting?
      && forall b :: b in s.actors ==> !s.actors[b].Holds(s.actors[a].ch)
    case Post(a, _) => a in s.actors && s.actors[a].Locked?
    case Snapshot(a, order) => a in s.actors && s.actors[a].Posted? && Enumerates(order, s.Members(s.actors[a].ch))
    case SendNext(a, _) => a in s.actors && s.actors[a].Sending? && s.actors[a].todo != []
    case Unlock(a) => a in s.actors && s.actors[a].Sending? && s.actors[a].todo == []
    case SendReport(a, _) => a in s.actors && s.actors[a].Reporting?
    case Membership(_, _) => true
    case Traffic(_) => true
  }

  /** A message is posted by queueing the sender's reply; if that fails nothing is posted at all.
      A notice needs no reply. */
  function AfterPost(s: State, a: ActorId, ok: bool): State
    requires a in s.actors && s.actors[a].Locked?
  {
    var ch, e := s.actors[a].ch, s.actors[a].e;
    var posted := s.(logs := s.logs[ch := s.Log(ch) + [e]]).At(a, Posted(ch, e));
    if !e.kind.UserText? then posted
    else if ok then posted.Put(e.from, Reply(ch, e))
    else s.At(a, Done)
  }

  function AfterSendNext(s: State, a: ActorId, ok: bool): State
    requires a in s.actors && s.actors[a].Sending? && s.actors[a].todo != []
  {
    var Sending(ch, e, todo) := s.actors[a];
    var s' := s.At(a, Sending(ch, e, todo[1..]));
    if todo[0] == e.from || !ok then s' else s'.Put(todo[0], Broadcast(ch, e))
  }

  ghost function Next(s: State, e: Event): State
    requires Enabled(s, e)
  {
    match e
    case Start(a, ch, kind, from) => s.At(a, Waiting(ch, Entry(a, kind, from)))
    case Lock(a) => s.At(a, Locked(s.actors[a].ch, s.actors[a].e))
    case Post(a, ok) => AfterPost(s, a, ok)
    case Snapshot(a, order) => s.At(a, Sending(s.actors[a].ch, s.actors[a].e, order))
    case SendNext(a, ok) => AfterSendNext(s, a, ok)
    case Unlock(a) =>
      s.At(a, if s.actors[a].e.kind.UserText? then Reporting(s.actors[a].ch, s.actors[a].e) else Done)
    case SendReport(a, ok) =>
      var s' := s.At(a, Done);
      if ok then s'.Put(s.actors[a].e.from, Report(s.actors[a].ch, s.actors[a].e.id)) else s'
    case Membership(ch, now) => s.(members := s.members[ch := now])
    case Traffic(c) => s.Put(c, Other)
  }

  // ---- Subsequences ----

  /** The entries of a channel on a queue, in queue order; delivery reports are not entries. */
  function Entries(q: seq<Item>, ch: ChanId): seq<Entry> {
    if q == [] then []
    else
      var item := q[|q| - 1];
      Entries(q[..|q| - 1], ch) + if (item.Reply? || item.Broadcast?) && item.ch == ch then [item.e] else []
  }

  lemma EntriesPut(q: seq<Item>, item: Item, ch: ChanId)
    ensures Entries(q + [item], ch) ==
            Entries(q, ch) + if (item.Reply? || item.Broadcast?) && item.ch == ch then [item.e] else []
  {
    assert (q + [item])[..|q|] == q;
  }

  /** `xs` is a subsequence of `ys`. */
  predicate Sub<T(==)>(xs: seq<T>, ys: seq<T>)
    decreases |ys|
  {
    || xs == []
    || (ys != [] && xs[|xs| - 1] == ys[|ys| - 1] && Sub(xs[..|xs| - 1], ys[..|ys| - 1]))
    || (ys != [] && Sub(xs, ys[..|ys| - 1]))
  }

  lemma SubSkip<T>(xs: seq<T>, ys: seq<T>, y: T)
    requires Sub(xs, ys)
    ensures Sub(xs, ys + [y])
  {
    assert (ys + [y])[..|ys|] == ys;
  }

  lemma SubBoth<T>(xs: seq<T>, ys: seq<T>, y: T)
    requires Sub(xs, ys)
    ensures Sub(xs + [y], ys + [y])
  {
    assert (ys + [y])[..|ys|] == ys && (xs + [y])[..|xs|] == xs;
  }

  lemma SubLast<T>(xs: seq<T>, ys: seq<T>)
    requires ys != [] && Sub(xs, ys[..|ys| - 1])
    ensures Sub(xs + [ys[|ys| - 1]], ys)
  {
    SubBoth(xs, ys[..|ys| - 1], ys[|ys| - 1]);
    assert ys[..|ys| - 1] + [ys[|ys| - 1]] == ys;
  }

  /** A subsequence picks positions in increasing order. */
  lemma {:induction false} SubPositions<T>(xs: seq<T>, ys: seq<T>) returns (f: seq<nat>)
    requires Sub(xs, ys)
    ensures |f| == |xs| && forall i :: 0 <= i < |f| ==> f[i] < |ys| && xs[i] == ys[f[i]]
    ensures forall i, j :: 0 <= i < j < |f| ==> f[i] < f[j]
    decreases |ys|
  {
    if xs == [] {
      f := [];
    } else if xs[|xs| - 1] == ys[|ys| - 1] && Sub(xs[..|xs| - 1], ys[..|ys| - 1]) {
      f := SubPositions(xs[..|xs| - 1], ys[..|ys| - 1]);
      f := f + [|ys| - 1];
    } else {
      f := SubPositions(xs, ys[..|ys| - 1]);
    }
  }

  // ---- The invariant ----

  function Seen(s: State, c: ConnId, ch: ChanId): seq<Entry> {
    Entries(s.Queue(c), ch)
  }

  ghost predicate OrderOk(s: State) {
    forall c: ConnId, ch: ChanId :: Sub(Seen(s, c, ch), s.Log(ch))
  }

  ghost predicate MutexOk(s: State) {
    forall a, b, ch :: a in s.actors && b in s.actors && a != b && s.actors[a].Holds(ch) ==> !s.actors[b].Holds(ch)
  }

  /** `e` has just been logged for `ch`, and `c` has not been sent it yet. */
  ghost predicate Behind(s: State, c: ConnId, ch: ChanId, e: Entry) {
    s.Log(ch) != [] && s.Log(ch)[|s.Log(ch)| - 1] == e && Sub(Seen(s, c, ch), s.Log(ch)[..|s.Log(ch)| - 1])
  }

  ghost predicate ActorOk(s: State, a: ActorId)
    requires a in s.actors
  {
    match s.actors[a]
    case Waiting(_, e) => e.id == a
    case Locked(_, e) => e.id == a
    case Posted(ch, e) => forall c: ConnId :: c != e.from ==> Behind(s, c, ch, e)
    case Sending(ch, e, todo) =>
      && Distinct(todo)
      && (forall c: ConnId :: c in todo && c != e.from ==> Behind(s, c, ch, e))
    case _ => true
  }

  ghost predicate ActorsOk(s: State) {
    forall a :: a in s.actors ==> ActorOk(s, a)
  }

  /** Entries are logged once, by goroutines that are past posting. */
  ghost predicate LogOk(s: State) {
    && (forall ch: ChanId :: Distinct(s.Log(ch)))
    && (forall ch: ChanId, e :: e in s.Log(ch) ==>
          e.id in s.actors && !s.actors[e.id].Waiting? && !s.actors[e.id].Locked?)
  }

  ghost predicate ReplyOk(s: State) {
    forall ch: ChanId, e :: e in s.Log(ch) && e.kind.UserText? ==> Reply(ch, e) in s.Queue(e.from)
  }

  ghost predicate Inv(s: State) {
    OrderOk(s) && MutexOk(s) && ActorsOk(s) && LogOk(s) && ReplyOk(s)
  }

  lemma PutSeen(s: State, c: ConnId, item: Item, d: ConnId, ch: ChanId)
    ensures Seen(s.Put(c, item), d, ch) ==
            if d == c && (item.Reply? || item.Broadcast?) && item.ch == ch then Seen(s, d, ch) + [item.e]
            else Seen(s, d, ch)
  {
    EntriesPut(s.Queue(c), item, ch);
  }

  /** Logs and what connections have seen of them are the same. */
  ghost predicate SameChat(s: State, s': State) {
    && (forall ch: ChanId :: s'.Log(ch) == s.Log(ch))
    && (forall c: ConnId, ch: ChanId :: Seen(s', c, ch) == Seen(s, c, ch))
  }

  lemma SameChatActor(s: State, s': State, a: ActorId)
    requires SameChat(s, s') && a in s.actors && a in s'.actors && s.actors[a] == s'.actors[a] && ActorOk(s, a)
    ensures ActorOk(s', a)
  {
    forall c: ConnId, ch: ChanId, e ensures Behind(s', c, ch, e) <==> Behind(s, c, ch, e) {
      assert s'.Log(ch) == s.Log(ch) && Seen(s', c, ch) == Seen(s, c, ch);
    }
  }

  lemma SameChatOrder(s: State, s': State)
    requires SameChat(s, s') && OrderOk(s)
    ensures OrderOk(s')
  {
    forall c: ConnId, ch: ChanId ensures Sub(Seen(s', c, ch), s'.Log(ch)) {
      assert Sub(Seen(s, c, ch), s.Log(ch)) && s'.Log(ch) == s.Log(ch);
    }
  }

  /** Traffic that is not a chat entry changes nothing that matters. */
  lemma PutOther(s: State, c: ConnId, item: Item)
    requires Inv(s) && (item.Report? || item.Other?)
    ensures Inv(s.Put(c, item))
  {
    var s' := s.Put(c, item);
    forall d: ConnId, ch: ChanId ensures Seen(s', d, ch) == Seen(s, d, ch) { PutSeen(s, c, item, d, ch); }
    assert forall ch: ChanId :: s'.Log(ch) == s.Log(ch);
    SameChatOrder(s, s');
    forall a | a in s'.actors ensures ActorOk(s', a) { SameChatActor(s, s', a); }
    assert forall d: ConnId, x :: x in s.Queue(d) ==> x in s'.Queue(d);
  }

  /** One goroutine moves on, without touching a queue or a log. */
  lemma ActorMoved(s: State, a: ActorId, actor: Actor)
    requires Inv(s)
    requires ActorOk(s.At(a, actor), a)
    requires a in s.actors && !s.actors[a].Waiting? && !s.actors[a].Locked? ==> !actor.Waiting? && !actor.Locked?
    requires a !in s.actors ==> actor.Waiting?
    requires forall ch, b :: b in s.actors && b != a && actor.Holds(ch) ==> !s.actors[b].Holds(ch)
    ensures Inv(s.At(a, actor))
  {
    var s' := s.At(a, actor);
    assert forall ch: ChanId :: s'.Log(ch) == s.Log(ch);
    assert forall d: ConnId :: s'.Queue(d) == s.Queue(d);
    SameChatOrder(s, s');
    forall b | b in s'.actors ensures ActorOk(s', b) {
      if b != a { SameChatActor(s, s', b); }
    }
  }

  // ---- Posting and sending ----

  lemma LoggedSeen(s: State, ch: ChanId, e: Entry, a: ActorId, actor: Actor)
    ensures var s' := s.(logs := s.logs[ch := s.Log(ch) + [e]]).At(a, actor);
            && (forall q: ChanId :: s'.Log(q) == if q == ch then s.Log(ch) + [e] else s.Log(q))
            && (forall c: ConnId :: s'.Queue(c) == s.Queue(c))
  {
  }

  /** State `s'` after posting: the log of `ch` has grown by `e`, which at most the sender has seen. */
  ghost predicate Grown(s: State, s': State, ch: ChanId, e: Entry) {
    && (forall q: ChanId :: s'.Log(q) == if q == ch then s.Log(ch) + [e] else s.Log(q))
    && (forall c: ConnId, q: ChanId ::
          || Seen(s', c, q) == Seen(s, c, q)
          || (c == e.from && q == ch && Seen(s', c, q) == Seen(s, c, q) + [e]))
  }

  lemma PostedSeen(s: State, a: ActorId, c: ConnId, q: ChanId)
    requires a in s.actors && s.actors[a].Locked?
    ensures var ch, e := s.actors[a].ch, s.actors[a].e;
            Seen(AfterPost(s, a, true), c, q) ==
            if e.kind.UserText? && c == e.from && q == ch then Seen(s, c, q) + [e] else Seen(s, c, q)
  {
    var ch, e := s.actors[a].ch, s.actors[a].e;
    var posted := s.(logs := s.logs[ch := s.Log(ch) + [e]]).At(a, Posted(ch, e));
    assert posted.Queue(c) == s.Queue(c);
    if e.kind.UserText? {
      PutSeen(posted, e.from, Reply(ch, e), c, q);
    }
  }

  lemma PostGrows(s: State, a: ActorId)
    requires a in s.actors && s.actors[a].Locked?
    ensures var s' := AfterPost(s, a, true);
            && Grown(s, s', s.actors[a].ch, s.actors[a].e)
            && s'.actors == s.actors[a := Posted(s.actors[a].ch, s.actors[a].e)]
            && (forall d: ConnId, x :: x in s.Queue(d) ==> x in s'.Queue(d))
            && (s.actors[a].e.kind.UserText? ==> Reply(s.actors[a].ch, s.actors[a].e) in s'.Queue(s.actors[a].e.from))
  {
    var ch, e := s.actors[a].ch, s.actors[a].e;
    LoggedSeen(s, ch, e, a, Posted(ch, e));
    forall c: ConnId, q: ChanId
      ensures || Seen(AfterPost(s, a, true), c, q) == Seen(s, c, q)
              || (c == e.from && q == ch && Seen(AfterPost(s, a, true), c, q) == Seen(s, c, q) + [e])
    {
      PostedSeen(s, a, c, q);
    }
  }

  lemma GrownOrder(s: State, s': State, ch: ChanId, e: Entry)
    requires OrderOk(s) && Grown(s, s', ch, e)
    ensures OrderOk(s')
    ensures forall c: ConnId :: c != e.from ==> Behind(s', c, ch, e)
  {
    forall c: ConnId, q: ChanId ensures Sub(Seen(s', c, q), s'.Log(q)) {
      assert Sub(Seen(s, c, q), s.Log(q));
      if q == ch {
        SubSkip(Seen(s, c, q), s.Log(q), e);
        SubBoth(Seen(s, c, q), s.Log(q), e);
      }
    }
    forall c: ConnId | c != e.from ensures Behind(s', c, ch, e) {
      assert s'.Log(ch)[..|s'.Log(ch)| - 1] == s.Log(ch);
      assert Sub(Seen(s, c, ch), s.Log(ch)) && Seen(s', c, ch) == Seen(s, c, ch);
    }
  }

  lemma GrownActor(s: State, s': State, ch: ChanId, e: Entry, b: ActorId)
    requires Grown(s, s', ch, e) && b in s.actors && b in s'.actors && s'.actors[b] == s.actors[b]
    requires ActorOk(s, b) && !s.actors[b].Holds(ch)
    ensures ActorOk(s', b)
  {
    forall c: ConnId, q: ChanId, x | q != ch ensures Behind(s', c, q, x) <==> Behind(s, c, q, x) {
      assert s'.Log(q) == s.Log(q) && Seen(s', c, q) == Seen(s, c, q);
    }
  }

  lemma GrownLog(s: State, s': State, ch: ChanId, a: ActorId)
    requires a in s.actors && s.actors[a].Locked? && s.actors[a].ch == ch && s.actors[a].e.id == a
    requires LogOk(s) && Grown(s, s', ch, s.actors[a].e) && s'.actors == s.actors[a := Posted(ch, s.actors[a].e)]
    ensures LogOk(s')
  {
    var e := s.actors[a].e;
    assert e !in s.Log(ch);
    forall q: ChanId ensures Distinct(s'.Log(q)) {
      assert Distinct(s.Log(q));
    }
    forall q: ChanId, x | x in s'.Log(q)
      ensures x.id in s'.actors && !s'.actors[x.id].Waiting? && !s'.actors[x.id].Locked?
    {
      assert x == e || x in s.Log(q);
    }
  }

  lemma PostKept(s: State, a: ActorId, ok: bool)
    requires Inv(s) && Enabled(s, Post(a, ok))
    ensures Inv(AfterPost(s, a, ok))
  {
    var ch, e := s.actors[a].ch, s.actors[a].e;
    var s' := AfterPost(s, a, ok);
    assert ActorOk(s, a);
    if e.kind.UserText? && !ok {
      ActorMoved(s, a, Done);
    } else {
      assert AfterPost(s, a, ok) == AfterPost(s, a, true);
      PostGrows(s, a);
      GrownOrder(s, s', ch, e);
      GrownLog(s, s', ch, a);
      forall b | b in s'.actors ensures ActorOk(s', b) {
        if b != a { GrownActor(s, s', ch, e, b); }
      }
      forall q: ChanId, x | x in s'.Log(q) && x.kind.UserText? ensures Reply(q, x) in s'.Queue(x.from) {
        assert (q == ch && x == e) || x in s.Log(q);
      }
    }
  }

  lemma SendIsSent(s: State, a: ActorId)
    requires Enabled(s, SendNext(a, true)) && s.actors[a].todo[0] != s.actors[a].e.from
    ensures Sent(s, AfterSendNext(s, a, true), s.actors[a].todo[0], s.actors[a].ch, s.actors[a].e)
  {
    var Sending(ch, e, todo) := s.actors[a];
    var s' := AfterSendNext(s, a, true);
    forall d: ConnId, q: ChanId
      ensures Seen(s', d, q) == if d == todo[0] && q == ch then Seen(s, d, q) + [e] else Seen(s, d, q)
    {
      PutSeen(s.At(a, Sending(ch, e, todo[1..])), todo[0], Broadcast(ch, e), d, q);
      assert s.At(a, Sending(ch, e, todo[1..])).Queue(d) == s.Queue(d);
    }
    assert forall q: ChanId :: s'.Log(q) == s.Log(q);
  }

  lemma SendKept(s: State, a: ActorId)
    requires Inv(s) && Enabled(s, SendNext(a, true)) && s.actors[a].todo[0] != s.actors[a].e.from
    ensures Inv(AfterSendNext(s, a, true))
  {
    var Sending(ch, e, todo) := s.actors[a];
    var s' := AfterSendNext(s, a, true);
    assert ActorOk(s, a) && s.actors[a].Holds(ch);
    SendIsSent(s, a);
    SentOrder(s, s', todo[0], ch, e);
    assert ActorsOk(s') by {
      SentOwnActor(s, s', a, todo[0], ch, e, todo);
      forall b | b in s'.actors && b != a ensures ActorOk(s', b) {
        assert ActorOk(s, b);
        SentOtherActor(s, s', todo[0], ch, e, b);
      }
    }
    SendRest(s, a);
  }

  lemma SendRest(s: State, a: ActorId)
    requires MutexOk(s) && LogOk(s) && ReplyOk(s)
    requires Enabled(s, SendNext(a, true)) && s.actors[a].todo[0] != s.actors[a].e.from
    ensures var s' := AfterSendNext(s, a, true); MutexOk(s') && LogOk(s') && ReplyOk(s')
  {
    var s' := AfterSendNext(s, a, true);
    assert forall q: ChanId :: s'.Log(q) == s.Log(q);
    assert forall d: ConnId, x :: x in s.Queue(d) ==> x in s'.Queue(d);
  }

  /** State `s'` after sending: only `c` has seen more, namely `e`. */
  ghost predicate Sent(s: State, s': State, c: ConnId, ch: ChanId, e: Entry) {
    && (forall q: ChanId :: s'.Log(q) == s.Log(q))
    && (forall d: ConnId, q: ChanId ::
          Seen(s', d, q) == if d == c && q == ch then Seen(s, d, q) + [e] else Seen(s, d, q))
  }

  lemma SentOrder(s: State, s': State, c: ConnId, ch: ChanId, e: Entry)
    requires OrderOk(s) && Sent(s, s', c, ch, e) && Behind(s, c, ch, e)
    ensures OrderOk(s')
  {
    forall d: ConnId, q: ChanId ensures Sub(Seen(s', d, q), s'.Log(q)) {
      SentSub(s, s', c, ch, e, d, q);
    }
  }

  lemma SentSub(s: State, s': State, c: ConnId, ch: ChanId, e: Entry, d: ConnId, q: ChanId)
    requires Sub(Seen(s, d, q), s.Log(q)) && Sent(s, s', c, ch, e) && Behind(s, c, ch, e)
    ensures Sub(Seen(s', d, q), s'.Log(q))
  {
    assert s'.Log(q) == s.Log(q);
    if d == c && q == ch {
      SubLast(Seen(s, c, ch), s.Log(ch));
      assert Seen(s', d, q) == Seen(s, c, ch) + [e];
    } else {
      assert Seen(s', d, q) == Seen(s, d, q);
    }
  }

  lemma SentBehind(s: State, s': State, c: ConnId, ch: ChanId, e: Entry, d: ConnId, q: ChanId, x: Entry)
    requires Sent(s, s', c, ch, e) && (d != c || q != ch)
    ensures Behind(s', d, q, x) <==> Behind(s, d, q, x)
  {
    assert s'.Log(q) == s.Log(q) && Seen(s', d, q) == Seen(s, d, q);
  }

  lemma SentOtherActor(s: State, s': State, c: ConnId, ch: ChanId, e: Entry, b: ActorId)
    requires Sent(s, s', c, ch, e) && b in s.actors && b in s'.actors && s'.actors[b] == s.actors[b]
    requires ActorOk(s, b) && !s.actors[b].Holds(ch)
    ensures ActorOk(s', b)
  {
    forall d: ConnId, q: ChanId, x | q != ch ensures Behind(s', d, q, x) <==> Behind(s, d, q, x) {
      SentBehind(s, s', c, ch, e, d, q, x);
    }
  }

  lemma SentOwnActor(s: State, s': State, a: ActorId, c: ConnId, ch: ChanId, e: Entry, todo: seq<ConnId>)
    requires a in s.actors && a in s'.actors && s.actors[a] == Sending(ch, e, todo) && ActorOk(s, a)
    requires todo != [] && todo[0] == c && Sent(s, s', c, ch, e) && s'.actors[a] == Sending(ch, e, todo[1..])
    ensures ActorOk(s', a)
  {
    forall d: ConnId | d in todo[1..] && d != e.from ensures Behind(s', d, ch, e) {
      assert d != c && Behind(s, d, ch, e);
      SentBehind(s, s', c, ch, e, d, ch, e);
    }
  }

  lemma InvKept(s: State, e: Event)
    requires Inv(s) && Enabled(s, e)
    ensures Inv(Next(s, e))
  {
    match e {
      case Start(a, ch, kind, from) => ActorMoved(s, a, Waiting(ch, Entry(a, kind, from)));
      case Lock(a) =>
        assert ActorOk(s, a);
        ActorMoved(s, a, Locked(s.actors[a].ch, s.actors[a].e));
      case Post(a, ok) => PostKept(s, a, ok);
      case Snapshot(a, order) => SnapshotKept(s, a, order);
      case SendNext(a, ok) => SendNextKept(s, a, ok);
      case Unlock(a) => ActorMoved(s, a, Next(s, e).actors[a]);
      case SendReport(a, ok) =>
        ActorMoved(s, a, Done);
        if ok { PutOther(s.At(a, Done), s.actors[a].e.from, Report(s.actors[a].ch, s.actors[a].e.id)); }
      case Membership(ch, now) => MembershipKept(s, ch, now);
      case Traffic(c) => PutOther(s, c, Other);
    }
  }

  lemma MembershipKept(s: State, ch: ChanId, now: set<ConnId>)
    requires Inv(s)
    ensures Inv(s.(members := s.members[ch := now]))
  {
    var s' := s.(members := s.members[ch := now]);
    assert forall q: ChanId :: s'.Log(q) == s.Log(q);
    assert forall d: ConnId :: s'.Queue(d) == s.Queue(d);
    SameChatOrder(s, s');
    forall b | b in s'.actors ensures ActorOk(s', b) { SameChatActor(s, s', b); }
  }

  lemma SnapshotKept(s: State, a: ActorId, order: seq<ConnId>)
    requires Inv(s) && Enabled(s, Snapshot(a, order))
    ensures Inv(Next(s, Snapshot(a, order)))
  {
    var ch, e := s.actors[a].ch, s.actors[a].e;
    var s' := Next(s, Snapshot(a, order));
    assert ActorOk(s, a) && s.actors[a].Holds(ch);
    forall c: ConnId | c != e.from ensures Behind(s', c, ch, e) {
      assert Behind(s, c, ch, e) && s'.Log(ch) == s.Log(ch) && s'.Queue(c) == s.Queue(c);
    }
    ActorMoved(s, a, Sending(ch, e, order));
  }

  lemma SendNextKept(s: State, a: ActorId, ok: bool)
    requires Inv(s) && Enabled(s, SendNext(a, ok))
    ensures Inv(Next(s, SendNext(a, ok)))
  {
    var Sending(ch, e, todo) := s.actors[a];
    if todo[0] != e.from && ok {
      SendKept(s, a);
    } else {
      var s' := s.At(a, Sending(ch, e, todo[1..]));
      assert ActorOk(s, a) && s.actors[a].Holds(ch);
      forall c: ConnId | c in todo[1..] && c != e.from ensures Behind(s', c, ch, e) {
        assert Behind(s, c, ch, e) && s'.Log(ch) == s.Log(ch) && s'.Queue(c) == s.Queue(c);
      }
      ActorMoved(s, a, Sending(ch, e, todo[1..]));
    }
  }

  // ---- Over every run ----

  ghost predicate Legal(s: State, es: seq<Event>)
    decreases es
  {
    es == [] || (Enabled(s, es[0]) && Legal(Next(s, es[0]), es[1..]))
  }

  ghost function Run(s: State, es: seq<Event>): State
    requires Legal(s, es)
    decreases es
  {
    if es == [] then s else Run(Next(s, es[0]), es[1..])
  }

  lemma {:induction false} InvOfRun(s: State, es: seq<Event>)
    requires Inv(s) && Legal(s, es)
    ensures Inv(Run(s, es))
    decreases es
  {
    if es != [] {
      InvKept(s, es[0]);
      InvOfRun(Next(s, es[0]), es[1..]);
    }
  }

  lemma InitInv()
    ensures Inv(INIT)
  {
    assert forall c: ConnId, ch: ChanId :: Seen(INIT, c, ch) == [];
    assert forall ch: ChanId :: INIT.Log(ch) == [];
  }

  /** What a connection is sent of a channel's chat is a subsequence of one log common to all
      connections, with nothing in it twice. */
  lemma OneLogForAll(es: seq<Event>, c: ConnId, ch: ChanId)
    requires Legal(INIT, es)
    ensures var s := Run(INIT, es);
            Sub(Seen(s, c, ch), s.Log(ch)) && Distinct(s.Log(ch)) && Distinct(Seen(s, c, ch))
  {
    InitInv();
    InvOfRun(INIT, es);
    var s := Run(INIT, es);
    assert Sub(Seen(s, c, ch), s.Log(ch)) && Distinct(s.Log(ch));
    var f := SubPositions(Seen(s, c, ch), s.Log(ch));
  }

  /** Any two connections that both got two entries got them in the same order. */
  lemma SameOrderForAll(es: seq<Event>, ch: ChanId, c: ConnId, d: ConnId, i: nat, j: nat, k: nat, l: nat)
    requires Legal(INIT, es)
    requires i < j < |Seen(Run(INIT, es), c, ch)|
    requires k < |Seen(Run(INIT, es), d, ch)| && l < |Seen(Run(INIT, es), d, ch)|
    requires Seen(Run(INIT, es), c, ch)[i] == Seen(Run(INIT, es), d, ch)[k]
    requires Seen(Run(INIT, es), c, ch)[j] == Seen(Run(INIT, es), d, ch)[l]
    ensures k < l
  {
    OneLogForAll(es, c, ch);
    OneLogForAll(es, d, ch);
    var s := Run(INIT, es);
    var f := SubPositions(Seen(s, c, ch), s.Log(ch));
    var g := SubPositions(Seen(s, d, ch), s.Log(ch));
    assert f[i] == g[k] && f[j] == g[l];
  }

  lemma {:induction false} BroadcastIsEntry(q: seq<Item>, ch: ChanId, e: Entry)
    requires Broadcast(ch, e) in q
    ensures e in Entries(q, ch)
  {
    var n := |q| - 1;
    if q[n] != Broadcast(ch, e) {
      assert Broadcast(ch, e) in q[..n];
      BroadcastIsEntry(q[..n], ch, e);
    }
  }

  /** No message reaches another connection unless the sender's own reply was queued before. */
  lemma ReplyComesFirst(es: seq<Event>, ch: ChanId, e: Entry, c: ConnId)
    requires Legal(INIT, es) && e.kind.UserText? && Broadcast(ch, e) in Run(INIT, es).Queue(c)
    ensures Reply(ch, e) in Run(INIT, es).Queue(e.from)
  {
    InitInv();
    InvOfRun(INIT, es);
    var s := Run(INIT, es);
    BroadcastIsEntry(s.Queue(c), ch, e);
    assert Sub(Seen(s, c, ch), s.Log(ch));
    var f := SubPositions(Seen(s, c, ch), s.Log(ch));
  }

  // ---- The critical sections themselves ----

  /** The broadcast loop under the mutex, where `failing` are the connections whose queue refuses. */
  function Broadcasts(queues: Queues, todo: seq<ConnId>, ch: ChanId, e: Entry, failing: set<ConnId>): Queues
    decreases todo
  {
    if todo == [] then queues
    else
      var skip := todo[0] == e.from || todo[0] in failing;
      Broadcasts(if skip then queues else PutOn(queues, todo[0], Broadcast(ch, e)), todo[1..], ch, e, failing)
  }

  /** What posting a message does to the queues: the reply, the broadcast, and after the mutex is
      released the delivery report; nothing if the reply is refused. */
  function MessagePosted(queues: Queues, order: seq<ConnId>, ch: ChanId, e: Entry, failing: set<ConnId>): Queues {
    if e.from in failing then queues
    else
      var replied := PutOn(queues, e.from, Reply(ch, e));
      PutOn(Broadcasts(replied, order, ch, e, failing), e.from, Report(ch, e.id))
  }

  /** The same for a message or a notice, which has neither reply nor report. */
  function EntryPosted(queues: Queues, order: seq<ConnId>, ch: ChanId, e: Entry, failing: set<ConnId>): Queues {
    if e.kind.UserText? then MessagePosted(queues, order, ch, e, failing)
    else Broadcasts(queues, order, ch, e, failing)
  }

  /** The loop gives each of the connections exactly one copy, unless it is the sender or refuses;
      nothing else changes on any queue. */
  lemma {:induction false} BroadcastReachesEachOnce(
      queues: Queues, todo: seq<ConnId>, ch: ChanId, e: Entry, failing: set<ConnId>, c: ConnId)
    requires Distinct(todo)
    ensures QueueOf(Broadcasts(queues, todo, ch, e, failing), c) ==
            QueueOf(queues, c) + if c in todo && c != e.from && c !in failing then [Broadcast(ch, e)] else []
    decreases todo
  {
    if todo != [] {
      var skip := todo[0] == e.from || todo[0] in failing;
      var queues' := if skip then queues else PutOn(queues, todo[0], Broadcast(ch, e));
      assert c in todo <==> c == todo[0] || c in todo[1..];
      BroadcastReachesEachOnce(queues', todo[1..], ch, e, failing, c);
    }
  }

  /** What posting an entry puts on each queue: the broadcast for every member but the sender and those
      that refuse; for the sender the reply and the report of a message; and nothing at all if the
      reply of a message is refused. */
  lemma PostedQueues(queues: Queues, order: seq<ConnId>, ch: ChanId, e: Entry, failing: set<ConnId>, c: ConnId)
    requires Distinct(order)
    ensures QueueOf(EntryPosted(queues, order, ch, e, failing), c) ==
            QueueOf(queues, c) + if e.kind.UserText? && e.from in failing then []
                                 else if c == e.from && e.kind.UserText? then [Reply(ch, e), Report(ch, e.id)]
                                 else if c == e.from then []
                                 else if c in order && c !in failing then [Broadcast(ch, e)]
                                 else []
  {
    BroadcastReachesEachOnce(PutOn(queues, e.from, Reply(ch, e)), order, ch, e, failing, c);
    BroadcastReachesEachOnce(queues, order, ch, e, failing, c);
  }

  class Room {
    const ch: ChanId
    var members: seq<ConnId>
    var queues: Queues

    constructor (ch: ChanId)
      ensures this.ch == ch && members == [] && queues == map[]
    {
      this.ch := ch;
      members, queues := [], map[];
    }

    method RawSend(c: ConnId, item: Item)
      modifies this`queues
      ensures queues == PutOn(old(queues), c, item)
    {
      queues := queues[c := (if c in queues then queues[c] else []) + [item]];
    }

    method BroadcastAll(e: Entry, failing: set<ConnId>)
      modifies this`queues
      ensures queues == Broadcasts(old(queues), members, ch, e, failing)
    {
      for i := 0 to |members|
        invariant Broadcasts(queues, members[i..], ch, e, failing) == Broadcasts(old(queues), members, ch, e, failing)
      {
        assert members[i..][1..] == members[i + 1..];
        if members[i] != e.from && members[i] !in failing {
          RawSend(members[i], Broadcast(ch, e));
        }
      }
    }

    /** A chat message: reply, broadcast under the mutex, delivery report after it. */
    method PostMessage(e: Entry, failing: set<ConnId>) returns (ok: bool)
      modifies this`queues
      ensures ok <==> e.from !in failing
      ensures queues == MessagePosted(old(queues), members, ch, e, failing)
    {
      if e.from in failing {
        return false;
      }
      RawSend(e.from, Reply(ch, e));
      BroadcastAll(e, failing);
      RawSend(e.from, Report(ch, e.id));
      return true;
    }

    /** A join or left notice: broadcast under the mutex, and nothing else. */
    method PostNotice(e: Entry, failing: set<ConnId>)
      requires !e.kind.UserText?
      modifies this`queues
      ensures queues == EntryPosted(old(queues), members, ch, e, failing)
    {
      BroadcastAll(e, failing);
    }
  }

  // ---- The critical section is a run of the machine ----

  lemma RunOne(s: State, e: Event, es: seq<Event>)
    requires Enabled(s, e) && Legal(Next(s, e), es)
    ensures Legal(s, [e] + es) && Run(s, [e] + es) == Run(Next(s, e), es)
  {
    assert ([e] + es)[1..] == es;
  }

  /** `es` takes goroutine `a` to its end, with these queues. */
  ghost predicate Leads(s: State, es: seq<Event>, a: ActorId, queues: Queues) {
    && Legal(s, es) && a in Run(s, es).actors && Run(s, es).actors[a].Done?
    && Run(s, es).queues == queues
  }

  /** The sends to `todo`, of which exactly those to `failing` are refused, and what follows them. */
  function SendScript(a: ActorId, kind: Kind, todo: seq<ConnId>, failing: set<ConnId>): seq<Event> {
    if todo == [] then [Unlock(a)] + if kind.UserText? then [SendReport(a, true)] else []
    else [SendNext(a, todo[0] !in failing)] + SendScript(a, kind, todo[1..], failing)
  }

  /** All that a goroutine does which is not interrupted. */
  function Script(a: ActorId, e: Entry, order: seq<ConnId>, failing: set<ConnId>): seq<Event> {
    [Lock(a)] + ([Post(a, e.from !in failing)] +
      if e.kind.UserText? && e.from in failing then []
      else [Snapshot(a, order)] + SendScript(a, e.kind, order, failing))
  }

  lemma {:induction false} BroadcastRuns(s: State, a: ActorId, failing: set<ConnId>)
    requires a in s.actors && s.actors[a].Sending? && (s.actors[a].e.kind.UserText? ==> s.actors[a].e.from !in failing)
    ensures var Sending(ch, e, todo) := s.actors[a];
            var sent := Broadcasts(s.queues, todo, ch, e, failing);
            Leads(s, SendScript(a, e.kind, todo, failing), a,
                  if e.kind.UserText? then PutOn(sent, e.from, Report(ch, e.id)) else sent)
    decreases s.actors[a].todo
  {
    var Sending(ch, e, todo) := s.actors[a];
    if todo != [] {
      var step := SendNext(a, todo[0] !in failing);
      BroadcastRuns(Next(s, step), a, failing);
      RunOne(s, step, SendScript(a, e.kind, todo[1..], failing));
    } else if e.kind.UserText? {
      RunOne(Next(s, Unlock(a)), SendReport(a, true), []);
      RunOne(s, Unlock(a), [SendReport(a, true)]);
    } else {
      RunOne(s, Unlock(a), []);
    }
  }

  /** What PostMessage and PostNotice do to the queues is what a goroutine that is not interrupted does:
      it waits for the mutex, finds it free, and goes through the members in the given order, and a
      send is refused exactly for the connections in `failing`. */
  lemma PostRuns(s: State, a: ActorId, order: seq<ConnId>, failing: set<ConnId>)
    requires a in s.actors && s.actors[a].Waiting? && Enabled(s, Lock(a))
    requires Enumerates(order, s.Members(s.actors[a].ch))
    ensures var e := s.actors[a].e;
            Leads(s, Script(a, e, order, failing), a, EntryPosted(s.queues, order, s.actors[a].ch, e, failing))
  {
    var e := s.actors[a].e;
    var s1 := Next(s, Lock(a));
    var post := Post(a, e.from !in failing);
    var s2 := Next(s1, post);
    var rest: seq<Event> := [];
    if !(e.kind.UserText? && e.from in failing) {
      BroadcastRuns(Next(s2, Snapshot(a, order)), a, failing);
      RunOne(s2, Snapshot(a, order), SendScript(a, e.kind, order, failing));
      rest := [Snapshot(a, order)] + SendScript(a, e.kind, order, failing);
    }
    RunOne(s1, post, rest);
    RunOne(s, Lock(a), [post] + rest);
  }

  // ---- Who gets an entry, in every interleaving ----

  /** Goroutines post entries with their own ids. */
  ghost predicate OwnEntries(s: State) {
    forall a :: a in s.actors && !s.actors[a].Done? ==> s.actors[a].e.id == a
  }

  lemma OwnEntriesStep(s: State, step: Event)
    requires OwnEntries(s) && Enabled(s, step)
    ensures OwnEntries(Next(s, step))
  {
  }

  lemma {:induction false} OwnEntriesKept(s: State, es: seq<Event>)
    requires OwnEntries(s) && Legal(s, es)
    ensures OwnEntries(Run(s, es))
    decreases es
  {
    if es != [] {
      OwnEntriesStep(s, es[0]);
      OwnEntriesKept(Next(s, es[0]), es[1..]);
    }
  }

  /** In this run a send of goroutine `a` to `c` is refused. */
  ghost predicate Refuses(s: State, es: seq<Event>, a: ActorId, c: ConnId)
    requires Legal(s, es)
    decreases es
  {
    es != [] &&
    (|| (es[0] == SendNext(a, false) && s.actors[a].todo[0] == c)
     || Refuses(Next(s, es[0]), es[1..], a, c))
  }

  /** Goroutine `a` is past the snapshot for this entry of its own. */
  ghost predicate PastSnapshot(s: State, a: ActorId, ch: ChanId, e: Entry) {
    && OwnEntries(s) && a in s.actors && e.id == a
    && match s.actors[a]
       case Sending(ch', e', _) => ch' == ch && e' == e
       case Reporting(_, _) => true
       case Done => true
       case _ => false
  }

  lemma PastSnapshotStep(s: State, step: Event, a: ActorId, ch: ChanId, e: Entry)
    requires PastSnapshot(s, a, ch, e) && Enabled(s, step)
    ensures PastSnapshot(Next(s, step), a, ch, e)
    ensures var s' := Next(s, step);
            s'.actors[a].Sending? ==>
              && s.actors[a].Sending?
              && s'.actors[a].todo == if step.SendNext? && step.a == a then s.actors[a].todo[1..] else s.actors[a].todo
    ensures s.actors[a].Sending? && s.actors[a].todo != [] ==> Next(s, step).actors[a].Sending?
  {
    OwnEntriesStep(s, step);
  }

  /** Only its own goroutine puts an entry on a queue. */
  lemma EntryStep(s: State, step: Event, a: ActorId, ch: ChanId, e: Entry, c: ConnId)
    requires PastSnapshot(s, a, ch, e) && Enabled(s, step) && c != e.from
    ensures Broadcast(ch, e) in Next(s, step).Queue(c) <==>
              Broadcast(ch, e) in s.Queue(c) || (step == SendNext(a, true) && s.actors[a].todo[0] == c)
  {
  }

  /** A connection that is not, or no longer, to be sent the entry gets nothing more of it. */
  lemma {:induction false} Settled(s: State, es: seq<Event>, a: ActorId, ch: ChanId, e: Entry, c: ConnId)
    requires PastSnapshot(s, a, ch, e) && Legal(s, es) && c != e.from
    requires s.actors[a].Sending? ==> c !in s.actors[a].todo
    ensures Broadcast(ch, e) in Run(s, es).Queue(c) <==> Broadcast(ch, e) in s.Queue(c)
    ensures !Refuses(s, es, a, c)
    decreases es
  {
    if es != [] {
      EntryStep(s, es[0], a, ch, e, c);
      PastSnapshotStep(s, es[0], a, ch, e);
      Settled(Next(s, es[0]), es[1..], a, ch, e, c);
    }
  }

  lemma {:induction false} SentUnlessRefused(s: State, es: seq<Event>, a: ActorId, ch: ChanId, e: Entry, c: ConnId)
    requires PastSnapshot(s, a, ch, e) && Legal(s, es) && s.actors[a].Sending?
    requires Distinct(s.actors[a].todo) && c in s.actors[a].todo && c != e.from && Broadcast(ch, e) !in s.Queue(c)
    requires a in Run(s, es).actors && !Run(s, es).actors[a].Sending?
    ensures Broadcast(ch, e) in Run(s, es).Queue(c) <==> !Refuses(s, es, a, c)
    decreases es
  {
    var todo := s.actors[a].todo;
    EntryStep(s, es[0], a, ch, e, c);
    PastSnapshotStep(s, es[0], a, ch, e);
    if es[0].SendNext? && es[0].a == a && todo[0] == c {
      assert c !in todo[1..];
      Settled(Next(s, es[0]), es[1..], a, ch, e, c);
    } else {
      SentUnlessRefused(Next(s, es[0]), es[1..], a, ch, e, c);
    }
  }

  /** In every run, once a goroutine has gone through the members it found, an entry is on the queue of
      each of them but the sender exactly if that connection did not refuse it. */
  lemma EveryoneGetsIt(es: seq<Event>, more: seq<Event>, a: ActorId, c: ConnId)
    requires Legal(INIT, es) && a in Run(INIT, es).actors && Run(INIT, es).actors[a].Sending?
    requires c in Run(INIT, es).actors[a].todo && c != Run(INIT, es).actors[a].e.from
    requires Legal(Run(INIT, es), more)
    requires a in Run(Run(INIT, es), more).actors && !Run(Run(INIT, es), more).actors[a].Sending?
    ensures var s := Run(INIT, es);
            Broadcast(s.actors[a].ch, s.actors[a].e) in Run(s, more).Queue(c) <==> !Refuses(s, more, a, c)
  {
    InitInv();
    InvOfRun(INIT, es);
    OwnEntriesKept(INIT, es);
    var s := Run(INIT, es);
    assert ActorOk(s, a);
    NotSentYet(s, a, c);
    SentUnlessRefused(s, more, a, s.actors[a].ch, s.actors[a].e, c);
  }

  lemma NotSentYet(s: State, a: ActorId, c: ConnId)
    requires Inv(s) && a in s.actors && s.actors[a].Sending? && c in s.actors[a].todo && c != s.actors[a].e.from
    ensures Broadcast(s.actors[a].ch, s.actors[a].e) !in s.Queue(c)
  {
    var Sending(ch, e, todo) := s.actors[a];
    assert ActorOk(s, a) && Behind(s, c, ch, e);
    var log := s.Log(ch);
    assert Distinct(log);
    var f := SubPositions(Seen(s, c, ch), log[..|log| - 1]);
    assert forall i :: 0 <= i < |f| ==> Seen(s, c, ch)[i] == log[f[i]] != e;
    if Broadcast(ch, e) in s.Queue(c) {
      BroadcastIsEntry(s.Queue(c), ch, e);
    }
  }
}
