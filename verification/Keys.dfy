/** One-time keys for opening a websocket (signaling/rtm/manager.go:134-147 and 234-250,
    signaling/rtm/handlers.go:37-48, signaling/rtm/rtm.go:25-26). */
module Keys {
  import opened Common
  import Expiry

  type Time = Expiry.Time
  type Key = string

  const EXPIRATION := 30 * SECOND
  const CLEANUP_INTERVAL := 60 * SECOND

  /** A purge pass that started at `start` has still to remove `found`. */
  datatype Pass = Idle | Passing(start: Time, found: set<Key>)

  /** `issued` lists all keys ever issued, `accepted` the keys requests were accepted for, in order;
      `swept` is the start of the last purge pass that has finished. */
  datatype State = State(
    keys: map<Key, Time>, pass: Pass, now: Time, swept: Time, issued: set<Key>, accepted: seq<Key>)

  function Init(start: Time): State {
    State(map[], Idle, start, start, {}, [])
  }

  datatype Event =
    | Connect(at: Time, key: Key)
    | Request(at: Time, key: Key)
    | PassStart(at: Time)
    | PassRemove(at: Time, key: Key)
    | PassEnd(at: Time)

  /** Keys are random and fresh; time does not run backwards. */
  predicate Enabled(s: State, e: Event) {
    e.at >= s.now &&
    match e
    case Connect(_, key) => key !in s.issued
    case Request(_, _) => true
    case PassStart(_) => s.pass.Idle?
    case PassRemove(_, key) => s.pass.Passing? && key in s.pass.found
    case PassEnd(_) => s.pass.Passing? && s.pass.found == {}
  }

  function Next(s: State, e: Event): State
    requires Enabled(s, e)
  {
    var s := s.(now := e.at);
    match e
    case Connect(at, key) => s.(keys := s.keys[key := at], issued := s.issued + {key})
    case Request(_, key) =>
      if key in s.keys then s.(keys := s.keys - {key}, accepted := s.accepted + [key]) else s
    case PassStart(at) =>
      s.(pass := Passing(at, set k | k in s.keys && s.keys[k] < at - EXPIRATION))
    case PassRemove(_, key) => s.(keys := s.keys - {key}, pass := s.pass.(found := s.pass.found - {key}))
    case PassEnd(_) => s.(pass := Idle, swept := s.pass.start)
  }

  predicate Legal(s: State, es: seq<Event>)
    decreases es
  {
    es == [] || (Enabled(s, es[0]) && Legal(Next(s, es[0]), es[1..]))
  }

  function Run(s: State, es: seq<Event>): State
    requires Legal(s, es)
    decreases es
  {
    if es == [] then s else Run(Next(s, es[0]), es[1..])
  }

  /** At every event, the last finished purge pass started at most `gap` ago. */
  predicate Swept(s: State, es: seq<Event>, gap: Time)
    requires Legal(s, es)
    decreases es
  {
    es == [] || (es[0].at - s.swept <= gap && Swept(Next(s, es[0]), es[1..], gap))
  }

  ghost predicate Inv(s: State) {
    && s.swept <= s.now
    && (forall k :: k in s.keys ==> k in s.issued && s.swept - EXPIRATION <= s.keys[k] <= s.now)
    && (forall k :: k in s.accepted ==> k in s.issued && k !in s.keys)
    && (forall k :: Count(s.accepted, k) <= 1)
    && (s.pass.Passing? ==>
          && s.swept <= s.pass.start <= s.now
          && s.pass.found <= s.issued
          && forall k :: k in s.keys ==> (k in s.pass.found <==> s.keys[k] < s.pass.start - EXPIRATION))
  }

  lemma {:induction false} CountAppend(xs: seq<Key>, x: Key, y: Key)
    ensures Count(xs + [y], x) == Count(xs, x) + if x == y then 1 else 0
  {
    if xs == [] {
      assert xs + [y] == [y];
    } else {
      assert (xs + [y])[1..] == xs[1..] + [y];
      CountAppend(xs[1..], x, y);
    }
  }

  lemma {:induction false} CountIn(xs: seq<Key>, x: Key)
    ensures Count(xs, x) > 0 ==> x in xs
  {
    if xs != [] { CountIn(xs[1..], x); }
  }

  lemma InvKept(s: State, e: Event)
    requires Inv(s) && Enabled(s, e)
    ensures Inv(Next(s, e))
  {
    if e.Request? && e.key in s.keys {
      forall k ensures Count(s.accepted + [e.key], k) <= 1 {
        CountAppend(s.accepted, k, e.key);
        CountIn(s.accepted, k);
      }
    }
  }

  lemma {:induction false} InvOfRun(s: State, es: seq<Event>)
    requires Inv(s) && Legal(s, es)
    ensures Inv(Run(s, es))
    decreases es
  {
    if es != [] {
      InvKept(s, es[0]);
      InvOfRun(Next(s, es[0]), es[1..]);
    }
  }

  /** The event takes the key away. */
  predicate Takes(e: Event, key: Key) {
    (e.Request? || e.PassRemove?) && e.key == key
  }

  ghost predicate Untouched(es: seq<Event>, key: Key) {
    forall e :: e in es ==> !Takes(e, key)
  }

  /** `es[i]` issues the key, and nothing has taken it since. */
  ghost predicate Standing(es: seq<Event>, i: nat, key: Key) {
    i < |es| && es[i].Connect? && es[i].key == key && Untouched(es[i + 1..], key)
  }

  lemma StandingStep(es: seq<Event>, key: Key)
    requires es != []
    ensures Standing(es, 0, key) <==> es[0].Connect? && es[0].key == key && Untouched(es[1..], key)
    ensures forall i: nat :: Standing(es[1..], i, key) ==> Standing(es, i + 1, key)
    ensures forall i: nat :: Standing(es, i, key) && i > 0 ==> Standing(es[1..], i - 1, key)
  {
    forall i: nat | i + 1 < |es| ensures Standing(es, i + 1, key) <==> Standing(es[1..], i, key) {
      assert es[1..][i + 1..] == es[i + 2..];
    }
  }

  lemma UntouchedStep(es: seq<Event>, key: Key)
    requires es != []
    ensures Untouched(es, key) <==> !Takes(es[0], key) && Untouched(es[1..], key)
  {
    assert forall e :: e in es <==> e == es[0] || e in es[1..];
  }

  lemma StoredStep(s: State, e: Event, key: Key)
    requires Inv(s) && Enabled(s, e)
    ensures var s' := Next(s, e);
            && (key in s'.keys <==> (key in s.keys && !Takes(e, key)) || (e.Connect? && e.key == key))
            && (key in s'.keys ==> s'.keys[key] == if e.Connect? && e.key == key then e.at else s.keys[key])
            && (e.Connect? && e.key == key ==> key !in s.keys)
  {
  }

  lemma {:induction false} StoredFrom(s: State, es: seq<Event>, key: Key)
    requires Inv(s) && Legal(s, es)
    ensures key in Run(s, es).keys <==>
              (key in s.keys && Untouched(es, key)) || exists i: nat :: Standing(es, i, key)
    ensures key in s.keys && Untouched(es, key) ==> Run(s, es).keys[key] == s.keys[key]
    ensures forall i: nat :: Standing(es, i, key) ==> Run(s, es).keys[key] == es[i].at
    decreases es
  {
    if es != [] {
      var s', rest := Next(s, es[0]), es[1..];
      InvKept(s, es[0]);
      StoredStep(s, es[0], key);
      UntouchedStep(es, key);
      StandingStep(es, key);
      StoredFrom(s', rest, key);
      forall i: nat | Standing(es, i, key)
        ensures key in Run(s', rest).keys && Run(s', rest).keys[key] == es[i].at
      {
        assert i > 0 ==> Standing(rest, i - 1, key);
      }
      if i: nat :| Standing(rest, i, key) {
        assert Standing(es, i + 1, key);
      }
    }
  }

  /** In every run a key is stored, with the time it was issued, exactly if it was issued and has since
      been neither requested nor purged. */
  lemma StoredIff(start: Time, es: seq<Event>, key: Key)
    requires Legal(Init(start), es)
    ensures key in Run(Init(start), es).keys <==> exists i: nat :: Standing(es, i, key)
    ensures forall i: nat :: Standing(es, i, key) ==> Run(Init(start), es).keys[key] == es[i].at
  {
    StoredFrom(Init(start), es, key);
  }

  /** And a request for it is accepted exactly then. */
  lemma AcceptedIff(start: Time, es: seq<Event>, at: Time, key: Key)
    requires Legal(Init(start), es) && Enabled(Run(Init(start), es), Request(at, key))
    ensures var s := Run(Init(start), es);
            Next(s, Request(at, key)).accepted ==
            s.accepted + if exists i: nat :: Standing(es, i, key) then [key] else []
  {
    StoredIff(start, es, key);
  }

  /** In particular the first request for a key is accepted, if it comes at most 30 seconds after the
      key was issued: no pass can have taken it. */
  lemma FirstRequestAccepted(start: Time, es: seq<Event>, t: Time, key: Key, more: seq<Event>, at: Time)
    requires Legal(Init(start), es) && Enabled(Run(Init(start), es), Connect(t, key))
    requires var s := Next(Run(Init(start), es), Connect(t, key));
             Legal(s, more) && Enabled(Run(s, more), Request(at, key))
    requires at - t <= EXPIRATION && forall e :: e in more ==> !(e.Request? && e.key == key)
    ensures var s := Run(Next(Run(Init(start), es), Connect(t, key)), more);
            Next(s, Request(at, key)).accepted == s.accepted + [key]
  {
    InvOfRun(Init(start), es);
    var s := Run(Init(start), es);
    InvKept(s, Connect(t, key));
    YoungStays(Next(s, Connect(t, key)), more, key, at);
  }

  lemma {:induction false} YoungStays(s: State, es: seq<Event>, key: Key, at: Time)
    requires Inv(s) && Legal(s, es) && key in s.keys && Run(s, es).now <= at && at - s.keys[key] <= EXPIRATION
    requires forall e :: e in es ==> !(e.Request? && e.key == key)
    ensures key in Run(s, es).keys
    decreases es
  {
    if es != [] {
      assert es[0] in es;
      InvKept(s, es[0]);
      TimeGoesOn(Next(s, es[0]), es[1..]);
      YoungStays(Next(s, es[0]), es[1..], key, at);
    }
  }

  lemma {:induction false} TimeGoesOn(s: State, es: seq<Event>)
    requires Legal(s, es)
    ensures s.now <= Run(s, es).now
    decreases es
  {
    if es != [] { TimeGoesOn(Next(s, es[0]), es[1..]); }
  }

  /** Each key opens at most one websocket. */
  lemma KeysAreOneTime(start: Time, es: seq<Event>, key: Key)
    requires Legal(Init(start), es)
    ensures Count(Run(Init(start), es).accepted, key) <= 1
  {
    InvOfRun(Init(start), es);
  }

  /** In every run, a key that a purge pass takes away is more than 30 seconds old, and a key that is
      still there when the pass ends was at most 30 seconds old when the pass started. */
  lemma YoungKeysStay(start: Time, es: seq<Event>, at: Time, key: Key)
    requires Legal(Init(start), es) && key in Run(Init(start), es).keys
    ensures var s := Run(Init(start), es);
            && (Enabled(s, PassRemove(at, key)) ==> at - s.keys[key] > EXPIRATION)
            && (Enabled(s, PassEnd(at)) ==> s.pass.start - s.keys[key] <= EXPIRATION)
  {
    InvOfRun(Init(start), es);
  }

  /** If finished passes start at most `gap` apart, no key older than `gap` plus 30 seconds is ever
      accepted: 90 seconds for passes that come every minute. */
  lemma NoOldKeyAccepted(start: Time, es: seq<Event>, request: Event, gap: Time)
    requires Legal(Init(start), es + [request]) && Swept(Init(start), es + [request], gap)
    requires request.Request? && Legal(Init(start), es) && request.key in Run(Init(start), es).keys
    ensures request.at - Run(Init(start), es).keys[request.key] <= gap + EXPIRATION
    ensures gap <= CLEANUP_INTERVAL ==> request.at - Run(Init(start), es).keys[request.key] <= 90 * SECOND
  {
    InvOfRun(Init(start), es);
    SweptAtEnd(Init(start), es, request, gap);
  }

  lemma {:induction false} SweptAtEnd(s: State, es: seq<Event>, e: Event, gap: Time)
    requires Legal(s, es) && Legal(s, es + [e]) && Swept(s, es + [e], gap)
    ensures e.at - Run(s, es).swept <= gap
    decreases es
  {
    if es == [] {
      assert es + [e] == [e];
    } else {
      assert (es + [e])[1..] == es[1..] + [e];
      SweptAtEnd(Next(s, es[0]), es[1..], e, gap);
    }
  }

  // ---- The object itself ----

  lemma RunOne(s: State, e: Event, es: seq<Event>)
    requires Enabled(s, e) && Legal(Next(s, e), es)
    ensures Legal(s, [e] + es) && Run(s, [e] + es) == Run(Next(s, e), es)
  {
    assert ([e] + es)[1..] == es;
  }

  function Young(keys: map<Key, Time>, at: Time): map<Key, Time> {
    map k | k in keys && at - keys[k] <= EXPIRATION :: keys[k]
  }

  /** A purge pass that nothing interrupts. */
  lemma PassRuns(s: State, at: Time) returns (es: seq<Event>)
    requires Enabled(s, PassStart(at))
    ensures Legal(s, es) && Run(s, es) == s.(keys := Young(s.keys, at), now := at, swept := at)
  {
    var s1 := Next(s, PassStart(at));
    es := RemovalsRun(s1, at);
    assert s1.keys - s1.pass.found == Young(s.keys, at);
    RunOne(s, PassStart(at), es);
    es := [PassStart(at)] + es;
  }

  lemma {:induction false} RemovalsRun(s: State, at: Time) returns (es: seq<Event>)
    requires s.pass.Passing? && s.now == at
    ensures Legal(s, es) && Run(s, es) == s.(keys := s.keys - s.pass.found, pass := Idle, swept := s.pass.start)
    decreases s.pass.found
  {
    if s.pass.found == {} {
      assert s.keys - {} == s.keys;
      RunOne(s, PassEnd(at), []);
      es := [PassEnd(at)] + [];
    } else {
      var key :| key in s.pass.found;
      var s1 := Next(s, PassRemove(at, key));
      es := RemovalsRun(s1, at);
      assert s1.keys - s1.pass.found == s.keys - s.pass.found;
      RunOne(s, PassRemove(at, key), es);
      es := [PassRemove(at, key)] + es;
    }
  }

  /** `st` is what an observer knows of the store besides its keys. */
  class KeyStore {
    var keys: map<Key, Time>
    ghost var st: State

    ghost predicate Valid()
      reads this
    {
      st.keys == keys && st.pass.Idle?
    }

    constructor (ghost start: Time)
      ensures Valid() && st == Init(start)
    {
      keys := map[];
      st := Init(start);
    }

    method Connect(key: Key, now: Time)
      requires Valid() && Enabled(st, Event.Connect(now, key))
      modifies this
      ensures Valid() && st == Next(old(st), Event.Connect(now, key))
    {
      keys := keys[key := now];
      st := Next(st, Event.Connect(now, key));
    }

    method Pop(key: Key, ghost now: Time) returns (ok: bool)
      requires Valid() && Enabled(st, Request(now, key))
      modifies this
      ensures Valid() && st == Next(old(st), Request(now, key))
      ensures st.accepted == old(st).accepted + if ok then [key] else []
    {
      ok := key in keys;
      keys := keys - {key};
      st := Next(st, Request(now, key));
    }

    /** Removes exactly the keys older than 30 seconds. */
    method PurgeExpired(now: Time)
      requires Valid() && Enabled(st, PassStart(now))
      modifies this
      ensures Valid() && keys == Young(old(keys), now)
      ensures exists es :: Legal(old(st), es) && st == Run(old(st), es)
    {
      ghost var es := PassRuns(st, now);
      var expired := Expiry.Collect(keys, (born: Time) => born < now - EXPIRATION);
      keys := Expiry.RemoveAll(keys, expired);
      st := Run(st, es);
    }
  }
}
