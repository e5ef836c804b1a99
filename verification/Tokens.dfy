/** The admin token store (signaling/admin/manager.go:83-99 and 132-188, signaling/admin/auth.go:101-143
    and 183-190).

    Refreshing holds the store's mutex for reading and purging holds it for writing; storing, popping
    and looking up hold no mutex and may come between the two halves of a purge. */
module Tokens {
  import opened Common
  import Expiry

  type Time = Expiry.Time
  type Id = string

  const EXPIRATION := 60 * SECOND

  /** A record without token has the zero time of Go until it is refreshed. */
  datatype Record = Record(refreshed: Option<Time>, hasToken: bool)
  {
    predicate OlderThan(deadline: Time) { refreshed.Some? ==> refreshed.value < deadline }
  }

  /** `purging` is what a purge in progress has still to remove. */
  datatype State = State(tokens: map<Id, Record>, purging: Option<set<Id>>)
  {
    /** IsValidAdminAuthToken. */
    predicate Valid(id: Id) { id in tokens && tokens[id].hasToken }
  }

  const INIT := State(map[], None)

  datatype Event =
    | Set(id: Id, at: Time)
    | Pop(id: Id)
    | Refresh(id: Id, at: Time)
    | PurgeStart(at: Time)
    | PurgeRemove(id: Id)
    | PurgeEnd

  predicate Enabled(s: State, e: Event) {
    match e
    case Refresh(_, _) => s.purging.None?
    case PurgeStart(_) => s.purging.None?
    case PurgeRemove(id) => s.purging.Some? && id in s.purging.value
    case PurgeEnd => s.purging == Some({})
    case _ => true
  }

  function Expired(s: State, at: Time): set<Id> {
    set id | id in s.tokens && s.tokens[id].OlderThan(at - EXPIRATION)
  }

  function Next(s: State, e: Event): State
    requires Enabled(s, e)
  {
    match e
    case Set(id, at) => s.(tokens := s.tokens[id := Record(Some(at), true)])
    case Pop(id) => s.(tokens := s.tokens - {id})
    case Refresh(id, at) =>
      s.(tokens := s.tokens[id := if id in s.tokens then s.tokens[id].(refreshed := Some(at)) else Record(None, false)])
    case PurgeStart(at) => s.(purging := Some(Expired(s, at)))
    case PurgeRemove(id) => s.(tokens := s.tokens - {id}, purging := Some(s.purging.value - {id}))
    case PurgeEnd => s.(purging := None)
  }

  predicate Legal(s: State, es: seq<Event>)
    decreases es
  {
    es == [] || (Enabled(s, es[0]) && Legal(Next(s, es[0]), es[1..]))
  }

  function Run(s: State, es: seq<Event>): State
    requires Legal(s, es)
    decreases es
  {
    if es == [] then s else Run(Next(s, es[0]), es[1..])
  }

  // ---- Refreshed tokens stay ----

  /** Nothing pops `id`, everything that is stamped comes at `t` or later, and no purge starts more
      than a minute after `t`. */
  ghost predicate WithinAMinute(es: seq<Event>, id: Id, t: Time) {
    forall e :: e in es ==>
      && e != Pop(id)
      && (e.Set? || e.Refresh? ==> e.at >= t)
      && (e.PurgeStart? ==> e.at <= t + EXPIRATION)
  }

  /** The record of `id` is no older than `t`, and no purge in progress is after it. */
  predicate Fresh(s: State, id: Id, t: Time) {
    && s.Valid(id) && s.tokens[id].refreshed.Some? && s.tokens[id].refreshed.value >= t
    && (s.purging.Some? ==> id !in s.purging.value)
  }

  lemma {:induction false} FreshStays(s: State, es: seq<Event>, id: Id, t: Time)
    requires Legal(s, es) && Fresh(s, id, t) && WithinAMinute(es, id, t)
    ensures Fresh(Run(s, es), id, t)
    decreases es
  {
    if es != [] {
      assert es[0] in es;
      FreshStays(Next(s, es[0]), es[1..], id, t);
    }
  }

  /** Under any interleaving, a token that was refreshed survives every purge of the next minute. */
  lemma RefreshedTokenSurvives(s: State, id: Id, t: Time, es: seq<Event>)
    requires s.Valid(id) && Enabled(s, Refresh(id, t)) && Legal(Next(s, Refresh(id, t)), es) && WithinAMinute(es, id, t)
    ensures Run(Next(s, Refresh(id, t)), es).Valid(id)
  {
    FreshStays(Next(s, Refresh(id, t)), es, id, t);
  }

  /** Nothing pops or stores `id`, and the purge in progress does not end. */
  ghost predicate DuringPurge(es: seq<Event>, id: Id) {
    forall e :: e in es ==> e != Pop(id) && !(e.Set? && e.id == id) && !e.PurgeEnd?
  }

  /** The same does not hold of a token that is stored: storing waits for no purge, so a token stored
      during a purge is lost, whatever else happens meanwhile, exactly if its id was among those the
      purge had still to remove. */
  lemma StoredTokenLostIff(s: State, id: Id, t: Time, es: seq<Event>)
    requires s.purging.Some? && Legal(Next(s, Set(id, t)), es) && DuringPurge(es, id)
    requires Run(Next(s, Set(id, t)), es).purging == Some({})
    ensures Run(Next(s, Set(id, t)), es).Valid(id) <==> id !in s.purging.value
  {
    RemovedIff(Next(s, Set(id, t)), es, id);
  }

  lemma {:induction false} RemovedIff(s: State, es: seq<Event>, id: Id)
    requires s.purging.Some? && Legal(s, es) && DuringPurge(es, id)
    ensures Run(s, es).purging.Some?
    ensures Run(s, es).Valid(id) <==> s.Valid(id) && (id in s.purging.value ==> id in Run(s, es).purging.value)
    ensures Run(s, es).purging.value <= s.purging.value
    decreases es
  {
    if es != [] {
      assert es[0] in es;
      RemovedIff(Next(s, es[0]), es[1..], id);
    }
  }

  /** It happens to a token that is stored again more than a minute after it was stored first. */
  lemma StoredTokenIsLost(id: Id, t: Time)
    requires t > EXPIRATION
    ensures var es := [Set(id, 0), PurgeStart(t), Set(id, t)];
            && Legal(INIT, es) && Run(INIT, es).Valid(id)
            && Legal(INIT, es + [PurgeRemove(id)]) && !Run(INIT, es + [PurgeRemove(id)]).Valid(id)
  {
    var s1 := Next(INIT, Set(id, 0));
    var s2 := Next(s1, PurgeStart(t));
    var s3 := Next(s2, Set(id, t));
    assert id in s2.purging.value;
    RunOne(s3, PurgeRemove(id), []);
    RunOne(s2, Set(id, t), [PurgeRemove(id)]);
    RunOne(s2, Set(id, t), []);
    RunOne(s1, PurgeStart(t), [Set(id, t), PurgeRemove(id)]);
    RunOne(s1, PurgeStart(t), [Set(id, t)]);
    RunOne(INIT, Set(id, 0), [PurgeStart(t), Set(id, t), PurgeRemove(id)]);
    RunOne(INIT, Set(id, 0), [PurgeStart(t), Set(id, t)]);
    assert [Set(id, 0), PurgeStart(t), Set(id, t)] + [PurgeRemove(id)]
        == [Set(id, 0)] + [PurgeStart(t), Set(id, t), PurgeRemove(id)];
  }

  lemma RunOne(s: State, e: Event, es: seq<Event>)
    requires Enabled(s, e) && Legal(Next(s, e), es)
    ensures [e] + es != [] && ([e] + es)[0] == e && ([e] + es)[1..] == es
    ensures Legal(s, [e] + es) && Run(s, [e] + es) == Run(Next(s, e), es)
  {
    assert ([e] + es)[1..] == es;
  }

  /** A purge that nothing interrupts. */
  lemma PurgeRuns(s: State, at: Time) returns (es: seq<Event>)
    requires s.purging.None?
    ensures Legal(s, es) && Run(s, es) == s.(tokens := s.tokens - Expired(s, at))
  {
    var s1 := Next(s, PurgeStart(at));
    es := RemovalsRun(s1);
    RunOne(s, PurgeStart(at), es);
    es := [PurgeStart(at)] + es;
  }

  /** What such a purge keeps, with its record, is exactly what was stamped within the last minute; a
      record that was never stamped goes. */
  lemma PurgeKeepsStamped(s: State, at: Time, id: Id)
    ensures var rest := s.tokens - Expired(s, at);
            && (id in rest <==>
                  && id in s.tokens && s.tokens[id].refreshed.Some?
                  && at - s.tokens[id].refreshed.value <= 60 * SECOND)
            && (id in rest ==> rest[id] == s.tokens[id])
  {
  }

  /** So the record that a refresh of an unknown id leaves goes with the next purge, however soon. */
  lemma UnknownRefreshPurged(s: State, id: Id, t: Time, at: Time)
    requires s.purging.None? && id !in s.tokens
    ensures var s' := Next(s, Refresh(id, t));
            id in s'.tokens && id in Expired(s', at)
  {
  }

  lemma {:induction false} RemovalsRun(s: State) returns (es: seq<Event>)
    requires s.purging.Some?
    ensures Legal(s, es) && Run(s, es) == State(s.tokens - s.purging.value, None)
    decreases s.purging.value
  {
    if s.purging.value == {} {
      assert s.tokens - {} == s.tokens;
      RunOne(s, PurgeEnd, []);
      es := [PurgeEnd];
      assert [PurgeEnd] + [] == es;
    } else {
      var id :| id in s.purging.value;
      var s1 := Next(s, PurgeRemove(id));
      es := RemovalsRun(s1);
      assert s1.tokens - s1.purging.value == s.tokens - s.purging.value;
      RunOne(s, PurgeRemove(id), es);
      es := [PurgeRemove(id)] + es;
    }
  }

  // ---- Popped tokens stay invalid ----

  lemma {:induction false} InvalidStays(s: State, es: seq<Event>, id: Id)
    requires Legal(s, es) && !s.Valid(id) && (forall e :: e in es ==> !(e.Set? && e.id == id))
    ensures !Run(s, es).Valid(id)
    decreases es
  {
    if es != [] {
      assert es[0] in es;
      InvalidStays(Next(s, es[0]), es[1..], id);
    }
  }

  /** After a token was popped no refresh and no purge makes it valid again; only storing it does. */
  lemma PoppedTokenStaysInvalid(s: State, id: Id, es: seq<Event>)
    requires Legal(Next(s, Pop(id)), es) && (forall e :: e in es ==> !(e.Set? && e.id == id))
    ensures !Run(Next(s, Pop(id)), es).Valid(id)
  {
    InvalidStays(Next(s, Pop(id)), es, id);
  }

  // ---- Records without token ----

  predicate Tokenless(s: State, id: Id) { id in s.tokens && !s.tokens[id].hasToken }

  predicate EndsTokenless(e: Event, id: Id) {
    (e.Set? || e.Pop? || e.PurgeRemove?) && e.id == id
  }

  ghost predicate Undisturbed(es: seq<Event>, id: Id) {
    forall e :: e in es ==> !EndsTokenless(e, id)
  }

  function StateAt(s: State, es: seq<Event>, i: nat): State
    requires Legal(s, es) && i <= |es|
    decreases es
  {
    if i == 0 then s else StateAt(Next(s, es[0]), es[1..], i - 1)
  }

  /** `es[i]` refreshes `id` when it is not stored, and the record is not replaced or removed since. */
  ghost predicate StandingRefresh(s: State, es: seq<Event>, i: nat, id: Id)
    requires Legal(s, es)
  {
    && i < |es| && es[i].Refresh? && es[i].id == id && id !in StateAt(s, es, i).tokens
    && forall j :: i < j < |es| ==> !EndsTokenless(es[j], id)
  }

  lemma StandingRefreshStep(s: State, es: seq<Event>, id: Id)
    requires Legal(s, es) && es != []
    ensures (exists i :: StandingRefresh(s, es, i, id)) <==>
              || (es[0].Refresh? && es[0].id == id && id !in s.tokens && Undisturbed(es[1..], id))
              || exists i :: StandingRefresh(Next(s, es[0]), es[1..], i, id)
  {
    var s', rest := Next(s, es[0]), es[1..];
    forall i: nat | i < |rest| ensures StandingRefresh(s, es, i + 1, id) <==> StandingRefresh(s', rest, i, id) {
      assert forall j :: i < j < |rest| ==> rest[j] == es[j + 1];
      assert forall j :: i + 1 < j < |es| ==> es[j] == rest[j - 1];
    }
    assert StandingRefresh(s, es, 0, id) <==>
             es[0].Refresh? && es[0].id == id && id !in s.tokens && Undisturbed(rest, id) by {
      assert forall j :: 0 < j < |es| ==> es[j] == rest[j - 1];
      assert forall j :: 0 <= j < |rest| ==> rest[j] == es[j + 1];
    }
    if i: nat :| StandingRefresh(s, es, i, id) && i > 0 {
      assert StandingRefresh(s', rest, i - 1, id);
    }
    if i: nat :| StandingRefresh(s', rest, i, id) {
      assert StandingRefresh(s, es, i + 1, id);
    }
  }

  lemma {:induction false} TokenlessFrom(s: State, es: seq<Event>, id: Id)
    requires Legal(s, es)
    ensures Tokenless(Run(s, es), id) <==>
              || (Tokenless(s, id) && Undisturbed(es, id))
              || exists i :: StandingRefresh(s, es, i, id)
    decreases es
  {
    if es != [] {
      TokenlessFrom(Next(s, es[0]), es[1..], id);
      assert Tokenless(Next(s, es[0]), id) <==>
               || (Tokenless(s, id) && !EndsTokenless(es[0], id))
               || (es[0].Refresh? && es[0].id == id && id !in s.tokens);
      StandingRefreshStep(s, es, id);
      assert forall e :: e in es <==> e == es[0] || e in es[1..];
    }
  }

  /** A record without a token is there exactly if its id was refreshed while it was not stored, and
      has since been neither stored, popped nor purged. */
  lemma TokenlessIff(es: seq<Event>, id: Id)
    requires Legal(INIT, es)
    ensures Tokenless(Run(INIT, es), id) <==> exists i :: StandingRefresh(INIT, es, i, id)
  {
    TokenlessFrom(INIT, es, id);
  }

  const RECORD_PREFIX := "admin-"
  const MAX_LISTED := 5000

  /** The ids a listing that comes across `order` shows. */
  function Shown(order: seq<Id>): (ids: seq<Id>)
    ensures |ids| <= MAX_LISTED && forall id :: id in ids ==> id in order && RECORD_PREFIX <= id
  {
    if order == [] then []
    else
      var before, id := Shown(order[..|order| - 1]), order[|order| - 1];
      if RECORD_PREFIX <= id && |before| < MAX_LISTED then before + [id] else before
  }

  // ---- The object itself ----

  class TokenStore {
    var tokens: map<Id, Record>

    constructor ()
      ensures tokens == map[]
    {
      tokens := map[];
    }

    ghost function Abs(): State
      reads this
    {
      State(tokens, None)
    }

    method SetToken(id: Id, now: Time)
      modifies this
      ensures Abs() == Next(old(Abs()), Set(id, now))
    {
      tokens := tokens[id := Record(Some(now), true)];
    }

    method PopToken(id: Id) returns (exists_: bool)
      modifies this
      ensures exists_ <==> id in old(tokens)
      ensures Abs() == Next(old(Abs()), Pop(id))
    {
      exists_ := id in tokens;
      tokens := tokens - {id};
    }

    method RefreshToken(id: Id, now: Time)
      modifies this
      ensures Abs() == Next(old(Abs()), Refresh(id, now))
    {
      if id !in tokens {
        tokens := tokens[id := Record(None, false)];
      } else {
        var record := tokens[id];
        tokens := tokens[id := record.(refreshed := Some(now))];
      }
    }

    method IsValid(id: Id) returns (valid: bool)
      ensures valid == Abs().Valid(id)
    {
      if id !in tokens {
        return false;
      }
      return tokens[id].hasToken;
    }

    /** A request with a signed token: an unknown token is stored again while it has not expired. */
    method IsValidRequest(id: Id, expiresAt: Time, now: Time) returns (ok: bool)
      modifies this
      ensures ok <==> old(Abs()).Valid(id) || now < expiresAt
      ensures ok <==> Abs().Valid(id)
      ensures Abs() == if !old(Abs()).Valid(id) && now < expiresAt then Next(old(Abs()), Set(id, now)) else old(Abs())
    {
      ok := IsValid(id);
      if !ok && now < expiresAt {
        SetToken(id, now);
        ok := true;
      }
    }

    /** Removes exactly the records not refreshed within the last minute. */
    method PurgeExpired(now: Time)
      modifies this
      ensures Abs() == old(Abs()).(tokens := old(tokens) - Expired(old(Abs()), now))
      ensures exists es :: Legal(old(Abs()), es) && Run(old(Abs()), es) == Abs()
    {
      ghost var es := PurgeRuns(Abs(), now);
      var expired := Expiry.Collect(tokens, (r: Record) => r.OlderThan(now - EXPIRATION));
      tokens := Expiry.RemoveAll(tokens, expired);
    }

    /** Listing expects a token in every record it comes across, so it panics exactly if one of those
        it has to show has none.  `order` is the order in which the map yields its entries. */
    method ListTokens(order: seq<Id>) returns (panic: bool, result: seq<Id>)
      requires forall id :: id in order ==> id in tokens
      ensures panic <==> exists id :: id in Shown(order) && Tokenless(Abs(), id)
      ensures !panic ==> result == Shown(order)
    {
      result := [];
      var count := 0;
      for i := 0 to |order|
        invariant result == Shown(order[..i]) && count == |result| < MAX_LISTED
        invariant forall id :: id in result ==> tokens[id].hasToken
      {
        var id := order[i];
        assert order[..i + 1][..i] == order[..i];
        if RECORD_PREFIX <= id {
          if !tokens[id].hasToken {
            ShownGrows(order, i + 1);
            assert Shown(order[..i + 1]) == result + [id];
            assert Shown(order)[|result|] == id;
            assert id in Shown(order) && Tokenless(Abs(), id);
            return true, result;
          }
          result := result + [id];
          count := count + 1;
        }
        ShownGrows(order, i + 1);
        if count >= MAX_LISTED {
          return false, result;
        }
      }
      assert order[..|order|] == order;
      return false, result;
    }
  }

  /** What was shown so far stays, and once there is enough nothing is added. */
  lemma {:induction false} ShownGrows(order: seq<Id>, i: nat)
    requires i <= |order|
    ensures Shown(order[..i]) <= Shown(order)
    ensures |Shown(order[..i])| == MAX_LISTED ==> Shown(order) == Shown(order[..i])
    decreases |order|
  {
    if i == |order| {
      assert order[..i] == order;
    } else {
      var n := |order| - 1;
      assert order[..n][..i] == order[..i];
      ShownGrows(order[..n], i);
    }
  }

  /** Everything the filter lets through is shown, as long as there is room. */
  lemma {:induction false} ShownComplete(order: seq<Id>, id: Id)
    requires id in order && RECORD_PREFIX <= id && |Shown(order)| < MAX_LISTED
    ensures id in Shown(order)
  {
    var n := |order| - 1;
    if id in order[..n] {
      ShownGrows(order, n);
      ShownComplete(order[..n], id);
    }
  }

  /** It does happen: a token is refreshed after it was popped, or purged, and then listed. */
  lemma ListingFails(id: Id, t: Time)
    requires RECORD_PREFIX <= id
    ensures var es := [Refresh(id, t)];
            Legal(INIT, es) && Tokenless(Run(INIT, es), id) && id in Shown([id])
  {
    RunOne(INIT, Refresh(id, t), []);
    assert [Refresh(id, t)] + [] == [Refresh(id, t)];
    assert Shown([id]) == [id] by { assert [id][..0] == []; }
  }
}
