/** WebRTC signaling messages, the users who send them, and the tests a message has to pass before
    the server looks at any shared state (signaling/rtm/webrtc.go, signaling/api-v1/rtm.go). */
module Messages {
  import opened Common

  const SUBTYPE_GROUP := "webrtc_group"
  const SUBTYPE_CALL := "webrtc_call"
  const SUBTYPE_HANGUP := "webrtc_hangup"
  const SUBTYPE_SIGNAL := "webrtc_signal"
  const MIN_VERSION: nat := 0

  /** The JSON value in a message's data field, as far as the server looks into it. */
  datatype Data =
    | Answer(accept: bool, reason: string)                            // decodes as an accept record
    | Null                                                            // the JSON value null
    | Opaque(raw: string)                                             // anything else a client sends
    | Extra(group: Option<string>, members: set<string>, pipeline: bool)  // channel data from the server

  datatype Message = Message(
    id: nat, typ: string, subtype: string,
    target: string, source: string, profile: Option<string>, initiator: bool, state: string,
    channel: string, group: string, hash: string, version: nat, data: Option<Data>)

  /** A user's restrictions are inputs here: `groups` is the set of groups mapped to true, if any. */
  datatype Auth = Auth(name: string, groups: Option<set<string>>, canCreate: bool)
  datatype User = User(id: string, auth: Option<Auth>)
  {
    /** Bound to certain named groups, and without the right to create channels. */
    predicate ConfinedTo(groups: set<string>) {
      auth.Some? && auth.value.groups == Some(groups) && "" !in groups && !auth.value.canCreate
    }

    predicate MayCreate() {
      auth.Some? ==> auth.value.canCreate
    }

    function Name(): string {
      if auth.Some? then auth.value.name else ""
    }
  }

  datatype Code = BadMessage | NoSessionForUser | AccessRestricted | CreateRestricted

  datatype Error =
    | RtmError(code: Code, text: string, replyTo: nat)
    | PlainError(text: string)

  function Bad(text: string, m: Message): Error {
    RtmError(BadMessage, text, m.id)
  }

  /** The outcome of the tests on the message alone. */
  datatype Verdict =
    | Refuse(error: Error)
    | Group(user: User)
    | Request(user: User)
    | Response(user: User)
    | Signal(user: User)      // signal and hangup

  predicate RestrictionDenies(ur: Option<User>, m: Message) {
    && ur.Some? && ur.value.auth.Some? && ur.value.auth.value.groups.Some?
    && m.group !in ur.value.auth.value.groups.value
  }

  function Vet(ur: Option<User>, m: Message): Verdict {
    if m.version < MIN_VERSION then Refuse(Bad("outdated WebRTC payload version", m))
    else if m.profile.Some? then Refuse(Bad("profile cannot be set by client", m))
    else if RestrictionDenies(ur, m) then Refuse(RtmError(AccessRestricted, "access denied", m.id))
    else if m.subtype == SUBTYPE_GROUP then VetGroup(ur, m)
    else if m.subtype == SUBTYPE_CALL then VetCall(ur, m)
    else if m.subtype == SUBTYPE_HANGUP || m.subtype == SUBTYPE_SIGNAL then VetSignal(ur, m)
    else Refuse(Bad("unknown subtype", m))
  }

  function VetGroup(ur: Option<User>, m: Message): Verdict {
    if ur.None? then Refuse(Bad("connection has no user", m))
    else if m.target == "" then Refuse(Bad("target is empty", m))
    else if m.target != m.group then Refuse(Bad("target and group mismatch", m))
    else if m.state == "" then Refuse(Bad("state is empty", m))
    else if m.source != "" then Refuse(Bad("source must be empty", m))
    else Group(ur.value)
  }

  function VetCall(ur: Option<User>, m: Message): Verdict {
    if ur.None? then Refuse(Bad("connection has no user", m))
    else if m.target == "" then Refuse(Bad("target is empty", m))
    else if m.target == ur.value.id then Refuse(Bad("target same as source", m))
    else if m.state == "" then Refuse(Bad("state is empty", m))
    else if m.source != "" then Refuse(Bad("source must be empty", m))
    else if m.initiator then
      if m.channel != "" || m.hash != "" then Refuse(Bad("channel and hash must be empty", m))
      else if m.data.Some? then Refuse(Bad("data must be empty", m))
      else if !ur.value.MayCreate() then Refuse(RtmError(CreateRestricted, "access denied", m.id))
      else Request(ur.value)
    else
      if m.channel == "" || m.hash == "" || m.data.None? then Refuse(Bad("channel, hash or data is empty", m))
      else Response(ur.value)
  }

  function VetSignal(ur: Option<User>, m: Message): Verdict {
    if ur.None? then Refuse(Bad("connection has no user", m))
    else if m.state == "" then Refuse(Bad("state is empty", m))
    else if m.source != "" then Refuse(Bad("source must be empty", m))
    else if m.channel == "" || m.hash == "" || m.data.None? then Refuse(Bad("channel hash or data is empty", m))
    else Signal(ur.value)
  }

  // ---- Which messages get which verdict ----

  /** The user sets no profile, and stays within the groups the user is restricted to, if any. */
  predicate Admissible(u: User, m: Message) {
    && m.profile.None?
    && (u.auth.Some? && u.auth.value.groups.Some? ==> m.group in u.auth.value.groups.value)
  }

  predicate WellFormedCall(u: User, m: Message) {
    && m.subtype == SUBTYPE_CALL && m.target != "" && m.target != u.id && m.state != "" && m.source == ""
  }

  predicate WellFormedRequest(u: User, m: Message) {
    WellFormedCall(u, m) && m.initiator && m.channel == "" && m.hash == "" && m.data.None?
  }

  /** Every verdict but a refusal is for the user of the connection, and is given to exactly these
      messages; in particular nobody sets a profile, and nobody without the right to create channels
      gets a call request through. */
  lemma VerdictIff(ur: Option<User>, m: Message)
    ensures var v := Vet(ur, m);
            && (v.Refuse? || (ur.Some? && v.user == ur.value && Admissible(ur.value, m)))
            && (v.Group? <==>
                  && ur.Some? && Admissible(ur.value, m)
                  && m.subtype == SUBTYPE_GROUP && m.target != "" && m.target == m.group
                  && m.state != "" && m.source == "")
            && (v.Request? <==>
                  ur.Some? && Admissible(ur.value, m) && WellFormedRequest(ur.value, m) && ur.value.MayCreate())
            && (v.Response? <==>
                  && ur.Some? && Admissible(ur.value, m) && WellFormedCall(ur.value, m)
                  && !m.initiator && m.channel != "" && m.hash != "" && m.data.Some?)
            && (v.Signal? <==>
                  && ur.Some? && Admissible(ur.value, m)
                  && (m.subtype == SUBTYPE_HANGUP || m.subtype == SUBTYPE_SIGNAL)
                  && m.state != "" && m.source == "" && m.channel != "" && m.hash != "" && m.data.Some?)
  {
  }

  /** The two refusals for lack of a right are told apart from malformed messages. */
  lemma AccessRestrictedIff(ur: Option<User>, m: Message)
    ensures var v := Vet(ur, m);
            v.Refuse? && v.error == RtmError(AccessRestricted, "access denied", m.id)
            <==> m.profile.None? && ur.Some? && !Admissible(ur.value, m)
  {
  }

  lemma CreateRestrictedIff(ur: Option<User>, m: Message)
    ensures var v := Vet(ur, m);
            v.Refuse? && v.error == RtmError(CreateRestricted, "access denied", m.id)
            <==> ur.Some? && Admissible(ur.value, m) && WellFormedRequest(ur.value, m) && !ur.value.MayCreate()
  {
  }

  /** Whatever a confined user sends, the server goes on only with messages for one of the
      user's groups, never with a call request, and never with a one-to-one call answer. */
  lemma ConfinedVerdict(u: User, groups: set<string>, m: Message)
    requires u.ConfinedTo(groups)
    ensures var v := Vet(Some(u), m);
            v.Refuse? || (!v.Request? && m.group in groups && m.group != "")
  {
    assert RestrictionDenies(Some(u), m) <==> m.group !in groups;
  }
}

/** Hashes that tie a channel to a pair of peers, or to a user and a group
    (signaling/rtm/webrtc.go:49-67, signaling/rtm/channel.go:389-431). */
module ChannelHash {
  import opened Common
  import opened Messages

  /** The keyed hash (section 2 of RFC 2104) and the text encoding of its result (section 4 of
      RFC 4648) are taken as given functions. */
  datatype Crypto = Crypto(mac: string -> string, encode: string -> string, decode: string -> Option<string>)

  ghost predicate Faithful(k: Crypto) {
    && (forall d :: k.decode(k.encode(d)) == Some(d))
    && (forall x :: k.encode(k.mac(x)) != "")
  }

  ghost predicate CollisionFree(k: Crypto) {
    forall x, y :: k.mac(x) == k.mac(y) ==> x == y
  }

  /** Go's `<` on strings. */
  predicate Less(a: string, b: string) {
    if b == "" then false
    else if a == "" then true
    else a[0] < b[0] || (a[0] == b[0] && Less(a[1..], b[1..]))
  }

  lemma {:induction false} LessIsTotal(a: string, b: string)
    ensures a == b || Less(a, b) || Less(b, a)
    ensures !(Less(a, b) && Less(b, a))
    ensures Less(a, b) ==> a != b
  {
    if a != "" && b != "" {
      LessIsTotal(a[1..], b[1..]);
      if a[0] == b[0] && a[1..] == b[1..] {
        assert a == [a[0]] + a[1..] && b == [b[0]] + b[1..];
      }
    }
  }

  function Lower(a: string, b: string): string { if Less(a, b) then a else b }
  function Upper(a: string, b: string): string { if Less(a, b) then b else a }

  /** The ends in ascending order, and nothing that separates the parts. */
  function HashInput(typ: string, source: string, target: string, channel: string): string {
    typ + (Lower(source, target) + Upper(source, target)) + channel
  }

  function Hash(k: Crypto, typ: string, source: string, target: string, channel: string): string {
    k.mac(HashInput(typ, source, target, channel))
  }

  /** What the server puts into a message. */
  function Issue(k: Crypto, typ: string, source: string, target: string, channel: string): string {
    k.encode(Hash(k, typ, source, target, channel))
  }

  /** Both ends of a call compute the same hash. */
  lemma HashInputSymmetric(typ: string, a: string, b: string, channel: string)
    ensures HashInput(typ, a, b, channel) == HashInput(typ, b, a, channel)
  {
    LessIsTotal(a, b);
  }

  /** The test of a message against the channel it names; `group` is the channel's configured
      group and `pipeline` tells whether the channel is routed through the MCU. */
  function Check(k: Crypto, group: string, pipeline: bool, source: string, m: Message): Option<Error> {
    if m.group != "" && group != m.group then Some(Bad("invalid channel for group", m))
    else if m.hash == "" then Some(Bad("missing hash", m))
    else
      var hash := k.decode(m.hash);
      if hash.None? then Some(Bad("hash decode error", m))
      else if m.group == "" && m.target == "" then Some(Bad("missing target", m))
      else if m.group == "" && pipeline then None
      else if hash.value == Hash(k, m.typ, source, if m.group != "" then m.group else m.target, m.channel) then None
      else if hash.value == Hash(k, m.typ, source, m.target, m.channel) then None
      else Some(Bad("invalid hash", m))
  }

  /** The hash of the message is that of its own ends, for `peer` as the other end. */
  predicate Matches(k: Crypto, source: string, peer: string, m: Message) {
    k.decode(m.hash) == Some(k.mac(HashInput(m.typ, source, peer, m.channel)))
  }

  /** Which messages pass, whatever their hash: none for a group that is not the channel's, none without
      a hash that can be decoded, and, unless a pipeline takes messages without group, only those whose
      hash is the one for source, target (or group) and channel of the message itself. */
  lemma CheckPassesIff(k: Crypto, group: string, pipeline: bool, source: string, m: Message)
    ensures Check(k, group, pipeline, source, m).None? <==>
              && (m.group == "" || m.group == group)
              && m.hash != "" && k.decode(m.hash).Some?
              && (m.group == "" ==> m.target != "")
              && (|| (m.group == "" && pipeline)
                  || (m.group != "" && Matches(k, source, m.group, m))
                  || Matches(k, source, m.target, m))
  {
  }

  lemma WrongGroupRefused(k: Crypto, group: string, pipeline: bool, source: string, m: Message)
    requires m.group != "" && m.group != group
    ensures Check(k, group, pipeline, source, m) == Some(Bad("invalid channel for group", m))
  {
  }

  /** A hash issued for peers `a` and `b` is honoured when either sends it back for the other,
      with or without the channel's group. */
  lemma PeerHashHonoured(k: Crypto, group: string, pipeline: bool, a: string, b: string, source: string, m: Message)
    requires Faithful(k)
    requires m.hash == Issue(k, m.typ, a, b, m.channel)
    requires (source == a && m.target == b) || (source == b && m.target == a)
    requires if m.group == "" then m.target != "" else m.group == group
    ensures Check(k, group, pipeline, source, m).None?
  {
    HashInputSymmetric(m.typ, a, b, m.channel);
  }

  /** A hash issued to a user for a group is honoured for every message of that user to the
      group, whoever in the group it is addressed to. */
  lemma GroupHashHonoured(k: Crypto, group: string, pipeline: bool, source: string, m: Message)
    requires Faithful(k)
    requires group != "" && m.group == group
    requires m.hash == Issue(k, m.typ, source, group, m.channel)
    ensures Check(k, group, pipeline, source, m).None?
  {
  }

  // ---- Which other ends a hash is good for ----

  predicate SameEnds(a: string, b: string, c: string, d: string) {
    (a == c && b == d) || (a == d && b == c)
  }

  lemma SameEndsIff(a: string, b: string, c: string, d: string)
    ensures SameEnds(a, b, c, d) <==> Lower(a, b) == Lower(c, d) && Upper(a, b) == Upper(c, d)
  {
    LessIsTotal(a, b);
    LessIsTotal(c, d);
  }

  /** Message `m` from `source`, with `peer` as the other end, gives the hash input that a hash was
      issued for. */
  predicate Fits(m: Message, source: string, peer: string, a: string, b: string, channel: string) {
    HashInput(m.typ, source, peer, m.channel) == HashInput(m.typ, a, b, channel)
  }

  /** Where hashes are looked at, an issued hash passes exactly for messages that fit: without a group
      (and pipeline) with the target as the other end. */
  lemma PeerHashPassesIff(k: Crypto, group: string, a: string, b: string, channel: string, source: string, m: Message)
    requires Faithful(k) && CollisionFree(k)
    requires m.group == "" && m.target != ""
    requires m.hash == Issue(k, m.typ, a, b, channel)
    ensures Check(k, group, false, source, m).None? <==> Fits(m, source, m.target, a, b, channel)
  {
    assert k.decode(m.hash) == Some(Hash(k, m.typ, a, b, channel));
  }

  /** With a group, also with the group as the other end. */
  lemma GroupHashPassesIff(
      k: Crypto, pipeline: bool, a: string, b: string, channel: string, source: string, m: Message)
    requires Faithful(k) && CollisionFree(k)
    requires m.group != "" && m.hash == Issue(k, m.typ, a, b, channel)
    ensures Check(k, m.group, pipeline, source, m).None?
            <==> Fits(m, source, m.group, a, b, channel) || Fits(m, source, m.target, a, b, channel)
  {
    assert k.decode(m.hash) == Some(Hash(k, m.typ, a, b, channel));
  }

  lemma SplitEqual(x: string, y: string, x': string, y': string)
    requires |x| == |x'|
    ensures x + y == x' + y' <==> x == x' && y == y'
  {
    assert (x + y)[..|x|] == x && (x' + y')[..|x'|] == x';
    assert (x + y)[|x|..] == y && (x' + y')[|x'|..] == y';
  }

  lemma InputEqual(typ: string, a: string, b: string, c: string, d: string, channel: string, channel': string)
    requires |a| + |b| == |c| + |d|
    ensures HashInput(typ, a, b, channel) == HashInput(typ, c, d, channel')
            <==> Lower(a, b) + Upper(a, b) == Lower(c, d) + Upper(c, d) && channel == channel'
  {
    var x, y := Lower(a, b) + Upper(a, b), Lower(c, d) + Upper(c, d);
    SplitEqual(typ + x, channel, typ + y, channel');
    SplitEqual(typ, x, typ, y);
  }

  /** A message that fits has the ends and the channel the hash was issued for exactly if its lower end
      and its channel are as long as theirs. */
  lemma FitsExactlyIff(m: Message, source: string, peer: string, a: string, b: string, channel: string)
    requires Fits(m, source, peer, a, b, channel)
    ensures SameEnds(source, peer, a, b) && m.channel == channel
            <==> |Lower(source, peer)| == |Lower(a, b)| && |m.channel| == |channel|
  {
    SameEndsIff(source, peer, a, b);
    if |Lower(source, peer)| == |Lower(a, b)| && |m.channel| == |channel| {
      var x, y := HashInput(m.typ, source, peer, m.channel), HashInput(m.typ, a, b, channel);
      assert |x| == |m.typ| + |source| + |peer| + |m.channel| && |y| == |m.typ| + |a| + |b| + |channel|;
      InputEqual(m.typ, source, peer, a, b, m.channel, channel);
      SplitEqual(Lower(source, peer), Upper(source, peer), Lower(a, b), Upper(a, b));
    }
  }

  /** "A hash is good only for the ends and the channel it was issued for" does not hold, since nothing
      separates the parts of the hash input.  A message without group that passes has these ends and
      this channel exactly if its lower end and its channel are as long as theirs. */
  lemma HashBoundToEndsIff(k: Crypto, group: string, a: string, b: string, channel: string, source: string, m: Message)
    requires Faithful(k) && CollisionFree(k)
    requires m.group == "" && m.target != ""
    requires m.hash == Issue(k, m.typ, a, b, channel) && Check(k, group, false, source, m).None?
    ensures SameEnds(source, m.target, a, b) && m.channel == channel
            <==> |Lower(source, m.target)| == |Lower(a, b)| && |m.channel| == |channel|
  {
    PeerHashPassesIff(k, group, a, b, channel, source, m);
    FitsExactlyIff(m, source, m.target, a, b, channel);
  }

  predicate FitsInLength(m: Message, source: string, peer: string, a: string, b: string, channel: string) {
    && Fits(m, source, peer, a, b, channel)
    && |Lower(source, peer)| == |Lower(a, b)| && |m.channel| == |channel|
  }

  /** With a group the check tries two other ends, the group and the target.  A message that passes has
      the ends and the channel the hash was issued for exactly if one that fits does so in length. */
  lemma GroupHashBoundIff(
      k: Crypto, pipeline: bool, a: string, b: string, channel: string, source: string, m: Message)
    requires Faithful(k) && CollisionFree(k)
    requires m.group != "" && m.hash == Issue(k, m.typ, a, b, channel)
    requires Check(k, m.group, pipeline, source, m).None?
    ensures (SameEnds(source, m.group, a, b) || SameEnds(source, m.target, a, b)) && m.channel == channel
            <==> FitsInLength(m, source, m.group, a, b, channel) || FitsInLength(m, source, m.target, a, b, channel)
  {
    forall peer | peer == m.group || peer == m.target
      ensures FitsInLength(m, source, peer, a, b, channel) <==> SameEnds(source, peer, a, b) && m.channel == channel
    {
      HashInputSymmetric(m.typ, a, b, channel);
      if Fits(m, source, peer, a, b, channel) {
        FitsExactlyIff(m, source, peer, a, b, channel);
      }
    }
  }

  /** Among ids of equal length, an issued hash passes exactly for its two ends, in either order, on
      its channel. */
  lemma EqualLengthHashIff(k: Crypto, group: string, a: string, b: string, channel: string, source: string, m: Message)
    requires Faithful(k) && CollisionFree(k)
    requires m.group == "" && m.target != ""
    requires |a| == |b| == |source| == |m.target|
    requires m.hash == Issue(k, m.typ, a, b, channel)
    ensures Check(k, group, false, source, m).None? <==> m.channel == channel && SameEnds(source, m.target, a, b)
  {
    PeerHashPassesIff(k, group, a, b, channel, source, m);
    InputEqual(m.typ, source, m.target, a, b, m.channel, channel);
    SameEndsIff(source, m.target, a, b);
    SplitEqual(Lower(source, m.target), Upper(source, m.target), Lower(a, b), Upper(a, b));
  }

  /** A hash issued for the call of "x" and "yz" passes for "xy" calling "z". */
  lemma HashPassesForOthers(k: Crypto, group: string, m: Message)
    requires Faithful(k)
    requires m.group == "" && m.target == "z" && m.hash == Issue(k, m.typ, "x", "yz", m.channel)
    ensures Check(k, group, false, "xy", m).None? && !SameEnds("xy", m.target, "x", "yz")
  {
    assert Lower("x", "yz") + Upper("x", "yz") == "xyz" == Lower("xy", "z") + Upper("xy", "z");
  }

  /** A hash issued to "a" for group "y@x" passes for a message of "a" to "y@x@y" on another channel. */
  lemma HashPassesElsewhere(k: Crypto, group: string, m: Message)
    requires Faithful(k)
    requires m.group == "" && m.target == "y@x@y" && m.channel == "@x"
    requires m.hash == Issue(k, m.typ, "a", "y@x", "@y@x")
    ensures Check(k, group, false, "a", m).None?
    ensures |Lower("a", m.target)| == |Lower("a", "y@x")| && !SameEnds("a", m.target, "a", "y@x")
  {
    assert m.typ + ("a" + "y@x") + "@y@x" == m.typ + ("a" + "y@x@y") + "@x";
  }

  /** So do hashes for groups: one issued to "a" for group "y@y" passes for "ay@y@" in group "y". */
  lemma GroupHashPassesForOthers(k: Crypto, pipeline: bool, m: Message)
    requires Faithful(k)
    requires m.group == "y" && m.channel == "@y" && m.hash == Issue(k, m.typ, "a", "y@y", "@y@y")
    ensures Check(k, "y", pipeline, "ay@y@", m).None? && !SameEnds("ay@y@", "y", "a", "y@y")
  {
    assert m.typ + ("a" + "y@y") + "@y@y" == m.typ + ("ay@y@" + "y") + "@y";
  }
}
