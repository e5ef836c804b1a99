# Kopano Web Meetings signaling server: a verified model

`kwmserver` keeps long-lived state that many goroutines change: websocket connections, user records,
channels, one-time keys, admin tokens, and the pipelines that connect channels to an MCU. This project
models that state and proves what every interleaving keeps.

Each component has two layers.

- A **step machine** on values: a state, events, an enabling condition, a step function and runs. One
  event is one critical section of the source, or one atomic operation on a concurrent map; goroutines,
  timers and callbacks that are waiting are part of the state. The main theorems are about every run of
  such a machine.
- A **class** with the fields of the source object, whose methods are the source's methods. They state
  their whole new state through the functions the step machine is made of. Where the source keeps
  records in a table (`Users`, `McuManager`) or queues (`Chats`), they state it through the rows or
  queues, and the lemmas named `...Runs` show that this is what an uninterrupted run of the machine
  does to them.

| file | what it models |
|---|---|
| `Pipeline.dfy` | the reconnect machine of an MCU pipeline: two timers, goroutines, late callbacks, Close |
| `Messages.dfy` | WebRTC messages, the tests a message passes first, channel hashes |
| `Channel.dfy` | one channel: add, replace, remove, close, clean up, check a message |
| `Rooms.dfy` | all connections and channels, with every handler cut at its lock operations, and the purge loop |
| `WebRtc.dfy` | the handler of WebRTC messages as a whole: replies, relayed messages, errors |
| `Replies.dfy` | exactly what the handler sends and changes, for each kind of message |
| `Refinement.dfy` | the two views agree: an uninterrupted handler of `Rooms` does what `WebRtc` says; hashes that come back after any run |
| `TwoDevices.dfy` | a run that leaves the lock of a channel behind |
| `Connection.dfy` | sending, closing and close callbacks at the level of lock operations |
| `Heartbeat.dfy` | pings, pongs and the read deadline |
| `Users.dfy` | the user table: connecting, disconnecting, purging, and its two lock orders |
| `Lifecycle.dfy` | connections across the user table and the rooms, from OnConnect over Close to OnDisconnect |
| `Chats.dfy` | chat broadcast under the per-channel mutex |
| `McuManager.dfy` | round robin over MCU connections, attach transactions |
| `Keys.dfy`, `Tokens.dfy`, `Expiry.dfy` | one-time keys, admin tokens, the two-phase purge |

## Where the code departs from its evident intent

The model follows the code. Each departure has a lemma, and the exact condition for it where there is one.

- `Channel.Add` returns "id already exists" with the lock held (signaling/rtm/channel.go:196-199):
  exactly on channels without Replace handler, when a second connection comes for an id
  (`Channel.LockLeftBehindIff`). `TwoDevices.SecondDeviceBlocks` is an everyday run that gets there.
  Close of a connection can then finish exactly if no channel it has yet to leave was left locked
  (`Rooms.CloseFinishesIff`), and a purge pass exactly if no channel it has yet to test or clean up was
  (`Rooms.PassEndsIff`); once a listed channel is locked no pass ends any more (`Rooms.NoPassEnds`), and
  keys and users are purged by the same loop. OnDisconnect comes after Close, so it is never reached
  either, exactly in the same case (`Lifecycle.DisconnectReachedIff`), and the user's record lists the
  dead connection for good (`Lifecycle.HeldUpStaysListed`, `Lifecycle.SecondDeviceKeepsUser`).
- The `size <= 1` branch of `canBeCleanedUp` is dead, because `NewChannel` replaces a nil configuration:
  `Channel.ClosedIsEmpty`.
- `Pipeline.onConnect` does not test `closed`: a closed pipeline can get a connection exactly if, when it
  was closed, an Attach had been granted that the MCU had not come back for and the manager had not
  purged (`McuPipeline.ClosedHoldsConnectionIff`; it happens in `McuPipeline.LateJoinHappens`).
- `Pipeline.onClosed` returns before it clears the connection while `connecting` is set: the dead
  connection stays exactly then (`McuPipeline.DeadConnectionStaysIff`), and the pipeline's own work can
  leave it there with no retry to come exactly then (`McuPipeline.GetsStuckIff`, and for a given run
  `McuPipeline.StuckIff`). `McuPipeline.DeadConnectionCanStay` is such a run from the start.
- Nothing separates the parts of a hash input (signaling/rtm/webrtc.go:49-63), so a hash can be good for
  other ends than those it was issued for (`ChannelHash.HashPassesForOthers`,
  `ChannelHash.GroupHashPassesForOthers`) and on another channel (`ChannelHash.HashPassesElsewhere`). A
  message that passes has the ends and the channel the hash was issued for exactly if its lower end and
  its channel are as long as theirs (`ChannelHash.HashBoundToEndsIff`; for messages to a group, where two
  other ends are tried, `ChannelHash.GroupHashBoundIff`). So among ids of equal length hashes are bound
  to ends and channel (`ChannelHash.EqualLengthHashIff`).
- The user table is locked before the record in signaling/rtm/events.go:42-56 and after it in
  signaling/rtm/manager.go:178-182. `Users.DeadlockHappens` is a run into the deadlock,
  `Users.DeadlockLasts` says that it never ends, and `Users.PurgeBlockedIff` that nothing else can keep
  the purge loop waiting for good.
- A callback given to `OnClosed` after Close took the callbacks never runs:
  `Connection.CallbacksRunExactlyOnce`. That hits the record of an attach transaction, whose callback is
  registered only after onConnect has handed the connection to the pipeline: the record can be purged
  exactly unless the pipeline was closed in between (`McuManager.PurgeableIff`; it happens in
  `McuManager.LeakHappens`).
- An answer whose data is the JSON value null makes the handler panic, exactly if its hash passes the
  check: `WebRtc.PanicsIff`, `WebRtc.NullAnswerPanics`.
- `SetToken` does not take the tokens mutex: a token stored while a purge is at work is lost exactly if
  an older record under its id was among those the purge had still to remove
  (`Tokens.StoredTokenLostIff`; it happens in `Tokens.StoredTokenIsLost`).
- `RefreshToken` of an unknown id stores a record without a token. There is one exactly if an id was
  refreshed while it was not stored, and nothing has happened to it since (`Tokens.TokenlessIff`);
  listing panics exactly if it comes across one (`Tokens.TokenStore.ListTokens`,
  `Tokens.ListingFails`).
- A pong with a payload that answers no ping empties the ping queue, and a correct answer that follows
  no longer counts: `Heartbeat.UnsolicitedPongSpoilsAnswer`; `Heartbeat.OnlyNewestEchoExtends` says
  exactly which pong counts.
- The pong handler panics exactly if a pong of one to seven bytes comes while a ping is outstanding:
  `Heartbeat.PanicsIff`.
- A ticker that starts after the read loop leaves the first answer less than pong wait minus ping
  period: `Heartbeat.FirstAnswerInTimeIff`.

## Assumptions

- Random ids (channel ids, keys, transaction ids) are fresh. Object identities are fresh.
- The keyed hash and its text encoding are given functions. Decoding undoes encoding and an encoded hash
  is not empty; only `ChannelHash.PeerHashPassesIff`, `ChannelHash.GroupHashPassesIff` and the
  lemmas about ends and channels also assume that hashes do not collide.
- Operations on concurrent maps are atomic, except that an Upsert is split into entering the shard and
  running its callback where lock order matters (`Users`, for any assignment of user ids to shards).
- The snapshot over which a purge pass iterates holds all entries that are listed when the pass starts,
  and any of those listed while it is taken.
- The group restrictions and the create permission of a user are inputs, as are clock readings, the
  outcome of sends and of websocket upgrades, and whether a channel is forced into a pipeline.
- A goroutine handles the messages of one RTM connection one after the other, and closes that connection
  when it ends, as the read loop does.

## Model

| member | source | states |
|---|---|---|
| `McuPipeline.InvKept` | signaling/mcu/pipeline.go:67-208 | every critical section, timer expiry and callback keeps: watch work pending from Connect to Close, a reconnect timer pending while connecting, conservation of Attach calls |
| `McuPipeline.WatchdogNeverLost` | signaling/mcu/pipeline.go:67-208 | in every run, from Connect until Close a watch goroutine, armed timer or fired callback is pending, and `connecting` implies a pending reconnect timer |
| `McuPipeline.ReconnectConservation` | signaling/mcu/pipeline.go:156-208 | in every run, timer-driven Attach calls plus one if connecting never exceed the rises of `connecting`, also when stopped timers have already fired; the MCU joins at most once per Attach |
| `McuPipeline.NothingAttachesAfterClose` | signaling/mcu/pipeline.go:124-260 | after Close no event sequence issues an Attach, and the number of goroutine runs, expiries and callbacks still to come is bounded by the work pending |
| `McuPipeline.ClosedHoldsConnectionIff` | signaling/mcu/pipeline.go:92-101 | a closed pipeline without connection can get one, short of another Close, if and only if an Attach was granted that the MCU has not come back for and the manager has not purged; a fact known when Close returns |
| `McuPipeline.CloseDropsConnection` | signaling/mcu/pipeline.go:247-260 | Close drops the connection, and the pipeline can get one again if and only if an Attach is still awaited |
| `McuPipeline.CloseSilences` | signaling/mcu/pipeline.go:247-260 | if nothing is pending but the two timers in use, nothing is after Close |
| `McuPipeline.ClosedHoldsLateJoin` | signaling/mcu/pipeline.go:92-101 | in a given run after Close the connection is set if and only if the MCU joined |
| `McuPipeline.LateJoinHappens` | signaling/mcu/pipeline.go:92-101 | a run from the start in which a closed pipeline gets a connection |
| `McuPipeline.RetryIff` | signaling/mcu/pipeline.go:103-208 | the pending runtime work of an open pipeline leads to another Attach if and only if it has no connection, is connecting, or has a reconnect goroutine waiting |
| `McuPipeline.RetryWithinReach` | signaling/mcu/pipeline.go:124-208 | that Attach is at most six runtime events away |
| `McuPipeline.FailureStartsReconnect` | signaling/mcu/pipeline.go:67-122 | when its connection closes, its first Attach is refused or one of the reconnect timer is, an open pipeline is at most three events of the reconnect goroutine and timer away from another Attach, without the watchdog |
| `McuPipeline.JoinEndsReconnect` | signaling/mcu/pipeline.go:92-101 | once the MCU has joined, and no reconnect goroutine waits, no amount of runtime work attaches or loses the connection |
| `McuPipeline.AttachRestartsWatch` | signaling/mcu/pipeline.go:171-207 | an Attach granted to the reconnect timer stops the watch timer in use and starts a new watch |
| `McuPipeline.WatchdogStartsNothingTwice` | signaling/mcu/pipeline.go:132-153 | the watch callback goes on watching, and starts a reconnect exactly if there is no connection and none under way; an Attach granted right after it starts no second watch |
| `McuPipeline.NewTimerReplacesOld` | signaling/mcu/pipeline.go:124-171 | arming a timer stops exactly the one in use before |
| `McuPipeline.NoRetryWhileConnected` | signaling/mcu/pipeline.go:132-171 | with a connection and no reconnect under way, no amount of runtime work attaches |
| `McuPipeline.DeadConnectionStaysIff` | signaling/mcu/pipeline.go:103-122 | after the connection of an open pipeline has closed, and until a new one comes, it is still in place if and only if the pipeline was connecting when told |
| `McuPipeline.StuckIff` | signaling/mcu/pipeline.go:103-208 | over every such run, the dead connection stays with no retry to come if and only if the pipeline was connecting when told and that reconnect is over |
| `McuPipeline.GetsStuckIff` | signaling/mcu/pipeline.go:103-208 | runtime work alone can leave the pipeline with a dead connection and no retry if and only if it was connecting when told |
| `McuPipeline.DeadConnectionCanStay` | signaling/mcu/pipeline.go:103-122 | a run from the start in which that happens |
| `McuPipeline.Pipeline.constructor` | signaling/mcu/manager.go:203-214 | a new pipeline is in the initial state |
| `McuPipeline.Pipeline.Connect` | signaling/mcu/pipeline.go:67-90 | refuses exactly if closed; otherwise starts watching and asks for an Attach, starting a reconnect if that fails |
| `McuPipeline.Pipeline.OnConnect` | signaling/mcu/pipeline.go:92-101 | new state after the MCU joined |
| `McuPipeline.Pipeline.OnClosed` | signaling/mcu/pipeline.go:103-122 | new state after the MCU connection closed, with all early returns |
| `McuPipeline.Pipeline.Watch` | signaling/mcu/pipeline.go:124-132 | stops the previous watch timer and arms a new one |
| `McuPipeline.Pipeline.WatchTimeout` | signaling/mcu/pipeline.go:132-153 | watch callback: watches again unless closed, reconnects if there is no connection |
| `McuPipeline.Pipeline.Reconnect` | signaling/mcu/pipeline.go:156-171 | arms one reconnect timer unless already connecting |
| `McuPipeline.Pipeline.ReconnectTimeout` | signaling/mcu/pipeline.go:171-207 | reconnect callback: at most one Attach, then the next retry or a new watch |
| `McuPipeline.Pipeline.Close` | signaling/mcu/pipeline.go:247-271 | closes, stops both timers and returns the connection to detach |
| `McuPipeline.Pipeline.Send` | signaling/mcu/pipeline.go:228-244 | a message finds a connection if and only if the pipeline is open and has one |
| `McuPipeline.Pipeline.OnText` | signaling/mcu/pipeline.go:210-225 | text is handed on if and only if it comes from the current connection of an open pipeline |
| `Messages.ConfinedVerdict` | signaling/rtm/webrtc.go:86-151 | of a user confined to groups, only messages for one of these groups pass, and no call request |
| `Messages.VerdictIff` | signaling/rtm/webrtc.go:113-276 | for every verdict exactly the messages that get it; none with a profile, no call request without the right to create channels |
| `Messages.AccessRestrictedIff` | signaling/rtm/webrtc.go:86-127 | access is denied for restriction exactly to messages outside the user's groups |
| `Messages.CreateRestrictedIff` | signaling/rtm/webrtc.go:266-276 | creation is denied exactly to well-formed call requests of users without that right |
| `ChannelHash.LessIsTotal` | signaling/rtm/webrtc.go:49-57 | the order on strings that sorts the two ends is total and asymmetric |
| `ChannelHash.HashInputSymmetric` | signaling/rtm/webrtc.go:49-63 | both ends of a call give the same hash input |
| `ChannelHash.CheckPassesIff` | signaling/rtm/channel.go:389-431 | for any hash text, exactly which messages pass: only for the channel's own group, only with a hash that decodes, and unless a pipeline takes them only with the hash of their own ends and channel |
| `ChannelHash.WrongGroupRefused` | signaling/rtm/channel.go:389-393 | a message for another group than the channel's is refused as such |
| `ChannelHash.PeerHashHonoured` | signaling/rtm/channel.go:389-431 | a hash issued for two peers passes the check when either returns it for the other |
| `ChannelHash.GroupHashHonoured` | signaling/rtm/channel.go:389-431 | a hash issued to a user for a group passes for all messages of that user to the group |
| `ChannelHash.PeerHashPassesIff` | signaling/rtm/channel.go:389-431 | without pipeline and group, an issued hash passes if and only if the message gives the hash input it was issued for |
| `ChannelHash.GroupHashPassesIff` | signaling/rtm/channel.go:389-431 | in a group, an issued hash passes if and only if the message gives that input with the group or the target as the other end |
| `ChannelHash.FitsExactlyIff` | signaling/rtm/webrtc.go:49-67 | two hash inputs that agree have the same unordered ends and the same channel if and only if lower ends and channels agree in length |
| `ChannelHash.HashBoundToEndsIff` | signaling/rtm/webrtc.go:49-67 | a message without group that passes, on any channel, has the ends (in either order) and the channel the hash was issued for if and only if its lower end and its channel are as long as theirs |
| `ChannelHash.GroupHashBoundIff` | signaling/rtm/channel.go:389-431 | a group message that passes has these ends, with the group or the target, and this channel if and only if one that fits does so in length |
| `ChannelHash.EqualLengthHashIff` | signaling/rtm/webrtc.go:49-67 | among ids of equal length an issued hash passes if and only if channel and unordered ends are those it was issued for |
| `ChannelHash.HashPassesForOthers` | signaling/rtm/webrtc.go:49-63 | a hash issued for "x" and "yz" passes for "xy" and "z" |
| `ChannelHash.HashPassesElsewhere` | signaling/rtm/webrtc.go:49-63 | a hash issued to "a" for group "y@x" passes for "a" and "y@x@y" on channel "@x" |
| `ChannelHash.GroupHashPassesForOthers` | signaling/rtm/webrtc.go:49-63 | a hash issued to "a" for group "y@y" passes for "ay@y@" in group "y" |
| `Channel.ExactMembership` | signaling/rtm/channel.go:182-264 | over every sequence of operations, a channel holds a connection for an id if and only if it is the last one successfully added for it and since neither removed nor closed |
| `Channel.HoldsStep` | signaling/rtm/channel.go:182-264 | one operation: a connection is held afterwards if and only if it was just added, or was held and the operation does not end that |
| `Channel.AddOkIff` | signaling/rtm/channel.go:182-232 | exactly when Add takes a connection, replaces one, finds it there already or finds the channel closed; no other entry changes |
| `Channel.NewAndCleanup` | signaling/rtm/channel.go:86-101 | a new channel is open and empty with the group, Replace handler and pipeline asked for; clean-up closes exactly empty channels |
| `Channel.ClosedIsEmpty` | signaling/rtm/channel.go:295-329 | a closed channel is empty and stays closed; a channel can be cleaned up exactly if it is empty |
| `Channel.LockLeftBehindIff` | signaling/rtm/channel.go:182-232 | the lock is left held if and only if the channel has no Replace handler and some Add brings a second connection for an id |
| `Channel.SecondDeviceLocksCall` | signaling/rtm/channel.go:196-199 | accepting a call on a second device of the same user leaves the lock held |
| `Channel.Channel.constructor` | signaling/rtm/channel.go:86-101 | a new channel is open and empty, with a default configuration if none is given |
| `Channel.Channel.Add` | signaling/rtm/channel.go:182-232 | the outcome and the new state for closed, new, known and replaced members |
| `Channel.Channel.Remove` | signaling/rtm/channel.go:235-239 | removes the entry of an id |
| `Channel.Channel.RemoveExact` | signaling/rtm/channel.go:241-264 | close callback: removes the entry only if it still is this connection |
| `Channel.Channel.Cleanup` | signaling/rtm/channel.go:307-329 | closes the channel exactly if it is empty |
| `Channel.Channel.Connections` | signaling/rtm/channel.go:333-346 | the two arrays list every member exactly once, ids and connections in step |
| `Channel.Channel.Check` | signaling/rtm/channel.go:389-431 | the result of checking a message against this channel |
| `Rooms.InvKept` | signaling/rtm/webrtc.go:113-522 | every step of every handler, of Close and of the purge loop keeps the invariant of the channel table, memberships and close callbacks |
| `Rooms.NoClosedMembers` | signaling/rtm/channel.go:209-216 | in every run, once Close of a connection has finished, no channel maps any id to it |
| `Rooms.NonEmptyChannelsAreListed` | signaling/rtm/webrtc.go:159-193 | in every run, a channel with members is in the table under its own id, unless its creator is still handling the call request |
| `Rooms.GroupChannelFound` | signaling/rtm/group.go:30-32 | what the table holds under the id of a group is a channel of exactly that group, with a Replace handler |
| `Rooms.ClosedForever` | signaling/rtm/channel.go:307-329 | a closed channel stays closed, whatever handlers and purge do |
| `Rooms.PurgeDropsOnlyDeadChannels` | signaling/rtm/manager.go:199-219 | with joins at any point between scan, Cleanup and Remove, the purge removes only the channel listed under the key, which is closed and empty and stays so |
| `Rooms.PassPurges` | signaling/rtm/manager.go:199-219 | an uninterrupted pass closes and removes exactly the empty channels that have expired |
| `Rooms.ConfinedStayInTheirGroups` | signaling/rtm/webrtc.go:86-127 | in every run, a connection of a user confined to groups R is a member only of channels "@g" with g in R |
| `Rooms.CloseFinishesIff` | signaling/connection/connection.go:247-273 | Close of a connection can finish if and only if none of the channels it has yet to leave was left locked |
| `Rooms.CloseNeverFinishes` | signaling/rtm/channel.go:196-216 | once such a lock was left behind, it is never released and Close never gets past that channel |
| `Rooms.PassEndsIff` | signaling/rtm/manager.go:199-219 | a purge pass can end if and only if none of the channels it has yet to test or clean up was left locked |
| `Rooms.NoPassEnds` | signaling/rtm/channel.go:287-293 | once a listed channel was left locked, no run ends a pass that begins |
| `Rooms.ListedGroup` | signaling/rtm/group.go:30-32 | the channel listed under an id has the group the id stands for |
| `Rooms.CallChannelKept` | signaling/rtm/webrtc.go:279-288 | over every run, a call channel still listed under its id is the same one, with the same pipeline unless closed |
| `TwoDevices.SecondDeviceBlocks` | signaling/rtm/webrtc.go:340-386 | a run from the start, with answers that pass the check, after which the first device's connection can never be closed and no purge pass ever ends |
| `Lifecycle.InvKept` | signaling/connection/connection.go:106-142 | every step of table, rooms and purges keeps: until its Close has finished, a connection is between OnConnect and OnDisconnect, under the same user |
| `Lifecycle.MembersAreListed` | signaling/rtm/events.go:37-133 | in every run, a member of any channel is in the user table, and the record under its id lists its connection exactly once |
| `Lifecycle.DisconnectReachedIff` | signaling/connection/connection.go:106-110 | the read loop of a connection being closed can get to OnDisconnect if and only if none of the channels it has yet to leave was left locked |
| `Lifecycle.HeldUpStaysListed` | signaling/connection/connection.go:106-110 | otherwise, over every run, the user stays in the table with a record that lists the dead connection |
| `Lifecycle.SecondDeviceKeepsUser` | signaling/rtm/webrtc.go:340-386 | a run from the start after which that is so |
| `WebRtc.RelaySound` | signaling/rtm/webrtc.go:306-515 | every relayed message has the bound user's id as source and, outside pipelines, id 0; signals and hangups are otherwise unchanged, answers but for profile and (in groups) the reissued hash, requests but for profile, channel, hash and pipeline note, which are given exactly; it goes only to the target's connections (request, hangup not picked up), to the connection the channel holds for the target, or to the channel's pipeline |
| `Replies.RequestExact` | signaling/rtm/webrtc.go:266-338 | call request: exact channel, reply, one relay per connection of the target in order, and error |
| `Replies.GroupAnswerExact` | signaling/rtm/webrtc.go:353-431 | answer in a group: exactly one relay with the hash for the two ends, to the connection held for the target, or the error |
| `Replies.CallAnswerExact` | signaling/rtm/webrtc.go:378-431 | answer to a call: exact membership, one note per other connection of the user and the relay to the connection held for the target; nothing for a busy one of several devices |
| `Replies.LockedAnswerExact` | signaling/rtm/webrtc.go:378-431 | the same where the channel's lock was left behind: what is sent before the handler stops |
| `Replies.SignalExact` | signaling/rtm/webrtc.go:434-515 | signal and hangup: exactly one relay to the pipeline or the connection held, or for a hangup not picked up one per connection of the target, or the error; a hangup removes its sender |
| `Replies.LockedSignalExact` | signaling/rtm/webrtc.go:434-515 | the same where the channel's lock was left behind |
| `Replies.RefusedExact` | signaling/rtm/webrtc.go:340-360 | answers and signals for unlisted channels, or that fail the check, do nothing but return the error |
| `Replies.GroupExact` | signaling/rtm/webrtc.go:153-235 | group join: who may join becomes a member, a replaced connection is told exactly if there was one, and the reply lists exactly the members |
| `Replies.ConfinedToOwnGroups` | signaling/rtm/webrtc.go:86-127 | if a confined user makes the server send or change anything, it is about a listed channel of one of the user's groups, and no other channel changes |
| `WebRtc.NoUserNothingSent` | signaling/rtm/webrtc.go:122-135 | a message of a connection without user changes nothing and sends nothing |
| `WebRtc.PanicsIff` | signaling/rtm/webrtc.go:340-383 | the handler panics, having changed and sent nothing, if and only if the message is an answer with data null that passes the check |
| `WebRtc.NullAnswerPanics` | signaling/rtm/webrtc.go:340-383 | an answer with data null and the hash of the call does so |
| `WebRtc.RequestRelayOk` | signaling/rtm/webrtc.go:303-338 | the same for call requests |
| `WebRtc.ResponseRelayOk` | signaling/rtm/webrtc.go:340-431 | the same for answers |
| `WebRtc.SignalRelayOk` | signaling/rtm/webrtc.go:434-515 | the same for signals and hangups |
| `WebRtc.ToOthersNoRelay` | signaling/rtm/webrtc.go:401-416 | the note that a call was answered goes to the user's other connections only |
| `WebRtc.RequestHashHonoured` | signaling/rtm/webrtc.go:303-338 | the hash of a relayed call request passes when its receiver returns it, whatever state the channel is in |
| `Refinement.RequestHashStaysGood` | signaling/rtm/webrtc.go:303-338 | so it does after any run of handlers and purges, as long as the channel is listed |
| `WebRtc.RequestReplyHashHonoured` | signaling/rtm/webrtc.go:303-323 | the hash in the reply to the caller passes for the peer called, whatever state the channel is in |
| `Refinement.RequestReplyHashStaysGood` | signaling/rtm/webrtc.go:303-323 | so it does after any run of handlers and purges, as long as the channel is listed |
| `WebRtc.ResponseHashHonoured` | signaling/rtm/webrtc.go:353-431 | the hash of a relayed answer, own or reissued for a group, passes when its receiver returns it; where a pipeline let it pass unseen, the pipeline has to be there still |
| `Refinement.ResponseHashStaysGood` | signaling/rtm/webrtc.go:353-431 | so it does after any run; a call channel keeps its pipeline as long as it is open |
| `WebRtc.GroupReplyIs` | signaling/rtm/webrtc.go:195-235 | the reply to a group join goes to the joiner, who is a member then, with the group's channel and the hash for user and group |
| `WebRtc.GroupReplyHashHonoured` | signaling/rtm/webrtc.go:195-235 | its hash passes for messages to the group, on any channel of that group |
| `Refinement.GroupReplyHashStaysGood` | signaling/rtm/webrtc.go:195-235 | so it does after any run, even if the group's channel was purged and made anew |
| `WebRtc.Manager.SendAll` | signaling/rtm/webrtc.go:312-338 | one send per connection of the target, in order |
| `WebRtc.Manager.SendOthers` | signaling/rtm/webrtc.go:401-416 | one send per connection but the sender's own, in order |
| `WebRtc.Manager.Upsert` | signaling/rtm/webrtc.go:159-174 | the listed group channel, created if there is none |
| `WebRtc.Manager.CreateCall` | signaling/rtm/webrtc.go:279-288 | a new call channel with its creator as member, under its own id |
| `WebRtc.Manager.ProcessGroup` | signaling/rtm/webrtc.go:130-235 | group join: view, sends and error are those of the specification |
| `WebRtc.Manager.Welcome` | signaling/rtm/group.go:34-55 | the replaced connection, if any, is told so first; then the joiner gets the reply |
| `WebRtc.Manager.ProcessRequest` | signaling/rtm/webrtc.go:266-338 | call request: view, sends and error are those of the specification |
| `WebRtc.Manager.ProcessResponse` | signaling/rtm/webrtc.go:340-431 | answer: view, sends and error are those of the specification |
| `WebRtc.Manager.ForwardTo` | signaling/rtm/channel.go:357-374 | forwarding to a connection or to the pipeline, and the error of a refused send |
| `WebRtc.Manager.ProcessSignal` | signaling/rtm/webrtc.go:434-515 | signal and hangup: view, sends and error are those of the specification |
| `WebRtc.Manager.Process` | signaling/rtm/webrtc.go:113-522 | the whole handler refines the specification, including where it waits for a lock that was left behind and where it panics |
| `Refinement.GroupJoinAgrees` | signaling/rtm/webrtc.go:153-193 | an uninterrupted group join of the step machine ends with exactly the channel table of the handler |
| `Refinement.CallRequestAgrees` | signaling/rtm/webrtc.go:278-288 | so does a call request |
| `Refinement.AcceptAgrees` | signaling/rtm/webrtc.go:346-386 | so does an accepted call, on a channel whose lock is free |
| `Refinement.HangupAgrees` | signaling/rtm/webrtc.go:454-485 | so does a hangup, on a channel whose lock is free |
| `Connection.InvKept` | signaling/connection/connection.go:247-352 | every lock operation and step of any number of RawSend, OnClosed and Close calls keeps the invariant |
| `Connection.SendCloseSafety` | signaling/connection/connection.go:247-352 | in every run the send channel is closed at most once, is open whenever a payload is put on it, and holds at most 256 payloads |
| `Connection.ClosedQueueOnlyDrains` | signaling/connection/connection.go:333-352 | after the close the queue only loses its front |
| `Connection.CallbacksRunExactlyOnce` | signaling/connection/connection.go:262-280 | callbacks registered before they are taken run exactly once and in order; later ones never run |
| `Connection.FirstInFirstOut` | signaling/connection/connection.go:333-352 | over every run, what was written and what is queued is exactly what was accepted, in order |
| `Connection.RegisteredInOrder` | signaling/connection/connection.go:276-280 | over every run, the callbacks registered are exactly those of the OnClosed calls, in order |
| `Connection.SendRuns` | signaling/connection/connection.go:333-352 | an uninterrupted RawSend queues its payload exactly if the connection is open and has room |
| `Connection.RegisterRuns` | signaling/connection/connection.go:276-280 | an uninterrupted OnClosed appends its callback |
| `Connection.CloseRuns` | signaling/connection/connection.go:247-273 | an uninterrupted first Close closes the send channel and runs all callbacks; any other changes nothing |
| `Connection.Connection.RawSend` | signaling/connection/connection.go:333-352 | queues the payload exactly if the connection is open and the queue has room |
| `Connection.Connection.OnClosed` | signaling/connection/connection.go:276-280 | appends the callback |
| `Connection.Connection.Close` | signaling/connection/connection.go:247-273 | the first call takes and runs all callbacks, any other does nothing |
| `Heartbeat.QueueHoldsRecentPings` | signaling/connection/connection.go:113-140 | the queue holds exactly the pings since the last non-empty pong, at most five; the connection hangs up exactly if a tick finds five outstanding |
| `Heartbeat.OnlyNewestEchoExtends` | signaling/connection/connection.go:114-139 | the deadline moves exactly on an echo of the newest ping (modulo 2^64) if it is outstanding |
| `Heartbeat.EchoRoundTrip` | signaling/connection/connection.go:220-235 | reading the eight bytes of a ping back gives its number |
| `Heartbeat.PanicsIff` | signaling/connection/connection.go:114-139 | in every run the pong handler panics if and only if a pong of one to seven bytes comes while a ping is outstanding |
| `Heartbeat.ResponsivePeerNeverTimesOut` | signaling/connection/connection.go:42-46 | a peer that answers each ping in less than pong wait minus ping period (the first one earlier by what the ticker started late) never meets the read deadline |
| `Heartbeat.FirstAnswerInTimeIff` | signaling/connection/connection.go:188-241 | the first answer is in time if and only if ticker delay, ping period and response time fit in the pong wait |
| `Heartbeat.UnsolicitedPongSpoilsAnswer` | signaling/connection/connection.go:118-138 | after an unsolicited non-empty pong the correct answer does not save the connection |
| `Heartbeat.Beat.OnTick` | signaling/connection/connection.go:220-235 | new ping queue, or hang-up with five outstanding |
| `Heartbeat.Beat.OnPong` | signaling/connection/connection.go:114-140 | the drain loop leaves an empty queue, panics on a short payload and extends the deadline only for the last element |
| `Users.Compact` | signaling/rtm/events.go:115-124 | the copy loop with offset: runs out of its slice exactly if the connection is not listed; otherwise it keeps everything else in order, with a nil entry for each further occurrence |
| `Common.WithoutFacts` | signaling/rtm/events.go:115-124 | the specified removal leaves exactly the other elements, one element less in a list without duplicates |
| `Users.InvKept` | signaling/rtm/events.go:37-133 | every step of connecting, disconnecting and purging keeps the invariant of the user table |
| `Users.ListedExactlyOnce` | signaling/rtm/events.go:42-62 | in every run, between OnConnect and OnDisconnect the table maps the user id to the record the connection is bound to, which lists it exactly once |
| `Users.DisconnectNeverBreaks` | signaling/rtm/events.go:103-132 | in every run OnDisconnect finds its record and its connection: neither the "should not happen" branch nor an index out of range is reachable |
| `Users.PurgeBlockedIff` | signaling/rtm/manager.go:158-192 | for any assignment of users to shards, the purge that holds a record is kept from the table for good if and only if a connecting goroutine in that shard waits for that record |
| `Users.DeadlockLasts` | signaling/rtm/manager.go:178-182 | no event ends that state |
| `Users.DeadlockHappens` | signaling/rtm/events.go:42-56 | a run that leads there |
| `Users.ConnectRuns` | signaling/rtm/events.go:37-63 | the two steps of OnConnect add the connection to the user's row and bind it to that row's record |
| `Users.DisconnectRuns` | signaling/rtm/events.go:97-133 | the two steps of OnDisconnect find the connection in the user's row and take it out |
| `Users.PurgeRuns` | signaling/rtm/manager.go:158-192 | a purge that is not interrupted takes out exactly the users collected |
| `Users.UserTable.OnConnect` | signaling/rtm/events.go:37-63 | changes the rows as in ConnectRuns; returns the record bound |
| `Users.UserRecord.Drop` | signaling/rtm/events.go:113-130 | the critical section: removes exactly this connection and notes the exit time of the last one, or panics and changes nothing |
| `Users.UserTable.OnDisconnect` | signaling/rtm/events.go:97-133 | changes the rows as in DisconnectRuns, or is broken exactly if user or connection is missing |
| `Users.UserTable.CollectInactive` | signaling/rtm/manager.go:158-174 | finds exactly the users without connections since the deadline |
| `Users.UserTable.PurgeInactive` | signaling/rtm/manager.go:158-192 | removes exactly these, as in PurgeRuns |
| `Chats.InvKept` | signaling/rtm/chats.go:177-211 | every queue operation of any number of senders keeps the chat order |
| `Chats.OneLogForAll` | signaling/rtm/chats.go:302-320 | in every run, what a connection was sent of a channel's chat is a subsequence of one common log without repetition |
| `Chats.SameOrderForAll` | signaling/rtm/channel.go:433-439 | two connections that both got two entries got them in the same order |
| `Chats.ReplyComesFirst` | signaling/rtm/chats.go:177-197 | nothing is broadcast unless the sender's own reply was queued |
| `Chats.SubPositions` | signaling/rtm/chats.go:177-211 | a subsequence has increasing positions in the log |
| `Chats.BroadcastReachesEachOnce` | signaling/rtm/chats.go:197-208 | the loop adds one copy to each member but the sender and those that refuse, and nothing else |
| `Chats.PostedQueues` | signaling/rtm/chats.go:177-237 | what posting puts on each queue: the broadcast for members that do not refuse, reply and report for the sender of a message, nothing for anybody if the reply is refused |
| `Chats.EveryoneGetsIt` | signaling/rtm/chats.go:197-208 | in every interleaving, once a goroutine has gone through the members it found, each but the sender has the entry if and only if it did not refuse it |
| `Chats.Room.BroadcastAll` | signaling/rtm/chats.go:197-208 | the loop computes that broadcast |
| `Chats.Room.PostMessage` | signaling/rtm/chats.go:177-237 | reply, broadcast, then the delivery report; nothing at all if the reply fails |
| `Chats.Room.PostNotice` | signaling/rtm/chats.go:302-320 | a join or left notice: the broadcast and nothing else |
| `Chats.PostRuns` | signaling/rtm/chats.go:177-320 | an uninterrupted goroutine, with sends refused exactly for the failing connections, does to the queues exactly what PostMessage and PostNotice do |
| `McuManager.AlwaysListed` | signaling/mcu/manager.go:140-155 | GetConnection returns nothing exactly if the list is empty, else a listed connection, also when the cursor's element is gone |
| `McuManager.CallsFrom` | signaling/mcu/manager.go:140-155 | calls return the elements after the cursor in turn |
| `McuManager.RoundRobin` | signaling/mcu/manager.go:140-155 | over an unchanged list of n, any n calls return a rotation of the list: each connection exactly once |
| `McuManager.AttachIsSingleUse` | signaling/mcu/handlers.go:34-90 | in every run the onConnect callback of an Attach runs at most once, and has run if the record has a connection |
| `McuManager.DeadStaysDead` | signaling/mcu/handlers.go:34-90 | a record without connection and handler never gets either again |
| `McuManager.PurgeRemovesOnlyDead` | signaling/mcu/manager.go:100-117 | the purge removes only records without connection, and none can join between mark and removal or later |
| `McuManager.PurgeableIff` | signaling/mcu/handlers.go:74-86 | the record of a transaction can be purged in the end if and only if its connection was not closed between onConnect and the registration of the callback that clears the record |
| `McuManager.LeakedStays` | signaling/mcu/handlers.go:74-86 | a record whose connection was closed then keeps it, and stays in the table, for good |
| `McuManager.LeakHappens` | signaling/mcu/handlers.go:74-86 | a run from the start that gets there |
| `McuManager.AttachRuns` | signaling/mcu/manager.go:158-180 | the Attach step adds one new row |
| `McuManager.JoinRuns` | signaling/mcu/handlers.go:43-88 | the Join step changes exactly the row of its transaction |
| `McuManager.PurgeRuns` | signaling/mcu/manager.go:100-117 | an uninterrupted purge marks and removes exactly the stale rows |
| `McuManager.AttachedRecord.Join` | signaling/mcu/handlers.go:43-77 | takes the connection exactly if there is none, the handler is set and the upgrade succeeds; what follows onConnect is a step of its own in the machine |
| `McuManager.AttachedRecord.Mark` | signaling/mcu/manager.go:104-112 | clears the handler exactly if the record is stale |
| `McuManager.Manager.GetConnection` | signaling/mcu/manager.go:140-155 | moves the cursor as specified and returns it |
| `McuManager.Manager.PushBack` | signaling/mcu/handlers.go:92-102 | a new MCU connection is listed last |
| `McuManager.Manager.Drop` | signaling/mcu/handlers.go:92-102 | exactly this connection leaves the list |
| `McuManager.Manager.Attach` | signaling/mcu/manager.go:158-180 | adds a row as in AttachRuns, unless no MCU is connected |
| `McuManager.Manager.MarkExpired` | signaling/mcu/manager.go:100-117 | clears the handler of exactly the records without connection older than 30 s |
| `McuManager.Manager.PurgeExpired` | signaling/mcu/manager.go:100-117 | removes exactly these rows, as in PurgeRuns |
| `Keys.KeysAreOneTime` | signaling/rtm/handlers.go:37-48 | in every run each key is accepted at most once |
| `Keys.StoredIff` | signaling/rtm/manager.go:234-250 | in every run a key is stored, with the time it was issued, if and only if it was issued and since neither requested nor purged |
| `Keys.AcceptedIff` | signaling/rtm/handlers.go:37-48 | a request is accepted exactly then |
| `Keys.FirstRequestAccepted` | signaling/rtm/handlers.go:37-48 | in particular the first request within 30 s of issue |
| `Keys.YoungKeysStay` | signaling/rtm/manager.go:134-147 | in every run a purge pass removes only keys older than 30 s, and leaves no key that was older when the pass started |
| `Keys.NoOldKeyAccepted` | signaling/rtm/manager.go:134-147 | with passes at most `gap` apart, no key older than `gap` + 30 s is accepted; 90 s for passes at most a minute apart |
| `Keys.PassRuns` | signaling/rtm/manager.go:134-147 | an uninterrupted pass keeps exactly the keys at most 30 s old |
| `Keys.KeyStore.Connect` | signaling/rtm/manager.go:234-250 | is the machine's Connect step |
| `Keys.KeyStore.Pop` | signaling/rtm/handlers.go:37-48 | is the machine's Request step: a key is accepted, and consumed, exactly if it succeeds |
| `Keys.KeyStore.PurgeExpired` | signaling/rtm/manager.go:134-147 | removes exactly the keys older than 30 s, by a run of the machine |
| `Expiry.Collect` | signaling/admin/manager.go:83-99 | first phase of a purge: finds exactly the entries that are too old |
| `Expiry.RemoveAll` | signaling/admin/manager.go:83-99 | second phase: removes exactly the entries found |
| `Tokens.RefreshedTokenSurvives` | signaling/admin/manager.go:83-99 | in every run, a token refreshed within the last minute survives every purge |
| `Tokens.FreshStays` | signaling/admin/manager.go:174-188 | the same for any state in which the token is fresh and not about to be removed |
| `Tokens.StoredTokenLostIff` | signaling/admin/manager.go:83-137 | a token stored during a purge is gone at its end, whatever is interleaved short of storing or popping it, if and only if its id was among those still to be removed |
| `Tokens.StoredTokenIsLost` | signaling/admin/manager.go:83-137 | a run from the start in which a valid token is lost that way |
| `Tokens.TokenlessIff` | signaling/admin/manager.go:174-188 | in every run there is a record without token if and only if its id was refreshed while not stored, and has since been neither stored, popped nor purged |
| `Tokens.PurgeRuns` | signaling/admin/manager.go:83-99 | an uninterrupted purge removes exactly the expired records |
| `Tokens.PurgeKeepsStamped` | signaling/admin/manager.go:83-99 | what such a purge keeps is exactly what was stamped within the last minute; records never stamped go |
| `Tokens.UnknownRefreshPurged` | signaling/admin/manager.go:174-188 | the record that a refresh of an unknown id leaves is one of these |
| `Tokens.TokenStore.ListTokens` | signaling/admin/auth.go:275-295 | listing panics if and only if one of the first 5000 admin records it comes across has no token; otherwise it shows exactly these |
| `Tokens.ShownComplete` | signaling/admin/auth.go:275-295 | every admin record is shown as long as there is room |
| `Tokens.ListingFails` | signaling/admin/auth.go:275-295 | a run after which listing panics |
| `Tokens.PoppedTokenStaysInvalid` | signaling/admin/manager.go:162-188 | after a pop no sequence of refreshes and purges makes the token valid before SetToken |
| `Tokens.InvalidStays` | signaling/admin/auth.go:101-111 | the same for any token that is not valid |
| `Tokens.TokenStore.SetToken` | signaling/admin/manager.go:132-137 | stores the token with the current time |
| `Tokens.TokenStore.PopToken` | signaling/admin/manager.go:162-170 | removes the token and says whether it was there |
| `Tokens.TokenStore.RefreshToken` | signaling/admin/manager.go:174-188 | sets the time; for an unknown id stores a record without token |
| `Tokens.TokenStore.IsValid` | signaling/admin/auth.go:101-111 | valid exactly if a record with a token is stored |
| `Tokens.TokenStore.IsValidRequest` | signaling/admin/auth.go:131-142 | a request succeeds if and only if its token is valid or not expired, and its token is valid afterwards if and only if it succeeds |
| `Tokens.TokenStore.PurgeExpired` | signaling/admin/manager.go:83-99 | removes exactly the records not refreshed within a minute, by a run of the machine |

## Left out

- Websocket upgrade, HTTP routing, CORS, JSON encoding and logging: library plumbing; messages are datatypes.
- JWT signing and parsing, OIDC validation, the insides of HMAC, base64 and random generation: foreign code, taken as given functions or inputs.
- The insides of the concurrent map: its operations are atomic here; the locks of its shards appear in `Users` only.
- Prometheus counters: a replacement counts as an add without a remove, so they do not balance.
- clients/, turn/, signaling/guest/, signaling/server/, cmd/ and config/: short lookups and startup wiring.
- SendTransaction and Transaction of a connection (signaling/connection/connection.go): a map lookup per reply.
- Validation of chat messages (signaling/rtm/chats.go:66-174), among it the test that the sender is in the channel: single-branch tests before the critical section.
- The asynchronous broadcast of a group's members (signaling/rtm/group.go:57-108), `Channel.deliver` and the pipeline callbacks `NewChannel` sets up.
- Deadlock freedom as a whole: it does not hold, see `Users.DeadlockHappens` and `TwoDevices.SecondDeviceBlocks`.
- Channel.Channel.Add: stands for a call that finds the lock free; goroutines that wait for a lock are steps of `Rooms` that are not enabled.
- Keys.NoOldKeyAccepted: `gap` is the distance of a request from the start of the last finished pass, so it includes the time a pass takes.
- Users.UserTable.PurgeInactive: one call without interleaving; the interleavings are steps of the machine in `Users`, where the time a record has been empty is left open, so that its theorems hold for any deadline.
- Chats.Room.PostMessage: one sender; interleaved senders are the actors of the machine in `Chats`.
