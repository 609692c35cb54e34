# A verified model of parley

parley runs long-lived, end-to-end-encrypted group sessions. A relay owns membership and forwards
frames it cannot read; clients share a group key that their host rotates; a mux routes the
decrypted frames to services. This project models the three machines and proves what they keep
over every run.

- **The relay hub** (`HubSpec`, `HubViews`, `HubCascade`, `HubRefine`, `Membership`, `HubLedger`,
  `HubReplies`, `Slots`, `SlotClaims`, `HubExamples`, and the class `Relay.Hub`). Commands are handled one at a time; queues hold 64 frames; a participant whose
  queue overflows is evicted, and the notices of its departure may evict more. Slots survive
  unexpected drops for a grace period under a new connection generation. A map is walked in any
  order. A command step carries a flag that says whether connections receive from their queues, and
  queue pongs, while it runs. `Relay.Hub` is the object itself: each method is proved to take one
  step of the specification. `Slots` adds the connections, their kicks and the grace timers. `HubLedger` is the
  hub without its queues: seats, tokens, generations and the host as functions of the commands.
- **The group-key protocol** (`Ends`, `Session`, `KeyAgreement`, the other `Session*` files, and the
  class `SessionClient.Client`). An end has a read goroutine that writes its answers one at a time, a
  routing goroutine that migrates, and callers that seal and send as two separate steps. A step is
  what the source does under one lock: a RekeyPake2 or Rekey is checked in one step and committed in
  another, and a first flight is recorded in one and written in another. What an end
  writes is routed by the relay in order into the stream of each recipient that is a member at that
  moment. The relay does not ask whether the sender still is one. Cryptography is symbolic: a wrap
  opens only under the same pairwise key and for the same recipient, a sealed frame only under the
  same group key, and a minted key is new.
- **The two together** (`Hello`, `Delivery`, `HeldKeys`). The client's hello fits the hub's queue, a hub
  run without holds puts into every member's stream what the session's relay puts there, and a member
  that reconnects after a hold reads the key messages the hub kept.
- **The mux** (`MuxSpec`, `Mux`) with any number of emitters against one shutdown, the successor
  election (`Election`), and the rosters it runs on (`Rosters`, `RosterExamples`): every end's copy over
  a whole session, with announcements and keys in transit.
- **Three smaller parts**: the bounded per-address limiter (`LimiterSpec`, `Limiter`), the chat history
  (`ChatSpec`, `Chat`), and the key labels (`Labels`).

## Where the code and its documentation differ

The model follows the code; each difference has an exact condition.

- "Any departure rotates the group key" (README.md:22-25): the host rotates only with somebody left to
  re-wrap to. `SessionFrames.DepartedOpensExactly` says exactly which frames the departed end opens, and
  `SessionExamples.LoneDepartureKeepsKey` is a session in which it is not.
- The re-PAKE of a survivor is expected to arrive after the successor's promotion and rotation
  (session/client.go:413-420). Nothing enforces that: a first flight read earlier is dropped for good,
  and one read between promotion and rotation is forgotten again. `SessionHistory.AnsweredExactly` is
  the exact condition, and `SessionExamples.EarlyFlight` a session in which the flight is too early.
- A survivor that is answered is expected to fetch the new host's key. The handler of a PAKE reply
  releases the lock between its check and its commit (session/handshake.go:300-321), and the commit
  drops whatever nonce is there by then. A first flight sent in between loses its nonce: the host
  answers it, and the survivor cannot take the answer in. `SessionResults.HostAndMemberAgree` says
  exactly when that is, and `SessionExamples.CrossedStaysBehind` is a session in which a survivor that
  has read everything stays on its old key. Its two migrations skip a departed host; with the default
  policy that takes a pruned roster that was heard in between, otherwise a policy of `WithSuccessor`.
- The successor's rotation is to lock the departed host out (session/client.go:413-420). A late re-wrap
  of the departed host that is between its check and its commit (session/client.go:601-624) is
  installed over the rotated key. `SessionSources.RotationExactly` is the condition,
  `SessionSources.SuccessorLocksOut` what it gives, `SessionSources.SuccessorOpenExactly` says when the
  departed host opens what its successor seals, and `SessionExamples.RotationUndone` is a session in which
  it does.
- A resumed slot should replay what it missed: behind the JoinResult there is room for 63 of the 64
  buffered frames. `HubViews.ResumeExactly` says when the lost frame matters, and
  `HubExamples.ClippedHold` is a run in which it does. "No re-key is needed" after a reconnect
  (session/client.go:247-251) fails in the same way: `HeldKeys.ResumedKeysExactly` says when the lost
  frame leaves the member behind its host's keys, `HeldKeys.LostKeyExactly` and
  `HeldKeys.LostAnswerStaysBehind` for how long, and `HeldKeys.KeyLostInHold` is a run.
- "If the host leaves, a survivor is promoted" (README.md:22-25): survivors elect from their rosters, and
  a roster may list ends that have left. Only the host removes departed ends (service/ctl.go:251-254),
  and the promoted host announces its roster under the rotated key (service/mux.go:346-370), which a
  survivor cannot open yet and which nothing repeats once it can. So a second migration may elect an
  end that is gone, and then nobody is promoted. `Rosters.TakesOverExactly` says that somebody takes
  over if and only if the pick has not left, `Rosters.OrphanedExactly` when an end loses its host
  for good, and `RosterExamples.StaleRosterStrands` is a session that ends so.
- Evicting a limiter entry is called lossless: it is for stale entries, and exactly for entries with a
  full bucket, as far as any later requests can tell (`LimiterSpec.ForgettingExactly`). The fallback
  can forgive an active address (`LimiterSpec.FallbackForgives` is such a run), and with the empty address in the table a scan may make no room
  (`LimiterSpec.RoomExactly`).
- Ids are called unique; the 32-bit counter wraps. `HubExamples.CounterWraps` leads the hub there: the
  newcomer after id 0 gets the creator's id and takes over its slot.
- The default successor policy takes id 0 for "none". With that id among the candidates the policy may
  depend on the order of iteration, and `Election.DeterministicExactly` says exactly when.

## Model

| member | source | states |
|---|---|---|
| `HubViews.ViewsAgree` | relay/hub.go:226-451 | at every command boundary of every run, a live participant's stream starts with its own reply and replays to the hub's client set minus itself (after SessionCreated: to the later joiners), up to the phantoms of a clipped resume |
| `HubViews.CreatorSeesAll` | relay/hub.go:226-259 | the creator's view is complete if and only if nobody with a smaller id is in the session |
| `HubViews.ResumeExactly` | relay/hub.go:327-372 | the view of a resumed slot equals the hub's client set if and only if the hold did not lose, as its 64th frame, the departure of somebody whose arrival it kept |
| `HubExamples.ClippedHold` | relay/hub.go:361-369 | a run to a hold of 64 frames that loses the departure of a member, so that the resumed client believes in that member |
| `HeldKeys.ResumedKeysExactly` | relay/hub.go:349-369 | a member that reconnects comes to the key state that everything sent to it during the outage leads to, if and only if the hold did not lose, as its 64th frame, a key message of its host's that the member would have taken |
| `HeldKeys.LostKeyExactly` | session/client.go:601-624 | when the lost frame is a Rekey, the member is on the key it was sent after any later messages if and only if it had that key already or one of them gives it a group key |
| `HeldKeys.LostAnswerStaysBehind` | session/handshake.go:300-321 | when the lost frame is the answer to a fetch, the member opens none of the keys wrapped under the new pairwise key until another answer comes, though every one for it would have been taken |
| `HeldKeys.KeyLostInHold` | relay/hub.go:361-369 | a hub run in which a re-wrapped key is the 64th held frame: the member that reconnects goes on with its old key |
| `HubExamples.CounterWraps` | relay/hub.go:232-255 | a run to the last id, after which three joins get the last id, id 0 and the creator's id, and the third newcomer replaces the creator, whose connection is not kicked |
| `HubViews.DrainRemoves` | relay/hub.go:185-194 | the drain removes every id at most once and only participants, leaves exactly the others, and ends the session if and only if nobody is left |
| `HubViews.CommandKeeps` | relay/hub.go:150-180 | every command with its drain keeps the hub's invariant: a duplicate-free evict list of exactly the marked clients, queues within 64, streams that start with their reply and agree with the membership |
| `HubViews.RunKeeps` | relay/hub.go:150-180 | that invariant holds, with nobody left marked, between the commands of every run |
| `HubCascade.DoomedIsLeastFixpoint` | relay/hub.go:185-194 | the doomed set is the least fixpoint of "overflowed already, or less room than there are departures" |
| `HubCascade.CascadeConfluent` | relay/hub.go:185-194 | without receives in between, every completed drain evicts exactly the doomed set |
| `HubCascade.CommandConfluent` | relay/hub.go:307-451 | a command handled twice from one state, in any two iteration and eviction orders, gives the same reply and evicts the same participants |
| `HubRefine.DrainInOrder` | relay/hub.go:185-194 | participants are evicted in the order in which they overflowed: those gone and those waiting, in this order, begin with the list the drain began with |
| `HubRefine.CommandRefines` | relay/hub.go:150-180 | a command with its evictions is a run of the plain join/leave machine |
| `HubRefine.RunRefines` | relay/hub.go:150-194 | in every run the members, tokens and counter are those of the plain machine after the run's events |
| `HubLedger.CommandBook` | relay/hub.go:150-180 | a command with its evictions changes seats (token, connection, generation, held or not), host, counter and end exactly as the ledger's entry does, and joins and resumes are answered as the ledger says |
| `HubLedger.RunBook` | relay/hub.go:150-180 | in every run the hub's seats, host and answers are those of the ledger folded over the run's labels, whatever the queues did |
| `HubLedger.HostIsLastClaim` | relay/hub.go:214-218 | in every run the host is the last to have claimed it while in the session, or else the creator's id |
| `HubLedger.GreetedByHost` | relay/hub.go:236-252 | in every run a live connection's stream begins with the reply to the join or resume that seated it: SessionCreated, or a JoinResult with its id, its token and the host of that moment |
| `HubLedger.TokenWasIssued` | relay/hub.go:234-255 | in every run a slot's token is that of the join that was given its id |
| `HubLedger.ResumeExactly` | relay/hub.go:327-333 | in every run a resume is answered with a seat if and only if its id is a member by the run's arrivals and departures and it carries the token of that member's join; otherwise it is refused and nothing changes |
| `HubRefine.CommandHeard` | relay/hub.go:376-451 | whoever stays on its connection is sent exactly the command's own notice or forwarded frame and then one notice for each eviction, in order |
| `HubReplies.UnknownPeerExactly` | relay/hub.go:388-392 | whoever stays on its connection is told of an unknown peer exactly when its own frame was for somebody who is not there |
| `HubReplies.MalformedAnswered` | relay/hub.go:381-401 | the sender of a malformed frame is told so, if it keeps up |
| `HubReplies.CloseTellsAll` | relay/hub.go:199-224 | a close ends the session: everybody who keeps up has the reason as its last frame, and every connection is kicked |
| `HubRefine.DropAndResumeInvisible` | relay/hub.go:264-289 | holding and resuming a slot change no membership, no id or token, and no other participant's slot |
| `HubRefine.ExpiryIsOneDeparture` | relay/hub.go:293-322 | grace expiry is one departure of the slot's id, followed by the evictions it causes, nobody twice |
| `Slots.SysRunKeeps` | relay/relay.go:166-201 | ownership of slots, channels, kicks and timers holds in every run of hub, connections and timers |
| `Slots.SlotsAreOwned` | relay/hub.go:264-299 | in every run a slot's generation has exactly one owner: live, the unkicked connection that still owes its leave; held, one timer, pending or fired |
| `Slots.QueuesHaveOneReader` | relay/hub.go:346-371 | no queue is handed to two connections and nobody reads the queue of a held slot |
| `Slots.StaleCommandsIgnored` | relay/hub.go:264-299 | a leave or timer of another generation changes nothing |
| `SlotClaims.OwnersEarned` | relay/hub.go:327-371 | in every run the connection a slot stores was given it by a join, or by a resume that carried the token of that join |
| `SlotClaims.LosersAreKicked` | relay/hub.go:199-211 | in every run a connection that is seated and has not left holds the slot and generation it was given, or has been kicked; once the session is over, every one has been kicked |
| `SlotClaims.OverflowedAreKicked` | relay/hub.go:435-451 | at every moment inside a command, a live connection that overflowed has been kicked before its slot is torn down |
| `Hello.HelloTakesOnlyTheReply` | session/handshake.go:172-189 | on the stream of any live slot the client's hello consumes its reply and no other frame |
| `Hello.HelloSkipsTraffic` | session/handshake.go:172-189 | notices and forwarded frames in front of the first other frame are skipped, and that frame is the reply, a refusal with its code, or unexpected |
| `Hello.HelloLost` | session/handshake.go:172-189 | with nothing but traffic, the hello ends with the connection |
| `Hello.ResumeReplaysOutage` | relay/hub.go:346-371 | a resumed hold delivers the JoinResult and then the first min(n, 63) outage frames in order |
| `Delivery.CommandDelivers` | relay/hub.go:376-451 | a command that neither holds nor resumes sends every participant, the newcomer included, exactly what a plain machine of streams sends |
| `Delivery.RunDelivers` | relay/hub.go:150-194 | so does every run without holds and resumes, writers and pongs interleaving |
| `Delivery.SessionDelivers` | relay/hub.go:376-404 | every step of a session sends what the same machine sends |
| `Delivery.HubServesSession` | relay/hub.go:214-404 | a hub run without holds and a session's run with the same joins, departures, claims and frames have the same members, the same host, and the same stream for each member |
| `Delivery.JoinerAsksNamedHost` | session/handshake.go:60-94 | a newcomer of both runs sends its first flight to the host that the hub's JoinResult names, the last to have claimed it |
| `Relay.Hub.constructor` | relay/hub.go:130-148 | a new hub is in the initial state |
| `Relay.Hub.Queue` | relay/hub.go:435-451 | queueing appends the frame, or marks the client, lists it and kicks its live connection |
| `Relay.Hub.SendTo` | relay/hub.go:406-416 | the frame is offered to that client alone, if it exists |
| `Relay.Hub.BroadcastFrame` | relay/hub.go:418-429 | the frame is offered exactly once to everybody but the exception, in any order, and the evict list grows by exactly those who overflow |
| `Relay.Hub.RemoveParticipant` | relay/hub.go:307-322 | the slot goes and is kicked, then the others are told, or the session ends with the last |
| `Relay.Hub.DrainEvictions` | relay/hub.go:185-194 | the loop terminates after a complete drain, and says whether the session ended |
| `Relay.Hub.PeerSet` | relay/hub.go:453-461 | the peers are all clients but the given one |
| `Relay.Hub.HandleJoin` | relay/hub.go:226-259 | a join is refused when full; else the next id, a stream that starts with the reply, and one notice to everybody else |
| `Relay.Hub.HoldSlot` | relay/hub.go:281-289 | the slot is held under a new generation with an empty queue |
| `Relay.Hub.HandleLeave` | relay/hub.go:264-276 | a leave of the current generation holds or removes the slot; any other is ignored |
| `Relay.Hub.HandleGraceExpired` | relay/hub.go:293-299 | an expiry of the current generation of a held slot removes it; any other is ignored |
| `Relay.Hub.DrainChan` | relay/hub.go:465-475 | everything not yet received, in order |
| `Relay.Hub.HandleResume` | relay/hub.go:327-372 | a matching token reclaims the slot: new generation, reply first, then the outage frames that fit; a live connection is kicked |
| `Relay.Hub.Route` | relay/hub.go:376-404 | a frame goes to one peer or to all others; an unknown peer or a bad body is answered with an error |
| `Relay.Hub.Shutdown` | relay/hub.go:199-211 | the session is over and every connection left has been kicked |
| `Relay.Hub.Handle` | relay/hub.go:150-180 | one command and its drain take one step of the specification |
| `Ends.InstallKeepsRing` | session/client.go:540-545 | the ring of superseded keys is always the newest eight before the current one, newest first |
| `Ends.OpensExactly` | session/client.go:520-536 | a frame opens if and only if its key is among the last nine installed |
| `SessionRuns.StepKeeps` | session/client.go:441-624 | every step of relay, read loops, routing goroutines and callers, a step being one locked section, keeps the session's invariant for every pair of members |
| `SessionRuns.RunKeeps` | session/handshake.go:194-321 | the invariant holds in every state a session can reach |
| `SessionResults.HostAndMemberAgree` | session/client.go:555-624 | in every run, whoever is in the host's pairwise map follows that host; after all on its way is taken in it shares the pairwise key if and only if its first flight was not sent between check and commit of an earlier reply; then it has the host's current group key, and otherwise it takes in nothing |
| `SessionResults.CrossedExactly` | session/handshake.go:300-321 | the recorded crossings are exactly the steps at which a first flight is sent between those two locked sections |
| `SessionResults.SettledAgree` | session/client.go:555-624 | with nothing under way, an answered member has the host's pairwise key now if and only if its flight did not cross, and then its group key |
| `SessionResults.AnsweredMembersShareKey` | session/client.go:555-624 | two ends answered by one host, whose flights did not cross and with nothing on its way to them, are on keys that the other opens; `SessionFrames.SettledFramesOpen` says it of frames |
| `SessionResults.MemberAbsorbsItsHost` | session/handshake.go:385-419 | what a member's next read comes to is the payload of the host it has at the check, and of nobody else |
| `SessionResults.CommitGoesAhead` | session/handshake.go:312-320 | deriving and committing lead to what the end had come to, whatever the routing goroutine did since the check |
| `SessionResults.HostFramesOpen` | session/client.go:578-594 | a host frame at the head of a member's stream, sealed under a key used since the grant, has a key the member has installed, unless its flight crossed, and opens if and only if that is among its last nine |
| `SessionResults.ReaderHasItsKeys` | session/client.go:578-594 | an end about to read has installed every key it ever minted |
| `SessionSources.RunSourced` | session/client.go:564-576 | in every run, every key in a wrap, in a stream or installed by a member was installed or minted by the end that wrapped it |
| `SessionSources.HostOpensMemberFrames` | session/client.go:578-594 | a member frame at the head of a host's stream, sealed under a key the member got from that host, has a key the host has installed, also when the member used it before the host's own switch, and opens if and only if that is among the last nine |
| `SessionSources.RotationExactly` | session/client.go:421-434 | after a rotation for a migration, once a key message half taken in is committed, the host is on a key of its own if and only if there was none |
| `SessionSources.SuccessorLocksOut` | session/client.go:413-434 | a departed host never opens a frame under the key its successor is on, from a rotation on that no half taken key message overran; `SessionFrames.SuccessorSealsAlone` says it of frames |
| `SessionSources.SuccessorOpenExactly` | session/client.go:413-434 | the departed host opens the key its successor is on after the rotation if and only if a key message was half taken in and its key is among the last nine the departed host installed; if it wrapped the key itself and has had nine keys at most, unless it never switched to the key |
| `SessionFrames.SealAdds` | session/client.go:494-514 | in every run a frame is sealed under the key its end installed last, and waits to be written |
| `SessionFrames.FrameWasSealed` | session/client.go:476-514 | in every run a sealed frame that an end comes to read was sealed by the end it is stamped with and no other, under the key that end had installed last then, and sent by it to the reader or to everybody |
| `SessionFrames.FramesConserved` | session/client.go:476-514 | in every run what an end has sealed is what it has sent and what still waits, each frame once |
| `SessionFrames.DepartedOpensExactly` | session/client.go:555-595 | once a host has read a departure, and has switched keys if it had anybody to re-wrap to, the departed end ever opens a frame it seals if and only if it had nobody, and the key is among the last nine the departed end installed |
| `SessionFrames.SuccessorSealsAlone` | session/client.go:413-434 | what a successor seals after a rotation that no half taken key message overran, the departed host opens in no later state |
| `SessionFrames.SuccessorFramesExactly` | session/client.go:413-434 | the departed host opens the next frame its successor seals after the rotation if and only if a key message was half taken in and its key is among the last nine the departed host installed |
| `SessionFrames.SettledFramesOpen` | session/client.go:494-536 | of two settled members one host has answered, or such a member and its host, either opens what the other seals |
| `SessionHistory.OutForever` | relay/hub.go:307-322 | from its departure on, an end holds and will find in its stream only keys minted before that or by itself |
| `SessionHistory.DepartedLockedOut` | session/client.go:548-595 | a departed end never opens a frame under a key that somebody else mints later |
| `SessionHistory.LockedOutExactly` | session/client.go:555-595 | when the host reads a departure, the key it goes on with is closed to the departed end if and only if somebody is left to re-wrap to |
| `SessionHistory.AnsweredExactly` | session/handshake.go:260-296 | while both are members, a host keeps a pairwise key for an end whose first flight it has read if and only if it was host at that moment and has not rotated for a migration since |
| `SessionHistory.MigrationConverges` | session/client.go:413-460 | a first flight that reaches the promoted host after its rotation leaves the survivor with that host's pairwise key if and only if it did not cross an earlier reply, and then on its current key, whoever leaves meanwhile |
| `SessionHistory.RoleStays` | session/client.go:617-623 | once keyed, an end keeps its role over every run unless it is promoted |
| `SessionHistory.HostsWerePromoted` | session/handshake.go:223-229 | nobody but the creator and promoted ends ever has the host role, and every keyed end has a role |
| `SessionRoles.KeyedAsAdmitted` | session/handshake.go:194-253 | in every run an end that becomes keyed was admitted earlier by the host it has, and from then until it is promoted its role is what that host's policy said then: any value but the two reserved ones as it is, and those as "member" |
| `SessionRoles.HostRemembers` | session/handshake.go:221-231 | in every run the host keeps that same role on record until it reads that the joiner has left |
| `SessionRoles.HostForgets` | session/handshake.go:355-363 | after reading a departure a host has neither a role nor a pairwise key for that end, until it reads a first flight of that end |
| `SessionRoles.AdmitsOnce` | session/handshake.go:194-253 | no host admits the same joiner twice |
| `SessionRoles.DefaultSeats` | session/client.go:139-146 | under the default policy a joiner is seated as an observer if and only if its join asked for that |
| `SessionExamples.LoneDepartureKeepsKey` | session/client.go:555-560 | a run in which the only member departs and still opens what the host seals next |
| `SessionExamples.EarlyFlight` | session/handshake.go:260-266 | a run in which a survivor's first flight is read by its successor before that has promoted itself |
| `SessionExamples.CrossedStaysBehind` | session/handshake.go:300-321 | a run in which a survivor's flight crosses a late reply: its host has answered it, it has read everything, and it cannot open what the host seals |
| `SessionExamples.RotationUndone` | session/client.go:601-624 | a run in which a late re-wrap is committed over the successor's rotated key, and the departed host opens what the successor seals |
| `SessionClient.HandshakeIsReceive` | session/handshake.go:100-127 | a step of the joiner's handshake is what the session's runs do to an end that is not keyed |
| `SessionClient.HandshakeExactly` | session/handshake.go:100-166 | over any frames, a joiner is keyed if and only if the first grant of its host's, with no end of the session before it, is wrapped for the joiner under the pairwise key of the host's last reply before it, and then with the key and role in that grant |
| `SessionClient.Client.Host` | session/handshake.go:16-40 | the creator is its own host and keyed with the first group key |
| `SessionClient.Client.Join` | session/handshake.go:42-94 | a joiner knows its id and host and has sent its first flight |
| `SessionClient.Client.PushPrevKey` | session/client.go:540-545 | the superseded key comes first and the ring is cut at eight |
| `SessionClient.Client.Seal` | session/client.go:494-514 | seals under the key installed last and for itself as the sender; refused before there is a key |
| `SessionClient.Client.OpenFrame` | session/client.go:520-536 | the loop succeeds if and only if the key is among the last nine installed and the frame was sealed by the end it is stamped with |
| `SessionClient.Client.RekeyAfterLeave` | session/client.go:555-595 | a host with pairwise keys writes one re-wrap to each of them, in any order, and installs the new key after; otherwise nothing changes |
| `SessionClient.Client.HandleLeft` | session/handshake.go:355-363 | the departed id is forgotten and the key rotated, with the writes and the switch of the session's runs |
| `SessionClient.Client.HandleRekey` | session/client.go:601-624 | its two sections with nothing in between: the key is installed, and the role kept, as the session's runs do |
| `SessionClient.Client.HandleHandshakeDirect` | session/handshake.go:194-253 | the host's answer to a joiner, with reserved roles replaced |
| `SessionClient.Client.HandleRekeyPake1` | session/handshake.go:260-296 | the promoted host's answer to a survivor, dropped by anybody else |
| `SessionClient.Client.HandleRekeyPake2` | session/handshake.go:300-321 | its two sections with nothing in between: the survivor's pairwise key with its new host |
| `SessionClient.Client.CheckRekeyPake2` | session/handshake.go:301-307 | the first section: the nonce of the flight a reply of the current host is waited for with |
| `SessionClient.Client.CommitRekeyPake2` | session/handshake.go:316-320 | the second section: the pairwise key is taken over, and whatever nonce is there is dropped |
| `SessionClient.Client.CheckRekey` | session/client.go:602-615 | the first section and the unwrapping: what there is to install from the current host |
| `SessionClient.Client.CommitRekey` | session/client.go:616-623 | the second section: the key is installed over whatever key is there, and the role kept |
| `SessionClient.Client.HandlePayloadFrom` | session/handshake.go:385-419 | every payload has the effect it has in the session's runs, and a sealed one is delivered if and only if its key is held and its sealer is the end it is stamped with |
| `SessionClient.Client.DispatchFrame` | session/handshake.go:349-381 | a whole frame, with the writes and the key switch it leads to, has the effect it has in the session's runs, and is delivered if and only if it is a sealed one that opens for its sender |
| `SessionClient.Client.BecomeHost` | session/client.go:392-397 | role and host id change and nothing else |
| `SessionClient.Client.SetHostId` | session/client.go:401-405 | the host id changes and nothing else |
| `SessionClient.Client.RotateForMigration` | session/client.go:421-434 | a host installs a fresh key and forgets its pairwise keys; anybody else changes nothing |
| `SessionClient.Client.RekeyWithNewHost` | session/client.go:441-460 | a keyed non-host sends a first flight to its host and remembers its nonce |
| `SessionClient.Client.JoinDriveHandshake` | session/handshake.go:100-166 | over any frames, the loop is keyed if and only if the handshake function is, with the same keys and role, and leaves the client unchanged otherwise |
| `SessionClient.AwaitReply` | session/handshake.go:172-189 | traffic is skipped up to the first other frame, which decides the outcome |
| `MuxSpec.ShutdownIsSafe` | service/mux.go:186-272 | in every run no channel is closed twice or sent to once closed, `pending` counts the emitters inside, the stream is closed if and only if shutdown has begun and nobody is inside, and events arrive in order |
| `MuxSpec.SentExactly` | service/mux.go:252-272 | in every run the stream has been sent exactly the events that the threads taking a send step came with, in that order, the consumer has had the first of them, one for each receive, and the mux is closed if and only if shutdown was called |
| `MuxSpec.EmitFate` | service/mux.go:252-272 | an emit that got in waits with its event until the one step that sends it, or gives it up after shutdown |
| `MuxSpec.SentBeforeShutdown` | service/mux.go:260-263 | an emit that is through before shutdown has sent its event exactly once |
| `MuxSpec.EmittersNeverStuck` | service/mux.go:260-263 | after shutdown an emitter inside can always take a step, whatever the buffer holds |
| `MuxSpec.OwedDecreases` | service/mux.go:252-272 | after shutdown every emitter step strictly decreases what the emitters owe, and nothing increases it |
| `MuxSpec.ClosesWhenDone` | service/mux.go:186-272 | from shutdown on, the stream is closed if and only if the emitters have taken exactly the steps they owed |
| `Mux.Mux.BeginEmit` | service/mux.go:252-258 | entering is counted, and refused once closed |
| `Mux.Mux.SelectSend` | service/mux.go:260-263 | before shutdown the event is appended to the stream unless the buffer is full, when the call blocks; after shutdown it is appended or given up, as the select chooses, and given up on a full buffer |
| `Mux.Mux.FinishEmit` | service/mux.go:265-271 | leaving is counted, and the last one out closes the stream |
| `Mux.Mux.Shutdown` | service/mux.go:186-197 | idempotent; closes the stream at once if and only if nobody is inside |
| `Election.OrderIrrelevant` | service/mux.go:124-138 | without id 0, every iteration order gives the least member-tier id, else the least id, else 0 |
| `Election.DeterministicExactly` | service/mux.go:124-138 | the result is independent of the order if and only if id 0 is absent, alone, or passed over for a member-tier candidate |
| `Election.DefaultSuccessorPolicy` | service/mux.go:124-138 | the loop computes the policy for the order it visits, hence the documented pick |
| `Election.Survivor.ElectSuccessor` | service/ctl.go:308-320 | the pick among the roster without the leaver for the order of its loop, or 0 |
| `Election.Survivor.MaybeMigrate` | service/mux.go:336-371 | only the host's departure migrates; the end then stands where its own election puts it: following the elected, or promoted if and only if it is the elected |
| `Election.ElectionIsUnique` | service/mux.go:336-371 | any survivors with equal rosters and the same leaver, each with its own iteration order: either nobody can succeed and nothing changes, or all set the documented pick as host; somebody promotes itself, and then exactly the pick, if and only if the pick is a survivor |
| `Election.StaleRosterElectsNobody` | service/ctl.go:308-320 | survivors 3 and 4 of a roster that still lists the departed creator 1 both set 1 when host 2 leaves, and neither promotes itself |
| `Rosters.RunInv` | service/ctl.go:243-333 | in every run, whatever is on its way from a host to an end closes with the host's roster, inboxes announce only departures that happened, and ends and rosters hold issued ids only |
| `Rosters.RosterFollowsHost` | service/ctl.go:175-194 | in every run, an end with no announcement of its host's on the way, and that could open the last, has its host's roster; otherwise the last on the way is that roster |
| `Rosters.HostLists` | service/ctl.go:243-249 | in every run a host lists whoever it has read to be keyed, with that role, until it reads that it left |
| `Rosters.HostPrunes` | service/ctl.go:251-259 | in every run a host never again lists whoever it has read to have left, the old host of a promoted one included |
| `Rosters.HostListsItself` | service/ctl.go:327-333 | in every run a host lists itself as the host |
| `Rosters.TakesOverExactly` | service/mux.go:336-371 | when everybody left has one roster and is about to read that its host left, all come to set the documented pick, and somebody takes over, exactly the pick, if and only if the pick has not left |
| `Rosters.EachReaderElects` | service/mux.go:304-322 | the same for every interleaving: whenever one of them comes to read, it sets that host, and is promoted if and only if it is the pick |
| `Rosters.OrphanedExactly` | service/mux.go:336-343 | reading of its host's departure leaves an end without a host if and only if its roster has nobody to pick, or picks an end that has left and whose departure it is not yet to read of |
| `Rosters.OrphanForever` | service/mux.go:336-343 | an end that has read of its host's departure and still has that host never gets another, in any continuation |
| `Rosters.NoHostForever` | service/mux.go:336-371 | if every end left is in that state, nobody is promoted and nobody joins for the rest of the run |
| `RosterExamples.StaleRosterStrands` | service/ctl.go:251-254 | a run of two migrations after which the survivors, with everything read and the second host's key fetched, wait for the departed creator in every continuation |
| `LimiterSpec.BoundedRefinesUnbounded` | relay/ratelimit.go:31-67 | while only stale entries are dropped, every decision of every run is that of a limiter that never forgets |
| `LimiterSpec.ForgettingExactly` | relay/ratelimit.go:69-91 | dropping an entry changes the answer to no sequence of later requests if and only if its bucket is full |
| `LimiterSpec.ForgettingShows` | relay/ratelimit.go:69-91 | if it is not full, one request more than it has whole tokens is refused with the entry and granted without |
| `LimiterSpec.GrantsWhole` | relay/ratelimit.go:49-67 | of requests from one address at one moment, exactly as many are granted as it has whole tokens |
| `LimiterSpec.StaleIsFull` | relay/ratelimit.go:31-35 | an entry idle for the time limit has a full bucket |
| `LimiterSpec.StaleExactly` | relay/ratelimit.go:31-35 | for a bucket that takes exactly the time limit to fill, an entry is stale if and only if its bucket is full whatever was left in it |
| `LimiterSpec.FallbackForgives` | relay/ratelimit.go:88-90 | a run at the relay's own rate in which an address that has used up its burst is let in again after 16384 others arrived, where a limiter that never forgets refuses it |
| `LimiterSpec.ServingKeepsOthers` | relay/ratelimit.go:49-91 | a request leaves every other entry as it is unless a newcomer meets a full table, and then nobody loses an entry that is not stale while a stale one is there |
| `LimiterSpec.NeverOverCap` | relay/ratelimit.go:49-91 | over every run of non-empty addresses the table never exceeds its cap |
| `LimiterSpec.RoomExactly` | relay/ratelimit.go:74-91 | a scan makes room in every order if and only if something is stale or the empty address is not strictly the least recently seen |
| `Limiter.IpLimiter.EvictLocked` | relay/ratelimit.go:74-91 | the loop drops exactly the stale entries, or with none the one its scan ends on |
| `Limiter.IpLimiter.Allow` | relay/ratelimit.go:49-67 | room is made when the table is full, then one token is taken from the address's bucket if there is one |
| `ChatSpec.HistoryIsWindow` | service/chat/chat.go:129-142 | whatever is offered, the history is the last 200 of the log of accepted messages, with distinct ids |
| `ChatSpec.AcceptedApart` | service/chat/chat.go:129-142 | two acceptances of one id have at least 200 others between them |
| `ChatSpec.AcceptedAgainExactly` | service/chat/chat.go:129-142 | an id offered again is accepted if and only if 200 others have been accepted since |
| `ChatSpec.RestoreRoundTrip` | service/chat/chat.go:105-125 | a snapshot restored into a fresh service reproduces the history, and restored again accepts nothing |
| `Chat.Service.Record` | service/chat/chat.go:129-142 | the message is new if and only if its id is not in the history, and is then appended to the window |
| `Chat.Service.HandleFrame` | service/chat/chat.go:90-103 | an oversized message is refused; a new one is recorded and emitted once |
| `Chat.Service.Restore` | service/chat/chat.go:114-125 | the history and the emitted messages are those of offering the snapshot in order |
| `Labels.InfoExactly` | crypto/crypto.go:99-111 | two labels are equal if and only if protocol and unordered id pair are, decimal rendering included |
| `Labels.SameLabelSameKey` | crypto/crypto.go:99-111 | two symbolic pairwise keys of the session model are equal if and only if their nonces and their labels are |
| `Labels.AssociatedDataInjective` | crypto/crypto.go:159-205 | the 21 bytes of associated data determine session and participant |
| `Labels.WrapOpensExactly` | crypto/crypto.go:126-157 | the symbolic wrap opens if and only if pairwise key and associated data are those it was made with, and then gives the key and role in it |

## Left out

- WebSocket dialing, HTTP upgrade, routing between nodes, pings and read deadlines: a connection ends, expectedly or not, and nothing more is said about when.
- PAKE, HKDF output, the AEAD and randomness: symbolic, with fresh keys that never collide; only the label and associated data are modelled as bytes.
- The CBOR codec and frame headers: frames are values, and every control frame is taken to encode; wrap and marshal errors do not occur.
- Frames lost with a broken connection are not part of the session's runs, whose streams lose nothing; drops, holds and resumes are in the hub's runs. `HeldKeys` starts from what a member has read when it drops; frames still queued for it then are lost, and nothing is said about their keys.
- Hub runs stop before the 32-bit id counter wraps; ids in the session's runs are unbounded.
- `Session.Start` assumes that the creator's join was handled first and got id 1; the hub's runs do not.
- In the session's runs an end asks a host again only once it has read that host's departure; a host that is still a member is asked once.
- Frames from one non-host member to another during a rotation: they may overtake the receiver's re-wrap, so nothing is claimed beyond `Ends.OpensExactly`.
- The methods of `SessionClient.Client` are single calls; that goroutines interleave between locked sections and between a host's writes and its key switch is in the steps of `Session`.
- The joiner's handshake runs before the read loop and the routing goroutine start, and is one step per frame.
- A crossed survivor that happens to be on its new host's key already: agreement says it takes in nothing more, not that its key differs.
- `Delivery` covers hub runs without holds and resumes; what those change is in `HubViews` and `HubRefine`.
- Names, endpoints and push keys of a roster. In `Rosters` joining and being keyed is one step, keys are numbers that stay usable, what a departing end has not had routed is lost, and nobody reconnects.
- Mux.Mux.SelectSend: the goroutine that blocks and is woken is not modelled; the call says it would block.
- Mux dispatch, snapshot requests and desync detection; chat's `Say` with its trimming and random ids.
- Limiter.IpLimiter.Allow: takes the address itself, without splitting off a port, and real numbers for times and tokens.
- The token bucket's own package is not part of the repository; its rule is written out in `LimiterSpec`.
- Sequence numbers and service ids of sealed envelopes.
- Stats, metrics, the dashboard, phrases and the registry of sessions.
