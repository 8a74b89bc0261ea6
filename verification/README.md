# Our Companion Network: verified model

This Dafny project models the row-level protocols of the social backend and proves what no single
check of the program establishes. A table is a map; a transaction, or a conditional update outside
one, is one atomic step; a run is any sequence of steps with any arguments. For the services that
update rows step by step there are classes whose methods do the same statement by statement, each
proved equal to the transaction's specification.

| files | component |
|---|---|
| `Common`, `Catalog` | identifiers, sums, error codes; the accounts, friendships, companions and packs that Visits read |
| `Rooms`, `RoomInvariant`, `TurnTaking` | one Visit session with members, topics, turns, share and moment; what each transaction keeps; turn order |
| `RoomAnswers`, `VisitAnswers`, `FriendAnswers`, `PackAnswers`, `PackEffects`, `PresenceAnswers`, `ManifestAnswers` | when each transaction or event is allowed, what it changes and what a refusal means, in terms of the rows alone, without the definitions the transactions are made of |
| `Settlement` | relationships as the sum of settled visits |
| `Visit`, `VisitInvariant`, `VisitRuns`, `VisitHistory`, `VisitSafety`, `VisitSweeps` | all Visit tables and transactions; the global invariant over every run; what follows from it |
| `JoinRequests`, `VisitWitnesses` | the unique index of join requests and how it stops the cleanup; runs that reach the states in which promises fail |
| `VisitServices`, `RoomServices`, `SocialServices` | the three services as classes over a mutable database |
| `Presence`, `PresenceConverse`, `PresenceFailures`, `PresenceShown`, `PresenceGateway` | the presence gateway cut at its awaits, any number of tasks interleaved, writes landing in any order or failing; when a connected user can look offline, and a disconnected one online; when a user is shown online or idle; the gateway's maps and methods |
| `Packs`, `PackWorld`, `PackLifecycle`, `PackRemovals`, `PackStore`, `PackUrls`, `PackStaging`, `AssetServices` | Asset Pack rows, object store, upload URLs, staging objects, completions, cleanups, account finalization |
| `PackCompletion`, `PortalRetirement`, `TwoCleaners` | runs that complete a pack; when the portal removes a row too early; what two cleanups of one pack can do |
| `VisitPacks`, `AccountDeletion` | Visits and packs together; account deletion against the Visit invariant |
| `Friends` | friendships, requests and blocks as rows, refining one state machine per pair |
| `Sorting`, `Json`, `JsonStringify`, `JsonReader`, `Manifest`, `ManifestWitness` | stable sorting, canonical and plain JSON text and a reader of the grammar, manifest validation; a manifest whose canonical form is refused |
| `Export`, `Storage` | streamed export; paged listing, batched deletion, chunked hashing |

Parameters stand for what the components do not decide: clocks (integers that only go forward where it
matters), new ids, configuration, whether a session is still valid, which ETag a store assigns,
SHA-256, `localeCompare` as a total order, `toLowerCase`. `Visit.Apply` takes an arbitrary catalog at
each step, so other services may change accounts, friendships, companions and packs at will between
two Visit transactions.

Where the code and its own wording differ, the code is followed: `acceptJoinRequest` writes an expiry
and then throws, so nothing is written; `markReady` also revives a visitor who had left; the cap of two
visitors per host cannot bind.

Properties the code does not have, each with a run or an input that shows it and the condition under
which it holds:

- The cleanup (`visit.service.ts`) ends what timed out only while no expired join request is stuck behind
  an earlier expired one of the same user and session, because the unique index on (session, requester,
  status) then refuses the update and the exception leaves the pass: `JoinRequests`, `VisitServices`. A
  request lives two hours, so this takes a session that stays live longer; the configuration allows four
  hours, and thirty minutes is the default.
- Account deletion (`portal.service.ts`) breaks a live session in which the user is a guest, and fails
  for a user who cancelled a join request and asked again: `AccountDeletion`.
- A connected user can be shown offline when a connection is promoted while an offline write is in
  flight (`presence.gateway.ts`): `PresenceConverse`.
- A user without sockets can be left shown online or idle when a presence write, or a read after it,
  fails while nothing else is bound to publish offline (`presence.gateway.ts`): `PresenceFailures`.
- A slow cleanup of an Asset Pack can delete the objects of a new pack under the same prefix, when a pass
  takes the deleting pack up meanwhile and removes its row (`companion.service.ts`): `TwoCleaners`, from any
  consistent world. With one cleanup at a time per pack it cannot: `PackStore`.
- The portal's retirement of Asset Packs does not look at upload URLs. For packs that were completed the
  staging objects it leaves alone make up for that; the row of a pack of a leaving account with nothing
  staged can go while its URLs are alive (`portal.service.ts`): `PackUrls`, `PortalRetirement`.
- A validated manifest need not validate again, because sprite sheets are checked before their files are
  sorted: `Manifest`, `ManifestWitness`.

## Model

| member | source | states |
|---|---|---|
| `VisitRuns.RunKeeps` | src/visit/visit.service.ts:43-395 | After any sequence of Visit transactions, by anybody and with accounts, friendships, companions and packs changing freely in between, the whole invariant holds: reservations point to what they reserve, pending invitations and seats are reserved, live sessions are a matching, every room is consistent, every shared moment is settled exactly once |
| `VisitRuns.ReachableVisit` | src/visit/visit.service.ts:43-395 | After any sequence of transactions from empty tables the whole Visit invariant holds |
| `VisitRuns.ApplyKeeps` | src/visit/visit-room.service.ts:143-351 | No single transaction, accepted or refused, breaks the invariant |
| `VisitSafety.LiveSessionsMatch` | src/visit/visit.service.ts:82-181 | In every state reachable from empty tables each user owns or hosts at most one live session, sits in at most one as host or guest, and every live session's host holds the seat reservation for exactly that session |
| `VisitSafety.CapacityNeverBinds` | src/visit/visit.service.ts:558-580 | The limit of two concurrent visitors per host, and the refusal of a visitor who hosts guests, can never be the reason an acceptance fails |
| `VisitInvariant.FreeHost` | src/visit/visit.service.ts:545-548 | A user without a reservation hosts no live session, which is why the reservation check is stronger than the capacity check |
| `VisitInvariant.HostHolds` | src/visit/visit.service.ts:144-150 | The host of a live session holds its seat reservation |
| `VisitSafety.InvitationTestsNeverFire` | src/visit/visit.service.ts:50-61 | The checks for a second pending invitation on the route, and for hosted guests, are unreachable behind the reservation check |
| `VisitSafety.JoinRequestTestsNeverFire` | src/visit/visit-room.service.ts:157-174 | The check for a second pending join request is unreachable, and the unique index on pending requests can only refuse a repeated row id |
| `VisitSafety.OneOutgoingInvitation` | src/visit/visit.service.ts:68-74 | Pending invitations and outgoing reservations are in bijection, so a user has at most one invitation out |
| `VisitSafety.AcceptedOnce` | src/visit/visit-room.service.ts:202-236 | A second accepted request of the same user for a session can only exist if the user already has a participant row there |
| `VisitSafety.PinnedExactlyWhileOpen` | src/visit/visit.service.ts:397-407 | Invitations, sessions and join requests refer to a pack exactly while they are pending or live |
| `VisitSafety.ReservationsAreReal` | src/visit/visit-room.service.ts:143-351 | After any run, what a user holds is a pending invitation or request of its own or a place in a live session, and the reserved companion is the one that visits |
| `VisitSafety.SessionsAreSound` | src/visit/visit.service.ts:202-251 | After any run a session is ended exactly when it is over and had started; ready and active sessions carry both ready stamps; a live one has its host, one that is over nobody; and capacity is never exceeded |
| `VisitSafety.DialoguesAreSound` | src/visit-social/visit-social.service.ts:211-369 | After any run topics and turns are numbered without gaps, topics are in order with one current topic while a live session has a share, turns come in blocks within each topic's budget, and an active session has room for another turn |
| `VisitInvariant.CreateInvitationKeeps` | src/visit/visit.service.ts:43-80 | Creating an invitation keeps reservations, rooms and matching consistent and touches no room |
| `VisitInvariant.AcceptInvitationKeeps` | src/visit/visit.service.ts:82-181 | Accepting an invitation, including the committed expiry and the decline of the host's other invitations, keeps reservations, rooms and matching consistent |
| `VisitInvariant.NotAcceptedTables` | src/visit/visit.service.ts:97-101 | A refused acceptance changes nothing, except that an expired invitation is settled and its reservation released |
| `VisitInvariant.NewRoomOk` | src/visit/visit.service.ts:125-179 | The room an acceptance creates is consistent and has exactly its two principals present |
| `VisitInvariant.RespondToInvitationKeeps` | src/visit/visit.service.ts:381-395 | Declining or cancelling keeps the invariant and touches no room |
| `VisitInvariant.OneHolder` | src/visit/visit.service.ts:391 | Deleting the reservation by user and invitation deletes all reservations of that invitation |
| `VisitInvariant.ExpireInvitationKeeps` | src/visit/visit.service.ts:341-348 | Expiring an invitation keeps the invariant |
| `VisitInvariant.CreateJoinRequestKeeps` | src/visit/visit-room.service.ts:143-194 | A join request reserves its user for a session the user is not in, and keeps the invariant |
| `VisitInvariant.AcceptJoinRequestKeeps` | src/visit/visit-room.service.ts:202-266 | Admitting a guest turns its request reservation into a seat and keeps the invariant |
| `VisitInvariant.NotAdmitted` | src/visit/visit-room.service.ts:221-225 | A refused admission changes nothing at all, also when the request had expired: the expiry it writes is rolled back |
| `VisitInvariant.SettleRequestKeeps` | src/visit/visit-room.service.ts:331-351 | Declining, cancelling or expiring a join request keeps the invariant |
| `VisitInvariant.LeaveKeeps` | src/visit/visit-room.service.ts:297-313 | A member who leaves gives up exactly its own hold on the session, and the invariant stays |
| `VisitRuns.EndKeeps` | src/visit/visit.service.ts:243-251 | Ending a session, also a second time, keeps the invariant and freezes no shared moment |
| `VisitRuns.CloseSessionKeeps` | src/visit/visit.service.ts:285-307 | Closing one claimed session keeps the invariant |
| `VisitRuns.RevokeCompanionKeeps` | src/visit/visit.service.ts:309-334 | Revoking all visits of a companion at once keeps the invariant |
| `VisitSweeps.CompanionRevoked` | src/visit/visit.service.ts:309-334 | After it nothing pending or live is left of the companion |
| `VisitSweeps.BetweenEnded` | src/visit/visit.service.ts:285-295 | After ending the sessions between two users none of theirs is live, and everybody else's sessions and seats are untouched |
| `VisitSweeps.RevokeIsSweeps` | src/visit/visit.service.ts:309-334 | Claiming row by row has the same effect as one simultaneous update |
| `JoinRequests.IndexHolds` | prisma/schema.prisma:460 | After any run from empty tables there is at most one join request per session, user and status |
| `JoinRequests.RunOrderly` | src/visit/visit-room.service.ts:143-351 | Over any run join requests are only added, only pending ones are answered, and the unique index holds |
| `JoinRequests.RunLeavesStuck` | src/visit/visit.service.ts:355-360 | Over any run, a request that cannot expire because an earlier one did stays so until its host or its requester answers it |
| `JoinRequests.NoPassEndsASession` | src/visit/visit.service.ts:336-379 | From the moment such a request has expired until it is answered, none of the passes that follow, with any transactions between them and within the limit, ends any session of anybody, however long it timed out |
| `VisitWitnesses.SecondRequestIsStuck` | src/visit/visit.service.ts:350-377 | A run from empty tables reaches this: a request expires after two hours, its user asks again, the second one expires; the session is over its time for every configuration, and still live |
| `VisitSweeps.TimeoutStays` | src/visit/visit.service.ts:624-632 | Without a heartbeat, a session that timed out stays timed out |
| `VisitHistory.RunAdvances` | src/visit/visit.service.ts:202-251 | Over any run a session only moves forward (preparing, ready, active, terminal), stamps once set stay, turns are never changed or lost, topics never go back, and a terminal session keeps its row, members, topics and turns |
| `VisitHistory.MarkReadyAdvances` | src/visit/visit.service.ts:202-224 | Readiness never moves a session back or overwrites a stamp |
| `VisitHistory.SetShareAdvances` | src/visit-social/visit-social.service.ts:145-209 | Approving or replacing the share never moves a topic back |
| `VisitHistory.AppendTurnAdvances` | src/visit-social/visit-social.service.ts:211-369 | A turn only adds to what was said, moves topics forward and may end the room |
| `VisitHistory.FinalizeAdvances` | src/visit-social/visit-social.service.ts:279-294 | Finalizing adds at most the shared moment |
| `RoomInvariant.MarkReadyPreserves` | src/visit/visit.service.ts:202-224 | Readiness keeps the room consistent although it also revives a visitor who had left: capacity holds because guests exist only after preparing |
| `RoomInvariant.StartSessionPreserves` | src/visit/visit.service.ts:226-241 | Starting makes the host speak and keeps the room consistent |
| `RoomInvariant.EndSessionPreserves` | src/visit/visit.service.ts:397-407 | An ended room has nobody present, its stamps match its state, and ended holds exactly when it had started |
| `RoomInvariant.OverIsLeft` | src/visit/visit.service.ts:550-556 | Releasing a session that is over changes nothing |
| `RoomInvariant.CloseLivePreserves` | src/visit/visit.service.ts:285-307 | A claimed close leaves a consistent room that is not live |
| `RoomInvariant.ParticipantReadyPreserves` | src/visit/visit-room.service.ts:276-295 | A member who becomes ready to speak keeps the room consistent in every session state |
| `RoomInvariant.LeaveRoomPreserves` | src/visit/visit-room.service.ts:297-313 | A leaving member keeps the room consistent; the host never leaves a live room |
| `RoomInvariant.SeatPreserves` | src/visit/visit-room.service.ts:202-266 | A new guest, with a topic queued after the last, keeps capacity, distinct companions and the topic sequence |
| `RoomInvariant.SetSharePreserves` | src/visit-social/visit-social.service.ts:145-209 | The share and the first topic agree, and no other topic can be there while preparing |
| `RoomInvariant.AppendTurnPreserves` | src/visit-social/visit-social.service.ts:211-369 | A turn keeps turns numbered without gaps, in contiguous blocks by topic, within each topic's budget, below the room limit while active, with distinct client ids and ready senders; and keeps topics in completed, current, queued order with the share naming the current one |
| `RoomInvariant.AppendedTurn` | src/visit-social/visit-social.service.ts:240-262 | An accepted turn is the next in sequence, by the user whose turn it is, on the topic the share names |
| `RoomInvariant.ProgressCases` | src/visit-social/visit-social.service.ts:296-345 | Progress keeps the topic, or switches to the very next topic, or ends the room with its moment; no queued topic is skipped. When which happens is `RoomAnswers.TopicEndsExactly` |
| `RoomInvariant.RefusedKeepsRoom` | src/visit-social/visit-social.service.ts:233-237 | Only a newly accepted turn changes anything: a repeated client turn id or a refusal changes nothing |
| `RoomInvariant.FinalizeMomentPreserves` | src/visit-social/visit-social.service.ts:279-294 | Finalizing keeps the room consistent and the moment counts its turns |
| `VisitSafety.DeadRefusals` | src/visit-social/visit-social.service.ts:223-249 | In a consistent room the refusals for a missing active topic and for a turn beyond the last never occur, and the share's topic is the current one |
| `TurnTaking.TopicsInOrder` | src/visit-social/visit-social.service.ts:564-568 | Topics read completed, then at most one active, then queued in sequence order |
| `TurnTaking.OneCurrentTopic` | src/visit-social/visit-social.service.ts:296-330 | A live room has exactly one active topic if it has a share, the one its counter names, and none otherwise |
| `TurnTaking.OrderedSorts` | src/visit-social/visit-social.service.ts:516-534 | The participants are listed once each, in the order of role, joining time and id |
| `TurnTaking.NextActorDefined` | src/visit-social/visit-social.service.ts:557-562 | In an active room somebody who may speak is always due: the host is there and never leaves |
| `TurnTaking.NeverStuck` | src/visit-social/visit-social.service.ts:211-268 | An active room with a share, whose speakers are still eligible for each other, accepts a new turn from exactly one user |
| `TurnTaking.RoundRobin` | src/visit-social/visit-social.service.ts:557-562 | While the speakers stay the same, accepted turns go round them in order |
| `TurnTaking.Rotation` | src/visit-social/visit-social.service.ts:557-562 | Any conversation over unchanged speakers is such a rotation from some starting point |
| `TurnTaking.EachSpeaksOnce` | src/visit-social/visit-social.service.ts:557-562 | Among as many consecutive turns as there are speakers, each speaker has one |
| `VisitSafety.RunImmutable` | src/visit-social/visit-social.service.ts:371-440 | Over any run, with any retries, a settlement row is never changed or removed, and a session that has rows gets no more |
| `VisitSafety.RelationshipCounts` | src/visit-social/visit-social.service.ts:442-482 | A relationship exists exactly for pairs with a shared moment; its visits and interactions count those moments, its stage is the threshold function of the count, rapport and affinity the capped multiples, its turns the sum of the pair's settlements |
| `VisitRuns.MomentBooks` | src/visit-social/visit-social.service.ts:371-440 | A new shared moment books exactly one row per pair of ready companions, each with the turns of its two users, and together every turn once per other companion |
| `VisitRuns.EntriesAreReady` | src/visit-social/visit-social.service.ts:413-414 | The companions that are settled are the ready participants, each once |
| `Settlement.SettleAllKeeps` | src/visit-social/visit-social.service.ts:400-482 | The loops keep every relationship equal to what its settlements amount to |
| `Settlement.SettleAllBooks` | src/visit-social/visit-social.service.ts:417-439 | The loops visit each unordered pair exactly once and book nothing else |
| `Settlement.SettleAllCounts` | src/visit-social/visit-social.service.ts:422-424 | Each booked row holds the number of turns its two users sent |
| `Settlement.DoubleCounting` | src/visit-social/visit-social.service.ts:415-439 | With m ready participants who sent all T turns, the pair counts add up to (m-1)*T |
| `Settlement.OneMoreVisit` | src/visit-social/visit-social.service.ts:463-476 | Adding to the capped scores, visit by visit, gives the capped multiple, in exact arithmetic |
| `VisitServices.VisitService.CreateInvitation` | src/visit/visit.service.ts:43-80 | Statement by statement, an invitation and its reservation are created, or nothing is, exactly as specified; never between users who may not meet |
| `VisitServices.VisitService.AcceptInvitation` | src/visit/visit.service.ts:82-181 | Statement by statement, with the rollbacks of its late failures, acceptance has exactly the specified effect, and never between users who may not meet |
| `VisitServices.VisitService.RespondToInvitation` | src/visit/visit.service.ts:381-395 | Declining and cancelling have exactly the specified effect |
| `VisitServices.VisitService.MarkReady` | src/visit/visit.service.ts:202-224 | The three updates together are the specified transaction |
| `VisitServices.VisitService.StartSession` | src/visit/visit.service.ts:226-241 | The two updates together are the specified transaction |
| `VisitServices.VisitService.EndSession` | src/visit/visit.service.ts:243-251 | Ending and releasing together are the specified transaction, also for a session that is over |
| `VisitServices.VisitService.EndSessionsBetween` | src/visit/visit.service.ts:285-295 | The loop of claims closes exactly the live sessions between the two users |
| `VisitServices.VisitService.RevokeCompanionVisits` | src/visit/visit.service.ts:309-334 | The two loops settle exactly the pending invitations and close exactly the live sessions of the companion |
| `VisitServices.VisitService.CleanupExpiredAndTimedOut` | src/visit/visit.service.ts:336-379 | A call during another one does nothing; otherwise the cleanup is a run of expiry and timeout steps, keeps the invariant, and resets its flag. It gets to the sessions if no expired join request is stuck behind an expired one of the same user and session, and within the limit only then; it then leaves what exceeds the limit and nothing else. Otherwise no session ends, and a stuck request is left |
| `VisitServices.VisitService.ExpireInvitations` | src/visit/visit.service.ts:341-349 | The first loop is a run of expiry steps, and leaves exactly as many expired invitations as exceed the limit |
| `VisitServices.VisitService.ExpireRequests` | src/visit/visit.service.ts:350-367 | The second loop is a run of expiry steps; it comes to its end if no expired request is stuck, and within the limit only then, and then leaves exactly as many as exceed the limit |
| `VisitServices.VisitService.EndTimedOut` | src/visit/visit.service.ts:368-377 | The third loop closes exactly the sessions that timed out, among those found |
| `RoomServices.VisitRoomService.CreateJoinRequest` | src/visit/visit-room.service.ts:143-194 | The request and its reservation are created, or nothing is, exactly as specified |
| `RoomServices.VisitRoomService.AcceptJoinRequest` | src/visit/visit-room.service.ts:202-266 | Participant, request, reservation and topic are written as specified, and every late failure is rolled back |
| `RoomServices.VisitRoomService.RespondJoinRequest` | src/visit/visit-room.service.ts:331-351 | Declining and cancelling have exactly the specified effect |
| `RoomServices.VisitRoomService.MarkParticipantReady` | src/visit/visit-room.service.ts:276-295 | The update is the specified transaction |
| `RoomServices.VisitRoomService.LeaveRoom` | src/visit/visit-room.service.ts:297-313 | The update and the release are the specified transaction |
| `SocialServices.VisitSocialService.SetShare` | src/visit-social/visit-social.service.ts:145-209 | The topic upsert and the share upsert are the specified transaction |
| `SocialServices.VisitSocialService.CheckTurn` | src/visit-social/visit-social.service.ts:211-249 | The checks refuse, repeat or accept in the specified order, and say where the turn goes |
| `SocialServices.VisitSocialService.AppendTurn` | src/visit-social/visit-social.service.ts:211-268 | Storing the turn and progressing the room, with its end, release, moment and settlement, are the specified transaction |
| `SocialServices.VisitSocialService.ProgressRoom` | src/visit-social/visit-social.service.ts:296-345 | Progress statement by statement is the specified change of room, reservations and ledger |
| `SocialServices.VisitSocialService.ProgressLegacyRoom` | src/visit-social/visit-social.service.ts:347-352 | The branch for rooms without topics is the specified one |
| `SocialServices.VisitSocialService.EndRoom` | src/visit-social/visit-social.service.ts:354-369 | The three updates end the room and release its reservations |
| `SocialServices.VisitSocialService.EnsureMoment` | src/visit-social/visit-social.service.ts:371-398 | The relationships are settled exactly when the moment is new |
| `SocialServices.VisitSocialService.SettleRelationships` | src/visit-social/visit-social.service.ts:400-440 | The nested loops compute the specified settlement of all pairs |
| `SocialServices.VisitSocialService.FinalizeMoment` | src/visit-social/visit-social.service.ts:279-294 | Finalizing is the specified transaction |
| `PresenceRuns.QuietMeansOffline` | src/presence/presence.gateway.ts:58-165 | For every interleaving at every await, every landing order of presence writes, and every failure of a write or of the reads after it that is harmless: with no registered socket, no offline timer and no task at work, the last presence write that landed said offline, or there was none, and no idle timer is left. A failure is harmless if its task owes no repair, or if without it a socket or the offline timer is left, offline landed last, or another repair is at work |
| `PresenceRuns.StepPublication` | src/presence/presence.gateway.ts:312-400 | Every stretch of every handler keeps this: if the last landed write is not offline and no socket or offline timer is left, some task is bound to publish offline |
| `PresenceRuns.RegisteredAreCurrent` | src/presence/presence.gateway.ts:171-207 | Every registered socket arrived after its user's last revocation, is closed already if its device was revoked since, and registered sockets never coexist with an offline timer |
| `PresenceRuns.NoPromotionAfterRevocation` | src/presence/presence.gateway.ts:271-288 | A connection is never promoted once its user or device was revoked after it arrived, or once it is closed |
| `PresenceRuns.DepartedMeansEmpty` | src/presence/presence.gateway.ts:130-151 | A socket whose disconnection was handled is not registered; once all are handled, none is |
| `PresenceRuns.StepRevocation` | src/presence/presence.gateway.ts:251-300 | Every stretch keeps connections on their way in behind the generations of every revocation that came after them |
| `PresenceRuns.RunKeeps` | src/presence/presence.gateway.ts:58-165 | All of this is kept over every run |
| `PresenceConverse.PromotionShowsExactly` | src/presence/presence.gateway.ts:68-113 | Whenever a connection is promoted: no careful continuation (no stray offline write beside a socket, no failing write, no further promotion past an offline write) ends quiet, with a registered socket, and shown offline, if and only if no offline write was in flight at the promotion |
| `PresenceConverse.CarefulMeansShown` | src/presence/presence.gateway.ts:58-165 | Over every run whose promotions all meet that guard, from any world in which a registered user is shown, a user with a registered socket and nothing at work is never shown offline |
| `PresenceConverse.FromTheStart` | src/presence/presence.gateway.ts:58-165 | In particular in every state reached from the beginning by promotions that meet the guard |
| `PresenceConverse.OvertakenLooksOffline` | src/presence/presence.gateway.ts:68-128 | From any consistent world with any number of tasks: a promotion while an offline write is in flight can always be continued so that the connection is registered, nothing is at work, and offline is what landed last |
| `PresenceConverse.ConnectedCanLookOffline` | src/presence/presence.gateway.ts:130-158 | A run from the beginning, with no grace period, that ends so |
| `PresenceFailures.FailureStrandsExactly` | src/presence/presence.gateway.ts:95-113 | The exact condition at any failure in any consistent world: no continuation whose failures are harmless leaves the user without sockets, timers and tasks shown online or idle, if and only if the user is covered without the failing task |
| `PresenceFailures.HarmlessExactly` | src/presence/presence.gateway.ts:361-400 | After any run from the beginning with harmless failures, a failure is harmless if and only if no such continuation strands the user |
| `PresenceFailures.FailureStrands` | src/presence/presence.gateway.ts:95-113 | A run from the beginning with such a failure: it strikes between a landed online write and its check |
| `PresenceGateways.PresenceGateway.HandleConnection` | src/presence/presence.gateway.ts:58-67 | The pending connection records the current generations, and no other user is touched |
| `PresenceGateways.PresenceGateway.ConnectionValidated` | src/presence/presence.gateway.ts:68-94 | Promotion clears the offline timer and registers the socket in one stretch, or drops the connection |
| `PresenceGateways.PresenceGateway.OnlineLanded` | src/presence/presence.gateway.ts:95-113 | After the online write a connection that is no longer promotable is unregistered, closed and reconciled |
| `PresenceGateways.PresenceGateway.ConnectionRevalidated` | src/presence/presence.gateway.ts:114-128 | After the second check the connection is admitted or backed out |
| `PresenceGateways.PresenceGateway.ReconcileAfterAbort` | src/presence/presence.gateway.ts:312-320 | An abort publishes the aggregate if sockets are left, and clears timers and publishes offline otherwise |
| `PresenceGateways.PresenceGateway.RevalidateUserSockets` | src/presence/presence.gateway.ts:437-464 | Dead sockets are removed one by one; if none is left the timers are cleared and offline is published |
| `PresenceGateways.PresenceGateway.PublishAggregatePresence` | src/presence/presence.gateway.ts:361-375 | The aggregate is published only if it is still current, and computed from the activity times of the registered sockets |
| `PresenceGateways.PresenceGateway.ReconcilePublication` | src/presence/presence.gateway.ts:377-393 | A stale publication with no socket left is corrected |
| `PresenceGateways.PresenceGateway.HandleDisconnect` | src/presence/presence.gateway.ts:130-165 | A disconnection removes its socket, and the last one starts the grace period or publishes offline |
| `PresenceGateways.PresenceGateway.OfflineTimer` | src/presence/presence.gateway.ts:160-164 | The timer publishes offline only if no socket came back |
| `PresenceGateways.PresenceGateway.DisconnectUser` | src/presence/presence.gateway.ts:171-191 | Every pending and registered socket of the user is dropped and the generation advances |
| `PresenceGateways.PresenceGateway.DisconnectDevice` | src/presence/presence.gateway.ts:193-207 | Pending connections of the device are dropped and its generation advances |
| `PresenceGateways.PresenceGateway.CanPromotePending` | src/presence/presence.gateway.ts:271-288 | Promotion needs the same pending record, an open socket and unchanged generations |
| `PresenceGateways.PresenceGateway.RecordReconnect` | src/presence/presence.gateway.ts:403-423 | Pruning and bounding the log compute the specified window |
| `PresenceGateways.RecordedIsWindow` | src/presence/presence.gateway.ts:403-423 | The reconnect log of an advancing clock is ascending, within fifteen minutes and ten thousand events, ends with the newest, and misses none of the window below the bound |
| `PackLifecycle.RunKeepsLifecycle` | src/companion/companion.service.ts:182-462 | In every reachable state the active packs of a companion are exactly the one it points to, manifests are unique per companion, countable bytes stay within every user's quota, and packs of an account to be deleted are dead |
| `PackLifecycle.ReachablePacks` | src/companion/companion.service.ts:182-462 | From the beginning, for every pack and every user: active exactly if its companion points to it, and within the quota |
| `PackLifecycle.DeadForGood` | src/companion/companion.service.ts:382-462 | A failed, abandoning, abandoned or deleting pack never returns to use, through any run, although two statements update or delete it whatever its status |
| `PackLifecycle.EndedEvolves` | src/companion/companion.service.ts:458 | The unconditional update to abandoned, and the unconditional delete, only ever meet dead packs or none |
| `Packs.InitiateKeeps` | src/companion/companion.service.ts:182-238 | Initiating, resuming or reusing a pack keeps the quota, the unique manifest and the active pointer |
| `Packs.RecordUrlsKeeps` | src/companion/companion.service.ts:254-270 | Stamping issued URLs keeps the rows consistent |
| `Packs.ActivateKeeps` | src/companion/companion.service.ts:577-658 | Activation, of a verified or a superseded pack, leaves exactly one active pack and the pointer to it |
| `Packs.NoRepair` | src/companion/companion.service.ts:614-629 | The repair of an active pack its companion does not point to is never needed |
| `Packs.SetStatusKeeps` | src/companion/companion.service.ts:288-320 | Claims between inactive statuses keep the rows consistent |
| `Packs.RemovePackKeeps` | src/companion/companion.service.ts:571 | Removing a pack keeps the rows consistent |
| `Packs.RequestDeletionKeeps` | src/portal/portal.service.ts:1078-1090 | Deletion of an account takes all its packs out of use and keeps the rows consistent |
| `Packs.RemoveAccountKeeps` | src/portal/portal.service.ts:1343 | Removing an account with everything that cascades keeps the rows consistent |
| `PackStore.ShownPacksAreGenuine` | src/companion/companion.service.ts:288-367 | In every reachable state each file of an active or superseded pack is at its final key, with the size, digest and type its manifest promises |
| `PackStore.RunKeepsStore` | src/companion/companion.service.ts:288-367 | Uploaders overwriting staging objects, racing completions and one cleanup worker per pack keep every final object genuine and every shown pack complete |
| `PackCompletion.PackCompletes` | src/companion/companion.service.ts:288-367 | Any pack that its user is uploading, with upload URLs that are alive, can be completed at once whenever contents that fit its files exist, whatever else is at work |
| `PackCompletion.PackAppears` | src/companion/companion.service.ts:182-367 | A pack within the quota can be begun, get its URLs and be completed at once |
| `TwoCleaners.TakesUp` | src/companion/companion.service.ts:536-560 | The claim of a deleting pack looks at its status and URLs only: without the rule of one cleanup at a time it does the same beside another cleanup |
| `TwoCleaners.SecondCleanupLoses` | src/companion/companion.service.ts:529-575 | In any consistent world with safe retirements: if a pass takes up a deleting pack while another cleanup has yet to empty its prefix, and the owner may still work with packs, the manifest is within the quota and can be published, then some continuation without further cleanups ends with a new pack in use none of whose files is in the store |
| `TwoCleaners.SlowCleanerDeletes` | src/companion/companion.service.ts:382-408 | A run from the beginning gets there, for every manifest within the quota that can be published: the other cleanup is a slow deletion by the owner |
| `PackStore.CopyMoves` | src/storage/storage.service.ts:196-221 | The ETag-conditional copy publishes exactly what was verified, whoever overwrote the staging object in between |
| `PackStore.ResumedCompleter` | src/companion/companion.service.ts:312-340 | Each file a completion has passed is at its final key as long as the pack lives |
| `PackStore.SweeperStays` | src/companion/companion.service.ts:445-458 | A prefix being emptied belongs to nothing that lives, now or after any step |
| `PackStore.ComesIntoUse` | src/companion/companion.service.ts:341-357 | A pack comes into use only by the activation that ends its own completion |
| `PackUrls.RowsOutliveUrls` | src/companion/companion.service.ts:246-286 | For every retention: if URL transactions commit out of order by at most the skew, a pack's row goes only after every URL ever issued for it has expired, over every run in which the portal retires a deleting pack of a leaving account only if its URLs have expired or something is staged |
| `PackUrls.ReachableUrls` | src/companion/companion.service.ts:246-286 | In every state reached from the beginning with safe portal retirements, each URL whose pack has no row any more has expired |
| `PackUrls.IssueKeepsUrls` | src/companion/companion.service.ts:254-284 | Issuing URLs covers all earlier ones by the last stamp, up to the skew, and issues none for a pack being removed |
| `PackUrls.ExpiredCoversAll` | src/companion/companion.service.ts:740-777 | Looking at the last stamp alone, with the skew added, covers every URL of the pack |
| `PackUrls.UnstagedIsLapsed` | src/companion/companion.service.ts:463-501 | While a pack is in upload, or a URL of it is alive, no step of anybody deletes a staging object under its prefix |
| `PortalRetirement.CompletedIsStaged` | src/portal/portal.service.ts:958-964 | So a pack that was completed, or is being deleted while its account stays, has something staged as long as a URL is alive, and the portal, which deletes no staging objects, does not find the prefix empty |
| `PortalRetirement.RetirementExactly` | src/portal/portal.service.ts:912-981 | The exact condition whenever the portal takes a pack up while a URL of it is alive: no continuation with safe retirements loses a row under a live URL if and only if something is staged under the pack's prefix |
| `PortalRetirement.LeavingTooEarly` | src/portal/portal.service.ts:938-978 | A run from the beginning in which nothing is, for every manifest within the quota: URLs are issued, the account is deleted, and a retirement of the same user that is under way takes the deleting pack up and removes its row |
| `PackStaging.ReachableStaging` | src/companion/companion.service.ts:842-854 | In every state reached from the beginning with safe portal retirements, what is staged under a pack's prefix is its own |
| `PackUrls.AccountRemoval` | src/portal/portal.service.ts:1254-1366 | An account's row goes only when every URL of its packs has expired and every one of its packs was processed |
| `PackUrls.ReachableRemoval` | src/portal/portal.service.ts:1254-1366 | In every state reached from the beginning with safe portal retirements, an account goes only by its own finalization, after all its packs were processed and their URLs expired |
| `PackRemovals.AccountGoesLast` | src/portal/portal.service.ts:1308-1333 | The counts agree only if nothing was added, lost or skipped between the first count and the final transaction |
| `PackRemovals.StepKeepsFinalizers` | src/portal/portal.service.ts:1279-1306 | However pages and rows move meanwhile, the bookkeeping of a finalization stays exact |
| `AssetServices.CompanionService.InitiateAssetPack` | src/companion/companion.service.ts:182-238 | Lookup, resume, quota sum and creation together are the specified transaction |
| `AssetServices.CompanionService.UsedBytes` | src/companion/companion.service.ts:218-221 | The loop sums exactly the countable packs of the user |
| `AssetServices.CompanionService.FindPack` | src/companion/companion.service.ts:196-199 | The lookup finds a pack of that manifest if there is one |
| `AssetServices.CompanionService.RecordUploadUrls` | src/companion/companion.service.ts:254-270 | The transaction is the specified one |
| `AssetServices.CompanionService.ActivateVerifiedPack` | src/companion/companion.service.ts:577-658 | Superseding the others, claiming and pointing together are the specified transaction |
| `AssetServices.CompanionService.Supersede` | src/companion/companion.service.ts:641-644 | The loop supersedes exactly the other active packs of the companion |
| `AssetServices.CompanionService.ClaimForVerification` | src/companion/companion.service.ts:288-308 | The claim is the specified one |
| `AssetServices.CompanionService.DeleteAssetPack` | src/companion/companion.service.ts:382-408 | Claim, deletion and removal have the specified effect |
| `AssetServices.CompanionService.AbandonExpiredUploads` | src/companion/companion.service.ts:427-462 | An upload whose session is current, or whose URLs are alive, keeps its row; an older one is abandoned, or left abandoning if its prefix cannot be emptied; the pass counts what it abandoned |
| `VisitPacks.NoPackRemovedUnderVisit` | src/companion/companion.service.ts:529-575 | In every reachable state of Visits and packs together, what a pending invitation or a live session pins exists, is active or superseded, and belongs to the visiting owner, whatever cleanups and account deletions do |
| `VisitPacks.ReachableRefs` | src/companion/companion.service.ts:529-575 | After any actions from empty tables and no packs, every pending invitation and live session pins its snapshot, which exists, may be shown and belongs to the visiting owner |
| `VisitPacks.LeavesUse` | src/portal/portal.service.ts:912-981 | A pack leaves use only when a cleanup claims it without a visit, or its owner deletes the account |
| `VisitPacks.DeleteAccountRefs` | src/portal/portal.service.ts:983-1090 | Account deletion settles every invitation and ends every session that pins one of the packs it takes out of use |
| `VisitPacks.ApplyRefs` | src/visit/visit.service.ts:43-181 | Visit transactions only pin packs that may be shown, and unpin them when they end |
| `AccountDeletion.SoundExactly` | src/portal/portal.service.ts:983-1077 | Over any mixture of Visit transactions and account deletions, the whole Visit invariant and the unique index of join requests hold throughout if and only if every deletion is of a user who is a guest in no live session, or is refused |
| `AccountDeletion.SoundFromEmpty` | src/portal/portal.service.ts:983-1077 | So it is for every such mixture from empty tables |
| `AccountDeletion.DeletionKeepsExactly` | src/portal/portal.service.ts:998-1077 | Account deletion keeps the Visit tables consistent if and only if the user is a guest in no live session, or the deletion is refused |
| `AccountDeletion.RefusedExactly` | src/portal/portal.service.ts:1074-1077 | The deletion meets the unique index of join requests if and only if the user has a pending request for a session for which an earlier one was cancelled |
| `AccountDeletion.RefusalHappens` | src/portal/portal.service.ts:1074-1077 | A run from empty tables after which an account cannot be deleted: a request, its cancellation, and a second request |
| `AccountDeletion.GuestDeletionHappens` | src/portal/portal.service.ts:1056-1073 | A run from empty tables after which a guest sits in a live session and the deletion breaks the tables |
| `AccountDeletion.GuestDeletionBreaks` | src/portal/portal.service.ts:1056-1073 | A guest who deletes the account leaves a live session with nobody in it |
| `Friends.RunKeeps` | src/friend/friend.service.ts:113-670 | After any run friendship is symmetric, at most one request of a pair is pending in either direction, friends have none pending, and a block in either direction excludes friendship and pending requests |
| `Friends.ReachablePairs` | src/friend/friend.service.ts:113-670 | After any run from no rows, for any two users: friendship is mutual, at most one request is pending, none between friends or across a block, and no friendship across a block |
| `Friends.AcceptKeeps` | src/friend/friend.service.ts:288-305 | Accepting, which checks neither blocks nor friendship, never befriends a blocked pair and never meets the unique index |
| `Friends.SendKeeps` | src/friend/friend.service.ts:113-187 | Sending, which may accept the other's request instead, keeps the pair consistent |
| `Friends.FinalizeKeeps` | src/friend/friend.service.ts:307-368 | Answering a request keeps the pair consistent |
| `Friends.RemoveKeeps` | src/friend/friend.service.ts:568-595 | Unfriending keeps the pair consistent |
| `Friends.BlockKeeps` | src/friend/friend.service.ts:597-643 | Blocking keeps the pair consistent |
| `Friends.UnblockKeeps` | src/friend/friend.service.ts:645-670 | Unblocking keeps the pair consistent |
| `Friends.AccountKeeps` | src/portal/portal.service.ts:1091-1097 | Cancelling an account's requests, and removing its rows, keeps every pair consistent |
| `Friends.SendRefines` | src/friend/friend.service.ts:113-187 | Sending makes exactly the pair machine's move, is refused exactly when the machine refuses, and no other pair notices |
| `Friends.Answers` | src/friend/friend.service.ts:288-368 | Accepting, rejecting and cancelling make exactly the machine's moves |
| `Friends.RemoveRefines` | src/friend/friend.service.ts:568-595 | Unfriending makes exactly the machine's move |
| `Friends.BlockRefines` | src/friend/friend.service.ts:597-643 | Blocking makes exactly the machine's move from every state |
| `Friends.UnblockRefines` | src/friend/friend.service.ts:645-670 | Unblocking returns to strangers unless the other has blocked too |
| `FriendServices.FriendService.SendFriendRequest` | src/friend/friend.service.ts:113-187 | Both lookups and the upsert, or the acceptance, are the specified transaction |
| `FriendServices.FriendService.FinalizePending` | src/friend/friend.service.ts:307-368 | Authorization and conditional update are the specified transaction |
| `FriendServices.FriendService.AcceptInTransaction` | src/friend/friend.service.ts:288-305 | The update and the two inserts, rolled back together, are the specified transaction |
| `FriendServices.FriendService.AnswerRequest` | src/friend/friend.service.ts:223-258 | Accepting, rejecting and cancelling are the specified transactions |
| `FriendServices.FriendService.RemoveFriend` | src/friend/friend.service.ts:568-595 | Both rows go |
| `FriendServices.FriendService.BlockUser` | src/friend/friend.service.ts:597-643 | Block, friendship rows and pending requests change together |
| `FriendServices.FriendService.UnblockUser` | src/friend/friend.service.ts:645-670 | Only the caller's own block goes |
| `Json.TextIsNormalForm` | src/companion/asset-manifest.ts:121-125 | Two JSON values have the same canonical text if and only if they are the same up to the order of object keys, at every depth |
| `Json.TextRead` | src/companion/asset-manifest.ts:121-125 | A canonical text can be read back in only one way, whatever follows it |
| `Json.SameText` | src/companion/asset-manifest.ts:121-125 | The order of keys does not show in the canonical text |
| `Manifest.CanonicalIdempotent` | src/companion/asset-manifest.ts:93-104 | The canonical form of a canonical form is itself, for any manifest |
| `Manifest.CanonicalOfPermutation` | src/companion/asset-manifest.ts:93-104 | The canonical form is the same for every permutation of files, of animations and of their files, when names and paths are unique |
| `Manifest.AcceptedPathUnchanged` | src/companion/asset-manifest.ts:127-134 | An accepted path is its own normal form, survives split and join, lies in the asset root and has no empty, hidden or dot segment |
| `Manifest.ReacceptedExactly` | src/companion/asset-manifest.ts:76-104 | The output of validation is accepted again if and only if in every sprite sheet the file that sorts first is a PNG |
| `Manifest.RevalidatesExactly` | src/companion/asset-manifest.ts:43-104 | A validated manifest, given back with the same hash, validates to the same result if and only if in every sprite sheet the file that sorts first is a PNG |
| `Manifest.ValidatedAgain` | src/companion/asset-manifest.ts:43-91 | With one file per sprite sheet a validated manifest validates again, with the same hash and the same result |
| `ManifestWitness.SheetLost` | src/companion/asset-manifest.ts:43-104 | A complete manifest, with the three required animations and one sheet, that is accepted on every platform and within every limit that admits it, and whose output is not |
| `Manifest.ValidateManifest` | src/companion/asset-manifest.ts:43-91 | The passes accept exactly the manifests that meet every rule and whose canonical JSON has the expected hash |
| `Manifest.ValidateFiles` | src/companion/asset-manifest.ts:54-68 | One pass finds unsafe, colliding or disallowed files and sums their bytes |
| `Manifest.ValidateAnimations` | src/companion/asset-manifest.ts:70-83 | One pass finds repeated names and bad mappings |
| `Export.GenerateDataExport` | src/portal/portal.service.ts:719-826 | The streamed export is the text JSON.stringify would give for the whole nested value at once, for any numbers of rows, and a reader of the grammar of RFC 8259 gets that value back, complete: true at its end |
| `Export.StreamExportCompanions` | src/portal/portal.service.ts:828-844 | The nested stream of companions, packs and files is the text of the nested arrays |
| `Export.StreamExportAssetPacks` | src/portal/portal.service.ts:846-869 | The nested stream of packs and files is the text of the nested arrays |
| `Export.StreamExportArray` | src/portal/portal.service.ts:871-883 | A stream of rows is the text of their array |
| `Export.ExportRows` | src/portal/portal.service.ts:885-896 | Every row once, in id order, however many batches it takes |
| `Export.CursorSplits` | src/portal/portal.service.ts:1642-1648 | The page after a cursor starts right behind its row |
| `JsonStringify.AddMember` | src/portal/portal.service.ts:840 | Cutting the closing brace and adding a member by hand gives the object with that member, because no selected row is empty |
| `Storage.ObjectStorage.ListObjectKeys` | src/storage/storage.service.ts:229-256 | Exactly the first min(n, max) keys, whatever pages the provider makes, if storage is available |
| `Storage.ObjectStorage.DeleteObjects` | src/storage/storage.service.ts:258-277 | Refuses at once when storage is unavailable; otherwise batches delete all keys, or stop with storage marked unavailable exactly when a key cannot be deleted |
| `Storage.ObjectStorage.DeleteObjectPrefix` | src/storage/storage.service.ts:279-301 | It terminates, succeeds exactly when storage is available and nothing under the prefix is stuck, and then the prefix is empty and the rest untouched |
| `Storage.ObjectStorage.InspectObject` | src/storage/storage.service.ts:151-189 | Refuses when storage is unavailable, reports a missing object, and otherwise gives the digest of the whole body, unless it is larger than allowed, which is found without hashing more than is allowed |
| `RoomAnswers.EligibleExactly` | src/visit/visit.service.ts:517-532 | Eligible is: two different active accounts, neither leaving, friends in both directions, and no block either way |
| `RoomAnswers.AllEligibleExactly` | src/visit-social/visit-social.service.ts:536-555 | A room is eligible if every two of its users are |
| `RoomAnswers.ReadiesExactly` | src/visit/visit.service.ts:202-224 | Getting ready succeeds exactly for a principal of a preparing session whose two principals may meet; stamps, members and state afterwards; what each refusal lacked |
| `RoomAnswers.StartsExactly` | src/visit/visit.service.ts:226-241 | Starting succeeds exactly for the host of a ready session whose two principals may meet, and makes the prepared members speak |
| `RoomAnswers.EndsExactly` | src/visit/visit.service.ts:397-407 | Ending cancels what had not started and ends what had, gives up the pack and marks everybody as left; exactly a principal may do it |
| `RoomAnswers.ClosesExactly` | src/visit/visit.service.ts:285-295 | A claimed close ends active sessions, cancels the other live ones and leaves the rest alone |
| `RoomAnswers.SpeaksExactly` | src/visit/visit-room.service.ts:276-295 | Exactly a member who arrived or is prepared gets ready to speak |
| `RoomAnswers.LeavesExactly` | src/visit/visit-room.service.ts:297-313 | Exactly a member other than the host, who has not left, leaves |
| `RoomAnswers.SharesExactly` | src/visit-social/visit-social.service.ts:145-209 | A share is approved exactly by the visiting owner, while preparing, with a title and a summary, if all participants may meet each other; the topic, its link and its limits afterwards; what each refusal lacked |
| `RoomAnswers.SpeakersInOrder` | src/visit-social/visit-social.service.ts:516-534 | The visitor speaks before the host, the host before guests, guests in the order they joined |
| `RoomAnswers.DueExactly` | src/visit-social/visit-social.service.ts:557-562 | Who is due: the first speaker opens, the one behind the last sender follows, and the first again after the last or after a sender who is gone; nobody outside an active room or at fifteen turns |
| `RoomAnswers.TurnsExactly` | src/visit-social/visit-social.service.ts:211-268 | A turn is accepted exactly from the due user, with a text, in an active shared room whose speakers may all meet each other, under a new client id; what each refusal lacked |
| `RoomAnswers.TopicEndsExactly` | src/visit-social/visit-social.service.ts:296-345 | After an accepted turn the current topic is completed if and only if the room has fifteen turns, the topic its maximum, or its minimum with a farewell; then the very next topic is current and shown, or, at the room limit or behind the last topic, the room is ended with its moment |
| `RoomAnswers.LegacyEndsExactly` | src/visit-social/visit-social.service.ts:347-352 | A room without topics ends with its moment exactly at the twelfth turn |
| `RoomAnswers.FinalizesExactly` | src/visit-social/visit-social.service.ts:279-294 | A moment is recorded exactly for a member of an ended, shared session with two turns that has none, and counts its turns and ready companions |
| `VisitAnswers.ShowsExactly` | src/visit/visit.service.ts:430-446 | The current snapshot is the companion the active user shows to friends, with its active pack |
| `VisitAnswers.InvitesExactly` | src/visit/visit.service.ts:43-80 | An invitation is sent if and only if storage is available, the two may meet, the visitor holds no reservation, neither hosts nor visits, and shows a companion with a fitting pack that is not invited on this route; the invitation and the reservation it writes |
| `VisitAnswers.InvitationRefusals` | src/visit/visit.service.ts:43-80 | What each refused invitation lacked; users who may not meet are told only that |
| `VisitAnswers.AcceptsExactly` | src/visit/visit.service.ts:82-124 | An invitation is accepted if and only if its host asks while it is pending and not expired, the two may meet, the visitor is held by it and not engaged, the host is free, visits nobody and hosts at most one, and both companions may be shown |
| `VisitAnswers.AcceptanceRefusals` | src/visit/visit.service.ts:82-124 | What each refused acceptance lacked; users who may not meet are told only that |
| `VisitAnswers.OpensExactly` | src/visit/visit.service.ts:125-179 | The session an acceptance opens: room for three, both principals arriving, the pinned pack, and the topic of the invitation with its link only if its owner shares it |
| `VisitAnswers.AcceptanceDoes` | src/visit/visit.service.ts:114-179 | Accepting opens that one session, seats both, declines exactly what else was pending at the host and frees exactly the visitors of those |
| `VisitAnswers.ExpiryDoes` | src/visit/visit.service.ts:97-101 | An invitation found expired gets that status, gives up its pack and frees its visitor |
| `VisitAnswers.RespondsExactly` | src/visit/visit.service.ts:381-395 | The host declines or the visitor cancels exactly a pending invitation of theirs; which status it gets, and whose reservation goes |
| `VisitAnswers.ExpiresExactly` | src/visit/visit.service.ts:341-348 | The cleanup expires exactly pending invitations whose time is over |
| `VisitAnswers.RequestsExactly` | src/visit/visit-room.service.ts:143-194 | A request to join is made if and only if the session is ready or active with a free seat, its host companion allows it, and the guest may meet every present member, holds no reservation, brings a companion that is not there, and has not asked already; it reserves the guest for two hours |
| `VisitAnswers.RequestRefusals` | src/visit/visit-room.service.ts:143-194 | What each refused request lacked |
| `VisitAnswers.AdmitsExactly` | src/visit/visit-room.service.ts:202-266 | A guest is admitted if and only if the host asks while the request is pending and not expired, a seat is free, and the guest may meet every present member and is held by that request; the seat and the queued topic afterwards |
| `VisitAnswers.AdmissionRefusals` | src/visit/visit-room.service.ts:202-266 | What each refused admission lacked |
| `VisitAnswers.SettlesExactly` | src/visit/visit-room.service.ts:331-351 | A settled request has its final status, gives up its pack and frees its guest, unless an earlier one of the same guest and session has that status |
| `VisitAnswers.RespondsToRequestExactly` | src/visit/visit-room.service.ts:331-351 | The host declines or the guest cancels exactly a pending request; which status it gets, and when the unique index refuses |
| `VisitAnswers.ExpiresRequestExactly` | src/visit/visit.service.ts:350-367 | The cleanup expires exactly pending requests whose time is over and for which no earlier one expired |
| `VisitAnswers.NoSession` | src/visit/visit.service.ts:202-251 | A session that does not exist is not found, and nothing changes |
| `VisitAnswers.EndLetsGo` | src/visit/visit.service.ts:243-251 | Ending a session lets go of exactly the reservations on it |
| `VisitAnswers.CloseLetsGo` | src/visit/visit.service.ts:285-295 | So does a claimed close, of a live session only |
| `VisitAnswers.LeavingLetsGo` | src/visit/visit-room.service.ts:297-313 | Leaving lets go of exactly the own reservation on the session |
| `VisitAnswers.DialogueDoes` | src/visit-social/visit-social.service.ts:354-398 | A turn or a finalization lets go of reservations exactly when it ends the session, and settles relationships exactly when the moment is new |
| `VisitAnswers.RevokesExactly` | src/visit/visit.service.ts:309-334 | Revoking withdraws exactly the pending invitations and closes exactly the live sessions of the companion, and frees exactly who was held by them |
| `VisitAnswers.PartsExactly` | src/visit/visit.service.ts:285-295 | Exactly the live sessions in which one of the two visits the other are closed |
| `VisitAnswers.TimesOutExactly` | src/visit/visit.service.ts:624-632 | A session times out when it was active too long, prepared too long, or a principal was silent too long since last seen or since it began; which reason is given |
| `VisitAnswers.CleanupFinds` | src/visit/visit.service.ts:341-372 | What a cleanup looks for: expired pending invitations and requests, and live sessions that timed out |
| `Settlement.AmountsExactly` | src/visit-social/visit-social.service.ts:442-482 | Two visits make companions familiar, four friendly, eight close, twelve trusted; rapport grows by 0.08 to its cap at the thirteenth visit, affinity by 0.05 to its cap at the twentieth |
| `VisitSafety.RelationshipIs` | src/visit-social/visit-social.service.ts:442-482 | After any run every relationship has the stage, counts and scores, in numbers, of the shared moments of its pair |
| `FriendAnswers.SendsExactly` | src/friend/friend.service.ts:113-187 | A request is sent if and only if both accounts are active, the two are neither friends nor blocked, and neither asked already; if the other asked, the two become friends; which row is written |
| `FriendAnswers.AnswersExactly` | src/friend/friend.service.ts:223-455 | The receiver accepts or rejects, the sender cancels, exactly a pending request between active accounts; which status it gets and whether the two are friends |
| `FriendAnswers.PartsExactly` | src/friend/friend.service.ts:568-670 | What unfriending, blocking and unblocking change, and when they may |
| `FriendAnswers.AccountsExactly` | src/portal/portal.service.ts:1091-1097 | An account that leaves has nothing pending; one that is removed has nothing at all; nothing of others changes |
| `PackAnswers.CountsExactly` | src/companion/companion.service.ts:218-221 | Uploading, verifying, active and superseded packs count against the quota |
| `PackAnswers.InitiatesExactly` | src/companion/companion.service.ts:182-238 | A pack is begun if and only if the active owner asks, the companion has none of that manifest, and the quota holds |
| `PackAnswers.FoundExactly` | src/companion/companion.service.ts:196-217 | A pack that is there is reused when it was completed, resumed within its session, and refused otherwise |
| `PackAnswers.IssuesExactly` | src/companion/companion.service.ts:246-286 | URLs are issued exactly for a pack its active owner is uploading |
| `PackAnswers.VerifiesExactly` | src/companion/companion.service.ts:288-308 | A completion starts exactly for the owner of a pack in upload within its session; what each refusal lacked |
| `PackAnswers.ActivatesExactly` | src/companion/companion.service.ts:577-658 | Activation succeeds exactly for a pack of the companion in the expected status; all rows afterwards |
| `PackAnswers.DeletesExactly` | src/companion/companion.service.ts:382-408 | An owner may delete exactly a failed or abandoned pack whose URLs have expired |
| `PackAnswers.AbandonsExactly` | src/companion/companion.service.ts:427-444 | A pass abandons exactly an upload whose URLs have expired and whose session is over: counted from its beginning while uploading, from its last change while verifying |
| `PackAnswers.RetiresExactly` | src/companion/companion.service.ts:529-560 | A retirement takes exactly a deleting pack, or one superseded longer than the retention and not visited; the service also wants the URLs expired, the portal does not |
| `PackAnswers.EndsExactly` | src/companion/companion.service.ts:288-408 | How work on a pack ends: a failure only fails a verifying pack, a deletion only removes a deleting one, a removal takes the pointer along |
| `PackAnswers.RemovalIs` | src/portal/portal.service.ts:1343 | Removing an account takes exactly its own companions and packs along |
| `PackAnswers.DeletionIs` | src/portal/portal.service.ts:983-1090 | Deleting an account suspends it, keeps the time of the first request and takes exactly its own packs out of use |
| `PackAnswers.DueExactly` | src/portal/portal.service.ts:1254-1278 | An account may go exactly when its deletion was requested and every URL of its packs has expired |
| `PackAnswers.CurrentUploadStays` | src/companion/companion.service.ts:427-462 | In any world, no pass takes a pack out of upload while its session is current |
| `PackAnswers.LeavesUpload` | src/companion/companion.service.ts:288-462 | Whatever happens, a pack leaves upload only by its own completion or failure, by a pass after session and URLs are over, or with its account |
| `PresenceShown.ActivityIsKept` | src/presence/presence.gateway.ts:67-113 | After any run there is an activity time for exactly the registered sockets |
| `PresenceShown.ReportCounts` | src/presence/presence.gateway.ts:225-238 | A report of activity counts at most once in fifteen seconds, from a registered socket |
| `PresenceShown.IdleCheckExactly` | src/presence/presence.gateway.ts:340-359 | The idle check is scheduled exactly while some activity has yet to expire |
| `PresenceShown.WritesSay` | src/presence/presence.gateway.ts:361-375 | Every write a step puts in flight says online for a connection just registered; online or idle for an aggregate exactly as some registered socket was, or was not, active within the idle time; offline otherwise |
| `PresenceShown.LastAggregateShows` | src/presence/presence.gateway.ts:361-400 | Over any run: if an aggregate write lands and no write lands after it, the user is shown online or idle exactly as the activity said when it was computed |
| `PresenceAnswers.RegistersExactly` | src/presence/presence.gateway.ts:68-151 | A socket is registered exactly by the promotion of its unrevoked connection, and lost exactly by its disconnection, a revocation of its user, a dead session, or its connection backing out |
| `PresenceAnswers.WaitsExactly` | src/presence/presence.gateway.ts:58-128 | A connection waits, with the generations it arrived at, exactly until it is admitted, refused, backs out or leaves, or its user or device is revoked |
| `PresenceAnswers.OfflineExactly` | src/presence/presence.gateway.ts:130-165 | An offline write starts exactly when the last socket leaves without grace, the grace period ends with nobody back, the user is revoked, or a task finds nobody left |
| `PresenceAnswers.GraceExactly` | src/presence/presence.gateway.ts:130-165 | The offline timer runs exactly from a last socket that leaves with grace to its end, the next promotion, a revocation, or a task that finds nobody left |
| `PresenceAnswers.IdleExactly` | src/presence/presence.gateway.ts:340-359 | The idle check is due exactly after a look that found an unexpired activity, until it fires or is given up |
| `PresenceAnswers.AggregatesExactly` | src/presence/presence.gateway.ts:225-238 | An aggregate starts exactly when a socket leaves others, the idle check fires, a report counts, an abort leaves sockets or the session check asks |
| `PresenceAnswers.ClosesExactly` | src/presence/presence.gateway.ts:171-207 | Which connections an event closes |
| `PresenceAnswers.GenerationsExactly` | src/presence/presence.gateway.ts:171-207 | A revocation advances exactly the generation of its user or device, by one |
| `PresenceGateways.PresenceGateway.HandleActivity` | src/presence/presence.gateway.ts:225-238 | A report that counts moves the socket's activity time and starts an aggregate |
| `JsonReader.ValueIsRead` | src/portal/portal.service.ts:719-826 | The text JSON.stringify gives for any value, with anything legal behind it, is read back as that value by a reader of the grammar of RFC 8259 |
| `JsonReader.StringifyIsRead` | src/portal/portal.service.ts:719-826 | The whole text is read back as exactly that value |
| `JsonReader.TextIsStringify` | src/companion/asset-manifest.ts:121-125 | The canonical text is the plain text of the value with its keys sorted at every depth |
| `JsonReader.CanonicalIsRead` | src/companion/asset-manifest.ts:121-125 | The canonical text is read back as the value up to the order of keys, with the keys of every object in ascending order |
| `Export.ExportHolds` | src/portal/portal.service.ts:828-883 | What the exported value holds: every row's fields in its section, packs behind their companions, files behind their packs |
| `AssetServices.CompanionService.SweptExactly` | src/companion/companion.service.ts:427-462 | What a pass makes of one row, in terms of its status, times and URLs |
| `RoomAnswers.ProgressExactly` | src/visit-social/visit-social.service.ts:296-345 | After a turn the topic is kept, gives way to the next one or ends the room, exactly as limits, minimum and farewell say |
| `ManifestAnswers.PathsExactly` | src/companion/asset-manifest.ts:127-134 | A path is accepted exactly if it lies under assets/, has no NUL, backslash, question mark, hash sign or encoded separator, and every slash opens a segment that is neither empty nor hidden |
| `ManifestAnswers.ExtensionExactly` | src/companion/asset-manifest.ts:137 | The extension starts at the last dot |
| `ManifestAnswers.TypesExactly` | src/companion/asset-manifest.ts:27-37 | Which extension has which type, and which categories a type admits |
| `ManifestAnswers.FilesExactly` | src/companion/asset-manifest.ts:54-66 | What a good file is: its path, type, category, size and hash |
| `ManifestAnswers.AnimationsExactly` | src/companion/asset-manifest.ts:70-82 | What a good animation is: a name, files of the pack, and for a sprite sheet frames within the limits on a PNG |
| `ManifestAnswers.ValidatesExactly` | src/companion/asset-manifest.ts:43-91 | A manifest is validated if and only if it has the format, good files with different paths whatever their case within the limits, good animations of different names with the three required, image paths of the pack, and the expected hash; the result |
| `ManifestAnswers.CanonicalExactly` | src/companion/asset-manifest.ts:93-104 | The canonical form is the same files and animations in the order of paths and names, each animation with its files in ascending order, under a fixed header |
| `ManifestAnswers.CanonicalJsonSays` | src/companion/asset-manifest.ts:93-125 | The canonical JSON, read by the grammar of RFC 8259 and by its keys, says exactly what the canonical manifest is, with the keys of every object in ascending order |
| `PackEffects.GoesExactly` | src/companion/companion.service.ts:382-528 | An object of the store goes exactly by a cleanup under its pack's prefix, the service of staging objects only its pack's own and the portal none, by the finalization of an account, or by the staging cleanup of a pack in use whose URLs have expired |
| `PackEffects.ComesExactly` | src/companion/companion.service.ts:312-340 | An object comes exactly by an upload, the copy of a verified file with the manifest's type, or the manifest of a completion |
| `PackEffects.UploadsExactly` | src/companion/companion.service.ts:246-286 | An upload is possible exactly with a URL of that pack and prefix younger than its lifetime |
| `PackEffects.CompletesExactly` | src/companion/companion.service.ts:312-340 | A completion goes on exactly from a file staged as promised to its copy, from the copy of the inspected object to its check, from a good copy to the next file, and behind the last one to the manifest |
| `PackEffects.FailsExactly` | src/companion/companion.service.ts:312-340 | A completion turns to failing its pack exactly when a staged file, its copy or the inspected object is not as promised |
| `PackEffects.CleansExactly` | src/companion/companion.service.ts:382-408 | A cleanup goes on exactly while something is left under the prefix |
| `PackEffects.StartsExactly` | src/companion/companion.service.ts:288-560 | Work starts exactly when its claim was granted, on the prefix of the pack, and ends as its kind ends |
| `PackEffects.TasksExactly` | src/companion/companion.service.ts:288-560 | A task that goes on waits for what comes next or is over, and no other task notices |
| `PackEffects.StatementsExactly` | src/companion/companion.service.ts:341-408 | What the requests and the ends of work write |
| `PackEffects.UrlsExactly` | src/companion/companion.service.ts:246-286 | URLs come exactly by a stamp that was granted |
| `PackEffects.BytesExactly` | src/companion/companion.service.ts:182-195 | The bytes of a pack are those of its files |
| `PackEffects.AccountsExactly` | src/portal/portal.service.ts:1254-1366 | An account goes exactly by a finalization whose pages are done, that is due and whose counts agree; what else changes it |
| `PackEffects.FinalizesExactly` | src/portal/portal.service.ts:1279-1306 | A finalization empties the prefixes of a page one by one and takes pages of a hundred |
| `PackEffects.FinalizationStarts` | src/portal/portal.service.ts:1254-1278 | It starts exactly when due, with the count of the account's packs |
| `AccountDeletion.DeletionDoes` | src/portal/portal.service.ts:983-1077 | Deleting an account withdraws exactly what is pending from or to the user, deserts exactly the open sessions it has part in, and lets go of exactly the holds on all that |
| `Storage.ListingExactly` | src/storage/storage.service.ts:229-256 | The keys under a prefix are those that begin with it, in their order, and a listing is the first of them, at least one and at most ten thousand |
| `Storage.SlashedExactly` | src/storage/storage.service.ts:279-281 | A prefix is deleted as a directory: it ends with a slash, added only if there was none |
| `Settlement.PairsExactly` | src/visit-social/visit-social.service.ts:422 | A pair is its two companions in ascending order, whichever is named first |
| `VisitAnswers.OnlyTheSession` | src/visit/visit.service.ts:202-241 | Getting ready, starting, speaking and sharing touch only their session |
| `VisitAnswers.DialogueIs` | src/visit-social/visit-social.service.ts:211-294 | A turn and a finalization are their room's transaction with what follows from it |

## Left out

- The writes of other services to Visit rows: the administration's end, reconcile and cancel actions, which do not release reservations.
- The removal of a deleted account's Visit rows as a step of the Visit run. In `VisitPacks` it is a step, and only the pack references are claimed there; `AccountDeletion` mixes the deletion itself with transactions.
- Statements of `endSessionsBetween` and of the cleanup as separate steps: one row's handling is one step; in `VisitServices` the loops run without interruption.
- VisitServices.VisitService.CleanupExpiredAndTimedOut: with more rows than the limit it says how many are left, not which, because the query has no order.
- Heartbeats as steps: the columns they write are an argument of the cleanup, and nothing else reads them. End reasons, failure codes and readiness rows of viewers are not modelled.
- The lookup of shareable topics: its outcome is an argument; its several refusals share one code. Sanitising of share and turn texts, topic titles and tags, emotions and labels are not modelled; an emptied text is.
- Pack references of participants: the cleanup guards do not look at them. Their pins are not claimed safe.
- Row ids are integers and the tie-break by id never decides, because ids are unique.
- The branches for databases without the newer tables in the social service (legacy participants, a missing settlement model). The branch for rooms without topics is modelled, and shown to be unreachable in a consistent room with a share.
- PresenceRuns.QuietMeansOffline: is about runs whose failures are harmless; `PresenceFailures.FailureStrandsExactly` says that no other failure could be allowed.
- Users in the presence model: the gateway keeps everything by user and the model is one user's part; device ids and user ids are kept apart instead of being joined into one string key. Friend notifications, session validation timers are not modelled; aggregate publications may start at any time.
- PackUrls.RowsOutliveUrls: is about runs whose portal retirements are safe; `PortalRetirement.RetirementExactly` says that no other could be allowed while a URL is alive.
- The time a pack was superseded is the transaction's; the program reads it slightly before.
- AssetServices.CompanionService.DeleteAssetPack: the claim, the deletion of objects and the removal run here without anything in between; `PackWorld` interleaves them with everything else.
- AssetServices.CompanionService.AbandonExpiredUploads: the pass runs here without anything in between; `PackWorld` interleaves its claims, deletions and updates.
- PackStore.RunKeepsStore: assumes one cleanup worker per pack; `TwoCleaners.SecondCleanupLoses` is what can happen without.
- A manifest written by a completion after its pack was claimed for deletion: an emptied prefix may not stay empty.
- Failure codes of packs, the lease of the staging cleanup and its minimum age, a staging deletion that goes on after its pack was retired, the smoke-test endpoint, and the retry of activation after a unique conflict; the read of a pack before the transaction that issues URLs.
- Signing of URLs, multipart and range behaviour of the store, requests to it that fail half-way.
- The backoff of failed account deletions, rate limits, roles, tokens, devices, the portal's page arithmetic, redaction of exported fields, statistics.
- Friend transactions are atomic: a block that commits between the checks and the write of a request is not modelled. Events, notifications and lookups by code are not modelled.
- JsonReader.ValueIsRead: the reader knows the part of the grammar that the values here need: no fractions, exponents or surrogate pairs.
- Unknown extra keys of a manifest, which validation keeps, and numbers that are not integers. Characters are Unicode scalars and sort by their value.
- Database locks, isolation levels and deadlocks; transport, DTO validation, hashing of passwords, the web portal.
