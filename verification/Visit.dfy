/** The Visit tables and every transaction over them, as functions from tables to tables. A refusal
    rolls its transaction back, so it returns the tables it was given. */
module Visit {
  import opened Common
  import opened Replies
  import opened Catalog
  import opened Rooms
  import opened Settlement

  const MAX_CONCURRENT_HOST_VISITORS: nat := 2
  const JOIN_REQUEST_TTL: int := 7_200_000

  datatype Status = Pending | Accepted | Declined | Withdrawn | Expired   // Withdrawn: 'cancelled'
  datatype Mode = Standard | RandomHostTopic | VisitorTopic

  /** A topic copied into an invitation or a join request. */
  datatype Draft = Draft(owner: CompanionId, createdBy: UserId, content: Content, scope: Scope)

  /** What resolveInvitationTopic finds. */
  datatype TopicChoice = NoTopic | Chosen(draft: Draft) | Unavailable

  datatype Invitation = Invitation(
    visitor: UserId, host: UserId, companion: CompanionId, snapshot: PackId, packRef: Option<PackId>,
    mode: Mode, topic: Option<Draft>, status: Status, expiresAt: Time)

  datatype JoinRequest = JoinRequest(
    session: SessionId, requester: UserId, companion: CompanionId, packRef: Option<PackId>,
    topic: Option<Draft>, status: Status, expiresAt: Time)

  /** The kinds of VisitReservation, each with the references its CHECK constraint demands. */
  datatype Hold =
    | Outgoing(invitation: InvitationId)
    | Joining(session: SessionId, request: RequestId)
    | Seated(session: SessionId)

  datatype Reservation = Reservation(companion: CompanionId, hold: Hold, expiresAt: Option<Time>)

  datatype Tables = Tables(
    invitations: map<InvitationId, Invitation>,
    rooms: map<SessionId, Room>,
    requests: map<RequestId, JoinRequest>,
    reservations: map<UserId, Reservation>,
    ledger: Ledger)

  const EmptyTables := Tables(map[], map[], map[], map[], EmptyLedger)

  datatype Tx = Tx(tables: Tables, reply: Reply)

  function Deny(t: Tables, code: Code): Tx { Tx(t, Refused(code)) }

  // ------------------------------------------------------------------ reads

  predicate ReservedBySession(r: Reservation, s: SessionId) {
    (r.hold.Joining? || r.hold.Seated?) && r.hold.session == s
  }

  predicate ReservedByInvitation(r: Reservation, ids: set<InvitationId>) {
    r.hold.Outgoing? && r.hold.invitation in ids
  }

  predicate ReservedByRequest(r: Reservation, id: RequestId) {
    r.hold.Joining? && r.hold.request == id
  }

  predicate LiveRoom(t: Tables, s: SessionId) { s in t.rooms && Live(t.rooms[s].row.state) }

  function LiveHostedBy(t: Tables, u: UserId): set<SessionId> {
    set s | s in t.rooms && Live(t.rooms[s].row.state) && t.rooms[s].row.host == u
  }

  function LiveVisitsBy(t: Tables, u: UserId): set<SessionId> {
    set s | s in t.rooms && Live(t.rooms[s].row.state) && t.rooms[s].row.visitor == u
  }

  predicate HasSession(t: Tables, id: InvitationId) {
    exists s :: s in t.rooms && t.rooms[s].row.invitation == id
  }

  function PendingOnRoute(t: Tables, visitor: UserId, host: UserId, companion: CompanionId, now: Time): set<InvitationId> {
    set i | i in t.invitations && t.invitations[i].visitor == visitor && t.invitations[i].host == host
         && t.invitations[i].companion == companion && t.invitations[i].status == Pending && now < t.invitations[i].expiresAt
  }

  function PendingFor(t: Tables, host: UserId, except: InvitationId): set<InvitationId> {
    set i | i in t.invitations && t.invitations[i].host == host && t.invitations[i].status == Pending && i != except
  }

  /** The unique index (sessionId, requesterUserId, status). */
  predicate StatusTaken(t: Tables, s: SessionId, u: UserId, status: Status) {
    exists r :: r in t.requests && t.requests[r].session == s && t.requests[r].requester == u && t.requests[r].status == status
  }

  // ------------------------------------------------------------------ writes

  /** visitReservation.deleteMany({ sessionId }) */
  function WithoutSession(rs: map<UserId, Reservation>, s: SessionId): map<UserId, Reservation> {
    map u | u in rs && !ReservedBySession(rs[u], s) :: rs[u]
  }

  /** visitReservation.deleteMany({ invitationId: { in: ids } }) */
  function WithoutInvitations(rs: map<UserId, Reservation>, ids: set<InvitationId>): map<UserId, Reservation> {
    map u | u in rs && !ReservedByInvitation(rs[u], ids) :: rs[u]
  }

  /** visitReservation.deleteMany({ userId, ... }) for one user whose reservation matches. */
  function WithoutUser(rs: map<UserId, Reservation>, u: UserId, matches: bool): map<UserId, Reservation> {
    if matches then rs - {u} else rs
  }

  function Settle(i: Invitation, status: Status): Invitation { i.(status := status, packRef := None) }

  function SettleInvitations(rows: map<InvitationId, Invitation>, ids: set<InvitationId>, status: Status): map<InvitationId, Invitation> {
    map i | i in rows :: if i in ids then Settle(rows[i], status) else rows[i]
  }

  predicate Usable(d: Draft) { d.content.title != "" && d.content.summary != "" }

  function DraftTopic(d: Draft, state: TopicState): Topic {
    Topic(state, d.owner, d.createdBy, Visible(d.content, d.scope), d.scope, MINIMUM_TURNS, MAXIMUM_TURNS)
  }

  function UsableTopic(d: Option<Draft>, state: TopicState): Option<Topic> {
    if d.Some? && Usable(d.value) then Some(DraftTopic(d.value, state)) else None
  }

  /** Room `s` after a transaction that also releases its reservations if it is over. */
  function Released(t: Tables, s: SessionId, room: Room): Tables {
    t.(rooms := t.rooms[s := room], reservations := WithoutSession(t.reservations, s))
  }

  // ------------------------------------------------------------------ invitations

  /** createInvitation. `available` is the storage capability, `choice` what the topic lookup finds. */
  function CreateInvitation(t: Tables, c: Catalog, visitor: UserId, host: UserId, available: bool,
                            mode: Mode, choice: TopicChoice, now: Time, ttl: int, id: InvitationId): Tx {
    var snapshot := CurrentSnapshot(c, visitor);
    if !available then Deny(t, VisitFeatureUnavailable)
    else if visitor == host then Deny(t, InvitationNotAvailable)
    else if !Eligible(c, visitor, host) then Deny(t, InvitationNotAvailable)
    else if visitor in t.reservations then Deny(t, ReservationExists)
    else if LiveHostedBy(t, visitor) != {} then Deny(t, HostHasActiveGuests)
    else if LiveVisitsBy(t, visitor) != {} then Deny(t, SessionAlreadyActive)
    else if snapshot.None? then Deny(t, InvitationNotAvailable)
    else if !c.packs[snapshot.value.pack].visual then Deny(t, VisualAssetsUnavailable)
    else if choice.Unavailable? then Deny(t, TopicNotAvailable)
    else if PendingOnRoute(t, visitor, host, snapshot.value.companion, now) != {} then Deny(t, InvitationAlreadyExists)
    else if id in t.invitations then Deny(t, UniqueViolation)
    else
      var topic := if choice.Chosen? then Some(choice.draft) else None;
      var pack := snapshot.value.pack;
      var invitation := Invitation(visitor, host, snapshot.value.companion, pack, Some(pack), mode, topic, Pending, now + ttl);
      Tx(t.(invitations := t.invitations[id := invitation],
            reservations := t.reservations[visitor := Reservation(snapshot.value.companion, Outgoing(id), Some(now + ttl))]), Done)
  }

  /** The room acceptInvitation creates. */
  function NewRoom(i: Invitation, id: InvitationId, hostCompanion: CompanionId, hostRow: int, visitorRow: int, now: Time): Room {
    var row := SessionRow(id, i.visitor, i.host, hostCompanion, i.companion, i.snapshot, Some(i.snapshot),
                          ROOM_CAPACITY, 1, Preparing, None, None, None, None, None);
    var members := map[i.host := Participant(hostRow, hostCompanion, Host, Arriving, None, now),
                       i.visitor := Participant(visitorRow, i.companion, Visitor, Arriving, None, now)];
    var topic := UsableTopic(i.topic, Current);
    match topic
    case None => Room(row, members, map[], None, map[], None)
    case Some(first) => Room(row, members, map[1 := first], Some(Envelope(1, first.content, first.createdBy)), map[], None)
  }

  /** Everything acceptInvitation checks before it writes. */
  function AcceptanceRefusal(t: Tables, c: Catalog, i: Invitation, id: InvitationId): Option<Code> {
    if !Eligible(c, i.visitor, i.host) then Some(InvitationNotAvailable)
    else if i.visitor !in t.reservations || t.reservations[i.visitor].hold != Outgoing(id) then Some(ReservationChanged)
    else if i.host in t.reservations then Some(ReservationExists)
    else if LiveHostedBy(t, i.visitor) != {} then Some(HostHasActiveGuests)
    else if LiveVisitsBy(t, i.visitor) != {} then Some(SessionAlreadyActive)
    else if LiveVisitsBy(t, i.host) != {} then Some(HostCompanionAway)
    else if |LiveHostedBy(t, i.host)| >= MAX_CONCURRENT_HOST_VISITORS then Some(HostCapacityReached)
    else if i.companion !in c.companions || !c.companions[i.companion].published || !c.companions[i.companion].friendsOnly then Some(InvitationNotAvailable)
    else if i.packRef != Some(i.snapshot) || !Presentable(c, i.snapshot, i.companion) then Some(InvitationNotAvailable)
    else if !c.packs[i.snapshot].visual then Some(VisualAssetsUnavailable)
    else None
  }

  /** The host's companion for the visit, looked up after the invitation was already updated. */
  function HostCompanion(c: Catalog, i: Invitation): (r: (Option<CompanionId>, Code)) {
    var current := CurrentSnapshot(c, i.host);
    if current.None? then (None, InvitationNotAvailable)
    else if i.mode == RandomHostTopic then
      if i.topic.None? then (None, InvitationNotAvailable)
      else if i.topic.value.owner != current.value.companion then (None, HostCompanionChanged)
      else (Some(current.value.companion), InvitationNotAvailable)
    else (Some(current.value.companion), InvitationNotAvailable)
  }

  /** acceptInvitation. An expired invitation is settled, and that is committed, before the refusal. */
  function AcceptInvitation(t: Tables, c: Catalog, host: UserId, id: InvitationId, now: Time,
                            s: SessionId, hostRow: int, visitorRow: int): Tx {
    if id !in t.invitations then Deny(t, InvitationNotFound)
    else
      var i := t.invitations[id];
      if i.host != host then Deny(t, InvitationNotHost)
      else if i.status == Accepted && HasSession(t, id) then Tx(t, Repeated)
      else if i.status != Pending then Deny(t, InvitationNotPending)
      else if i.expiresAt <= now then
        Tx(t.(invitations := t.invitations[id := Settle(i, Expired)],
              reservations := WithoutUser(t.reservations, i.visitor, i.visitor in t.reservations && ReservedByInvitation(t.reservations[i.visitor], {id}))),
           Refused(InvitationExpired))
      else
        var refusal := AcceptanceRefusal(t, c, i, id);
        var hostCompanion := HostCompanion(c, i);
        if refusal.Some? then Deny(t, refusal.value)
        else if hostCompanion.0.None? then Deny(t, hostCompanion.1)
        else if s in t.rooms || HasSession(t, id) || hostCompanion.0.value == i.companion then Deny(t, UniqueViolation)
        else
          var companion := hostCompanion.0.value;
          var displaced := PendingFor(t, i.host, id);
          var accepted := t.invitations[id := Settle(i, Accepted)];
          var reserved := t.reservations[i.visitor := t.reservations[i.visitor].(hold := Seated(s), expiresAt := None)]
                                        [i.host := Reservation(companion, Seated(s), None)];
          Tx(t.(invitations := SettleInvitations(accepted, displaced, Declined),
                rooms := t.rooms[s := NewRoom(i, id, companion, hostRow, visitorRow, now)],
                reservations := WithoutInvitations(reserved, displaced)), Done)
  }

  /** respondToInvitation: the host declines or the visitor cancels. */
  function RespondToInvitation(t: Tables, user: UserId, id: InvitationId, asHost: bool): Tx {
    var status := if asHost then Declined else Withdrawn;
    if id !in t.invitations then Deny(t, InvitationNotFound)
    else
      var i := t.invitations[id];
      if user != (if asHost then i.host else i.visitor) then Deny(t, if asHost then InvitationNotHost else InvitationNotOwned)
      else if i.status == status then Tx(t, Repeated)
      else if i.status != Pending then Deny(t, InvitationNotPending)
      else
        Tx(t.(invitations := t.invitations[id := Settle(i, status)],
              reservations := WithoutUser(t.reservations, i.visitor, i.visitor in t.reservations && ReservedByInvitation(t.reservations[i.visitor], {id}))),
           Done)
  }

  /** One row of the cleanup's first loop. */
  function ExpireInvitation(t: Tables, id: InvitationId, now: Time): Tables {
    if id in t.invitations && t.invitations[id].status == Pending && t.invitations[id].expiresAt < now then
      t.(invitations := t.invitations[id := Settle(t.invitations[id], Expired)],
         reservations := WithoutInvitations(t.reservations, {id}))
    else t
  }

  // ------------------------------------------------------------------ sessions

  /** A transaction on one room that leaves the other tables alone. */
  function OnRoom(t: Tables, s: SessionId, tx: RoomTx): Tx
    requires s in t.rooms
  {
    Tx(t.(rooms := t.rooms[s := tx.room]), tx.reply)
  }

  function MarkSessionReady(t: Tables, c: Catalog, user: UserId, s: SessionId, now: Time): Tx {
    if s !in t.rooms then Deny(t, SessionNotFound) else OnRoom(t, s, MarkReady(t.rooms[s], c, user, now))
  }

  function Start(t: Tables, c: Catalog, user: UserId, s: SessionId, now: Time): Tx {
    if s !in t.rooms then Deny(t, SessionNotFound) else OnRoom(t, s, StartSession(t.rooms[s], c, user, now))
  }

  /** endSession: ends the session and releases its reservations and members, also when it was over. */
  function End(t: Tables, user: UserId, s: SessionId, now: Time): Tx {
    if s !in t.rooms then Deny(t, SessionNotFound)
    else
      var tx := EndSession(t.rooms[s], user, now);
      if tx.reply.Refused? then Tx(t, tx.reply) else Tx(Released(t, s, tx.room), tx.reply)
  }

  /** One claimed session of endSessionsBetween, endSessionsForCompanion or the cleanup. */
  function CloseSession(t: Tables, s: SessionId, now: Time): Tables {
    if LiveRoom(t, s) then Released(t, s, CloseLive(t.rooms[s], now)) else t
  }

  /** The pending invitations and live sessions of a companion. */
  function PendingOf(t: Tables, companion: CompanionId): set<InvitationId> {
    set i | i in t.invitations && t.invitations[i].companion == companion && t.invitations[i].status == Pending
  }

  function LiveOf(t: Tables, companion: CompanionId): set<SessionId> {
    set s | s in t.rooms && Live(t.rooms[s].row.state) && t.rooms[s].row.companion == companion
  }

  predicate ReservedByAny(r: Reservation, ss: set<SessionId>) {
    (r.hold.Joining? || r.hold.Seated?) && r.hold.session in ss
  }

  /** revokeCompanionVisits: all of them at once. */
  function RevokeCompanion(t: Tables, companion: CompanionId, now: Time): Tables {
    var invitations, sessions := PendingOf(t, companion), LiveOf(t, companion);
    t.(invitations := SettleInvitations(t.invitations, invitations, Withdrawn),
       rooms := map s | s in t.rooms :: if s in sessions then CloseLive(t.rooms[s], now) else t.rooms[s],
       reservations := map u | u in t.reservations && !ReservedByInvitation(t.reservations[u], invitations)
                            && !ReservedByAny(t.reservations[u], sessions) :: t.reservations[u])
  }

  // ------------------------------------------------------------------ joining

  /** createJoinRequest. `topic` is what resolveOwnedTopic finds, if a topic was asked for. */
  function CreateJoinRequest(t: Tables, c: Catalog, user: UserId, s: SessionId, choice: TopicChoice, now: Time, id: RequestId): Tx {
    if s !in t.rooms then Deny(t, RoomNotJoinable)
    else
      var room := t.rooms[s];
      var snapshot := CurrentSnapshot(c, user);
      if room.row.state != Ready && room.row.state != Active then Deny(t, RoomNotJoinable)
      else if user in Present(room) then Deny(t, RoomAlreadyParticipant)
      else if |Present(room)| >= room.row.capacity then Deny(t, RoomCapacityReached)
      else if user in t.reservations then Deny(t, ReservationExists)
      else if room.row.hostCompanion !in c.companions || !c.companions[room.row.hostCompanion].allowJoinRequests then Deny(t, JoinRequestsDisabled)
      else if exists u :: u in Present(room) && !Eligible(c, user, u) then Deny(t, RoomNotAvailable)
      else if !InGoodStanding(c, user) || snapshot.None? || !c.packs[snapshot.value.pack].visual then Deny(t, ParticipantUnavailable)
      else if exists u :: u in Present(room) && room.participants[u].companion == snapshot.value.companion then Deny(t, RoomCompanionDuplicate)
      else if exists r :: r in t.requests && t.requests[r].session == s && t.requests[r].requester == user
                       && t.requests[r].status == Pending && now < t.requests[r].expiresAt then Deny(t, JoinRequestExists)
      else if choice.Unavailable? then Deny(t, TopicNotAvailable)
      else if id in t.requests || StatusTaken(t, s, user, Pending) then Deny(t, UniqueViolation)
      else
        var topic := if choice.Chosen? then Some(choice.draft) else None;
        var expiresAt := now + JOIN_REQUEST_TTL;
        var request := JoinRequest(s, user, snapshot.value.companion, Some(snapshot.value.pack), topic, Pending, expiresAt);
        Tx(t.(requests := t.requests[id := request],
              reservations := t.reservations[user := Reservation(snapshot.value.companion, Joining(s, id), Some(expiresAt))]), Done)
  }

  /** acceptJoinRequest. The expired branch writes and then throws, so it changes nothing. */
  function AcceptJoinRequest(t: Tables, c: Catalog, host: UserId, id: RequestId, now: Time, row: int): Tx {
    if id !in t.requests || t.requests[id].session !in t.rooms then Deny(t, JoinRequestNotFound)
    else
      var r := t.requests[id];
      var room := t.rooms[r.session];
      if room.row.host != host then Deny(t, JoinRequestNotHost)
      else if r.status == Accepted then Tx(t, Repeated)
      else if r.status != Pending then Deny(t, JoinRequestNotPending)
      else if r.expiresAt <= now then Deny(t, JoinRequestExpired)
      else if room.row.state != Ready && room.row.state != Active then Deny(t, RoomNotJoinable)
      else if |Present(room)| >= room.row.capacity then Deny(t, RoomCapacityReached)
      else if exists u :: u in Present(room) && !Eligible(c, r.requester, u) then Deny(t, RoomNotAvailable)
      else if r.requester !in t.reservations || t.reservations[r.requester].hold != Joining(r.session, id) then Deny(t, ReservationChanged)
      else if r.packRef.None? then Deny(t, ParticipantUnavailable)
      else if SeatTaken(room, r.requester, r.companion) || StatusTaken(t, r.session, r.requester, Accepted) then Deny(t, UniqueViolation)
      else
        var guest := Participant(row, r.companion, Guest, Arriving, None, now);
        Tx(t.(rooms := t.rooms[r.session := Seat(room, r.requester, guest, UsableTopic(r.topic, Queued))],
              requests := t.requests[id := r.(status := Accepted, packRef := None)],
              reservations := t.reservations[r.requester := t.reservations[r.requester].(hold := Seated(r.session), expiresAt := None)]), Done)
  }

  /** A pending request gets its final status and its reservation goes, unless the unique index
      already holds that status. */
  function SettleRequest(t: Tables, id: RequestId, status: Status): Tx
    requires id in t.requests
  {
    var r := t.requests[id];
    if StatusTaken(t, r.session, r.requester, status) then Deny(t, UniqueViolation)
    else
      Tx(t.(requests := t.requests[id := r.(status := status, packRef := None)],
            reservations := WithoutUser(t.reservations, r.requester, r.requester in t.reservations && ReservedByRequest(t.reservations[r.requester], id))),
         Done)
  }

  /** respondJoinRequest: the host declines or the requester cancels. */
  function RespondJoinRequest(t: Tables, user: UserId, id: RequestId, asHost: bool): Tx {
    var status := if asHost then Declined else Withdrawn;
    if id !in t.requests || t.requests[id].session !in t.rooms then Deny(t, JoinRequestNotFound)
    else
      var r := t.requests[id];
      if user != (if asHost then t.rooms[r.session].row.host else r.requester) then Deny(t, JoinRequestNotAvailable)
      else if r.status == status then Tx(t, Repeated)
      else if r.status != Pending then Deny(t, JoinRequestNotPending)
      else SettleRequest(t, id, status)
  }

  /** One row of the cleanup's second loop. */
  function ExpireRequest(t: Tables, id: RequestId, now: Time): Tables {
    if id in t.requests && t.requests[id].status == Pending && t.requests[id].expiresAt < now
    then SettleRequest(t, id, Expired).tables else t
  }

  // ------------------------------------------------------------------ members

  function MarkParticipantReady(t: Tables, user: UserId, s: SessionId, now: Time): Tx {
    if s !in t.rooms then Deny(t, SessionNotParticipant) else OnRoom(t, s, ParticipantReady(t.rooms[s], user, now))
  }

  /** leaveRoom. */
  function LeaveSession(t: Tables, user: UserId, s: SessionId): Tx {
    if s !in t.rooms then Deny(t, SessionNotParticipant)
    else
      var tx := LeaveRoom(t.rooms[s], user);
      if tx.reply != Done then Tx(t, tx.reply)
      else Tx(t.(rooms := t.rooms[s := tx.room],
                 reservations := WithoutUser(t.reservations, user, user in t.reservations && ReservedBySession(t.reservations[user], s))), Done)
  }

  // ------------------------------------------------------------------ dialogue

  function ShareTopic(t: Tables, c: Catalog, user: UserId, s: SessionId, content: Content): Tx {
    if s !in t.rooms then Deny(t, SessionNotFound) else OnRoom(t, s, SetShare(t.rooms[s], c, user, content))
  }

  function EntriesOf(ps: map<UserId, Participant>, us: seq<UserId>): (es: seq<Entry>)
    requires forall i :: 0 <= i < |us| ==> us[i] in ps
    ensures |es| == |us| && forall i :: 0 <= i < |us| ==> es[i] == Entry(ps[us[i]].companion, us[i])
  {
    if us == [] then [] else [Entry(ps[us[0]].companion, us[0])] + EntriesOf(ps, us[1..])
  }

  lemma OrderedMembers(ps: map<UserId, Participant>, us: set<UserId>)
    requires us <= ps.Keys
    ensures forall i :: 0 <= i < |Ordered(ps, us)| ==> Ordered(ps, us)[i] in us
    decreases |us|
  {
    if us != {} {
      OrderedMembers(ps, us - {First(ps, us)});
    }
  }

  /** The ready participants of a room in loadParticipants order. The program also drops repeated
      companions, which the unique index (sessionId, networkCompanionId) already excludes. */
  function Entries(room: Room): seq<Entry> {
    OrderedMembers(room.participants, ReadyUsers(room));
    EntriesOf(room.participants, Ordered(room.participants, ReadyUsers(room)))
  }

  /** A dialogue transaction: the room changes, its reservations go if it ended, and the
      relationships are settled exactly when the shared moment is new. */
  function OnDialogue(t: Tables, s: SessionId, tx: RoomTx): Tx
    requires s in t.rooms
  {
    var before, after := t.rooms[s], tx.room;
    var ended := Live(before.row.state) && !Live(after.row.state);
    var booked := before.moment.None? && after.moment.Some?;
    Tx(t.(rooms := t.rooms[s := after],
          reservations := if ended then WithoutSession(t.reservations, s) else t.reservations,
          ledger := if booked then SettleAll(t.ledger, s, Entries(after), after.turns) else t.ledger),
       tx.reply)
  }

  function Say(t: Tables, c: Catalog, user: UserId, s: SessionId, clientTurnId: string, intent: Intent, message: string, now: Time): Tx {
    if s !in t.rooms then Deny(t, SessionNotFound)
    else OnDialogue(t, s, AppendTurn(t.rooms[s], c, user, clientTurnId, intent, message, now))
  }

  function Finalize(t: Tables, user: UserId, s: SessionId): Tx {
    if s !in t.rooms then Deny(t, SessionNotFound)
    else OnDialogue(t, s, FinalizeMoment(t.rooms[s], user))
  }

  // ------------------------------------------------------------------ runs

  /** Every transaction, with the arguments of its call. `catalog` is whatever accounts,
      friendships, blocks, companions and packs are at that moment: other services change them
      at will between steps. */
  datatype Step =
    | InviteStep(catalog: Catalog, visitor: UserId, host: UserId, available: bool, mode: Mode, choice: TopicChoice, now: Time, ttl: int, invitation: InvitationId)
    | AcceptStep(catalog: Catalog, user: UserId, invitation: InvitationId, now: Time, session: SessionId, hostRow: int, visitorRow: int)
    | RespondStep(user: UserId, invitation: InvitationId, asHost: bool)
    | ExpireInvitationStep(invitation: InvitationId, now: Time)
    | ReadyStep(catalog: Catalog, user: UserId, session: SessionId, now: Time)
    | StartStep(catalog: Catalog, user: UserId, session: SessionId, now: Time)
    | EndStep(user: UserId, session: SessionId, now: Time)
    | CloseStep(session: SessionId, now: Time)
    | RevokeStep(companion: CompanionId, now: Time)
    | RequestStep(catalog: Catalog, user: UserId, session: SessionId, choice: TopicChoice, now: Time, request: RequestId)
    | AdmitStep(catalog: Catalog, user: UserId, request: RequestId, now: Time, row: int)
    | RespondRequestStep(user: UserId, request: RequestId, asHost: bool)
    | ExpireRequestStep(request: RequestId, now: Time)
    | ParticipantReadyStep(user: UserId, session: SessionId, now: Time)
    | LeaveStep(user: UserId, session: SessionId)
    | ShareStep(catalog: Catalog, user: UserId, session: SessionId, content: Content)
    | SayStep(catalog: Catalog, user: UserId, session: SessionId, clientTurnId: string, intent: Intent, message: string, now: Time)
    | FinalizeStep(user: UserId, session: SessionId)

  function Apply(t: Tables, step: Step): Tables {
    match step
    case InviteStep(c, visitor, host, available, mode, choice, now, ttl, id) => CreateInvitation(t, c, visitor, host, available, mode, choice, now, ttl, id).tables
    case AcceptStep(c, user, id, now, s, hostRow, visitorRow) => AcceptInvitation(t, c, user, id, now, s, hostRow, visitorRow).tables
    case RespondStep(user, id, asHost) => RespondToInvitation(t, user, id, asHost).tables
    case ExpireInvitationStep(id, now) => ExpireInvitation(t, id, now)
    case ReadyStep(c, user, s, now) => MarkSessionReady(t, c, user, s, now).tables
    case StartStep(c, user, s, now) => Start(t, c, user, s, now).tables
    case EndStep(user, s, now) => End(t, user, s, now).tables
    case CloseStep(s, now) => CloseSession(t, s, now)
    case RevokeStep(companion, now) => RevokeCompanion(t, companion, now)
    case RequestStep(c, user, s, choice, now, id) => CreateJoinRequest(t, c, user, s, choice, now, id).tables
    case AdmitStep(c, user, id, now, row) => AcceptJoinRequest(t, c, user, id, now, row).tables
    case RespondRequestStep(user, id, asHost) => RespondJoinRequest(t, user, id, asHost).tables
    case ExpireRequestStep(id, now) => ExpireRequest(t, id, now)
    case ParticipantReadyStep(user, s, now) => MarkParticipantReady(t, user, s, now).tables
    case LeaveStep(user, s) => LeaveSession(t, user, s).tables
    case ShareStep(c, user, s, content) => ShareTopic(t, c, user, s, content).tables
    case SayStep(c, user, s, id, intent, message, now) => Say(t, c, user, s, id, intent, message, now).tables
    case FinalizeStep(user, s) => Finalize(t, user, s).tables
  }

  /** The tables after a run: any transactions, by anybody, in any order. */
  function Run(t: Tables, steps: seq<Step>): Tables
    decreases |steps|
  {
    if steps == [] then t else Run(Apply(t, steps[0]), steps[1..])
  }
}
