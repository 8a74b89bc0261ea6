/** The global invariant of the Visit tables and the lemmas that carry it over every transaction. */
module VisitInvariant {
  import opened Common
  import opened Replies
  import opened Catalog
  import opened Rooms
  import opened RoomInvariant
  import opened Settlement
  import opened Visit

  // ------------------------------------------------------------------ the invariant

  /** A reservation points to what it reserves: a pending invitation of its user, a pending join
      request of its user to a session it is not in, or a live session in which its user is a
      participant who has not left. It names the companion that visits, and expires with what it
      waits for; a seat does not expire. */
  ghost predicate HoldOk(t: Tables, u: UserId, v: Reservation) {
    match v.hold
    case Outgoing(i) =>
      && i in t.invitations && t.invitations[i].status == Pending && t.invitations[i].visitor == u
      && v.companion == t.invitations[i].companion && v.expiresAt == Some(t.invitations[i].expiresAt)
    case Joining(s, r) =>
      && r in t.requests && t.requests[r].status == Pending && t.requests[r].requester == u && t.requests[r].session == s
      && v.companion == t.requests[r].companion && v.expiresAt == Some(t.requests[r].expiresAt)
      && s in t.rooms && t.rooms[s].row.state != Preparing && !IsPresent(t.rooms[s], u)
    case Seated(s) =>
      && LiveRoom(t, s) && IsPresent(t.rooms[s], u)
      && v.companion == t.rooms[s].participants[u].companion && v.expiresAt.None?
  }

  ghost predicate Holds(t: Tables, u: UserId, hold: Hold) {
    u in t.reservations && t.reservations[u].hold == hold
  }

  /** An invitation pins its pack exactly while it is pending, and then its visitor's reservation is
      for it. */
  ghost predicate InvitationOk(t: Tables, id: InvitationId, i: Invitation) {
    && i.visitor != i.host
    && i.packRef == (if i.status == Pending then Some(i.snapshot) else None)
    && (i.status == Pending ==> Holds(t, i.visitor, Outgoing(id)))
  }

  /** A session descends from its own accepted invitation. */
  ghost predicate Descends(t: Tables, row: SessionRow) {
    && row.invitation in t.invitations
    && var i := t.invitations[row.invitation];
       i.status == Accepted && i.visitor == row.visitor && i.host == row.host
       && i.companion == row.companion && i.snapshot == row.snapshot
  }

  /** In a live session every present participant but the visitor holds the seat reservation. */
  ghost predicate SeatsHeld(t: Tables, s: SessionId, room: Room) {
    Live(room.row.state) ==>
      forall u :: IsPresent(room, u) && u != room.row.visitor ==> Holds(t, u, Seated(s))
  }

  /** A join request pins a pack exactly while it is pending, and until its session is over its
      requester's reservation is for it. An accepted one has given its requester a seat. */
  ghost predicate RequestOk(t: Tables, id: RequestId, r: JoinRequest) {
    && r.session in t.rooms && (r.packRef.Some? <==> r.status == Pending)
    && (r.status == Pending && LiveRoom(t, r.session) ==> Holds(t, r.requester, Joining(r.session, id)))
    && (r.status == Accepted ==> r.requester in t.rooms[r.session].participants)
  }

  /** Live sessions are a matching: nobody is owner or host in two of them. */
  ghost predicate Matching(t: Tables) {
    forall s1, s2, u :: LiveRoom(t, s1) && LiveRoom(t, s2) && IsPrincipal(t.rooms[s1], u) && IsPrincipal(t.rooms[s2], u)
      ==> s1 == s2
  }

  ghost predicate OneRoomPerInvitation(t: Tables) {
    forall s1, s2 :: s1 in t.rooms && s2 in t.rooms && t.rooms[s1].row.invitation == t.rooms[s2].row.invitation ==> s1 == s2
  }

  ghost predicate ReservationsOk(t: Tables) {
    && (forall u :: u in t.reservations ==> HoldOk(t, u, t.reservations[u]))
    && (forall i :: i in t.invitations ==> InvitationOk(t, i, t.invitations[i]))
    && (forall s :: s in t.rooms ==> SeatsHeld(t, s, t.rooms[s]))
    && (forall r :: r in t.requests ==> RequestOk(t, r, t.requests[r]))
  }

  ghost predicate SessionsOk(t: Tables) {
    && (forall s :: s in t.rooms ==> RoomOk(t.rooms[s]))
    && (forall s :: s in t.rooms ==> Descends(t, t.rooms[s].row))
    && OneRoomPerInvitation(t) && Matching(t)
  }

  /** What a shared moment has booked: one settlement row per pair of ready companions, with the
      turns of their two users, which together count every turn once per other companion; nothing
      without a moment. */
  ghost predicate BookedOk(l: Ledger, s: SessionId, room: Room) {
    if room.moment.None? then SessionRows(l, s) == {}
    else
      && (forall p :: (s, p) in l.settlements <==> p in Pairs(Entries(room)))
      && RowsCount(l, s, Entries(room), room.turns)
      && Sum(l.settlements, SessionRows(l, s)) == (|Entries(room)| - 1) * |room.turns|
  }

  ghost predicate SettlementsOk(t: Tables) {
    && LedgerOk(t.ledger)
    && (forall k :: k in t.ledger.settlements ==> k.0 in t.rooms)
    && (forall s :: s in t.rooms ==> BookedOk(t.ledger, s, t.rooms[s]))
  }

  ghost predicate TablesOk(t: Tables) { ReservationsOk(t) && SessionsOk(t) }

  ghost predicate VisitOk(t: Tables) { TablesOk(t) && SettlementsOk(t) }

  // ------------------------------------------------------------------ facts about one room

  lemma HostIsPresent(room: Room)
    requires RoomOk(room) && Live(room.row.state)
    ensures IsPresent(room, room.row.host) && room.row.host != room.row.visitor
  {
    assert MemberOk(room.row, room.row.host, room.participants[room.row.host]);
  }

  /** The columns of a session row that no transaction changes. */
  ghost predicate SameSession(a: SessionRow, b: SessionRow) {
    && a.invitation == b.invitation && a.visitor == b.visitor && a.host == b.host
    && a.companion == b.companion && a.snapshot == b.snapshot
  }

  // ------------------------------------------------------------------ frames

  /** What one room's transaction may do without touching any reservation: nobody but the visitor
      appears in it, nobody leaves it, and it stays live if it was. */
  ghost predicate Quiet(room: Room, r: Room) {
    && SameSession(room.row, r.row) && Live(r.row.state) == Live(room.row.state)
    && (forall u :: IsPresent(room, u) ==> IsPresent(r, u) && r.participants[u].companion == room.participants[u].companion)
    && (forall u :: IsPresent(r, u) && (u != r.row.visitor || room.row.state != Preparing) ==> IsPresent(room, u))
    && (r.row.state == Preparing ==> room.row.state == Preparing)
    && room.participants.Keys <= r.participants.Keys
  }

  lemma QuietReservations(t: Tables, s: SessionId, r: Room, l: Ledger)
    requires ReservationsOk(t) && s in t.rooms && Quiet(t.rooms[s], r)
    ensures ReservationsOk(t.(rooms := t.rooms[s := r], ledger := l))
  {
    var t' := t.(rooms := t.rooms[s := r], ledger := l);
    forall u | u in t'.reservations ensures HoldOk(t', u, t'.reservations[u]) {
      assert HoldOk(t, u, t.reservations[u]);
    }
    forall i | i in t'.invitations ensures InvitationOk(t', i, t'.invitations[i]) {
      assert InvitationOk(t, i, t.invitations[i]);
    }
    forall q | q in t'.rooms ensures SeatsHeld(t', q, t'.rooms[q]) {
      assert SeatsHeld(t, q, t.rooms[q]);
    }
    forall q | q in t'.requests ensures RequestOk(t', q, t'.requests[q]) {
      assert RequestOk(t, q, t.requests[q]);
    }
  }

  lemma RoomSessions(t: Tables, s: SessionId, r: Room)
    requires SessionsOk(t) && s in t.rooms && RoomOk(r)
    requires SameSession(t.rooms[s].row, r.row) && (Live(r.row.state) ==> Live(t.rooms[s].row.state))
    ensures SessionsOk(t.(rooms := t.rooms[s := r]))
  {
    hide RoomOk;
    var t' := t.(rooms := t.rooms[s := r]);
    forall q | q in t'.rooms ensures Descends(t', t'.rooms[q].row) {
      assert Descends(t, t.rooms[q].row);
    }
    forall s1, s2, u | LiveRoom(t', s1) && LiveRoom(t', s2) && IsPrincipal(t'.rooms[s1], u) && IsPrincipal(t'.rooms[s2], u)
      ensures s1 == s2
    {
      assert LiveRoom(t, s1) && LiveRoom(t, s2) && IsPrincipal(t.rooms[s1], u) && IsPrincipal(t.rooms[s2], u);
    }
  }

  /** SessionsOk looks at rooms and invitations only, and at an invitation only once it is accepted. */
  lemma SessionsFrame(t: Tables, t': Tables)
    requires SessionsOk(t) && t'.rooms == t.rooms
    requires forall i :: i in t.invitations && t.invitations[i].status == Accepted ==>
      i in t'.invitations && t'.invitations[i] == t.invitations[i]
    ensures SessionsOk(t')
  {
    hide RoomOk;
    forall q | q in t'.rooms ensures Descends(t', t'.rooms[q].row) {
      assert Descends(t, t.rooms[q].row);
    }
    forall s1, s2, u | LiveRoom(t', s1) && LiveRoom(t', s2) && IsPrincipal(t'.rooms[s1], u) && IsPrincipal(t'.rooms[s2], u)
      ensures s1 == s2
    {
      assert LiveRoom(t, s1) && LiveRoom(t, s2);
    }
  }

  // ------------------------------------------------------------------ release

  /** The room is over, with its members still on record. */
  ghost predicate Over(room: Room, r: Room) {
    && SameSession(room.row, r.row) && !Live(r.row.state) && room.participants.Keys <= r.participants.Keys
    && (forall u :: IsPresent(r, u) ==> IsPresent(room, u))
  }

  /** Pending invitations `ids` are settled with `status`, the sessions `ss` are over, and every
      reservation that points to one of them is gone. */
  ghost predicate Release(t: Tables, t': Tables, ids: set<InvitationId>, status: Status, ss: set<SessionId>) {
    && status != Pending && status != Accepted
    && t'.requests == t.requests
    && t'.invitations.Keys == t.invitations.Keys
    && (forall i :: i in t.invitations ==>
          if i in ids then t.invitations[i].status == Pending && t'.invitations[i] == Settle(t.invitations[i], status)
          else t'.invitations[i] == t.invitations[i])
    && t'.rooms.Keys == t.rooms.Keys
    && (forall s :: s in t.rooms ==>
          if s in ss then Over(t.rooms[s], t'.rooms[s]) && RoomOk(t'.rooms[s])
          else t'.rooms[s] == t.rooms[s])
    && (forall u :: u in t'.reservations <==>
          u in t.reservations && !ReservedByInvitation(t.reservations[u], ids) && !ReservedByAny(t.reservations[u], ss))
    && (forall u :: u in t'.reservations ==> t'.reservations[u] == t.reservations[u])
  }

  lemma ReleaseReservations(t: Tables, t': Tables, ids: set<InvitationId>, status: Status, ss: set<SessionId>)
    requires ReservationsOk(t) && Release(t, t', ids, status, ss)
    ensures ReservationsOk(t')
  {
    hide RoomOk, SameSession;
    forall u | u in t'.reservations ensures HoldOk(t', u, t'.reservations[u]) {
      assert HoldOk(t, u, t.reservations[u]);
    }
    forall i | i in t'.invitations ensures InvitationOk(t', i, t'.invitations[i]) {
      assert InvitationOk(t, i, t.invitations[i]);
    }
    forall q | q in t'.rooms ensures SeatsHeld(t', q, t'.rooms[q]) {
      assert SeatsHeld(t, q, t.rooms[q]);
    }
    forall q | q in t'.requests ensures RequestOk(t', q, t'.requests[q]) {
      assert RequestOk(t, q, t.requests[q]);
    }
  }

  lemma ReleaseSessions(t: Tables, t': Tables, ids: set<InvitationId>, status: Status, ss: set<SessionId>)
    requires SessionsOk(t) && Release(t, t', ids, status, ss)
    ensures SessionsOk(t')
  {
    hide RoomOk;
    forall q | q in t'.rooms ensures RoomOk(t'.rooms[q]) && Descends(t', t'.rooms[q].row) {
      assert RoomOk(t.rooms[q]) && Descends(t, t.rooms[q].row);
    }
    forall s1, s2, u | LiveRoom(t', s1) && LiveRoom(t', s2) && IsPrincipal(t'.rooms[s1], u) && IsPrincipal(t'.rooms[s2], u)
      ensures s1 == s2
    {
      assert LiveRoom(t, s1) && LiveRoom(t, s2) && t'.rooms[s1] == t.rooms[s1] && t'.rooms[s2] == t.rooms[s2];
    }
    forall s1, s2 | s1 in t'.rooms && s2 in t'.rooms && t'.rooms[s1].row.invitation == t'.rooms[s2].row.invitation
      ensures s1 == s2
    {
      assert t'.rooms[s1].row.invitation == t.rooms[s1].row.invitation;
      assert t'.rooms[s2].row.invitation == t.rooms[s2].row.invitation;
    }
  }

  /** Deleting by user and invitation id is deleting by invitation id: nobody else holds it. */
  lemma OneHolder(t: Tables, i: InvitationId)
    requires ReservationsOk(t) && i in t.invitations
    ensures var u := t.invitations[i].visitor;
            WithoutUser(t.reservations, u, u in t.reservations && ReservedByInvitation(t.reservations[u], {i}))
            == WithoutInvitations(t.reservations, {i})
  {
    var u := t.invitations[i].visitor;
    forall v | v in t.reservations && ReservedByInvitation(t.reservations[v], {i}) ensures v == u {
      assert HoldOk(t, v, t.reservations[v]);
    }
  }

  lemma SettledInvitationReleases(t: Tables, i: InvitationId, status: Status)
    requires i in t.invitations && t.invitations[i].status == Pending && status != Pending && status != Accepted
    ensures Release(t, t.(invitations := t.invitations[i := Settle(t.invitations[i], status)],
                          reservations := WithoutInvitations(t.reservations, {i})), {i}, status, {})
  {
  }

  lemma EndedRoomReleases(t: Tables, s: SessionId, r: Room)
    requires s in t.rooms && Over(t.rooms[s], r) && RoomOk(r)
    ensures Release(t, Released(t, s, r), {}, Declined, {s})
  {
    hide RoomOk;
  }

  // ------------------------------------------------------------------ transactions: invitations

  lemma InviteReservations(t: Tables, id: InvitationId, i: Invitation, r: Reservation)
    requires ReservationsOk(t) && id !in t.invitations && i.visitor !in t.reservations
    requires i.status == Pending && i.visitor != i.host && i.packRef == Some(i.snapshot)
    requires r == Reservation(i.companion, Outgoing(id), Some(i.expiresAt))
    ensures ReservationsOk(t.(invitations := t.invitations[id := i], reservations := t.reservations[i.visitor := r]))
  {
    var t' := t.(invitations := t.invitations[id := i], reservations := t.reservations[i.visitor := r]);
    forall u | u in t'.reservations ensures HoldOk(t', u, t'.reservations[u]) {
      assert u == i.visitor || HoldOk(t, u, t.reservations[u]);
    }
    forall j | j in t'.invitations ensures InvitationOk(t', j, t'.invitations[j]) {
      assert j == id || InvitationOk(t, j, t.invitations[j]);
    }
    forall q | q in t'.rooms ensures SeatsHeld(t', q, t'.rooms[q]) {
      assert SeatsHeld(t, q, t.rooms[q]);
    }
    forall q | q in t'.requests ensures RequestOk(t', q, t'.requests[q]) {
      assert RequestOk(t, q, t.requests[q]);
    }
  }

  lemma CreateInvitationKeeps(t: Tables, c: Catalog, visitor: UserId, host: UserId, available: bool,
                              mode: Mode, choice: TopicChoice, now: Time, ttl: int, id: InvitationId)
    requires ReservationsOk(t) && SessionsOk(t)
    ensures var t' := CreateInvitation(t, c, visitor, host, available, mode, choice, now, ttl, id).tables;
            ReservationsOk(t') && SessionsOk(t') && t'.rooms == t.rooms && t'.ledger == t.ledger
  {
    hide ReservationsOk, SessionsOk;
    var tx := CreateInvitation(t, c, visitor, host, available, mode, choice, now, ttl, id);
    if tx.reply == Done {
      InviteReservations(t, id, tx.tables.invitations[id], tx.tables.reservations[visitor]);
      SessionsFrame(t, tx.tables);
    }
  }

  // ------------------------------------------------------------------ transactions: acceptance

  /** The tables acceptInvitation leaves before it declines the host's other invitations. */
  ghost function Accepting(t: Tables, id: InvitationId, s: SessionId, room: Room, companion: CompanionId): Tables
    requires id in t.invitations && t.invitations[id].visitor in t.reservations
  {
    var i := t.invitations[id];
    t.(invitations := t.invitations[id := Settle(i, Accepted)],
       rooms := t.rooms[s := room],
       reservations := t.reservations[i.visitor := t.reservations[i.visitor].(hold := Seated(s), expiresAt := None)]
                                     [i.host := Reservation(companion, Seated(s), None)])
  }

  ghost predicate Fresh(t: Tables, id: InvitationId, s: SessionId, room: Room) {
    && id in t.invitations && t.invitations[id].status == Pending && s !in t.rooms && !HasSession(t, id)
    && room.row.invitation == id && room.row.visitor == t.invitations[id].visitor && room.row.host == t.invitations[id].host
    && room.row.companion == t.invitations[id].companion && room.row.snapshot == t.invitations[id].snapshot
    && room.row.state == Preparing
    && (forall u :: IsPresent(room, u) <==> u == room.row.visitor || u == room.row.host)
    && Holds(t, room.row.visitor, Outgoing(id)) && room.row.host !in t.reservations
    && room.row.visitor in room.participants && room.row.host in room.participants
    && room.participants[room.row.visitor].companion == room.row.companion
  }

  lemma AcceptingReservations(t: Tables, id: InvitationId, s: SessionId, room: Room, companion: CompanionId)
    requires ReservationsOk(t) && Fresh(t, id, s, room) && room.participants[room.row.host].companion == companion
    ensures ReservationsOk(Accepting(t, id, s, room, companion))
  {
    var t' := Accepting(t, id, s, room, companion);
    assert InvitationOk(t, id, t.invitations[id]);
    forall u | u in t'.reservations ensures HoldOk(t', u, t'.reservations[u]) {
      if u != room.row.visitor && u != room.row.host {
        assert HoldOk(t, u, t.reservations[u]);
      }
    }
    forall j | j in t'.invitations ensures InvitationOk(t', j, t'.invitations[j]) {
      assert InvitationOk(t, j, t.invitations[j]);
    }
    forall q | q in t'.rooms ensures SeatsHeld(t', q, t'.rooms[q]) {
      assert q == s || SeatsHeld(t, q, t.rooms[q]);
    }
    forall q | q in t'.requests ensures RequestOk(t', q, t'.requests[q]) {
      assert RequestOk(t, q, t.requests[q]);
    }
  }

  /** The host of every live session holds the reservation for exactly that session. */
  lemma HostHolds(t: Tables, s: SessionId)
    requires ReservationsOk(t) && SessionsOk(t) && LiveRoom(t, s)
    ensures Holds(t, t.rooms[s].row.host, Seated(s))
  {
    hide RoomOk;
    HostIsPresent(t.rooms[s]);
    assert SeatsHeld(t, s, t.rooms[s]);
  }

  /** The heart of the matching: a host without a reservation hosts no live session, so the
      capacity test of acceptInvitation, which comes after the reservation test, counts none. */
  lemma FreeHost(t: Tables, host: UserId)
    requires ReservationsOk(t) && SessionsOk(t) && host !in t.reservations
    ensures LiveHostedBy(t, host) == {}
  {
    forall s | s in t.rooms ensures s !in LiveHostedBy(t, host) {
      if LiveRoom(t, s) {
        HostHolds(t, s);
      }
    }
    hide ReservationsOk, SessionsOk;
  }

  lemma AcceptingSessions(t: Tables, id: InvitationId, s: SessionId, room: Room, companion: CompanionId)
    requires SessionsOk(t) && Fresh(t, id, s, room) && RoomOk(room)
    requires LiveHostedBy(t, room.row.visitor) == {} && LiveVisitsBy(t, room.row.visitor) == {}
    requires LiveHostedBy(t, room.row.host) == {} && LiveVisitsBy(t, room.row.host) == {}
    ensures SessionsOk(Accepting(t, id, s, room, companion))
  {
    hide RoomOk;
    var t' := Accepting(t, id, s, room, companion);
    forall q | q in t'.rooms ensures Descends(t', t'.rooms[q].row) {
      assert q == s || Descends(t, t.rooms[q].row);
    }
    forall q, u | LiveRoom(t, q) && IsPrincipal(t.rooms[q], u) ensures !IsPrincipal(room, u) {
      assert q in LiveHostedBy(t, u) || q in LiveVisitsBy(t, u);
    }
    forall q | LiveRoom(t', q) && q != s ensures LiveRoom(t, q) {}
  }

  lemma NewRoomOk(i: Invitation, id: InvitationId, hostCompanion: CompanionId, hostRow: int, visitorRow: int, now: Time)
    requires i.visitor != i.host && i.companion != hostCompanion
    ensures RoomOk(NewRoom(i, id, hostCompanion, hostRow, visitorRow, now))
    ensures var room := NewRoom(i, id, hostCompanion, hostRow, visitorRow, now);
            && (forall u :: IsPresent(room, u) <==> u == i.visitor || u == i.host)
            && room.moment.None?
  {
    var room := NewRoom(i, id, hostCompanion, hostRow, visitorRow, now);
    assert Present(room) == {i.visitor, i.host};
    assert TurnsOn(room.turns, 1) == {};
    assert Live(room.row.state);
  }

  /** Declining the host's other pending invitations. */
  lemma DisplaceReleases(t: Tables, ids: set<InvitationId>)
    requires forall i :: i in ids ==> i in t.invitations && t.invitations[i].status == Pending
    ensures Release(t, t.(invitations := SettleInvitations(t.invitations, ids, Declined),
                          reservations := WithoutInvitations(t.reservations, ids)), ids, Declined, {})
  {
  }

  lemma AcceptedTables(t: Tables, c: Catalog, host: UserId, id: InvitationId, now: Time, s: SessionId, hostRow: int, visitorRow: int)
    requires ReservationsOk(t) && AcceptInvitation(t, c, host, id, now, s, hostRow, visitorRow).reply == Done
    ensures var i := t.invitations[id]; var companion := HostCompanion(c, i).0;
            && companion.Some? && companion.value != i.companion
            && AcceptanceRefusal(t, c, i, id).None? && s !in t.rooms && !HasSession(t, id)
            && Fresh(t, id, s, NewRoom(i, id, companion.value, hostRow, visitorRow, now))
            && var mid := Accepting(t, id, s, NewRoom(i, id, companion.value, hostRow, visitorRow, now), companion.value);
               AcceptInvitation(t, c, host, id, now, s, hostRow, visitorRow).tables
               == mid.(invitations := SettleInvitations(mid.invitations, PendingFor(t, i.host, id), Declined),
                       reservations := WithoutInvitations(mid.reservations, PendingFor(t, i.host, id)))
  {
    var i := t.invitations[id];
    assert InvitationOk(t, id, i);
    NewRoomOk(i, id, HostCompanion(c, i).0.value, hostRow, visitorRow, now);
  }

  lemma AcceptInvitationKeeps(t: Tables, c: Catalog, host: UserId, id: InvitationId, now: Time,
                              s: SessionId, hostRow: int, visitorRow: int)
    requires ReservationsOk(t) && SessionsOk(t)
    ensures var t' := AcceptInvitation(t, c, host, id, now, s, hostRow, visitorRow).tables;
            ReservationsOk(t') && SessionsOk(t')
  {
    hide ReservationsOk, SessionsOk, RoomOk, Release, AcceptInvitation;
    var tx := AcceptInvitation(t, c, host, id, now, s, hostRow, visitorRow);
    if tx.reply == Done {
      AcceptedTables(t, c, host, id, now, s, hostRow, visitorRow);
      var i := t.invitations[id];
      var companion := HostCompanion(c, i).0.value;
      var room := NewRoom(i, id, companion, hostRow, visitorRow, now);
      NewRoomOk(i, id, companion, hostRow, visitorRow, now) by { InvitationParties(t, id); }
      FreeHost(t, i.host);
      AcceptingReservations(t, id, s, room, companion);
      AcceptingSessions(t, id, s, room, companion);
      var mid := Accepting(t, id, s, room, companion);
      DisplaceReleases(mid, PendingFor(t, i.host, id));
      ReleaseReservations(mid, tx.tables, PendingFor(t, i.host, id), Declined, {});
      ReleaseSessions(mid, tx.tables, PendingFor(t, i.host, id), Declined, {});
    } else {
      NotAcceptedTables(t, c, host, id, now, s, hostRow, visitorRow);
      if tx.tables != t {
        SettledInvitationReleases(t, id, Expired);
        ReleaseReservations(t, tx.tables, {id}, Expired, {});
        ReleaseSessions(t, tx.tables, {id}, Expired, {});
      }
    }
  }

  lemma InvitationParties(t: Tables, id: InvitationId)
    requires ReservationsOk(t) && id in t.invitations
    ensures t.invitations[id].visitor != t.invitations[id].host
  {
    assert InvitationOk(t, id, t.invitations[id]);
  }

  /** A refused acceptance changes nothing, except that an expired invitation is settled. */
  lemma NotAcceptedTables(t: Tables, c: Catalog, host: UserId, id: InvitationId, now: Time, s: SessionId, hostRow: int, visitorRow: int)
    requires ReservationsOk(t) && AcceptInvitation(t, c, host, id, now, s, hostRow, visitorRow).reply != Done
    ensures var tx := AcceptInvitation(t, c, host, id, now, s, hostRow, visitorRow);
            tx.tables == t
            || (&& tx.reply == Refused(InvitationExpired) && id in t.invitations && t.invitations[id].status == Pending
                && tx.tables == t.(invitations := t.invitations[id := Settle(t.invitations[id], Expired)],
                                   reservations := WithoutInvitations(t.reservations, {id})))
  {
    if id in t.invitations {
      OneHolder(t, id);
    }
    hide ReservationsOk, AcceptanceRefusal, HostCompanion;
  }

  lemma RespondToInvitationKeeps(t: Tables, user: UserId, id: InvitationId, asHost: bool)
    requires ReservationsOk(t) && SessionsOk(t)
    ensures var t' := RespondToInvitation(t, user, id, asHost).tables;
            ReservationsOk(t') && SessionsOk(t') && t'.rooms == t.rooms && t'.ledger == t.ledger
  {
    var t' := RespondToInvitation(t, user, id, asHost).tables;
    if id in t.invitations {
      OneHolder(t, id);
    }
    hide ReservationsOk, SessionsOk, Release;
    if t' != t {
      var status := if asHost then Declined else Withdrawn;
      SettledInvitationReleases(t, id, status);
      ReleaseReservations(t, t', {id}, status, {});
      ReleaseSessions(t, t', {id}, status, {});
    }
  }

  lemma ExpireInvitationKeeps(t: Tables, id: InvitationId, now: Time)
    requires ReservationsOk(t) && SessionsOk(t)
    ensures var t' := ExpireInvitation(t, id, now);
            ReservationsOk(t') && SessionsOk(t') && t'.rooms == t.rooms && t'.ledger == t.ledger
  {
    hide ReservationsOk, SessionsOk, Release;
    var t' := ExpireInvitation(t, id, now);
    if t' != t {
      SettledInvitationReleases(t, id, Expired);
      ReleaseReservations(t, t', {id}, Expired, {});
      ReleaseSessions(t, t', {id}, Expired, {});
    }
  }

  // ------------------------------------------------------------------ transactions: one room

  /** A quiet transaction on a room. */
  lemma QuietKeeps(t: Tables, s: SessionId, r: Room)
    requires ReservationsOk(t) && SessionsOk(t) && s in t.rooms && Quiet(t.rooms[s], r) && RoomOk(r)
    ensures ReservationsOk(t.(rooms := t.rooms[s := r])) && SessionsOk(t.(rooms := t.rooms[s := r]))
  {
    QuietReservations(t, s, r, t.ledger);
    RoomSessions(t, s, r);
    hide ReservationsOk, SessionsOk;
  }

  /** A transaction that ends a room and releases its reservations. */
  lemma ReleasedKeeps(t: Tables, s: SessionId, r: Room)
    requires ReservationsOk(t) && SessionsOk(t) && s in t.rooms
    requires Over(t.rooms[s], r) && RoomOk(r)
    ensures ReservationsOk(Released(t, s, r)) && SessionsOk(Released(t, s, r))
  {
    hide ReservationsOk, SessionsOk, Release, RoomOk;
    EndedRoomReleases(t, s, r);
    ReleaseReservations(t, Released(t, s, r), {}, Declined, {s});
    ReleaseSessions(t, Released(t, s, r), {}, Declined, {s});
  }

  lemma MarkReadyQuiet(room: Room, c: Catalog, user: UserId, now: Time)
    requires RoomOk(room)
    ensures Quiet(room, MarkReady(room, c, user, now).room)
    ensures MarkReady(room, c, user, now).room.moment == room.moment
    ensures room.moment.Some? ==> MarkReady(room, c, user, now).room == room
  {
    hide RoomOk, Eligible;
    MomentOnlyAfterOk(room);
    if room.row.state == Preparing && user == room.row.host {
      HostIsPresent(room);
    }
  }

  lemma StartQuiet(room: Room, c: Catalog, user: UserId, now: Time)
    requires RoomOk(room)
    ensures Quiet(room, StartSession(room, c, user, now).room)
    ensures StartSession(room, c, user, now).room.moment == room.moment
    ensures room.moment.Some? ==> StartSession(room, c, user, now).room == room
  {
    hide RoomOk, Eligible;
    MomentOnlyAfterOk(room);
  }

  lemma ParticipantReadyQuiet(room: Room, user: UserId, now: Time)
    requires RoomOk(room)
    ensures Quiet(room, ParticipantReady(room, user, now).room)
    ensures ParticipantReady(room, user, now).room.moment == room.moment
    ensures room.moment.Some? ==> ParticipantReady(room, user, now).room == room
  {
    hide RoomOk;
    MomentOnlyAfterOk(room);
    if user in room.participants {
      MemberIs(room, user);
    }
  }

  lemma SetShareQuiet(room: Room, c: Catalog, user: UserId, content: Content)
    requires RoomOk(room)
    ensures Quiet(room, SetShare(room, c, user, content).room)
    ensures SetShare(room, c, user, content).room.moment == room.moment
    ensures room.moment.Some? ==> SetShare(room, c, user, content).room == room
  {
    MomentOnlyAfter(room);
    hide RoomOk;
  }

  lemma FinalizeQuiet(room: Room, user: UserId)
    ensures Quiet(room, FinalizeMoment(room, user).room)
    ensures room.moment.Some? ==> FinalizeMoment(room, user).room == room
    ensures FinalizeMoment(room, user).room == room.(moment := FinalizeMoment(room, user).room.moment)
  {
  }

  lemma CloseLiveSame(room: Room, now: Time)
    requires RoomOk(room)
    ensures Live(room.row.state) ==> Over(room, CloseLive(room, now))
    ensures CloseLive(room, now).moment == room.moment
    ensures room.moment.Some? ==> CloseLive(room, now) == room
  {
    MomentOnlyAfter(room);
    hide RoomOk;
  }

  lemma EndSessionSame(room: Room, user: UserId, now: Time)
    requires RoomOk(room) && !EndSession(room, user, now).reply.Refused?
    ensures Over(room, EndSession(room, user, now).room)
    ensures EndSession(room, user, now).room.moment == room.moment
    ensures room.moment.Some? ==> EndSession(room, user, now).room == room
  {
    MomentOnlyAfter(room);
    if Terminal(room.row.state) {
      OverIsLeft(room);
    }
    hide RoomOk;
  }

  // ------------------------------------------------------------------ transactions: joining

  lemma RequestReservations(t: Tables, id: RequestId, r: JoinRequest, v: Reservation)
    requires ReservationsOk(t) && id !in t.requests && r.requester !in t.reservations
    requires r.session in t.rooms && t.rooms[r.session].row.state != Preparing && !IsPresent(t.rooms[r.session], r.requester)
    requires r.status == Pending && r.packRef.Some? && v == Reservation(r.companion, Joining(r.session, id), Some(r.expiresAt))
    ensures ReservationsOk(t.(requests := t.requests[id := r], reservations := t.reservations[r.requester := v]))
  {
    var t' := t.(requests := t.requests[id := r], reservations := t.reservations[r.requester := v]);
    forall u | u in t'.reservations ensures HoldOk(t', u, t'.reservations[u]) {
      assert u == r.requester || HoldOk(t, u, t.reservations[u]);
    }
    forall j | j in t'.invitations ensures InvitationOk(t', j, t'.invitations[j]) {
      assert InvitationOk(t, j, t.invitations[j]);
    }
    forall q | q in t'.rooms ensures SeatsHeld(t', q, t'.rooms[q]) {
      assert SeatsHeld(t, q, t.rooms[q]);
    }
    forall q | q in t'.requests ensures RequestOk(t', q, t'.requests[q]) {
      assert q == id || RequestOk(t, q, t.requests[q]);
    }
  }

  lemma CreateJoinRequestKeeps(t: Tables, c: Catalog, user: UserId, s: SessionId, choice: TopicChoice, now: Time, id: RequestId)
    requires ReservationsOk(t) && SessionsOk(t)
    ensures var t' := CreateJoinRequest(t, c, user, s, choice, now, id).tables;
            ReservationsOk(t') && SessionsOk(t') && t'.rooms == t.rooms && t'.ledger == t.ledger
  {
    hide ReservationsOk, SessionsOk, CurrentSnapshot, Eligible, InGoodStanding, StatusTaken;
    var tx := CreateJoinRequest(t, c, user, s, choice, now, id);
    if tx.reply == Done {
      RequestReservations(t, id, tx.tables.requests[id], tx.tables.reservations[user]);
      SessionsFrame(t, tx.tables);
    }
  }

  lemma SeatReservations(t: Tables, id: RequestId, room: Room, v: Reservation)
    requires ReservationsOk(t) && id in t.requests && t.requests[id].session in t.rooms && t.requests[id].status == Pending
    requires var r := t.requests[id];
             && Holds(t, r.requester, Joining(r.session, id)) && v == Reservation(r.companion, Seated(r.session), None)
             && (forall u :: IsPresent(t.rooms[r.session], u) ==> u in room.participants && room.participants[u].companion == t.rooms[r.session].participants[u].companion)
             && r.requester in room.participants && room.participants[r.requester].companion == r.companion
             && Live(t.rooms[r.session].row.state) && Live(room.row.state) && SameSession(t.rooms[r.session].row, room.row)
             && room.row.state == t.rooms[r.session].row.state
             && t.rooms[r.session].participants.Keys + {r.requester} <= room.participants.Keys
             && forall u :: IsPresent(room, u) <==> IsPresent(t.rooms[r.session], u) || u == r.requester
    ensures var r := t.requests[id];
            ReservationsOk(t.(rooms := t.rooms[r.session := room],
                              requests := t.requests[id := r.(status := Accepted, packRef := None)],
                              reservations := t.reservations[r.requester := v]))
  {
    var r := t.requests[id];
    var t' := t.(rooms := t.rooms[r.session := room],
                 requests := t.requests[id := r.(status := Accepted, packRef := None)],
                 reservations := t.reservations[r.requester := v]);
    forall u | u in t'.reservations ensures HoldOk(t', u, t'.reservations[u]) {
      assert u == r.requester || HoldOk(t, u, t.reservations[u]);
    }
    forall j | j in t'.invitations ensures InvitationOk(t', j, t'.invitations[j]) {
      assert InvitationOk(t, j, t.invitations[j]);
    }
    forall q | q in t'.rooms ensures SeatsHeld(t', q, t'.rooms[q]) {
      assert SeatsHeld(t, q, t.rooms[q]);
    }
    forall q | q in t'.requests ensures RequestOk(t', q, t'.requests[q]) {
      assert RequestOk(t, q, t.requests[q]);
    }
  }

  /** The room an accepted join request leaves. */
  lemma AdmittedRoom(t: Tables, c: Catalog, host: UserId, id: RequestId, now: Time, row: int)
    requires SessionsOk(t) && AcceptJoinRequest(t, c, host, id, now, row).reply == Done
    ensures id in t.requests && t.requests[id].session in t.rooms && t.requests[id].status == Pending
    ensures var r := t.requests[id]; var old_ := t.rooms[r.session];
            var room := AcceptJoinRequest(t, c, host, id, now, row).tables.rooms[r.session];
            && RoomOk(room) && SameSession(old_.row, room.row) && room.row == old_.row && Live(old_.row.state)
            && room.moment.None? && old_.moment.None?
            && (forall u :: IsPresent(room, u) <==> IsPresent(old_, u) || u == r.requester)
            && old_.participants.Keys + {r.requester} <= room.participants.Keys
            && (forall u :: IsPresent(old_, u) ==> room.participants[u].companion == old_.participants[u].companion)
            && room.participants[r.requester].companion == r.companion
            && Holds(t, r.requester, Joining(r.session, id))
    ensures AcceptJoinRequest(t, c, host, id, now, row).tables ==
            var r := t.requests[id];
            t.(rooms := t.rooms[r.session := AcceptJoinRequest(t, c, host, id, now, row).tables.rooms[r.session]],
               requests := t.requests[id := r.(status := Accepted, packRef := None)],
               reservations := t.reservations[r.requester := t.reservations[r.requester].(hold := Seated(r.session), expiresAt := None)])
  {
    hide RoomOk, Eligible, StatusTaken, Descends, Matching, OneRoomPerInvitation;
    var r := t.requests[id];
    var room := t.rooms[r.session];
    MomentOnlyAfterOk(room);
    SeatPreserves(room, r.requester, Participant(row, r.companion, Guest, Arriving, None, now), UsableTopic(r.topic, Queued));
  }

  lemma MomentOnlyAfterOk(room: Room)
    requires RoomOk(room)
    ensures room.moment.Some? ==> room.row.state == Ended
  {
    MomentOnlyAfter(room);
  }

  lemma AcceptJoinRequestKeeps(t: Tables, c: Catalog, host: UserId, id: RequestId, now: Time, row: int)
    requires ReservationsOk(t) && SessionsOk(t)
    ensures var t' := AcceptJoinRequest(t, c, host, id, now, row).tables;
            ReservationsOk(t') && SessionsOk(t')
  {
    hide ReservationsOk, SessionsOk, RoomOk, AcceptJoinRequest;
    var tx := AcceptJoinRequest(t, c, host, id, now, row);
    if tx.reply == Done {
      AdmittedRoom(t, c, host, id, now, row);
      var r := t.requests[id];
      var room := tx.tables.rooms[r.session];
      WaitingCompanion(t, r.requester);
      SeatReservations(t, id, room, t.reservations[r.requester].(hold := Seated(r.session), expiresAt := None));
      RoomSessions(t, r.session, room);
      SessionsFrame(t.(rooms := t.rooms[r.session := room]), tx.tables);
    } else {
      NotAdmitted(t, c, host, id, now, row);
    }
  }

  /** Who waits for an admission has reserved the companion of the request. */
  lemma WaitingCompanion(t: Tables, u: UserId)
    requires ReservationsOk(t) && u in t.reservations && t.reservations[u].hold.Joining?
    ensures t.reservations[u].hold.request in t.requests
         && t.reservations[u].companion == t.requests[t.reservations[u].hold.request].companion
  {
    assert HoldOk(t, u, t.reservations[u]);
  }

  lemma NotAdmitted(t: Tables, c: Catalog, host: UserId, id: RequestId, now: Time, row: int)
    requires AcceptJoinRequest(t, c, host, id, now, row).reply != Done
    ensures AcceptJoinRequest(t, c, host, id, now, row).tables == t
  {
    hide Eligible, StatusTaken, SeatTaken;
  }

  lemma SettleRequestKeeps(t: Tables, id: RequestId, status: Status)
    requires ReservationsOk(t) && SessionsOk(t) && id in t.requests && t.requests[id].status == Pending
    requires status != Pending && status != Accepted
    ensures var t' := SettleRequest(t, id, status).tables;
            ReservationsOk(t') && SessionsOk(t') && t'.rooms == t.rooms && t'.ledger == t.ledger
  {
    var t' := SettleRequest(t, id, status).tables;
    if t' != t {
      SettledRequestReservations(t, id, status);
      SessionsFrame(t, t');
      hide ReservationsOk, SessionsOk;
    }
  }

  lemma SettledRequestReservations(t: Tables, id: RequestId, status: Status)
    requires ReservationsOk(t) && id in t.requests && t.requests[id].status == Pending && status != Pending && status != Accepted
    ensures ReservationsOk(SettleRequest(t, id, status).tables)
  {
    hide StatusTaken, SettleRequest, RoomOk, Live;
    var t' := SettleRequest(t, id, status).tables;
    SettledFacts(t, id, status);
    forall u | u in t'.reservations ensures HoldOk(t', u, t'.reservations[u]) {
      assert HoldOk(t, u, t.reservations[u]);
    }
    forall j | j in t'.invitations ensures InvitationOk(t', j, t'.invitations[j]) {
      assert InvitationOk(t, j, t.invitations[j]);
    }
    forall q | q in t'.rooms ensures SeatsHeld(t', q, t'.rooms[q]) {
      assert SeatsHeld(t, q, t.rooms[q]);
    }
    forall q | q in t'.requests ensures RequestOk(t', q, t'.requests[q]) {
      assert RequestOk(t, q, t.requests[q]);
    }
  }

  lemma SettledFacts(t: Tables, id: RequestId, status: Status)
    requires id in t.requests
    ensures var t' := SettleRequest(t, id, status).tables; var r := t.requests[id];
            || t' == t
            || (t'.invitations == t.invitations && t'.rooms == t.rooms && t'.requests == t.requests[id := r.(status := status, packRef := None)]
                && t'.reservations == if r.requester in t.reservations && ReservedByRequest(t.reservations[r.requester], id)
                                      then t.reservations - {r.requester} else t.reservations)
  {
    hide StatusTaken;
  }

  lemma LeaveReservations(t: Tables, user: UserId, s: SessionId)
    requires ReservationsOk(t) && LeaveSession(t, user, s).reply == Done
    ensures ReservationsOk(LeaveSession(t, user, s).tables)
  {
    var t' := LeaveSession(t, user, s).tables;
    forall u | u in t'.reservations ensures HoldOk(t', u, t'.reservations[u]) {
      assert HoldOk(t, u, t.reservations[u]);
    }
    forall j | j in t'.invitations ensures InvitationOk(t', j, t'.invitations[j]) {
      assert InvitationOk(t, j, t.invitations[j]);
    }
    forall q | q in t'.rooms ensures SeatsHeld(t', q, t'.rooms[q]) {
      assert SeatsHeld(t, q, t.rooms[q]);
      forall u | Live(t'.rooms[q].row.state) && IsPresent(t'.rooms[q], u) && u != t'.rooms[q].row.visitor
        ensures Holds(t', u, Seated(q))
      {
        assert IsPresent(t.rooms[q], u);
        assert Holds(t, u, Seated(q));
      }
    }
    forall q | q in t'.requests ensures RequestOk(t', q, t'.requests[q]) {
      assert RequestOk(t, q, t.requests[q]);
    }
  }

  lemma LeaveSame(room: Room, user: UserId)
    requires RoomOk(room)
    ensures LeaveRoom(room, user).room.row == room.row
    ensures LeaveRoom(room, user).room.moment == room.moment
    ensures room.moment.Some? ==> LeaveRoom(room, user).room == room
  {
    hide RoomOk;
    MomentOnlyAfterOk(room);
    if user in room.participants {
      MemberIs(room, user);
    }
  }

  lemma MemberIs(room: Room, u: UserId)
    requires RoomOk(room) && u in room.participants
    ensures MemberOk(room.row, u, room.participants[u])
  {
  }

  lemma LeaveKeeps(t: Tables, user: UserId, s: SessionId)
    requires ReservationsOk(t) && SessionsOk(t)
    ensures var t' := LeaveSession(t, user, s).tables; ReservationsOk(t') && SessionsOk(t')
  {
    var tx := LeaveSession(t, user, s);
    if tx.reply == Done {
      LeaveReservations(t, user, s);
      LeaveRoomPreserves(t.rooms[s], user);
      LeaveSame(t.rooms[s], user);
      hide RoomOk, ReservationsOk;
      RoomSessions(t, s, tx.tables.rooms[s]);
      SessionsFrame(t.(rooms := t.rooms[s := tx.tables.rooms[s]]), tx.tables);
      hide SessionsOk;
    }
  }
}
