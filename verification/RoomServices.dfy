/** The methods of src/visit/visit-room.service.ts. */
module RoomServices {
  import opened Common
  import opened Replies
  import opened Catalog
  import opened Rooms
  import V = Visit
  import opened Visit
  import opened VisitDatabase

  class VisitRoomService {
    const db: Database

    constructor (db: Database)
      ensures this.db == db
    {
      this.db := db;
    }

    method CreateJoinRequest(c: Catalog, user: UserId, s: SessionId, choice: TopicChoice, now: Time, id: RequestId) returns (reply: Reply)
      modifies db
      ensures Tx(db.Rows(), reply) == V.CreateJoinRequest(old(db.Rows()), c, user, s, choice, now, id)
    {
      if s !in db.rooms { return Refused(RoomNotJoinable); }
      var room := db.rooms[s];
      if room.row.state != Ready && room.row.state != Active { return Refused(RoomNotJoinable); }
      if user in Present(room) { return Refused(RoomAlreadyParticipant); }
      if |Present(room)| >= room.row.capacity { return Refused(RoomCapacityReached); }
      if user in db.reservations { return Refused(ReservationExists); }
      if room.row.hostCompanion !in c.companions || !c.companions[room.row.hostCompanion].allowJoinRequests {
        return Refused(JoinRequestsDisabled);
      }
      if exists u :: u in Present(room) && !Eligible(c, user, u) { return Refused(RoomNotAvailable); }
      var snapshot := CurrentSnapshot(c, user);
      if !InGoodStanding(c, user) || snapshot.None? || !c.packs[snapshot.value.pack].visual {
        return Refused(ParticipantUnavailable);
      }
      var companion, pack := snapshot.value.companion, snapshot.value.pack;
      if exists u :: u in Present(room) && room.participants[u].companion == companion { return Refused(RoomCompanionDuplicate); }
      if exists r :: r in db.requests && db.requests[r].session == s && db.requests[r].requester == user
                  && db.requests[r].status == Pending && now < db.requests[r].expiresAt {
        return Refused(JoinRequestExists);
      }
      if choice.Unavailable? { return Refused(TopicNotAvailable); }
      if id in db.requests || StatusTaken(db.Rows(), s, user, Pending) { return Refused(UniqueViolation); }
      var topic := if choice.Chosen? then Some(choice.draft) else None;
      var expiresAt := now + JOIN_REQUEST_TTL;
      db.requests := db.requests[id := JoinRequest(s, user, companion, Some(pack), topic, Pending, expiresAt)];
      db.reservations := db.reservations[user := Reservation(companion, Joining(s, id), Some(expiresAt))];
      return Done;
    }

    /** visitReservation.deleteMany({ userId, joinRequestId }) */
    method DeleteJoining(u: UserId, id: RequestId)
      modifies db`reservations
      ensures db.reservations == WithoutUser(old(db.reservations), u, u in old(db.reservations) && ReservedByRequest(old(db.reservations)[u], id))
    {
      if u in db.reservations && ReservedByRequest(db.reservations[u], id) {
        db.reservations := db.reservations - {u};
      }
    }

    method AcceptJoinRequest(c: Catalog, host: UserId, id: RequestId, now: Time, row: int) returns (reply: Reply)
      modifies db
      ensures Tx(db.Rows(), reply) == V.AcceptJoinRequest(old(db.Rows()), c, host, id, now, row)
    {
      if id !in db.requests || db.requests[id].session !in db.rooms { return Refused(JoinRequestNotFound); }
      var r := db.requests[id];
      var s := r.session;
      var room := db.rooms[s];
      if room.row.host != host { return Refused(JoinRequestNotHost); }
      if r.status == Accepted { return Repeated; }
      if r.status != Pending { return Refused(JoinRequestNotPending); }
      var start := db.Rows();
      if r.expiresAt <= now {
        // written, and undone by the exception that follows
        if !StatusTaken(start, s, r.requester, Expired) {
          db.requests := db.requests[id := r.(status := Expired, packRef := None)];
          DeleteJoining(r.requester, id);
        }
        db.Rollback(start);
        return Refused(JoinRequestExpired);
      }
      if room.row.state != Ready && room.row.state != Active { return Refused(RoomNotJoinable); }
      if |Present(room)| >= room.row.capacity { return Refused(RoomCapacityReached); }
      if exists u :: u in Present(room) && !Eligible(c, r.requester, u) { return Refused(RoomNotAvailable); }
      if r.requester !in db.reservations || db.reservations[r.requester].hold != Joining(s, id) { return Refused(ReservationChanged); }
      if r.packRef.None? { return Refused(ParticipantUnavailable); }
      if SeatTaken(room, r.requester, r.companion) { return Refused(UniqueViolation); }
      db.rooms := db.rooms[s := room.(participants := room.participants[r.requester := Participant(row, r.companion, Guest, Arriving, None, now)])];
      if StatusTaken(start, s, r.requester, Accepted) {
        db.Rollback(start);
        return Refused(UniqueViolation);
      }
      db.requests := db.requests[id := r.(status := Accepted, packRef := None)];
      db.reservations := db.reservations[r.requester := db.reservations[r.requester].(hold := Seated(s), expiresAt := None)];
      var topic := UsableTopic(r.topic, Queued);
      if topic.Some? {
        var topics := db.rooms[s].topics;
        db.rooms := db.rooms[s := db.rooms[s].(topics := topics[MaxKey(topics.Keys) + 1 := topic.value])];
      }
      return Done;
    }

    method RespondJoinRequest(user: UserId, id: RequestId, asHost: bool) returns (reply: Reply)
      modifies db
      ensures Tx(db.Rows(), reply) == V.RespondJoinRequest(old(db.Rows()), user, id, asHost)
    {
      var status := if asHost then Declined else Withdrawn;
      if id !in db.requests || db.requests[id].session !in db.rooms { return Refused(JoinRequestNotFound); }
      var r := db.requests[id];
      if user != (if asHost then db.rooms[r.session].row.host else r.requester) { return Refused(JoinRequestNotAvailable); }
      if r.status == status { return Repeated; }
      if r.status != Pending { return Refused(JoinRequestNotPending); }
      if StatusTaken(db.Rows(), r.session, r.requester, status) { return Refused(UniqueViolation); }
      db.requests := db.requests[id := r.(status := status, packRef := None)];
      DeleteJoining(r.requester, id);
      return Done;
    }

    method MarkParticipantReady(user: UserId, s: SessionId, now: Time) returns (reply: Reply)
      modifies db
      ensures Tx(db.Rows(), reply) == V.MarkParticipantReady(old(db.Rows()), user, s, now)
    {
      if s !in db.rooms { return Refused(SessionNotParticipant); }
      var room := db.rooms[s];
      assert forall any :: Tx(db.Rows(), any) == OnRoom(db.Rows(), s, RoomTx(room, any));
      if user !in room.participants { return Refused(SessionNotParticipant); }
      var p := room.participants[user];
      if p.state == Speaking { return Repeated; }
      if p.state == Left { return Refused(ParticipantStateChanged); }
      db.rooms := db.rooms[s := room.(participants := room.participants[user := p.(state := Speaking, readyAt := Some(now))])];
      return Done;
    }

    method LeaveRoom(user: UserId, s: SessionId) returns (reply: Reply)
      modifies db
      ensures Tx(db.Rows(), reply) == LeaveSession(old(db.Rows()), user, s)
    {
      if s !in db.rooms { return Refused(SessionNotParticipant); }
      var room := db.rooms[s];
      if user !in room.participants { return Refused(SessionNotParticipant); }
      if room.row.host == user { return Refused(HostMustEndRoom); }
      var p := room.participants[user];
      if p.state == Left { return Repeated; }
      db.rooms := db.rooms[s := room.(participants := room.participants[user := p.(state := Left)])];
      if user in db.reservations && ReservedBySession(db.reservations[user], s) {
        db.reservations := db.reservations - {user};
      }
      return Done;
    }
  }
}
