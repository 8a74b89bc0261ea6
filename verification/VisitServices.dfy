/** The Visit tables as mutable state. */
module VisitDatabase {
  import opened Common
  import opened Rooms
  import opened Settlement
  import opened Visit

  class Database {
    var invitations: map<InvitationId, Invitation>
    var rooms: map<SessionId, Room>
    var requests: map<RequestId, JoinRequest>
    var reservations: map<UserId, Reservation>
    var ledger: Ledger

    constructor ()
      ensures Rows() == EmptyTables
    {
      invitations, rooms, requests, reservations, ledger := map[], map[], map[], map[], EmptyLedger;
    }

    /** The tables as a value. */
    function Rows(): Tables
      reads this
    {
      Tables(invitations, rooms, requests, reservations, ledger)
    }

    /** A transaction that throws undoes its writes. */
    method Rollback(start: Tables)
      modifies this
      ensures Rows() == start
    {
      invitations, rooms, requests, reservations, ledger :=
        start.invitations, start.rooms, start.requests, start.reservations, start.ledger;
    }
  }
}

/** The methods of src/visit/visit.service.ts. */
module VisitServices {
  import opened Common
  import opened Replies
  import opened Catalog
  import opened Rooms
  import opened Settlement
  import V = Visit
  import opened Visit
  import opened VisitInvariant
  import opened VisitRuns
  import opened VisitSweeps
  import opened JoinRequests
  import opened VisitDatabase
  import RoomAnswers
  import VisitAnswers

  /** findMany with a limit: up to that many rows, each once, in no particular order. */
  method Take(all: set<int>, limit: nat) returns (xs: seq<int>)
    ensures forall x :: x in xs ==> x in all
    ensures forall i, j :: 0 <= i < j < |xs| ==> xs[i] != xs[j]
    ensures |xs| == if |all| <= limit then |all| else limit
  {
    xs := [];
    var rest := all;
    while |xs| < limit && rest != {}
      invariant rest <= all && forall x :: x in xs ==> x in all && x !in rest
      invariant forall i, j :: 0 <= i < j < |xs| ==> xs[i] != xs[j]
      invariant |xs| + |rest| == |all| && |xs| <= limit
    {
      ghost var some := Member(rest);
      var x :| x in rest;
      xs := xs + [x];
      rest := rest - {x};
    }
  }

  class VisitService {
    const db: Database
    var cleanupRunning: bool

    constructor (db: Database)
      ensures this.db == db && !cleanupRunning
    {
      this.db := db;
      cleanupRunning := false;
    }

    method CreateInvitation(c: Catalog, visitor: UserId, host: UserId, available: bool, mode: Mode,
                            choice: TopicChoice, now: Time, ttl: int, id: InvitationId) returns (reply: Reply)
      modifies db
      ensures Tx(db.Rows(), reply) == V.CreateInvitation(old(db.Rows()), c, visitor, host, available, mode, choice, now, ttl, id)
      ensures !RoomAnswers.MayMeet(c, visitor, host) ==> reply.Refused? && db.Rows() == old(db.Rows())
    {
      VisitAnswers.StrangersStayApart(db.Rows(), c, visitor, host, available, mode, choice, now, ttl, id);
      hide RoomAnswers.MayMeet;
      if !available { return Refused(VisitFeatureUnavailable); }
      if visitor == host { return Refused(InvitationNotAvailable); }
      if !Eligible(c, visitor, host) { return Refused(InvitationNotAvailable); }
      if visitor in db.reservations { return Refused(ReservationExists); }
      if LiveHostedBy(db.Rows(), visitor) != {} { return Refused(HostHasActiveGuests); }
      if LiveVisitsBy(db.Rows(), visitor) != {} { return Refused(SessionAlreadyActive); }
      var snapshot := CurrentSnapshot(c, visitor);
      if snapshot.None? { return Refused(InvitationNotAvailable); }
      var companion, pack := snapshot.value.companion, snapshot.value.pack;
      if !c.packs[pack].visual { return Refused(VisualAssetsUnavailable); }
      if choice.Unavailable? { return Refused(TopicNotAvailable); }
      if PendingOnRoute(db.Rows(), visitor, host, companion, now) != {} { return Refused(InvitationAlreadyExists); }
      if id in db.invitations { return Refused(UniqueViolation); }
      var topic := if choice.Chosen? then Some(choice.draft) else None;
      db.invitations := db.invitations[id := Invitation(visitor, host, companion, pack, Some(pack), mode, topic, Pending, now + ttl)];
      db.reservations := db.reservations[visitor := Reservation(companion, Outgoing(id), Some(now + ttl))];
      return Done;
    }

    /** visitReservation.deleteMany({ userId, invitationId }) */
    method DeleteOutgoing(u: UserId, id: InvitationId)
      modifies db`reservations
      ensures db.reservations == WithoutUser(old(db.reservations), u, u in old(db.reservations) && ReservedByInvitation(old(db.reservations)[u], {id}))
    {
      if u in db.reservations && ReservedByInvitation(db.reservations[u], {id}) {
        db.reservations := db.reservations - {u};
      }
    }

    method AcceptInvitation(c: Catalog, host: UserId, id: InvitationId, now: Time, s: SessionId, hostRow: int, visitorRow: int)
      returns (reply: Reply)
      modifies db
      ensures Tx(db.Rows(), reply) == V.AcceptInvitation(old(db.Rows()), c, host, id, now, s, hostRow, visitorRow)
      ensures reply == Done ==> id in old(db.invitations) && RoomAnswers.MayMeet(c, old(db.invitations)[id].visitor, host)
    {
      VisitAnswers.StrangersCannotVisit(db.Rows(), c, host, id, now, s, hostRow, visitorRow);
      hide RoomAnswers.MayMeet;
      if id !in db.invitations { return Refused(InvitationNotFound); }
      var i := db.invitations[id];
      if i.host != host { return Refused(InvitationNotHost); }
      if i.status == Accepted && HasSession(db.Rows(), id) { return Repeated; }
      if i.status != Pending { return Refused(InvitationNotPending); }
      if i.expiresAt <= now {
        db.invitations := db.invitations[id := Settle(i, Expired)];
        DeleteOutgoing(i.visitor, id);
        return Refused(InvitationExpired);
      }
      var start := db.Rows();
      var refusal := AcceptanceRefusal(start, c, i, id);
      if refusal.Some? { return Refused(refusal.value); }
      db.invitations := db.invitations[id := Settle(i, Accepted)];
      var hostCompanion := HostCompanion(c, i);
      if hostCompanion.0.None? {
        db.Rollback(start);
        return Refused(hostCompanion.1);
      }
      var companion := hostCompanion.0.value;
      if s in db.rooms || HasSession(start, id) || companion == i.companion {
        db.Rollback(start);
        return Refused(UniqueViolation);
      }
      db.rooms := db.rooms[s := NewRoom(i, id, companion, hostRow, visitorRow, now)];
      db.reservations := db.reservations[i.visitor := db.reservations[i.visitor].(hold := Seated(s), expiresAt := None)];
      db.reservations := db.reservations[i.host := Reservation(companion, Seated(s), None)];
      var displaced := PendingFor(start, i.host, id);
      db.invitations := SettleInvitations(db.invitations, displaced, Declined);
      db.reservations := WithoutInvitations(db.reservations, displaced);
      return Done;
    }

    method RespondToInvitation(user: UserId, id: InvitationId, asHost: bool) returns (reply: Reply)
      modifies db
      ensures Tx(db.Rows(), reply) == V.RespondToInvitation(old(db.Rows()), user, id, asHost)
    {
      var status := if asHost then Declined else Withdrawn;
      if id !in db.invitations { return Refused(InvitationNotFound); }
      var i := db.invitations[id];
      if user != (if asHost then i.host else i.visitor) {
        return Refused(if asHost then InvitationNotHost else InvitationNotOwned);
      }
      if i.status == status { return Repeated; }
      if i.status != Pending { return Refused(InvitationNotPending); }
      db.invitations := db.invitations[id := Settle(i, status)];
      DeleteOutgoing(i.visitor, id);
      return Done;
    }

    method MarkReady(c: Catalog, user: UserId, s: SessionId, now: Time) returns (reply: Reply)
      modifies db
      ensures Tx(db.Rows(), reply) == MarkSessionReady(old(db.Rows()), c, user, s, now)
    {
      if s !in db.rooms { return Refused(SessionNotFound); }
      var room := db.rooms[s];
      var row := room.row;
      assert Tx(db.Rows(), Repeated) == OnRoom(db.Rows(), s, RoomTx(room, Repeated));
      if !IsPrincipal(room, user) { return Refused(SessionNotParticipant); }
      if !Eligible(c, row.visitor, row.host) { return Refused(InvitationNotAvailable); }
      if row.state == Ready || row.state == Active { return Repeated; }
      if row.state != Preparing { return Refused(SessionNotPreparing); }
      if user == row.visitor {
        row := row.(visitorReadyAt := if row.visitorReadyAt.Some? then row.visitorReadyAt else Some(now));
      } else {
        row := row.(hostReadyAt := if row.hostReadyAt.Some? then row.hostReadyAt else Some(now));
      }
      room := room.(row := row);
      if user in room.participants {
        room := room.(participants := room.participants[user := room.participants[user].(state := Prepared, readyAt := Some(now))]);
      }
      if row.visitorReadyAt.Some? && row.hostReadyAt.Some? {
        room := room.(row := row.(state := Ready, readyAt := if row.readyAt.Some? then row.readyAt else Some(now)));
      }
      db.rooms := db.rooms[s := room];
      return Done;
    }

    method StartSession(c: Catalog, user: UserId, s: SessionId, now: Time) returns (reply: Reply)
      modifies db
      ensures Tx(db.Rows(), reply) == Start(old(db.Rows()), c, user, s, now)
    {
      if s !in db.rooms { return Refused(SessionNotFound); }
      var room := db.rooms[s];
      assert Tx(db.Rows(), Repeated) == OnRoom(db.Rows(), s, RoomTx(room, Repeated));
      if room.row.host != user { return Refused(SessionNotParticipant); }
      if !Eligible(c, room.row.visitor, room.row.host) { return Refused(InvitationNotAvailable); }
      if room.row.state == Active { return Repeated; }
      if room.row.state != Ready { return Refused(SessionNotReady); }
      room := room.(participants := PreparedSpeak(room.participants));
      room := room.(row := room.row.(state := Active, startedAt := Some(now)));
      db.rooms := db.rooms[s := room];
      return Done;
    }

    /** releaseSessionReservations. */
    method Release(s: SessionId)
      requires s in db.rooms
      modifies db
      ensures db.Rows() == Released(old(db.Rows()), s, old(db.rooms)[s].(participants := AllLeft(old(db.rooms)[s].participants)))
    {
      db.reservations := WithoutSession(db.reservations, s);
      db.rooms := db.rooms[s := db.rooms[s].(participants := AllLeft(db.rooms[s].participants))];
    }

    /** endSession: endSessionInTransaction, then the release. */
    method EndSession(user: UserId, s: SessionId, now: Time) returns (reply: Reply)
      modifies db
      ensures Tx(db.Rows(), reply) == End(old(db.Rows()), user, s, now)
    {
      if s !in db.rooms { return Refused(SessionNotFound); }
      var room := db.rooms[s];
      if !IsPrincipal(room, user) { return Refused(SessionNotParticipant); }
      reply := Repeated;
      if !Terminal(room.row.state) {
        var state := if room.row.state == Preparing || room.row.state == Ready then Cancelled else Ended;
        db.rooms := db.rooms[s := room.(row := room.row.(state := state, endedAt := Some(now), packRef := None))];
        reply := Done;
      }
      Release(s);
    }

    /** The claim of one live session whose state was read as `seen`, and its release. */
    method Claim(s: SessionId, seen: SessionState, now: Time)
      requires s in db.rooms && Live(seen)
      modifies db
      ensures db.Rows() == if old(db.rooms)[s].row.state == seen then CloseSession(old(db.Rows()), s, now) else old(db.Rows())
    {
      var room := db.rooms[s];
      if room.row.state == seen {
        var state := if seen == Active then Ended else Cancelled;
        db.rooms := db.rooms[s := room.(row := room.row.(state := state, endedAt := Some(now), packRef := None))];
        Release(s);
      }
    }

    /** endSessionsBetween: the sessions are found first and then claimed one by one. */
    method EndSessionsBetween(a: UserId, b: UserId, now: Time)
      modifies db
      ensures db.Rows() == CloseAll(old(db.Rows()), Between(old(db.Rows()), a, b), now)
    {
      ghost var start := db.Rows();
      var found := Between(db.Rows(), a, b);
      var rest := found;
      CloseNone(start, now);
      assert found - rest == {};
      while rest != {}
        invariant rest <= found
        invariant db.Rows() == CloseAll(start, found - rest, now)
      {
        ghost var some := Member(rest);
        var s :| s in rest;
        CloseOneMore(start, found - rest, s, now);
        assert found - (rest - {s}) == (found - rest) + {s};
        Claim(s, db.rooms[s].row.state, now);
        rest := rest - {s};
      }
      assert found - rest == found;
    }

    /** revokeCompanionVisits. */
    method RevokeCompanionVisits(companion: CompanionId, now: Time)
      modifies db
      ensures db.Rows() == RevokeCompanion(old(db.Rows()), companion, now)
    {
      ghost var start := db.Rows();
      var pending, live := PendingOf(db.Rows(), companion), LiveOf(db.Rows(), companion);
      var rest := pending;
      WithdrawNone(start);
      assert pending - rest == {};
      while rest != {}
        invariant rest <= pending
        invariant db.Rows() == WithdrawAll(start, pending - rest)
      {
        ghost var some := Member(rest);
        var i :| i in rest;
        WithdrawOneMore(start, pending - rest, i);
        assert pending - (rest - {i}) == (pending - rest) + {i};
        if db.invitations[i].status == Pending {
          db.invitations := db.invitations[i := Settle(db.invitations[i], Withdrawn)];
          db.reservations := WithoutInvitations(db.reservations, {i});
        }
        rest := rest - {i};
      }
      assert pending - rest == pending;
      ghost var mid := db.Rows();
      rest := live;
      CloseNone(mid, now);
      assert live - rest == {};
      while rest != {}
        invariant rest <= live
        invariant db.Rows() == CloseAll(mid, live - rest, now)
      {
        ghost var some := Member(rest);
        var s :| s in rest;
        CloseOneMore(mid, live - rest, s, now);
        assert live - (rest - {s}) == (live - rest) + {s};
        Claim(s, db.rooms[s].row.state, now);
        rest := rest - {s};
      }
      assert live - rest == live;
      RevokeIsSweeps(start, companion, now);
    }

    // ---------------------------------------------------------------- the cleanup

    method ExpireOne(id: InvitationId, now: Time)
      requires id in db.invitations
      modifies db
      ensures db.Rows() == ExpireInvitation(old(db.Rows()), id, now)
    {
      if db.invitations[id].status == Pending && db.invitations[id].expiresAt < now {
        db.invitations := db.invitations[id := Settle(db.invitations[id], Expired)];
        db.reservations := WithoutInvitations(db.reservations, {id});
      }
    }

    /** The first loop of the cleanup: up to `limit` expired invitations are expired. */
    method ExpireInvitations(now: Time, limit: nat) returns (ghost steps: seq<Step>)
      modifies db
      ensures db.Rows() == Run(old(db.Rows()), steps) && forall k :: k in steps ==> CleanupStep(k, now)
      ensures db.rooms == old(db.rooms) && db.requests == old(db.requests)
      ensures ExpiredInvitations(db.Rows(), now) <= ExpiredInvitations(old(db.Rows()), now)
      ensures |ExpiredInvitations(db.Rows(), now)| == Beyond(|ExpiredInvitations(old(db.Rows()), now)|, limit)
    {
      hide Run, Apply, ExpireInvitation, ExpiredInvitations;
      ghost var start := db.Rows();
      var expired := ExpiredInvitations(db.Rows(), now);
      var found := Take(expired, limit);
      steps := [];
      RunNothing(start);
      for i := 0 to |found|
        invariant db.Rows() == Run(start, steps) && forall k :: k in steps ==> CleanupStep(k, now)
        invariant db.rooms == start.rooms && db.requests == start.requests
        invariant ExpiredInvitations(db.Rows(), now) == expired - Listed(found[..i])
      {
        RunAppend(start, steps, ExpireInvitationStep(found[i], now));
        ExpireStepApplied(db.Rows(), found[i], now);
        OneMoreListed(found, i);
        ExpireInvitationOnly(db.Rows(), found[i], now);
        ExpireOne(found[i], now);
        steps := steps + [ExpireInvitationStep(found[i], now)];
      }
      AllButListed(expired, found);
    }

    /** One expired join request; false when the unique index refuses its final status. */
    method ExpireRequestOne(id: RequestId, now: Time) returns (ok: bool)
      requires id in db.requests
      modifies db
      ensures db.Rows() == ExpireRequest(old(db.Rows()), id, now)
      ensures db.rooms == old(db.rooms) && db.invitations == old(db.invitations)
      ensures ok <==> !TurnedAway(old(db.Rows()), id, now)
    {
      var r := db.requests[id];
      if r.status != Pending || r.expiresAt >= now { return true; }
      if StatusTaken(db.Rows(), r.session, r.requester, Expired) { return false; }
      db.requests := db.requests[id := r.(status := Expired, packRef := None)];
      if r.requester in db.reservations && ReservedByRequest(db.reservations[r.requester], id) {
        db.reservations := db.reservations - {r.requester};
      }
      return true;
    }

    /** The second loop of the cleanup. It ends at the first request the unique index refuses. */
    method ExpireRequests(now: Time, limit: nat) returns (ok: bool, ghost steps: seq<Step>)
      modifies db
      ensures db.Rows() == Run(old(db.Rows()), steps) && forall k :: k in steps ==> CleanupStep(k, now)
      ensures db.rooms == old(db.rooms) && db.invitations == old(db.invitations)
      ensures OneRequestEach(old(db.Rows())) && ExpiryFree(old(db.Rows()), now) ==> ok
      ensures |ExpiredRequests(old(db.Rows()), now)| <= limit && ok ==> ExpiryFree(old(db.Rows()), now)
      ensures ExpiredRequests(db.Rows(), now) <= ExpiredRequests(old(db.Rows()), now)
      ensures ok ==> |ExpiredRequests(db.Rows(), now)| == Beyond(|ExpiredRequests(old(db.Rows()), now)|, limit)
      ensures !ok ==> !ExpiryFree(db.Rows(), now)
    {
      hide Run, Apply, ExpireRequest, ExpiredRequests, TurnedAway, Turned, OneRequestEach, ExpiryFree;
      ghost var start := db.Rows();
      RunNothing(start);
      var found := Take(ExpiredRequests(db.Rows(), now), limit);
      steps := [];
      ok := true;
      LoopStarts(start, found);
      for i := 0 to |found|
        invariant db.Rows() == Run(start, steps) && forall k :: k in steps ==> CleanupStep(k, now)
        invariant Turned(start, db.Rows(), found, i)
      {
        LoopTurns(start, db.Rows(), found, i, now);
        RunAppend(start, steps, ExpireRequestStep(found[i], now));
        ExpireRequestStepApplied(db.Rows(), found[i], now);
        ok := ExpireRequestOne(found[i], now);
        steps := steps + [ExpireRequestStep(found[i], now)];
        if !ok {
          LoopStops(start, db.Rows(), found, i);
          return;
        }
      }
      LoopEnds(start, db.Rows(), found, now, limit);
      LoopStops(start, db.Rows(), found, |found|);
    }

    /** One live session found by the cleanup. */
    method EndIfTimedOut(s: SessionId, seen: Seen, limits: Limits, now: Time) returns (timedOut: bool)
      requires s in db.rooms && Live(db.rooms[s].row.state)
      modifies db
      ensures timedOut <==> TimeoutReason(old(db.rooms)[s].row, seen, limits, now).Some?
      ensures db.Rows() == if timedOut then CloseSession(old(db.Rows()), s, now) else old(db.Rows())
      ensures db.requests == old(db.requests) && db.invitations == old(db.invitations) && db.rooms.Keys == old(db.rooms.Keys)
      ensures timedOut ==> !Live(db.rooms[s].row.state)
      ensures forall q :: q in db.rooms && q != s ==> db.rooms[q] == old(db.rooms)[q]
    {
      var row := db.rooms[s].row;
      timedOut := TimeoutReason(row, seen, limits, now).Some?;
      if timedOut {
        Claim(s, row.state, now);
      }
    }

    /** The third loop of the cleanup. */
    method EndTimedOut(seen: map<SessionId, Seen>, limits: Limits, now: Time, limit: nat) returns (ghost steps: seq<Step>)
      requires db.rooms.Keys <= seen.Keys
      modifies db
      ensures db.Rows() == Run(old(db.Rows()), steps) && forall k :: k in steps ==> CleanupStep(k, now)
      ensures db.requests == old(db.requests) && db.invitations == old(db.invitations) && db.rooms.Keys == old(db.rooms.Keys)
      ensures |LiveSessions(old(db.Rows()))| <= limit ==> TimedOut(db.Rows(), seen, limits, now) == {}
      ensures forall s :: s in old(db.rooms) && s !in TimedOut(old(db.Rows()), seen, limits, now) ==> db.rooms[s] == old(db.rooms)[s]
    {
      hide TimeoutReason, CloseSession, Apply, Run;
      ghost var start := db.Rows();
      var live := LiveSessions(db.Rows());
      var found := Take(live, limit);
      if |live| <= limit {
        AllListed(live, found);
      }
      steps := [];
      RunNothing(start);
      for i := 0 to |found|
        invariant db.Rows() == Run(start, steps) && forall k :: k in steps ==> CleanupStep(k, now)
        invariant db.requests == start.requests && db.invitations == start.invitations && db.rooms.Keys == start.rooms.Keys
        invariant forall s :: s in start.rooms && (s in found[i..] || s !in TimedOut(start, seen, limits, now)) ==> db.rooms[s] == start.rooms[s]
        invariant forall s :: s in found[..i] && s in TimedOut(start, seen, limits, now) ==> !Live(db.rooms[s].row.state)
      {
        var s := found[i];
        assert s in live;
        assert found[..i + 1] == found[..i] + [s];
        RunAppend(start, steps, CloseStep(s, now));
        CloseStepApplied(db.Rows(), s, now);
        var timedOut := EndIfTimedOut(s, seen[s], limits, now);
        if timedOut {
          steps := steps + [CloseStep(s, now)];
        }
      }
      assert found[..|found|] == found;
      if |live| <= limit {
        NoTimeoutLeft(start, db.Rows(), found, seen, limits, now);
      }
    }

    /** cleanupExpiredAndTimedOut. A call while another one runs does nothing. Otherwise the cleanup
        is a run of expiry and timeout steps, so it keeps the invariant. Up to the limit nothing expired or
        timed out is left, unless an expired join request is stuck: then no session ends. */
    method CleanupExpiredAndTimedOut(seen: map<SessionId, Seen>, limits: Limits, now: Time, limit: nat)
      returns (ok: bool, ghost steps: seq<Step>)
      requires db.rooms.Keys <= seen.Keys
      modifies this`cleanupRunning, db
      ensures cleanupRunning == old(cleanupRunning)
      ensures old(cleanupRunning) ==> db.Rows() == old(db.Rows())
      ensures db.Rows() == Run(old(db.Rows()), steps) && forall k :: k in steps ==> CleanupStep(k, now)
      ensures VisitOk(old(db.Rows())) ==> VisitOk(db.Rows())
      ensures db.rooms.Keys == old(db.rooms.Keys)
      ensures !old(cleanupRunning) ==> |ExpiredInvitations(db.Rows(), now)| == Beyond(|ExpiredInvitations(old(db.Rows()), now)|, limit)
      ensures !old(cleanupRunning) && OneRequestEach(old(db.Rows())) && ExpiryFree(old(db.Rows()), now) ==> ok
      ensures !old(cleanupRunning) && |ExpiredRequests(old(db.Rows()), now)| <= limit && ok ==> ExpiryFree(old(db.Rows()), now)
      ensures !old(cleanupRunning) && ok ==> |ExpiredRequests(db.Rows(), now)| == Beyond(|ExpiredRequests(old(db.Rows()), now)|, limit)
      ensures !old(cleanupRunning) && ok && |LiveSessions(old(db.Rows()))| <= limit ==> TimedOut(db.Rows(), seen, limits, now) == {}
      ensures forall s :: s in old(db.rooms) && s !in TimedOut(old(db.Rows()), seen, limits, now) ==> db.rooms[s] == old(db.rooms)[s]
      ensures !ok ==> db.rooms == old(db.rooms) && !ExpiryFree(db.Rows(), now)
      ensures !old(cleanupRunning) ==> Pass(old(db.Rows()), db.Rows(), now, limit)
    {
      hide Run, VisitOk, OneRequestEach, ExpiryFree, TimedOut, LiveSessions, ExpiredRequests, ExpiredInvitations;
      RunNothing(db.Rows());
      if cleanupRunning { return true, []; }
      ghost var start := db.Rows();
      cleanupRunning := true;
      steps := ExpireInvitations(now, limit);
      ghost var more: seq<Step>;
      SameRequests(start, db.Rows(), now);
      ghost var mid := db.Rows();
      ok, more := ExpireRequests(now, limit);
      SameInvitations(mid, db.Rows(), now);
      RunAppendAll(start, steps, more);
      steps := steps + more;
      if ok {
        SameTimeouts(start, db.Rows(), seen, limits, now);
        mid := db.Rows();
        more := EndTimedOut(seen, limits, now, limit);
        SameInvitations(mid, db.Rows(), now);
        SameRequests(mid, db.Rows(), now);
        RunAppendAll(start, steps, more);
        steps := steps + more;
      }
      cleanupRunning := false;
      if VisitOk(start) {
        RunKeeps(start, steps);
      }
    }
  }

  lemma LoopStops(t: Tables, mid: Tables, found: seq<RequestId>, i: nat)
    requires i <= |found| && Turned(t, mid, found, i)
    ensures mid.rooms == t.rooms && mid.invitations == t.invitations
  {
  }

  lemma SameRequests(t: Tables, t': Tables, now: Time)
    requires t'.requests == t.requests
    ensures ExpiredRequests(t', now) == ExpiredRequests(t, now)
    ensures OneRequestEach(t') == OneRequestEach(t) && ExpiryFree(t', now) == ExpiryFree(t, now)
  {
    forall id | id in t.requests ensures Stuck(t', id) == Stuck(t, id) {
    }
  }

  lemma SameTimeouts(t: Tables, t': Tables, seen: map<SessionId, Seen>, limits: Limits, now: Time)
    requires t'.rooms == t.rooms && t.rooms.Keys <= seen.Keys
    ensures LiveSessions(t') == LiveSessions(t) && TimedOut(t', seen, limits, now) == TimedOut(t, seen, limits, now)
  {
  }

  lemma SameInvitations(t: Tables, t': Tables, now: Time)
    requires t'.invitations == t.invitations
    ensures ExpiredInvitations(t', now) == ExpiredInvitations(t, now)
  {
  }
}
