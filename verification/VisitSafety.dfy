/** What the invariant means for callers: the properties of every reachable state of the Visit
    tables that no single check of the program establishes. */
module VisitSafety {
  import opened Common
  import opened Replies
  import opened Catalog
  import opened Rooms
  import opened RoomInvariant
  import opened TurnTaking
  import opened Settlement
  import opened Visit
  import opened VisitInvariant
  import opened VisitRuns

  // ------------------------------------------------------------------ the matching

  /** The live sessions a user owns or hosts. */
  function LivePrincipalOf(t: Tables, u: UserId): set<SessionId> {
    set s | s in t.rooms && Live(t.rooms[s].row.state) && IsPrincipal(t.rooms[s], u)
  }

  /** The live sessions a user hosts or sits in as a guest. */
  function LiveSeatsOf(t: Tables, u: UserId): set<SessionId> {
    set s | s in t.rooms && Live(t.rooms[s].row.state) && IsPresent(t.rooms[s], u) && u != t.rooms[s].row.visitor
  }

  lemma AtMostOne<T>(us: set<T>)
    requires forall a, b :: a in us && b in us ==> a == b
    ensures |us| <= 1
  {
    if us != {} {
      var x := Member(us);
      assert us == {x};
    }
  }

  /** After any run, nobody owns or hosts two live sessions; nobody has two seats as host or guest;
      and the host of a live session holds the reservation for exactly that session. */
  lemma LiveSessionsMatch(steps: seq<Step>, u: UserId)
    ensures var t := Run(EmptyTables, steps);
            && |LivePrincipalOf(t, u)| <= 1
            && |LiveSeatsOf(t, u)| <= 1
            && forall s :: LiveRoom(t, s) ==> Holds(t, t.rooms[s].row.host, Seated(s))
  {
    EmptyTablesOk();
    RunKeeps(EmptyTables, steps);
    var t := Run(EmptyTables, steps);
    hide RoomOk, Run;
    forall s | LiveRoom(t, s) ensures Holds(t, t.rooms[s].row.host, Seated(s)) {
      HostHolds(t, s);
    }
    forall a, b | a in LivePrincipalOf(t, u) && b in LivePrincipalOf(t, u) ensures a == b {
      assert LiveRoom(t, a) && LiveRoom(t, b);
    }
    AtMostOne(LivePrincipalOf(t, u));
    forall a, b | a in LiveSeatsOf(t, u) && b in LiveSeatsOf(t, u) ensures a == b {
      assert SeatsHeld(t, a, t.rooms[a]) && SeatsHeld(t, b, t.rooms[b]);
      assert Holds(t, u, Seated(a)) && Holds(t, u, Seated(b));
    }
    AtMostOne(LiveSeatsOf(t, u));
  }

  /** A host who is free to accept hosts nobody: the capacity of two can never bind. */
  lemma CapacityNeverBinds(t: Tables, c: Catalog, host: UserId, id: InvitationId, now: Time, s: SessionId, hostRow: int, visitorRow: int)
    requires VisitOk(t)
    ensures AcceptInvitation(t, c, host, id, now, s, hostRow, visitorRow).reply !in {Refused(HostCapacityReached), Refused(HostHasActiveGuests)}
  {
    if id in t.invitations {
      var i := t.invitations[id];
      if i.host !in t.reservations {
        FreeHost(t, i.host);
      }
      if Holds(t, i.visitor, Outgoing(id)) {
        InvitingHostsNobody(t, i.visitor, id);
      }
    }
    hide TablesOk, SettlementsOk, HostCompanion, Eligible, NewRoom, SettleInvitations, WithoutInvitations;
  }

  /** Whoever waits for an answer to an invitation hosts no live session. */
  lemma InvitingHostsNobody(t: Tables, u: UserId, id: InvitationId)
    requires TablesOk(t) && Holds(t, u, Outgoing(id))
    ensures LiveHostedBy(t, u) == {}
  {
    forall s | s in t.rooms ensures s !in LiveHostedBy(t, u) {
      if LiveRoom(t, s) {
        HostHolds(t, s);
      }
    }
    hide ReservationsOk, SessionsOk;
  }

  // ------------------------------------------------------------------ reservations

  /** After any run, what a user holds is real: an invitation of its own that is pending, a request of
      its own that is pending, or a place in a live session; and the reserved companion is the one
      that visits. */
  lemma ReservationsAreReal(steps: seq<Step>, u: UserId)
    ensures var t := Run(EmptyTables, steps);
            u in t.reservations ==>
              var v := t.reservations[u];
              match v.hold
              case Outgoing(i) =>
                && i in t.invitations && t.invitations[i].status == Pending && t.invitations[i].visitor == u
                && v.companion == t.invitations[i].companion
              case Joining(s, r) =>
                && r in t.requests && t.requests[r].status == Pending && t.requests[r].requester == u
                && t.requests[r].session == s && v.companion == t.requests[r].companion
              case Seated(s) =>
                && LiveRoom(t, s) && IsPresent(t.rooms[s], u) && v.companion == t.rooms[s].participants[u].companion
  {
    EmptyTablesOk();
    RunKeeps(EmptyTables, steps);
    var t := Run(EmptyTables, steps);
    hide Run, SessionsOk, SettlementsOk;
    if u in t.reservations {
      assert HoldOk(t, u, t.reservations[u]);
    }
  }

  function PendingBy(t: Tables, u: UserId): set<InvitationId> {
    set i | i in t.invitations && t.invitations[i].visitor == u && t.invitations[i].status == Pending
  }

  /** Pending invitations and outgoing reservations are in bijection, so a user has at most one
      invitation out. */
  lemma OneOutgoingInvitation(t: Tables, u: UserId)
    requires VisitOk(t)
    ensures |PendingBy(t, u)| <= 1
    ensures forall i :: i in PendingBy(t, u) <==> Holds(t, u, Outgoing(i))
  {
    hide SessionsOk, SettlementsOk;
    forall i ensures i in PendingBy(t, u) <==> Holds(t, u, Outgoing(i)) {
      if i in PendingBy(t, u) {
        assert InvitationOk(t, i, t.invitations[i]);
      }
      if Holds(t, u, Outgoing(i)) {
        assert HoldOk(t, u, t.reservations[u]);
      }
    }
    forall a, b | a in PendingBy(t, u) && b in PendingBy(t, u) ensures a == b {
      assert Holds(t, u, Outgoing(a)) && Holds(t, u, Outgoing(b));
    }
    AtMostOne(PendingBy(t, u));
  }

  /** The tests for a second invitation on the same route and for hosted guests, which come after
      the reservation test, never fire. */
  lemma InvitationTestsNeverFire(t: Tables, c: Catalog, visitor: UserId, host: UserId, available: bool,
                                 mode: Mode, choice: TopicChoice, now: Time, ttl: int, id: InvitationId)
    requires VisitOk(t)
    ensures CreateInvitation(t, c, visitor, host, available, mode, choice, now, ttl, id).reply
            !in {Refused(InvitationAlreadyExists), Refused(HostHasActiveGuests)}
  {
    if visitor !in t.reservations {
      FreeHost(t, visitor);
      OneOutgoingInvitation(t, visitor);
      forall i ensures i !in PendingBy(t, visitor) {
        assert !Holds(t, visitor, Outgoing(i));
      }
      assert forall companion :: PendingOnRoute(t, visitor, host, companion, now) <= PendingBy(t, visitor);
    }
    hide TablesOk, SettlementsOk, Eligible, CurrentSnapshot, PendingOnRoute, LiveHostedBy, LiveVisitsBy;
  }

  /** Nor does the test for a second join request, and the unique index on pending requests only
      refuses a repeated row id. */
  lemma JoinRequestTestsNeverFire(t: Tables, c: Catalog, user: UserId, s: SessionId, choice: TopicChoice, now: Time, id: RequestId)
    requires VisitOk(t)
    ensures CreateJoinRequest(t, c, user, s, choice, now, id).reply != Refused(JoinRequestExists)
    ensures CreateJoinRequest(t, c, user, s, choice, now, id).reply == Refused(UniqueViolation) ==> id in t.requests
  {
    hide VisitOk, CreateJoinRequest, StatusTaken, LiveRoom;
    var reply := CreateJoinRequest(t, c, user, s, choice, now, id).reply;
    if reply == Refused(JoinRequestExists) || (reply == Refused(UniqueViolation) && id !in t.requests) {
      SecondRequest(t, c, user, s, choice, now, id);
      NoRequestWithoutReservation(t, user, s) by { SafeTables(t); }
      assert false;
    }
  }

  lemma SafeTables(t: Tables)
    requires VisitOk(t)
    ensures TablesOk(t) && SettlementsOk(t)
  {
    hide TablesOk, SettlementsOk;
  }

  lemma SecondRequest(t: Tables, c: Catalog, user: UserId, s: SessionId, choice: TopicChoice, now: Time, id: RequestId)
    requires var reply := CreateJoinRequest(t, c, user, s, choice, now, id).reply;
             reply == Refused(JoinRequestExists) || (reply == Refused(UniqueViolation) && id !in t.requests)
    ensures user !in t.reservations && LiveRoom(t, s) && StatusTaken(t, s, user, Pending)
  {
    hide Present, Eligible, InGoodStanding, CurrentSnapshot;
  }

  /** A user without a reservation has no request pending for a live session. */
  lemma NoRequestWithoutReservation(t: Tables, user: UserId, s: SessionId)
    requires TablesOk(t) && user !in t.reservations && LiveRoom(t, s)
    ensures !StatusTaken(t, s, user, Pending)
  {
    hide SessionsOk;
    forall r | r in t.requests ensures !(t.requests[r].session == s && t.requests[r].requester == user && t.requests[r].status == Pending) {
      assert RequestOk(t, r, t.requests[r]);
    }
  }

  /** Accepting a join request never meets the unique index on accepted requests unless the
      requester already has a participant row. */
  lemma AcceptedOnce(t: Tables, id: RequestId)
    requires VisitOk(t) && id in t.requests && StatusTaken(t, t.requests[id].session, t.requests[id].requester, Accepted)
    ensures t.requests[id].session in t.rooms && t.requests[id].requester in t.rooms[t.requests[id].session].participants
  {
    hide SessionsOk, SettlementsOk;
    var r :| r in t.requests && t.requests[r].session == t.requests[id].session
          && t.requests[r].requester == t.requests[id].requester && t.requests[r].status == Accepted;
    assert RequestOk(t, r, t.requests[r]);
  }

  /** The pack a row refers to: pinned exactly while an invitation is pending, a session live, a
      join request pending. */
  lemma PinnedExactlyWhileOpen(t: Tables)
    requires VisitOk(t)
    ensures forall i :: i in t.invitations ==> (t.invitations[i].packRef.Some? <==> t.invitations[i].status == Pending)
    ensures forall s :: s in t.rooms ==> (t.rooms[s].row.packRef.Some? <==> Live(t.rooms[s].row.state))
    ensures forall r :: r in t.requests ==> (t.requests[r].packRef.Some? <==> t.requests[r].status == Pending)
  {
    forall i | i in t.invitations ensures t.invitations[i].packRef.Some? <==> t.invitations[i].status == Pending {
      assert InvitationOk(t, i, t.invitations[i]);
    }
    forall s | s in t.rooms ensures t.rooms[s].row.packRef.Some? <==> Live(t.rooms[s].row.state) {
      RoomIsOk(t, s);
      RowOfRoom(t.rooms[s]);
    }
    forall r | r in t.requests ensures t.requests[r].packRef.Some? <==> t.requests[r].status == Pending {
      assert RequestOk(t, r, t.requests[r]);
    }
    hide TablesOk, SettlementsOk, RoomOk;
  }

  lemma RowOfRoom(room: Room)
    requires RoomOk(room)
    ensures RowOk(room.row)
  {
    hide RowOk, MembersOk, DialogueOk;
  }

  // ------------------------------------------------------------------ sessions

  /** After any run: a session is ended exactly when it is over and had started, and cancelled when it
      had not; ready and active sessions carry both ready stamps; a live one has its host; one that
      is over has nobody; and nobody is there beyond the capacity. */
  lemma SessionsAreSound(steps: seq<Step>, s: SessionId)
    ensures var t := Run(EmptyTables, steps);
            s in t.rooms ==>
              var room, row := t.rooms[s], t.rooms[s].row;
              && (row.state == Ended <==> Terminal(row.state) && row.startedAt.Some?)
              && row.state != Ending && row.state != Failed && (row.endedAt.Some? <==> Terminal(row.state))
              && (row.state == Ready || row.state == Active ==> row.visitorReadyAt.Some? && row.hostReadyAt.Some?)
              && (Live(row.state) ==> row.host in Present(room)) && (Terminal(row.state) ==> Present(room) == {})
              && 2 <= row.capacity && |Present(room)| <= row.capacity
  {
    EmptyTablesOk();
    RunKeeps(EmptyTables, steps);
    var t := Run(EmptyTables, steps);
    hide Run, ReservationsOk, SettlementsOk;
    if s in t.rooms {
      RoomIsOk(t, s);
      RoomIsSound(t.rooms[s]);
    }
    hide SessionsOk, RoomOk;
  }

  lemma RoomIsSound(room: Room)
    requires RoomOk(room)
    ensures room.row.state == Ended <==> Terminal(room.row.state) && room.row.startedAt.Some?
    ensures room.row.state != Ending && room.row.state != Failed && (room.row.endedAt.Some? <==> Terminal(room.row.state))
    ensures room.row.state == Ready || room.row.state == Active ==> room.row.visitorReadyAt.Some? && room.row.hostReadyAt.Some?
    ensures Live(room.row.state) ==> room.row.host in Present(room)
    ensures Terminal(room.row.state) ==> Present(room) == {}
    ensures 2 <= room.row.capacity && |Present(room)| <= room.row.capacity
  {
    hide DialogueOk;
    if Live(room.row.state) {
      HostIsPresent(room);
    }
    if Terminal(room.row.state) {
      OverIsLeft(room);
    }
  }

  // ------------------------------------------------------------------ dialogue

  /** After any run: topics and turns are numbered from one without gaps; topics read completed,
      current, queued, and a live session with a share has exactly one current topic; turns come in
      blocks in topic order, each topic within its budget; and an active session has room for
      another turn. */
  lemma DialoguesAreSound(steps: seq<Step>, s: SessionId)
    ensures var t := Run(EmptyTables, steps);
            s in t.rooms ==>
              var room := t.rooms[s];
              && Dense(room.topics) && Dense(room.turns)
              && (forall i, j :: i in room.topics && j in room.topics && i < j ==>
                    TopicRank(room.topics[i].state) <= TopicRank(room.topics[j].state))
              && (Live(room.row.state) && room.share.Some? ==> CurrentTopics(room) == {room.row.currentTopic})
              && Blocks(room.turns) && WithinBudget(room.topics, room.turns)
              && |room.turns| <= ROOM_MAX_TURNS && (room.row.state == Active ==> |room.turns| < ROOM_MAX_TURNS)
  {
    EmptyTablesOk();
    RunKeeps(EmptyTables, steps);
    var t := Run(EmptyTables, steps);
    hide Run, ReservationsOk, SettlementsOk, SessionsOk, RoomOk, Dense, Blocks, WithinBudget, CurrentTopics, Live;
    if s in t.rooms {
      RoomIsOk(t, s);
      DialogueIsSound(t.rooms[s]);
    }
  }

  lemma DialogueIsSound(room: Room)
    requires RoomOk(room)
    ensures Dense(room.topics) && Dense(room.turns) && Blocks(room.turns) && WithinBudget(room.topics, room.turns)
    ensures forall i, j :: i in room.topics && j in room.topics && i < j ==> TopicRank(room.topics[i].state) <= TopicRank(room.topics[j].state)
    ensures Live(room.row.state) && room.share.Some? ==> CurrentTopics(room) == {room.row.currentTopic}
    ensures |room.turns| <= ROOM_MAX_TURNS && (room.row.state == Active ==> |room.turns| < ROOM_MAX_TURNS)
  {
    hide RoomOk, Dense, Blocks, WithinBudget;
    TurnsAreNumbered(room);
    forall i, j | i in room.topics && j in room.topics && i < j ensures TopicRank(room.topics[i].state) <= TopicRank(room.topics[j].state) {
      TopicsInOrder(room, i, j);
    }
    if Live(room.row.state) {
      OneCurrentTopic(room);
    }
  }

  lemma TurnsAreNumbered(room: Room)
    requires RoomOk(room)
    ensures Dense(room.topics) && Dense(room.turns) && Blocks(room.turns) && WithinBudget(room.topics, room.turns)
    ensures |room.turns| <= ROOM_MAX_TURNS && (room.row.state == Active ==> |room.turns| < ROOM_MAX_TURNS)
  {
    hide Dense, Blocks, WithinBudget, MembersOk;
  }

  /** With the invariant the branches for a share without a current topic, and for a turn beyond
      the last, are dead: of appendTurn's refusals these two never occur. */
  lemma DeadRefusals(room: Room, c: Catalog, user: UserId, id: string, intent: Intent, message: string, now: Time)
    requires RoomOk(room)
    ensures AppendTurn(room, c, user, id, intent, message, now).reply !in {Refused(TopicStateChanged), Refused(TurnLimitReached)}
    ensures room.row.state == Active && room.share.Some? ==> CurrentTopic(room) == Some(room.share.value.topic)
  {
    if room.row.state == Active && room.share.Some? {
      ActiveFacts(room);
      CurrentTopicIs(room);
      DenseMax(room.turns);
    }
    hide RoomOk, Speakers, NextActor, AllEligible, HasClientTurn, SpeakingUsers, Progress, ProgressLegacy, LastTurn, CurrentTopic;
  }

  lemma ActiveFacts(room: Room)
    requires RoomOk(room) && room.row.state == Active
    ensures TopicsOk(room.topics, room.share, true) && Dense(room.turns) && |room.turns| < ROOM_MAX_TURNS
  {
    hide TopicsOk, Dense, MembersOk, ShareOk;
  }

  // ------------------------------------------------------------------ settlement

  /** A settlement row, once written, is never changed or removed, and a session that has one gets
      no further rows. */
  ghost predicate Immutable(t: Tables, t': Tables) {
    && (forall k :: k in t.ledger.settlements ==>
          k in t'.ledger.settlements && t'.ledger.settlements[k] == t.ledger.settlements[k])
    && (forall k :: k in t'.ledger.settlements && SessionRows(t.ledger, k.0) != {} ==> k in t.ledger.settlements)
  }

  lemma OnDialogueImmutable(t: Tables, s: SessionId, tx: RoomTx)
    requires SettlementsOk(t) && s in t.rooms && RoomOk(tx.room)
    requires t.rooms[s].moment.Some? ==> tx.room == t.rooms[s]
    requires t.rooms[s].moment.None? && tx.room.moment.Some? ==> tx.room.turns != map[]
    ensures Immutable(t, OnDialogue(t, s, tx).tables)
  {
    hide LedgerOk, Entries, Sum, SettleAll, WithoutSession, Pairs, MembersOk, DialogueOk, RowOk, TurnsOk, RowsCount;
    assert BookedOk(t.ledger, s, t.rooms[s]);
    if t.rooms[s].moment.None? && tx.room.moment.Some? {
      TurnsAreOk(tx.room);
      MomentBooks(t.ledger, s, tx.room);
      hide BookedOk;
      var t' := OnDialogue(t, s, tx).tables;
      forall k | k in t'.ledger.settlements && SessionRows(t.ledger, k.0) != {} ensures k in t.ledger.settlements {
        assert k.0 != s;
      }
    }
  }

  lemma ApplyImmutable(t: Tables, step: Step)
    requires VisitOk(t)
    ensures Immutable(t, Apply(t, step))
  {
    hide TablesOk, SettlementsOk, Apply, RoomOk, Quiet, Ends, AppendTurn, FinalizeMoment, OnDialogue;
    if step.SayStep? && step.session in t.rooms {
      var SayStep(c, user, s, id, intent, message, now) := step;
      RoomIsOk(t, s);
      SaidRoom(t.rooms[s], c, user, id, intent, message, now);
      AppendTurnPreserves(t.rooms[s], c, user, id, intent, message, now);
      OnDialogueImmutable(t, s, AppendTurn(t.rooms[s], c, user, id, intent, message, now));
      SayApplied(t, step);
    } else if step.FinalizeStep? && step.session in t.rooms {
      var FinalizeStep(user, s) := step;
      RoomIsOk(t, s);
      FinalizeQuiet(t.rooms[s], user);
      FinalizeMomentPreserves(t.rooms[s], user);
      FinalizedTurns(t.rooms[s], user);
      OnDialogueImmutable(t, s, FinalizeMoment(t.rooms[s], user));
      SayApplied(t, step);
    } else {
      LedgerUntouched(t, step);
    }
  }

  lemma FinalizedTurns(room: Room, user: UserId)
    ensures room.moment.None? && FinalizeMoment(room, user).room.moment.Some? ==> FinalizeMoment(room, user).room.turns != map[]
  {
  }

  lemma SayApplied(t: Tables, step: Step)
    requires step.SayStep? || step.FinalizeStep?
    requires step.session in t.rooms
    ensures step.SayStep? ==> Apply(t, step) == OnDialogue(t, step.session,
              AppendTurn(t.rooms[step.session], step.catalog, step.user, step.clientTurnId, step.intent, step.message, step.now)).tables
    ensures step.FinalizeStep? ==> Apply(t, step) == OnDialogue(t, step.session, FinalizeMoment(t.rooms[step.session], step.user)).tables
  {
    hide AppendTurn, FinalizeMoment, OnDialogue;
  }

  lemma LedgerUntouched(t: Tables, step: Step)
    requires TablesOk(t)
    requires (step.SayStep? || step.FinalizeStep?) ==> step.session !in t.rooms
    ensures Apply(t, step).ledger == t.ledger
  {
    hide TablesOk;
    if step.SayStep? || step.FinalizeStep? {
    } else if step.InviteStep? || step.RespondStep? || step.ExpireInvitationStep? {
      InvitationStepKeeps(t, step);
    } else if step.AcceptStep? || step.AdmitStep? || step.LeaveStep? {
      SeatStepKeeps(t, step);
    } else if step.RequestStep? || step.RespondRequestStep? || step.ExpireRequestStep? {
      RequestStepKeeps(t, step);
    } else {
      RoomStepKeeps(t, step);
    }
    hide *;
  }

  /** Settlement happens once: over any run, with any number of retries and finalizations. */
  lemma {:induction false} RunImmutable(t: Tables, steps: seq<Step>)
    requires VisitOk(t)
    ensures Immutable(t, Run(t, steps))
    decreases |steps|
  {
    if steps != [] {
      ApplyKeeps(t, steps[0]);
      ApplyImmutable(t, steps[0]);
      RunImmutable(Apply(t, steps[0]), steps[1..]);
      ImmutableTransitive(t, Apply(t, steps[0]), Run(t, steps));
    }
  }

  lemma ImmutableTransitive(t: Tables, mid: Tables, t': Tables)
    requires Immutable(t, mid) && Immutable(mid, t')
    ensures Immutable(t, t')
  {
    forall k | k in t'.ledger.settlements && SessionRows(t.ledger, k.0) != {} ensures k in t.ledger.settlements {
      var j := Member(SessionRows(t.ledger, k.0));
      assert j in SessionRows(mid.ledger, k.0);
    }
  }

  /** The sessions in which a pair of companions has a shared moment. */
  ghost function MomentsOf(t: Tables, p: Pair): set<SessionId> {
    set s | s in t.rooms && t.rooms[s].moment.Some? && p in Pairs(Entries(t.rooms[s]))
  }

  lemma RowsAreMoments(t: Tables, p: Pair)
    requires SettlementsOk(t)
    ensures PairRows(t.ledger, p) == set s | s in MomentsOf(t, p) :: (s, p)
  {
    hide LedgerOk, Entries, Pairs, Sum, RowsCount;
    forall k ensures k in PairRows(t.ledger, p) <==> k.0 in MomentsOf(t, p) && k.1 == p {
      if k in t.ledger.settlements {
        assert BookedOk(t.ledger, k.0, t.rooms[k.0]);
        assert k in SessionRows(t.ledger, k.0);
      }
      if k.0 in MomentsOf(t, p) {
        assert BookedOk(t.ledger, k.0, t.rooms[k.0]);
      }
    }
    TaggedMembers(MomentsOf(t, p), p);
    assert forall k :: k in PairRows(t.ledger, p) <==> k in set s | s in MomentsOf(t, p) :: (s, p);
  }

  lemma TaggedMembers(ss: set<SessionId>, p: Pair)
    ensures forall k :: k in (set s | s in ss :: (s, p)) <==> k.0 in ss && k.1 == p
  {
    forall k: (SessionId, Pair) | k.0 in ss && k.1 == p ensures k in set s | s in ss :: (s, p) {
      var s := k.0;
      assert s in ss && (s, p) == k;
    }
  }

  lemma TaggedSize(ss: set<SessionId>, p: Pair)
    ensures |set s | s in ss :: (s, p)| == |ss|
  {
    if ss != {} {
      var x := Member(ss);
      TaggedSize(ss - {x}, p);
      assert (set s | s in ss :: (s, p)) == (set s | s in ss - {x} :: (s, p)) + {(x, p)};
    }
  }

  /** A relationship is exactly what the pair's shared moments amount to: visits and interactions
      count them, the stage is the threshold function of the count, rapport its capped multiple,
      and the turns are the sum of the pair's settlement rows. */
  lemma RelationshipCounts(t: Tables, p: Pair)
    requires VisitOk(t)
    ensures p in t.ledger.relationships <==> MomentsOf(t, p) != {}
    ensures p in t.ledger.relationships ==>
              t.ledger.relationships[p] == Amounts(|MomentsOf(t, p)|, Sum(t.ledger.settlements, PairRows(t.ledger, p)))
  {
    hide TablesOk, Entries, Pairs, Amounts, BookedOk;
    RowsAreMoments(t, p);
    TaggedSize(MomentsOf(t, p), p);
    assert PairOk(t.ledger, p);
    if MomentsOf(t, p) != {} {
      var s := Member(MomentsOf(t, p));
      assert (s, p) in PairRows(t.ledger, p);
    }
  }

  /** In numbers: what a relationship says after any run, counted from the shared moments of the pair alone. */
  lemma RelationshipIs(steps: seq<Step>, p: Pair)
    requires p in Run(EmptyTables, steps).ledger.relationships
    ensures var t := Run(EmptyTables, steps); var r := t.ledger.relationships[p]; var visits := |MomentsOf(t, p)|;
            && visits >= 1 && r.visitCount == visits && r.interactionCount == visits
            && r.totalTurnCount == Sum(t.ledger.settlements, PairRows(t.ledger, p))
            && (r.stage == Acquainted <==> visits == 1) && (r.stage == Familiar <==> 2 <= visits < 4)
            && (r.stage == Friendly <==> 4 <= visits < 8) && (r.stage == CloseBond <==> 8 <= visits < 12)
            && (r.stage == Trusted <==> visits >= 12)
            && r.rapport == (if visits <= 12 then visits as real * 8.0 / 100.0 else 1.0)
            && r.topicAffinity == (if visits <= 19 then visits as real * 5.0 / 100.0 else 1.0)
  {
    hide Run, VisitOk, Amounts, MomentsOf, Sum, PairRows;
    ReachableVisit(steps);
    var t := Run(EmptyTables, steps);
    RelationshipCounts(t, p);
    AmountsExactly(|MomentsOf(t, p)|, Sum(t.ledger.settlements, PairRows(t.ledger, p)));
  }
}
