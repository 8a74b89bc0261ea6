/** Every transaction keeps the global invariant, so every run does; and what follows from it. */
module VisitRuns {
  import opened Common
  import opened Replies
  import opened Catalog
  import opened Rooms
  import opened RoomInvariant
  import opened TurnTaking
  import opened Settlement
  import opened Visit
  import opened VisitInvariant

  /** No shared moment is written, and rooms that have one do not change. */
  ghost predicate Unbooking(t: Tables, t': Tables) {
    && t'.ledger == t.ledger
    && t.rooms.Keys <= t'.rooms.Keys
    && (forall s :: s in t'.rooms ==>
          if s in t.rooms && t.rooms[s].moment.Some? then t'.rooms[s] == t.rooms[s] else t'.rooms[s].moment.None?)
  }

  /** The same for one room. */
  ghost predicate Frozen(room: Room, r: Room) {
    if room.moment.Some? then r == room else r.moment.None?
  }

  lemma RoomIsOk(t: Tables, s: SessionId)
    requires TablesOk(t) && s in t.rooms
    ensures RoomOk(t.rooms[s])
  {
    hide RoomOk;
  }

  // ------------------------------------------------------------------ sessions

  /** A quiet transaction on one room. */
  lemma OnRoomKeeps(t: Tables, s: SessionId, tx: RoomTx)
    requires TablesOk(t) && s in t.rooms && Quiet(t.rooms[s], tx.room) && RoomOk(tx.room) && Frozen(t.rooms[s], tx.room)
    ensures TablesOk(OnRoom(t, s, tx).tables) && Unbooking(t, OnRoom(t, s, tx).tables)
  {
    hide RoomOk, Quiet, ReservationsOk, SessionsOk;
    QuietKeeps(t, s, tx.room);
  }

  lemma MarkSessionReadyKeeps(t: Tables, c: Catalog, user: UserId, s: SessionId, now: Time)
    requires TablesOk(t)
    ensures var t' := MarkSessionReady(t, c, user, s, now).tables; TablesOk(t') && Unbooking(t, t')
  {
    hide RoomOk, Quiet, TablesOk, MarkReady, OnRoom;
    if s in t.rooms {
      RoomIsOk(t, s);
      MarkReadyQuiet(t.rooms[s], c, user, now);
      MarkReadyPreserves(t.rooms[s], c, user, now);
      OnRoomKeeps(t, s, MarkReady(t.rooms[s], c, user, now));
    }
  }

  lemma StartKeeps(t: Tables, c: Catalog, user: UserId, s: SessionId, now: Time)
    requires TablesOk(t)
    ensures var t' := Start(t, c, user, s, now).tables; TablesOk(t') && Unbooking(t, t')
  {
    hide RoomOk, Quiet, TablesOk, StartSession, OnRoom;
    if s in t.rooms {
      RoomIsOk(t, s);
      StartQuiet(t.rooms[s], c, user, now);
      StartSessionPreserves(t.rooms[s], c, user, now);
      OnRoomKeeps(t, s, StartSession(t.rooms[s], c, user, now));
    }
  }

  lemma MarkParticipantReadyKeeps(t: Tables, user: UserId, s: SessionId, now: Time)
    requires TablesOk(t)
    ensures var t' := MarkParticipantReady(t, user, s, now).tables; TablesOk(t') && Unbooking(t, t')
  {
    hide RoomOk, Quiet, TablesOk, ParticipantReady, OnRoom;
    if s in t.rooms {
      RoomIsOk(t, s);
      ParticipantReadyQuiet(t.rooms[s], user, now);
      ParticipantReadyPreserves(t.rooms[s], user, now);
      OnRoomKeeps(t, s, ParticipantReady(t.rooms[s], user, now));
    }
  }

  lemma ShareTopicKeeps(t: Tables, c: Catalog, user: UserId, s: SessionId, content: Content)
    requires TablesOk(t)
    ensures var t' := ShareTopic(t, c, user, s, content).tables; TablesOk(t') && Unbooking(t, t')
  {
    hide RoomOk, Quiet, TablesOk, SetShare, OnRoom;
    if s in t.rooms {
      RoomIsOk(t, s);
      SetShareQuiet(t.rooms[s], c, user, content);
      SetSharePreserves(t.rooms[s], c, user, content);
      OnRoomKeeps(t, s, SetShare(t.rooms[s], c, user, content));
    }
  }

  /** Ending one room. */
  lemma ReleasedRoomKeeps(t: Tables, s: SessionId, r: Room)
    requires TablesOk(t) && s in t.rooms && Frozen(t.rooms[s], r)
    requires Over(t.rooms[s], r) && RoomOk(r)
    ensures TablesOk(Released(t, s, r)) && Unbooking(t, Released(t, s, r))
  {
    hide RoomOk, SameSession, ReservationsOk, SessionsOk, WithoutSession;
    ReleasedKeeps(t, s, r);
  }

  lemma EndKeeps(t: Tables, user: UserId, s: SessionId, now: Time)
    requires TablesOk(t)
    ensures var t' := End(t, user, s, now).tables; TablesOk(t') && Unbooking(t, t')
  {
    hide RoomOk, SameSession, TablesOk, EndSession, Released;
    if s in t.rooms {
      RoomIsOk(t, s);
      NothingUnbooked(t);
      var tx := EndSession(t.rooms[s], user, now);
      if !tx.reply.Refused? {
        EndSessionSame(t.rooms[s], user, now);
        EndSessionPreserves(t.rooms[s], user, now);
        ReleasedRoomKeeps(t, s, tx.room);
      }
    }
  }

  lemma NothingUnbooked(t: Tables)
    ensures Unbooking(t, t)
  {
  }

  lemma CloseSessionKeeps(t: Tables, s: SessionId, now: Time)
    requires TablesOk(t)
    ensures var t' := CloseSession(t, s, now); TablesOk(t') && Unbooking(t, t')
  {
    hide RoomOk, SameSession, TablesOk, CloseLive, Released;
    if s in t.rooms {
      RoomIsOk(t, s);
      CloseLivePreserves(t.rooms[s], now);
      CloseLiveSame(t.rooms[s], now);
      if LiveRoom(t, s) {
        ReleasedRoomKeeps(t, s, CloseLive(t.rooms[s], now));
      }
    }
  }

  lemma RevokedRoom(t: Tables, s: SessionId, now: Time)
    requires TablesOk(t) && s in t.rooms
    ensures var r := CloseLive(t.rooms[s], now);
            Over(t.rooms[s], r) && RoomOk(r) && Frozen(t.rooms[s], r)
  {
    RoomIsOk(t, s);
    hide RoomOk, SameSession, TablesOk, CloseLive;
    CloseLivePreserves(t.rooms[s], now);
    CloseLiveSame(t.rooms[s], now);
  }

  lemma RevokeCompanionReleases(t: Tables, companion: CompanionId, now: Time)
    requires TablesOk(t)
    ensures Release(t, RevokeCompanion(t, companion, now), PendingOf(t, companion), Withdrawn, LiveOf(t, companion))
    ensures Unbooking(t, RevokeCompanion(t, companion, now))
  {
    hide RoomOk, TablesOk, CloseLive, SameSession;
    var t' := RevokeCompanion(t, companion, now);
    forall s | s in t.rooms
      ensures var r := CloseLive(t.rooms[s], now);
              Over(t.rooms[s], r) && RoomOk(r) && Frozen(t.rooms[s], r)
    {
      RevokedRoom(t, s, now);
    }
    MomentsAreOver(t);
  }

  lemma MomentsAreOver(t: Tables)
    requires TablesOk(t)
    ensures forall s :: s in t.rooms && t.rooms[s].moment.Some? ==> t.rooms[s].row.state == Ended
  {
    forall s | s in t.rooms ensures t.rooms[s].moment.Some? ==> t.rooms[s].row.state == Ended {
      RoomIsOk(t, s);
      MomentOnlyAfter(t.rooms[s]);
    }
  }

  lemma RevokeCompanionKeeps(t: Tables, companion: CompanionId, now: Time)
    requires TablesOk(t)
    ensures var t' := RevokeCompanion(t, companion, now); TablesOk(t') && Unbooking(t, t')
  {
    hide RevokeCompanion, Release, ReservationsOk, SessionsOk, PendingOf, LiveOf, Unbooking;
    var t' := RevokeCompanion(t, companion, now);
    RevokeCompanionReleases(t, companion, now);
    ReleaseReservations(t, t', PendingOf(t, companion), Withdrawn, LiveOf(t, companion));
    ReleaseSessions(t, t', PendingOf(t, companion), Withdrawn, LiveOf(t, companion));
  }

  // ------------------------------------------------------------------ dialogue

  lemma ReservationsIgnoreLedger(t: Tables, l: Ledger)
    requires TablesOk(t)
    ensures TablesOk(t.(ledger := l))
  {
    var t' := t.(ledger := l);
    hide RoomOk;
    SessionsFrame(t, t');
    forall u | u in t'.reservations ensures HoldOk(t', u, t'.reservations[u]) {
      assert HoldOk(t, u, t.reservations[u]);
    }
    forall i | i in t'.invitations ensures InvitationOk(t', i, t'.invitations[i]) {
      assert InvitationOk(t, i, t.invitations[i]);
    }
    forall q | q in t'.rooms ensures SeatsHeld(t', q, t'.rooms[q]) {
      assert SeatsHeld(t, q, t.rooms[q]);
    }
    forall q | q in t'.requests ensures RequestOk(t', q, t'.requests[q]) {
      assert RequestOk(t, q, t.requests[q]);
    }
  }

  ghost predicate Ends(room: Room, r: Room) {
    Live(room.row.state) && Over(room, r)
  }

  lemma OnDialogueKeeps(t: Tables, s: SessionId, tx: RoomTx)
    requires TablesOk(t) && s in t.rooms && RoomOk(tx.room)
    requires Quiet(t.rooms[s], tx.room) || Ends(t.rooms[s], tx.room)
    ensures TablesOk(OnDialogue(t, s, tx).tables)
  {
    hide RoomOk, ReservationsOk, SessionsOk, WithoutSession, SettleAll, Entries;
    var t' := OnDialogue(t, s, tx).tables;
    if Ends(t.rooms[s], tx.room) {
      ReleasedKeeps(t, s, tx.room);
      ReservationsIgnoreLedger(Released(t, s, tx.room), t'.ledger);
    } else {
      QuietKeeps(t, s, tx.room);
      ReservationsIgnoreLedger(t.(rooms := t.rooms[s := tx.room]), t'.ledger);
    }
  }

  lemma SwitchedIsQuiet(room: Room, k: nat, r: Room)
    requires k in room.topics && k + 1 in room.topics && r == Switched(room, k)
    ensures Quiet(room, r) && r.moment == room.moment
  {
  }

  lemma FinishedEnds(room: Room, k: nat, now: Time)
    requires k in room.topics && Live(room.row.state)
    ensures Ends(room, Finished(room, k, now))
    ensures Finished(room, k, now).turns == room.turns
  {
  }

  lemma ProgressedRoom(room: Room, k: nat, intent: Intent, now: Time)
    requires MidTurn(room, k)
    ensures k in room.topics
    ensures var r := Progress(room, k, |room.turns|, intent, now);
            && ((Quiet(room, r) && r.moment.None?) || Ends(room, r))
            && r.turns == room.turns
  {
    ProgressCases(room, k, intent, now);
    hide RoomOk, RowOk, MembersOk, TurnsOk, ShareOk, TopicsOk, Progress, Quiet, Ends, Switched, Finished;
    if KeepsTopic(room, k, |room.turns|, intent) {
      StillQuiet(room);
    } else if |room.turns| < ROOM_MAX_TURNS && k < |room.topics| {
      SwitchedIsQuiet(room, k, Switched(room, k));
      SwitchedTurns(room, k);
    } else {
      FinishedEnds(room, k, now);
    }
  }

  lemma SwitchedTurns(room: Room, k: nat)
    requires k in room.topics && k + 1 in room.topics
    ensures Switched(room, k).turns == room.turns
  {
  }

  lemma StillQuiet(room: Room)
    ensures Quiet(room, room)
  {
  }

  /** What an accepted turn may do to its room. */
  lemma SaidRoom(room: Room, c: Catalog, user: UserId, id: string, intent: Intent, message: string, now: Time)
    requires RoomOk(room)
    ensures var tx := AppendTurn(room, c, user, id, intent, message, now);
            && (tx.room == room
                || (tx.reply == Done && room.moment.None? && tx.room.turns != map[]
                    && ((Quiet(room, tx.room) && tx.room.moment.None?) || Ends(room, tx.room))))
  {
    hide *;
    var tx := AppendTurn(room, c, user, id, intent, message, now);
    if tx.reply == Done {
      ActiveTopics(room, c, user, id, intent, message, now);
      AppendedTurn(room, c, user, id, intent, message, now);
      MomentOnlyAfterOk(room);
      var k := room.share.value.topic;
      var turn := Turn(id, user, Some(k), intent, message);
      var mid := room.(turns := Spoken(room.turns, turn));
      SpokenSize(room.turns, turn);
      SpokenIsMidTurn(room, k, turn);
      ProgressedRoom(mid, k, intent, now);
      StoringIsInvisible(room, mid.turns, tx.room);
    } else {
      RefusedKeepsRoom(room, c, user, id, intent, message, now);
    }
  }

  /** Who is present, and the session row, do not depend on the turns. */
  lemma StoringIsInvisible(room: Room, turns: map<nat, Turn>, r: Room)
    ensures Quiet(room.(turns := turns), r) ==> Quiet(room, r)
    ensures Ends(room.(turns := turns), r) ==> Ends(room, r)
  {
  }

  lemma SayKeeps(t: Tables, c: Catalog, user: UserId, s: SessionId, id: string, intent: Intent, message: string, now: Time)
    requires TablesOk(t)
    ensures TablesOk(Say(t, c, user, s, id, intent, message, now).tables)
  {
    hide RoomOk, TablesOk, AppendTurn, OnDialogue, Quiet, Ends;
    if s in t.rooms {
      RoomIsOk(t, s);
      SaidRoom(t.rooms[s], c, user, id, intent, message, now);
      AppendTurnPreserves(t.rooms[s], c, user, id, intent, message, now);
      StillQuiet(t.rooms[s]);
      OnDialogueKeeps(t, s, AppendTurn(t.rooms[s], c, user, id, intent, message, now));
    }
  }

  lemma FinalizeKeeps(t: Tables, user: UserId, s: SessionId)
    requires TablesOk(t)
    ensures TablesOk(Finalize(t, user, s).tables)
  {
    hide RoomOk, TablesOk, FinalizeMoment, OnDialogue, Quiet, Ends;
    if s in t.rooms {
      RoomIsOk(t, s);
      FinalizeQuiet(t.rooms[s], user);
      FinalizeMomentPreserves(t.rooms[s], user);
      OnDialogueKeeps(t, s, FinalizeMoment(t.rooms[s], user));
    }
  }

  // ------------------------------------------------------------------ settlements

  lemma UnbookingKeeps(t: Tables, t': Tables)
    requires SettlementsOk(t) && Unbooking(t, t')
    ensures SettlementsOk(t')
  {
    hide LedgerOk, Entries, Sum, Pairs, RowsCount;
    forall k | k in t'.ledger.settlements ensures k.0 in t'.rooms {
      assert k.0 in t.rooms.Keys;
    }
    forall s | s in t'.rooms ensures BookedOk(t'.ledger, s, t'.rooms[s]) {
      if s in t.rooms {
        assert BookedOk(t.ledger, s, t.rooms[s]);
      } else {
        assert SessionRows(t.ledger, s) == {};
      }
    }
  }

  lemma EntriesAreDistinct(ps: map<UserId, Participant>, us: seq<UserId>)
    requires DistinctCompanions(ps) && Sorted(ps, us) && forall i :: 0 <= i < |us| ==> us[i] in ps
    ensures DistinctEntries(EntriesOf(ps, us))
  {
    hide Sorted;
    var es := EntriesOf(ps, us);
    forall i, j | 0 <= i < j < |es| ensures es[i].companion != es[j].companion && es[i].user != es[j].user {
      SortedDistinct(ps, us, i, j);
    }
  }

  lemma EntriesAreUsers(ps: map<UserId, Participant>, us: seq<UserId>)
    requires forall i :: 0 <= i < |us| ==> us[i] in ps
    ensures forall u :: u in Users(EntriesOf(ps, us)) <==> u in us
  {
    var es := EntriesOf(ps, us);
    forall u | u in us ensures u in Users(es) {
      var i :| 0 <= i < |us| && us[i] == u;
      assert es[i].user == u;
    }
  }

  /** The ready participants, each once, with distinct companions. */
  lemma EntriesAreReady(room: Room)
    requires DistinctCompanions(room.participants)
    ensures DistinctEntries(Entries(room)) && Users(Entries(room)) == ReadyUsers(room)
  {
    hide DistinctCompanions, DistinctEntries, Users, Sorted, Ordered, EntriesOf;
    var ps, us := room.participants, Ordered(room.participants, ReadyUsers(room));
    OrderedSorts(ps, ReadyUsers(room));
    OrderedMembers(ps, ReadyUsers(room));
    EntriesAreDistinct(ps, us);
    EntriesAreUsers(ps, us);
    assert Entries(room) == EntriesOf(ps, us);
    assert forall u :: u in Users(Entries(room)) <==> u in ReadyUsers(room);
  }

  lemma SendersAreReady(room: Room)
    requires TurnsOk(room)
    ensures forall i :: i in room.turns ==> room.turns[i].sender in ReadyUsers(room)
  {
    forall i | i in room.turns ensures room.turns[i].sender in ReadyUsers(room) {
      assert TurnOk(room.share, room.participants, room.turns[i]);
    }
  }

  lemma NoEntriesNoUsers(entries: seq<Entry>)
    ensures entries == [] ==> Users(entries) == {}
  {
  }

  /** Settling distinct entries for a session without rows: each pair once, and in total every
      turn once per other companion. */
  lemma FreshBooks(l: Ledger, s: SessionId, es: seq<Entry>, turns: map<nat, Turn>)
    requires SessionRows(l, s) == {} && DistinctEntries(es) && es != []
    requires forall i :: i in turns ==> turns[i].sender in Users(es)
    ensures var l' := SettleAll(l, s, es, turns);
            && Booked(l, l', s, Pairs(es))
            && (forall p :: (s, p) in l'.settlements <==> p in Pairs(es))
            && RowsCount(l', s, es, turns)
            && Sum(l'.settlements, SessionRows(l', s)) == (|es| - 1) * |turns|
  {
    forall p ensures (s, p) !in l.settlements {
      assert (s, p) !in SessionRows(l, s);
    }
    hide Pairs, DistinctEntries, Users, SessionRows, RowsCount;
    SettleAllBooks(l, s, es, turns);
    SettleAllCounts(l, s, es, turns);
    DoubleCounting(es, turns);
  }

  lemma CompanionsDiffer(room: Room)
    requires MembersOk(room)
    ensures DistinctCompanions(room.participants)
  {
    hide DistinctCompanions;
  }

  lemma MomentBooks(l: Ledger, s: SessionId, room: Room)
    requires LedgerOk(l) && SessionRows(l, s) == {} && MembersOk(room) && TurnsOk(room)
    requires room.turns != map[] && room.moment.Some?
    ensures var l' := SettleAll(l, s, Entries(room), room.turns);
            LedgerOk(l') && Booked(l, l', s, Pairs(Entries(room))) && BookedOk(l', s, room)
  {
    hide LedgerOk, MembersOk, TurnsOk, Entries, DistinctEntries, Users, Pairs, SessionRows, Booked, DistinctCompanions, ReadyUsers, Sum, SettleAll, RowsCount;
    CompanionsDiffer(room);
    EntriesAreReady(room);
    SendersAreReady(room);
    var es := Entries(room);
    NoEntriesNoUsers(es);
    assert room.turns.Keys != {};
    var i := Member(room.turns.Keys);
    assert room.turns[i].sender in Users(es);
    SettleAllKeeps(l, s, es, room.turns);
    FreshBooks(l, s, es, room.turns);
  }

  /** Booking one session leaves the others' rows alone. */
  lemma BookedElsewhere(l: Ledger, l': Ledger, s: SessionId, ps: set<Pair>, q: SessionId, room: Room)
    requires Booked(l, l', s, ps) && q != s && BookedOk(l, q, room)
    ensures BookedOk(l', q, room)
  {
    hide Entries, Pairs, RowCounts;
    forall a, b, turns | RowCounts(l, q, a, b, turns) ensures RowCounts(l', q, a, b, turns) {
      RowCountsStay(l, l', s, ps, q, a, b, turns);
    }
    assert SessionRows(l', q) == SessionRows(l, q);
    SumFrame(l.settlements, l'.settlements, SessionRows(l, q));
  }

  lemma OnDialogueSettles(t: Tables, s: SessionId, tx: RoomTx)
    requires SettlementsOk(t) && s in t.rooms && RoomOk(tx.room)
    requires t.rooms[s].moment.Some? ==> tx.room == t.rooms[s]
    requires t.rooms[s].moment.None? && tx.room.moment.Some? ==> tx.room.turns != map[]
    ensures SettlementsOk(OnDialogue(t, s, tx).tables)
  {
    hide LedgerOk, Entries, Sum, SettleAll, WithoutSession, Pairs, MembersOk, DialogueOk, RowOk, TurnsOk;
    var t' := OnDialogue(t, s, tx).tables;
    assert BookedOk(t.ledger, s, t.rooms[s]);
    if t.rooms[s].moment.None? && tx.room.moment.Some? {
      TurnsAreOk(tx.room);
      MomentBooks(t.ledger, s, tx.room);
      hide BookedOk;
      forall q | q in t'.rooms ensures BookedOk(t'.ledger, q, t'.rooms[q]) {
        if q != s {
          BookedElsewhere(t.ledger, t'.ledger, s, Pairs(Entries(tx.room)), q, t.rooms[q]);
        }
      }
    } else {
      UnbookingKeeps(t, t');
    }
  }

  lemma TurnsAreOk(room: Room)
    requires RoomOk(room)
    ensures MembersOk(room) && TurnsOk(room)
  {
    hide MembersOk, TurnsOk;
  }

  // ------------------------------------------------------------------ every step, every run

  /** Invitations and join requests that leave rooms and ledger alone. */
  lemma SameRoomsUnbook(t: Tables, t': Tables)
    requires t'.rooms == t.rooms && t'.ledger == t.ledger
    ensures Unbooking(t, t')
  {
  }

  lemma InvitationStepKeeps(t: Tables, step: Step)
    requires TablesOk(t) && (step.InviteStep? || step.RespondStep? || step.ExpireInvitationStep?)
    ensures TablesOk(Apply(t, step)) && Unbooking(t, Apply(t, step))
  {
    hide ReservationsOk, SessionsOk, Unbooking, CreateInvitation, RespondToInvitation, ExpireInvitation;
    match step {
      case InviteStep(c, visitor, host, available, mode, choice, now, ttl, id) =>
        CreateInvitationKeeps(t, c, visitor, host, available, mode, choice, now, ttl, id);
      case RespondStep(user, id, asHost) => RespondToInvitationKeeps(t, user, id, asHost);
      case ExpireInvitationStep(id, now) => ExpireInvitationKeeps(t, id, now);
    }
    SameRoomsUnbook(t, Apply(t, step));
  }

  lemma AcceptUnbooks(t: Tables, c: Catalog, host: UserId, id: InvitationId, now: Time, s: SessionId, hostRow: int, visitorRow: int)
    requires TablesOk(t)
    ensures Unbooking(t, AcceptInvitation(t, c, host, id, now, s, hostRow, visitorRow).tables)
  {
    hide ReservationsOk, SessionsOk, AcceptInvitation, Fresh, AcceptanceRefusal;
    var tx := AcceptInvitation(t, c, host, id, now, s, hostRow, visitorRow);
    if tx.reply == Done {
      AcceptedTables(t, c, host, id, now, s, hostRow, visitorRow);
    } else {
      NotAcceptedTables(t, c, host, id, now, s, hostRow, visitorRow);
    }
  }

  lemma AdmitUnbooks(t: Tables, c: Catalog, host: UserId, id: RequestId, now: Time, row: int)
    requires TablesOk(t)
    ensures Unbooking(t, AcceptJoinRequest(t, c, host, id, now, row).tables)
  {
    hide ReservationsOk, SessionsOk, AcceptJoinRequest, RoomOk, SameSession;
    var tx := AcceptJoinRequest(t, c, host, id, now, row);
    if tx.reply == Done {
      AdmittedRoom(t, c, host, id, now, row);
    } else {
      NotAdmitted(t, c, host, id, now, row);
    }
  }

  lemma LeaveUnbooks(t: Tables, user: UserId, s: SessionId)
    requires TablesOk(t)
    ensures Unbooking(t, LeaveSession(t, user, s).tables)
  {
    hide TablesOk, RoomOk, LeaveRoom, WithoutUser;
    if s in t.rooms {
      RoomIsOk(t, s);
      LeaveSame(t.rooms[s], user);
    }
  }

  lemma RequestStepKeeps(t: Tables, step: Step)
    requires TablesOk(t) && (step.RequestStep? || step.RespondRequestStep? || step.ExpireRequestStep?)
    ensures TablesOk(Apply(t, step)) && Unbooking(t, Apply(t, step))
  {
    hide ReservationsOk, SessionsOk, Unbooking, CreateJoinRequest, SettleRequest;
    match step {
      case RequestStep(c, user, s, choice, now, id) => CreateJoinRequestKeeps(t, c, user, s, choice, now, id);
      case RespondRequestStep(user, id, asHost) =>
        if id in t.requests && t.requests[id].status == Pending {
          SettleRequestKeeps(t, id, if asHost then Declined else Withdrawn);
        }
      case ExpireRequestStep(id, now) =>
        if id in t.requests && t.requests[id].status == Pending {
          SettleRequestKeeps(t, id, Expired);
        }
    }
    SameRoomsUnbook(t, Apply(t, step));
  }

  lemma SeatStepKeeps(t: Tables, step: Step)
    requires TablesOk(t) && (step.AcceptStep? || step.AdmitStep? || step.LeaveStep?)
    ensures TablesOk(Apply(t, step)) && Unbooking(t, Apply(t, step))
  {
    hide ReservationsOk, SessionsOk, Unbooking, AcceptInvitation, AcceptJoinRequest, LeaveSession;
    match step {
      case AcceptStep(c, user, id, now, s, hostRow, visitorRow) =>
        AcceptInvitationKeeps(t, c, user, id, now, s, hostRow, visitorRow);
        AcceptUnbooks(t, c, user, id, now, s, hostRow, visitorRow);
      case AdmitStep(c, user, id, now, row) =>
        AcceptJoinRequestKeeps(t, c, user, id, now, row);
        AdmitUnbooks(t, c, user, id, now, row);
      case LeaveStep(user, s) =>
        LeaveKeeps(t, user, s);
        LeaveUnbooks(t, user, s);
    }
  }

  lemma RoomStepKeeps(t: Tables, step: Step)
    requires TablesOk(t)
    requires step.ReadyStep? || step.StartStep? || step.EndStep? || step.CloseStep? || step.RevokeStep?
          || step.ParticipantReadyStep? || step.ShareStep?
    ensures TablesOk(Apply(t, step)) && Unbooking(t, Apply(t, step))
  {
    hide TablesOk, Unbooking, MarkSessionReady, Start, End, CloseSession, RevokeCompanion, MarkParticipantReady, ShareTopic;
    match step {
      case ReadyStep(c, user, s, now) => MarkSessionReadyKeeps(t, c, user, s, now);
      case StartStep(c, user, s, now) => StartKeeps(t, c, user, s, now);
      case EndStep(user, s, now) => EndKeeps(t, user, s, now);
      case CloseStep(s, now) => CloseSessionKeeps(t, s, now);
      case RevokeStep(companion, now) => RevokeCompanionKeeps(t, companion, now);
      case ParticipantReadyStep(user, s, now) => MarkParticipantReadyKeeps(t, user, s, now);
      case ShareStep(c, user, s, content) => ShareTopicKeeps(t, c, user, s, content);
    }
  }

  lemma SaySettles(t: Tables, c: Catalog, user: UserId, s: SessionId, id: string, intent: Intent, message: string, now: Time)
    requires TablesOk(t) && SettlementsOk(t)
    ensures SettlementsOk(Say(t, c, user, s, id, intent, message, now).tables)
  {
    hide RoomOk, TablesOk, SettlementsOk, AppendTurn, OnDialogue, Quiet, Ends;
    if s in t.rooms {
      RoomIsOk(t, s);
      SaidRoom(t.rooms[s], c, user, id, intent, message, now);
      AppendTurnPreserves(t.rooms[s], c, user, id, intent, message, now);
      OnDialogueSettles(t, s, AppendTurn(t.rooms[s], c, user, id, intent, message, now));
    }
  }

  lemma FinalizeSettles(t: Tables, user: UserId, s: SessionId)
    requires TablesOk(t) && SettlementsOk(t)
    ensures SettlementsOk(Finalize(t, user, s).tables)
  {
    hide RoomOk, TablesOk, SettlementsOk, OnDialogue, Quiet, Ends;
    if s in t.rooms {
      RoomIsOk(t, s);
      FinalizeQuiet(t.rooms[s], user);
      FinalizeMomentPreserves(t.rooms[s], user);
      OnDialogueSettles(t, s, FinalizeMoment(t.rooms[s], user));
    }
  }

  lemma DialogueStepKeeps(t: Tables, step: Step)
    requires VisitOk(t) && (step.SayStep? || step.FinalizeStep?)
    ensures VisitOk(Apply(t, step))
  {
    hide TablesOk, SettlementsOk, Say, Finalize;
    match step {
      case SayStep(c, user, s, id, intent, message, now) =>
        SayKeeps(t, c, user, s, id, intent, message, now);
        SaySettles(t, c, user, s, id, intent, message, now);
      case FinalizeStep(user, s) =>
        FinalizeKeeps(t, user, s);
        FinalizeSettles(t, user, s);
    }
  }

  /** No transaction breaks the invariant, whoever calls it, with whatever arguments, and whatever
      accounts, friendships, companions and packs have become in the meantime. */
  lemma ApplyKeeps(t: Tables, step: Step)
    requires VisitOk(t)
    ensures VisitOk(Apply(t, step))
  {
    hide TablesOk, SettlementsOk, Apply, Unbooking;
    if step.SayStep? || step.FinalizeStep? {
      DialogueStepKeeps(t, step);
    } else {
      if step.InviteStep? || step.RespondStep? || step.ExpireInvitationStep? {
        InvitationStepKeeps(t, step);
      } else if step.AcceptStep? || step.AdmitStep? || step.LeaveStep? {
        SeatStepKeeps(t, step);
      } else if step.RequestStep? || step.RespondRequestStep? || step.ExpireRequestStep? {
        RequestStepKeeps(t, step);
      } else {
        RoomStepKeeps(t, step);
      }
      UnbookingKeeps(t, Apply(t, step));
    }
  }

  lemma EmptyTablesOk()
    ensures VisitOk(EmptyTables)
  {
    assert forall p :: PairRows(EmptyLedger, p) == {};
  }

  /** Every reachable state satisfies the invariant. */
  lemma {:induction false} RunKeeps(t: Tables, steps: seq<Step>)
    requires VisitOk(t)
    ensures VisitOk(Run(t, steps))
    decreases |steps|
  {
    if steps != [] {
      ApplyKeeps(t, steps[0]);
      RunKeeps(Apply(t, steps[0]), steps[1..]);
    }
  }

  lemma ReachableVisit(steps: seq<Step>)
    ensures VisitOk(Run(EmptyTables, steps))
  {
    EmptyTablesOk();
    RunKeeps(EmptyTables, steps);
    hide Run, TablesOk, SettlementsOk;
  }
}
