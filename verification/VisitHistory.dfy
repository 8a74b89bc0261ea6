/** What a run can do to a session it did not create: states only move forward, what has been said
    stays said, and a session that is over stays as it was. */
module VisitHistory {
  import opened Common
  import opened Replies
  import opened Catalog
  import opened Rooms
  import opened RoomInvariant
  import opened TurnTaking
  import opened Settlement
  import opened Visit
  import opened VisitInvariant
  import opened VisitRuns

  function StateRank(s: SessionState): nat {
    match s case Preparing => 0 case Ready => 1 case Active => 2 case _ => 3
  }

  /** A stamp, once set, keeps its value. */
  ghost predicate Kept<T>(a: Option<T>, b: Option<T>) { a.Some? ==> b == a }

  /** The session row moves forward only; a terminal state is absorbing. */
  ghost predicate RowAdvances(a: SessionRow, b: SessionRow) {
    && SameSession(a, b) && b.capacity == a.capacity && b.hostCompanion == a.hostCompanion
    && StateRank(a.state) <= StateRank(b.state)
    && Kept(a.visitorReadyAt, b.visitorReadyAt) && Kept(a.hostReadyAt, b.hostReadyAt) && Kept(a.readyAt, b.readyAt)
    && Kept(a.startedAt, b.startedAt) && Kept(a.endedAt, b.endedAt)
    && (Terminal(a.state) ==> b == a)
  }

  /** Turns are only added, and a topic never goes back to an earlier state. */
  ghost predicate DialogueAdvances(a: Room, b: Room) {
    && (forall i :: i in a.turns ==> i in b.turns && b.turns[i] == a.turns[i])
    && (forall k :: k in a.topics ==> k in b.topics && TopicRank(b.topics[k].state) <= TopicRank(a.topics[k].state))
  }

  /** A room that is over changes only by its shared moment, and that only once. */
  ghost predicate Settled(a: Room, b: Room) {
    && (Terminal(a.row.state) ==> b == a.(moment := b.moment))
    && Kept(a.moment, b.moment)
  }

  ghost predicate Advances(a: Room, b: Room) { RowAdvances(a.row, b.row) && DialogueAdvances(a, b) && Settled(a, b) }

  lemma AdvancesTransitive(a: Room, b: Room, c: Room)
    requires Advances(a, b) && Advances(b, c)
    ensures Advances(a, c)
  {
  }

  lemma AdvancesReflexive(room: Room)
    ensures Advances(room, room)
  {
  }

  // ------------------------------------------------------------------ one room

  lemma MarkReadyAdvances(room: Room, c: Catalog, user: UserId, now: Time)
    requires RoomOk(room)
    ensures Advances(room, MarkReady(room, c, user, now).room)
  {
    hide MembersOk, DialogueOk;
  }

  lemma StartAdvances(room: Room, c: Catalog, user: UserId, now: Time)
    requires RoomOk(room)
    ensures Advances(room, StartSession(room, c, user, now).room)
  {
    hide MembersOk, DialogueOk;
  }

  lemma CloseAdvances(room: Room, state: SessionState, now: Time)
    requires RoomOk(room) && Live(room.row.state) && (state == Ended || state == Cancelled)
    ensures Advances(room, Close(room, state, now))
  {
    hide MembersOk, DialogueOk;
  }

  lemma EndAdvances(room: Room, user: UserId, now: Time)
    requires RoomOk(room)
    ensures Advances(room, EndSession(room, user, now).room)
  {
    if Terminal(room.row.state) {
      OverIsLeft(room);
    } else {
      CloseAdvances(room, if room.row.state == Preparing || room.row.state == Ready then Cancelled else Ended, now);
    }
    hide RoomOk;
  }

  lemma CloseLiveAdvances(room: Room, now: Time)
    requires RoomOk(room)
    ensures Advances(room, CloseLive(room, now))
  {
    if Live(room.row.state) {
      CloseAdvances(room, if room.row.state == Active then Ended else Cancelled, now);
    }
    hide RoomOk;
  }

  lemma ParticipantReadyAdvances(room: Room, user: UserId, now: Time)
    requires RoomOk(room)
    ensures Advances(room, ParticipantReady(room, user, now).room)
  {
    if user in room.participants {
      assert MemberOk(room.row, user, room.participants[user]);
    }
    hide RoomOk;
  }

  lemma LeaveAdvances(room: Room, user: UserId)
    requires RoomOk(room)
    ensures Advances(room, LeaveRoom(room, user).room)
  {
    if user in room.participants {
      assert MemberOk(room.row, user, room.participants[user]);
    }
    hide RoomOk;
  }

  lemma SeatAdvances(room: Room, user: UserId, guest: Participant, topic: Option<Topic>)
    requires Live(room.row.state) && room.moment.None?
    ensures Advances(room, Seat(room, user, guest, topic))
  {
  }

  lemma SetShareWrites(room: Room, c: Catalog, user: UserId, content: Content)
    ensures var r := SetShare(room, c, user, content).room;
            r == room
            || (&& room.row.state == Preparing && r == room.(topics := r.topics, share := r.share)
                && r.topics.Keys == room.topics.Keys + {1} && r.topics[1].state == Current
                && forall k :: k in room.topics && k != 1 ==> r.topics[k] == room.topics[k])
  {
    hide AllEligible, IsPresent;
  }

  lemma SetShareAdvances(room: Room, c: Catalog, user: UserId, content: Content)
    requires RoomOk(room)
    ensures Advances(room, SetShare(room, c, user, content).room)
  {
    hide RoomOk, SetShare;
    SetShareWrites(room, c, user, content);
    MomentOnlyAfterOk(room);
    if room.row.state == Preparing {
      PreparingTopics(room);
    }
  }

  lemma PreparingTopics(room: Room)
    requires RoomOk(room) && room.row.state == Preparing
    ensures forall k :: k in room.topics ==> k == 1 && room.topics[k].state == Current
  {
    hide MembersOk, TurnsOk;
  }

  lemma FinalizeAdvances(room: Room, user: UserId)
    ensures Advances(room, FinalizeMoment(room, user).room)
  {
  }

  lemma SwitchAdvances(room: Room, k: nat)
    requires TopicsOk(room.topics, room.share, true) && room.share.Some? && room.share.value.topic == k
    requires k in room.topics && k + 1 in room.topics && Live(room.row.state) && room.moment.None?
    ensures Advances(room, Switched(room, k))
  {
    var r := Switched(room, k);
    forall j | j in room.topics ensures j in r.topics && TopicRank(r.topics[j].state) <= TopicRank(room.topics[j].state) {
      assert j < k || j == k || j > k;
    }
  }

  lemma FinishAdvances(room: Room, k: nat, now: Time)
    requires k in room.topics && Live(room.row.state) && room.moment.None? && room.row.endedAt.None?
    ensures Advances(room, Finished(room, k, now))
  {
  }

  lemma ProgressAdvances(room: Room, k: nat, intent: Intent, now: Time)
    requires MidTurn(room, k)
    ensures k in room.topics && Advances(room, Progress(room, k, |room.turns|, intent, now))
  {
    ProgressCases(room, k, intent, now);
    StillGoing(room, k);
    hide RoomOk, RowOk, MembersOk, TurnsOk, ShareOk, TopicsOk, Progress, Advances, Switched, Finished;
    if KeepsTopic(room, k, |room.turns|, intent) {
      AdvancesReflexive(room);
    } else if |room.turns| < ROOM_MAX_TURNS && k < |room.topics| {
      SwitchAdvances(room, k);
    } else {
      FinishAdvances(room, k, now);
    }
  }

  lemma StillGoing(room: Room, k: nat)
    requires MidTurn(room, k)
    ensures Live(room.row.state) && room.moment.None? && room.row.endedAt.None?
  {
    hide MembersOk, TurnsOk, TopicsOk, ShareOk;
  }

  lemma StoringAdvances(room: Room, turn: Turn)
    requires Dense(room.turns) && Live(room.row.state)
    ensures Advances(room, room.(turns := Spoken(room.turns, turn)))
  {
  }

  lemma AppendTurnAdvances(room: Room, c: Catalog, user: UserId, id: string, intent: Intent, message: string, now: Time)
    requires RoomOk(room)
    ensures Advances(room, AppendTurn(room, c, user, id, intent, message, now).room)
  {
    hide *;
    var tx := AppendTurn(room, c, user, id, intent, message, now);
    if tx.reply == Done {
      ActiveTopics(room, c, user, id, intent, message, now);
      AppendedTurn(room, c, user, id, intent, message, now);
      var k := room.share.value.topic;
      var turn := Turn(id, user, Some(k), intent, message);
      var mid := room.(turns := Spoken(room.turns, turn));
      SpokenSize(room.turns, turn);
      SpokenIsMidTurn(room, k, turn);
      ProgressAdvances(mid, k, intent, now);
      StoringAdvances(room, turn) by { ActiveIsLive(room); }
      AdvancesTransitive(room, mid, tx.room);
    } else {
      RefusedKeepsRoom(room, c, user, id, intent, message, now);
      AdvancesReflexive(room);
    }
  }

  lemma ActiveIsLive(room: Room)
    ensures room.row.state == Active ==> Live(room.row.state)
  {
  }

  // ------------------------------------------------------------------ all rooms

  ghost predicate AllAdvance(t: Tables, t': Tables) {
    forall s :: s in t.rooms ==> s in t'.rooms && Advances(t.rooms[s], t'.rooms[s])
  }

  lemma SameRoomsAdvance(t: Tables, t': Tables)
    requires t'.rooms == t.rooms
    ensures AllAdvance(t, t')
  {
    forall s | s in t.rooms ensures Advances(t.rooms[s], t'.rooms[s]) {
      AdvancesReflexive(t.rooms[s]);
    }
  }

  /** One room is rewritten. */
  lemma OneRoomAdvances(t: Tables, t': Tables, s: SessionId)
    requires s in t.rooms && t'.rooms.Keys == t.rooms.Keys && Advances(t.rooms[s], t'.rooms[s])
    requires forall q :: q in t.rooms && q != s ==> t'.rooms[q] == t.rooms[q]
    ensures AllAdvance(t, t')
  {
    hide Advances;
    forall q | q in t.rooms ensures Advances(t.rooms[q], t'.rooms[q]) {
      if q != s {
        AdvancesReflexive(t.rooms[q]);
      }
    }
  }

  lemma OneRoomStepAdvances(t: Tables, step: Step)
    requires TablesOk(t)
    requires step.ReadyStep? || step.StartStep? || step.EndStep? || step.CloseStep? || step.ParticipantReadyStep?
          || step.ShareStep? || step.LeaveStep? || step.SayStep? || step.FinalizeStep?
    ensures AllAdvance(t, Apply(t, step))
  {
    hide TablesOk, RoomOk, Advances, AllAdvance, MarkReady, StartSession, EndSession, CloseLive, ParticipantReady, SetShare,
         LeaveRoom, AppendTurn, FinalizeMoment, SettleAll, Entries, WithoutSession, WithoutUser, Live;
    if step.session in t.rooms {
      var s := step.session;
      RoomIsOk(t, s);
      match step {
        case ReadyStep(c, user, _, now) => MarkReadyAdvances(t.rooms[s], c, user, now);
        case StartStep(c, user, _, now) => StartAdvances(t.rooms[s], c, user, now);
        case EndStep(user, _, now) => EndAdvances(t.rooms[s], user, now);
        case CloseStep(_, now) => CloseLiveAdvances(t.rooms[s], now);
        case ParticipantReadyStep(user, _, now) => ParticipantReadyAdvances(t.rooms[s], user, now);
        case ShareStep(c, user, _, content) => SetShareAdvances(t.rooms[s], c, user, content);
        case LeaveStep(user, _) => LeaveAdvances(t.rooms[s], user);
        case SayStep(c, user, _, id, intent, message, now) => AppendTurnAdvances(t.rooms[s], c, user, id, intent, message, now);
        case FinalizeStep(user, _) => FinalizeAdvances(t.rooms[s], user);
      }
      AdvancesReflexive(t.rooms[s]);
      OneRoomAdvances(t, Apply(t, step), s);
    } else {
      SameRoomsAdvance(t, Apply(t, step));
    }
  }

  /** Accepting an invitation adds a room. */
  lemma AcceptAdvances(t: Tables, c: Catalog, host: UserId, id: InvitationId, now: Time, s: SessionId, hostRow: int, visitorRow: int)
    requires TablesOk(t)
    ensures AllAdvance(t, AcceptInvitation(t, c, host, id, now, s, hostRow, visitorRow).tables)
  {
    hide ReservationsOk, SessionsOk, AcceptInvitation, Fresh, AcceptanceRefusal, Advances;
    var tx := AcceptInvitation(t, c, host, id, now, s, hostRow, visitorRow);
    if tx.reply == Done {
      AcceptedTables(t, c, host, id, now, s, hostRow, visitorRow);
    } else {
      NotAcceptedTables(t, c, host, id, now, s, hostRow, visitorRow);
    }
    forall q | q in t.rooms ensures Advances(t.rooms[q], tx.tables.rooms[q]) {
      AdvancesReflexive(t.rooms[q]);
    }
  }

  lemma AdmitAdvances(t: Tables, c: Catalog, host: UserId, id: RequestId, now: Time, row: int)
    requires TablesOk(t)
    ensures AllAdvance(t, AcceptJoinRequest(t, c, host, id, now, row).tables)
  {
    hide ReservationsOk, SessionsOk, RoomOk, Advances, AcceptJoinRequest, AllAdvance;
    var tx := AcceptJoinRequest(t, c, host, id, now, row);
    if tx.reply == Done {
      AdmittedRoom(t, c, host, id, now, row);
      SeatedRoom(t, c, host, id, now, row);
      OneRoomAdvances(t, tx.tables, t.requests[id].session);
    } else {
      NotAdmitted(t, c, host, id, now, row);
      SameRoomsAdvance(t, tx.tables);
    }
  }

  lemma SeatedRoom(t: Tables, c: Catalog, host: UserId, id: RequestId, now: Time, row: int)
    requires AcceptJoinRequest(t, c, host, id, now, row).reply == Done
    requires id in t.requests && t.requests[id].session in t.rooms
    requires t.rooms[t.requests[id].session].moment.None?
    ensures Advances(t.rooms[t.requests[id].session],
                     AcceptJoinRequest(t, c, host, id, now, row).tables.rooms[t.requests[id].session])
  {
    hide Advances, Eligible, StatusTaken, SeatTaken, Seat;
    var r := t.requests[id];
    SeatAdvances(t.rooms[r.session], r.requester, Participant(row, r.companion, Guest, Arriving, None, now), UsableTopic(r.topic, Queued));
  }

  lemma RevokeAdvances(t: Tables, companion: CompanionId, now: Time)
    requires TablesOk(t)
    ensures AllAdvance(t, RevokeCompanion(t, companion, now))
  {
    hide TablesOk, RoomOk, Advances, CloseLive;
    forall s | s in t.rooms ensures Advances(t.rooms[s], RevokeCompanion(t, companion, now).rooms[s]) {
      RoomIsOk(t, s);
      CloseLiveAdvances(t.rooms[s], now);
      AdvancesReflexive(t.rooms[s]);
    }
  }

  lemma ApplyAdvances(t: Tables, step: Step)
    requires VisitOk(t)
    ensures AllAdvance(t, Apply(t, step))
  {
    hide TablesOk, SettlementsOk, AllAdvance, Apply;
    if step.InviteStep? || step.RespondStep? || step.ExpireInvitationStep? || step.RequestStep? || step.RespondRequestStep? || step.ExpireRequestStep? {
      OtherStepRooms(t, step);
      SameRoomsAdvance(t, Apply(t, step));
    } else if step.AcceptStep? {
      AcceptAdvances(t, step.catalog, step.user, step.invitation, step.now, step.session, step.hostRow, step.visitorRow);
      ApplyAccept(t, step);
    } else if step.AdmitStep? {
      AdmitAdvances(t, step.catalog, step.user, step.request, step.now, step.row);
      ApplyAdmit(t, step);
    } else if step.RevokeStep? {
      RevokeAdvances(t, step.companion, step.now);
      ApplyRevoke(t, step);
    } else {
      OneRoomStepAdvances(t, step);
    }
  }

  lemma ApplyAccept(t: Tables, step: Step)
    requires step.AcceptStep?
    ensures Apply(t, step) ==
            AcceptInvitation(t, step.catalog, step.user, step.invitation, step.now, step.session, step.hostRow, step.visitorRow).tables
  {
    hide AcceptInvitation;
  }

  lemma ApplyAdmit(t: Tables, step: Step)
    requires step.AdmitStep?
    ensures Apply(t, step) == AcceptJoinRequest(t, step.catalog, step.user, step.request, step.now, step.row).tables
  {
    hide AcceptJoinRequest;
  }

  lemma ApplyRevoke(t: Tables, step: Step)
    requires step.RevokeStep?
    ensures Apply(t, step) == RevokeCompanion(t, step.companion, step.now)
  {
    hide RevokeCompanion;
  }

  lemma OtherStepRooms(t: Tables, step: Step)
    requires step.InviteStep? || step.RespondStep? || step.ExpireInvitationStep?
          || step.RequestStep? || step.RespondRequestStep? || step.ExpireRequestStep?
    ensures Apply(t, step).rooms == t.rooms
  {
    hide CurrentSnapshot, Eligible, InGoodStanding, StatusTaken, Live;
  }

  /** Whatever happens later, no session goes back to an earlier state, no turn is changed or lost,
      and a session that is over keeps its row, its members, its topics and its turns. */
  lemma {:induction false} RunAdvances(t: Tables, steps: seq<Step>)
    requires VisitOk(t)
    ensures AllAdvance(t, Run(t, steps))
    decreases |steps|
  {
    if steps == [] {
      SameRoomsAdvance(t, t);
    } else {
      ApplyKeeps(t, steps[0]);
      ApplyAdvances(t, steps[0]);
      RunAdvances(Apply(t, steps[0]), steps[1..]);
      AllAdvanceTransitive(t, Apply(t, steps[0]), Run(t, steps));
    }
  }

  lemma AllAdvanceTransitive(t: Tables, mid: Tables, t': Tables)
    requires AllAdvance(t, mid) && AllAdvance(mid, t')
    ensures AllAdvance(t, t')
  {
    hide Advances;
    forall s | s in t.rooms ensures Advances(t.rooms[s], t'.rooms[s]) {
      AdvancesTransitive(t.rooms[s], mid.rooms[s], t'.rooms[s]);
    }
  }
}
