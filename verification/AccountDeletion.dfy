/** Account deletion against the Visit invariant: it keeps it exactly when the leaving user sits in no
    live session as a guest, at one deletion and over every run that mixes deletions with transactions. */
module AccountDeletion {
  import opened Common
  import opened Catalog
  import opened Rooms
  import opened RoomInvariant
  import opened Visit
  import opened VisitInvariant
  import opened VisitRuns
  import opened VisitPacks
  import opened JoinRequests
  import opened VisitWitnesses

  /** The live sessions in which the user is present without being its owner or host. */
  function GuestIn(t: Tables, u: UserId): set<SessionId> {
    set s | s in t.rooms && Live(t.rooms[s].row.state) && IsPresent(t.rooms[s], u) && !IsPrincipal(t.rooms[s], u)
  }

  // ------------------------------------------------------------------ what a deletion does

  ghost predicate IsOpen(room: Room) { room.row.state in {Preparing, Ready, Active, SessionState.Ending} }

  ghost predicate HasPart(room: Room, u: UserId) {
    u in {room.row.visitor, room.row.host} || (u in room.participants && room.participants[u].state != Left)
  }

  /** The room with everybody gone, and over if the user was one of its principals. */
  ghost predicate Deserted(room: Room, room': Room, u: UserId, now: Time) {
    && room' == room.(row := room'.row, participants := room'.participants)
    && room'.row == (if u !in {room.row.visitor, room.row.host} then room.row
                     else room.row.(state := if room.row.state in {Preparing, Ready} then Cancelled else Ended, endedAt := Some(now), packRef := None))
    && room'.participants.Keys == room.participants.Keys
    && forall v :: v in room.participants ==> room'.participants[v] == room.participants[v].(state := Left)
  }

  /** The hold is the user's own, on one of its invitations, or on a session it had part in. */
  ghost predicate Dropped(t: Tables, u: UserId, v: UserId, hold: Hold) {
    || v == u
    || (hold.Outgoing? && hold.invitation in t.invitations && t.invitations[hold.invitation].status == Pending
        && u in {t.invitations[hold.invitation].visitor, t.invitations[hold.invitation].host})
    || (!hold.Outgoing? && hold.session in t.rooms && IsOpen(t.rooms[hold.session]) && HasPart(t.rooms[hold.session], u))
  }

  /** Deleting an account withdraws what is pending from or to the user, deserts every open session it has part
      in, withdraws its requests, and lets go of exactly the holds on all that. */
  lemma DeletionDoes(t: Tables, u: UserId, now: Time)
    ensures var t' := DeleteAccountVisits(t, u, now);
            && t'.ledger == t.ledger && t'.invitations.Keys == t.invitations.Keys && t'.rooms.Keys == t.rooms.Keys && t'.requests.Keys == t.requests.Keys
            && (forall i :: i in t.invitations ==>
                  t'.invitations[i] == if t.invitations[i].status == Pending && u in {t.invitations[i].visitor, t.invitations[i].host}
                                       then t.invitations[i].(status := Withdrawn, packRef := None) else t.invitations[i])
            && (forall r :: r in t.requests ==>
                  t'.requests[r] == if t.requests[r].status == Pending && t.requests[r].requester == u
                                    then t.requests[r].(status := Withdrawn, packRef := None) else t.requests[r])
            && (forall s :: s in t.rooms ==>
                  if IsOpen(t.rooms[s]) && HasPart(t.rooms[s], u) then Deserted(t.rooms[s], t'.rooms[s], u, now) else t'.rooms[s] == t.rooms[s])
            && (forall v :: v in t'.reservations <==> v in t.reservations && !Dropped(t, u, v, t.reservations[v].hold))
            && (forall v :: v in t'.reservations ==> t'.reservations[v] == t.reservations[v])
  {
    forall s ensures s in AffectedBy(t, u) <==> s in t.rooms && IsOpen(t.rooms[s]) && HasPart(t.rooms[s], u) {
    }
    forall s | s in t.rooms && IsOpen(t.rooms[s]) && HasPart(t.rooms[s], u)
      ensures Deserted(t.rooms[s], DeleteAccountVisits(t, u, now).rooms[s], u, now)
    {
      assert s in LiveWith(t, u) <==> u in {t.rooms[s].row.visitor, t.rooms[s].row.host};
    }
    hide AffectedBy, IsOpen, HasPart, Deserted;
  }

  /** The part of the deletion that settles invitations and ends sessions. */
  ghost function Ending(t: Tables, u: UserId, now: Time): Tables {
    var ids, ended := PendingWith(t, u), LiveWith(t, u);
    t.(invitations := SettleInvitations(t.invitations, ids, Withdrawn),
       rooms := map s | s in t.rooms ::
         if s in ended then Close(t.rooms[s], DeletionState(t.rooms[s].row.state), now) else t.rooms[s],
       reservations := map v | v in t.reservations && !ReservedByInvitation(t.reservations[v], ids)
                            && !ReservedByAny(t.reservations[v], ended) :: t.reservations[v])
  }

  /** The part that withdraws the user's own join requests and reservation. */
  ghost function Withdrawing(t: Tables, u: UserId): Tables {
    t.(requests := map r | r in t.requests ::
         if t.requests[r].requester == u && t.requests[r].status == Pending
         then t.requests[r].(status := Withdrawn, packRef := None) else t.requests[r],
       reservations := t.reservations - {u})
  }

  lemma DeletionInTwo(t: Tables, u: UserId, now: Time)
    requires GuestIn(t, u) == {}
    ensures DeleteAccountVisits(t, u, now) == Withdrawing(Ending(t, u, now), u)
  {
    hide Close, Live, IsPresent, IsPrincipal, PendingWith, SettleInvitations;
    SameAffected(t, u);
    var a, b := DeleteAccountVisits(t, u, now), Withdrawing(Ending(t, u, now), u);
    assert a.rooms == b.rooms;
    assert forall v :: v in a.reservations <==> v in b.reservations;
    assert a.reservations == b.reservations;
  }

  lemma SameAffected(t: Tables, u: UserId)
    requires GuestIn(t, u) == {}
    ensures AffectedBy(t, u) == LiveWith(t, u)
  {
    forall s ensures s in AffectedBy(t, u) <==> s in LiveWith(t, u) {
      assert s !in GuestIn(t, u);
    }
  }

  lemma EndedRoom(t: Tables, u: UserId, s: SessionId, now: Time)
    requires TablesOk(t) && s in LiveWith(t, u)
    ensures var r := Close(t.rooms[s], DeletionState(t.rooms[s].row.state), now); Over(t.rooms[s], r) && RoomOk(r)
  {
    RoomIsOk(t, s);
    hide TablesOk, MembersOk, DialogueOk;
    ClosePreserves(t.rooms[s], DeletionState(t.rooms[s].row.state), now);
  }

  lemma EndingRooms(t: Tables, u: UserId, now: Time)
    requires TablesOk(t)
    ensures var t', ended := Ending(t, u, now), LiveWith(t, u);
            && t'.rooms.Keys == t.rooms.Keys
            && forall s :: s in t.rooms ==>
                 if s in ended then Over(t.rooms[s], t'.rooms[s]) && RoomOk(t'.rooms[s]) else t'.rooms[s] == t.rooms[s]
  {
    var t', ended := Ending(t, u, now), LiveWith(t, u);
    forall s | s in ended ensures Over(t.rooms[s], t'.rooms[s]) && RoomOk(t'.rooms[s]) {
      EndedRoom(t, u, s, now);
    }
    hide RoomOk, TablesOk, Over, Close, DeletionState, LiveWith, PendingWith;
  }

  lemma EndingReleases(t: Tables, u: UserId, now: Time)
    requires TablesOk(t)
    ensures Release(t, Ending(t, u, now), PendingWith(t, u), Withdrawn, LiveWith(t, u))
  {
    EndingRooms(t, u, now);
    hide RoomOk, TablesOk, Over, Close, DeletionState, LiveWith;
  }

  lemma EndingKeeps(t: Tables, u: UserId, now: Time)
    requires TablesOk(t)
    ensures TablesOk(Ending(t, u, now))
  {
    EndingReleases(t, u, now);
    hide ReservationsOk, SessionsOk, Ending, Release, PendingWith, LiveWith;
    ReleaseReservations(t, Ending(t, u, now), PendingWith(t, u), Withdrawn, LiveWith(t, u));
    ReleaseSessions(t, Ending(t, u, now), PendingWith(t, u), Withdrawn, LiveWith(t, u));
  }

  /** Without a guest's seat, a user's seat is its own session's. */
  lemma SeatIsOwn(t: Tables, u: UserId)
    requires ReservationsOk(t) && GuestIn(t, u) == {} && u in t.reservations && t.reservations[u].hold.Seated?
    ensures t.reservations[u].hold.session in LiveWith(t, u)
  {
    assert HoldOk(t, u, t.reservations[u]);
    assert t.reservations[u].hold.session !in GuestIn(t, u);
  }

  /** What the user still holds then is at most a join request. */
  lemma LeftHold(t: Tables, u: UserId, now: Time)
    requires TablesOk(t) && GuestIn(t, u) == {}
    ensures var t' := Ending(t, u, now); u in t'.reservations ==> t'.reservations[u].hold.Joining?
  {
    if u in t.reservations {
      assert HoldOk(t, u, t.reservations[u]);
      if t.reservations[u].hold.Seated? {
        SeatIsOwn(t, u);
      }
    }
    hide SessionsOk, ReservationsOk, LiveWith;
  }

  lemma WithdrawingKeeps(t: Tables, u: UserId)
    requires TablesOk(t) && (u in t.reservations ==> t.reservations[u].hold.Joining?)
    ensures TablesOk(Withdrawing(t, u))
  {
    var t' := Withdrawing(t, u);
    hide RoomOk;
    SessionsFrame(t, t');
    forall v | v in t'.reservations ensures HoldOk(t', v, t'.reservations[v]) {
      assert HoldOk(t, v, t.reservations[v]);
    }
    forall i | i in t'.invitations ensures InvitationOk(t', i, t'.invitations[i]) {
      assert InvitationOk(t, i, t.invitations[i]);
    }
    forall q | q in t'.rooms ensures SeatsHeld(t', q, t'.rooms[q]) {
      assert SeatsHeld(t, q, t.rooms[q]);
    }
    forall q | q in t'.requests ensures RequestOk(t', q, t'.requests[q]) {
      assert RequestOk(t, q, t.requests[q]);
    }
  }

  /** A guest who deletes the account empties a session that stays live: its host is marked as left
      and loses the reservation. */
  lemma GuestDeletionBreaks(t: Tables, u: UserId, s: SessionId, now: Time)
    requires TablesOk(t) && s in GuestIn(t, u)
    ensures var t' := DeleteAccountVisits(t, u, now);
            LiveRoom(t', s) && Present(t'.rooms[s]) == {} && !TablesOk(t')
  {
    var t' := DeleteAccountVisits(t, u, now);
    assert t'.rooms[s] == LeftRoom(t.rooms[s]);
    assert Present(t'.rooms[s]) == {};
    if TablesOk(t') {
      RoomIsOk(t', s);
      HostIsPresent(t'.rooms[s]);
    }
    hide *;
  }

  /** The transaction: refused by the index of join requests, it changes nothing. */
  function DeletionTx(t: Tables, u: UserId, now: Time): Tables {
    if WithdrawalRefused(t, u) then t else DeleteAccountVisits(t, u, now)
  }

  /** Account deletion keeps the Visit tables consistent if and only if the user is no guest, or the
      deletion is refused. */
  lemma DeletionKeepsExactly(t: Tables, u: UserId, now: Time)
    requires TablesOk(t)
    ensures TablesOk(DeletionTx(t, u, now)) <==> GuestIn(t, u) == {} || WithdrawalRefused(t, u)
  {
    hide TablesOk, GuestIn, WithdrawalRefused;
    if GuestIn(t, u) == {} {
      DeletionInTwo(t, u, now);
      EndingKeeps(t, u, now);
      LeftHold(t, u, now);
      WithdrawingKeeps(Ending(t, u, now), u);
    } else {
      var s := Member(GuestIn(t, u));
      GuestDeletionBreaks(t, u, s, now);
    }
  }

  // ------------------------------------------------------------------ the refusal

  lemma Withdrawn1(t: Tables, u: UserId, now: Time, r: RequestId)
    requires r in t.requests
    ensures var t' := DeleteAccountVisits(t, u, now);
            && r in t'.requests && t'.requests[r].session == t.requests[r].session && t'.requests[r].requester == t.requests[r].requester
            && t'.requests[r].status == if t.requests[r].requester == u && t.requests[r].status == Pending then Withdrawn else t.requests[r].status
  {
    hide PendingWith, LiveWith, AffectedBy, SettleInvitations, Close, LeftRoom;
  }

  /** The writes of the deletion respect the unique index exactly when it is not refused. */
  lemma RefusedExactly(t: Tables, u: UserId, now: Time)
    requires OneRequestEach(t)
    ensures OneRequestEach(DeleteAccountVisits(t, u, now)) <==> !WithdrawalRefused(t, u)
  {
    var t' := DeleteAccountVisits(t, u, now);
    forall r | r in t.requests
      ensures r in t'.requests && t'.requests[r].session == t.requests[r].session && t'.requests[r].requester == t.requests[r].requester
      ensures t'.requests[r].status == if t.requests[r].requester == u && t.requests[r].status == Pending then Withdrawn else t.requests[r].status
    {
      Withdrawn1(t, u, now, r);
    }
    assert t'.requests.Keys == t.requests.Keys;
    hide DeleteAccountVisits;
    if WithdrawalRefused(t, u) {
      var r :| r in t.requests && t.requests[r].requester == u && t.requests[r].status == Pending
            && StatusTaken(t, t.requests[r].session, u, Withdrawn);
      var q :| q in t.requests && t.requests[q].session == t.requests[r].session && t.requests[q].requester == u && t.requests[q].status == Withdrawn;
      assert SameKey(t'.requests[r], t'.requests[q]) && r != q;
    } else {
      forall a, b | a in t'.requests && b in t'.requests && SameKey(t'.requests[a], t'.requests[b]) ensures a == b {
        SameKeyBefore(t, u, a, b);
        SameKeyBefore(t, u, b, a);
        assert SameKey(t.requests[a], t.requests[b]);
      }
    }
  }

  /** A request that is withdrawn now meets no earlier cancelled one. */
  lemma SameKeyBefore(t: Tables, u: UserId, a: RequestId, b: RequestId)
    requires !WithdrawalRefused(t, u) && a in t.requests && b in t.requests
    requires t.requests[a].session == t.requests[b].session && t.requests[a].requester == t.requests[b].requester
    ensures !(t.requests[a].requester == u && t.requests[a].status == Pending && t.requests[b].status == Withdrawn)
  {
  }

  // ------------------------------------------------------------------ runs with deletions

  /** A Visit transaction, or the deletion of an account. */
  datatype Change = Transaction(step: Step) | Deletion(user: UserId, now: Time)

  function Commit(t: Tables, c: Change): Tables {
    match c
    case Transaction(step) => Apply(t, step)
    case Deletion(u, now) => DeletionTx(t, u, now)
  }

  ghost predicate Sound(t: Tables) { VisitOk(t) && OneRequestEach(t) }

  /** The user who leaves is a guest nowhere, or the deletion is refused. */
  ghost predicate SafeChange(t: Tables, c: Change) {
    c.Deletion? ==> GuestIn(t, c.user) == {} || WithdrawalRefused(t, c.user)
  }

  ghost predicate SafeChanges(t: Tables, changes: seq<Change>)
    decreases |changes|
  {
    changes != [] ==> SafeChange(t, changes[0]) && SafeChanges(Commit(t, changes[0]), changes[1..])
  }

  /** The invariant holds before, after and between the changes. */
  ghost predicate AlwaysSound(t: Tables, changes: seq<Change>)
    decreases |changes|
  {
    Sound(t) && (changes != [] ==> AlwaysSound(Commit(t, changes[0]), changes[1..]))
  }

  /** Deletion ends sessions, but books nothing and touches no shared moment. */
  lemma DeletionUnbooks(t: Tables, u: UserId, now: Time)
    requires TablesOk(t)
    ensures Unbooking(t, DeleteAccountVisits(t, u, now))
  {
    MomentsAreOver(t);
    hide TablesOk, PendingWith, SettleInvitations;
  }

  lemma CommitSound(t: Tables, c: Change)
    requires Sound(t) && SafeChange(t, c)
    ensures Sound(Commit(t, c))
  {
    hide TablesOk, SettlementsOk, OneRequestEach, GuestIn, WithdrawalRefused, Apply, DeleteAccountVisits;
    match c {
      case Transaction(step) =>
        ApplyKeeps(t, step);
        ApplyOrderly(t, step);
      case Deletion(u, now) =>
        DeletionKeepsExactly(t, u, now);
        if !WithdrawalRefused(t, u) {
          RefusedExactly(t, u, now);
          DeletionUnbooks(t, u, now);
          UnbookingKeeps(t, DeleteAccountVisits(t, u, now));
        }
    }
  }

  lemma UnsafeBreaks(t: Tables, c: Change)
    requires Sound(t) && !SafeChange(t, c)
    ensures !Sound(Commit(t, c))
  {
    hide TablesOk, SettlementsOk, OneRequestEach, GuestIn, WithdrawalRefused;
    DeletionKeepsExactly(t, c.user, c.now);
  }

  /** Over any mixture of Visit transactions and account deletions, the whole invariant and the unique index
      hold throughout if and only if every deletion is of a guest nowhere, or refused. */
  lemma {:induction false} SoundExactly(t: Tables, changes: seq<Change>)
    requires Sound(t)
    ensures AlwaysSound(t, changes) <==> SafeChanges(t, changes)
    decreases |changes|
  {
    hide Sound, Commit, SafeChange;
    if changes != [] {
      if SafeChange(t, changes[0]) {
        CommitSound(t, changes[0]);
        SoundExactly(Commit(t, changes[0]), changes[1..]);
      } else {
        UnsafeBreaks(t, changes[0]);
      }
    }
  }

  /** The same from empty tables. */
  lemma SoundFromEmpty(changes: seq<Change>)
    ensures AlwaysSound(EmptyTables, changes) <==> SafeChanges(EmptyTables, changes)
  {
    EmptyTablesOk();
    EmptyIndex();
    SoundExactly(EmptyTables, changes);
    hide *;
  }

  lemma EmptyIndex()
    ensures OneRequestEach(EmptyTables)
  {
  }

  // ------------------------------------------------------------------ both happen

  /** After a run from empty tables a guest sits in a live session; deleting that account leaves the
      session live and empty. */
  lemma GuestDeletionHappens(now: Time) returns (steps: seq<Step>, u: UserId)
    ensures var t := Run(EmptyTables, steps);
            && VisitOk(t) && GuestIn(t, u) != {} && !WithdrawalRefused(t, u) && !TablesOk(DeletionTx(t, u, now))
  {
    steps := Opening + [RequestStep(Friends3, GUEST, 1, NoTopic, 0, 1), AdmitStep(Friends3, HOST, 1, 1, 3)];
    u := GUEST;
    GuestIsIn();
    var t := Run(EmptyTables, steps);
    ReachableVisit(steps);
    TablesAreOk(t);
    hide *;
    InGuestIn(t, u, 1);
    NotRefused(t, u);
    GuestDeletionFails(t, u, 1, now);
  }

  lemma TablesAreOk(t: Tables)
    requires VisitOk(t)
    ensures TablesOk(t)
  {
    hide TablesOk, SettlementsOk;
  }

  lemma NotRefused(t: Tables, u: UserId)
    requires forall r :: r in t.requests ==> t.requests[r].status == Accepted
    ensures !WithdrawalRefused(t, u)
  {
  }

  lemma GuestDeletionFails(t: Tables, u: UserId, s: SessionId, now: Time)
    requires TablesOk(t) && s in GuestIn(t, u) && !WithdrawalRefused(t, u)
    ensures !TablesOk(DeletionTx(t, u, now)) && GuestIn(t, u) != {}
  {
    hide TablesOk, GuestIn, WithdrawalRefused;
    DeletionKeepsExactly(t, u, now);
  }

  lemma InGuestIn(t: Tables, u: UserId, s: SessionId)
    requires LiveRoom(t, s) && IsPresent(t.rooms[s], u) && !IsPrincipal(t.rooms[s], u)
    ensures s in GuestIn(t, u)
  {
  }

  /** After a run in which a user asks, cancels and asks again, the account cannot be deleted. */
  lemma RefusalHappens(now: Time) returns (steps: seq<Step>, u: UserId)
    ensures var t := Run(EmptyTables, steps); WithdrawalRefused(t, u) && DeletionTx(t, u, now) == t
  {
    steps, u := Twice(RespondRequestStep(GUEST, 1, false), 0), GUEST;
    RunsTwice(RespondRequestStep(GUEST, 1, false), Withdrawn, 0);
    hide Run;
    var t := Run(EmptyTables, steps);
    assert t.requests[1].status == Withdrawn && t.requests[1].session == 1 && t.requests[1].requester == GUEST;
    assert t.requests[2].status == Pending && t.requests[2].session == 1 && t.requests[2].requester == GUEST;
  }
}
