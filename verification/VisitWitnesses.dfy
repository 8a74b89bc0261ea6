/** Runs from empty tables that reach the states in which the program's promises fail: a join request
    the cleanup cannot expire, a guest who deletes the account, and an account that cannot be deleted. */
module VisitWitnesses {
  import opened Common
  import opened Replies
  import opened Catalog
  import opened Rooms
  import opened Settlement
  import opened Visit
  import opened VisitSweeps
  import opened JoinRequests

  // ------------------------------------------------------------------ the scene

  const HOST: UserId := 1
  const OWNER: UserId := 2
  const GUEST: UserId := 3

  /** Three friends, each with a published companion and an active pack of the same number. */
  const Friends3: Catalog := Catalog(
    map[1 := Someone(1), 2 := Someone(2), 3 := Someone(3)],
    {(1, 2), (2, 1), (1, 3), (3, 1), (2, 3), (3, 2)}, {},
    map[1 := Pet(1), 2 := Pet(2), 3 := Pet(3)],
    map[1 := Look(1), 2 := Look(2), 3 := Look(3)])

  function Someone(n: int): User { User(true, false, Some(n)) }
  function Pet(n: int): Companion { Companion(n, true, true, true, Some(n)) }
  function Look(n: int): PackSummary { PackSummary(n, PackActive, true) }

  const Asked: Invitation := Invitation(OWNER, HOST, 2, 2, Some(2), Standard, None, Pending, 100)

  const Opening: seq<Step> := [
    InviteStep(Friends3, OWNER, HOST, true, Standard, NoTopic, 0, 100, 1),
    AcceptStep(Friends3, HOST, 1, 0, 1, 1, 2),
    ReadyStep(Friends3, HOST, 1, 0),
    ReadyStep(Friends3, OWNER, 1, 0),
    StartStep(Friends3, HOST, 1, 0)]

  function Member3(id: int, companion: CompanionId, role: Role, state: Attendance): Participant {
    Participant(id, companion, role, state, if state == Arriving then None else Some(0), 0)
  }

  function Scene(state: SessionState, host: Attendance, owner: Attendance): Room {
    Room(SessionRow(1, OWNER, HOST, 1, 2, 2, Some(2), ROOM_CAPACITY, 1, state,
                    if owner == Arriving then None else Some(0), if host == Arriving then None else Some(0),
                    if state == Preparing then None else Some(0), if state == Active then Some(0) else None, None),
         map[HOST := Member3(1, 1, Role.Host, host), OWNER := Member3(2, 2, Role.Visitor, owner)], map[], None, map[], None)
  }

  function Seats(): map<UserId, Reservation> {
    map[OWNER := Reservation(2, Seated(1), None), HOST := Reservation(1, Seated(1), None)]
  }

  function At(room: Room): Tables {
    Tables(map[1 := Settle(Asked, Accepted)], map[1 := room], map[], Seats(), EmptyLedger)
  }

  /** The session is active. */
  const Open: Tables := At(Scene(Active, Speaking, Speaking))

  lemma Invited()
    ensures Apply(EmptyTables, Opening[0]) == EmptyTables.(invitations := map[1 := Asked],
              reservations := map[OWNER := Reservation(2, Outgoing(1), Some(100))])
  {
    assert LiveHostedBy(EmptyTables, OWNER) == {};
    assert LiveVisitsBy(EmptyTables, OWNER) == {};
    assert PendingOnRoute(EmptyTables, OWNER, HOST, 2, 0) == {};
    assert CurrentSnapshot(Friends3, OWNER) == Some(Snapshot(2, 2));
  }

  lemma TakenIn()
    ensures Apply(EmptyTables.(invitations := map[1 := Asked],
              reservations := map[OWNER := Reservation(2, Outgoing(1), Some(100))]), Opening[1])
            == At(Scene(Preparing, Arriving, Arriving))
  {
    var t := EmptyTables.(invitations := map[1 := Asked], reservations := map[OWNER := Reservation(2, Outgoing(1), Some(100))]);
    assert LiveHostedBy(t, OWNER) == {};
    assert LiveHostedBy(t, HOST) == {};
    assert LiveVisitsBy(t, OWNER) == {};
    assert LiveVisitsBy(t, HOST) == {};
    assert CurrentSnapshot(Friends3, HOST) == Some(Snapshot(1, 1));
    assert AcceptanceRefusal(t, Friends3, Asked, 1).None?;
    assert PendingFor(t, HOST, 1) == {};
    assert NewRoom(Asked, 1, 1, 1, 2, 0) == Scene(Preparing, Arriving, Arriving);
    var t' := Apply(t, Opening[1]);
    assert t'.reservations == Seats();
    assert t'.invitations == map[1 := Settle(Asked, Accepted)];
  }

  lemma Readied(user: UserId, a: Room, b: Room)
    requires (user == HOST && a == Scene(Preparing, Arriving, Arriving) && b == Scene(Preparing, Prepared, Arriving))
          || (user == OWNER && a == Scene(Preparing, Prepared, Arriving) && b == Scene(Ready, Prepared, Prepared))
    ensures MarkReady(a, Friends3, user, 0) == RoomTx(b, Done)
  {
    assert a.participants[user := a.participants[user].(state := Prepared, readyAt := Some(0))] == b.participants;
  }

  lemma OnRoom1(a: Room, b: Room, step: Step)
    requires (step.ReadyStep? && step.session == 1 && MarkReady(a, step.catalog, step.user, step.now) == RoomTx(b, Done))
          || (step.StartStep? && step.session == 1 && StartSession(a, step.catalog, step.user, step.now) == RoomTx(b, Done))
    ensures Apply(At(a), step) == At(b)
  {
    hide MarkReady, StartSession;
    assert map[1 := a][1 := b] == map[1 := b];
  }

  lemma Started()
    ensures StartSession(Scene(Ready, Prepared, Prepared), Friends3, HOST, 0) == RoomTx(Scene(Active, Speaking, Speaking), Done)
  {
    var room := Scene(Ready, Prepared, Prepared);
    assert PreparedSpeak(room.participants) == Scene(Active, Speaking, Speaking).participants;
  }

  lemma GoesLive()
    ensures Apply(At(Scene(Preparing, Arriving, Arriving)), Opening[2]) == At(Scene(Preparing, Prepared, Arriving))
    ensures Apply(At(Scene(Preparing, Prepared, Arriving)), Opening[3]) == At(Scene(Ready, Prepared, Prepared))
    ensures Apply(At(Scene(Ready, Prepared, Prepared)), Opening[4]) == Open
  {
    hide Apply, At, Scene, MarkReady, StartSession;
    var a, b, c := Scene(Preparing, Arriving, Arriving), Scene(Preparing, Prepared, Arriving), Scene(Ready, Prepared, Prepared);
    Readied(HOST, a, b);
    Readied(OWNER, b, c);
    Started();
    OnRoom1(a, b, Opening[2]);
    OnRoom1(b, c, Opening[3]);
    OnRoom1(c, Scene(Active, Speaking, Speaking), Opening[4]);
  }

  lemma Opens()
    ensures Run(EmptyTables, Opening) == Open
  {
    Invited();
    TakenIn();
    GoesLive();
    hide Apply;
    var t1 := EmptyTables.(invitations := map[1 := Asked], reservations := map[OWNER := Reservation(2, Outgoing(1), Some(100))]);
    var t2, t3, t4 := At(Scene(Preparing, Arriving, Arriving)), At(Scene(Preparing, Prepared, Arriving)), At(Scene(Ready, Prepared, Prepared));
    assert Run(t4, Opening[4..]) == Run(Open, Opening[4..][1..]) == Open;
    assert Opening[3..][1..] == Opening[4..];
    assert Run(t3, Opening[3..]) == Run(t4, Opening[4..]);
    assert Opening[2..][1..] == Opening[3..];
    assert Run(t2, Opening[2..]) == Run(t3, Opening[3..]);
    assert Opening[1..][1..] == Opening[2..];
    assert Run(t1, Opening[1..]) == Run(t2, Opening[2..]);
  }

  // ------------------------------------------------------------------ the third user

  function Request(now: Time): JoinRequest { JoinRequest(1, GUEST, 3, Some(3), None, Pending, now + JOIN_REQUEST_TTL) }

  /** The open session with these requests, while none of them waits. */
  function Idle(rows: map<RequestId, JoinRequest>): Tables { Open.(requests := rows) }

  /** The same while the guest waits for the answer to request `id`. */
  function Waiting(rows: map<RequestId, JoinRequest>, id: RequestId, now: Time): Tables {
    Open.(requests := rows[id := Request(now)],
          reservations := Seats()[GUEST := Reservation(3, Joining(1, id), Some(now + JOIN_REQUEST_TTL))])
  }

  lemma Asks(rows: map<RequestId, JoinRequest>, id: RequestId, now: Time)
    requires id !in rows && forall r :: r in rows ==> rows[r].status != Pending
    ensures Apply(Idle(rows), RequestStep(Friends3, GUEST, 1, NoTopic, now, id)) == Waiting(rows, id, now)
  {
    NothingInTheWay();
    hide CurrentSnapshot, Eligible, Present;
  }

  lemma NothingInTheWay()
    ensures Present(Open.rooms[1]) == {HOST, OWNER} && |{HOST, OWNER}| == 2
    ensures CurrentSnapshot(Friends3, GUEST) == Some(Snapshot(3, 3))
    ensures Eligible(Friends3, GUEST, HOST) && Eligible(Friends3, GUEST, OWNER)
  {
  }

  /** The waiting request expires, or its requester cancels it, unless the index refuses. */
  lemma Settles(rows: map<RequestId, JoinRequest>, id: RequestId, now: Time, status: Status)
    requires id !in rows && (forall r :: r in rows ==> rows[r].status != status) && (status == Expired || status == Withdrawn)
    ensures SettleRequest(Waiting(rows, id, now), id, status).tables
            == Idle(rows[id := Request(now).(status := status, packRef := None)])
  {
    var t := Waiting(rows, id, now);
    assert t.reservations - {GUEST} == Seats();
    assert t.requests[id := Request(now).(status := status, packRef := None)]
           == rows[id := Request(now).(status := status, packRef := None)];
  }

  lemma SettleSteps(rows: map<RequestId, JoinRequest>, id: RequestId, now: Time)
    ensures Apply(Waiting(rows, id, now), ExpireRequestStep(id, now + JOIN_REQUEST_TTL + 1)) == SettleRequest(Waiting(rows, id, now), id, Expired).tables
    ensures Apply(Waiting(rows, id, now), RespondRequestStep(GUEST, id, false)) == SettleRequest(Waiting(rows, id, now), id, Withdrawn).tables
  {
    hide SettleRequest;
  }

  const Late: Time := JOIN_REQUEST_TTL + 1

  /** Two requests of the guest, the first of which was settled at `at`. */
  function Twice(settle: Step, at: Time): seq<Step> {
    Opening + [RequestStep(Friends3, GUEST, 1, NoTopic, 0, 1), settle, RequestStep(Friends3, GUEST, 1, NoTopic, at, 2)]
  }

  lemma RunsTwice(settle: Step, status: Status, at: Time)
    requires (settle == ExpireRequestStep(1, Late) && status == Expired) || (settle == RespondRequestStep(GUEST, 1, false) && status == Withdrawn)
    ensures Run(EmptyTables, Twice(settle, at)) == Waiting(map[1 := Request(0).(status := status, packRef := None)], 2, at)
  {
    hide Apply, Run, Idle, Waiting, SettleRequest;
    var rows: map<RequestId, JoinRequest> := map[];
    var first, again := RequestStep(Friends3, GUEST, 1, NoTopic, 0, 1), RequestStep(Friends3, GUEST, 1, NoTopic, at, 2);
    AsksFirst();
    SettleSteps(rows, 1, 0);
    Settles(rows, 1, 0, status);
    var settled := rows[1 := Request(0).(status := status, packRef := None)];
    Asks(settled, 2, at);
    RunAppend(EmptyTables, Opening + [first], settle);
    RunAppend(EmptyTables, Opening + [first] + [settle], again);
    assert Opening + [first] + [settle] + [again] == Twice(settle, at);
    assert settled == map[1 := Request(0).(status := status, packRef := None)];
  }

  lemma AsksFirst()
    ensures Run(EmptyTables, Opening + [RequestStep(Friends3, GUEST, 1, NoTopic, 0, 1)]) == Waiting(map[], 1, 0)
  {
    assert Idle(map[]) == Open;
    hide Apply, Run, Idle, Waiting;
    Opens();
    Asks(map[], 1, 0);
    RunAppend(EmptyTables, Opening, RequestStep(Friends3, GUEST, 1, NoTopic, 0, 1));
  }

  /** The guest asks, the request expires after two hours, the guest asks again: when that request has
      expired too, it is stuck, and the session of the host and the owner, whose time is up by then
      whatever its configuration, is still live. */
  lemma SecondRequestIsStuck(limits: Limits, seen: Seen)
    requires limits.sessionMaxMinutes <= 240
    ensures var t := Run(EmptyTables, Twice(ExpireRequestStep(1, Late), Late));
            var now := Late + JOIN_REQUEST_TTL + 1;
            && 2 in ExpiredRequests(t, now) && Stuck(t, 2) && !ExpiryFree(t, now)
            && LiveRoom(t, 1) && TimeoutReason(t.rooms[1].row, seen, limits, now).Some?
  {
    RunsTwice(ExpireRequestStep(1, Late), Expired, Late);
    hide Run;
    var t := Run(EmptyTables, Twice(ExpireRequestStep(1, Late), Late));
    assert t.requests[1].status == Expired && t.requests[1].session == 1 && t.requests[1].requester == GUEST;
  }

  /** The guest is admitted. */
  lemma GuestIsIn()
    ensures var t := Run(EmptyTables, Opening + [RequestStep(Friends3, GUEST, 1, NoTopic, 0, 1), AdmitStep(Friends3, HOST, 1, 1, 3)]);
            && LiveRoom(t, 1) && IsPresent(t.rooms[1], GUEST) && !IsPrincipal(t.rooms[1], GUEST)
            && forall r :: r in t.requests ==> t.requests[r].status == Accepted
  {
    var first, admit := RequestStep(Friends3, GUEST, 1, NoTopic, 0, 1), AdmitStep(Friends3, HOST, 1, 1, 3);
    Admits();
    hide Apply, Run, Waiting;
    AsksFirst();
    RunAppend(EmptyTables, Opening + [first], admit);
    assert Opening + [first] + [admit] == Opening + [first, admit];
  }

  lemma Admits()
    ensures var t := Apply(Waiting(map[], 1, 0), AdmitStep(Friends3, HOST, 1, 1, 3));
            && LiveRoom(t, 1) && IsPresent(t.rooms[1], GUEST) && !IsPrincipal(t.rooms[1], GUEST)
            && forall r :: r in t.requests ==> t.requests[r].status == Accepted
  {
    NothingInTheWay();
    hide Eligible, Present;
  }
}
