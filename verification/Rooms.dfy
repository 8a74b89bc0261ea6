/** One Visit session with its child rows, and every transaction that touches only them:
    membership (src/visit/visit.service.ts, src/visit/visit-room.service.ts) and dialogue
    (src/visit-social/visit-social.service.ts). */
module Rooms {
  import opened Common
  import opened Replies
  import opened Catalog

  const ROOM_MAX_TURNS: nat := 15
  const LEGACY_MAX_TURNS: nat := 12
  const ROOM_CAPACITY: nat := 3    // column default
  const MINIMUM_TURNS: nat := 3    // column default
  const MAXIMUM_TURNS: nat := 6    // column default

  datatype SessionState = Preparing | Ready | Active | Ending | Ended | Cancelled | Failed
  datatype Role = Host | Visitor | Guest
  datatype Attendance = Arriving | Prepared | Speaking | Left   // preparing, ready, active, left
  datatype TopicState = Queued | Current | Completed            // queued, active, completed
  datatype Scope = SummaryOnly | SummaryAndSource
  datatype Intent = Greet | Ask | Answer | Share | React | Agree | Disagree | Comfort | Pause | Leave

  datatype SessionRow = SessionRow(
    invitation: InvitationId, visitor: UserId, host: UserId, hostCompanion: CompanionId,
    companion: CompanionId, snapshot: PackId, packRef: Option<PackId>,
    capacity: nat, currentTopic: nat, state: SessionState,
    visitorReadyAt: Option<Time>, hostReadyAt: Option<Time>, readyAt: Option<Time>,
    startedAt: Option<Time>, endedAt: Option<Time>)

  datatype Participant = Participant(
    id: int, companion: CompanionId, role: Role, state: Attendance, readyAt: Option<Time>, joinedAt: Time)

  /** What is talked about: the columns a topic and the session's share have in common. */
  datatype Content = Content(title: string, summary: string, tags: seq<string>, sourceUrl: Option<string>)

  datatype Topic = Topic(
    state: TopicState, owner: CompanionId, createdBy: UserId, content: Content, scope: Scope,
    minimumTurns: nat, maximumTurns: nat)

  /** VisitShareEnvelope; `topic` is the sequence of the topic row it points to. */
  datatype Envelope = Envelope(topic: nat, content: Content, createdBy: UserId)

  datatype Turn = Turn(clientTurnId: string, sender: UserId, topic: Option<nat>, intent: Intent, message: string)

  datatype Moment = Moment(turnCount: nat, companions: nat)

  /** A session row with its participants by user, its topics and turns by sequence, its share and
      its shared moment: the unique indexes of the child tables are the keys of these maps. */
  datatype Room = Room(
    row: SessionRow, participants: map<UserId, Participant>, topics: map<nat, Topic>,
    share: Option<Envelope>, turns: map<nat, Turn>, moment: Option<Moment>)

  datatype RoomTx = RoomTx(room: Room, reply: Reply)

  function Refuse(room: Room, code: Code): RoomTx { RoomTx(room, Refused(code)) }

  // ------------------------------------------------------------------ states and members

  predicate Live(s: SessionState) { s == Preparing || s == Ready || s == Active || s == Ending }

  predicate Terminal(s: SessionState) { s == Ended || s == Cancelled || s == Failed }

  /** The participants who have not left. */
  function Present(room: Room): set<UserId> {
    set u | u in room.participants && room.participants[u].state != Left
  }

  predicate IsPresent(room: Room, u: UserId) {
    u in room.participants && room.participants[u].state != Left
  }

  /** Roles of the session row itself: the visiting owner and the host. */
  predicate IsPrincipal(room: Room, u: UserId) { u == room.row.visitor || u == room.row.host }

  /** The WHERE state <> 'left' update that closes a room's membership. */
  function AllLeft(ps: map<UserId, Participant>): (r: map<UserId, Participant>)
    ensures r.Keys == ps.Keys
    ensures forall u :: u in ps ==>
      r[u] == ps[u].(state := Left)
  {
    map u | u in ps :: ps[u].(state := Left)
  }

  /** The end of a session: its row and its members. */
  function Close(room: Room, state: SessionState, now: Time): Room {
    room.(row := room.row.(state := state, endedAt := Some(now), packRef := None),
          participants := AllLeft(room.participants))
  }

  // ------------------------------------------------------------------ session transactions

  /** markReady. The participant update has no condition on the participant's state, so a
      visitor who left while the session was preparing comes back here. */
  function MarkReady(room: Room, c: Catalog, user: UserId, now: Time): RoomTx {
    var row := room.row;
    if !IsPrincipal(room, user) then Refuse(room, SessionNotParticipant)
    else if !Eligible(c, row.visitor, row.host) then Refuse(room, InvitationNotAvailable)
    else if row.state == Ready || row.state == Active then RoomTx(room, Repeated)
    else if row.state != Preparing then Refuse(room, SessionNotPreparing)
    else
      var stamped :=
        if user == row.visitor
        then row.(visitorReadyAt := if row.visitorReadyAt.Some? then row.visitorReadyAt else Some(now))
        else row.(hostReadyAt := if row.hostReadyAt.Some? then row.hostReadyAt else Some(now));
      var ps :=
        if user in room.participants
        then room.participants[user := room.participants[user].(state := Prepared, readyAt := Some(now))]
        else room.participants;
      var done :=
        if stamped.visitorReadyAt.Some? && stamped.hostReadyAt.Some?
        then stamped.(state := Ready, readyAt := if stamped.readyAt.Some? then stamped.readyAt else Some(now))
        else stamped;
      RoomTx(room.(row := done, participants := ps), Done)
  }

  /** The WHERE state = 'ready' update of startSession. */
  function PreparedSpeak(ps: map<UserId, Participant>): (r: map<UserId, Participant>)
    ensures r.Keys == ps.Keys
    ensures forall u :: u in ps ==>
      r[u] == if ps[u].state == Prepared then ps[u].(state := Speaking) else ps[u]
  {
    map u | u in ps :: if ps[u].state == Prepared then ps[u].(state := Speaking) else ps[u]
  }

  /** startSession. */
  function StartSession(room: Room, c: Catalog, user: UserId, now: Time): RoomTx {
    var row := room.row;
    if row.host != user then Refuse(room, SessionNotParticipant)
    else if !Eligible(c, row.visitor, row.host) then Refuse(room, InvitationNotAvailable)
    else if row.state == Active then RoomTx(room, Repeated)
    else if row.state != Ready then Refuse(room, SessionNotReady)
    else RoomTx(room.(row := row.(state := Active, startedAt := Some(now)),
                      participants := PreparedSpeak(room.participants)), Done)
  }

  /** endSession: endSessionInTransaction, then the membership half of releaseSessionReservations,
      which also runs when the session was over already. */
  function EndSession(room: Room, user: UserId, now: Time): RoomTx {
    var row := room.row;
    if !IsPrincipal(room, user) then Refuse(room, SessionNotParticipant)
    else if Terminal(row.state) then RoomTx(room.(participants := AllLeft(room.participants)), Repeated)
    else RoomTx(Close(room, if row.state == Preparing || row.state == Ready then Cancelled else Ended, now), Done)
  }

  /** The compare-and-set close of endSessionsBetween, endSessionsForCompanion, revokeCompanionVisits
      and the cleanup: active sessions end, the other live ones are cancelled. */
  function CloseLive(room: Room, now: Time): Room {
    if Live(room.row.state) then Close(room, if room.row.state == Active then Ended else Cancelled, now) else room
  }

  // ------------------------------------------------------------------ membership transactions

  /** markParticipantReady. It does not look at the session's state. */
  function ParticipantReady(room: Room, user: UserId, now: Time): RoomTx {
    if user !in room.participants then Refuse(room, SessionNotParticipant)
    else
      var p := room.participants[user];
      if p.state == Speaking then RoomTx(room, Repeated)
      else if p.state == Left then Refuse(room, ParticipantStateChanged)
      else RoomTx(room.(participants := room.participants[user := p.(state := Speaking, readyAt := Some(now))]), Done)
  }

  /** The participant half of leaveRoom. */
  function LeaveRoom(room: Room, user: UserId): RoomTx {
    if user !in room.participants then Refuse(room, SessionNotParticipant)
    else if room.row.host == user then Refuse(room, HostMustEndRoom)
    else
      var p := room.participants[user];
      if p.state == Left then RoomTx(room, Repeated)
      else RoomTx(room.(participants := room.participants[user := p.(state := Left)]), Done)
  }

  /** The unique indexes of VisitSessionParticipant: one row per user, one per companion. */
  predicate SeatTaken(room: Room, user: UserId, companion: CompanionId) {
    user in room.participants || exists u :: u in room.participants && room.participants[u].companion == companion
  }

  /** acceptJoinRequest: the guest's row and, if the request carries one, its topic, queued after
      the last. */
  function Seat(room: Room, user: UserId, guest: Participant, topic: Option<Topic>): Room {
    room.(participants := room.participants[user := guest],
          topics := if topic.Some? then room.topics[MaxKey(room.topics.Keys) + 1 := topic.value] else room.topics)
  }

  // ------------------------------------------------------------------ turn order

  function Rank(role: Role): nat {
    match role case Visitor => 0 case Host => 1 case Guest => 2
  }

  /** The order of loadParticipants: role, then joining time, then row id. Row ids are primary keys,
      so the last component never decides. */
  predicate Before(ps: map<UserId, Participant>, u: UserId, v: UserId)
    requires u in ps && v in ps
  {
    var p, q := ps[u], ps[v];
    || Rank(p.role) < Rank(q.role)
    || (Rank(p.role) == Rank(q.role)
        && (p.joinedAt < q.joinedAt
            || (p.joinedAt == q.joinedAt && (p.id < q.id || (p.id == q.id && u < v)))))
  }

  lemma FirstExists(ps: map<UserId, Participant>, us: set<UserId>)
    requires us != {} && us <= ps.Keys
    ensures exists u :: u in us && forall v :: v in us && v != u ==> Before(ps, u, v)
    decreases |us|
  {
    var x := Member(us);
    if us - {x} != {} {
      FirstExists(ps, us - {x});
      var m :| m in us - {x} && forall v :: v in us - {x} && v != m ==> Before(ps, m, v);
      var best := if Before(ps, m, x) then m else x;
      forall v | v in us && v != best
        ensures Before(ps, best, v)
      {
        assert v == x || v in us - {x};
      }
    } else {
      assert forall v :: v in us ==> v == x || v in us - {x};
    }
  }

  function First(ps: map<UserId, Participant>, us: set<UserId>): (u: UserId)
    requires us != {} && us <= ps.Keys
    ensures u in us && forall v :: v in us && v != u ==> Before(ps, u, v)
  {
    FirstExists(ps, us);
    var u :| u in us && forall v :: v in us && v != u ==> Before(ps, u, v);
    u
  }

  /** `us` sorted by Before. */
  function Ordered(ps: map<UserId, Participant>, us: set<UserId>): seq<UserId>
    requires us <= ps.Keys
    decreases |us|
  {
    if us == {} then []
    else
      var u := First(ps, us);
      [u] + Ordered(ps, us - {u})
  }

  function SpeakingUsers(room: Room): set<UserId> {
    set u | u in room.participants && room.participants[u].state == Speaking
  }

  /** loadParticipants(activeOnly): the users whose companions may speak, in speaking order. */
  function Speakers(room: Room): seq<UserId> { Ordered(room.participants, SpeakingUsers(room)) }

  function IndexOf(us: seq<UserId>, u: UserId): (i: int)
    ensures -1 <= i < |us|
    ensures i >= 0 ==> us[i] == u
    ensures i == -1 <==> u !in us
  {
    if us == [] then -1
    else if us[0] == u then 0
    else
      var i := IndexOf(us[1..], u);
      if i < 0 then -1 else i + 1
  }

  /** The turn with the highest sequence. */
  function LastTurn(room: Room): Option<Turn> {
    var n := MaxKey(room.turns.Keys);
    if n in room.turns then Some(room.turns[n]) else None
  }

  /** nextActor: round robin from the last sender, from the front if that sender is gone. */
  function NextActor(state: SessionState, speakers: seq<UserId>, last: Option<Turn>, lastSequence: nat): Option<UserId> {
    if state != Active || speakers == [] || lastSequence >= ROOM_MAX_TURNS then None
    else if last.None? then Some(speakers[0])
    else Some(speakers[(IndexOf(speakers, last.value.sender) + 1) % |speakers|])
  }

  // ------------------------------------------------------------------ dialogue transactions

  function CurrentTopics(room: Room): set<nat> {
    set k | k in room.topics && room.topics[k].state == Current
  }

  /** topics.find(state === 'active') over the topics in sequence order. */
  function CurrentTopic(room: Room): (r: Option<nat>)
    ensures r.Some? ==> r.value in room.topics && room.topics[r.value].state == Current
  {
    var ks := CurrentTopics(room);
    if ks == {} then None else Some(MinKey(ks))
  }

  function QueuedAfter(room: Room, k: nat): set<nat> {
    set j | j in room.topics && room.topics[j].state == Queued && k < j
  }

  function TurnsOn(turns: map<nat, Turn>, k: nat): set<nat> {
    set i | i in turns && turns[i].topic == Some(k)
  }

  function Visible(content: Content, scope: Scope): Content {
    content.(sourceUrl := if scope == SummaryAndSource then content.sourceUrl else None)
  }

  function ReadyUsers(room: Room): set<UserId> {
    set u | u in room.participants && room.participants[u].readyAt.Some?
  }

  /** new Set(ready companions).size || 2 */
  function ReadyCompanions(room: Room): nat {
    var cs := set u | u in ReadyUsers(room) :: room.participants[u].companion;
    if cs == {} then 2 else |cs|
  }

  /** The row half of ensureMoment: INSERT ... ON CONFLICT ("sessionId") DO NOTHING. The
      relationships are settled by the caller exactly when the row is new. */
  function EnsureMoment(room: Room, turnCount: nat): Room {
    if room.moment.Some? then room else room.(moment := Some(Moment(turnCount, ReadyCompanions(room))))
  }

  /** setShare, with `content` already normalised. */
  function SetShare(room: Room, c: Catalog, user: UserId, content: Content): RoomTx {
    if content.title == "" || content.summary == "" then Refuse(room, ShareInvalid)
    else if !IsPrincipal(room, user) && !IsPresent(room, user) then Refuse(room, SessionNotParticipant)
    else if room.row.visitor != user then Refuse(room, ShareNotOwner)
    else if room.row.state != Preparing then Refuse(room, ShareStateChanged)
    else if !AllEligible(c, room.participants.Keys) then Refuse(room, SocialNotAvailable)
    else
      var scope := if content.sourceUrl.Some? then SummaryAndSource else SummaryOnly;
      var topic :=
        if 1 in room.topics then room.topics[1].(state := Current, content := content, scope := scope)
        else Topic(Current, room.row.companion, user, content, scope, MINIMUM_TURNS, MAXIMUM_TURNS);
      RoomTx(room.(topics := room.topics[1 := topic], share := Some(Envelope(1, content, user))), Done)
  }

  /** endRoom. */
  function EndRoom(room: Room, now: Time): Room { Close(room, Ended, now) }

  /** The room with topic `k` completed. */
  function Completing(room: Room, k: nat): Room
    requires k in room.topics
  {
    room.(topics := room.topics[k := room.topics[k].(state := Completed)])
  }

  /** The room with topic `k` started: the session's counter and its share follow. */
  function Starting(room: Room, k: nat): Room
    requires k in room.topics
  {
    var topic := room.topics[k].(state := Current);
    room.(topics := room.topics[k := topic],
          row := room.row.(currentTopic := k),
          share := if room.share.None? then None
                   else Some(Envelope(k, Visible(topic.content, topic.scope), topic.createdBy)))
  }

  /** The guard of progressRoom: neither a limit nor a natural boundary is reached. */
  predicate KeepsTopic(room: Room, k: nat, totalTurns: nat, intent: Intent)
    requires k in room.topics
  {
    var spoken := |TurnsOn(room.turns, k)|;
    && totalTurns < ROOM_MAX_TURNS && spoken < room.topics[k].maximumTurns
    && !(spoken >= room.topics[k].minimumTurns && (intent == Leave || intent == Pause))
  }

  /** progressRoom: after the turn is stored, keep the topic, switch to the next queued one, or end
      the room and record the shared moment. */
  function Progress(room: Room, k: nat, totalTurns: nat, intent: Intent, now: Time): Room
    requires k in room.topics
  {
    if KeepsTopic(room, k, totalTurns, intent) then room
    else
      var closed := Completing(room, k);
      var queued := QueuedAfter(closed, k);
      if totalTurns < ROOM_MAX_TURNS && queued != {} then Starting(closed, MinKey(queued))
      else EnsureMoment(EndRoom(closed, now), totalTurns)
  }

  /** progressLegacyRoom: a room with a share but without topic rows. */
  function ProgressLegacy(room: Room, sequence: nat, now: Time): Room {
    if sequence < LEGACY_MAX_TURNS then room
    else EnsureMoment(EndRoom(room, now), sequence)
  }

  predicate HasClientTurn(room: Room, id: string) {
    exists i :: i in room.turns && room.turns[i].clientTurnId == id
  }

  /** appendTurn, with `message` already normalised. */
  function AppendTurn(room: Room, c: Catalog, user: UserId, clientTurnId: string, intent: Intent, message: string, now: Time): RoomTx {
    var speakers := Speakers(room);
    var current := CurrentTopic(room);
    var last := MaxKey(room.turns.Keys);
    if !IsPrincipal(room, user) && !IsPresent(room, user) then Refuse(room, SessionNotParticipant)
    else if room.row.state != Active then Refuse(room, SessionNotActive)
    else if user !in SpeakingUsers(room) then Refuse(room, ParticipantNotReady)
    else if !AllEligible(c, SpeakingUsers(room)) then Refuse(room, SocialNotAvailable)
    else if room.share.None? then Refuse(room, ShareRequired)
    else if room.topics != map[] && current.None? then Refuse(room, TopicStateChanged)
    else if HasClientTurn(room, clientTurnId) then RoomTx(room, Repeated)
    else if NextActor(room.row.state, speakers, LastTurn(room), last) != Some(user) then Refuse(room, TurnOrderInvalid)
    else if last + 1 > ROOM_MAX_TURNS then Refuse(room, TurnLimitReached)
    else if message == "" then Refuse(room, TurnInvalid)
    else
      var topic := if current.Some? then current else Some(room.share.value.topic);
      var spoken := room.(turns := room.turns[last + 1 := Turn(clientTurnId, user, topic, intent, message)]);
      RoomTx(if current.Some? then Progress(spoken, current.value, last + 1, intent, now) else ProgressLegacy(spoken, last + 1, now), Done)
  }

  /** finalizeMoment. */
  function FinalizeMoment(room: Room, user: UserId): RoomTx {
    if !IsPrincipal(room, user) && !IsPresent(room, user) then Refuse(room, SessionNotParticipant)
    else if room.row.state != Ended then Refuse(room, SessionNotCompleted)
    else if room.share.None? then Refuse(room, ShareRequired)
    else if |room.turns| < 2 then Refuse(room, SharedMomentTooShort)
    else RoomTx(EnsureMoment(room, |room.turns|), if room.moment.Some? then Repeated else Done)
  }
}
