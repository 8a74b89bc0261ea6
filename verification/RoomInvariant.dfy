/** What every transaction keeps about one Visit session and its child rows. */
module RoomInvariant {
  import opened Common
  import opened Replies
  import opened Catalog
  import opened Rooms

  // ------------------------------------------------------------------ the invariant

  /** The session row: its stamps follow its state, its pack reference is held exactly while it
      is live, and the states no code writes never occur. */
  ghost predicate RowOk(row: SessionRow) {
    && row.visitor != row.host && 2 <= row.capacity
    && row.state != Ending && row.state != Failed
    && (row.packRef == if Live(row.state) then Some(row.snapshot) else None)
    && (row.state == Preparing ==> row.visitorReadyAt.None? || row.hostReadyAt.None?)
    && (row.state == Ready || row.state == Active ==>
          row.visitorReadyAt.Some? && row.hostReadyAt.Some? && row.readyAt.Some?)
    && (row.startedAt.Some? <==> row.state == Active || row.state == Ended)
    && (row.endedAt.Some? <==> Terminal(row.state))
  }

  ghost predicate IsReady(p: Participant) { p.state == Prepared || p.state == Speaking }

  /** One participant row. The host never leaves a live room, and speaks once it is active; guests
      come only after preparing; whoever is ready, or ever was, has a ready stamp. */
  ghost predicate MemberOk(row: SessionRow, u: UserId, p: Participant) {
    && p.role == (if u == row.host then Host else if u == row.visitor then Visitor else Guest)
    && (IsReady(p) ==> p.readyAt.Some?)
    && (Terminal(row.state) ==> p.state == Left)
    && (row.state == Preparing ==> p.role != Guest)
    && (u == row.host && Live(row.state) ==>
          p.state != Left && (row.hostReadyAt.Some? ==> IsReady(p)) && (row.state == Active ==> p.state == Speaking))
  }

  ghost predicate DistinctCompanions(ps: map<UserId, Participant>) {
    forall u, v :: u in ps && v in ps && ps[u].companion == ps[v].companion ==> u == v
  }

  ghost predicate MembersOk(room: Room) {
    && room.row.host in room.participants && room.row.visitor in room.participants
    && (forall u :: u in room.participants ==> MemberOk(room.row, u, room.participants[u]))
    && DistinctCompanions(room.participants)
    && |Present(room)| <= room.row.capacity
  }

  /** The keys are 1..n. */
  ghost predicate Dense<T>(m: map<nat, T>) { forall k: nat :: k in m <==> 1 <= k <= |m| }

  /** Topics are numbered 1..k. Without a share all are queued. With one, the share names the
      frontier: completed before it, queued after it, and itself the current topic, or the last
      completed one once the room is over. */
  ghost predicate TopicsOk(topics: map<nat, Topic>, share: Option<Envelope>, live: bool) {
    && Dense(topics)
    && match share
       case None => forall k :: k in topics ==> topics[k].state == Queued
       case Some(e) =>
         && e.topic in topics
         && (forall k :: k in topics && k < e.topic ==> topics[k].state == Completed)
         && (forall k :: k in topics && e.topic < k ==> topics[k].state == Queued)
         && (topics[e.topic].state == Current || (topics[e.topic].state == Completed && !live))
  }

  /** While the room is live the share shows what the current topic may show. */
  ghost predicate ShareOk(room: Room) {
    room.share.Some? && Live(room.row.state) ==>
      var e := room.share.value;
      && e.topic in room.topics && room.row.currentTopic == e.topic
      && e.content == Visible(room.topics[e.topic].content, room.topics[e.topic].scope)
  }

  ghost function Budget(topic: Topic): nat { if topic.maximumTurns < 1 then 1 else topic.maximumTurns }

  /** Every turn was sent by a ready participant on a topic that has started. */
  ghost predicate TurnOk(share: Option<Envelope>, ps: map<UserId, Participant>, turn: Turn) {
    && turn.topic.Some? && share.Some? && 1 <= turn.topic.value <= share.value.topic
    && turn.sender in ps && ps[turn.sender].readyAt.Some?
  }

  /** Turns come in contiguous blocks by topic, in topic order. */
  ghost predicate Blocks(turns: map<nat, Turn>) {
    forall i, j :: i in turns && j in turns && i < j && turns[i].topic.Some? && turns[j].topic.Some? ==>
      turns[i].topic.value <= turns[j].topic.value
  }

  /** No client turn id repeats. */
  ghost predicate DistinctClientTurns(turns: map<nat, Turn>) {
    forall i, j :: i in turns && j in turns && turns[i].clientTurnId == turns[j].clientTurnId ==> i == j
  }

  /** No topic exceeds its budget. */
  ghost predicate WithinBudget(topics: map<nat, Topic>, turns: map<nat, Turn>) {
    forall k :: k in topics ==> |TurnsOn(turns, k)| <= Budget(topics[k])
  }

  ghost predicate TurnsOk(room: Room) {
    && Dense(room.turns) && Blocks(room.turns) && DistinctClientTurns(room.turns)
    && (forall i :: i in room.turns ==> TurnOk(room.share, room.participants, room.turns[i]))
    && WithinBudget(room.topics, room.turns)
    && |room.turns| <= ROOM_MAX_TURNS
  }

  /** What is left to say while the room is live: the room limit and the current topic's budget
      are not used up. */
  ghost predicate RoomLeft(room: Room) {
    Live(room.row.state) ==>
      && |room.turns| < ROOM_MAX_TURNS
      && (room.share.Some? && room.share.value.topic in room.topics ==>
            |TurnsOn(room.turns, room.share.value.topic)| < Budget(room.topics[room.share.value.topic]))
  }

  ghost predicate MomentOk(room: Room) {
    room.moment.Some? ==>
      room.row.state == Ended && room.share.Some? && room.moment.value.turnCount == |room.turns|
  }

  /** Before the session is started nothing is said; while it prepares, only the visiting owner's
      topic can be there. */
  ghost predicate BeginningOk(room: Room) {
    && (room.row.startedAt.None? ==> room.turns == map[])
    && (room.row.state == Preparing ==>
          room.topics.Keys <= {1} && (room.share.None? ==> room.topics == map[]) && room.row.currentTopic == 1)
  }

  ghost predicate DialogueOk(room: Room) {
    && TopicsOk(room.topics, room.share, Live(room.row.state)) && ShareOk(room)
    && TurnsOk(room) && RoomLeft(room) && MomentOk(room) && BeginningOk(room)
  }

  ghost predicate RoomOk(room: Room) { RowOk(room.row) && MembersOk(room) && DialogueOk(room) }

  // ------------------------------------------------------------------ preservation: membership

  /** Rewriting rows without adding any keeps distinct companions. */
  lemma MembersFrame(room: Room, r: Room)
    requires MembersOk(room)
    requires r.participants.Keys == room.participants.Keys
    requires r.row.host == room.row.host && r.row.visitor == room.row.visitor && r.row.capacity == room.row.capacity
    requires forall u :: u in r.participants ==>
      r.participants[u].companion == room.participants[u].companion && MemberOk(r.row, u, r.participants[u])
    requires Present(r) <= Present(room) || |Present(r)| <= r.row.capacity
    ensures MembersOk(r)
  {
    if Present(r) <= Present(room) {
      SubsetSize(Present(r), Present(room));
    }
  }

  /** The dialogue does not depend on membership, except that senders stay ready; and it survives
      every forward move of the session's state. */
  lemma DialogueFrame(room: Room, r: Room)
    requires DialogueOk(room)
    requires r.topics == room.topics && r.share == room.share && r.turns == room.turns && r.moment == room.moment
    requires r.row.currentTopic == room.row.currentTopic
    requires forall u :: u in room.participants && room.participants[u].readyAt.Some? ==>
      u in r.participants && r.participants[u].readyAt.Some?
    requires Live(r.row.state) ==> Live(room.row.state)
    requires r.row.state == Preparing ==> room.row.state == Preparing
    requires r.row.startedAt.None? ==> room.row.startedAt.None?
    requires room.moment.Some? ==> r.row.state == Ended
    ensures DialogueOk(r)
  {
  }

  lemma ClosePreserves(room: Room, state: SessionState, now: Time)
    requires RoomOk(room) && Live(room.row.state)
    requires state == Ended || state == Cancelled
    requires state == Ended <==> room.row.state == Active
    ensures RoomOk(Close(room, state, now))
  {
    var r := Close(room, state, now);
    assert Present(r) == {};
    MembersFrame(room, r);
    DialogueFrame(room, r);
  }

  /** While a session prepares, only its principals can be present. */
  lemma PreparingPresent(room: Room)
    requires MembersOk(room) && room.row.state == Preparing
    ensures room.participants.Keys == {room.row.visitor, room.row.host}
    ensures |room.participants.Keys| <= 2
  {
    forall u | u in room.participants ensures u in {room.row.visitor, room.row.host} {
      assert MemberOk(room.row, u, room.participants[u]);
    }
    PairSize(room.participants.Keys, room.row.visitor, room.row.host);
  }

  lemma MarkReadyMembers(room: Room, c: Catalog, user: UserId, now: Time)
    requires RowOk(room.row) && MembersOk(room)
    ensures MembersOk(MarkReady(room, c, user, now).room)
  {
    var r := MarkReady(room, c, user, now).room;
    if r != room {
      PreparingPresent(room);
      SubsetSize(Present(r), room.participants.Keys);
      MembersFrame(room, r);
    }
  }

  lemma MarkReadyPreserves(room: Room, c: Catalog, user: UserId, now: Time)
    requires RoomOk(room)
    ensures RoomOk(MarkReady(room, c, user, now).room)
  {
    hide MembersOk, DialogueOk;
    var r := MarkReady(room, c, user, now).room;
    MarkReadyMembers(room, c, user, now);
    if r != room {
      DialogueFrame(room, r) by {
        MomentOnlyAfter(room);
      }
    }
  }

  lemma MomentOnlyAfter(room: Room)
    requires DialogueOk(room)
    ensures room.moment.Some? ==> room.row.state == Ended
  {
  }

  lemma PairSize(us: set<UserId>, a: UserId, b: UserId)
    requires us <= {a, b}
    ensures |us| <= 2
  {
    SubsetSize(us, {a, b});
    assert |{a, b}| <= 2;
  }

  lemma StartSessionPreserves(room: Room, c: Catalog, user: UserId, now: Time)
    requires RoomOk(room)
    ensures RoomOk(StartSession(room, c, user, now).room)
  {
    var r := StartSession(room, c, user, now).room;
    if r != room {
      MembersFrame(room, r);
      DialogueFrame(room, r);
    }
  }

  lemma EndSessionPreserves(room: Room, user: UserId, now: Time)
    requires RoomOk(room)
    ensures RoomOk(EndSession(room, user, now).room)
  {
    if IsPrincipal(room, user) {
      if Terminal(room.row.state) {
        OverIsLeft(room);
      } else {
        ClosePreserves(room, if room.row.state == Preparing || room.row.state == Ready then Cancelled else Ended, now);
      }
    }
  }

  /** In a room that is over everybody has left, so releasing it again changes nothing. */
  lemma OverIsLeft(room: Room)
    requires MembersOk(room) && Terminal(room.row.state)
    ensures AllLeft(room.participants) == room.participants
  {
    forall u | u in room.participants ensures room.participants[u].state == Left {
      assert MemberOk(room.row, u, room.participants[u]);
    }
  }

  lemma CloseLivePreserves(room: Room, now: Time)
    requires RoomOk(room)
    ensures RoomOk(CloseLive(room, now)) && !Live(CloseLive(room, now).row.state)
  {
    if Live(room.row.state) {
      ClosePreserves(room, if room.row.state == Active then Ended else Cancelled, now);
    }
  }

  lemma ParticipantReadyPreserves(room: Room, user: UserId, now: Time)
    requires RoomOk(room)
    ensures RoomOk(ParticipantReady(room, user, now).room)
  {
    var r := ParticipantReady(room, user, now).room;
    if r != room {
      assert MemberOk(room.row, user, room.participants[user]);
      MembersFrame(room, r);
      DialogueFrame(room, r);
    }
  }

  lemma LeaveRoomPreserves(room: Room, user: UserId)
    requires RoomOk(room)
    ensures RoomOk(LeaveRoom(room, user).room)
  {
    var r := LeaveRoom(room, user).room;
    if r != room {
      assert MemberOk(room.row, user, room.participants[user]);
      MembersFrame(room, r);
      DialogueFrame(room, r);
    }
  }

  predicate Joinable(room: Room) {
    (room.row.state == Ready || room.row.state == Active) && |Present(room)| < room.row.capacity
  }

  lemma SeatMembers(room: Room, user: UserId, guest: Participant)
    requires RowOk(room.row) && MembersOk(room) && Joinable(room)
    requires !SeatTaken(room, user, guest.companion)
    requires guest.role == Guest && guest.state == Arriving
    ensures MembersOk(Seat(room, user, guest, None))
  {
    var r := Seat(room, user, guest, None);
    assert Present(r) == Present(room) + {user};
    forall u | u in r.participants ensures MemberOk(r.row, u, r.participants[u]) {
      assert u == user || MemberOk(room.row, u, room.participants[u]);
    }
  }

  lemma SeatDialogue(room: Room, user: UserId, guest: Participant, topic: Option<Topic>)
    requires DialogueOk(room) && room.row.state != Preparing && user !in room.participants
    requires topic.Some? ==> topic.value.state == Queued
    ensures DialogueOk(Seat(room, user, guest, topic))
  {
    hide DialogueOk;
    var seated := Seat(room, user, guest, None);
    MomentOnlyAfter(room);
    DialogueFrame(room, seated);
    if topic.Some? {
      QueuePreserves(seated, topic.value);
    }
  }

  lemma SeatPreserves(room: Room, user: UserId, guest: Participant, topic: Option<Topic>)
    requires RoomOk(room) && Joinable(room)
    requires !SeatTaken(room, user, guest.companion)
    requires guest.role == Guest && guest.state == Arriving
    requires topic.Some? ==> topic.value.state == Queued
    ensures RoomOk(Seat(room, user, guest, topic))
  {
    hide DialogueOk, RowOk;
    SeatMembers(room, user, guest);
    SeatDialogue(room, user, guest, topic);
    assert Present(Seat(room, user, guest, topic)) == Present(Seat(room, user, guest, None));
    MembersFrame(Seat(room, user, guest, None), Seat(room, user, guest, topic));
  }

  lemma QueueTopics(topics: map<nat, Topic>, share: Option<Envelope>, live: bool, topic: Topic)
    requires TopicsOk(topics, share, live) && topic.state == Queued
    ensures TopicsOk(topics[|topics| + 1 := topic], share, live)
  {
    assert |topics| + 1 !in topics;
  }

  lemma QueueTurns(room: Room, topic: Topic)
    requires TopicsOk(room.topics, room.share, Live(room.row.state)) && TurnsOk(room)
    ensures TurnsOk(room.(topics := room.topics[|room.topics| + 1 := topic]))
  {
    NoTurnsAfter(room, |room.topics| + 1);
  }

  /** Queueing a topic after the last one. */
  lemma QueuePreserves(room: Room, topic: Topic)
    requires DialogueOk(room) && room.row.state != Preparing && topic.state == Queued
    ensures DialogueOk(room.(topics := room.topics[MaxKey(room.topics.Keys) + 1 := topic]))
  {
    hide TurnsOk, TopicsOk;
    TopicsDense(room.topics, room.share, Live(room.row.state));
    DenseMax(room.topics);
    QueueTopics(room.topics, room.share, Live(room.row.state), topic);
    QueueTurns(room, topic);
    QueueLeft(room, topic);
  }

  lemma TopicsDense(topics: map<nat, Topic>, share: Option<Envelope>, live: bool)
    requires TopicsOk(topics, share, live)
    ensures Dense(topics) && (share.Some? ==> share.value.topic in topics)
  {
    hide Dense;
  }

  lemma QueueLeft(room: Room, topic: Topic)
    requires RoomLeft(room) && ShareOk(room) && Dense(room.topics)
    ensures RoomLeft(room.(topics := room.topics[|room.topics| + 1 := topic]))
    ensures ShareOk(room.(topics := room.topics[|room.topics| + 1 := topic]))
  {
    assert |room.topics| + 1 !in room.topics;
  }

  /** Nothing was said on a topic that has not started. */
  lemma NoTurnsAfter(room: Room, k: nat)
    requires TurnsOk(room) && (room.share.Some? ==> room.share.value.topic < k)
    ensures TurnsOn(room.turns, k) == {}
  {
    forall i | i in room.turns ensures room.turns[i].topic != Some(k) {
      assert TurnOk(room.share, room.participants, room.turns[i]);
    }
  }

  /** In a table with keys 1..n, MAX(key) is the number of rows. */
  lemma DenseMax<T>(m: map<nat, T>)
    requires Dense(m)
    ensures MaxKey(m.Keys) == |m|
  {
    if m != map[] {
      assert |m| in m.Keys;
    }
  }

  // ------------------------------------------------------------------ preservation: dialogue

  lemma SetSharePreserves(room: Room, c: Catalog, user: UserId, content: Content)
    requires RoomOk(room)
    ensures RoomOk(SetShare(room, c, user, content).room)
  {
    var r := SetShare(room, c, user, content).room;
    if r != room {
      assert r.topics.Keys == {1};
      assert |r.topics| == |r.topics.Keys| == 1;
      assert TurnsOn(r.turns, 1) == {};
      assert Present(r) == Present(room);
      MembersFrame(room, r);
    }
  }

  /** With a share, a live room has exactly one current topic, the one the share names. */
  lemma CurrentTopicIs(room: Room)
    requires TopicsOk(room.topics, room.share, true)
    ensures room.share.Some? ==> CurrentTopics(room) == {room.share.value.topic} && CurrentTopic(room) == Some(room.share.value.topic)
    ensures room.share.None? ==> CurrentTopics(room) == {} && CurrentTopic(room) == None
  {
    if room.share.Some? {
      var k := room.share.value.topic;
      assert k in CurrentTopics(room);
      forall j | j in CurrentTopics(room) ensures j == k {
        assert j < k || j == k || k < j;
      }
      assert CurrentTopics(room) == {k};
    }
  }

  /** The turns as appendTurn leaves them. */
  function Spoken(turns: map<nat, Turn>, turn: Turn): map<nat, Turn> { turns[|turns| + 1 := turn] }

  lemma SpokenBlocks(turns: map<nat, Turn>, k: nat, turn: Turn)
    requires Dense(turns) && Blocks(turns) && turn.topic == Some(k)
    requires forall i :: i in turns ==> turns[i].topic.Some? && turns[i].topic.value <= k
    ensures Blocks(Spoken(turns, turn))
  {
  }

  lemma SpokenDistinct(turns: map<nat, Turn>, turn: Turn)
    requires Dense(turns) && DistinctClientTurns(turns)
    requires forall i :: i in turns ==> turns[i].clientTurnId != turn.clientTurnId
    ensures Dense(Spoken(turns, turn)) && DistinctClientTurns(Spoken(turns, turn))
  {
    assert |turns| + 1 !in turns;
  }

  /** A new turn uses one unit of its topic's budget and none of any other's. */
  lemma SpokenBudget(turns: map<nat, Turn>, k: nat, turn: Turn)
    requires Dense(turns) && turn.topic == Some(k)
    ensures |TurnsOn(Spoken(turns, turn), k)| == |TurnsOn(turns, k)| + 1
    ensures forall j :: j != k ==> TurnsOn(Spoken(turns, turn), j) == TurnsOn(turns, j)
  {
    var n := |turns| + 1;
    var spoken := Spoken(turns, turn);
    assert n !in turns;
    assert TurnsOn(spoken, k) == TurnsOn(turns, k) + {n};
    forall j | j != k ensures TurnsOn(spoken, j) == TurnsOn(turns, j) {}
  }

  lemma SpokenTurnsOk(room: Room, k: nat, turn: Turn)
    requires TurnsOk(room) && room.share.Some? && room.share.value.topic == k && k in room.topics && k >= 1
    requires |TurnsOn(room.turns, k)| < Budget(room.topics[k]) && |room.turns| < ROOM_MAX_TURNS
    requires turn.topic == Some(k) && !HasClientTurn(room, turn.clientTurnId)
    requires turn.sender in room.participants && room.participants[turn.sender].readyAt.Some?
    ensures TurnsOk(room.(turns := Spoken(room.turns, turn)))
  {
    hide Blocks, DistinctClientTurns, Dense;
    var spoken := Spoken(room.turns, turn);
    forall i | i in room.turns ensures room.turns[i].topic.Some? && room.turns[i].topic.value <= k {
      assert TurnOk(room.share, room.participants, room.turns[i]);
    }
    SpokenBlocks(room.turns, k, turn);
    SpokenDistinct(room.turns, turn);
    SpokenBudget(room.turns, k, turn);
    assert |spoken| <= |room.turns| + 1;
  }

  /** A room in the middle of appendTurn: the turn is stored, the limits are not yet looked at. */
  ghost predicate MidTurn(room: Room, k: nat) {
    && RowOk(room.row) && MembersOk(room) && room.row.state == Active
    && room.share.Some? && room.share.value.topic == k
    && TopicsOk(room.topics, room.share, true) && ShareOk(room) && TurnsOk(room)
    && room.moment.None?
  }

  /** Once the current topic is completed, its successor is the first queued one, if there is any. */
  lemma CompletingTopics(room: Room, k: nat)
    requires TopicsOk(room.topics, room.share, true) && room.share.Some? && room.share.value.topic == k
    ensures var closed := Completing(room, k);
            && TopicsOk(closed.topics, room.share, false)
            && |closed.topics| == |room.topics|
            && (QueuedAfter(closed, k) == {} <==> k == |room.topics|)
            && (QueuedAfter(closed, k) != {} ==> MinKey(QueuedAfter(closed, k)) == k + 1)
  {
    var closed := Completing(room, k);
    assert closed.topics.Keys == room.topics.Keys;
    assert |closed.topics| == |room.topics|;
    if k < |room.topics| {
      assert k + 1 in QueuedAfter(closed, k);
    } else {
      assert QueuedAfter(closed, k) == {};
    }
  }

  /** Completing a topic does not change what it may hold. */
  lemma CompletingTurns(room: Room, k: nat)
    requires k in room.topics && WithinBudget(room.topics, room.turns)
    ensures WithinBudget(Completing(room, k).topics, room.turns)
  {
  }

  lemma ContinuePreserves(room: Room, k: nat)
    requires MidTurn(room, k) && |room.turns| < ROOM_MAX_TURNS && |TurnsOn(room.turns, k)| < room.topics[k].maximumTurns
    ensures RoomOk(room)
  {
  }

  /** The room after its last topic. */
  ghost function Finished(room: Room, k: nat, now: Time): Room
    requires k in room.topics
  {
    EnsureMoment(EndRoom(Completing(room, k), now), |room.turns|)
  }

  lemma FinishMembers(room: Room, k: nat, now: Time)
    requires MembersOk(room) && k in room.topics
    ensures MembersOk(Finished(room, k, now))
  {
    var r := Finished(room, k, now);
    assert Present(r) == {};
    MembersFrame(room, r);
  }

  lemma FinishTurns(room: Room, k: nat, now: Time)
    requires TurnsOk(room) && k in room.topics
    ensures TurnsOk(Finished(room, k, now))
  {
    hide Dense, Blocks, DistinctClientTurns;
    CompletingTurns(room, k);
  }

  lemma FinishPreserves(room: Room, k: nat, now: Time)
    requires MidTurn(room, k)
    ensures k in room.topics && RoomOk(Finished(room, k, now))
  {
    FinishMembers(room, k, now);
    FinishTurns(room, k, now);
    CompletingTopics(room, k);
    hide MembersOk, TurnsOk, TopicsOk;
  }

  /** The room after the switch to the next queued topic. */
  ghost function Switched(room: Room, k: nat): Room
    requires k in room.topics && k + 1 in room.topics
  {
    Starting(Completing(room, k), k + 1)
  }

  lemma SwitchTopics(room: Room, k: nat)
    requires TopicsOk(room.topics, room.share, true) && room.share.Some? && room.share.value.topic == k && k < |room.topics|
    ensures k in room.topics && k + 1 in room.topics
    ensures TopicsOk(Switched(room, k).topics, Switched(room, k).share, true)
  {
    CompletingTopics(room, k);
    var r := Switched(room, k);
    assert r.topics.Keys == room.topics.Keys;
    assert |r.topics| == |room.topics|;
  }

  lemma SwitchTurns(room: Room, k: nat)
    requires TurnsOk(room) && room.share.Some? && room.share.value.topic == k && k in room.topics && k + 1 in room.topics
    ensures TurnsOk(Switched(room, k))
    ensures TurnsOn(room.turns, k + 1) == {}
  {
    hide Dense, Blocks, DistinctClientTurns;
    CompletingTurns(room, k);
    NoTurnsAfter(room, k + 1);
    var r := Switched(room, k);
    forall i | i in r.turns ensures TurnOk(r.share, r.participants, r.turns[i]) {
      assert TurnOk(room.share, room.participants, room.turns[i]);
    }
  }

  lemma SwitchMembers(room: Room, k: nat)
    requires MembersOk(room) && k in room.topics && k + 1 in room.topics
    ensures MembersOk(Switched(room, k))
  {
    var r := Switched(room, k);
    assert Present(r) == Present(room);
    MembersFrame(room, r);
  }

  lemma SwitchPreserves(room: Room, k: nat)
    requires MidTurn(room, k) && |room.turns| < ROOM_MAX_TURNS && k < |room.topics|
    ensures k in room.topics && k + 1 in room.topics
    ensures RoomOk(Switched(room, k))
  {
    SwitchTopics(room, k);
    SwitchTurns(room, k);
    SwitchMembers(room, k);
    hide MembersOk, TurnsOk, TopicsOk;
  }

  /** The three ways progressRoom goes on. */
  lemma ProgressCases(room: Room, k: nat, intent: Intent, now: Time)
    requires TopicsOk(room.topics, room.share, true) && room.share.Some? && room.share.value.topic == k
    ensures k in room.topics
    ensures k < |room.topics| ==> k + 1 in room.topics
    ensures Progress(room, k, |room.turns|, intent, now) ==
            if KeepsTopic(room, k, |room.turns|, intent) then room
            else if |room.turns| < ROOM_MAX_TURNS && k < |room.topics| then Switched(room, k)
            else Finished(room, k, now)
  {
    CompletingTopics(room, k);
    hide EnsureMoment, EndRoom, Completing, Starting, KeepsTopic;
  }

  lemma ProgressPreserves(room: Room, k: nat, intent: Intent, now: Time)
    requires MidTurn(room, k)
    ensures k in room.topics && RoomOk(Progress(room, k, |room.turns|, intent, now))
  {
    ProgressCases(room, k, intent, now);
    hide RoomOk, RowOk, MembersOk, TurnsOk, ShareOk, TopicsOk, Progress;
    if KeepsTopic(room, k, |room.turns|, intent) {
      ContinuePreserves(room, k);
    } else if |room.turns| < ROOM_MAX_TURNS && k < |room.topics| {
      SwitchPreserves(room, k);
    } else {
      FinishPreserves(room, k, now);
    }
  }

  lemma SpokenIsMidTurn(room: Room, k: nat, turn: Turn)
    requires RoomOk(room) && room.row.state == Active
    requires room.share.Some? && k == room.share.value.topic && turn.topic == Some(k)
    requires turn.sender in SpeakingUsers(room) && !HasClientTurn(room, turn.clientTurnId)
    ensures MidTurn(room.(turns := Spoken(room.turns, turn)), k)
  {
    var r := room.(turns := Spoken(room.turns, turn));
    assert MemberOk(room.row, turn.sender, room.participants[turn.sender]);
    SpokenTurnsOk(room, k, turn);
    assert Present(r) == Present(room);
    MembersFrame(room, r);
    hide TurnsOk, TopicsOk, MembersOk;
  }

  /** The checks an accepted turn has passed. */
  lemma AcceptedChecks(room: Room, c: Catalog, user: UserId, id: string, intent: Intent, message: string, now: Time)
    requires AppendTurn(room, c, user, id, intent, message, now).reply == Done
    ensures room.share.Some? && (room.topics != map[] ==> CurrentTopic(room).Some?)
    ensures user in SpeakingUsers(room) && !HasClientTurn(room, id) && room.row.state == Active
    ensures NextActor(room.row.state, Speakers(room), LastTurn(room), MaxKey(room.turns.Keys)) == Some(user)
  {
    hide Speakers, NextActor, AllEligible, HasClientTurn, SpeakingUsers, Progress, ProgressLegacy, LastTurn, CurrentTopic, IsPresent;
  }

  lemma AcceptedRoom(room: Room, c: Catalog, user: UserId, id: string, intent: Intent, message: string, now: Time)
    requires AppendTurn(room, c, user, id, intent, message, now).reply == Done && CurrentTopic(room).Some?
    ensures var k := CurrentTopic(room).value; var n := MaxKey(room.turns.Keys);
            AppendTurn(room, c, user, id, intent, message, now).room
            == Progress(room.(turns := room.turns[n + 1 := Turn(id, user, Some(k), intent, message)]), k, n + 1, intent, now)
  {
    hide Speakers, NextActor, AllEligible, HasClientTurn, SpeakingUsers, Progress, ProgressLegacy, LastTurn, CurrentTopic, IsPresent;
  }

  /** An accepted turn is stored after the last one, on the topic the share names. */
  lemma AppendedTurn(room: Room, c: Catalog, user: UserId, id: string, intent: Intent, message: string, now: Time)
    requires TopicsOk(room.topics, room.share, true) && Dense(room.turns)
    requires AppendTurn(room, c, user, id, intent, message, now).reply == Done
    ensures room.share.Some? && room.share.value.topic in room.topics
    ensures user in SpeakingUsers(room) && !HasClientTurn(room, id) && room.row.state == Active
    ensures NextActor(room.row.state, Speakers(room), LastTurn(room), |room.turns|) == Some(user)
    ensures var k := room.share.value.topic;
            AppendTurn(room, c, user, id, intent, message, now).room
            == Progress(room.(turns := Spoken(room.turns, Turn(id, user, Some(k), intent, message))), k, |room.turns| + 1, intent, now)
  {
    hide AppendTurn, Speakers, NextActor, HasClientTurn, SpeakingUsers, Progress, LastTurn, Dense, TopicsOk, CurrentTopic;
    CurrentTopicIs(room);
    DenseMax(room.turns);
    SharedTopicExists(room);
    AcceptedChecks(room, c, user, id, intent, message, now);
    AcceptedRoom(room, c, user, id, intent, message, now);
  }

  lemma SharedTopicExists(room: Room)
    requires TopicsOk(room.topics, room.share, true)
    ensures room.share.Some? ==> room.share.value.topic in room.topics
  {
  }

  lemma AppendTurnPreserves(room: Room, c: Catalog, user: UserId, id: string, intent: Intent, message: string, now: Time)
    requires RoomOk(room)
    ensures RoomOk(AppendTurn(room, c, user, id, intent, message, now).room)
  {
    hide *;
    if AppendTurn(room, c, user, id, intent, message, now).reply == Done {
      ActiveTopics(room, c, user, id, intent, message, now);
      AppendedTurn(room, c, user, id, intent, message, now);
      var k := room.share.value.topic;
      var turn := Turn(id, user, Some(k), intent, message);
      SpokenSize(room.turns, turn);
      SpokenIsMidTurn(room, k, turn);
      ProgressPreserves(room.(turns := Spoken(room.turns, turn)), k, intent, now);
    } else {
      RefusedKeepsRoom(room, c, user, id, intent, message, now);
    }
  }

  lemma SpokenSize(turns: map<nat, Turn>, turn: Turn)
    requires Dense(turns)
    ensures |Spoken(turns, turn)| == |turns| + 1
  {
    assert |turns| + 1 !in turns;
  }

  lemma ActiveTopics(room: Room, c: Catalog, user: UserId, id: string, intent: Intent, message: string, now: Time)
    requires RoomOk(room) && AppendTurn(room, c, user, id, intent, message, now).reply == Done
    ensures TopicsOk(room.topics, room.share, true) && Dense(room.turns)
  {
    hide TopicsOk, Dense, MembersOk, Progress, Speakers, NextActor;
  }

  /** Only an accepted turn changes anything: a repeated client turn id does not. */
  lemma RefusedKeepsRoom(room: Room, c: Catalog, user: UserId, id: string, intent: Intent, message: string, now: Time)
    ensures AppendTurn(room, c, user, id, intent, message, now).reply != Done ==>
              AppendTurn(room, c, user, id, intent, message, now).room == room
  {
    hide Speakers, NextActor, AllEligible, HasClientTurn, SpeakingUsers, Progress, LastTurn;
  }

  lemma FinalizeMomentPreserves(room: Room, user: UserId)
    requires RoomOk(room)
    ensures RoomOk(FinalizeMoment(room, user).room)
  {
    var r := FinalizeMoment(room, user).room;
    assert Present(r) == Present(room);
    MembersFrame(room, r);
  }
}
