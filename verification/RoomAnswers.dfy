/** When each transaction on one Visit session is allowed, what it then changes, and what a refusal means, in
    terms of the rows alone. */
module RoomAnswers {
  import opened Common
  import opened Replies
  import opened Catalog
  import opened Rooms
  import opened RoomInvariant
  import opened TurnTaking

  // ------------------------------------------------------------------ who may meet whom

  /** Two different accounts, active and not to be deleted, friends in both directions, and neither has
      blocked the other. */
  ghost predicate MayMeet(c: Catalog, a: UserId, b: UserId) {
    && a != b && a in c.users && b in c.users
    && c.users[a].active && !c.users[a].deletionRequested && c.users[b].active && !c.users[b].deletionRequested
    && {(a, b), (b, a)} <= c.friendships && {(a, b), (b, a)} !! c.blocks
  }

  ghost predicate AllMayMeet(c: Catalog, us: set<UserId>) { forall a, b :: a in us && b in us && a != b ==> MayMeet(c, a, b) }

  /** The eligibility the services check is exactly that. */
  lemma EligibleExactly(c: Catalog, a: UserId, b: UserId)
    ensures Eligible(c, a, b) <==> MayMeet(c, a, b)
  {
  }

  lemma AllEligibleExactly(c: Catalog, us: set<UserId>)
    ensures AllEligible(c, us) <==> AllMayMeet(c, us)
  {
    forall a, b ensures Eligible(c, a, b) <==> MayMeet(c, a, b) {
      EligibleExactly(c, a, b);
    }
    hide Eligible, MayMeet;
  }

  // ------------------------------------------------------------------ opening a session

  /** Getting ready: the visiting owner or the host, while they may meet and the session is preparing. The
      first stamp stays, the member is prepared, and the second of the two makes the session ready. */
  lemma ReadiesExactly(room: Room, c: Catalog, user: UserId, now: Time)
    ensures var row := room.row; var tx := MarkReady(room, c, user, now);
            && (tx.reply == Done <==> user in {row.visitor, row.host} && MayMeet(c, row.visitor, row.host) && row.state == Preparing)
            && (tx.reply == Repeated <==> user in {row.visitor, row.host} && MayMeet(c, row.visitor, row.host) && row.state in {Ready, Active})
            && (tx.reply == Refused(SessionNotParticipant) <==> user !in {row.visitor, row.host})
            && (tx.reply == Refused(InvitationNotAvailable) <==> user in {row.visitor, row.host} && !MayMeet(c, row.visitor, row.host))
            && (tx.reply != Done ==> tx.room == room)
            && (tx.reply == Done ==>
                  && tx.room.row.visitorReadyAt == (if user == row.visitor && row.visitorReadyAt == None then Some(now) else row.visitorReadyAt)
                  && tx.room.row.hostReadyAt == (if user != row.visitor && row.hostReadyAt == None then Some(now) else row.hostReadyAt)
                  && (tx.room.row.state == Ready <==> tx.room.row.visitorReadyAt.Some? && tx.room.row.hostReadyAt.Some?)
                  && (tx.room.row.state == Ready ==> tx.room.row.readyAt == (if row.readyAt.Some? then row.readyAt else Some(now)))
                  && (tx.room.row.state != Ready ==> tx.room.row.state == Preparing && tx.room.row.readyAt == row.readyAt)
                  && tx.room.participants.Keys == room.participants.Keys
                  && (forall u :: u in room.participants ==>
                        tx.room.participants[u] == if u == user then room.participants[u].(state := Prepared, readyAt := Some(now)) else room.participants[u]))
  {
    EligibleExactly(c, room.row.visitor, room.row.host);
    hide Eligible, MayMeet;
  }

  /** Starting: the host, while the two may meet and the session is ready. Prepared members may then speak. */
  lemma StartsExactly(room: Room, c: Catalog, user: UserId, now: Time)
    ensures var row := room.row; var tx := StartSession(room, c, user, now);
            && (tx.reply == Done <==> user == row.host && MayMeet(c, row.visitor, row.host) && row.state == Ready)
            && (tx.reply == Repeated <==> user == row.host && MayMeet(c, row.visitor, row.host) && row.state == Active)
            && (tx.reply == Refused(SessionNotParticipant) <==> user != row.host)
            && (tx.reply == Refused(InvitationNotAvailable) <==> user == row.host && !MayMeet(c, row.visitor, row.host))
            && (tx.reply != Done ==> tx.room == room)
            && (tx.reply == Done ==>
                  && tx.room.row == row.(state := Active, startedAt := Some(now))
                  && tx.room.participants.Keys == room.participants.Keys
                  && (forall u :: u in room.participants ==>
                        tx.room.participants[u]
                        == if room.participants[u].state == Prepared then room.participants[u].(state := Speaking) else room.participants[u]))
  {
    EligibleExactly(c, room.row.visitor, room.row.host);
    hide Eligible, MayMeet;
  }

  // ------------------------------------------------------------------ ending a session

  /** An end cancels a session that had not started, ends one that had, gives up its pack and marks everybody
      as left. Only the visiting owner or the host may ask for it. */
  lemma EndsExactly(room: Room, user: UserId, now: Time)
    ensures var row := room.row; var tx := EndSession(room, user, now);
            && (tx.reply == Done <==> user in {row.visitor, row.host} && row.state !in {Ended, Cancelled, Failed})
            && (tx.reply == Repeated <==> user in {row.visitor, row.host} && row.state in {Ended, Cancelled, Failed})
            && (tx.reply != Done && tx.reply != Repeated ==> tx.reply == Refused(SessionNotParticipant) && tx.room == room)
            && (tx.reply == Done ==>
                  && tx.room.row == row.(state := if row.state in {Preparing, Ready} then Cancelled else Ended, endedAt := Some(now), packRef := None)
                  && (forall u :: u in tx.room.participants ==> tx.room.participants[u].state == Left))
  {
  }

  /** A claimed close ends active sessions, cancels the other live ones and leaves the rest alone. */
  lemma ClosesExactly(room: Room, now: Time)
    ensures var row := room.row; var r := CloseLive(room, now);
            if row.state in {Preparing, Ready, Active, Ending}
            then && r.row == row.(state := if row.state == Active then Ended else Cancelled, endedAt := Some(now), packRef := None)
                 && (forall u :: u in r.participants ==> r.participants[u].state == Left)
            else r == room
  {
  }

  // ------------------------------------------------------------------ members

  /** A member who has not left, and does not speak yet, gets ready to speak. */
  lemma SpeaksExactly(room: Room, user: UserId, now: Time)
    ensures var tx := ParticipantReady(room, user, now);
            && (tx.reply == Done <==> user in room.participants && room.participants[user].state in {Arriving, Prepared})
            && (tx.reply == Repeated <==> user in room.participants && room.participants[user].state == Speaking)
            && (tx.reply == Refused(SessionNotParticipant) <==> user !in room.participants)
            && tx.room == (if tx.reply == Done
                           then room.(participants := room.participants[user := room.participants[user].(state := Speaking, readyAt := Some(now))])
                           else room)
  {
  }

  /** Any member but the host may leave. */
  lemma LeavesExactly(room: Room, user: UserId)
    ensures var tx := LeaveRoom(room, user);
            && (tx.reply == Done <==> user in room.participants && user != room.row.host && room.participants[user].state != Left)
            && (tx.reply == Repeated <==> user in room.participants && user != room.row.host && room.participants[user].state == Left)
            && (tx.reply == Refused(HostMustEndRoom) <==> user in room.participants && user == room.row.host)
            && (tx.reply == Refused(SessionNotParticipant) <==> user !in room.participants)
            && tx.room == (if tx.reply == Done
                           then room.(participants := room.participants[user := room.participants[user].(state := Left)]) else room)
  {
  }

  // ------------------------------------------------------------------ the share

  /** The visiting owner approves a share with a title and a summary, while preparing, if everybody in the
      room may meet everybody else. It becomes the first topic, on which a link is shared exactly if there is one. */
  lemma SharesExactly(room: Room, c: Catalog, user: UserId, content: Content)
    ensures var tx := SetShare(room, c, user, content);
            && (tx.reply == Done <==>
                  && content.title != "" && content.summary != "" && user == room.row.visitor && room.row.state == Preparing
                  && AllMayMeet(c, room.participants.Keys))
            && (tx.reply == Done || tx.reply.Refused?)
            && (tx.reply.Refused? ==> tx.room == room)
            && (tx.reply == Refused(ShareInvalid) <==> content.title == "" || content.summary == "")
            && (tx.reply == Refused(ShareNotOwner) ==> user != room.row.visitor)
            && (tx.reply == Refused(SessionNotParticipant) ==> user !in {room.row.visitor, room.row.host} && !IsPresent(room, user))
            && (tx.reply == Refused(ShareStateChanged) ==> room.row.state != Preparing)
            && (tx.reply == Refused(SocialNotAvailable) ==> !AllMayMeet(c, room.participants.Keys))
            && (tx.reply == Done ==>
                  && tx.room.share == Some(Envelope(1, content, user)) && 1 in tx.room.topics && tx.room.row == room.row
                  && tx.room.topics[1].state == Current && tx.room.topics[1].content == content
                  && tx.room.topics[1].scope == (if content.sourceUrl.Some? then SummaryAndSource else SummaryOnly)
                  && (1 !in room.topics ==> tx.room.topics[1].minimumTurns == 3 && tx.room.topics[1].maximumTurns == 6
                                            && tx.room.topics[1].owner == room.row.companion && tx.room.topics[1].createdBy == user)
                  && (1 in room.topics ==> tx.room.topics[1].minimumTurns == room.topics[1].minimumTurns
                                           && tx.room.topics[1].maximumTurns == room.topics[1].maximumTurns)
                  && tx.room.topics.Keys == room.topics.Keys + {1}
                  && forall k :: k in room.topics && k != 1 ==> tx.room.topics[k] == room.topics[k])
  {
    AllEligibleExactly(c, room.participants.Keys);
    hide AllEligible, AllMayMeet;
  }

  // ------------------------------------------------------------------ whose turn it is

  /** The visitor speaks before the host, the host before guests, and guests in the order they joined. */
  lemma SpeakersInOrder(room: Room, i: nat, j: nat)
    requires i < j < |Speakers(room)|
    ensures var ps, a, b := room.participants, Speakers(room)[i], Speakers(room)[j];
            && a in ps && b in ps && ps[a].state == Speaking && ps[b].state == Speaking && a != b
            && (ps[b].role == Visitor ==> ps[a].role == Visitor)
            && (ps[a].role == Guest ==> ps[b].role == Guest)
            && (ps[a].role == ps[b].role ==> ps[a].joinedAt <= ps[b].joinedAt)
  {
    OrderedSorts(room.participants, SpeakingUsers(room));
    hide Ordered;
    assert Before(room.participants, Speakers(room)[i], Speakers(room)[j]);
    assert Speakers(room)[i] in Speakers(room) && Speakers(room)[j] in Speakers(room);
  }

  /** The next in line, and behind the last one the first. */
  function Behind(us: seq<UserId>, i: nat): UserId
    requires i < |us|
  {
    if i == |us| - 1 then us[0] else us[i + 1]
  }

  /** In an active room below the limit the first speaker opens; the one behind the last sender follows, and
      after the last one, or a sender who speaks no more, the first again. */
  lemma DueExactly(state: SessionState, speakers: seq<UserId>, last: Option<Turn>, n: nat, u: UserId)
    requires forall i, j :: 0 <= i < j < |speakers| ==> speakers[i] != speakers[j]
    ensures NextActor(state, speakers, last, n) == Some(u) <==>
              && state == Active && n < 15 && speakers != []
              && (match last
                  case None => u == speakers[0]
                  case Some(turn) =>
                    if turn.sender !in speakers then u == speakers[0]
                    else forall i :: 0 <= i < |speakers| && speakers[i] == turn.sender ==> u == Behind(speakers, i))
  {
    if state == Active && n < 15 && speakers != [] && last.Some? {
      var i := IndexOf(speakers, last.value.sender);
      NextIndex(i, |speakers|);
      var next := if i + 1 == |speakers| then speakers[0] else speakers[i + 1];
      assert NextActor(state, speakers, last, n) == Some(next);
      if last.value.sender in speakers {
        assert forall j :: 0 <= j < |speakers| && speakers[j] == last.value.sender ==> j == i;
        assert speakers[i] == last.value.sender && Behind(speakers, i) == next;
      } else {
        assert next == speakers[0];
      }
    }
  }

  lemma NextIndex(i: int, n: nat)
    requires -1 <= i < n && n > 0
    ensures (i + 1) % n == if i + 1 == n then 0 else i + 1
  {
  }

  // ------------------------------------------------------------------ a turn

  /** A turn is accepted exactly from the user who is due, with a text, while the room is active and shared, in
      a conversation whose speakers may all meet each other, unless the client sent it before. */
  lemma TurnsExactly(room: Room, c: Catalog, user: UserId, id: string, intent: Intent, message: string, now: Time)
    requires RoomOk(room)
    ensures var reply := AppendTurn(room, c, user, id, intent, message, now).reply;
            var speaking := set u | u in room.participants && room.participants[u].state == Speaking;
            && (reply == Done <==>
                  && room.row.state == Active && room.share.Some? && user in speaking && AllMayMeet(c, speaking)
                  && (forall i :: i in room.turns ==> room.turns[i].clientTurnId != id)
                  && NextActor(Active, Speakers(room), LastTurn(room), MaxKey(room.turns.Keys)) == Some(user) && message != "")
            && (reply == Repeated ==> exists i :: i in room.turns && room.turns[i].clientTurnId == id)
            && (reply == Refused(SessionNotActive) ==> room.row.state != Active)
            && (reply == Refused(ParticipantNotReady) ==> user !in speaking)
            && (reply == Refused(SocialNotAvailable) ==> !AllMayMeet(c, speaking))
            && (reply == Refused(ShareRequired) ==> room.share.None?)
            && (reply == Refused(TurnInvalid) ==> message == "")
            && (reply == Refused(TurnOrderInvalid) ==>
                  NextActor(Active, Speakers(room), LastTurn(room), MaxKey(room.turns.Keys)) != Some(user))
  {
    SpeakingIs(room);
    AllEligibleExactly(c, SpeakingUsers(room));
    SharedHasTopic(room);
    hide AllEligible, AllMayMeet, Speakers, NextActor, RoomOk, Progress, ProgressLegacy, CurrentTopic, LastTurn;
    BelowLimit(room);
  }

  // ------------------------------------------------------------------ when a topic ends

  /** How many turns were spoken on a topic. */
  ghost function SpokenOn(turns: map<nat, Turn>, k: nat): nat { |set i | i in turns && turns[i].topic == Some(k)| }

  /** The room limit, the topic's own limit, or a farewell after its minimum. */
  ghost predicate TopicIsOver(topic: Topic, turns: map<nat, Turn>, k: nat, intent: Intent) {
    |turns| >= 15 || SpokenOn(turns, k) >= topic.maximumTurns || (SpokenOn(turns, k) >= topic.minimumTurns && intent in {Leave, Pause})
  }

  /** The link of a topic is shown only if its owner shares it. */
  ghost function Shown(topic: Topic): Content {
    Content(topic.content.title, topic.content.summary, topic.content.tags, if topic.scope == SummaryAndSource then topic.content.sourceUrl else None)
  }

  /** The room after topic `k` gave way to the next one. */
  ghost predicate GoesOn(room: Room, r: Room, k: nat) {
    && k in room.topics && k + 1 in room.topics && r.topics.Keys == room.topics.Keys
    && r.topics[k] == room.topics[k].(state := Completed) && r.topics[k + 1] == room.topics[k + 1].(state := Current)
    && (forall j :: j in room.topics && j != k && j != k + 1 ==> r.topics[j] == room.topics[j])
    && r.row == room.row.(currentTopic := k + 1) && r.participants == room.participants && r.moment == room.moment
    && r.share == Some(Envelope(k + 1, Shown(room.topics[k + 1]), room.topics[k + 1].createdBy))
  }

  /** The room after it ended with its moment: of how many turns, and of how many companions, two if nobody got
      ready. */
  ghost predicate IsOver(room: Room, r: Room, k: nat, now: Time) {
    && k in room.topics && r.topics == room.topics[k := room.topics[k].(state := Completed)] && r.share == room.share
    && r.row == room.row.(state := Ended, endedAt := Some(now), packRef := None)
    && r.participants.Keys == room.participants.Keys
    && (forall u :: u in room.participants ==> r.participants[u] == room.participants[u].(state := Left))
    && MomentOf(room, |r.turns|, r)
  }

  /** After an accepted turn the current topic is completed exactly if it is over. Then the very next topic is
      current and shown, or, at the room limit or behind the last topic, the room is ended with its moment. */
  lemma TopicEndsExactly(room: Room, c: Catalog, user: UserId, id: string, intent: Intent, message: string, now: Time)
    requires RoomOk(room) && AppendTurn(room, c, user, id, intent, message, now).reply == Done
    ensures room.share.Some? && room.share.value.topic in room.topics
    ensures var k := room.share.value.topic; var r := AppendTurn(room, c, user, id, intent, message, now).room;
            && k in r.topics && room.topics[k].state == Current
            && r.turns == room.turns[|room.turns| + 1 := Turn(id, user, Some(k), intent, message)] && |r.turns| == |room.turns| + 1
            && (r.topics[k].state == Completed <==> TopicIsOver(room.topics[k], r.turns, k, intent))
            && (!TopicIsOver(room.topics[k], r.turns, k, intent) ==> r == room.(turns := r.turns))
            && (TopicIsOver(room.topics[k], r.turns, k, intent) ==>
                  if |r.turns| < 15 && k + 1 in room.topics then GoesOn(room, r, k) else IsOver(room, r, k, now))
  {
    ActiveTopics(room, c, user, id, intent, message, now);
    AppendedTurn(room, c, user, id, intent, message, now);
    var k := room.share.value.topic;
    var turn := Turn(id, user, Some(k), intent, message);
    CurrentIsShared(room);
    hide RoomOk, AppendTurn, Progress;
    SpokenIs(room.turns, turn);
    var mid := room.(turns := Spoken(room.turns, turn));
    ProgressExactly(mid, k, intent, now);
    SameTopics(room, mid, k, now);
  }

  /** A room with a share but no topics ends with its moment once twelve turns are spoken. */
  lemma LegacyEndsExactly(room: Room, sequence: nat, now: Time)
    requires room.moment.None?
    ensures var r := ProgressLegacy(room, sequence, now);
            if sequence < 12 then r == room
            else
              && r.row == room.row.(state := Ended, endedAt := Some(now), packRef := None)
              && r.participants.Keys == room.participants.Keys
              && (forall u :: u in room.participants ==> r.participants[u] == room.participants[u].(state := Left))
              && r.topics == room.topics && r.share == room.share && r.turns == room.turns
              && MomentOf(room, sequence, r)
  {
    var r := ProgressLegacy(room, sequence, now);
    assert sequence >= 12 ==> ReadyCompanions(EndRoom(room, now)) == ReadyCompanions(room) by {
      assert ReadyUsers(EndRoom(room, now)) == ReadyUsers(room);
      assert (set u | u in ReadyUsers(room) :: EndRoom(room, now).participants[u].companion)
          == set u | u in ReadyUsers(room) :: room.participants[u].companion;
    }
    MomentIs(room);
  }

  /** `r` has a moment of that many turns and of the companions that were ready in `room`, two if none was. */
  ghost predicate MomentOf(room: Room, turns: nat, r: Room) {
    && r.moment.Some? && r.moment.value.turnCount == turns
    && var ready := set u | u in room.participants && room.participants[u].readyAt.Some? :: room.participants[u].companion;
       r.moment.value.companions == if ready == {} then 2 else |ready|
  }

  lemma MomentIs(room: Room)
    ensures var ready := set u | u in room.participants && room.participants[u].readyAt.Some? :: room.participants[u].companion;
            ReadyCompanions(room) == if ready == {} then 2 else |ready|
  {
    assert (set u | u in ReadyUsers(room) :: room.participants[u].companion)
        == set u | u in room.participants && room.participants[u].readyAt.Some? :: room.participants[u].companion;
  }

  /** A principal, or a member who has not left, finalizes an ended session that was shared and has two turns. */
  lemma FinalizesExactly(room: Room, user: UserId)
    ensures var tx := FinalizeMoment(room, user);
            var member := user in {room.row.visitor, room.row.host} || (user in room.participants && room.participants[user].state != Left);
            var fit := room.row.state == Ended && room.share.Some? && |room.turns| >= 2;
            && (tx.reply == Done <==> member && fit && room.moment == None)
            && (tx.reply == Repeated <==> member && fit && room.moment != None)
            && (tx.reply == Refused(SessionNotParticipant) <==> !member)
            && (tx.reply == Refused(SessionNotCompleted) ==> room.row.state != Ended)
            && (tx.reply == Refused(ShareRequired) ==> room.share.None?)
            && (tx.reply == Refused(SharedMomentTooShort) ==> |room.turns| < 2)
            && (tx.reply != Done ==> tx.room == room)
            && (tx.reply == Done ==> MomentOf(room, |room.turns|, tx.room) && tx.room == room.(moment := tx.room.moment))
  {
    MomentIs(room);
    hide ReadyCompanions;
  }

  lemma CurrentIsShared(room: Room)
    requires RoomOk(room) && room.share.Some? && room.row.state == Active && room.share.value.topic in room.topics
    ensures room.topics[room.share.value.topic].state == Current && room.moment.None?
  {
    MomentOnlyAfter(room);
    hide MembersOk, RowOk, TurnsOk;
  }

  lemma SpokenIs(turns: map<nat, Turn>, turn: Turn)
    requires Dense(turns)
    ensures Spoken(turns, turn) == turns[|turns| + 1 := turn] && |Spoken(turns, turn)| == |turns| + 1
  {
    assert |turns| + 1 !in turns;
  }

  lemma ProgressExactly(room: Room, k: nat, intent: Intent, now: Time)
    requires TopicsOk(room.topics, room.share, true) && room.share.Some? && room.share.value.topic == k && room.moment.None?
    requires k in room.topics && room.topics[k].state == Current
    ensures var r := Progress(room, k, |room.turns|, intent, now);
            && r.turns == room.turns && k in r.topics
            && (TopicIsOver(room.topics[k], room.turns, k, intent) ==>
                  if |room.turns| < 15 && k + 1 in room.topics then GoesOn(room, r, k) else IsOver(room, r, k, now))
            && (!TopicIsOver(room.topics[k], room.turns, k, intent) ==> r == room)
  {
    ProgressCases(room, k, intent, now);
    TurnsAreSpoken(room.turns, k);
    NextTopic(room, k);
    hide Progress, TopicsOk, TurnsOn;
    if !KeepsTopic(room, k, |room.turns|, intent) {
      if |room.turns| < ROOM_MAX_TURNS && k < |room.topics| {
        SwitchedGoesOn(room, k);
      } else {
        FinishedIsOver(room, k, now);
      }
    }
    hide GoesOn, IsOver, Switched, Finished;
  }

  lemma TurnsAreSpoken(turns: map<nat, Turn>, k: nat)
    ensures |TurnsOn(turns, k)| == SpokenOn(turns, k)
  {
    assert TurnsOn(turns, k) == set i | i in turns && turns[i].topic == Some(k);
  }

  lemma NextTopic(room: Room, k: nat)
    requires TopicsOk(room.topics, room.share, true) && k in room.topics
    ensures k + 1 in room.topics <==> k < |room.topics|
  {
  }

  lemma SwitchedGoesOn(room: Room, k: nat)
    requires k in room.topics && k + 1 in room.topics && room.share.Some?
    ensures GoesOn(room, Switched(room, k), k) && Switched(room, k).turns == room.turns
  {
  }

  lemma FinishedIsOver(room: Room, k: nat, now: Time)
    requires k in room.topics && room.moment.None?
    ensures IsOver(room, Finished(room, k, now), k, now) && Finished(room, k, now).turns == room.turns
  {
    var r := Finished(room, k, now);
    assert ReadyUsers(r) == set u | u in room.participants && room.participants[u].readyAt.Some?;
    assert (set u | u in ReadyUsers(r) :: r.participants[u].companion)
        == set u | u in room.participants && room.participants[u].readyAt.Some? :: room.participants[u].companion;
  }

  lemma SameTopics(room: Room, mid: Room, k: nat, now: Time)
    requires mid == room.(turns := mid.turns)
    ensures forall r :: GoesOn(mid, r, k) ==> GoesOn(room, r, k)
    ensures forall r :: IsOver(mid, r, k, now) ==> IsOver(room, r, k, now)
  {
  }

  lemma SpeakingIs(room: Room)
    ensures SpeakingUsers(room) == set u | u in room.participants && room.participants[u].state == Speaking
  {
  }

  lemma SharedHasTopic(room: Room)
    requires RoomOk(room)
    ensures room.row.state == Active && room.share.Some? ==> room.topics == map[] || CurrentTopic(room).Some?
  {
    if room.row.state == Active && room.share.Some? {
      OneCurrentTopic(room);
    }
    hide RoomOk;
  }

  lemma BelowLimit(room: Room)
    ensures room.row.state == Active && NextActor(room.row.state, Speakers(room), LastTurn(room), MaxKey(room.turns.Keys)).Some? ==>
              MaxKey(room.turns.Keys) < 15
  {
    hide Speakers, LastTurn;
  }
}
