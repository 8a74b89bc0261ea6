/** Turn taking in one room: the speaking order is a true sort, the conversation cannot get stuck,
    and everybody speaks once per round. */
module TurnTaking {
  import opened Common
  import opened Replies
  import opened Catalog
  import opened Rooms
  import opened RoomInvariant

  // ------------------------------------------------------------------ topics in order

  function TopicRank(s: TopicState): nat {
    match s case Completed => 0 case Current => 1 case Queued => 2
  }

  /** Topics read completed*, active?, queued* in sequence order. */
  lemma TopicsInOrder(room: Room, i: nat, j: nat)
    requires RoomOk(room) && i in room.topics && j in room.topics && i < j
    ensures TopicRank(room.topics[i].state) <= TopicRank(room.topics[j].state)
    ensures !(room.topics[i].state == Current && room.topics[j].state == Current)
  {
    if room.share.Some? {
      var k := room.share.value.topic;
      assert i < k || i == k || k < i;
      assert j < k || j == k || k < j;
    }
  }

  /** A live room has a current topic exactly when it has a share, and then only one. */
  lemma OneCurrentTopic(room: Room)
    requires RoomOk(room) && Live(room.row.state)
    ensures |CurrentTopics(room)| == if room.share.Some? then 1 else 0
    ensures room.share.Some? ==> CurrentTopics(room) == {room.row.currentTopic}
  {
    hide MembersOk, TurnsOk;
    CurrentTopicIs(room);
  }

  // ------------------------------------------------------------------ the speaking order

  ghost predicate Sorted(ps: map<UserId, Participant>, us: seq<UserId>) {
    forall i, j :: 0 <= i < j < |us| ==> us[i] in ps && us[j] in ps && Before(ps, us[i], us[j])
  }

  /** Ordered lists each user once, and every one before those that come after it. */
  lemma {:induction false} OrderedSorts(ps: map<UserId, Participant>, us: set<UserId>)
    requires us <= ps.Keys
    ensures |Ordered(ps, us)| == |us|
    ensures forall u :: u in Ordered(ps, us) <==> u in us
    ensures Sorted(ps, Ordered(ps, us))
    decreases |us|
  {
    if us != {} {
      var u := First(ps, us);
      OrderedSorts(ps, us - {u});
      var rest := Ordered(ps, us - {u});
      assert Ordered(ps, us) == [u] + rest;
      forall j | 0 <= j < |rest| ensures Before(ps, u, rest[j]) {
        assert rest[j] in us - {u};
      }
    }
  }

  /** Before is irreflexive, so a sorted list has no repetition. */
  lemma SortedDistinct(ps: map<UserId, Participant>, us: seq<UserId>, i: nat, j: nat)
    requires Sorted(ps, us) && i < |us| && j < |us|
    ensures i != j ==> us[i] != us[j]
  {
    if i != j {
      var lo, hi := if i < j then i else j, if i < j then j else i;
      assert Before(ps, us[lo], us[hi]);
    }
  }

  lemma IndexOfUnique(ps: map<UserId, Participant>, us: seq<UserId>, i: nat)
    requires Sorted(ps, us) && i < |us|
    ensures IndexOf(us, us[i]) == i
  {
    var k := IndexOf(us, us[i]);
    assert us[i] in us;
    SortedDistinct(ps, us, k, i);
  }

  // ------------------------------------------------------------------ progress

  /** In an active room somebody is always due to speak: the host is there and never leaves. */
  lemma NextActorDefined(room: Room)
    requires RoomOk(room) && room.row.state == Active
    ensures room.row.host in SpeakingUsers(room)
    ensures NextActor(room.row.state, Speakers(room), LastTurn(room), MaxKey(room.turns.Keys)).Some?
    ensures NextActor(room.row.state, Speakers(room), LastTurn(room), MaxKey(room.turns.Keys)).value in SpeakingUsers(room)
  {
    assert MemberOk(room.row, room.row.host, room.participants[room.row.host]);
    DenseMax(room.turns);
    OrderedSorts(room.participants, SpeakingUsers(room));
    assert room.row.host in Speakers(room);
  }

  /** appendTurn's checks, for a user whose turn it is, in a room with a share. */
  lemma DueTurnAccepted(room: Room, c: Catalog, user: UserId, id: string, intent: Intent, message: string, now: Time)
    requires TopicsOk(room.topics, room.share, true) && Dense(room.turns) && |room.turns| < ROOM_MAX_TURNS
    requires room.row.state == Active && room.share.Some? && AllEligible(c, SpeakingUsers(room))
    requires !HasClientTurn(room, id) && message != "" && user in SpeakingUsers(room)
    requires NextActor(room.row.state, Speakers(room), LastTurn(room), MaxKey(room.turns.Keys)) == Some(user)
    ensures AppendTurn(room, c, user, id, intent, message, now).reply == Done
  {
    CurrentTopicIs(room);
    DenseMax(room.turns);
    hide Speakers, NextActor, AllEligible, HasClientTurn, Progress, ProgressLegacy, LastTurn, Dense, TopicsOk, CurrentTopic;
  }

  /** An active room with a share, whose speakers are still eligible for each other, accepts a new
      turn from exactly one user. */
  lemma NeverStuck(room: Room, c: Catalog, id: string, intent: Intent, message: string, now: Time) returns (due: UserId)
    requires RoomOk(room) && room.row.state == Active && room.share.Some?
    requires AllEligible(c, SpeakingUsers(room)) && !HasClientTurn(room, id) && message != ""
    ensures forall u :: AppendTurn(room, c, u, id, intent, message, now).reply == Done <==> u == due
  {
    NextActorDefined(room);
    due := NextActor(room.row.state, Speakers(room), LastTurn(room), MaxKey(room.turns.Keys)).value;
    DueTurnAccepted(room, c, due, id, intent, message, now);
    forall u | AppendTurn(room, c, u, id, intent, message, now).reply == Done ensures u == due {
      AppendedTurn(room, c, u, id, intent, message, now);
      DenseMax(room.turns);
    }
  }

  // ------------------------------------------------------------------ fairness

  /** One appendTurn call. */
  datatype Utterance = Utterance(catalog: Catalog, user: UserId, id: string, intent: Intent, message: string, now: Time)

  function Said(room: Room, say: Utterance): RoomTx {
    AppendTurn(room, say.catalog, say.user, say.id, say.intent, say.message, say.now)
  }

  /** The calls are accepted one after the other, and the speakers are `us` before each of them. */
  ghost predicate Conversation(room: Room, says: seq<Utterance>, us: seq<UserId>)
    decreases |says|
  {
    says != [] ==>
      && Speakers(room) == us && Said(room, says[0]).reply == Done
      && Conversation(Said(room, says[0]).room, says[1..], us)
  }

  /** After an accepted turn the last sender is its sender. */
  lemma LastIsSender(room: Room, say: Utterance)
    requires RoomOk(room) && Said(room, say).reply == Done
    ensures LastTurn(Said(room, say).room).Some? && LastTurn(Said(room, say).room).value.sender == say.user
    ensures room.row.state == Active
  {
    var Utterance(c, user, id, intent, message, now) := say;
    ActiveTopics(room, c, user, id, intent, message, now);
    AppendedTurn(room, c, user, id, intent, message, now);
    var k := room.share.value.topic;
    var turn := Turn(id, user, Some(k), intent, message);
    var spoken := room.(turns := Spoken(room.turns, turn));
    ProgressKeepsTurns(spoken, k, |room.turns| + 1, intent, now);
    SpokenSize(room.turns, turn);
    AppendTurnPreserves(room, c, user, id, intent, message, now);
    hide RoomOk, AppendTurn;
    TurnsAreDense(Said(room, say).room);
    DenseMax(Said(room, say).room.turns);
  }

  lemma ProgressKeepsTurns(room: Room, k: nat, total: nat, intent: Intent, now: Time)
    requires k in room.topics
    ensures Progress(room, k, total, intent, now).turns == room.turns
  {
    hide KeepsTopic;
  }

  lemma TurnsAreDense(room: Room)
    requires RoomOk(room)
    ensures Dense(room.turns)
  {
    hide Dense, MembersOk;
  }

  lemma SayPreserves(room: Room, say: Utterance)
    requires RoomOk(room)
    ensures RoomOk(Said(room, say).room)
  {
    hide RoomOk, AppendTurn;
    AppendTurnPreserves(room, say.catalog, say.user, say.id, say.intent, say.message, say.now);
  }

  /** The k-th position after `i`, going round a list of length n. */
  function Round(i: nat, k: nat, n: nat): (r: nat)
    requires i < n && k <= n
    ensures r < n
  {
    if i + k < n then i + k else i + k - n
  }

  /** An accepted turn comes from the next actor. */
  lemma SaidByNextActor(room: Room, say: Utterance)
    requires RoomOk(room) && Said(room, say).reply == Done
    ensures NextActor(Active, Speakers(room), LastTurn(room), |room.turns|) == Some(say.user)
    ensures say.user in SpeakingUsers(room)
  {
    var Utterance(c, user, id, intent, message, now) := say;
    ActiveTopics(room, c, user, id, intent, message, now);
    AppendedTurn(room, c, user, id, intent, message, now);
    hide RoomOk, AppendTurn, LastTurn, Speakers, NextActor, TopicsOk;
  }

  /** The round robin step of nextActor, for a last sender who is still among the speakers. */
  lemma NextInRound(ps: map<UserId, Participant>, us: seq<UserId>, i: nat, last: Turn, n: nat)
    requires Sorted(ps, us) && i < |us| && last.sender == us[i] && n < ROOM_MAX_TURNS
    ensures NextActor(Active, us, Some(last), n) == Some(us[Round(i, 1, |us|)])
  {
    hide Sorted;
    IndexOfUnique(ps, us, i);
    NextModulo(i, |us|);
  }

  lemma NextModulo(i: nat, n: nat)
    requires i < n
    ensures (i + 1) % n == Round(i, 1, n)
  {
    if i + 1 == n {
      assert n % n == 0;
    }
  }

  /** Whose turn it is: the one after the last sender. */
  lemma DueAfter(room: Room, say: Utterance, us: seq<UserId>, i: nat)
    requires RoomOk(room) && Speakers(room) == us && Said(room, say).reply == Done
    requires i < |us| && LastTurn(room).Some? && LastTurn(room).value.sender == us[i]
    ensures say.user == us[Round(i, 1, |us|)]
  {
    hide RoomOk, Said, LastTurn;
    SaidByNextActor(room, say);
    OrderedSorts(room.participants, SpeakingUsers(room));
    if |room.turns| < ROOM_MAX_TURNS {
      NextInRound(room.participants, us, i, LastTurn(room).value, |room.turns|);
    }
  }

  /** With an unchanged list of speakers, senders go round it in order. */
  lemma {:induction false} RoundRobin(room: Room, says: seq<Utterance>, us: seq<UserId>, i: nat)
    requires RoomOk(room) && Conversation(room, says, us) && |says| <= |us|
    requires i < |us| && LastTurn(room).Some? && LastTurn(room).value.sender == us[i]
    ensures forall k :: 0 <= k < |says| ==> says[k].user == us[Round(i, k + 1, |us|)]
    decreases |says|
  {
    hide RoomOk, Said, LastTurn;
    if says != [] {
      DueAfter(room, says[0], us, i);
      LastIsSender(room, says[0]);
      SayPreserves(room, says[0]);
      var next := Round(i, 1, |us|);
      RoundRobin(Said(room, says[0]).room, says[1..], us, next);
      forall k | 0 < k < |says| ensures says[k].user == us[Round(i, k + 1, |us|)] {
        assert says[k] == says[1..][k - 1];
      }
    }
  }

  /** The senders of |us| consecutive turns are the speakers, rotated. */
  lemma Rotation(room: Room, says: seq<Utterance>, us: seq<UserId>) returns (i: nat)
    requires RoomOk(room) && Conversation(room, says, us) && 0 < |says| == |us|
    ensures i < |us| && forall k :: 0 <= k < |says| ==> says[k].user == us[Round(i, k, |us|)]
  {
    hide RoomOk, Said, LastTurn;
    LastIsSender(room, says[0]);
    SayPreserves(room, says[0]);
    FirstSpeaks(room, says[0], us);
    i := IndexOf(us, says[0].user);
    RoundRobin(Said(room, says[0]).room, says[1..], us, i);
    forall k | 0 < k < |says| ensures says[k].user == us[Round(i, k, |us|)] {
      assert says[k] == says[1..][k - 1];
    }
  }

  /** Whoever opens, any |us| consecutive turns of an unchanged list of speakers have each of them
      exactly once. */
  lemma EachSpeaksOnce(room: Room, says: seq<Utterance>, us: seq<UserId>, u: UserId) returns (at: nat)
    requires RoomOk(room) && Conversation(room, says, us) && |says| == |us| && u in us
    ensures at < |says| && says[at].user == u
    ensures forall k :: 0 <= k < |says| && says[k].user == u ==> k == at
  {
    hide RoomOk, Said;
    var i := Rotation(room, says, us);
    OrderedSorts(room.participants, SpeakingUsers(room));
    var j := IndexOf(us, u);
    at := if i <= j then j - i else j + |us| - i;
    forall k | 0 <= k < |says| && says[k].user == u ensures k == at {
      SortedDistinct(room.participants, us, Round(i, k, |us|), j);
    }
  }

  lemma FirstSpeaks(room: Room, say: Utterance, us: seq<UserId>)
    requires RoomOk(room) && Speakers(room) == us && Said(room, say).reply == Done
    ensures say.user in us
  {
    hide RoomOk, Said;
    SaidByNextActor(room, say);
    OrderedSorts(room.participants, SpeakingUsers(room));
  }
}
