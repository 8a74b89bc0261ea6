/** The methods of src/visit-social/visit-social.service.ts. */
module SocialServices {
  import opened Common
  import opened Replies
  import opened Catalog
  import R = Rooms
  import opened Rooms
  import opened Settlement
  import opened Visit
  import opened VisitDatabase

  class VisitSocialService {
    const db: Database

    constructor (db: Database)
      ensures this.db == db
    {
      this.db := db;
    }

    method SetShare(c: Catalog, user: UserId, s: SessionId, content: Content) returns (reply: Reply)
      modifies db
      ensures Tx(db.Rows(), reply) == ShareTopic(old(db.Rows()), c, user, s, content)
    {
      if s !in db.rooms { return Refused(SessionNotFound); }
      var room := db.rooms[s];
      assert forall any :: Tx(db.Rows(), any) == OnRoom(db.Rows(), s, RoomTx(room, any));
      if content.title == "" || content.summary == "" { return Refused(ShareInvalid); }
      if !IsPrincipal(room, user) && !IsPresent(room, user) { return Refused(SessionNotParticipant); }
      if room.row.visitor != user { return Refused(ShareNotOwner); }
      if room.row.state != Preparing { return Refused(ShareStateChanged); }
      if !AllEligible(c, room.participants.Keys) { return Refused(SocialNotAvailable); }
      var scope := if content.sourceUrl.Some? then SummaryAndSource else SummaryOnly;
      if 1 in room.topics {
        room := room.(topics := room.topics[1 := room.topics[1].(state := Current, content := content, scope := scope)]);
      } else {
        room := room.(topics := room.topics[1 := Topic(Current, room.row.companion, user, content, scope, MINIMUM_TURNS, MAXIMUM_TURNS)]);
      }
      room := room.(share := Some(Envelope(1, content, user)));
      db.rooms := db.rooms[s := room];
      return Done;
    }

    /** endRoom. */
    method EndRoom(s: SessionId, now: Time)
      requires s in db.rooms
      modifies db
      ensures db.Rows() == Released(old(db.Rows()), s, R.EndRoom(old(db.rooms)[s], now))
    {
      var room := db.rooms[s];
      room := room.(row := room.row.(state := Ended, endedAt := Some(now), packRef := None));
      db.reservations := WithoutSession(db.reservations, s);
      room := room.(participants := AllLeft(room.participants));
      db.rooms := db.rooms[s := room];
    }

    /** settleRelationships: two nested loops over the ready participants. */
    method SettleRelationships(s: SessionId, entries: seq<Entry>, turns: map<nat, Turn>)
      modifies db`ledger
      ensures db.ledger == SettleAll(old(db.ledger), s, entries, turns)
    {
      ghost var start := db.ledger;
      var left := 0;
      while left < |entries|
        invariant left <= |entries|
        invariant SettleAll(db.ledger, s, entries[left..], turns) == SettleAll(start, s, entries, turns)
      {
        var right := left + 1;
        ghost var before := db.ledger;
        while right < |entries|
          invariant left < right <= |entries|
          invariant SettleWith(db.ledger, s, entries[left], entries[right..], turns)
                 == SettleWith(before, s, entries[left], entries[left + 1..], turns)
        {
          assert entries[right..][1..] == entries[right + 1..];
          UpdatePair(s, entries[left], entries[right], turns);
          right := right + 1;
        }
        assert entries[left..][1..] == entries[left + 1..];
        left := left + 1;
      }
    }

    /** The settlement row of one pair and, if it is new, its relationship (updateRelationshipPair). */
    method UpdatePair(s: SessionId, first: Entry, second: Entry, turns: map<nat, Turn>)
      modifies db`ledger
      ensures db.ledger == SettlePair(old(db.ledger), s, first, second, turns)
    {
      var p := PairOf(first.companion, second.companion);
      var turnCount := PairTurns(turns, first.user, second.user);
      if (s, p) !in db.ledger.settlements {
        db.ledger := db.ledger.(settlements := db.ledger.settlements[(s, p) := turnCount]);
        db.ledger := db.ledger.(relationships := Upsert(db.ledger.relationships, p, turnCount));
      }
    }

    /** ensureMoment. */
    method EnsureMoment(s: SessionId, turnCount: nat)
      requires s in db.rooms
      modifies db
      ensures var room := old(db.rooms)[s];
              db.Rows() == old(db.Rows()).(
                rooms := old(db.rooms)[s := R.EnsureMoment(room, turnCount)],
                ledger := if room.moment.Some? then old(db.ledger) else SettleAll(old(db.ledger), s, Entries(room), room.turns))
    {
      var room := db.rooms[s];
      if room.moment.None? {
        db.rooms := db.rooms[s := room.(moment := Some(Moment(turnCount, ReadyCompanions(room))))];
        SettleRelationships(s, Entries(room), room.turns);
      } else {
        assert db.rooms == db.rooms[s := room];
      }
    }

    /** The next topic starts: the topic, then the session's counter, then the share. */
    method SwitchTopic(s: SessionId, next: nat)
      requires s in db.rooms && next in db.rooms[s].topics
      modifies db`rooms
      ensures db.rooms == old(db.rooms)[s := Starting(old(db.rooms)[s], next)]
    {
      var room := db.rooms[s];
      var topic := room.topics[next].(state := Current);
      room := room.(topics := room.topics[next := topic]);
      room := room.(row := room.row.(currentTopic := next));
      if room.share.Some? {
        room := room.(share := Some(Envelope(next, Visible(topic.content, topic.scope), topic.createdBy)));
      }
      db.rooms := db.rooms[s := room];
    }

    /** Completing a topic is part of the same transaction. */
    static lemma CompletedFirst(t: Tables, s: SessionId, k: nat, tx: RoomTx)
      requires s in t.rooms && k in t.rooms[s].topics
      ensures OnDialogue(t.(rooms := t.rooms[s := Completing(t.rooms[s], k)]), s, tx) == OnDialogue(t, s, tx)
    {
      assert t.rooms[s := Completing(t.rooms[s], k)][s := tx.room] == t.rooms[s := tx.room];
    }

    /** A switch of topics ends nothing and books nothing. */
    static lemma SwitchWrites(t: Tables, s: SessionId, k: nat, next: nat)
      requires s in t.rooms && k in t.rooms[s].topics && next in t.rooms[s].topics
      ensures var r := Starting(Completing(t.rooms[s], k), next);
              OnDialogue(t, s, RoomTx(r, Done)) == Tx(t.(rooms := t.rooms[s := r]), Done)
    {
    }

    /** progressRoom. */
    method ProgressRoom(s: SessionId, k: nat, totalTurns: nat, intent: Intent, now: Time)
      requires s in db.rooms && k in db.rooms[s].topics && Live(db.rooms[s].row.state)
      modifies db
      ensures Tx(db.Rows(), Done)
           == OnDialogue(old(db.Rows()), s, RoomTx(Progress(old(db.rooms)[s], k, totalTurns, intent, now), Done))
    {
      hide OnDialogue, KeepsTopic, Starting, R.EnsureMoment, R.EndRoom;
      var room := db.rooms[s];
      ghost var start := db.Rows();
      if KeepsTopic(room, k, totalTurns, intent) {
        NothingWritten(start, s, Done);
        return;
      }
      var closed := Completing(room, k);
      db.rooms := db.rooms[s := closed];
      CompletedFirst(start, s, k, RoomTx(Progress(room, k, totalTurns, intent, now), Done));
      var queued := if totalTurns >= ROOM_MAX_TURNS then {} else QueuedAfter(closed, k);
      if queued != {} {
        var next := MinKey(queued);
        SwitchWrites(start, s, k, next);
        SwitchTopic(s, next);
        assert start.rooms[s := closed][s := Starting(closed, next)] == start.rooms[s := Starting(closed, next)];
      } else {
        EndAndRecord(s, totalTurns, now);
      }
    }

    /** The end of a room with its shared moment. */
    method EndAndRecord(s: SessionId, totalTurns: nat, now: Time)
      requires s in db.rooms && Live(db.rooms[s].row.state)
      modifies db
      ensures Tx(db.Rows(), Done)
           == OnDialogue(old(db.Rows()), s, RoomTx(R.EnsureMoment(R.EndRoom(old(db.rooms)[s], now), totalTurns), Done))
    {
      ghost var ended := R.EndRoom(db.rooms[s], now);
      EndRoom(s, now);
      MomentInvisible(ended, totalTurns);
      EnsureMoment(s, totalTurns);
    }

    /** Who is ready, and what was said, do not depend on the shared moment. */
    static lemma MomentInvisible(room: Room, totalTurns: nat)
      ensures Entries(R.EnsureMoment(room, totalTurns)) == Entries(room)
      ensures R.EnsureMoment(room, totalTurns).turns == room.turns
    {
    }

    /** progressLegacyRoom. */
    method ProgressLegacyRoom(s: SessionId, sequence: nat, now: Time)
      requires s in db.rooms && Live(db.rooms[s].row.state)
      modifies db
      ensures Tx(db.Rows(), Done) == OnDialogue(old(db.Rows()), s, RoomTx(ProgressLegacy(old(db.rooms)[s], sequence, now), Done))
    {
      if sequence < LEGACY_MAX_TURNS {
        assert db.rooms == db.rooms[s := db.rooms[s]];
        return;
      }
      EndAndRecord(s, sequence, now);
    }

    /** A refusal, or a repeated call, writes nothing. */
    static lemma NothingWritten(t: Tables, s: SessionId, reply: Reply)
      requires s in t.rooms
      ensures OnDialogue(t, s, RoomTx(t.rooms[s], reply)) == Tx(t, reply)
    {
      assert t.rooms[s := t.rooms[s]] == t.rooms;
    }

    /** The stored turn is part of the same transaction. */
    static lemma StoredFirst(t: Tables, s: SessionId, turns: map<nat, Turn>, tx: RoomTx)
      requires s in t.rooms
      ensures OnDialogue(t.(rooms := t.rooms[s := t.rooms[s].(turns := turns)]), s, tx) == OnDialogue(t, s, tx)
    {
      assert t.rooms[s := t.rooms[s].(turns := turns)][s := tx.room] == t.rooms[s := tx.room];
    }

    /** The room with the turn stored. */
    static function Stored(room: Room, clientTurnId: string, user: UserId, topic: Option<nat>, intent: Intent, message: string, sequence: nat): Room {
      room.(turns := room.turns[sequence := Turn(clientTurnId, user, topic, intent, message)])
    }

    /** appendTurn's checks, in their order, and where the turn goes. */
    static method CheckTurn(room: Room, c: Catalog, user: UserId, clientTurnId: string, intent: Intent, message: string, ghost now: Time)
      returns (reply: Reply, topic: Option<nat>, sequence: nat)
      ensures var tx := R.AppendTurn(room, c, user, clientTurnId, intent, message, now);
              && reply == tx.reply
              && (reply != Done ==> tx.room == room)
              && (reply == Done ==>
                    var spoken := Stored(room, clientTurnId, user, topic, intent, message, sequence);
                    && room.row.state == Active
                    && tx.room == if CurrentTopic(room).Some? then Progress(spoken, CurrentTopic(room).value, sequence, intent, now)
                                  else ProgressLegacy(spoken, sequence, now))
    {
      hide Progress, ProgressLegacy, Speakers, SpeakingUsers, NextActor, LastTurn, CurrentTopic, HasClientTurn, AllEligible, IsPresent;
      topic, sequence := None, 0;
      if !IsPrincipal(room, user) && !IsPresent(room, user) { return Refused(SessionNotParticipant), topic, sequence; }
      if room.row.state != Active { return Refused(SessionNotActive), topic, sequence; }
      var speakers := Speakers(room);
      if user !in SpeakingUsers(room) { return Refused(ParticipantNotReady), topic, sequence; }
      if !AllEligible(c, SpeakingUsers(room)) { return Refused(SocialNotAvailable), topic, sequence; }
      if room.share.None? { return Refused(ShareRequired), topic, sequence; }
      var current := CurrentTopic(room);
      if room.topics != map[] && current.None? { return Refused(TopicStateChanged), topic, sequence; }
      if HasClientTurn(room, clientTurnId) { return Repeated, topic, sequence; }
      var last := MaxKey(room.turns.Keys);
      var expected := NextActor(room.row.state, speakers, LastTurn(room), last);
      if expected != Some(user) { return Refused(TurnOrderInvalid), topic, sequence; }
      sequence := last + 1;
      if sequence > ROOM_MAX_TURNS { return Refused(TurnLimitReached), topic, sequence; }
      if message == "" { return Refused(TurnInvalid), topic, sequence; }
      topic := if current.Some? then current else Some(room.share.value.topic);
      return Done, topic, sequence;
    }

    method AppendTurn(c: Catalog, user: UserId, s: SessionId, clientTurnId: string, intent: Intent, message: string, now: Time)
      returns (reply: Reply)
      modifies db
      ensures Tx(db.Rows(), reply) == Say(old(db.Rows()), c, user, s, clientTurnId, intent, message, now)
    {
      hide OnDialogue, Progress, ProgressLegacy, CurrentTopic, R.AppendTurn;
      if s !in db.rooms { return Refused(SessionNotFound); }
      var room := db.rooms[s];
      ghost var start := db.Rows();
      ghost var tx := R.AppendTurn(room, c, user, clientTurnId, intent, message, now);
      var topic, sequence;
      reply, topic, sequence := CheckTurn(room, c, user, clientTurnId, intent, message, now);
      if reply != Done {
        NothingWritten(start, s, reply);
        return;
      }
      var spoken := Stored(room, clientTurnId, user, topic, intent, message, sequence);
      db.rooms := db.rooms[s := spoken];
      StoredFirst(start, s, spoken.turns, tx);
      var current := CurrentTopic(room);
      if current.Some? {
        ProgressRoom(s, current.value, sequence, intent, now);
      } else {
        ProgressLegacyRoom(s, sequence, now);
      }
    }

    method FinalizeMoment(user: UserId, s: SessionId) returns (reply: Reply)
      modifies db
      ensures Tx(db.Rows(), reply) == Finalize(old(db.Rows()), user, s)
    {
      if s !in db.rooms { return Refused(SessionNotFound); }
      var room := db.rooms[s];
      forall any ensures OnDialogue(db.Rows(), s, RoomTx(room, any)) == Tx(db.Rows(), any) {
        NothingWritten(db.Rows(), s, any);
      }
      if !IsPrincipal(room, user) && !IsPresent(room, user) { return Refused(SessionNotParticipant); }
      if room.row.state != Ended { return Refused(SessionNotCompleted); }
      if room.share.None? { return Refused(ShareRequired); }
      if |room.turns| < 2 { return Refused(SharedMomentTooShort); }
      MomentInvisible(room, |room.turns|);
      EnsureMoment(s, |room.turns|);
      return if room.moment.Some? then Repeated else Done;
    }
  }
}
