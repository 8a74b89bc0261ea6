/** When each transaction over the Visit tables is allowed, what it then changes, and what a refusal means, in
    terms of the rows alone. */
module VisitAnswers {
  import opened Common
  import opened Replies
  import opened Catalog
  import opened Rooms
  import opened RoomAnswers
  import opened Visit
  import opened VisitSweeps
  import Settlement

  // ------------------------------------------------------------------ what is looked up

  /** The user's companion, published to friends, and the active pack it is shown with. */
  ghost predicate Shows(c: Catalog, u: UserId, k: CompanionId, p: PackId) {
    && u in c.users && c.users[u].active && c.users[u].activeCompanion == Some(k)
    && k in c.companions && c.companions[k].owner == u && c.companions[k].published && c.companions[k].friendsOnly
    && c.companions[k].activePack == Some(p) && p in c.packs && c.packs[p].companion == k && c.packs[p].status == PackActive
  }

  lemma ShowsExactly(c: Catalog, u: UserId)
    ensures forall k, p :: Shows(c, u, k, p) <==> CurrentSnapshot(c, u) == Some(Snapshot(k, p))
  {
  }

  ghost predicate IsLive(room: Room) { room.row.state in {Preparing, Ready, Active, Ending} }

  /** The sessions a user hosts, and those where a user's companion is a visitor, until they are over. */
  ghost function Hosting(t: Tables, u: UserId): set<SessionId> {
    set s | s in t.rooms && IsLive(t.rooms[s]) && t.rooms[s].row.host == u
  }

  ghost function Visiting(t: Tables, u: UserId): set<SessionId> {
    set s | s in t.rooms && IsLive(t.rooms[s]) && t.rooms[s].row.visitor == u
  }

  lemma EngagementsExactly(t: Tables, u: UserId)
    ensures LiveHostedBy(t, u) == Hosting(t, u) && LiveVisitsBy(t, u) == Visiting(t, u)
  {
    assert forall s :: s in t.rooms ==> (Live(t.rooms[s].row.state) <==> IsLive(t.rooms[s]));
  }

  ghost function Members(room: Room): set<UserId> { set u | u in room.participants && room.participants[u].state != Left }

  lemma MembersExactly(room: Room)
    ensures Present(room) == Members(room)
  {
  }

  // ------------------------------------------------------------------ inviting

  /** A pending invitation on the same route that may still be accepted. */
  ghost predicate Invited(t: Tables, visitor: UserId, host: UserId, k: CompanionId, now: Time) {
    exists i :: i in t.invitations && t.invitations[i].visitor == visitor && t.invitations[i].host == host
             && t.invitations[i].companion == k && t.invitations[i].status == Pending && now < t.invitations[i].expiresAt
  }

  /** The invitation with which `k`, shown with pack `p`, is sent. */
  ghost predicate Sendable(t: Tables, c: Catalog, visitor: UserId, host: UserId, choice: TopicChoice, now: Time, id: InvitationId,
                           k: CompanionId, p: PackId) {
    Shows(c, visitor, k, p) && c.packs[p].visual && !Invited(t, visitor, host, k, now) && id !in t.invitations && !choice.Unavailable?
  }

  /** An invitation is sent exactly if the two may meet, the visitor is neither reserved nor engaged, and shows
      a companion with a fitting pack that is not invited already. It pins the pack and reserves the visitor. */
  lemma InvitesExactly(t: Tables, c: Catalog, visitor: UserId, host: UserId, available: bool, mode: Mode, choice: TopicChoice,
                       now: Time, ttl: int, id: InvitationId)
    ensures var tx := CreateInvitation(t, c, visitor, host, available, mode, choice, now, ttl, id);
            && (tx.reply == Done <==>
                  && available && MayMeet(c, visitor, host) && visitor !in t.reservations
                  && Hosting(t, visitor) == {} && Visiting(t, visitor) == {}
                  && exists k, p :: Sendable(t, c, visitor, host, choice, now, id, k, p))
            && (tx.reply.Refused? ==> tx.tables == t) && tx.reply != Repeated
            && (tx.reply == Done ==> forall k, p :: Shows(c, visitor, k, p) ==>
                  tx.tables == t.(invitations := t.invitations[id :=
                                    Invitation(visitor, host, k, p, Some(p), mode, if choice.Chosen? then Some(choice.draft) else None, Pending, now + ttl)],
                                  reservations := t.reservations[visitor := Reservation(k, Outgoing(id), Some(now + ttl))]))
  {
    EligibleExactly(c, visitor, host);
    EngagementsExactly(t, visitor);
    assert MayMeet(c, visitor, host) ==> visitor != host;
    hide MayMeet, Eligible, LiveHostedBy, LiveVisitsBy, Hosting, Visiting;
    ShowsExactly(c, visitor);
    var snapshot := CurrentSnapshot(c, visitor);
    if snapshot.Some? {
      var k, p := snapshot.value.companion, snapshot.value.pack;
      assert Shows(c, visitor, k, p);
      RouteExactly(t, visitor, host, k, now);
      hide Shows, Invited, PendingOnRoute, CurrentSnapshot;
      assert forall k', p' :: Sendable(t, c, visitor, host, choice, now, id, k', p') ==> k' == k && p' == p;
      assert Sendable(t, c, visitor, host, choice, now, id, k, p)
        <==> c.packs[p].visual && !Invited(t, visitor, host, k, now) && id !in t.invitations && !choice.Unavailable?;
    } else {
      hide Shows, CurrentSnapshot;
    }
  }

  lemma RouteExactly(t: Tables, visitor: UserId, host: UserId, k: CompanionId, now: Time)
    ensures PendingOnRoute(t, visitor, host, k, now) != {} <==> Invited(t, visitor, host, k, now)
  {
    if Invited(t, visitor, host, k, now) {
      var i :| i in t.invitations && t.invitations[i].visitor == visitor && t.invitations[i].host == host
            && t.invitations[i].companion == k && t.invitations[i].status == Pending && now < t.invitations[i].expiresAt;
      assert i in PendingOnRoute(t, visitor, host, k, now);
    }
    if PendingOnRoute(t, visitor, host, k, now) != {} {
      var i := Member(PendingOnRoute(t, visitor, host, k, now));
      assert i in t.invitations;
    }
  }

  /** Who may not meet cannot invite, nor accept. */
  lemma StrangersStayApart(t: Tables, c: Catalog, visitor: UserId, host: UserId, available: bool, mode: Mode, choice: TopicChoice,
                           now: Time, ttl: int, id: InvitationId)
    ensures var tx := CreateInvitation(t, c, visitor, host, available, mode, choice, now, ttl, id);
            !MayMeet(c, visitor, host) ==> tx.reply.Refused? && tx.tables == t
  {
    InvitesExactly(t, c, visitor, host, available, mode, choice, now, ttl, id);
    hide MayMeet, CreateInvitation;
  }

  /** What a refused invitation lacked. Who may not meet learns nothing else. */
  lemma InvitationRefusals(t: Tables, c: Catalog, visitor: UserId, host: UserId, available: bool, mode: Mode, choice: TopicChoice,
                           now: Time, ttl: int, id: InvitationId)
    ensures var reply := CreateInvitation(t, c, visitor, host, available, mode, choice, now, ttl, id).reply;
            && (reply == Refused(VisitFeatureUnavailable) <==> !available)
            && (available && !MayMeet(c, visitor, host) ==> reply == Refused(InvitationNotAvailable))
            && (reply == Refused(InvitationNotAvailable) ==> !MayMeet(c, visitor, host) || forall k, p :: !Shows(c, visitor, k, p))
            && (reply == Refused(ReservationExists) <==> available && MayMeet(c, visitor, host) && visitor in t.reservations)
            && (reply == Refused(HostHasActiveGuests) ==> Hosting(t, visitor) != {})
            && (reply == Refused(SessionAlreadyActive) ==> Visiting(t, visitor) != {})
            && (reply == Refused(VisualAssetsUnavailable) ==> exists k, p :: Shows(c, visitor, k, p) && !c.packs[p].visual)
            && (reply == Refused(TopicNotAvailable) ==> choice.Unavailable?)
            && (reply == Refused(InvitationAlreadyExists) ==> exists k, p :: Shows(c, visitor, k, p) && Invited(t, visitor, host, k, now))
            && (reply == Refused(UniqueViolation) ==> id in t.invitations)
            && (reply.Refused? ==> reply.code in {VisitFeatureUnavailable, InvitationNotAvailable, ReservationExists, HostHasActiveGuests,
                                                 SessionAlreadyActive, VisualAssetsUnavailable, TopicNotAvailable, InvitationAlreadyExists, UniqueViolation})
  {
    EligibleExactly(c, visitor, host);
    EngagementsExactly(t, visitor);
    ShowsExactly(c, visitor);
    assert MayMeet(c, visitor, host) ==> visitor != host;
    hide MayMeet, Eligible, LiveHostedBy, LiveVisitsBy, Hosting, Visiting;
    var snapshot := CurrentSnapshot(c, visitor);
    if snapshot.Some? {
      var k, p := snapshot.value.companion, snapshot.value.pack;
      assert Shows(c, visitor, k, p);
      RouteExactly(t, visitor, host, k, now);
    }
    hide Shows, Invited, PendingOnRoute, CurrentSnapshot;
  }

  // ------------------------------------------------------------------ accepting

  /** The host takes part with the companion it shows, which a random host topic was made for. */
  ghost predicate Receives(c: Catalog, i: Invitation, k: CompanionId) {
    && (exists p :: Shows(c, i.host, k, p)) && k != i.companion
    && (i.mode == RandomHostTopic ==> i.topic.Some? && i.topic.value.owner == k)
  }

  /** The invited companion is still published and may be shown with the pack the invitation pinned. */
  ghost predicate StillShown(c: Catalog, i: Invitation) {
    && i.companion in c.companions && c.companions[i.companion].published && c.companions[i.companion].friendsOnly
    && i.packRef == Some(i.snapshot) && i.snapshot in c.packs && c.packs[i.snapshot].visual
    && c.packs[i.snapshot].companion == i.companion && c.packs[i.snapshot].status in {PackActive, Superseded}
  }

  ghost predicate HasRoom(t: Tables, id: InvitationId) { exists s :: s in t.rooms && t.rooms[s].row.invitation == id }

  /** An invitation is accepted exactly by its host, while pending, before it expires, if the two may meet, the
      visitor is held by it and nowhere engaged, the host is free and hosts at most one session. */
  lemma AcceptsExactly(t: Tables, c: Catalog, host: UserId, id: InvitationId, now: Time, s: SessionId, hostRow: int, visitorRow: int)
    ensures var tx := AcceptInvitation(t, c, host, id, now, s, hostRow, visitorRow);
            && (tx.reply == Done <==>
                  && id in t.invitations
                  && var i := t.invitations[id];
                  && i.host == host && i.status == Pending && now < i.expiresAt && MayMeet(c, i.visitor, i.host)
                  && i.visitor in t.reservations && t.reservations[i.visitor].hold == Outgoing(id) && i.host !in t.reservations
                  && Hosting(t, i.visitor) == {} && Visiting(t, i.visitor) == {} && Visiting(t, i.host) == {} && |Hosting(t, i.host)| < 2
                  && StillShown(c, i) && (exists k :: Receives(c, i, k)) && s !in t.rooms && !HasRoom(t, id))
            && (tx.reply == Repeated <==>
                  id in t.invitations && t.invitations[id].host == host && t.invitations[id].status == Accepted && HasRoom(t, id))
            && (tx.reply == Refused(InvitationExpired) <==>
                  && id in t.invitations && t.invitations[id].host == host && t.invitations[id].status == Pending
                  && t.invitations[id].expiresAt <= now)
            && (tx.reply.Refused? && tx.reply != Refused(InvitationExpired) ==> tx.tables == t)
            && (tx.reply == Repeated ==> tx.tables == t)
  {
    if id in t.invitations {
      var i := t.invitations[id];
      EligibleExactly(c, i.visitor, i.host);
      EngagementsExactly(t, i.visitor);
      EngagementsExactly(t, i.host);
      ReceivesExactly(c, i);
      StillShownExactly(c, i);
      assert HasSession(t, id) <==> HasRoom(t, id);
      hide MayMeet, Eligible, LiveHostedBy, LiveVisitsBy, Hosting, Visiting, HostCompanion, Receives, StillShown, HasSession, HasRoom;
      assert MAX_CONCURRENT_HOST_VISITORS == 2;
    }
  }

  lemma StillShownExactly(c: Catalog, i: Invitation)
    ensures StillShown(c, i) <==>
              && i.companion in c.companions && c.companions[i.companion].published && c.companions[i.companion].friendsOnly
              && i.packRef == Some(i.snapshot) && Presentable(c, i.snapshot, i.companion) && c.packs[i.snapshot].visual
  {
  }

  lemma ReceivesExactly(c: Catalog, i: Invitation)
    ensures forall k :: Receives(c, i, k) <==> HostCompanion(c, i).0 == Some(k) && k != i.companion
  {
    ShowsExactly(c, i.host);
    hide Shows, CurrentSnapshot;
    var current := CurrentSnapshot(c, i.host);
    if current.Some? {
      assert Shows(c, i.host, current.value.companion, current.value.pack);
    }
  }

  /** What a refused acceptance lacked. Who may not meet learns nothing else of a pending invitation. */
  lemma AcceptanceRefusals(t: Tables, c: Catalog, host: UserId, id: InvitationId, now: Time, s: SessionId, hostRow: int, visitorRow: int)
    ensures var reply := AcceptInvitation(t, c, host, id, now, s, hostRow, visitorRow).reply;
            && (reply == Refused(InvitationNotFound) <==> id !in t.invitations)
            && (reply == Refused(InvitationNotHost) <==> id in t.invitations && t.invitations[id].host != host)
            && (reply == Refused(InvitationNotPending) ==>
                  t.invitations[id].status != Pending && (t.invitations[id].status == Accepted ==> !HasRoom(t, id)))
            && (id in t.invitations ==>
                  var i := t.invitations[id];
                  && (i.host == host && i.status == Pending && now < i.expiresAt && !MayMeet(c, i.visitor, i.host) ==> reply == Refused(InvitationNotAvailable))
                  && (reply == Refused(InvitationNotAvailable) ==> !MayMeet(c, i.visitor, i.host) || !StillShown(c, i) || forall k :: !Receives(c, i, k))
                  && (reply == Refused(ReservationChanged) ==> !(i.visitor in t.reservations && t.reservations[i.visitor].hold == Outgoing(id)))
                  && (reply == Refused(ReservationExists) ==> i.host in t.reservations)
                  && (reply == Refused(HostHasActiveGuests) ==> Hosting(t, i.visitor) != {})
                  && (reply == Refused(SessionAlreadyActive) ==> Visiting(t, i.visitor) != {})
                  && (reply == Refused(HostCompanionAway) ==> Visiting(t, i.host) != {})
                  && (reply == Refused(HostCapacityReached) ==> |Hosting(t, i.host)| >= 2)
                  && (reply == Refused(VisualAssetsUnavailable) ==> i.snapshot in c.packs && !c.packs[i.snapshot].visual)
                  && (reply == Refused(HostCompanionChanged) ==>
                        i.mode == RandomHostTopic && i.topic.Some? && forall p :: !Shows(c, i.host, i.topic.value.owner, p)))
  {
    if id in t.invitations {
      var i := t.invitations[id];
      EligibleExactly(c, i.visitor, i.host);
      EngagementsExactly(t, i.visitor);
      EngagementsExactly(t, i.host);
      HostRefusals(c, i);
      StillShownExactly(c, i);
      assert HasSession(t, id) <==> HasRoom(t, id);
      hide MayMeet, Eligible, LiveHostedBy, LiveVisitsBy, Hosting, Visiting, HostCompanion, Receives, StillShown, HasSession, HasRoom, Shows;
    }
  }

  lemma HostRefusals(c: Catalog, i: Invitation)
    ensures var r := HostCompanion(c, i);
            r.0.None? ==>
              && r.1 in {InvitationNotAvailable, HostCompanionChanged}
              && (r.1 == InvitationNotAvailable ==> forall k :: !Receives(c, i, k))
              && (r.1 == HostCompanionChanged ==> i.mode == RandomHostTopic && i.topic.Some? && forall p :: !Shows(c, i.host, i.topic.value.owner, p))
  {
    ShowsExactly(c, i.host);
    hide Shows, CurrentSnapshot;
  }

  lemma StrangersCannotVisit(t: Tables, c: Catalog, host: UserId, id: InvitationId, now: Time, s: SessionId, hostRow: int, visitorRow: int)
    ensures var tx := AcceptInvitation(t, c, host, id, now, s, hostRow, visitorRow);
            tx.reply == Done ==> id in t.invitations && t.invitations[id].host == host && MayMeet(c, t.invitations[id].visitor, host)
  {
    AcceptsExactly(t, c, host, id, now, s, hostRow, visitorRow);
    hide MayMeet, AcceptInvitation;
  }

  /** A topic with its link only if the owner shares it, three to six turns long. */
  ghost predicate TopicOf(d: Draft, topic: Topic) {
    && topic.owner == d.owner && topic.createdBy == d.createdBy && topic.scope == d.scope
    && topic.content == d.content.(sourceUrl := if d.scope == SummaryAndSource then d.content.sourceUrl else None)
    && topic.minimumTurns == 3 && topic.maximumTurns == 6
  }

  ghost predicate HasTopic(d: Option<Draft>) { d.Some? && d.value.content.title != "" && d.value.content.summary != "" }

  lemma DraftExactly(d: Option<Draft>, state: TopicState)
    ensures var topic := UsableTopic(d, state);
            (topic.Some? <==> HasTopic(d)) && (topic.Some? ==> TopicOf(d.value, topic.value) && topic.value.state == state)
  {
  }

  /** The session an accepted invitation opens: room for three, both principals arriving, and the invitation's
      topic, if it has one, current and shared. */
  ghost predicate Opened(i: Invitation, id: InvitationId, k: CompanionId, hostRow: int, visitorRow: int, now: Time, r: Room) {
    && r.row == SessionRow(id, i.visitor, i.host, k, i.companion, i.snapshot, Some(i.snapshot), 3, 1, Preparing, None, None, None, None, None)
    && r.participants.Keys == {i.host, i.visitor}
    && r.participants[i.host] == Participant(hostRow, k, Host, Arriving, None, now)
    && r.participants[i.visitor] == Participant(visitorRow, i.companion, Visitor, Arriving, None, now)
    && r.turns == map[] && r.moment == None
    && (if HasTopic(i.topic)
        then r.topics.Keys == {1} && TopicOf(i.topic.value, r.topics[1]) && r.topics[1].state == Current
             && r.share == Some(Envelope(1, r.topics[1].content, i.topic.value.createdBy))
        else r.topics == map[] && r.share == None)
  }

  lemma OpensExactly(i: Invitation, id: InvitationId, k: CompanionId, hostRow: int, visitorRow: int, now: Time)
    requires i.visitor != i.host
    ensures Opened(i, id, k, hostRow, visitorRow, now, NewRoom(i, id, k, hostRow, visitorRow, now))
  {
    DraftExactly(i.topic, Current);
    hide UsableTopic, TopicOf, HasTopic;
  }

  /** Another invitation to the same host that was pending: it is declined for this one. */
  ghost predicate Displaced(t: Tables, host: UserId, id: InvitationId, j: InvitationId) {
    j in t.invitations && j != id && t.invitations[j].host == host && t.invitations[j].status == Pending
  }

  /** The invitation is accepted, and what else was pending at the host is declined; all of them give up their
      packs. */
  ghost predicate AcceptedAlone(t: Tables, t': Tables, id: InvitationId) {
    && id in t.invitations && t'.invitations.Keys == t.invitations.Keys
    && t'.invitations[id] == t.invitations[id].(status := Accepted, packRef := None)
    && (forall j :: Displaced(t, t.invitations[id].host, id, j) ==> t'.invitations[j] == t.invitations[j].(status := Declined, packRef := None))
    && (forall j :: j in t.invitations && j != id && !Displaced(t, t.invitations[id].host, id, j) ==> t'.invitations[j] == t.invitations[j])
  }

  /** Both principals hold their seats, the host with companion `k`; the visitors of the declined invitations are
      held no longer, and everybody else is held as before. */
  ghost predicate BothSeated(t: Tables, t': Tables, id: InvitationId, s: SessionId, k: CompanionId) {
    && id in t.invitations
    && var i := t.invitations[id];
    && i.visitor in t.reservations && i.visitor in t'.reservations && i.host in t'.reservations
    && t'.reservations[i.host] == Reservation(k, Seated(s), None)
    && t'.reservations[i.visitor] == Reservation(t.reservations[i.visitor].companion, Seated(s), None)
    && (forall u :: u !in {i.visitor, i.host} ==>
          && (u in t'.reservations <==> u in t.reservations && forall j :: Displaced(t, i.host, id, j) ==> t.reservations[u].hold != Outgoing(j))
          && (u in t'.reservations ==> t'.reservations[u] == t.reservations[u]))
  }

  /** Accepting opens one session, seats both, and declines what else was pending at the host. */
  lemma AcceptanceDoes(t: Tables, c: Catalog, host: UserId, id: InvitationId, now: Time, s: SessionId, hostRow: int, visitorRow: int)
    requires AcceptInvitation(t, c, host, id, now, s, hostRow, visitorRow).reply == Done
    ensures var t' := AcceptInvitation(t, c, host, id, now, s, hostRow, visitorRow).tables;
            && t'.requests == t.requests && t'.ledger == t.ledger && AcceptedAlone(t, t', id)
            && s !in t.rooms && s in t'.rooms && t'.rooms == t.rooms[s := t'.rooms[s]]
            && exists k :: Receives(c, t.invitations[id], k) && BothSeated(t, t', id, s, k)
                           && Opened(t.invitations[id], id, k, hostRow, visitorRow, now, t'.rooms[s])
  {
    var i := t.invitations[id];
    var k := HostCompanion(c, i).0.value;
    ReceivesExactly(c, i);
    assert i.visitor != i.host;
    OpensExactly(i, id, k, hostRow, visitorRow, now);
    forall j ensures j in PendingFor(t, host, id) <==> Displaced(t, host, id, j) {
    }
    hide Receives, Opened, NewRoom, HostCompanion, AcceptanceRefusal, HasSession, PendingFor, Displaced, Shows;
  }

  /** An invitation found expired is settled, and its visitor is held by it no longer. */
  lemma ExpiryDoes(t: Tables, c: Catalog, host: UserId, id: InvitationId, now: Time, s: SessionId, hostRow: int, visitorRow: int)
    requires AcceptInvitation(t, c, host, id, now, s, hostRow, visitorRow).reply == Refused(InvitationExpired)
    ensures AnsweredWith(t, AcceptInvitation(t, c, host, id, now, s, hostRow, visitorRow).tables, id, Expired)
  {
    AcceptsExactly(t, c, host, id, now, s, hostRow, visitorRow);
    hide AcceptanceRefusal, HostCompanion;
  }

  // ------------------------------------------------------------------ answering an invitation

  /** The invitation has its final status, gave up its pack, and its visitor is held by it no longer. */
  ghost predicate AnsweredWith(t: Tables, t': Tables, id: InvitationId, status: Status) {
    && id in t.invitations
    && var i := t.invitations[id];
    && t' == t.(invitations := t.invitations[id := i.(status := status, packRef := None)], reservations := t'.reservations)
    && t'.reservations == if i.visitor in t.reservations && t.reservations[i.visitor].hold == Outgoing(id) then t.reservations - {i.visitor}
                          else t.reservations
  }

  /** The host declines or the visitor cancels, while it is pending. */
  lemma RespondsExactly(t: Tables, user: UserId, id: InvitationId, asHost: bool)
    ensures var tx := RespondToInvitation(t, user, id, asHost);
            && (tx.reply == Done <==>
                  id in t.invitations && t.invitations[id].status == Pending && user == if asHost then t.invitations[id].host else t.invitations[id].visitor)
            && (tx.reply == Repeated <==>
                  && id in t.invitations && t.invitations[id].status == (if asHost then Declined else Withdrawn)
                  && user == if asHost then t.invitations[id].host else t.invitations[id].visitor)
            && (tx.reply == Done ==> AnsweredWith(t, tx.tables, id, if asHost then Declined else Withdrawn))
            && (tx.reply != Done ==> tx.tables == t)
            && (tx.reply == Refused(InvitationNotFound) <==> id !in t.invitations)
            && (tx.reply == Refused(InvitationNotHost) <==> asHost && id in t.invitations && t.invitations[id].host != user)
            && (tx.reply == Refused(InvitationNotOwned) <==> !asHost && id in t.invitations && t.invitations[id].visitor != user)
  {
  }

  /** The holds a sweep leaves: all but those on some pending invitations and live sessions. */
  ghost predicate LetsGo(t: Tables, t': Tables, ids: set<InvitationId>, ss: set<SessionId>) {
    forall u ::
      && (u in t'.reservations <==> u in t.reservations && match t.reservations[u].hold case Outgoing(i) => i !in ids case Joining(s, _) => s !in ss case Seated(s) => s !in ss)
      && (u in t'.reservations ==> t'.reservations[u] == t.reservations[u])
  }

  /** An expired pending invitation is settled by the cleanup; no other is. */
  lemma ExpiresExactly(t: Tables, id: InvitationId, now: Time)
    ensures var t' := ExpireInvitation(t, id, now);
            if id in t.invitations && t.invitations[id].status == Pending && t.invitations[id].expiresAt < now
            then && t' == t.(invitations := t.invitations[id := t.invitations[id].(status := Expired, packRef := None)], reservations := t'.reservations)
                 && LetsGo(t, t', {id}, {})
            else t' == t
  {
  }

  // ------------------------------------------------------------------ asking to join

  ghost predicate Joinable(room: Room) {
    room.row.state in {Ready, Active} && |Members(room)| < room.row.capacity
  }

  /** `u` may meet everybody who is in the room. */
  ghost predicate MayMeetAll(c: Catalog, u: UserId, room: Room) { forall v :: v in Members(room) ==> MayMeet(c, u, v) }

  /** A request of the user for the session that is not answered yet. */
  ghost predicate Asked(t: Tables, s: SessionId, u: UserId) {
    exists r :: r in t.requests && t.requests[r].session == s && t.requests[r].requester == u && t.requests[r].status == Pending
  }

  /** The companion a guest would bring: in good standing, with a fitting pack, and nobody's in the room. */
  ghost predicate Brings(c: Catalog, u: UserId, room: Room, k: CompanionId, p: PackId) {
    && Shows(c, u, k, p) && !c.users[u].deletionRequested && c.packs[p].visual
    && forall v :: v in Members(room) ==> room.participants[v].companion != k
  }

  /** A request is made exactly if the room has a seat and the guest, who may meet everybody there, is neither
      there nor reserved elsewhere, brings a new companion and has not asked before. It reserves the guest for two hours. */
  lemma RequestsExactly(t: Tables, c: Catalog, user: UserId, s: SessionId, choice: TopicChoice, now: Time, id: RequestId)
    ensures var tx := CreateJoinRequest(t, c, user, s, choice, now, id);
            && (tx.reply == Done <==>
                  && s in t.rooms
                  && var room := t.rooms[s];
                  && Joinable(room) && user !in Members(room) && user !in t.reservations && MayMeetAll(c, user, room)
                  && room.row.hostCompanion in c.companions && c.companions[room.row.hostCompanion].allowJoinRequests
                  && (exists k, p :: Brings(c, user, room, k, p))
                  && !Asked(t, s, user) && id !in t.requests && !choice.Unavailable?)
            && (tx.reply.Refused? ==> tx.tables == t) && tx.reply != Repeated
            && (tx.reply == Done ==> forall k, p :: Shows(c, user, k, p) ==>
                  tx.tables == t.(requests := t.requests[id := JoinRequest(s, user, k, Some(p), if choice.Chosen? then Some(choice.draft) else None, Pending, now + 7200000)],
                                  reservations := t.reservations[user := Reservation(k, Joining(s, id), Some(now + 7200000))]))
  {
    if s in t.rooms {
      var room := t.rooms[s];
      MembersExactly(room);
      MeetingsExactly(c, user, room);
      AskedExactly(t, s, user);
      ShowsExactly(c, user);
      hide MayMeetAll, Eligible, Asked, StatusTaken, Shows, CurrentSnapshot, Members, Present;
      var snapshot := CurrentSnapshot(c, user);
      if snapshot.Some? {
        var k, p := snapshot.value.companion, snapshot.value.pack;
        assert Shows(c, user, k, p);
        StandingExactly(c, user, k, p);
        assert forall k', p' :: Brings(c, user, room, k', p') ==> k' == k && p' == p;
        assert Brings(c, user, room, k, p)
          <==> InGoodStanding(c, user) && c.packs[p].visual && !exists u :: u in Present(room) && room.participants[u].companion == k;
      }
    }
  }

  lemma StandingExactly(c: Catalog, u: UserId, k: CompanionId, p: PackId)
    requires Shows(c, u, k, p)
    ensures u in c.users && (InGoodStanding(c, u) <==> !c.users[u].deletionRequested)
  {
  }

  lemma MeetingsExactly(c: Catalog, u: UserId, room: Room)
    ensures MayMeetAll(c, u, room) <==> forall v :: v in Present(room) ==> Eligible(c, u, v)
  {
    MembersExactly(room);
    forall v ensures Eligible(c, u, v) <==> MayMeet(c, u, v) {
      EligibleExactly(c, u, v);
    }
    hide Eligible, MayMeet, Members, Present;
  }

  lemma AskedExactly(t: Tables, s: SessionId, u: UserId)
    ensures StatusTaken(t, s, u, Pending) <==> Asked(t, s, u)
    ensures (exists r :: r in t.requests && t.requests[r].session == s && t.requests[r].requester == u && t.requests[r].status == Pending) <==> Asked(t, s, u)
  {
  }

  /** What a refused request lacked. */
  lemma RequestRefusals(t: Tables, c: Catalog, user: UserId, s: SessionId, choice: TopicChoice, now: Time, id: RequestId)
    ensures var reply := CreateJoinRequest(t, c, user, s, choice, now, id).reply;
            && (reply == Refused(RoomNotJoinable) <==> s !in t.rooms || t.rooms[s].row.state !in {Ready, Active})
            && (s in t.rooms ==>
                  var room := t.rooms[s];
                  && (reply == Refused(RoomAlreadyParticipant) ==> user in Members(room))
                  && (reply == Refused(RoomCapacityReached) ==> |Members(room)| >= room.row.capacity)
                  && (reply == Refused(ReservationExists) ==> user in t.reservations)
                  && (reply == Refused(JoinRequestsDisabled) ==>
                        !(room.row.hostCompanion in c.companions && c.companions[room.row.hostCompanion].allowJoinRequests))
                  && (reply == Refused(RoomNotAvailable) ==> !MayMeetAll(c, user, room))
                  && (reply == Refused(ParticipantUnavailable) ==>
                        forall k, p :: Shows(c, user, k, p) ==> c.users[user].deletionRequested || !c.packs[p].visual)
                  && (reply == Refused(RoomCompanionDuplicate) ==>
                        exists k, p :: Shows(c, user, k, p) && exists v :: v in Members(room) && room.participants[v].companion == k)
                  && (reply == Refused(JoinRequestExists) ==> Asked(t, s, user))
                  && (reply == Refused(TopicNotAvailable) ==> choice.Unavailable?))
  {
    if s in t.rooms {
      var room := t.rooms[s];
      MembersExactly(room);
      MeetingsExactly(c, user, room);
      AskedExactly(t, s, user);
      ShowsExactly(c, user);
      var snapshot := CurrentSnapshot(c, user);
      if snapshot.Some? {
        assert Shows(c, user, snapshot.value.companion, snapshot.value.pack);
        StandingExactly(c, user, snapshot.value.companion, snapshot.value.pack);
      }
      hide MayMeetAll, Eligible, Asked, StatusTaken, Shows, CurrentSnapshot, Members, Present;
    }
  }

  // ------------------------------------------------------------------ admitting

  /** The guest may be seated: the request's own hold, its pack, and neither the guest nor the companion has a
      row in the room. */
  ghost predicate Seatable(t: Tables, id: RequestId) {
    && id in t.requests
    && var r := t.requests[id];
    && r.session in t.rooms && r.requester in t.reservations && t.reservations[r.requester].hold == Joining(r.session, id) && r.packRef.Some?
    && r.requester !in t.rooms[r.session].participants
    && (forall u :: u in t.rooms[r.session].participants ==> t.rooms[r.session].participants[u].companion != r.companion)
    && forall q :: q in t.requests && t.requests[q].session == r.session && t.requests[q].requester == r.requester ==> t.requests[q].status != Accepted
  }

  /** The room with its new guest and, if the request carries one, a topic queued right behind the others. */
  ghost predicate Joined(room: Room, room': Room, r: JoinRequest, row: int, now: Time) {
    && room' == room.(participants := room.participants[r.requester := Participant(row, r.companion, Guest, Arriving, None, now)], topics := room'.topics)
    && if HasTopic(r.topic)
       then exists k :: Follows(room.topics.Keys, k) && k in room'.topics && room'.topics == room.topics[k := room'.topics[k]]
                        && TopicOf(r.topic.value, room'.topics[k]) && room'.topics[k].state == Queued
       else room'.topics == room.topics
  }

  ghost predicate Follows(ks: set<nat>, k: nat) {
    k >= 1 && (forall j :: j in ks ==> j < k) && if ks == {} then k == 1 else k - 1 in ks
  }

  /** A guest is admitted exactly by the host, while the request is pending and not expired, the room has a seat,
      and the guest may meet everybody there. */
  lemma AdmitsExactly(t: Tables, c: Catalog, host: UserId, id: RequestId, now: Time, row: int)
    ensures var tx := AcceptJoinRequest(t, c, host, id, now, row);
            && (tx.reply == Done <==>
                  && Seatable(t, id)
                  && var r := t.requests[id];
                  && var room := t.rooms[r.session];
                  && room.row.host == host && r.status == Pending && now < r.expiresAt && Joinable(room) && MayMeetAll(c, r.requester, room))
            && (tx.reply != Done ==> tx.tables == t)
            && (tx.reply == Done ==>
                  && var r := t.requests[id];
                  && r.session in tx.tables.rooms && Joined(t.rooms[r.session], tx.tables.rooms[r.session], r, row, now)
                  && tx.tables == t.(rooms := t.rooms[r.session := tx.tables.rooms[r.session]],
                                     requests := t.requests[id := r.(status := Accepted, packRef := None)],
                                     reservations := t.reservations[r.requester := Reservation(t.reservations[r.requester].companion, Seated(r.session), None)]))
  {
    if id in t.requests && t.requests[id].session in t.rooms {
      var r := t.requests[id];
      var room := t.rooms[r.session];
      MembersExactly(room);
      MeetingsExactly(c, r.requester, room);
      SeatableExactly(t, id);
      JoinsExactly(room, r, row, now);
      hide MayMeetAll, Eligible, Members, Present, Seatable, SeatTaken, StatusTaken, Joined, Seat, UsableTopic;
    }
  }

  lemma SeatableExactly(t: Tables, id: RequestId)
    requires id in t.requests && t.requests[id].session in t.rooms
    ensures var r := t.requests[id];
            Seatable(t, id) <==>
              && r.requester in t.reservations && t.reservations[r.requester].hold == Joining(r.session, id) && r.packRef.Some?
              && !SeatTaken(t.rooms[r.session], r.requester, r.companion) && !StatusTaken(t, r.session, r.requester, Accepted)
  {
  }

  lemma JoinsExactly(room: Room, r: JoinRequest, row: int, now: Time)
    ensures Joined(room, Seat(room, r.requester, Participant(row, r.companion, Guest, Arriving, None, now), UsableTopic(r.topic, Queued)), r, row, now)
  {
    DraftExactly(r.topic, Queued);
    hide UsableTopic, TopicOf, HasTopic;
    assert Follows(room.topics.Keys, MaxKey(room.topics.Keys) + 1);
  }

  /** What a refused admission lacked. */
  lemma AdmissionRefusals(t: Tables, c: Catalog, host: UserId, id: RequestId, now: Time, row: int)
    ensures var reply := AcceptJoinRequest(t, c, host, id, now, row).reply;
            && (reply == Refused(JoinRequestNotFound) <==> id !in t.requests || t.requests[id].session !in t.rooms)
            && (id in t.requests && t.requests[id].session in t.rooms ==>
                  var r := t.requests[id];
                  var room := t.rooms[r.session];
                  && (reply == Refused(JoinRequestNotHost) <==> room.row.host != host)
                  && (reply == Repeated <==> room.row.host == host && r.status == Accepted)
                  && (reply == Refused(JoinRequestNotPending) <==> room.row.host == host && r.status !in {Accepted, Pending})
                  && (reply == Refused(JoinRequestExpired) <==> room.row.host == host && r.status == Pending && r.expiresAt <= now)
                  && (reply == Refused(RoomNotJoinable) ==> room.row.state !in {Ready, Active})
                  && (reply == Refused(RoomCapacityReached) ==> |Members(room)| >= room.row.capacity)
                  && (reply == Refused(RoomNotAvailable) ==> !MayMeetAll(c, r.requester, room))
                  && (reply == Refused(ReservationChanged) ==>
                        !(r.requester in t.reservations && t.reservations[r.requester].hold == Joining(r.session, id)))
                  && (reply == Refused(ParticipantUnavailable) ==> r.packRef.None?)
                  && (reply == Refused(UniqueViolation) ==> !Seatable(t, id)))
  {
    if id in t.requests && t.requests[id].session in t.rooms {
      var r := t.requests[id];
      var room := t.rooms[r.session];
      MembersExactly(room);
      MeetingsExactly(c, r.requester, room);
      SeatableExactly(t, id);
      hide MayMeetAll, Eligible, Members, Present, Seatable, SeatTaken, StatusTaken, Seat, UsableTopic;
    }
  }

  // ------------------------------------------------------------------ answering a request

  /** An earlier request of the same user for the same session already has that status. */
  ghost predicate AnsweredBefore(t: Tables, r: JoinRequest, status: Status) {
    exists q :: q in t.requests && t.requests[q].session == r.session && t.requests[q].requester == r.requester && t.requests[q].status == status
  }

  /** The request has its final status, gave up its pack, and its guest is held by it no longer. */
  ghost predicate RequestAnswered(t: Tables, t': Tables, id: RequestId, status: Status) {
    && id in t.requests
    && var r := t.requests[id];
    && t' == t.(requests := t.requests[id := r.(status := status, packRef := None)], reservations := t'.reservations)
    && t'.reservations == if r.requester in t.reservations && HeldBy(t.reservations[r.requester].hold, id) then t.reservations - {r.requester}
                          else t.reservations
  }

  ghost predicate HeldBy(hold: Hold, id: RequestId) { exists s :: hold == Joining(s, id) }

  lemma SettlesExactly(t: Tables, id: RequestId, status: Status)
    requires id in t.requests
    ensures var tx := SettleRequest(t, id, status);
            if AnsweredBefore(t, t.requests[id], status) then tx == Tx(t, Refused(UniqueViolation))
            else tx.reply == Done && RequestAnswered(t, tx.tables, id, status)
  {
    var r := t.requests[id];
    if r.requester in t.reservations {
      HeldExactly(t.reservations[r.requester], id);
    }
    hide HeldBy, ReservedByRequest;
  }

  lemma HeldExactly(r: Reservation, id: RequestId)
    ensures ReservedByRequest(r, id) <==> HeldBy(r.hold, id)
  {
    if ReservedByRequest(r, id) {
      assert r.hold == Joining(r.hold.session, id);
    }
  }

  /** The host declines or the guest cancels a pending request, unless an earlier request of that guest for the
      session was answered the same way: then the unique index refuses the answer. */
  lemma RespondsToRequestExactly(t: Tables, user: UserId, id: RequestId, asHost: bool)
    ensures var tx := RespondJoinRequest(t, user, id, asHost);
            var status := if asHost then Declined else Withdrawn;
            if id !in t.requests || t.requests[id].session !in t.rooms then tx == Tx(t, Refused(JoinRequestNotFound))
            else
              var r := t.requests[id];
              if user != if asHost then t.rooms[r.session].row.host else r.requester then tx == Tx(t, Refused(JoinRequestNotAvailable))
              else
                && (tx.reply == Done <==> r.status == Pending && !AnsweredBefore(t, r, status))
                && (tx.reply == Done ==> RequestAnswered(t, tx.tables, id, status))
                && (tx.reply == Repeated <==> r.status == status)
                && (tx.reply == Refused(UniqueViolation) <==> r.status == Pending && AnsweredBefore(t, r, status))
                && (tx.reply == Refused(JoinRequestNotPending) <==> r.status !in {Pending, status})
                && (tx.reply != Done ==> tx.tables == t)
  {
    if id in t.requests {
      SettlesExactly(t, id, if asHost then Declined else Withdrawn);
      hide SettleRequest, AnsweredBefore, RequestAnswered;
    }
  }

  /** The cleanup expires a pending request whose time is over, unless an earlier one expired. */
  lemma ExpiresRequestExactly(t: Tables, id: RequestId, now: Time)
    ensures var t' := ExpireRequest(t, id, now);
            if id in t.requests && t.requests[id].status == Pending && t.requests[id].expiresAt < now && !AnsweredBefore(t, t.requests[id], Expired)
            then RequestAnswered(t, t', id, Expired)
            else t' == t
  {
    if id in t.requests {
      SettlesExactly(t, id, Expired);
      hide SettleRequest, AnsweredBefore, RequestAnswered;
    }
  }

  // ------------------------------------------------------------------ one session

  /** The transactions that only touch one session leave all else as it is. */
  lemma OnlyTheSession(t: Tables, c: Catalog, user: UserId, s: SessionId, now: Time, content: Content)
    requires s in t.rooms
    ensures MarkSessionReady(t, c, user, s, now) == InRoom(t, s, MarkReady(t.rooms[s], c, user, now))
    ensures Start(t, c, user, s, now) == InRoom(t, s, StartSession(t.rooms[s], c, user, now))
    ensures MarkParticipantReady(t, user, s, now) == InRoom(t, s, ParticipantReady(t.rooms[s], user, now))
    ensures ShareTopic(t, c, user, s, content) == InRoom(t, s, SetShare(t.rooms[s], c, user, content))
  {
    hide MarkReady, StartSession, ParticipantReady, SetShare;
  }

  /** A session that does not exist is not found; who asks to join or speak is told no more than that. */
  lemma NoSession(t: Tables, c: Catalog, user: UserId, s: SessionId, now: Time, content: Content, id: string, intent: Intent, message: string)
    requires s !in t.rooms
    ensures {MarkSessionReady(t, c, user, s, now), Start(t, c, user, s, now), End(t, user, s, now), ShareTopic(t, c, user, s, content),
             Say(t, c, user, s, id, intent, message, now), Finalize(t, user, s)} == {Tx(t, Refused(SessionNotFound))}
    ensures {MarkParticipantReady(t, user, s, now), LeaveSession(t, user, s)} == {Tx(t, Refused(SessionNotParticipant))}
    ensures CloseSession(t, s, now) == t
  {
  }

  ghost function InRoom(t: Tables, s: SessionId, tx: RoomTx): Tx
    requires s in t.rooms
  {
    Tx(Tables(t.invitations, t.rooms[s := tx.room], t.requests, t.reservations, t.ledger), tx.reply)
  }

  /** Ending a session, also one that is over, lets go of all its holds. */
  lemma EndLetsGo(t: Tables, user: UserId, s: SessionId, now: Time)
    requires s in t.rooms
    ensures var tx := End(t, user, s, now); var room := EndSession(t.rooms[s], user, now);
            && tx.reply == room.reply
            && (tx.reply.Refused? ==> tx.tables == t)
            && (!tx.reply.Refused? ==> tx.tables == t.(rooms := t.rooms[s := room.room], reservations := tx.tables.reservations) && LetsGo(t, tx.tables, {}, {s}))
  {
    hide EndSession;
  }

  lemma CloseLetsGo(t: Tables, s: SessionId, now: Time)
    requires s in t.rooms
    ensures var t' := CloseSession(t, s, now);
            if IsLive(t.rooms[s])
            then t' == t.(rooms := t.rooms[s := CloseLive(t.rooms[s], now)], reservations := t'.reservations) && LetsGo(t, t', {}, {s})
            else t' == t
  {
    hide CloseLive;
  }

  /** Leaving lets go of the user's own hold on the session, and of nobody else's. */
  lemma LeavingLetsGo(t: Tables, user: UserId, s: SessionId)
    requires s in t.rooms
    ensures var tx := LeaveSession(t, user, s); var room := LeaveRoom(t.rooms[s], user);
            && tx.reply == room.reply
            && (tx.reply != Done ==> tx.tables == t)
            && (tx.reply == Done ==>
                  tx.tables == t.(rooms := t.rooms[s := room.room],
                                  reservations := if user in t.reservations && OnSession(t.reservations[user].hold, s) then t.reservations - {user} else t.reservations))
  {
    hide LeaveRoom;
    if user in t.reservations {
      OnSessionExactly(t.reservations[user], s);
    }
    hide OnSession, ReservedBySession;
  }

  ghost predicate OnSession(hold: Hold, s: SessionId) { hold == Seated(s) || exists r :: hold == Joining(s, r) }

  lemma OnSessionExactly(r: Reservation, s: SessionId)
    ensures ReservedBySession(r, s) <==> OnSession(r.hold, s)
  {
    if ReservedBySession(r, s) && r.hold.Joining? {
      assert r.hold == Joining(s, r.hold.request);
    }
  }

  /** A turn or a finalization changes its room; if it ended the session, the holds go, and the relationships are
      settled exactly if the shared moment is new. */
  lemma DialogueDoes(t: Tables, s: SessionId, tx: RoomTx)
    requires s in t.rooms
    ensures var t' := OnDialogue(t, s, tx).tables;
            && OnDialogue(t, s, tx).reply == tx.reply
            && t' == t.(rooms := t.rooms[s := tx.room], reservations := t'.reservations, ledger := t'.ledger)
            && LetsGo(t, t', {}, if IsLive(t.rooms[s]) && !IsLive(tx.room) then {s} else {})
            && (!(t.rooms[s].moment == None && tx.room.moment != None) ==> t'.ledger == t.ledger)
            && (t.rooms[s].moment == None && tx.room.moment != None ==>
                  t'.ledger == Settlement.SettleAll(t.ledger, s, Entries(tx.room), tx.room.turns))
  {
    hide Entries, Settlement.SettleAll;
  }

  lemma DialogueIs(t: Tables, c: Catalog, user: UserId, s: SessionId, id: string, intent: Intent, message: string, now: Time)
    requires s in t.rooms
    ensures Say(t, c, user, s, id, intent, message, now) == OnDialogue(t, s, AppendTurn(t.rooms[s], c, user, id, intent, message, now))
    ensures Finalize(t, user, s) == OnDialogue(t, s, FinalizeMoment(t.rooms[s], user))
  {
  }

  // ------------------------------------------------------------------ sweeps

  /** Revoking a companion withdraws its pending invitations, closes its live sessions as visitor, and lets go of
      what was held on either. */
  lemma RevokesExactly(t: Tables, k: CompanionId, now: Time)
    ensures var t' := RevokeCompanion(t, k, now);
            var ids := set i | i in t.invitations && t.invitations[i].companion == k && t.invitations[i].status == Pending;
            var ss := set s | s in t.rooms && t.rooms[s].row.companion == k && IsLive(t.rooms[s]);
            && t' == t.(invitations := t'.invitations, rooms := t'.rooms, reservations := t'.reservations)
            && t'.invitations.Keys == t.invitations.Keys && t'.rooms.Keys == t.rooms.Keys
            && (forall i :: i in t.invitations ==>
                  t'.invitations[i] == if i in ids then t.invitations[i].(status := Withdrawn, packRef := None) else t.invitations[i])
            && (forall s :: s in t.rooms ==> t'.rooms[s] == if s in ss then CloseLive(t.rooms[s], now) else t.rooms[s])
            && LetsGo(t, t', ids, ss)
  {
    hide CloseLive;
    assert forall s :: s in t.rooms ==> (Live(t.rooms[s].row.state) <==> IsLive(t.rooms[s]));
    assert PendingOf(t, k) == set i | i in t.invitations && t.invitations[i].companion == k && t.invitations[i].status == Pending;
    assert LiveOf(t, k) == set s | s in t.rooms && t.rooms[s].row.companion == k && IsLive(t.rooms[s]);
  }

  /** No session is live any more in which one of the two visits the other, and all others are as before. */
  lemma PartsExactly(t: Tables, a: UserId, b: UserId, now: Time)
    ensures var t' := CloseAll(t, Between(t, a, b), now);
            var ss := set s | s in t.rooms && IsLive(t.rooms[s])
                      && ((t.rooms[s].row.visitor == a && t.rooms[s].row.host == b) || (t.rooms[s].row.visitor == b && t.rooms[s].row.host == a));
            && t' == t.(rooms := t'.rooms, reservations := t'.reservations) && t'.rooms.Keys == t.rooms.Keys
            && (forall s :: s in t.rooms ==> t'.rooms[s] == if s in ss then CloseLive(t.rooms[s], now) else t.rooms[s])
            && LetsGo(t, t', {}, ss)
  {
    hide CloseLive;
    assert forall s :: s in t.rooms ==> (Live(t.rooms[s].row.state) <==> IsLive(t.rooms[s]));
    assert Between(t, a, b) == set s | s in t.rooms && IsLive(t.rooms[s])
                      && ((t.rooms[s].row.visitor == a && t.rooms[s].row.host == b) || (t.rooms[s].row.visitor == b && t.rooms[s].row.host == a));
  }

  // ------------------------------------------------------------------ timeouts

  /** When a session was last known to go on: it started, or was ready, or was created. */
  ghost predicate Began(row: SessionRow, createdAt: Time, at: Time) {
    at == match (row.startedAt, row.readyAt) case (Some(started), _) => started case (None, Some(ready)) => ready case (None, None) => createdAt
  }

  /** One of the principals, last seen at `seen` or else when the session began, is silent for too long. */
  ghost predicate Silent(row: SessionRow, seen: Option<Time>, createdAt: Time, limits: Limits, now: Time) {
    forall at :: (if seen == None then Began(row, createdAt, at) else seen == Some(at)) ==> at + limits.heartbeatTimeoutSeconds * 1000 < now
  }

  /** A session times out when it was active for too long, prepared for too long, or a principal fell silent. */
  lemma TimesOutExactly(row: SessionRow, seen: Seen, limits: Limits, now: Time)
    ensures var reason := TimeoutReason(row, seen, limits, now);
            var tooLong := row.state == Active && row.startedAt.Some? && row.startedAt.value + limits.sessionMaxMinutes * 60000 < now;
            var tooLate := row.state != Active
                           && (if row.readyAt.Some? then row.readyAt.value else seen.createdAt) + limits.preparationTtlMinutes * 60000 < now;
            var silent := Silent(row, seen.visitorSeenAt, seen.createdAt, limits, now) || Silent(row, seen.hostSeenAt, seen.createdAt, limits, now);
            && (reason == Some(SessionTimeout) <==> tooLong)
            && (reason == Some(PreparationTimeout) <==> tooLate)
            && (reason == Some(HeartbeatTimeout) <==> !tooLong && !tooLate && silent)
  {
    SilentExactly(row, seen.visitorSeenAt, seen.createdAt, limits, now);
    SilentExactly(row, seen.hostSeenAt, seen.createdAt, limits, now);
    hide Silent;
  }

  lemma SilentExactly(row: SessionRow, seen: Option<Time>, createdAt: Time, limits: Limits, now: Time)
    ensures Silent(row, seen, createdAt, limits, now)
      <==> Or(seen, Or(row.startedAt, Or(row.readyAt, createdAt))) < now - limits.heartbeatTimeoutSeconds * 1000
  {
    var at := Or(seen, Or(row.startedAt, Or(row.readyAt, createdAt)));
    assert if seen == None then Began(row, createdAt, at) else seen == Some(at);
  }

  /** What a cleanup looks for. */
  lemma CleanupFinds(t: Tables, seen: map<SessionId, Seen>, limits: Limits, now: Time)
    requires t.rooms.Keys <= seen.Keys
    ensures forall i :: i in ExpiredInvitations(t, now) <==> i in t.invitations && t.invitations[i].status == Pending && t.invitations[i].expiresAt < now
    ensures forall r :: r in ExpiredRequests(t, now) <==> r in t.requests && t.requests[r].status == Pending && t.requests[r].expiresAt < now
    ensures forall s :: s in TimedOut(t, seen, limits, now) <==> s in t.rooms && IsLive(t.rooms[s]) && TimeoutReason(t.rooms[s].row, seen[s], limits, now) != None
  {
  }
}
