/** Visits and Asset Packs together: no pack is removed, or taken out of use, under a pending
    invitation or a live session that pins it. And what account deletion does to Visits. */
module VisitPacks {
  import opened Common
  import opened Replies
  import opened Catalog
  import opened Rooms
  import opened RoomInvariant
  import opened Settlement
  import opened Visit
  import opened VisitInvariant
  import opened VisitRuns
  import Packs
  import PackWorld
  import PackLifecycle

  // ------------------------------------------------------------------ account deletion

  function PendingWith(t: Tables, u: UserId): set<InvitationId> {
    set i | i in t.invitations && t.invitations[i].status == Pending && (t.invitations[i].visitor == u || t.invitations[i].host == u)
  }

  function LiveWith(t: Tables, u: UserId): set<SessionId> {
    set s | s in t.rooms && Live(t.rooms[s].row.state) && IsPrincipal(t.rooms[s], u)
  }

  /** The live sessions in which the user is a principal or a participant who has not left. */
  function AffectedBy(t: Tables, u: UserId): set<SessionId> {
    set s | s in t.rooms && Live(t.rooms[s].row.state) && (IsPrincipal(t.rooms[s], u) || IsPresent(t.rooms[s], u))
  }

  function DeletionState(s: SessionState): SessionState { if s == Preparing || s == Ready then Cancelled else Ended }

  function LeftRoom(room: Room): Room { room.(participants := AllLeft(room.participants)) }

  /** deleteAccount, as far as Visits are concerned, unless it is refused. */
  function DeleteAccountVisits(t: Tables, u: UserId, now: Time): Tables {
    var ids, ended, affected := PendingWith(t, u), LiveWith(t, u), AffectedBy(t, u);
    t.(invitations := SettleInvitations(t.invitations, ids, Withdrawn),
       rooms := map s | s in t.rooms ::
         if s in ended then Close(t.rooms[s], DeletionState(t.rooms[s].row.state), now)
         else if s in affected then LeftRoom(t.rooms[s]) else t.rooms[s],
       requests := map r | r in t.requests ::
         if t.requests[r].requester == u && t.requests[r].status == Pending
         then t.requests[r].(status := Withdrawn, packRef := None) else t.requests[r],
       reservations := map v | v in t.reservations && v != u && !ReservedByInvitation(t.reservations[v], ids)
                            && !ReservedByAny(t.reservations[v], affected) :: t.reservations[v])
  }

  /** The unique index of join requests refuses a second cancelled request, and with it the deletion. */
  predicate WithdrawalRefused(t: Tables, u: UserId) {
    exists r :: r in t.requests && t.requests[r].requester == u && t.requests[r].status == Pending
             && StatusTaken(t, t.requests[r].session, u, Withdrawn)
  }

  /** user.delete removes the account's sessions and invitations. */
  function RemoveAccountVisits(t: Tables, u: UserId, owned: set<CompanionId>): Tables {
    t.(invitations := map i | i in t.invitations && t.invitations[i].visitor != u && t.invitations[i].host != u
                           && t.invitations[i].companion !in owned :: t.invitations[i],
       rooms := map s | s in t.rooms && t.rooms[s].row.visitor != u && t.rooms[s].row.host != u
                     && t.rooms[s].row.companion !in owned :: t.rooms[s])
  }

  // ------------------------------------------------------------------ the two together

  datatype Both = Both(tables: Tables, world: PackWorld.World)

  datatype Action =
    | VisitAction(step: Step)
    | PackAction(at: Time, event: PackWorld.Event)

  /** The catalog a Visit transaction reads agrees with the pack rows. */
  ghost predicate Fits(c: Catalog, rows: Packs.Rows) {
    && (forall id :: id in c.companions ==> id in rows.companions && rows.companions[id].owner == c.companions[id].owner)
    && (forall p :: p in c.packs ==> p in rows.packs && rows.packs[p].status == c.packs[p].status && rows.packs[p].companion == c.packs[p].companion)
  }

  ghost predicate Reads(step: Step, rows: Packs.Rows) {
    (step.InviteStep? || step.AcceptStep? || step.ReadyStep? || step.StartStep? || step.RequestStep? || step.AdmitStep?
     || step.ShareStep? || step.SayStep?) ==> Fits(step.catalog, rows)
  }

  /** Some pending invitation or live session refers to the pack: the negation of noLiveVisit. */
  predicate Visited(t: Tables, p: PackId) {
    || (exists i :: i in t.invitations && t.invitations[i].status == Pending && t.invitations[i].packRef == Some(p))
    || (exists s :: s in t.rooms && Live(t.rooms[s].row.state) && t.rooms[s].row.packRef == Some(p))
  }

  ghost predicate Allowed(b: Both, a: Action) {
    match a
    case VisitAction(step) => Reads(step, b.world.rows)
    case PackAction(_, e) =>
      && ((e.Retire? || e.RetireInPortal?) ==> e.visited == Visited(b.tables, e.pack))
      && (e.DeleteAccount? ==> !WithdrawalRefused(b.tables, e.user))
  }

  ghost function Do(cfg: PackWorld.Config, b: Both, a: Action): Both {
    if !Allowed(b, a) then b
    else
      match a
      case VisitAction(step) => b.(tables := Apply(b.tables, step))
      case PackAction(at, e) =>
        var world := PackWorld.Step(cfg, b.world, at, e);
        if e.DeleteAccount? && PackWorld.Enabled(cfg, b.world, at, e) && e.user in b.world.rows.accounts then
          Both(DeleteAccountVisits(b.tables, e.user, at), world)
        else if e.Continue? && e.task in b.world.work && b.world.work[e.task].Finalizing?
             && b.world.work[e.task].user in b.world.rows.accounts && b.world.work[e.task].user !in world.rows.accounts then
          var u := b.world.work[e.task].user;
          Both(RemoveAccountVisits(b.tables, u, set c | c in b.world.rows.companions && b.world.rows.companions[c].owner == u), world)
        else b.(world := world)
  }

  ghost function DoAll(cfg: PackWorld.Config, b: Both, actions: seq<Action>): Both
    decreases |actions|
  {
    if actions == [] then b else DoAll(cfg, Do(cfg, b, actions[0]), actions[1..])
  }

  // ------------------------------------------------------------------ the invariant

  /** The pack exists, may be shown, and belongs to the visiting owner's companion. */
  ghost predicate Refers(rows: Packs.Rows, p: PackId, c: CompanionId, u: UserId) {
    && p in rows.packs && PackWorld.Shown(rows.packs[p].status) && rows.packs[p].companion == c
    && c in rows.companions && rows.companions[c].owner == u
  }

  ghost predicate InvitationRef(rows: Packs.Rows, i: Invitation) {
    if i.status == Pending then i.packRef == Some(i.snapshot) && Refers(rows, i.snapshot, i.companion, i.visitor)
    else i.packRef.None?
  }

  ghost predicate SessionRef(rows: Packs.Rows, row: SessionRow) {
    if Live(row.state) then row.packRef == Some(row.snapshot) && Refers(rows, row.snapshot, row.companion, row.visitor)
    else row.packRef.None?
  }

  ghost predicate RefsOk(t: Tables, rows: Packs.Rows) {
    && (forall i :: i in t.invitations ==> InvitationRef(rows, t.invitations[i]))
    && (forall s :: s in t.rooms ==> SessionRef(rows, t.rooms[s].row))
  }

  // ------------------------------------------------------------------ one room

  /** A session keeps its reference while it lives, gives it up when it ends, and never comes back. */
  ghost predicate KeepsRef(a: SessionRow, b: SessionRow) {
    && b.snapshot == a.snapshot && b.companion == a.companion && b.visitor == a.visitor
    && (Live(b.state) ==> Live(a.state) && b.packRef == a.packRef)
    && (!Live(b.state) ==> b.packRef.None? || (!Live(a.state) && b.packRef == a.packRef))
  }

  lemma OpeningRefs(room: Room, c: Catalog, user: UserId, now: Time, content: Content)
    ensures KeepsRef(room.row, MarkReady(room, c, user, now).room.row)
    ensures KeepsRef(room.row, StartSession(room, c, user, now).room.row)
    ensures KeepsRef(room.row, SetShare(room, c, user, content).room.row)
  {
    hide Eligible, AllEligible, IsPresent;
  }

  lemma ClosingRefs(room: Room, user: UserId, now: Time)
    ensures KeepsRef(room.row, EndSession(room, user, now).room.row)
    ensures KeepsRef(room.row, CloseLive(room, now).row)
    ensures KeepsRef(room.row, ParticipantReady(room, user, now).room.row)
    ensures KeepsRef(room.row, LeaveRoom(room, user).room.row)
    ensures KeepsRef(room.row, FinalizeMoment(room, user).room.row)
  {
    hide IsPresent;
  }

  lemma ProgressRef(room: Room, k: nat, total: nat, intent: Intent, now: Time)
    requires k in room.topics
    ensures KeepsRef(room.row, Progress(room, k, total, intent, now).row)
    ensures KeepsRef(room.row, ProgressLegacy(room, total, now).row)
  {
    hide KeepsTopic, QueuedAfter;
  }

  lemma LegacyRef(room: Room, total: nat, now: Time)
    ensures KeepsRef(room.row, ProgressLegacy(room, total, now).row)
  {
  }

  lemma SayRef(room: Room, c: Catalog, user: UserId, id: string, intent: Intent, message: string, now: Time)
    ensures KeepsRef(room.row, AppendTurn(room, c, user, id, intent, message, now).room.row)
  {
    hide Speakers, NextActor, AllEligible, HasClientTurn, SpeakingUsers, Progress, ProgressLegacy, LastTurn, KeepsRef;
    SameRef(room.row);
    var current := CurrentTopic(room);
    if room.share.Some? {
      var topic := if current.Some? then current else Some(room.share.value.topic);
      var last := MaxKey(room.turns.Keys);
      var spoken := room.(turns := room.turns[last + 1 := Turn(id, user, topic, intent, message)]);
      if current.Some? {
        ProgressRef(spoken, current.value, last + 1, intent, now);
      } else {
        LegacyRef(spoken, last + 1, now);
      }
    }
  }

  lemma SameRef(row: SessionRow)
    ensures KeepsRef(row, row)
  {
  }

  // ------------------------------------------------------------------ Visit transactions

  /** What a Visit transaction does to a session's reference. */
  ghost predicate RoomFrom(t: Tables, t': Tables, rows: Packs.Rows, s: SessionId)
    requires s in t'.rooms
  {
    || (s in t.rooms && KeepsRef(t.rooms[s].row, t'.rooms[s].row))
    || SessionRef(rows, t'.rooms[s].row)
  }

  ghost predicate InvitationFrom(t: Tables, t': Tables, rows: Packs.Rows, i: InvitationId)
    requires i in t'.invitations
  {
    || (i in t.invitations && (t'.invitations[i] == t.invitations[i]
                               || (t'.invitations[i].status != Pending && t'.invitations[i].packRef.None?)))
    || InvitationRef(rows, t'.invitations[i])
  }

  lemma OneRoomStepRefs(t: Tables, step: Step, rows: Packs.Rows, q: SessionId)
    requires step.ReadyStep? || step.StartStep? || step.EndStep? || step.CloseStep? || step.ParticipantReadyStep?
          || step.ShareStep? || step.LeaveStep? || step.SayStep? || step.FinalizeStep?
    requires q in Apply(t, step).rooms
    ensures RoomFrom(t, Apply(t, step), rows, q)
  {
    hide KeepsRef, SessionRef, MarkReady, StartSession, EndSession, CloseLive, ParticipantReady, SetShare, LeaveRoom, AppendTurn,
         FinalizeMoment, SettleAll, Entries, WithoutSession, WithoutUser, Live;
    if q in t.rooms {
      SameRef(t.rooms[q].row);
      match step {
        case ReadyStep(c, user, _, now) => OpeningRefs(t.rooms[q], c, user, now, Content("", "", [], None));
        case StartStep(c, user, _, now) => OpeningRefs(t.rooms[q], c, user, now, Content("", "", [], None));
        case ShareStep(c, user, _, content) => OpeningRefs(t.rooms[q], c, user, 0, content);
        case EndStep(user, _, now) => ClosingRefs(t.rooms[q], user, now);
        case CloseStep(_, now) => ClosingRefs(t.rooms[q], 0, now);
        case ParticipantReadyStep(user, _, now) => ClosingRefs(t.rooms[q], user, now);
        case LeaveStep(user, _) => ClosingRefs(t.rooms[q], user, 0);
        case FinalizeStep(user, _) => ClosingRefs(t.rooms[q], user, 0);
        case SayStep(c, user, _, id, intent, message, now) => SayRef(t.rooms[q], c, user, id, intent, message, now);
      }
    }
  }

  lemma OneRoomStepInvitations(t: Tables, step: Step)
    requires step.ReadyStep? || step.StartStep? || step.EndStep? || step.CloseStep? || step.ParticipantReadyStep?
          || step.ShareStep? || step.LeaveStep? || step.SayStep? || step.FinalizeStep?
    ensures Apply(t, step).invitations == t.invitations
  {
    hide MarkReady, StartSession, EndSession, CloseLive, ParticipantReady, SetShare, LeaveRoom, AppendTurn,
         FinalizeMoment, SettleAll, Entries, WithoutSession, WithoutUser, Live;
  }

  /** An invitation is created with its visitor's active pack. */
  lemma InviteRefs(t: Tables, step: Step, rows: Packs.Rows, i: InvitationId)
    requires step.InviteStep? && Fits(step.catalog, rows) && i in Apply(t, step).invitations
    ensures InvitationFrom(t, Apply(t, step), rows, i)
  {
    hide Eligible, LiveHostedBy, LiveVisitsBy, PendingOnRoute;
  }

  /** A session is created with the pack its invitation pinned. */
  lemma AcceptRoomRefs(t: Tables, step: Step, rows: Packs.Rows, q: SessionId)
    requires step.AcceptStep? && RefsOk(t, rows) && q in Apply(t, step).rooms
    ensures RoomFrom(t, Apply(t, step), rows, q)
  {
    hide Eligible, LiveHostedBy, LiveVisitsBy, PendingFor, CurrentSnapshot, Refers, WithoutInvitations, WithoutUser, Presentable;
    if q in t.rooms {
      SameRef(t.rooms[q].row);
    } else {
      assert InvitationRef(rows, t.invitations[step.invitation]);
    }
  }

  lemma AcceptInvitationRefs(t: Tables, step: Step, rows: Packs.Rows, i: InvitationId)
    requires step.AcceptStep? && i in Apply(t, step).invitations
    ensures InvitationFrom(t, Apply(t, step), rows, i)
  {
    hide InvitationRef, AcceptanceRefusal, HostCompanion, PendingFor, NewRoom, WithoutInvitations, WithoutUser;
  }

  lemma OtherStepRefs(t: Tables, step: Step, rows: Packs.Rows)
    requires step.RespondStep? || step.ExpireInvitationStep? || step.RequestStep? || step.RespondRequestStep? || step.ExpireRequestStep?
          || step.InviteStep?
    ensures Apply(t, step).rooms == t.rooms
    ensures !step.InviteStep? ==>
              forall i :: i in Apply(t, step).invitations ==> InvitationFrom(t, Apply(t, step), rows, i)
  {
    hide InvitationRef, CurrentSnapshot, Eligible, InGoodStanding, StatusTaken, Live, WithoutInvitations, WithoutUser, PendingOnRoute, LiveHostedBy, LiveVisitsBy;
  }

  lemma AdmitRefs(t: Tables, step: Step, rows: Packs.Rows, q: SessionId)
    requires step.AdmitStep? && q in Apply(t, step).rooms
    ensures RoomFrom(t, Apply(t, step), rows, q) && Apply(t, step).invitations == t.invitations
  {
    hide Eligible, StatusTaken, SeatTaken, SessionRef, UsableTopic;
    if q in t.rooms {
      SameRef(t.rooms[q].row);
    }
  }

  lemma RevokeRefs(t: Tables, step: Step, rows: Packs.Rows)
    requires step.RevokeStep?
    ensures forall q :: q in Apply(t, step).rooms ==> RoomFrom(t, Apply(t, step), rows, q)
    ensures forall i :: i in Apply(t, step).invitations ==> InvitationFrom(t, Apply(t, step), rows, i)
  {
    hide CloseLive, KeepsRef, SessionRef, InvitationRef;
    forall q | q in Apply(t, step).rooms ensures RoomFrom(t, Apply(t, step), rows, q) {
      SameRef(t.rooms[q].row);
      ClosingRefs(t.rooms[q], 0, step.now);
    }
  }

  lemma ApplyRooms(t: Tables, step: Step, rows: Packs.Rows, q: SessionId)
    requires RefsOk(t, rows) && Reads(step, rows) && q in Apply(t, step).rooms
    ensures RoomFrom(t, Apply(t, step), rows, q)
  {
    hide RefsOk, SessionRef, KeepsRef, Apply, Reads;
    if step.AcceptStep? {
      AcceptRoomRefs(t, step, rows, q);
    } else if step.AdmitStep? {
      AdmitRefs(t, step, rows, q);
    } else if step.RevokeStep? {
      RevokeRefs(t, step, rows);
    } else if step.InviteStep? || step.RespondStep? || step.ExpireInvitationStep? || step.RequestStep? || step.RespondRequestStep? || step.ExpireRequestStep? {
      OtherStepRefs(t, step, rows);
      SameRef(t.rooms[q].row);
    } else {
      OneRoomStepRefs(t, step, rows, q);
    }
  }

  lemma ApplyInvitations(t: Tables, step: Step, rows: Packs.Rows, i: InvitationId)
    requires Reads(step, rows) && i in Apply(t, step).invitations
    ensures InvitationFrom(t, Apply(t, step), rows, i)
  {
    hide InvitationRef, Apply, Fits;
    if step.InviteStep? {
      InviteRefs(t, step, rows, i);
    } else if step.AcceptStep? {
      AcceptInvitationRefs(t, step, rows, i);
    } else if step.RevokeStep? {
      RevokeRefs(t, step, rows);
    } else if step.RespondStep? || step.ExpireInvitationStep? || step.RequestStep? || step.RespondRequestStep? || step.ExpireRequestStep? {
      OtherStepRefs(t, step, rows);
    } else if step.AdmitStep? {
      AdmittedInvitations(t, step);
    } else {
      OneRoomStepInvitations(t, step);
    }
  }

  lemma AdmittedInvitations(t: Tables, step: Step)
    requires step.AdmitStep?
    ensures Apply(t, step).invitations == t.invitations
  {
    hide Eligible, StatusTaken, SeatTaken;
  }

  lemma ApplyRefs(t: Tables, step: Step, rows: Packs.Rows)
    requires RefsOk(t, rows) && Reads(step, rows)
    ensures RefsOk(Apply(t, step), rows)
  {
    hide Refers, Apply, Reads;
    var t' := Apply(t, step);
    forall q | q in t'.rooms ensures SessionRef(rows, t'.rooms[q].row) {
      ApplyRooms(t, step, rows, q);
      if q in t.rooms { assert SessionRef(rows, t.rooms[q].row); }
    }
    forall i | i in t'.invitations ensures InvitationRef(rows, t'.invitations[i]) {
      ApplyInvitations(t, step, rows, i);
      if i in t.invitations { assert InvitationRef(rows, t.invitations[i]); }
    }
  }

  // ------------------------------------------------------------------ pack events

  /** A pack leaves use only when a cleanup claims it without seeing a visit, or its owner deletes the
      account. */
  lemma LeavesUse(cfg: PackWorld.Config, w: PackWorld.World, now: Time, e: PackWorld.Event, p: PackId)
    requires PackLifecycle.LifecycleOk(cfg, w) && PackWorld.Enabled(cfg, w, now, e)
    requires p in w.rows.packs && PackWorld.Shown(w.rows.packs[p].status)
    requires p !in PackWorld.Act(cfg, w, now, e).rows.packs || !PackWorld.Shown(PackWorld.Act(cfg, w, now, e).rows.packs[p].status)
    ensures ((e.Retire? || e.RetireInPortal?) && e.pack == p && !e.visited)
         || (e.DeleteAccount? && e.user in w.rows.accounts && Packs.OwnsPack(w.rows, e.user, p))
  {
    hide PackLifecycle.LifecycleOk, PackWorld.Resume, Packs.Usage, Packs.DeletionDue, Packs.UrlsExpired, PackWorld.NextFile, PackWorld.OnlyCleaner,
         PackWorld.Taggable, PackWorld.ContinueEnabled, Packs.Initiate, Packs.Activate;
    if e.Continue? {
      ResumeKeepsShown(cfg, w, now, e, p);
    } else if e.InitiatePack? {
      InitiateKeepsShown(cfg, w, e.user, e.companion, e.manifest, PackWorld.TotalBytes(cfg.files(e.manifest)), now, e.pack, p);
    } else if e.ActivateAgain? && Packs.OwnsPack(w.rows, e.user, e.pack) {
      ActivateKeepsShown(w.rows, w.rows.packs[e.pack].companion, e.pack, Superseded, now, p);
    }
  }

  lemma InitiateKeepsShown(cfg: PackWorld.Config, w: PackWorld.World, u: UserId, c: CompanionId, m: Packs.ManifestId, bytes: nat, now: Time, id: PackId, p: PackId)
    requires p in w.rows.packs && PackWorld.Shown(w.rows.packs[p].status)
    ensures var rows := Packs.Initiate(w.rows, cfg.limits, u, c, m, bytes, now, id).rows;
            p in rows.packs && PackWorld.Shown(rows.packs[p].status)
  {
    hide Packs.Usage;
  }

  lemma ActivateKeepsShown(rows: Packs.Rows, c: CompanionId, target: PackId, from: PackStatus, now: Time, p: PackId)
    requires p in rows.packs && PackWorld.Shown(rows.packs[p].status)
    ensures var rows' := Packs.Activate(rows, c, target, from, now).rows;
            p in rows'.packs && PackWorld.Shown(rows'.packs[p].status)
  {
  }

  lemma ResumeKeepsShown(cfg: PackWorld.Config, w: PackWorld.World, now: Time, e: PackWorld.Event, p: PackId)
    requires PackLifecycle.LifecycleOk(cfg, w) && PackWorld.Enabled(cfg, w, now, e) && e.Continue?
    requires p in w.rows.packs && PackWorld.Shown(w.rows.packs[p].status)
    ensures var rows := PackWorld.Resume(cfg, w, now, w.work[e.task], e).rows; p in rows.packs && PackWorld.Shown(rows.packs[p].status)
  {
    var k := w.work[e.task];
    assert PackLifecycle.CleanerOk(w, k);
    hide Packs.QuotaOk, Packs.OneManifest, Packs.UrlsExpired, PackWorld.PrefixEmpty, PackWorld.Inspect, PackWorld.Copy, PackWorld.Recheck,
         PackLifecycle.UsedOk, Packs.Activate;
    PackLifecycle.StorageOnly(cfg, w, k, e.etag);
    if k.Activating? {
      ActivateKeepsShown(w.rows, k.prefix.companion, k.pack, Verifying, now, p);
    }
  }

  lemma VisitedByRefs(t: Tables, rows: Packs.Rows, p: PackId)
    requires RefsOk(t, rows) && !Visited(t, p)
    ensures forall i :: i in t.invitations && t.invitations[i].status == Pending ==> t.invitations[i].snapshot != p
    ensures forall s :: s in t.rooms && Live(t.rooms[s].row.state) ==> t.rooms[s].row.snapshot != p
  {
    hide Refers;
    forall i | i in t.invitations && t.invitations[i].status == Pending ensures t.invitations[i].snapshot != p {
      assert InvitationRef(rows, t.invitations[i]);
    }
    forall s | s in t.rooms && Live(t.rooms[s].row.state) ensures t.rooms[s].row.snapshot != p {
      assert SessionRef(rows, t.rooms[s].row);
    }
  }

  /** A reference that survives a step of the pack world. */
  lemma RefersStays(cfg: PackWorld.Config, b: Both, now: Time, e: PackWorld.Event, p: PackId, c: CompanionId, u: UserId)
    requires PackLifecycle.LifecycleOk(cfg, b.world) && PackWorld.Enabled(cfg, b.world, now, e)
    requires Refers(b.world.rows, p, c, u)
    requires (e.Retire? || e.RetireInPortal?) && !e.visited ==> e.pack != p
    requires e.DeleteAccount? && e.user in b.world.rows.accounts ==> e.user != u
    ensures Refers(PackWorld.Act(cfg, b.world, now, e).rows, p, c, u)
  {
    var w, rows := b.world, PackWorld.Act(cfg, b.world, now, e).rows;
    if p !in rows.packs || !PackWorld.Shown(rows.packs[p].status) {
      LeavesUse(cfg, w, now, e, p);
      assert false;
    }
    PackLifecycle.ActEvolves(cfg, w, now, e);
    LinkedCompanions(cfg, w, now, e);
    hide PackWorld.Act, PackLifecycle.LifecycleOk, PackWorld.Enabled;
    assert Packs.Ages(w.rows.packs[p], rows.packs[p]);
  }

  lemma LinkedCompanions(cfg: PackWorld.Config, w: PackWorld.World, now: Time, e: PackWorld.Event)
    requires PackLifecycle.LifecycleOk(cfg, w) && PackWorld.Enabled(cfg, w, now, e)
    ensures var rows := PackWorld.Act(cfg, w, now, e).rows;
            forall p :: p in rows.packs ==> rows.packs[p].companion in rows.companions
  {
    PackLifecycle.ActEvolves(cfg, w, now, e);
    hide PackWorld.Act, PackWorld.Enabled, Packs.QuotaOk, Packs.OneManifest, Packs.ActiveOk, Packs.DeletionOk;
  }

  lemma PlainPackRefs(cfg: PackWorld.Config, b: Both, now: Time, e: PackWorld.Event)
    requires RefsOk(b.tables, b.world.rows) && PackLifecycle.LifecycleOk(cfg, b.world) && PackWorld.Enabled(cfg, b.world, now, e)
    requires !(e.DeleteAccount? && e.user in b.world.rows.accounts)
    requires (e.Retire? || e.RetireInPortal?) ==> e.visited == Visited(b.tables, e.pack)
    ensures RefsOk(b.tables, PackWorld.Act(cfg, b.world, now, e).rows)
  {
    var t, rows := b.tables, PackWorld.Act(cfg, b.world, now, e).rows;
    if (e.Retire? || e.RetireInPortal?) && !e.visited {
      VisitedByRefs(t, b.world.rows, e.pack);
    }
    hide PackWorld.Act, PackWorld.Enabled, PackLifecycle.LifecycleOk, Refers, Visited;
    forall i | i in t.invitations ensures InvitationRef(rows, t.invitations[i]) {
      var x := t.invitations[i];
      assert InvitationRef(b.world.rows, x);
      if x.status == Pending { RefersStays(cfg, b, now, e, x.snapshot, x.companion, x.visitor); }
    }
    forall s | s in t.rooms ensures SessionRef(rows, t.rooms[s].row) {
      var row := t.rooms[s].row;
      assert SessionRef(b.world.rows, row);
      if Live(row.state) { RefersStays(cfg, b, now, e, row.snapshot, row.companion, row.visitor); }
    }
  }

  /** Account deletion kills the owner's packs, and settles every invitation and ends every session
      that pins one of them in the same transaction. */
  lemma DeleteAccountRefs(cfg: PackWorld.Config, b: Both, now: Time, e: PackWorld.Event)
    requires RefsOk(b.tables, b.world.rows) && PackLifecycle.LifecycleOk(cfg, b.world) && PackWorld.Enabled(cfg, b.world, now, e)
    requires e.DeleteAccount? && e.user in b.world.rows.accounts
    ensures RefsOk(DeleteAccountVisits(b.tables, e.user, now), PackWorld.Act(cfg, b.world, now, e).rows)
  {
    var t, rows := b.tables, PackWorld.Act(cfg, b.world, now, e).rows;
    var t' := DeleteAccountVisits(t, e.user, now);
    hide PackWorld.Act, PackWorld.Enabled, PackLifecycle.LifecycleOk, Refers;
    forall i | i in t'.invitations ensures InvitationRef(rows, t'.invitations[i]) {
      var x := t.invitations[i];
      assert InvitationRef(b.world.rows, x);
      if i !in PendingWith(t, e.user) && x.status == Pending { RefersStays(cfg, b, now, e, x.snapshot, x.companion, x.visitor); }
    }
    forall s | s in t'.rooms ensures SessionRef(rows, t'.rooms[s].row) {
      var row := t.rooms[s].row;
      assert SessionRef(b.world.rows, row);
      if s !in LiveWith(t, e.user) && Live(row.state) { RefersStays(cfg, b, now, e, row.snapshot, row.companion, row.visitor); }
    }
  }

  ghost predicate BothOk(cfg: PackWorld.Config, b: Both) {
    RefsOk(b.tables, b.world.rows) && PackLifecycle.LifecycleOk(cfg, b.world)
  }

  lemma FewerRefs(t: Tables, rows: Packs.Rows, u: UserId, owned: set<CompanionId>)
    requires RefsOk(t, rows)
    ensures RefsOk(RemoveAccountVisits(t, u, owned), rows)
  {
    hide InvitationRef, SessionRef;
  }

  lemma DoKeeps(cfg: PackWorld.Config, b: Both, a: Action)
    requires BothOk(cfg, b)
    ensures BothOk(cfg, Do(cfg, b, a))
  {
    hide RefsOk, PackLifecycle.LifecycleOk, PackWorld.Act, PackWorld.Enabled, Visited, Reads, WithdrawalRefused, DeleteAccountVisits, RemoveAccountVisits;
    if Allowed(b, a) {
      match a {
        case VisitAction(step) => ApplyRefs(b.tables, step, b.world.rows);
        case PackAction(at, e) =>
          PackLifecycle.StepKeepsLifecycle(cfg, b.world, at, e);
          if PackWorld.Enabled(cfg, b.world, at, e) {
            var rows := PackWorld.Act(cfg, b.world, at, e).rows;
            if e.DeleteAccount? && e.user in b.world.rows.accounts {
              DeleteAccountRefs(cfg, b, at, e);
            } else {
              PlainPackRefs(cfg, b, at, e);
              forall u, owned ensures RefsOk(RemoveAccountVisits(b.tables, u, owned), rows) {
                FewerRefs(b.tables, rows, u, owned);
              }
            }
          }
      }
    }
  }

  /** In every reachable state, what a pending invitation or a live session pins exists and may be
      shown, whatever the cleanup passes and account deletions do; and nothing else pins a pack. */
  lemma {:induction false} NoPackRemovedUnderVisit(cfg: PackWorld.Config, b: Both, actions: seq<Action>)
    requires BothOk(cfg, b)
    ensures BothOk(cfg, DoAll(cfg, b, actions))
    decreases |actions|
  {
    hide BothOk, Do;
    if actions != [] {
      DoKeeps(cfg, b, actions[0]);
      NoPackRemovedUnderVisit(cfg, Do(cfg, b, actions[0]), actions[1..]);
    }
  }

  lemma NothingRefers(cfg: PackWorld.Config)
    ensures BothOk(cfg, Both(EmptyTables, PackWorld.Start))
  {
    PackLifecycle.StartLifecycle(cfg);
    hide PackLifecycle.LifecycleOk;
  }

  /** The same from empty tables, for what is pending and live. */
  lemma ReachableRefs(cfg: PackWorld.Config, actions: seq<Action>)
    ensures var b := DoAll(cfg, Both(EmptyTables, PackWorld.Start), actions);
            && (forall i :: i in b.tables.invitations && b.tables.invitations[i].status == Pending ==>
                  var x := b.tables.invitations[i];
                  x.packRef == Some(x.snapshot) && Refers(b.world.rows, x.snapshot, x.companion, x.visitor))
            && (forall s :: s in b.tables.rooms && Live(b.tables.rooms[s].row.state) ==>
                  var row := b.tables.rooms[s].row;
                  row.packRef == Some(row.snapshot) && Refers(b.world.rows, row.snapshot, row.companion, row.visitor))
  {
    NothingRefers(cfg);
    NoPackRemovedUnderVisit(cfg, Both(EmptyTables, PackWorld.Start), actions);
    var b := DoAll(cfg, Both(EmptyTables, PackWorld.Start), actions);
    hide DoAll, Refers, PackLifecycle.LifecycleOk;
    forall i | i in b.tables.invitations ensures InvitationRef(b.world.rows, b.tables.invitations[i]) {}
    forall s | s in b.tables.rooms ensures SessionRef(b.world.rows, b.tables.rooms[s].row) {}
  }
}
