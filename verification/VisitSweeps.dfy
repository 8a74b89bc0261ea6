/** What the loops of src/visit/visit.service.ts add up to: sweeps over many invitations or sessions
    are the same as all their rows' transactions, in any order. */
module VisitSweeps {
  import opened Common
  import opened Rooms
  import opened Settlement
  import opened Visit
  import opened VisitInvariant
  import opened VisitRuns

  // ------------------------------------------------------------------ many sessions

  function CloseAll(t: Tables, ss: set<SessionId>, now: Time): Tables {
    t.(rooms := map s | s in t.rooms :: if s in ss then CloseLive(t.rooms[s], now) else t.rooms[s],
       reservations := map u | u in t.reservations && !ReservedByAny(t.reservations[u], ss) :: t.reservations[u])
  }

  lemma CloseNone(t: Tables, now: Time)
    ensures CloseAll(t, {}, now) == t
  {
    assert CloseAll(t, {}, now).rooms == t.rooms;
    assert forall u :: u in CloseAll(t, {}, now).reservations <==> u in t.reservations;
    assert CloseAll(t, {}, now).reservations == t.reservations;
  }

  lemma CloseOneMore(t: Tables, closed: set<SessionId>, s: SessionId, now: Time)
    requires LiveRoom(t, s) && s !in closed
    ensures CloseAll(t, closed, now).rooms[s] == t.rooms[s]
    ensures CloseSession(CloseAll(t, closed, now), s, now) == CloseAll(t, closed + {s}, now)
  {
    hide CloseLive;
    var mid, all := CloseAll(t, closed, now), CloseAll(t, closed + {s}, now);
    assert mid.rooms[s := CloseLive(t.rooms[s], now)] == all.rooms;
    assert forall u :: u in WithoutSession(mid.reservations, s) <==> u in all.reservations;
    assert WithoutSession(mid.reservations, s) == all.reservations;
  }

  lemma {:induction false} CloseAllKeeps(t: Tables, ss: set<SessionId>, now: Time)
    requires VisitOk(t) && forall s :: s in ss ==> LiveRoom(t, s)
    ensures VisitOk(CloseAll(t, ss, now))
    decreases |ss|
  {
    hide TablesOk, SettlementsOk, CloseAll, LiveRoom;
    if ss == {} {
      CloseNone(t, now);
    } else {
      var s := Member(ss);
      CloseAllKeeps(t, ss - {s}, now);
      CloseOneMore(t, ss - {s}, s, now);
      assert ss - {s} + {s} == ss;
      var mid := CloseAll(t, ss - {s}, now);
      CloseSessionKeeps(mid, s, now);
      UnbookingKeeps(mid, CloseSession(mid, s, now));
    }
  }

  function Between(t: Tables, a: UserId, b: UserId): set<SessionId> {
    set s | s in t.rooms && Live(t.rooms[s].row.state)
         && ((t.rooms[s].row.visitor == a && t.rooms[s].row.host == b) || (t.rooms[s].row.visitor == b && t.rooms[s].row.host == a))
  }

  /** After endSessionsBetween no session of the two is live, and every other session, with its
      reservations, is as before. */
  lemma BetweenEnded(t: Tables, a: UserId, b: UserId, now: Time)
    requires VisitOk(t)
    ensures var t' := CloseAll(t, Between(t, a, b), now);
            && VisitOk(t') && Between(t', a, b) == {}
            && (forall s :: s in t.rooms && s !in Between(t, a, b) ==> t'.rooms[s] == t.rooms[s])
            && (forall u, s :: Holds(t, u, Seated(s)) && s !in Between(t, a, b) ==> Holds(t', u, Seated(s)))
  {
    CloseAllKeeps(t, Between(t, a, b), now);
    hide VisitOk;
    var t' := CloseAll(t, Between(t, a, b), now);
    forall s | s in t'.rooms ensures s !in Between(t', a, b) {
      if s in Between(t, a, b) {
        assert t'.rooms[s] == CloseLive(t.rooms[s], now);
      }
    }
  }

  // ------------------------------------------------------------------ many invitations

  function WithdrawAll(t: Tables, ids: set<InvitationId>): Tables {
    t.(invitations := SettleInvitations(t.invitations, ids, Withdrawn), reservations := WithoutInvitations(t.reservations, ids))
  }

  lemma WithdrawNone(t: Tables)
    ensures WithdrawAll(t, {}) == t
  {
    assert WithdrawAll(t, {}).invitations == t.invitations;
    assert forall u :: u in WithdrawAll(t, {}).reservations <==> u in t.reservations;
    assert WithdrawAll(t, {}).reservations == t.reservations;
  }

  lemma WithdrawOneMore(t: Tables, gone: set<InvitationId>, i: InvitationId)
    requires i in t.invitations && i !in gone
    ensures var mid := WithdrawAll(t, gone);
            && mid.invitations[i] == t.invitations[i]
            && mid.(invitations := mid.invitations[i := Settle(mid.invitations[i], Withdrawn)],
                    reservations := WithoutInvitations(mid.reservations, {i})) == WithdrawAll(t, gone + {i})
  {
    var mid, all := WithdrawAll(t, gone), WithdrawAll(t, gone + {i});
    assert mid.invitations[i := Settle(mid.invitations[i], Withdrawn)] == all.invitations;
    assert forall u :: u in WithoutInvitations(mid.reservations, {i}) <==> u in all.reservations;
    assert WithoutInvitations(mid.reservations, {i}) == all.reservations;
  }

  /** revokeCompanionVisits is the two sweeps. */
  lemma RevokeIsSweeps(t: Tables, companion: CompanionId, now: Time)
    ensures RevokeCompanion(t, companion, now) == CloseAll(WithdrawAll(t, PendingOf(t, companion)), LiveOf(t, companion), now)
  {
    hide CloseLive;
    var a, b := RevokeCompanion(t, companion, now), CloseAll(WithdrawAll(t, PendingOf(t, companion)), LiveOf(t, companion), now);
    assert a.rooms == b.rooms;
    assert a.reservations == b.reservations;
  }

  /** After it, nothing pending or live is left of the companion. */
  lemma CompanionRevoked(t: Tables, companion: CompanionId, now: Time)
    ensures var t' := RevokeCompanion(t, companion, now); PendingOf(t', companion) == {} && LiveOf(t', companion) == {}
  {
    var t' := RevokeCompanion(t, companion, now);
    forall i | i in t'.invitations ensures i !in PendingOf(t', companion) {
      assert i in t.invitations;
    }
    forall s | s in t'.rooms ensures s !in LiveOf(t', companion) {
      assert s in t.rooms;
    }
  }

  // ------------------------------------------------------------------ timeouts

  datatype Limits = Limits(sessionMaxMinutes: nat, preparationTtlMinutes: nat, heartbeatTimeoutSeconds: nat)

  /** The columns of a session row that only the cleanup reads. */
  datatype Seen = Seen(createdAt: Time, visitorSeenAt: Option<Time>, hostSeenAt: Option<Time>)

  datatype Reason = SessionTimeout | PreparationTimeout | HeartbeatTimeout

  function Or(o: Option<Time>, other: Time): Time { if o.Some? then o.value else other }

  /** timeoutReason. */
  function TimeoutReason(row: SessionRow, seen: Seen, limits: Limits, now: Time): Option<Reason> {
    var fallback := Or(row.startedAt, Or(row.readyAt, seen.createdAt));
    var threshold := now - limits.heartbeatTimeoutSeconds * 1000;
    if row.state == Active && row.startedAt.Some? && now - row.startedAt.value > limits.sessionMaxMinutes * 60_000 then Some(SessionTimeout)
    else if row.state != Active && now - Or(row.readyAt, seen.createdAt) > limits.preparationTtlMinutes * 60_000 then Some(PreparationTimeout)
    else if Or(seen.visitorSeenAt, fallback) < threshold || Or(seen.hostSeenAt, fallback) < threshold then Some(HeartbeatTimeout)
    else None
  }

  /** Without a heartbeat a session that timed out stays timed out. */
  lemma TimeoutStays(row: SessionRow, seen: Seen, limits: Limits, now: Time, later: Time)
    requires TimeoutReason(row, seen, limits, now).Some? && now <= later
    ensures TimeoutReason(row, seen, limits, later).Some?
  {
  }

  function ExpiredInvitations(t: Tables, now: Time): set<InvitationId> {
    set i | i in t.invitations && t.invitations[i].status == Pending && t.invitations[i].expiresAt < now
  }

  function ExpiredRequests(t: Tables, now: Time): set<RequestId> {
    set r | r in t.requests && t.requests[r].status == Pending && t.requests[r].expiresAt < now
  }

  function LiveSessions(t: Tables): set<SessionId> { set s | s in t.rooms && Live(t.rooms[s].row.state) }

  function TimedOut(t: Tables, seen: map<SessionId, Seen>, limits: Limits, now: Time): set<SessionId>
    requires t.rooms.Keys <= seen.Keys
  {
    set s | s in t.rooms && Live(t.rooms[s].row.state) && TimeoutReason(t.rooms[s].row, seen[s], limits, now).Some?
  }

  // ------------------------------------------------------------------ steps of a sweep

  /** The steps a cleanup takes. */
  ghost predicate CleanupStep(step: Step, now: Time) {
    (step.ExpireInvitationStep? || step.ExpireRequestStep? || step.CloseStep?) && step.now == now
  }

  lemma RunNothing(t: Tables)
    ensures Run(t, []) == t
  {
  }

  lemma {:induction false} RunAppend(t: Tables, steps: seq<Step>, step: Step)
    ensures Run(t, steps + [step]) == Apply(Run(t, steps), step)
    decreases |steps|
  {
    hide Apply;
    if steps == [] {
      assert (steps + [step])[1..] == [];
    } else {
      assert (steps + [step])[1..] == steps[1..] + [step];
      RunAppend(Apply(t, steps[0]), steps[1..], step);
    }
  }

  lemma {:induction false} RunAppendAll(t: Tables, steps: seq<Step>, more: seq<Step>)
    ensures Run(t, steps + more) == Run(Run(t, steps), more)
    decreases |steps|
  {
    hide Apply;
    if steps == [] {
      assert steps + more == more;
    } else {
      assert (steps + more)[1..] == steps[1..] + more;
      RunAppendAll(Apply(t, steps[0]), steps[1..], more);
    }
  }

  lemma ExpireStepApplied(t: Tables, id: InvitationId, now: Time)
    ensures Apply(t, ExpireInvitationStep(id, now)) == ExpireInvitation(t, id, now)
  {
    hide ExpireInvitation;
  }

  lemma ExpireRequestStepApplied(t: Tables, id: RequestId, now: Time)
    ensures Apply(t, ExpireRequestStep(id, now)) == ExpireRequest(t, id, now)
  {
    hide ExpireRequest;
  }

  lemma CloseStepApplied(t: Tables, s: SessionId, now: Time)
    ensures Apply(t, CloseStep(s, now)) == CloseSession(t, s, now)
  {
    hide CloseSession;
  }

  /** A list of all elements of a set. */
  lemma AllListed(all: set<int>, xs: seq<int>)
    requires forall x :: x in xs ==> x in all
    requires forall i, j :: 0 <= i < j < |xs| ==> xs[i] != xs[j]
    requires |xs| == |all|
    ensures forall x :: x in all ==> x in xs
  {
    var listed := set x | x in xs;
    DistinctSize(xs);
    SubsetSize(listed, all);
    assert listed <= all && |listed| == |all|;
    SameSize(listed, all);
  }

  lemma NoTimeoutLeft(t: Tables, t': Tables, found: seq<SessionId>, seen: map<SessionId, Seen>, limits: Limits, now: Time)
    requires t'.rooms.Keys == t.rooms.Keys <= seen.Keys
    requires forall s :: s in LiveSessions(t) ==> s in found
    requires forall s :: s in t.rooms && s !in TimedOut(t, seen, limits, now) ==> t'.rooms[s] == t.rooms[s]
    requires forall s :: s in found && s in TimedOut(t, seen, limits, now) ==> !Live(t'.rooms[s].row.state)
    ensures TimedOut(t', seen, limits, now) == {}
  {
    hide TimeoutReason;
    forall s | s in t'.rooms ensures s !in TimedOut(t', seen, limits, now) {
      if s in TimedOut(t, seen, limits, now) {
        assert s in LiveSessions(t);
      }
    }
  }

  lemma SameSize(a: set<int>, b: set<int>)
    requires a <= b && |a| == |b|
    ensures a == b
  {
    assert |b - a| == |b| - |a|;
  }

  lemma {:induction false} DistinctSize(xs: seq<int>)
    requires forall i, j :: 0 <= i < j < |xs| ==> xs[i] != xs[j]
    ensures |set x | x in xs| == |xs|
    decreases |xs|
  {
    if xs == [] {
      assert (set x | x in xs) == {};
    } else {
      var last := |xs| - 1;
      DistinctSize(xs[..last]);
      assert (set x | x in xs) == (set x | x in xs[..last]) + {xs[last]};
    }
  }
}
