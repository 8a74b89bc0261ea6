/** The unique index (sessionId, requesterUserId, status) of VisitJoinRequest, and what it does to the
    cleanup: a request that expires after an earlier one of the same user for the same session cannot
    get its final status, and every cleanup pass stops there. */
module JoinRequests {
  import opened Common
  import opened Replies
  import opened Catalog
  import opened Rooms
  import opened Visit
  import opened VisitSweeps

  // ------------------------------------------------------------------ the index

  ghost predicate OneRequestEach(t: Tables) {
    forall a, b :: a in t.requests && b in t.requests && SameKey(t.requests[a], t.requests[b]) ==> a == b
  }

  ghost predicate SameKey(a: JoinRequest, b: JoinRequest) {
    a.session == b.session && a.requester == b.requester && a.status == b.status
  }

  /** Requests are only added, and only pending ones are answered. */
  ghost predicate RequestsMove(t: Tables, t': Tables) {
    forall id :: id in t.requests ==> id in t'.requests && RequestMoves(t.requests[id], t'.requests[id])
  }

  ghost predicate RequestMoves(a: JoinRequest, b: JoinRequest) {
    && b.session == a.session && b.requester == a.requester && b.expiresAt == a.expiresAt
    && (a.status != Pending ==> b == a)
  }

  /** One row is written with a key the index does not hold yet. */
  lemma OneChange(t: Tables, id: RequestId, r: JoinRequest)
    requires OneRequestEach(t) && !StatusTaken(t, r.session, r.requester, r.status)
    ensures OneRequestEach(t.(requests := t.requests[id := r]))
  {
    var t' := t.(requests := t.requests[id := r]);
    forall a, b | a in t'.requests && b in t'.requests && SameKey(t'.requests[a], t'.requests[b]) ensures a == b {
      assert a == id || t'.requests[a] == t.requests[a];
      assert b == id || t'.requests[b] == t.requests[b];
    }
  }

  lemma IndexIgnores(t: Tables, t': Tables)
    requires OneRequestEach(t) && t'.requests == t.requests
    ensures OneRequestEach(t')
  {
  }

  predicate OnRequests(step: Step) { step.RequestStep? || step.AdmitStep? || step.RespondRequestStep? || step.ExpireRequestStep? }

  lemma OtherSteps(t: Tables, step: Step)
    requires !OnRequests(step)
    ensures Apply(t, step).requests == t.requests
  {
    hide CreateInvitation, AcceptInvitation, RespondToInvitation, ExpireInvitation, MarkReady, StartSession, EndSession, CloseLive,
         ParticipantReady, SetShare, LeaveRoom, AppendTurn, FinalizeMoment, Entries, WithoutSession, WithoutUser, RevokeCompanion;
    match step {
      case InviteStep(_, _, _, _, _, _, _, _, _) => InviteLeaves(t, step);
      case AcceptStep(_, _, _, _, _, _, _) => AcceptLeaves(t, step);
      case RespondStep(_, _, _) => RespondLeaves(t, step);
      case ExpireInvitationStep(_, _) => RespondLeaves(t, step);
      case RevokeStep(_, _) => RespondLeaves(t, step);
      case _ =>
    }
  }

  lemma InviteLeaves(t: Tables, step: Step)
    requires step.InviteStep?
    ensures Apply(t, step).requests == t.requests
  {
    hide Eligible, LiveHostedBy, LiveVisitsBy, PendingOnRoute, CurrentSnapshot;
  }

  lemma AcceptLeaves(t: Tables, step: Step)
    requires step.AcceptStep?
    ensures Apply(t, step).requests == t.requests
  {
    hide AcceptanceRefusal, HostCompanion, PendingFor, NewRoom, WithoutInvitations, WithoutUser;
  }

  lemma RespondLeaves(t: Tables, step: Step)
    requires step.RespondStep? || step.ExpireInvitationStep? || step.RevokeStep?
    ensures Apply(t, step).requests == t.requests
  {
    hide WithoutInvitations, WithoutUser, CloseLive;
  }

  /** What the request transactions do to the index and the rows. */
  ghost predicate Orderly(t: Tables, t': Tables) { RequestsMove(t, t') && (OneRequestEach(t) ==> OneRequestEach(t')) }

  lemma WriteIsOrderly(t: Tables, t': Tables, id: RequestId, r: JoinRequest)
    requires t'.requests == t.requests[id := r] && !StatusTaken(t, r.session, r.requester, r.status)
    requires id in t.requests ==> RequestMoves(t.requests[id], r)
    ensures Orderly(t, t')
  {
    if OneRequestEach(t) {
      OneChange(t, id, r);
      IndexIgnores(t.(requests := t.requests[id := r]), t');
    }
    hide StatusTaken, OneRequestEach;
  }

  lemma CreateIsOrderly(t: Tables, c: Catalog, user: UserId, s: SessionId, choice: TopicChoice, now: Time, id: RequestId)
    ensures Orderly(t, CreateJoinRequest(t, c, user, s, choice, now, id).tables)
  {
    hide StatusTaken, Eligible, CurrentSnapshot, InGoodStanding, Orderly;
    var t' := CreateJoinRequest(t, c, user, s, choice, now, id).tables;
    Unmoved(t);
    if t' != t {
      WriteIsOrderly(t, t', id, t'.requests[id]);
    }
  }

  lemma Unmoved(t: Tables)
    ensures Orderly(t, t)
  {
  }

  lemma AdmitIsOrderly(t: Tables, c: Catalog, host: UserId, id: RequestId, now: Time, row: int)
    ensures Orderly(t, AcceptJoinRequest(t, c, host, id, now, row).tables)
  {
    hide StatusTaken, Eligible, SeatTaken, Orderly;
    var t' := AcceptJoinRequest(t, c, host, id, now, row).tables;
    Unmoved(t);
    if t' != t {
      WriteIsOrderly(t, t', id, t'.requests[id]);
    }
  }

  lemma SettleIsOrderly(t: Tables, id: RequestId, status: Status)
    requires id in t.requests && t.requests[id].status == Pending
    ensures Orderly(t, SettleRequest(t, id, status).tables)
  {
    hide StatusTaken, Orderly;
    var t' := SettleRequest(t, id, status).tables;
    Unmoved(t);
    if t' != t {
      WriteIsOrderly(t, t', id, t'.requests[id]);
    }
  }

  lemma ApplyOrderly(t: Tables, step: Step)
    ensures Orderly(t, Apply(t, step))
  {
    if OnRequests(step) {
      hide CreateJoinRequest, AcceptJoinRequest, SettleRequest, Orderly;
      Unmoved(t);
      match step {
        case RequestStep(c, user, s, choice, now, id) => CreateIsOrderly(t, c, user, s, choice, now, id);
        case AdmitStep(c, user, id, now, row) => AdmitIsOrderly(t, c, user, id, now, row);
        case RespondRequestStep(user, id, asHost) =>
          if id in t.requests && t.requests[id].status == Pending {
            SettleIsOrderly(t, id, if asHost then Declined else Withdrawn);
          }
        case ExpireRequestStep(id, now) =>
          if id in t.requests && t.requests[id].status == Pending {
            SettleIsOrderly(t, id, Expired);
          }
      }
    } else {
      OtherSteps(t, step);
      hide Apply;
    }
  }

  /** Over any run the index holds, and answered requests stay as they are. */
  lemma {:induction false} RunOrderly(t: Tables, steps: seq<Step>)
    ensures Orderly(t, Run(t, steps))
    decreases |steps|
  {
    hide Apply;
    if steps != [] {
      ApplyOrderly(t, steps[0]);
      RunOrderly(Apply(t, steps[0]), steps[1..]);
    }
  }

  /** After any run from empty tables there is at most one request per session, user and status. */
  lemma IndexHolds(steps: seq<Step>)
    ensures OneRequestEach(Run(EmptyTables, steps))
  {
    RunOrderly(EmptyTables, steps);
    hide Run;
  }

  // ------------------------------------------------------------------ the cleanup's second loop


  /** No expired request is stuck behind an earlier one of the same user and session that expired. */
  ghost predicate ExpiryFree(t: Tables, now: Time) { forall id :: id in ExpiredRequests(t, now) ==> !Stuck(t, id) }

  /** The request is pending, and the index refuses to let it expire. */
  ghost predicate Stuck(t: Tables, id: RequestId) {
    && id in t.requests && t.requests[id].status == Pending
    && StatusTaken(t, t.requests[id].session, t.requests[id].requester, Expired)
  }

  /** The rows with some of them expired. */
  function Expiring(rows: map<RequestId, JoinRequest>, ids: set<RequestId>): map<RequestId, JoinRequest> {
    map r | r in rows :: if r in ids then rows[r].(status := Expired, packRef := None) else rows[r]
  }

  function Listed(xs: seq<int>): set<int> { set x | x in xs }

  lemma ExpiringNone(t: Tables)
    ensures Expiring(t.requests, {}) == t.requests
  {
  }

  lemma OnlyOnePending(t: Tables, ids: set<RequestId>, id: RequestId, now: Time)
    requires OneRequestEach(t) && ids <= ExpiredRequests(t, now) && id in ExpiredRequests(t, now) - ids
    ensures forall q :: q in ids ==> !(t.requests[q].session == t.requests[id].session && t.requests[q].requester == t.requests[id].requester)
  {
    forall q | q in ids
      ensures !(t.requests[q].session == t.requests[id].session && t.requests[q].requester == t.requests[id].requester)
    {
      assert SameKey(t.requests[q], t.requests[id]) ==> q == id;
    }
  }

  /** A row's turn in the loop: `t` are the tables before it, `mid` those after the rows `ids`. The index
      refuses it exactly if it would have refused it at the start. */
  lemma ExpireOneMore(t: Tables, mid: Tables, ids: set<RequestId>, id: RequestId, now: Time)
    requires mid.requests == Expiring(t.requests, ids) && ids <= ExpiredRequests(t, now) && id in ExpiredRequests(t, now) - ids
    ensures Stuck(t, id) ==> Stuck(mid, id)
    ensures OneRequestEach(t) && Stuck(mid, id) ==> Stuck(t, id)
    ensures ExpireRequest(mid, id, now).requests == if Stuck(mid, id) then mid.requests else Expiring(t.requests, ids + {id})
  {
    var s, u := t.requests[id].session, t.requests[id].requester;
    assert mid.requests[id] == t.requests[id];
    if Stuck(t, id) {
      var q :| q in t.requests && t.requests[q].session == s && t.requests[q].requester == u && t.requests[q].status == Expired;
      assert mid.requests[q].status == Expired;
    }
    if OneRequestEach(t) {
      OnlyOnePending(t, ids, id, now);
    }
    if !Stuck(mid, id) {
      assert mid.requests[id := mid.requests[id].(status := Expired, packRef := None)] == Expiring(t.requests, ids + {id});
    }
    hide StatusTaken;
  }

  lemma StillExpired(t: Tables, mid: Tables, ids: set<RequestId>, now: Time)
    requires mid.requests == Expiring(t.requests, ids) && ids <= ExpiredRequests(t, now)
    ensures ExpiredRequests(mid, now) == ExpiredRequests(t, now) - ids
  {
  }

  /** The same for an invitation, which nothing refuses. */
  lemma ExpireInvitationOnly(t: Tables, id: InvitationId, now: Time)
    requires id in ExpiredInvitations(t, now)
    ensures var t' := ExpireInvitation(t, id, now);
            && id in t.invitations && t'.rooms == t.rooms && t'.requests == t.requests
            && ExpiredInvitations(t', now) == ExpiredInvitations(t, now) - {id}
  {
    hide WithoutInvitations;
  }

  /** What a limit leaves over. */
  function Beyond(n: nat, limit: nat): nat { if n <= limit then 0 else n - limit }

  lemma AllButListed(all: set<int>, xs: seq<int>)
    requires forall x :: x in xs ==> x in all
    requires forall j, k :: 0 <= j < k < |xs| ==> xs[j] != xs[k]
    ensures |all - Listed(xs)| == |all| - |xs|
    ensures xs[..|xs|] == xs
  {
    DistinctSize(xs);
    assert Listed(xs) <= all;
  }

  lemma OneMoreListed(xs: seq<int>, i: nat)
    requires i < |xs| && forall j, k :: 0 <= j < k < |xs| ==> xs[j] != xs[k]
    ensures xs[i] !in Listed(xs[..i]) && Listed(xs[..i + 1]) == Listed(xs[..i]) + {xs[i]}
  {
    assert xs[..i + 1] == xs[..i] + [xs[i]];
  }

  /** The loop before its `i`-th row: the rows before it have expired, and none of them was stuck. */
  ghost predicate Turned(t: Tables, mid: Tables, found: seq<RequestId>, i: nat)
    requires i <= |found|
  {
    && mid.requests == Expiring(t.requests, Listed(found[..i])) && mid.rooms == t.rooms && mid.invitations == t.invitations
    && (forall j :: 0 <= j < i ==> !Stuck(t, found[j]))
  }

  ghost predicate TurnedAway(t: Tables, id: RequestId, now: Time) { id in ExpiredRequests(t, now) && Stuck(t, id) }

  lemma LoopStarts(t: Tables, found: seq<RequestId>)
    ensures Turned(t, t, found, 0)
  {
    assert Listed(found[..0]) == {};
    ExpiringNone(t);
  }

  lemma LoopTurns(t: Tables, mid: Tables, found: seq<RequestId>, i: nat, now: Time)
    requires i < |found| && Turned(t, mid, found, i) && forall x :: x in found ==> x in ExpiredRequests(t, now)
    requires forall j, k :: 0 <= j < k < |found| ==> found[j] != found[k]
    ensures found[i] in mid.requests
    ensures !TurnedAway(mid, found[i], now) ==> Turned(t, ExpireRequest(mid, found[i], now), found, i + 1)
    ensures TurnedAway(mid, found[i], now) ==>
              && ExpireRequest(mid, found[i], now) == mid && !ExpiryFree(mid, now)
              && (OneRequestEach(t) ==> !ExpiryFree(t, now))
              && ExpiredRequests(mid, now) <= ExpiredRequests(t, now)
  {
    var id, ids := found[i], Listed(found[..i]);
    assert id in found;
    OneMoreListed(found, i);
    StillExpired(t, mid, ids, now);
    ExpireOneMore(t, mid, ids, id, now);
    RefusedIsNoOp(mid, id, now);
    hide ExpireRequest, Stuck, Expiring, OneRequestEach;
  }

  lemma RefusedIsNoOp(t: Tables, id: RequestId, now: Time)
    ensures Stuck(t, id) ==> ExpireRequest(t, id, now) == t
    ensures ExpireRequest(t, id, now).rooms == t.rooms && ExpireRequest(t, id, now).invitations == t.invitations
  {
    hide StatusTaken;
  }

  /** All rows had their turn. */
  lemma LoopEnds(t: Tables, mid: Tables, found: seq<RequestId>, now: Time, limit: nat)
    requires Turned(t, mid, found, |found|) && forall x :: x in found ==> x in ExpiredRequests(t, now)
    requires forall j, k :: 0 <= j < k < |found| ==> found[j] != found[k]
    requires |found| == if |ExpiredRequests(t, now)| <= limit then |ExpiredRequests(t, now)| else limit
    ensures ExpiredRequests(mid, now) <= ExpiredRequests(t, now)
    ensures |ExpiredRequests(mid, now)| == Beyond(|ExpiredRequests(t, now)|, limit)
    ensures |ExpiredRequests(t, now)| <= limit ==> ExpiryFree(t, now)
  {
    AllButListed(ExpiredRequests(t, now), found);
    StillExpired(t, mid, Listed(found), now);
    if |ExpiredRequests(t, now)| <= limit {
      AllListed(ExpiredRequests(t, now), found);
    }
    hide Stuck, Expiring;
  }

  // ------------------------------------------------------------------ every later pass

  /** The step does not answer the request in time: neither its host nor its requester settles it,
      and the host does not accept it before it expires. */
  ghost predicate LeavesWaiting(step: Step, id: RequestId, expiresAt: Time) {
    && !(step.RespondRequestStep? && step.request == id)
    && (step.AdmitStep? && step.request == id ==> expiresAt <= step.now)
  }

  lemma StepLeavesStuck(t: Tables, step: Step, id: RequestId)
    requires Stuck(t, id)
    requires LeavesWaiting(step, id, t.requests[id].expiresAt)
    ensures var t' := Apply(t, step); Stuck(t', id) && t'.requests[id] == t.requests[id]
  {
    var t' := Apply(t, step);
    ApplyOrderly(t, step);
    var q :| q in t.requests && t.requests[q].session == t.requests[id].session
          && t.requests[q].requester == t.requests[id].requester && t.requests[q].status == Expired;
    assert RequestMoves(t.requests[q], t'.requests[q]);
    if OnRequests(step) {
      StuckRow(t, step, id);
    } else {
      OtherSteps(t, step);
    }
    hide Apply;
  }

  lemma StuckRow(t: Tables, step: Step, id: RequestId)
    requires OnRequests(step) && Stuck(t, id)
    requires LeavesWaiting(step, id, t.requests[id].expiresAt)
    ensures id in Apply(t, step).requests && Apply(t, step).requests[id] == t.requests[id]
  {
    hide StatusTaken, Eligible, SeatTaken, CurrentSnapshot, InGoodStanding;
  }

  /** Whatever else happens, a stuck request stays one until its host or requester answers it. */
  lemma {:induction false} RunLeavesStuck(t: Tables, steps: seq<Step>, id: RequestId)
    requires Stuck(t, id)
    requires forall step :: step in steps ==> LeavesWaiting(step, id, t.requests[id].expiresAt)
    ensures var t' := Run(t, steps); Stuck(t', id) && t'.requests[id] == t.requests[id]
    decreases |steps|
  {
    hide Apply, Stuck, LeavesWaiting;
    if steps != [] {
      StepLeavesStuck(t, steps[0], id);
      RunLeavesStuck(Apply(t, steps[0]), steps[1..], id);
    }
  }

  /** What a pass of the cleanup promises: it is a run of its steps, and sessions end only if no expired
      request is stuck, or there are more than the limit. */
  ghost predicate Pass(t: Tables, t': Tables, now: Time, limit: nat) {
    && (exists steps :: t' == Run(t, steps) && forall k :: k in steps ==> CleanupStep(k, now))
    && (|ExpiredRequests(t, now)| <= limit && !ExpiryFree(t, now) ==> t'.rooms == t.rooms)
  }

  /** A pass and the transactions up to the next one. */
  datatype Shift = Shift(now: Time, after: Tables, steps: seq<Step>)

  ghost predicate Follows(t: Tables, shifts: seq<Shift>, limit: nat)
    decreases |shifts|
  {
    shifts != [] ==> Pass(t, shifts[0].after, shifts[0].now, limit) && Follows(Run(shifts[0].after, shifts[0].steps), shifts[1..], limit)
  }

  /** At no pass there are more expired requests than it looks at. */
  ghost predicate WithinLimit(t: Tables, shifts: seq<Shift>, limit: nat)
    decreases |shifts|
  {
    shifts != [] ==> |ExpiredRequests(t, shifts[0].now)| <= limit && WithinLimit(Run(shifts[0].after, shifts[0].steps), shifts[1..], limit)
  }

  ghost predicate EndsNothing(t: Tables, shifts: seq<Shift>)
    decreases |shifts|
  {
    shifts != [] ==> shifts[0].after.rooms == t.rooms && EndsNothing(Run(shifts[0].after, shifts[0].steps), shifts[1..])
  }

  /** From the moment a stuck request has expired until it is answered, no pass of the cleanup ends any
      session, of anybody, however long it timed out. */
  lemma {:induction false} NoPassEndsASession(t: Tables, shifts: seq<Shift>, limit: nat, id: RequestId)
    requires Stuck(t, id)
    requires Follows(t, shifts, limit) && WithinLimit(t, shifts, limit)
    requires forall k :: 0 <= k < |shifts| ==> t.requests[id].expiresAt < shifts[k].now
    requires forall k, step :: 0 <= k < |shifts| && step in shifts[k].steps ==> LeavesWaiting(step, id, t.requests[id].expiresAt)
    ensures EndsNothing(t, shifts)
    decreases |shifts|
  {
    assert id in t.requests && t.requests[id].status == Pending;
    hide Stuck, Run, LeavesWaiting;
    if shifts != [] {
      var now, mid := shifts[0].now, shifts[0].after;
      assert id in ExpiredRequests(t, now);
      var pass :| mid == Run(t, pass) && forall k :: k in pass ==> CleanupStep(k, now);
      forall step | step in pass ensures LeavesWaiting(step, id, t.requests[id].expiresAt) {
        PassesWait(step, now, id, t.requests[id].expiresAt);
      }
      RunLeavesStuck(t, pass, id);
      RunLeavesStuck(mid, shifts[0].steps, id);
      NoPassEndsASession(Run(mid, shifts[0].steps), shifts[1..], limit, id);
    }
  }

  lemma PassesWait(step: Step, now: Time, id: RequestId, expiresAt: Time)
    requires CleanupStep(step, now)
    ensures LeavesWaiting(step, id, expiresAt)
  {
  }
}
