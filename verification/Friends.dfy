/** Friendships, friend requests and blocks of src/friend/friend.service.ts. The rows refine a small
    state machine with one state per pair of users. */
module Friends {
  import opened Common

  datatype RequestStatus = Pending | Accepted | Rejected | Withdrawn   // Withdrawn: 'cancelled'

  datatype FriendRequest = FriendRequest(sender: UserId, receiver: UserId, status: RequestStatus)

  datatype Social = Social(
    friendships: set<(UserId, UserId)>, requests: map<RequestId, FriendRequest>, blocks: set<(UserId, UserId)>)

  const NoSocial := Social({}, map[], {})

  datatype SocialCode =
    | CannotFriendSelf | UserNotFound | FriendshipExists | ActionNotAllowed | RequestExists
    | RequestNotFound | RequestNotPending | FriendshipNotFound

  datatype SocialReply = Sent | Answered | Undone | No(code: SocialCode)

  datatype SocialTx = SocialTx(social: Social, reply: SocialReply)

  function Deny(s: Social, code: SocialCode): SocialTx { SocialTx(s, No(code)) }

  // ------------------------------------------------------------------ reads

  predicate Between(r: FriendRequest, u: UserId, v: UserId) {
    (r.sender == u && r.receiver == v) || (r.sender == v && r.receiver == u)
  }

  function RequestsFrom(s: Social, u: UserId, v: UserId): set<RequestId> {
    set r | r in s.requests && s.requests[r].sender == u && s.requests[r].receiver == v
  }

  function PendingBetween(s: Social, u: UserId, v: UserId): set<RequestId> {
    set r | r in s.requests && Between(s.requests[r], u, v) && s.requests[r].status == Pending
  }

  predicate Befriend(s: Social, u: UserId, v: UserId) { (u, v) in s.friendships || (v, u) in s.friendships }

  predicate Barred(s: Social, u: UserId, v: UserId) { (u, v) in s.blocks || (v, u) in s.blocks }

  // ------------------------------------------------------------------ transactions

  datatype Action = Accept | Reject | Cancel

  /** finalizePendingFriendRequest. */
  function Finalize(s: Social, id: RequestId, actor: UserId, action: Action): SocialTx {
    if id !in s.requests then Deny(s, RequestNotFound)
    else
      var r := s.requests[id];
      if actor != (if action == Cancel then r.sender else r.receiver) then Deny(s, ActionNotAllowed)
      else if r.status != Pending then Deny(s, RequestNotPending)
      else
        var status := match action case Accept => Accepted case Reject => Rejected case Cancel => Withdrawn;
        SocialTx(s.(requests := s.requests[id := r.(status := status)]), Answered)
  }

  /** acceptFriendRequestInTransaction: a second row of the same pair would violate the unique
      index, which rolls everything back. */
  function AcceptPending(s: Social, id: RequestId, receiver: UserId): SocialTx {
    var tx := Finalize(s, id, receiver, Accept);
    if tx.reply.No? then tx
    else
      var r := s.requests[id];
      if Befriend(s, r.sender, r.receiver) then Deny(s, FriendshipExists)
      else SocialTx(tx.social.(friendships := s.friendships + {(r.sender, r.receiver), (r.receiver, r.sender)}), Answered)
  }

  /** sendFriendRequest; `active` are the accounts in good standing. */
  ghost function Send(s: Social, active: set<UserId>, u: UserId, v: UserId, id: RequestId): SocialTx {
    if u == v then Deny(s, CannotFriendSelf)
    else if u !in active || v !in active then Deny(s, UserNotFound)
    else if Befriend(s, u, v) then Deny(s, FriendshipExists)
    else if Barred(s, u, v) then Deny(s, ActionNotAllowed)
    else
      var direct, reverse := RequestsFrom(s, u, v), RequestsFrom(s, v, u);
      if reverse != {} && s.requests[AnyOf(reverse)].status == Pending then AcceptPending(s, AnyOf(reverse), u)
      else if direct != {} && s.requests[AnyOf(direct)].status == Pending then Deny(s, RequestExists)
      else if direct != {} then SocialTx(s.(requests := s.requests[AnyOf(direct) := FriendRequest(u, v, Pending)]), Sent)
      else if id in s.requests then Deny(s, RequestExists)
      else SocialTx(s.(requests := s.requests[id := FriendRequest(u, v, Pending)]), Sent)
  }

  /** acceptFriendRequest, rejectFriendRequest and cancelFriendRequest. */
  function Answer(s: Social, active: set<UserId>, id: RequestId, actor: UserId, action: Action): SocialTx {
    if id !in s.requests then Deny(s, RequestNotFound)
    else
      var r := s.requests[id];
      if actor != (if action == Cancel then r.sender else r.receiver) then Deny(s, ActionNotAllowed)
      else if r.sender !in active || r.receiver !in active then Deny(s, UserNotFound)
      else if action == Accept then AcceptPending(s, id, actor)
      else Finalize(s, id, actor, action)
  }

  function WithoutPair(friendships: set<(UserId, UserId)>, u: UserId, v: UserId): set<(UserId, UserId)> {
    friendships - {(u, v), (v, u)}
  }

  /** removeFriend. */
  function Remove(s: Social, u: UserId, v: UserId): SocialTx {
    if (u, v) !in s.friendships then Deny(s, FriendshipNotFound)
    else SocialTx(s.(friendships := WithoutPair(s.friendships, u, v)), Undone)
  }

  function CancelPending(requests: map<RequestId, FriendRequest>, u: UserId, v: UserId): map<RequestId, FriendRequest> {
    map r | r in requests ::
      if Between(requests[r], u, v) && requests[r].status == Pending then requests[r].(status := Withdrawn) else requests[r]
  }

  /** blockUser. */
  function Block(s: Social, users: set<UserId>, u: UserId, v: UserId): SocialTx {
    if u == v then Deny(s, ActionNotAllowed)
    else if v !in users then Deny(s, UserNotFound)
    else if (u, v) in s.blocks then Deny(s, ActionNotAllowed)
    else SocialTx(Social(WithoutPair(s.friendships, u, v), CancelPending(s.requests, u, v), s.blocks + {(u, v)}), Undone)
  }

  /** unblockUser. */
  function Unblock(s: Social, u: UserId, v: UserId): SocialTx {
    if (u, v) !in s.blocks then Deny(s, UserNotFound)
    else SocialTx(s.(blocks := s.blocks - {(u, v)}), Undone)
  }

  // ------------------------------------------------------------------ the invariant

  ghost predicate FriendshipsOk(s: Social) {
    forall u, v :: (u, v) in s.friendships ==> u != v && (v, u) in s.friendships
  }

  /** The unique index (senderId, receiverId). */
  ghost predicate OneRequestEach(s: Social) {
    forall a, b ::
      a in s.requests && b in s.requests
      && s.requests[a].sender == s.requests[b].sender && s.requests[a].receiver == s.requests[b].receiver
      ==> a == b
  }

  /** At most one pending request per pair, in either direction, and none between friends. */
  ghost predicate PendingOk(s: Social) {
    && (forall r :: r in s.requests ==> s.requests[r].sender != s.requests[r].receiver)
    && (forall a, b ::
          a in s.requests && b in s.requests && s.requests[a].status == Pending && s.requests[b].status == Pending
          && Between(s.requests[a], s.requests[b].sender, s.requests[b].receiver)
          ==> a == b)
    && (forall r :: r in s.requests && s.requests[r].status == Pending ==> !Befriend(s, s.requests[r].sender, s.requests[r].receiver))
  }

  /** A block in either direction excludes friendship and pending requests. */
  ghost predicate BlocksOk(s: Social) {
    && (forall u, v :: (u, v) in s.blocks ==> u != v && !Befriend(s, u, v))
    && (forall r :: r in s.requests && s.requests[r].status == Pending ==> !Barred(s, s.requests[r].sender, s.requests[r].receiver))
  }

  ghost predicate SocialOk(s: Social) { FriendshipsOk(s) && OneRequestEach(s) && PendingOk(s) && BlocksOk(s) }

  lemma NoSocialOk()
    ensures SocialOk(NoSocial)
  {
  }

  // ------------------------------------------------------------------ preservation

  lemma FinalizeKeeps(s: Social, id: RequestId, actor: UserId, action: Action)
    requires SocialOk(s)
    ensures SocialOk(Finalize(s, id, actor, action).social)
  {
  }

  /** Accepting a pending request needs no check of blocks or of existing friendships: there is
      neither, so it neither befriends a blocked pair nor meets the unique index. */
  lemma AcceptKeeps(s: Social, id: RequestId, receiver: UserId)
    requires SocialOk(s)
    ensures SocialOk(AcceptPending(s, id, receiver).social)
    ensures AcceptPending(s, id, receiver).reply != No(FriendshipExists)
  {
  }

  lemma SendKeeps(s: Social, active: set<UserId>, u: UserId, v: UserId, id: RequestId)
    requires SocialOk(s)
    ensures SocialOk(Send(s, active, u, v, id).social)
  {
    var direct, reverse := RequestsFrom(s, u, v), RequestsFrom(s, v, u);
    var tx := Send(s, active, u, v, id);
    if tx.reply == Answered {
      AcceptKeeps(s, AnyOf(reverse), u);
    } else if tx.reply == Sent {
      NonePending(s, u, v);
      NewPendingKeeps(s, u, v, if direct != {} then AnyOf(direct) else id);
    }
    hide SocialOk, AcceptPending;
  }

  /** The two requests of a pair are all there is to look at. */
  lemma NonePending(s: Social, u: UserId, v: UserId)
    requires OneRequestEach(s)
    requires RequestsFrom(s, v, u) != {} ==> s.requests[AnyOf(RequestsFrom(s, v, u))].status != Pending
    ensures forall r :: r in PendingBetween(s, u, v) ==> r in RequestsFrom(s, u, v) && r == AnyOf(RequestsFrom(s, u, v))
  {
    assert forall r :: r in RequestsFrom(s, v, u) ==> r == AnyOf(RequestsFrom(s, v, u));
    forall r | r in PendingBetween(s, u, v) ensures r in RequestsFrom(s, u, v) {
      assert r !in RequestsFrom(s, v, u);
    }
  }

  lemma NewPendingKeeps(s: Social, u: UserId, v: UserId, id: RequestId)
    requires SocialOk(s) && u != v
    requires forall r :: r in PendingBetween(s, u, v) ==> r == id
    requires id in RequestsFrom(s, u, v) || (RequestsFrom(s, u, v) == {} && id !in s.requests)
    requires !Befriend(s, u, v) && !Barred(s, u, v)
    ensures SocialOk(s.(requests := s.requests[id := FriendRequest(u, v, Pending)]))
  {
    assert forall r :: r in s.requests && r != id && s.requests[r].status == Pending ==> r !in PendingBetween(s, u, v);
    assert forall r :: r in s.requests && r != id ==> r !in RequestsFrom(s, u, v);
  }

  lemma RemoveKeeps(s: Social, u: UserId, v: UserId)
    requires SocialOk(s)
    ensures SocialOk(Remove(s, u, v).social)
  {
  }

  lemma BlockKeeps(s: Social, users: set<UserId>, u: UserId, v: UserId)
    requires SocialOk(s)
    ensures SocialOk(Block(s, users, u, v).social)
  {
  }

  lemma UnblockKeeps(s: Social, u: UserId, v: UserId)
    requires SocialOk(s)
    ensures SocialOk(Unblock(s, u, v).social)
  {
  }

  // ------------------------------------------------------------------ the machine of one pair

  /** How two users stand to each other. `blockers`: who has blocked the other. */
  datatype Relation = Strangers | Asked(asker: UserId) | Befriended | Apart(blockers: set<UserId>)

  function Blockers(s: Social, u: UserId, v: UserId): set<UserId> {
    (if (u, v) in s.blocks then {u} else {}) + (if (v, u) in s.blocks then {v} else {})
  }

  /** The relation the rows stand for. */
  ghost function RelationOf(s: Social, u: UserId, v: UserId): Relation {
    if Barred(s, u, v) then Apart(Blockers(s, u, v))
    else if Befriend(s, u, v) then Befriended
    else if PendingBetween(s, u, v) != {} then Asked(s.requests[AnyOf(PendingBetween(s, u, v))].sender)
    else Strangers
  }

  /** What one user may do about another. */
  datatype Move = Ask | AcceptIt | RejectIt | CancelIt | Unfriend | Ban | Unban

  /** The machine: `actor` makes a move about `other`. A move that is not listed is refused. */
  function Next(r: Relation, actor: UserId, other: UserId, move: Move): Option<Relation> {
    match (move, r)
    case (Ask, Strangers) => Some(Asked(actor))
    case (Ask, Asked(asker)) => if asker == other then Some(Befriended) else None
    case (AcceptIt, Asked(asker)) => if asker == other then Some(Befriended) else None
    case (RejectIt, Asked(asker)) => if asker == other then Some(Strangers) else None
    case (CancelIt, Asked(asker)) => if asker == actor then Some(Strangers) else None
    case (Unfriend, Befriended) => Some(Strangers)
    case (Ban, Apart(bs)) => if actor in bs then None else Some(Apart(bs + {actor}))
    case (Ban, _) => Some(Apart({actor}))
    case (Unban, Apart(bs)) => if actor !in bs then None else Some(if bs == {actor} then Strangers else Apart(bs - {actor}))
    case _ => None
  }

  /** A transaction made the move, or was refused exactly when the machine refuses it; and no other
      pair noticed. */
  ghost predicate Refines(s: Social, tx: SocialTx, u: UserId, v: UserId, move: Move) {
    var next := Next(RelationOf(s, u, v), u, v, move);
    && (tx.reply.No? <==> next.None?)
    && (next.Some? ==> RelationOf(tx.social, u, v) == next.value)
    && (next.None? ==> tx.social == s)
    && OthersStay(s, tx.social, u, v)
  }

  ghost predicate OthersStay(s: Social, s': Social, u: UserId, v: UserId) {
    forall x, y :: {x, y} != {u, v} ==> RelationOf(s', x, y) == RelationOf(s, x, y)
  }

  /** Relations look only at the pair's own rows. */
  lemma PairFrame(s: Social, s': Social, x: UserId, y: UserId)
    requires (x, y) in s.friendships <==> (x, y) in s'.friendships
    requires (y, x) in s.friendships <==> (y, x) in s'.friendships
    requires (x, y) in s.blocks <==> (x, y) in s'.blocks
    requires (y, x) in s.blocks <==> (y, x) in s'.blocks
    requires PendingBetween(s', x, y) == PendingBetween(s, x, y)
    requires forall r :: r in PendingBetween(s, x, y) ==> s'.requests[r] == s.requests[r]
    ensures RelationOf(s', x, y) == RelationOf(s, x, y)
  {
    if PendingBetween(s, x, y) != {} {
      assert AnyOf(PendingBetween(s, x, y)) in PendingBetween(s, x, y);
      assert AnyOf(PendingBetween(s', x, y)) == AnyOf(PendingBetween(s, x, y));
    }
  }

  /** A pending request is the pair's only one, so it says who asked. */
  lemma PendingSaysWho(s: Social, r: RequestId)
    requires SocialOk(s) && r in s.requests && s.requests[r].status == Pending
    ensures RelationOf(s, s.requests[r].sender, s.requests[r].receiver) == Asked(s.requests[r].sender)
    ensures RelationOf(s, s.requests[r].receiver, s.requests[r].sender) == Asked(s.requests[r].sender)
  {
    var u, v := s.requests[r].sender, s.requests[r].receiver;
    assert r in PendingBetween(s, u, v) && r in PendingBetween(s, v, u);
    assert AnyOf(PendingBetween(s, u, v)) in PendingBetween(s, u, v);
    assert AnyOf(PendingBetween(s, v, u)) in PendingBetween(s, v, u);
    forall q | q in s.requests && s.requests[q].status == Pending ensures Between(s.requests[q], u, v) ==> q == r {
      assert s.requests[r].status == Pending;
    }
  }

  /** Changing one request changes the pending requests of its pair only. */
  lemma OtherPairs(s: Social, s': Social, u: UserId, v: UserId)
    requires forall x, y :: {x, y} != {u, v} ==> ((x, y) in s'.blocks <==> (x, y) in s.blocks)
    requires forall x, y :: {x, y} != {u, v} ==> ((x, y) in s'.friendships <==> (x, y) in s.friendships)
    requires forall r :: r in s'.requests && !Between(s'.requests[r], u, v) ==> r in s.requests && s'.requests[r] == s.requests[r]
    requires forall r :: r in s.requests && !Between(s.requests[r], u, v) ==> r in s'.requests && s'.requests[r] == s.requests[r]
    ensures OthersStay(s, s', u, v)
  {
    forall x, y | {x, y} != {u, v} ensures RelationOf(s', x, y) == RelationOf(s, x, y) {
      assert {y, x} == {x, y};
      forall r ensures r in PendingBetween(s', x, y) <==> r in PendingBetween(s, x, y) {
        DifferentPairs(s', r, x, y, u, v);
        DifferentPairs(s, r, x, y, u, v);
      }
      assert PendingBetween(s', x, y) == PendingBetween(s, x, y);
      forall r | r in PendingBetween(s, x, y) ensures s'.requests[r] == s.requests[r] {
        DifferentPairs(s, r, x, y, u, v);
      }
      PairFrame(s, s', x, y);
    }
  }

  lemma DifferentPairs(s: Social, r: RequestId, x: UserId, y: UserId, u: UserId, v: UserId)
    requires {x, y} != {u, v}
    ensures r in s.requests && Between(s.requests[r], x, y) ==> !Between(s.requests[r], u, v)
  {
    if r in s.requests {
      PairIs(s.requests[r], x, y);
      PairIs(s.requests[r], u, v);
    }
  }

  lemma PairIs(r: FriendRequest, x: UserId, y: UserId)
    ensures Between(r, x, y) ==> {r.sender, r.receiver} == {x, y}
  {
  }

  // ------------------------------------------------------------------ the rows refine the machine

  lemma OneRequestChanges(s: Social, id: RequestId, r: FriendRequest, friendships: set<(UserId, UserId)>)
    requires (id in s.requests ==> Between(s.requests[id], r.sender, r.receiver))
    requires forall x, y :: {x, y} != {r.sender, r.receiver} ==> ((x, y) in friendships <==> (x, y) in s.friendships)
    ensures OthersStay(s, s.(requests := s.requests[id := r], friendships := friendships), r.sender, r.receiver)
  {
    hide RelationOf;
    OtherPairs(s, s.(requests := s.requests[id := r], friendships := friendships), r.sender, r.receiver);
  }

  /** Once the pair's pending request is answered, none is pending. */
  lemma NonePendingAfter(s: Social, id: RequestId, status: RequestStatus)
    requires SocialOk(s) && id in s.requests && s.requests[id].status == Pending && status != Pending
    ensures var r := s.requests[id];
            var s' := s.(requests := s.requests[id := r.(status := status)]);
            PendingBetween(s', r.sender, r.receiver) == {} && PendingBetween(s', r.receiver, r.sender) == {}
  {
    var u, v := s.requests[id].sender, s.requests[id].receiver;
    forall q | q in s.requests && q != id && s.requests[q].status == Pending
      ensures !Between(s.requests[q], u, v) && !Between(s.requests[q], v, u)
    {
      assert s.requests[id].status == Pending;
    }
  }

  lemma Answers(s: Social, id: RequestId, action: Action)
    requires SocialOk(s) && id in s.requests && s.requests[id].status == Pending
    ensures var r := s.requests[id];
            && (action == Accept ==>
                  Refines(s, AcceptPending(s, id, r.receiver), r.receiver, r.sender, AcceptIt)
                  && Refines(s, AcceptPending(s, id, r.receiver), r.receiver, r.sender, Ask))
            && (action == Reject ==> Refines(s, Finalize(s, id, r.receiver, Reject), r.receiver, r.sender, RejectIt))
            && (action == Cancel ==> Refines(s, Finalize(s, id, r.sender, Cancel), r.sender, r.receiver, CancelIt))
  {
    var r := s.requests[id];
    PendingSaysWho(s, id);
    NonePendingAfter(s, id, match action case Accept => Accepted case Reject => Rejected case Cancel => Withdrawn);
    var status := match action case Accept => Accepted case Reject => Rejected case Cancel => Withdrawn;
    var friendships := if action == Accept then s.friendships + {(r.sender, r.receiver), (r.receiver, r.sender)} else s.friendships;
    forall x, y | {x, y} != {r.sender, r.receiver} ensures (x, y) in friendships <==> (x, y) in s.friendships {
      assert (x, y) == (r.sender, r.receiver) ==> {x, y} == {r.sender, r.receiver};
      assert (x, y) == (r.receiver, r.sender) ==> {x, y} == {r.sender, r.receiver};
    }
    OneRequestChanges(s, id, r.(status := status), friendships);
    OthersSymmetric(s, s.(requests := s.requests[id := r.(status := status)], friendships := friendships), r.sender, r.receiver);
    hide OthersStay;
  }

  lemma OthersSymmetric(s: Social, s': Social, u: UserId, v: UserId)
    ensures OthersStay(s, s', u, v) ==> OthersStay(s, s', v, u)
  {
    hide RelationOf;
    assert {u, v} == {v, u};
  }

  /** Asking: a new request, or one of before asked again. */
  lemma AsksAnew(s: Social, u: UserId, v: UserId, id: RequestId)
    requires SocialOk(s) && u != v && RelationOf(s, u, v) == Strangers
    requires id in s.requests ==> Between(s.requests[id], u, v)
    ensures var s' := s.(requests := s.requests[id := FriendRequest(u, v, Pending)]);
            RelationOf(s', u, v) == Asked(u) && OthersStay(s, s', u, v)
  {
    var s' := s.(requests := s.requests[id := FriendRequest(u, v, Pending)]);
    OneRequestChanges(s, id, FriendRequest(u, v, Pending), s.friendships);
    assert s' == s.(requests := s.requests[id := FriendRequest(u, v, Pending)], friendships := s.friendships);
    forall q ensures q in PendingBetween(s', u, v) <==> q == id {
      assert q !in PendingBetween(s, u, v);
    }
    assert PendingBetween(s', u, v) == {id};
  }

  /** What sendFriendRequest sees in the two requests of a pair is the relation. */
  lemma SeesRelation(s: Social, u: UserId, v: UserId)
    requires SocialOk(s) && u != v && !Befriend(s, u, v) && !Barred(s, u, v)
    ensures var direct, reverse := RequestsFrom(s, u, v), RequestsFrom(s, v, u);
            && (reverse != {} && s.requests[AnyOf(reverse)].status == Pending <==> RelationOf(s, u, v) == Asked(v))
            && (direct != {} && s.requests[AnyOf(direct)].status == Pending <==> RelationOf(s, u, v) == Asked(u))
            && (RelationOf(s, u, v) == Strangers || RelationOf(s, u, v) == Asked(u) || RelationOf(s, u, v) == Asked(v))
  {
    var direct, reverse := RequestsFrom(s, u, v), RequestsFrom(s, v, u);
    if direct != {} && s.requests[AnyOf(direct)].status == Pending {
      PendingSaysWho(s, AnyOf(direct));
    }
    if reverse != {} && s.requests[AnyOf(reverse)].status == Pending {
      PendingSaysWho(s, AnyOf(reverse));
    }
    if PendingBetween(s, u, v) != {} {
      var r := AnyOf(PendingBetween(s, u, v));
      PendingSaysWho(s, r);
      assert r in RequestsFrom(s, s.requests[r].sender, s.requests[r].receiver);
      Only(s, r);
    }
  }

  lemma Only(s: Social, r: RequestId)
    requires OneRequestEach(s) && r in s.requests
    ensures RequestsFrom(s, s.requests[r].sender, s.requests[r].receiver) == {r}
  {
    assert forall q :: q in RequestsFrom(s, s.requests[r].sender, s.requests[r].receiver) <==> q == r;
  }

  lemma SendRefines(s: Social, active: set<UserId>, u: UserId, v: UserId, id: RequestId)
    requires SocialOk(s) && u != v && u in active && v in active && id !in s.requests
    ensures Refines(s, Send(s, active, u, v, id), u, v, Ask)
  {
    var direct, reverse := RequestsFrom(s, u, v), RequestsFrom(s, v, u);
    var relation := RelationOf(s, u, v);
    if !Befriend(s, u, v) && !Barred(s, u, v) {
      SeesRelation(s, u, v);
      hide SocialOk, RelationOf, AcceptPending, OthersStay;
      if relation == Asked(v) {
        Answers(s, AnyOf(reverse), Accept) by { assert SocialOk(s); }
      } else if relation == Strangers {
        AsksAnew(s, u, v, if direct != {} then AnyOf(direct) else id);
      }
      StaysPut(s, u, v);
    } else {
      StaysPut(s, u, v);
    }
  }

  lemma StaysPut(s: Social, u: UserId, v: UserId)
    ensures OthersStay(s, s, u, v)
  {
  }

  lemma RemoveRefines(s: Social, u: UserId, v: UserId)
    requires SocialOk(s)
    ensures Refines(s, Remove(s, u, v), u, v, Unfriend)
  {
    var tx := Remove(s, u, v);
    NoPairElse(s.friendships, u, v);
    OtherPairs(s, tx.social, u, v);
    if tx.reply.No? {
      StaysPut(s, u, v);
    } else {
      FriendsHaveNonePending(s, u, v);
    }
    hide OthersStay;
  }

  lemma NoPairElse(friendships: set<(UserId, UserId)>, u: UserId, v: UserId)
    ensures forall x, y :: {x, y} != {u, v} ==> ((x, y) in WithoutPair(friendships, u, v) <==> (x, y) in friendships)
  {
    forall x, y | {x, y} != {u, v} ensures (x, y) in WithoutPair(friendships, u, v) <==> (x, y) in friendships {
      assert (x, y) == (u, v) ==> {x, y} == {u, v};
      assert (x, y) == (v, u) ==> {x, y} == {u, v};
    }
  }

  lemma FriendsHaveNonePending(s: Social, u: UserId, v: UserId)
    requires SocialOk(s) && Befriend(s, u, v)
    ensures PendingBetween(s, u, v) == {}
  {
    forall r | r in s.requests && s.requests[r].status == Pending ensures !Between(s.requests[r], u, v) {
      assert !Befriend(s, s.requests[r].sender, s.requests[r].receiver);
    }
  }

  lemma BlockRefines(s: Social, users: set<UserId>, u: UserId, v: UserId)
    requires SocialOk(s) && u != v && v in users
    ensures Refines(s, Block(s, users, u, v), u, v, Ban)
  {
    var tx := Block(s, users, u, v);
    StaysPut(s, u, v);
    if (u, v) !in s.blocks {
      NoPairElse(s.friendships, u, v);
      forall x, y | {x, y} != {u, v} ensures (x, y) in tx.social.blocks <==> (x, y) in s.blocks {
        assert (x, y) == (u, v) ==> {x, y} == {u, v};
      }
      OtherPairs(s, tx.social, u, v);
    }
    hide OthersStay;
  }

  lemma BlockedHaveNonePending(s: Social, u: UserId, v: UserId)
    requires SocialOk(s) && Barred(s, u, v)
    ensures PendingBetween(s, u, v) == {} && !Befriend(s, u, v)
  {
    forall r | r in s.requests && s.requests[r].status == Pending ensures !Between(s.requests[r], u, v) {
      assert !Barred(s, s.requests[r].sender, s.requests[r].receiver);
    }
  }

  lemma UnblockRefines(s: Social, u: UserId, v: UserId)
    requires SocialOk(s)
    ensures Refines(s, Unblock(s, u, v), u, v, Unban)
  {
    var tx := Unblock(s, u, v);
    StaysPut(s, u, v);
    if (u, v) in s.blocks {
      BlockedHaveNonePending(s, u, v);
      assert PendingBetween(tx.social, u, v) == PendingBetween(s, u, v);
      forall x, y | {x, y} != {u, v} ensures (x, y) in tx.social.blocks <==> (x, y) in s.blocks {
        assert (x, y) == (u, v) ==> {x, y} == {u, v};
      }
      OtherPairs(s, tx.social, u, v);
    }
    hide OthersStay;
  }

  // ------------------------------------------------------------------ accounts, runs

  /** deleteAccount cancels the pending requests of the account. */
  function CancelAll(s: Social, u: UserId): Social {
    s.(requests := map r | r in s.requests ::
         if s.requests[r].status == Pending && (s.requests[r].sender == u || s.requests[r].receiver == u)
         then s.requests[r].(status := Withdrawn) else s.requests[r])
  }

  /** user.delete cascades to every row of the account. */
  function Forget(s: Social, u: UserId): Social {
    Social(set p | p in s.friendships && p.0 != u && p.1 != u,
           map r | r in s.requests && s.requests[r].sender != u && s.requests[r].receiver != u :: s.requests[r],
           set p | p in s.blocks && p.0 != u && p.1 != u)
  }

  lemma AccountKeeps(s: Social, u: UserId)
    requires SocialOk(s)
    ensures SocialOk(CancelAll(s, u)) && SocialOk(Forget(s, u))
  {
  }

  datatype Step =
    | SendStep(active: set<UserId>, sender: UserId, receiver: UserId, request: RequestId)
    | AnswerStep(active: set<UserId>, request: RequestId, actor: UserId, action: Action)
    | RemoveStep(user: UserId, friend: UserId)
    | BlockStep(users: set<UserId>, user: UserId, blocked: UserId)
    | UnblockStep(user: UserId, blocked: UserId)
    | LeaveStep(user: UserId)
    | ForgetStep(user: UserId)

  ghost function Apply(s: Social, step: Step): Social {
    match step
    case SendStep(active, u, v, id) => Send(s, active, u, v, id).social
    case AnswerStep(active, id, actor, action) => Answer(s, active, id, actor, action).social
    case RemoveStep(u, v) => Remove(s, u, v).social
    case BlockStep(users, u, v) => Block(s, users, u, v).social
    case UnblockStep(u, v) => Unblock(s, u, v).social
    case LeaveStep(u) => CancelAll(s, u)
    case ForgetStep(u) => Forget(s, u)
  }

  ghost function Run(s: Social, steps: seq<Step>): Social
    decreases |steps|
  {
    if steps == [] then s else Run(Apply(s, steps[0]), steps[1..])
  }

  lemma ApplyKeeps(s: Social, step: Step)
    requires SocialOk(s)
    ensures SocialOk(Apply(s, step))
  {
    hide SocialOk, Send, AcceptPending, Finalize, Remove, Block, Unblock, CancelAll, Forget;
    match step {
      case SendStep(active, u, v, id) => SendKeeps(s, active, u, v, id);
      case AnswerStep(active, id, actor, action) =>
        AcceptKeeps(s, id, actor);
        FinalizeKeeps(s, id, actor, action);
      case RemoveStep(u, v) => RemoveKeeps(s, u, v);
      case BlockStep(users, u, v) => BlockKeeps(s, users, u, v);
      case UnblockStep(u, v) => UnblockKeeps(s, u, v);
      case LeaveStep(u) => AccountKeeps(s, u);
      case ForgetStep(u) => AccountKeeps(s, u);
    }
  }

  /** After any run: friendship is symmetric, at most one request of a pair is pending, friends have
      none pending, and a block excludes friendship and pending requests. */
  lemma {:induction false} RunKeeps(s: Social, steps: seq<Step>)
    requires SocialOk(s)
    ensures SocialOk(Run(s, steps))
    decreases |steps|
  {
    hide SocialOk, Apply;
    if steps != [] {
      ApplyKeeps(s, steps[0]);
      RunKeeps(Apply(s, steps[0]), steps[1..]);
    }
  }

  /** The same from no rows at all, for any two users. */
  lemma ReachablePairs(steps: seq<Step>, u: UserId, v: UserId)
    ensures var s := Run(NoSocial, steps);
            && ((u, v) in s.friendships ==> u != v && (v, u) in s.friendships)
            && |PendingBetween(s, u, v)| <= 1
            && (Befriend(s, u, v) || Barred(s, u, v) ==> PendingBetween(s, u, v) == {})
            && !(Befriend(s, u, v) && Barred(s, u, v))
  {
    NoSocialOk();
    RunKeeps(NoSocial, steps);
    PairIsSound(Run(NoSocial, steps), u, v);
    hide Run, SocialOk;
  }

  lemma PairIsSound(s: Social, u: UserId, v: UserId)
    requires SocialOk(s)
    ensures (u, v) in s.friendships ==> u != v && (v, u) in s.friendships
    ensures |PendingBetween(s, u, v)| <= 1
    ensures Befriend(s, u, v) || Barred(s, u, v) ==> PendingBetween(s, u, v) == {}
    ensures !(Befriend(s, u, v) && Barred(s, u, v))
  {
    var ps := PendingBetween(s, u, v);
    if ps != {} {
      var a := Member(ps);
      forall b | b in ps ensures b == a {
      }
      assert ps == {a};
    }
  }
}

/** The methods of src/friend/friend.service.ts over mutable rows. */
module FriendServices {
  import opened Common
  import F = Friends
  import opened Friends

  class FriendService {
    var friendships: set<(UserId, UserId)>
    var requests: map<RequestId, FriendRequest>
    var blocks: set<(UserId, UserId)>

    constructor ()
      ensures Rows() == NoSocial
    {
      friendships, requests, blocks := {}, map[], {};
    }

    function Rows(): Social
      reads this
    {
      Social(friendships, requests, blocks)
    }

    method Rollback(start: Social)
      modifies this
      ensures Rows() == start
    {
      friendships, requests, blocks := start.friendships, start.requests, start.blocks;
    }

    /** friendRequest.findUnique({ senderId, receiverId }) */
    method FindRequest(u: UserId, v: UserId) returns (found: Option<RequestId>)
      requires OneRequestEach(Rows())
      ensures found == if RequestsFrom(Rows(), u, v) == {} then None else Some(AnyOf(RequestsFrom(Rows(), u, v)))
    {
      var rest := requests.Keys;
      assert requests.Keys - rest == {};
      while rest != {}
        invariant rest <= requests.Keys
        invariant forall r :: r in requests.Keys - rest ==> r !in RequestsFrom(Rows(), u, v)
      {
        ghost var some := Member(rest);
        var r :| r in rest;
        if requests[r].sender == u && requests[r].receiver == v {
          Only(Rows(), r);
          return Some(r);
        }
        rest := rest - {r};
      }
      assert requests.Keys - rest == requests.Keys;
      assert forall r :: r !in RequestsFrom(Rows(), u, v);
      return None;
    }

    /** finalizePendingFriendRequest. */
    method FinalizePending(id: RequestId, actor: UserId, action: Action) returns (reply: SocialReply)
      modifies this`requests
      ensures SocialTx(Rows(), reply) == Finalize(old(Rows()), id, actor, action)
    {
      if id !in requests { return No(RequestNotFound); }
      var r := requests[id];
      if action == Cancel {
        if r.sender != actor { return No(ActionNotAllowed); }
      } else if r.receiver != actor {
        return No(ActionNotAllowed);
      }
      if r.status != Pending { return No(RequestNotPending); }
      var status := match action case Accept => Accepted case Reject => Rejected case Cancel => Withdrawn;
      requests := requests[id := r.(status := status)];
      return Answered;
    }

    /** acceptFriendRequestInTransaction: the two rows are created one after the other. */
    method AcceptInTransaction(id: RequestId, receiver: UserId) returns (reply: SocialReply)
      modifies this
      ensures SocialTx(Rows(), reply) == AcceptPending(old(Rows()), id, receiver)
    {
      var start := Rows();
      reply := FinalizePending(id, receiver, Accept);
      if reply.No? { return; }
      var r := requests[id];
      if (r.sender, r.receiver) in friendships {
        Rollback(start);
        return No(FriendshipExists);
      }
      friendships := friendships + {(r.sender, r.receiver)};
      if (r.receiver, r.sender) in start.friendships {
        Rollback(start);
        return No(FriendshipExists);
      }
      friendships := friendships + {(r.receiver, r.sender)};
      return Answered;
    }

    method SendFriendRequest(active: set<UserId>, u: UserId, v: UserId, id: RequestId) returns (reply: SocialReply)
      requires OneRequestEach(Rows())
      modifies this
      ensures SocialTx(Rows(), reply) == Send(old(Rows()), active, u, v, id)
    {
      if u == v { return No(CannotFriendSelf); }
      if u !in active || v !in active { return No(UserNotFound); }
      if Befriend(Rows(), u, v) { return No(FriendshipExists); }
      if Barred(Rows(), u, v) { return No(ActionNotAllowed); }
      var direct := FindRequest(u, v);
      var reverse := FindRequest(v, u);
      if reverse.Some? && requests[reverse.value].status == Pending {
        reply := AcceptInTransaction(reverse.value, u);
        return;
      }
      if direct.Some? && requests[direct.value].status == Pending { return No(RequestExists); }
      if direct.None? && id in requests { return No(RequestExists); }
      requests := requests[(if direct.Some? then direct.value else id) := FriendRequest(u, v, Pending)];
      return Sent;
    }

    /** acceptFriendRequest, rejectFriendRequest and cancelFriendRequest. */
    method AnswerRequest(active: set<UserId>, id: RequestId, actor: UserId, action: Action) returns (reply: SocialReply)
      modifies this
      ensures SocialTx(Rows(), reply) == Answer(old(Rows()), active, id, actor, action)
    {
      if id !in requests { return No(RequestNotFound); }
      var r := requests[id];
      if actor != (if action == Cancel then r.sender else r.receiver) { return No(ActionNotAllowed); }
      if r.sender !in active || r.receiver !in active { return No(UserNotFound); }
      if action == Accept {
        reply := AcceptInTransaction(id, actor);
      } else {
        reply := FinalizePending(id, actor, action);
      }
    }

    method RemoveFriend(u: UserId, v: UserId) returns (reply: SocialReply)
      modifies this`friendships
      ensures SocialTx(Rows(), reply) == Remove(old(Rows()), u, v)
    {
      if (u, v) !in friendships { return No(FriendshipNotFound); }
      friendships := friendships - {(u, v), (v, u)};
      return Undone;
    }

    method BlockUser(users: set<UserId>, u: UserId, v: UserId) returns (reply: SocialReply)
      modifies this
      ensures SocialTx(Rows(), reply) == Block(old(Rows()), users, u, v)
    {
      if u == v { return No(ActionNotAllowed); }
      if v !in users { return No(UserNotFound); }
      if (u, v) in blocks { return No(ActionNotAllowed); }
      blocks := blocks + {(u, v)};
      friendships := friendships - {(u, v), (v, u)};
      requests := CancelPending(requests, u, v);
      return Undone;
    }

    method UnblockUser(u: UserId, v: UserId) returns (reply: SocialReply)
      modifies this`blocks
      ensures SocialTx(Rows(), reply) == Unblock(old(Rows()), u, v)
    {
      if (u, v) !in blocks { return No(UserNotFound); }
      blocks := blocks - {(u, v)};
      return Undone;
    }
  }
}
