/** Identifiers and small datatypes shared by every component.

    Row ids are uuids in the program; here they are numbers, compared only for equality and,
    where the program sorts them, for order. */
module Common {
  type UserId = int
  type CompanionId = int
  type PackId = int
  type InvitationId = int
  type SessionId = int
  type RequestId = int
  type Time = int

  datatype Option<+T> = None | Some(value: T)

  /** The largest element, 0 for the empty set: SQL's `COALESCE(MAX(column), 0)`. */
  function MaxKey(keys: set<nat>): (m: nat)
    ensures forall k :: k in keys ==> k <= m
    ensures keys != {} ==> m in keys
    ensures keys == {} ==> m == 0
  {
    if keys == {} then 0
    else
      MaxExists(keys);
      var m :| m in keys && forall k :: k in keys ==> k <= m;
      m
  }

  lemma MaxExists(keys: set<nat>)
    requires keys != {}
    ensures exists m :: m in keys && forall k :: k in keys ==> k <= m
  {
    var x :| x in keys;
    if keys - {x} != {} {
      MaxExists(keys - {x});
      var m :| m in keys - {x} && forall k :: k in keys - {x} ==> k <= m;
      var best := if m < x then x else m;
      assert forall k :: k in keys ==> k == x || k in keys - {x};
      assert best in keys && forall k :: k in keys ==> k <= best;
    } else {
      assert keys == {x};
    }
  }

  /** The smallest element of a nonempty set. */
  function MinKey(keys: set<nat>): (m: nat)
    requires keys != {}
    ensures m in keys && forall k :: k in keys ==> m <= k
  {
    MinExists(keys);
    var m :| m in keys && forall k :: k in keys ==> m <= k;
    m
  }

  lemma MinExists(keys: set<nat>)
    requires keys != {}
    ensures exists m :: m in keys && forall k :: k in keys ==> m <= k
  {
    var x :| x in keys;
    if keys - {x} != {} {
      MinExists(keys - {x});
      var m :| m in keys - {x} && forall k :: k in keys - {x} ==> m <= k;
      var best := if m < x then m else x;
      assert forall k :: k in keys ==> k == x || k in keys - {x};
      assert best in keys && forall k :: k in keys ==> best <= k;
    } else {
      assert keys == {x};
    }
  }

  /** Some element of a nonempty set. */
  ghost function AnyOf<T(!new)>(us: set<T>): (x: T)
    requires us != {}
    ensures x in us
  {
    var x :| x in us;
    x
  }

  /** A nonempty set has a member. */
  lemma Member<T>(us: set<T>) returns (x: T)
    requires us != {}
    ensures x in us
  {
    x :| x in us;
  }

  /** A subset is never larger. */
  lemma SubsetSize<T>(a: set<T>, b: set<T>)
    requires a <= b
    ensures |a| <= |b|
  {
    if a != {} {
      var x :| x in a;
      SubsetSize(a - {x}, b - {x});
    }
  }

  // ------------------------------------------------------------------ sums

  /** The sum of a column over some rows. */
  ghost function Sum<K(!new)>(m: map<K, nat>, ks: set<K>): nat
    requires ks <= m.Keys
  {
    if ks == {} then 0
    else
      var k :| k in ks;
      m[k] + Sum(m, ks - {k})
  }

  lemma SumRemove<K(!new)>(m: map<K, nat>, ks: set<K>, k: K)
    requires ks <= m.Keys && k in ks
    ensures Sum(m, ks) == m[k] + Sum(m, ks - {k})
    decreases |ks|
  {
    var j :| j in ks && Sum(m, ks) == m[j] + Sum(m, ks - {j});
    if j != k {
      SumRemove(m, ks - {j}, k);
      SumRemove(m, ks - {k}, j);
      assert ks - {j} - {k} == ks - {k} - {j};
    }
  }

  /** The sum only depends on the rows summed. */
  lemma {:induction false} SumFrame<K(!new)>(m: map<K, nat>, m': map<K, nat>, ks: set<K>)
    requires ks <= m.Keys && ks <= m'.Keys
    requires forall k :: k in ks ==> m[k] == m'[k]
    ensures Sum(m, ks) == Sum(m', ks)
    decreases |ks|
  {
    if ks != {} {
      var k :| k in ks && Sum(m, ks) == m[k] + Sum(m, ks - {k});
      SumFrame(m, m', ks - {k});
      SumRemove(m', ks, k);
    }
  }

  lemma SumAdd<K(!new)>(m: map<K, nat>, ks: set<K>, k: K, n: nat)
    requires ks <= m.Keys && k !in m
    ensures Sum(m[k := n], ks + {k}) == Sum(m, ks) + n
  {
    SumRemove(m[k := n], ks + {k}, k);
    assert ks + {k} - {k} == ks;
    SumFrame(m, m[k := n], ks);
  }

  /** Fewer rows, a smaller sum. */
  lemma {:induction false} SumSubset<K(!new)>(m: map<K, nat>, few: set<K>, many: set<K>)
    requires few <= many <= m.Keys
    ensures Sum(m, few) <= Sum(m, many)
    decreases |few|
  {
    if few != {} {
      var k := Member(few);
      SumRemove(m, few, k);
      SumRemove(m, many, k);
      SumSubset(m, few - {k}, many - {k});
    }
  }
}

/** The refusals of the services, one per error code, and the replies of a transaction. */
module Replies {
  datatype Code =
    // src/visit/visit.service.ts
    | VisitFeatureUnavailable | InvitationNotAvailable | VisualAssetsUnavailable | TopicNotAvailable
    | InvitationAlreadyExists | InvitationNotFound | InvitationNotHost | InvitationNotOwned
    | InvitationNotPending | InvitationExpired | ReservationChanged | ReservationExists
    | HostHasActiveGuests | SessionAlreadyActive | HostCompanionAway | HostCapacityReached
    | HostCompanionChanged | SessionNotFound | SessionNotParticipant | SessionNotPreparing
    | SessionNotReady | SessionStateChanged
    // src/visit/visit-room.service.ts
    | RoomNotJoinable | RoomAlreadyParticipant | RoomCapacityReached | JoinRequestsDisabled
    | RoomNotAvailable | ParticipantUnavailable | RoomCompanionDuplicate | JoinRequestExists
    | JoinRequestNotFound | JoinRequestNotHost | JoinRequestNotAvailable | JoinRequestNotPending
    | JoinRequestExpired | ParticipantStateChanged | HostMustEndRoom
    // src/visit-social/visit-social.service.ts
    | ShareInvalid | ShareNotOwner | ShareStateChanged | SocialNotAvailable | SessionNotActive
    | ParticipantNotReady | ShareRequired | TopicStateChanged | TurnOrderInvalid | TurnLimitReached
    | TurnInvalid | SessionNotCompleted | SharedMomentTooShort
    // a unique index of prisma/schema.prisma refuses the row
    | UniqueViolation

  /** `Repeated`: the call succeeds without a change, because its effect is already there. */
  datatype Reply = Done | Repeated | Refused(code: Code)
}
