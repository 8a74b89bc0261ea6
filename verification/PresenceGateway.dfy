/** The maps of the gateway, and its handlers as the methods between two `await`s. */
module PresenceGateways {
  import opened Common
  import opened Presence

  const RECONNECT_WINDOW: int := 900_000
  const MAX_RECONNECT_EVENTS: nat := 10_000

  datatype PendingConnection = PendingConnection(user: UserId, pending: Pending)

  // ------------------------------------------------------------------ the reconnect log

  /** The events of a log from the first one not before `cutoff`. */
  function Pruned(events: seq<Time>, cutoff: Time): seq<Time> {
    if events != [] && events[0] < cutoff then Pruned(events[1..], cutoff) else events
  }

  /** recordReconnect. */
  function Recorded(events: seq<Time>, now: Time): seq<Time> {
    var all := Pruned(events, now - RECONNECT_WINDOW) + [now];
    if |all| > MAX_RECONNECT_EVENTS then all[|all| - MAX_RECONNECT_EVENTS..] else all
  }

  ghost predicate Ascending(events: seq<Time>) { forall i, j :: 0 <= i < j < |events| ==> events[i] <= events[j] }

  lemma {:induction false} PrunedIsSuffix(events: seq<Time>, cutoff: Time) returns (k: nat)
    requires Ascending(events)
    ensures k <= |events| && Pruned(events, cutoff) == events[k..]
    ensures forall i :: 0 <= i < |events| ==> (events[i] < cutoff <==> i < k)
  {
    if events != [] && events[0] < cutoff {
      var rest := events[1..];
      k := PrunedIsSuffix(rest, cutoff);
      assert rest[k..] == events[k + 1..];
      forall i | 0 <= i < |events| ensures events[i] < cutoff <==> i < k + 1 {
        if i > 0 { assert events[i] == rest[i - 1]; }
      }
      k := k + 1;
    } else {
      k := 0;
    }
  }

  /** The log of an advancing clock stays ascending, inside the window and within its bound; and it
      holds every event of the window, unless the bound cuts off the oldest. */
  lemma RecordedIsWindow(events: seq<Time>, now: Time)
    requires Ascending(events) && forall i :: 0 <= i < |events| ==> events[i] <= now
    ensures var log := Recorded(events, now);
            && Ascending(log) && 1 <= |log| <= MAX_RECONNECT_EVENTS && log[|log| - 1] == now
            && (forall i :: 0 <= i < |log| ==> now - RECONNECT_WINDOW <= log[i] <= now)
            && (|log| < MAX_RECONNECT_EVENTS ==>
                  forall i :: 0 <= i < |events| && now - RECONNECT_WINDOW <= events[i] ==> events[i] in log)
  {
    var k := PrunedIsSuffix(events, now - RECONNECT_WINDOW);
    var all := events[k..] + [now];
    AllInWindow(events, now, k);
    forall i | k <= i < |events| ensures events[i] in all {
      assert all[i - k] == events[i];
    }
    hide Ascending, Pruned;
    SuffixAscends(all, if |all| > MAX_RECONNECT_EVENTS then |all| - MAX_RECONNECT_EVENTS else 0);
  }

  lemma AllInWindow(events: seq<Time>, now: Time, k: nat)
    requires Ascending(events) && k <= |events| && forall i :: 0 <= i < |events| ==> events[i] <= now
    requires forall i :: k <= i < |events| ==> now - RECONNECT_WINDOW <= events[i]
    ensures var all := events[k..] + [now];
            Ascending(all) && forall i :: 0 <= i < |all| ==> now - RECONNECT_WINDOW <= all[i] <= now
  {
  }

  lemma SuffixAscends(all: seq<Time>, n: nat)
    requires Ascending(all) && n <= |all|
    ensures Ascending(all[n..])
  {
  }

  // ------------------------------------------------------------------ sockets and their activity

  ghost function SocketsIn(users: map<UserId, set<SocketId>>, u: UserId): set<SocketId> { if u in users then users[u] else {} }

  ghost function ActivityIn(users: map<UserId, set<SocketId>>, activity: map<SocketId, Time>, u: UserId): map<SocketId, Time> {
    map c | c in SocketsIn(users, u) && c in activity :: activity[c]
  }

  ghost predicate Separate(users: map<UserId, set<SocketId>>) { forall u, v :: u != v ==> SocketsIn(users, u) !! SocketsIn(users, v) }

  /** No other user has the sockets. */
  ghost predicate NotOthers(users: map<UserId, set<SocketId>>, u: UserId, cs: set<SocketId>) {
    forall v :: v != u ==> cs !! SocketsIn(users, v)
  }

  /** Sockets of one user go, or come in: the others do not notice. */
  lemma SocketsMove(users: map<UserId, set<SocketId>>, users': map<UserId, set<SocketId>>, activity: map<SocketId, Time>, u: UserId,
                    gone: set<SocketId>, come: map<SocketId, Time>)
    requires NotOthers(users, u, gone + come.Keys)
    requires forall v :: SocketsIn(users', v) == if v == u then SocketsIn(users, u) - gone + come.Keys else SocketsIn(users, v)
    ensures ActivityIn(users', activity - gone + come, u) == ActivityIn(users, activity, u) - gone + come
    ensures forall v :: v != u ==> ActivityIn(users', activity - gone + come, v) == ActivityIn(users, activity, v)
    ensures Separate(users) ==> Separate(users')
  {
    hide ActivityIn;
    SocketsMoveOthers(users, users', activity, u, gone, come);
    SocketsMoveOwn(users, users', activity, u, gone, come);
  }

  lemma Moved(users: map<UserId, set<SocketId>>, users': map<UserId, set<SocketId>>, activity: map<SocketId, Time>, u: UserId, c: SocketId, now: Time)
    requires NotOthers(users, u, {c})
    requires forall v :: SocketsIn(users', v) == if v == u then SocketsIn(users, u) + {c} else SocketsIn(users, v)
    ensures ActivityIn(users', activity[c := now], u) == ActivityIn(users, activity, u)[c := now]
    ensures forall v :: v != u ==> ActivityIn(users', activity[c := now], v) == ActivityIn(users, activity, v)
    ensures Separate(users) ==> Separate(users')
  {
    assert {} + map[c := now].Keys == {c};
    assert activity[c := now] == activity - {} + map[c := now];
    assert ActivityIn(users, activity, u)[c := now] == ActivityIn(users, activity, u) - {} + map[c := now];
    SocketsMove(users, users', activity, u, {}, map[c := now]);
    hide *;
  }

  lemma SocketsMoveOwn(users: map<UserId, set<SocketId>>, users': map<UserId, set<SocketId>>, activity: map<SocketId, Time>, u: UserId,
                       gone: set<SocketId>, come: map<SocketId, Time>)
    requires SocketsIn(users', u) == SocketsIn(users, u) - gone + come.Keys
    ensures ActivityIn(users', activity - gone + come, u) == ActivityIn(users, activity, u) - gone + come
  {
    hide SocketsIn;
  }

  lemma SocketsMoveOthers(users: map<UserId, set<SocketId>>, users': map<UserId, set<SocketId>>, activity: map<SocketId, Time>, u: UserId,
                          gone: set<SocketId>, come: map<SocketId, Time>)
    requires NotOthers(users, u, gone + come.Keys)
    requires forall v :: v != u ==> SocketsIn(users', v) == SocketsIn(users, v)
    ensures forall v :: v != u ==> ActivityIn(users', activity - gone + come, v) == ActivityIn(users, activity, v)
  {
    forall v | v != u ensures ActivityIn(users', activity - gone + come, v) == ActivityIn(users, activity, v) {
      assert gone + come.Keys !! SocketsIn(users, v);
      SameActivity(users, users', activity, v, gone, come);
    }
    hide *;
  }

  lemma SameActivity(users: map<UserId, set<SocketId>>, users': map<UserId, set<SocketId>>, activity: map<SocketId, Time>, v: UserId,
                     gone: set<SocketId>, come: map<SocketId, Time>)
    requires SocketsIn(users', v) == SocketsIn(users, v) && gone + come.Keys !! SocketsIn(users, v)
    ensures ActivityIn(users', activity - gone + come, v) == ActivityIn(users, activity, v)
  {
    hide SocketsIn;
    forall c | c in SocketsIn(users, v) ensures c !in gone && c !in come {
      assert c in gone + come.Keys ==> false;
    }
  }

  // ------------------------------------------------------------------ the gateway

  class PresenceGateway {
    var userSockets: map<UserId, set<SocketId>>
    var pendingSockets: map<SocketId, PendingConnection>
    var userGenerations: map<UserId, nat>
    var deviceGenerations: map<UserId, map<DeviceId, nat>>
    var offlineTimers: set<UserId>
    var activityTimers: set<UserId>
    var socketActivity: map<SocketId, Time>
    var reconnectEvents: seq<Time>

    constructor ()
      ensures Valid() && forall u :: View(u) == EmptyGateway
      ensures reconnectEvents == []
    {
      userSockets, pendingSockets, userGenerations, deviceGenerations := map[], map[], map[], map[];
      offlineTimers, activityTimers, socketActivity, reconnectEvents := {}, {}, map[], [];
    }

    /** No user is kept with an empty set of sockets, and no socket is two users'. */
    ghost predicate Valid()
      reads this
    {
      && (forall u :: u in userSockets ==> userSockets[u] != {})
      && Separate(userSockets)
    }

    /** What the gateway remembers of one user. */
    ghost function View(u: UserId): Gateway
      reads this
    {
      Gateway(SocketsIn(userSockets, u),
              map c | c in pendingSockets && pendingSockets[c].user == u :: pendingSockets[c].pending,
              if u in userGenerations then userGenerations[u] else 0,
              if u in deviceGenerations then deviceGenerations[u] else map[],
              u in offlineTimers, u in activityTimers,
              ActivityIn(userSockets, socketActivity, u))
    }

    /** A socket belongs to one user for good. */
    ghost predicate Owns(u: UserId, c: SocketId)
      reads this
    {
      OwnsPending(u, c) && NotOthers(userSockets, u, {c})
    }

    ghost predicate OwnsPending(u: UserId, c: SocketId)
      reads this`pendingSockets
    {
      c in pendingSockets ==> pendingSockets[c].user == u
    }

    /** Handlers of one user leave the others alone. */
    twostate predicate OthersUnchanged(u: UserId)
      reads this
    {
      forall v :: v != u ==> View(v) == old(View(v))
    }

    // -------------------------------------------------------------- helpers

    method Sockets(u: UserId) returns (cs: set<SocketId>)
      ensures cs == View(u).sockets
    {
      cs := if u in userSockets then userSockets[u] else {};
    }

    /** sockets.delete and socketActivity.delete, and the user's entry goes with the last socket. */
    method RemoveSockets(u: UserId, gone: set<SocketId>)
      requires Valid() && NotOthers(userSockets, u, gone)
      modifies this`userSockets, this`socketActivity
      ensures Valid() && OthersUnchanged(u)
      ensures forall v :: v != u ==> SocketsIn(userSockets, v) == SocketsIn(old(userSockets), v)
      ensures View(u) == old(View(u)).(sockets := old(View(u)).sockets - gone, activity := old(View(u)).activity - gone)
    {
      ghost var users, activity := userSockets, socketActivity;
      var left := (if u in userSockets then userSockets[u] else {}) - gone;
      userSockets := if left == {} then userSockets - {u} else userSockets[u := left];
      socketActivity := socketActivity - gone;
      ghost var none: map<SocketId, Time> := map[];
      assert socketActivity == activity - gone + none && gone + none.Keys == gone;
      SocketsMove(users, userSockets, activity, u, gone, none);
      assert ActivityIn(users, activity, u) - gone + none == ActivityIn(users, activity, u) - gone;
      hide ActivityIn, Separate, NotOthers;
    }

    /** sockets.add and socketActivity.set. */
    method RegisterSocket(u: UserId, c: SocketId, now: Time)
      requires Valid() && NotOthers(userSockets, u, {c})
      modifies this`userSockets, this`socketActivity
      ensures Valid() && OthersUnchanged(u)
      ensures View(u) == old(View(u)).(sockets := old(View(u)).sockets + {c}, activity := old(View(u)).activity[c := now])
    {
      ghost var users, activity := userSockets, socketActivity;
      userSockets := userSockets[u := (if u in userSockets then userSockets[u] else {}) + {c}];
      socketActivity := socketActivity[c := now];
      Moved(users, userSockets, activity, u, c, now);
      hide ActivityIn, Separate, NotOthers;
    }

    method DropPending(u: UserId, c: SocketId)
      requires OwnsPending(u, c)
      modifies this`pendingSockets
      ensures View(u) == Drop(old(View(u)), {c}) && OthersUnchanged(u)
      ensures pendingSockets == old(pendingSockets) - {c}
    {
      ghost var before := View(u);
      pendingSockets := pendingSockets - {c};
      assert View(u).pending == before.pending - {c};
      forall v | v != u ensures View(v) == old(View(v)) {
        assert View(v).pending == old(View(v)).pending;
      }
    }

    method ClearUserTimers(u: UserId)
      modifies this`offlineTimers, this`activityTimers
      ensures View(u) == ClearTimers(old(View(u))) && OthersUnchanged(u)
    {
      offlineTimers := offlineTimers - {u};
      activityTimers := activityTimers - {u};
    }

    /** scheduleIdleCheck. */
    method ScheduleIdleCheck(u: UserId, tick: Tick)
      modifies this`activityTimers
      ensures View(u) == ScheduleIdle(old(View(u)), tick) && OthersUnchanged(u)
    {
      ghost var g := View(u);
      activityTimers := activityTimers - {u};
      var sockets := Sockets(u);
      var expiring := set c | c in sockets && (if c in socketActivity then socketActivity[c] else 0) + tick.idleMs > tick.now;
      assert forall c :: c in sockets ==> ActiveAt(g, c) == if c in socketActivity then socketActivity[c] else 0;
      if expiring == {} {
        assert forall c :: c in g.sockets ==> c !in expiring;
      } else {
        ghost var c := Member(expiring);
        activityTimers := activityTimers + {u};
      }
    }

    /** [...sockets].some(...) */
    method SomeActive(u: UserId, tick: Tick) returns (any: bool)
      ensures any == AnyActive(View(u), tick)
    {
      var sockets := Sockets(u);
      var rest := sockets;
      while rest != {}
        invariant rest <= sockets
        invariant forall c :: c in sockets - rest ==> tick.now - ActiveAt(View(u), c) >= tick.idleMs
      {
        ghost var some := Member(rest);
        var c :| c in rest;
        if tick.now - (if c in socketActivity then socketActivity[c] else 0) < tick.idleMs { return true; }
        rest := rest - {c};
      }
      return false;
    }

    method CanPromotePending(u: UserId, closed: set<SocketId>, c: SocketId, p: Pending) returns (ok: bool)
      requires Owns(u, c)
      ensures ok == CanPromote(View(u), closed, c, p)
    {
      if c !in pendingSockets || pendingSockets[c].pending != p { return false; }
      if c in closed { return false; }
      if (if u in userGenerations then userGenerations[u] else 0) != p.userGeneration { return false; }
      var device := if u in deviceGenerations && p.device in deviceGenerations[u] then deviceGenerations[u][p.device] else 0;
      return device == p.deviceGeneration;
    }

    // -------------------------------------------------------------- connecting

    /** handleConnection up to the first session check. */
    method HandleConnection(u: UserId, c: SocketId, d: DeviceId) returns (next: Pc)
      requires c !in pendingSockets
      modifies this`pendingSockets
      ensures Out(View(u), {}, Some(next)) == Connect(old(View(u)), c, d) && OthersUnchanged(u)
    {
      ghost var before := View(u);
      var p := Pending(d, if u in userGenerations then userGenerations[u] else 0,
                       if u in deviceGenerations && d in deviceGenerations[u] then deviceGenerations[u][d] else 0);
      pendingSockets := pendingSockets[c := PendingConnection(u, p)];
      assert View(u).pending == before.pending[c := p];
      forall v | v != u ensures View(v) == old(View(v)) {
        assert View(v).pending == old(View(v)).pending;
      }
      return Validating(c, p);
    }

    /** ... from there to the online write. */
    method ConnectionValidated(u: UserId, closed: set<SocketId>, c: SocketId, p: Pending, active: bool, now: Time)
      returns (closes: set<SocketId>, next: Option<Pc>)
      requires Valid() && Owns(u, c)
      modifies this
      ensures Valid() && Out(View(u), closes, next) == Validated(old(View(u)), closed, c, p, active, now) && OthersUnchanged(u)
      ensures reconnectEvents == old(reconnectEvents)
           || (next.Some? && u in old(offlineTimers) && reconnectEvents == Recorded(old(reconnectEvents), now))
    {
      var promote := CanPromotePending(u, closed, c, p);
      if !active || !promote {
        DropPending(u, c);
        return {c}, None;
      }
      if u in offlineTimers {
        offlineTimers := offlineTimers - {u};
        RecordReconnect(now);
      }
      RegisterSocket(u, c, now);
      return {}, Some(Writing(Online, AfterConnect(c, p)));
    }

    /** ... after the online write: back out, or check the session once more. */
    method OnlineLanded(u: UserId, closed: set<SocketId>, c: SocketId, p: Pending) returns (closes: set<SocketId>, next: Option<Pc>)
      requires Valid() && Owns(u, c)
      modifies this
      ensures Valid() && Out(View(u), closes, next) == ConnectLanded(old(View(u)), closed, c, p) && OthersUnchanged(u)
    {
      var promote := CanPromotePending(u, closed, c, p);
      var sockets := Sockets(u);
      if !promote || c !in sockets {
        RemoveSockets(u, {c});
        DropPending(u, c);
        return {c}, Some(Aborting);
      }
      return {}, Some(Revalidating(c, p));
    }

    /** ... after the second session check. */
    method ConnectionRevalidated(u: UserId, closed: set<SocketId>, c: SocketId, p: Pending, active: bool, tick: Tick)
      returns (closes: set<SocketId>, next: Option<Pc>)
      requires Valid() && Owns(u, c)
      modifies this
      ensures Valid() && Out(View(u), closes, next) == Revalidated(old(View(u)), closed, c, p, active, tick) && OthersUnchanged(u)
    {
      var promote := CanPromotePending(u, closed, c, p);
      var sockets := Sockets(u);
      if !active || !promote || c !in sockets {
        RemoveSockets(u, {c});
        DropPending(u, c);
        return {c}, Some(Aborting);
      }
      DropPending(u, c);
      ScheduleIdleCheck(u, tick);
      return {}, None;
    }

    method ReconcileAfterAbort(u: UserId) returns (next: Pc)
      modifies this
      ensures Out(View(u), {}, Some(next)) == Reconcile(old(View(u))) && OthersUnchanged(u)
      ensures userSockets == old(userSockets)
    {
      var sockets := Sockets(u);
      if sockets != {} {
        return Aggregating(if u in userGenerations then userGenerations[u] else 0, true);
      }
      ClearUserTimers(u);
      return Writing(Offline, Nothing);
    }

    /** pruneReconnectEvents and the rest of recordReconnect. */
    method RecordReconnect(now: Time)
      modifies this`reconnectEvents
      ensures reconnectEvents == Recorded(old(reconnectEvents), now)
    {
      var cutoff := now - RECONNECT_WINDOW;
      while |reconnectEvents| > 0 && reconnectEvents[0] < cutoff
        invariant Pruned(reconnectEvents, cutoff) == Pruned(old(reconnectEvents), cutoff)
      {
        reconnectEvents := reconnectEvents[1..];
      }
      reconnectEvents := reconnectEvents + [now];
      if |reconnectEvents| > MAX_RECONNECT_EVENTS {
        reconnectEvents := reconnectEvents[|reconnectEvents| - MAX_RECONNECT_EVENTS..];
      }
    }

    // -------------------------------------------------------------- aggregate presence

    /** The rescheduling that follows publishAggregatePresence. */
    method AfterAggregate(u: UserId, always: bool, tick: Tick)
      modifies this`activityTimers
      ensures View(u) == Reschedule(old(View(u)), always, tick) && OthersUnchanged(u)
    {
      var sockets := Sockets(u);
      if always || sockets != {} {
        ScheduleIdleCheck(u, tick);
      }
    }

    /** The end of revalidateUserSockets, one dead socket after the other. */
    method RevalidateUserSockets(u: UserId, invalid: set<SocketId>, generation: nat, always: bool, tick: Tick)
      returns (closes: set<SocketId>, next: Option<Pc>)
      requires Valid() && NotOthers(userSockets, u, invalid)
      modifies this
      ensures Valid() && OthersUnchanged(u)
      ensures Out(View(u), closes, next) == SocketsRevalidated(old(View(u)), invalid, generation, always, tick)
    {
      ghost var g := View(u);
      var rest := invalid;
      closes := {};
      assert g.sockets - {} == g.sockets && g.activity - {} == g.activity;
      while rest != {}
        invariant Valid() && OthersUnchanged(u) && rest <= invalid && closes == invalid - rest
        invariant NotOthers(userSockets, u, rest)
        invariant View(u) == g.(sockets := g.sockets - closes, activity := g.activity - closes)
      {
        ghost var some := Member(rest);
        var c :| c in rest;
        label one: RemoveSockets(u, {c});
        assert g.activity - closes - {c} == g.activity - (closes + {c});
        closes := closes + {c};
        rest := rest - {c};
        forall v | v != u ensures View(v) == old(View(v)) {
          assert View(v) == old@one(View(v));
        }
      }
      assert closes == invalid;
      var sockets := Sockets(u);
      if sockets != {} {
        return invalid, Some(Aggregated(generation, always));
      }
      if invalid != {} {
        ClearUserTimers(u);
        return invalid, Some(Writing(Offline, AfterRevalidation(always)));
      }
      AfterAggregate(u, always, tick);
      return {}, None;
    }

    method IsPublicationCurrent(u: UserId, generation: nat) returns (ok: bool)
      ensures ok == PublicationCurrent(View(u), generation)
    {
      var sockets := Sockets(u);
      return (if u in userGenerations then userGenerations[u] else 0) == generation && sockets != {};
    }

    /** publishAggregatePresence once its sockets are revalidated. */
    method PublishAggregatePresence(u: UserId, generation: nat, always: bool, tick: Tick) returns (next: Option<Pc>)
      modifies this`activityTimers
      ensures Out(View(u), {}, next) == PublishAggregate(old(View(u)), generation, always, tick) && OthersUnchanged(u)
    {
      var current := IsPublicationCurrent(u, generation);
      if !current {
        AfterAggregate(u, always, tick);
        return None;
      }
      var anyActive := SomeActive(u, tick);
      return Some(Writing(if anyActive then Online else Idle, Presence.AfterAggregate(generation, always)));
    }

    /** reconcilePresencePublication. */
    method ReconcilePublication(u: UserId, generation: nat, always: bool, tick: Tick) returns (next: Option<Pc>)
      modifies this`activityTimers, this`offlineTimers
      ensures Out(View(u), {}, next) == AggregateLanded(old(View(u)), generation, always, tick) && OthersUnchanged(u)
    {
      var current := IsPublicationCurrent(u, generation);
      var sockets := Sockets(u);
      if current || sockets != {} {
        AfterAggregate(u, always, tick);
        return None;
      }
      ClearUserTimers(u);
      return Some(Writing(Offline, AfterRevalidation(always)));
    }

    /** handleActivity, once the client's session is validated. */
    method HandleActivity(u: UserId, c: SocketId, now: Time) returns (next: Option<Pc>)
      requires Valid() && Owns(u, c)
      modifies this`socketActivity
      ensures Valid() && Out(View(u), {}, next) == ActivityReported(old(View(u)), c, now) && OthersUnchanged(u)
    {
      var sockets := Sockets(u);
      if c !in sockets { return None; }
      if now - (if c in socketActivity then socketActivity[c] else 0) < ACTIVITY_INTERVAL { return None; }
      ghost var activity := socketActivity;
      socketActivity := socketActivity[c := now];
      Moved(userSockets, userSockets, activity, u, c, now);
      hide ActivityIn, NotOthers;
      return Some(Aggregating(if u in userGenerations then userGenerations[u] else 0, false));
    }

    // -------------------------------------------------------------- disconnecting

    method HandleDisconnect(u: UserId, c: SocketId, zeroGrace: bool) returns (next: Option<Pc>)
      requires Valid() && Owns(u, c)
      modifies this
      ensures Valid() && Out(View(u), {c}, next) == Disconnected(old(View(u)), c, zeroGrace) && OthersUnchanged(u)
    {
      DropPending(u, c);
      if u !in userSockets { return None; }
      RemoveSockets(u, {c});
      if u in userSockets {
        return Some(Aggregating(if u in userGenerations then userGenerations[u] else 0, true));
      }
      activityTimers := activityTimers - {u};
      if zeroGrace {
        return Some(Writing(Offline, Nothing));
      }
      offlineTimers := offlineTimers + {u};
      return None;
    }

    /** The offline timer of handleDisconnect fires. */
    method OfflineTimer(u: UserId) returns (next: Option<Pc>)
      requires Valid()
      modifies this`offlineTimers
      ensures Out(View(u), {}, next) == OfflineTimerFired(old(View(u))) && OthersUnchanged(u)
    {
      offlineTimers := offlineTimers - {u};
      return if u !in userSockets then Some(Writing(Offline, Nothing)) else None;
    }

    /** Pending connections of a user are dropped, one by one. */
    method DropEach(u: UserId, ids: set<SocketId>)
      requires Valid() && forall c :: c in ids ==> c in pendingSockets && pendingSockets[c].user == u
      modifies this`pendingSockets
      ensures Valid() && View(u) == Drop(old(View(u)), ids) && OthersUnchanged(u)
    {
      ghost var g := View(u);
      var rest := ids;
      assert g.pending - (ids - rest) == g.pending;
      while rest != {}
        invariant Valid() && rest <= ids
        invariant forall c :: c in rest ==> c in pendingSockets && pendingSockets[c].user == u
        invariant View(u) == Drop(g, ids - rest)
        invariant OthersUnchanged(u)
      {
        ghost var some := Member(rest);
        var c :| c in rest;
        assert (g.pending - (ids - rest)) - {c} == g.pending - (ids - (rest - {c}));
        label one: DropPending(u, c);
        rest := rest - {c};
        forall v | v != u ensures View(v) == old(View(v)) {
          assert View(v) == old@one(View(v));
        }
      }
      assert ids - rest == ids;
    }

    /** disconnectUser. */
    method DisconnectUser(u: UserId) returns (closes: set<SocketId>, next: Pc)
      requires Valid()
      modifies this
      ensures Valid() && Out(View(u), closes, Some(next)) == Presence.DisconnectUser(old(View(u))) && OthersUnchanged(u)
    {
      userGenerations := userGenerations[u := (if u in userGenerations then userGenerations[u] else 0) + 1];
      var pendingIds := set c | c in pendingSockets && pendingSockets[c].user == u;
      assert pendingIds == View(u).pending.Keys;
      DropEach(u, pendingIds);
      assert View(u).pending == map[];
      var sockets := Sockets(u);
      ClearUserTimers(u);
      RemoveSockets(u, sockets);
      return pendingIds + sockets, Writing(Offline, Nothing);
    }

    /** bumpDeviceRevocationGeneration. */
    method BumpDevice(u: UserId, d: DeviceId)
      modifies this`deviceGenerations
      ensures View(u) == old(View(u)).(deviceGenerations := old(View(u)).deviceGenerations[d := DeviceGeneration(old(View(u)), d) + 1])
      ensures OthersUnchanged(u)
    {
      var known: map<DeviceId, nat> := if u in deviceGenerations then deviceGenerations[u] else map[];
      known := known[d := (if d in known then known[d] else 0) + 1];
      deviceGenerations := deviceGenerations[u := known];
    }

    /** disconnectDevice; `victims` are the registered sockets of the device. */
    method DisconnectDevice(u: UserId, d: DeviceId, victims: set<SocketId>) returns (closes: set<SocketId>)
      requires Valid()
      modifies this
      ensures Valid() && Out(View(u), closes, None) == Presence.DisconnectDevice(old(View(u)), d, victims) && OthersUnchanged(u)
    {
      ghost var g := View(u);
      BumpDevice(u, d);
      var pendingIds := set c | c in pendingSockets && pendingSockets[c].user == u && pendingSockets[c].pending.device == d;
      assert pendingIds == set c | c in g.pending && g.pending[c].device == d;
      DropEach(u, pendingIds);
      return pendingIds + victims;
    }
  }
}
