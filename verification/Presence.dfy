/** The presence gateway of src/presence/presence.gateway.ts, cut at its `await`s.

    Everything the gateway remembers is kept by user, and no handler touches two users, so the
    gateway is described for one user. Each function below is one uninterrupted stretch of a
    handler: what it does to the gateway, which sockets it closes, and what its task waits for
    next. */
module Presence {
  import opened Common

  type SocketId = int
  type DeviceId = int

  datatype Status = Online | Idle | Offline

  /** PendingSocketConnection: the generations a connection saw when it arrived. */
  datatype Pending = Pending(device: DeviceId, userGeneration: nat, deviceGeneration: nat)

  /** userSockets, pendingSockets, the revocation generations, the two timers and socketActivity of one user.
      No entry in userSockets is the same as an empty one. */
  datatype Gateway = Gateway(
    sockets: set<SocketId>, pending: map<SocketId, Pending>,
    generation: nat, deviceGenerations: map<DeviceId, nat>,
    offlineTimer: bool, idleTimer: bool, activity: map<SocketId, Time>)

  const EmptyGateway := Gateway({}, map[], 0, map[], false, false, map[])

  const ACTIVITY_INTERVAL: int := 15_000

  /** The clock and the configured idle time, in milliseconds. */
  datatype Tick = Tick(now: Time, idleMs: nat)

  /** What follows a presence write. */
  datatype After =
    | AfterConnect(socket: SocketId, pending: Pending)
    | AfterAggregate(generation: nat, always: bool)
    | AfterRevalidation(always: bool)
    | Nothing

  /** Where a task waits. `always`: the idle check is rescheduled even if no socket is left. */
  datatype Pc =
    | Validating(socket: SocketId, pending: Pending)      // isClientSessionActive, on arrival
    | Revalidating(socket: SocketId, pending: Pending)    // isClientSessionActive, after the online write
    | Aborting                                            // before reconcilePresenceAfterAbort
    | Aggregating(generation: nat, always: bool)          // revalidateUserSockets
    | Aggregated(generation: nat, always: bool)           // revalidateUserSockets said yes
    | Writing(status: Status, after: After)               // the write is in flight
    | Landed(after: After)                                // the write has landed, friends are told

  datatype Out = Out(gateway: Gateway, closes: set<SocketId>, next: Option<Pc>)

  // ------------------------------------------------------------------ helpers

  function DeviceGeneration(g: Gateway, d: DeviceId): nat {
    if d in g.deviceGenerations then g.deviceGenerations[d] else 0
  }

  /** canPromotePendingConnection. */
  predicate CanPromote(g: Gateway, closed: set<SocketId>, c: SocketId, p: Pending) {
    && c in g.pending && g.pending[c] == p && c !in closed
    && g.generation == p.userGeneration && DeviceGeneration(g, p.device) == p.deviceGeneration
  }

  function Drop(g: Gateway, cs: set<SocketId>): Gateway { g.(pending := g.pending - cs) }

  function ClearTimers(g: Gateway): Gateway { g.(offlineTimer := false, idleTimer := false) }

  function ActiveAt(g: Gateway, c: SocketId): Time { if c in g.activity then g.activity[c] else 0 }

  predicate AnyActive(g: Gateway, tick: Tick) { exists c :: c in g.sockets && tick.now - ActiveAt(g, c) < tick.idleMs }

  /** scheduleIdleCheck: only while some socket's activity has yet to expire. */
  function ScheduleIdle(g: Gateway, tick: Tick): Gateway {
    g.(idleTimer := exists c :: c in g.sockets && ActiveAt(g, c) + tick.idleMs > tick.now)
  }

  /** What the callers of publishAggregatePresence do afterwards. */
  function Reschedule(g: Gateway, always: bool, tick: Tick): Gateway {
    if always || g.sockets != {} then ScheduleIdle(g, tick) else g
  }

  function PublishOffline(g: Gateway, closes: set<SocketId>, after: After): Out {
    Out(g, closes, Some(Writing(Offline, after)))
  }

  // ------------------------------------------------------------------ connecting

  function Connect(g: Gateway, c: SocketId, d: DeviceId): Out {
    var p := Pending(d, g.generation, DeviceGeneration(g, d));
    Out(g.(pending := g.pending[c := p]), {}, Some(Validating(c, p)))
  }

  function Validated(g: Gateway, closed: set<SocketId>, c: SocketId, p: Pending, active: bool, now: Time): Out {
    if !active || !CanPromote(g, closed, c, p) then Out(Drop(g, {c}), {c}, None)
    else Out(g.(sockets := g.sockets + {c}, offlineTimer := false, activity := g.activity[c := now]), {},
             Some(Writing(Online, AfterConnect(c, p))))
  }

  /** removeRegisteredSocket and dropPendingConnection. */
  function Abort(g: Gateway, c: SocketId): Out {
    Out(Drop(g.(sockets := g.sockets - {c}, activity := g.activity - {c}), {c}), {c}, Some(Aborting))
  }

  predicate StillRegistered(g: Gateway, closed: set<SocketId>, c: SocketId, p: Pending) {
    CanPromote(g, closed, c, p) && c in g.sockets
  }

  function ConnectLanded(g: Gateway, closed: set<SocketId>, c: SocketId, p: Pending): Out {
    if !StillRegistered(g, closed, c, p) then Abort(g, c) else Out(g, {}, Some(Revalidating(c, p)))
  }

  function Revalidated(g: Gateway, closed: set<SocketId>, c: SocketId, p: Pending, active: bool, tick: Tick): Out {
    if !active || !StillRegistered(g, closed, c, p) then Abort(g, c)
    else Out(ScheduleIdle(Drop(g, {c}), tick), {}, None)
  }

  /** reconcilePresenceAfterAbort. */
  function Reconcile(g: Gateway): Out {
    if g.sockets != {} then Out(g, {}, Some(Aggregating(g.generation, true)))
    else PublishOffline(ClearTimers(g), {}, Nothing)
  }

  // ------------------------------------------------------------------ aggregate presence

  function Aggregate(g: Gateway, always: bool): Out { Out(g, {}, Some(Aggregating(g.generation, always))) }

  /** The end of revalidateUserSockets: `invalid` are the sockets whose sessions turned out dead. */
  function SocketsRevalidated(g: Gateway, invalid: set<SocketId>, generation: nat, always: bool, tick: Tick): Out {
    var rest := g.(sockets := g.sockets - invalid, activity := g.activity - invalid);
    if rest.sockets != {} then Out(rest, invalid, Some(Aggregated(generation, always)))
    else if invalid != {} then PublishOffline(ClearTimers(rest), invalid, AfterRevalidation(always))
    else Out(Reschedule(rest, always, tick), {}, None)
  }

  predicate PublicationCurrent(g: Gateway, generation: nat) { g.generation == generation && g.sockets != {} }

  function PublishAggregate(g: Gateway, generation: nat, always: bool, tick: Tick): Out {
    if !PublicationCurrent(g, generation) then Out(Reschedule(g, always, tick), {}, None)
    else Out(g, {}, Some(Writing(if AnyActive(g, tick) then Online else Idle, AfterAggregate(generation, always))))
  }

  /** reconcilePresencePublication. */
  function AggregateLanded(g: Gateway, generation: nat, always: bool, tick: Tick): Out {
    if PublicationCurrent(g, generation) || g.sockets != {} then Out(Reschedule(g, always, tick), {}, None)
    else PublishOffline(ClearTimers(g), {}, AfterRevalidation(always))
  }

  /** handleActivity, once the client's session is validated: at most once in fifteen seconds. */
  function ActivityReported(g: Gateway, c: SocketId, now: Time): Out {
    if c !in g.sockets || now - ActiveAt(g, c) < ACTIVITY_INTERVAL then Out(g, {}, None)
    else Aggregate(g.(activity := g.activity[c := now]), false)
  }

  // ------------------------------------------------------------------ disconnecting

  /** handleDisconnect. */
  function Disconnected(g: Gateway, c: SocketId, zeroGrace: bool): Out {
    var dropped := Drop(g, {c});
    if g.sockets == {} then Out(dropped, {c}, None)
    else
      var rest := dropped.(sockets := g.sockets - {c}, activity := g.activity - {c});
      if rest.sockets != {} then Out(rest, {c}, Some(Aggregating(rest.generation, true)))
      else if zeroGrace then PublishOffline(rest.(idleTimer := false), {c}, Nothing)
      else Out(rest.(idleTimer := false, offlineTimer := true), {c}, None)
  }

  function OfflineTimerFired(g: Gateway): Out {
    var fired := g.(offlineTimer := false);
    if g.sockets == {} then PublishOffline(fired, {}, Nothing) else Out(fired, {}, None)
  }

  function IdleTimerFired(g: Gateway): Out { Aggregate(g.(idleTimer := false), false) }

  function DisconnectUser(g: Gateway): Out {
    var closes := g.pending.Keys + g.sockets;
    PublishOffline(ClearTimers(g.(generation := g.generation + 1, pending := map[], sockets := {}, activity := g.activity - g.sockets)),
                   closes, Nothing)
  }

  /** `victims` are the registered sockets of the device; they stay registered until they are
      disconnected. */
  function DisconnectDevice(g: Gateway, d: DeviceId, victims: set<SocketId>): Out {
    var dropped := set c | c in g.pending && g.pending[c].device == d;
    Out(Drop(g.(deviceGenerations := g.deviceGenerations[d := DeviceGeneration(g, d) + 1]), dropped), dropped + victims, None)
  }
}

/** Any number of handlers of one user, interleaved at every `await`, with presence writes that land
    in any order. */
module PresenceRuns {
  import opened Common
  import opened Presence

  type TaskId = int

  /** What happened so far, for stating properties: sockets that ever arrived and their devices,
      those of them a revocation of the user, or of their device, came after, and those whose
      disconnection was handled. */
  datatype History = History(
    devices: map<SocketId, DeviceId>, userRevoked: set<SocketId>, deviceRevoked: set<SocketId>, handled: set<SocketId>)

  /** The gateway, the connections that are closed, the tasks that wait, and the last presence
      write that landed: Offline if there was none. */
  datatype World = World(gateway: Gateway, closed: set<SocketId>, tasks: map<TaskId, Pc>, last: Status, history: History)

  const Start := World(EmptyGateway, {}, map[], Offline, History(map[], {}, {}, {}))

  /** The events. A new task gets a fresh id `t`, a new connection a fresh socket id; otherwise the
      event does nothing. Session validity, clocks and configuration are the events' arguments.
      A socket the gateway closes is handled by a later Depart; Socket.IO may also call the
      handler on the spot, which amounts to the same plus, at most, one more aggregate task or one
      more offline write: Refresh and StrayOffline start those at any time. */
  datatype Event =
    | Arrive(t: TaskId, socket: SocketId, device: DeviceId)
    | Depart(t: TaskId, socket: SocketId, zeroGrace: bool)
    | Close(socket: SocketId)
    | RevokeUser(t: TaskId)
    | RevokeDevice(t: TaskId, device: DeviceId)
    | OfflineTimer(t: TaskId)
    | IdleTimer(t: TaskId)
    | Refresh(t: TaskId, always: bool)
    | StrayOffline(t: TaskId)
    | Activity(t: TaskId, socket: SocketId, now: Time)
    | Continue(t: TaskId, active: bool, invalid: set<SocketId>, tick: Tick)
    | Fail(t: TaskId)   // the write, or a read after it, throws

  function NewTask(w: World, t: TaskId, out: Out): World {
    w.(gateway := out.gateway, closed := w.closed + out.closes,
       tasks := if out.next.Some? then w.tasks[t := out.next.value] else w.tasks)
  }

  /** A waiting task goes on. */
  function Resume(g: Gateway, closed: set<SocketId>, pc: Pc, e: Event): Out
    requires e.Continue? && !pc.Writing?
  {
    match pc
    case Validating(c, p) => Validated(g, closed, c, p, e.active, e.tick.now)
    case Revalidating(c, p) => Revalidated(g, closed, c, p, e.active, e.tick)
    case Aborting => Reconcile(g)
    case Aggregating(n, always) => SocketsRevalidated(g, e.invalid, n, always, e.tick)
    case Aggregated(n, always) => PublishAggregate(g, n, always, e.tick)
    case Landed(AfterConnect(c, p)) => ConnectLanded(g, closed, c, p)
    case Landed(AfterAggregate(n, always)) => AggregateLanded(g, n, always, e.tick)
    case Landed(AfterRevalidation(always)) => Out(Reschedule(g, always, e.tick), {}, None)
    case Landed(Nothing) => Out(g, {}, None)
  }

  /** The sockets of a device. */
  function SocketsOf(h: History, d: DeviceId): set<SocketId> { set c | c in h.devices && h.devices[c] == d }

  predicate Starts(e: Event) { !e.Close? && !e.Continue? && !e.Fail? }

  /** The stretch that an event starts. */
  function Started(g: Gateway, h: History, e: Event): Out
    requires Starts(e)
  {
    match e
    case Arrive(_, c, d) => Connect(g, c, d)
    case Depart(_, c, zeroGrace) => Disconnected(g, c, zeroGrace)
    case RevokeUser(_) => DisconnectUser(g)
    case RevokeDevice(_, d) => DisconnectDevice(g, d, SocketsOf(h, d) * g.sockets)
    case OfflineTimer(_) => OfflineTimerFired(g)
    case IdleTimer(_) => IdleTimerFired(g)
    case Refresh(_, always) => Aggregate(g, always)
    case StrayOffline(_) => PublishOffline(g, {}, Nothing)
    case Activity(_, c, now) => ActivityReported(g, c, now)
  }

  predicate Enabled(w: World, e: Event) {
    match e
    case Close(_) => true
    case Continue(t, _, _, _) => t in w.tasks
    case Fail(t) => t in w.tasks && (w.tasks[t].Writing? || w.tasks[t].Landed?)
    case Arrive(t, c, _) => t !in w.tasks && c !in w.history.devices
    case Depart(t, c, _) => t !in w.tasks && c in w.history.devices
    case OfflineTimer(t) => t !in w.tasks && w.gateway.offlineTimer
    case IdleTimer(t) => t !in w.tasks && w.gateway.idleTimer
    case _ => e.t !in w.tasks
  }

  function Recorded(h: History, e: Event): History {
    match e
    case Arrive(_, c, d) => h.(devices := h.devices[c := d])
    case Depart(_, c, _) => h.(handled := h.handled + {c})
    case RevokeUser(_) => h.(userRevoked := h.devices.Keys)
    case RevokeDevice(_, d) => h.(deviceRevoked := h.deviceRevoked + SocketsOf(h, d))
    case _ => h
  }

  function Step(w: World, e: Event): World {
    if !Enabled(w, e) then w
    else if e.Close? then w.(closed := w.closed + {e.socket})
    else if e.Fail? then w.(tasks := w.tasks - {e.t})
    else if !e.Continue? then NewTask(w, e.t, Started(w.gateway, w.history, e)).(history := Recorded(w.history, e))
    else if w.tasks[e.t].Writing? then
      w.(last := w.tasks[e.t].status, tasks := w.tasks[e.t := Landed(w.tasks[e.t].after)])
    else NewTask(w.(tasks := w.tasks - {e.t}), e.t, Resume(w.gateway, w.closed, w.tasks[e.t], e))
  }

  function Run(w: World, events: seq<Event>): World
    decreases |events|
  {
    if events == [] then w else Run(Step(w, events[0]), events[1..])
  }

  // ------------------------------------------------------------------ the invariant

  /** A task that is sure to publish offline, or is doing so, if no socket is left when it goes on:
      an offline write in flight, an aborted connection, or a task that still has to check after
      its online or idle write has landed. */
  ghost predicate Repairs(pc: Pc) {
    match pc
    case Writing(status, _) => status == Offline
    case Landed(after) => after.AfterConnect? || after.AfterAggregate?
    case Revalidating(_, _) => true
    case Aborting => true
    case _ => false
  }

  ghost predicate SomeRepair(w: World) { exists t :: t in w.tasks && Repairs(w.tasks[t]) }

  ghost predicate SomeAbort(w: World) { exists t :: t in w.tasks && w.tasks[t].Aborting? }

  /** Exactly the online and idle writes are followed by a check. */
  ghost predicate WriteOk(pc: Pc) {
    pc.Writing? ==> (pc.status != Offline <==> pc.after.AfterConnect? || pc.after.AfterAggregate?)
  }

  /** A user without sockets and offline timer is shown offline, or some task is bound to publish it. */
  ghost predicate Covered(w: World) {
    w.last != Offline && w.gateway.sockets == {} && !w.gateway.offlineTimer ==> SomeRepair(w)
  }

  ghost predicate CoveredWithout(w: World, t: TaskId) { Covered(w.(tasks := w.tasks - {t})) }

  ghost predicate PublicationOk(w: World) {
    && (forall t :: t in w.tasks ==> WriteOk(w.tasks[t]))
    && Covered(w)
  }

  ghost predicate TimersOk(w: World) {
    && (w.gateway.sockets != {} ==> !w.gateway.offlineTimer)
    && (w.gateway.sockets == {} && w.gateway.idleTimer ==> SomeAbort(w))
  }

  /** A connection on its way in: it arrived, and if its user or device was revoked since, it
      carries an old generation. */
  ghost predicate ArrivalOk(w: World, c: SocketId, p: Pending) {
    && c in w.history.devices && w.history.devices[c] == p.device
    && p.userGeneration <= w.gateway.generation && p.deviceGeneration <= DeviceGeneration(w.gateway, p.device)
    && (c in w.history.userRevoked ==> p.userGeneration < w.gateway.generation)
    && (c in w.history.deviceRevoked ==> p.deviceGeneration < DeviceGeneration(w.gateway, p.device))
  }

  ghost predicate TaskArrivalOk(w: World, pc: Pc) {
    match pc
    case Validating(c, p) => ArrivalOk(w, c, p)
    case Revalidating(c, p) => ArrivalOk(w, c, p)
    case Writing(_, AfterConnect(c, p)) => ArrivalOk(w, c, p)
    case Landed(AfterConnect(c, p)) => ArrivalOk(w, c, p)
    case _ => true
  }

  /** A registered socket arrived after the last revocation of its user, was not yet handled as
      disconnected, and if its device was revoked it is already closed. */
  ghost predicate RegisteredOk(w: World, c: SocketId) {
    && c in w.history.devices && c !in w.history.userRevoked && c !in w.history.handled
    && (c in w.history.deviceRevoked ==> c in w.closed)
  }

  ghost predicate RevocationOk(w: World) {
    && (forall t :: t in w.tasks ==> TaskArrivalOk(w, w.tasks[t]))
    && (forall c :: c in w.gateway.sockets ==> RegisteredOk(w, c))
    && w.history.userRevoked <= w.history.devices.Keys && w.history.deviceRevoked <= w.history.devices.Keys
    && w.history.handled <= w.closed
  }

  /** The connection a task is bringing in. */
  function Incoming(pc: Pc): Option<SocketId> {
    match pc
    case Validating(c, _) => Some(c)
    case Revalidating(c, _) => Some(c)
    case Writing(_, AfterConnect(c, _)) => Some(c)
    case Landed(AfterConnect(c, _)) => Some(c)
    case _ => None
  }

  /** Each connection is brought in by one task. */
  ghost predicate OneTaskEach(w: World) {
    forall s, t :: s in w.tasks && t in w.tasks && Incoming(w.tasks[s]).Some? && Incoming(w.tasks[s]) == Incoming(w.tasks[t]) ==> s == t
  }

  ghost predicate WorldOk(w: World) { PublicationOk(w) && TimersOk(w) && RevocationOk(w) && OneTaskEach(w) }

  /** A failure is harmless if it strikes no task that owes a repair, or if the user is covered without
      it: a socket or the offline timer is left, offline landed last, or another repair is at work. */
  ghost predicate Harmless(w: World, e: Event) {
    e.Fail? && e.t in w.tasks ==> !Repairs(w.tasks[e.t]) || CoveredWithout(w, e.t)
  }

  ghost predicate HarmlessRun(w: World, events: seq<Event>)
    decreases |events|
  {
    events != [] ==> Harmless(w, events[0]) && HarmlessRun(Step(w, events[0]), events[1..])
  }

  // ------------------------------------------------------------------ one task more, one task less

  /** A stretch that leaves no socket and no offline timer leaves a repair behind, unless there was
      neither before and it did not use up a repair. */
  ghost predicate Safe(g: Gateway, repair: bool, out: Out) {
    && (out.next.Some? ==> WriteOk(out.next.value))
    && (out.gateway.sockets == {} && !out.gateway.offlineTimer ==>
          (out.next.Some? && Repairs(out.next.value)) || (!repair && g.sockets == {} && !g.offlineTimer))
  }

  /** The same for timers: an idle timer without sockets waits for an aborted connection. */
  ghost predicate SafeTimers(g: Gateway, abort: bool, out: Out) {
    && (out.gateway.sockets != {} && out.gateway.offlineTimer ==> g.sockets != {} && g.offlineTimer)
    && (out.gateway.sockets == {} && out.gateway.idleTimer ==>
          (out.next.Some? && out.next.value.Aborting?) || (!abort && g.sockets == {} && g.idleTimer))
  }

  lemma NewTaskPublication(w: World, t: TaskId, out: Out)
    requires PublicationOk(w) && Safe(w.gateway, false, out) && (out.next.None? || t !in w.tasks)
    ensures PublicationOk(NewTask(w, t, out))
  {
    hide Repairs, WriteOk;
    var w' := NewTask(w, t, out);
    if SomeRepair(w) {
      var q :| q in w.tasks && Repairs(w.tasks[q]);
      assert q in w'.tasks && w'.tasks[q] == w.tasks[q];
    }
    if out.next.Some? {
      assert w'.tasks[t] == out.next.value;
    }
  }

  lemma NewTaskTimers(w: World, t: TaskId, out: Out)
    requires TimersOk(w) && SafeTimers(w.gateway, false, out) && (out.next.None? || t !in w.tasks)
    ensures TimersOk(NewTask(w, t, out))
  {
    var w' := NewTask(w, t, out);
    if SomeAbort(w) {
      var q :| q in w.tasks && w.tasks[q].Aborting?;
      assert q in w'.tasks && w'.tasks[q] == w.tasks[q];
    }
    if out.next.Some? {
      assert w'.tasks[t] == out.next.value;
    }
  }

  lemma ResumedPublication(w: World, t: TaskId, out: Out)
    requires PublicationOk(w) && t in w.tasks && Safe(w.gateway, Repairs(w.tasks[t]), out)
    ensures PublicationOk(NewTask(w.(tasks := w.tasks - {t}), t, out))
  {
    hide Repairs, WriteOk;
    var w' := NewTask(w.(tasks := w.tasks - {t}), t, out);
    if !Repairs(w.tasks[t]) && SomeRepair(w) {
      var q :| q in w.tasks && Repairs(w.tasks[q]);
      assert q in w'.tasks && w'.tasks[q] == w.tasks[q];
    }
    if out.next.Some? {
      assert w'.tasks[t] == out.next.value;
    }
  }

  lemma ResumedTimers(w: World, t: TaskId, out: Out)
    requires TimersOk(w) && t in w.tasks && SafeTimers(w.gateway, w.tasks[t].Aborting?, out)
    ensures TimersOk(NewTask(w.(tasks := w.tasks - {t}), t, out))
  {
    var w' := NewTask(w.(tasks := w.tasks - {t}), t, out);
    if !w.tasks[t].Aborting? && SomeAbort(w) {
      var q :| q in w.tasks && w.tasks[q].Aborting?;
      assert q in w'.tasks && w'.tasks[q] == w.tasks[q];
    }
    if out.next.Some? {
      assert w'.tasks[t] == out.next.value;
    }
  }

  // ------------------------------------------------------------------ every stretch is safe

  lemma ResumeSafe(g: Gateway, closed: set<SocketId>, pc: Pc, e: Event)
    requires e.Continue? && !pc.Writing?
    ensures Safe(g, Repairs(pc), Resume(g, closed, pc, e))
    ensures SafeTimers(g, pc.Aborting?, Resume(g, closed, pc, e))
  {
  }

  lemma StartedSafe(w: World, e: Event)
    requires Enabled(w, e) && Starts(e) && TimersOk(w)
    ensures Safe(w.gateway, false, Started(w.gateway, w.history, e))
    ensures SafeTimers(w.gateway, false, Started(w.gateway, w.history, e))
  {
  }

  /** A write lands: an online or idle one is checked next, an offline one needs no check. */
  lemma LandingKeeps(w: World, t: TaskId)
    requires PublicationOk(w) && TimersOk(w) && t in w.tasks && w.tasks[t].Writing?
    ensures var w' := w.(last := w.tasks[t].status, tasks := w.tasks[t := Landed(w.tasks[t].after)]);
            PublicationOk(w') && TimersOk(w')
  {
    var w' := w.(last := w.tasks[t].status, tasks := w.tasks[t := Landed(w.tasks[t].after)]);
    assert WriteOk(w.tasks[t]);
    assert w'.tasks[t] == Landed(w.tasks[t].after);
    if SomeAbort(w) {
      var q :| q in w.tasks && w.tasks[q].Aborting?;
      assert w'.tasks[q] == w.tasks[q];
    }
  }

  /** The properties of publication and timers do not look at the history or at closed sockets. */
  lemma HistoryFrame(w: World, h: History, closed: set<SocketId>)
    requires PublicationOk(w) && TimersOk(w)
    ensures PublicationOk(w.(history := h, closed := closed)) && TimersOk(w.(history := h, closed := closed))
  {
    var w' := w.(history := h, closed := closed);
    if SomeRepair(w) {
      var q :| q in w.tasks && Repairs(w.tasks[q]);
      assert q in w'.tasks && Repairs(w'.tasks[q]);
    }
    if SomeAbort(w) {
      var q :| q in w.tasks && w.tasks[q].Aborting?;
      assert q in w'.tasks && w'.tasks[q].Aborting?;
    }
  }

  /** A task that owes nothing, or not alone, fails. */
  lemma FailureKeeps(w: World, t: TaskId)
    requires PublicationOk(w) && TimersOk(w) && Enabled(w, Fail(t))
    requires !Repairs(w.tasks[t]) || CoveredWithout(w, t)
    ensures PublicationOk(w.(tasks := w.tasks - {t})) && TimersOk(w.(tasks := w.tasks - {t}))
  {
    var w' := w.(tasks := w.tasks - {t});
    if SomeRepair(w) && !Repairs(w.tasks[t]) {
      var q :| q in w.tasks && Repairs(w.tasks[q]);
      assert q in w'.tasks && w'.tasks[q] == w.tasks[q];
    }
    if SomeAbort(w) {
      var q :| q in w.tasks && w.tasks[q].Aborting?;
      assert q in w'.tasks && w'.tasks[q] == w.tasks[q];
    }
  }

  lemma StepPublication(w: World, e: Event)
    requires PublicationOk(w) && TimersOk(w) && Harmless(w, e)
    ensures PublicationOk(Step(w, e)) && TimersOk(Step(w, e))
  {
    if Enabled(w, e) {
      if e.Close? {
        HistoryFrame(w, w.history, w.closed + {e.socket});
      } else if e.Fail? {
        FailureKeeps(w, e.t);
      } else if !e.Continue? {
        var out := Started(w.gateway, w.history, e);
        StartedSafe(w, e);
        NewTaskPublication(w, e.t, out);
        NewTaskTimers(w, e.t, out);
        HistoryFrame(NewTask(w, e.t, out), Recorded(w.history, e), NewTask(w, e.t, out).closed);
      } else if w.tasks[e.t].Writing? {
        LandingKeeps(w, e.t);
      } else {
        ResumeSafe(w.gateway, w.closed, w.tasks[e.t], e);
        ResumedPublication(w, e.t, Resume(w.gateway, w.closed, w.tasks[e.t], e));
        ResumedTimers(w, e.t, Resume(w.gateway, w.closed, w.tasks[e.t], e));
      }
    }
    hide *;
  }

  // ------------------------------------------------------------------ revocation

  /** Generations only grow, and sockets enter only by promotion. */
  ghost predicate Grows(w: World, g: Gateway) {
    && w.gateway.generation <= g.generation
    && (forall d :: DeviceGeneration(w.gateway, d) <= DeviceGeneration(g, d))
  }

  /** Revocation properties survive a stretch that grows generations, records nothing, and
      registers only sockets that are fine. */
  lemma RevocationFrame(w: World, w': World)
    requires RevocationOk(w) && w'.history == w.history && w.closed <= w'.closed && Grows(w, w'.gateway)
    requires forall t :: t in w'.tasks ==>
      (t in w.tasks && w'.tasks[t] == w.tasks[t]) || TaskArrivalOk(w, w'.tasks[t])
    requires forall c :: c in w'.gateway.sockets ==> c in w.gateway.sockets || RegisteredOk(w, c)
    ensures RevocationOk(w')
  {
    forall t | t in w'.tasks ensures TaskArrivalOk(w', w'.tasks[t]) {
      assert TaskArrivalOk(w, w'.tasks[t]);
    }
    forall c | c in w'.gateway.sockets ensures RegisteredOk(w', c) {
      assert RegisteredOk(w, c);
    }
  }

  lemma ResumeArrival(w: World, t: TaskId, e: Event)
    requires RevocationOk(w) && e.Continue? && t in w.tasks && !w.tasks[t].Writing?
    ensures var out := Resume(w.gateway, w.closed, w.tasks[t], e);
            && Grows(w, out.gateway)
            && (out.next.Some? ==> TaskArrivalOk(w, out.next.value))
            && (forall c :: c in out.gateway.sockets ==> c in w.gateway.sockets || RegisteredOk(w, c))
  {
    assert TaskArrivalOk(w, w.tasks[t]);
  }

  lemma ArriveRevocation(w: World, e: Event)
    requires RevocationOk(w) && e.Arrive? && Enabled(w, e)
    ensures RevocationOk(Step(w, e))
  {
    var w' := Step(w, e);
    forall t | t in w'.tasks ensures TaskArrivalOk(w', w'.tasks[t]) {
      if t != e.t { assert TaskArrivalOk(w, w.tasks[t]); }
    }
    forall c | c in w'.gateway.sockets ensures RegisteredOk(w', c) {
      assert RegisteredOk(w, c);
    }
  }

  /** handleDisconnect only takes the socket out. */
  lemma DisconnectedOut(g: Gateway, c: SocketId, zeroGrace: bool)
    ensures var out := Disconnected(g, c, zeroGrace);
            && out.gateway.sockets == g.sockets - {c} && out.closes == {c}
            && out.gateway.generation == g.generation && out.gateway.deviceGenerations == g.deviceGenerations
            && (out.next.Some? ==> out.next.value.Aggregating? || out.next.value == Writing(Offline, Nothing))
  {
  }

  lemma DepartRevocation(w: World, e: Event)
    requires RevocationOk(w) && e.Depart? && Enabled(w, e)
    ensures RevocationOk(Step(w, e))
  {
    hide Disconnected;
    DisconnectedOut(w.gateway, e.socket, e.zeroGrace);
    var w' := Step(w, e);
    forall t | t in w'.tasks ensures TaskArrivalOk(w', w'.tasks[t]) {
      if t != e.t { assert TaskArrivalOk(w, w.tasks[t]); }
    }
    forall c | c in w'.gateway.sockets ensures RegisteredOk(w', c) {
      assert RegisteredOk(w, c);
    }
  }

  lemma RevokeRevocation(w: World, e: Event)
    requires RevocationOk(w) && (e.RevokeUser? || e.RevokeDevice?) && Enabled(w, e)
    ensures RevocationOk(Step(w, e))
  {
    var w' := Step(w, e);
    forall t | t in w'.tasks ensures TaskArrivalOk(w', w'.tasks[t]) {
      if t in w.tasks { assert TaskArrivalOk(w, w.tasks[t]); }
    }
    forall c | c in w'.gateway.sockets ensures RegisteredOk(w', c) {
      assert RegisteredOk(w, c);
    }
  }

  lemma StepRevocation(w: World, e: Event)
    requires RevocationOk(w)
    ensures RevocationOk(Step(w, e))
  {
    if Enabled(w, e) {
      if e.Arrive? {
        ArriveRevocation(w, e);
      } else if e.Depart? {
        DepartRevocation(w, e);
      } else if e.RevokeUser? || e.RevokeDevice? {
        RevokeRevocation(w, e);
      } else {
        if e.Continue? && w.tasks[e.t].Writing? {
          assert TaskArrivalOk(w, w.tasks[e.t]);
        } else if e.Continue? {
          ResumeArrival(w, e.t, e);
        }
        RevocationFrame(w, Step(w, e));
      }
    }
    hide RevocationOk;
  }

  // ------------------------------------------------------------------ one task per connection

  lemma ResumeIncoming(g: Gateway, closed: set<SocketId>, pc: Pc, e: Event)
    requires e.Continue? && !pc.Writing?
    ensures var next := Resume(g, closed, pc, e).next;
            next.Some? && Incoming(next.value).Some? ==> Incoming(next.value) == Incoming(pc)
  {
    hide CanPromote, StillRegistered, PublicationCurrent;
  }

  lemma StartedIncoming(g: Gateway, h: History, e: Event)
    requires Starts(e)
    ensures var next := Started(g, h, e).next;
            next.Some? && Incoming(next.value).Some? ==> e.Arrive? && Incoming(next.value) == Some(e.socket)
  {
  }

  lemma IncomingArrived(w: World, t: TaskId)
    requires RevocationOk(w) && t in w.tasks && Incoming(w.tasks[t]).Some?
    ensures Incoming(w.tasks[t]).value in w.history.devices
  {
    assert TaskArrivalOk(w, w.tasks[t]);
  }

  lemma StepOneTask(w: World, e: Event)
    requires RevocationOk(w) && OneTaskEach(w)
    ensures OneTaskEach(Step(w, e))
  {
    hide RevocationOk, Resume, Started, Recorded;
    var w' := Step(w, e);
    if Enabled(w, e) && Starts(e) {
      StartedIncoming(w.gateway, w.history, e);
      forall t | t in w.tasks && Incoming(w.tasks[t]).Some? ensures Incoming(w.tasks[t]).value in w.history.devices {
        IncomingArrived(w, t);
      }
    } else if Enabled(w, e) && e.Continue? && !w.tasks[e.t].Writing? {
      ResumeIncoming(w.gateway, w.closed, w.tasks[e.t], e);
    }
    forall t | t in w'.tasks && Incoming(w'.tasks[t]).Some?
      ensures (t in w.tasks && Incoming(w.tasks[t]) == Incoming(w'.tasks[t]))
           || (e.Arrive? && Enabled(w, e) && t == e.t && Incoming(w'.tasks[t]) == Some(e.socket))
    {
    }
  }

  // ------------------------------------------------------------------ every run

  lemma StepKeeps(w: World, e: Event)
    requires WorldOk(w) && Harmless(w, e)
    ensures WorldOk(Step(w, e))
  {
    hide PublicationOk, TimersOk, RevocationOk, OneTaskEach, Step, Repairs;
    StepPublication(w, e);
    StepRevocation(w, e);
    StepOneTask(w, e);
  }

  lemma {:induction false} RunKeeps(w: World, events: seq<Event>)
    requires WorldOk(w) && HarmlessRun(w, events)
    ensures WorldOk(Run(w, events))
    decreases |events|
  {
    hide WorldOk, Step, Harmless;
    if events != [] {
      StepKeeps(w, events[0]);
      RunKeeps(Step(w, events[0]), events[1..]);
    }
  }

  /** Whatever the interleaving, in whatever order presence writes land, and whatever fails without harm:
      when a user has no registered socket, no offline timer and no task at work, the last
      write that landed said offline, or there was none; and no idle timer is left behind. */
  lemma QuietMeansOffline(events: seq<Event>)
    requires HarmlessRun(Start, events)
    ensures var w := Run(Start, events);
            w.gateway.sockets == {} && !w.gateway.offlineTimer && w.tasks == map[] ==>
              w.last == Offline && !w.gateway.idleTimer
  {
    RunKeeps(Start, events);
    hide Run, RevocationOk, OneTaskEach;
  }

  /** A socket whose disconnection was handled is not registered: once all are, none is. */
  lemma DepartedMeansEmpty(w: World)
    requires WorldOk(w)
    ensures w.gateway.sockets !! w.history.handled
    ensures w.history.devices.Keys <= w.history.handled ==> w.gateway.sockets == {}
  {
    hide PublicationOk, TimersOk;
    forall c | c in w.gateway.sockets ensures c !in w.history.handled && c in w.history.devices {
      assert RegisteredOk(w, c);
    }
  }

  /** Every registered socket arrived after its user's last revocation; one whose device was revoked
      since is closed already; and registered sockets never coexist with an offline timer. */
  lemma RegisteredAreCurrent(w: World)
    requires WorldOk(w)
    ensures w.gateway.sockets !! w.history.userRevoked
    ensures w.gateway.sockets * w.history.deviceRevoked <= w.closed
    ensures w.gateway.sockets != {} ==> !w.gateway.offlineTimer
  {
    hide PublicationOk;
    forall c | c in w.gateway.sockets ensures c !in w.history.userRevoked && (c in w.history.deviceRevoked ==> c in w.closed) {
      assert RegisteredOk(w, c);
    }
  }

  /** Only the promotion of an arriving connection registers a socket. */
  lemma ResumeRegisters(g: Gateway, closed: set<SocketId>, pc: Pc, e: Event, c: SocketId)
    requires e.Continue? && !pc.Writing? && c !in g.sockets && c in Resume(g, closed, pc, e).gateway.sockets
    ensures pc.Validating? && pc.socket == c && CanPromote(g, closed, c, pc.pending)
  {
    hide CanPromote, StillRegistered, PublicationCurrent;
  }

  lemma StartedRegisters(g: Gateway, h: History, e: Event)
    requires Starts(e)
    ensures Started(g, h, e).gateway.sockets <= g.sockets
  {
  }

  /** No connection is promoted once its user or its device was revoked after it arrived, or once
      it is closed. */
  lemma NoPromotionAfterRevocation(w: World, e: Event, c: SocketId)
    requires WorldOk(w) && c !in w.gateway.sockets && c in Step(w, e).gateway.sockets
    ensures c !in w.history.userRevoked && c !in w.history.deviceRevoked && c !in w.closed
  {
    hide PublicationOk, TimersOk, Resume, Started, Recorded;
    if Starts(e) {
      StartedRegisters(w.gateway, w.history, e);
    } else if e.Continue? && e.t in w.tasks && !w.tasks[e.t].Writing? {
      ResumeRegisters(w.gateway, w.closed, w.tasks[e.t], e, c);
      assert TaskArrivalOk(w, w.tasks[e.t]);
    }
  }
}
