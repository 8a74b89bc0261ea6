/** Effect by effect, what any step of any handler does: which event registers a socket or loses one, sets the
    offline timer or clears it, starts an offline write or an aggregate, and closes connections. */
module PresenceAnswers {
  import opened Common
  import opened Presence
  import opened PresenceRuns

  /** The task an event lets go on. */
  ghost predicate Goes(w: World, e: Event) { e.Continue? && e.t in w.tasks }

  /** A pending connection is as it was when it arrived: nothing of its user or device was revoked since, and
      the client is still there. */
  ghost predicate Unrevoked(w: World, c: SocketId, p: Pending) {
    && c in w.gateway.pending && w.gateway.pending[c] == p && c !in w.closed
    && w.gateway.generation == p.userGeneration
    && (if p.device in w.gateway.deviceGenerations then w.gateway.deviceGenerations[p.device] else 0) == p.deviceGeneration
  }

  /** The event is the validation of a connection that may still be promoted. */
  ghost predicate Promotes(w: World, e: Event, c: SocketId) {
    Goes(w, e) && w.tasks[e.t].Validating? && w.tasks[e.t].socket == c && e.active && Unrevoked(w, c, w.tasks[e.t].pending)
  }

  /** The event finds, after the online write or after the second validation, that a connection has to go. */
  ghost predicate BacksOut(w: World, e: Event, c: SocketId) {
    && Goes(w, e)
    && match w.tasks[e.t]
       case Landed(AfterConnect(d, p)) => c == d && !(c in w.gateway.sockets && Unrevoked(w, c, p))
       case Revalidating(d, p) => c == d && !(e.active && c in w.gateway.sockets && Unrevoked(w, c, p))
       case _ => false
  }

  /** The event finds the session of a registered socket dead. */
  ghost predicate Dies(w: World, e: Event, c: SocketId) { Goes(w, e) && w.tasks[e.t].Aggregating? && c in e.invalid }

  /** A socket is registered exactly by its promotion, and lost exactly by its disconnection, a revocation of its
      user, a dead session, or its connection backing out. */
  lemma RegistersExactly(w: World, e: Event, c: SocketId)
    ensures c in Step(w, e).gateway.sockets <==>
              || Promotes(w, e, c)
              || (c in w.gateway.sockets
                  && !(Enabled(w, e) && (e.RevokeUser? || (e.Depart? && e.socket == c))) && !Dies(w, e, c) && !BacksOut(w, e, c))
  {
    if Goes(w, e) && !w.tasks[e.t].Writing? {
      ResumedRegisters(w, e, c);
    } else if Starts(e) {
      StartedRegisters(w, e, c);
    }
    hide Resume, Started, Unrevoked;
  }

  lemma ResumedRegisters(w: World, e: Event, c: SocketId)
    requires Goes(w, e) && !w.tasks[e.t].Writing?
    ensures c in Resume(w.gateway, w.closed, w.tasks[e.t], e).gateway.sockets
       <==> Promotes(w, e, c) || (c in w.gateway.sockets && !Dies(w, e, c) && !BacksOut(w, e, c))
  {
    StillThere(w, e);
    hide CanPromote, Unrevoked, AnyActive, ScheduleIdle;
  }

  lemma StartedRegisters(w: World, e: Event, c: SocketId)
    requires Starts(e)
    ensures c in Started(w.gateway, w.history, e).gateway.sockets
       <==> c in w.gateway.sockets && !e.RevokeUser? && !(e.Depart? && e.socket == c)
  {
  }

  lemma StillThere(w: World, e: Event)
    ensures forall c, p :: CanPromote(w.gateway, w.closed, c, p) <==> Unrevoked(w, c, p)
    ensures forall g, tick :: IdleOnly(g, ScheduleIdle(g, tick))
    ensures e.Depart? ==> (w.gateway.sockets - {e.socket} == {} <==> w.gateway.sockets <= {e.socket})
    ensures e.Continue? ==> (w.gateway.sockets - e.invalid == {} <==> w.gateway.sockets <= e.invalid)
  {
    if e.Depart? {
      Leftover(w.gateway.sockets, {e.socket});
    }
    if e.Continue? {
      Leftover(w.gateway.sockets, e.invalid);
    }
  }

  lemma Leftover(a: set<SocketId>, b: set<SocketId>)
    ensures a - b == {} <==> a <= b
  {
    forall c | c in a ensures c in b || c in a - b {
    }
  }

  /** Scheduling the idle check only sets its timer. */
  ghost predicate IdleOnly(g: Gateway, g': Gateway) {
    && g'.sockets == g.sockets && g'.pending == g.pending && g'.generation == g.generation
    && g'.deviceGenerations == g.deviceGenerations && g'.offlineTimer == g.offlineTimer && g'.activity == g.activity
  }

  /** Exactly the last registered socket is leaving. */
  ghost predicate LastLeaves(w: World, e: Event) {
    Enabled(w, e) && e.Depart? && w.gateway.sockets != {} && w.gateway.sockets <= {e.socket}
  }

  /** The event finds nobody left: after an abort, after the dead sessions, or after an aggregate landed. */
  ghost predicate FindsNobody(w: World, e: Event) {
    && Goes(w, e)
    && match w.tasks[e.t]
       case Aborting => w.gateway.sockets == {}
       case Aggregating(_, _) => e.invalid != {} && w.gateway.sockets <= e.invalid
       case Landed(AfterAggregate(_, _)) => w.gateway.sockets == {}
       case _ => false
  }

  /** An offline write starts exactly when the last socket leaves without a grace period, the grace period is
      over and no socket came back, the user is revoked, or a task finds nobody left. */
  lemma OfflineExactly(w: World, e: Event)
    requires Enabled(w, e) && !e.Close? && !e.Fail? && (e.Continue? ==> !w.tasks[e.t].Writing?)
    ensures e.t in Step(w, e).tasks && Step(w, e).tasks[e.t].Writing? && Step(w, e).tasks[e.t].status == Offline <==>
              || (LastLeaves(w, e) && e.zeroGrace) || (e.OfflineTimer? && w.gateway.sockets == {})
              || e.RevokeUser? || e.StrayOffline? || FindsNobody(w, e)
  {
    StillThere(w, e);
    hide CanPromote, Unrevoked, AnyActive, ScheduleIdle;
  }

  /** The offline timer runs exactly from a last socket that leaves with a grace period to the timer's end, the
      next promotion, a revocation of the user, or a task that finds nobody left. */
  lemma GraceExactly(w: World, e: Event)
    ensures Step(w, e).gateway.offlineTimer <==>
              || (LastLeaves(w, e) && !e.zeroGrace)
              || (w.gateway.offlineTimer && !(Enabled(w, e) && (e.OfflineTimer? || e.RevokeUser?))
                  && !FindsNobody(w, e) && forall c :: !Promotes(w, e, c))
  {
    StillThere(w, e);
    hide CanPromote, Unrevoked, AnyActive, ScheduleIdle;
    if Goes(w, e) && w.tasks[e.t].Validating? {
      assert Promotes(w, e, w.tasks[e.t].socket) || !e.active || !Unrevoked(w, w.tasks[e.t].socket, w.tasks[e.t].pending);
    }
  }

  /** An aggregate starts exactly when a socket leaves others behind, the idle check is due, a report of activity
      counts, an abort leaves sockets, or the session check asks for one; it carries the current generation. */
  lemma AggregatesExactly(w: World, e: Event)
    requires Enabled(w, e) && !e.Close? && !e.Fail? && (e.Continue? ==> !w.tasks[e.t].Writing?)
    ensures e.t in Step(w, e).tasks && Step(w, e).tasks[e.t].Aggregating? <==>
              || (e.Depart? && w.gateway.sockets - {e.socket} != {}) || e.IdleTimer? || e.Refresh?
              || (e.Activity? && e.socket in w.gateway.sockets
                  && e.now - (if e.socket in w.gateway.activity then w.gateway.activity[e.socket] else 0) >= 15_000)
              || (Goes(w, e) && w.tasks[e.t].Aborting? && w.gateway.sockets != {})
    ensures e.t in Step(w, e).tasks && Step(w, e).tasks[e.t].Aggregating? ==>
              && Step(w, e).tasks[e.t].generation == w.gateway.generation
              && Step(w, e).tasks[e.t].always == (e.Depart? || e.Continue? || (e.Refresh? && e.always))
  {
    StillThere(w, e);
    hide CanPromote, Unrevoked, AnyActive, ScheduleIdle;
  }

  /** What an event closes: a departed connection, everything of a revoked user or device, dead sockets, and the
      connections that are refused or back out. */
  ghost predicate Closes(w: World, e: Event, c: SocketId) {
    || (e.Close? && e.socket == c)
    || (Enabled(w, e) && e.Depart? && e.socket == c)
    || (Enabled(w, e) && e.RevokeUser? && (c in w.gateway.sockets || c in w.gateway.pending))
    || (Enabled(w, e) && e.RevokeDevice? && ((c in w.gateway.sockets && c in w.history.devices && w.history.devices[c] == e.device)
                                             || (c in w.gateway.pending && w.gateway.pending[c].device == e.device)))
    || Dies(w, e, c) || BacksOut(w, e, c)
    || (Goes(w, e) && w.tasks[e.t].Validating? && w.tasks[e.t].socket == c && !Promotes(w, e, c))
  }

  lemma ClosesExactly(w: World, e: Event, c: SocketId)
    ensures c in Step(w, e).closed <==> c in w.closed || Closes(w, e, c)
  {
    StillThere(w, e);
    hide CanPromote, Unrevoked, AnyActive, ScheduleIdle;
  }

  /** A connection waits with the generations it arrived at until it is admitted, refused, backs out or leaves, or
      its user or device is revoked. */
  lemma WaitsExactly(w: World, e: Event, c: SocketId)
    ensures var g, g' := w.gateway, Step(w, e).gateway;
            var arrives := Enabled(w, e) && e.Arrive? && e.socket == c;
            && (c in g'.pending <==>
                  arrives || (c in g.pending && !Settled(w, e, c)
                              && !(Enabled(w, e) && (e.RevokeUser? || (e.Depart? && e.socket == c)
                                                     || (e.RevokeDevice? && g.pending[c].device == e.device)))))
            && (c in g'.pending ==> g'.pending[c] == if arrives then Arrived(g, e.device) else g.pending[c])
  {
    if Goes(w, e) && !w.tasks[e.t].Writing? {
      ResumedWaits(w, e, c);
    } else if Starts(e) {
      StartedWaits(w, e, c);
    }
    hide Resume, Started, Settled, Arrived;
  }

  /** The connection is refused, backs out or is admitted. */
  ghost predicate Settled(w: World, e: Event, c: SocketId) {
    && Goes(w, e)
    && match w.tasks[e.t]
       case Validating(d, _) => c == d && !Promotes(w, e, c)
       case Revalidating(d, _) => c == d
       case _ => BacksOut(w, e, c)
  }

  /** A connection of the device that arrives now. */
  ghost function Arrived(g: Gateway, d: DeviceId): Pending {
    Pending(d, g.generation, if d in g.deviceGenerations then g.deviceGenerations[d] else 0)
  }

  lemma ResumedWaits(w: World, e: Event, c: SocketId)
    requires Goes(w, e) && !w.tasks[e.t].Writing?
    ensures var g, g' := w.gateway, Resume(w.gateway, w.closed, w.tasks[e.t], e).gateway;
            (c in g'.pending <==> c in g.pending && !Settled(w, e, c)) && (c in g'.pending ==> g'.pending[c] == g.pending[c])
  {
    StillThere(w, e);
    hide CanPromote, Unrevoked, AnyActive, ScheduleIdle;
  }

  lemma StartedWaits(w: World, e: Event, c: SocketId)
    requires Starts(e)
    ensures var g, g' := w.gateway, Started(w.gateway, w.history, e).gateway;
            var arrives := e.Arrive? && e.socket == c;
            && (c in g'.pending <==>
                  arrives || (c in g.pending && !e.RevokeUser? && !(e.Depart? && e.socket == c) && !(e.RevokeDevice? && g.pending[c].device == e.device)))
            && (c in g'.pending ==> g'.pending[c] == if arrives then Arrived(g, e.device) else g.pending[c])
  {
  }

  /** A revocation of the user, or of a device, advances its generation by one; nothing else does. */
  lemma GenerationsExactly(w: World, e: Event, d: DeviceId)
    ensures var g, g' := w.gateway, Step(w, e).gateway;
            && g'.generation == g.generation + (if Enabled(w, e) && e.RevokeUser? then 1 else 0)
            && Revocations(g', d) == Revocations(g, d) + (if Enabled(w, e) && e.RevokeDevice? && e.device == d then 1 else 0)
  {
    if Goes(w, e) && !w.tasks[e.t].Writing? {
      ResumedGenerations(w, e);
    } else if Starts(e) {
      StartedGenerations(w, e, d);
    }
    hide Resume, Started;
  }

  /** How often the device was revoked. */
  ghost function Revocations(g: Gateway, d: DeviceId): nat { if d in g.deviceGenerations then g.deviceGenerations[d] else 0 }

  lemma ResumedGenerations(w: World, e: Event)
    requires Goes(w, e) && !w.tasks[e.t].Writing?
    ensures var g, g' := w.gateway, Resume(w.gateway, w.closed, w.tasks[e.t], e).gateway;
            g'.generation == g.generation && g'.deviceGenerations == g.deviceGenerations
  {
    StillThere(w, e);
    hide CanPromote, Unrevoked, AnyActive, ScheduleIdle;
  }

  lemma StartedGenerations(w: World, e: Event, d: DeviceId)
    requires Starts(e)
    ensures var g, g' := w.gateway, Started(w.gateway, w.history, e).gateway;
            && g'.generation == g.generation + (if e.RevokeUser? then 1 else 0)
            && Revocations(g', d) == Revocations(g, d) + (if e.RevokeDevice? && e.device == d then 1 else 0)
  {
  }

  /** The event ends a task that looks at the idle check again: an admission, and an aggregate or a correction that
      is over, unless nobody is left and nothing asked for it anyway. */
  ghost predicate Rechecks(w: World, e: Event) {
    && Goes(w, e)
    && match w.tasks[e.t]
       case Revalidating(c, _) => !BacksOut(w, e, c)
       case Aggregating(_, always) => always && w.gateway.sockets == {} && e.invalid == {}
       case Aggregated(n, always) =>
         !(n == w.gateway.generation && w.gateway.sockets != {}) && (always || w.gateway.sockets != {})
       case Landed(AfterAggregate(_, _)) => w.gateway.sockets != {}
       case Landed(AfterRevalidation(always)) => always || w.gateway.sockets != {}
       case _ => false
  }

  /** Some registered socket's last activity, or none at all as the time 0, has yet to expire. */
  ghost predicate Unexpired(g: Gateway, tick: Tick) {
    exists c :: c in g.sockets && (if c in g.activity then g.activity[c] else 0) > tick.now - tick.idleMs
  }

  /** The idle check is due again exactly after such a look that finds an activity that has yet to expire; it is
      given up when the last socket leaves, the user is revoked or a task finds nobody left. */
  lemma IdleExactly(w: World, e: Event)
    ensures Step(w, e).gateway.idleTimer <==>
              if Rechecks(w, e) then Unexpired(w.gateway, e.tick)
              else w.gateway.idleTimer && !(Enabled(w, e) && (e.IdleTimer? || e.RevokeUser?)) && !LastLeaves(w, e) && !FindsNobody(w, e)
  {
    if Goes(w, e) && !w.tasks[e.t].Writing? {
      ResumedIdle(w, e);
    } else if Starts(e) {
      StartedIdle(w, e);
    }
    hide Resume, Started, Rechecks, Unexpired, FindsNobody;
  }

  lemma ResumedIdle(w: World, e: Event)
    requires Goes(w, e) && !w.tasks[e.t].Writing?
    ensures Resume(w.gateway, w.closed, w.tasks[e.t], e).gateway.idleTimer
       <==> if Rechecks(w, e) then Unexpired(w.gateway, e.tick) else w.gateway.idleTimer && !FindsNobody(w, e)
  {
    StillThere(w, e);
    var g := w.gateway;
    UnexpiredExactly(g, e.tick);
    if w.tasks[e.t].Revalidating? {
      UnexpiredExactly(Drop(g, {w.tasks[e.t].socket}), e.tick);
    }
    assert e.invalid == {} ==> g.sockets - e.invalid == g.sockets && g.activity - e.invalid == g.activity;
    hide CanPromote, Unrevoked, AnyActive, ScheduleIdle, Unexpired;
  }

  lemma UnexpiredExactly(g: Gateway, tick: Tick)
    ensures ScheduleIdle(g, tick).idleTimer <==> Unexpired(g, tick)
    ensures forall pending :: Unexpired(g.(pending := pending), tick) <==> Unexpired(g, tick)
  {
    if ScheduleIdle(g, tick).idleTimer {
      var c :| c in g.sockets && ActiveAt(g, c) + tick.idleMs > tick.now;
      assert (if c in g.activity then g.activity[c] else 0) > tick.now - tick.idleMs;
    }
    if Unexpired(g, tick) {
      var c :| c in g.sockets && (if c in g.activity then g.activity[c] else 0) > tick.now - tick.idleMs;
      assert ActiveAt(g, c) + tick.idleMs > tick.now;
    }
  }

  lemma StartedIdle(w: World, e: Event)
    requires Starts(e)
    ensures Enabled(w, e) ==>
      (Started(w.gateway, w.history, e).gateway.idleTimer <==> w.gateway.idleTimer && !e.IdleTimer? && !e.RevokeUser? && !LastLeaves(w, e))
  {
    StillThere(w, e);
    hide AnyActive;
  }
}
