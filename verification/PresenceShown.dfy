/** What a presence write says: online when a connection comes in, and when some registered socket was active
    lately; idle when none was; offline otherwise. */
module PresenceShown {
  import opened Common
  import opened Presence
  import opened PresenceRuns

  /** Some registered socket was active less than the idle time ago. */
  ghost predicate Recently(w: World, tick: Tick) {
    exists c :: c in w.gateway.sockets && c in w.gateway.activity && tick.now - w.gateway.activity[c] < tick.idleMs
  }

  // ------------------------------------------------------------------ the activity times

  /** The gateway keeps an activity time for exactly the registered sockets. */
  ghost predicate ActivityOk(w: World) { w.gateway.activity.Keys == w.gateway.sockets }

  lemma ResumeActivity(g: Gateway, closed: set<SocketId>, pc: Pc, e: Event)
    requires e.Continue? && !pc.Writing? && g.activity.Keys == g.sockets
    ensures var g' := Resume(g, closed, pc, e).gateway; g'.activity.Keys == g'.sockets
  {
    hide CanPromote, PublicationCurrent;
  }

  lemma StartedActivity(g: Gateway, h: History, e: Event)
    requires Starts(e) && g.activity.Keys == g.sockets
    ensures var g' := Started(g, h, e).gateway; g'.activity.Keys == g'.sockets
  {
  }

  lemma {:induction false} RunActivity(w: World, events: seq<Event>)
    requires ActivityOk(w)
    ensures ActivityOk(Run(w, events))
    decreases |events|
  {
    hide Resume, Started, Recorded;
    if events != [] {
      var e := events[0];
      if Starts(e) {
        StartedActivity(w.gateway, w.history, e);
      } else if e.Continue? && e.t in w.tasks && !w.tasks[e.t].Writing? {
        ResumeActivity(w.gateway, w.closed, w.tasks[e.t], e);
      }
      RunActivity(Step(w, e), events[1..]);
    }
  }

  /** After any run from the beginning there is an activity time for exactly the registered sockets. */
  lemma ActivityIsKept(events: seq<Event>)
    ensures ActivityOk(Run(Start, events))
  {
    RunActivity(Start, events);
    hide Run;
  }

  /** A report of activity counts at most once in fifteen seconds, and only from a registered socket; the
      aggregate is then published again. */
  lemma ReportCounts(g: Gateway, c: SocketId, now: Time)
    requires c in g.activity
    ensures var out := ActivityReported(g, c, now);
            if c in g.sockets && now - g.activity[c] >= 15_000
            then out == Out(g.(activity := g.activity[c := now]), {}, Some(Aggregating(g.generation, false)))
            else out == Out(g, {}, None)
  {
  }

  /** The idle check is scheduled exactly while some registered socket's activity has yet to expire. */
  lemma IdleCheckExactly(g: Gateway, tick: Tick)
    requires g.activity.Keys == g.sockets
    ensures ScheduleIdle(g, tick).idleTimer <==> exists c :: c in g.sockets && tick.now - g.activity[c] < tick.idleMs
  {
    if c :| c in g.sockets && tick.now - g.activity[c] < tick.idleMs {
      assert ActiveAt(g, c) + tick.idleMs > tick.now;
    }
    if c :| c in g.sockets && ActiveAt(g, c) + tick.idleMs > tick.now {
      assert tick.now - g.activity[c] < tick.idleMs;
    }
  }

  // ------------------------------------------------------------------ the writes

  lemma ActiveIsRecent(w: World, tick: Tick)
    requires ActivityOk(w)
    ensures AnyActive(w.gateway, tick) <==> Recently(w, tick)
  {
    if AnyActive(w.gateway, tick) {
      var c :| c in w.gateway.sockets && tick.now - ActiveAt(w.gateway, c) < tick.idleMs;
      assert c in w.gateway.activity;
    }
    if Recently(w, tick) {
      var c :| c in w.gateway.sockets && c in w.gateway.activity && tick.now - w.gateway.activity[c] < tick.idleMs;
      assert tick.now - ActiveAt(w.gateway, c) < tick.idleMs;
    }
  }

  /** The write is not the one its task was making before. */
  ghost predicate Fresh(w: World, w': World, t: TaskId) {
    t in w'.tasks && w'.tasks[t].Writing? && !(t in w.tasks && w.tasks[t] == w'.tasks[t])
  }

  /** Every write that a step puts in flight: online for a connection that was just registered, online or idle
      for an aggregate by the activity of the registered sockets at that moment, and offline otherwise. */
  lemma WritesSay(w: World, e: Event, t: TaskId)
    requires ActivityOk(w) && Fresh(w, Step(w, e), t)
    ensures var write := Step(w, e).tasks[t];
            match write.after
            case AfterConnect(c, _) => write.status == Online && c in Step(w, e).gateway.sockets
            case AfterAggregate(generation, _) =>
              && e.Continue? && w.gateway.sockets != {} && generation == w.gateway.generation
              && write.status == (if Recently(w, e.tick) then Online else Idle)
            case _ => write.status == Offline
  {
    hide Recorded, CanPromote, StillRegistered;
    if e.Continue? {
      ActiveIsRecent(w, e.tick);
    }
    hide AnyActive, Recently;
  }

  // ------------------------------------------------------------------ what is shown

  /** The task's write stays in flight. */
  ghost predicate Undisturbed(w: World, events: seq<Event>, t: TaskId)
    decreases |events|
  {
    events != [] ==> !((events[0].Continue? || events[0].Fail?) && events[0].t == t) && Undisturbed(Step(w, events[0]), events[1..], t)
  }

  ghost predicate NothingLands(w: World, events: seq<Event>)
    decreases |events|
  {
    events != [] ==>
      !(events[0].Continue? && events[0].t in w.tasks && w.tasks[events[0].t].Writing?) && NothingLands(Step(w, events[0]), events[1..])
  }

  lemma {:induction false} StaysInFlight(w: World, events: seq<Event>, t: TaskId)
    requires t in w.tasks && Undisturbed(w, events, t)
    ensures t in Run(w, events).tasks && Run(w, events).tasks[t] == w.tasks[t]
    decreases |events|
  {
    hide Resume, Started, Recorded;
    if events != [] {
      StaysInFlight(Step(w, events[0]), events[1..], t);
    }
  }

  lemma {:induction false} LastStays(w: World, events: seq<Event>)
    requires NothingLands(w, events)
    ensures Run(w, events).last == w.last
    decreases |events|
  {
    hide Resume, Started, Recorded;
    if events != [] {
      LastStays(Step(w, events[0]), events[1..]);
    }
  }

  /** An aggregate write that is computed, stays in flight whatever else happens, and lands last: the user is
      shown online if some registered socket had been active less than the idle time before it was computed,
      and idle if none had. */
  lemma LastAggregateShows(before: seq<Event>, e: Event, meanwhile: seq<Event>, land: Event, after: seq<Event>)
    requires var w := Run(Start, before); var w1 := Step(w, e); var w2 := Run(w1, meanwhile);
             && e.Continue? && e.t in w.tasks && w.tasks[e.t].Aggregated?
             && Fresh(w, w1, e.t) && Undisturbed(w1, meanwhile, e.t)
             && land.Continue? && land.t == e.t && NothingLands(Step(w2, land), after)
    ensures var w := Run(Start, before);
            Run(Step(Run(Step(w, e), meanwhile), land), after).last == if Recently(w, e.tick) then Online else Idle
  {
    var w := Run(Start, before);
    ActivityIsKept(before);
    WritesSay(w, e, e.t);
    AggregateWrite(w, e);
    var w1 := Step(w, e);
    StaysInFlight(w1, meanwhile, e.t);
    var w2 := Run(w1, meanwhile);
    Lands(w2, land);
    LastStays(Step(w2, land), after);
    hide *;
  }

  lemma AggregateWrite(w: World, e: Event)
    requires e.Continue? && e.t in w.tasks && w.tasks[e.t].Aggregated? && Fresh(w, Step(w, e), e.t)
    ensures Step(w, e).tasks[e.t].after.AfterAggregate?
  {
    hide AnyActive;
  }

  lemma Lands(w: World, land: Event)
    requires land.Continue? && land.t in w.tasks && w.tasks[land.t].Writing?
    ensures Step(w, land).last == w.tasks[land.t].status
  {
  }
}
