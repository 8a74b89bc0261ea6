/** When a user with a registered socket can be shown offline: exactly when a connection was promoted
    while an offline write was still in flight. */
module PresenceConverse {
  import opened Common
  import opened Presence
  import opened PresenceRuns

  // ------------------------------------------------------------------ the guard

  ghost predicate NoOfflineInFlight(w: World) {
    forall t :: t in w.tasks ==> !(w.tasks[t].Writing? && w.tasks[t].status == Offline)
  }

  /** The event promotes an arriving connection. */
  predicate Promotes(w: World, e: Event) {
    && e.Continue? && e.t in w.tasks && w.tasks[e.t].Validating?
    && e.active && CanPromote(w.gateway, w.closed, w.tasks[e.t].socket, w.tasks[e.t].pending)
  }

  /** No promotion overtakes an offline write; no stray offline write starts beside a registered socket;
      no presence write fails. */
  ghost predicate Careful(w: World, e: Event) {
    && (Promotes(w, e) ==> NoOfflineInFlight(w))
    && (e.StrayOffline? ==> w.gateway.sockets == {})
    && (e.Fail? && e.t in w.tasks ==> !w.tasks[e.t].Writing?)
  }

  ghost predicate CarefulRun(w: World, events: seq<Event>)
    decreases |events|
  {
    events != [] ==> Careful(w, events[0]) && CarefulRun(Step(w, events[0]), events[1..])
  }

  /** Nothing is at work, a socket is registered, and the user is shown offline. */
  ghost predicate LooksOffline(w: World) { w.gateway.sockets != {} && w.tasks == map[] && w.last == Offline }

  // ------------------------------------------------------------------ with the guard

  ghost predicate SomeShowing(w: World) { exists t :: t in w.tasks && w.tasks[t].Writing? && w.tasks[t].status != Offline }

  /** Beside a registered socket no offline write is in flight, and the user is shown, or about to be
      shown, online or idle. */
  ghost predicate Shown(w: World) {
    w.gateway.sockets != {} ==> NoOfflineInFlight(w) && (w.last != Offline || SomeShowing(w))
  }

  /** A stretch that leaves a socket writes nothing offline, and leaves one only where one was, unless
      it promotes. */
  lemma ResumeShows(g: Gateway, closed: set<SocketId>, pc: Pc, e: Event)
    requires e.Continue? && !pc.Writing?
    ensures var out := Resume(g, closed, pc, e);
            out.gateway.sockets != {} ==>
              && (out.next.Some? && out.next.value.Writing? ==> out.next.value.status != Offline)
              && (g.sockets != {} || (pc.Validating? && e.active && CanPromote(g, closed, pc.socket, pc.pending)
                                      && out.next.Some? && out.next.value.Writing?))
  {
    hide CanPromote, StillRegistered, PublicationCurrent;
  }

  lemma StartedShows(w: World, e: Event)
    requires Starts(e) && Careful(w, e)
    ensures var out := Started(w.gateway, w.history, e);
            out.gateway.sockets != {} ==>
              w.gateway.sockets != {} && (out.next.Some? ==> !(out.next.value.Writing? && out.next.value.status == Offline))
  {
  }

  lemma StepShows(w: World, e: Event)
    requires Shown(w) && Careful(w, e)
    ensures Shown(Step(w, e))
  {
    hide Resume, Started, Recorded, CanPromote;
    var w' := Step(w, e);
    if Enabled(w, e) && w'.gateway.sockets != {} {
      if Starts(e) {
        StartedShows(w, e);
      } else if e.Continue? && !w.tasks[e.t].Writing? {
        ResumeShows(w.gateway, w.closed, w.tasks[e.t], e);
        var next := Resume(w.gateway, w.closed, w.tasks[e.t], e).next;
        if w.gateway.sockets == {} {
          assert w'.tasks[e.t] == next.value;
        }
      }
      if SomeShowing(w) {
        var q :| q in w.tasks && w.tasks[q].Writing? && w.tasks[q].status != Offline;
        assert q in w'.tasks && (w'.tasks[q] == w.tasks[q] || w'.last != Offline);
      }
    }
  }

  /** With the guard, a user with a registered socket and nothing at work is never shown offline. */
  lemma {:induction false} CarefulMeansShown(w: World, events: seq<Event>)
    requires Shown(w) && CarefulRun(w, events)
    ensures Shown(Run(w, events)) && !LooksOffline(Run(w, events))
    decreases |events|
  {
    hide Step, Careful;
    if events != [] {
      StepShows(w, events[0]);
      CarefulMeansShown(Step(w, events[0]), events[1..]);
    }
  }

  lemma FromTheStart(events: seq<Event>)
    requires CarefulRun(Start, events)
    ensures !LooksOffline(Run(Start, events))
  {
    CarefulMeansShown(Start, events);
    hide Run, CarefulRun;
  }

  // ------------------------------------------------------------------ without it

  lemma {:induction false} RunAppend(w: World, first: seq<Event>, second: seq<Event>)
    ensures Run(w, first + second) == Run(Run(w, first), second)
    ensures CarefulRun(w, first) && CarefulRun(Run(w, first), second) ==> CarefulRun(w, first + second)
    decreases |first|
  {
    hide Step, Careful;
    if first == [] {
      assert first + second == second;
    } else {
      assert (first + second)[1..] == first[1..] + second;
      RunAppend(Step(w, first[0]), first[1..], second);
    }
  }

  lemma RunOne(w: World, e: Event)
    ensures Run(w, [e]) == Step(w, e) && (Careful(w, e) ==> CarefulRun(w, [e]))
  {
    hide Step, Careful;
    var w' := Step(w, e);
    assert Run(w', []) == w' && CarefulRun(w', []);
    assert [e][1..] == [];
  }

  /** The task goes on, with its session found dead. */
  function End(t: TaskId): Event { Continue(t, false, {}, Tick(0, 0)) }

  /** How many times a task still goes on, at most. */
  function Weight(pc: Pc): nat {
    match pc
    case Validating(_, _) => 1
    case Landed(AfterConnect(_, _)) => 7
    case Landed(_) => 1
    case Writing(_, AfterConnect(_, _)) => 8
    case Writing(_, _) => 2
    case Aggregated(_, _) => 3
    case Aggregating(_, _) => 4
    case Aborting => 5
    case Revalidating(_, _) => 6
  }

  /** A task that has nothing to do with the socket. */
  ghost predicate Foreign(pc: Pc, c: SocketId) { Incoming(pc) != Some(c) && WriteOk(pc) }

  lemma ResumeEnds(g: Gateway, closed: set<SocketId>, pc: Pc, t: TaskId, c: SocketId)
    requires c in g.sockets && Foreign(pc, c) && !pc.Writing?
    ensures var out := Resume(g, closed, pc, End(t));
            c in out.gateway.sockets && (out.next.Some? ==> Weight(out.next.value) < Weight(pc) && Foreign(out.next.value, c))
  {
    hide CanPromote, StillRegistered, PublicationCurrent;
  }

  lemma EndStep(w: World, t: TaskId, c: SocketId)
    requires c in w.gateway.sockets && t in w.tasks && Foreign(w.tasks[t], c)
    ensures var w' := Step(w, End(t));
            && c in w'.gateway.sockets && w'.tasks - {t} == w.tasks - {t} && Careful(w, End(t))
            && (t in w'.tasks ==> Weight(w'.tasks[t]) < Weight(w.tasks[t]) && Foreign(w'.tasks[t], c))
  {
    hide Resume;
    if !w.tasks[t].Writing? {
      ResumeEnds(w.gateway, w.closed, w.tasks[t], t, c);
    }
  }

  /** Such a task can come to its end while the socket stays registered. */
  lemma {:induction false} Drive(w: World, t: TaskId, c: SocketId) returns (events: seq<Event>)
    requires c in w.gateway.sockets && t in w.tasks && Foreign(w.tasks[t], c)
    ensures CarefulRun(w, events) && c in Run(w, events).gateway.sockets && Run(w, events).tasks == w.tasks - {t}
    decreases Weight(w.tasks[t])
  {
    EndStep(w, t, c);
    RunOne(w, End(t));
    var w' := Step(w, End(t));
    hide Step, Careful, Foreign, Weight, End;
    if t in w'.tasks {
      var rest := Drive(w', t, c);
      RunAppend(w, [End(t)], rest);
      events := [End(t)] + rest;
    } else {
      events := [End(t)];
      assert w'.tasks - {t} == w'.tasks;
    }
  }

  /** And so can all of them but one. */
  lemma {:induction false} DriveAll(w: World, c: SocketId, last: TaskId) returns (events: seq<Event>)
    requires c in w.gateway.sockets && last in w.tasks
    requires forall t :: t in w.tasks && t != last ==> Foreign(w.tasks[t], c)
    ensures CarefulRun(w, events) && c in Run(w, events).gateway.sockets
    ensures Run(w, events).tasks == map[last := w.tasks[last]]
    decreases |w.tasks|
  {
    hide Foreign;
    if w.tasks.Keys == {last} {
      events := [];
      assert w.tasks == map[last := w.tasks[last]];
    } else {
      var t := Another(w.tasks.Keys, last);
      var first := Drive(w, t, c);
      var w' := Run(w, first);
      Fewer(w.tasks, t);
      hide Run, CarefulRun;
      var rest := DriveAll(w', c, last);
      RunAppend(w, first, rest);
      events := first + rest;
    }
  }

  lemma Another(ts: set<TaskId>, t: TaskId) returns (other: TaskId)
    requires t in ts && ts != {t}
    ensures other in ts && other != t
  {
    OnlyOne(ts, t);
    other := Member(ts - {t});
  }

  lemma OnlyOne(ts: set<TaskId>, t: TaskId)
    requires t in ts
    ensures ts - {t} == {} ==> ts == {t}
  {
    assert ts == (ts - {t}) + {t};
  }

  lemma Fewer<V>(tasks: map<TaskId, V>, t: TaskId)
    requires t in tasks
    ensures |tasks - {t}| < |tasks|
  {
    assert (tasks - {t}).Keys == tasks.Keys - {t};
    assert |tasks| == |tasks.Keys| && |tasks - {t}| == |(tasks - {t}).Keys|;
  }

  /** The only task left is an offline write: it lands last. */
  lemma OfflineLandsLast(w: World, c: SocketId, t: TaskId)
    requires c in w.gateway.sockets && w.tasks.Keys == {t} && w.tasks[t].Writing? && w.tasks[t].status == Offline && WriteOk(w.tasks[t])
    ensures LooksOffline(Run(w, [End(t), End(t)])) && CarefulRun(w, [End(t), End(t)])
  {
    var w1 := Step(w, End(t));
    assert w1.tasks == map[t := Landed(w.tasks[t].after)] && w1.last == Offline;
    var w2 := Step(w1, End(t));
    assert w2.tasks == map[] && c in w2.gateway.sockets && w2.last == Offline;
    assert [End(t), End(t)] == [End(t)] + [End(t)];
    RunOne(w, End(t));
    RunOne(w1, End(t));
    RunAppend(w, [End(t)], [End(t)]);
  }

  function Go(t: TaskId): Event { Continue(t, true, {}, Tick(0, 0)) }

  /** The world right after a promotion, its task at some point of its way in. */
  ghost predicate Promoted(w: World, t: TaskId, c: SocketId, p: Pending, others: map<TaskId, Pc>) {
    && c in w.gateway.sockets && CanPromote(w.gateway, w.closed, c, p)
    && t in w.tasks && w.tasks - {t} == others
  }

  lemma GoesIn(w: World, t: TaskId, c: SocketId, p: Pending, others: map<TaskId, Pc>)
    requires Promoted(w, t, c, p, others)
    requires w.tasks[t] == Writing(Online, AfterConnect(c, p)) || w.tasks[t] == Landed(AfterConnect(c, p))
    ensures Promoted(Step(w, Go(t)), t, c, p, others) && Careful(w, Go(t))
    ensures w.tasks[t].Writing? ==> Step(w, Go(t)).tasks[t] == Landed(AfterConnect(c, p))
    ensures w.tasks[t].Landed? ==> Step(w, Go(t)).tasks[t] == Revalidating(c, p)
  {
    assert w.closed + {} == w.closed;
  }

  lemma IsIn(w: World, t: TaskId, c: SocketId, p: Pending, others: map<TaskId, Pc>)
    requires Promoted(w, t, c, p, others) && w.tasks[t] == Revalidating(c, p)
    ensures c in Step(w, Go(t)).gateway.sockets && Step(w, Go(t)).tasks == others && Careful(w, Go(t))
  {
  }

  /** Undisturbed, a promoted connection is admitted. */
  lemma ComesIn(w: World, t: TaskId, c: SocketId, p: Pending, others: map<TaskId, Pc>) returns (events: seq<Event>)
    requires Promoted(w, t, c, p, others) && w.tasks[t] == Writing(Online, AfterConnect(c, p))
    ensures CarefulRun(w, events) && c in Run(w, events).gateway.sockets && Run(w, events).tasks == others
  {
    hide Step, Careful, Promoted, Go;
    GoesIn(w, t, c, p, others);
    var w1 := Step(w, Go(t));
    GoesIn(w1, t, c, p, others);
    var w2 := Step(w1, Go(t));
    IsIn(w2, t, c, p, others);
    RunOne(w, Go(t));
    RunOne(w1, Go(t));
    RunOne(w2, Go(t));
    RunAppend(w1, [Go(t)], [Go(t)]);
    RunAppend(w, [Go(t)], [Go(t)] + [Go(t)]);
    events := [Go(t)] + ([Go(t)] + [Go(t)]);
  }

  lemma PromotionStep(w: World, e: Event)
    requires Promotes(w, e)
    ensures var c, p, w' := w.tasks[e.t].socket, w.tasks[e.t].pending, Step(w, e);
            Promoted(w', e.t, c, p, w.tasks - {e.t}) && w'.tasks[e.t] == Writing(Online, AfterConnect(c, p))
  {
  }

  lemma OthersAreForeign(w: World, e: Event, t: TaskId)
    requires WorldOk(w) && Promotes(w, e) && t in w.tasks && t != e.t
    ensures Foreign(w.tasks[t], w.tasks[e.t].socket)
  {
    assert WriteOk(w.tasks[t]);
    assert Incoming(w.tasks[e.t]) == Some(w.tasks[e.t].socket);
    hide RevocationOk, TimersOk;
  }

  /** Whenever a connection is promoted over an offline write in flight, the run can go on, carefully
      from then on, so that the user ends up registered, quiet and shown offline. */
  lemma OvertakenLooksOffline(w: World, e: Event, late: TaskId) returns (events: seq<Event>)
    requires WorldOk(w) && Promotes(w, e)
    requires late in w.tasks && w.tasks[late].Writing? && w.tasks[late].status == Offline
    ensures CarefulRun(Step(w, e), events) && LooksOffline(Run(Step(w, e), events))
  {
    var c, others := w.tasks[e.t].socket, w.tasks - {e.t};
    var w1 := Step(w, e);
    PromotionStep(w, e);
    forall t | t in others ensures Foreign(others[t], c) {
      OthersAreForeign(w, e, t);
    }
    hide WorldOk, Promotes, Step, Run, CarefulRun, LooksOffline, Promoted, Foreign, End;
    var first := ComesIn(w1, e.t, c, w.tasks[e.t].pending, others);
    var w2 := Run(w1, first);
    var second := DriveAll(w2, c, late);
    var w3 := Run(w2, second);
    ForeignWrites(others[late], c);
    OfflineLandsLast(w3, c, late);
    RunAppend(w2, second, [End(late), End(late)]);
    RunAppend(w1, first, second + [End(late), End(late)]);
    events := first + (second + [End(late), End(late)]);
  }

  lemma ForeignWrites(pc: Pc, c: SocketId)
    requires Foreign(pc, c)
    ensures WriteOk(pc)
  {
  }

  /** The exact condition, at the moment of a promotion: no careful continuation leaves the user
      registered, quiet and shown offline if and only if no offline write is in flight. */
  lemma PromotionShowsExactly(w: World, e: Event)
    requires WorldOk(w) && Promotes(w, e)
    ensures NoOfflineInFlight(w) <==>
              forall events :: CarefulRun(Step(w, e), events) ==> !LooksOffline(Run(Step(w, e), events))
  {
    var w1 := Step(w, e);
    if NoOfflineInFlight(w) {
      PromotedIsShown(w, e);
      forall events | CarefulRun(w1, events) ensures !LooksOffline(Run(w1, events)) {
        CarefulMeansShown(w1, events);
      }
    } else {
      var late :| late in w.tasks && w.tasks[late].Writing? && w.tasks[late].status == Offline;
      var events := OvertakenLooksOffline(w, e, late);
      assert CarefulRun(w1, events) && LooksOffline(Run(w1, events));
    }
    hide *;
  }

  lemma PromotedIsShown(w: World, e: Event)
    requires Promotes(w, e) && NoOfflineInFlight(w)
    ensures Shown(Step(w, e))
  {
    PromotionStep(w, e);
    var w' := Step(w, e);
    assert w'.tasks[e.t].Writing? && w'.tasks[e.t].status != Offline;
    forall t | t in w'.tasks && t != e.t ensures t in w.tasks && w'.tasks[t] == w.tasks[t] {
      assert t in w'.tasks - {e.t};
    }
  }

  // ------------------------------------------------------------------ witnesses

  /** A connection that arrives and is admitted without anything else happening. */
  function Admission(t: TaskId, c: SocketId, d: DeviceId): seq<Event> { [Arrive(t, c, d), Go(t), Go(t), Go(t), Go(t)] }

  function Admitted(w: World, c: SocketId, d: DeviceId): World {
    w.(gateway := ScheduleIdle(w.gateway.(sockets := w.gateway.sockets + {c}, offlineTimer := false, activity := w.gateway.activity[c := 0]), Tick(0, 0)),
       last := Online, history := w.history.(devices := w.history.devices[c := d]))
  }

  /** The world while the connection is on its way in, its task at `pc`. */
  ghost function Admitting(w: World, t: TaskId, c: SocketId, d: DeviceId, pc: Pc, registered: bool, last: Status): World {
    var p := Pending(d, w.gateway.generation, DeviceGeneration(w.gateway, d));
    var g := w.gateway.(pending := w.gateway.pending[c := p]);
    World(if registered then g.(sockets := g.sockets + {c}, offlineTimer := false, activity := g.activity[c := 0]) else g,
          w.closed, w.tasks[t := pc], last, w.history.(devices := w.history.devices[c := d]))
  }

  lemma Arrives(w: World, t: TaskId, c: SocketId, d: DeviceId)
    requires t !in w.tasks && c !in w.history.devices
    ensures var p := Pending(d, w.gateway.generation, DeviceGeneration(w.gateway, d));
            Step(w, Arrive(t, c, d)) == Admitting(w, t, c, d, Validating(c, p), false, w.last)
  {
    assert w.closed + {} == w.closed;
  }

  lemma PromotedOnline(w: World, t: TaskId, c: SocketId, d: DeviceId)
    requires c !in w.closed
    ensures var p := Pending(d, w.gateway.generation, DeviceGeneration(w.gateway, d));
            Step(Admitting(w, t, c, d, Validating(c, p), false, w.last), Go(t))
            == Admitting(w, t, c, d, Writing(Online, AfterConnect(c, p)), true, w.last)
  {
    var p := Pending(d, w.gateway.generation, DeviceGeneration(w.gateway, d));
    OtherPc(w, t, Validating(c, p), Writing(Online, AfterConnect(c, p)));
    assert w.closed + {} == w.closed;
  }

  lemma OnlineLands(w: World, t: TaskId, c: SocketId, d: DeviceId)
    ensures var p := Pending(d, w.gateway.generation, DeviceGeneration(w.gateway, d));
            Step(Admitting(w, t, c, d, Writing(Online, AfterConnect(c, p)), true, w.last), Go(t))
            == Admitting(w, t, c, d, Landed(AfterConnect(c, p)), true, Online)
  {
    var p := Pending(d, w.gateway.generation, DeviceGeneration(w.gateway, d));
    OtherPc(w, t, Writing(Online, AfterConnect(c, p)), Landed(AfterConnect(c, p)));
  }

  lemma ChecksAgain(w: World, t: TaskId, c: SocketId, d: DeviceId)
    requires c !in w.closed
    ensures var p := Pending(d, w.gateway.generation, DeviceGeneration(w.gateway, d));
            Step(Admitting(w, t, c, d, Landed(AfterConnect(c, p)), true, Online), Go(t))
            == Admitting(w, t, c, d, Revalidating(c, p), true, Online)
  {
    var p := Pending(d, w.gateway.generation, DeviceGeneration(w.gateway, d));
    OtherPc(w, t, Landed(AfterConnect(c, p)), Revalidating(c, p));
    assert w.closed + {} == w.closed;
  }

  /** A task that goes on takes its own place again. */
  lemma OtherPc(w: World, t: TaskId, a: Pc, b: Pc)
    ensures w.tasks[t := a][t := b] == w.tasks[t := b]
    ensures (w.tasks[t := a] - {t})[t := b] == w.tasks[t := b]
  {
  }

  lemma LastAdmissionStep(w: World, t: TaskId, c: SocketId, d: DeviceId)
    requires t !in w.tasks && c !in w.closed && c !in w.gateway.pending
    ensures var p := Pending(d, w.gateway.generation, DeviceGeneration(w.gateway, d));
            Step(Admitting(w, t, c, d, Revalidating(c, p), true, Online), Go(t)) == Admitted(w, c, d)
  {
    var p := Pending(d, w.gateway.generation, DeviceGeneration(w.gateway, d));
    assert w.tasks[t := Revalidating(c, p)] - {t} == w.tasks;
    assert w.gateway.pending[c := p] - {c} == w.gateway.pending;
    assert w.closed + {} == w.closed;
  }

  lemma AdmissionRuns(w: World, t: TaskId, c: SocketId, d: DeviceId)
    requires t !in w.tasks && c !in w.history.devices && c !in w.closed && c !in w.gateway.pending
    ensures Run(w, Admission(t, c, d)) == Admitted(w, c, d)
  {
    hide Step, Admitting, Admitted, Run;
    Arrives(w, t, c, d);
    PromotedOnline(w, t, c, d);
    OnlineLands(w, t, c, d);
    ChecksAgain(w, t, c, d);
    LastAdmissionStep(w, t, c, d);
    RunFive(w, Arrive(t, c, d), Go(t));
  }

  lemma RunFive(w: World, e: Event, go: Event)
    ensures Run(w, [e, go, go, go, go]) == Step(Step(Step(Step(Step(w, e), go), go), go), go)
  {
    hide Step;
    var w1 := Step(w, e);
    var w2 := Step(w1, go);
    var w3 := Step(w2, go);
    assert Run(w, [e, go, go, go, go]) == Run(w1, [go, go, go, go]);
    assert Run(w1, [go, go, go, go]) == Run(w2, [go, go, go]);
    assert Run(w2, [go, go, go]) == Run(w3, [go, go]);
    assert Run(w3, [go, go]) == Run(Step(w3, go), [go]);
    assert Run(Step(w3, go), [go]) == Run(Step(Step(w3, go), go), []);
  }

  /** The only connection leaves without grace: its offline write is in flight. */
  lemma LastLeaves(w: World, t: TaskId, c: SocketId)
    requires t !in w.tasks && w.gateway.sockets == {c} && w.gateway.pending == map[] && c in w.history.devices
    ensures var w' := Run(w, [Depart(t, c, true)]);
            && w'.tasks == w.tasks[t := Writing(Offline, Nothing)] && w'.closed == w.closed + {c}
            && w'.gateway.sockets == {} && w'.gateway.pending == map[] && w'.history.devices == w.history.devices
  {
    assert Run(w, [Depart(t, c, true)]) == Run(Step(w, Depart(t, c, true)), []);
  }

  /** The offline write lands and its task ends. */
  lemma OfflineLands(w: World, t: TaskId)
    requires w.tasks == map[t := Writing(Offline, Nothing)]
    ensures Run(w, [Go(t), Go(t)]) == w.(last := Offline, tasks := map[])
  {
    var w1 := Step(w, Go(t));
    assert w1.tasks == map[t := Landed(Nothing)];
    var w2 := Step(w1, Go(t));
    assert w2.tasks == map[];
    assert Run(w, [Go(t), Go(t)]) == Run(w1, [Go(t)]);
    assert Run(w1, [Go(t)]) == Run(w2, []);
  }

  /** It happens: one connection leaves without grace, its offline write is slow, and the next
      connection's online write overtakes it. */
  lemma ConnectedCanLookOffline() returns (events: seq<Event>)
    ensures LooksOffline(Run(Start, events))
  {
    hide Step, Run, Admission;
    var leave, late := [Depart(2, 1, true)], [Go(2), Go(2)];
    events := Admission(1, 1, 7) + (leave + (Admission(3, 2, 7) + late));
    RunAppend(Start, Admission(1, 1, 7), leave + (Admission(3, 2, 7) + late));
    AdmissionRuns(Start, 1, 1, 7);
    var w1 := Admitted(Start, 1, 7);
    RunAppend(w1, leave, Admission(3, 2, 7) + late);
    LastLeaves(w1, 2, 1);
    var w2 := Run(w1, leave);
    RunAppend(w2, Admission(3, 2, 7), late);
    AdmissionRuns(w2, 3, 2, 7);
    OfflineLands(Admitted(w2, 2, 7), 2);
  }
}
