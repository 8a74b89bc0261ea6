/** Which failures of presence writes, and of the reads after them, leave a user without sockets shown
    online or idle. */
module PresenceFailures {
  import opened Common
  import opened Presence
  import opened PresenceRuns
  import opened PresenceConverse

  /** Nothing is at work or scheduled, no socket is registered, and the user is not shown offline. */
  ghost predicate Stranded(w: World) {
    w.gateway.sockets == {} && !w.gateway.offlineTimer && w.tasks == map[] && w.last != Offline
  }

  // ------------------------------------------------------------------ covered

  /** A failure only breaks what it may break: the cover. */
  lemma FailedWorld(w: World, t: TaskId)
    requires WorldOk(w) && Enabled(w, Fail(t)) && CoveredWithout(w, t)
    ensures WorldOk(Step(w, Fail(t)))
  {
    hide PublicationOk, TimersOk, RevocationOk, OneTaskEach, Step, Repairs, CoveredWithout;
    StepKeeps(w, Fail(t));
  }

  lemma CoveredIsNotStranded(w: World)
    requires WorldOk(w)
    ensures !Stranded(w)
  {
    hide TimersOk, RevocationOk, OneTaskEach;
  }

  // ------------------------------------------------------------------ not covered

  /** The task fails if it is writing; otherwise it goes on, with its session found dead. */
  function Finish(pc: Pc, t: TaskId): Event { if pc.Writing? then Fail(t) else End(t) }

  lemma ResumeFinishes(g: Gateway, closed: set<SocketId>, pc: Pc, t: TaskId)
    requires g.sockets == {} && !g.offlineTimer && !pc.Writing? && !Repairs(pc)
    ensures var out := Resume(g, closed, pc, End(t));
            out.next.None? && out.gateway.sockets == {} && !out.gateway.offlineTimer
  {
    hide CanPromote, StillRegistered;
  }

  /** Beside no socket and no timer, a task that owes no repair ends without publishing anything. */
  lemma TaskFinishes(w: World, t: TaskId)
    requires w.gateway.sockets == {} && !w.gateway.offlineTimer && t in w.tasks && !Repairs(w.tasks[t])
    ensures var w' := Step(w, Finish(w.tasks[t], t));
            && w'.gateway.sockets == {} && !w'.gateway.offlineTimer && w'.last == w.last && w'.tasks == w.tasks - {t}
            && Harmless(w, Finish(w.tasks[t], t))
  {
    hide Resume;
    if !w.tasks[t].Writing? {
      ResumeFinishes(w.gateway, w.closed, w.tasks[t], t);
    }
  }

  /** A user that is not covered can end up stranded, without any further harm. */
  lemma {:induction false} AllFinish(w: World) returns (events: seq<Event>)
    requires !Covered(w)
    ensures HarmlessRun(w, events) && Stranded(Run(w, events))
    decreases |w.tasks|
  {
    if w.tasks == map[] {
      events := [];
    } else {
      var t := Member(w.tasks.Keys);
      TaskFinishes(w, t);
      Fewer(w.tasks, t);
      var e := Finish(w.tasks[t], t);
      NoRepairLeft(w, t, Step(w, e));
      hide Step, Harmless, Finish;
      var rest := AllFinish(Step(w, e));
      events := [e] + rest;
      assert events[1..] == rest;
    }
  }

  lemma NoRepairLeft(w: World, t: TaskId, w': World)
    requires !Covered(w) && w'.gateway.sockets == {} && !w'.gateway.offlineTimer && w'.last == w.last && w'.tasks == w.tasks - {t}
    ensures !Covered(w')
  {
    assert forall q :: q in w'.tasks ==> q in w.tasks && w'.tasks[q] == w.tasks[q];
    hide Repairs;
  }

  // ------------------------------------------------------------------ exactly

  /** The exact condition, at the moment of a failure: no continuation with harmless failures leaves the
      user stranded if and only if the user is covered without the task that failed. */
  lemma FailureStrandsExactly(w: World, t: TaskId)
    requires WorldOk(w) && Enabled(w, Fail(t))
    ensures CoveredWithout(w, t) <==>
              forall events :: HarmlessRun(Step(w, Fail(t)), events) ==> !Stranded(Run(Step(w, Fail(t)), events))
  {
    var w' := Step(w, Fail(t));
    if CoveredWithout(w, t) {
      FailedWorld(w, t);
      forall events | HarmlessRun(w', events) ensures !Stranded(Run(w', events)) {
        RunKeeps(w', events);
        CoveredIsNotStranded(Run(w', events));
      }
    } else {
      var events := AllFinish(w');
      assert HarmlessRun(w', events) && Stranded(Run(w', events));
    }
    hide *;
  }

  /** In a world that satisfies the invariant, that is what a harmless failure is. */
  lemma HarmlessIsCovered(w: World, t: TaskId)
    requires WorldOk(w) && Enabled(w, Fail(t))
    ensures Harmless(w, Fail(t)) <==> CoveredWithout(w, t)
  {
    if !Repairs(w.tasks[t]) {
      FailureKeeps(w, t);
    }
    hide WorldOk, CoveredWithout, Repairs;
  }

  /** Over every run, each of whose failures is harmless, nobody is ever stranded; and a failure that is
      not can always be continued so that the user is. */
  lemma HarmlessExactly(before: seq<Event>, t: TaskId)
    requires HarmlessRun(Start, before) && Enabled(Run(Start, before), Fail(t))
    ensures var w := Run(Start, before);
            Harmless(w, Fail(t)) <==>
              forall events :: HarmlessRun(Step(w, Fail(t)), events) ==> !Stranded(Run(Step(w, Fail(t)), events))
  {
    var w := Run(Start, before);
    StartIsOk();
    RunKeeps(Start, before);
    FailureStrandsExactly(w, t);
    HarmlessIsCovered(w, t);
    hide *;
  }

  lemma StartIsOk()
    ensures WorldOk(Start)
  {
  }

  // ------------------------------------------------------------------ a run

  /** A failure that is not harmless: the user is revoked while the online write is in flight, and the
      read after that write fails, so the check that would publish offline again never comes. */
  lemma FailureStrands() returns (events: seq<Event>)
    ensures var w := Run(Start, events);
            w.gateway.sockets == {} && !w.gateway.offlineTimer && w.tasks == map[] && w.last == Online
  {
    events := [Arrive(1, 1, 7), Go(1), RevokeUser(2)] + [Go(2), Go(2), Go(1), Fail(1)];
    RunAppend(Start, [Arrive(1, 1, 7), Go(1), RevokeUser(2)], [Go(2), Go(2), Go(1), Fail(1)]);
    RevokedWhileWriting();
    OverwrittenAndLost(Run(Start, [Arrive(1, 1, 7), Go(1), RevokeUser(2)]));
  }

  /** A connection is promoted, and the user is revoked while its online write is in flight. */
  lemma RevokedWhileWriting()
    ensures var w := Run(Start, [Arrive(1, 1, 7), Go(1), RevokeUser(2)]);
            && w.gateway.sockets == {} && !w.gateway.offlineTimer
            && w.tasks == map[1 := Writing(Online, AfterConnect(1, Pending(7, 0, 0))), 2 := Writing(Offline, Nothing)]
  {
    var p := Pending(7, 0, 0);
    var events := [Arrive(1, 1, 7), Go(1), RevokeUser(2)];
    var w1 := Step(Start, events[0]);
    assert w1.tasks == map[1 := Validating(1, p)] && w1.gateway.pending == map[1 := p] && w1.closed == {};
    var w2 := Step(w1, events[1]);
    assert w2.tasks == map[1 := Writing(Online, AfterConnect(1, p))];
    var w3 := Step(w2, events[2]);
    hide Step;
    assert Run(w2, events[2..]) == Run(w3, []);
    assert Run(w1, events[1..]) == Run(w2, events[2..]);
  }

  /** The offline write lands first, and the task of the online write fails before its check. */
  lemma OverwrittenAndLost(w: World)
    requires w.tasks == map[1 := Writing(Online, AfterConnect(1, Pending(7, 0, 0))), 2 := Writing(Offline, Nothing)]
    ensures var v := Run(w, [Go(2), Go(2), Go(1), Fail(1)]);
            v.gateway == w.gateway && v.tasks == map[] && v.last == Online
  {
    var p := Pending(7, 0, 0);
    var w4 := Step(w, Go(2));
    assert w4.tasks == map[1 := Writing(Online, AfterConnect(1, p)), 2 := Landed(Nothing)];
    var w5 := Step(w4, Go(2));
    assert w5.tasks == map[1 := Writing(Online, AfterConnect(1, p))];
    var w6 := Step(w5, Go(1));
    assert w6.tasks == map[1 := Landed(AfterConnect(1, p))];
    var w7 := Step(w6, Fail(1));
    hide Step;
    assert Run(w6, [Fail(1)]) == Run(w7, []);
    assert Run(w5, [Go(1), Fail(1)]) == Run(w6, [Fail(1)]);
    assert Run(w4, [Go(2), Go(1), Fail(1)]) == Run(w5, [Go(1), Fail(1)]);
    assert Run(w, [Go(2), Go(2), Go(1), Fail(1)]) == Run(w4, [Go(2), Go(1), Fail(1)]);
  }
}
