/** What happens when a cleanup takes up a pack that another one is still at work on: the slower one can
    delete the objects of a new pack under the same prefix. */
module TwoCleaners {
  import opened Common
  import opened Catalog
  import opened Packs
  import opened PackWorld
  import opened PackLifecycle
  import opened PackRemovals
  import opened PackStore
  import opened PackUrls
  import opened PackStaging
  import opened PackCompletion
  import opened PortalRetirement

  // ------------------------------------------------------------------ the claim

  /** A cleanup of superseded packs takes up a deleting pack, whatever else works on it. */
  ghost function TakenUp(w: World, now: Time, t: TaskId, p: PackId): World
    requires p in w.rows.packs
  {
    w.(work := w.work[t := Emptying(p, PrefixOf(w.rows, p), ThenRemove)], clock := now)
  }

  /** It is what the claim does, apart from the rule that one cleanup at a time works on a pack. */
  lemma TakesUp(cfg: Config, w: World, now: Time, t: TaskId, p: PackId, visited: bool)
    requires p in w.rows.packs && w.rows.packs[p].status == Deleting && UrlsExpiredBefore(cfg.limits, w.rows.packs[p], now)
    requires w.clock <= now && t !in w.work
    ensures Enabled(cfg, w, now, Retire(t, p, visited)) <==> OnlyCleaner(w, p)
    ensures OnlyCleaner(w, p) ==> Step(cfg, w, now, Retire(t, p, visited)) == TakenUp(w, now, t, p)
    ensures Step(cfg, w.(work := map[]), now, Retire(t, p, visited)) == TakenUp(w, now, t, p).(work := map[t := TakenUp(w, now, t, p).work[t]])
  {
    assert OnlyCleaner(w.(work := map[]), p);
  }

  // ------------------------------------------------------------------ the new pack

  /** What the cleanup of an emptied prefix leaves for the next pack of the same manifest. */
  lemma MayBeginAgain(cfg: Config, w: World, u: UserId, p: PackId)
    requires LifecycleOk(cfg, w) && OwnsPack(w.rows, u, p) && MayMutate(w.rows, u) && Dead(w.rows.packs[p].status)
    ensures var rows := RemovePack(w.rows, p); var pack := w.rows.packs[p];
            && MayMutate(rows, u) && Owns(rows, u, pack.companion) && WithManifest(rows, pack.companion, pack.manifest) == {}
            && Usage(rows, u) <= Usage(w.rows, u)
  {
    var rows := RemovePack(w.rows, p);
    forall q | q in rows.packs ensures !(rows.packs[q].companion == w.rows.packs[p].companion && rows.packs[q].manifest == w.rows.packs[p].manifest) {
      AnotherPrefix(cfg, w, p, q);
    }
    LessUsed(w.rows, u, p);
    hide LifecycleOk, Usage;
  }

  lemma LessUsed(rows: Rows, u: UserId, p: PackId)
    ensures Usage(RemovePack(rows, p), u) <= Usage(rows, u)
  {
    var rest := RemovePack(rows, p);
    var few, many := Counted(rest, u), Counted(rows, u);
    forall q | q in few ensures q in many {
      assert Owns(rest, u, rows.packs[q].companion);
    }
    SumFrame(Bytes(rest), Bytes(rows), few);
    SumSubset(Bytes(rows), few, many);
  }

  lemma AnotherPrefix(cfg: Config, w: World, p: PackId, q: PackId)
    requires LifecycleOk(cfg, w) && p in w.rows.packs && q in w.rows.packs && q != p
    ensures PrefixOf(w.rows, p) != PrefixOf(w.rows, q)
  {
    if PrefixOf(w.rows, p) == PrefixOf(w.rows, q) {
      OnePerPrefix(cfg, w, p, q);
    }
    hide LifecycleOk;
  }

  /** All its files are gone from the store. */
  ghost predicate NoFiles(cfg: Config, w: World, q: PackId)
    requires q in w.rows.packs
  {
    var x := PrefixOf(w.rows, q);
    forall i :: 0 <= i < |cfg.files(x.manifest)| ==> Final(x, cfg.files(x.manifest)[i].path) !in w.store.objects
  }

  /** The slower cleanup lists the prefix only now. */
  lemma Sweeps(cfg: Config, w: World, s: TaskId)
    requires s in w.work && w.work[s].Emptying?
    ensures var w' := Step(cfg, w, w.clock, Continue(s, 0, w.store.objects.Keys, {}, 0));
            && w'.rows == w.rows
            && forall path :: Final(w.work[s].prefix, path) !in w'.store.objects
  {
  }

  lemma QuietSweep(s: TaskId, keys: set<Key>, at: Time)
    ensures NoCleanup([Timed(at, Continue(s, 0, keys, {}, 0))])
  {
  }

  /** While a cleanup of a deleting pack has yet to empty the prefix, a second one takes the pack up. If the
      owner may still work with packs, the manifest can be published and is within the quota, then some
      continuation, without any further cleanup, ends with a new pack in use none of whose files is in the
      store. */
  lemma SecondCleanupLoses(cfg: Config, w: World, now: Time, u: UserId, p: PackId, s: TaskId, t: TaskId)
      returns (events: seq<Timed>, q: PackId)
    requires ConfigOk(cfg) && PackWorldOk(cfg, w) && UrlsOk(cfg, w) && StagingOk(w) && w.clock <= now
    requires s in w.work && w.work[s].Emptying? && w.work[s].pack == p && t !in w.work
    requires p in w.rows.packs && w.rows.packs[p].status == Deleting && OwnsPack(w.rows, u, p) && MayMutate(w.rows, u)
    requires Publishable(cfg, w.rows.packs[p].manifest)
    requires Usage(w.rows, u) + TotalBytes(cfg.files(w.rows.packs[p].manifest)) <= cfg.limits.quota
    ensures NoCleanup(events)
    ensures var w' := Run(cfg, TakenUp(w, now, t, p), events);
            q in w'.rows.packs && Shown(w'.rows.packs[q].status) && PrefixOf(w'.rows, q) == PrefixOf(w.rows, p) && NoFiles(cfg, w', q)
  {
    var c, m, x := w.rows.packs[p].companion, w.rows.packs[p].manifest, PrefixOf(w.rows, p);
    CleanerHolds(cfg, w, s);
    PartsOk(cfg, w);
    q := Unused(w.used.packs);
    var w0 := TakenUp(w, now, t, p);
    OnlyOwnStaged(cfg, w, p, t, now);
    Removed(cfg, w0, t);
    var first := Removal(t, w0.store.objects.Keys, now);
    RemovalIsQuiet(t, w0.store.objects.Keys, now);
    var w1 := Run(cfg, w0, first);
    MayBeginAgain(cfg, w, u, p);
    NewIsNew(cfg, w, w1, q);
    var second := PackAppears(cfg, w1, u, c, m, q, t);
    var w2 := Run(cfg, w1, second);
    assert s in w2.work && w2.work[s] == w.work[s];
    Sweeps(cfg, w2, s);
    var third := [Timed(w2.clock, Continue(s, 0, w2.store.objects.Keys, {}, 0))];
    QuietSweep(s, w2.store.objects.Keys, w2.clock);
    hide Run, Step, NoCleanup, Removal, PackWorldOk, UrlsOk, StagingOk, ConfigOk, MayMutate, Publishable, Usage, WithManifest;
    RunOne(cfg, w2, third[0]);
    RunAppend(cfg, w0, first, second);
    RunAppend(cfg, w0, first + second, third);
    NoCleanupAppend(first, second);
    NoCleanupAppend(first + second, third);
    events := first + second + third;
  }

  lemma PartsOk(cfg: Config, w: World)
    requires PackWorldOk(cfg, w)
    ensures LifecycleOk(cfg, w) && w.rows.packs.Keys <= w.used.packs
  {
    hide RowsOk, StoreOk, FinalizersOk, CleanerOk;
  }

  /** Nothing but the pack's own staging objects is in the way. */
  lemma OnlyOwnStaged(cfg: Config, w: World, p: PackId, t: TaskId, now: Time)
    requires PackWorldOk(cfg, w) && StagingOk(w) && p in w.rows.packs
    ensures var w0 := TakenUp(w, now, t, p); MayEmpty(w0, w0.work[t])
  {
    forall key: Key | key in w.store.objects && key.prefix == PrefixOf(w.rows, p) && key.Staging? ensures key.pack == p {
      OnlyOwn(cfg, w, p, key);
    }
    hide PackWorldOk, StagingOk;
  }

  lemma NewIsNew(cfg: Config, w: World, w1: World, q: PackId)
    requires UrlsOk(cfg, w) && q !in w.used.packs && w.rows.packs.Keys <= w.used.packs
    requires w1.urls == w.urls && w1.rows.packs.Keys <= w.rows.packs.Keys && w1.used == w.used
    ensures q !in w1.used.packs && q !in w1.rows.packs && forall url :: url in w1.urls ==> url.pack != q
  {
    forall url | url in w.urls ensures url.pack in w.used.packs {
      assert UrlOk(cfg, w, url);
    }
    hide UrlsOk;
  }

  // ------------------------------------------------------------------ a run that gets there

  /** The upload session of pack 1 has expired. */
  function Late(cfg: Config): Time { cfg.limits.sessionTtl + 1 }

  function OnePack(cfg: Config, m: ManifestId, status: PackStatus, updated: Time): Rows {
    Rows(map[1 := Account(true, None)], map[1 := Owned(1, None)],
         map[1 := Pack(1, m, TotalBytes(cfg.files(m)), status, 0, updated, None, None)])
  }

  ghost predicate Scene(w: World, at: Time, rows: Rows, work: map<TaskId, Work>) {
    w.clock == at && w.rows == rows && w.work == work && w.store.objects == map[]
  }

  /** A pass takes the pack up. */
  lemma Abandons(cfg: Config, w: World, m: ManifestId)
    requires Scene(w, 0, OnePack(cfg, m, Uploading, 0), map[])
    ensures Scene(Step(cfg, w, Late(cfg), Abandon(1, 1)), Late(cfg), OnePack(cfg, m, Abandoning, Late(cfg)),
                  map[1 := Emptying(1, Prefix(1, m), ThenAbandoned)])
  {
    var w' := Step(cfg, w, Late(cfg), Abandon(1, 1));
    assert w'.rows.packs == OnePack(cfg, m, Abandoning, Late(cfg)).packs;
  }

  lemma FindsEmpty(cfg: Config, w: World, m: ManifestId)
    requires Scene(w, Late(cfg), OnePack(cfg, m, Abandoning, Late(cfg)), map[1 := Emptying(1, Prefix(1, m), ThenAbandoned)])
    ensures Scene(Step(cfg, w, Late(cfg), Go(1, 0)), Late(cfg), OnePack(cfg, m, Abandoning, Late(cfg)),
                  map[1 := Emptied(1, Prefix(1, m), ThenAbandoned)])
  {
    assert w.work[1 := Emptied(1, Prefix(1, m), ThenAbandoned)] == map[1 := Emptied(1, Prefix(1, m), ThenAbandoned)];
  }

  lemma IsAbandoned(cfg: Config, w: World, m: ManifestId)
    requires Scene(w, Late(cfg), OnePack(cfg, m, Abandoning, Late(cfg)), map[1 := Emptied(1, Prefix(1, m), ThenAbandoned)])
    ensures Scene(Step(cfg, w, Late(cfg), Go(1, 0)), Late(cfg), OnePack(cfg, m, Abandoned, Late(cfg)), map[])
  {
    var w' := Step(cfg, w, Late(cfg), Go(1, 0));
    assert w'.rows.packs == OnePack(cfg, m, Abandoned, Late(cfg)).packs;
    assert w'.work == map[];
  }

  /** Its owner deletes the pack, slowly. */
  lemma Deletes(cfg: Config, w: World, m: ManifestId)
    requires Scene(w, Late(cfg), OnePack(cfg, m, Abandoned, Late(cfg)), map[])
    ensures Scene(Step(cfg, w, Late(cfg), Delete(2, 1, 1)), Late(cfg), OnePack(cfg, m, Deleting, Late(cfg)),
                  map[2 := Emptying(1, Prefix(1, m), ThenRemoveDeleting)])
  {
    var w' := Step(cfg, w, Late(cfg), Delete(2, 1, 1));
    assert w'.rows.packs == OnePack(cfg, m, Deleting, Late(cfg)).packs;
  }

  function Slowly(cfg: Config, m: ManifestId): seq<Timed> {
    Beginning + [Timed(0, InitiatePack(1, 1, m, 1))]
    + [Timed(Late(cfg), Abandon(1, 1))] + [Timed(Late(cfg), Go(1, 0))] + [Timed(Late(cfg), Go(1, 0))] + [Timed(Late(cfg), Delete(2, 1, 1))]
  }

  lemma DeletesSlowly(cfg: Config, m: ManifestId)
    requires TotalBytes(cfg.files(m)) <= cfg.limits.quota
    ensures Scene(Run(cfg, Start, Slowly(cfg, m)), Late(cfg), OnePack(cfg, m, Deleting, Late(cfg)),
                  map[2 := Emptying(1, Prefix(1, m), ThenRemoveDeleting)])
  {
    BeginsPack(cfg, m);
    var at := Late(cfg);
    var first := Beginning + [Timed(0, InitiatePack(1, 1, m, 1))];
    var go := Timed(at, Go(1, 0));
    var w := Run(cfg, Start, first);
    assert Scene(w, 0, OnePack(cfg, m, Uploading, 0), map[]);
    hide Step, Scene, OnePack, Late, Run;
    Abandons(cfg, w, m);
    var w1 := Step(cfg, w, at, Abandon(1, 1));
    FindsEmpty(cfg, w1, m);
    var w2 := Step(cfg, w1, at, Go(1, 0));
    IsAbandoned(cfg, w2, m);
    var w3 := Step(cfg, w2, at, Go(1, 0));
    Deletes(cfg, w3, m);
    RunOne(cfg, w, Timed(at, Abandon(1, 1)));
    RunOne(cfg, w1, go);
    RunOne(cfg, w2, go);
    RunOne(cfg, w3, Timed(at, Delete(2, 1, 1)));
    RunAppend(cfg, Start, first, [Timed(at, Abandon(1, 1))]);
    RunAppend(cfg, Start, first + [Timed(at, Abandon(1, 1))], [go]);
    RunAppend(cfg, Start, first + [Timed(at, Abandon(1, 1))] + [go], [go]);
    RunAppend(cfg, Start, first + [Timed(at, Abandon(1, 1))] + [go] + [go], [Timed(at, Delete(2, 1, 1))]);
  }

  lemma SlowlyIsSafe(cfg: Config, m: ManifestId)
    ensures SafeRun(cfg, Start, Slowly(cfg, m))
  {
    forall e | e in Slowly(cfg, m) ensures !e.event.RetireInPortal? {
    }
    WithoutPortal(cfg, Start, Slowly(cfg, m));
    hide SafeRun;
  }

  lemma {:induction false} WithoutPortal(cfg: Config, w: World, events: seq<Timed>)
    requires forall e :: e in events ==> !e.event.RetireInPortal?
    ensures SafeRun(cfg, w, events)
    decreases |events|
  {
    hide Step;
    if events != [] {
      assert events[0] in events;
      WithoutPortal(cfg, Step(cfg, w, events[0].at, events[0].event), events[1..]);
    }
  }

  /** For every manifest within the quota that can be published: after a run from the beginning its owner
      deletes a pack; a pass that takes it up meanwhile lets a continuation end with a pack in use none of
      whose files is in the store. */
  lemma SlowCleanerDeletes(cfg: Config, m: ManifestId) returns (before: seq<Timed>, events: seq<Timed>, q: PackId)
    requires ConfigOk(cfg) && Publishable(cfg, m) && TotalBytes(cfg.files(m)) <= cfg.limits.quota
    ensures NoCleanup(events)
    ensures var w := Run(cfg, Start, before);
            && 1 in w.rows.packs && w.rows.packs[1].status == Deleting && w.rows.packs[1].manifest == m && 1 !in w.work
            && UrlsExpiredBefore(cfg.limits, w.rows.packs[1], w.clock)
            && var w' := Run(cfg, TakenUp(w, w.clock, 1, 1), events);
               q in w'.rows.packs && Shown(w'.rows.packs[q].status) && PrefixOf(w'.rows, q) == Prefix(1, m) && NoFiles(cfg, w', q)
  {
    before := Slowly(cfg, m);
    DeletesSlowly(cfg, m);
    SlowlyIsSafe(cfg, m);
    ReachableUrls(cfg, before);
    ReachableStaging(cfg, before);
    var w := Run(cfg, Start, before);
    DeadIsFree(cfg, w, m);
    hide Run, Slowly, PackWorldOk, UrlsOk, StagingOk, ConfigOk, NoFiles, SafeRun, Usage, NoCleanup;
    events, q := SecondCleanupLoses(cfg, w, w.clock, 1, 1, 2, 1);
  }

  lemma DeadIsFree(cfg: Config, w: World, m: ManifestId)
    requires w.rows == OnePack(cfg, m, Deleting, Late(cfg))
    ensures Usage(w.rows, 1) == 0
  {
    assert Counted(w.rows, 1) == {};
  }
}
