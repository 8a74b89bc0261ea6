/** What is staged under a prefix belongs to the one pack of that prefix, and a cleanup that has found its
    prefix empty will not see anything staged there again. */
module PackStaging {
  import opened Common
  import opened Catalog
  import opened Packs
  import opened PackWorld
  import opened PackLifecycle
  import opened PackRemovals
  import opened PackStore
  import opened PackUrls

  /** The object's pack has this prefix, or went with its account. */
  ghost predicate OwnStaging(w: World, k: Key)
    requires k.Staging?
  {
    && k.pack in w.used.packs && k.prefix.companion in w.used.companions
    && if k.pack in w.rows.packs then k.prefix == PrefixOf(w.rows, k.pack) else k.prefix.companion !in w.rows.companions
  }

  ghost predicate EmptiedOk(w: World, k: Work) {
    k.Emptied? && k.pack in w.rows.packs ==> !StagedUnder(w.store, k.prefix)
  }

  ghost predicate StagingOk(w: World) {
    && (forall k: Key :: k in w.store.objects && k.Staging? ==> OwnStaging(w, k))
    && (forall t :: t in w.work ==> EmptiedOk(w, w.work[t]))
  }

  /** Whoever may upload has a URL of a pack with a row. */
  lemma UploaderHasRow(cfg: Config, w: World, now: Time, k: Key)
    requires UrlsOk(cfg, w) && MayUpload(cfg, w.urls, k, now) && w.clock <= now
    ensures k.pack in w.rows.packs && k.prefix == PrefixOf(w.rows, k.pack) && !AllLapsed(cfg, w, k.pack)
  {
    var url :| url in w.urls && url.pack == k.pack && url.prefix == k.prefix && !Lapsed(cfg, url, now);
    assert UrlOk(cfg, w, url);
    hide StatusOk, WorkOk;
  }

  lemma StagingStays(cfg: Config, w: World, now: Time, e: Event, k: Key)
    requires PackWorldOk(cfg, w) && UrlsOk(cfg, w) && StagingOk(w) && Enabled(cfg, w, now, e)
    requires k.Staging? && k in w.store.objects && k in Act(cfg, w, now, e).store.objects
    ensures OwnStaging(Act(cfg, w, now, e), k)
  {
    var w' := Act(cfg, w, now, e);
    assert OwnStaging(w, k);
    ActEvolves(cfg, w, now, e);
    ActUsed(cfg, w, now, e);
    NewKeys(cfg, w, now, e);
    if k.pack in w.rows.packs && k.pack in w'.rows.packs {
      ActPrefix(cfg, w, now, e, k.pack);
    } else if k.pack in w.rows.packs {
      Removals(cfg, w, now, e, k.pack);
      LeavesNothingStaged(cfg, w, now, e, k);
      RemovedWithAccount(cfg, w, now, e, k.pack);
    } else {
      GoneStays(w, w'.rows, k.pack);
    }
    hide Act, Enabled, PackWorldOk, UrlsOk, RowsOk;
  }

  /** A row that goes at the end of its own cleanup leaves nothing staged. */
  lemma LeavesNothingStaged(cfg: Config, w: World, now: Time, e: Event, k: Key)
    requires PackWorldOk(cfg, w) && StagingOk(w) && e.Continue? && e.task in w.work
    requires k.Staging? && k in w.store.objects && k.pack in w.rows.packs
    ensures !(w.work[e.task].Emptied? && w.work[e.task].pack == k.pack)
  {
    assert OwnStaging(w, k) && EmptiedOk(w, w.work[e.task]);
    CleanerHolds(cfg, w, e.task);
    hide PackWorldOk;
  }

  lemma EmptiedStays(cfg: Config, w: World, now: Time, e: Event, k: Work)
    requires PackWorldOk(cfg, w) && UrlsOk(cfg, w) && Enabled(cfg, w, now, e)
    requires CleanerOk(w, k) && RemoverOk(cfg, w, k) && EmptiedOk(w, k)
    ensures EmptiedOk(Act(cfg, w, now, e), k)
  {
    var w' := Act(cfg, w, now, e);
    ActEvolves(cfg, w, now, e);
    if k.Emptied? && k.pack in w'.rows.packs && k.pack in w.rows.packs {
      forall key: Key | key in w'.store.objects && key.Staging? ensures key.prefix != k.prefix {
        StaysUnstaged(cfg, w, now, e, k, key);
      }
    }
    hide Act, Enabled, PackWorldOk, UrlsOk, RowsOk, MayUpload;
  }

  lemma StaysUnstaged(cfg: Config, w: World, now: Time, e: Event, k: Work, key: Key)
    requires PackWorldOk(cfg, w) && UrlsOk(cfg, w) && Enabled(cfg, w, now, e) && k.Emptied? && k.pack in w.rows.packs
    requires CleanerOk(w, k) && RemoverOk(cfg, w, k) && EmptiedOk(w, k)
    requires key in Act(cfg, w, now, e).store.objects && key.Staging?
    ensures key.prefix != k.prefix
  {
    if key !in w.store.objects {
      ActStages(cfg, w, now, e, key);
      Forward(cfg, w, now, e);
      UploaderHasRow(cfg, w, now, key);
      if key.prefix == k.prefix {
        OnePerPrefix(cfg, w, key.pack, k.pack);
      }
    }
    hide Act, Enabled, PackWorldOk, UrlsOk, AllLapsed;
  }

  lemma NewEmptied(cfg: Config, w: World, now: Time, e: Event, t: TaskId)
    requires PackWorldOk(cfg, w) && UrlsOk(cfg, w) && Enabled(cfg, w, now, e)
    requires t in Act(cfg, w, now, e).work && !(t in w.work && Act(cfg, w, now, e).work[t] == w.work[t])
    ensures EmptiedOk(Act(cfg, w, now, e), Act(cfg, w, now, e).work[t])
  {
    NewTaskId(cfg, w, now, e, t);
    var w' := Act(cfg, w, now, e);
    if w'.work[t].Emptied? {
      if e.Continue? {
        Continues(cfg, w, now, e);
        ResumedWork(cfg, w, now, e);
        ResumedCleaner(cfg, w, now, w.work[t], e);
        FoundEmpty(cfg, w, now, w.work[t], e);
      } else if e.Complete? || e.Finalize? {
        StartedWork(cfg, w, now, e);
      } else {
        ClaimedDead(cfg, w, now, e);
      }
    }
    hide Act, Enabled, PackWorldOk, UrlsOk, Resume, ContinueEnabled, StagedUnder;
  }

  lemma StepKeepsStaging(cfg: Config, w: World, now: Time, e: Event)
    requires PackWorldOk(cfg, w) && UrlsOk(cfg, w) && StagingOk(w)
    ensures StagingOk(Step(cfg, w, now, e))
  {
    hide PackWorldOk, UrlsOk, Act, Enabled;
    if Enabled(cfg, w, now, e) {
      var w' := Act(cfg, w, now, e);
      forall k: Key | k in w'.store.objects && k.Staging? ensures OwnStaging(w'.(clock := now), k) {
        if k in w.store.objects {
          StagingStays(cfg, w, now, e, k);
        } else {
          UploadIsOwn(cfg, w, now, e, k);
        }
      }
      forall t | t in w'.work ensures EmptiedOk(w'.(clock := now), w'.work[t]) {
        if t in w.work && w'.work[t] == w.work[t] {
          WorkHolds(cfg, w, t);
          EmptiedStays(cfg, w, now, e, w.work[t]);
        } else {
          NewEmptied(cfg, w, now, e, t);
        }
      }
    }
  }

  lemma WorkHolds(cfg: Config, w: World, t: TaskId)
    requires PackWorldOk(cfg, w) && UrlsOk(cfg, w) && t in w.work
    ensures CleanerOk(w, w.work[t]) && RemoverOk(cfg, w, w.work[t])
  {
    assert WorkOk(cfg, w, w.work[t]);
    CleanerHolds(cfg, w, t);
    hide PackWorldOk, UrlsOk, RemoverOk;
  }

  lemma UploadIsOwn(cfg: Config, w: World, now: Time, e: Event, k: Key)
    requires PackWorldOk(cfg, w) && UrlsOk(cfg, w) && Enabled(cfg, w, now, e)
    requires k.Staging? && k in Act(cfg, w, now, e).store.objects && k !in w.store.objects
    ensures OwnStaging(Act(cfg, w, now, e), k)
  {
    ActStages(cfg, w, now, e, k);
    Forward(cfg, w, now, e);
    UploaderHasRow(cfg, w, now, k);
    LinksHold(cfg, w);
    hide PackWorldOk, UrlsOk, MayUpload, Enabled;
  }

  lemma {:induction false} RunKeepsStaging(cfg: Config, w: World, events: seq<Timed>)
    requires ConfigOk(cfg) && PackWorldOk(cfg, w) && UrlsOk(cfg, w) && StagingOk(w) && SafeRun(cfg, w, events)
    ensures StagingOk(Run(cfg, w, events))
    decreases |events|
  {
    hide ConfigOk, PackWorldOk, Step, PortalSafe, UrlsOk, StagingOk;
    if events != [] {
      StepKeepsStore(cfg, w, events[0].at, events[0].event);
      StepKeepsUrls(cfg, w, events[0].at, events[0].event);
      StepKeepsStaging(cfg, w, events[0].at, events[0].event);
      RunKeepsStaging(cfg, Step(cfg, w, events[0].at, events[0].event), events[1..]);
    }
  }

  /** In every state reached with safe retirements, what is staged under a pack's prefix is its own. */
  lemma ReachableStaging(cfg: Config, events: seq<Timed>)
    requires ConfigOk(cfg) && SafeRun(cfg, Start, events)
    ensures var w := Run(cfg, Start, events);
            && StagingOk(w)
            && forall p, k: Key :: p in w.rows.packs && k in w.store.objects && k.Staging? && k.prefix == PrefixOf(w.rows, p) ==> k.pack == p
  {
    StartOk(cfg);
    StartUrls(cfg);
    RunKeepsStaging(cfg, Start, events);
    ReachableUrls(cfg, events);
    var w := Run(cfg, Start, events);
    hide Run, PackWorldOk, UrlsOk, SafeRun;
    forall p, k: Key | p in w.rows.packs && k in w.store.objects && k.Staging? && k.prefix == PrefixOf(w.rows, p) ensures k.pack == p {
      OnlyOwn(cfg, w, p, k);
    }
  }

  lemma OnlyOwn(cfg: Config, w: World, p: PackId, k: Key)
    requires PackWorldOk(cfg, w) && StagingOk(w) && p in w.rows.packs && k.Staging? && k in w.store.objects && k.prefix == PrefixOf(w.rows, p)
    ensures k.pack == p
  {
    assert OwnStaging(w, k);
    LinksHold(cfg, w);
    hide PackWorldOk;
    assert k.pack in w.rows.packs;
    OnePerPrefix(cfg, w, p, k.pack);
  }
}
