/** How a pack's row goes: at the end of its own cleanup, or with its account, whose finalization counts
    packs page by page. */
module PackRemovals {
  import opened Common
  import opened Catalog
  import opened Packs
  import opened PackWorld
  import opened PackLifecycle

  /** A row goes away at the end of its own cleanup, or with its account. */
  ghost predicate Removes(cfg: Config, w: World, now: Time, e: Event, p: PackId)
    requires p in w.rows.packs
  {
    && e.Continue? && e.task in w.work
    && var k := w.work[e.task];
       || (k.Emptied? && k.pack == p && k.ending != ThenAbandoned)
       || (k.Finalizing? && OwnsPack(w.rows, k.user, p) && UrlsExpired(cfg.limits, w.rows.packs[p], now))
  }

  lemma ResumeRemovals(cfg: Config, w: World, now: Time, e: Event, p: PackId)
    requires e.Continue? && Enabled(cfg, w, now, e) && p in w.rows.packs
    requires p !in Resume(cfg, w, now, w.work[e.task], e).rows.packs
    ensures Removes(cfg, w, now, e, p)
  {
    hide PrefixEmpty, UrlsExpired, Inspect, Copy, Recheck;
    StorageOnly(cfg, w, w.work[e.task], e.etag);
  }

  lemma Removals(cfg: Config, w: World, now: Time, e: Event, p: PackId)
    requires Enabled(cfg, w, now, e) && p in w.rows.packs && p !in Act(cfg, w, now, e).rows.packs
    ensures Removes(cfg, w, now, e, p)
  {
    hide Resume, Usage, DeletionDue, PrefixEmpty, UrlsExpired, NextFile;
    if e.Continue? {
      ResumeRemovals(cfg, w, now, e, p);
    }
  }

  // ------------------------------------------------------------------ accounts

  /** The bookkeeping of an account's finalization: what was processed, and what is left of the
      page, are distinct packs among those counted at the start; and no pack of the account is
      outside of them, because a leaving account gets no new ones. */
  ghost predicate FinalizerOk(w: World, k: Work) {
    k.Finalizing? ==>
      && |k.start| == k.initial && k.done + k.todo.Keys <= k.start && k.done !! k.todo.Keys
      && |k.done| + |k.todo| == k.processed
      && (forall p :: p in k.done + k.todo.Keys ==> k.cursor.Some? && p <= k.cursor.value)
      && k.start <= w.used.packs && k.user in w.used.users
      && (k.user in w.rows.accounts ==> w.rows.accounts[k.user].deletionRequestedAt.Some?)
      && PacksOf(w.rows, k.user) <= k.start
  }

  lemma LeavingGetsNoPacks(cfg: Config, w: World, rows: Rows, k: Work)
    requires FinalizerOk(w, k) && k.Finalizing? && UsedOk(w) && LinksOk(w.rows) && Evolves(w, rows)
    ensures PacksOf(rows, k.user) <= k.start
    ensures k.user in rows.accounts ==> rows.accounts[k.user].deletionRequestedAt.Some?
  {
    forall p | p in PacksOf(rows, k.user) ensures p in k.start {
      if p in w.rows.packs {
        assert Ages(w.rows.packs[p], rows.packs[p]);
        assert p in PacksOf(w.rows, k.user);
      }
    }
  }

  lemma FinalizerStays(cfg: Config, w: World, w': World, k: Work)
    requires LifecycleOk(cfg, w) && FinalizerOk(w, k) && Evolves(w, w'.rows)
    requires w.used.packs <= w'.used.packs && w.used.users <= w'.used.users
    ensures FinalizerOk(w', k)
  {
    if k.Finalizing? {
      LinksHold(cfg, w);
      hide LifecycleOk, Evolves;
      LeavingGetsNoPacks(cfg, w, w'.rows, k);
    }
  }

  lemma LinksHold(cfg: Config, w: World)
    requires LifecycleOk(cfg, w)
    ensures LinksOk(w.rows) && UsedOk(w)
  {
  }

  lemma OneProcessed(w: World, k: Work, last: PackId)
    requires k.Finalizing? && FinalizerOk(w, k) && last in k.todo
    ensures FinalizerOk(w, k.(todo := k.todo - {last}, done := k.done + {last}))
  {
    var rest := k.todo - {last};
    assert k.todo.Keys == rest.Keys + {last};
    assert |k.todo| == |k.todo.Keys| && |rest| == |rest.Keys|;
  }

  lemma PageTaken(w: World, k: Work, page: set<PackId>, last: PackId)
    requires k.Finalizing? && FinalizerOk(w, k) && k.todo == map[] && page <= PacksOf(w.rows, k.user)
    requires forall p :: p in page ==> p <= last && (k.cursor.Some? ==> k.cursor.value < p)
    ensures FinalizerOk(w, k.(todo := map p | p in page :: PrefixOf(w.rows, p), processed := k.processed + |page|,
                              cursor := if page == {} then k.cursor else Some(last), more := |page| >= 100))
  {
    var todo := map p | p in page :: PrefixOf(w.rows, p);
    assert todo.Keys == page && |todo| == |todo.Keys|;
    assert forall q :: q in k.done ==> q in k.done + k.todo.Keys;
    assert page !! k.done;
  }

  /** One more pack processed, or one more page taken up. */
  lemma FinalizeGoesOn(cfg: Config, w: World, k: Work, now: Time, keys: set<Key>, page: set<PackId>, last: PackId)
    requires k.Finalizing? && FinalizerOk(w, k) && page <= PacksOf(w.rows, k.user)
    requires forall p :: p in page ==> p <= last && (k.cursor.Some? ==> k.cursor.value < p)
    ensures var out := FinalizeStep(cfg, w, k, now, keys, page, last);
            out.next.Some? ==> FinalizerOk(w, out.next.value)
  {
    hide PrefixEmpty, DeletionDue, RemoveAccount, DeleteUnder, FinalizerOk, PacksOf, PrefixOf;
    if k.todo != map[] {
      if last in k.todo {
        OneProcessed(w, k, last);
      }
    } else if k.more {
      PageTaken(w, k, page, last);
    }
  }

  /** When the account goes, every pack it still has was processed: the counts agree only if nothing
      was added, lost or skipped since the start. */
  lemma AccountGoesLast(cfg: Config, w: World, k: Work, now: Time, keys: set<Key>, page: set<PackId>, last: PackId)
    requires k.Finalizing? && FinalizerOk(w, k) && page <= PacksOf(w.rows, k.user) && k.user in w.rows.accounts
    requires k.user !in FinalizeStep(cfg, w, k, now, keys, page, last).rows.accounts
    ensures PacksOf(w.rows, k.user) == k.done == k.start
    ensures DeletionDue(w.rows, cfg.limits, k.user, now)
  {
    hide PrefixEmpty, DeletionDue;
    assert |k.done| == |k.start|;
    Equal(k.done, k.start);
    Equal(PacksOf(w.rows, k.user), k.start);
  }

  lemma Equal(a: set<PackId>, b: set<PackId>)
    requires a <= b && |a| == |b|
    ensures a == b
  {
    assert |b - a| == |b| - |a|;
  }

  lemma NewFinalizer(cfg: Config, w: World, now: Time, e: Event, t: TaskId)
    requires LifecycleOk(cfg, w) && Enabled(cfg, w, now, e) && (forall q :: q in w.work ==> FinalizerOk(w, w.work[q]))
    requires t in Act(cfg, w, now, e).work && !(t in w.work && Act(cfg, w, now, e).work[t] == w.work[t])
    ensures FinalizerOk(Act(cfg, w, now, e), Act(cfg, w, now, e).work[t])
  {
    hide RowsOk, FinalizerOk, CleanerOk, Activate, RequestDeletion, Initiate, RecordUrls, DeletionDue, PrefixEmpty, FinalizeStep, UrlsExpired;
    if e.Finalize? {
      StartsFinalizing(w, e.user);
    } else if e.Continue? {
      var k := w.work[e.task];
      assert FinalizerOk(w, k);
      if k.Finalizing? {
        FinalizeGoesOn(cfg, w, k, now, e.keys, e.page, e.last);
        FinalizeKeepsRows(cfg, w, k, now, e.keys, e.page, e.last);
        if Resume(cfg, w, now, k, e).next.Some? {
          SameRows(w, Act(cfg, w, now, e), Act(cfg, w, now, e).work[t]);
        }
      } else {
        OnlyFinalizing(Act(cfg, w, now, e), Act(cfg, w, now, e).work[t]);
      }
    } else {
      OnlyFinalizing(Act(cfg, w, now, e), Act(cfg, w, now, e).work[t]);
    }
  }

  lemma OnlyFinalizing(w: World, k: Work)
    ensures !k.Finalizing? ==> FinalizerOk(w, k)
  {
  }

  lemma StartsFinalizing(w: World, u: UserId)
    requires UsedOk(w) && u in w.rows.accounts && w.rows.accounts[u].deletionRequestedAt.Some?
    ensures FinalizerOk(w, Finalizing(u, |PacksOf(w.rows, u)|, 0, None, true, map[], {}, PacksOf(w.rows, u)))
    ensures forall work :: FinalizerOk(w.(work := work), Finalizing(u, |PacksOf(w.rows, u)|, 0, None, true, map[], {}, PacksOf(w.rows, u)))
  {
  }

  lemma SameRows(w: World, w': World, k: Work)
    requires FinalizerOk(w, k) && w'.rows == w.rows && w'.used == w.used
    ensures FinalizerOk(w', k)
  {
  }

  lemma FinalizeKeepsRows(cfg: Config, w: World, k: Work, now: Time, keys: set<Key>, page: set<PackId>, last: PackId)
    requires k.Finalizing? && page <= PacksOf(w.rows, k.user)
    ensures var out := FinalizeStep(cfg, w, k, now, keys, page, last); out.next.Some? ==> out.rows == w.rows && out.next.value.Finalizing?
  {
    hide PrefixEmpty, DeletionDue;
  }

  ghost predicate FinalizersOk(w: World) { forall t :: t in w.work ==> FinalizerOk(w, w.work[t]) }

  lemma StepKeepsFinalizers(cfg: Config, w: World, now: Time, e: Event)
    requires LifecycleOk(cfg, w) && FinalizersOk(w)
    ensures FinalizersOk(Step(cfg, w, now, e))
  {
    hide LifecycleOk, Act, Enabled, Evolves, FinalizerOk;
    if Enabled(cfg, w, now, e) {
      var w' := Act(cfg, w, now, e);
      ActEvolves(cfg, w, now, e);
      NewKeys(cfg, w, now, e);
      forall t | t in w'.work ensures FinalizerOk(w'.(clock := now), w'.work[t]) {
        if t in w.work && w'.work[t] == w.work[t] {
          FinalizerStays(cfg, w, w'.(clock := now), w.work[t]);
        } else {
          NewFinalizer(cfg, w, now, e, t);
          SameRows(w', w'.(clock := now), w'.work[t]);
        }
      }
    }
  }
}
