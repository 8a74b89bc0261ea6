/** Rows outlive upload URLs: a pack's row, or a deleted account's, goes away only when every URL ever
    issued for it has expired; and an account only when every one of its packs was processed. The
    service's cleanups look at the stamp of the last URL. The portal's retirement does not, but it deletes
    no staging objects, and a pack that was completed has them until its URLs have expired. */
module PackUrls {
  import opened Common
  import opened Catalog
  import opened Packs
  import opened PackWorld
  import opened PackLifecycle
  import opened PackRemovals
  import opened PackStore

  // ------------------------------------------------------------------ what changes a row's stamps

  /** Only createUploadUrls writes lastUploadUrlIssuedAt. */
  ghost predicate StampsStay(rows: Rows, rows': Rows) {
    forall p :: p in rows.packs && p in rows'.packs ==> rows'.packs[p].lastIssued == rows.packs[p].lastIssued
  }

  lemma ResumeStamps(cfg: Config, w: World, now: Time, k: Work, e: Event)
    requires e.Continue? && ContinueEnabled(cfg, w, k, e.etag, e.page, e.last)
    ensures StampsStay(w.rows, Resume(cfg, w, now, k, e).rows)
  {
    hide PrefixEmpty, DeletionDue, Inspect, Copy, Recheck;
    StorageOnly(cfg, w, k, e.etag);
  }

  lemma ActStamps(cfg: Config, w: World, now: Time, e: Event)
    requires Enabled(cfg, w, now, e) && !e.IssueUrls?
    ensures StampsStay(w.rows, Act(cfg, w, now, e).rows)
  {
    hide Resume, Usage, DeletionDue, PrefixEmpty, UrlsExpired, NextFile;
    if e.Continue? {
      ResumeStamps(cfg, w, now, w.work[e.task], e);
    }
  }

  /** How a row comes to its status: uploading and verifying packs were so before; deleting ones by a
      claim, by their owner's deletion, or before. */
  ghost predicate RowMoves(w: World, e: Event, p: PackId, a: Pack, b: Pack) {
    && (InUpload(b.status) ==> InUpload(a.status))
    && (b.status == Deleting ==>
          || a.status == Deleting
          || ((e.Delete? || e.Retire? || e.RetireInPortal?) && e.pack == p)
          || (e.DeleteAccount? && e.user in w.rows.accounts && OwnsPack(w.rows, e.user, p)))
  }

  predicate InUpload(s: PackStatus) { s == Uploading || s == Verifying }

  lemma ResumeRow(cfg: Config, w: World, now: Time, e: Event, p: PackId)
    requires e.Continue? && e.task in w.work && ContinueEnabled(cfg, w, w.work[e.task], e.etag, e.page, e.last)
    requires p in w.rows.packs && p in Resume(cfg, w, now, w.work[e.task], e).rows.packs
    ensures RowMoves(w, e, p, w.rows.packs[p], Resume(cfg, w, now, w.work[e.task], e).rows.packs[p])
  {
    hide PrefixEmpty, DeletionDue, Inspect, Copy, Recheck;
    StorageOnly(cfg, w, w.work[e.task], e.etag);
  }

  lemma InitiateRow(cfg: Config, w: World, now: Time, e: Event, p: PackId)
    requires e.InitiatePack? && p in w.rows.packs
    ensures var rows := Initiate(w.rows, cfg.limits, e.user, e.companion, e.manifest, TotalBytes(cfg.files(e.manifest)), now, e.pack).rows;
            p in rows.packs && RowMoves(w, e, p, w.rows.packs[p], rows.packs[p])
  {
    hide Usage;
  }

  lemma ActRow(cfg: Config, w: World, now: Time, e: Event, p: PackId)
    requires Enabled(cfg, w, now, e) && p in w.rows.packs && p in Act(cfg, w, now, e).rows.packs
    ensures RowMoves(w, e, p, w.rows.packs[p], Act(cfg, w, now, e).rows.packs[p])
  {
    hide Resume, Initiate, Usage, DeletionDue, PrefixEmpty, UrlsExpired, NextFile;
    if e.Continue? {
      ResumeRow(cfg, w, now, e, p);
    } else if e.InitiatePack? {
      InitiateRow(cfg, w, now, e, p);
    }
  }

  /** URLs appear only in createUploadUrls. */
  lemma SameUrls(cfg: Config, w: World, now: Time, e: Event)
    requires Enabled(cfg, w, now, e) && !e.IssueUrls?
    ensures Act(cfg, w, now, e).urls == w.urls && w.clock <= now
  {
    hide Resume, Initiate, Activate, RequestDeletion, DeletionDue, NextFile, ClaimVerifying, ClaimDelete, ClaimAbandon, ClaimSuperseded, ClaimRetired;
  }

  // ------------------------------------------------------------------ what deletes staging objects

  ghost predicate StagedUnder(s: Store, x: Prefix) { exists k :: k in s.objects && k.Staging? && k.prefix == x }

  /** The staging cleanup of an active pack, a cleanup of the service, or the finalization of an account. */
  ghost predicate Unstages(cfg: Config, w: World, now: Time, e: Event, x: Prefix) {
    || (e.CleanStaging? && MayCleanStaging(w.rows, cfg.limits, e.pack, now) && PrefixOf(w.rows, e.pack) == x)
    || (e.Continue? && e.task in w.work
        && var k := w.work[e.task];
           || (k.Emptying? && k.prefix == x && k.ending != ThenRemoveInPortal)
           || (k.Finalizing? && e.last in k.todo && k.todo[e.last] == x))
  }

  lemma ResumeUnstages(cfg: Config, w: World, now: Time, e: Event, key: Key)
    requires e.Continue? && e.task in w.work && ContinueEnabled(cfg, w, w.work[e.task], e.etag, e.page, e.last)
    requires key.Staging? && key in w.store.objects && key !in Resume(cfg, w, now, w.work[e.task], e).store.objects
    ensures Unstages(cfg, w, now, e, key.prefix)
  {
    hide PrefixEmpty, DeletionDue, Fits, Activate, Ended;
  }

  lemma ActUnstages(cfg: Config, w: World, now: Time, e: Event, key: Key)
    requires Enabled(cfg, w, now, e) && key.Staging? && key in w.store.objects && key !in Act(cfg, w, now, e).store.objects
    ensures Unstages(cfg, w, now, e, key.prefix)
  {
    hide Resume, Initiate, Activate, RequestDeletion, DeletionDue, NextFile, ClaimVerifying, ClaimDelete, ClaimAbandon, ClaimSuperseded,
         ClaimRetired, UrlsExpired, ContinueEnabled;
    if e.Continue? {
      Continues(cfg, w, now, e);
      ResumeUnstages(cfg, w, now, e, key);
    }
  }

  /** Staging objects appear only by uploads. */
  lemma ResumeStages(cfg: Config, w: World, now: Time, e: Event, key: Key)
    requires e.Continue? && e.task in w.work && ContinueEnabled(cfg, w, w.work[e.task], e.etag, e.page, e.last)
    requires key.Staging? && key in Resume(cfg, w, now, w.work[e.task], e).store.objects
    ensures key in w.store.objects
  {
    hide PrefixEmpty, DeletionDue, Fits, Activate, Ended;
  }

  lemma ActStages(cfg: Config, w: World, now: Time, e: Event, key: Key)
    requires Enabled(cfg, w, now, e) && key.Staging? && key in Act(cfg, w, now, e).store.objects && key !in w.store.objects
    ensures e.Upload? && e.key == key && MayUpload(cfg, w.urls, key, now)
  {
    hide Resume, Initiate, Activate, RequestDeletion, DeletionDue, NextFile, ClaimVerifying, ClaimDelete, ClaimAbandon, ClaimSuperseded,
         ClaimRetired, UrlsExpired, ContinueEnabled, MayUpload;
    if e.Continue? {
      Continues(cfg, w, now, e);
      ResumeStages(cfg, w, now, e, key);
    }
  }

  // ------------------------------------------------------------------ the invariant

  /** A URL is for its pack's prefix and covered by its pack's stamp, up to the skew, as long as the row is
      there; and has expired once it is gone. */
  ghost predicate UrlOk(cfg: Config, w: World, url: Url) {
    && url.pack in w.used.packs && url.issuedAt <= w.clock
    && if url.pack in w.rows.packs
       then && w.rows.packs[url.pack].lastIssued.Some? && url.issuedAt <= w.rows.packs[url.pack].lastIssued.value + SKEW
            && url.prefix == PrefixOf(w.rows, url.pack)
       else Lapsed(cfg, url, w.clock)
  }

  ghost predicate LapsedBy(cfg: Config, w: World, p: PackId, now: Time) {
    forall url :: url in w.urls && url.pack == p ==> Lapsed(cfg, url, now)
  }

  ghost predicate AllLapsed(cfg: Config, w: World, p: PackId) { LapsedBy(cfg, w, p, w.clock) }

  /** Either no URL is alive, or something is staged: and then the portal cannot find the prefix empty. */
  ghost predicate Held(cfg: Config, w: World, p: PackId)
    requires p in w.rows.packs
  {
    AllLapsed(cfg, w, p) || StagedUnder(w.store, PrefixOf(w.rows, p))
  }

  /** The pack's account is to be deleted. */
  predicate Leaving(rows: Rows, p: PackId)
    requires p in rows.packs
  {
    exists u :: u in rows.accounts && rows.accounts[u].deletionRequestedAt.Some? && OwnsPack(rows, u, p)
  }

  /** A pack that was completed is held; and one that is being deleted, unless its whole account goes. */
  ghost predicate StatusOk(cfg: Config, w: World, p: PackId)
    requires p in w.rows.packs
  {
    Shown(w.rows.packs[p].status) || (w.rows.packs[p].status == Deleting && !Leaving(w.rows, p)) ==> Held(cfg, w, p)
  }

  /** A cleanup started after every URL had expired; the portal's may have started while something was
      staged, and has not found the prefix empty since, unless they have expired. */
  ghost predicate RemoverOk(cfg: Config, w: World, k: Work) {
    Cleans(k) && k.pack in w.rows.packs ==>
      AllLapsed(cfg, w, k.pack) || (k.Emptying? && k.ending == ThenRemoveInPortal && StagedUnder(w.store, k.prefix))
  }

  /** An account is finalized after every URL of its packs has expired. */
  ghost predicate FinalizerUrls(cfg: Config, w: World, k: Work) {
    k.Finalizing? ==> forall p :: p in PacksOf(w.rows, k.user) ==> AllLapsed(cfg, w, p)
  }

  /** The completion has seen a staging object. */
  predicate HasInspected(k: Work) {
    (k.Inspecting? && k.file > 0) || k.Copying? || k.Rechecking? || k.Publishing? || k.Activating?
  }

  /** What a completion has seen stays until the pack is in use or dead. */
  ghost predicate CompleterStaged(w: World, k: Work) {
    HasInspected(k) && k.pack in w.rows.packs && InUpload(w.rows.packs[k.pack].status) ==> StagedUnder(w.store, k.prefix)
  }

  ghost predicate WorkOk(cfg: Config, w: World, k: Work) {
    RemoverOk(cfg, w, k) && FinalizerUrls(cfg, w, k) && CompleterStaged(w, k)
  }

  ghost predicate UrlsOk(cfg: Config, w: World) {
    && (forall url :: url in w.urls ==> UrlOk(cfg, w, url))
    && (forall p :: p in w.rows.packs ==> StatusOk(cfg, w, p))
    && (forall t :: t in w.work ==> WorkOk(cfg, w, w.work[t]))
  }

  /** The check every claim of the service makes is about the last stamp, and covers all URLs. */
  lemma ExpiredCoversAll(cfg: Config, w: World, p: PackId, now: Time)
    requires UrlsOk(cfg, w) && p in w.rows.packs && UrlsExpired(cfg.limits, w.rows.packs[p], now)
    ensures LapsedBy(cfg, w, p, now)
  {
    forall url | url in w.urls && url.pack == p ensures Lapsed(cfg, url, now) {
      assert UrlOk(cfg, w, url);
    }
  }

  // ------------------------------------------------------------------ what stays

  /** Two packs of one prefix are one. */
  lemma OnePerPrefix(cfg: Config, w: World, p: PackId, q: PackId)
    requires LifecycleOk(cfg, w) && p in w.rows.packs && q in w.rows.packs && PrefixOf(w.rows, p) == PrefixOf(w.rows, q)
    ensures p == q
  {
    hide LinksOk, ActiveOk, DeletionOk, QuotaOk, UsedOk;
  }

  lemma FinalizerOwns(cfg: Config, w: World, k: Work, last: PackId, p: PackId)
    requires LifecycleOk(cfg, w) && k.Finalizing? && SweeperOk(w, k) && last in k.todo && p in w.rows.packs && PrefixOf(w.rows, p) == k.todo[last]
    ensures p in PacksOf(w.rows, k.user)
  {
    LinksHold(cfg, w);
    hide LifecycleOk, NoLive;
  }

  /** While a pack has a live URL, or is in upload, no step deletes a staging object under its prefix. */
  lemma UnstagedIsLapsed(cfg: Config, w: World, now: Time, e: Event, p: PackId)
    requires PackWorldOk(cfg, w) && UrlsOk(cfg, w) && w.clock <= now && p in w.rows.packs && Unstages(cfg, w, now, e, PrefixOf(w.rows, p))
    ensures LapsedBy(cfg, w, p, now) && !InUpload(w.rows.packs[p].status)
  {
    hide LifecycleOk, UrlsExpired, LapsedBy, UrlOk, StatusOk;
    if e.CleanStaging? {
      OnePerPrefix(cfg, w, p, e.pack);
      ExpiredCoversAll(cfg, w, p, now);
    } else {
      var k := w.work[e.task];
      assert WorkOk(cfg, w, k) && SweeperOk(w, k);
      CleanerHolds(cfg, w, e.task);
      if k.Emptying? {
        LinksHold(cfg, w);
        assert k.pack in w.rows.packs;
        OnePerPrefix(cfg, w, p, k.pack);
      } else {
        FinalizerOwns(cfg, w, k, e.last, p);
        assert FinalizerOk(w, k);
        FinalizerMaySweep(cfg, w, k, e.last);
      }
      LapsedLater(cfg, w, p, now);
    }
  }

  lemma CleanerHolds(cfg: Config, w: World, t: TaskId)
    requires LifecycleOk(cfg, w) && t in w.work
    ensures CleanerOk(w, w.work[t])
  {
    hide RowsOk, UsedOk;
  }

  lemma LapsedLater(cfg: Config, w: World, p: PackId, now: Time)
    requires AllLapsed(cfg, w, p) && w.clock <= now
    ensures LapsedBy(cfg, w, p, now)
  {
  }

  lemma StagedStays(cfg: Config, w: World, now: Time, e: Event, p: PackId)
    requires PackWorldOk(cfg, w) && UrlsOk(cfg, w) && Enabled(cfg, w, now, e) && p in w.rows.packs && StagedUnder(w.store, PrefixOf(w.rows, p))
    ensures StagedUnder(Act(cfg, w, now, e).store, PrefixOf(w.rows, p)) || (LapsedBy(cfg, w, p, now) && !InUpload(w.rows.packs[p].status))
  {
    var x := PrefixOf(w.rows, p);
    var key :| key in w.store.objects && key.Staging? && key.prefix == x;
    Forward(cfg, w, now, e);
    if key !in Act(cfg, w, now, e).store.objects {
      ActUnstages(cfg, w, now, e, key);
      UnstagedIsLapsed(cfg, w, now, e, p);
    }
    hide *;
  }

  lemma Forward(cfg: Config, w: World, now: Time, e: Event)
    requires Enabled(cfg, w, now, e)
    ensures w.clock <= now
  {
  }

  /** A pack that is held stays so. */
  lemma HeldStays(cfg: Config, w: World, now: Time, e: Event, p: PackId)
    requires PackWorldOk(cfg, w) && UrlsOk(cfg, w) && Enabled(cfg, w, now, e) && !e.IssueUrls?
    requires p in w.rows.packs && Held(cfg, w, p) && p in Act(cfg, w, now, e).rows.packs
    ensures Held(cfg, Act(cfg, w, now, e).(clock := now), p)
  {
    SameUrls(cfg, w, now, e);
    ActPrefix(cfg, w, now, e, p);
    if StagedUnder(w.store, PrefixOf(w.rows, p)) {
      StagedStays(cfg, w, now, e, p);
    } else {
      LapsedLater(cfg, w, p, now);
    }
    hide Act, Enabled, PackWorldOk, UrlsOk, StagedUnder;
  }

  lemma ActPrefix(cfg: Config, w: World, now: Time, e: Event, p: PackId)
    requires PackWorldOk(cfg, w) && Enabled(cfg, w, now, e) && p in w.rows.packs && p in Act(cfg, w, now, e).rows.packs
    ensures PrefixOf(Act(cfg, w, now, e).rows, p) == PrefixOf(w.rows, p)
  {
    ActEvolves(cfg, w, now, e);
    hide Act, Enabled, PackWorldOk, RowsOk;
    assert Ages(w.rows.packs[p], Act(cfg, w, now, e).rows.packs[p]);
  }

  // ------------------------------------------------------------------ urls

  lemma OldUrls(cfg: Config, w: World, now: Time, e: Event, url: Url)
    requires PackWorldOk(cfg, w) && UrlsOk(cfg, w) && Enabled(cfg, w, now, e) && !e.IssueUrls? && url in w.urls
    ensures UrlOk(cfg, Act(cfg, w, now, e).(clock := now), url)
  {
    var w' := Act(cfg, w, now, e).(clock := now);
    assert UrlOk(cfg, w, url);
    ActStamps(cfg, w, now, e);
    ActUsed(cfg, w, now, e);
    Forward(cfg, w, now, e);
    if url.pack in w.rows.packs && url.pack in w'.rows.packs {
      ActPrefix(cfg, w, now, e, url.pack);
    } else if url.pack in w.rows.packs {
      RemovedIsLapsed(cfg, w, now, e, url.pack);
    } else {
      ActEvolves(cfg, w, now, e);
      GoneStays(w, w'.rows, url.pack);
    }
    hide Act, Enabled, PackWorldOk, UrlsOk, Evolves, UsedOk;
  }

  lemma RemovedIsLapsed(cfg: Config, w: World, now: Time, e: Event, p: PackId)
    requires PackWorldOk(cfg, w) && UrlsOk(cfg, w) && Enabled(cfg, w, now, e) && p in w.rows.packs && p !in Act(cfg, w, now, e).rows.packs
    ensures LapsedBy(cfg, w, p, now)
  {
    Removals(cfg, w, now, e, p);
    Forward(cfg, w, now, e);
    hide Act, Enabled, PackWorldOk, StatusOk, UrlOk, UrlsExpired, LapsedBy;
    var k := w.work[e.task];
    if k.Finalizing? {
      ExpiredCoversAll(cfg, w, p, now);
    } else {
      assert WorkOk(cfg, w, k);
      LapsedLater(cfg, w, p, now);
    }
  }

  lemma HadRow(w: World, rows: Rows, p: PackId)
    requires Evolves(w, rows) && p in w.used.packs && p in rows.packs
    ensures p in w.rows.packs
  {
  }

  lemma GoneStays(w: World, rows: Rows, p: PackId)
    requires Evolves(w, rows) && p in w.used.packs && p !in w.rows.packs
    ensures p !in rows.packs
  {
  }

  // ------------------------------------------------------------------ rows

  /** Deletion is never taken back. */
  lemma StillLeaving(cfg: Config, w: World, now: Time, e: Event, p: PackId)
    requires LifecycleOk(cfg, w) && Enabled(cfg, w, now, e) && p in w.rows.packs && p in Act(cfg, w, now, e).rows.packs
    ensures Leaving(w.rows, p) ==> Leaving(Act(cfg, w, now, e).rows, p)
    ensures e.DeleteAccount? && e.user in w.rows.accounts && OwnsPack(w.rows, e.user, p) ==> Leaving(Act(cfg, w, now, e).rows, p)
  {
    ActEvolves(cfg, w, now, e);
    var rows := Act(cfg, w, now, e).rows;
    if e.DeleteAccount? && e.user in w.rows.accounts && OwnsPack(w.rows, e.user, p) {
      assert rows.accounts[e.user].deletionRequestedAt.Some? && OwnsPack(rows, e.user, p);
    }
    hide Act, Enabled;
    assert Ages(w.rows.packs[p], rows.packs[p]);
    if Leaving(w.rows, p) {
      var u :| u in w.rows.accounts && w.rows.accounts[u].deletionRequestedAt.Some? && OwnsPack(w.rows, u, p);
      assert LinksOk(rows);
      assert OwnsPack(rows, u, p) && u in rows.accounts;
    }
  }

  /** A pack in use was in use, or its completion has seen its staging objects. */
  lemma ShownIsHeld(cfg: Config, w: World, now: Time, e: Event, p: PackId)
    requires PackWorldOk(cfg, w) && UrlsOk(cfg, w) && Enabled(cfg, w, now, e) && !e.IssueUrls?
    requires p in Act(cfg, w, now, e).rows.packs && Shown(Act(cfg, w, now, e).rows.packs[p].status)
    ensures Held(cfg, Act(cfg, w, now, e).(clock := now), p)
  {
    ComesIntoUse(cfg, w, now, e, p);
    if Shown(w.rows.packs[p].status) {
      assert StatusOk(cfg, w, p);
    } else {
      var k := w.work[e.task];
      assert WorkOk(cfg, w, k) && CompleterOk(cfg, w, k);
    }
    HeldStays(cfg, w, now, e, p);
    hide *;
  }

  /** The claims that start a deletion. */
  lemma ClaimIsHeld(cfg: Config, w: World, now: Time, e: Event, p: PackId)
    requires PackWorldOk(cfg, w) && UrlsOk(cfg, w) && Enabled(cfg, w, now, e) && (e.Delete? || e.Retire? || e.RetireInPortal?) && e.pack == p
    requires p in w.rows.packs && p in Act(cfg, w, now, e).rows.packs
    requires Act(cfg, w, now, e).rows.packs[p].status == Deleting && w.rows.packs[p].status != Deleting
    ensures Held(cfg, Act(cfg, w, now, e).(clock := now), p)
  {
    var w' := Act(cfg, w, now, e).(clock := now);
    SameUrls(cfg, w, now, e);
    if e.RetireInPortal? {
      assert StatusOk(cfg, w, p) && w.rows.packs[p].status == Superseded;
      HeldStays(cfg, w, now, e, p);
    } else {
      ClaimedExpired(cfg, w, now, e);
      ExpiredCoversAll(cfg, w, p, now);
    }
    hide PackWorldOk, UrlsOk, Enabled, UrlsExpired, StagedUnder;
  }

  lemma ClaimedExpired(cfg: Config, w: World, now: Time, e: Event)
    requires Enabled(cfg, w, now, e) && (e.Delete? || e.Abandon? || e.Retire?) && e.pack in w.rows.packs
    requires e.task in Act(cfg, w, now, e).work || Act(cfg, w, now, e).rows != w.rows
    ensures UrlsExpired(cfg.limits, w.rows.packs[e.pack], now)
  {
    hide UrlsExpired, OnlyCleaner;
  }

  lemma StatusStays(cfg: Config, w: World, now: Time, e: Event, p: PackId)
    requires PackWorldOk(cfg, w) && UrlsOk(cfg, w) && Enabled(cfg, w, now, e) && !e.IssueUrls?
    requires p in Act(cfg, w, now, e).rows.packs
    ensures StatusOk(cfg, Act(cfg, w, now, e).(clock := now), p)
  {
    var w' := Act(cfg, w, now, e).(clock := now);
    ActEvolves(cfg, w, now, e);
    if Shown(w'.rows.packs[p].status) {
      ShownIsHeld(cfg, w, now, e, p);
    } else if p !in w.rows.packs {
      NewRowStatus(cfg, w, w'.rows, p);
    } else if w'.rows.packs[p].status == Deleting && !Leaving(w'.rows, p) {
      ActRow(cfg, w, now, e, p);
      StillLeaving(cfg, w, now, e, p);
      if w.rows.packs[p].status == Deleting {
        assert StatusOk(cfg, w, p);
        HeldStays(cfg, w, now, e, p);
      } else {
        ClaimIsHeld(cfg, w, now, e, p);
      }
    }
    hide Act, Enabled, PackWorldOk, UrlsOk, Leaving, Held;
  }

  lemma NewRowStatus(cfg: Config, w: World, rows: Rows, p: PackId)
    requires Evolves(w, rows) && p in rows.packs && p !in w.rows.packs
    ensures rows.packs[p].status == Uploading
  {
  }

  // ------------------------------------------------------------------ work that waits

  lemma RemoverStays(cfg: Config, w: World, now: Time, e: Event, k: Work)
    requires PackWorldOk(cfg, w) && UrlsOk(cfg, w) && Enabled(cfg, w, now, e) && !e.IssueUrls? && CleanerOk(w, k) && RemoverOk(cfg, w, k)
    ensures RemoverOk(cfg, Act(cfg, w, now, e).(clock := now), k)
  {
    SameUrls(cfg, w, now, e);
    ActEvolves(cfg, w, now, e);
    if Cleans(k) && k.pack in Act(cfg, w, now, e).rows.packs && k.pack in w.rows.packs {
      if AllLapsed(cfg, w, k.pack) {
        LapsedLater(cfg, w, k.pack, now);
      } else {
        StagedStays(cfg, w, now, e, k.pack);
      }
    }
    hide Act, Enabled, PackWorldOk, UrlsOk, RowsOk, StagedUnder;
  }

  /** A leaving account has the packs it had. */
  lemma FinalizerUrlsStay(cfg: Config, w: World, now: Time, e: Event, k: Work)
    requires PackWorldOk(cfg, w) && Enabled(cfg, w, now, e) && !e.IssueUrls? && FinalizerOk(w, k) && FinalizerUrls(cfg, w, k)
    ensures FinalizerUrls(cfg, Act(cfg, w, now, e).(clock := now), k)
  {
    var w' := Act(cfg, w, now, e).(clock := now);
    SameUrls(cfg, w, now, e);
    ActEvolves(cfg, w, now, e);
    LinksHold(cfg, w);
    hide Act, Enabled, PackWorldOk, RowsOk;
    if k.Finalizing? {
      forall p | p in PacksOf(w'.rows, k.user) ensures AllLapsed(cfg, w', p) {
        LeavingHad(w, w'.rows, k, p);
        LapsedLater(cfg, w, p, now);
      }
    }
  }

  lemma LeavingHad(w: World, rows: Rows, k: Work, p: PackId)
    requires k.Finalizing? && FinalizerOk(w, k) && UsedOk(w) && LinksOk(w.rows) && Evolves(w, rows) && p in PacksOf(rows, k.user)
    ensures p in PacksOf(w.rows, k.user)
  {
    if p in w.rows.packs {
      assert Ages(w.rows.packs[p], rows.packs[p]);
    }
  }

  lemma CompleterStagedStays(cfg: Config, w: World, now: Time, e: Event, k: Work)
    requires PackWorldOk(cfg, w) && UrlsOk(cfg, w) && Enabled(cfg, w, now, e) && CompleterOk(cfg, w, k) && CompleterStaged(w, k)
    ensures CompleterStaged(Act(cfg, w, now, e), k)
  {
    var w' := Act(cfg, w, now, e);
    ActEvolves(cfg, w, now, e);
    if HasInspected(k) && k.pack in w'.rows.packs {
      HadRow(w, w'.rows, k.pack);
      ActRow(cfg, w, now, e, k.pack);
      if InUpload(w.rows.packs[k.pack].status) {
        StagedStays(cfg, w, now, e, k.pack);
      }
    }
    hide Act, Enabled, PackWorldOk, UrlsOk, RowsOk, Evolves, StagedUnder;
  }

  lemma WorkStays(cfg: Config, w: World, now: Time, e: Event, t: TaskId)
    requires PackWorldOk(cfg, w) && UrlsOk(cfg, w) && Enabled(cfg, w, now, e) && !e.IssueUrls? && t in w.work
    ensures WorkOk(cfg, Act(cfg, w, now, e).(clock := now), w.work[t])
  {
    var k := w.work[t];
    assert WorkOk(cfg, w, k) && CompleterOk(cfg, w, k) && FinalizerOk(w, k);
    CleanerHolds(cfg, w, t);
    RemoverStays(cfg, w, now, e, k);
    FinalizerUrlsStay(cfg, w, now, e, k);
    CompleterStagedStays(cfg, w, now, e, k);
    hide Act, Enabled, PackWorldOk, UrlsOk, RemoverOk, FinalizerUrls, CompleterOk, StagedUnder;
  }

  // ------------------------------------------------------------------ work that starts or goes on

  /** The portal's retirement of a pack does not look at upload URLs. It is safe unless the pack is being
      deleted with its account: then its URLs must have expired, or something must be staged. */
  ghost predicate PortalSafe(cfg: Config, w: World, now: Time, e: Event) {
    e.RetireInPortal? && e.pack in w.rows.packs && w.rows.packs[e.pack].status == Deleting && Leaving(w.rows, e.pack) ==>
      UrlsExpired(cfg.limits, w.rows.packs[e.pack], now) || StagedUnder(w.store, PrefixOf(w.rows, e.pack))
  }

  /** A safe retirement meets no live URL, or something staged. */
  lemma PortalCovers(cfg: Config, w: World, now: Time, e: Event)
    requires UrlsOk(cfg, w) && e.RetireInPortal? && e.pack in w.rows.packs && PortalSafe(cfg, w, now, e) && w.clock <= now
    requires w.rows.packs[e.pack].status == Superseded || w.rows.packs[e.pack].status == Deleting
    ensures LapsedBy(cfg, w, e.pack, now) || StagedUnder(w.store, PrefixOf(w.rows, e.pack))
  {
    assert StatusOk(cfg, w, e.pack);
    if UrlsExpired(cfg.limits, w.rows.packs[e.pack], now) {
      ExpiredCoversAll(cfg, w, e.pack, now);
    } else if AllLapsed(cfg, w, e.pack) {
      LapsedLater(cfg, w, e.pack, now);
    }
    hide UrlsOk, Leaving, StagedUnder, UrlsExpired;
  }

  /** What a claim leaves: the task, and nothing in the store. */
  lemma ClaimedWorld(cfg: Config, w: World, now: Time, e: Event)
    requires Enabled(cfg, w, now, e) && (e.Delete? || e.Abandon? || e.Retire? || e.RetireInPortal?) && e.task in Act(cfg, w, now, e).work
    ensures var w' := Act(cfg, w, now, e);
            && e.pack in w.rows.packs && w'.store == w.store && w'.urls == w.urls
            && w'.work[e.task].prefix == PrefixOf(w.rows, e.pack)
            && (w'.work[e.task].ending == ThenRemoveInPortal <==> e.RetireInPortal?)
            && (e.RetireInPortal? ==> w.rows.packs[e.pack].status == Superseded || w.rows.packs[e.pack].status == Deleting)
  {
    hide UrlsExpired, OnlyCleaner;
  }

  lemma NewRemover(cfg: Config, w: World, now: Time, e: Event)
    requires UrlsOk(cfg, w) && Enabled(cfg, w, now, e) && PortalSafe(cfg, w, now, e)
    requires (e.Delete? || e.Abandon? || e.Retire? || e.RetireInPortal?) && e.task in Act(cfg, w, now, e).work
    ensures WorkOk(cfg, Act(cfg, w, now, e).(clock := now), Act(cfg, w, now, e).work[e.task])
  {
    ClaimedDead(cfg, w, now, e);
    ClaimedWorld(cfg, w, now, e);
    Forward(cfg, w, now, e);
    if e.RetireInPortal? {
      PortalCovers(cfg, w, now, e);
    } else {
      ClaimedExpired(cfg, w, now, e);
      ExpiredCoversAll(cfg, w, e.pack, now);
    }
    hide Act, Enabled, UrlsOk, UrlsExpired, PortalSafe, StagedUnder;
  }

  lemma NewFinalizerUrls(cfg: Config, w: World, now: Time, e: Event)
    requires UrlsOk(cfg, w) && Enabled(cfg, w, now, e) && e.Finalize? && e.task in Act(cfg, w, now, e).work
    ensures WorkOk(cfg, Act(cfg, w, now, e).(clock := now), Act(cfg, w, now, e).work[e.task])
  {
    var w' := Act(cfg, w, now, e).(clock := now);
    hide UrlsOk, UrlsExpired;
    forall p | p in PacksOf(w.rows, e.user) ensures LapsedBy(cfg, w, p, now) {
      ExpiredCoversAll(cfg, w, p, now);
    }
  }

  lemma NewCompletion(cfg: Config, w: World, now: Time, e: Event)
    requires ConfigOk(cfg) && Enabled(cfg, w, now, e) && e.Complete? && e.task in Act(cfg, w, now, e).work
    ensures WorkOk(cfg, Act(cfg, w, now, e).(clock := now), Act(cfg, w, now, e).work[e.task])
  {
    assert cfg.files(PrefixOf(w.rows, e.pack).manifest) != [];
  }

  lemma ResumedCompletion(cfg: Config, w: World, now: Time, k: Work, e: Event, w': World)
    requires ConfigOk(cfg) && e.Continue? && ContinueEnabled(cfg, w, k, e.etag, e.page, e.last) && Completes(k) && CompleterStaged(w, k)
    requires CompleterOk(cfg, w, k)
    requires var out := Resume(cfg, w, now, k, e); w'.rows == out.rows && w'.store == out.store
    ensures var out := Resume(cfg, w, now, k, e);
            out.next.Some? ==> Completes(out.next.value) && out.rows == w.rows && CompleterStaged(w', out.next.value)
  {
    hide Fits, Activate, Claim;
  }

  lemma OnlyCompletion(cfg: Config, w: World, k: Work)
    requires Completes(k) && CompleterStaged(w, k)
    ensures WorkOk(cfg, w, k)
  {
    hide StagedUnder;
  }

  lemma ResumedCleanup(cfg: Config, w: World, now: Time, e: Event)
    requires PackWorldOk(cfg, w) && UrlsOk(cfg, w) && Enabled(cfg, w, now, e) && e.Continue? && Cleans(w.work[e.task])
    requires e.task in Act(cfg, w, now, e).work
    ensures WorkOk(cfg, Act(cfg, w, now, e).(clock := now), Act(cfg, w, now, e).work[e.task])
  {
    var k, w' := w.work[e.task], Act(cfg, w, now, e).(clock := now);
    WorkStays(cfg, w, now, e, e.task);
    ResumedWork(cfg, w, now, e);
    FoundEmpty(cfg, w, now, k, e);
    hide Act, Enabled, PackWorldOk, UrlsOk, Resume, ContinueEnabled, AllLapsed;
  }

  /** Nothing is staged under an empty prefix. */
  lemma FoundEmpty(cfg: Config, w: World, now: Time, k: Work, e: Event)
    requires e.Continue? && ContinueEnabled(cfg, w, k, e.etag, e.page, e.last) && Cleans(k)
    ensures var out := Resume(cfg, w, now, k, e);
            out.next.Some? ==>
              k.Emptying? && out.rows == w.rows
              && (out.next.value == k
                  || (out.next.value == Emptied(k.pack, k.prefix, k.ending) && out.store == w.store && !StagedUnder(w.store, k.prefix)))
  {
  }

  lemma ResumedFinalizer(cfg: Config, w: World, now: Time, e: Event)
    requires PackWorldOk(cfg, w) && UrlsOk(cfg, w) && Enabled(cfg, w, now, e) && e.Continue? && w.work[e.task].Finalizing?
    requires e.task in Act(cfg, w, now, e).work
    ensures WorkOk(cfg, Act(cfg, w, now, e).(clock := now), Act(cfg, w, now, e).work[e.task])
  {
    hide PackWorldOk, UrlsOk, Act, Enabled, Resume, ContinueEnabled, WorkOk;
    Continues(cfg, w, now, e);
    var k := w.work[e.task];
    WorkStays(cfg, w, now, e, e.task);
    ResumedWork(cfg, w, now, e);
    SameUser(cfg, w, now, k, e);
    SameUserUrls(cfg, Act(cfg, w, now, e).(clock := now), k, Act(cfg, w, now, e).work[e.task]);
  }

  lemma SameUserUrls(cfg: Config, w: World, k: Work, next: Work)
    requires WorkOk(cfg, w, k) && k.Finalizing? && next.Finalizing? && next.user == k.user
    ensures WorkOk(cfg, w, next)
  {
    hide AllLapsed, PacksOf;
  }

  lemma SameUser(cfg: Config, w: World, now: Time, k: Work, e: Event)
    requires e.Continue? && ContinueEnabled(cfg, w, k, e.etag, e.page, e.last) && k.Finalizing?
    ensures var out := Resume(cfg, w, now, k, e);
            out.next.Some? ==> out.next.value.Finalizing? && out.next.value.user == k.user
  {
    hide PrefixEmpty, DeletionDue;
  }

  lemma ResumedWorkOk(cfg: Config, w: World, now: Time, e: Event)
    requires ConfigOk(cfg) && PackWorldOk(cfg, w) && UrlsOk(cfg, w) && Enabled(cfg, w, now, e) && e.Continue? && e.task in Act(cfg, w, now, e).work
    ensures WorkOk(cfg, Act(cfg, w, now, e).(clock := now), Act(cfg, w, now, e).work[e.task])
  {
    Continues(cfg, w, now, e);
    var k := w.work[e.task];
    if Completes(k) {
      assert WorkOk(cfg, w, k) && CompleterOk(cfg, w, k);
      ResumedWork(cfg, w, now, e);
      ResumedCompletion(cfg, w, now, k, e, Act(cfg, w, now, e).(clock := now));
      OnlyCompletion(cfg, Act(cfg, w, now, e).(clock := now), Act(cfg, w, now, e).work[e.task]);
    } else if Cleans(k) {
      ResumedCleanup(cfg, w, now, e);
    } else {
      ResumedFinalizer(cfg, w, now, e);
    }
    hide *;
    hide Completes, Cleans;
  }

  lemma NewWork(cfg: Config, w: World, now: Time, e: Event, t: TaskId)
    requires ConfigOk(cfg) && PackWorldOk(cfg, w) && UrlsOk(cfg, w) && Enabled(cfg, w, now, e) && PortalSafe(cfg, w, now, e)
    requires t in Act(cfg, w, now, e).work && !(t in w.work && Act(cfg, w, now, e).work[t] == w.work[t])
    ensures WorkOk(cfg, Act(cfg, w, now, e).(clock := now), Act(cfg, w, now, e).work[t])
  {
    NewTaskId(cfg, w, now, e, t);
    if e.Complete? {
      NewCompletion(cfg, w, now, e);
    } else if e.Finalize? {
      NewFinalizerUrls(cfg, w, now, e);
    } else if e.Continue? {
      ResumedWorkOk(cfg, w, now, e);
    } else {
      NewRemover(cfg, w, now, e);
    }
    hide *;
  }

  // ------------------------------------------------------------------ every step

  /** createUploadUrls stamps the pack with a time that covers the earlier URLs up to the skew, and
      issues none for a pack that is being removed, or whose account leaves. */
  lemma IssueKeepsUrls(cfg: Config, w: World, now: Time, e: Event)
    requires PackWorldOk(cfg, w) && UrlsOk(cfg, w) && Enabled(cfg, w, now, e) && e.IssueUrls?
    ensures UrlsOk(cfg, Act(cfg, w, now, e).(clock := now))
  {
    var w' := Act(cfg, w, now, e).(clock := now);
    hide RowsOk, PackWorldOk, StagedUnder;
    forall url | url in w'.urls ensures UrlOk(cfg, w', url) {
      assert url in w.urls ==> UrlOk(cfg, w, url);
    }
    forall p | p in w'.rows.packs ensures StatusOk(cfg, w', p) {
      assert StatusOk(cfg, w, p);
    }
    forall t | t in w'.work ensures WorkOk(cfg, w', w'.work[t]) {
      IssueKeepsWork(cfg, w, now, e, t);
    }
  }

  lemma IssueKeepsWork(cfg: Config, w: World, now: Time, e: Event, t: TaskId)
    requires PackWorldOk(cfg, w) && UrlsOk(cfg, w) && Enabled(cfg, w, now, e) && e.IssueUrls? && t in w.work
    ensures WorkOk(cfg, Act(cfg, w, now, e).(clock := now), w.work[t])
  {
    var k, w' := w.work[t], Act(cfg, w, now, e).(clock := now);
    assert WorkOk(cfg, w, k) && FinalizerOk(w, k);
    CleanerHolds(cfg, w, t);
    IssueEffect(cfg, w, now, e);
    hide Act, Enabled, RowsOk, PackWorldOk, UrlsOk, StagedUnder;
    if Cleans(k) && k.pack in w'.rows.packs && AllLapsed(cfg, w, k.pack) {
      NoneIssued(cfg, w, w', e, k.pack);
    }
    if k.Finalizing? {
      forall p | p in PacksOf(w'.rows, k.user) ensures AllLapsed(cfg, w', p) {
        assert p in PacksOf(w.rows, k.user);
        NoneIssued(cfg, w, w', e, p);
      }
    }
  }

  /** What issuing URLs does: if they are issued, then for a pack in upload whose account stays. */
  lemma IssueEffect(cfg: Config, w: World, now: Time, e: Event)
    requires Enabled(cfg, w, now, e) && e.IssueUrls?
    ensures var w' := Act(cfg, w, now, e);
            && w'.store == w.store && w'.work == w.work && w.clock <= now
            && w'.rows.accounts == w.rows.accounts && w'.rows.companions == w.rows.companions && w'.rows.packs.Keys == w.rows.packs.Keys
            && (forall p :: p in w.rows.packs ==>
                  && w'.rows.packs[p].status == w.rows.packs[p].status && w'.rows.packs[p].companion == w.rows.packs[p].companion
                  && w'.rows.packs[p].manifest == w.rows.packs[p].manifest)
            && (w'.urls == w.urls
                || (OwnsPack(w.rows, e.user, e.pack) && w.rows.packs[e.pack].status == Uploading && MayMutate(w.rows, e.user)
                    && w'.urls == w.urls + {Url(e.pack, PrefixOf(w.rows, e.pack), e.issuedAt)}))
  {
  }

  lemma NoneIssued(cfg: Config, w: World, w': World, e: Event, p: PackId)
    requires e.IssueUrls? && AllLapsed(cfg, w, p) && w.clock <= w'.clock
    requires w'.urls == w.urls || exists x :: w'.urls == w.urls + {Url(e.pack, x, e.issuedAt)} && e.pack != p
    ensures AllLapsed(cfg, w', p)
  {
  }

  lemma StepKeepsUrls(cfg: Config, w: World, now: Time, e: Event)
    requires ConfigOk(cfg) && PackWorldOk(cfg, w) && UrlsOk(cfg, w) && PortalSafe(cfg, w, now, e)
    ensures UrlsOk(cfg, Step(cfg, w, now, e))
  {
    hide ConfigOk, PackWorldOk, Act, Enabled, UrlOk, StatusOk, WorkOk, PortalSafe;
    if Enabled(cfg, w, now, e) {
      if e.IssueUrls? {
        IssueKeepsUrls(cfg, w, now, e);
      } else {
        var w' := Act(cfg, w, now, e).(clock := now);
        SameUrls(cfg, w, now, e);
        forall url | url in w'.urls ensures UrlOk(cfg, w', url) {
          OldUrls(cfg, w, now, e, url);
        }
        forall p | p in w'.rows.packs ensures StatusOk(cfg, w', p) {
          StatusStays(cfg, w, now, e, p);
        }
        forall t | t in w'.work ensures WorkOk(cfg, w', w'.work[t]) {
          if t in w.work && w'.work[t] == w.work[t] {
            WorkStays(cfg, w, now, e, t);
          } else {
            NewWork(cfg, w, now, e, t);
          }
        }
      }
    }
  }

  // ------------------------------------------------------------------ every run

  ghost predicate SafeRun(cfg: Config, w: World, events: seq<Timed>)
    decreases |events|
  {
    events != [] ==>
      PortalSafe(cfg, w, events[0].at, events[0].event) && SafeRun(cfg, Step(cfg, w, events[0].at, events[0].event), events[1..])
  }

  /** A URL whose pack has no row any more has expired. */
  ghost predicate GoneAreLapsed(cfg: Config, w: World) {
    forall url :: url in w.urls && url.pack !in w.rows.packs ==> Lapsed(cfg, url, w.clock)
  }

  /** Whatever the retention: as long as the portal's retirements are safe, a URL whose pack has no row any
      more has expired. */
  lemma {:induction false} RowsOutliveUrls(cfg: Config, w: World, events: seq<Timed>)
    requires ConfigOk(cfg) && PackWorldOk(cfg, w) && UrlsOk(cfg, w) && SafeRun(cfg, w, events)
    ensures var w' := Run(cfg, w, events); PackWorldOk(cfg, w') && UrlsOk(cfg, w') && GoneAreLapsed(cfg, w')
    decreases |events|
  {
    hide ConfigOk, PackWorldOk, Step, PortalSafe, UrlsOk;
    if events != [] {
      StepKeepsStore(cfg, w, events[0].at, events[0].event);
      StepKeepsUrls(cfg, w, events[0].at, events[0].event);
      RowsOutliveUrls(cfg, Step(cfg, w, events[0].at, events[0].event), events[1..]);
    } else {
      UrlsAreOk(cfg, w);
    }
  }

  /** The same for every run from the beginning. */
  lemma ReachableUrls(cfg: Config, events: seq<Timed>)
    requires ConfigOk(cfg) && SafeRun(cfg, Start, events)
    ensures var w := Run(cfg, Start, events); PackWorldOk(cfg, w) && UrlsOk(cfg, w) && GoneAreLapsed(cfg, w)
  {
    StartOk(cfg);
    StartUrls(cfg);
    RowsOutliveUrls(cfg, Start, events);
    hide Run, PackWorldOk, UrlsOk, SafeRun;
  }

  lemma UrlsAreOk(cfg: Config, w: World)
    requires UrlsOk(cfg, w)
    ensures GoneAreLapsed(cfg, w) && forall url :: url in w.urls ==> url.issuedAt <= w.clock
  {
    forall url | url in w.urls ensures UrlOk(cfg, w, url) {
    }
  }

  lemma StartUrls(cfg: Config)
    ensures UrlsOk(cfg, Start)
  {
  }

  // ------------------------------------------------------------------ accounts

  /** An account's row goes only when every URL of its packs has expired and every one of its packs
      was processed by the finalization that removes it. */
  lemma AccountRemoval(cfg: Config, w: World, now: Time, e: Event, u: UserId)
    requires LifecycleOk(cfg, w) && FinalizersOk(w) && UrlsOk(cfg, w)
    requires u in w.rows.accounts && u !in Step(cfg, w, now, e).rows.accounts
    ensures e.Continue? && e.task in w.work && w.work[e.task].Finalizing? && w.work[e.task].user == u
    ensures PacksOf(w.rows, u) == w.work[e.task].done
    ensures forall url :: url in w.urls && url.pack in PacksOf(w.rows, u) ==> Lapsed(cfg, url, now)
  {
    hide LifecycleOk, UrlsOk, DeletionDue, FinalizeStep;
    AccountRemover(cfg, w, now, e, u);
    var k := w.work[e.task];
    assert FinalizerOk(w, k);
    AccountGoesLast(cfg, w, k, now, e.keys, e.page, e.last);
    hide Act, FinalizerOk;
    forall url | url in w.urls && url.pack in PacksOf(w.rows, u) ensures Lapsed(cfg, url, now) {
      DueMeansExpired(cfg, w, u, now, url.pack);
      ExpiredCoversAll(cfg, w, url.pack, now);
    }
  }

  /** The same after any run from the beginning. */
  lemma ReachableRemoval(cfg: Config, events: seq<Timed>, now: Time, e: Event, u: UserId)
    requires ConfigOk(cfg) && SafeRun(cfg, Start, events)
    ensures var w := Run(cfg, Start, events);
            u in w.rows.accounts && u !in Step(cfg, w, now, e).rows.accounts ==>
              && e.Continue? && e.task in w.work && w.work[e.task].Finalizing? && w.work[e.task].user == u
              && PacksOf(w.rows, u) == w.work[e.task].done
              && forall url :: url in w.urls && url.pack in PacksOf(w.rows, u) ==> Lapsed(cfg, url, now)
  {
    ReachableUrls(cfg, events);
    var w := Run(cfg, Start, events);
    hide Run, LifecycleOk, UrlsOk, FinalizersOk, StoreOk, SafeRun, Step, Lapsed;
    if u in w.rows.accounts && u !in Step(cfg, w, now, e).rows.accounts {
      AccountRemoval(cfg, w, now, e, u);
    }
  }

  lemma DueMeansExpired(cfg: Config, w: World, u: UserId, now: Time, p: PackId)
    requires u in w.rows.accounts && w.rows.accounts[u].deletionRequestedAt.Some? && DeletionDue(w.rows, cfg.limits, u, now)
    requires p in PacksOf(w.rows, u)
    ensures UrlsExpired(cfg.limits, w.rows.packs[p], now)
  {
  }

  lemma AccountRemover(cfg: Config, w: World, now: Time, e: Event, u: UserId)
    requires u in w.rows.accounts && u !in Step(cfg, w, now, e).rows.accounts
    ensures Enabled(cfg, w, now, e) && e.Continue? && w.work[e.task].Finalizing? && w.work[e.task].user == u
    ensures u !in FinalizeStep(cfg, w, w.work[e.task], now, e.keys, e.page, e.last).rows.accounts
    ensures w.rows.accounts[u].deletionRequestedAt.Some?
  {
    hide Usage, DeletionDue, PrefixEmpty, UrlsExpired, NextFile;
  }
}
