/** The object store against the rows: what stands at a final key is what the manifest promises, and
    every pack that may be shown has all its files, while uploaders overwrite staging objects,
    completions race and cleanups delete. */
module PackStore {
  import opened Common
  import opened Catalog
  import opened Packs
  import opened PackWorld
  import opened PackLifecycle
  import opened PackRemovals

  // ------------------------------------------------------------------ the invariant

  /** The object is what the manifest says about its path. */
  ghost predicate Genuine(cfg: Config, k: Key, o: Object) {
    k.Final? ==>
      forall i :: 0 <= i < |cfg.files(k.prefix.manifest)| && cfg.files(k.prefix.manifest)[i].path == k.path ==>
        Fits(cfg, cfg.files(k.prefix.manifest)[i], o.bytes) && o.mime == cfg.files(k.prefix.manifest)[i].mime
  }

  ghost predicate ObjectsOk(cfg: Config, s: Store) {
    forall k :: k in s.objects ==>
      && s.objects[k].etag in s.contents && s.contents[s.objects[k].etag] == s.objects[k].bytes
      && Genuine(cfg, k, s.objects[k])
  }

  /** The first `n` files of the manifest are at their final keys. */
  ghost predicate Present(cfg: Config, s: Store, x: Prefix, n: nat) {
    forall i :: 0 <= i < n && i < |cfg.files(x.manifest)| ==> Final(x, cfg.files(x.manifest)[i].path) in s.objects
  }

  /** How many files a completion has published. */
  function Published(cfg: Config, k: Work): nat
    requires Completes(k)
  {
    if k.Inspecting? || k.Copying? || k.Rechecking? then k.file
    else if k.Failing? then 0
    else |cfg.files(k.prefix.manifest)|
  }

  /** No pack under the prefix can come back to use. */
  ghost predicate NoLive(rows: Rows, x: Prefix) {
    forall p :: p in rows.packs && PrefixOf(rows, p) == x ==> Dead(rows.packs[p].status)
  }

  ghost predicate CompleterOk(cfg: Config, w: World, k: Work) {
    Completes(k) ==>
      && k.pack in w.used.packs
      && (k.Copying? ==>
            && k.file < |cfg.files(k.prefix.manifest)| && k.etag in w.store.contents
            && Fits(cfg, cfg.files(k.prefix.manifest)[k.file], w.store.contents[k.etag]))
      && (k.pack in w.rows.packs ==> k.prefix == PrefixOf(w.rows, k.pack))
      && (k.pack in w.rows.packs && !Dead(w.rows.packs[k.pack].status) ==> Present(cfg, w.store, k.prefix, Published(cfg, k)))
  }

  /** A prefix that is being emptied belongs to nothing that lives, now or later. */
  ghost predicate SweeperOk(w: World, k: Work) {
    && (Cleans(k) ==>
          && k.prefix.companion in w.used.companions && NoLive(w.rows, k.prefix)
          && (k.pack !in w.rows.packs ==> k.prefix.companion !in w.rows.companions))
    && (k.Finalizing? ==> forall p :: p in k.todo ==>
          && k.todo[p].companion in w.used.companions
          && (k.todo[p].companion in w.rows.companions ==> w.rows.companions[k.todo[p].companion].owner == k.user))
  }

  ghost predicate OneCleaner(w: World) {
    forall s, t :: s in w.work && t in w.work && Cleans(w.work[s]) && Cleans(w.work[t]) && w.work[s].pack == w.work[t].pack ==> s == t
  }

  /** Every pack that may be shown has all its files. */
  ghost predicate ShownComplete(cfg: Config, w: World) {
    forall p :: p in w.rows.packs && (w.rows.packs[p].status == PackActive || w.rows.packs[p].status == Superseded) ==>
      Present(cfg, w.store, PrefixOf(w.rows, p), |cfg.files(w.rows.packs[p].manifest)|)
  }

  ghost predicate StoreOk(cfg: Config, w: World) {
    && ObjectsOk(cfg, w.store) && OneCleaner(w) && ShownComplete(cfg, w)
    && (forall t :: t in w.work ==> CompleterOk(cfg, w, w.work[t]))
    && (forall t :: t in w.work ==> SweeperOk(w, w.work[t]))
  }

  ghost predicate PackWorldOk(cfg: Config, w: World) {
    LifecycleOk(cfg, w) && FinalizersOk(w) && StoreOk(cfg, w)
  }

  // ------------------------------------------------------------------ what a step does to the store

  /** Objects and tags are added, or objects are deleted that no living pack needs. */
  ghost predicate StoreMoves(cfg: Config, w: World, s: Store) {
    && (forall etag :: etag in w.store.contents ==> etag in s.contents && s.contents[etag] == w.store.contents[etag])
    && (forall k :: k in w.store.objects && k !in s.objects ==> k.Staging? || NoLive(w.rows, k.prefix))
  }

  lemma SameStoreMoves(cfg: Config, w: World)
    ensures StoreMoves(cfg, w, w.store)
  {
  }

  lemma PutMoves(cfg: Config, w: World, k: Key, o: Object)
    requires ObjectsOk(cfg, w.store) && Taggable(w.store, o.etag, o.bytes) && Genuine(cfg, k, o)
    ensures ObjectsOk(cfg, PutObject(w.store, k, o)) && StoreMoves(cfg, w, PutObject(w.store, k, o))
  {
    hide Genuine;
  }

  lemma DeleteMoves(cfg: Config, w: World, x: Prefix, keys: set<Key>)
    requires ObjectsOk(cfg, w.store) && NoLive(w.rows, x)
    ensures ObjectsOk(cfg, DeleteUnder(w.store, x, keys)) && StoreMoves(cfg, w, DeleteUnder(w.store, x, keys))
  {
    hide Genuine, NoLive;
  }

  lemma DeleteStagingMoves(cfg: Config, w: World, x: Prefix, keys: set<Key>)
    requires ObjectsOk(cfg, w.store)
    ensures ObjectsOk(cfg, DeleteStaging(w.store, x, keys)) && StoreMoves(cfg, w, DeleteStaging(w.store, x, keys))
  {
    hide Genuine;
  }

  /** The conditional copy: equal ETags mean equal content, so what is copied is what was verified,
      whoever overwrote the staging object in between. */
  lemma CopyMoves(cfg: Config, w: World, k: Work, etag: int)
    requires ConfigOk(cfg) && ObjectsOk(cfg, w.store) && k.Copying? && CompleterOk(cfg, w, k)
    requires Staging(k.prefix, k.pack, k.file) in w.store.objects ==>
      Taggable(w.store, etag, w.store.objects[Staging(k.prefix, k.pack, k.file)].bytes)
    ensures var s := Copy(cfg, w, k, etag).store; ObjectsOk(cfg, s) && StoreMoves(cfg, w, s)
  {
    var at := Staging(k.prefix, k.pack, k.file);
    hide StoreMoves, Present, ObjectsOk;
    SameStoreMoves(cfg, w);
    if at in w.store.objects && w.store.objects[at].etag == k.etag {
      var f, o := cfg.files(k.prefix.manifest)[k.file], w.store.objects[at];
      Tagged(cfg, w.store, at);
      PathsDiffer(cfg, k.prefix.manifest);
      PutMoves(cfg, w, Final(k.prefix, f.path), Object(o.bytes, f.mime, etag));
    }
  }

  lemma Tagged(cfg: Config, s: Store, k: Key)
    requires ObjectsOk(cfg, s) && k in s.objects
    ensures s.objects[k].etag in s.contents && s.contents[s.objects[k].etag] == s.objects[k].bytes
  {
  }

  lemma PathsDiffer(cfg: Config, m: ManifestId)
    requires ConfigOk(cfg)
    ensures forall i, j :: 0 <= i < |cfg.files(m)| && 0 <= j < |cfg.files(m)| && cfg.files(m)[i].path == cfg.files(m)[j].path ==> i == j
  {
  }

  /** The packs of a leaving account are dead, so its prefixes may be emptied. */
  lemma FinalizerMaySweep(cfg: Config, w: World, k: Work, p: PackId)
    requires LifecycleOk(cfg, w) && k.Finalizing? && FinalizerOk(w, k) && SweeperOk(w, k) && p in k.todo
    ensures NoLive(w.rows, k.todo[p])
  {
    forall q | q in w.rows.packs && PrefixOf(w.rows, q) == k.todo[p] ensures Dead(w.rows.packs[q].status) {
      assert Owns(w.rows, k.user, w.rows.packs[q].companion);
    }
  }

  lemma FinalizeMoves(cfg: Config, w: World, k: Work, now: Time, keys: set<Key>, page: set<PackId>, last: PackId)
    requires LifecycleOk(cfg, w) && k.Finalizing? && FinalizerOk(w, k) && SweeperOk(w, k) && ObjectsOk(cfg, w.store)
    requires page <= PacksOf(w.rows, k.user)
    ensures var s := FinalizeStep(cfg, w, k, now, keys, page, last).store; ObjectsOk(cfg, s) && StoreMoves(cfg, w, s)
  {
    hide LifecycleOk, FinalizerOk, SweeperOk, ObjectsOk, StoreMoves, DeletionDue, PrefixEmpty, PacksOf, DeleteUnder, NoLive;
    SameStoreMoves(cfg, w);
    if k.todo != map[] && last in k.todo {
      FinalizerMaySweep(cfg, w, k, last);
      DeleteMoves(cfg, w, k.todo[last], keys);
    }
  }

  lemma InspectOrRecheckStore(cfg: Config, w: World, k: Work)
    ensures k.Inspecting? ==> Inspect(cfg, w, k).store == w.store
    ensures k.Rechecking? ==> Recheck(cfg, w, k).store == w.store
  {
  }

  lemma ResumeMoves(cfg: Config, w: World, now: Time, t: TaskId, e: Event)
    requires ConfigOk(cfg) && PackWorldOk(cfg, w) && t in w.work
    requires e.Continue? && ContinueEnabled(cfg, w, w.work[t], e.etag, e.page, e.last)
    ensures var s := Resume(cfg, w, now, w.work[t], e).store; ObjectsOk(cfg, s) && StoreMoves(cfg, w, s)
  {
    var k := w.work[t];
    assert CompleterOk(cfg, w, k) && SweeperOk(w, k) && FinalizerOk(w, k);
    hide LifecycleOk, FinalizersOk, OneCleaner, ShownComplete, StoreMoves, ObjectsOk, FinalizerOk, CompleterOk, ConfigOk, NoLive,
         Activate, Claim, Ended, FinalizeStep, Inspect, Copy, Recheck, DeleteUnder, PrefixEmpty;
    SameStoreMoves(cfg, w);
    InspectOrRecheckStore(cfg, w, k);
    match k {
      case Copying(_, _, _, _) => CopyMoves(cfg, w, k, e.etag);
      case Publishing(_, x) => PutMoves(cfg, w, ManifestJson(x), Object([], 0, e.etag));
      case Emptying(_, x, _) => DeleteMoves(cfg, w, x, Deletable(k, e.keys));
      case Finalizing(_, _, _, _, _, _, _, _) => FinalizeMoves(cfg, w, k, now, e.keys, e.page, e.last);
      case _ =>
    }
  }

  lemma ActMoves(cfg: Config, w: World, now: Time, e: Event)
    requires ConfigOk(cfg) && PackWorldOk(cfg, w) && Enabled(cfg, w, now, e)
    ensures var s := Act(cfg, w, now, e).store; ObjectsOk(cfg, s) && StoreMoves(cfg, w, s)
  {
    ObjectsAreOk(cfg, w);
    hide PackWorldOk, ConfigOk, ObjectsOk, StoreMoves, Resume, Initiate, Activate, RequestDeletion, DeletionDue, NextFile,
         ClaimVerifying, ClaimDelete, ClaimAbandon, ClaimSuperseded, ClaimRetired, RecordUrls, PutObject, DeleteStaging;
    SameStoreMoves(cfg, w);
    match e {
      case Upload(k, o) => PutMoves(cfg, w, k, o);
      case CleanStaging(p, keys) => if p in w.rows.packs { DeleteStagingMoves(cfg, w, PrefixOf(w.rows, p), keys); }
      case Continue(t, _, _, _, _) => ResumeMoves(cfg, w, now, t, e);
      case _ =>
    }
  }

  lemma ObjectsAreOk(cfg: Config, w: World)
    requires PackWorldOk(cfg, w)
    ensures ObjectsOk(cfg, w.store)
  {
  }

  // ------------------------------------------------------------------ what stays

  /** A living pack keeps its published files. */
  lemma PresentStays(cfg: Config, w: World, s: Store, p: PackId, n: nat)
    requires StoreMoves(cfg, w, s) && p in w.rows.packs && !Dead(w.rows.packs[p].status) && Present(cfg, w.store, PrefixOf(w.rows, p), n)
    ensures Present(cfg, s, PrefixOf(w.rows, p), n)
  {
    var x := PrefixOf(w.rows, p);
    forall i | 0 <= i < n && i < |cfg.files(x.manifest)| ensures Final(x, cfg.files(x.manifest)[i].path) in s.objects {
      assert Final(x, cfg.files(x.manifest)[i].path) in w.store.objects;
    }
  }

  lemma CompleterStays(cfg: Config, w: World, w': World, k: Work)
    requires CompleterOk(cfg, w, k) && Evolves(w, w'.rows) && StoreMoves(cfg, w, w'.store) && UsedOk(w) && w.used.packs <= w'.used.packs
    ensures CompleterOk(cfg, w', k)
  {
    if Completes(k) && k.pack in w'.rows.packs && k.pack in w.rows.packs {
      assert Ages(w.rows.packs[k.pack], w'.rows.packs[k.pack]);
      if !Dead(w'.rows.packs[k.pack].status) {
        PresentStays(cfg, w, w'.store, k.pack, Published(cfg, k));
      }
    }
    hide StoreMoves, Present;
  }

  lemma NoLiveStays(w: World, rows: Rows, x: Prefix)
    requires Evolves(w, rows) && NoLive(w.rows, x)
    requires WithManifest(w.rows, x.companion, x.manifest) != {} || x.companion !in w.rows.companions
    ensures NoLive(rows, x)
  {
    forall p | p in rows.packs && PrefixOf(rows, p) == x ensures Dead(rows.packs[p].status) {
      if p in w.rows.packs {
        assert Ages(w.rows.packs[p], rows.packs[p]);
      }
    }
  }

  /** A row removed under a cleanup's feet went with its account, and the companion went too. */
  lemma RemovedWithAccount(cfg: Config, w: World, now: Time, e: Event, p: PackId)
    requires Enabled(cfg, w, now, e) && p in w.rows.packs && p !in Act(cfg, w, now, e).rows.packs
    requires !(w.work[e.task].Emptied? && w.work[e.task].pack == p)
    requires e.Continue?
    ensures w.rows.packs[p].companion !in Act(cfg, w, now, e).rows.companions
  {
    hide PrefixEmpty, DeletionDue, UrlsExpired, Inspect, Copy, Recheck;
    StorageOnly(cfg, w, w.work[e.task], e.etag);
  }

  lemma SweeperStays(cfg: Config, w: World, now: Time, e: Event, t: TaskId)
    requires LifecycleOk(cfg, w) && StoreOk(cfg, w) && Enabled(cfg, w, now, e) && t in w.work && (e.Continue? ==> e.task != t)
    ensures SweeperOk(Act(cfg, w, now, e), w.work[t])
  {
    var k, w' := w.work[t], Act(cfg, w, now, e);
    assert CleanerOk(w, k) && SweeperOk(w, k);
    ActEvolves(cfg, w, now, e);
    ActUsed(cfg, w, now, e);
    NewKeys(cfg, w, now, e);
    LinksHold(cfg, w);
    if Cleans(k) {
      if k.pack in w.rows.packs && k.pack !in w'.rows.packs {
        Removals(cfg, w, now, e, k.pack);
        OnlyOne(cfg, w, t, e.task);
        RemovedWithAccount(cfg, w, now, e, k.pack);
      }
      hide LifecycleOk, StoreOk, Act, Enabled, NoLive;
      assert k.pack in w.rows.packs ==> k.pack in WithManifest(w.rows, k.prefix.companion, k.prefix.manifest);
      NoLiveStays(w, w'.rows, k.prefix);
    }
    hide LifecycleOk, StoreOk, Act, Enabled, NoLive;
  }

  lemma OnlyOne(cfg: Config, w: World, s: TaskId, t: TaskId)
    requires OneCleaner(w) && s in w.work && t in w.work && s != t && Cleans(w.work[s])
    ensures !(w.work[t].Emptied? && w.work[t].pack == w.work[s].pack)
  {
  }

  /** A cleanup starts under a pack that is dead already, and the only one of its prefix. */
  lemma StartSweeping(cfg: Config, w: World, p: PackId, ending: Ending)
    requires RowsOk(w.rows, cfg.limits) && UsedOk(w) && p in w.rows.packs && Dead(w.rows.packs[p].status)
    ensures SweeperOk(w, Emptying(p, PrefixOf(w.rows, p), ending))
  {
    hide QuotaOk;
    forall q | q in w.rows.packs && PrefixOf(w.rows, q) == PrefixOf(w.rows, p) ensures q == p {}
  }

  // ------------------------------------------------------------------ how work goes on

  lemma NextFileOk(cfg: Config, w: World, p: PackId, x: Prefix, i: nat)
    requires p in w.used.packs && (p in w.rows.packs ==> x == PrefixOf(w.rows, p)) && i <= |cfg.files(x.manifest)|
    requires p in w.rows.packs && !Dead(w.rows.packs[p].status) ==> Present(cfg, w.store, x, i)
    ensures CompleterOk(cfg, w, NextFile(cfg, p, x, i))
  {
  }

  lemma InspectedOk(cfg: Config, w: World, k: Work)
    requires k.Inspecting? && CompleterOk(cfg, w, k) && ObjectsOk(cfg, w.store)
    ensures var out := Inspect(cfg, w, k); out.next.Some? ==> Completes(out.next.value) && CompleterOk(cfg, w, out.next.value)
  {
    var at := Staging(k.prefix, k.pack, k.file);
    if at in w.store.objects {
      Tagged(cfg, w.store, at);
    }
    hide ObjectsOk, Present;
    PresentZero(cfg, w.store, k.prefix);
  }

  lemma PresentZero(cfg: Config, s: Store, x: Prefix)
    ensures Present(cfg, s, x, 0)
  {
  }

  lemma CopiedOk(cfg: Config, w: World, k: Work, etag: int)
    requires k.Copying? && CompleterOk(cfg, w, k)
    ensures var out := Copy(cfg, w, k, etag);
            out.next.Some? ==> Completes(out.next.value) && CompleterOk(cfg, w.(store := out.store), out.next.value)
  {
    PresentZero(cfg, w.store, k.prefix);
    PresentZero(cfg, Copy(cfg, w, k, etag).store, k.prefix);
  }

  lemma RecheckedOk(cfg: Config, w: World, k: Work)
    requires k.Rechecking? && CompleterOk(cfg, w, k)
    ensures var out := Recheck(cfg, w, k); out.next.Some? ==> Completes(out.next.value) && CompleterOk(cfg, w, out.next.value)
  {
    PresentZero(cfg, w.store, k.prefix);
    hide NextFile;
    if k.file < |cfg.files(k.prefix.manifest)| {
      var f := cfg.files(k.prefix.manifest)[k.file];
      if Final(k.prefix, f.path) in w.store.objects {
        NextFileOk(cfg, w, k.pack, k.prefix, k.file + 1);
      }
      NextCompletes(cfg, k.pack, k.prefix, k.file + 1);
    }
  }

  lemma NextCompletes(cfg: Config, p: PackId, x: Prefix, i: nat)
    ensures Completes(NextFile(cfg, p, x, i))
  {
  }

  lemma PublishedOk(cfg: Config, w: World, k: Work, o: Object)
    requires k.Publishing? && CompleterOk(cfg, w, k)
    ensures CompleterOk(cfg, w.(store := PutObject(w.store, ManifestJson(k.prefix), o)), Activating(k.pack, k.prefix))
  {
  }

  /** Only completions complete, and what they carry over is right. */
  lemma ResumedCompleter(cfg: Config, w: World, now: Time, t: TaskId, e: Event)
    requires PackWorldOk(cfg, w) && t in w.work && e.Continue? && ContinueEnabled(cfg, w, w.work[t], e.etag, e.page, e.last)
    ensures var out := Resume(cfg, w, now, w.work[t], e);
            out.next.Some? && Completes(out.next.value) ==> CompleterOk(cfg, w.(rows := out.rows, store := out.store), out.next.value)
  {
    var k := w.work[t];
    assert CompleterOk(cfg, w, k);
    ObjectsAreOk(cfg, w);
    hide PackWorldOk, ObjectsOk, CompleterOk, Activate, Claim, Ended, DeletionDue, Inspect, Copy, Recheck, DeleteUnder, PrefixEmpty, RemoveAccount, PutObject;
    StorageOnly(cfg, w, k, e.etag);
    InspectOrRecheckStore(cfg, w, k);
    match k {
      case Inspecting(_, _, _) => InspectedOk(cfg, w, k);
      case Copying(_, _, _, _) => CopiedOk(cfg, w, k, e.etag);
      case Rechecking(_, _, _) => RecheckedOk(cfg, w, k);
      case Publishing(_, x) => PublishedOk(cfg, w, k, Object([], 0, e.etag));
      case _ =>
    }
  }

  lemma NotCompleting(cfg: Config, w: World, k: Work)
    ensures !Completes(k) ==> CompleterOk(cfg, w, k)
  {
  }

  lemma StartsCompleting(cfg: Config, w: World, now: Time, e: Event)
    requires LifecycleOk(cfg, w) && Enabled(cfg, w, now, e) && e.Complete? && e.task in Act(cfg, w, now, e).work
    ensures CompleterOk(cfg, Act(cfg, w, now, e), Act(cfg, w, now, e).work[e.task])
  {
    hide RowsOk, CleanerOk, NextFile;
    var w', x := Act(cfg, w, now, e), PrefixOf(w.rows, e.pack);
    PresentZero(cfg, w.store, x);
    NextFileOk(cfg, w', e.pack, x, 0);
  }

  lemma NewCompleter(cfg: Config, w: World, now: Time, e: Event, t: TaskId)
    requires PackWorldOk(cfg, w) && Enabled(cfg, w, now, e)
    requires t in Act(cfg, w, now, e).work && !(t in w.work && Act(cfg, w, now, e).work[t] == w.work[t])
    ensures CompleterOk(cfg, Act(cfg, w, now, e), Act(cfg, w, now, e).work[t])
  {
    var w' := Act(cfg, w, now, e);
    if e.Complete? {
      StartsCompleting(cfg, w, now, e);
    } else if e.Continue? {
      ResumedCompleter(cfg, w, now, e.task, e);
      FrameCompleter(cfg, w, w', now, e);
    }
    NotCompleting(cfg, w', w'.work[t]);
    hide PackWorldOk, CompleterOk, Resume, Initiate, Activate, RequestDeletion, DeletionDue, NextFile, ClaimVerifying, ClaimDelete, ClaimAbandon,
         ClaimSuperseded, ClaimRetired;
  }

  lemma FrameCompleter(cfg: Config, w: World, w': World, now: Time, e: Event)
    requires e.Continue? && Enabled(cfg, w, now, e) && w' == Act(cfg, w, now, e)
    ensures var out := Resume(cfg, w, now, w.work[e.task], e);
            out.next.Some? && CompleterOk(cfg, w.(rows := out.rows, store := out.store), out.next.value) ==>
              CompleterOk(cfg, w', out.next.value)
  {
    hide Resume, ContinueEnabled;
  }

  lemma FinalizerSweeps(cfg: Config, w: World, k: Work, now: Time, keys: set<Key>, page: set<PackId>, last: PackId)
    requires LinksOk(w.rows) && UsedOk(w) && k.Finalizing? && SweeperOk(w, k) && page <= PacksOf(w.rows, k.user)
    ensures var out := FinalizeStep(cfg, w, k, now, keys, page, last); out.next.Some? ==> SweeperOk(w, out.next.value)
  {
    hide PrefixEmpty, DeletionDue, RemoveAccount, DeleteUnder, NoLive;
  }

  lemma ResumedSweeper(cfg: Config, w: World, now: Time, t: TaskId, e: Event)
    requires PackWorldOk(cfg, w) && t in w.work && e.Continue? && ContinueEnabled(cfg, w, w.work[t], e.etag, e.page, e.last)
    ensures var out := Resume(cfg, w, now, w.work[t], e);
            out.next.Some? ==> SweeperOk(w, out.next.value) && (out.rows == w.rows || Completes(out.next.value))
  {
    var k := w.work[t];
    assert SweeperOk(w, k);
    LinksHold(cfg, w);
    hide PackWorldOk, SweeperOk, Activate, Claim, Ended, DeletionDue, Inspect, Copy, Recheck, FinalizeStep, DeleteUnder, PrefixEmpty, PutObject, NoLive, LinksOk, UsedOk;
    match k {
      case Inspecting(_, _, _) => OnlyCompletes(cfg, w, k, e.etag);
      case Copying(_, _, _, _) => OnlyCompletes(cfg, w, k, e.etag);
      case Rechecking(_, _, _) => OnlyCompletes(cfg, w, k, e.etag);
      case Publishing(p, x) => NotSweeping(w, Activating(p, x));
      case Emptying(p, x, ending) => StillSweeping(w, k);
      case Finalizing(_, _, _, _, _, _, _, _) =>
        FinalizerSweeps(cfg, w, k, now, e.keys, e.page, e.last);
        FinalizeKeepsRows(cfg, w, k, now, e.keys, e.page, e.last);
      case _ =>
    }
  }

  lemma StillSweeping(w: World, k: Work)
    requires k.Emptying? && SweeperOk(w, k)
    ensures SweeperOk(w, Emptied(k.pack, k.prefix, k.ending))
  {
  }

  lemma NotSweeping(w: World, k: Work)
    ensures !Cleans(k) && !k.Finalizing? ==> SweeperOk(w, k)
  {
  }

  lemma OnlyCompletes(cfg: Config, w: World, k: Work, etag: int)
    ensures k.Inspecting? ==> (var out := Inspect(cfg, w, k); out.next.Some? ==> Completes(out.next.value) && SweeperOk(w, out.next.value))
    ensures k.Copying? ==> (var out := Copy(cfg, w, k, etag); out.next.Some? ==> Completes(out.next.value) && SweeperOk(w, out.next.value))
    ensures k.Rechecking? ==> (var out := Recheck(cfg, w, k); out.next.Some? ==> Completes(out.next.value) && SweeperOk(w, out.next.value))
  {
  }

  lemma SweeperFrame(w: World, w': World, k: Work)
    requires SweeperOk(w, k) && w'.rows == w.rows && w'.used == w.used
    ensures SweeperOk(w', k)
  {
  }

  /** The claims of the cleanups leave a dead pack. */
  lemma ClaimedDead(cfg: Config, w: World, now: Time, e: Event)
    requires Enabled(cfg, w, now, e) && (e.Delete? || e.Abandon? || e.Retire? || e.RetireInPortal?) && e.task in Act(cfg, w, now, e).work
    ensures var w' := Act(cfg, w, now, e);
            && e.pack in w'.rows.packs && Dead(w'.rows.packs[e.pack].status)
            && w'.work[e.task].Emptying? && w'.work[e.task].pack == e.pack && w'.work[e.task].prefix == PrefixOf(w'.rows, e.pack)
  {
    hide UrlsExpired, OnlyCleaner;
  }

  lemma NewSweeper(cfg: Config, w: World, now: Time, e: Event, t: TaskId)
    requires PackWorldOk(cfg, w) && Enabled(cfg, w, now, e)
    requires t in Act(cfg, w, now, e).work && !(t in w.work && Act(cfg, w, now, e).work[t] == w.work[t])
    ensures SweeperOk(Act(cfg, w, now, e), Act(cfg, w, now, e).work[t])
  {
    var w' := Act(cfg, w, now, e);
    NewTaskId(cfg, w, now, e, t);
    if e.Delete? || e.Abandon? || e.Retire? || e.RetireInPortal? {
      ClaimedDead(cfg, w, now, e);
      ActEvolves(cfg, w, now, e);
      ActUsed(cfg, w, now, e);
      StartSweeping(cfg, w', e.pack, w'.work[t].ending);
    } else if e.Continue? {
      ResumedSweeper(cfg, w, now, e.task, e);
      ResumedWork(cfg, w, now, e);
      if Completes(w'.work[t]) {
        NotSweeping(w', w'.work[t]);
      } else {
        SweeperFrame(w, w', w'.work[t]);
      }
    } else {
      StartedWork(cfg, w, now, e);
      if e.Finalize? {
        EmptyFinalizer(w', w'.work[t]);
      } else {
        NotSweeping(w', w'.work[t]);
      }
    }
    hide *;
  }

  lemma EmptyFinalizer(w: World, k: Work)
    requires k.Finalizing? && k.todo == map[]
    ensures SweeperOk(w, k)
  {
  }

  /** Only the event's own task is new. */
  lemma NewTaskId(cfg: Config, w: World, now: Time, e: Event, t: TaskId)
    requires Enabled(cfg, w, now, e) && t in Act(cfg, w, now, e).work && !(t in w.work && Act(cfg, w, now, e).work[t] == w.work[t])
    ensures (e.Complete? || e.Delete? || e.Abandon? || e.Retire? || e.RetireInPortal? || e.Finalize? || e.Continue?) && t == e.task
    ensures t in w.work ==> e.Continue?
  {
    hide Resume, Initiate, Activate, RequestDeletion, DeletionDue, NextFile, ClaimVerifying, ClaimDelete, ClaimAbandon,
         ClaimSuperseded, ClaimRetired, ContinueEnabled, OnlyCleaner, Taggable;
  }

  lemma ResumedWork(cfg: Config, w: World, now: Time, e: Event)
    requires e.Continue? && Enabled(cfg, w, now, e)
    ensures var out := Resume(cfg, w, now, w.work[e.task], e); var w' := Act(cfg, w, now, e);
            && w'.rows == out.rows && w'.store == out.store && w'.used == w.used
            && (e.task in w'.work <==> out.next.Some?) && (out.next.Some? ==> w'.work[e.task] == out.next.value)
            && (forall t :: t in w'.work && t != e.task ==> t in w.work && w'.work[t] == w.work[t])
  {
    hide Resume, ContinueEnabled;
  }

  lemma StartedWork(cfg: Config, w: World, now: Time, e: Event)
    requires Enabled(cfg, w, now, e) && (e.Complete? || e.Finalize?) && e.task in Act(cfg, w, now, e).work
    ensures e.Complete? ==> Completes(Act(cfg, w, now, e).work[e.task])
    ensures e.Finalize? ==> Act(cfg, w, now, e).work[e.task].Finalizing? && Act(cfg, w, now, e).work[e.task].todo == map[]
  {
    hide DeletionDue;
  }

  // ------------------------------------------------------------------ one cleaner, shown packs

  lemma ActOneCleaner(cfg: Config, w: World, now: Time, e: Event)
    requires PackWorldOk(cfg, w) && Enabled(cfg, w, now, e)
    ensures OneCleaner(Act(cfg, w, now, e))
  {
    hide LifecycleOk, FinalizersOk, ObjectsOk, ShownComplete, CompleterOk, SweeperOk, Act, Enabled;
    var w' := Act(cfg, w, now, e);
    forall s, t | s in w'.work && t in w'.work && Cleans(w'.work[s]) && Cleans(w'.work[t]) && w'.work[s].pack == w'.work[t].pack
      ensures s == t
    {
      Cleaner(cfg, w, now, e, s);
      Cleaner(cfg, w, now, e, t);
    }
  }

  /** A task that cleans after a step cleaned the same pack before, or started with no other on it. */
  lemma Cleaner(cfg: Config, w: World, now: Time, e: Event, t: TaskId)
    requires Enabled(cfg, w, now, e) && t in Act(cfg, w, now, e).work && Cleans(Act(cfg, w, now, e).work[t])
    ensures var p := Act(cfg, w, now, e).work[t].pack;
            || (t in w.work && Cleans(w.work[t]) && w.work[t].pack == p)
            || ((e.Delete? || e.Abandon? || e.Retire? || e.RetireInPortal?) && t == e.task && p == e.pack && OnlyCleaner(w, p))
  {
    var w' := Act(cfg, w, now, e);
    if !(t in w.work && w'.work[t] == w.work[t]) {
      NewTaskId(cfg, w, now, e, t);
      if e.Continue? {
        ResumedWork(cfg, w, now, e);
        ResumedCleaner(cfg, w, now, w.work[t], e);
      } else if e.Complete? || e.Finalize? {
        StartedWork(cfg, w, now, e);
      } else {
        ClaimedDead(cfg, w, now, e);
        MayClean(cfg, w, now, e);
      }
    }
    hide *;
    hide Cleans;
  }

  lemma MayClean(cfg: Config, w: World, now: Time, e: Event)
    requires Enabled(cfg, w, now, e) && (e.Delete? || e.Abandon? || e.Retire? || e.RetireInPortal?)
    ensures OnlyCleaner(w, e.pack)
  {
    hide OnlyCleaner;
  }

  /** A pack comes into use only by the activation that ends its completion. */
  lemma ComesIntoUse(cfg: Config, w: World, now: Time, e: Event, p: PackId)
    requires LifecycleOk(cfg, w) && Enabled(cfg, w, now, e)
    requires p in Act(cfg, w, now, e).rows.packs && Shown(Act(cfg, w, now, e).rows.packs[p].status)
    ensures p in w.rows.packs
    ensures Shown(w.rows.packs[p].status)
         || (e.Continue? && w.work[e.task].Activating? && w.work[e.task].pack == p && w.rows.packs[p].status == Verifying)
  {
    hide LifecycleOk, Usage, DeletionDue, PrefixEmpty, UrlsExpired, NextFile, OnlyCleaner, Taggable, Inspect, Copy, Recheck, ContinueEnabled;
    if e.Continue? {
      StorageOnly(cfg, w, w.work[e.task], e.etag);
    }
  }

  lemma ActShown(cfg: Config, w: World, now: Time, e: Event)
    requires ConfigOk(cfg) && PackWorldOk(cfg, w) && Enabled(cfg, w, now, e)
    ensures ShownComplete(cfg, Act(cfg, w, now, e))
  {
    var w' := Act(cfg, w, now, e);
    ActMoves(cfg, w, now, e);
    ActEvolves(cfg, w, now, e);
    forall p | p in w'.rows.packs && Shown(w'.rows.packs[p].status)
      ensures Present(cfg, w'.store, PrefixOf(w'.rows, p), |cfg.files(w'.rows.packs[p].manifest)|)
    {
      ComesIntoUse(cfg, w, now, e, p);
      hide Act, LifecycleOk, FinalizersOk, ObjectsOk, OneCleaner, SweeperOk, ConfigOk, Enabled;
      assert Ages(w.rows.packs[p], w'.rows.packs[p]);
      if !Shown(w.rows.packs[p].status) {
        assert CompleterOk(cfg, w, w.work[e.task]);
      }
      PresentStays(cfg, w, w'.store, p, |cfg.files(w.rows.packs[p].manifest)|);
    }
    hide *;
    hide Present, Shown;
  }

  // ------------------------------------------------------------------ every run

  lemma ActWork(cfg: Config, w: World, now: Time, e: Event, t: TaskId)
    requires ConfigOk(cfg) && PackWorldOk(cfg, w) && Enabled(cfg, w, now, e) && t in Act(cfg, w, now, e).work
    ensures var w' := Act(cfg, w, now, e); CompleterOk(cfg, w', w'.work[t]) && SweeperOk(w', w'.work[t])
  {
    hide LifecycleOk, FinalizersOk, ObjectsOk, OneCleaner, ShownComplete, ConfigOk, Act, Enabled, CompleterOk, SweeperOk;
    var w' := Act(cfg, w, now, e);
    if t in w.work && w'.work[t] == w.work[t] {
      UsedHolds(cfg, w);
      ActMoves(cfg, w, now, e);
      ActEvolves(cfg, w, now, e);
      ActUsed(cfg, w, now, e);
      CompleterStays(cfg, w, w', w.work[t]);
      if e.Continue? && e.task == t {
        SameWork(cfg, w, now, e);
      } else {
        SweeperStays(cfg, w, now, e, t);
      }
    } else {
      NewCompleter(cfg, w, now, e, t);
      NewSweeper(cfg, w, now, e, t);
    }
  }

  lemma UsedHolds(cfg: Config, w: World)
    requires LifecycleOk(cfg, w)
    ensures UsedOk(w)
  {
  }

  /** Work that goes on as it was has not touched the rows, or is no cleanup. */
  lemma SameWork(cfg: Config, w: World, now: Time, e: Event)
    requires PackWorldOk(cfg, w) && Enabled(cfg, w, now, e) && e.Continue? && e.task in Act(cfg, w, now, e).work
    ensures SweeperOk(Act(cfg, w, now, e), Act(cfg, w, now, e).work[e.task])
  {
    hide PackWorldOk, SweeperOk, Resume, Act, Enabled;
    var w' := Act(cfg, w, now, e);
    Continues(cfg, w, now, e);
    ResumedWork(cfg, w, now, e);
    ResumedSweeper(cfg, w, now, e.task, e);
    if Completes(w'.work[e.task]) {
      NotSweeping(w', w'.work[e.task]);
    } else {
      SweeperFrame(w, w', w'.work[e.task]);
    }
  }

  lemma Continues(cfg: Config, w: World, now: Time, e: Event)
    requires Enabled(cfg, w, now, e) && e.Continue?
    ensures e.task in w.work && ContinueEnabled(cfg, w, w.work[e.task], e.etag, e.page, e.last)
  {
    hide ContinueEnabled;
  }

  lemma TickStore(cfg: Config, w: World, now: Time)
    requires StoreOk(cfg, w)
    ensures StoreOk(cfg, w.(clock := now))
  {
    hide ObjectsOk, Present;
    var w' := w.(clock := now);
    forall t | t in w.work ensures CompleterOk(cfg, w', w.work[t]) && SweeperOk(w', w.work[t]) {
      assert CompleterOk(cfg, w, w.work[t]) && SweeperOk(w, w.work[t]);
    }
  }

  lemma StepKeepsStore(cfg: Config, w: World, now: Time, e: Event)
    requires ConfigOk(cfg) && PackWorldOk(cfg, w)
    ensures PackWorldOk(cfg, Step(cfg, w, now, e))
  {
    hide LifecycleOk, FinalizersOk, ObjectsOk, OneCleaner, ShownComplete, ConfigOk, Act, Enabled, CompleterOk, SweeperOk;
    StepKeepsLifecycle(cfg, w, now, e);
    StepKeepsFinalizers(cfg, w, now, e);
    if Enabled(cfg, w, now, e) {
      var w' := Act(cfg, w, now, e);
      ActMoves(cfg, w, now, e);
      ActOneCleaner(cfg, w, now, e);
      ActShown(cfg, w, now, e);
      forall t | t in w'.work ensures CompleterOk(cfg, w', w'.work[t]) && SweeperOk(w', w'.work[t]) {
        ActWork(cfg, w, now, e, t);
      }
      TickStore(cfg, w', now);
    }
  }

  lemma StartOk(cfg: Config)
    ensures PackWorldOk(cfg, Start)
  {
    hide LifecycleOk;
    StartLifecycle(cfg);
  }

  lemma {:induction false} RunKeepsStore(cfg: Config, w: World, events: seq<Timed>)
    requires ConfigOk(cfg) && PackWorldOk(cfg, w)
    ensures PackWorldOk(cfg, Run(cfg, w, events))
    decreases |events|
  {
    hide PackWorldOk, Step;
    if events != [] {
      StepKeepsStore(cfg, w, events[0].at, events[0].event);
      RunKeepsStore(cfg, Step(cfg, w, events[0].at, events[0].event), events[1..]);
    }
  }

  /** In every reachable state an object at a final key has the size, digest and type its manifest
      promises, and every active or superseded pack has all its files. */
  lemma ShownPacksAreGenuine(cfg: Config, events: seq<Timed>, p: PackId, i: nat)
    requires ConfigOk(cfg)
    ensures var w := Run(cfg, Start, events);
            p in w.rows.packs && Shown(w.rows.packs[p].status) && i < |cfg.files(w.rows.packs[p].manifest)| ==>
              var f := cfg.files(w.rows.packs[p].manifest)[i];
              var k := Final(PrefixOf(w.rows, p), f.path);
              k in w.store.objects && Fits(cfg, f, w.store.objects[k].bytes) && w.store.objects[k].mime == f.mime
  {
    StartOk(cfg);
    RunKeepsStore(cfg, Start, events);
    hide Run, LifecycleOk, FinalizersOk, OneCleaner, CompleterOk, SweeperOk;
  }
}
