/** Asset Packs at large: the rows, the object store, the upload URLs that are out, and every request
    and worker at work on them, each cut at its database statements and storage calls. */
module PackWorld {
  import opened Common
  import opened Catalog
  import opened Packs

  // ------------------------------------------------------------------ the object store

  /** objectPrefix: companion-assets/<user>/<companion>/<manifest hash>. */
  datatype Prefix = Prefix(companion: CompanionId, manifest: ManifestId)

  datatype Key =
    | Staging(prefix: Prefix, pack: PackId, file: nat)
    | Final(prefix: Prefix, path: int)
    | ManifestJson(prefix: Prefix)

  datatype Object = Object(bytes: seq<int>, mime: int, etag: int)

  /** The objects, and what each ETag ever stood for: equal ETags mean equal content. */
  datatype Store = Store(objects: map<Key, Object>, contents: map<int, seq<int>>)

  /** One file of a manifest. */
  datatype File = File(path: int, size: nat, digest: int, mime: int)

  /** The limits, the files of each manifest, and SHA-256. */
  datatype Config = Config(limits: Limits, files: ManifestId -> seq<File>, digest: seq<int> -> int)

  /** validateManifest refuses repeated paths, empty manifests and empty files; the lifetime of upload
      URLs is configured as a positive number. */
  ghost predicate ConfigOk(cfg: Config) {
    && (forall m, i, j :: 0 <= i < j < |cfg.files(m)| ==> cfg.files(m)[i].path != cfg.files(m)[j].path)
    && (forall m, i :: 0 <= i < |cfg.files(m)| ==> cfg.files(m)[i].size > 0)
    && (forall m :: cfg.files(m) != [])
    && cfg.limits.urlTtl > 0
  }

  /** totalBytes, which initiateAssetPack compares with the manifest's own sum. */
  function TotalBytes(files: seq<File>): nat { if files == [] then 0 else files[0].size + TotalBytes(files[1..]) }

  /** The store may give content `bytes` the ETag. */
  predicate Taggable(s: Store, etag: int, bytes: seq<int>) { etag in s.contents ==> s.contents[etag] == bytes }

  function PutObject(s: Store, k: Key, o: Object): Store {
    Store(s.objects[k := o], s.contents[o.etag := o.bytes])
  }

  /** Deletes those of `keys` that are under the prefix. */
  function DeleteUnder(s: Store, x: Prefix, keys: set<Key>): Store {
    s.(objects := map k | k in s.objects && !(k in keys && k.prefix == x) :: s.objects[k])
  }

  /** The same under the prefix's `staging` directory. */
  function DeleteStaging(s: Store, x: Prefix, keys: set<Key>): Store {
    s.(objects := map k | k in s.objects && !(k in keys && k.Staging? && k.prefix == x) :: s.objects[k])
  }

  predicate PrefixEmpty(s: Store, x: Prefix) { forall k :: k in s.objects ==> k.prefix != x }

  /** What the manifest promises of a file's content. */
  predicate Fits(cfg: Config, f: File, bytes: seq<int>) { |bytes| == f.size && cfg.digest(bytes) == f.digest }

  // ------------------------------------------------------------------ work in progress

  /** Whose cleanup it is, and so how it ends once the prefix is empty. */
  datatype Ending = ThenAbandoned | ThenRemoveDeleting | ThenRemove | ThenRemoveInPortal

  datatype Work =
    // completeAssetPack, file by file
    | Inspecting(pack: PackId, prefix: Prefix, file: nat)
    | Copying(pack: PackId, prefix: Prefix, file: nat, etag: int)
    | Rechecking(pack: PackId, prefix: Prefix, file: nat)
    | Publishing(pack: PackId, prefix: Prefix)
    | Activating(pack: PackId, prefix: Prefix)
    | Failing(pack: PackId, prefix: Prefix)
    // deleteAssetPack and the cleanup passes
    | Emptying(pack: PackId, prefix: Prefix, ending: Ending)
    | Emptied(pack: PackId, prefix: Prefix, ending: Ending)
    // finalizePendingAccountDeletion: `initial` packs were counted, `todo` is what is left of the
    // page, `done` is what was processed; `start` are the packs that were counted
    | Finalizing(user: UserId, initial: nat, processed: nat, cursor: Option<PackId>, more: bool,
                 todo: map<PackId, Prefix>, done: set<PackId>, start: set<PackId>)

  predicate Completes(k: Work) {
    k.Inspecting? || k.Copying? || k.Rechecking? || k.Publishing? || k.Activating? || k.Failing?
  }

  predicate Cleans(k: Work) { k.Emptying? || k.Emptied? }

  /** What a cleanup deletes under its prefix: the service the pack's own staging objects, the portal
      none. */
  function Deletable(k: Work, keys: set<Key>): set<Key>
    requires k.Emptying?
  {
    set key | key in keys && (key.Staging? ==> k.ending != ThenRemoveInPortal && key.pack == k.pack)
  }

  type TaskId = int

  /** The upload URLs of a pack's files, all signed at the same time. */
  datatype Url = Url(pack: PackId, prefix: Prefix, issuedAt: Time)

  /** The store refuses an expired URL. */
  predicate Lapsed(cfg: Config, url: Url, now: Time) { url.issuedAt + cfg.limits.urlTtl <= now }

  /** Somebody has a URL for the key that has not expired. */
  ghost predicate MayUpload(cfg: Config, urls: set<Url>, k: Key, now: Time) {
    k.Staging? && exists url :: url in urls && url.pack == k.pack && url.prefix == k.prefix && !Lapsed(cfg, url, now)
  }

  /** Ids are never used twice. */
  datatype Used = Used(users: set<UserId>, companions: set<CompanionId>, packs: set<PackId>)

  datatype World = World(rows: Rows, store: Store, work: map<TaskId, Work>, urls: set<Url>, clock: Time, used: Used)

  const Start := World(EmptyRows, Store(map[], map[]), map[], {}, 0, Used({}, {}, {}))

  datatype Event =
    | Register(user: UserId)
    | SetActive(user: UserId, active: bool)
    | NewCompanion(user: UserId, companion: CompanionId)
    | InitiatePack(user: UserId, companion: CompanionId, manifest: ManifestId, pack: PackId)
    | IssueUrls(user: UserId, pack: PackId, issuedAt: Time)
    | Upload(key: Key, object: Object)
    | Complete(task: TaskId, user: UserId, pack: PackId)
    | ActivateAgain(user: UserId, pack: PackId)
    | Delete(task: TaskId, user: UserId, pack: PackId)
    | Abandon(task: TaskId, pack: PackId)
    | Retire(task: TaskId, pack: PackId, visited: bool)
    | RetireInPortal(task: TaskId, user: UserId, pack: PackId, visited: bool)
    | CleanStaging(pack: PackId, keys: set<Key>)
    | DeleteAccount(user: UserId)
    | Finalize(task: TaskId, user: UserId)
    | Continue(task: TaskId, etag: int, keys: set<Key>, page: set<PackId>, last: PackId)
    | Crash(task: TaskId)

  // ------------------------------------------------------------------ steps

  function PrefixOf(rows: Rows, p: PackId): Prefix
    requires p in rows.packs
  {
    Prefix(rows.packs[p].companion, rows.packs[p].manifest)
  }

  /** The next file, or the end of the loop. */
  function NextFile(cfg: Config, p: PackId, x: Prefix, i: nat): Work {
    if i < |cfg.files(x.manifest)| then Inspecting(p, x, i) else Publishing(p, x)
  }

  /** No other cleanup works on the pack. */
  predicate OnlyCleaner(w: World, p: PackId) {
    forall t :: t in w.work && Cleans(w.work[t]) ==> w.work[t].pack != p
  }

  /** What the environment guarantees: time goes forward; ids are new; URL transactions commit
      out of order by at most the skew; ETags identify content; one cleanup worker per pack. */
  ghost predicate Enabled(cfg: Config, w: World, now: Time, e: Event) {
    && w.clock <= now
    && match e
       case Register(u) => u !in w.used.users
       case NewCompanion(u, c) => u in w.rows.accounts && c !in w.used.companions
       case InitiatePack(_, _, _, p) => p !in w.used.packs
       case IssueUrls(_, p, issuedAt) => issuedAt <= now && forall url :: url in w.urls && url.pack == p ==> url.issuedAt <= issuedAt + SKEW
       case Upload(k, o) => MayUpload(cfg, w.urls, k, now) && Taggable(w.store, o.etag, o.bytes)
       case Complete(t, _, _) => t !in w.work
       case Delete(t, _, p) => t !in w.work && OnlyCleaner(w, p)
       case Abandon(t, p) => t !in w.work && OnlyCleaner(w, p)
       case Retire(t, p, _) => t !in w.work && OnlyCleaner(w, p)
       case RetireInPortal(t, _, p, _) => t !in w.work && OnlyCleaner(w, p)
       case Finalize(t, _) => t !in w.work
       case Continue(t, etag, _, page, last) => t in w.work && ContinueEnabled(cfg, w, w.work[t], etag, page, last)
       case _ => true
  }

  predicate ContinueEnabled(cfg: Config, w: World, k: Work, etag: int, page: set<PackId>, last: PackId) {
    && (k.Copying? && Staging(k.prefix, k.pack, k.file) in w.store.objects ==>
          Taggable(w.store, etag, w.store.objects[Staging(k.prefix, k.pack, k.file)].bytes))
    && (k.Publishing? ==> Taggable(w.store, etag, []))
    && (k.Finalizing? ==>
          // a page holds packs of the account after the cursor, and `last` is its last
          && page <= PacksOf(w.rows, k.user)
          && (forall p :: p in page ==> p <= last && (k.cursor.Some? ==> k.cursor.value < p)))
  }

  /** What a stretch of work does, and how the work goes on. */
  datatype Out = Out(rows: Rows, store: Store, next: Option<Work>)

  function Inspect(cfg: Config, w: World, k: Work): Out
    requires k.Inspecting?
  {
    var at := Staging(k.prefix, k.pack, k.file);
    if at !in w.store.objects || k.file >= |cfg.files(k.prefix.manifest)| then Out(w.rows, w.store, None)
    else
      var f, o := cfg.files(k.prefix.manifest)[k.file], w.store.objects[at];
      if |o.bytes| > f.size then Out(w.rows, w.store, None)
      else if !Fits(cfg, f, o.bytes) || o.mime != f.mime then Out(w.rows, w.store, Some(Failing(k.pack, k.prefix)))
      else Out(w.rows, w.store, Some(Copying(k.pack, k.prefix, k.file, o.etag)))
  }

  /** copyVerifiedObject: CopyObject with CopySourceIfMatch, and the content type of the manifest. */
  function Copy(cfg: Config, w: World, k: Work, etag: int): Out
    requires k.Copying?
  {
    var at := Staging(k.prefix, k.pack, k.file);
    if at !in w.store.objects || k.file >= |cfg.files(k.prefix.manifest)| then Out(w.rows, w.store, None)
    else
      var f, o := cfg.files(k.prefix.manifest)[k.file], w.store.objects[at];
      if o.etag != k.etag then Out(w.rows, w.store, Some(Failing(k.pack, k.prefix)))
      else Out(w.rows, PutObject(w.store, Final(k.prefix, f.path), Object(o.bytes, f.mime, etag)), Some(Rechecking(k.pack, k.prefix, k.file)))
  }

  function Recheck(cfg: Config, w: World, k: Work): Out
    requires k.Rechecking?
  {
    if k.file >= |cfg.files(k.prefix.manifest)| then Out(w.rows, w.store, None)
    else
      var f := cfg.files(k.prefix.manifest)[k.file];
      var at := Final(k.prefix, f.path);
      if at !in w.store.objects || !Fits(cfg, f, w.store.objects[at].bytes) || w.store.objects[at].mime != f.mime
      then Out(w.rows, w.store, Some(Failing(k.pack, k.prefix)))
      else Out(w.rows, w.store, Some(NextFile(cfg, k.pack, k.prefix, k.file + 1)))
  }

  /** The end of a cleanup. */
  function Ended(rows: Rows, p: PackId, ending: Ending, now: Time): Rows {
    match ending
    case ThenAbandoned => MarkAbandoned(rows, p, now)
    case ThenRemoveDeleting => RemoveDeleting(rows, p)
    case ThenRemoveInPortal => RemoveDeleting(rows, p)
    case ThenRemove => if p in rows.packs then RemovePack(rows, p) else rows
  }

  /** finalizePendingAccountDeletion: the next page, the next prefix of the page, or the final
      transaction. */
  function FinalizeStep(cfg: Config, w: World, k: Work, now: Time, keys: set<Key>, page: set<PackId>, last: PackId): Out
    requires k.Finalizing? && page <= PacksOf(w.rows, k.user)
  {
    if k.todo != map[] then
      if last !in k.todo then Out(w.rows, w.store, Some(k))
      else if PrefixEmpty(w.store, k.todo[last]) then
        Out(w.rows, w.store, Some(k.(todo := k.todo - {last}, done := k.done + {last})))
      else Out(w.rows, DeleteUnder(w.store, k.todo[last], keys), Some(k))
    else if k.more then
      Out(w.rows, w.store,
          Some(k.(todo := map p | p in page :: PrefixOf(w.rows, p), processed := k.processed + |page|,
                  cursor := if page == {} then k.cursor else Some(last), more := |page| >= 100)))
    else if k.user in w.rows.accounts && w.rows.accounts[k.user].deletionRequestedAt.Some?
         && DeletionDue(w.rows, cfg.limits, k.user, now)
         && |PacksOf(w.rows, k.user)| == k.processed && k.initial == k.processed
    then Out(RemoveAccount(w.rows, k.user), w.store, None)
    else Out(w.rows, w.store, None)
  }

  function Resume(cfg: Config, w: World, now: Time, k: Work, e: Event): Out
    requires e.Continue? && ContinueEnabled(cfg, w, k, e.etag, e.page, e.last)
  {
    match k
    case Inspecting(_, _, _) => Inspect(cfg, w, k)
    case Copying(_, _, _, _) => Copy(cfg, w, k, e.etag)
    case Rechecking(_, _, _) => Recheck(cfg, w, k)
    case Publishing(p, x) => Out(w.rows, PutObject(w.store, ManifestJson(x), Object([], 0, e.etag)), Some(Activating(p, x)))
    case Activating(p, x) => Out(Activate(w.rows, x.companion, p, Verifying, now).rows, w.store, None)
    case Failing(p, x) => Out(Claim(w.rows, p, Verifying, PackFailed, now), w.store, None)
    case Emptying(p, x, ending) =>
      if PrefixEmpty(w.store, x) then Out(w.rows, w.store, Some(Emptied(p, x, ending)))
      else Out(w.rows, DeleteUnder(w.store, x, Deletable(k, e.keys)), Some(k))
    case Emptied(p, x, ending) => Out(Ended(w.rows, p, ending, now), w.store, None)
    case Finalizing(_, _, _, _, _, _, _, _) => FinalizeStep(cfg, w, k, now, e.keys, e.page, e.last)
  }

  /** cleanupActivePackStaging claims active packs whose URLs have expired; a deletion under way goes on
      after the pack was superseded. */
  predicate MayCleanStaging(rows: Rows, lim: Limits, p: PackId, now: Time) {
    p in rows.packs && Shown(rows.packs[p].status) && UrlsExpired(lim, rows.packs[p], now)
  }

  predicate Shown(s: PackStatus) { s == PackActive || s == Superseded }

  /** A request that claims a pack and, if it may, starts work on it. */
  function Claimed(w: World, t: TaskId, tx: PackTx, k: Work): World {
    w.(rows := tx.rows, work := if tx.reply == Written then w.work[t := k] else w.work)
  }

  ghost function Act(cfg: Config, w: World, now: Time, e: Event): World
    requires Enabled(cfg, w, now, e)
  {
    var lim := cfg.limits;
    match e
    case Register(u) =>
      w.(rows := w.rows.(accounts := w.rows.accounts[u := Account(true, None)]), used := w.used.(users := w.used.users + {u}))
    case SetActive(u, active) =>
      if u in w.rows.accounts then w.(rows := w.rows.(accounts := w.rows.accounts[u := w.rows.accounts[u].(active := active)])) else w
    case NewCompanion(u, c) =>
      w.(rows := w.rows.(companions := w.rows.companions[c := Owned(u, None)]), used := w.used.(companions := w.used.companions + {c}))
    case InitiatePack(u, c, m, p) =>
      w.(rows := Initiate(w.rows, lim, u, c, m, TotalBytes(cfg.files(m)), now, p).rows, used := w.used.(packs := w.used.packs + {p}))
    case IssueUrls(u, p, issuedAt) =>
      var tx := RecordUrls(w.rows, u, p, issuedAt, now);
      w.(rows := tx.rows, urls := if tx.reply == Written then w.urls + {Url(p, PrefixOf(w.rows, p), issuedAt)} else w.urls)
    case Upload(k, o) => w.(store := PutObject(w.store, k, o))
    case Complete(t, u, p) =>
      var tx := ClaimVerifying(w.rows, lim, u, p, now);
      if tx.reply == Written then Claimed(w, t, tx, NextFile(cfg, p, PrefixOf(w.rows, p), 0)) else w
    case ActivateAgain(u, p) =>
      if OwnsPack(w.rows, u, p) then w.(rows := Activate(w.rows, w.rows.packs[p].companion, p, Superseded, now).rows) else w
    case Delete(t, u, p) =>
      var tx := ClaimDelete(w.rows, lim, u, p, now);
      if tx.reply == Written then Claimed(w, t, tx, Emptying(p, PrefixOf(w.rows, p), ThenRemoveDeleting)) else w
    case Abandon(t, p) =>
      var tx := ClaimAbandon(w.rows, lim, p, now);
      if tx.reply == Written then Claimed(w, t, tx, Emptying(p, PrefixOf(w.rows, p), ThenAbandoned)) else w
    case Retire(t, p, visited) =>
      var tx := ClaimSuperseded(w.rows, lim, p, visited, now);
      if tx.reply == Written then Claimed(w, t, tx, Emptying(p, PrefixOf(w.rows, p), ThenRemove)) else w
    case RetireInPortal(t, u, p, visited) =>
      if !OwnsPack(w.rows, u, p) then w
      else
        var tx := ClaimRetired(w.rows, lim, p, visited, now);
        if tx.reply == Written then Claimed(w, t, tx, Emptying(p, PrefixOf(w.rows, p), ThenRemoveInPortal)) else w
    case CleanStaging(p, keys) =>
      if MayCleanStaging(w.rows, lim, p, now) then w.(store := DeleteStaging(w.store, PrefixOf(w.rows, p), keys)) else w
    case DeleteAccount(u) => w.(rows := RequestDeletion(w.rows, u, now))
    case Finalize(t, u) =>
      if u in w.rows.accounts && w.rows.accounts[u].deletionRequestedAt.Some? && DeletionDue(w.rows, lim, u, now)
      then
        var mine := PacksOf(w.rows, u);
        w.(work := w.work[t := Finalizing(u, |mine|, 0, None, true, map[], {}, mine)])
      else w
    case Continue(t, _, _, _, _) =>
      var out := Resume(cfg, w, now, w.work[t], e);
      w.(rows := out.rows, store := out.store,
         work := if out.next.Some? then w.work[t := out.next.value] else w.work - {t})
    case Crash(t) => w.(work := w.work - {t})
  }

  ghost function Step(cfg: Config, w: World, now: Time, e: Event): World {
    if Enabled(cfg, w, now, e) then Act(cfg, w, now, e).(clock := now) else w
  }

  datatype Timed = Timed(at: Time, event: Event)

  ghost function Run(cfg: Config, w: World, events: seq<Timed>): World
    decreases |events|
  {
    if events == [] then w else Run(cfg, Step(cfg, w, events[0].at, events[0].event), events[1..])
  }
}
