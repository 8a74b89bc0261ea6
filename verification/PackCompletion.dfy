/** Runs of the pack world in which a pack is begun, gets its upload URLs and is completed, whatever else is
    at work. */
module PackCompletion {
  import opened Common
  import opened Catalog
  import opened Packs
  import opened PackWorld
  import opened PackLifecycle

  // ------------------------------------------------------------------ runs

  lemma {:induction false} RunAppend(cfg: Config, w: World, first: seq<Timed>, second: seq<Timed>)
    ensures Run(cfg, w, first + second) == Run(cfg, Run(cfg, w, first), second)
    decreases |first|
  {
    hide Step;
    if first == [] {
      assert first + second == second;
    } else {
      assert (first + second)[1..] == first[1..] + second;
      RunAppend(cfg, Step(cfg, w, first[0].at, first[0].event), first[1..], second);
    }
  }

  lemma RunOne(cfg: Config, w: World, e: Timed)
    ensures Run(cfg, w, [e]) == Step(cfg, w, e.at, e.event)
  {
    hide Step;
    assert Run(cfg, w, [e]) == Run(cfg, Step(cfg, w, e.at, e.event), []);
  }

  /** The events that start a cleanup of a pack. */
  predicate Claims(e: Event) { e.Delete? || e.Abandon? || e.Retire? || e.RetireInPortal? }

  ghost predicate NoCleanup(events: seq<Timed>) { forall e :: e in events ==> !Claims(e.event) }

  lemma NoCleanupAppend(first: seq<Timed>, second: seq<Timed>)
    requires NoCleanup(first) && NoCleanup(second)
    ensures NoCleanup(first + second)
  {
  }

  lemma Unused(keys: set<int>) returns (e: int)
    ensures e !in keys
    ensures forall k :: k in keys ==> k < e
  {
    if keys == {} {
      e := 0;
    } else {
      var x := Member(keys);
      e := Unused(keys - {x});
      if x >= e {
        e := x + 1;
      }
      assert forall k :: k in keys ==> k == x || k in keys - {x};
    }
  }

  // ------------------------------------------------------------------ completing a pack

  /** Every file of the manifest has a content that fits it. */
  ghost predicate Publishable(cfg: Config, m: ManifestId) {
    forall i :: 0 <= i < |cfg.files(m)| ==> exists bytes :: Fits(cfg, cfg.files(m)[i], bytes)
  }

  /** Only the store differs. */
  ghost predicate SameButStore(w: World, w': World) { w' == w.(store := w'.store) }

  function Go(t: TaskId, etag: int): Event { Continue(t, etag, {}, {}, 0) }

  /** Somebody has upload URLs of the pack that are alive. */
  ghost predicate HasUrl(cfg: Config, w: World, p: PackId, x: Prefix) {
    exists url :: url in w.urls && url.pack == p && url.prefix == x && !Lapsed(cfg, url, w.clock)
  }

  /** One file is uploaded, verified and copied. */
  lemma FileGoes(cfg: Config, w: World, t: TaskId, p: PackId, x: Prefix, i: nat) returns (events: seq<Timed>)
    requires Publishable(cfg, x.manifest) && HasUrl(cfg, w, p, x)
    requires i < |cfg.files(x.manifest)| && t in w.work && w.work[t] == Inspecting(p, x, i)
    ensures NoCleanup(events)
    ensures SameButStore(w.(work := w.work[t := NextFile(cfg, p, x, i + 1)]), Run(cfg, w, events))
  {
    var f := cfg.files(x.manifest)[i];
    var bytes :| Fits(cfg, f, bytes);
    var etag := Unused(w.store.contents.Keys);
    var at := w.clock;
    var o := Object(bytes, f.mime, etag);
    var up, go := Timed(at, Upload(Staging(x, p, i), o)), Timed(at, Go(t, etag));
    var w1 := Step(cfg, w, at, up.event);
    Uploaded(cfg, w, Staging(x, p, i), o);
    Inspected(cfg, w1, t, p, x, i, o);
    var w2 := Step(cfg, w1, at, go.event);
    Copied(cfg, w2, t, p, x, i, o);
    var w3 := Step(cfg, w2, at, go.event);
    Rechecked(cfg, w3, t, p, x, i);
    events := [up] + [go] + [go] + [go];
    hide Step, Publishable, Fits, HasUrl;
    RunOne(cfg, w, up);
    RunOne(cfg, w1, go);
    RunOne(cfg, w2, go);
    RunOne(cfg, w3, go);
    RunAppend(cfg, w, [up], [go]);
    RunAppend(cfg, w, [up] + [go], [go]);
    RunAppend(cfg, w, [up] + [go] + [go], [go]);
  }

  lemma Uploaded(cfg: Config, w: World, k: Key, o: Object)
    requires k.Staging? && HasUrl(cfg, w, k.pack, k.prefix) && o.etag !in w.store.contents
    ensures Step(cfg, w, w.clock, Upload(k, o)) == w.(store := PutObject(w.store, k, o))
  {
  }

  lemma Inspected(cfg: Config, w: World, t: TaskId, p: PackId, x: Prefix, i: nat, o: Object)
    requires t in w.work && w.work[t] == Inspecting(p, x, i) && i < |cfg.files(x.manifest)|
    requires Staging(x, p, i) in w.store.objects && w.store.objects[Staging(x, p, i)] == o
    requires Fits(cfg, cfg.files(x.manifest)[i], o.bytes) && o.mime == cfg.files(x.manifest)[i].mime
    ensures Step(cfg, w, w.clock, Go(t, o.etag)) == w.(work := w.work[t := Copying(p, x, i, o.etag)])
  {
  }

  lemma Copied(cfg: Config, w: World, t: TaskId, p: PackId, x: Prefix, i: nat, o: Object)
    requires t in w.work && w.work[t] == Copying(p, x, i, o.etag) && i < |cfg.files(x.manifest)|
    requires Staging(x, p, i) in w.store.objects && w.store.objects[Staging(x, p, i)] == o
    requires o.etag in w.store.contents && w.store.contents[o.etag] == o.bytes
    ensures var f := cfg.files(x.manifest)[i];
            Step(cfg, w, w.clock, Go(t, o.etag))
            == w.(work := w.work[t := Rechecking(p, x, i)], store := PutObject(w.store, Final(x, f.path), Object(o.bytes, f.mime, o.etag)))
  {
  }

  lemma Rechecked(cfg: Config, w: World, t: TaskId, p: PackId, x: Prefix, i: nat)
    requires t in w.work && w.work[t] == Rechecking(p, x, i) && i < |cfg.files(x.manifest)|
    requires var f := cfg.files(x.manifest)[i];
             && Final(x, f.path) in w.store.objects && Fits(cfg, f, w.store.objects[Final(x, f.path)].bytes)
             && w.store.objects[Final(x, f.path)].mime == f.mime
    ensures forall etag :: Step(cfg, w, w.clock, Go(t, etag)) == w.(work := w.work[t := NextFile(cfg, p, x, i + 1)])
  {
  }

  /** All files from the `i`-th on. */
  lemma {:induction false} FilesGo(cfg: Config, w: World, t: TaskId, p: PackId, x: Prefix, i: nat) returns (events: seq<Timed>)
    requires Publishable(cfg, x.manifest) && HasUrl(cfg, w, p, x)
    requires i <= |cfg.files(x.manifest)| && t in w.work && w.work[t] == NextFile(cfg, p, x, i)
    ensures NoCleanup(events)
    ensures SameButStore(w.(work := w.work[t := Publishing(p, x)]), Run(cfg, w, events))
    decreases |cfg.files(x.manifest)| - i
  {
    if i == |cfg.files(x.manifest)| {
      events := [];
    } else {
      var first := FileGoes(cfg, w, t, p, x, i);
      var rest := FilesGo(cfg, Run(cfg, w, first), t, p, x, i + 1);
      events := first + rest;
      RunAppend(cfg, w, first, rest);
    }
  }

  /** The user is uploading the pack, begun just now, and has URLs for it. */
  ghost predicate Uploads(cfg: Config, w: World, u: UserId, p: PackId) {
    && OwnsPack(w.rows, u, p) && w.rows.packs[p].status == Uploading && w.rows.packs[p].createdAt == w.clock
    && HasUrl(cfg, w, p, PrefixOf(w.rows, p))
  }

  ghost function Activated(w: World, p: PackId): Rows
    requires p in w.rows.packs
  {
    Activate(SetStatus(w.rows, p, Verifying, w.clock), w.rows.packs[p].companion, p, Verifying, w.clock).rows
  }

  /** It can be completed at once, by a task of any new id. */
  lemma PackCompletes(cfg: Config, w: World, u: UserId, p: PackId, t: TaskId) returns (events: seq<Timed>)
    requires Uploads(cfg, w, u, p) && t !in w.work && Publishable(cfg, w.rows.packs[p].manifest)
    ensures NoCleanup(events)
    ensures SameButStore(w.(rows := Activated(w, p)), Run(cfg, w, events))
  {
    var x := PrefixOf(w.rows, p);
    var begin := Timed(w.clock, Complete(t, u, p));
    CompleteBegins(cfg, w, u, p, t);
    var w1 := Step(cfg, w, w.clock, begin.event);
    assert HasUrl(cfg, w1, p, x);
    var files := FilesGo(cfg, w1, t, p, x, 0);
    var w2 := Run(cfg, w1, files);
    var etag := Unused(w2.store.contents.Keys);
    var go := Timed(w.clock, Go(t, etag));
    CompleteEnds(cfg, w2, t, p, x, etag);
    var w3 := Step(cfg, w2, w.clock, go.event);
    var w4 := Step(cfg, w3, w.clock, go.event);
    hide Step, Publishable, Activated, Uploads, NextFile, HasUrl;
    RunOne(cfg, w, begin);
    RunOne(cfg, w2, go);
    RunOne(cfg, w3, go);
    RunAppend(cfg, w, [begin], files);
    RunAppend(cfg, w, [begin] + files, [go]);
    RunAppend(cfg, w, [begin] + files + [go], [go]);
    events := [begin] + files + [go] + [go];
    assert w4.work == w.work;
    ActivatedIs(w, p, x);
  }

  lemma ActivatedIs(w: World, p: PackId, x: Prefix)
    requires p in w.rows.packs && x == PrefixOf(w.rows, p)
    ensures Activate(SetStatus(w.rows, p, Verifying, w.clock), x.companion, p, Verifying, w.clock).rows == Activated(w, p)
  {
    hide Activate;
  }

  lemma CompleteBegins(cfg: Config, w: World, u: UserId, p: PackId, t: TaskId)
    requires Uploads(cfg, w, u, p) && t !in w.work
    ensures Step(cfg, w, w.clock, Complete(t, u, p))
            == w.(rows := SetStatus(w.rows, p, Verifying, w.clock), work := w.work[t := NextFile(cfg, p, PrefixOf(w.rows, p), 0)])
  {
    hide NextFile, HasUrl;
  }

  lemma CompleteEnds(cfg: Config, w: World, t: TaskId, p: PackId, x: Prefix, etag: int)
    requires t in w.work && w.work[t] == Publishing(p, x) && etag !in w.store.contents
    ensures var w1 := Step(cfg, w, w.clock, Go(t, etag)); var w2 := Step(cfg, w1, w.clock, Go(t, etag));
            SameButStore(w.(rows := Activate(w.rows, x.companion, p, Verifying, w.clock).rows, work := w.work - {t}), w2)
  {
    hide Activate;
    var w1 := Step(cfg, w, w.clock, Go(t, etag));
    assert w1.work == w.work[t := Activating(p, x)];
    assert w1.work - {t} == w.work - {t};
  }

  // ------------------------------------------------------------------ beginning a pack

  /** A pack with a new manifest is begun, if the quota allows it. */
  lemma Initiates(cfg: Config, w: World, u: UserId, c: CompanionId, m: ManifestId, p: PackId)
    requires MayMutate(w.rows, u) && Owns(w.rows, u, c) && Usage(w.rows, u) + TotalBytes(cfg.files(m)) <= cfg.limits.quota
    requires p !in w.used.packs && p !in w.rows.packs && WithManifest(w.rows, c, m) == {}
    ensures var w' := Step(cfg, w, w.clock, InitiatePack(u, c, m, p));
            && w'.rows == w.rows.(packs := w.rows.packs[p := Pack(c, m, TotalBytes(cfg.files(m)), Uploading, w.clock, w.clock, None, None)])
            && w' == w.(rows := w'.rows, used := w.used.(packs := w.used.packs + {p}))
  {
    hide Usage;
  }

  /** Its first upload URLs are issued. */
  lemma Issues(cfg: Config, w: World, u: UserId, p: PackId)
    requires MayMutate(w.rows, u) && OwnsPack(w.rows, u, p) && w.rows.packs[p].status == Uploading && cfg.limits.urlTtl > 0
    requires forall url :: url in w.urls ==> url.pack != p
    ensures var w' := Step(cfg, w, w.clock, IssueUrls(u, p, w.clock));
            && w'.rows == w.rows.(packs := w.rows.packs[p := w.rows.packs[p].(lastIssued := Some(w.clock), updatedAt := w.clock)])
            && w' == w.(rows := w'.rows, urls := w.urls + {Url(p, PrefixOf(w.rows, p), w.clock)})
            && HasUrl(cfg, w', p, PrefixOf(w'.rows, p))
  {
    var w' := Step(cfg, w, w.clock, IssueUrls(u, p, w.clock));
    var url := Url(p, PrefixOf(w.rows, p), w.clock);
    assert url in w'.urls && !Lapsed(cfg, url, w'.clock);
  }

  /** A pack is begun, gets its URLs and is completed, at once. */
  lemma PackAppears(cfg: Config, w: World, u: UserId, c: CompanionId, m: ManifestId, p: PackId, t: TaskId) returns (events: seq<Timed>)
    requires MayMutate(w.rows, u) && Owns(w.rows, u, c) && Usage(w.rows, u) + TotalBytes(cfg.files(m)) <= cfg.limits.quota
    requires p !in w.used.packs && p !in w.rows.packs && WithManifest(w.rows, c, m) == {}
    requires cfg.limits.urlTtl > 0 && (forall url :: url in w.urls ==> url.pack != p) && t !in w.work && Publishable(cfg, m)
    ensures NoCleanup(events)
    ensures var w' := Run(cfg, w, events);
            && w'.work == w.work && w'.clock == w.clock
            && p in w'.rows.packs && Shown(w'.rows.packs[p].status) && PrefixOf(w'.rows, p) == Prefix(c, m)
  {
    var begin, issue := Timed(w.clock, InitiatePack(u, c, m, p)), Timed(w.clock, IssueUrls(u, p, w.clock));
    Initiates(cfg, w, u, c, m, p);
    var w1 := Step(cfg, w, w.clock, begin.event);
    Issues(cfg, w1, u, p);
    var w2 := Step(cfg, w1, w.clock, issue.event);
    var complete := PackCompletes(cfg, w2, u, p, t);
    IsShown(w2, p);
    hide Step, Publishable, Activated, Usage, HasUrl, MayMutate, WithManifest, Uploads;
    RunOne(cfg, w, begin);
    RunOne(cfg, w1, issue);
    RunAppend(cfg, w, [begin], [issue]);
    RunAppend(cfg, w, [begin] + [issue], complete);
    events := [begin] + [issue] + complete;
  }

  lemma IsShown(w: World, p: PackId)
    requires p in w.rows.packs && w.rows.packs[p].companion in w.rows.companions
    ensures var rows := Activated(w, p);
            p in rows.packs && rows.packs[p].companion == w.rows.packs[p].companion && rows.packs[p].manifest == w.rows.packs[p].manifest
            && (w.rows.packs[p].status == Uploading ==> Shown(rows.packs[p].status))
  {
  }

  // ------------------------------------------------------------------ the beginning

  /** User 1 registers and has a companion, at time 0. */
  const Beginning: seq<Timed> := [Timed(0, Register(1)), Timed(0, NewCompanion(1, 1))]

  ghost predicate Begun(w: World) {
    && w.clock == 0 && w.work == map[] && w.rows == Rows(map[1 := Account(true, None)], map[1 := Owned(1, None)], map[])
    && w.urls == {} && w.used.packs == {} && w.store == Store(map[], map[])
  }

  lemma Begins(cfg: Config)
    ensures Begun(Run(cfg, Start, Beginning))
  {
    var w1 := Step(cfg, Start, 0, Beginning[0].event);
    assert w1 == Start.(rows := EmptyRows.(accounts := map[1 := Account(true, None)]), used := Used({1}, {}, {}));
    var w2 := Step(cfg, w1, 0, Beginning[1].event);
    assert w2.rows == Rows(map[1 := Account(true, None)], map[1 := Owned(1, None)], map[]);
    hide Step;
    assert Run(cfg, w2, []) == w2;
    assert Run(cfg, w1, Beginning[1..]) == Run(cfg, w2, []);
    assert Run(cfg, Start, Beginning) == Run(cfg, w1, Beginning[1..]);
  }

  /** Pack 1 is begun. */
  lemma BeginsPack(cfg: Config, m: ManifestId)
    requires TotalBytes(cfg.files(m)) <= cfg.limits.quota
    ensures var w := Run(cfg, Start, Beginning + [Timed(0, InitiatePack(1, 1, m, 1))]);
            && w.clock == 0 && w.work == map[] && w.urls == {} && w.used.packs == {1} && w.store == Store(map[], map[])
            && w.rows == Rows(map[1 := Account(true, None)], map[1 := Owned(1, None)],
                              map[1 := Pack(1, m, TotalBytes(cfg.files(m)), Uploading, 0, 0, None, None)])
  {
    Begins(cfg);
    var w := Run(cfg, Start, Beginning);
    NothingUsed(w);
    Initiates(cfg, w, 1, 1, m, 1);
    var begin := Timed(0, InitiatePack(1, 1, m, 1));
    hide Step, Run, Usage;
    RunOne(cfg, w, begin);
    RunAppend(cfg, Start, Beginning, [begin]);
  }

  lemma NothingUsed(w: World)
    requires w.rows.packs == map[]
    ensures Usage(w.rows, 1) == 0
  {
    assert Counted(w.rows, 1) == {};
  }
}
