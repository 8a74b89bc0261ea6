/** Effect by effect, what any step on Asset Packs does to the object store, and which event starts, carries on or
    ends work on a pack. */
module PackEffects {
  import opened Common
  import opened Catalog
  import opened Packs
  import opened PackWorld

  /** The task an event lets go on. */
  ghost predicate Goes(cfg: Config, w: World, now: Time, e: Event) { e.Continue? && Enabled(cfg, w, now, e) }

  ghost predicate HasObject(s: Store, x: Prefix) { exists k :: k in s.objects && k.prefix == x }

  lemma EmptyExactly(s: Store)
    ensures forall x :: PrefixEmpty(s, x) <==> !HasObject(s, x)
  {
  }

  // ------------------------------------------------------------------ objects that go

  /** A cleanup deletes what it asks for under the pack's prefix: the service of the staging objects only the
      pack's own, the portal none. */
  ghost predicate Cleaned(w: World, e: Event, k: Key)
    requires e.Continue? && e.task in w.work
  {
    && w.work[e.task].Emptying? && k in e.keys && k.prefix == w.work[e.task].prefix
    && (k.Staging? ==> w.work[e.task].ending != ThenRemoveInPortal && k.pack == w.work[e.task].pack)
  }

  /** The finalization of an account deletes under the next prefix of its page, whatever it is. */
  ghost predicate Finalized(w: World, e: Event, k: Key)
    requires e.Continue? && e.task in w.work
  {
    && w.work[e.task].Finalizing? && e.last in w.work[e.task].todo
    && k in e.keys && k.prefix == w.work[e.task].todo[e.last]
  }

  /** The staging cleanup deletes staging objects of a pack in use whose URLs have expired. */
  ghost predicate Unstaged(cfg: Config, w: World, now: Time, e: Event, k: Key) {
    && e.CleanStaging? && w.clock <= now && e.pack in w.rows.packs
    && w.rows.packs[e.pack].status in {PackActive, Superseded}
    && (w.rows.packs[e.pack].lastIssued.Some? ==> w.rows.packs[e.pack].lastIssued.value + cfg.limits.urlTtl + 5_000 <= now)
    && k in e.keys && k.Staging? && k.prefix == Prefix(w.rows.packs[e.pack].companion, w.rows.packs[e.pack].manifest)
  }

  /** An object goes exactly so. */
  lemma GoesExactly(cfg: Config, w: World, now: Time, e: Event, k: Key)
    requires k in w.store.objects
    ensures k !in Step(cfg, w, now, e).store.objects
       <==> (Goes(cfg, w, now, e) && (Cleaned(w, e, k) || Finalized(w, e, k))) || Unstaged(cfg, w, now, e, k)
  {
    hide Usage, DeletionDue, NextFile, OnlyCleaner, Taggable, MayUpload, Fits;
    if Goes(cfg, w, now, e) {
      ResumeDeletes(cfg, w, now, e, k);
    }
    hide Enabled, Resume, Cleaned, Finalized;
  }

  lemma ResumeDeletes(cfg: Config, w: World, now: Time, e: Event, k: Key)
    requires Goes(cfg, w, now, e) && k in w.store.objects
    ensures k !in Resume(cfg, w, now, w.work[e.task], e).store.objects <==> Cleaned(w, e, k) || Finalized(w, e, k)
  {
    EmptyExactly(w.store);
    assert HasObject(w.store, k.prefix);
    hide DeletionDue, Fits, Taggable, PrefixEmpty, HasObject, MayUpload, Ended, Activate, Claim, PacksOf, NextFile, RemoveAccount;
  }

  // ------------------------------------------------------------------ objects that come

  ghost predicate Promised(cfg: Config, f: File, o: Object) { |o.bytes| == f.size && cfg.digest(o.bytes) == f.digest && o.mime == f.mime }

  /** A verified file that is still what was verified. */
  ghost predicate Copyable(cfg: Config, w: World, e: Event) {
    && e.Continue? && e.task in w.work && w.work[e.task].Copying?
    && var k := w.work[e.task];
    && k.file < |cfg.files(k.prefix.manifest)| && Staging(k.prefix, k.pack, k.file) in w.store.objects
    && w.store.objects[Staging(k.prefix, k.pack, k.file)].etag == k.etag
  }

  /** What a step writes at a key: an upload, a verified copy with the manifest's type, or the manifest. */
  ghost predicate Writes(cfg: Config, w: World, now: Time, e: Event, k: Key, o: Object) {
    || (e == Upload(k, o) && Enabled(cfg, w, now, e))
    || (Goes(cfg, w, now, e) && Copyable(cfg, w, e)
        && var c := w.work[e.task];
           k == Final(c.prefix, cfg.files(c.prefix.manifest)[c.file].path)
           && o == Object(w.store.objects[Staging(c.prefix, c.pack, c.file)].bytes, cfg.files(c.prefix.manifest)[c.file].mime, e.etag))
    || (Goes(cfg, w, now, e) && w.work[e.task].Publishing? && k == ManifestJson(w.work[e.task].prefix) && o == Object([], 0, e.etag))
  }

  /** Anybody may upload what they like to a staging key, exactly while a URL issued for that pack, at that prefix, is
      younger than its lifetime; the store gives equal tags to equal contents only. */
  lemma UploadsExactly(cfg: Config, w: World, now: Time, k: Key, o: Object)
    ensures Enabled(cfg, w, now, Upload(k, o)) <==>
              && w.clock <= now && k.Staging? && (o.etag in w.store.contents ==> w.store.contents[o.etag] == o.bytes)
              && exists url :: url in w.urls && url.pack == k.pack && url.prefix == k.prefix && now - url.issuedAt < cfg.limits.urlTtl
  {
    if Enabled(cfg, w, now, Upload(k, o)) {
      var url :| url in w.urls && url.pack == k.pack && url.prefix == k.prefix && !Lapsed(cfg, url, now);
      assert now - url.issuedAt < cfg.limits.urlTtl;
    }
    if url :| url in w.urls && k.Staging? && url.pack == k.pack && url.prefix == k.prefix && now - url.issuedAt < cfg.limits.urlTtl {
      assert !Lapsed(cfg, url, now);
    }
  }

  /** Every object a step leaves was there or is written so, and what is written is there. */
  lemma ComesExactly(cfg: Config, w: World, now: Time, e: Event, k: Key, o: Object)
    ensures Writes(cfg, w, now, e, k, o) ==> k in Step(cfg, w, now, e).store.objects && Step(cfg, w, now, e).store.objects[k] == o
    ensures k in Step(cfg, w, now, e).store.objects && Step(cfg, w, now, e).store.objects[k] == o ==>
              Writes(cfg, w, now, e, k, o) || (k in w.store.objects && w.store.objects[k] == o)
  {
    hide Usage, DeletionDue, NextFile, OnlyCleaner, Taggable, MayUpload, Fits;
    if Goes(cfg, w, now, e) {
      ResumeWrites(cfg, w, now, e, k, o);
    }
    hide Enabled, Resume;
  }

  lemma ResumeWrites(cfg: Config, w: World, now: Time, e: Event, k: Key, o: Object)
    requires Goes(cfg, w, now, e)
    ensures var s := Resume(cfg, w, now, w.work[e.task], e).store;
            && (Writes(cfg, w, now, e, k, o) ==> k in s.objects && s.objects[k] == o)
            && (k in s.objects && s.objects[k] == o ==> Writes(cfg, w, now, e, k, o) || (k in w.store.objects && w.store.objects[k] == o))
  {
    assert e.task in w.work;
    hide DeletionDue, Fits, Taggable, PrefixEmpty, MayUpload, Ended, Activate, Claim, PacksOf, NextFile, RemoveAccount, Enabled;
  }

  // ------------------------------------------------------------------ work on a completion

  /** The file of a completion is staged as its manifest promises. */
  ghost predicate Verified(cfg: Config, w: World, k: Work) {
    && k.Inspecting? && k.file < |cfg.files(k.prefix.manifest)| && Staging(k.prefix, k.pack, k.file) in w.store.objects
    && Promised(cfg, cfg.files(k.prefix.manifest)[k.file], w.store.objects[Staging(k.prefix, k.pack, k.file)])
  }

  /** The copy of the file is at its final key as promised. */
  ghost predicate Rechecked(cfg: Config, w: World, k: Work) {
    && k.Rechecking? && k.file < |cfg.files(k.prefix.manifest)|
    && var at := Final(k.prefix, cfg.files(k.prefix.manifest)[k.file].path);
    && at in w.store.objects && Promised(cfg, cfg.files(k.prefix.manifest)[k.file], w.store.objects[at])
  }

  /** A completion goes from file to file: exactly a file that is staged as promised is copied, exactly a copy of
      the inspected object is checked, exactly a good copy leads to the next file, and behind the last one the
      manifest is published. */
  lemma CompletesExactly(cfg: Config, w: World, now: Time, e: Event)
    requires Goes(cfg, w, now, e)
    ensures var k, next := w.work[e.task], Resume(cfg, w, now, w.work[e.task], e).next;
            && (next.Some? && next.value.Copying? <==> Verified(cfg, w, k))
            && (next.Some? && next.value.Copying? ==>
                  next.value == Copying(k.pack, k.prefix, k.file, w.store.objects[Staging(k.prefix, k.pack, k.file)].etag))
            && (next.Some? && next.value.Rechecking? <==> Copyable(cfg, w, e))
            && (next.Some? && next.value.Rechecking? ==> next.value == Rechecking(k.pack, k.prefix, k.file))
            && (next.Some? && next.value.Inspecting? <==> Rechecked(cfg, w, k) && k.file + 1 < |cfg.files(k.prefix.manifest)|)
            && (next.Some? && next.value.Inspecting? ==> next.value == Inspecting(k.pack, k.prefix, k.file + 1))
            && (next.Some? && next.value.Publishing? <==> Rechecked(cfg, w, k) && k.file + 1 == |cfg.files(k.prefix.manifest)|)
            && (next.Some? && next.value.Publishing? ==> next.value == Publishing(k.pack, k.prefix))
            && (next.Some? && next.value.Activating? <==> k.Publishing?)
            && (next.Some? && next.value.Activating? ==> next.value == Activating(k.pack, k.prefix))
  {
    assert e.task in w.work;
    hide DeletionDue, Taggable, PrefixEmpty, MayUpload, Ended, Activate, Claim, PacksOf, RemoveAccount, Enabled;
  }

  /** A completion turns to failing the pack exactly when a staged file that is not too large, its copy, or the
      object that was inspected, is not as promised. */
  lemma FailsExactly(cfg: Config, w: World, now: Time, e: Event)
    requires Goes(cfg, w, now, e)
    ensures var k, next := w.work[e.task], Resume(cfg, w, now, w.work[e.task], e).next;
            && (next.Some? && next.value.Failing? <==>
                  || (k.Inspecting? && k.file < |cfg.files(k.prefix.manifest)| && Staging(k.prefix, k.pack, k.file) in w.store.objects
                      && |w.store.objects[Staging(k.prefix, k.pack, k.file)].bytes| <= cfg.files(k.prefix.manifest)[k.file].size && !Verified(cfg, w, k))
                  || (k.Copying? && k.file < |cfg.files(k.prefix.manifest)| && Staging(k.prefix, k.pack, k.file) in w.store.objects && !Copyable(cfg, w, e))
                  || (k.Rechecking? && k.file < |cfg.files(k.prefix.manifest)| && !Rechecked(cfg, w, k)))
            && (next.Some? && next.value.Failing? ==> next.value == Failing(k.pack, k.prefix))
  {
    assert e.task in w.work;
    hide DeletionDue, Taggable, PrefixEmpty, MayUpload, Ended, Activate, Claim, PacksOf, RemoveAccount, Enabled;
  }

  /** A task that goes on waits for what comes next, or is over; a crash ends it. No other task notices. */
  lemma TasksExactly(cfg: Config, w: World, now: Time, e: Event)
    requires Enabled(cfg, w, now, e)
    ensures e.Continue? ==>
              Step(cfg, w, now, e).work == match Resume(cfg, w, now, w.work[e.task], e).next
                                           case Some(next) => w.work[e.task := next]
                                           case None => w.work - {e.task}
    ensures e.Crash? ==> Step(cfg, w, now, e) == w.(work := w.work - {e.task}, clock := now)
  {
    hide Resume, DeletionDue, Taggable, PrefixEmpty, MayUpload, OnlyCleaner;
  }

  // ------------------------------------------------------------------ work of a cleanup

  /** A cleanup keeps at it until nothing is left under the prefix, and then ends. */
  lemma CleansExactly(cfg: Config, w: World, now: Time, e: Event)
    requires Goes(cfg, w, now, e)
    ensures var k, next := w.work[e.task], Resume(cfg, w, now, w.work[e.task], e).next;
            && (next.Some? && next.value.Emptying? <==> k.Emptying? && HasObject(w.store, k.prefix))
            && (next.Some? && next.value.Emptying? ==> next.value == k)
            && (next.Some? && next.value.Emptied? <==> k.Emptying? && !HasObject(w.store, k.prefix))
            && (next.Some? && next.value.Emptied? ==> next.value == Emptied(k.pack, k.prefix, k.ending))
            && (k.Emptied? ==> next == None)
  {
    EmptyExactly(w.store);
    hide DeletionDue, Taggable, PrefixEmpty, MayUpload, Ended, Activate, Claim, PacksOf, RemoveAccount, Enabled, HasObject, Fits;
  }

  /** What starts work: exactly a request or pass whose claim was granted, or a finalization that is due; on the
      prefix of the pack, and ending as its kind of cleanup ends. */
  lemma StartsExactly(cfg: Config, w: World, now: Time, e: Event)
    requires Enabled(cfg, w, now, e) && (e.Complete? || e.Delete? || e.Abandon? || e.Retire? || e.RetireInPortal?)
    ensures var t, p := e.task, e.pack;
            var granted := match e
                           case Complete(_, u, _) => ClaimVerifying(w.rows, cfg.limits, u, p, now).reply == Written
                           case Delete(_, u, _) => ClaimDelete(w.rows, cfg.limits, u, p, now).reply == Written
                           case Abandon(_, _) => ClaimAbandon(w.rows, cfg.limits, p, now).reply == Written
                           case Retire(_, _, visited) => ClaimSuperseded(w.rows, cfg.limits, p, visited, now).reply == Written
                           case RetireInPortal(_, u, _, visited) => OwnsPack(w.rows, u, p) && ClaimRetired(w.rows, cfg.limits, p, visited, now).reply == Written;
            && (t in Step(cfg, w, now, e).work <==> granted)
            && (granted ==>
                  && p in w.rows.packs
                  && var x := Prefix(w.rows.packs[p].companion, w.rows.packs[p].manifest);
                  && Step(cfg, w, now, e).work == w.work[t := match e
                       case Complete(_, _, _) => if cfg.files(x.manifest) == [] then Publishing(p, x) else Inspecting(p, x, 0)
                       case Delete(_, _, _) => Emptying(p, x, ThenRemoveDeleting)
                       case Abandon(_, _) => Emptying(p, x, ThenAbandoned)
                       case Retire(_, _, _) => Emptying(p, x, ThenRemove)
                       case RetireInPortal(_, _, _, _) => Emptying(p, x, ThenRemoveInPortal)])
  {
    hide Taggable, MayUpload, OnlyCleaner, UrlsExpired, UrlsExpiredBefore, SessionCurrent;
  }

  // ------------------------------------------------------------------ accounts

  /** The account may be removed: its pages are done, its deletion is due, and nothing was added or skipped. */
  ghost predicate Removes(cfg: Config, w: World, now: Time, e: Event, u: UserId) {
    && Goes(cfg, w, now, e) && w.work[e.task].Finalizing?
    && var k := w.work[e.task];
    && k.user == u && k.todo == map[] && !k.more && u in w.rows.accounts && w.rows.accounts[u].deletionRequestedAt != None
    && DeletionDue(w.rows, cfg.limits, u, now)
    && k.initial == k.processed == |set p | p in w.rows.packs && Owns(w.rows, u, w.rows.packs[p].companion)|
  }

  /** An account comes by its registration and goes exactly by its finalization; only its administration and its own
      deletion change it. */
  lemma AccountsExactly(cfg: Config, w: World, now: Time, e: Event, u: UserId)
    ensures var rows, rows' := w.rows, Step(cfg, w, now, e).rows;
            && (u in rows'.accounts <==>
                  (Enabled(cfg, w, now, e) && e == Register(u)) || (u in rows.accounts && !Removes(cfg, w, now, e, u)))
            && (u in rows'.accounts && Enabled(cfg, w, now, e) && e == Register(u) ==> rows'.accounts[u] == Account(true, None))
            && (u in rows'.accounts && u in rows.accounts && !(Enabled(cfg, w, now, e) && e == Register(u)) ==>
                  && rows'.accounts[u].active ==
                       (if Enabled(cfg, w, now, e) && e.SetActive? && e.user == u then e.active
                        else rows.accounts[u].active && !(Enabled(cfg, w, now, e) && e == DeleteAccount(u)))
                  && rows'.accounts[u].deletionRequestedAt ==
                       if Enabled(cfg, w, now, e) && e == DeleteAccount(u) && rows.accounts[u].deletionRequestedAt == None then Some(now)
                       else rows.accounts[u].deletionRequestedAt)
  {
    hide Usage, DeletionDue, NextFile, OnlyCleaner, Taggable, MayUpload, Fits, PrefixEmpty;
    if Goes(cfg, w, now, e) {
      ResumeAccounts(cfg, w, now, e, u);
    }
    hide Enabled, Resume, Removes;
  }

  lemma ResumeAccounts(cfg: Config, w: World, now: Time, e: Event, u: UserId)
    requires Goes(cfg, w, now, e)
    ensures var rows' := Resume(cfg, w, now, w.work[e.task], e).rows;
            && (u in rows'.accounts <==> u in w.rows.accounts && !Removes(cfg, w, now, e, u))
            && (u in rows'.accounts ==> rows'.accounts[u] == w.rows.accounts[u])
  {
    assert PacksOf(w.rows, u) == set p | p in w.rows.packs && Owns(w.rows, u, w.rows.packs[p].companion);
    hide DeletionDue, Fits, Taggable, PrefixEmpty, MayUpload, NextFile, PacksOf, Owns;
  }

  /** A finalization starts exactly when the deletion is due, with the count of the account's packs; it empties the
      prefixes of a page one by one, and takes pages until one has fewer than a hundred packs. */
  lemma FinalizesExactly(cfg: Config, w: World, now: Time, e: Event)
    requires Goes(cfg, w, now, e) && w.work[e.task].Finalizing?
    ensures var k, next := w.work[e.task], Resume(cfg, w, now, w.work[e.task], e).next;
            && (next.Some? <==> k.todo != map[] || k.more)
            && (next.Some? && k.todo == map[] ==>
                  && next.value.Finalizing? && next.value.todo.Keys == e.page
                  && (forall p :: p in e.page ==> p in w.rows.packs && next.value.todo[p] == Prefix(w.rows.packs[p].companion, w.rows.packs[p].manifest))
                  && next.value.processed == k.processed + |e.page| && (next.value.more <==> |e.page| >= 100)
                  && next.value.cursor == (if e.page == {} then k.cursor else Some(e.last)))
            && (next.Some? && k.todo != map[] ==>
                  next.value == if e.last in k.todo && !HasObject(w.store, k.todo[e.last])
                                then k.(todo := k.todo - {e.last}, done := k.done + {e.last}) else k)
  {
    EmptyExactly(w.store);
    hide DeletionDue, Fits, Taggable, PrefixEmpty, MayUpload, NextFile, HasObject;
  }

  lemma FinalizationStarts(cfg: Config, w: World, now: Time, e: Event)
    requires Enabled(cfg, w, now, e) && e.Finalize?
    ensures var due := e.user in w.rows.accounts && w.rows.accounts[e.user].deletionRequestedAt != None && DeletionDue(w.rows, cfg.limits, e.user, now);
            var mine := set p | p in w.rows.packs && Owns(w.rows, e.user, w.rows.packs[p].companion);
            Step(cfg, w, now, e).work == if due then w.work[e.task := Finalizing(e.user, |mine|, 0, None, true, map[], {}, mine)] else w.work
  {
    assert PacksOf(w.rows, e.user) == set p | p in w.rows.packs && Owns(w.rows, e.user, w.rows.packs[p].companion);
    hide DeletionDue, PacksOf, Owns;
  }

  // ------------------------------------------------------------------ URLs and packs

  /** URLs come exactly by a stamp that was granted: for the pack, under its prefix, signed at that time. */
  lemma UrlsExactly(cfg: Config, w: World, now: Time, e: Event, url: Url)
    ensures url in Step(cfg, w, now, e).urls <==>
              || url in w.urls
              || (e.IssueUrls? && Enabled(cfg, w, now, e) && RecordUrls(w.rows, e.user, e.pack, e.issuedAt, now).reply == Written
                  && url == Url(e.pack, Prefix(w.rows.packs[e.pack].companion, w.rows.packs[e.pack].manifest), e.issuedAt))
  {
    hide Usage, DeletionDue, NextFile, OnlyCleaner, Taggable, MayUpload, Fits, PrefixEmpty, Resume;
  }

  /** The bytes of a pack are those of its files. */
  lemma {:induction false} BytesExactly(files: seq<File>, more: seq<File>, f: File)
    ensures TotalBytes([]) == 0 && TotalBytes([f]) == f.size && TotalBytes(files + more) == TotalBytes(files) + TotalBytes(more)
    decreases |files|
  {
    assert [f][1..] == [];
    if files == [] {
      assert files + more == more;
    } else {
      assert (files + more)[1..] == files[1..] + more;
      BytesExactly(files[1..], more, f);
    }
  }

  /** A step on a pack's behalf is its statement and nothing else: a pack is begun with all the bytes of its
      manifest, a superseded one is activated again by its owner, a completion ends with its activation. */
  lemma StatementsExactly(cfg: Config, w: World, now: Time, e: Event)
    requires Enabled(cfg, w, now, e)
    ensures e.InitiatePack? ==>
              Step(cfg, w, now, e).rows == Initiate(w.rows, cfg.limits, e.user, e.companion, e.manifest, TotalBytes(cfg.files(e.manifest)), now, e.pack).rows
    ensures e.ActivateAgain? ==>
              Step(cfg, w, now, e).rows == if OwnsPack(w.rows, e.user, e.pack) then Activate(w.rows, w.rows.packs[e.pack].companion, e.pack, Superseded, now).rows
                                           else w.rows
    ensures e.Continue? && w.work[e.task].Activating? ==>
              Step(cfg, w, now, e).rows == Activate(w.rows, w.work[e.task].prefix.companion, w.work[e.task].pack, Verifying, now).rows
    ensures e.Continue? && w.work[e.task].Failing? ==>
              Step(cfg, w, now, e).rows == Claim(w.rows, w.work[e.task].pack, Verifying, PackFailed, now)
    ensures e.Continue? && w.work[e.task].Emptied? ==>
              Step(cfg, w, now, e).rows == match w.work[e.task].ending
                                           case ThenAbandoned => MarkAbandoned(w.rows, w.work[e.task].pack, now)
                                           case ThenRemove => if w.work[e.task].pack in w.rows.packs then RemovePack(w.rows, w.work[e.task].pack) else w.rows
                                           case _ => RemoveDeleting(w.rows, w.work[e.task].pack)
  {
    hide Usage, DeletionDue, NextFile, OnlyCleaner, Taggable, MayUpload, Fits, PrefixEmpty, Activate, Initiate, Claim, MarkAbandoned, RemovePack, RemoveDeleting;
  }
}
