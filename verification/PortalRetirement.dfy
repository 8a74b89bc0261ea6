/** The portal's retirement of Asset Packs, which does not look at upload URLs: when it removes a row whose
    URLs are still alive. */
module PortalRetirement {
  import opened Common
  import opened Catalog
  import opened Packs
  import opened PackWorld
  import opened PackLifecycle
  import opened PackRemovals
  import opened PackStore
  import opened PackUrls
  import opened PackCompletion

  // ------------------------------------------------------------------ emptying a prefix

  /** Everything the cleanup may delete, until the prefix is found empty, and then the row. */
  function Removal(t: TaskId, keys: set<Key>, at: Time): seq<Timed> {
    [Timed(at, Continue(t, 0, keys, {}, 0)), Timed(at, Go(t, 0)), Timed(at, Go(t, 0))]
  }

  lemma Unroll3(cfg: Config, w: World, es: seq<Timed>)
    requires |es| == 3
    ensures var w1 := Step(cfg, w, es[0].at, es[0].event); var w2 := Step(cfg, w1, es[1].at, es[1].event);
            Run(cfg, w, es) == Step(cfg, w2, es[2].at, es[2].event)
  {
    hide Step;
    var w1 := Step(cfg, w, es[0].at, es[0].event);
    var w2 := Step(cfg, w1, es[1].at, es[1].event);
    var w3 := Step(cfg, w2, es[2].at, es[2].event);
    assert Run(cfg, w2, es[2..]) == Run(cfg, w3, es[2..][1..]) == w3;
    assert es[1..][1..] == es[2..];
    assert Run(cfg, w1, es[1..]) == Run(cfg, w2, es[2..]);
  }

  /** The cleanup can delete what is under its prefix. */
  ghost predicate MayEmpty(w: World, k: Work)
    requires k.Emptying?
  {
    forall key: Key :: key in w.store.objects && key.prefix == k.prefix && key.Staging? ==> key in Deletable(k, {key})
  }

  /** It finds the prefix empty at once, or after having emptied it. */
  lemma Empties(cfg: Config, w: World, t: TaskId, keys: set<Key>)
    requires t in w.work && w.work[t].Emptying? && keys == w.store.objects.Keys && MayEmpty(w, w.work[t])
    ensures var k := w.work[t]; var done := Emptied(k.pack, k.prefix, k.ending);
            var w1 := Step(cfg, w, w.clock, Continue(t, 0, keys, {}, 0));
            && w1 == w.(store := w1.store, work := w1.work)
            && ((w1.work == w.work[t := done] && PrefixEmpty(w1.store, k.prefix))
                || (w1.work == w.work && PrefixEmpty(w1.store, k.prefix)
                    && Step(cfg, w1, w.clock, Go(t, 0)) == w1.(work := w.work[t := done])))
  {
    var k := w.work[t];
    var w1 := Step(cfg, w, w.clock, Continue(t, 0, keys, {}, 0));
    if !PrefixEmpty(w.store, k.prefix) {
      assert w1.work == w.work;
      forall key | key in w1.store.objects ensures key.prefix != k.prefix {
      }
    }
  }

  lemma RowGoes(cfg: Config, w: World, t: TaskId)
    requires t in w.work && w.work[t].Emptied? && w.work[t].pack in w.rows.packs && w.work[t].ending != ThenAbandoned
    requires w.rows.packs[w.work[t].pack].status == Deleting
    ensures Step(cfg, w, w.clock, Go(t, 0)) == w.(rows := RemovePack(w.rows, w.work[t].pack), work := w.work - {t})
  {
  }

  lemma NothingToDo(cfg: Config, w: World, t: TaskId)
    requires t !in w.work
    ensures Step(cfg, w, w.clock, Go(t, 0)) == w
  {
  }

  lemma Removed(cfg: Config, w: World, t: TaskId)
    requires t in w.work && w.work[t].Emptying? && MayEmpty(w, w.work[t]) && w.work[t].ending != ThenAbandoned
    requires w.work[t].pack in w.rows.packs && w.rows.packs[w.work[t].pack].status == Deleting
    ensures var w' := Run(cfg, w, Removal(t, w.store.objects.Keys, w.clock));
            && w' == w.(rows := RemovePack(w.rows, w.work[t].pack), work := w.work - {t}, store := w'.store)
            && PrefixEmpty(w'.store, w.work[t].prefix)
  {
    var k := w.work[t];
    var keys := w.store.objects.Keys;
    var done := Emptied(k.pack, k.prefix, k.ending);
    Empties(cfg, w, t, keys);
    var w1 := Step(cfg, w, w.clock, Continue(t, 0, keys, {}, 0));
    var w2 := w1.(work := w.work[t := done]);
    RowGoes(cfg, w2, t);
    var w3 := Step(cfg, w2, w.clock, Go(t, 0));
    assert w3.work == w.work - {t};
    NothingToDo(cfg, w3, t);
    Unroll3(cfg, w, Removal(t, keys, w.clock));
    hide Step, PrefixEmpty, RemovePack, MayEmpty;
  }

  lemma RemovalIsQuiet(t: TaskId, keys: set<Key>, at: Time)
    ensures NoCleanup(Removal(t, keys, at))
  {
  }

  lemma {:induction false} QuietIsSafe(cfg: Config, w: World, events: seq<Timed>)
    requires NoCleanup(events)
    ensures SafeRun(cfg, w, events)
    decreases |events|
  {
    hide Step;
    if events != [] {
      assert events[0] in events;
      QuietIsSafe(cfg, Step(cfg, w, events[0].at, events[0].event), events[1..]);
    }
  }

  // ------------------------------------------------------------------ exactly

  /** A pack that was completed has something staged as long as a URL of it is alive; and so has one that is
      being deleted while its account stays. */
  lemma CompletedIsStaged(cfg: Config, w: World, p: PackId)
    requires UrlsOk(cfg, w) && p in w.rows.packs && !AllLapsed(cfg, w, p)
    requires Shown(w.rows.packs[p].status) || (w.rows.packs[p].status == Deleting && !Leaving(w.rows, p))
    ensures StagedUnder(w.store, PrefixOf(w.rows, p))
  {
    assert StatusOk(cfg, w, p);
    hide Leaving, StagedUnder, AllLapsed, UrlOk, WorkOk;
  }

  lemma PortalClaims(cfg: Config, w: World, now: Time, e: Event)
    requires Enabled(cfg, w, now, e) && e.RetireInPortal? && OwnsPack(w.rows, e.user, e.pack)
    requires ClaimRetired(w.rows, cfg.limits, e.pack, e.visited, now).reply == Written
    ensures var w' := Step(cfg, w, now, e);
            && w'.work == w.work[e.task := Emptying(e.pack, PrefixOf(w.rows, e.pack), ThenRemoveInPortal)]
            && w'.urls == w.urls && w'.clock == now && w'.store == w.store
            && e.pack in w'.rows.packs && w'.rows.packs[e.pack].status == Deleting
  {
    hide OnlyCleaner;
  }

  /** With nothing staged, the row can go at once. */
  lemma UnstagedGoes(cfg: Config, w: World, now: Time, e: Event) returns (events: seq<Timed>)
    requires Enabled(cfg, w, now, e) && e.RetireInPortal? && OwnsPack(w.rows, e.user, e.pack)
    requires ClaimRetired(w.rows, cfg.limits, e.pack, e.visited, now).reply == Written
    requires !LapsedBy(cfg, w, e.pack, now) && !StagedUnder(w.store, PrefixOf(w.rows, e.pack))
    ensures SafeRun(cfg, Step(cfg, w, now, e), events) && !GoneAreLapsed(cfg, Run(cfg, Step(cfg, w, now, e), events))
  {
    PortalClaims(cfg, w, now, e);
    var w1 := Step(cfg, w, now, e);
    var url :| url in w.urls && url.pack == e.pack && !Lapsed(cfg, url, now);
    assert MayEmpty(w1, w1.work[e.task]);
    Removed(cfg, w1, e.task);
    events := Removal(e.task, w1.store.objects.Keys, w1.clock);
    RemovalIsQuiet(e.task, w1.store.objects.Keys, w1.clock);
    QuietIsSafe(cfg, w1, events);
    hide Step, Run, Removal, SafeRun, NoCleanup, MayEmpty, StagedUnder;
    assert url in Run(cfg, w1, events).urls && url.pack !in Run(cfg, w1, events).rows.packs;
  }

  /** With something staged, it cannot before the URLs have expired. */
  lemma StagedKeeps(cfg: Config, w: World, now: Time, e: Event, events: seq<Timed>)
    requires ConfigOk(cfg) && PackWorldOk(cfg, w) && UrlsOk(cfg, w) && e.RetireInPortal?
    requires e.pack in w.rows.packs && StagedUnder(w.store, PrefixOf(w.rows, e.pack)) && SafeRun(cfg, Step(cfg, w, now, e), events)
    ensures GoneAreLapsed(cfg, Run(cfg, Step(cfg, w, now, e), events))
  {
    assert PortalSafe(cfg, w, now, e);
    hide PackWorldOk, UrlsOk, Step, SafeRun, StagedUnder, Leaving, ConfigOk;
    StepKeepsStore(cfg, w, now, e);
    StepKeepsUrls(cfg, w, now, e);
    RowsOutliveUrls(cfg, Step(cfg, w, now, e), events);
  }

  /** The exact condition: when the portal takes a pack up while a URL of it is alive, no continuation with
      safe retirements loses a row under a live URL if and only if something is staged under the pack's
      prefix. */
  lemma RetirementExactly(cfg: Config, w: World, now: Time, e: Event)
    requires ConfigOk(cfg) && PackWorldOk(cfg, w) && UrlsOk(cfg, w)
    requires Enabled(cfg, w, now, e) && e.RetireInPortal? && OwnsPack(w.rows, e.user, e.pack)
    requires ClaimRetired(w.rows, cfg.limits, e.pack, e.visited, now).reply == Written && !LapsedBy(cfg, w, e.pack, now)
    ensures StagedUnder(w.store, PrefixOf(w.rows, e.pack)) <==>
              forall events :: SafeRun(cfg, Step(cfg, w, now, e), events) ==> GoneAreLapsed(cfg, Run(cfg, Step(cfg, w, now, e), events))
  {
    var w1 := Step(cfg, w, now, e);
    if StagedUnder(w.store, PrefixOf(w.rows, e.pack)) {
      forall events | SafeRun(cfg, w1, events) ensures GoneAreLapsed(cfg, Run(cfg, w1, events)) {
        StagedKeeps(cfg, w, now, e, events);
      }
    } else {
      var events := UnstagedGoes(cfg, w, now, e);
      assert SafeRun(cfg, w1, events) && !GoneAreLapsed(cfg, Run(cfg, w1, events));
    }
    hide *;
  }

  // ------------------------------------------------------------------ a pack of a leaving account

  /** URLs are issued for a new pack, nothing is uploaded yet, and the account is deleted. */
  function Prelude(m: ManifestId): seq<Timed> {
    Beginning + [Timed(0, InitiatePack(1, 1, m, 1))] + [Timed(0, IssueUrls(1, 1, 0))] + [Timed(0, DeleteAccount(1))]
  }

  lemma Leaves(cfg: Config, m: ManifestId)
    requires ConfigOk(cfg) && TotalBytes(cfg.files(m)) <= cfg.limits.quota
    ensures var w := Run(cfg, Start, Prelude(m));
            && w.clock == 0 && w.work == map[] && w.store.objects == map[] && OwnsPack(w.rows, 1, 1)
            && w.rows.packs[1].status == Deleting && !LapsedBy(cfg, w, 1, 0)
  {
    BeginsPack(cfg, m);
    var first := Beginning + [Timed(0, InitiatePack(1, 1, m, 1))];
    var w := Run(cfg, Start, first);
    Issues(cfg, w, 1, 1);
    var w1 := Step(cfg, w, 0, IssueUrls(1, 1, 0));
    Deleted(cfg, w1);
    hide Step, Run, ConfigOk, HasUrl;
    RunOne(cfg, w, Timed(0, IssueUrls(1, 1, 0)));
    RunAppend(cfg, Start, first, [Timed(0, IssueUrls(1, 1, 0))]);
    RunOne(cfg, w1, Timed(0, DeleteAccount(1)));
    RunAppend(cfg, Start, first + [Timed(0, IssueUrls(1, 1, 0))], [Timed(0, DeleteAccount(1))]);
  }

  lemma Deleted(cfg: Config, w: World)
    requires w.clock == 0 && 1 in w.rows.accounts && OwnsPack(w.rows, 1, 1) && HasUrl(cfg, w, 1, PrefixOf(w.rows, 1))
    ensures var w' := Step(cfg, w, 0, DeleteAccount(1));
            && w'.work == w.work && w'.clock == 0 && w'.store == w.store && OwnsPack(w'.rows, 1, 1)
            && w'.rows.packs[1].status == Deleting && !LapsedBy(cfg, w', 1, 0)
  {
  }

  /** This happens for every manifest within the quota: a retirement that is under way when the account is
      deleted removes the row of a pack whose URLs have just been issued. */
  lemma LeavingTooEarly(cfg: Config, m: ManifestId) returns (events: seq<Timed>)
    requires ConfigOk(cfg) && TotalBytes(cfg.files(m)) <= cfg.limits.quota
    ensures !GoneAreLapsed(cfg, Run(cfg, Start, events))
  {
    var first := Prelude(m);
    Leaves(cfg, m);
    var w := Run(cfg, Start, first);
    var e := RetireInPortal(1, 1, 1, false);
    MayRetire(cfg, w);
    var last := UnstagedGoes(cfg, w, 0, e);
    hide Step, Run, ConfigOk, Prelude, SafeRun, GoneAreLapsed;
    RunOne(cfg, w, Timed(0, e));
    RunAppend(cfg, Start, first, [Timed(0, e)]);
    RunAppend(cfg, Start, first + [Timed(0, e)], last);
    events := first + [Timed(0, e)] + last;
  }

  lemma MayRetire(cfg: Config, w: World)
    requires w.clock == 0 && w.work == map[] && w.store.objects == map[] && OwnsPack(w.rows, 1, 1) && w.rows.packs[1].status == Deleting
    ensures Enabled(cfg, w, 0, RetireInPortal(1, 1, 1, false)) && ClaimRetired(w.rows, cfg.limits, 1, false, 0).reply == Written
    ensures !StagedUnder(w.store, PrefixOf(w.rows, 1))
  {
  }
}
