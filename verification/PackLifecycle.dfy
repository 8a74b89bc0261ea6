/** Every run keeps the rows of Asset Packs consistent: one active pack per companion, the dead stay
    dead, nobody exceeds the quota. */
module PackLifecycle {
  import opened Common
  import opened Catalog
  import opened Packs
  import opened PackWorld

  ghost predicate UsedOk(w: World) {
    w.rows.accounts.Keys <= w.used.users && w.rows.companions.Keys <= w.used.companions && w.rows.packs.Keys <= w.used.packs
  }

  /** A pack a cleanup works on is dead, as long as its row is there, and its prefix is the one the
      work remembers. */
  ghost predicate CleanerOk(w: World, k: Work) {
    Cleans(k) ==>
      && k.pack in w.used.packs
      && (k.pack in w.rows.packs ==> Dead(w.rows.packs[k.pack].status) && k.prefix == PrefixOf(w.rows, k.pack))
  }

  ghost predicate LifecycleOk(cfg: Config, w: World) {
    && RowsOk(w.rows, cfg.limits) && UsedOk(w)
    && forall t :: t in w.work ==> CleanerOk(w, w.work[t])
  }

  /** What any step does to the rows, from the point of view of everything else. */
  ghost predicate Evolves(w: World, rows: Rows) {
    && PacksAge(w.rows, rows)
    && (forall p :: p in rows.packs && p !in w.rows.packs ==>
          && p !in w.used.packs && rows.packs[p].status == Uploading && rows.packs[p].lastIssued.None?
          && rows.packs[p].companion in w.rows.companions
          && MayMutate(w.rows, w.rows.companions[rows.packs[p].companion].owner)
          && WithManifest(w.rows, rows.packs[p].companion, rows.packs[p].manifest) == {})
    && (forall c :: c in rows.companions ==>
          if c in w.rows.companions then rows.companions[c].owner == w.rows.companions[c].owner else c !in w.used.companions)
    && (forall u :: u in rows.accounts ==>
          if u in w.rows.accounts
          then w.rows.accounts[u].deletionRequestedAt.Some? ==> rows.accounts[u].deletionRequestedAt == w.rows.accounts[u].deletionRequestedAt
          else u !in w.used.users)
  }

  // ------------------------------------------------------------------ statements

  lemma SameRowsEvolve(w: World)
    ensures Evolves(w, w.rows)
  {
  }

  lemma StatusEvolves(cfg: Config, w: World, p: PackId, s: PackStatus, now: Time)
    requires RowsOk(w.rows, cfg.limits) && p in w.rows.packs
    requires w.rows.packs[p].status != PackActive && s != PackActive && (Dead(w.rows.packs[p].status) ==> Dead(s))
    ensures RowsOk(SetStatus(w.rows, p, s, now), cfg.limits) && Evolves(w, SetStatus(w.rows, p, s, now))
  {
    SetStatusKeeps(w.rows, cfg.limits, p, s, now);
    hide RowsOk;
  }

  lemma InitiateEvolves(cfg: Config, w: World, u: UserId, c: CompanionId, m: ManifestId, bytes: nat, now: Time, id: PackId)
    requires RowsOk(w.rows, cfg.limits) && id !in w.used.packs
    ensures var rows := Initiate(w.rows, cfg.limits, u, c, m, bytes, now, id).rows; RowsOk(rows, cfg.limits) && Evolves(w, rows)
  {
    InitiateKeeps(w.rows, cfg.limits, u, c, m, bytes, now, id);
    hide RowsOk;
  }

  lemma RecordUrlsEvolves(cfg: Config, w: World, u: UserId, p: PackId, issuedAt: Time, now: Time)
    requires RowsOk(w.rows, cfg.limits)
    ensures var rows := RecordUrls(w.rows, u, p, issuedAt, now).rows; RowsOk(rows, cfg.limits) && Evolves(w, rows)
  {
    RecordUrlsKeeps(w.rows, cfg.limits, u, p, issuedAt, now);
    hide RowsOk;
  }

  lemma ActivateEvolves(cfg: Config, w: World, c: CompanionId, p: PackId, from: PackStatus, now: Time)
    requires RowsOk(w.rows, cfg.limits) && (from == Verifying || from == Superseded)
    ensures var rows := Activate(w.rows, c, p, from, now).rows; RowsOk(rows, cfg.limits) && Evolves(w, rows)
  {
    ActivateKeeps(w.rows, cfg.limits, c, p, from, now);
    hide RowsOk;
  }

  /** An account or a companion is added, or an account is (re)activated. */
  lemma AccountEvolves(cfg: Config, w: World, now: Time, e: Event)
    requires RowsOk(w.rows, cfg.limits) && Enabled(cfg, w, now, e) && (e.Register? || e.SetActive? || e.NewCompanion?)
    requires UsedOk(w)
    ensures var rows := Act(cfg, w, now, e).rows; RowsOk(rows, cfg.limits) && Evolves(w, rows)
  {
    var rows := Act(cfg, w, now, e).rows;
    forall u ensures Usage(rows, u) <= cfg.limits.quota {
      assert Usage(w.rows, u) <= cfg.limits.quota;
      assert Bytes(rows) == Bytes(w.rows);
      forall p ensures p in Counted(rows, u) <==> p in Counted(w.rows, u) {
        assert p in w.rows.packs ==> w.rows.packs[p].companion in w.rows.companions;
      }
      assert Counted(rows, u) == Counted(w.rows, u);
    }
  }

  /** A cleanup ends: its pack is dead, so that marking it abandoned whatever its status does not
      revive it, and deleting it takes nothing active away. */
  lemma EndedEvolves(cfg: Config, w: World, p: PackId, ending: Ending, now: Time)
    requires RowsOk(w.rows, cfg.limits) && (p in w.rows.packs ==> Dead(w.rows.packs[p].status))
    ensures var rows := Ended(w.rows, p, ending, now); RowsOk(rows, cfg.limits) && Evolves(w, rows)
  {
    if p in w.rows.packs {
      if ending == ThenAbandoned {
        StatusEvolves(cfg, w, p, Abandoned, now);
      } else {
        RemovePackKeeps(w.rows, cfg.limits, p);
      }
    }
    hide RowsOk;
  }

  lemma DeletionEvolves(cfg: Config, w: World, u: UserId, now: Time)
    requires RowsOk(w.rows, cfg.limits)
    ensures RowsOk(RequestDeletion(w.rows, u, now), cfg.limits) && Evolves(w, RequestDeletion(w.rows, u, now))
    ensures RowsOk(RemoveAccount(w.rows, u), cfg.limits) && Evolves(w, RemoveAccount(w.rows, u))
  {
    RequestDeletionKeeps(w.rows, cfg.limits, u, now);
    RemoveAccountKeeps(w.rows, cfg.limits, u);
    hide RowsOk;
  }

  // ------------------------------------------------------------------ steps

  lemma ResumeEvolves(cfg: Config, w: World, now: Time, k: Work, e: Event)
    requires LifecycleOk(cfg, w) && CleanerOk(w, k)
    requires e.Continue? && ContinueEnabled(cfg, w, k, e.etag, e.page, e.last)
    ensures var rows := Resume(cfg, w, now, k, e).rows; RowsOk(rows, cfg.limits) && Evolves(w, rows)
  {
    hide RowsOk, Evolves, Activate, RemoveAccount, Ended, DeletionDue, Inspect, Copy, Recheck;
    SameRowsEvolve(w);
    StorageOnly(cfg, w, k, e.etag);
    match k {
      case Activating(p, x) => ActivateEvolves(cfg, w, x.companion, p, Verifying, now);
      case Failing(p, x) =>
        if p in w.rows.packs && w.rows.packs[p].status == Verifying {
          StatusEvolves(cfg, w, p, PackFailed, now);
        }
      case Emptied(p, x, ending) => EndedEvolves(cfg, w, p, ending, now);
      case Finalizing(u, _, _, _, _, _, _, _) => DeletionEvolves(cfg, w, u, now);
      case _ =>
    }
  }

  /** Storage calls leave the rows alone. */
  lemma StorageOnly(cfg: Config, w: World, k: Work, etag: int)
    ensures k.Inspecting? ==> Inspect(cfg, w, k).rows == w.rows
    ensures k.Copying? ==> Copy(cfg, w, k, etag).rows == w.rows
    ensures k.Rechecking? ==> Recheck(cfg, w, k).rows == w.rows
  {
  }

  lemma ClaimEvolves(cfg: Config, w: World, now: Time, e: Event)
    requires LifecycleOk(cfg, w) && Enabled(cfg, w, now, e)
    requires e.Complete? || e.Delete? || e.Abandon? || e.Retire? || e.RetireInPortal?
    ensures var rows := Act(cfg, w, now, e).rows; RowsOk(rows, cfg.limits) && Evolves(w, rows)
  {
    hide RowsOk, Evolves, NextFile;
    SameRowsEvolve(w);
    var p := e.pack;
    if p in w.rows.packs {
      var s := w.rows.packs[p].status;
      if e.Complete? && s == Uploading {
        StatusEvolves(cfg, w, p, Verifying, now);
      } else if e.Delete? && (s == PackFailed || s == Abandoned) {
        StatusEvolves(cfg, w, p, Deleting, now);
      } else if e.Abandon? && (s == Uploading || s == Verifying) {
        StatusEvolves(cfg, w, p, Abandoning, now);
      } else if (e.Retire? || e.RetireInPortal?) && s == Superseded {
        StatusEvolves(cfg, w, p, Deleting, now);
      }
    }
  }

  lemma ActEvolves(cfg: Config, w: World, now: Time, e: Event)
    requires LifecycleOk(cfg, w) && Enabled(cfg, w, now, e)
    ensures var rows := Act(cfg, w, now, e).rows; RowsOk(rows, cfg.limits) && Evolves(w, rows)
  {
    hide RowsOk, Evolves, Resume, Activate, RequestDeletion, Initiate, RecordUrls, DeletionDue, NextFile,
         ClaimVerifying, ClaimDelete, ClaimAbandon, ClaimSuperseded, ClaimRetired;
    SameRowsEvolve(w);
    match e {
      case Register(_) => AccountEvolves(cfg, w, now, e);
      case SetActive(_, _) => AccountEvolves(cfg, w, now, e);
      case NewCompanion(_, _) => AccountEvolves(cfg, w, now, e);
      case InitiatePack(u, c, m, p) => InitiateEvolves(cfg, w, u, c, m, TotalBytes(cfg.files(m)), now, p);
      case IssueUrls(u, p, issuedAt) => RecordUrlsEvolves(cfg, w, u, p, issuedAt, now);
      case Complete(_, _, _) => ClaimEvolves(cfg, w, now, e);
      case ActivateAgain(u, p) =>
        if OwnsPack(w.rows, u, p) { ActivateEvolves(cfg, w, w.rows.packs[p].companion, p, Superseded, now); }
      case Delete(_, _, _) => ClaimEvolves(cfg, w, now, e);
      case Abandon(_, _) => ClaimEvolves(cfg, w, now, e);
      case Retire(_, _, _) => ClaimEvolves(cfg, w, now, e);
      case RetireInPortal(_, _, _, _) => ClaimEvolves(cfg, w, now, e);
      case DeleteAccount(u) => DeletionEvolves(cfg, w, u, now);
      case Continue(t, _, _, _, _) => ResumeEvolves(cfg, w, now, w.work[t], e);
      case _ =>
    }
  }

  // ------------------------------------------------------------------ cleanups

  lemma CleanerStays(w: World, w': World, k: Work)
    requires CleanerOk(w, k) && UsedOk(w) && Evolves(w, w'.rows) && w.used.packs <= w'.used.packs
    ensures CleanerOk(w', k)
  {
    if Cleans(k) && k.pack in w'.rows.packs && k.pack in w.rows.packs {
      assert Ages(w.rows.packs[k.pack], w'.rows.packs[k.pack]);
    }
  }

  /** A cleanup that starts, or goes on, is fine. */
  lemma NewCleaner(cfg: Config, w: World, now: Time, e: Event, t: TaskId)
    requires LifecycleOk(cfg, w) && Enabled(cfg, w, now, e)
    requires t in Act(cfg, w, now, e).work && !(t in w.work && Act(cfg, w, now, e).work[t] == w.work[t])
    ensures CleanerOk(Act(cfg, w, now, e), Act(cfg, w, now, e).work[t])
  {
    hide RowsOk, Activate, RequestDeletion, Initiate, RecordUrls, DeletionDue, PrefixEmpty, FinalizeStep, Inspect, Copy, Recheck;
    if e.Continue? {
      assert CleanerOk(w, w.work[e.task]);
      ResumedCleaner(cfg, w, now, w.work[e.task], e);
      hide Resume;
    }
  }

  lemma ResumedCleaner(cfg: Config, w: World, now: Time, k: Work, e: Event)
    requires e.Continue? && ContinueEnabled(cfg, w, k, e.etag, e.page, e.last)
    ensures var out := Resume(cfg, w, now, k, e);
            out.next.Some? && Cleans(out.next.value) ==>
              Cleans(k) && out.next.value.pack == k.pack && out.next.value.prefix == k.prefix && out.rows == w.rows
  {
    hide PrefixEmpty, DeletionDue, Activate;
  }

  lemma ActUsed(cfg: Config, w: World, now: Time, e: Event)
    requires LifecycleOk(cfg, w) && Enabled(cfg, w, now, e)
    ensures UsedOk(Act(cfg, w, now, e)) && w.used.packs <= Act(cfg, w, now, e).used.packs
  {
    hide RowsOk;
    var w' := Act(cfg, w, now, e);
    ActEvolves(cfg, w, now, e);
    NewKeys(cfg, w, now, e);
  }

  /** The ids a step brings in are recorded as used. */
  lemma NewKeys(cfg: Config, w: World, now: Time, e: Event)
    requires Enabled(cfg, w, now, e)
    ensures var w' := Act(cfg, w, now, e);
            && w'.rows.accounts.Keys <= w.rows.accounts.Keys + w'.used.users && w.used.users <= w'.used.users
            && w'.rows.companions.Keys <= w.rows.companions.Keys + w'.used.companions && w.used.companions <= w'.used.companions
            && w'.rows.packs.Keys <= w.rows.packs.Keys + w'.used.packs && w.used.packs <= w'.used.packs
  {
    hide PrefixEmpty, DeletionDue, Usage, Resume, UrlsExpired, NextFile, OnlyCleaner, Taggable, ContinueEnabled;
    if e.Continue? {
      ResumeAddsNothing(cfg, w, now, w.work[e.task], e);
    }
  }

  /** Work that goes on brings in no new ids. */
  lemma ResumeAddsNothing(cfg: Config, w: World, now: Time, k: Work, e: Event)
    requires e.Continue? && ContinueEnabled(cfg, w, k, e.etag, e.page, e.last)
    ensures var rows := Resume(cfg, w, now, k, e).rows;
            && rows.accounts.Keys <= w.rows.accounts.Keys && rows.companions.Keys <= w.rows.companions.Keys
            && rows.packs.Keys <= w.rows.packs.Keys
  {
    hide PrefixEmpty, DeletionDue, Inspect, Copy, Recheck;
    StorageOnly(cfg, w, k, e.etag);
  }

  lemma ActKeepsLifecycle(cfg: Config, w: World, now: Time, e: Event)
    requires LifecycleOk(cfg, w) && Enabled(cfg, w, now, e)
    ensures LifecycleOk(cfg, Act(cfg, w, now, e))
  {
    hide RowsOk, CleanerOk, Act, Enabled, Evolves;
    var w' := Act(cfg, w, now, e);
    ActEvolves(cfg, w, now, e);
    ActUsed(cfg, w, now, e);
    forall t | t in w'.work ensures CleanerOk(w', w'.work[t]) {
      if t in w.work && w'.work[t] == w.work[t] {
        CleanerStays(w, w', w.work[t]);
      } else {
        NewCleaner(cfg, w, now, e, t);
      }
    }
  }

  lemma TickKeeps(cfg: Config, w: World, now: Time)
    requires LifecycleOk(cfg, w)
    ensures LifecycleOk(cfg, w.(clock := now))
  {
    hide RowsOk;
    forall t | t in w.work ensures CleanerOk(w.(clock := now), w.work[t]) {
      assert CleanerOk(w, w.work[t]);
    }
  }

  lemma StepKeepsLifecycle(cfg: Config, w: World, now: Time, e: Event)
    requires LifecycleOk(cfg, w)
    ensures LifecycleOk(cfg, Step(cfg, w, now, e))
  {
    hide LifecycleOk, Enabled, Act;
    if Enabled(cfg, w, now, e) {
      ActKeepsLifecycle(cfg, w, now, e);
      TickKeeps(cfg, Act(cfg, w, now, e), now);
    }
  }

  lemma StartLifecycle(cfg: Config)
    ensures LifecycleOk(cfg, Start)
  {
    forall u ensures Usage(EmptyRows, u) <= cfg.limits.quota {
      assert Counted(EmptyRows, u) == {};
    }
  }

  /** In every reachable state the active packs of a companion are exactly the one it points to, no
      user's countable packs exceed the quota, and the packs of an account to be deleted are dead. */
  lemma {:induction false} RunKeepsLifecycle(cfg: Config, w: World, events: seq<Timed>)
    requires LifecycleOk(cfg, w)
    ensures LifecycleOk(cfg, Run(cfg, w, events))
    decreases |events|
  {
    hide LifecycleOk, Step;
    if events != [] {
      StepKeepsLifecycle(cfg, w, events[0].at, events[0].event);
      RunKeepsLifecycle(cfg, Step(cfg, w, events[0].at, events[0].event), events[1..]);
    }
  }

  /** The same from the beginning. */
  lemma ReachablePacks(cfg: Config, events: seq<Timed>)
    ensures var rows := Run(cfg, Start, events).rows;
            && (forall p :: p in rows.packs ==>
                  && rows.packs[p].companion in rows.companions
                  && (rows.packs[p].status == PackActive <==> rows.companions[rows.packs[p].companion].activePack == Some(p)))
            && (forall u :: Usage(rows, u) <= cfg.limits.quota)
            && OneManifest(rows) && DeletionOk(rows)
  {
    StartLifecycle(cfg);
    RunKeepsLifecycle(cfg, Start, events);
    hide Run, Usage, OneManifest, DeletionOk;
  }

  /** Through any run, a dead pack stays dead until its row goes, and its id never comes back. */
  lemma {:induction false} DeadForGood(cfg: Config, w: World, events: seq<Timed>, p: PackId)
    requires LifecycleOk(cfg, w) && p in w.used.packs && (p in w.rows.packs ==> Dead(w.rows.packs[p].status))
    ensures var w' := Run(cfg, w, events); p in w'.used.packs && (p in w'.rows.packs ==> Dead(w'.rows.packs[p].status))
    decreases |events|
  {
    hide LifecycleOk, Step;
    if events != [] {
      var w1 := Step(cfg, w, events[0].at, events[0].event);
      DeadStays(cfg, w, events[0].at, events[0].event, p);
      StepKeepsLifecycle(cfg, w, events[0].at, events[0].event);
      DeadForGood(cfg, w1, events[1..], p);
    }
  }

  lemma DeadStays(cfg: Config, w: World, now: Time, e: Event, p: PackId)
    requires LifecycleOk(cfg, w) && p in w.used.packs && (p in w.rows.packs ==> Dead(w.rows.packs[p].status))
    ensures var w' := Step(cfg, w, now, e); p in w'.used.packs && (p in w'.rows.packs ==> Dead(w'.rows.packs[p].status))
  {
    hide LifecycleOk, Act, Enabled;
    if Enabled(cfg, w, now, e) {
      ActEvolves(cfg, w, now, e);
      ActUsed(cfg, w, now, e);
      var w' := Act(cfg, w, now, e);
      if p in w.rows.packs && p in w'.rows.packs {
        assert Ages(w.rows.packs[p], w'.rows.packs[p]);
      }
    }
  }
}
