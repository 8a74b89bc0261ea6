/** When each statement on Asset Packs is allowed, and what it then writes, in terms of the rows alone. */
module PackAnswers {
  import opened Common
  import opened Catalog
  import opened Packs
  import opened PackWorld

  /** Milliseconds by which the clocks of the database and the signer may differ. */
  const CLOCK_SKEW: int := 5_000

  // ------------------------------------------------------------------ uploading

  /** Uploading, verifying, active and superseded packs of the user count against the quota. */
  lemma CountsExactly(rows: Rows, u: UserId, p: PackId)
    ensures p in Counted(rows, u) <==>
              && p in rows.packs && rows.packs[p].companion in rows.companions && rows.companions[rows.packs[p].companion].owner == u
              && rows.packs[p].status in {Uploading, Verifying, PackActive, Superseded}
  {
  }

  /** A new pack is begun exactly for the owner of the companion, whose account is active and not leaving,
      if the companion has no pack of that manifest and the quota is not exceeded. */
  lemma InitiatesExactly(rows: Rows, lim: Limits, u: UserId, c: CompanionId, m: ManifestId, bytes: nat, now: Time, id: PackId)
    ensures var tx := Initiate(rows, lim, u, c, m, bytes, now, id);
            && (tx.reply == Created <==>
                  && u in rows.accounts && rows.accounts[u].active && rows.accounts[u].deletionRequestedAt == None
                  && c in rows.companions && rows.companions[c].owner == u
                  && (forall p :: p in rows.packs ==> !(rows.packs[p].companion == c && rows.packs[p].manifest == m))
                  && Sum(Bytes(rows), Counted(rows, u)) + bytes <= lim.quota && id !in rows.packs)
            && (tx.reply == Created ==>
                  tx.rows == rows.(packs := rows.packs[id := Pack(c, m, bytes, Uploading, now, now, None, None)]))
            && (tx.reply.Denied? ==> tx.rows == rows)
  {
    if forall p :: p in rows.packs ==> !(rows.packs[p].companion == c && rows.packs[p].manifest == m) {
      assert WithManifest(rows, c, m) == {};
    }
    forall p | p in rows.packs && WithManifest(rows, c, m) == {} ensures !(rows.packs[p].companion == c && rows.packs[p].manifest == m) {
      assert p !in WithManifest(rows, c, m);
    }
  }

  /** A pack that is there already is reused when it was completed, and its upload goes on within the session;
      the caller must activate it unless it is the active one. */
  lemma FoundExactly(rows: Rows, lim: Limits, u: UserId, c: CompanionId, m: ManifestId, bytes: nat, now: Time, id: PackId, p: PackId)
    requires MayMutate(rows, u) && c in rows.companions && rows.companions[c].owner == u && OneManifest(rows)
    requires p in rows.packs && rows.packs[p].companion == c && rows.packs[p].manifest == m
    ensures var tx := Initiate(rows, lim, u, c, m, bytes, now, id); var pack := rows.packs[p];
            && (tx.reply.Reused? <==> pack.status == PackActive || pack.status == Superseded)
            && (tx.reply.Reused? ==>
                  && tx.rows == rows
                  && (tx.reply.requiresActivation <==> pack.status == Superseded || rows.companions[c].activePack != Some(p)))
            && (tx.reply == Resumed <==> (pack.status == Uploading || pack.status == Verifying) && now - pack.createdAt <= lim.sessionTtl)
            && (tx.reply == Resumed ==>
                  tx.rows == rows.(packs := rows.packs[p := if pack.status == Verifying then pack.(status := Uploading, updatedAt := now) else pack]))
            && (tx.reply == Denied(UploadSessionExpired) <==>
                  (pack.status == Uploading || pack.status == Verifying) && now - pack.createdAt > lim.sessionTtl)
            && (tx.reply == Denied(AlreadyExists) <==> pack.status in {PackFailed, Abandoning, Abandoned, Deleting})
  {
    assert p in WithManifest(rows, c, m);
    assert AnyOf(WithManifest(rows, c, m)) == p;
    assert rows.packs[p := rows.packs[p]] == rows.packs;
  }

  /** URLs are issued exactly for a pack its owner is uploading, and stamp it. */
  lemma IssuesExactly(rows: Rows, u: UserId, p: PackId, issuedAt: Time, now: Time)
    ensures var tx := RecordUrls(rows, u, p, issuedAt, now);
            && (tx.reply == Written <==>
                  && u in rows.accounts && rows.accounts[u].active && rows.accounts[u].deletionRequestedAt == None
                  && p in rows.packs && rows.packs[p].companion in rows.companions && rows.companions[rows.packs[p].companion].owner == u
                  && rows.packs[p].status == Uploading)
            && tx.rows == (if tx.reply == Written
                           then rows.(packs := rows.packs[p := rows.packs[p].(lastIssued := Some(issuedAt), updatedAt := now)]) else rows)
  {
  }

  /** A completion starts, or starts again, exactly for the owner of a pack in upload within the session. */
  lemma VerifiesExactly(rows: Rows, lim: Limits, u: UserId, p: PackId, now: Time)
    ensures var tx := ClaimVerifying(rows, lim, u, p, now);
            && (tx.reply == Written <==>
                  && p in rows.packs && rows.packs[p].companion in rows.companions && rows.companions[rows.packs[p].companion].owner == u
                  && (rows.packs[p].status == Uploading || rows.packs[p].status == Verifying) && now - rows.packs[p].createdAt <= lim.sessionTtl)
            && tx.rows == (if tx.reply == Written && rows.packs[p].status == Uploading
                           then rows.(packs := rows.packs[p := rows.packs[p].(status := Verifying, updatedAt := now)]) else rows)
            && (tx.reply == Unwritten <==> OwnsPack(rows, u, p) && rows.packs[p].status == PackActive)
            && (tx.reply == Denied(PackNotFound) <==> p !in rows.packs)
            && (tx.reply == Denied(PackNotOwned) <==> p in rows.packs && !OwnsPack(rows, u, p))
            && (tx.reply == Denied(NotUploadable) <==>
                  OwnsPack(rows, u, p) && rows.packs[p].status in {Superseded, PackFailed, Abandoning, Abandoned, Deleting})
  {
  }

  // ------------------------------------------------------------------ activating

  /** Activation turns exactly a pack of the companion in the expected status, or the one that is active
      without being pointed to, into the active one; the companion's other active packs are superseded. */
  lemma ActivatesExactly(rows: Rows, c: CompanionId, p: PackId, from: PackStatus, now: Time)
    requires from == Verifying || from == Superseded
    ensures var tx := Activate(rows, c, p, from, now);
            && (tx.reply == Written <==>
                  && c in rows.companions && p in rows.packs && rows.packs[p].companion == c
                  && (rows.packs[p].status == from || (rows.packs[p].status == PackActive && rows.companions[c].activePack != Some(p))))
            && (tx.reply == Written ==>
                  && tx.rows.packs.Keys == rows.packs.Keys && tx.rows.companions.Keys == rows.companions.Keys && tx.rows.accounts == rows.accounts
                  && tx.rows.companions[c] == rows.companions[c].(activePack := Some(p))
                  && tx.rows.packs[p] == (if rows.packs[p].status == from then rows.packs[p].(status := PackActive, supersededAt := None, updatedAt := now)
                                          else rows.packs[p])
                  && (forall q :: q in rows.packs && q != p ==>
                        if rows.packs[q].companion == c && rows.packs[q].status == PackActive
                        then tx.rows.packs[q] == rows.packs[q].(status := Superseded, supersededAt := Some(now), updatedAt := now)
                        else tx.rows.packs[q] == rows.packs[q])
                  && (forall d :: d in rows.companions && d != c ==> tx.rows.companions[d] == rows.companions[d]))
            && (tx.reply != Written ==> tx.rows == rows)
  {
  }

  // ------------------------------------------------------------------ cleaning up

  /** An owner may delete exactly a failed or abandoned pack whose URLs have expired. */
  lemma DeletesExactly(rows: Rows, lim: Limits, u: UserId, p: PackId, now: Time)
    ensures var tx := ClaimDelete(rows, lim, u, p, now);
            && (tx.reply == Written <==>
                  && p in rows.packs && rows.packs[p].companion in rows.companions && rows.companions[rows.packs[p].companion].owner == u
                  && (rows.packs[p].status == PackFailed || rows.packs[p].status == Abandoned)
                  && (rows.packs[p].lastIssued.Some? ==> rows.packs[p].lastIssued.value + lim.urlTtl + CLOCK_SKEW <= now))
            && tx.rows == (if tx.reply == Written
                           then rows.(packs := rows.packs[p := rows.packs[p].(status := Deleting, updatedAt := now)]) else rows)
            && (tx.reply == Denied(PackNotFound) <==> p !in rows.packs)
            && (tx.reply == Denied(PackNotOwned) <==> p in rows.packs && !OwnsPack(rows, u, p))
            && (tx.reply == Denied(NotUploadable) <==> OwnsPack(rows, u, p) && rows.packs[p].status !in {PackFailed, Abandoned})
  {
  }

  /** A pass may abandon exactly an upload whose session is over and whose URLs have expired: counted from the
      beginning of the pack while it is uploading, from its last change while it is verifying. */
  lemma AbandonsExactly(rows: Rows, lim: Limits, p: PackId, now: Time)
    ensures var tx := ClaimAbandon(rows, lim, p, now);
            && (tx.reply == Written <==>
                  && p in rows.packs
                  && (rows.packs[p].lastIssued.Some? ==> rows.packs[p].lastIssued.value + lim.urlTtl + CLOCK_SKEW < now)
                  && (rows.packs[p].status == Abandoning
                     || (rows.packs[p].status == Uploading && now - rows.packs[p].createdAt > lim.sessionTtl)
                     || (rows.packs[p].status == Verifying && now - rows.packs[p].updatedAt > lim.sessionTtl)))
            && tx.rows == (if tx.reply == Written && rows.packs[p].status != Abandoning
                           then rows.(packs := rows.packs[p := rows.packs[p].(status := Abandoning, updatedAt := now)]) else rows)
  {
  }

  /** A retirement takes exactly a pack that is being deleted already, or one that was superseded longer ago
      than packs are kept and is not visited; the service's also wants its URLs to have expired. */
  lemma RetiresExactly(rows: Rows, lim: Limits, p: PackId, visited: bool, now: Time)
    requires p in rows.packs
    ensures var tx, own := ClaimRetired(rows, lim, p, visited, now), ClaimSuperseded(rows, lim, p, visited, now);
            var pack := rows.packs[p];
            && (tx.reply == Written <==>
                  || pack.status == Deleting
                  || (pack.status == Superseded && pack.supersededAt.Some? && now - pack.supersededAt.value > lim.retention && !visited))
            && tx.rows == (if tx.reply == Written && pack.status == Superseded
                           then rows.(packs := rows.packs[p := pack.(status := Deleting, updatedAt := now)]) else rows)
            && (own.reply == Written <==>
                  tx.reply == Written && (pack.lastIssued.Some? ==> pack.lastIssued.value + lim.urlTtl + CLOCK_SKEW < now))
            && own.rows == (if own.reply == Written then tx.rows else rows)
  {
  }

  /** How work on a pack ends: a failed completion only fails a pack that is still verifying, a deletion only
      removes one that is still being deleted, and a removal takes its companion's pointer along. */
  lemma EndsExactly(rows: Rows, p: PackId, now: Time)
    ensures Claim(rows, p, Verifying, PackFailed, now)
      == if p in rows.packs && rows.packs[p].status == Verifying
         then rows.(packs := rows.packs[p := rows.packs[p].(status := PackFailed, updatedAt := now)]) else rows
    ensures MarkAbandoned(rows, p, now)
      == if p in rows.packs then rows.(packs := rows.packs[p := rows.packs[p].(status := Abandoned, updatedAt := now)]) else rows
    ensures Removed(rows, RemovePack(rows, p), p)
    ensures if p in rows.packs && rows.packs[p].status == Deleting then Removed(rows, RemoveDeleting(rows, p), p) else RemoveDeleting(rows, p) == rows
  {
  }

  ghost predicate Removed(rows: Rows, rows': Rows, p: PackId) {
    && rows'.accounts == rows.accounts && rows'.packs == rows.packs - {p} && rows'.companions.Keys == rows.companions.Keys
    && forall c :: c in rows.companions ==>
         && rows'.companions[c].owner == rows.companions[c].owner
         && rows'.companions[c].activePack == if rows.companions[c].activePack == Some(p) then None else rows.companions[c].activePack
  }

  // ------------------------------------------------------------------ accounts

  /** Removing an account takes its companions and their packs along, and nothing of anybody else's. */
  lemma RemovalIs(rows: Rows, u: UserId)
    ensures var rows' := RemoveAccount(rows, u);
            && rows'.accounts == rows.accounts - {u}
            && (forall c :: c in rows'.companions <==> c in rows.companions && rows.companions[c].owner != u)
            && (forall c :: c in rows'.companions ==> rows'.companions[c] == rows.companions[c])
            && (forall p :: p in rows'.packs <==>
                  p in rows.packs && (rows.packs[p].companion in rows.companions ==> rows.companions[rows.packs[p].companion].owner != u))
            && (forall p :: p in rows'.packs ==> rows'.packs[p] == rows.packs[p])
  {
  }

  /** Deleting an account suspends it, keeps the time of the first request, hides its companions and takes
      all its packs, and nobody else's, out of use. */
  lemma DeletionIs(rows: Rows, u: UserId, now: Time)
    requires u in rows.accounts
    ensures var rows' := RequestDeletion(rows, u, now);
            && rows'.accounts == rows.accounts[u := Account(false, if rows.accounts[u].deletionRequestedAt.Some? then rows.accounts[u].deletionRequestedAt else Some(now))]
            && rows'.companions.Keys == rows.companions.Keys && rows'.packs.Keys == rows.packs.Keys
            && (forall c :: c in rows.companions ==>
                  rows'.companions[c] == if rows.companions[c].owner == u then Owned(u, None) else rows.companions[c])
            && (forall p :: p in rows.packs ==>
                  if rows.packs[p].companion in rows.companions && rows.companions[rows.packs[p].companion].owner == u
                  then rows'.packs[p] == rows.packs[p].(status := Deleting, updatedAt := now)
                  else rows'.packs[p] == rows.packs[p])
    ensures forall other :: other !in rows.accounts ==> RequestDeletion(rows, other, now) == rows
  {
  }

  /** An account may go once its deletion was requested and every URL of its packs has expired. */
  lemma DueExactly(rows: Rows, lim: Limits, u: UserId, now: Time)
    requires u in rows.accounts && rows.accounts[u].deletionRequestedAt.Some?
    ensures DeletionDue(rows, lim, u, now) <==>
              && rows.accounts[u].deletionRequestedAt.value <= now
              && forall p :: p in rows.packs && rows.packs[p].companion in rows.companions && rows.companions[rows.packs[p].companion].owner == u
                             && rows.packs[p].lastIssued.Some? ==>
                   rows.packs[p].lastIssued.value + lim.urlTtl + CLOCK_SKEW <= now
  {
    if DeletionDue(rows, lim, u, now) {
      forall p | p in rows.packs && rows.packs[p].companion in rows.companions && rows.companions[rows.packs[p].companion].owner == u
                 && rows.packs[p].lastIssued.Some?
        ensures rows.packs[p].lastIssued.value + lim.urlTtl + CLOCK_SKEW <= now
      {
        assert p in PacksOf(rows, u);
      }
    }
  }

  // ------------------------------------------------------------------ every step

  /** In any world, a pass cannot take a pack out of upload while its session is current. */
  lemma CurrentUploadStays(cfg: Config, w: World, now: Time, e: Event, p: PackId)
    requires e.Abandon? && p in w.rows.packs
    requires (w.rows.packs[p].status == Uploading && now - w.rows.packs[p].createdAt <= cfg.limits.sessionTtl)
          || (w.rows.packs[p].status == Verifying && now - w.rows.packs[p].updatedAt <= cfg.limits.sessionTtl)
    ensures p in Step(cfg, w, now, e).rows.packs && Step(cfg, w, now, e).rows.packs[p] == w.rows.packs[p]
  {
    AbandonsExactly(w.rows, cfg.limits, e.pack, now);
    hide ClaimAbandon;
  }

  /** Whatever happens, a pack leaves upload only by its own completion or its failure, by a pass after its
      session and its URLs are over, or with its owner's account. */
  lemma LeavesUpload(cfg: Config, w: World, now: Time, e: Event, p: PackId)
    requires p in w.rows.packs && (w.rows.packs[p].status == Uploading || w.rows.packs[p].status == Verifying)
    requires p in Step(cfg, w, now, e).rows.packs && Step(cfg, w, now, e).rows.packs[p].status !in {Uploading, Verifying}
    ensures var pack := w.rows.packs[p];
            || (e.Continue? && e.task in w.work && (w.work[e.task].Activating? || w.work[e.task].Failing? || w.work[e.task].Emptied?) && w.work[e.task].pack == p)
            || (e.DeleteAccount? && OwnsPack(w.rows, e.user, p))
            || (e.Abandon? && e.pack == p && (pack.lastIssued.Some? ==> pack.lastIssued.value + cfg.limits.urlTtl + CLOCK_SKEW < now)
                && now - (if pack.status == Uploading then pack.createdAt else pack.updatedAt) > cfg.limits.sessionTtl)
  {
    hide Usage, DeletionDue, PrefixEmpty, NextFile, OnlyCleaner, Taggable, MayUpload;
    if e.Continue? && Enabled(cfg, w, now, e) {
      ResumeLeavesUpload(cfg, w, now, e, p);
    }
  }

  lemma ResumeLeavesUpload(cfg: Config, w: World, now: Time, e: Event, p: PackId)
    requires e.Continue? && e.task in w.work && ContinueEnabled(cfg, w, w.work[e.task], e.etag, e.page, e.last)
    requires p in w.rows.packs && (w.rows.packs[p].status == Uploading || w.rows.packs[p].status == Verifying)
    requires var rows := Resume(cfg, w, now, w.work[e.task], e).rows; p in rows.packs && rows.packs[p].status !in {Uploading, Verifying}
    ensures (w.work[e.task].Activating? || w.work[e.task].Failing? || w.work[e.task].Emptied?) && w.work[e.task].pack == p
  {
    hide DeletionDue, PrefixEmpty, Fits;
  }
}
