/** The pack rows as mutable state, and the methods of src/companion/companion.service.ts that write
    them. */
module AssetServices {
  import opened Common
  import opened Catalog
  import P = Packs
  import opened Packs

  class AssetDatabase {
    var accounts: map<UserId, Account>
    var companions: map<CompanionId, Owned>
    var packs: map<PackId, Pack>

    constructor ()
      ensures Rows() == EmptyRows
    {
      accounts, companions, packs := map[], map[], map[];
    }

    function Rows(): Rows
      reads this
    {
      Packs.Rows(accounts, companions, packs)
    }
  }

  class CompanionService {
    const db: AssetDatabase
    const lim: Limits

    constructor (db: AssetDatabase, lim: Limits)
      ensures this.db == db && this.lim == lim
    {
      this.db := db;
      this.lim := lim;
    }

    /** findUnique({ companionId, manifestHash }) */
    method FindPack(c: CompanionId, m: ManifestId) returns (found: Option<PackId>)
      ensures found.Some? ==> found.value in WithManifest(db.Rows(), c, m)
      ensures found.None? ==> WithManifest(db.Rows(), c, m) == {}
    {
      var rest := db.packs.Keys;
      while rest != {}
        invariant rest <= db.packs.Keys
        invariant forall p :: p in db.packs.Keys - rest ==> p !in WithManifest(db.Rows(), c, m)
      {
        ghost var some := Member(rest);
        var p :| p in rest;
        if db.packs[p].companion == c && db.packs[p].manifest == m { return Some(p); }
        rest := rest - {p};
      }
      assert db.packs.Keys - rest == db.packs.Keys;
      assert forall p :: p !in WithManifest(db.Rows(), c, m);
      return None;
    }

    /** aggregate({ _sum: { totalBytes } }) over the packs that count. */
    method UsedBytes(u: UserId) returns (total: nat)
      ensures total == Usage(db.Rows(), u)
    {
      var counted := Counted(db.Rows(), u);
      var rest := counted;
      total := 0;
      while rest != {}
        invariant rest <= counted
        invariant total + Sum(Bytes(db.Rows()), rest) == Usage(db.Rows(), u)
      {
        ghost var some := Member(rest);
        var p :| p in rest;
        SumRemove(Bytes(db.Rows()), rest, p);
        total := total + db.packs[p].bytes;
        rest := rest - {p};
      }
    }

    method SetStatus(p: PackId, s: PackStatus, now: Time)
      requires p in db.packs
      modifies db`packs
      ensures db.Rows() == P.SetStatus(old(db.Rows()), p, s, now)
    {
      db.packs := db.packs[p := db.packs[p].(status := s, updatedAt := now)];
    }

    /** initiateAssetPack. The unique index leaves at most one pack to find. */
    method InitiateAssetPack(u: UserId, c: CompanionId, m: ManifestId, bytes: nat, now: Time, id: PackId) returns (reply: PackReply)
      requires OneManifest(db.Rows())
      modifies db
      ensures PackTx(db.Rows(), reply) == Initiate(old(db.Rows()), lim, u, c, m, bytes, now, id)
    {
      if !MayMutate(db.Rows(), u) { return Denied(AccountDeletionPending); }
      if c !in db.companions { return Denied(CompanionNotFound); }
      if db.companions[c].owner != u { return Denied(CompanionNotOwned); }
      var existing := FindPack(c, m);
      if existing.Some? {
        var p := existing.value;
        assert p == AnyOf(WithManifest(db.Rows(), c, m));
        var pack := db.packs[p];
        if pack.status == PackActive || pack.status == Superseded {
          return Reused(pack.status == Superseded || db.companions[c].activePack != Some(p));
        }
        if pack.status == Uploading || pack.status == Verifying {
          if !SessionCurrent(lim, pack, now) { return Denied(UploadSessionExpired); }
          if pack.status == Verifying {
            SetStatus(p, Uploading, now);
          }
          return Resumed;
        }
        return Denied(AlreadyExists);
      }
      var used := UsedBytes(u);
      if used + bytes > lim.quota { return Denied(QuotaExceeded); }
      if id in db.packs { return Denied(PackStateChanged); }
      db.packs := db.packs[id := Pack(c, m, bytes, Uploading, now, now, None, None)];
      return Created;
    }

    /** The transaction of createUploadUrls. */
    method RecordUploadUrls(u: UserId, p: PackId, issuedAt: Time, now: Time) returns (reply: PackReply)
      modifies db
      ensures PackTx(db.Rows(), reply) == RecordUrls(old(db.Rows()), u, p, issuedAt, now)
    {
      if !MayMutate(db.Rows(), u) { return Denied(AccountDeletionPending); }
      if !OwnsPack(db.Rows(), u, p) || db.packs[p].status != Uploading { return Denied(PackStateChanged); }
      db.packs := db.packs[p := db.packs[p].(lastIssued := Some(issuedAt), updatedAt := now)];
      return Written;
    }

    /** updateMany({ companionId, status: 'active', id: { not: p } }), one row after the other. */
    method Supersede(c: CompanionId, p: PackId, now: Time)
      modifies db`packs
      ensures db.packs == SupersedeOthers(old(db.packs), c, p, now)
    {
      ghost var start := db.packs;
      ghost var all := SupersedeOthers(start, c, p, now);
      var rest := db.packs.Keys;
      while rest != {}
        invariant rest <= start.Keys && db.packs.Keys == start.Keys
        invariant forall q :: q in start ==> db.packs[q] == if q in rest then start[q] else all[q]
      {
        ghost var some := Member(rest);
        var q :| q in rest;
        if db.packs[q].companion == c && db.packs[q].status == PackActive && q != p {
          db.packs := db.packs[q := db.packs[q].(status := Superseded, supersededAt := Some(now), updatedAt := now)];
        }
        rest := rest - {q};
      }
    }

    /** activateVerifiedPackInTransaction. */
    method ActivateVerifiedPack(c: CompanionId, p: PackId, from: PackStatus, now: Time) returns (reply: PackReply)
      modifies db
      ensures PackTx(db.Rows(), reply) == Activate(old(db.Rows()), c, p, from, now)
    {
      if c !in db.companions { return Denied(CompanionNotFound); }
      if p !in db.packs { return Denied(PackNotFound); }
      if db.packs[p].companion != c { return Denied(PackStateChanged); }
      if db.packs[p].status == PackActive {
        if db.companions[c].activePack == Some(p) { return Unwritten; }
        Supersede(c, p, now);
        db.companions := db.companions[c := db.companions[c].(activePack := Some(p))];
        return Written;
      }
      if db.packs[p].status != from { return Denied(PackStateChanged); }
      Supersede(c, p, now);
      db.packs := db.packs[p := db.packs[p].(status := PackActive, supersededAt := None, updatedAt := now)];
      db.companions := db.companions[c := db.companions[c].(activePack := Some(p))];
      return Written;
    }

    /** The claim of completeAssetPack. */
    method ClaimForVerification(u: UserId, p: PackId, now: Time) returns (reply: PackReply)
      modifies db
      ensures PackTx(db.Rows(), reply) == ClaimVerifying(old(db.Rows()), lim, u, p, now)
    {
      if p !in db.packs { return Denied(PackNotFound); }
      if !OwnsPack(db.Rows(), u, p) { return Denied(PackNotOwned); }
      var pack := db.packs[p];
      if pack.status == PackActive { return Unwritten; }
      if pack.status != Uploading && pack.status != Verifying { return Denied(NotUploadable); }
      if !SessionCurrent(lim, pack, now) { return Denied(UploadSessionExpired); }
      if pack.status == Uploading {
        SetStatus(p, Verifying, now);
      }
      return Written;
    }

    /** deleteAssetPack, when nothing else happens between its statements; `emptied`: the prefix
        could be emptied. */
    method DeleteAssetPack(u: UserId, p: PackId, emptied: bool, now: Time) returns (reply: PackReply)
      modifies db
      ensures reply == ClaimDelete(old(db.Rows()), lim, u, p, now).reply
      ensures var claimed := ClaimDelete(old(db.Rows()), lim, u, p, now).rows;
              db.Rows() == if reply == Written && emptied then RemoveDeleting(claimed, p) else claimed
    {
      if p !in db.packs { return Denied(PackNotFound); }
      if !OwnsPack(db.Rows(), u, p) { return Denied(PackNotOwned); }
      if db.packs[p].status != PackFailed && db.packs[p].status != Abandoned { return Denied(NotUploadable); }
      if !UrlsExpired(lim, db.packs[p], now) { return Denied(UploadUrlsActive); }
      SetStatus(p, Deleting, now);
      if emptied && db.packs[p].status == Deleting {
        Remove(p);
      }
      return Written;
    }

    method Remove(p: PackId)
      requires p in db.packs
      modifies db
      ensures db.Rows() == RemovePack(old(db.Rows()), p)
    {
      db.packs := db.packs - {p};
      db.companions := map c | c in db.companions ::
        if db.companions[c].activePack == Some(p) then db.companions[c].(activePack := None) else db.companions[c];
    }

    // -------------------------------------------------------------- the cleanup passes

    /** abandonExpiredUploads, when nothing else happens between its statements; `found` is what the
        query returned, `broken` are the packs whose prefix cannot be emptied now. */
    method AbandonExpiredUploads(found: seq<PackId>, broken: set<PackId>, now: Time) returns (abandoned: nat)
      requires forall i, j :: 0 <= i < j < |found| ==> found[i] != found[j]
      modifies db
      ensures db.accounts == old(db.accounts) && db.companions == old(db.companions) && db.packs.Keys == old(db.packs.Keys)
      ensures forall p :: p in db.packs ==> SweptAs(old(db.packs)[p], db.packs[p], p in found, p in broken, now)
      ensures abandoned == |set i | 0 <= i < |found| && found[i] in old(db.packs) && db.packs[found[i]] != old(db.packs)[found[i]]
                                    && db.packs[found[i]].status == Abandoned|
    {
      hide ClaimAbandon, Swept, SweptAs, Taken, Granted;
      ghost var start := db.Rows();
      NoneSwept(start, broken, now);
      TakenIs(found, 0);
      GrantedIs(start, found, 0, broken, now);
      abandoned := 0;
      for n := 0 to |found|
        invariant db.accounts == start.accounts && db.companions == start.companions && db.packs.Keys == start.packs.Keys
        invariant forall p :: p in start.packs ==> db.packs[p] == Swept(start, p, p in Taken(found, n), p in broken, now)
        invariant abandoned == |Granted(start, found, n, broken, now)|
      {
        var p := found[n];
        TakenIs(found, n);
        GrantedIs(start, found, n, broken, now);
        var claimed := AbandonOne(p, p in broken, now, start);
        if claimed && p !in broken {
          abandoned := abandoned + 1;
        }
      }
      TakenIs(found, |found|);
      SweptAll(start, db.packs, found, broken, now);
    }

    /** The first `n` packs found. */
    ghost function Taken(found: seq<PackId>, n: nat): set<PackId>
      requires n <= |found|
    {
      set i | 0 <= i < n :: found[i]
    }

    lemma TakenIs(found: seq<PackId>, n: nat)
      requires n <= |found| && forall i, j :: 0 <= i < j < |found| ==> found[i] != found[j]
      ensures n < |found| ==> found[n] !in Taken(found, n) && Taken(found, n + 1) == Taken(found, n) + {found[n]}
      ensures n == |found| ==> forall p :: p in Taken(found, n) <==> p in found
      ensures n == 0 ==> Taken(found, n) == {}
    {
    }

    /** Those of them whose claim is granted and whose prefix can be emptied. */
    ghost function Granted(start: Rows, found: seq<PackId>, n: nat, broken: set<PackId>, now: Time): set<int>
      requires n <= |found|
    {
      set i | 0 <= i < n && found[i] !in broken && ClaimAbandon(start, lim, found[i], now).reply == Written
    }

    lemma GrantedIs(start: Rows, found: seq<PackId>, n: nat, broken: set<PackId>, now: Time)
      requires n <= |found|
      ensures n == 0 ==> Granted(start, found, n, broken, now) == {}
      ensures n < |found| ==>
                |Granted(start, found, n + 1, broken, now)| == |Granted(start, found, n, broken, now)|
                  + (if found[n] !in broken && ClaimAbandon(start, lim, found[n], now).reply == Written then 1 else 0)
    {
      hide ClaimAbandon;
      if n < |found| {
        assert Granted(start, found, n + 1, broken, now) == Granted(start, found, n, broken, now)
          + (if found[n] !in broken && ClaimAbandon(start, lim, found[n], now).reply == Written then {n} else {});
      }
    }

    lemma NoneSwept(start: Rows, broken: set<PackId>, now: Time)
      ensures forall p :: p in start.packs ==> start.packs[p] == Swept(start, p, false, p in broken, now)
    {
      hide ClaimAbandon;
    }

    lemma SweptAll(start: Rows, packs: map<PackId, Pack>, found: seq<PackId>, broken: set<PackId>, now: Time)
      requires packs.Keys == start.packs.Keys && forall p :: p in start.packs ==> packs[p] == Swept(start, p, p in found, p in broken, now)
      ensures forall p :: p in packs ==> SweptAs(start.packs[p], packs[p], p in found, p in broken, now)
      ensures Granted(start, found, |found|, broken, now)
           == (set i | 0 <= i < |found| && found[i] in start.packs && packs[found[i]] != start.packs[found[i]] && packs[found[i]].status == Abandoned)
    {
      hide SweptAs;
      forall p | p in start.packs ensures SweptAs(start.packs[p], packs[p], p in found, p in broken, now) {
        SweptExactly(start, p, p in found, p in broken, now);
      }
      forall i | 0 <= i < |found|
        ensures found[i] !in broken && ClaimAbandon(start, lim, found[i], now).reply == Written
           <==> found[i] in start.packs && packs[found[i]] != start.packs[found[i]] && packs[found[i]].status == Abandoned
      {
        assert found[i] in found;
        SweptCounts(start, found[i], found[i] in broken, now);
        if found[i] in broken && found[i] in start.packs { BrokenStays(start, found[i], now); }
      }
    }

    lemma BrokenStays(start: Rows, p: PackId, now: Time)
      requires p in start.packs
      ensures var q := Swept(start, p, true, true, now); q == start.packs[p] || q.status == Abandoning
    {
    }

    /** What the pass leaves of a row: nothing changes during the upload session, while a URL is alive, or in
        another status; otherwise the upload is abandoned, or being abandoned if its prefix is broken. */
    ghost predicate SweptAs(was: Pack, left: Pack, found: bool, broken: bool, now: Time) {
      && (was.status == Uploading && now - was.createdAt <= lim.sessionTtl ==> left == was)
      && (was.status == Verifying && now - was.updatedAt <= lim.sessionTtl ==> left == was)
      && (was.lastIssued.Some? && now <= was.lastIssued.value + lim.urlTtl + 5_000 ==> left == was)
      && (was.status !in {Uploading, Verifying, Abandoning} || !found ==> left == was)
      && (found && (was.lastIssued.Some? ==> was.lastIssued.value + lim.urlTtl + 5_000 < now)
          && ((was.status == Uploading && now - was.createdAt > lim.sessionTtl)
              || (was.status == Verifying && now - was.updatedAt > lim.sessionTtl) || was.status == Abandoning) ==>
            left == was.(status := if broken then Abandoning else Abandoned,
                         updatedAt := if broken && was.status == Abandoning then was.updatedAt else now))
    }

    lemma SweptExactly(start: Rows, p: PackId, found: bool, broken: bool, now: Time)
      requires p in start.packs
      ensures SweptAs(start.packs[p], Swept(start, p, found, broken, now), found, broken, now)
    {
    }

    lemma SweptCounts(start: Rows, p: PackId, broken: bool, now: Time)
      ensures !broken && ClaimAbandon(start, lim, p, now).reply == Written <==>
                p in start.packs && Swept(start, p, true, broken, now) != start.packs[p] && Swept(start, p, true, broken, now).status == Abandoned
    {
    }

    /** What abandonExpiredUploads makes of one pack. */
    ghost function Swept(start: Rows, p: PackId, found: bool, broken: bool, now: Time): Pack
      requires p in start.packs
    {
      var tx := ClaimAbandon(start, lim, p, now);
      if found && tx.reply == Written
      then (if broken then tx.rows.packs[p] else tx.rows.packs[p].(status := Abandoned, updatedAt := now))
      else start.packs[p]
    }

    method AbandonOne(p: PackId, broken: bool, now: Time, ghost start: Rows) returns (claimed: bool)
      requires p in start.packs ==> p in db.packs && db.packs[p] == start.packs[p]
      requires p !in start.packs ==> p !in db.packs
      modifies db`packs
      ensures db.packs.Keys == old(db.packs.Keys)
      ensures claimed == (ClaimAbandon(start, lim, p, now).reply == Written)
      ensures forall q :: q in db.packs && q != p ==> db.packs[q] == old(db.packs)[q]
      ensures p in start.packs ==> db.packs[p] == Swept(start, p, true, broken, now)
    {
      if p !in db.packs || !UrlsExpiredBefore(lim, db.packs[p], now) { return false; }
      var pack := db.packs[p];
      if pack.status != Abandoning {
        if !(pack.status == Uploading && pack.createdAt < now - lim.sessionTtl)
           && !(pack.status == Verifying && pack.updatedAt < now - lim.sessionTtl) {
          return false;
        }
        SetStatus(p, Abandoning, now);
      }
      if !broken {
        SetStatus(p, Abandoned, now);
      }
      return true;
    }
  }
}
