/** The rows behind Asset Packs, and every statement that writes them: the life of a pack in
    src/companion/companion.service.ts and the deletion parts of src/portal/portal.service.ts. */
module Packs {
  import opened Common
  import opened Catalog

  /** A manifest hash stands for its manifest. */
  type ManifestId = int

  const SKEW: int := 5_000

  datatype Account = Account(active: bool, deletionRequestedAt: Option<Time>)

  datatype Owned = Owned(owner: UserId, activePack: Option<PackId>)

  datatype Pack = Pack(
    companion: CompanionId, manifest: ManifestId, bytes: nat, status: PackStatus,
    createdAt: Time, updatedAt: Time, lastIssued: Option<Time>, supersededAt: Option<Time>)

  datatype Rows = Rows(accounts: map<UserId, Account>, companions: map<CompanionId, Owned>, packs: map<PackId, Pack>)

  const EmptyRows := Rows(map[], map[], map[])

  /** The configured limits, in bytes and milliseconds. */
  datatype Limits = Limits(quota: nat, urlTtl: nat, sessionTtl: nat, retention: nat)

  datatype PackCode =
    | AccountDeletionPending | CompanionNotFound | CompanionNotOwned | PackNotFound | PackNotOwned
    | UploadSessionExpired | AlreadyExists | QuotaExceeded | PackStateChanged | NotUploadable | UploadUrlsActive

  datatype PackReply = Created | Resumed | Reused(requiresActivation: bool) | Written | Unwritten | Denied(code: PackCode)

  datatype PackTx = PackTx(rows: Rows, reply: PackReply)

  function No(rows: Rows, code: PackCode): PackTx { PackTx(rows, Denied(code)) }

  // ------------------------------------------------------------------ reads

  /** A pack that is on its way out and never comes back. */
  predicate Dead(s: PackStatus) { s == PackFailed || s == Abandoning || s == Abandoned || s == Deleting }

  /** lockActiveAccountForAssetMutation. */
  predicate MayMutate(rows: Rows, u: UserId) {
    u in rows.accounts && rows.accounts[u].active && rows.accounts[u].deletionRequestedAt.None?
  }

  predicate Owns(rows: Rows, u: UserId, c: CompanionId) { c in rows.companions && rows.companions[c].owner == u }

  predicate OwnsPack(rows: Rows, u: UserId, p: PackId) { p in rows.packs && Owns(rows, u, rows.packs[p].companion) }

  function PacksOf(rows: Rows, u: UserId): set<PackId> { set p | p in rows.packs && Owns(rows, u, rows.packs[p].companion) }

  function WithManifest(rows: Rows, c: CompanionId, m: ManifestId): set<PackId> {
    set p | p in rows.packs && rows.packs[p].companion == c && rows.packs[p].manifest == m
  }

  /** The packs that count against a user's quota: status in uploading, verifying, active, superseded. */
  function Counted(rows: Rows, u: UserId): set<PackId> {
    set p | p in rows.packs && Owns(rows, u, rows.packs[p].companion) && !Dead(rows.packs[p].status)
  }

  function Bytes(rows: Rows): map<PackId, nat> { map p | p in rows.packs :: rows.packs[p].bytes }

  ghost function Usage(rows: Rows, u: UserId): nat { Sum(Bytes(rows), Counted(rows, u)) }

  predicate SessionCurrent(lim: Limits, p: Pack, now: Time) { now - p.createdAt <= lim.sessionTtl }

  /** Every URL issued for the pack, up to the skew, has expired. */
  predicate UrlsExpired(lim: Limits, p: Pack, now: Time) {
    p.lastIssued.Some? ==> p.lastIssued.value + lim.urlTtl + SKEW <= now
  }

  /** uploadUrlsExpiredWhere, which the passes use: the last stamp lies strictly before the bound. */
  predicate UrlsExpiredBefore(lim: Limits, p: Pack, now: Time) {
    UrlsExpired(lim, p, now) && p.lastIssued != Some(now - lim.urlTtl - SKEW)
  }

  // ------------------------------------------------------------------ uploading

  function SetStatus(rows: Rows, p: PackId, s: PackStatus, now: Time): Rows
    requires p in rows.packs
  {
    rows.(packs := rows.packs[p := rows.packs[p].(status := s, updatedAt := now)])
  }

  /** initiateAssetPack, for a manifest that validated. */
  ghost function Initiate(rows: Rows, lim: Limits, u: UserId, c: CompanionId, m: ManifestId, bytes: nat, now: Time, id: PackId): PackTx {
    if !MayMutate(rows, u) then No(rows, AccountDeletionPending)
    else if c !in rows.companions then No(rows, CompanionNotFound)
    else if rows.companions[c].owner != u then No(rows, CompanionNotOwned)
    else if WithManifest(rows, c, m) != {} then
      var p := AnyOf(WithManifest(rows, c, m));
      var pack := rows.packs[p];
      if pack.status == PackActive || pack.status == Superseded then
        PackTx(rows, Reused(pack.status == Superseded || rows.companions[c].activePack != Some(p)))
      else if pack.status == Uploading || pack.status == Verifying then
        if !SessionCurrent(lim, pack, now) then No(rows, UploadSessionExpired)
        else PackTx(if pack.status == Verifying then SetStatus(rows, p, Uploading, now) else rows, Resumed)
      else No(rows, AlreadyExists)
    else if Usage(rows, u) + bytes > lim.quota then No(rows, QuotaExceeded)
    else if id in rows.packs then No(rows, PackStateChanged)
    else PackTx(rows.(packs := rows.packs[id := Pack(c, m, bytes, Uploading, now, now, None, None)]), Created)
  }

  /** The transaction of createUploadUrls: the URLs carry `issuedAt`, which was read before it. */
  function RecordUrls(rows: Rows, u: UserId, p: PackId, issuedAt: Time, now: Time): PackTx {
    if !MayMutate(rows, u) then No(rows, AccountDeletionPending)
    else if !OwnsPack(rows, u, p) || rows.packs[p].status != Uploading then No(rows, PackStateChanged)
    else PackTx(rows.(packs := rows.packs[p := rows.packs[p].(lastIssued := Some(issuedAt), updatedAt := now)]), Written)
  }

  /** The claim that starts completeAssetPack; verifying packs may be completed again. */
  function ClaimVerifying(rows: Rows, lim: Limits, u: UserId, p: PackId, now: Time): PackTx {
    if p !in rows.packs then No(rows, PackNotFound)
    else if !OwnsPack(rows, u, p) then No(rows, PackNotOwned)
    else
      var pack := rows.packs[p];
      if pack.status == PackActive then PackTx(rows, Unwritten)
      else if pack.status != Uploading && pack.status != Verifying then No(rows, NotUploadable)
      else if !SessionCurrent(lim, pack, now) then No(rows, UploadSessionExpired)
      else PackTx(if pack.status == Uploading then SetStatus(rows, p, Verifying, now) else rows, Written)
  }

  /** updateMany({ id, status: from }, { status: to }) */
  function Claim(rows: Rows, p: PackId, from: PackStatus, to: PackStatus, now: Time): Rows {
    if p in rows.packs && rows.packs[p].status == from then SetStatus(rows, p, to, now) else rows
  }

  // ------------------------------------------------------------------ activating

  function SupersedeOthers(packs: map<PackId, Pack>, c: CompanionId, p: PackId, now: Time): map<PackId, Pack> {
    map q | q in packs ::
      if packs[q].companion == c && packs[q].status == PackActive && q != p
      then packs[q].(status := Superseded, supersededAt := Some(now), updatedAt := now) else packs[q]
  }

  function Point(rows: Rows, c: CompanionId, p: PackId): map<CompanionId, Owned>
    requires c in rows.companions
  {
    rows.companions[c := rows.companions[c].(activePack := Some(p))]
  }

  /** activateVerifiedPackInTransaction; `from` is the one allowed target status. */
  function Activate(rows: Rows, c: CompanionId, p: PackId, from: PackStatus, now: Time): PackTx {
    if c !in rows.companions then No(rows, CompanionNotFound)
    else if p !in rows.packs then No(rows, PackNotFound)
    else if rows.packs[p].companion != c then No(rows, PackStateChanged)
    else if rows.packs[p].status == PackActive then
      if rows.companions[c].activePack == Some(p) then PackTx(rows, Unwritten)
      else PackTx(rows.(packs := SupersedeOthers(rows.packs, c, p, now), companions := Point(rows, c, p)), Written)
    else if rows.packs[p].status != from then No(rows, PackStateChanged)
    else
      var others := SupersedeOthers(rows.packs, c, p, now);
      PackTx(rows.(packs := others[p := others[p].(status := PackActive, supersededAt := None, updatedAt := now)],
                   companions := Point(rows, c, p)), Written)
  }

  // ------------------------------------------------------------------ cleaning up

  /** The claim of deleteAssetPack. */
  function ClaimDelete(rows: Rows, lim: Limits, u: UserId, p: PackId, now: Time): PackTx {
    if p !in rows.packs then No(rows, PackNotFound)
    else if !OwnsPack(rows, u, p) then No(rows, PackNotOwned)
    else if rows.packs[p].status != PackFailed && rows.packs[p].status != Abandoned then No(rows, NotUploadable)
    else if !UrlsExpired(lim, rows.packs[p], now) then No(rows, UploadUrlsActive)
    else PackTx(SetStatus(rows, p, Deleting, now), Written)
  }

  /** The claim of abandonExpiredUploads; packs found abandoning are taken up as they are. */
  function ClaimAbandon(rows: Rows, lim: Limits, p: PackId, now: Time): PackTx {
    if p !in rows.packs || !UrlsExpiredBefore(lim, rows.packs[p], now) then PackTx(rows, Unwritten)
    else
      var pack := rows.packs[p];
      if (pack.status == Uploading && pack.createdAt < now - lim.sessionTtl)
         || (pack.status == Verifying && pack.updatedAt < now - lim.sessionTtl)
      then PackTx(SetStatus(rows, p, Abandoning, now), Written)
      else PackTx(rows, if pack.status == Abandoning then Written else Unwritten)
  }

  /** The claim of cleanupSupersededPacks; `visited`: a pending invitation or a live session refers
      to the pack. Packs found deleting are taken up as they are. */
  function ClaimSuperseded(rows: Rows, lim: Limits, p: PackId, visited: bool, now: Time): PackTx {
    if p !in rows.packs || !UrlsExpiredBefore(lim, rows.packs[p], now) then PackTx(rows, Unwritten)
    else ClaimRetired(rows, lim, p, visited, now)
  }

  /** The claim of the portal's deleteSupersededAssetPacks, which does not look at upload URLs. */
  function ClaimRetired(rows: Rows, lim: Limits, p: PackId, visited: bool, now: Time): PackTx
    requires p in rows.packs
  {
    var pack := rows.packs[p];
    if pack.status == Superseded && pack.supersededAt.Some? && pack.supersededAt.value < now - lim.retention && !visited
    then PackTx(SetStatus(rows, p, Deleting, now), Written)
    else PackTx(rows, if pack.status == Deleting then Written else Unwritten)
  }

  /** The end of abandonExpiredUploads: update({ id }, { status: 'abandoned' }), whatever the status
      is by then. */
  function MarkAbandoned(rows: Rows, p: PackId, now: Time): Rows {
    if p in rows.packs then SetStatus(rows, p, Abandoned, now) else rows
  }

  /** deleteMany({ id, status: 'deleting' }) */
  function RemoveDeleting(rows: Rows, p: PackId): Rows {
    if p in rows.packs && rows.packs[p].status == Deleting then RemovePack(rows, p) else rows
  }

  /** delete({ id }); a companion pointing to the pack would point to nothing. */
  function RemovePack(rows: Rows, p: PackId): Rows {
    rows.(packs := rows.packs - {p},
          companions := map c | c in rows.companions ::
            if rows.companions[c].activePack == Some(p) then rows.companions[c].(activePack := None) else rows.companions[c])
  }

  // ------------------------------------------------------------------ accounts

  /** deleteAccount, as far as packs are concerned. */
  function RequestDeletion(rows: Rows, u: UserId, now: Time): Rows {
    if u !in rows.accounts then rows
    else
      var at := if rows.accounts[u].deletionRequestedAt.Some? then rows.accounts[u].deletionRequestedAt else Some(now);
      Rows(rows.accounts[u := Account(false, at)],
           map c | c in rows.companions :: if rows.companions[c].owner == u then Owned(u, None) else rows.companions[c],
           map p | p in rows.packs :: if OwnsPack(rows, u, p) then rows.packs[p].(status := Deleting, updatedAt := now) else rows.packs[p])
  }

  /** user.delete, with everything that cascades. */
  function RemoveAccount(rows: Rows, u: UserId): Rows {
    Rows(rows.accounts - {u},
         map c | c in rows.companions && rows.companions[c].owner != u :: rows.companions[c],
         map p | p in rows.packs && !OwnsPack(rows, u, p) :: rows.packs[p])
  }

  /** accountDeletionNotBefore has passed, for every pack of the account. */
  predicate DeletionDue(rows: Rows, lim: Limits, u: UserId, now: Time)
    requires u in rows.accounts && rows.accounts[u].deletionRequestedAt.Some?
  {
    && rows.accounts[u].deletionRequestedAt.value <= now
    && forall p :: p in PacksOf(rows, u) ==> UrlsExpired(lim, rows.packs[p], now)
  }

  // ------------------------------------------------------------------ the invariant

  ghost predicate LinksOk(rows: Rows) {
    && (forall p :: p in rows.packs ==> rows.packs[p].companion in rows.companions)
    && (forall c :: c in rows.companions ==> rows.companions[c].owner in rows.accounts)
  }

  /** The unique index (companionId, manifestHash). */
  ghost predicate OneManifest(rows: Rows) {
    forall p, q ::
      p in rows.packs && q in rows.packs
      && rows.packs[p].companion == rows.packs[q].companion && rows.packs[p].manifest == rows.packs[q].manifest
      ==> p == q
  }

  /** The active packs of a companion are exactly the one it points to, if any. */
  ghost predicate ActiveOk(rows: Rows) {
    && (forall p :: p in rows.packs && rows.packs[p].companion in rows.companions ==>
          (rows.packs[p].status == PackActive <==> rows.companions[rows.packs[p].companion].activePack == Some(p)))
    && (forall c :: c in rows.companions && rows.companions[c].activePack.Some? ==>
          var p := rows.companions[c].activePack.value; p in rows.packs && rows.packs[p].companion == c)
  }

  /** Once deletion of an account is requested all its packs are dead. */
  ghost predicate DeletionOk(rows: Rows) {
    forall p, u ::
      p in rows.packs && Owns(rows, u, rows.packs[p].companion)
      && u in rows.accounts && rows.accounts[u].deletionRequestedAt.Some?
      ==> Dead(rows.packs[p].status)
  }

  ghost predicate QuotaOk(rows: Rows, lim: Limits) { forall u :: Usage(rows, u) <= lim.quota }

  ghost predicate RowsOk(rows: Rows, lim: Limits) {
    LinksOk(rows) && OneManifest(rows) && ActiveOk(rows) && DeletionOk(rows) && QuotaOk(rows, lim)
  }

  /** What a statement may do to packs it did not create: they keep their companion, manifest and
      bytes, the dead stay dead, and only RecordUrls touches lastIssued. */
  ghost predicate Ages(a: Pack, b: Pack) {
    && b.companion == a.companion && b.manifest == a.manifest && b.bytes == a.bytes
    && (Dead(a.status) ==> Dead(b.status))
  }

  ghost predicate PacksAge(rows: Rows, rows': Rows) {
    forall p :: p in rows.packs && p in rows'.packs ==> Ages(rows.packs[p], rows'.packs[p])
  }

  // ------------------------------------------------------------------ preservation

  /** Without new packs, with owners as they were, nobody's usage grows. */
  lemma QuotaFrame(rows: Rows, rows': Rows, lim: Limits)
    requires QuotaOk(rows, lim) && PacksAge(rows, rows') && rows'.packs.Keys <= rows.packs.Keys
    requires forall c :: c in rows'.companions ==> c in rows.companions && rows'.companions[c].owner == rows.companions[c].owner
    ensures QuotaOk(rows', lim)
  {
    forall u ensures Usage(rows', u) <= lim.quota {
      var few, many := Counted(rows', u), Counted(rows, u);
      forall p | p in few ensures p in many && rows'.packs[p].bytes == rows.packs[p].bytes {
        assert Ages(rows.packs[p], rows'.packs[p]);
      }
      SumFrame(Bytes(rows'), Bytes(rows), few);
      SumSubset(Bytes(rows), few, many);
      assert Usage(rows, u) <= lim.quota;
    }
  }

  /** One pack changes its status, neither from nor to active. */
  lemma SetStatusKeeps(rows: Rows, lim: Limits, p: PackId, s: PackStatus, now: Time)
    requires RowsOk(rows, lim) && p in rows.packs
    requires rows.packs[p].status != PackActive && s != PackActive && (Dead(rows.packs[p].status) ==> Dead(s))
    ensures RowsOk(SetStatus(rows, p, s, now), lim) && PacksAge(rows, SetStatus(rows, p, s, now))
  {
    QuotaFrame(rows, SetStatus(rows, p, s, now), lim) by { hide QuotaOk; }
    hide QuotaOk;
  }

  lemma QuotaIgnoresStamps(rows: Rows, p: PackId, pack: Pack, lim: Limits)
    requires QuotaOk(rows, lim) && p in rows.packs && Ages(rows.packs[p], pack)
    ensures QuotaOk(rows.(packs := rows.packs[p := pack]), lim)
  {
    hide QuotaOk;
    QuotaFrame(rows, rows.(packs := rows.packs[p := pack]), lim);
  }

  lemma RecordUrlsKeeps(rows: Rows, lim: Limits, u: UserId, p: PackId, issuedAt: Time, now: Time)
    requires RowsOk(rows, lim)
    ensures var rows' := RecordUrls(rows, u, p, issuedAt, now).rows; RowsOk(rows', lim) && PacksAge(rows, rows')
  {
    var tx := RecordUrls(rows, u, p, issuedAt, now);
    hide QuotaOk;
    if tx.reply == Written {
      QuotaIgnoresStamps(rows, p, tx.rows.packs[p], lim);
    }
  }

  lemma NewPackQuota(rows: Rows, lim: Limits, id: PackId, pack: Pack, u: UserId)
    requires QuotaOk(rows, lim) && id !in rows.packs && Owns(rows, u, pack.companion) && Usage(rows, u) + pack.bytes <= lim.quota
    requires !Dead(pack.status)
    ensures QuotaOk(rows.(packs := rows.packs[id := pack]), lim)
  {
    var rows' := rows.(packs := rows.packs[id := pack]);
    assert Bytes(rows') == Bytes(rows)[id := pack.bytes];
    forall v ensures Usage(rows', v) <= lim.quota {
      assert Usage(rows, v) <= lim.quota;
      forall q ensures q in Counted(rows', v) <==> q in Counted(rows, v) || (v == u && q == id) {
        assert q in rows'.packs <==> q in rows.packs || q == id;
        assert q in rows.packs ==> rows'.packs[q] == rows.packs[q];
      }
      if v == u {
        assert Counted(rows', v) == Counted(rows, v) + {id};
        SumAdd(Bytes(rows), Counted(rows, v), id, pack.bytes);
      } else {
        assert Counted(rows', v) == Counted(rows, v);
        SumFrame(Bytes(rows), Bytes(rows'), Counted(rows, v));
      }
    }
  }

  /** initiateAssetPack keeps the quota: what it adds fits beside everything that counts. */
  lemma InitiateKeeps(rows: Rows, lim: Limits, u: UserId, c: CompanionId, m: ManifestId, bytes: nat, now: Time, id: PackId)
    requires RowsOk(rows, lim)
    ensures var rows' := Initiate(rows, lim, u, c, m, bytes, now, id).rows; RowsOk(rows', lim) && PacksAge(rows, rows')
  {
    hide QuotaOk, Usage;
    var tx := Initiate(rows, lim, u, c, m, bytes, now, id);
    if tx.reply == Created {
      NewPackQuota(rows, lim, id, tx.rows.packs[id], u);
      assert forall p :: p in rows.packs ==> p !in WithManifest(rows, c, m);
    } else if tx.reply == Resumed {
      var p := AnyOf(WithManifest(rows, c, m));
      if rows.packs[p].status == Verifying {
        SetStatusKeeps(rows, lim, p, Uploading, now);
        hide RowsOk;
      }
    }
  }

  lemma ActivateQuota(rows: Rows, lim: Limits, c: CompanionId, p: PackId, from: PackStatus, now: Time)
    requires QuotaOk(rows, lim) && (from == Verifying || from == Superseded)
    ensures var rows' := Activate(rows, c, p, from, now).rows; QuotaOk(rows', lim) && PacksAge(rows, rows')
  {
    hide QuotaOk;
    var rows' := Activate(rows, c, p, from, now).rows;
    QuotaFrame(rows, rows', lim);
  }

  /** Activation, from either side, keeps exactly one active pack and the pointer to it. */
  lemma ActivateKeeps(rows: Rows, lim: Limits, c: CompanionId, p: PackId, from: PackStatus, now: Time)
    requires RowsOk(rows, lim) && (from == Verifying || from == Superseded)
    ensures var rows' := Activate(rows, c, p, from, now).rows; RowsOk(rows', lim) && PacksAge(rows, rows')
  {
    ActivateQuota(rows, lim, c, p, from, now);
    hide QuotaOk;
  }

  /** The repair of an active pack its companion does not point to is never needed. */
  lemma NoRepair(rows: Rows, lim: Limits, c: CompanionId, p: PackId, from: PackStatus, now: Time)
    requires RowsOk(rows, lim) && c in rows.companions && p in rows.packs && rows.packs[p].companion == c
    requires rows.packs[p].status == PackActive
    ensures Activate(rows, c, p, from, now) == PackTx(rows, Unwritten)
  {
    hide QuotaOk;
  }

  lemma RemovePackKeeps(rows: Rows, lim: Limits, p: PackId)
    requires RowsOk(rows, lim)
    ensures RowsOk(RemovePack(rows, p), lim) && PacksAge(rows, RemovePack(rows, p))
  {
    hide QuotaOk;
    QuotaFrame(rows, RemovePack(rows, p), lim);
  }

  lemma RequestDeletionKeeps(rows: Rows, lim: Limits, u: UserId, now: Time)
    requires RowsOk(rows, lim)
    ensures RowsOk(RequestDeletion(rows, u, now), lim) && PacksAge(rows, RequestDeletion(rows, u, now))
  {
    hide QuotaOk;
    QuotaFrame(rows, RequestDeletion(rows, u, now), lim);
  }

  lemma RemoveAccountKeeps(rows: Rows, lim: Limits, u: UserId)
    requires RowsOk(rows, lim)
    ensures RowsOk(RemoveAccount(rows, u), lim) && PacksAge(rows, RemoveAccount(rows, u))
  {
    hide QuotaOk;
    QuotaFrame(rows, RemoveAccount(rows, u), lim);
  }
}
