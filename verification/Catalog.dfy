/** The rows the Visit services read but never write: accounts, friendships, blocks, companions
    and asset packs. */
module Catalog {
  import opened Common

  datatype PackStatus =
    Uploading | Verifying | PackActive | Superseded | PackFailed | Abandoning | Abandoned | Deleting

  /** accountStatus === 'ACTIVE', deletionRequestedAt, activeNetworkCompanionId. */
  datatype User = User(active: bool, deletionRequested: bool, activeCompanion: Option<CompanionId>)

  datatype Companion = Companion(
    owner: UserId, published: bool, friendsOnly: bool, allowJoinRequests: bool, activePack: Option<PackId>)

  /** `visual`: the manifest holds every animation a Visit needs. */
  datatype PackSummary = PackSummary(companion: CompanionId, status: PackStatus, visual: bool)

  datatype Catalog = Catalog(
    users: map<UserId, User>,
    friendships: set<(UserId, UserId)>,
    blocks: set<(UserId, UserId)>,
    companions: map<CompanionId, Companion>,
    packs: map<PackId, PackSummary>)

  datatype Snapshot = Snapshot(companion: CompanionId, pack: PackId)

  predicate InGoodStanding(c: Catalog, u: UserId) {
    u in c.users && c.users[u].active && !c.users[u].deletionRequested
  }

  /** assertEligible: friends in both directions, no block, both accounts active. The account
      count is over `id IN (first, second)`, so a user is never eligible with itself. */
  predicate Eligible(c: Catalog, a: UserId, b: UserId) {
    && (a, b) in c.friendships && (b, a) in c.friendships
    && (a, b) !in c.blocks && (b, a) !in c.blocks
    && a != b && InGoodStanding(c, a) && InGoodStanding(c, b)
  }

  predicate AllEligible(c: Catalog, users: set<UserId>) {
    forall a, b :: a in users && b in users && a != b ==> Eligible(c, a, b)
  }

  /** loadCurrentSnapshotInTransaction: the owner's published companion and its active pack. */
  function CurrentSnapshot(c: Catalog, owner: UserId): (r: Option<Snapshot>)
    ensures r.Some? ==>
              && r.value.companion in c.companions && c.companions[r.value.companion].owner == owner
              && r.value.pack in c.packs && c.packs[r.value.pack].status == PackActive
              && c.packs[r.value.pack].companion == r.value.companion
  {
    if owner !in c.users || !c.users[owner].active || c.users[owner].activeCompanion.None? then None
    else
      var id := c.users[owner].activeCompanion.value;
      if id !in c.companions then None
      else
        var companion := c.companions[id];
        if companion.owner != owner || !companion.published || !companion.friendsOnly || companion.activePack.None? then None
        else
          var pack := companion.activePack.value;
          if pack !in c.packs || c.packs[pack].companion != id || c.packs[pack].status != PackActive then None
          else Some(Snapshot(id, pack))
  }

  /** The pack a pending invitation pinned may still be shown. */
  predicate Presentable(c: Catalog, pack: PackId, companion: CompanionId) {
    && pack in c.packs && c.packs[pack].companion == companion
    && (c.packs[pack].status == PackActive || c.packs[pack].status == Superseded)
  }
}
