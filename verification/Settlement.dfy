/** Relationship settlement: what a shared moment books for every pair of companions in the room
    (settleRelationships and updateRelationshipPair of src/visit-social/visit-social.service.ts). */
module Settlement {
  import opened Common
  import opened Rooms

  datatype Stage = Acquainted | Familiar | Friendly | CloseBond | Trusted   // CloseBond: 'close'

  /** Companion ids in ascending order. */
  datatype Pair = Pair(low: CompanionId, high: CompanionId)

  datatype Relationship = Relationship(
    stage: Stage, visitCount: nat, interactionCount: nat, totalTurnCount: nat, rapport: real, topicAffinity: real)

  /** VisitRelationshipSettlement, by its unique index, and CompanionRelationship, by its own. */
  datatype Ledger = Ledger(settlements: map<(SessionId, Pair), nat>, relationships: map<Pair, Relationship>)

  /** A ready participant: the companion it brought and the user who sends its turns. */
  datatype Entry = Entry(companion: CompanionId, user: UserId)

  const EmptyLedger := Ledger(map[], map[])

  // ------------------------------------------------------------------ the transactions

  function PairOf(a: CompanionId, b: CompanionId): Pair { if a <= b then Pair(a, b) else Pair(b, a) }

  function TurnsBy(turns: map<nat, Turn>, u: UserId): set<nat> {
    set i | i in turns && turns[i].sender == u
  }

  /** visitTurn.count with senderUserId in [first, second]. */
  function PairTurns(turns: map<nat, Turn>, u: UserId, v: UserId): nat {
    |set i | i in turns && (turns[i].sender == u || turns[i].sender == v)|
  }

  /** The CASE of the upsert, on the new visit count. */
  function StageOf(visits: nat): Stage {
    if visits >= 12 then Trusted
    else if visits >= 8 then CloseBond
    else if visits >= 4 then Friendly
    else if visits >= 2 then Familiar
    else Acquainted
  }

  function Least(x: real, y: real): real { if x <= y then x else y }

  /** updateRelationshipPair: INSERT ... ON CONFLICT DO UPDATE. */
  function Upsert(rs: map<Pair, Relationship>, p: Pair, turnCount: nat): map<Pair, Relationship> {
    if p in rs then
      var r := rs[p];
      rs[p := Relationship(StageOf(r.visitCount + 1), r.visitCount + 1, r.interactionCount + 1,
                           r.totalTurnCount + turnCount, Least(1.0, r.rapport + 0.08), Least(1.0, r.topicAffinity + 0.05))]
    else rs[p := Relationship(Acquainted, 1, 1, turnCount, 0.08, 0.05)]
  }

  /** One iteration of the inner loop: the settlement row, ON CONFLICT DO NOTHING, and the
      relationship only if the row is new. */
  function SettlePair(l: Ledger, s: SessionId, a: Entry, b: Entry, turns: map<nat, Turn>): Ledger {
    var p := PairOf(a.companion, b.companion);
    var n := PairTurns(turns, a.user, b.user);
    if (s, p) in l.settlements then l
    else Ledger(l.settlements[(s, p) := n], Upsert(l.relationships, p, n))
  }

  /** The inner loop. */
  function SettleWith(l: Ledger, s: SessionId, a: Entry, rest: seq<Entry>, turns: map<nat, Turn>): Ledger
    decreases |rest|
  {
    if rest == [] then l else SettleWith(SettlePair(l, s, a, rest[0], turns), s, a, rest[1..], turns)
  }

  /** The outer loop. */
  function SettleAll(l: Ledger, s: SessionId, entries: seq<Entry>, turns: map<nat, Turn>): Ledger
    decreases |entries|
  {
    if entries == [] then l
    else SettleAll(SettleWith(l, s, entries[0], entries[1..], turns), s, entries[1..], turns)
  }

  // ------------------------------------------------------------------ relationships sum settlements

  ghost function PairRows(l: Ledger, p: Pair): (ks: set<(SessionId, Pair)>)
    ensures ks <= l.settlements.Keys
  {
    set k | k in l.settlements && k.1 == p
  }

  ghost function SessionRows(l: Ledger, s: SessionId): (ks: set<(SessionId, Pair)>)
    ensures ks <= l.settlements.Keys
  {
    set k | k in l.settlements && k.0 == s
  }

  /** The relationship that a number of settled visits and their turns amount to, in exact
      arithmetic. */
  ghost function Amounts(visits: nat, turns: nat): Relationship {
    Relationship(StageOf(visits), visits, visits, turns,
                 Least(1.0, 0.08 * visits as real), Least(1.0, 0.05 * visits as real))
  }

  /** Two settled visits make companions familiar, four friendly, eight close and twelve trusted; rapport grows by
      0.08 a visit and is complete at the thirteenth, topic affinity by 0.05 and is complete at the twentieth. */
  lemma AmountsExactly(visits: nat, turns: nat)
    requires visits > 0
    ensures var r := Amounts(visits, turns);
            && (r.stage == Acquainted <==> visits == 1) && (r.stage == Familiar <==> 2 <= visits < 4)
            && (r.stage == Friendly <==> 4 <= visits < 8) && (r.stage == CloseBond <==> 8 <= visits < 12)
            && (r.stage == Trusted <==> visits >= 12)
            && r.visitCount == visits && r.interactionCount == visits && r.totalTurnCount == turns
            && r.rapport == (if visits <= 12 then visits as real * 8.0 / 100.0 else 1.0)
            && r.topicAffinity == (if visits <= 19 then visits as real * 5.0 / 100.0 else 1.0)
  {
  }

  /** A pair is its two companions in ascending order, whichever of them is named first. */
  lemma PairsExactly(a: CompanionId, b: CompanionId)
    ensures PairOf(a, b) == PairOf(b, a) && PairOf(a, b).low <= PairOf(a, b).high && {PairOf(a, b).low, PairOf(a, b).high} == {a, b}
  {
  }

  /** A pair has a relationship exactly when it has settlement rows, and the relationship is what
      those rows amount to. */
  ghost predicate PairOk(l: Ledger, p: Pair) {
    && (p in l.relationships <==> PairRows(l, p) != {})
    && (p in l.relationships ==>
          l.relationships[p] == Amounts(|PairRows(l, p)|, Sum(l.settlements, PairRows(l, p))))
  }

  ghost predicate LedgerOk(l: Ledger) {
    && (forall k :: k in l.settlements ==> k.1.low < k.1.high)
    && (forall p :: PairOk(l, p))
  }

  /** One more visit: the capped sums of the upsert are the capped multiples. */
  lemma OneMoreVisit(rs: map<Pair, Relationship>, p: Pair, visits: nat, turns: nat, n: nat)
    requires p in rs ==> rs[p] == Amounts(visits, turns)
    requires p !in rs ==> visits == 0 && turns == 0
    ensures Upsert(rs, p, n) == rs[p := Amounts(visits + 1, turns + n)]
  {
    var v := visits as real;
    assert (visits + 1) as real == v + 1.0;
    assert 0.08 * (v + 1.0) == 0.08 * v + 0.08;
    assert 0.05 * (v + 1.0) == 0.05 * v + 0.05;
  }

  lemma NewRow(l: Ledger, s: SessionId, p: Pair, n: nat)
    requires (s, p) !in l.settlements
    ensures var l' := Ledger(l.settlements[(s, p) := n], Upsert(l.relationships, p, n));
            && PairRows(l', p) != {} && |PairRows(l', p)| == |PairRows(l, p)| + 1
            && Sum(l'.settlements, PairRows(l', p)) == Sum(l.settlements, PairRows(l, p)) + n
            && forall q :: q != p ==>
                 PairRows(l', q) == PairRows(l, q) && Sum(l'.settlements, PairRows(l', q)) == Sum(l.settlements, PairRows(l, q))
  {
    var l' := Ledger(l.settlements[(s, p) := n], Upsert(l.relationships, p, n));
    assert PairRows(l', p) == PairRows(l, p) + {(s, p)};
    SumAdd(l.settlements, PairRows(l, p), (s, p), n);
    forall q | q != p
      ensures PairRows(l', q) == PairRows(l, q) && Sum(l'.settlements, PairRows(l', q)) == Sum(l.settlements, PairRows(l, q))
    {
      assert PairRows(l', q) == PairRows(l, q);
      SumFrame(l.settlements, l'.settlements, PairRows(l, q));
    }
  }

  lemma NewRowPair(l: Ledger, s: SessionId, p: Pair, n: nat, q: Pair)
    requires PairOk(l, p) && PairOk(l, q) && (s, p) !in l.settlements
    ensures PairOk(Ledger(l.settlements[(s, p) := n], Upsert(l.relationships, p, n)), q)
  {
    hide Amounts, Upsert, PairRows;
    NewRow(l, s, p, n);
    OneMoreVisit(l.relationships, p, |PairRows(l, p)|, Sum(l.settlements, PairRows(l, p)), n);
  }

  lemma NewRowKeeps(l: Ledger, s: SessionId, p: Pair, n: nat)
    requires LedgerOk(l) && p.low < p.high && (s, p) !in l.settlements
    ensures LedgerOk(Ledger(l.settlements[(s, p) := n], Upsert(l.relationships, p, n)))
  {
    hide PairOk, Upsert;
    var l' := Ledger(l.settlements[(s, p) := n], Upsert(l.relationships, p, n));
    forall q ensures PairOk(l', q) {
      NewRowPair(l, s, p, n, q);
    }
  }

  lemma SettlePairKeeps(l: Ledger, s: SessionId, a: Entry, b: Entry, turns: map<nat, Turn>)
    requires LedgerOk(l) && a.companion != b.companion
    ensures LedgerOk(SettlePair(l, s, a, b, turns))
  {
    hide LedgerOk;
    var p := PairOf(a.companion, b.companion);
    if (s, p) !in l.settlements {
      NewRowKeeps(l, s, p, PairTurns(turns, a.user, b.user));
    }
  }

  ghost predicate DistinctEntries(entries: seq<Entry>) {
    forall i, j :: 0 <= i < j < |entries| ==>
      entries[i].companion != entries[j].companion && entries[i].user != entries[j].user
  }

  lemma {:induction false} SettleWithKeeps(l: Ledger, s: SessionId, a: Entry, rest: seq<Entry>, turns: map<nat, Turn>)
    requires LedgerOk(l) && forall i :: 0 <= i < |rest| ==> rest[i].companion != a.companion
    ensures LedgerOk(SettleWith(l, s, a, rest, turns))
    decreases |rest|
  {
    if rest != [] {
      SettlePairKeeps(l, s, a, rest[0], turns);
      SettleWithKeeps(SettlePair(l, s, a, rest[0], turns), s, a, rest[1..], turns);
    }
  }

  /** Settling a room keeps every relationship equal to the sum of its settlements. */
  lemma {:induction false} SettleAllKeeps(l: Ledger, s: SessionId, entries: seq<Entry>, turns: map<nat, Turn>)
    requires LedgerOk(l) && DistinctEntries(entries)
    ensures LedgerOk(SettleAll(l, s, entries, turns))
    decreases |entries|
  {
    if entries != [] {
      SettleWithKeeps(l, s, entries[0], entries[1..], turns);
      SettleAllKeeps(SettleWith(l, s, entries[0], entries[1..], turns), s, entries[1..], turns);
    }
  }

  // ------------------------------------------------------------------ each pair once

  ghost function Pairs(entries: seq<Entry>): set<Pair> {
    set i, j | 0 <= i < j < |entries| :: PairOf(entries[i].companion, entries[j].companion)
  }

  ghost function PairsWith(a: Entry, rest: seq<Entry>): set<Pair> {
    set j | 0 <= j < |rest| :: PairOf(a.companion, rest[j].companion)
  }

  ghost predicate Unsettled(l: Ledger, s: SessionId, ps: set<Pair>) {
    forall p :: p in ps ==> (s, p) !in l.settlements
  }

  /** What a stretch of the loops adds: one row for each of `ps`, all for session `s`. */
  ghost predicate Booked(l: Ledger, l': Ledger, s: SessionId, ps: set<Pair>) {
    && (forall k :: k in l'.settlements <==> k in l.settlements || (k.0 == s && k.1 in ps))
    && (forall k :: k in l.settlements ==> l'.settlements[k] == l.settlements[k])
  }

  /** The turns of the pairs the inner loop visits. */
  ghost function RowTurns(a: Entry, rest: seq<Entry>, turns: map<nat, Turn>): nat
    decreases |rest|
  {
    if rest == [] then 0 else PairTurns(turns, a.user, rest[0].user) + RowTurns(a, rest[1..], turns)
  }

  /** The turns of all pairs the loops visit. */
  ghost function AllTurns(entries: seq<Entry>, turns: map<nat, Turn>): nat
    decreases |entries|
  {
    if entries == [] then 0 else RowTurns(entries[0], entries[1..], turns) + AllTurns(entries[1..], turns)
  }

  lemma PairsWithSplit(a: Entry, rest: seq<Entry>)
    requires rest != [] && DistinctEntries([a] + rest)
    ensures PairsWith(a, rest) == PairsWith(a, rest[1..]) + {PairOf(a.companion, rest[0].companion)}
    ensures PairOf(a.companion, rest[0].companion) !in PairsWith(a, rest[1..])
    ensures DistinctEntries([a] + rest[1..])
  {
    var all, tail := [a] + rest, rest[1..];
    forall j | 0 <= j < |rest|
      ensures PairOf(a.companion, rest[j].companion) in PairsWith(a, tail) + {PairOf(a.companion, rest[0].companion)}
    {
      if j > 0 { assert rest[j] == tail[j - 1]; }
    }
    forall j | 0 <= j < |tail|
      ensures PairOf(a.companion, tail[j].companion) in PairsWith(a, rest) - {PairOf(a.companion, rest[0].companion)}
    {
      assert tail[j] == rest[j + 1] == all[j + 2] && rest[0] == all[1];
    }
    var short := [a] + tail;
    forall i, j | 0 <= i < j < |short|
      ensures short[i].companion != short[j].companion && short[i].user != short[j].user
    {
      assert short[j] == all[j + 1] && short[i] == all[if i == 0 then 0 else i + 1];
    }
  }

  lemma SettlePairBooks(l: Ledger, s: SessionId, a: Entry, b: Entry, turns: map<nat, Turn>)
    requires (s, PairOf(a.companion, b.companion)) !in l.settlements
    ensures var l' := SettlePair(l, s, a, b, turns);
            && Booked(l, l', s, {PairOf(a.companion, b.companion)})
            && Sum(l'.settlements, SessionRows(l', s)) == Sum(l.settlements, SessionRows(l, s)) + PairTurns(turns, a.user, b.user)
  {
    hide Upsert, PairTurns, PairOf;
    var k := (s, PairOf(a.companion, b.companion));
    var l' := SettlePair(l, s, a, b, turns);
    assert SessionRows(l', s) == SessionRows(l, s) + {k};
    SumAdd(l.settlements, SessionRows(l, s), k, PairTurns(turns, a.user, b.user));
  }

  lemma {:induction false} SettleWithBooks(l: Ledger, s: SessionId, a: Entry, rest: seq<Entry>, turns: map<nat, Turn>)
    requires DistinctEntries([a] + rest) && Unsettled(l, s, PairsWith(a, rest))
    ensures var l' := SettleWith(l, s, a, rest, turns);
            && Booked(l, l', s, PairsWith(a, rest))
            && Sum(l'.settlements, SessionRows(l', s)) == Sum(l.settlements, SessionRows(l, s)) + RowTurns(a, rest, turns)
    decreases |rest|
  {
    hide SettlePair, PairTurns, PairOf, DistinctEntries, PairsWith, SessionRows;
    if rest != [] {
      var mid := SettlePair(l, s, a, rest[0], turns);
      PairsWithSplit(a, rest);
      SettlePairBooks(l, s, a, rest[0], turns);
      SettleWithBooks(mid, s, a, rest[1..], turns);
    } else {
      NoPairs(a);
    }
  }

  lemma NoPairs(a: Entry)
    ensures PairsWith(a, []) == {}
  {
  }

  /** Each unordered pair of entries gets exactly one row, and the rows' turns add up to AllTurns. */
  lemma {:induction false} SettleAllBooks(l: Ledger, s: SessionId, entries: seq<Entry>, turns: map<nat, Turn>)
    requires DistinctEntries(entries) && Unsettled(l, s, Pairs(entries))
    ensures var l' := SettleAll(l, s, entries, turns);
            && Booked(l, l', s, Pairs(entries))
            && Sum(l'.settlements, SessionRows(l', s)) == Sum(l.settlements, SessionRows(l, s)) + AllTurns(entries, turns)
    decreases |entries|
  {
    if entries != [] {
      var a, rest := entries[0], entries[1..];
      assert [a] + rest == entries;
      PairsSplit(entries);
      var mid := SettleWith(l, s, a, rest, turns);
      SettleWithBooks(l, s, a, rest, turns);
      assert Unsettled(mid, s, Pairs(rest));
      SettleAllBooks(mid, s, rest, turns);
    }
  }

  /** The row of each pair holds the turns its two users sent. */
  ghost predicate RowsCount(l: Ledger, s: SessionId, entries: seq<Entry>, turns: map<nat, Turn>) {
    forall i, j :: 0 <= i < j < |entries| ==>
      RowCounts(l, s, entries[i], entries[j], turns)
  }

  ghost predicate RowCounts(l: Ledger, s: SessionId, a: Entry, b: Entry, turns: map<nat, Turn>) {
    var k := (s, PairOf(a.companion, b.companion));
    k in l.settlements && l.settlements[k] == PairTurns(turns, a.user, b.user)
  }

  lemma RowCountsStay(l: Ledger, l': Ledger, s: SessionId, ps: set<Pair>, q: SessionId, a: Entry, b: Entry, turns: map<nat, Turn>)
    requires Booked(l, l', s, ps) && RowCounts(l, q, a, b, turns)
    ensures RowCounts(l', q, a, b, turns)
  {
  }

  lemma {:induction false} SettleWithCounts(l: Ledger, s: SessionId, a: Entry, rest: seq<Entry>, turns: map<nat, Turn>)
    requires DistinctEntries([a] + rest) && Unsettled(l, s, PairsWith(a, rest))
    ensures forall j :: 0 <= j < |rest| ==> RowCounts(SettleWith(l, s, a, rest, turns), s, a, rest[j], turns)
    decreases |rest|
  {
    if rest != [] {
      hide PairTurns, PairOf, DistinctEntries, PairsWith, RowCounts, SettlePair, Booked;
      var mid, l' := SettlePair(l, s, a, rest[0], turns), SettleWith(l, s, a, rest, turns);
      FirstRowCounts(l, s, a, rest, turns);
      SettleWithCounts(mid, s, a, rest[1..], turns);
      SettleWithBooks(mid, s, a, rest[1..], turns);
      RowCountsStay(mid, l', s, PairsWith(a, rest[1..]), s, a, rest[0], turns);
      forall j | 0 <= j < |rest| ensures RowCounts(l', s, a, rest[j], turns) {
        if j > 0 { assert rest[j] == rest[1..][j - 1]; }
      }
    }
  }

  lemma FirstRowCounts(l: Ledger, s: SessionId, a: Entry, rest: seq<Entry>, turns: map<nat, Turn>)
    requires rest != [] && DistinctEntries([a] + rest) && Unsettled(l, s, PairsWith(a, rest))
    ensures RowCounts(SettlePair(l, s, a, rest[0], turns), s, a, rest[0], turns)
    ensures Unsettled(SettlePair(l, s, a, rest[0], turns), s, PairsWith(a, rest[1..]))
    ensures DistinctEntries([a] + rest[1..])
  {
    hide PairTurns, PairOf, DistinctEntries, Upsert;
    PairsWithSplit(a, rest);
  }

  lemma {:induction false} SettleAllCounts(l: Ledger, s: SessionId, entries: seq<Entry>, turns: map<nat, Turn>)
    requires DistinctEntries(entries) && Unsettled(l, s, Pairs(entries))
    ensures RowsCount(SettleAll(l, s, entries, turns), s, entries, turns)
    decreases |entries|
  {
    if entries != [] {
      var a, rest := entries[0], entries[1..];
      assert [a] + rest == entries;
      PairsSplit(entries);
      var mid, l' := SettleWith(l, s, a, rest, turns), SettleAll(l, s, entries, turns);
      SettleWithBooks(l, s, a, rest, turns);
      SettleWithCounts(l, s, a, rest, turns);
      assert Unsettled(mid, s, Pairs(rest));
      SettleAllBooks(mid, s, rest, turns);
      SettleAllCounts(mid, s, rest, turns);
      AllRowsCount(mid, l', s, entries, turns);
    }
  }

  lemma AllRowsCount(mid: Ledger, l': Ledger, s: SessionId, entries: seq<Entry>, turns: map<nat, Turn>)
    requires entries != [] && Booked(mid, l', s, Pairs(entries[1..])) && RowsCount(l', s, entries[1..], turns)
    requires forall j :: 0 <= j < |entries[1..]| ==> RowCounts(mid, s, entries[0], entries[1..][j], turns)
    ensures RowsCount(l', s, entries, turns)
  {
    hide RowCounts, Booked, Pairs;
    forall i, j | 0 <= i < j < |entries| ensures RowCounts(l', s, entries[i], entries[j], turns) {
      assert entries[j] == entries[1..][j - 1];
      if i == 0 {
        RowCountsStay(mid, l', s, Pairs(entries[1..]), s, entries[0], entries[j], turns);
      } else {
        assert entries[i] == entries[1..][i - 1];
      }
    }
  }

  lemma PairsSplit(entries: seq<Entry>)
    requires entries != [] && DistinctEntries(entries)
    ensures Pairs(entries) == PairsWith(entries[0], entries[1..]) + Pairs(entries[1..])
    ensures PairsWith(entries[0], entries[1..]) !! Pairs(entries[1..])
    ensures DistinctEntries(entries[1..])
  {
    var a, rest := entries[0], entries[1..];
    forall i, j | 0 <= i < j < |entries|
      ensures PairOf(entries[i].companion, entries[j].companion) in PairsWith(a, rest) + Pairs(rest)
    {
      assert entries[j] == rest[j - 1];
      if i > 0 { assert entries[i] == rest[i - 1]; }
    }
    forall i, j | 0 <= i < j < |rest|
      ensures PairOf(rest[i].companion, rest[j].companion) in Pairs(entries) - PairsWith(a, rest)
    {
      assert rest[i] == entries[i + 1] && rest[j] == entries[j + 1];
    }
    forall j | 0 <= j < |rest| ensures PairOf(a.companion, rest[j].companion) in Pairs(entries) {
      assert rest[j] == entries[j + 1];
    }
  }

  // ------------------------------------------------------------------ double counting

  ghost function TurnsOf(entries: seq<Entry>, turns: map<nat, Turn>): nat
    decreases |entries|
  {
    if entries == [] then 0 else |TurnsBy(turns, entries[0].user)| + TurnsOf(entries[1..], turns)
  }

  ghost function Users(entries: seq<Entry>): set<UserId> {
    set i | 0 <= i < |entries| :: entries[i].user
  }

  lemma PairTurnsAdd(turns: map<nat, Turn>, u: UserId, v: UserId)
    requires u != v
    ensures PairTurns(turns, u, v) == |TurnsBy(turns, u)| + |TurnsBy(turns, v)|
  {
    assert (set i | i in turns && (turns[i].sender == u || turns[i].sender == v)) == TurnsBy(turns, u) + TurnsBy(turns, v);
    assert TurnsBy(turns, u) !! TurnsBy(turns, v);
  }

  lemma UsersSplit(entries: seq<Entry>)
    requires entries != [] && DistinctEntries(entries)
    ensures Users(entries) == {entries[0].user} + Users(entries[1..])
    ensures entries[0].user !in Users(entries[1..])
    ensures DistinctEntries(entries[1..])
  {
    var rest := entries[1..];
    PairsSplit(entries);
    forall i | 0 <= i < |entries| ensures entries[i].user in {entries[0].user} + Users(rest) {
      if i > 0 { assert entries[i] == rest[i - 1]; }
    }
    forall i | 0 <= i < |rest| ensures rest[i].user in Users(entries) && rest[i].user != entries[0].user {
      assert rest[i] == entries[i + 1];
    }
  }

  ghost function TurnsIn(turns: map<nat, Turn>, us: set<UserId>): set<nat> {
    set i | i in turns && turns[i].sender in us
  }

  /** A turn is counted for its sender alone. */
  lemma {:induction false} TurnsOfCounts(entries: seq<Entry>, turns: map<nat, Turn>)
    requires DistinctEntries(entries)
    ensures TurnsOf(entries, turns) == |TurnsIn(turns, Users(entries))|
    decreases |entries|
  {
    if entries != [] {
      var u, rest := entries[0].user, entries[1..];
      UsersSplit(entries);
      TurnsOfCounts(rest, turns);
      hide DistinctEntries, Users;
      assert TurnsIn(turns, Users(entries)) == TurnsBy(turns, u) + TurnsIn(turns, Users(rest));
      assert TurnsBy(turns, u) !! TurnsIn(turns, Users(rest));
    } else {
      assert TurnsIn(turns, Users(entries)) == {};
    }
  }

  lemma {:induction false} RowTurnsAdd(a: Entry, rest: seq<Entry>, turns: map<nat, Turn>)
    requires forall i :: 0 <= i < |rest| ==> rest[i].user != a.user
    ensures RowTurns(a, rest, turns) == |rest| * |TurnsBy(turns, a.user)| + TurnsOf(rest, turns)
    decreases |rest|
  {
    if rest != [] {
      PairTurnsAdd(turns, a.user, rest[0].user);
      RowTurnsAdd(a, rest[1..], turns);
      assert |rest| * |TurnsBy(turns, a.user)| == |rest[1..]| * |TurnsBy(turns, a.user)| + |TurnsBy(turns, a.user)|;
    }
  }

  lemma {:induction false} AllTurnsAdd(entries: seq<Entry>, turns: map<nat, Turn>)
    requires DistinctEntries(entries) && entries != []
    ensures AllTurns(entries, turns) == (|entries| - 1) * TurnsOf(entries, turns)
    decreases |entries|
  {
    var a, rest := entries[0], entries[1..];
    PairsSplit(entries);
    RowTurnsAdd(a, rest, turns);
    if rest != [] {
      AllTurnsAdd(rest, turns);
      Distribute(|rest|, |TurnsBy(turns, a.user)|, TurnsOf(rest, turns));
    }
  }

  lemma Distribute(n: int, x: int, y: int)
    ensures n * x + y + (n - 1) * y == n * (x + y)
  {
  }

  /** With m entries, and every turn sent by one of them, the pair counts of all pairs together
      count every turn m - 1 times. */
  lemma DoubleCounting(entries: seq<Entry>, turns: map<nat, Turn>)
    requires DistinctEntries(entries) && entries != []
    requires forall i :: i in turns ==> turns[i].sender in Users(entries)
    ensures AllTurns(entries, turns) == (|entries| - 1) * |turns|
  {
    AllTurnsAdd(entries, turns);
    TurnsOfCounts(entries, turns);
    assert TurnsIn(turns, Users(entries)) == turns.Keys;
  }
}