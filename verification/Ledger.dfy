/** The append-only evidence ledger: one table whose rows form one hash chain per
    tenant. */
module Ledger {
  import opened Text
  import opened Json
  import opened CanonicalJson
  import opened IntentBinding

  const HASH_WIDTH: nat := 64
  const ID_WIDTH: nat := 36

  /** The text of a UUID. */
  type EventId = s: string | |s| == ID_WIDTH witness seq(ID_WIDTH, _ => '0')

  datatype Envelope = Envelope(
    eventId: EventId, eventType: string, tenant: Tenant, occurredAt: int, payload: Dict, payloadDigest: Option<string>)

  datatype Row = Row(
    seqNo: nat, eventId: EventId, tenantId: string, eventType: string, occurredAt: int, payload: Dict,
    prevHash: string, hash: string)

  function Zeros(): string {
    seq(HASH_WIDTH, _ => '0')
  }

  // ------------------------------------------------------------------- queries

  datatype Query = ByTenant(tenantId: string) | ByType(ofTenant: string, eventType: string) | ByTypeAll(anyType: string)
  {
    predicate Matches(r: Row) {
      match this
      case ByTenant(t) => r.tenantId == t
      case ByType(t, e) => r.tenantId == t && r.eventType == e
      case ByTypeAll(e) => r.eventType == e
    }
  }

  /** The matching rows in the order of their sequence numbers. */
  function Select(rows: seq<Row>, q: Query): seq<Row> {
    if rows == [] then []
    else
      var last := rows[|rows| - 1];
      var found := Select(rows[..|rows| - 1], q);
      if q.Matches(last) then found + [last] else found
  }

  lemma {:induction false} SelectIs(rows: seq<Row>, q: Query, row: Row)
    ensures row in Select(rows, q) <==> row in rows && q.Matches(row)
  {
    if rows != [] {
      SelectIs(rows[..|rows| - 1], q, row);
      TakeLast(rows);
    }
  }

  /** Which rows the three queries ask for. */
  predicate Wanted(q: Query, row: Row) {
    match q
    case ByTenant(t) => row.tenantId == t
    case ByType(t, e) => row.tenantId == t && row.eventType == e
    case ByTypeAll(e) => row.eventType == e
  }

  /** They come in the order of the table, each once. */
  lemma {:induction false} SelectInOrder(rows: seq<Row>, q: Query) returns (places: seq<nat>)
    ensures |places| == |Select(rows, q)|
    ensures forall k | 0 <= k < |places| ::
      places[k] < |rows| && rows[places[k]] == Select(rows, q)[k] && Wanted(q, rows[places[k]])
    ensures forall k, l | 0 <= k < l < |places| :: places[k] < places[l]
    ensures forall i | 0 <= i < |rows| && Wanted(q, rows[i]) :: i in places
  {
    if rows == [] {
      places := [];
    } else {
      var n := |rows| - 1;
      var before := SelectInOrder(rows[..n], q);
      assert forall k | 0 <= k < |before| :: rows[before[k]] == rows[..n][before[k]];
      if q.Matches(rows[n]) {
        places := before + [n];
      } else {
        places := before;
      }
      PlacesCover(rows, q, before, places);
    }
  }

  lemma PlacesCover(rows: seq<Row>, q: Query, before: seq<nat>, places: seq<nat>)
    requires rows != [] && forall i | 0 <= i < |rows| - 1 && Wanted(q, rows[i]) :: i in before
    requires places == if q.Matches(rows[|rows| - 1]) then before + [|rows| - 1] else before
    ensures forall i | 0 <= i < |rows| && Wanted(q, rows[i]) :: i in places
  {
    if q.Matches(rows[|rows| - 1]) {
      assert places[|before|] == |rows| - 1;
    }
  }

  lemma SelectAppend(rows: seq<Row>, row: Row, q: Query)
    ensures Select(rows + [row], q) == if q.Matches(row) then Select(rows, q) + [row] else Select(rows, q)
  {
    assert (rows + [row])[..|rows|] == rows;
  }

  function Reversed(rows: seq<Row>): (r: seq<Row>)
    ensures |r| == |rows| && forall k | 0 <= k < |r| :: r[k] == rows[|rows| - 1 - k]
  {
    if rows == [] then [] else [rows[|rows| - 1]] + Reversed(rows[..|rows| - 1])
  }

  lemma ReversedCons(row: Row, rows: seq<Row>)
    ensures Reversed([row] + rows) == Reversed(rows) + [row]
  {
  }

  lemma ConsMoves(rows: seq<Row>, row: Row, rest: seq<Row>)
    ensures (rows + [row]) + rest == rows + ([row] + rest)
  {
  }

  /** How many rows `LIMIT limit` lets through; a negative limit is no limit. */
  function Limited(available: nat, limit: int): (n: nat)
    ensures n <= available
  {
    if 0 <= limit < available then limit else available
  }

  /** A tenant's last `limit` rows, newest first. */
  function Newest(rows: seq<Row>, tenantId: string, limit: int): (r: seq<Row>)
    ensures var all := Select(rows, ByTenant(tenantId));
      && |r| == Limited(|all|, limit)
      && forall k | 0 <= k < |r| :: r[k] == all[|all| - 1 - k]
  {
    var all := Select(rows, ByTenant(tenantId));
    Reversed(all[|all| - Limited(|all|, limit)..])
  }

  /** A row of one tenant changes no query about another. */
  lemma TenantIsolation(rows: seq<Row>, row: Row, tenantId: string, eventType: string, limit: int)
    requires row.tenantId != tenantId
    ensures Select(rows + [row], ByTenant(tenantId)) == Select(rows, ByTenant(tenantId))
    ensures Select(rows + [row], ByType(tenantId, eventType)) == Select(rows, ByType(tenantId, eventType))
    ensures Newest(rows + [row], tenantId, limit) == Newest(rows, tenantId, limit)
  {
    SelectAppend(rows, row, ByTenant(tenantId));
    SelectAppend(rows, row, ByType(tenantId, eventType));
  }

  // -------------------------------------------------------------------- chains

  function ChainMaterial(prevHash: string, eventId: EventId, eventType: string, payloadDigest: string): string {
    prevHash + "|" + eventId + "|" + eventType + "|" + payloadDigest
  }

  /** The last hash of a chain, or the hash that stands before the first row. */
  function Head(chain: seq<Row>): string {
    if chain == [] then Zeros() else chain[|chain| - 1].hash
  }

  /** What verification hashes for a row. */
  function RowMaterial(hash: Hash, row: Row): string {
    ChainMaterial(row.prevHash, row.eventId, row.eventType, DigestMapping(hash, row.payload))
  }

  /** Every row follows its predecessor and carries the hash of its contents. */
  predicate Verifies(hash: Hash, chain: seq<Row>) {
    chain == [] ||
    var init, last := chain[..|chain| - 1], chain[|chain| - 1];
      && Verifies(hash, init)
      && last.prevHash == Head(init)
      && last.hash == hash(RowMaterial(hash, last))
  }

  lemma VerifiesAppend(hash: Hash, chain: seq<Row>, row: Row)
    ensures Verifies(hash, chain + [row]) <==>
      && Verifies(hash, chain)
      && row.prevHash == Head(chain)
      && row.hash == hash(RowMaterial(hash, row))
  {
    assert (chain + [row])[..|chain|] == chain;
  }

  /** Every prefix of a valid chain is valid. */
  lemma {:induction false} PrefixVerifies(hash: Hash, chain: seq<Row>, n: nat)
    requires n <= |chain|
    ensures Verifies(hash, chain) ==> Verifies(hash, chain[..n])
  {
    if n < |chain| {
      PrefixVerifies(hash, chain[..|chain| - 1], n);
      assert chain[..|chain| - 1][..n] == chain[..n];
    } else {
      assert chain[..n] == chain;
    }
  }

  /** The row hangs on the hash, and hashes its four fields with separators between. */
  predicate HangsOn(hash: Hash, row: Row, prev: string) {
    && row.prevHash == prev
    && row.hash == hash(prev + "|" + row.eventId + "|" + row.eventType + "|" + hash(Canonical(Obj(row.payload))))
  }

  /** A chain verifies when each row hangs on its predecessor, the first on zeros. */
  lemma {:induction false} VerifiesIff(hash: Hash, chain: seq<Row>)
    ensures Verifies(hash, chain) <==>
      && (chain != [] ==> HangsOn(hash, chain[0], Zeros()))
      && forall i | 1 <= i < |chain| :: HangsOn(hash, chain[i], chain[i - 1].hash)
  {
    if chain != [] {
      var n := |chain| - 1;
      VerifiesIff(hash, chain[..n]);
      assert Verifies(hash, chain) <==> Verifies(hash, chain[..n]) && HangsOn(hash, chain[n], Head(chain[..n]));
      assert forall i | 0 <= i < n :: chain[..n][i] == chain[i];
    }
  }

  lemma ZerosAre()
    ensures |Zeros()| == 64 && forall i | 0 <= i < 64 :: Zeros()[i] == '0'
  {
  }

  // ----------------------------------------------------------- head commitment

  /** Everything a digest function of the right width hashes for these rows. */
  ghost function HashedTexts(hash: Hash, chain: seq<Row>): set<string> {
    (set row | row in chain :: RowMaterial(hash, row)) + (set row | row in chain :: Canonical(Obj(row.payload)))
  }

  ghost predicate Wide(hash: Hash) {
    forall s: string :: |hash(s)| == HASH_WIDTH
  }

  /** A digest function for these texts: fixed width, no collision among them, and
      none of them hashes to the zeros before the first row. */
  ghost predicate Trusted(hash: Hash, texts: set<string>) {
    && Wide(hash)
    && CollisionFree(hash, texts)
    && forall s | s in texts :: hash(s) != Zeros()
  }

  /** The four fields can be read back from the material: all but the event type
      have a fixed width, so a separator inside the type does no harm. */
  lemma MaterialSplits(p: string, i: EventId, t: string, d: string, p': string, i': EventId, t': string, d': string)
    requires |p| == |p'| && |d| == |d'|
    requires ChainMaterial(p, i, t, d) == ChainMaterial(p', i', t', d')
    ensures p == p' && i == i' && t == t' && d == d'
  {
    var m, m' := ChainMaterial(p, i, t, d), ChainMaterial(p', i', t', d');
    var a, b := |p| + 1 + ID_WIDTH, |m| - |d| - 1;
    assert |t| == |t'|;
    assert m[..|p|] == p && m'[..|p|] == p';
    assert m[|p| + 1..a] == i && m'[|p| + 1..a] == i';
    assert m[a + 1..b] == t && m'[a + 1..b] == t';
    assert m[b + 1..] == d && m'[b + 1..] == d';
  }

  /** The fields the chain commits to. */
  ghost predicate SameRow(a: Row, b: Row) {
    && a.eventId == b.eventId
    && a.eventType == b.eventType
    && Same(Obj(a.payload), Obj(b.payload))
    && a.prevHash == b.prevHash
    && a.hash == b.hash
  }

  ghost predicate SameRows(xs: seq<Row>, ys: seq<Row>) {
    |xs| == |ys| && forall i | 0 <= i < |xs| :: SameRow(xs[i], ys[i])
  }

  lemma LastRowCommits(hash: Hash, a: Row, b: Row, texts: set<string>)
    requires Trusted(hash, texts)
    requires {RowMaterial(hash, a), RowMaterial(hash, b), Canonical(Obj(a.payload)), Canonical(Obj(b.payload))} <= texts
    requires |a.prevHash| == |b.prevHash| == HASH_WIDTH
    requires a.hash == hash(RowMaterial(hash, a)) && b.hash == hash(RowMaterial(hash, b))
    requires a.hash == b.hash
    ensures SameRow(a, b)
  {
    assert RowMaterial(hash, a) in texts && RowMaterial(hash, b) in texts;
    MaterialSplits(a.prevHash, a.eventId, a.eventType, DigestMapping(hash, a.payload),
                   b.prevHash, b.eventId, b.eventType, DigestMapping(hash, b.payload));
    assert Canonical(Obj(a.payload)) in texts && Canonical(Obj(b.payload)) in texts;
    CanonicalIff(Obj(a.payload), Obj(b.payload));
  }

  /** Two valid chains that end in the same hash tell the same history, row by
      row: the head commits to the whole chain. */
  lemma {:induction false} HeadCommits(hash: Hash, xs: seq<Row>, ys: seq<Row>, texts: set<string>)
    requires Verifies(hash, xs) && Verifies(hash, ys)
    requires HashedTexts(hash, xs) <= texts && HashedTexts(hash, ys) <= texts && Trusted(hash, texts)
    requires Head(xs) == Head(ys)
    ensures SameRows(xs, ys)
    decreases |xs|
  {
    if xs == [] || ys == [] {
      Unending(hash, xs, texts);
      Unending(hash, ys, texts);
    } else {
      var xs', x, ys', y := xs[..|xs| - 1], xs[|xs| - 1], ys[..|ys| - 1], ys[|ys| - 1];
      LastLink(hash, xs);
      LastLink(hash, ys);
      LastRowCommits(hash, x, y, texts);
      HeadCommits(hash, xs', ys', texts);
      SameRowsAppend(xs', ys', x, y);
      TakeLast(xs);
      TakeLast(ys);
    }
  }

  lemma SameRowsAppend(xs: seq<Row>, ys: seq<Row>, x: Row, y: Row)
    requires SameRows(xs, ys) && SameRow(x, y)
    ensures SameRows(xs + [x], ys + [y])
  {
  }

  /** A valid chain taken apart at its end. */
  lemma LastLink(hash: Hash, chain: seq<Row>)
    requires Verifies(hash, chain) && Wide(hash) && chain != []
    ensures var init, last := chain[..|chain| - 1], chain[|chain| - 1];
      && Verifies(hash, init)
      && HashedTexts(hash, init) <= HashedTexts(hash, chain)
      && {RowMaterial(hash, last), Canonical(Obj(last.payload))} <= HashedTexts(hash, chain)
      && last.prevHash == Head(init)
      && |last.prevHash| == HASH_WIDTH
      && last.hash == hash(RowMaterial(hash, last))
  {
    var n := |chain| - 1;
    assert forall row | row in chain[..n] :: row in chain;
    assert chain[n] in chain;
  }

  /** Only the empty chain ends in zeros. */
  lemma Unending(hash: Hash, chain: seq<Row>, texts: set<string>)
    requires Verifies(hash, chain) && HashedTexts(hash, chain) <= texts && Trusted(hash, texts)
    ensures Head(chain) == Zeros() <==> chain == []
  {
    if chain != [] {
      assert chain[|chain| - 1] in chain;
    }
  }

  /** Verification reads the committed fields and nothing else: neither the time of
      a row nor its tenant nor its sequence number is protected. */
  lemma {:induction false} OnlyCommittedFields(hash: Hash, xs: seq<Row>, ys: seq<Row>)
    requires SameRows(xs, ys) && Verifies(hash, xs)
    ensures Verifies(hash, ys) && Head(ys) == Head(xs)
    decreases |xs|
  {
    if xs != [] {
      var n := |xs| - 1;
      OnlyCommittedFields(hash, xs[..n], ys[..n]);
      assert SameRow(xs[n], ys[n]);
      CanonicalIff(Obj(xs[n].payload), Obj(ys[n].payload));
    }
  }

  /** A rewritten history passes under the old head exactly when no committed field
      of any row differs. */
  lemma RewriteDetectedIff(hash: Hash, xs: seq<Row>, ys: seq<Row>, texts: set<string>)
    requires Verifies(hash, xs)
    requires HashedTexts(hash, xs) <= texts && HashedTexts(hash, ys) <= texts && Trusted(hash, texts)
    ensures Verifies(hash, ys) && Head(ys) == Head(xs) <==> SameRows(xs, ys)
  {
    if Verifies(hash, ys) && Head(ys) == Head(xs) {
      HeadCommits(hash, xs, ys, texts);
    }
    if SameRows(xs, ys) {
      OnlyCommittedFields(hash, xs, ys);
    }
  }

  /** Taking rows out of a valid chain before its last row breaks it. */
  lemma DeletionDetected(hash: Hash, chain: seq<Row>, from: nat, to: nat)
    requires Verifies(hash, chain) && from < to < |chain|
    requires Trusted(hash, HashedTexts(hash, chain))
    ensures !Verifies(hash, chain[..from] + chain[to..])
  {
    var shorter := chain[..from] + chain[to..];
    if Verifies(hash, shorter) {
      assert forall row | row in shorter :: row in chain;
      HeadCommits(hash, chain, shorter, HashedTexts(hash, chain));
    }
  }

  // ------------------------------------------------------------------- appends

  /** The digest an append hashes: the one the envelope brings, else the payload's. */
  function DigestUsed(hash: Hash, e: Envelope): string {
    if e.payloadDigest.Some? && e.payloadDigest.value != "" then e.payloadDigest.value else DigestMapping(hash, e.payload)
  }

  predicate Honest(hash: Hash, e: Envelope) {
    e.payloadDigest.None? || e.payloadDigest.value == "" || e.payloadDigest.value == DigestMapping(hash, e.payload)
  }

  function NewRow(hash: Hash, rows: seq<Row>, e: Envelope): Row {
    var prev := Head(Select(rows, ByTenant(e.tenant.tenantId)));
    Row(|rows| + 1, e.eventId, e.tenant.tenantId, e.eventType, e.occurredAt, e.payload, prev,
        hash(ChainMaterial(prev, e.eventId, e.eventType, DigestUsed(hash, e))))
  }

  predicate Taken(rows: seq<Row>, id: EventId) {
    exists i | 0 <= i < |rows| :: rows[i].eventId == id
  }

  /** The table after an append; the database refuses an event id it already has. */
  function Appended(hash: Hash, rows: seq<Row>, e: Envelope): seq<Row> {
    if Taken(rows, e.eventId) then rows else rows + [NewRow(hash, rows, e)]
  }

  /** The row of an accepted envelope, field by field. */
  lemma {:induction false} AppendedRow(hash: Hash, rows: seq<Row>, e: Envelope)
    requires forall i | 0 <= i < |rows| :: rows[i].eventId != e.eventId
    ensures var after := Appended(hash, rows, e);
      && |after| == |rows| + 1 && after[..|rows|] == rows
      && var row := after[|rows|];
         && row.seqNo == |rows| + 1 && row.eventId == e.eventId && row.tenantId == e.tenant.tenantId
         && row.eventType == e.eventType && row.occurredAt == e.occurredAt && row.payload == e.payload
         && ((forall i | 0 <= i < |rows| :: rows[i].tenantId != row.tenantId) ==> row.prevHash == Zeros())
         && (forall i | LastOf(rows, i, row.tenantId) :: row.prevHash == rows[i].hash)
         && row.hash == hash(row.prevHash + "|" + e.eventId + "|" + e.eventType + "|" +
              if e.payloadDigest == None || e.payloadDigest == Some("") then hash(Canonical(Obj(e.payload))) else e.payloadDigest.value)
  {
    var t := e.tenant.tenantId;
    if forall i | 0 <= i < |rows| :: rows[i].tenantId != t {
      NoneOfTenant(rows, t);
    }
    forall i | LastOf(rows, i, t)
      ensures Head(Select(rows, ByTenant(t))) == rows[i].hash
    {
      LastHeads(rows, i, t);
    }
  }

  lemma {:induction false} NoneOfTenant(rows: seq<Row>, tenantId: string)
    requires forall i | 0 <= i < |rows| :: rows[i].tenantId != tenantId
    ensures Select(rows, ByTenant(tenantId)) == []
  {
    if rows != [] {
      NoneOfTenant(rows[..|rows| - 1], tenantId);
    }
  }

  /** The row at `i` is the tenant's last. */
  ghost predicate LastOf(rows: seq<Row>, i: int, tenantId: string) {
    0 <= i < |rows| && rows[i].tenantId == tenantId && forall j | i < j < |rows| :: rows[j].tenantId != tenantId
  }

  lemma {:induction false} LastHeads(rows: seq<Row>, i: nat, tenantId: string)
    requires LastOf(rows, i, tenantId)
    ensures Head(Select(rows, ByTenant(tenantId))) == rows[i].hash
  {
    var n := |rows| - 1;
    if i < n {
      assert LastOf(rows[..n], i, tenantId);
      LastHeads(rows[..n], i, tenantId);
    }
  }

  function AppendedAll(hash: Hash, rows: seq<Row>, es: seq<Envelope>): seq<Row> {
    if es == [] then rows else Appended(hash, AppendedAll(hash, rows, es[..|es| - 1]), es[|es| - 1])
  }

  /** What the append hashes, and what verification will hash for the new row. */
  ghost function AppendTexts(hash: Hash, rows: seq<Row>, e: Envelope): set<string> {
    var prev := Head(Select(rows, ByTenant(e.tenant.tenantId)));
    { ChainMaterial(prev, e.eventId, e.eventType, DigestUsed(hash, e)),
      ChainMaterial(prev, e.eventId, e.eventType, DigestMapping(hash, e.payload)) }
  }

  lemma DigestShows(p: string, i: EventId, t: string, d: string, d': string)
    ensures ChainMaterial(p, i, t, d) == ChainMaterial(p, i, t, d') <==> d == d'
  {
    var start := p + "|" + i + "|" + t + "|";
    assert (start + d)[|start|..] == d && (start + d')[|start|..] == d';
  }

  lemma NewRowHonestIff(hash: Hash, rows: seq<Row>, e: Envelope)
    requires CollisionFree(hash, AppendTexts(hash, rows, e))
    ensures var row := NewRow(hash, rows, e); row.hash == hash(RowMaterial(hash, row)) <==> Honest(hash, e)
  {
    var row := NewRow(hash, rows, e);
    var used := ChainMaterial(row.prevHash, row.eventId, row.eventType, DigestUsed(hash, e));
    assert used in AppendTexts(hash, rows, e) && RowMaterial(hash, row) in AppendTexts(hash, rows, e);
    DigestShows(row.prevHash, row.eventId, row.eventType, DigestUsed(hash, e), DigestMapping(hash, e.payload));
  }

  /** An accepted append keeps every tenant's chain as it was, valid or not, but
      for one: a false digest breaks the chain of the envelope's own tenant. */
  lemma AppendVerifiesIff(hash: Hash, rows: seq<Row>, e: Envelope, tenantId: string)
    requires !Taken(rows, e.eventId) && CollisionFree(hash, AppendTexts(hash, rows, e))
    ensures Verifies(hash, Select(Appended(hash, rows, e), ByTenant(tenantId))) <==>
      && Verifies(hash, Select(rows, ByTenant(tenantId)))
      && (tenantId == e.tenant.tenantId ==> Honest(hash, e))
  {
    var row := NewRow(hash, rows, e);
    SelectAppend(rows, row, ByTenant(tenantId));
    if tenantId == e.tenant.tenantId {
      VerifiesAppend(hash, Select(rows, ByTenant(tenantId)), row);
      NewRowHonestIff(hash, rows, e);
    }
  }

  /** With an honest digest no assumption on the hash is needed. */
  lemma HonestKeepsChain(hash: Hash, rows: seq<Row>, e: Envelope, tenantId: string)
    requires Honest(hash, e) && Verifies(hash, Select(rows, ByTenant(tenantId)))
    ensures Verifies(hash, Select(Appended(hash, rows, e), ByTenant(tenantId)))
  {
    if !Taken(rows, e.eventId) {
      var row := NewRow(hash, rows, e);
      SelectAppend(rows, row, ByTenant(tenantId));
      HonestRow(hash, rows, e);
      if row.tenantId == tenantId {
        VerifiesAppend(hash, Select(rows, ByTenant(tenantId)), row);
      }
    }
  }

  lemma HonestRow(hash: Hash, rows: seq<Row>, e: Envelope)
    requires Honest(hash, e)
    ensures NewRow(hash, rows, e).hash == hash(RowMaterial(hash, NewRow(hash, rows, e)))
  {
    assert DigestUsed(hash, e) == DigestMapping(hash, e.payload);
  }

  predicate Accepted(es: seq<Envelope>, i: nat)
    requires i < |es|
  {
    forall j | 0 <= j < i :: es[j].eventId != es[i].eventId
  }

  lemma {:induction false} TakenIff(hash: Hash, es: seq<Envelope>, id: EventId)
    ensures Taken(AppendedAll(hash, [], es), id) <==> exists j | 0 <= j < |es| :: es[j].eventId == id
  {
    if es != [] {
      var n := |es| - 1;
      TakenIff(hash, es[..n], id);
      TakenIff(hash, es[..n], es[n].eventId);
      var rows := AppendedAll(hash, [], es[..n]);
      assert forall j | 0 <= j < n :: es[..n][j] == es[j];
      if !Taken(rows, es[n].eventId) {
        var after := rows + [NewRow(hash, rows, es[n])];
        assert after[|rows|].eventId == es[n].eventId;
        assert forall i | 0 <= i < |rows| :: after[i] == rows[i];
      }
    }
  }

  lemma TakenUnlessAccepted(hash: Hash, es: seq<Envelope>, n: nat)
    requires n < |es|
    ensures Taken(AppendedAll(hash, [], es[..n]), es[n].eventId) <==> !Accepted(es, n)
  {
    TakenIff(hash, es[..n], es[n].eventId);
    assert forall j | 0 <= j < n :: es[..n][j] == es[j];
  }

  predicate AllHonest(hash: Hash, es: seq<Envelope>, tenantId: string) {
    forall i | 0 <= i < |es| && Accepted(es, i) && es[i].tenant.tenantId == tenantId :: Honest(hash, es[i])
  }

  lemma AllHonestLast(hash: Hash, es: seq<Envelope>, tenantId: string)
    requires es != []
    ensures var n := |es| - 1;
      AllHonest(hash, es, tenantId) <==>
        AllHonest(hash, es[..n], tenantId) && (Accepted(es, n) && es[n].tenant.tenantId == tenantId ==> Honest(hash, es[n]))
  {
    var n := |es| - 1;
    forall i | 0 <= i < n
      ensures es[..n][i] == es[i] && Accepted(es[..n], i) == Accepted(es, i)
    {
    }
  }

  /** `texts` holds whatever these appends hash. */
  ghost predicate Covered(hash: Hash, es: seq<Envelope>, texts: set<string>) {
    forall i | 0 <= i < |es| :: AppendTexts(hash, AppendedAll(hash, [], es[..i]), es[i]) <= texts
  }

  lemma CoveredLast(hash: Hash, es: seq<Envelope>, texts: set<string>)
    requires es != [] && Covered(hash, es, texts)
    ensures var n := |es| - 1;
      Covered(hash, es[..n], texts) && AppendTexts(hash, AppendedAll(hash, [], es[..n]), es[n]) <= texts
  {
    assert forall i | 0 <= i < |es| - 1 :: es[..|es| - 1][..i] == es[..i];
  }

  /** After any appends for any tenants, interleaved in any way, a tenant's chain
      verifies exactly when none of its accepted envelopes brought a false digest. */
  lemma {:induction false} ChainsVerifyIff(hash: Hash, es: seq<Envelope>, tenantId: string, texts: set<string>)
    requires CollisionFree(hash, texts) && Covered(hash, es, texts)
    ensures Verifies(hash, Select(AppendedAll(hash, [], es), ByTenant(tenantId))) <==> AllHonest(hash, es, tenantId)
  {
    if es != [] {
      var n := |es| - 1;
      var init, rows, e := es[..n], AppendedAll(hash, [], es[..n]), es[n];
      CoveredLast(hash, es, texts);
      ChainsVerifyIff(hash, init, tenantId, texts);
      AllHonestLast(hash, es, tenantId);
      TakenUnlessAccepted(hash, es, n);
      if Accepted(es, n) {
        AppendVerifiesIff(hash, rows, e, tenantId);
      }
    }
  }

  // -------------------------------------------------------------------- object

  class EventLedger {
    const hash: Hash
    var rows: seq<Row>

    constructor (hash: Hash)
      ensures this.hash == hash && rows == []
    {
      this.hash, rows := hash, [];
    }

    /** The rows a query finds, oldest first. */
    method Find(q: Query) returns (found: seq<Row>)
      ensures found == Select(rows, q)
    {
      found := [];
      var n := 0;
      while n < |rows|
        invariant 0 <= n <= |rows|
        invariant found == Select(rows[..n], q)
      {
        SelectAppend(rows[..n], rows[n], q);
        TakeNext(rows, n);
        if q.Matches(rows[n]) {
          found := found + [rows[n]];
        }
        n := n + 1;
      }
      assert rows[..n] == rows;
    }

    /** `None` when the event id is taken. */
    method Append(e: Envelope) returns (record: Option<Row>)
      modifies this
      ensures record == if Taken(old(rows), e.eventId) then None else Some(NewRow(hash, old(rows), e))
      ensures rows == Appended(hash, old(rows), e)
    {
      var digest := DigestUsed(hash, e);
      var chain := Find(ByTenant(e.tenant.tenantId));
      var prev := Head(chain);
      if Taken(rows, e.eventId) {
        return None;
      }
      var row := Row(|rows| + 1, e.eventId, e.tenant.tenantId, e.eventType, e.occurredAt, e.payload, prev,
                     hash(ChainMaterial(prev, e.eventId, e.eventType, digest)));
      rows := rows + [row];
      return Some(row);
    }

    /** Scan from the newest row until the limit is reached. */
    method Tail(tenantId: string, limit: int) returns (found: seq<Row>)
      ensures found == Newest(rows, tenantId, limit)
    {
      found := [];
      var n := |rows|;
      ghost var rest: seq<Row> := [];
      assert rows[..n] == rows;
      while n > 0 && (limit < 0 || |found| < limit)
        invariant 0 <= n <= |rows|
        invariant Select(rows, ByTenant(tenantId)) == Select(rows[..n], ByTenant(tenantId)) + rest
        invariant found == Reversed(rest)
        invariant limit >= 0 ==> |found| <= limit
      {
        n := n - 1;
        SelectAppend(rows[..n], rows[n], ByTenant(tenantId));
        TakeNext(rows, n);
        if rows[n].tenantId == tenantId {
          found := found + [rows[n]];
          ReversedCons(rows[n], rest);
          ConsMoves(Select(rows[..n], ByTenant(tenantId)), rows[n], rest);
          rest := [rows[n]] + rest;
        }
      }
      assert rest == Select(rows, ByTenant(tenantId))[|Select(rows[..n], ByTenant(tenantId))|..];
    }

    method VerifyChain(tenantId: string) returns (ok: bool)
      ensures ok <==> Verifies(hash, Select(rows, ByTenant(tenantId)))
    {
      var chain := Find(ByTenant(tenantId));
      var prev := Zeros();
      var n := 0;
      while n < |chain|
        invariant 0 <= n <= |chain|
        invariant prev == Head(chain[..n])
        invariant Verifies(hash, chain[..n])
      {
        var row := chain[n];
        VerifiesAppend(hash, chain[..n], row);
        TakeNext(chain, n);
        PrefixVerifies(hash, chain, n + 1);
        var expected := hash(ChainMaterial(prev, row.eventId, row.eventType, DigestMapping(hash, row.payload)));
        if row.prevHash != prev || row.hash != expected {
          return false;
        }
        prev := row.hash;
        n := n + 1;
      }
      assert chain[..n] == chain;
      return true;
    }
  }
}
