/**
 Recorded market readings: nested observations of one provenance, a pool locator that binds the pair's
 canonical identifier, and the freshness every reader filters on.
 */
module MarketReadings {
  import opened Wrappers
  import opened Contracts
  import opened MarketIdentities

  datatype Availability = AVAILABLE | NOT_KNOWN | UNAVAILABLE

  datatype Observation = Observation(
    id: Id,
    observedAt: Instant,
    provider: string,
    chain: string,
    network: string,
    assetId: string,
    correlationId: Id,
    isFixture: bool
  )

  datatype Measurement = Measurement(seen: Observation, status: Availability, valueUsd: Option<real>)

  datatype RoutedLocator = RoutedLocator(identity: PoolLocator, managerAddress: Option<string>)

  datatype MarketPair = MarketPair(
    seen: Observation,
    pairId: string,
    base: Observation,
    quote: Observation,
    venue: string,
    poolLocator: Option<RoutedLocator>
  )

  datatype Reading = Reading(
    seen: Observation,
    schemaVersion: nat,
    pair: MarketPair,
    price: Measurement,
    liquidity: Measurement,
    volume: Measurement,
    quotePrice: Option<Measurement>
  )

  // ---------------------------------------------------------------------------------- pool locators

  function Prefix(chain: string, network: string): string {
    chain + ":" + network + ":"
  }

  const CONTRACT_TAG: string := "contract_address:"
  const POOL_TAG: string := "bytes32_pool_id:"

  function CanonicalPairId(locator: PoolLocator, chain: string, network: string): string {
    match locator.kind
    case CONTRACT_ADDRESS => Prefix(chain, network) + (CONTRACT_TAG + locator.value)
    case BYTES32_POOL_ID => Prefix(chain, network) + (POOL_TAG + (locator.venue + (":" + locator.value)))
  }

  predicate HexDigit(c: char) {
    '0' <= c <= '9' || 'a' <= c <= 'f'
  }

  /** `0x` and 40 or 64 lower-case hex digits, not all of them zero. */
  predicate ValidLocator(locator: PoolLocator) {
    var length := if locator.kind == CONTRACT_ADDRESS then 42 else 66;
    && |locator.value| == length && locator.value[..2] == "0x"
    && (forall c :: c in locator.value[2..] ==> HexDigit(c))
    && (exists c :: c in locator.value[2..] && c != '0')
  }

  // ----------------------------------------------------------------------------------- consistency

  predicate Qualified(observation: Observation) {
    Prefix(observation.chain, observation.network) < observation.assetId
  }

  predicate SameProvenance(parent: Observation, child: Observation, sameAsset: bool) {
    && parent.provider == child.provider && parent.chain == child.chain && parent.network == child.network
    && parent.correlationId == child.correlationId && parent.isFixture == child.isFixture
    && (sameAsset ==> parent.assetId == child.assetId)
    && child.observedAt <= parent.observedAt
  }

  predicate ValidMeasurement(measurement: Measurement) {
    Qualified(measurement.seen) && (measurement.status == AVAILABLE <==> measurement.valueUsd.Some?)
  }

  predicate ValidPrice(price: Measurement) {
    ValidMeasurement(price) && (price.valueUsd.Some? ==> price.valueUsd.value > 0.0)
  }

  predicate ValidPair(pair: MarketPair) {
    && Qualified(pair.seen) && Qualified(pair.base) && Qualified(pair.quote)
    && Prefix(pair.seen.chain, pair.seen.network) < pair.pairId
    && pair.seen.assetId == pair.base.assetId && pair.base.assetId != pair.quote.assetId
    && (pair.poolLocator.Some? ==>
          && ValidLocator(pair.poolLocator.value.identity)
          && pair.poolLocator.value.identity.venue == pair.venue
          && CanonicalPairId(pair.poolLocator.value.identity, pair.seen.chain, pair.seen.network) == pair.pairId)
    && SameProvenance(pair.seen, pair.base, false) && SameProvenance(pair.seen, pair.quote, false)
  }

  predicate ValidReading(reading: Reading) {
    && Qualified(reading.seen) && ValidPair(reading.pair) && ValidPrice(reading.price)
    && ValidMeasurement(reading.liquidity) && ValidMeasurement(reading.volume)
    && 1 <= reading.schemaVersion <= 3
    && (reading.schemaVersion >= 2 ==> reading.pair.poolLocator.Some?)
    && SameProvenance(reading.seen, reading.pair.seen, true) && SameProvenance(reading.seen, reading.price.seen, true)
    && SameProvenance(reading.seen, reading.liquidity.seen, true) && SameProvenance(reading.seen, reading.volume.seen, true)
    && (reading.schemaVersion < 3 ==> reading.quotePrice.None?)
    && (reading.schemaVersion == 3 ==>
          && reading.quotePrice.Some? && ValidPrice(reading.quotePrice.value)
          && SameProvenance(reading.seen, reading.quotePrice.value.seen, false)
          && reading.quotePrice.value.seen.assetId == reading.pair.quote.assetId)
  }

  function IdentityOf(pair: MarketPair): MarketIdentity {
    MarketIdentity(pair.seen.provider, pair.seen.chain, pair.seen.network, pair.pairId, pair.base.assetId,
                   pair.quote.assetId, pair.venue,
                   match pair.poolLocator case Some(located) => Some(located.identity) case None => None,
                   pair.seen.isFixture)
  }

  // -------------------------------------------------------------------------------------- freshness

  function Least(a: int, b: int): int {
    if a <= b then a else b
  }

  /** The oldest of the snapshot, its price, its liquidity and its volume; never the quote price. */
  function FreshnessAt(reading: Reading): Instant {
    Least(Least(reading.seen.observedAt, reading.price.seen.observedAt),
          Least(reading.liquidity.seen.observedAt, reading.volume.seen.observedAt))
  }

  predicate Available(reading: Reading) {
    reading.price.status == AVAILABLE && reading.liquidity.status == AVAILABLE
  }

  predicate IsFresh(observation: Observation, now: Instant, maxAge: nat) {
    0 <= now - observation.observedAt <= maxAge
  }

  predicate IsValidAt(reading: Reading, now: Instant, maxAge: nat) {
    && Available(reading)
    && IsFresh(reading.seen, now, maxAge) && IsFresh(reading.price.seen, now, maxAge)
    && IsFresh(reading.liquidity.seen, now, maxAge) && IsFresh(reading.volume.seen, now, maxAge)
  }

  /** A chain or network name, free of the separator. */
  predicate Namespace(name: string) {
    ':' !in name
  }

  function UpToColon(s: string): string {
    if s == [] || s[0] == ':' then [] else [s[0]] + UpToColon(s[1..])
  }

  lemma {:induction false} NameIsUpToColon(name: string, rest: string)
    requires Namespace(name)
    ensures UpToColon(name + (":" + rest)) == name
  {
    if name != [] {
      NameIsUpToColon(name[1..], rest);
      assert (name + (":" + rest))[1..] == name[1..] + (":" + rest);
    }
  }

  lemma ColonSplits(a: string, b: string, x: string, y: string)
    requires Namespace(a) && Namespace(b) && a + (":" + x) == b + (":" + y)
    ensures a == b && x == y
  {
    hide UpToColon, Namespace;
    NameIsUpToColon(a, x);
    NameIsUpToColon(b, y);
    assert x == (a + (":" + x))[|a| + 1..];
    assert y == (b + (":" + y))[|b| + 1..];
  }

  function PoolPart(locator: PoolLocator): string {
    match locator.kind
    case CONTRACT_ADDRESS => CONTRACT_TAG + locator.value
    case BYTES32_POOL_ID => POOL_TAG + (locator.venue + (":" + locator.value))
  }

  lemma PairIdParts(locator: PoolLocator, chain: string, network: string)
    ensures CanonicalPairId(locator, chain, network) == chain + (":" + (network + (":" + PoolPart(locator))))
  {
    var part := PoolPart(locator);
    assert chain + ":" + network + ":" + part == chain + (":" + (network + (":" + part)));
  }

  lemma PrefixesAgree(a: PoolLocator, b: PoolLocator, chain: string, network: string, chain': string, network': string)
    requires Namespace(chain) && Namespace(network) && Namespace(chain') && Namespace(network')
    requires CanonicalPairId(a, chain, network) == CanonicalPairId(b, chain', network')
    ensures chain == chain' && network == network'
  {
    hide CanonicalPairId, PoolPart, Namespace;
    PairIdParts(a, chain, network);
    PairIdParts(b, chain', network');
    ColonSplits(chain, chain', network + (":" + PoolPart(a)), network' + (":" + PoolPart(b)));
    ColonSplits(network, network', PoolPart(a), PoolPart(b));
  }

  /**
   A canonical pair identifier names one pool: two valid locators, on whatever chains and networks, share it
   only on the same chain and network, of the same kind and value, and for a pool id of the same venue too.
   */
  lemma PairIdNamesOnePool(a: PoolLocator, b: PoolLocator, chain: string, network: string, chain': string, network': string)
    requires ValidLocator(a) && ValidLocator(b)
    requires Namespace(chain) && Namespace(network) && Namespace(chain') && Namespace(network')
    requires CanonicalPairId(a, chain, network) == CanonicalPairId(b, chain', network')
    ensures chain == chain' && network == network'
    ensures a.kind == b.kind && a.value == b.value
    ensures a.kind == BYTES32_POOL_ID ==> a.venue == b.venue
  {
    hide ValidLocator, Namespace;
    PrefixesAgree(a, b, chain, network, chain', network');
    LocatorLength(a);
    LocatorLength(b);
    KindShows(a, chain, network);
    KindShows(b, chain, network);
    var prefix := Prefix(chain, network);
    hide Prefix;
    var tailA, tailB := CanonicalPairId(a, chain, network)[|prefix|..], CanonicalPairId(b, chain, network)[|prefix|..];
    if a.kind == CONTRACT_ADDRESS {
      assert tailA == CONTRACT_TAG + a.value && tailB == CONTRACT_TAG + b.value;
      assert a.value == tailA[|CONTRACT_TAG|..] == b.value;
    } else {
      assert tailA == POOL_TAG + (a.venue + (":" + a.value)) && tailB == POOL_TAG + (b.venue + (":" + b.value));
      var restA, restB := tailA[|POOL_TAG|..], tailB[|POOL_TAG|..];
      assert restA == a.venue + (":" + a.value) && restB == b.venue + (":" + b.value);
      assert a.value == restA[|restA| - 66..] == b.value;
      assert a.venue == restA[..|restA| - 67] == b.venue;
    }
  }

  lemma KindShows(locator: PoolLocator, chain: string, network: string)
    ensures |Prefix(chain, network)| < |CanonicalPairId(locator, chain, network)|
    ensures CanonicalPairId(locator, chain, network)[|Prefix(chain, network)|]
            == if locator.kind == CONTRACT_ADDRESS then 'c' else 'b'
  {
    hide Prefix;
    assert CONTRACT_TAG[0] == 'c' && POOL_TAG[0] == 'b';
  }

  lemma LocatorLength(locator: PoolLocator)
    requires ValidLocator(locator)
    ensures |locator.value| == if locator.kind == CONTRACT_ADDRESS then 42 else 66
  {
  }

  /** For a valid reading the stored freshness column says exactly what the payload says. */
  lemma FreshnessColumn(reading: Reading, now: Instant, maxAge: nat)
    requires ValidReading(reading)
    ensures Available(reading) && reading.seen.observedAt <= now && FreshnessAt(reading) >= now - maxAge
            <==> IsValidAt(reading, now, maxAge)
  {
    hide Qualified, ValidPair, ValidPrice, ValidMeasurement;
  }
}

/** Which recorded market a reading must come from. */
module MarketScopes {
  import opened Wrappers
  import opened Contracts
  import opened MarketIdentities
  import opened MarketReadings

  datatype MarketScope = MarketScope(
    pairId: string,
    provider: Option<string>,
    chain: Option<string>,
    network: Option<string>,
    baseAssetId: Option<string>,
    identity: Option<MarketIdentity>
  )

  function ScopeOf(identity: MarketIdentity): MarketScope {
    MarketScope(identity.pairId, Some(identity.provider), Some(identity.chain), Some(identity.network),
                Some(identity.baseAssetId), Some(identity))
  }

  /** The scope of what a position recorded about the market it was bought in; nothing if it recorded none. */
  function HeldScope(position: Position): Option<MarketScope> {
    if position.marketPairId.None? then None
    else
      Some(MarketScope(position.marketPairId.value, position.marketProvider, position.marketChain,
                       position.marketNetwork, Some(position.assetId), None))
  }

  /** A reading that adds a locator to a market recorded without one completes it. */
  predicate DescribesMarket(observed: MarketIdentity, expected: MarketIdentity) {
    observed == expected || (expected.poolLocator.None? && expected == observed.(poolLocator := None))
  }

  predicate Agrees(recorded: string, named: Option<string>) {
    named.Some? ==> recorded == named.value
  }

  predicate MatchesIdentity(scope: MarketScope, identity: MarketIdentity) {
    && identity.pairId == scope.pairId
    && Agrees(identity.provider, scope.provider) && Agrees(identity.chain, scope.chain)
    && Agrees(identity.network, scope.network) && Agrees(identity.baseAssetId, scope.baseAssetId)
    && (scope.identity.Some? ==> DescribesMarket(identity, scope.identity.value))
  }

  predicate Matches(scope: MarketScope, reading: Reading) {
    MatchesIdentity(scope, IdentityOf(reading.pair))
  }
}

/** The append-only table of recorded readings, and its recorder. */
module MarketRecorders {
  import opened Wrappers
  import opened Contracts
  import opened MarketReadings

  datatype Row = Row(
    id: Id,
    schemaVersion: nat,
    provider: string,
    chain: string,
    network: string,
    assetId: string,
    pairId: string,
    observedAt: Instant,
    recordedAt: Instant,
    freshnessAt: Instant,
    available: bool,
    isFixture: bool,
    payload: Reading
  )

  datatype RecordError = INVALID_READING | CONFLICTING_EVENT

  datatype RecordedObservation = RecordedObservation(observation: Reading, inserted: bool)

  function RowOf(reading: Reading, now: Instant): Row {
    Row(reading.seen.id, reading.schemaVersion, reading.seen.provider, reading.seen.chain, reading.seen.network,
        reading.seen.assetId, reading.pair.pairId, reading.seen.observedAt, now, FreshnessAt(reading),
        Available(reading), reading.seen.isFixture, reading)
  }

  /** Every row is what its own payload says, the recording instant aside, and identifiers are unique. */
  predicate Faithful(rows: seq<Row>) {
    && (forall r :: r in rows ==> ValidReading(r.payload) && r == RowOf(r.payload, r.recordedAt))
    && (forall i, j :: 0 <= i < j < |rows| ==> rows[i].id != rows[j].id)
  }

  function Stored(rows: seq<Row>, id: Id): Option<Row> {
    if rows == [] then None
    else if rows[|rows| - 1].id == id then Some(rows[|rows| - 1])
    else Stored(rows[..|rows| - 1], id)
  }

  /** What recording a reading does: insert if the event is new, then insist on its content. */
  function Recorded(rows: seq<Row>, reading: Reading, now: Instant): (seq<Row>, Result<RecordedObservation, RecordError>) {
    if !ValidReading(reading) then (rows, Failure(INVALID_READING))
    else
      match Stored(rows, reading.seen.id)
      case None => (rows + [RowOf(reading, now)], Success(RecordedObservation(reading, true)))
      case Some(row) =>
        if row.payload != reading then (rows, Failure(CONFLICTING_EVENT))
        else (rows, Success(RecordedObservation(reading, false)))
  }

  class MarketRecorder {
    var rows: seq<Row>

    constructor (rows: seq<Row>)
      ensures this.rows == rows
    {
      this.rows := rows;
    }

    method InsertIfAbsent(row: Row) returns (written: bool)
      modifies this
      ensures written <==> Stored(old(rows), row.id).None?
      ensures rows == if written then old(rows) + [row] else old(rows)
    {
      written := Stored(rows, row.id).None?;
      if written { rows := rows + [row]; }
    }

    method RecordReporting(reading: Reading, now: Instant) returns (recorded: Result<RecordedObservation, RecordError>)
      modifies this
      ensures (rows, recorded) == Recorded(old(rows), reading, now)
    {
      if !ValidReading(reading) { return Failure(INVALID_READING); }
      var before := rows;
      var written := InsertIfAbsent(RowOf(reading, now));
      var row := Stored(rows, reading.seen.id);
      if row.None? || row.value.payload != reading {
        rows := before;
        return Failure(CONFLICTING_EVENT);
      }
      recorded := Success(RecordedObservation(reading, written));
    }
  }

  lemma {:induction false} StoredExactly(rows: seq<Row>, id: Id)
    ensures Stored(rows, id).None? <==> forall r :: r in rows ==> r.id != id
    ensures Stored(rows, id).Some? ==> Stored(rows, id).value in rows && Stored(rows, id).value.id == id
  {
    if rows != [] {
      StoredExactly(rows[..|rows| - 1], id);
      assert rows == rows[..|rows| - 1] + [rows[|rows| - 1]];
    }
  }

  /**
   Recording is append-only and idempotent: the table keeps being what its payloads say, no stored row ever
   changes, and a recorded reading recorded again, whenever, changes nothing and reports no write.
   */
  lemma RecordingKeeps(rows: seq<Row>, reading: Reading, now: Instant, again: Instant)
    requires Faithful(rows)
    ensures var (after, outcome) := Recorded(rows, reading, now);
            && Faithful(after) && rows <= after
            && (outcome.Success? ==>
                  && (exists r :: r in after && r.payload == reading)
                  && (outcome.value.inserted <==> forall r :: r in rows ==> r.payload != reading)
                  && Recorded(after, reading, again) == (after, Success(RecordedObservation(reading, false))))
            && (outcome.Failure? ==> after == rows)
  {
    hide ValidReading, FreshnessAt, Available;
    StoredExactly(rows, reading.seen.id);
    var (after, outcome) := Recorded(rows, reading, now);
    StoredExactly(after, reading.seen.id);
    if outcome.Success? && outcome.value.inserted {
      var row := RowOf(reading, now);
      assert after[|after| - 1] == row && row in after;
    }
  }
}

/**
 The read-only recorded view: the newest event of each stream decides, chosen before anything is filtered
 on, and an unusable newest event is never replaced by an older one.
 */
module MarketReaders {
  import opened Wrappers
  import opened Contracts
  import opened MarketIdentities
  import opened MarketReadings
  import opened MarketScopes
  import opened MarketRecorders

  /** The order rows are ranked in: observation time, then recording time, then identifier. */
  predicate Newer(a: Row, b: Row) {
    || a.observedAt > b.observedAt
    || (a.observedAt == b.observedAt && a.recordedAt > b.recordedAt)
    || (a.observedAt == b.observedAt && a.recordedAt == b.recordedAt && a.id > b.id)
  }

  function Placed(rows: seq<Row>, row: Row): seq<Row> {
    if rows == [] || !Newer(row, rows[|rows| - 1]) then rows + [row]
    else Placed(rows[..|rows| - 1], row) + [rows[|rows| - 1]]
  }

  /** `ORDER BY observed_at DESC, recorded_at DESC, id DESC`. */
  function NewestFirst(rows: seq<Row>): seq<Row> {
    if rows == [] then [] else Placed(NewestFirst(rows[..|rows| - 1]), rows[|rows| - 1])
  }

  predicate Descending(rows: seq<Row>) {
    forall i, j :: 0 <= i < j < |rows| ==> !Newer(rows[j], rows[i])
  }

  lemma {:induction false} PlacedOrder(rows: seq<Row>, row: Row)
    requires Descending(rows)
    ensures Descending(Placed(rows, row))
    ensures multiset(Placed(rows, row)) == multiset(rows) + multiset{row}
  {
    if rows != [] {
      var rest, last := rows[..|rows| - 1], rows[|rows| - 1];
      assert rows == rest + [last];
      if Newer(row, last) {
        PlacedOrder(rest, row);
        var placed := Placed(rest, row);
        forall i | 0 <= i < |placed| ensures !Newer(last, placed[i]) {
          assert placed[i] in multiset(placed);
          assert placed[i] == row || placed[i] in rest;
        }
      }
    }
  }

  lemma {:induction false} NewestFirstSorted(rows: seq<Row>)
    ensures Descending(NewestFirst(rows)) && multiset(NewestFirst(rows)) == multiset(rows)
  {
    hide Placed, Newer;
    if rows != [] {
      var rest, last := rows[..|rows| - 1], rows[|rows| - 1];
      NewestFirstSorted(rest);
      PlacedOrder(NewestFirst(rest), last);
      assert rows == rest + [last];
    }
  }

  lemma NewestFirstOrder(rows: seq<Row>)
    ensures Descending(NewestFirst(rows))
    ensures forall r :: r in NewestFirst(rows) <==> r in rows
  {
    hide NewestFirst, Descending;
    NewestFirstSorted(rows);
    forall r ensures r in NewestFirst(rows) <==> r in rows {
      assert r in NewestFirst(rows) <==> r in multiset(NewestFirst(rows));
      assert r in rows <==> r in multiset(rows);
    }
  }

  function Where(rows: seq<Row>, keep: Row -> bool): seq<Row> {
    if rows == [] then []
    else
      Where(rows[..|rows| - 1], keep) + if keep(rows[|rows| - 1]) then [rows[|rows| - 1]] else []
  }

  lemma {:induction false} WhereExactly(rows: seq<Row>, keep: Row -> bool)
    ensures forall r :: r in Where(rows, keep) <==> r in rows && keep(r)
    ensures Descending(rows) ==> Descending(Where(rows, keep))
  {
    if rows != [] {
      var rest, last := rows[..|rows| - 1], rows[|rows| - 1];
      WhereExactly(rest, keep);
      assert rows == rest + [last];
      if Descending(rows) && keep(last) {
        var kept := Where(rest, keep);
        forall i | 0 <= i < |kept| ensures !Newer(last, kept[i]) {
          assert kept[i] in kept;
          var k :| 0 <= k < |rest| && rest[k] == kept[i];
          assert !Newer(rows[|rest|], rows[k]);
        }
      }
    }
  }

  // ------------------------------------------------------------------------------- the scoped read

  /** The columns and payload fields a scope constrains before anything is ranked. */
  predicate Known(scope: MarketScope, row: Row) {
    && row.pairId == scope.pairId
    && Agrees(row.provider, scope.provider) && Agrees(row.chain, scope.chain)
    && Agrees(row.network, scope.network) && Agrees(row.assetId, scope.baseAssetId)
    && (scope.identity.Some? ==>
          var identity := scope.identity.value;
          && row.payload.pair.quote.assetId == identity.quoteAssetId
          && row.payload.pair.venue == identity.venue
          && row.isFixture == identity.isFixture
          && (identity.poolLocator.Some? ==>
                && row.payload.pair.poolLocator.Some?
                && row.payload.pair.poolLocator.value.identity.value == identity.poolLocator.value.value
                && row.payload.pair.poolLocator.value.identity.kind == identity.poolLocator.value.kind))
  }

  /** The partition a row is ranked in. */
  predicate SameStream(a: Row, b: Row) {
    && a.provider == b.provider && a.pairId == b.pairId && a.isFixture == b.isFixture
    && a.chain == b.chain && a.network == b.network && a.assetId == b.assetId
    && a.payload.pair.quote.assetId == b.payload.pair.quote.assetId && a.payload.pair.venue == b.payload.pair.venue
  }

  /** `row_number() = 1` among the rows the scope knows, within the row's own partition. */
  predicate Ranked(rows: seq<Row>, scope: MarketScope, row: Row) {
    Known(scope, row) && forall other :: other in rows && Known(scope, other) && SameStream(other, row) ==> !Newer(other, row)
  }

  predicate UsableColumns(row: Row, now: Instant, maxAge: nat, fixtures: bool) {
    row.available && row.observedAt <= now && row.freshnessAt >= now - maxAge && (fixtures || !row.isFixture)
  }

  /** The current readings of a scope, newest first, checked against the payload as well. */
  function Current(rows: seq<Row>, scope: MarketScope, now: Instant, checkedAt: Instant, maxAge: nat, fixtures: bool): seq<Row> {
    var selected := Where(rows, (row: Row) => Ranked(rows, scope, row) && UsableColumns(row, now, maxAge, fixtures));
    Where(NewestFirst(selected), (row: Row) => IsValidAt(row.payload, checkedAt, maxAge) && Matches(scope, row.payload))
  }

  function Unlocated(row: Row): MarketIdentity {
    IdentityOf(row.payload.pair).(poolLocator := None)
  }

  function LatestIn(rows: seq<Row>, scope: MarketScope, now: Instant, checkedAt: Instant, maxAge: nat, fixtures: bool): Option<Reading> {
    var current := Current(rows, scope, now, checkedAt, maxAge, fixtures);
    if current == [] then None
    else if scope.identity.None? && exists r :: r in current && Unlocated(r) != Unlocated(current[0]) then None
    else Some(current[0].payload)
  }

  // --------------------------------------------------------------------- newest of this market decides

  /** The event that answers for a market: of it, and with no newer event of it on record. */
  predicate NewestOf(rows: seq<Row>, scope: MarketScope, row: Row) {
    row in rows && Matches(scope, row.payload) && forall other :: other in rows && Matches(scope, other.payload) ==> !Newer(other, row)
  }

  /**
   A full identity whose locator, if any, is at its own venue, as every recorded pair's is.  Nothing enforces it
   on an identity; one without it matches no recorded reading at all.
   */
  predicate LocatedAtVenue(identity: MarketIdentity) {
    identity.poolLocator.Some? ==> identity.poolLocator.value.venue == identity.venue
  }

  lemma ColumnsMatchPayload(row: Row)
    requires ValidReading(row.payload) && row == RowOf(row.payload, row.recordedAt)
    ensures var identity := IdentityOf(row.payload.pair);
            && row.provider == identity.provider && row.chain == identity.chain && row.network == identity.network
            && row.assetId == identity.baseAssetId && row.pairId == identity.pairId && row.isFixture == identity.isFixture
            && (row.payload.pair.poolLocator.Some? ==> row.payload.pair.poolLocator.value.identity.venue == identity.venue)
  {
    hide Qualified, ValidPrice, ValidMeasurement, FreshnessAt, Available, ValidLocator;
  }

  /**
   For a full identity the query's own conditions select exactly the readings of that market, as long as its
   locator is at its own venue: the locator's venue is the one thing the query does not look at.
   */
  lemma FilterIsMatching(row: Row, identity: MarketIdentity)
    requires ValidReading(row.payload) && row == RowOf(row.payload, row.recordedAt)
    ensures Matches(ScopeOf(identity), row.payload) <==> Known(ScopeOf(identity), row) && LocatedAtVenue(identity)
  {
    hide ValidReading, RowOf;
    ColumnsMatchPayload(row);
    LocatorsEqual(row.payload.pair, identity);
  }

  lemma LocatorsEqual(pair: MarketPair, identity: MarketIdentity)
    requires pair.poolLocator.Some? ==> pair.poolLocator.value.identity.venue == pair.venue
    ensures identity.poolLocator.Some? && pair.venue == identity.venue ==>
              (IdentityOf(pair).poolLocator == identity.poolLocator
               <==> && pair.poolLocator.Some? && LocatedAtVenue(identity)
                    && pair.poolLocator.value.identity.value == identity.poolLocator.value.value
                    && pair.poolLocator.value.identity.kind == identity.poolLocator.value.kind)
  {
  }

  /** Two readings of one fully named market are in one stream. */
  lemma OneStream(a: Row, b: Row, identity: MarketIdentity)
    requires ValidReading(a.payload) && a == RowOf(a.payload, a.recordedAt)
    requires ValidReading(b.payload) && b == RowOf(b.payload, b.recordedAt)
    requires Matches(ScopeOf(identity), a.payload) && Matches(ScopeOf(identity), b.payload)
    ensures SameStream(a, b)
  {
    hide ValidReading, RowOf;
    ColumnsMatchPayload(a);
    ColumnsMatchPayload(b);
  }

  lemma RankedIsNewest(rows: seq<Row>, identity: MarketIdentity, row: Row)
    requires Faithful(rows) && row in rows
    ensures Ranked(rows, ScopeOf(identity), row) && LocatedAtVenue(identity) <==> NewestOf(rows, ScopeOf(identity), row)
  {
    hide Known, Matches, SameStream, Newer, ValidReading, RowOf;
    var scope := ScopeOf(identity);
    FilterIsMatching(row, identity);
    forall other | other in rows
      ensures Matches(scope, other.payload) <==> Known(scope, other) && LocatedAtVenue(identity)
    {
      FilterIsMatching(other, identity);
    }
    if Matches(scope, row.payload) {
      forall other | other in rows && Matches(scope, other.payload) ensures SameStream(other, row) {
        OneStream(other, row, identity);
      }
    }
  }

  /**
   A scoped read refines "the newest event of this market decides": it answers with a reading exactly when
   that reading is the payload of the market's newest recorded event, is valid at both clock readings, and
   is no fixture unless asked for.
   */
  lemma ScopedReadExactly(rows: seq<Row>, identity: MarketIdentity, now: Instant, checkedAt: Instant, maxAge: nat,
                          fixtures: bool, reading: Reading)
    requires Faithful(rows)
    ensures LatestIn(rows, ScopeOf(identity), now, checkedAt, maxAge, fixtures) == Some(reading)
            <==> exists row :: && NewestOf(rows, ScopeOf(identity), row) && row.payload == reading
                               && IsValidAt(reading, now, maxAge) && IsValidAt(reading, checkedAt, maxAge)
                               && (fixtures || !identity.isFixture)
  {
    hide NewestOf, Ranked, IsValidAt, Matches, ValidReading, UsableColumns, RowOf;
    var scope := ScopeOf(identity);
    var current := Current(rows, scope, now, checkedAt, maxAge, fixtures);
    CurrentExactly(rows, scope, now, checkedAt, maxAge, fixtures);
    forall row | row in rows
      ensures row in current
              <==> && NewestOf(rows, scope, row) && IsValidAt(row.payload, now, maxAge)
                   && IsValidAt(row.payload, checkedAt, maxAge) && (fixtures || !identity.isFixture)
    {
      RankedIsNewest(rows, identity, row);
      if Matches(scope, row.payload) { FilterIsMatching(row, identity); }
      UsableIsValid(row, identity, now, maxAge, fixtures);
      if NewestOf(rows, scope, row) { assert Matches(scope, row.payload) by { NewestMatches(rows, scope, row); } }
    }
    if current != [] {
      assert current[0] in current;
      forall row | row in current ensures row == current[0] {
        OnlyNewest(rows, identity, row, current[0]);
      }
    }
    forall row | NewestOf(rows, scope, row) ensures row in rows {
      NewestMatches(rows, scope, row);
    }
  }

  lemma NewestMatches(rows: seq<Row>, scope: MarketScope, row: Row)
    requires NewestOf(rows, scope, row)
    ensures row in rows && Matches(scope, row.payload)
  {
  }

  lemma UsableIsValid(row: Row, identity: MarketIdentity, now: Instant, maxAge: nat, fixtures: bool)
    requires ValidReading(row.payload) && row == RowOf(row.payload, row.recordedAt)
    ensures Matches(ScopeOf(identity), row.payload) ==>
              (UsableColumns(row, now, maxAge, fixtures)
               <==> IsValidAt(row.payload, now, maxAge) && (fixtures || !identity.isFixture))
  {
    hide ValidReading, IsValidAt, FreshnessAt, Available;
    ColumnsMatchPayload(row);
    FreshnessColumn(row.payload, now, maxAge);
  }

  lemma OnlyNewest(rows: seq<Row>, identity: MarketIdentity, a: Row, b: Row)
    requires Faithful(rows)
    requires NewestOf(rows, ScopeOf(identity), a) && NewestOf(rows, ScopeOf(identity), b)
    ensures a == b
  {
    hide ValidReading, RowOf, Matches;
    assert a.id == b.id;
  }

  lemma CurrentExactly(rows: seq<Row>, scope: MarketScope, now: Instant, checkedAt: Instant, maxAge: nat, fixtures: bool)
    ensures var current := Current(rows, scope, now, checkedAt, maxAge, fixtures);
            && Descending(current)
            && forall row :: row in current
                             <==> && row in rows && Ranked(rows, scope, row) && UsableColumns(row, now, maxAge, fixtures)
                                  && IsValidAt(row.payload, checkedAt, maxAge) && Matches(scope, row.payload)
  {
    hide Ranked, UsableColumns, IsValidAt, Matches, Descending;
    var chosen := (row: Row) => Ranked(rows, scope, row) && UsableColumns(row, now, maxAge, fixtures);
    var checked := (row: Row) => IsValidAt(row.payload, checkedAt, maxAge) && Matches(scope, row.payload);
    WhereExactly(rows, chosen);
    NewestFirstOrder(Where(rows, chosen));
    WhereExactly(NewestFirst(Where(rows, chosen)), checked);
    assert Current(rows, scope, now, checkedAt, maxAge, fixtures) == Where(NewestFirst(Where(rows, chosen)), checked);
  }

  /** Recording any other market's observation never changes the answer for this one. */
  lemma OtherMarketsDoNotInterfere(rows: seq<Row>, added: Row, identity: MarketIdentity, now: Instant, checkedAt: Instant,
                                   maxAge: nat, fixtures: bool)
    requires Faithful(rows + [added])
    requires !Matches(ScopeOf(identity), added.payload)
    ensures LatestIn(rows + [added], ScopeOf(identity), now, checkedAt, maxAge, fixtures)
            == LatestIn(rows, ScopeOf(identity), now, checkedAt, maxAge, fixtures)
  {
    hide LatestIn, IsValidAt, Matches, ValidReading, RowOf, Newer;
    var scope := ScopeOf(identity);
    FaithfulPrefix(rows, added);
    forall row ensures NewestOf(rows + [added], scope, row) <==> NewestOf(rows, scope, row) {
      if NewestOf(rows, scope, row) {
        forall other | other in rows + [added] && Matches(scope, other.payload) ensures !Newer(other, row) {
          assert other in rows;
        }
      }
      if NewestOf(rows + [added], scope, row) {
        forall other | other in rows && Matches(scope, other.payload) ensures !Newer(other, row) {
          assert other in rows + [added];
        }
      }
    }
    SameAnswers(rows, rows + [added], identity, now, checkedAt, maxAge, fixtures);
  }

  lemma FaithfulPrefix(rows: seq<Row>, added: Row)
    requires Faithful(rows + [added])
    ensures Faithful(rows)
  {
    hide ValidReading, RowOf;
    forall r | r in rows ensures r in rows + [added] {
    }
    forall i, j | 0 <= i < j < |rows| ensures rows[i].id != rows[j].id {
      assert (rows + [added])[i] == rows[i] && (rows + [added])[j] == rows[j];
    }
  }

  lemma SameAnswers(rows: seq<Row>, others: seq<Row>, identity: MarketIdentity, now: Instant, checkedAt: Instant, maxAge: nat,
                    fixtures: bool)
    requires Faithful(rows) && Faithful(others)
    requires forall row :: NewestOf(others, ScopeOf(identity), row) <==> NewestOf(rows, ScopeOf(identity), row)
    ensures LatestIn(others, ScopeOf(identity), now, checkedAt, maxAge, fixtures)
            == LatestIn(rows, ScopeOf(identity), now, checkedAt, maxAge, fixtures)
  {
    hide LatestIn, IsValidAt, NewestOf, Faithful;
    var scope := ScopeOf(identity);
    var answer, answer' := LatestIn(rows, scope, now, checkedAt, maxAge, fixtures), LatestIn(others, scope, now, checkedAt, maxAge, fixtures);
    if answer.Some? {
      ScopedReadExactly(rows, identity, now, checkedAt, maxAge, fixtures, answer.value);
      ScopedReadExactly(others, identity, now, checkedAt, maxAge, fixtures, answer.value);
    } else if answer'.Some? {
      ScopedReadExactly(rows, identity, now, checkedAt, maxAge, fixtures, answer'.value);
      ScopedReadExactly(others, identity, now, checkedAt, maxAge, fixtures, answer'.value);
    }
  }

  /** A newer event of the market that is not usable leaves no answer: nothing older is ever revealed. */
  lemma NothingOlderRevealed(rows: seq<Row>, newest: Row, identity: MarketIdentity, now: Instant, checkedAt: Instant,
                             maxAge: nat, fixtures: bool)
    requires Faithful(rows) && NewestOf(rows, ScopeOf(identity), newest)
    requires !IsValidAt(newest.payload, now, maxAge)
    ensures LatestIn(rows, ScopeOf(identity), now, checkedAt, maxAge, fixtures).None?
  {
    hide LatestIn, IsValidAt, Faithful, NewestOf;
    var scope := ScopeOf(identity);
    var answer := LatestIn(rows, scope, now, checkedAt, maxAge, fixtures);
    if answer.Some? {
      ScopedReadExactly(rows, identity, now, checkedAt, maxAge, fixtures, answer.value);
      var row :| NewestOf(rows, scope, row) && row.payload == answer.value;
      OnlyNewest(rows, identity, row, newest);
      assert false;
    }
  }

  /**
   A scope that knows only part of the identity is answered only by a reading it matches, the newest of its
   own stream, current at both instants, and only if every other current reading under it is of the same market.
   */
  lemma PartialScopeUnambiguous(rows: seq<Row>, scope: MarketScope, now: Instant, checkedAt: Instant, maxAge: nat, fixtures: bool)
    requires Faithful(rows) && scope.identity.None?
    requires LatestIn(rows, scope, now, checkedAt, maxAge, fixtures).Some?
    ensures var reading := LatestIn(rows, scope, now, checkedAt, maxAge, fixtures).value;
            && Matches(scope, reading) && IsValidAt(reading, checkedAt, maxAge)
            && (exists row :: row in rows && row.payload == reading && Ranked(rows, scope, row))
            && (forall other :: other in rows && Ranked(rows, scope, other) && UsableColumns(other, now, maxAge, fixtures)
                                && IsValidAt(other.payload, checkedAt, maxAge) && Matches(scope, other.payload) ==>
                  Unlocated(other) == IdentityOf(reading.pair).(poolLocator := None))
  {
    hide Ranked, IsValidAt, Matches, Faithful, UsableColumns;
    CurrentExactly(rows, scope, now, checkedAt, maxAge, fixtures);
    var current := Current(rows, scope, now, checkedAt, maxAge, fixtures);
    assert current[0] in current;
  }

  // ----------------------------------------------------------------------------- the unscoped listing

  /** What the listing may be narrowed to. */
  datatype Query = Query(identity: Option<string>, provider: Option<string>, chain: Option<string>, network: Option<string>,
                         fixtures: bool, limit: nat, offset: nat)

  predicate Wanted(query: Query, row: Row) {
    && (query.identity.Some? ==> row.assetId == query.identity.value || row.pairId == query.identity.value)
    && Agrees(row.provider, query.provider) && Agrees(row.chain, query.chain) && Agrees(row.network, query.network)
  }

  function CompleteStream(row: Row): (string, string, bool) {
    (row.provider, row.pairId, row.isFixture)
  }

  /** `row_number() = 1` in the complete stream of a provider, a pair and a fixture flag. */
  predicate TopOfStream(rows: seq<Row>, row: Row) {
    forall other :: other in rows && CompleteStream(other) == CompleteStream(row) ==> !Newer(other, row)
  }

  function Page(rows: seq<Row>, limit: nat, offset: nat): seq<Row> {
    if offset >= |rows| then [] else if |rows| - offset <= limit then rows[offset..] else rows[offset..offset + limit]
  }

  /** The rows a listing shows, newest first. */
  function Listed(rows: seq<Row>, query: Query, now: Instant, checkedAt: Instant, maxAge: nat): Option<seq<Row>> {
    if !(1 <= query.limit <= 100) then None
    else
      var selected := Where(rows, (row: Row) => TopOfStream(rows, row) && UsableColumns(row, now, maxAge, query.fixtures)
                                                && Wanted(query, row));
      Some(Where(Page(NewestFirst(selected), query.limit, query.offset), (row: Row) => IsValidAt(row.payload, checkedAt, maxAge)))
  }

  /** What a listing may show: a current reading, wanted, that its own complete stream has not moved past. */
  predicate Eligible(rows: seq<Row>, query: Query, now: Instant, maxAge: nat, row: Row) {
    && row in rows && TopOfStream(rows, row) && Wanted(query, row)
    && IsValidAt(row.payload, now, maxAge) && (query.fixtures || !row.isFixture)
  }

  /** The rows that come before a row, on earlier places or pages. */
  function Ahead(rows: seq<Row>, query: Query, now: Instant, maxAge: nat, row: Row): set<Row> {
    set other | other in rows && Eligible(rows, query, now, maxAge, other) && Newer(other, row)
  }

  /** Every row is newer than all after it, so no row is shown twice. */
  predicate NewestToOldest(rows: seq<Row>) {
    forall i, j :: 0 <= i < j < |rows| ==> Newer(rows[i], rows[j])
  }

  predicate DistinctIds(rows: seq<Row>) {
    forall i, j :: 0 <= i < j < |rows| ==> rows[i].id != rows[j].id
  }

  lemma {:induction false} WhereDistinct(rows: seq<Row>, keep: Row -> bool)
    requires DistinctIds(rows)
    ensures DistinctIds(Where(rows, keep))
  {
    if rows != [] {
      var rest, last := rows[..|rows| - 1], rows[|rows| - 1];
      WhereDistinct(rest, keep);
      WhereExactly(rest, keep);
      forall r | r in Where(rest, keep) ensures r.id != last.id {
        assert r in rest;
      }
    }
  }

  lemma {:induction false} PlacedInOrder(rows: seq<Row>, row: Row)
    requires NewestToOldest(rows) && forall r :: r in rows ==> r.id != row.id
    ensures NewestToOldest(Placed(rows, row))
    ensures forall r :: r in Placed(rows, row) <==> r in rows || r == row
  {
    if rows != [] {
      var rest, last := rows[..|rows| - 1], rows[|rows| - 1];
      assert rows == rest + [last];
      if Newer(row, last) {
        PlacedInOrder(rest, row);
        forall r | r in Placed(rest, row) ensures Newer(r, last) {
          if r != row {
            var k :| 0 <= k < |rest| && rest[k] == r;
            assert Newer(rows[k], rows[|rest|]);
          }
        }
      }
    }
  }

  lemma {:induction false} NewestFirstInOrder(rows: seq<Row>)
    requires DistinctIds(rows)
    ensures NewestToOldest(NewestFirst(rows))
    ensures forall r :: r in NewestFirst(rows) <==> r in rows
  {
    hide Placed, Newer;
    if rows != [] {
      var rest, last := rows[..|rows| - 1], rows[|rows| - 1];
      NewestFirstInOrder(rest);
      forall r | r in NewestFirst(rest) ensures r.id != last.id {
        assert r in rest;
      }
      PlacedInOrder(NewestFirst(rest), last);
      assert rows == rest + [last];
    }
  }

  function Content(rows: seq<Row>): set<Row> {
    set r | r in rows
  }

  function NewerThan(rows: seq<Row>, row: Row): set<Row> {
    set other | other in rows && Newer(other, row)
  }

  lemma NotBothNewer(a: Row, b: Row)
    ensures Newer(a, b) ==> !Newer(b, a) && a != b
  {
  }

  lemma {:induction false} CountInOrder(rows: seq<Row>)
    requires NewestToOldest(rows)
    ensures |Content(rows)| == |rows|
  {
    hide Newer;
    if rows == [] {
      assert Content(rows) == {};
    } else {
      var rest, last := rows[..|rows| - 1], rows[|rows| - 1];
      CountInOrder(rest);
      assert rows == rest + [last];
      assert Content(rows) == Content(rest) + {last};
      forall i | 0 <= i < |rest| ensures rest[i] != last {
        assert Newer(rows[i], rows[|rest|]);
        NotBothNewer(rows[i], last);
      }
    }
  }

  /** A row's place, counted from nothing, is the number of rows newer than it. */
  lemma PlaceIsCount(rows: seq<Row>, k: nat)
    requires NewestToOldest(rows) && k < |rows|
    ensures |NewerThan(rows, rows[k])| == k
  {
    hide Newer;
    CountInOrder(rows[..k]);
    forall row ensures row in NewerThan(rows, rows[k]) <==> row in Content(rows[..k]) {
      if row in Content(rows[..k]) {
        var i :| 0 <= i < k && rows[i] == row;
        assert Newer(rows[i], rows[k]);
      }
      if row in NewerThan(rows, rows[k]) {
        var i :| 0 <= i < |rows| && rows[i] == row;
        assert i > k ==> Newer(rows[k], rows[i]);
        NotBothNewer(row, rows[k]);
        assert i < k;
        assert rows[..k][i] == row;
      }
    }
    assert NewerThan(rows, rows[k]) == Content(rows[..k]);
  }

  lemma {:induction false} WhereInOrder(rows: seq<Row>, keep: Row -> bool)
    requires NewestToOldest(rows)
    ensures NewestToOldest(Where(rows, keep))
  {
    if rows != [] {
      var rest, last := rows[..|rows| - 1], rows[|rows| - 1];
      WhereInOrder(rest, keep);
      WhereExactly(rest, keep);
      forall r | r in Where(rest, keep) ensures Newer(r, last) {
        var k :| 0 <= k < |rest| && rest[k] == r;
        assert Newer(rows[k], rows[|rest|]);
      }
    }
  }

  lemma PageInOrder(rows: seq<Row>, limit: nat, offset: nat)
    requires NewestToOldest(rows)
    ensures NewestToOldest(Page(rows, limit, offset))
  {
    hide Newer;
  }

  /** A page is the rows whose place lies on it. */
  lemma PageExactly(rows: seq<Row>, limit: nat, offset: nat, row: Row)
    requires NewestToOldest(rows)
    ensures row in Page(rows, limit, offset)
            <==> row in rows && offset <= |NewerThan(rows, row)| < offset + limit
  {
    hide Newer, NewestToOldest, NewerThan;
    if row in rows {
      var k :| 0 <= k < |rows| && rows[k] == row;
      PlaceIsCount(rows, k);
      if offset <= k < offset + limit {
        assert Page(rows, limit, offset)[k - offset] == row;
      }
    }
    if row in Page(rows, limit, offset) {
      var m :| 0 <= m < |Page(rows, limit, offset)| && Page(rows, limit, offset)[m] == row;
      assert rows[offset + m] == row;
      PlaceIsCount(rows, offset + m);
    }
  }

  /**
   Every page of a listing, exactly: the eligible rows whose place in the newest-first order of all eligible
   rows lies on the page, less those no longer valid when they are checked again, each once, newest first.
   The second check leaves gaps: it never brings a row of a later page forward.
   */
  lemma ListingExactly(rows: seq<Row>, query: Query, now: Instant, checkedAt: Instant, maxAge: nat)
    requires Faithful(rows)
    ensures Listed(rows, query, now, checkedAt, maxAge).Some? <==> 1 <= query.limit <= 100
    ensures 1 <= query.limit <= 100 ==>
              var listed := Listed(rows, query, now, checkedAt, maxAge).value;
              && NewestToOldest(listed)
              && forall row :: row in listed
                               <==> && Eligible(rows, query, now, maxAge, row) && IsValidAt(row.payload, checkedAt, maxAge)
                                    && query.offset <= |Ahead(rows, query, now, maxAge, row)| < query.offset + query.limit
  {
    hide TopOfStream, IsValidAt, ValidReading, UsableColumns, Wanted, FreshnessAt, Available, Newer, Page, Placed, NewestFirst, RowOf;
    if 1 <= query.limit <= 100 {
      var chosen := (row: Row) => TopOfStream(rows, row) && UsableColumns(row, now, maxAge, query.fixtures) && Wanted(query, row);
      var checked := (row: Row) => IsValidAt(row.payload, checkedAt, maxAge);
      var selected := Where(rows, chosen);
      var sorted := NewestFirst(selected);
      WhereExactly(rows, chosen);
      WhereDistinct(rows, chosen);
      NewestFirstInOrder(selected);
      forall row ensures row in sorted <==> Eligible(rows, query, now, maxAge, row) {
        if row in rows { ColumnsUsable(row, now, maxAge, query.fixtures); }
      }
      var page := Page(sorted, query.limit, query.offset);
      forall row
        ensures row in page <==> && Eligible(rows, query, now, maxAge, row)
                                 && query.offset <= |Ahead(rows, query, now, maxAge, row)| < query.offset + query.limit
      {
        PageExactly(sorted, query.limit, query.offset, row);
        assert NewerThan(sorted, row) == Ahead(rows, query, now, maxAge, row);
      }
      PageInOrder(sorted, query.limit, query.offset);
      WhereExactly(page, checked);
      WhereInOrder(page, checked);
      assert Listed(rows, query, now, checkedAt, maxAge).value == Where(page, checked);
    }
  }

  lemma ColumnsUsable(row: Row, now: Instant, maxAge: nat, fixtures: bool)
    requires ValidReading(row.payload) && row == RowOf(row.payload, row.recordedAt)
    ensures UsableColumns(row, now, maxAge, fixtures) <==> IsValidAt(row.payload, now, maxAge) && (fixtures || !row.isFixture)
  {
    hide ValidReading, IsValidAt, FreshnessAt, Available;
    FreshnessColumn(row.payload, now, maxAge);
  }
}
