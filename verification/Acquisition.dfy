/**
 One bounded market acquisition: ask about the open holdings first, then the cases, then discover with what
 is left of the budget.  The provider, the recorder and the clock are a `World` whose every answer is free.
 */
module Acquisition {
  import opened Wrappers
  import opened MarketIdentities
  import MarketReadings

  datatype Need = POSITION_VALUATION | CASE_MARKET | NEW_CANDIDATE
  datatype Outcome = RECORDED | UNCHANGED | REFUSED | FAILED | UNKNOWN_OUTCOME | NOT_ATTEMPTED
  datatype Stop =
    | COMPLETED
    | MARKET_BUDGET_REACHED
    | TIME_BUDGET_REACHED
    | PROVIDER_FAILED
    | OUTCOME_UNKNOWN
    | NOTHING_TO_ACQUIRE

  datatype Target = Target(identity: MarketIdentity, need: Need)

  datatype Entry = Entry(pairId: string, chain: string, need: Need, outcome: Outcome)

  /** A pass may observe `maxMarkets` case and discovered markets, and `maxPositionMarkets` holdings' markets. */
  datatype Limits = Limits(maxMarkets: nat, maxPositionMarkets: nat, maxDiscoveryRequests: nat, poolsPerChain: nat)

  const MAX_POOLS_PER_REQUEST: nat := 30

  datatype Answer = TimedOut | Failed(unsupportedNetwork: bool) | Confirmed(pairs: seq<MarketIdentity>)
  datatype Reply = Inserted | AlreadyStored | Conflict | Mismatched | NoReply

  /** What the outside says at each moment it is asked: any answers at all, repeated or contradictory. */
  datatype World = World(observe: nat -> Answer, discover: nat -> Answer, reply: nat -> Reply, expired: nat -> bool)

  /** The account of one discovery read: the capacity committed for it, and what it handed back if it finished. */
  datatype DiscoveryRead = DiscoveryRead(chain: string, reserved: nat, returned: Option<nat>)

  datatype Plan = Plan(
    targets: seq<Target>,
    discovery: seq<string>,
    refused: seq<Entry>,
    positions: seq<Target>,
    positionOverflow: seq<Target>,
    openPositions: nat,
    unaddressablePositions: nat
  )

  // ------------------------------------------------------------------------------------- the planner

  /** An open holding and the identity its market was recorded under, where there is one. */
  datatype Holding = Holding(assetId: string, identity: Option<MarketIdentity>)

  predicate Addressable(holding: Holding, usable: MarketIdentity -> bool) {
    && holding.identity.Some? && usable(holding.identity.value)
    && holding.identity.value.baseAssetId == holding.assetId
  }

  predicate DistinctMarkets(targets: seq<Target>) {
    forall i, j :: 0 <= i < j < |targets| ==> targets[i].identity != targets[j].identity
  }

  predicate Names(targets: seq<Target>, identity: MarketIdentity) {
    exists t :: t in targets && t.identity == identity
  }

  /** Several holdings of one market are one target; a holding that cannot be asked about is counted. */
  method PlanPositions(holdings: seq<Holding>, usable: MarketIdentity -> bool)
    returns (held: seq<Target>, unaddressable: nat)
    ensures DistinctMarkets(held) && (forall t :: t in held ==> t.need == POSITION_VALUATION)
    ensures forall t :: t in held ==> exists h :: h in holdings && h.identity == Some(t.identity)
    ensures forall h :: h in holdings && Addressable(h, usable) ==> Names(held, h.identity.value)
    ensures unaddressable == 0 <==> forall h :: h in holdings ==> Addressable(h, usable)
  {
    held, unaddressable := [], 0;
    for i := 0 to |holdings|
      invariant DistinctMarkets(held) && (forall t :: t in held ==> t.need == POSITION_VALUATION)
      invariant forall t :: t in held ==> exists h :: h in holdings && h.identity == Some(t.identity)
      invariant forall j :: 0 <= j < i && Addressable(holdings[j], usable) ==> Names(held, holdings[j].identity.value)
      invariant unaddressable == 0 <==> forall j :: 0 <= j < i ==> Addressable(holdings[j], usable)
    {
      var holding := holdings[i];
      if !Addressable(holding, usable) {
        unaddressable := unaddressable + 1;
        continue;
      }
      ghost var before := held;
      if !exists t :: t in held && t.identity == holding.identity.value {
        var target := Target(holding.identity.value, POSITION_VALUATION);
        held := held + [target];
        assert target in held;
      }
      forall identity | Names(before, identity) ensures Names(held, identity) {
        var t :| t in before && t.identity == identity;
        assert t in held;
      }
    }
  }

  // -------------------------------------------------------------------------------------- the account

  predicate IsAnswer(outcome: Outcome) {
    outcome == RECORDED || outcome == UNCHANGED
  }

  /** One thing the pass concluded: for what, how it ended, and what the provider's answer named. */
  datatype Noted = Noted(target: Target, outcome: Outcome, observed: Option<MarketIdentity>)

  function CountAnswers(entries: seq<Entry>): nat {
    if entries == [] then 0
    else
      var last := entries[|entries| - 1];
      CountAnswers(entries[..|entries| - 1]) + if last.need == POSITION_VALUATION && IsAnswer(last.outcome) then 1 else 0
  }

  /** The holdings' markets that were answered, in the order they were. */
  function Covered(log: seq<Noted>): seq<MarketIdentity> {
    if log == [] then []
    else
      CoveredBy(Covered(log[..|log| - 1]), log[|log| - 1])
  }

  /** A planned market is answered only by a reading of exactly its own identity. */
  predicate HeldToIdentity(log: seq<Noted>) {
    forall n :: n in log && IsAnswer(n.outcome) ==>
      n.observed.Some? && (n.target.need != NEW_CANDIDATE ==> n.observed.value == n.target.identity)
  }

  function CoveredBy(covered: seq<MarketIdentity>, noted: Noted): seq<MarketIdentity> {
    if noted.target.need == POSITION_VALUATION && IsAnswer(noted.outcome) then covered + [noted.target.identity] else covered
  }

  lemma CountOneMore(entries: seq<Entry>, entry: Entry, log: seq<Noted>, noted: Noted)
    ensures CountAnswers(entries + [entry])
            == CountAnswers(entries) + if entry.need == POSITION_VALUATION && IsAnswer(entry.outcome) then 1 else 0
    ensures Covered(log + [noted]) == CoveredBy(Covered(log), noted)
  {
    assert (entries + [entry])[..|entries|] == entries;
    assert (log + [noted])[..|log|] == log;
  }

  class Ledger {
    const limits: Limits
    var stop: Stop
    var entries: seq<Entry>
    var discovered: seq<DiscoveryRead>
    var requested: nat
    var spent: nat
    var asked: set<string>
    var positionAsked: nat
    /** How often the outside has been asked: every question may be answered differently. */
    var calls: nat
    ghost var log: seq<Noted>
    /** The pools a request named that an earlier one had named already. */
    ghost var twice: set<string>

    /** What holds on every path: the budget, the identities, and one entry for every answer. */
    ghost predicate Valid()
      reads this
    {
      && spent <= limits.maxMarkets
      && HeldToIdentity(log)
      && CountAnswers(entries) == |Covered(log)|
    }

    constructor (limits: Limits, refused: seq<Entry>)
      requires forall e :: e in refused ==> e.outcome == REFUSED
      ensures Valid() && this.limits == limits && Covered(log) == [] && spent == 0 && entries == refused
      ensures stop == COMPLETED && discovered == [] && asked == {} && twice == {}
    {
      this.limits := limits;
      discovered, twice := [], {};
      stop, entries, requested, spent, asked, positionAsked, calls, log := COMPLETED, refused, 0, 0, {}, 0, 0, [];
      NoAnswersRefused(refused);
    }

    function Room(): nat
      reads this
    {
      if spent <= limits.maxMarkets then limits.maxMarkets - spent else 0
    }

    method Note(target: Target, outcome: Outcome, observed: Option<MarketIdentity>)
      requires Valid()
      requires IsAnswer(outcome) ==>
                 observed.Some? && (target.need != NEW_CANDIDATE ==> observed.value == target.identity)
      modifies `entries, `log
      ensures Valid()
      ensures log == old(log) + [Noted(target, outcome, observed)]
      ensures entries == old(entries) + [Entry(target.identity.pairId, target.identity.chain, target.need, outcome)]
    {
      var entry := Entry(target.identity.pairId, target.identity.chain, target.need, outcome);
      CountOneMore(entries, entry, log, Noted(target, outcome, observed));
      entries := entries + [entry];
      log := log + [Noted(target, outcome, observed)];
    }

    /** The same conclusion for several targets: not asked, or not answered. */
    method NoteAll(targets: seq<Target>, outcome: Outcome)
      requires Valid() && !IsAnswer(outcome)
      modifies `entries, `log
      ensures Valid() && Covered(log) == old(Covered(log))
      ensures |entries| == |old(entries)| + |targets| && entries[..|old(entries)|] == old(entries)
    {
      for i := 0 to |targets|
        invariant Valid() && Covered(log) == old(Covered(log))
        invariant |entries| == |old(entries)| + i && entries[..|old(entries)|] == old(entries)
      {
        CountOneMore(entries, Entry("", "", NEW_CANDIDATE, FAILED), log, Noted(targets[i], outcome, None));
        Note(targets[i], outcome, None);
      }
    }

    /** One slot per distinct market not asked about before, whatever comes back. */
    method Commit(targets: seq<Target>)
      requires Valid() && |targets| <= Room()
      modifies `asked, `spent, `requested, `twice
      ensures Valid()
      ensures asked == old(asked) + PoolsOf(targets) && twice == old(twice) + PoolsOf(targets) * old(asked)
      ensures spent - old(spent) == |asked| - |old(asked)| == requested - old(requested) <= |targets|
    {
      hide PoolsOf, Covered, CountAnswers, HeldToIdentity;
      assert PoolsOf(targets[..0]) == {} by { NoPools(); }
      for i := 0 to |targets|
        invariant asked == old(asked) + PoolsOf(targets[..i])
        invariant spent - old(spent) == |asked| - |old(asked)| == requested - old(requested)
        invariant old(spent) <= spent <= old(spent) + i && twice == old(twice)
      {
        var target := targets[i];
        PoolsOfMore(targets, i);
        if target.identity.pairId !in asked {
          asked := asked + {target.identity.pairId};
          spent := spent + 1;
          requested := requested + 1;
        }
      }
      assert targets[..|targets|] == targets;
      twice := twice + PoolsOf(targets) * old(asked);
    }

    /** The capacity a discovery read may bring back, spent before it is made. */
    method Reserve(capacity: nat)
      requires Valid() && capacity <= Room()
      modifies `spent
      ensures Valid() && spent == old(spent) + capacity
    {
      spent := spent + capacity;
    }

    /** The account of a read, taken once it is over: finished, or cut off with nothing known of its answer. */
    method Read(chain: string, reserved: nat, returned: Option<nat>)
      requires Valid()
      modifies `discovered
      ensures Valid() && discovered == old(discovered) + [DiscoveryRead(chain, reserved, returned)]
    {
      discovered := discovered + [DiscoveryRead(chain, reserved, returned)];
    }

    /** Stores one answer under the target it was asked as, or says why not; false ends the pass. */
    method Record(pair: MarketIdentity, target: Target, world: World) returns (goOn: bool)
      requires Valid()
      modifies `entries, `log, `calls, `stop
      ensures Valid() && calls >= old(calls)
      ensures |log| == |old(log)| + 1 && log[..|old(log)|] == old(log) && log[|old(log)|].target == target
      ensures Covered(log) == CoveredBy(old(Covered(log)), log[|old(log)|])
      ensures target.need != NEW_CANDIDATE && pair != target.identity ==> goOn && log[|old(log)|].outcome == REFUSED
    {
      var outcome := REFUSED;
      if target.need == NEW_CANDIDATE || pair == target.identity {
        var reply := world.reply(calls);
        calls := calls + 1;
        outcome := match reply
          case Inserted => RECORDED
          case AlreadyStored => UNCHANGED
          case Conflict => REFUSED
          case Mismatched => REFUSED
          case NoReply => UNKNOWN_OUTCOME;
      }
      CountOneMore(entries, Entry("", "", NEW_CANDIDATE, FAILED), log, Noted(target, outcome, Some(pair)));
      Note(target, outcome, Some(pair));
      if outcome == UNKNOWN_OUTCOME {
        stop := OUTCOME_UNKNOWN;
        return false;
      }
      goOn := true;
    }

    /** The holdings' requests, counted before they leave: by pool identifier, outside the market budget. */
    method CountHoldings(batch: seq<Target>) returns (pools: set<string>)
      requires Valid()
      modifies `asked, `requested, `positionAsked, `twice
      ensures Valid() && pools == PoolsOf(batch) && twice == old(twice) + pools * old(asked)
      ensures asked == old(asked) + pools && requested == old(requested) + |pools| && positionAsked == old(positionAsked) + |batch|
    {
      pools := PoolsOf(batch);
      twice := twice + pools * asked;
      asked := asked + pools;
      requested := requested + |pools|;
      positionAsked := positionAsked + |batch|;
    }

    method Observe(world: World) returns (answer: Answer)
      modifies `calls
      ensures answer == world.observe(old(calls)) && calls == old(calls) + 1
    {
      answer := world.observe(calls);
      calls := calls + 1;
    }

    /** A discovery read that failed is reported for its chain, not for a market. */
    method FailedRead(chain: string)
      requires Valid()
      modifies `entries
      ensures Valid() && entries == old(entries) + [Entry("*", chain, NEW_CANDIDATE, FAILED)]
    {
      CountOneMore(entries, Entry("*", chain, NEW_CANDIDATE, FAILED), log, Noted(Target(AnyMarket(), NEW_CANDIDATE), FAILED, None));
      entries := entries + [Entry("*", chain, NEW_CANDIDATE, FAILED)];
    }

    method Expired(world: World) returns (expired: bool)
      modifies `calls
      ensures calls == old(calls) + 1
    {
      expired := world.expired(calls);
      calls := calls + 1;
    }
  }

  function PoolsOf(targets: seq<Target>): set<string> {
    set t <- targets :: t.identity.pairId
  }

  lemma NoPools()
    ensures PoolsOf([]) == {}
  {
  }

  lemma PoolsOfMore(targets: seq<Target>, i: nat)
    requires i < |targets|
    ensures PoolsOf(targets[..i + 1]) == PoolsOf(targets[..i]) + {targets[i].identity.pairId}
  {
    assert targets[..i + 1] == targets[..i] + [targets[i]];
  }

  /** A pool identifier that begins with its chain and network, as every recorded pair's does. */
  predicate Prefixed(identity: MarketIdentity) {
    && MarketReadings.Namespace(identity.chain) && MarketReadings.Namespace(identity.network)
    && MarketReadings.Prefix(identity.chain, identity.network) <= identity.pairId
  }

  predicate AllPrefixed(targets: seq<Target>) {
    forall t :: t in targets ==> Prefixed(t.identity)
  }

  /** One pool is on one chain. */
  lemma PoolOnOneChain(a: MarketIdentity, b: MarketIdentity)
    requires Prefixed(a) && Prefixed(b) && a.pairId == b.pairId
    ensures a.chain == b.chain
  {
    var restA := a.pairId[|MarketReadings.Prefix(a.chain, a.network)|..];
    var restB := b.pairId[|MarketReadings.Prefix(b.chain, b.network)|..];
    assert a.pairId == a.chain + (":" + (a.network + (":" + restA)));
    assert b.pairId == b.chain + (":" + (b.network + (":" + restB)));
    MarketReadings.ColonSplits(a.chain, b.chain, a.network + (":" + restA), b.network + (":" + restB));
  }

  /** Every pool of the set is a target's on a chain already visited. */
  predicate OnVisited(pools: set<string>, targets: seq<Target>, visited: seq<string>) {
    forall p :: p in pools ==> exists t :: t in targets && t.identity.pairId == p && t.identity.chain in visited
  }

  lemma DisjointCount(pools: set<string>, added: set<string>)
    requires added * pools == {}
    ensures |pools + added| == |pools| + |added|
  {
    forall x | x in pools ensures x !in added {
      assert x in added ==> x in added * pools;
    }
    assert (pools + added) - added == pools;
  }

  lemma AddedBeside(before: set<string>, held: set<string>, pools: set<string>, added: set<string>)
    requires held <= before && added <= pools && pools * before == {}
    ensures (before + added) - held == (before - held) + added
    ensures |(before + added) - held| == |before - held| + |added|
  {
    forall x | x in added ensures x !in before {
      assert x in before ==> x in pools * before;
    }
    assert added * (before - held) == {};
    DisjointCount(before - held, added);
  }

  lemma AwayFromBoth(pools: set<string>, part: set<string>, whole: set<string>)
    requires part <= whole && pools * part == {} && pools * (whole - part) == {}
    ensures pools * whole == {}
  {
    forall x | x in pools ensures x !in whole {
      assert x in part ==> x in pools * part;
      assert x in whole - part ==> x in pools * (whole - part);
    }
  }

  lemma {:induction false} PoolCount(targets: seq<Target>)
    ensures |PoolsOf(targets)| <= |targets|
  {
    if targets == [] {
      assert PoolsOf(targets) == {};
    } else {
      PoolCount(targets[..|targets| - 1]);
      PoolsOfMore(targets, |targets| - 1);
      assert targets[..|targets| - 1 + 1] == targets;
    }
  }

  lemma PartOfPools(part: seq<Target>, targets: seq<Target>)
    requires forall t :: t in part ==> t in targets
    ensures PoolsOf(part) <= PoolsOf(targets)
  {
  }

  lemma VisitSome(pools: set<string>, added: set<string>, all: set<string>, targets: seq<Target>, visited: seq<string>)
    requires OnVisited(pools + all, targets, visited) && added <= all
    ensures OnVisited(pools + added, targets, visited)
  {
  }

  lemma CaseCoversNothing(log: seq<Noted>, target: Target)
    requires target.need == CASE_MARKET
    ensures forall covered: seq<MarketIdentity>, noted: Noted :: noted.target == target ==> CoveredBy(covered, noted) == covered
  {
  }

  predicate AllCases(targets: seq<Target>) {
    forall t :: t in targets ==> t.need == CASE_MARKET
  }

  /** Targets of a chain that no holding's answer settles. */
  predicate StillWanted(wanted: seq<Target>, targets: seq<Target>, chain: string, held: set<string>) {
    forall t :: t in wanted ==> t in targets && t.identity.chain == chain && t.identity.pairId !in held
  }

  /** What a chain still wants is new: of no chain visited, and of no holding. */
  lemma ChainPools(pools: set<string>, targets: seq<Target>, visited: seq<string>, wanted: seq<Target>, chain: string, held: set<string>)
    requires OnVisited(pools, targets, visited) && AllPrefixed(targets) && chain !in visited
    requires StillWanted(wanted, targets, chain, held)
    ensures PoolsOf(wanted) * held == {} && PoolsOf(wanted) * pools == {}
    ensures OnVisited(pools, targets, visited + [chain]) && OnVisited(pools + PoolsOf(wanted), targets, visited + [chain])
  {
    hide OnVisited, Prefixed;
    NewChainNewPools(pools, targets, visited, wanted, chain);
    VisitMore(pools, targets, visited, wanted, chain);
  }

  lemma NothingVisited(targets: seq<Target>, visited: seq<string>)
    ensures OnVisited({}, targets, visited)
  {
  }

  lemma PrefixedPart(targets: seq<Target>, part: seq<Target>)
    requires AllPrefixed(targets) && forall t :: t in part ==> t in targets
    ensures AllPrefixed(part)
  {
  }

  /** The pools of a chain not visited yet are none of those. */
  lemma NewChainNewPools(pools: set<string>, targets: seq<Target>, visited: seq<string>, batch: seq<Target>, chain: string)
    requires OnVisited(pools, targets, visited) && AllPrefixed(targets) && AllPrefixed(batch)
    requires chain !in visited && forall t :: t in batch ==> t.identity.chain == chain
    ensures PoolsOf(batch) * pools == {}
  {
    hide Prefixed;
    forall t | t in batch ensures t.identity.pairId !in pools {
      if t.identity.pairId in pools {
        var other :| other in targets && other.identity.pairId == t.identity.pairId && other.identity.chain in visited;
        PoolOnOneChain(t.identity, other.identity);
      }
    }
  }

  lemma VisitMore(pools: set<string>, targets: seq<Target>, visited: seq<string>, batch: seq<Target>, chain: string)
    requires OnVisited(pools, targets, visited)
    requires forall t :: t in batch ==> t.identity.chain == chain && t in targets
    ensures OnVisited(pools, targets, visited + [chain]) && OnVisited(pools + PoolsOf(batch), targets, visited + [chain])
  {
    forall p | p in PoolsOf(batch)
      ensures exists t :: t in targets && t.identity.pairId == p && t.identity.chain in visited + [chain]
    {
      var t :| t in batch && t.identity.pairId == p;
    }
    forall p | p in pools
      ensures exists t :: t in targets && t.identity.pairId == p && t.identity.chain in visited + [chain]
    {
      var t :| t in targets && t.identity.pairId == p && t.identity.chain in visited;
    }
  }

  /** What one read may bring back, given what is already spent. */
  function Allowance(limits: Limits, spent: nat): nat {
    var room := if spent <= limits.maxMarkets then limits.maxMarkets - spent else 0;
    if limits.poolsPerChain <= room then limits.poolsPerChain else room
  }

  function Reserved(done: seq<DiscoveryRead>): nat {
    if done == [] then 0 else Reserved(done[..|done| - 1]) + done[|done| - 1].reserved
  }

  /** Each read was allowed what the budget left after the ones before it. */
  predicate Allowed(done: seq<DiscoveryRead>, limits: Limits, spent: nat) {
    done == []
    || (Allowed(done[..|done| - 1], limits, spent)
        && done[|done| - 1].reserved == Allowance(limits, spent + Reserved(done[..|done| - 1])))
  }

  lemma NoReads(limits: Limits, spent: nat)
    ensures Reserved([]) == 0 && Allowed([], limits, spent)
  {
  }

  lemma OneMoreRead(done: seq<DiscoveryRead>, read: DiscoveryRead, limits: Limits, spent: nat)
    ensures Reserved(done + [read]) == Reserved(done) + read.reserved
    ensures Allowed(done + [read], limits, spent)
            <==> Allowed(done, limits, spent) && read.reserved == Allowance(limits, spent + Reserved(done))
  {
    assert (done + [read])[..|done|] == done;
  }

  lemma {:induction false} NoAnswersRefused(entries: seq<Entry>)
    requires forall e :: e in entries ==> e.outcome == REFUSED
    ensures CountAnswers(entries) == 0
  {
    if entries != [] {
      NoAnswersRefused(entries[..|entries| - 1]);
    }
  }

  // ------------------------------------------------------------------------------- coverage of the book

  predicate NoDuplicates(identities: seq<MarketIdentity>) {
    forall i, j :: 0 <= i < j < |identities| ==> identities[i] != identities[j]
  }

  function Members(identities: seq<MarketIdentity>): set<MarketIdentity> {
    set x | x in identities
  }

  function Identities(targets: seq<Target>): set<MarketIdentity> {
    set t <- targets :: t.identity
  }

  lemma {:induction false} DistinctCount(identities: seq<MarketIdentity>)
    requires NoDuplicates(identities)
    ensures |Members(identities)| == |identities|
  {
    if identities == [] {
      assert Members(identities) == {};
    } else {
      var rest, last := identities[..|identities| - 1], identities[|identities| - 1];
      DistinctCount(rest);
      assert identities == rest + [last];
      assert Members(identities) == Members(rest) + {last};
    }
  }

  lemma {:induction false} IdentityCount(targets: seq<Target>)
    ensures |Identities(targets)| <= |targets|
  {
    if targets == [] {
      assert Identities(targets) == {};
    } else {
      var rest, last := targets[..|targets| - 1], targets[|targets| - 1];
      IdentityCount(rest);
      assert targets == rest + [last];
      assert Identities(targets) == Identities(rest) + {last.identity};
    }
  }

  lemma SubsetOfSize(part: set<MarketIdentity>, whole: set<MarketIdentity>)
    requires part <= whole && |part| >= |whole|
    ensures part == whole
  {
    assert whole == part + (whole - part);
  }

  /** A count of answers that leaves no deficit leaves no market of an open holding unanswered either. */
  lemma NoDeficitCoversAll(covered: seq<MarketIdentity>, positions: seq<Target>, overflow: nat, unaddressable: nat)
    requires NoDuplicates(covered) && forall x :: x in covered ==> x in Identities(positions)
    requires |covered| >= |positions| + overflow + unaddressable
    ensures overflow == 0 && unaddressable == 0
    ensures forall t :: t in positions ==> t.identity in covered
  {
    var answered := Members(covered);
    DistinctCount(covered);
    IdentityCount(positions);
    assert answered <= Identities(positions);
    SubsetCount(answered, Identities(positions));
    SubsetOfSize(answered, Identities(positions));
    forall t | t in positions ensures t.identity in covered {
      assert t.identity in Identities(positions);
    }
  }

  lemma SubsetCount(part: set<MarketIdentity>, whole: set<MarketIdentity>)
    requires part <= whole
    ensures |part| <= |whole|
  {
    assert whole == part + (whole - part);
  }

  lemma {:induction false} CoveredWasAnswered(log: seq<Noted>, identity: MarketIdentity)
    requires identity in Covered(log)
    ensures exists n :: n in log && IsAnswer(n.outcome) && n.target.need == POSITION_VALUATION && n.target.identity == identity
  {
    var last := log[|log| - 1];
    if last.target.need == POSITION_VALUATION && IsAnswer(last.outcome) && last.target.identity == identity {
    } else {
      CoveredWasAnswered(log[..|log| - 1], identity);
    }
  }

  // ---------------------------------------------------------------------------------------- the pass

  function OfChain(targets: seq<Target>, chain: string): seq<Target> {
    if targets == [] then []
    else
      var last := targets[|targets| - 1];
      OfChain(targets[..|targets| - 1], chain) + if last.identity.chain == chain then [last] else []
  }

  lemma {:induction false} OfChainExactly(targets: seq<Target>, chain: string)
    ensures forall t :: t in OfChain(targets, chain) <==> t in targets && t.identity.chain == chain
    ensures DistinctMarkets(targets) ==> DistinctMarkets(OfChain(targets, chain))
  {
    if targets != [] {
      var rest, last := targets[..|targets| - 1], targets[|targets| - 1];
      OfChainExactly(rest, chain);
      assert targets == rest + [last];
      if DistinctMarkets(targets) {
        var kept := OfChain(rest, chain);
        forall i | 0 <= i < |kept| ensures kept[i].identity != last.identity {
          assert kept[i] in kept;
          var k :| 0 <= k < |rest| && rest[k] == kept[i];
          assert targets[k] == kept[i] && targets[|rest|] == last;
        }
      }
    }
  }

  /** The provider's answer by pool identifier; of two pairs under one identifier the later one stands. */
  function ByPair(pairs: seq<MarketIdentity>): map<string, MarketIdentity> {
    if pairs == [] then map[]
    else ByPair(pairs[..|pairs| - 1])[pairs[|pairs| - 1].pairId := pairs[|pairs| - 1]]
  }

  function Unanswered(pools: set<string>): map<string, Option<MarketIdentity>> {
    map pool | pool in pools :: None
  }

  /** What covering has been done so far: each planned market at most once, in chains already visited. */
  ghost predicate CoveredIn(covered: seq<MarketIdentity>, positions: seq<Target>, visited: seq<string>, batch: seq<Target>) {
    && NoDuplicates(covered)
    && forall x :: x in covered ==> x in Identities(positions) && (x.chain in visited || x in Identities(batch))
  }

  lemma CoverOne(covered: seq<MarketIdentity>, positions: seq<Target>, visited: seq<string>, batch: seq<Target>, k: nat)
    requires k < |batch| && DistinctMarkets(batch) && batch[k] in positions && batch[k].identity.chain !in visited
    requires CoveredIn(covered, positions, visited, batch[..k])
    ensures CoveredIn(covered, positions, visited, batch[..k + 1])
    ensures CoveredIn(covered + [batch[k].identity], positions, visited, batch[..k + 1])
  {
    assert batch[..k + 1] == batch[..k] + [batch[k]];
    assert batch[k].identity !in Identities(batch[..k]);
    assert batch[k].identity !in covered;
  }

  lemma CoverNone(covered: seq<MarketIdentity>, positions: seq<Target>, visited: seq<string>, batch: seq<Target>)
    requires CoveredIn(covered, positions, visited, [])
    ensures CoveredIn(covered, positions, visited, batch)
  {
  }

  lemma CoverRest(covered: seq<MarketIdentity>, positions: seq<Target>, visited: seq<string>, batch: seq<Target>, k: nat)
    requires k <= |batch| && CoveredIn(covered, positions, visited, batch[..k])
    ensures CoveredIn(covered, positions, visited, batch)
  {
    forall x | x in Identities(batch[..k]) ensures x in Identities(batch) {
      var t :| t in batch[..k] && t.identity == x;
      assert t in batch;
    }
  }

  class Acquisition {
    const ledger: Ledger
    const world: World

    constructor (ledger: Ledger, world: World)
      ensures this.ledger == ledger && this.world == world
    {
      this.ledger, this.world := ledger, world;
    }

    /** What one chain's answer says about each holding's market, recorded in order; true ends the pass. */
    method RecordHoldings(batch: seq<Target>, returned: map<string, MarketIdentity>, ghost positions: seq<Target>,
                          ghost visited: seq<string>)
      returns (answered: map<string, Option<MarketIdentity>>, ended: bool)
      requires ledger.Valid() && CoveredIn(Covered(ledger.log), positions, visited, [])
      requires DistinctMarkets(batch)
      requires forall t :: t in batch ==> t.need == POSITION_VALUATION && t in positions && t.identity.chain !in visited
      modifies ledger
      ensures ledger.Valid() && ledger.spent == old(ledger.spent)
      ensures CoveredIn(Covered(ledger.log), positions, visited, batch)
      ensures ledger.asked == old(ledger.asked) && ledger.twice == old(ledger.twice)
      ensures !ended ==> answered.Keys == PoolsOf(batch)
    {
      hide CoveredIn, ByPair, Covered, CountAnswers, HeldToIdentity, PoolsOf;
      answered, ended := map[], false;
      CoverNone(Covered(ledger.log), positions, visited, batch);
      assert batch[..0] == [];
      assert PoolsOf([]) == {} by { NoPools(); }
      for k := 0 to |batch|
        invariant ledger.Valid() && ledger.spent == old(ledger.spent)
        invariant CoveredIn(Covered(ledger.log), positions, visited, batch[..k])
        invariant ledger.asked == old(ledger.asked) && ledger.twice == old(ledger.twice)
        invariant !ended && answered.Keys == PoolsOf(batch[..k])
      {
        var target := batch[k];
        assert target in batch;
        PoolsOfMore(batch, k);
        CoverOne(Covered(ledger.log), positions, visited, batch, k);
        if target.identity.pairId !in returned {
          CountOneMore(ledger.entries, Entry("", "", NEW_CANDIDATE, FAILED), ledger.log, Noted(target, REFUSED, None));
          ledger.Note(target, REFUSED, None);
          answered := answered[target.identity.pairId := None];
          continue;
        }
        var pair := returned[target.identity.pairId];
        answered := answered[target.identity.pairId := Some(pair)];
        var goOn := ledger.Record(pair, target, world);
        if !goOn {
          CoverRest(Covered(ledger.log), positions, visited, batch, k + 1);
          return answered, true;
        }
      }
      assert batch[..|batch|] == batch;
    }

    /** One chain's holdings: one request for all of them, by pool identifier. */
    method AskHoldings(batch: seq<Target>, ghost positions: seq<Target>, ghost visited: seq<string>)
      returns (answered: map<string, Option<MarketIdentity>>, ended: bool)
      requires ledger.Valid() && CoveredIn(Covered(ledger.log), positions, visited, [])
      requires DistinctMarkets(batch)
      requires forall t :: t in batch ==> t.need == POSITION_VALUATION && t in positions && t.identity.chain !in visited
      modifies ledger
      ensures ledger.Valid() && ledger.spent == old(ledger.spent)
      ensures CoveredIn(Covered(ledger.log), positions, visited, batch)
      ensures ended || ledger.asked == old(ledger.asked) + PoolsOf(batch)
      ensures ledger.twice == old(ledger.twice) || ledger.twice == old(ledger.twice) + PoolsOf(batch) * old(ledger.asked)
      ensures !ended ==> answered.Keys == PoolsOf(batch)
    {
      hide CoveredIn, ByPair, Covered, CountAnswers, HeldToIdentity, PoolsOf;
      CoverNone(Covered(ledger.log), positions, visited, batch);
      var expired := ledger.Expired(world);
      if expired {
        ledger.NoteAll(batch, NOT_ATTEMPTED);
        ledger.stop := TIME_BUDGET_REACHED;
        return map[], true;
      }
      var pools := ledger.CountHoldings(batch);
      var answer := ledger.Observe(world);
      if !answer.Confirmed? {
        ledger.NoteAll(batch, FAILED);
        var carriesOn := answer.Failed? && answer.unsupportedNetwork;
        if !carriesOn { ledger.stop := if answer.TimedOut? then TIME_BUDGET_REACHED else PROVIDER_FAILED; }
        return Unanswered(pools), !carriesOn;
      }
      answered, ended := RecordHoldings(batch, ByPair(answer.pairs), positions, visited);
    }

    /**
     Every open holding's market, asked about first and outside the case budget.  Answers by pool
     identifier, no market where the pool was not answered; nothing where the pass ends here.
     */
    method Positions(chains: seq<string>, plan: Plan) returns (held: Option<map<string, Option<MarketIdentity>>>)
      requires ledger.Valid() && Covered(ledger.log) == []
      requires DistinctMarkets(plan.positions) && (forall t :: t in plan.positions ==> t.need == POSITION_VALUATION)
      requires forall i, j :: 0 <= i < j < |chains| ==> chains[i] != chains[j]
      requires AllPrefixed(plan.positions) && ledger.asked == {} && ledger.twice == {}
      modifies ledger
      ensures ledger.Valid() && ledger.spent == old(ledger.spent)
      ensures NoDuplicates(Covered(ledger.log)) && forall x :: x in Covered(ledger.log) ==> x in Identities(plan.positions)
      ensures ledger.twice == {} && (held.Some? ==> ledger.asked == held.value.Keys)
    {
      hide OnVisited, AllPrefixed, PoolsOf;
      assert OnVisited({}, plan.positions, chains[..0]) by { NothingVisited(plan.positions, chains[..0]); }
      var answered: map<string, Option<MarketIdentity>> := map[];
      for i := 0 to |chains|
        invariant ledger.Valid() && ledger.spent == old(ledger.spent)
        invariant CoveredIn(Covered(ledger.log), plan.positions, chains[..i], [])
        invariant ledger.asked == answered.Keys && ledger.twice == {}
        invariant OnVisited(ledger.asked, plan.positions, chains[..i])
      {
        assert chains[..i + 1] == chains[..i] + [chains[i]];
        var batch := OfChain(plan.positions, chains[i]);
        OfChainExactly(plan.positions, chains[i]);
        PrefixedPart(plan.positions, batch);
        NewChainNewPools(ledger.asked, plan.positions, chains[..i], batch, chains[i]);
        VisitMore(ledger.asked, plan.positions, chains[..i], batch, chains[i]);
        if batch == [] { continue; }
        var more, ended := AskHoldings(batch, plan.positions, chains[..i]);
        if ended { return None; }
        answered := answered + more;
      }
      held := Some(answered);
    }

    /**
     The markets live cases are about, chain by chain, within what the market budget still allows.  No pool is
     asked about twice, the holdings' included, and what is spent is the number of distinct pools the cases
     added to those the holdings asked about.
     */
    method Targeted(chains: seq<string>, plan: Plan) returns (goOn: bool, ghost byHoldings: set<string>)
      requires ledger.Valid() && Covered(ledger.log) == []
      requires DistinctMarkets(plan.positions) && (forall t :: t in plan.positions ==> t.need == POSITION_VALUATION)
      requires AllCases(plan.targets)
      requires forall i, j :: 0 <= i < j < |chains| ==> chains[i] != chains[j]
      requires AllPrefixed(plan.positions) && AllPrefixed(plan.targets) && ledger.asked == {} && ledger.twice == {}
      modifies ledger
      ensures ledger.Valid()
      ensures NoDuplicates(Covered(ledger.log)) && forall x :: x in Covered(ledger.log) ==> x in Identities(plan.positions)
      ensures ledger.twice == {}
      ensures byHoldings <= ledger.asked && ledger.spent == old(ledger.spent) + |ledger.asked - byHoldings|
    {
      hide OnVisited, AllPrefixed, AllCases, PoolsOf, CoveredIn, NoDuplicates, DistinctMarkets;
      var held := Positions(chains, plan);
      byHoldings := ledger.asked;
      assert ledger.asked - byHoldings == {};
      if held.None? { return false, byHoldings; }
      ghost var covered := Covered(ledger.log);
      assert OnVisited({}, plan.targets, chains[..0]) by { NothingVisited(plan.targets, chains[..0]); }
      for i := 0 to |chains|
        invariant ledger.Valid() && Covered(ledger.log) == covered && ledger.twice == {}
        invariant byHoldings <= ledger.asked && ledger.spent == old(ledger.spent) + |ledger.asked - byHoldings|
        invariant OnVisited(ledger.asked - byHoldings, plan.targets, chains[..i])
      {
        assert chains[..i + 1] == chains[..i] + [chains[i]];
        var goes := TargetedOn(chains[i], chains[..i], plan, held.value, byHoldings);
        if !goes { return false, byHoldings; }
      }
      goOn := true;
    }

    /** The cases of one chain: those on a holding's market take its reading, the others share one request. */
    method TargetedOn(chain: string, ghost visited: seq<string>, plan: Plan, held: map<string, Option<MarketIdentity>>,
                      ghost byHoldings: set<string>)
      returns (goOn: bool)
      requires ledger.Valid() && AllCases(plan.targets) && AllPrefixed(plan.targets)
      requires held.Keys == byHoldings <= ledger.asked && chain !in visited
      requires OnVisited(ledger.asked - byHoldings, plan.targets, visited)
      modifies ledger
      ensures ledger.Valid() && Covered(ledger.log) == old(Covered(ledger.log)) && ledger.twice == old(ledger.twice)
      ensures byHoldings <= ledger.asked
      ensures ledger.spent == old(ledger.spent) + |ledger.asked - byHoldings| - |old(ledger.asked) - byHoldings|
      ensures OnVisited(ledger.asked - byHoldings, plan.targets, visited + [chain])
    {
      hide OnVisited, AllPrefixed, AllCases, StillWanted, PoolsOf, Covered, CountAnswers, HeldToIdentity;
      var wanted, answered := Answered(chain, plan, held);
      ChainPools(ledger.asked - byHoldings, plan.targets, visited, wanted, chain, byHoldings);
      if !answered { return false; }
      if wanted == [] { return true; }
      var affordable := Affordable(wanted);
      if !affordable { return true; }
      goOn := AskAnew(chain, visited, plan, wanted, byHoldings);
    }

    /** Whether time and budget allow another request; where not, the targets are visibly not asked about. */
    method Affordable(wanted: seq<Target>) returns (affordable: bool)
      requires ledger.Valid()
      modifies ledger
      ensures ledger.Valid() && Covered(ledger.log) == old(Covered(ledger.log))
      ensures ledger.asked == old(ledger.asked) && ledger.twice == old(ledger.twice) && ledger.spent == old(ledger.spent)
    {
      var expired := ledger.Expired(world);
      affordable := !expired && ledger.Room() != 0;
      if !affordable {
        ledger.stop := if expired then TIME_BUDGET_REACHED else MARKET_BUDGET_REACHED;
        ledger.NoteAll(wanted, NOT_ATTEMPTED);
      }
    }

    method AskAnew(ghost chain: string, ghost visited: seq<string>, ghost plan: Plan, wanted: seq<Target>, ghost byHoldings: set<string>)
      returns (goOn: bool)
      requires ledger.Valid() && AllCases(wanted)
      requires byHoldings <= ledger.asked
      requires PoolsOf(wanted) * byHoldings == {} && PoolsOf(wanted) * (ledger.asked - byHoldings) == {}
      requires OnVisited(ledger.asked - byHoldings + PoolsOf(wanted), plan.targets, visited + [chain])
      modifies ledger
      ensures ledger.Valid() && Covered(ledger.log) == old(Covered(ledger.log)) && ledger.twice == old(ledger.twice)
      ensures byHoldings <= ledger.asked
      ensures ledger.spent == old(ledger.spent) + |ledger.asked - byHoldings| - |old(ledger.asked) - byHoldings|
      ensures OnVisited(ledger.asked - byHoldings, plan.targets, visited + [chain])
    {
      hide OnVisited, AllCases, PoolsOf, Covered, CountAnswers, HeldToIdentity;
      ghost var before, pools := ledger.asked, PoolsOf(wanted);
      AwayFromBoth(pools, byHoldings, before);
      var ended, added := Ask(wanted);
      AddedBeside(before, byHoldings, pools, added);
      VisitSome(before - byHoldings, added, pools, plan.targets, visited + [chain]);
      goOn := !ended;
    }

    /** The chain's cases that a holding's answer settles, settled; the rest is what is still wanted. */
    method Answered(chain: string, plan: Plan, held: map<string, Option<MarketIdentity>>)
      returns (wanted: seq<Target>, goOn: bool)
      requires ledger.Valid() && AllCases(plan.targets)
      modifies ledger
      ensures ledger.Valid() && Covered(ledger.log) == old(Covered(ledger.log))
      ensures ledger.asked == old(ledger.asked) && ledger.twice == old(ledger.twice) && ledger.spent == old(ledger.spent)
      ensures StillWanted(wanted, plan.targets, chain, held.Keys) && AllCases(wanted)
    {
      hide CountAnswers, HeldToIdentity, Covered;
      var all := OfChain(plan.targets, chain);
      OfChainExactly(plan.targets, chain);
      wanted := [];
      for k := 0 to |all|
        invariant ledger.Valid() && Covered(ledger.log) == old(Covered(ledger.log))
        invariant ledger.asked == old(ledger.asked) && ledger.twice == old(ledger.twice) && ledger.spent == old(ledger.spent)
        invariant forall t :: t in wanted ==> t in plan.targets && t.identity.chain == chain && t.identity.pairId !in held
      {
        assert all[k] in all;
        if all[k].identity.pairId !in held {
          wanted := wanted + [all[k]];
        } else if held[all[k].identity.pairId].None? {
          ledger.NoteAll([all[k]], REFUSED);
        } else {
          CaseCoversNothing(ledger.log, all[k]);
          var recorded := ledger.Record(held[all[k].identity.pairId].value, all[k], world);
          if !recorded { return wanted, false; }
        }
      }
      goOn := true;
    }

    /** The distinct markets this run may still observe in one request. */
    method Choose(wanted: seq<Target>) returns (batch: seq<Target>)
      requires ledger.Valid() && AllCases(wanted)
      ensures |batch| <= ledger.Room() && |batch| <= MAX_POOLS_PER_REQUEST
      ensures forall t :: t in batch ==> t.need == CASE_MARKET && t in wanted
    {
      var distinct: seq<Target> := [];
      for k := 0 to |wanted|
        invariant forall t :: t in distinct ==> t.need == CASE_MARKET && t in wanted
      {
        if !exists t :: t in distinct && t.identity.pairId == wanted[k].identity.pairId {
          distinct := distinct + [wanted[k]];
        }
      }
      var size := if ledger.Room() <= MAX_POOLS_PER_REQUEST then ledger.Room() else MAX_POOLS_PER_REQUEST;
      batch := if |distinct| <= size then distinct else distinct[..size];
    }

    /** One request for a batch fixed before it leaves; what the budget leaves out is visibly not asked about. */
    method Ask(wanted: seq<Target>) returns (ended: bool, ghost added: set<string>)
      requires ledger.Valid() && AllCases(wanted)
      requires PoolsOf(wanted) * ledger.asked == {}
      modifies ledger
      ensures ledger.Valid() && Covered(ledger.log) == old(Covered(ledger.log)) && ledger.twice == old(ledger.twice)
      ensures added <= PoolsOf(wanted) && ledger.asked == old(ledger.asked) + added
      ensures ledger.spent == old(ledger.spent) + |added| && |added| <= MAX_POOLS_PER_REQUEST
    {
      hide PoolsOf, Covered, CountAnswers, HeldToIdentity;
      var batch := Choose(wanted);
      var left, taken := Split(wanted, set t <- batch :: t.identity.pairId);
      added := {};
      if left != [] {
        ledger.NoteAll(left, NOT_ATTEMPTED);
        ledger.stop := MARKET_BUDGET_REACHED;
      }
      if batch == [] { return false, added; }
      PartOfPools(batch, wanted);
      added := PoolsOf(batch);
      DisjointCount(ledger.asked, added);
      PoolCount(batch);
      ledger.Commit(batch);
      ended := Request(batch, taken);
    }

    /** The request itself, and every answer recorded under the target it was asked as. */
    method Request(batch: seq<Target>, taken: seq<Target>) returns (ended: bool)
      requires ledger.Valid() && AllCases(taken)
      modifies ledger
      ensures ledger.Valid() && Covered(ledger.log) == old(Covered(ledger.log)) && ledger.spent == old(ledger.spent)
      ensures ledger.asked == old(ledger.asked) && ledger.twice == old(ledger.twice)
    {
      hide Covered, CountAnswers, HeldToIdentity, ByPair;
      var answer := ledger.Observe(world);
      if !answer.Confirmed? {
        ledger.NoteAll(batch, FAILED);
        var carriesOn := answer.Failed? && answer.unsupportedNetwork;
        if !carriesOn { ledger.stop := if answer.TimedOut? then TIME_BUDGET_REACHED else PROVIDER_FAILED; }
        return !carriesOn;
      }
      var returned := ByPair(answer.pairs);
      for k := 0 to |taken|
        invariant ledger.Valid() && Covered(ledger.log) == old(Covered(ledger.log)) && ledger.spent == old(ledger.spent)
        invariant ledger.asked == old(ledger.asked) && ledger.twice == old(ledger.twice)
      {
        var target := taken[k];
        assert target in taken;
        if target.identity.pairId !in returned {
          ledger.NoteAll([target], REFUSED);
        } else {
          var recorded := ledger.Record(returned[target.identity.pairId], target, world);
          if !recorded { return true; }
        }
      }
      ended := false;
    }

    method Split(wanted: seq<Target>, chosen: set<string>) returns (left: seq<Target>, taken: seq<Target>)
      ensures forall t :: t in left <==> t in wanted && t.identity.pairId !in chosen
      ensures forall t :: t in taken <==> t in wanted && t.identity.pairId in chosen
    {
      left, taken := [], [];
      for k := 0 to |wanted|
        invariant forall t :: t in left <==> t in wanted[..k] && t.identity.pairId !in chosen
        invariant forall t :: t in taken <==> t in wanted[..k] && t.identity.pairId in chosen
      {
        assert wanted[..k + 1] == wanted[..k] + [wanted[k]];
        if wanted[k].identity.pairId in chosen { taken := taken + [wanted[k]]; } else { left := left + [wanted[k]]; }
      }
      assert wanted[..|wanted|] == wanted;
    }

    /**
     One bounded read per permitted chain with the budget left.  Every read spends the capacity it was allowed
     to bring back, before it is made, and keeps it spent whatever comes of it: the reads done are
     the first chains' of the plan, each with the allowance the budget then left, and their sum is what was spent.
     */
    method Discovery(plan: Plan) returns (goOn: bool, ghost done: seq<DiscoveryRead>)
      requires ledger.Valid()
      modifies ledger
      ensures ledger.Valid() && Covered(ledger.log) == old(Covered(ledger.log)) && ledger.twice == old(ledger.twice)
      ensures ledger.discovered == old(ledger.discovered) + done && Allowed(done, ledger.limits, old(ledger.spent))
      ensures ledger.spent == old(ledger.spent) + Reserved(done)
      ensures |done| <= |plan.discovery| && forall k :: 0 <= k < |done| ==> done[k].chain == plan.discovery[k]
      ensures goOn ==> |done| == |plan.discovery|
    {
      hide Covered, CountAnswers, HeldToIdentity, Allowed, Reserved;
      assert Reserved([]) == 0 && Allowed([], ledger.limits, ledger.spent) by { NoReads(ledger.limits, ledger.spent); }
      done := [];
      for i := 0 to |plan.discovery|
        invariant ledger.Valid() && Covered(ledger.log) == old(Covered(ledger.log)) && ledger.twice == old(ledger.twice)
        invariant ledger.discovered == old(ledger.discovered) + done && Allowed(done, ledger.limits, old(ledger.spent))
        invariant ledger.spent == old(ledger.spent) + Reserved(done)
        invariant |done| == i && forall k :: 0 <= k < i ==> done[k].chain == plan.discovery[k]
      {
        if ledger.Room() == 0 {
          ledger.stop := MARKET_BUDGET_REACHED;
          return false, done;
        }
        var expired := ledger.Expired(world);
        if expired {
          ledger.stop := TIME_BUDGET_REACHED;
          return false, done;
        }
        var goes, read := Discover(plan.discovery[i]);
        OneMoreRead(done, read, ledger.limits, old(ledger.spent));
        done := done + [read];
        if !goes { return false, done; }
      }
      goOn := true;
    }

    /** One read: reserved, made, accounted for, and what it brought recorded; false ends the pass. */
    method Discover(chain: string) returns (goOn: bool, ghost read: DiscoveryRead)
      requires ledger.Valid()
      modifies ledger
      ensures ledger.Valid() && Covered(ledger.log) == old(Covered(ledger.log)) && ledger.twice == old(ledger.twice)
      ensures ledger.spent == old(ledger.spent) + Allowance(ledger.limits, old(ledger.spent))
      ensures ledger.discovered == old(ledger.discovered) + [read]
      ensures read.chain == chain && read.reserved == Allowance(ledger.limits, old(ledger.spent))
    {
      hide Covered, CountAnswers, HeldToIdentity;
      var allowance := if ledger.limits.poolsPerChain <= ledger.Room() then ledger.limits.poolsPerChain else ledger.Room();
      ledger.Reserve(allowance);
      ghost var spent := ledger.spent;
      var answer := world.discover(ledger.calls);
      ledger.calls := ledger.calls + 1;
      if !answer.Confirmed? {
        read := DiscoveryRead(chain, allowance, None);
        ledger.Read(chain, allowance, None);
        if answer.TimedOut? {
          ledger.stop := TIME_BUDGET_REACHED;
          return false, read;
        }
        ledger.FailedRead(chain);
        if !answer.unsupportedNetwork { ledger.stop := PROVIDER_FAILED; }
        return answer.unsupportedNetwork, read;
      }
      read := DiscoveryRead(chain, allowance, Some(|answer.pairs|));
      ledger.Read(chain, allowance, Some(|answer.pairs|));
      for k := 0 to |answer.pairs|
        invariant ledger.Valid() && Covered(ledger.log) == old(Covered(ledger.log)) && ledger.twice == old(ledger.twice)
        invariant ledger.spent == spent && ledger.discovered == old(ledger.discovered) + [read]
      {
        var recorded := ledger.Record(answer.pairs[k], Target(answer.pairs[k], NEW_CANDIDATE), world);
        if !recorded { return false, read; }
      }
      goOn := true;
    }

    /**
     The whole pass over the open holdings: whatever the provider, the recorder and the clock do, the budget
     holds, no pool is asked about twice, no answer is recorded for a market it is not of, and a coverage without deficit means that the
     market of every open holding was recorded or replayed under exactly its own identity.
     */
    method Execute(chains: seq<string>, holdings: seq<Holding>, usable: MarketIdentity -> bool, cases: seq<Target>)
      returns (complete: bool)
      requires ledger.Valid() && Covered(ledger.log) == [] && ledger.stop == COMPLETED
      requires AllCases(cases)
      requires forall i, j :: 0 <= i < j < |chains| ==> chains[i] != chains[j]
      requires forall h :: h in holdings && h.identity.Some? ==> Prefixed(h.identity.value)
      requires AllPrefixed(cases) && ledger.asked == {} && ledger.twice == {}
      modifies ledger
      ensures ledger.spent <= ledger.limits.maxMarkets
      ensures HeldToIdentity(ledger.log) && ledger.twice == {}
      ensures complete ==>
                forall h :: h in holdings ==>
                  && Addressable(h, usable)
                  && exists n :: n in ledger.log && IsAnswer(n.outcome) && n.observed == h.identity
    {
      var held, unaddressable := PlanPositions(holdings, usable);
      var capacity := ledger.limits.maxPositionMarkets;
      var positions := if |held| <= capacity then held else held[..capacity];
      var overflow := if |held| <= capacity then [] else held[capacity..];
      assert held == positions + overflow;
      var discovery := if |chains| <= ledger.limits.maxDiscoveryRequests then chains else chains[..ledger.limits.maxDiscoveryRequests];
      Pass(chains, Plan(cases, discovery, [], positions, overflow, |holdings|, unaddressable));
      var answered := AnswersIn(ledger.entries);
      complete := |positions| + |overflow| + unaddressable <= answered;
      if complete {
        NoDeficitCoversAll(Covered(ledger.log), positions, |overflow|, unaddressable);
        forall h | h in holdings
          ensures Addressable(h, usable)
          ensures exists n :: n in ledger.log && IsAnswer(n.outcome) && n.observed == h.identity
        {
          HoldingAnswered(h, held, ledger.log, usable);
        }
      }
    }

    /** The pass over a plan: the holdings beyond the position budget first, visibly not asked about. */
    method Pass(chains: seq<string>, plan: Plan)
      requires ledger.Valid() && Covered(ledger.log) == []
      requires DistinctMarkets(plan.positions) && (forall t :: t in plan.positions ==> t.need == POSITION_VALUATION)
      requires AllCases(plan.targets)
      requires forall i, j :: 0 <= i < j < |chains| ==> chains[i] != chains[j]
      requires AllPrefixed(plan.positions) && AllPrefixed(plan.targets) && ledger.asked == {} && ledger.twice == {}
      modifies ledger
      ensures ledger.Valid() && ledger.twice == {}
      ensures NoDuplicates(Covered(ledger.log)) && forall x :: x in Covered(ledger.log) ==> x in Identities(plan.positions)
    {
      hide DistinctMarkets, NoDuplicates;
      assert NoDuplicates([]) by { NothingTwice(); }
      ledger.NoteAll(plan.positionOverflow, NOT_ATTEMPTED);
      if plan.targets == [] && plan.discovery == [] && plan.positions == [] {
        ledger.stop := NOTHING_TO_ACQUIRE;
        return;
      }
      var goOn;
      ghost var byHoldings;
      goOn, byHoldings := Targeted(chains, plan);
      if goOn {
        ghost var done;
        goOn, done := Discovery(plan);
      }
    }
  }

  lemma NothingTwice()
    ensures NoDuplicates([])
  {
  }

  lemma HoldingAnswered(holding: Holding, held: seq<Target>, log: seq<Noted>, usable: MarketIdentity -> bool)
    requires Addressable(holding, usable) && Names(held, holding.identity.value) && HeldToIdentity(log)
    requires forall t :: t in held ==> t.identity in Covered(log)
    ensures exists n :: n in log && IsAnswer(n.outcome) && n.observed == holding.identity
  {
    CoveredWasAnswered(log, holding.identity.value);
  }

  function AnyMarket(): MarketIdentity {
    MarketIdentity("", "", "", "", "", "", "", None, false)
  }

  /** `answered` of the coverage: the holdings' entries recorded or replayed, counted one by one. */
  method AnswersIn(entries: seq<Entry>) returns (answered: nat)
    ensures answered == CountAnswers(entries)
  {
    answered := 0;
    for i := 0 to |entries|
      invariant answered == CountAnswers(entries[..i])
    {
      assert entries[..i + 1][..i] == entries[..i];
      if entries[i].need == POSITION_VALUATION && IsAnswer(entries[i].outcome) { answered := answered + 1; }
    }
    assert entries[..|entries|] == entries;
  }
}
