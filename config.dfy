/** The contract-wide configuration (lib.rs): slash rate, booster table,
  * farm limits and the locking policy. */
module Configs {
  import opened Base

  /** A booster seed and the seeds it boosts, each with its log base. */
  datatype BoosterInfo = BoosterInfo(boosterDecimal: nat, affectedSeeds: map<SeedId, nat>)

  datatype Config = Config(
    seedSlashRate: nat,
    boosterSeeds: map<SeedId, BoosterInfo>,
    maxNumFarmsPerBooster: nat,
    maxNumFarmsPerSeed: nat,
    maximumLockingDurationSec: nat,
    /** Basis points of the locking multiplier at the maximum duration. */
    maxLockingMultiplier: nat,
    /** Seconds an unstaked seed waits before it can be withdrawn. */
    delayWithdrawSec: nat)

  /** A configuration whose maximum locking multiplier exceeds 100%. */
  predicate IsValid(c: Config) {
    c.maxLockingMultiplier > MIN_LOCKING_REWARD_RATIO
  }

  /** `Config::default()`. */
  function Default(): (c: Config)
    ensures IsValid(c) && c.boosterSeeds == map[]
    ensures c.maxLockingMultiplier == 2 * MIN_LOCKING_REWARD_RATIO
  {
    Config(DEFAULT_SEED_SLASH_RATE, map[], DEFAULT_MAX_NUM_FARMS_PER_BOOSTER,
           DEFAULT_MAX_NUM_FARMS_PER_SEED, DEFAULT_MAX_LOCKING_DURATION_SEC,
           DEFAULT_MAX_LOCKING_REWARD_RATIO, DEFAULT_DELAY_WITHDRAW_SEC)
  }

  /** `Config::assert_valid`: rejects with E200 every configuration whose
    * multiplier would not reward locking. */
  function AssertValid(c: Config): (r: Outcome)
    ensures r == Pass <==> IsValid(c)
    ensures r != Pass ==> r == Fail(E200InvalidRatio)
  {
    if c.maxLockingMultiplier > MIN_LOCKING_REWARD_RATIO then Pass else Fail(E200InvalidRatio)
  }

  /** `get_affected_seeds_from_booster`. */
  function GetAffectedSeedsFromBooster(c: Config, boosterId: SeedId): (r: Option<BoosterInfo>)
    ensures r.Some? <==> boosterId in c.boosterSeeds
    ensures r.Some? ==> r.value == c.boosterSeeds[boosterId]
  {
    if boosterId in c.boosterSeeds then Some(c.boosterSeeds[boosterId]) else None
  }

  /** `get_boosters_from_seed`: every other booster whose affected seeds
    * contain `seedId`, with its decimal and the log base it applies to
    * `seedId`. The source collects them in hash-map order; the model keeps
    * the set. */
  function GetBoostersFromSeed(c: Config, seedId: SeedId): (r: set<(SeedId, nat, nat)>)
    ensures forall e :: e in r ==>
      e.0 in c.boosterSeeds && e.0 != seedId && seedId in c.boosterSeeds[e.0].affectedSeeds
      && e.1 == c.boosterSeeds[e.0].boosterDecimal
      && e.2 == c.boosterSeeds[e.0].affectedSeeds[seedId]
    ensures forall b :: b in c.boosterSeeds && b != seedId && seedId in c.boosterSeeds[b].affectedSeeds ==>
      (b, c.boosterSeeds[b].boosterDecimal, c.boosterSeeds[b].affectedSeeds[seedId]) in r
  {
    set b | b in c.boosterSeeds && b != seedId && seedId in c.boosterSeeds[b].affectedSeeds
      :: (b, c.boosterSeeds[b].boosterDecimal, c.boosterSeeds[b].affectedSeeds[seedId])
  }
}
