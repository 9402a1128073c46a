/** A staking seed as the farmer actions load and store it: its totals, its
  * deposit and locking rules, and its farms. */
module Seeds {
  import opened Base
  import opened SeedFarms

  datatype Seed = Seed(
    seedId: SeedId,
    totalSeedAmount: Balance,
    totalSeedPower: Balance,
    minDeposit: Balance,
    slashRate: nat,
    /** 0 forbids locking this seed. */
    minLockingDurationSec: nat,
    farms: map<FarmId, SeedFarm>,
    farmerCount: nat)

  predicate SeedFarmsValid(s: Seed) {
    forall f :: f in s.farms ==> FarmValid(s.farms[f])
  }

  /** The seed as `internal_unwrap_seed` hands it out: every farm brought up
    * to block time `now` under the seed's current total power. */
  function SeedUpdated(s: Seed, now: Timestamp): (r: Seed)
    ensures r.farms.Keys == s.farms.Keys
    ensures r == s.(farms := r.farms)
  {
    s.(farms := map f | f in s.farms :: Updated(s.farms[f], s.totalSeedPower, now))
  }

  /** Loading a seed keeps every farm valid and releases, farm by farm, at
    * most the daily rate over the time since that farm's last update. */
  lemma SeedUpdatedPaced(s: Seed, now: Timestamp, f: FarmId)
    requires SeedFarmsValid(s) && f in s.farms
    ensures SeedFarmsValid(SeedUpdated(s, now))
    ensures var a, b := s.farms[f], SeedUpdated(s, now).farms[f];
      b.claimedReward == a.claimedReward && b.totalReward == a.totalReward && b.terms == a.terms
      && (b.distributedReward - a.distributedReward) * NANOS_PER_DAY
         <= a.terms.dailyReward * (b.distributedAt - a.distributedAt)
  {
    forall g | g in s.farms ensures FarmValid(SeedUpdated(s, now).farms[g]) {
      UpdateKeeps(s.farms[g], s.totalSeedPower, now);
    }
    UpdateKeeps(s.farms[f], s.totalSeedPower, now);
    UpdatePacedByClock(s.farms[f], s.totalSeedPower, now);
  }

  /** `update_claimed`: each farm's claimed counter grows by what the claim
    * took from it. */
  function UpdateClaimed(s: Seed, claimed: map<FarmId, Balance>): (r: Seed)
    ensures r.farms.Keys == s.farms.Keys
    ensures r == s.(farms := r.farms)
    ensures forall f :: f in s.farms ==>
      r.farms[f] == s.farms[f].(claimedReward := s.farms[f].claimedReward + Get(claimed, f, 0))
  {
    s.(farms := map f | f in s.farms ::
                  s.farms[f].(claimedReward := s.farms[f].claimedReward + Get(claimed, f, 0)))
  }
}
