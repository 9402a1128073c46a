/** The legacy layouts of legacy.rs that the rest of the contract still
  * reads: the `SeedFarmV0` farm, whose methods update it in place, and the
  * `FarmerSeedOld` position, together with their conversions to the
  * current layouts. */
module Legacy {
  import opened Base
  import opened SeedFarms
  import opened FarmerSeeds

  /** A farm in the V0 layout. Its abstract value is its conversion to the
    * current layout, `ToSeedFarm()`, and every method is specified by the
    * emission functions of `SeedFarms` on that value. */
  class SeedFarmV0 {
    var farmId: FarmId
    var terms: FarmTerms
    var totalReward: Balance
    var distributedAt: Timestamp
    var distributedReward: Balance
    var claimedReward: Balance
    var amountOfBeneficiary: Balance
    var rps: real
    /** Not persisted: `None` until the farm is first updated after loading. */
    var status: Option<FarmStatus>

    /** `From<SeedFarmV0> for SeedFarm`: every field carries over and the
      * current layout's withdrawn-beneficiary counter starts at zero. */
    function ToSeedFarm(): (f: SeedFarm)
      reads this
      ensures f.amountOfWithdrewBeneficiary == 0
      ensures f.farmId == farmId && f.terms == terms && f.totalReward == totalReward
      ensures f.distributedAt == distributedAt && f.distributedReward == distributedReward
      ensures f.claimedReward == claimedReward && f.amountOfBeneficiary == amountOfBeneficiary
      ensures f.rps == rps && f.status == status
    {
      SeedFarm(farmId, terms, totalReward, distributedAt, distributedReward, claimedReward,
               amountOfBeneficiary, 0, rps, status)
    }

    predicate Valid()
      reads this
    {
      FarmValid(ToSeedFarm())
    }

    /** `has_ended`; reading the status before any update panics. */
    function HasEnded(): (r: Result<bool>)
      reads this
      ensures r.Ok? <==> status.Some?
      ensures r.Ok? ==> (r.value <==> status == Some(Ended))
      ensures r.Err? ==> r.error == MissingValue
    {
      if status.None? then Err(MissingValue) else Ok(status.value == Ended)
    }

    /** `internal_update_status`. */
    method InternalUpdateStatus(now: Timestamp)
      modifies this`status
      ensures ToSeedFarm() == old(ToSeedFarm()).(status := Some(StatusAt(old(ToSeedFarm()), now)))
    {
      if terms.startAt == 0 || ToNano(terms.startAt) >= now {
        status := Some(Created);
      } else if totalReward == 0 && ToNano(terms.startAt) < now {
        status := Some(Pending);
      } else if totalReward > 0 && distributedReward >= totalReward {
        status := Some(Ended);
      } else {
        status := Some(Running);
      }
    }

    /** `update(seed_power)` at block time `now`. */
    method Update(seedPower: Balance, now: Timestamp)
      requires Valid()
      modifies this
      ensures Valid()
      ensures ToSeedFarm() == Updated(old(ToSeedFarm()), seedPower, now)
    {
      ghost var f := ToSeedFarm();
      UpdateKeeps(f, seedPower, now);
      InternalUpdateStatus(now);
      if now <= distributedAt {
        return;
      }
      match status.value {
        case Ended =>
          distributedAt := now;
        case Running =>
          var reward := Min(totalReward - distributedReward,
                            Ratio(terms.dailyReward, now - distributedAt, NANOS_PER_DAY));
          assert reward == Release(f, now);
          distributedReward := distributedReward + reward;
          if seedPower > 0 {
            rps := rps + reward as real / seedPower as real;
          } else {
            amountOfBeneficiary := amountOfBeneficiary + reward;
          }
          distributedAt := now;
          InternalUpdateStatus(now);
        case _ =>
      }
    }

    /** `add_reward`: returns the new total and the start time; a rejected
      * call changes nothing. */
    method AddReward(token: TokenId, amount: Balance, now: Timestamp) returns (r: Result<(Balance, nat)>)
      requires Valid()
      modifies this
      ensures Valid()
      ensures match RewardAdded(old(ToSeedFarm()), token, amount, now)
        case Err(e) => r == Err(e) && ToSeedFarm() == old(ToSeedFarm())
        case Ok((g, out)) => r == Ok(out) && ToSeedFarm() == g
    {
      if terms.rewardToken != token {
        return Err(E404UnmatchedRewardToken);
      }
      if terms.startAt == 0 {
        terms := terms.(startAt := NanoToSec(now));
        distributedAt := now;
      }
      totalReward := totalReward + amount;
      r := Ok((totalReward, terms.startAt));
    }

    /** `finalize`: only an ended farm may hand its unclaimed emission to
      * the beneficiary; a rejected call changes nothing. */
    method Finalize() returns (r: Outcome)
      requires Valid()
      modifies this
      ensures Valid()
      ensures match Finalized(old(ToSeedFarm()))
        case Err(e) => r == Fail(e) && ToSeedFarm() == old(ToSeedFarm())
        case Ok(g) => r == Pass && ToSeedFarm() == g
    {
      var ended := HasEnded();
      if ended.Err? {
        return Fail(ended.error);
      }
      if !ended.value {
        return Fail(E405FarmNotEnded);
      }
      if claimedReward > distributedReward {
        return Fail(ArithmeticUnderflow);
      }
      amountOfBeneficiary := distributedReward - claimedReward;
      r := Pass;
    }
  }

  /** A farmer's position in the layout before shadow seeds existed. */
  datatype FarmerSeedOld = FarmerSeedOld(
    freeAmount: Balance,
    lockedAmount: Balance,
    xLockedAmount: Balance,
    unlockTimestamp: Timestamp,
    durationSec: nat,
    boostRatio: nat,
    userRps: map<FarmId, real>)

  /** `From<FarmerSeedOld> for FarmerSeed`: a migrated position holds no
    * shadow seed and keeps its amount, its power and its reward checkpoints. */
  function ToFarmerSeed(o: FarmerSeedOld): (fs: FarmerSeed)
    ensures fs.shadowAmount == 0
    ensures Amount(fs) == o.freeAmount + o.lockedAmount
    ensures BasicPower(fs) == o.freeAmount + o.xLockedAmount
    ensures fs.boostRatio == o.boostRatio && fs.userRps == o.userRps
    ensures fs.unlockTimestamp == o.unlockTimestamp && fs.durationSec == o.durationSec
  {
    FarmerSeed(o.freeAmount, 0, o.lockedAmount, o.xLockedAmount, o.unlockTimestamp,
               o.durationSec, o.boostRatio, o.userRps)
  }
}
