/** One reward farm of a seed: its status, its linear emission and its
  * reward-per-seed accumulator. The current `SeedFarm` layout is the legacy
  * `SeedFarmV0` plus `amountOfWithdrewBeneficiary`; both run the emission
  * algorithm of legacy.rs, which this module states on values. */
module SeedFarms {
  import opened Base

  datatype FarmTerms = FarmTerms(
    rewardToken: TokenId,
    /** Start of emission in seconds; 0 means "when the first reward arrives". */
    startAt: nat,
    dailyReward: Balance)

  datatype FarmStatus = Created | Pending | Running | Ended

  datatype SeedFarm = SeedFarm(
    farmId: FarmId,
    terms: FarmTerms,
    /** Every reward ever deposited into the farm. */
    totalReward: Balance,
    /** Nanosecond timestamp up to which emission has been accounted. */
    distributedAt: Timestamp,
    distributedReward: Balance,
    claimedReward: Balance,
    /** Emission that found no seed power staked. */
    amountOfBeneficiary: Balance,
    amountOfWithdrewBeneficiary: Balance,
    /** Reward per unit of seed power since the farm began. */
    rps: real,
    status: Option<FarmStatus>)

  /** `internal_update_status`: the status a farm has at block time `now`. */
  function StatusAt(f: SeedFarm, now: Timestamp): (s: FarmStatus)
    ensures s == Created <==> f.terms.startAt == 0 || ToNano(f.terms.startAt) >= now
    ensures s == Pending <==> s != Created && f.totalReward == 0
    ensures s == Ended <==> s != Created && 0 < f.totalReward <= f.distributedReward
    ensures s == Running <==> s != Created && f.distributedReward < f.totalReward
  {
    if f.terms.startAt == 0 || ToNano(f.terms.startAt) >= now then Created
    else if f.totalReward == 0 && ToNano(f.terms.startAt) < now then Pending
    else if f.totalReward > 0 && f.distributedReward >= f.totalReward then Ended
    else Running
  }

  /** The reward a running farm releases between `distributedAt` and `now`:
    * the daily rate pro rata, capped by what remains undistributed. */
  function Release(f: SeedFarm, now: Timestamp): (r: Balance)
    requires f.distributedReward <= f.totalReward
    requires f.distributedAt < now
    ensures r <= f.totalReward - f.distributedReward
    ensures r * NANOS_PER_DAY <= f.terms.dailyReward * (now - f.distributedAt)
    ensures r == f.totalReward - f.distributedReward
            || r == Ratio(f.terms.dailyReward, now - f.distributedAt, NANOS_PER_DAY)
  {
    Min(f.totalReward - f.distributedReward,
        Ratio(f.terms.dailyReward, now - f.distributedAt, NANOS_PER_DAY))
  }

  /** `update(seed_power)` at block time `now`. */
  function Updated(f: SeedFarm, seedPower: Balance, now: Timestamp): SeedFarm {
    var status := StatusAt(f, now);
    var f1 := f.(status := Some(status));
    if now <= f.distributedAt then f1
    else if status == Ended then f1.(distributedAt := now)
    else if status == Running then
      var reward := Release(f, now);
      var f2 := if seedPower > 0
        then f1.(distributedReward := f.distributedReward + reward,
                 rps := f.rps + reward as real / seedPower as real,
                 distributedAt := now)
        else f1.(distributedReward := f.distributedReward + reward,
                 amountOfBeneficiary := f.amountOfBeneficiary + reward,
                 distributedAt := now);
      f2.(status := Some(StatusAt(f2, now)))
    else f1
  }

  /** `add_reward`: the farm after `amount` of its reward token arrives, and
    * the new total and start; a farm without a start time starts now. */
  function RewardAdded(f: SeedFarm, token: TokenId, amount: Balance, now: Timestamp)
    : (r: Result<(SeedFarm, (Balance, nat))>)
    ensures r.Err? <==> token != f.terms.rewardToken
    ensures r.Err? ==> r.error == E404UnmatchedRewardToken
    ensures r.Ok? ==> var (g, (total, start)) := r.value;
      g.totalReward == total == f.totalReward + amount && g.terms.startAt == start
      && (f.terms.startAt == 0 ==> start == NanoToSec(now) && g.distributedAt == now)
      && (f.terms.startAt != 0 ==> g == f.(totalReward := total))
      && g == f.(totalReward := total, terms := g.terms, distributedAt := g.distributedAt)
  {
    if token != f.terms.rewardToken then Err(E404UnmatchedRewardToken)
    else
      var g0 := if f.terms.startAt == 0
        then f.(terms := f.terms.(startAt := NanoToSec(now)), distributedAt := now)
        else f;
      var g := g0.(totalReward := g0.totalReward + amount);
      Ok((g, (g.totalReward, g.terms.startAt)))
  }

  /** `finalize`: an ended farm hands every distributed but unclaimed reward
    * to the beneficiary. */
  function Finalized(f: SeedFarm): (r: Result<SeedFarm>)
    ensures r.Ok? <==> f.status == Some(Ended) && f.claimedReward <= f.distributedReward
    ensures f.status.Some? && f.status != Some(Ended) ==> r == Err(E405FarmNotEnded)
    ensures r.Ok? ==> r.value == f.(amountOfBeneficiary := f.distributedReward - f.claimedReward)
  {
    if f.status.None? then Err(MissingValue)
    else if f.status.value != Ended then Err(E405FarmNotEnded)
    else if f.claimedReward > f.distributedReward then Err(ArithmeticUnderflow)
    else Ok(f.(amountOfBeneficiary := f.distributedReward - f.claimedReward))
  }

  /** What every farm keeps true: emission never exceeds deposits, and the
    * accumulator is never negative. */
  predicate FarmValid(f: SeedFarm) {
    f.distributedReward <= f.totalReward && f.rps >= 0.0
  }

  /** An update is a pure function of the farm's accounting fields: it
    * never touches the id, the terms, the deposits or the claims. */
  lemma UpdateKeeps(f: SeedFarm, seedPower: Balance, now: Timestamp)
    requires FarmValid(f)
    ensures var g := Updated(f, seedPower, now);
      FarmValid(g) && g.farmId == f.farmId && g.terms == f.terms && g.totalReward == f.totalReward
      && g.claimedReward == f.claimedReward && g.amountOfWithdrewBeneficiary == f.amountOfWithdrewBeneficiary
      && g.distributedReward >= f.distributedReward && g.rps >= f.rps
      && g.amountOfBeneficiary >= f.amountOfBeneficiary && g.distributedAt >= f.distributedAt
      && g.status == Some(StatusAt(g, now))
  {
    var g := Updated(f, seedPower, now);
    if now > f.distributedAt && StatusAt(f, now) == Running && seedPower > 0 {
      var reward := Release(f, now);
      assert reward as real / seedPower as real >= 0.0;
    }
  }

  /** Updating at or before the last accounted instant only refreshes the
    * status: nothing is released twice for the same interval. */
  lemma UpdateIdempotent(f: SeedFarm, seedPower: Balance, now: Timestamp)
    requires now <= f.distributedAt
    ensures Updated(f, seedPower, now) == f.(status := Some(StatusAt(f, now)))
    ensures Updated(Updated(f, seedPower, now), seedPower, now) == Updated(f, seedPower, now)
  {
  }

  /** A second update at the same instant changes nothing. */
  lemma {:induction false} UpdateTwiceSameInstant(f: SeedFarm, p: Balance, q: Balance, now: Timestamp)
    requires FarmValid(f)
    ensures Updated(Updated(f, p, now), q, now) == Updated(f, p, now)
  {
    var g := Updated(f, p, now);
    UpdateKeeps(f, p, now);
    if now <= f.distributedAt {
    } else {
      assert StatusAt(g, now) == g.status.value || g.distributedAt == f.distributedAt;
      if g.distributedAt < now {
        // Created or Pending: the farm stays as it was, only its status is refreshed.
        assert g == f.(status := Some(StatusAt(f, now)));
        assert StatusAt(g, now) == StatusAt(f, now);
      }
    }
  }

  /** A farm that has not started, or has started without rewards, keeps
    * its `distributedAt`: emission owed since the start is released once a
    * reward arrives. */
  lemma NotRunningKeepsClock(f: SeedFarm, seedPower: Balance, now: Timestamp)
    requires StatusAt(f, now) == Created || StatusAt(f, now) == Pending
    ensures Updated(f, seedPower, now) == f.(status := Some(StatusAt(f, now)))
  {
  }

  /** An ended farm only moves its clock forward. */
  lemma EndedOnlyAdvancesClock(f: SeedFarm, seedPower: Balance, now: Timestamp)
    requires StatusAt(f, now) == Ended && f.distributedAt < now
    ensures Updated(f, seedPower, now) == f.(status := Some(Ended), distributedAt := now)
  {
  }

  /** One running update releases exactly `Release(f, now)`: to the stakers
    * through `rps` when power is staked, otherwise to the beneficiary, never
    * to both; and the released reward is exactly recoverable from `rps`. */
  lemma RunningUpdateSplitsRelease(f: SeedFarm, seedPower: Balance, now: Timestamp)
    requires FarmValid(f) && StatusAt(f, now) == Running && f.distributedAt < now
    ensures var g := Updated(f, seedPower, now);
      g.distributedReward == f.distributedReward + Release(f, now)
      && g.distributedAt == now
      && (seedPower > 0 ==>
            g.amountOfBeneficiary == f.amountOfBeneficiary
            && (g.rps - f.rps) * seedPower as real == Release(f, now) as real)
      && (seedPower == 0 ==>
            g.rps == f.rps && g.amountOfBeneficiary == f.amountOfBeneficiary + Release(f, now))
  {
  }

  /** A running farm ends exactly when the release exhausts its deposits. */
  lemma RunningEndsWhenExhausted(f: SeedFarm, seedPower: Balance, now: Timestamp)
    requires FarmValid(f) && StatusAt(f, now) == Running && f.distributedAt < now
    ensures var g := Updated(f, seedPower, now);
      g.status == Some(Ended) <==> g.distributedReward == f.totalReward
  {
  }

  /** A top-up of an ended farm reopens it: the farm runs again and streams
    * the new reward at its daily rate from the moment its clock stopped. */
  lemma {:induction false} TopUpReopensEndedFarm(f: SeedFarm, amount: Balance, t1: Timestamp, t2: Timestamp)
    requires FarmValid(f) && f.status == Some(Ended) && f.distributedReward == f.totalReward
    requires f.terms.startAt != 0 && ToNano(f.terms.startAt) < f.distributedAt
    requires amount > 0 && f.distributedAt == t1 && t1 < t2
    ensures var g := RewardAdded(f, f.terms.rewardToken, amount, t1).value.0;
      StatusAt(g, t2) == Running
      && Updated(g, 0, t2).distributedReward
         == f.distributedReward + Min(amount, Ratio(f.terms.dailyReward, t2 - t1, NANOS_PER_DAY))
  {
    var g := RewardAdded(f, f.terms.rewardToken, amount, t1).value.0;
    assert g == f.(totalReward := f.totalReward + amount);
    assert StatusAt(g, t2) == Running;
    assert g.totalReward - g.distributedReward == amount;
  }

  /** The first two days of a farm paying 10 a day (units of 10^24): a day
    * with nothing staked goes to the beneficiary, and a day with power 100
    * staked owes exactly 10 to that power. */
  lemma {:induction false} BeneficiaryThenStaker(f: SeedFarm, start: nat)
    requires f.terms.startAt == start > 0 && f.distributedAt == ToNano(start)
    requires f.terms.dailyReward == 10 && f.totalReward == 100
    requires f.distributedReward == 0 && f.amountOfBeneficiary == 0 && f.rps == 0.0
    ensures var d1 := Updated(f, 0, ToNano(start) + NANOS_PER_DAY);
      var d2 := Updated(d1, 100, ToNano(start) + 2 * NANOS_PER_DAY);
      d1.amountOfBeneficiary == 10 && d1.rps == 0.0 && d1.status == Some(Running)
      && d2.distributedReward == 20 && d2.amountOfBeneficiary == 10
      && ((d2.rps - d1.rps) * 100.0).Floor == 10
  {
    var t1 := ToNano(start) + NANOS_PER_DAY;
    var t2 := ToNano(start) + 2 * NANOS_PER_DAY;
    assert StatusAt(f, t1) == Running;
    assert Release(f, t1) == 10;
    var d1 := Updated(f, 0, t1);
    assert d1.distributedAt == t1 && d1.distributedReward == 10;
    assert StatusAt(d1, t2) == Running;
    assert Release(d1, t2) == 10;
    var d2 := Updated(d1, 100, t2);
    assert d2.rps == d1.rps + 10.0 / 100.0;
  }

  /** One update never releases faster than the daily rate over the span
    * its clock advances. */
  lemma UpdatePacedByClock(f: SeedFarm, seedPower: Balance, now: Timestamp)
    requires FarmValid(f)
    ensures var g := Updated(f, seedPower, now);
      g.distributedAt >= f.distributedAt
      && (g.distributedReward - f.distributedReward) * NANOS_PER_DAY
         <= f.terms.dailyReward * (g.distributedAt - f.distributedAt)
  {
  }

  /** The farm after a series of updates, each with the seed power and the
    * block time it ran at. */
  function Replay(f: SeedFarm, steps: seq<(Balance, Timestamp)>): SeedFarm
    decreases |steps|
  {
    if steps == [] then f else Replay(Updated(f, steps[0].0, steps[0].1), steps[1..])
  }

  /** Linear emission: however the updates fall, a farm has released at most
    * its daily rate pro rata over the time its clock advanced, and never more
    * than was deposited. */
  lemma {:induction false} EmissionFollowsSchedule(f: SeedFarm, steps: seq<(Balance, Timestamp)>)
    requires FarmValid(f)
    ensures var g := Replay(f, steps);
      FarmValid(g) && g.totalReward == f.totalReward && g.terms == f.terms
      && g.distributedAt >= f.distributedAt && g.distributedReward >= f.distributedReward
      && (g.distributedReward - f.distributedReward) * NANOS_PER_DAY
         <= f.terms.dailyReward * (g.distributedAt - f.distributedAt)
    decreases |steps|
  {
    if steps != [] {
      var f1 := Updated(f, steps[0].0, steps[0].1);
      UpdateKeeps(f, steps[0].0, steps[0].1);
      UpdatePacedByClock(f, steps[0].0, steps[0].1);
      EmissionFollowsSchedule(f1, steps[1..]);
      var g := Replay(f1, steps[1..]);
      assert g == Replay(f, steps);
      PaceAdds(g.distributedReward - f1.distributedReward, f1.distributedReward - f.distributedReward,
               g.distributedAt - f1.distributedAt, f1.distributedAt - f.distributedAt, f.terms.dailyReward);
    }
  }

  /** Two spans each paced by the daily rate make one paced span. */
  lemma PaceAdds(x1: int, x2: int, t1: int, t2: int, d: int)
    requires x1 * NANOS_PER_DAY <= d * t1 && x2 * NANOS_PER_DAY <= d * t2
    ensures (x1 + x2) * NANOS_PER_DAY <= d * (t1 + t2)
  {
    assert (x1 + x2) * NANOS_PER_DAY == x1 * NANOS_PER_DAY + x2 * NANOS_PER_DAY;
    assert d * (t1 + t2) == d * t1 + d * t2;
  }
}
