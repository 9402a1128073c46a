/** A farmer's position in one seed: free, locked and shadow amounts, the
  * locked amount's power, the booster bonus and the per-farm reward
  * checkpoints. It also holds the locking helpers the seed actions call. */
module FarmerSeeds {
  import opened Base
  import opened Configs

  datatype FarmerSeed = FarmerSeed(
    freeAmount: Balance,
    /** Seed whose tokens stay in the exchange and are mirrored here. */
    shadowAmount: Balance,
    lockedAmount: Balance,
    /** The power of the locked amount, boosted by the locking multiplier. */
    xLockedAmount: Balance,
    /** Nanosecond time at which the lock matures; 0 when nothing is locked. */
    unlockTimestamp: Timestamp,
    durationSec: nat,
    /** The combined booster bonus, in units of 1/BOOST_DENOM of the basic power. */
    boostRatio: nat,
    /** For each farm, the farm's `rps` at this position's last claim. */
    userRps: map<FarmId, real>)

  /** The position of a farmer who holds nothing in the seed yet. */
  function EmptySeed(boostRatio: nat): FarmerSeed {
    FarmerSeed(0, 0, 0, 0, 0, 0, boostRatio, map[])
  }

  /** Power before boosting: free and shadow count once, locked counts with its multiplier. */
  function BasicPower(fs: FarmerSeed): nat {
    fs.freeAmount + fs.xLockedAmount + fs.shadowAmount
  }

  /** `get_seed_power`: the basic power with the booster bonus added. */
  function Power(fs: FarmerSeed): (p: nat)
    ensures p >= BasicPower(fs)
    ensures fs.boostRatio == 0 ==> p == BasicPower(fs)
  {
    BasicPower(fs) + BasicPower(fs) * fs.boostRatio / BOOST_DENOM
  }

  /** The amount of seed the position holds. */
  function Amount(fs: FarmerSeed): nat {
    fs.freeAmount + fs.lockedAmount + fs.shadowAmount
  }

  predicate IsEmpty(fs: FarmerSeed) {
    fs.freeAmount == 0 && fs.lockedAmount == 0 && fs.shadowAmount == 0
  }

  /** The locked power never falls below the locked amount. */
  predicate SeedValid(fs: FarmerSeed) {
    fs.xLockedAmount >= fs.lockedAmount
  }

  /** The power of `amount` locked for `durationSec`: the multiplier grows
    * linearly from 100% at no lock to `maxLockingMultiplier` at the maximum
    * duration. */
  function LockedPower(c: Config, amount: Balance, durationSec: nat): (x: nat)
    ensures x >= amount
  {
    if c.maximumLockingDurationSec == 0 || c.maxLockingMultiplier <= MIN_LOCKING_REWARD_RATIO then amount
    else amount + Ratio(amount, (c.maxLockingMultiplier - MIN_LOCKING_REWARD_RATIO) * durationSec,
                        MIN_LOCKING_REWARD_RATIO * c.maximumLockingDurationSec)
  }

  /** Within the policy's maximum duration, locking never multiplies power
    * by more than `maxLockingMultiplier`. */
  lemma LockedPowerAtMostMultiplier(c: Config, amount: Balance, durationSec: nat)
    requires IsValid(c) && 0 < c.maximumLockingDurationSec && durationSec <= c.maximumLockingDurationSec
    ensures LockedPower(c, amount, durationSec) * MIN_LOCKING_REWARD_RATIO <= amount * c.maxLockingMultiplier
  {
    var bonus := c.maxLockingMultiplier - MIN_LOCKING_REWARD_RATIO;
    var maxDur := c.maximumLockingDurationSec;
    var extra := Ratio(amount, bonus * durationSec, MIN_LOCKING_REWARD_RATIO * maxDur);
    MulLeLeft(durationSec, maxDur, bonus);
    MulLeLeft(bonus * durationSec, bonus * maxDur, amount);
    assert extra * (MIN_LOCKING_REWARD_RATIO * maxDur) <= amount * (bonus * maxDur);
    assert (extra * MIN_LOCKING_REWARD_RATIO) * maxDur <= (amount * bonus) * maxDur;
    MulCancel(extra * MIN_LOCKING_REWARD_RATIO, amount * bonus, maxDur);
    assert LockedPower(c, amount, durationSec) == amount + extra;
  }

  /** The locked power the tests exhibit under the default policy: 50 locked
    * for the maximum duration counts 100, for half of it 75. */
  lemma LockedPowerExamples()
    ensures LockedPower(Default(), 50, DEFAULT_MAX_LOCKING_DURATION_SEC) == 100
    ensures LockedPower(Default(), 50, DEFAULT_MAX_LOCKING_DURATION_SEC / 2) == 75
  {
  }

  /** `free_to_lock`: moves `amount` of free seed into the lock, re-locking
    * the whole locked amount for `durationSec` from `now`; returns the new
    * position and the power it gained. A lock that has not matured can only
    * be extended, never shortened. */
  function FreeToLock(fs: FarmerSeed, amount: Balance, durationSec: nat, c: Config, now: Timestamp)
    : (r: Result<(FarmerSeed, nat)>)
    ensures amount > fs.freeAmount ==> r == Err(E101InsufficientBalance)
    ensures r.Ok? ==> var (g, inc) := r.value;
      g.freeAmount + g.lockedAmount == fs.freeAmount + fs.lockedAmount
      && g.lockedAmount == fs.lockedAmount + amount
      && g.xLockedAmount == LockedPower(c, g.lockedAmount, durationSec)
      && g.unlockTimestamp == now + ToNano(durationSec) && g.durationSec == durationSec
      && g.shadowAmount == fs.shadowAmount && g.boostRatio == fs.boostRatio && g.userRps == fs.userRps
      && SeedValid(g) && Power(g) == Power(fs) + inc
    ensures r.Ok? ==> fs.lockedAmount == 0 || fs.unlockTimestamp <= now || fs.unlockTimestamp <= r.value.0.unlockTimestamp
    ensures (amount <= fs.freeAmount && fs.lockedAmount > 0 && now < fs.unlockTimestamp
             && now + ToNano(durationSec) < fs.unlockTimestamp) ==> r == Err(E304CausePreUnlock)
  {
    if fs.freeAmount < amount then Err(E101InsufficientBalance)
    else if fs.lockedAmount > 0 && fs.unlockTimestamp > now && now + ToNano(durationSec) < fs.unlockTimestamp
    then Err(E304CausePreUnlock)
    else
      var locked := fs.lockedAmount + amount;
      var g := fs.(freeAmount := fs.freeAmount - amount, lockedAmount := locked,
                   xLockedAmount := LockedPower(c, locked, durationSec),
                   unlockTimestamp := now + ToNano(durationSec), durationSec := durationSec);
      if Power(g) < Power(fs) then Err(ArithmeticUnderflow)
      else Ok((g, Power(g) - Power(fs)))
  }

  /** The locked power left when `amount` of `locked` leaves the lock:
    * the locked power shrinks in proportion. */
  function RemainingLockedPower(fs: FarmerSeed, amount: Balance): (x: nat)
    requires amount <= fs.lockedAmount
    ensures x <= fs.xLockedAmount
    ensures amount == fs.lockedAmount ==> x == 0
  {
    if fs.lockedAmount == amount then 0
    else
      RatioAtMost(fs.xLockedAmount, fs.lockedAmount - amount, fs.lockedAmount);
      Ratio(fs.xLockedAmount, fs.lockedAmount - amount, fs.lockedAmount)
  }

  /** In a valid position the locked power released with `amount` covers
    * `amount`, and what stays covers what stays locked. */
  lemma RemainingLockedPowerCovers(fs: FarmerSeed, amount: Balance)
    requires SeedValid(fs) && amount <= fs.lockedAmount
    ensures RemainingLockedPower(fs, amount) + amount <= fs.xLockedAmount
    ensures RemainingLockedPower(fs, amount) >= fs.lockedAmount - amount
  {
    var l, xl := fs.lockedAmount, fs.xLockedAmount;
    if l != amount {
      var x := RemainingLockedPower(fs, amount);
      assert x * l <= xl * (l - amount);
      MulLeLeft(l, xl, amount);
      assert amount * l <= xl * amount;
      assert (x + amount) * l <= xl * l;
      MulCancel(x + amount, xl, l);
      MulLeLeft(l, xl, l - amount);
      if x < l - amount {
        MulLeLeft(x + 1, l - amount, l);
        assert false;
      }
    }
  }

  /** The position with `amount` taken out of the lock, the locked power
    * scaled down, and the lock cleared when nothing stays locked. */
  function Unlocked(fs: FarmerSeed, amount: Balance, toFree: Balance): (g: FarmerSeed)
    requires amount <= fs.lockedAmount
  {
    var locked := fs.lockedAmount - amount;
    var g := fs.(freeAmount := fs.freeAmount + toFree, lockedAmount := locked,
                 xLockedAmount := RemainingLockedPower(fs, amount));
    if locked == 0 then g.(unlockTimestamp := 0, durationSec := 0) else g
  }

  /** Unlocking into the free amount keeps a valid position valid and
    * never adds power. */
  lemma UnlockedKeepsValid(fs: FarmerSeed, amount: Balance)
    requires amount <= fs.lockedAmount
    ensures SeedValid(fs) ==> SeedValid(Unlocked(fs, amount, amount))
                              && Power(Unlocked(fs, amount, amount)) <= Power(fs)
  {
    if SeedValid(fs) {
      RemainingLockedPowerCovers(fs, amount);
      PowerMonotone(Unlocked(fs, amount, amount), fs);
    }
  }

  /** `unlock_to_free`: a matured lock releases `amount` into the free amount. */
  function UnlockToFree(fs: FarmerSeed, amount: Balance, now: Timestamp): (r: Result<FarmerSeed>)
    ensures now < fs.unlockTimestamp ==> r == Err(E305StillInLock)
    ensures fs.unlockTimestamp <= now && amount > fs.lockedAmount ==> r == Err(E101InsufficientBalance)
    ensures r.Ok? <==> fs.unlockTimestamp <= now && amount <= fs.lockedAmount
    ensures r.Ok? ==> var g := r.value;
      g.freeAmount == fs.freeAmount + amount && g.lockedAmount == fs.lockedAmount - amount
      && Amount(g) == Amount(fs) && g.shadowAmount == fs.shadowAmount
      && g.userRps == fs.userRps && g.boostRatio == fs.boostRatio
      && (SeedValid(fs) ==> SeedValid(g) && Power(g) <= Power(fs))
      && (g.lockedAmount == 0 ==> g.unlockTimestamp == 0 && g.xLockedAmount == 0)
  {
    if now < fs.unlockTimestamp then Err(E305StillInLock)
    else if amount > fs.lockedAmount then Err(E101InsufficientBalance)
    else
      UnlockedKeepsValid(fs, amount);
      Ok(Unlocked(fs, amount, amount))
  }

  /** The part of `amount` a forced unlock forfeits: the slash rate, scaled
    * by the share of the lock still to run. */
  function Slashed(fs: FarmerSeed, amount: Balance, slashRate: nat, now: Timestamp): nat
    requires fs.durationSec > 0 && now < fs.unlockTimestamp
  {
    Ratio(Ratio(amount, slashRate, BP_DENOM), fs.unlockTimestamp - now, ToNano(fs.durationSec))
  }

  /** With a slash rate of at most 100% and no more time left than the lock
    * ran for, the slash is at most the rate's share of the amount, and so
    * never more than the amount. */
  lemma SlashedBounded(fs: FarmerSeed, amount: Balance, slashRate: nat, now: Timestamp)
    requires fs.durationSec > 0 && now < fs.unlockTimestamp
    requires fs.unlockTimestamp - now <= ToNano(fs.durationSec) && slashRate <= BP_DENOM
    ensures Slashed(fs, amount, slashRate, now) <= Ratio(amount, slashRate, BP_DENOM) <= amount
  {
    RatioAtMost(Ratio(amount, slashRate, BP_DENOM), fs.unlockTimestamp - now, ToNano(fs.durationSec));
    RatioAtMost(amount, slashRate, BP_DENOM);
  }

  /** `unlock_to_free_with_slashed`: a lock that has not matured releases
    * `amount` at once, forfeiting `Slashed(...)` of it; returns the new
    * position, the power it lost and the slashed amount. */
  function UnlockToFreeWithSlashed(fs: FarmerSeed, amount: Balance, slashRate: nat, now: Timestamp)
    : (r: Result<(FarmerSeed, nat, nat)>)
    ensures fs.unlockTimestamp <= now ==> r == Err(E309NoNeedForce)
    ensures now < fs.unlockTimestamp && amount > fs.lockedAmount ==> r == Err(E101InsufficientBalance)
    ensures r.Ok? ==> var (g, reduced, slashed) := r.value;
      now < fs.unlockTimestamp && amount <= fs.lockedAmount && fs.durationSec > 0
      && slashed == Slashed(fs, amount, slashRate, now) && slashed <= amount
      && g.freeAmount == fs.freeAmount + amount - slashed && g.lockedAmount == fs.lockedAmount - amount
      && Amount(g) + slashed == Amount(fs)
      && g.userRps == fs.userRps && g.boostRatio == fs.boostRatio
      && Power(g) + reduced == Power(fs)
  {
    if fs.unlockTimestamp <= now then Err(E309NoNeedForce)
    else if amount > fs.lockedAmount then Err(E101InsufficientBalance)
    else if fs.durationSec == 0 then Err(ArithmeticUnderflow)
    else
      var slashed := Slashed(fs, amount, slashRate, now);
      if slashed > amount then Err(ArithmeticUnderflow)
      else
        var g := Unlocked(fs, amount, amount - slashed);
        if Power(g) > Power(fs) then Err(ArithmeticUnderflow)
        else Ok((g, Power(fs) - Power(g), slashed))
  }

  /** `withdraw_free`: takes `amount` out of the free seed. */
  function WithdrawFree(fs: FarmerSeed, amount: Balance): (r: Result<FarmerSeed>)
    ensures r.Err? <==> amount > fs.freeAmount
    ensures r.Err? ==> r.error == E101InsufficientBalance
    ensures r.Ok? ==> r.value == fs.(freeAmount := fs.freeAmount - amount) && Power(r.value) <= Power(fs)
  {
    if amount > fs.freeAmount then Err(E101InsufficientBalance)
    else
      PowerMonotone(fs.(freeAmount := fs.freeAmount - amount), fs);
      Ok(fs.(freeAmount := fs.freeAmount - amount))
  }

  /** `add_shadow`: mirrors `amount` more of the exchange stake; returns the
    * new position and the power it gained. */
  function AddShadow(fs: FarmerSeed, amount: Balance): (r: (FarmerSeed, nat))
    ensures r.0 == fs.(shadowAmount := fs.shadowAmount + amount)
    ensures Power(r.0) == Power(fs) + r.1
  {
    var g := fs.(shadowAmount := fs.shadowAmount + amount);
    PowerMonotone(fs, g);
    (g, Power(g) - Power(fs))
  }

  /** `withdraw_shadow`: stops mirroring `amount` of the exchange stake. */
  function WithdrawShadow(fs: FarmerSeed, amount: Balance): (r: Result<FarmerSeed>)
    ensures r.Err? <==> amount > fs.shadowAmount
    ensures r.Err? ==> r.error == E101InsufficientBalance
    ensures r.Ok? ==> r.value == fs.(shadowAmount := fs.shadowAmount - amount) && Power(r.value) <= Power(fs)
  {
    if amount > fs.shadowAmount then Err(E101InsufficientBalance)
    else
      PowerMonotone(fs.(shadowAmount := fs.shadowAmount - amount), fs);
      Ok(fs.(shadowAmount := fs.shadowAmount - amount))
  }

  /** More basic power under the same booster never means less power. */
  lemma PowerMonotone(a: FarmerSeed, b: FarmerSeed)
    requires BasicPower(a) <= BasicPower(b) && a.boostRatio == b.boostRatio
    ensures Power(a) <= Power(b)
  {
    assert BasicPower(a) * a.boostRatio <= BasicPower(b) * a.boostRatio;
  }

  /** Power never falls below the seed amount a valid position holds. */
  lemma PowerCoversAmount(fs: FarmerSeed)
    requires SeedValid(fs)
    ensures Power(fs) >= Amount(fs)
  {
  }
}
