/** What a farmer does with staked seed (actions_of_farmer_seed.rs): lock
  * free seed, unlock and unstake it into the withdrawal queue, force an
  * early unlock at a slash, and withdraw queued seed. Every action first
  * flushes the farmer's rewards in the seed; `boost` is the booster bonus
  * generated for the farmer at that moment. */
module FarmerSeedActions {
  import opened Base
  import opened Configs
  import opened FarmerSeeds
  import opened Seeds
  import opened Farmers
  import opened Contracts

  /** The part of `lock_free_seed` after the claim, on the claimed farmer
    * `f` and seed `s`. */
  function LockClaimed(d: ContractData, env: Env, seedId: SeedId, f: Farmer, s: Seed,
                       durationSec: nat, amount: Option<Balance>): (r: Result<ContractData>)
    ensures r.Ok? ==> Touches(d, r.value, env.caller, seedId)
    ensures r.Ok? ==> (GetSeed(f, seedId).Some? &&
      var (before, after) := (GetSeed(f, seedId).value, Position(r.value, env.caller, seedId));
      && Amount(after) == Amount(before)
      && after.lockedAmount == before.lockedAmount + amount.GetOr(before.freeAmount)
      && after.unlockTimestamp == env.now + ToNano(durationSec)
      && r.value.seeds[seedId].totalSeedAmount == s.totalSeedAmount
      && r.value.seeds[seedId].totalSeedPower + Power(before) == s.totalSeedPower + Power(after))
  {
    match GetSeed(f, seedId)
    case None => Err(MissingValue)
    case Some(fs) =>
      match FreeToLock(fs, amount.GetOr(fs.freeAmount), durationSec, d.config, env.now)
      case Err(e) => Err(e)
      case Ok((g, inc)) =>
        Ok(d.(farmers := d.farmers[env.caller := SetSeed(f, seedId, g)],
              seeds := d.seeds[seedId := s.(totalSeedPower := s.totalSeedPower + inc)]))
  }

  /** `lock_free_seed`: locks `amount` of free seed (all of it by default)
    * for `durationSec`, within the seed's minimum and the configured maximum. */
  ghost function AfterLockFreeSeed(d: ContractData, env: Env, seedId: SeedId, durationSec: nat,
                                   amount: Option<Balance>, boost: nat): (r: Result<ContractData>)
    ensures env.deposit != 1 ==> r == Err(RequiresOneYocto)
    ensures env.deposit == 1 && d.state != Running ==> r == Err(E004ContractPaused)
    ensures env.deposit == 1 && d.state == Running && env.caller !in d.farmers ==> r == Err(E100AccNotRegistered)
    ensures env.deposit == 1 && d.state == Running && env.caller in d.farmers && seedId !in d.seeds
            ==> r == Err(E301SeedNotExist)
    ensures r.Ok? ==> env.caller in d.farmers && seedId in d.seeds
                      && 0 < d.seeds[seedId].minLockingDurationSec <= durationSec <= d.config.maximumLockingDurationSec
                      && FarmerClaimed(d, env.caller, seedId, env.now, boost).Ok?
  {
    if env.deposit != 1 then Err(RequiresOneYocto)
    else if d.state != Running then Err(E004ContractPaused)
    else if env.caller !in d.farmers then Err(E100AccNotRegistered)
    else if seedId !in d.seeds then Err(E301SeedNotExist)
    else
      var s0 := SeedUpdated(d.seeds[seedId], env.now);
      if s0.minLockingDurationSec == 0 then Err(E300ForbidLocking)
      else if durationSec < s0.minLockingDurationSec || durationSec > d.config.maximumLockingDurationSec
      then Err(E201InvalidDuration)
      else
        match FarmerClaimed(d, env.caller, seedId, env.now, boost)
        case Err(e) => Err(e)
        case Ok((f, s)) => LockClaimed(d, env, seedId, f, s, durationSec, amount)
  }

  /** `withdraw_seed`: sends `amount` of the queued seed (all of it by
    * default) once the withdrawal delay has passed. No deposit is asked for. */
  function AfterWithdrawSeed(d: ContractData, env: Env, seedId: SeedId, amount: Option<Balance>)
    : (r: Result<(ContractData, Transfer)>)
    ensures d.state != Running ==> r == Err(E004ContractPaused)
    ensures d.state == Running && env.caller !in d.farmers ==> r == Err(E100AccNotRegistered)
    ensures d.state == Running && env.caller in d.farmers && seedId !in d.farmers[env.caller].withdraws
            ==> r == Err(MissingValue)
    ensures r.Ok? ==> env.caller in d.farmers && seedId in d.farmers[env.caller].withdraws
                      && env.caller in r.value.0.farmers
    ensures r.Ok? ==> var w := d.farmers[env.caller].withdraws[seedId];
      && var sent := amount.GetOr(w.amount);
      && r.value.1 == SeedTransfer(seedId, env.caller, sent)
      && sent <= w.amount
      && w.applyTimestamp + ToNano(d.config.delayWithdrawSec) <= env.now
      && r.value.0 == d.(farmers := d.farmers[env.caller := r.value.0.farmers[env.caller]])
      && Get(r.value.0.farmers[env.caller].withdraws, seedId, SeedWithdraw(0, 0)).amount + sent == w.amount
  {
    if d.state != Running then Err(E004ContractPaused)
    else if env.caller !in d.farmers then Err(E100AccNotRegistered)
    else
      var f := d.farmers[env.caller];
      if seedId !in f.withdraws then Err(MissingValue)
      else
        var sent := amount.GetOr(f.withdraws[seedId].amount);
        match SubWithdrawSeed(f, seedId, sent, d.config.delayWithdrawSec, env.now)
        case Err(e) => Err(e)
        case Ok(g) => Ok((d.(farmers := d.farmers[env.caller := g]), SeedTransfer(seedId, env.caller, sent)))
  }

  /** Nothing locked means no locked power: kept by every locking helper. */
  predicate NoStrayPower(fs: FarmerSeed) {
    fs.lockedAmount == 0 ==> fs.xLockedAmount == 0
  }

  /** The position after `unlock_to_free` (when `unlockAmount` is positive)
    * and then `withdraw_free` (when `unstakeAmount` is). */
  function UnlockThenUnstake(fs: FarmerSeed, unlockAmount: Balance, unstakeAmount: Balance, now: Timestamp)
    : (r: Result<FarmerSeed>)
    ensures r.Ok? ==> Amount(r.value) + unstakeAmount == Amount(fs)
    ensures r.Ok? ==> r.value.lockedAmount + unlockAmount == fs.lockedAmount
    ensures r.Ok? && NoStrayPower(fs) ==> NoStrayPower(r.value)
    ensures unlockAmount > 0 && now < fs.unlockTimestamp ==> r == Err(E305StillInLock)
  {
    var unlocked := if unlockAmount > 0 then UnlockToFree(fs, unlockAmount, now) else Ok(fs);
    if unlocked.Err? then unlocked
    else if unstakeAmount > 0 then WithdrawFree(unlocked.value, unstakeAmount)
    else unlocked
  }

  /** Stores the position back into the farmer, or drops it when it holds nothing. */
  function Stored(f: Farmer, seedId: SeedId, g: FarmerSeed): (h: Farmer)
    ensures h == f.(seeds := h.seeds, vseeds := h.vseeds)
    ensures seedId !in f.seeds ==> GetSeed(h, seedId) == if IsEmpty(g) then None else Some(g)
  {
    if IsEmpty(g) then RemoveSeed(f, seedId) else SetSeed(f, seedId, g)
  }

  /** The part of `unlock_and_unstake_seed` after the claim, on the claimed
    * farmer `f` and seed `s`. */
  function UnlockAndUnstakeClaimed(d: ContractData, env: Env, seedId: SeedId, f: Farmer, s: Seed,
                                   unlockAmount: Balance, unstakeAmount: Balance): (r: Result<ContractData>)
    ensures r.Ok? ==> Touches(d, r.value, env.caller, seedId)
  {
    match GetSeed(f, seedId)
    case None => Err(MissingValue)
    case Some(fs) =>
      match UnlockThenUnstake(fs, unlockAmount, unstakeAmount, env.now)
      case Err(e) => Err(e)
      case Ok(g) =>
        var f1 := if unstakeAmount > 0 then AddWithdrawSeed(f, seedId, unstakeAmount, env.now) else f;
        match Sub(s.totalSeedAmount, unstakeAmount)
        case Err(e) => Err(e)
        case Ok(totalAmount) =>
          match Sub(s.totalSeedPower, Power(fs))
          case Err(e) => Err(e)
          case Ok(rest) =>
            var count := if IsEmpty(g) && s.farmerCount > 0 then s.farmerCount - 1 else s.farmerCount;
            Ok(d.(farmers := d.farmers[env.caller := Stored(f1, seedId, g)],
                  seeds := d.seeds[seedId := s.(totalSeedAmount := totalAmount, totalSeedPower := rest + Power(g),
                                                farmerCount := count)]))
  }

  /** What the part after the claim moves: the position shrinks by the
    * unstaked amount, which leaves the seed's total and joins the farmer's
    * withdrawal queue, and the seed's total power follows the position's. */
  lemma UnlockAndUnstakeClaimedMoves(d: ContractData, env: Env, seedId: SeedId, f: Farmer, s: Seed,
                                     unlockAmount: Balance, unstakeAmount: Balance)
    requires UnlockAndUnstakeClaimed(d, env, seedId, f, s, unlockAmount, unstakeAmount).Ok?
    requires seedId !in f.seeds
    ensures GetSeed(f, seedId).Some?
    ensures var e := UnlockAndUnstakeClaimed(d, env, seedId, f, s, unlockAmount, unstakeAmount).value;
      var (before, after) := (GetSeed(f, seedId).value, Position(e, env.caller, seedId));
      && Amount(after) + unstakeAmount == Amount(before)
      && e.seeds[seedId].totalSeedAmount + unstakeAmount == s.totalSeedAmount
      && Get(e.farmers[env.caller].withdraws, seedId, SeedWithdraw(0, 0)).amount
         == Get(f.withdraws, seedId, SeedWithdraw(0, 0)).amount + unstakeAmount
      && (NoStrayPower(before) ==> e.seeds[seedId].totalSeedPower + Power(before) == s.totalSeedPower + Power(after))
  {
    var e := UnlockAndUnstakeClaimed(d, env, seedId, f, s, unlockAmount, unstakeAmount).value;
    var fs := GetSeed(f, seedId).value;
    var g := UnlockThenUnstake(fs, unlockAmount, unstakeAmount, env.now).value;
    var f1 := if unstakeAmount > 0 then AddWithdrawSeed(f, seedId, unstakeAmount, env.now) else f;
    assert f1.seeds == f.seeds;
    assert e.farmers[env.caller] == Stored(f1, seedId, g);
    assert GetSeed(e.farmers[env.caller], seedId) == if IsEmpty(g) then None else Some(g);
    assert e.seeds[seedId].totalSeedPower + Power(fs) == s.totalSeedPower + Power(g);
    if IsEmpty(g) && NoStrayPower(fs) {
      assert BasicPower(g) == 0;
    }
  }

  /** `unlock_and_unstake_seed`: releases `unlockAmount` of a matured lock,
    * then moves `unstakeAmount` of free seed into the withdrawal queue; an
    * emptied position is dropped and the seed counts one farmer fewer. */
  ghost function AfterUnlockAndUnstakeSeed(d: ContractData, env: Env, seedId: SeedId,
                                           unlockAmount: Balance, unstakeAmount: Balance, boost: nat)
    : (r: Result<ContractData>)
    ensures env.deposit != 1 ==> r == Err(RequiresOneYocto)
    ensures env.deposit == 1 && d.state != Running ==> r == Err(E004ContractPaused)
    ensures env.deposit == 1 && d.state == Running && FarmerClaimed(d, env.caller, seedId, env.now, boost).Err?
            ==> r == Err(FarmerClaimed(d, env.caller, seedId, env.now, boost).error)
    ensures r.Ok? ==> FarmerClaimed(d, env.caller, seedId, env.now, boost).Ok?
  {
    if env.deposit != 1 then Err(RequiresOneYocto)
    else if d.state != Running then Err(E004ContractPaused)
    else
      match FarmerClaimed(d, env.caller, seedId, env.now, boost)
      case Err(e) => Err(e)
      case Ok((f, s)) => UnlockAndUnstakeClaimed(d, env, seedId, f, s, unlockAmount, unstakeAmount)
  }

  /** The part of `force_unlock` after the claim, on the claimed farmer `f`
    * and seed `s`. */
  function ForceUnlockClaimed(d: ContractData, now: Timestamp, farmerId: AccountId, seedId: SeedId,
                              f: Farmer, s: Seed, unlockAmount: Balance): (r: Result<ContractData>)
    ensures r.Ok? ==> Touches(d.(seedsSlashed := r.value.seedsSlashed), r.value, farmerId, seedId)
    ensures r.Ok? ==> r.value.seedsSlashed.Keys == d.seedsSlashed.Keys + {seedId}
                      && r.value.seedsSlashed - {seedId} == d.seedsSlashed - {seedId}
    ensures r.Ok? ==> (GetSeed(f, seedId).Some? &&
      var (before, after) := (GetSeed(f, seedId).value, Position(r.value, farmerId, seedId));
      var slashed := (r.value.seedsSlashed[seedId] as int) - Get(d.seedsSlashed, seedId, 0);
      && slashed >= 0
      && Amount(after) + slashed == Amount(before)
      && r.value.seeds[seedId].totalSeedAmount + slashed == s.totalSeedAmount
      && after.lockedAmount + unlockAmount == before.lockedAmount
      && r.value.seeds[seedId].totalSeedPower + Power(before) == s.totalSeedPower + Power(after))
  {
    match GetSeed(f, seedId)
    case None => Err(MissingValue)
    case Some(fs) =>
      match UnlockToFreeWithSlashed(fs, unlockAmount, s.slashRate, now)
      case Err(e) => Err(e)
      case Ok((g, reduced, slashed)) =>
        match Sub(s.totalSeedAmount, slashed)
        case Err(e) => Err(e)
        case Ok(totalAmount) =>
          match Sub(s.totalSeedPower, reduced)
          case Err(e) => Err(e)
          case Ok(totalPower) =>
            Ok(d.(farmers := d.farmers[farmerId := SetSeed(f, seedId, g)],
                  seeds := d.seeds[seedId := s.(totalSeedAmount := totalAmount, totalSeedPower := totalPower)],
                  seedsSlashed := d.seedsSlashed[seedId := Get(d.seedsSlashed, seedId, 0) + slashed]))
  }

  /** `force_unlock`: releases `unlockAmount` of a lock that has not matured;
    * the slashed part leaves the seed's total for the slashed ledger. */
  ghost function AfterForceUnlock(d: ContractData, env: Env, seedId: SeedId, unlockAmount: Balance, boost: nat)
    : (r: Result<ContractData>)
    ensures env.deposit != 1 ==> r == Err(RequiresOneYocto)
    ensures env.deposit == 1 && d.state != Running ==> r == Err(E004ContractPaused)
    ensures env.deposit == 1 && d.state == Running && FarmerClaimed(d, env.caller, seedId, env.now, boost).Err?
            ==> r == Err(FarmerClaimed(d, env.caller, seedId, env.now, boost).error)
    ensures r.Ok? ==> FarmerClaimed(d, env.caller, seedId, env.now, boost).Ok?
  {
    if env.deposit != 1 then Err(RequiresOneYocto)
    else if d.state != Running then Err(E004ContractPaused)
    else
      match FarmerClaimed(d, env.caller, seedId, env.now, boost)
      case Err(e) => Err(e)
      case Ok((f, s)) => ForceUnlockClaimed(d, env.now, env.caller, seedId, f, s, unlockAmount)
  }

  /** `callback_withdraw_seed`: a failed seed transfer goes back into the
    * farmer's withdrawal queue, or into lost-and-found when the farmer has
    * left in the meantime. Reports whether the transfer succeeded. */
  function AfterCallbackWithdrawSeed(d: ContractData, now: Timestamp, seedId: SeedId, senderId: AccountId,
                                     amount: Balance, ok: bool): (r: (ContractData, bool))
    ensures r.1 == ok
    ensures ok ==> r.0 == d
    ensures !ok && senderId in d.farmers ==>
              r.0 == d.(farmers := d.farmers[senderId := AddWithdrawSeed(d.farmers[senderId], seedId, amount, now)])
    ensures !ok && senderId !in d.farmers ==>
              && r.0 == d.(seedsLostfound := r.0.seedsLostfound)
              && r.0.seedsLostfound == d.seedsLostfound[seedId := Get(d.seedsLostfound, seedId, 0) + amount]
  {
    if ok then (d, true)
    else if senderId in d.farmers then
      (d.(farmers := d.farmers[senderId := AddWithdrawSeed(d.farmers[senderId], seedId, amount, now)]), false)
    else
      (d.(seedsLostfound := d.seedsLostfound[seedId := Get(d.seedsLostfound, seedId, 0) + amount]), false)
  }

  /** Locking free seed converts free into locked seed: the position holds as
    * much as before, the seed's total amount is unchanged, and the seed's
    * total power moves exactly as the position's power does. */
  lemma LockConservesSeed(d: ContractData, env: Env, seedId: SeedId, durationSec: nat,
                          amount: Option<Balance>, boost: nat)
    requires Keyed(d) && AfterLockFreeSeed(d, env, seedId, durationSec, amount, boost).Ok?
    ensures var e := AfterLockFreeSeed(d, env, seedId, durationSec, amount, boost).value;
      var (before, after) := (Position(d, env.caller, seedId), Position(e, env.caller, seedId));
      && Amount(after) == Amount(before)
      && after.lockedAmount == before.lockedAmount + amount.GetOr(before.freeAmount)
      && after.unlockTimestamp == env.now + ToNano(durationSec)
      && e.seeds[seedId].totalSeedAmount == d.seeds[seedId].totalSeedAmount
      && e.seeds[seedId].totalSeedPower + Power(before) == d.seeds[seedId].totalSeedPower + Power(after)
  {
    ClaimedPosition(d, env.caller, seedId, env.now, boost);
  }

  /** Unstaking moves seed from the position into the withdrawal queue: the
    * seed's total amount and the position shrink by what the queue gains,
    * and the seed's total power moves exactly as the position's power does. */
  lemma UnstakeMovesSeedToQueue(d: ContractData, env: Env, seedId: SeedId,
                                unlockAmount: Balance, unstakeAmount: Balance, boost: nat)
    requires Keyed(d) && AfterUnlockAndUnstakeSeed(d, env, seedId, unlockAmount, unstakeAmount, boost).Ok?
    ensures var e := AfterUnlockAndUnstakeSeed(d, env, seedId, unlockAmount, unstakeAmount, boost).value;
      var (before, after) := (Position(d, env.caller, seedId), Position(e, env.caller, seedId));
      var queued := Get(d.farmers[env.caller].withdraws, seedId, SeedWithdraw(0, 0)).amount;
      && Amount(after) + unstakeAmount == Amount(before)
      && e.seeds[seedId].totalSeedAmount + unstakeAmount == d.seeds[seedId].totalSeedAmount
      && Get(e.farmers[env.caller].withdraws, seedId, SeedWithdraw(0, 0)).amount == queued + unstakeAmount
      && (NoStrayPower(before) ==>
            e.seeds[seedId].totalSeedPower + Power(before) == d.seeds[seedId].totalSeedPower + Power(after))
  {
    ClaimedPosition(d, env.caller, seedId, env.now, boost);
    var (f, s) := FarmerClaimed(d, env.caller, seedId, env.now, boost).value;
    UnlockAndUnstakeClaimedMoves(d, env, seedId, f, s, unlockAmount, unstakeAmount);
  }

  /** A forced unlock moves the slashed seed out of the position and the
    * seed's total into the slashed ledger, and the seed's total power moves
    * exactly as the position's power does. */
  lemma ForceUnlockMovesSlashed(d: ContractData, env: Env, seedId: SeedId, unlockAmount: Balance, boost: nat)
    requires Keyed(d) && AfterForceUnlock(d, env, seedId, unlockAmount, boost).Ok?
    ensures var e := AfterForceUnlock(d, env, seedId, unlockAmount, boost).value;
      var (before, after) := (Position(d, env.caller, seedId), Position(e, env.caller, seedId));
      var slashed := e.seedsSlashed[seedId] - Get(d.seedsSlashed, seedId, 0);
      && e.seedsSlashed[seedId] >= Get(d.seedsSlashed, seedId, 0)
      && Amount(after) + slashed == Amount(before)
      && e.seeds[seedId].totalSeedAmount + slashed == d.seeds[seedId].totalSeedAmount
      && after.lockedAmount + unlockAmount == before.lockedAmount
      && e.seeds[seedId].totalSeedPower + Power(before) == d.seeds[seedId].totalSeedPower + Power(after)
  {
    ClaimedPosition(d, env.caller, seedId, env.now, boost);
  }

  /** A seed withdrawal whose transfer fails puts the whole amount back in
    * the queue; only the delay starts again, from the callback's time. */
  lemma FailedSeedWithdrawalRequeued(d: ContractData, env: Env, seedId: SeedId, amount: Option<Balance>, later: Timestamp)
    requires AfterWithdrawSeed(d, env, seedId, amount).Ok?
    ensures var (e, t) := AfterWithdrawSeed(d, env, seedId, amount).value;
      var back := AfterCallbackWithdrawSeed(e, later, t.seedId, t.farmerId, t.amount, false).0;
      && back.farmers.Keys == d.farmers.Keys
      && back.farmers[env.caller].withdraws[seedId]
           == d.farmers[env.caller].withdraws[seedId].(applyTimestamp := later)
      && back == d.(farmers := back.farmers)
      && back.farmers[env.caller] == d.farmers[env.caller].(withdraws := back.farmers[env.caller].withdraws)
      && back.farmers[env.caller].withdraws - {seedId} == d.farmers[env.caller].withdraws - {seedId}
  {
  }

  /** The steps of `lock_free_seed` after the claim. */
  method LockClaimedSteps(c: Contract, env: Env, seedId: SeedId, farmer: Farmer, seed: Seed,
                          durationSec: nat, amount: Option<Balance>) returns (r: Outcome)
    modifies c
    ensures Commits(old(c.Data()), c.Data(), r, LockClaimed(old(c.Data()), env, seedId, farmer, seed, durationSec, amount))
  {
    var position := GetSeed(farmer, seedId);
    if position.None? { return Fail(MissingValue); }
    var farmerSeed := position.value;
    var locking := amount.GetOr(farmerSeed.freeAmount);
    var locked := FreeToLock(farmerSeed, locking, durationSec, c.config, env.now);
    if locked.Err? { return Fail(locked.error); }
    var farmer' := SetSeed(farmer, seedId, locked.value.0);
    var seed' := seed.(totalSeedPower := seed.totalSeedPower + locked.value.1);
    c.farmers := c.farmers[env.caller := farmer'];
    c.seeds := c.seeds[seedId := seed'];
    r := Pass;
  }

  method LockFreeSeed(c: Contract, env: Env, seedId: SeedId, durationSec: nat, amount: Option<Balance>, boost: nat)
    returns (r: Outcome)
    modifies c
    ensures Commits(old(c.Data()), c.Data(), r, AfterLockFreeSeed(old(c.Data()), env, seedId, durationSec, amount, boost))
  {
    if env.deposit != 1 { return Fail(RequiresOneYocto); }
    if c.state != Running { return Fail(E004ContractPaused); }
    var farmerId := env.caller;
    if farmerId !in c.farmers { return Fail(E100AccNotRegistered); }
    var farmer := c.farmers[farmerId];
    if seedId !in c.seeds { return Fail(E301SeedNotExist); }
    var seed := SeedUpdated(c.seeds[seedId], env.now);
    if seed.minLockingDurationSec == 0 { return Fail(E300ForbidLocking); }
    if durationSec < seed.minLockingDurationSec || durationSec > c.config.maximumLockingDurationSec {
      return Fail(E201InvalidDuration);
    }
    var claim := DoFarmerClaim(farmer, seed, boost);
    assert claim == FarmerClaimed(c.Data(), farmerId, seedId, env.now, boost);
    if claim.Err? { return Fail(claim.error); }
    r := LockClaimedSteps(c, env, seedId, claim.value.0, claim.value.1, durationSec, amount);
  }

  method WithdrawSeed(c: Contract, env: Env, seedId: SeedId, amount: Option<Balance>) returns (r: Result<Transfer>)
    modifies c
    ensures Returns(old(c.Data()), c.Data(), r, AfterWithdrawSeed(old(c.Data()), env, seedId, amount))
  {
    if c.state != Running { return Err(E004ContractPaused); }
    var farmerId := env.caller;
    if farmerId !in c.farmers { return Err(E100AccNotRegistered); }
    var farmer := c.farmers[farmerId];
    if seedId !in farmer.withdraws { return Err(MissingValue); }
    var withdrawAmount := amount.GetOr(farmer.withdraws[seedId].amount);
    var taken := SubWithdrawSeed(farmer, seedId, withdrawAmount, c.config.delayWithdrawSec, env.now);
    if taken.Err? { return Err(taken.error); }
    c.farmers := c.farmers[farmerId := taken.value];
    r := Ok(SeedTransfer(seedId, farmerId, withdrawAmount));
  }

  /** The unlocking and unstaking steps of `unlock_and_unstake_seed`, on
    * the farmer and its position. */
  method UnlockThenUnstakeSteps(farmer: Farmer, seedId: SeedId, fs: FarmerSeed, unlockAmount: Balance,
                                unstakeAmount: Balance, now: Timestamp) returns (r: Result<(Farmer, FarmerSeed)>)
    ensures UnlockThenUnstake(fs, unlockAmount, unstakeAmount, now).Err? ==>
              r == Err(UnlockThenUnstake(fs, unlockAmount, unstakeAmount, now).error)
    ensures UnlockThenUnstake(fs, unlockAmount, unstakeAmount, now).Ok? ==>
              r == Ok((if unstakeAmount > 0 then AddWithdrawSeed(farmer, seedId, unstakeAmount, now) else farmer,
                       UnlockThenUnstake(fs, unlockAmount, unstakeAmount, now).value))
  {
    var farmerSeed := fs;
    if unlockAmount > 0 {
      var unlocked := UnlockToFree(farmerSeed, unlockAmount, now);
      if unlocked.Err? { return Err(unlocked.error); }
      farmerSeed := unlocked.value;
    }
    var farmer' := farmer;
    if unstakeAmount > 0 {
      var unstaked := WithdrawFree(farmerSeed, unstakeAmount);
      if unstaked.Err? { return Err(unstaked.error); }
      farmerSeed := unstaked.value;
      farmer' := AddWithdrawSeed(farmer', seedId, unstakeAmount, now);
    }
    r := Ok((farmer', farmerSeed));
  }

  /** The steps of `unlock_and_unstake_seed` after the claim. */
  method UnlockAndUnstakeClaimedSteps(c: Contract, env: Env, seedId: SeedId, farmer: Farmer, seed: Seed,
                                      unlockAmount: Balance, unstakeAmount: Balance) returns (r: Outcome)
    modifies c
    ensures Commits(old(c.Data()), c.Data(), r,
                    UnlockAndUnstakeClaimed(old(c.Data()), env, seedId, farmer, seed, unlockAmount, unstakeAmount))
  {
    var position := GetSeed(farmer, seedId);
    if position.None? { return Fail(MissingValue); }
    var farmerSeed := position.value;
    var prev := Power(farmerSeed);
    var farmer';
    var moved := UnlockThenUnstakeSteps(farmer, seedId, farmerSeed, unlockAmount, unstakeAmount, env.now);
    if moved.Err? { return Fail(moved.error); }
    farmer', farmerSeed := moved.value.0, moved.value.1;
    if seed.totalSeedAmount < unstakeAmount || seed.totalSeedPower < prev { return Fail(ArithmeticUnderflow); }
    var seed' := seed.(totalSeedAmount := seed.totalSeedAmount - unstakeAmount,
                       totalSeedPower := seed.totalSeedPower - prev + Power(farmerSeed));
    if IsEmpty(farmerSeed) {
      farmer' := RemoveSeed(farmer', seedId);
      if seed'.farmerCount > 0 {
        seed' := seed'.(farmerCount := seed'.farmerCount - 1);
      }
    } else {
      farmer' := SetSeed(farmer', seedId, farmerSeed);
    }
    c.farmers := c.farmers[env.caller := farmer'];
    c.seeds := c.seeds[seedId := seed'];
    r := Pass;
  }

  method UnlockAndUnstakeSeed(c: Contract, env: Env, seedId: SeedId, unlockAmount: Balance,
                              unstakeAmount: Balance, boost: nat) returns (r: Outcome)
    modifies c
    ensures Commits(old(c.Data()), c.Data(), r,
                    AfterUnlockAndUnstakeSeed(old(c.Data()), env, seedId, unlockAmount, unstakeAmount, boost))
  {
    if env.deposit != 1 { return Fail(RequiresOneYocto); }
    if c.state != Running { return Fail(E004ContractPaused); }
    var farmerId := env.caller;
    if farmerId !in c.farmers { return Fail(E100AccNotRegistered); }
    var farmer := c.farmers[farmerId];
    if seedId !in c.seeds { return Fail(E301SeedNotExist); }
    var seed := SeedUpdated(c.seeds[seedId], env.now);
    var claim := DoFarmerClaim(farmer, seed, boost);
    assert claim == FarmerClaimed(c.Data(), farmerId, seedId, env.now, boost);
    if claim.Err? { return Fail(claim.error); }
    r := UnlockAndUnstakeClaimedSteps(c, env, seedId, claim.value.0, claim.value.1, unlockAmount, unstakeAmount);
  }

  /** The steps of `force_unlock` after the claim. */
  method ForceUnlockClaimedSteps(c: Contract, env: Env, seedId: SeedId, farmer: Farmer, seed: Seed,
                                 unlockAmount: Balance) returns (r: Outcome)
    modifies c
    ensures Commits(old(c.Data()), c.Data(), r,
                    ForceUnlockClaimed(old(c.Data()), env.now, env.caller, seedId, farmer, seed, unlockAmount))
  {
    var position := GetSeed(farmer, seedId);
    if position.None? { return Fail(MissingValue); }
    var unlocked := UnlockToFreeWithSlashed(position.value, unlockAmount, seed.slashRate, env.now);
    if unlocked.Err? { return Fail(unlocked.error); }
    var (farmerSeed, reduced, slashed) := unlocked.value;
    if seed.totalSeedAmount < slashed || seed.totalSeedPower < reduced { return Fail(ArithmeticUnderflow); }
    var seed' := seed.(totalSeedAmount := seed.totalSeedAmount - slashed, totalSeedPower := seed.totalSeedPower - reduced);
    var slashedBefore := Get(c.seedsSlashed, seedId, 0);
    ghost var d := c.Data();
    ghost var expected := d.(farmers := d.farmers[env.caller := SetSeed(farmer, seedId, farmerSeed)],
                             seeds := d.seeds[seedId := seed'],
                             seedsSlashed := d.seedsSlashed[seedId := slashedBefore + slashed]);
    assert ForceUnlockClaimed(d, env.now, env.caller, seedId, farmer, seed, unlockAmount) == Ok(expected);
    c.seedsSlashed := c.seedsSlashed[seedId := slashedBefore + slashed];
    c.farmers := c.farmers[env.caller := SetSeed(farmer, seedId, farmerSeed)];
    c.seeds := c.seeds[seedId := seed'];
    assert c.Data() == expected;
    r := Pass;
  }

  method ForceUnlock(c: Contract, env: Env, seedId: SeedId, unlockAmount: Balance, boost: nat) returns (r: Outcome)
    modifies c
    ensures Commits(old(c.Data()), c.Data(), r, AfterForceUnlock(old(c.Data()), env, seedId, unlockAmount, boost))
  {
    if env.deposit != 1 { return Fail(RequiresOneYocto); }
    if c.state != Running { return Fail(E004ContractPaused); }
    var farmerId := env.caller;
    if farmerId !in c.farmers { return Fail(E100AccNotRegistered); }
    var farmer := c.farmers[farmerId];
    if seedId !in c.seeds { return Fail(E301SeedNotExist); }
    var seed := SeedUpdated(c.seeds[seedId], env.now);
    var claim := DoFarmerClaim(farmer, seed, boost);
    assert claim == FarmerClaimed(c.Data(), farmerId, seedId, env.now, boost);
    if claim.Err? { return Fail(claim.error); }
    r := ForceUnlockClaimedSteps(c, env, seedId, claim.value.0, claim.value.1, unlockAmount);
  }

  method CallbackWithdrawSeed(c: Contract, now: Timestamp, seedId: SeedId, senderId: AccountId,
                              amount: Balance, ok: bool) returns (b: bool)
    modifies c
    ensures (c.Data(), b) == AfterCallbackWithdrawSeed(old(c.Data()), now, seedId, senderId, amount, ok)
  {
    if ok { return true; }
    if senderId in c.farmers {
      c.farmers := c.farmers[senderId := AddWithdrawSeed(c.farmers[senderId], seedId, amount, now)];
    } else {
      var lost := Get(c.seedsLostfound, seedId, 0);
      c.seedsLostfound := c.seedsLostfound[seedId := lost + amount];
    }
    b := false;
  }
}
