/** The owner's and operators' entry points (management.rs): retuning a
  * farm's rate, the locking policy, the farm limit, the slash rates and a
  * seed's minimums, and paying out the slashed and lost-and-found seed. */
module Management {
  import opened Base
  import opened Configs
  import opened SeedFarms
  import opened Seeds
  import opened Ids
  import opened Contracts

  /** The gate of every management call but one: one yoctoNEAR attached, an
    * owner or operator calling, the contract running, checked in that order. */
  function OperatorGate(d: ContractData, env: Env): (r: Outcome)
    ensures r == Pass <==> env.deposit == 1 && IsOwnerOrOperators(d, env.caller) && d.state == RunningState.Running
    ensures env.deposit != 1 ==> r == Fail(RequiresOneYocto)
    ensures env.deposit == 1 && !IsOwnerOrOperators(d, env.caller) ==> r == Fail(E002NotAllowed)
    ensures env.deposit == 1 && IsOwnerOrOperators(d, env.caller) && d.state != RunningState.Running ==> r == Fail(E004ContractPaused)
  {
    if AssertOneYocto(env).Fail? then AssertOneYocto(env)
    else if !IsOwnerOrOperators(d, env.caller) then Fail(E002NotAllowed)
    else AssertRunning(d)
  }

  /** The state with one seed replaced. */
  function WithSeed(d: ContractData, seedId: SeedId, s: Seed): (e: ContractData)
    ensures e.seeds == d.seeds[seedId := s] && e == d.(seeds := e.seeds)
  {
    d.(seeds := d.seeds[seedId := s])
  }

  /** `modify_daily_reward`: the farm's seed is loaded, which brings every
    * farm of it up to `now` at the old rate, and then the farm's daily
    * reward is replaced. */
  function AfterModifyDailyReward(d: ContractData, env: Env, farmId: FarmId, dailyReward: Balance)
    : (r: Result<ContractData>)
    ensures OperatorGate(d, env).Fail? ==> r == Err(OperatorGate(d, env).error)
    ensures r.Ok? <==> OperatorGate(d, env) == Pass && SeedOfFarmId(farmId).Ok?
                       && SeedOfFarmId(farmId).value in d.seeds
                       && farmId in d.seeds[SeedOfFarmId(farmId).value].farms
    ensures r.Ok? ==> SeedOfFarmId(farmId).value in r.value.seeds
    ensures r.Ok? ==> var seedId := SeedOfFarmId(farmId).value;
      var (s, t) := (SeedUpdated(d.seeds[seedId], env.now), r.value.seeds[seedId]);
      && r.value == WithSeed(d, seedId, t)
      && t.farms.Keys == s.farms.Keys
      && t.farms[farmId].terms.dailyReward == dailyReward
      && t == s.(farms := t.farms)
      && t.farms[farmId] == s.farms[farmId].(terms := t.farms[farmId].terms)
      && t.farms[farmId].terms == s.farms[farmId].terms.(dailyReward := dailyReward)
      && forall f :: f in s.farms && f != farmId ==> t.farms[f] == s.farms[f]
  {
    if OperatorGate(d, env).Fail? then Err(OperatorGate(d, env).error)
    else
      match SeedOfFarmId(farmId)
      case Err(e) => Err(e)
      case Ok(seedId) =>
        match UnwrapSeed(d, seedId, env.now)
        case Err(e) => Err(e)
        case Ok(s) =>
          if farmId !in s.farms then Err(E401FarmNotExist)
          else
            Ok(WithSeed(d, seedId, Retuned(s, farmId, dailyReward)))
  }

  /** A farm brought up to `now` and then retuned is still up to date at
    * `now`: reloading it at the same instant releases nothing. */
  lemma RetunedStaysCurrent(f: SeedFarm, p: Balance, q: Balance, now: Timestamp, dailyReward: Balance)
    requires FarmValid(f)
    ensures var g := Updated(f, p, now).(terms := f.terms.(dailyReward := dailyReward));
            Updated(g, q, now) == g
  {
    var g0 := Updated(f, p, now);
    var g := g0.(terms := f.terms.(dailyReward := dailyReward));
    UpdateKeeps(f, p, now);
    UpdateTwiceSameInstant(f, p, q, now);
    assert StatusAt(g, now) == StatusAt(g0, now);
    if now > g0.distributedAt {
      assert StatusAt(g0, now) == Created || StatusAt(g0, now) == Pending;
    }
  }

  /** A new daily reward applies from the moment it is set: everything up to
    * `now` was released at the old rate, and loading the seed again at the
    * same instant releases nothing at the new one. */
  lemma DailyRewardNotRetroactive(d: ContractData, env: Env, farmId: FarmId, dailyReward: Balance)
    requires AfterModifyDailyReward(d, env, farmId, dailyReward).Ok?
    requires SeedFarmsValid(d.seeds[SeedOfFarmId(farmId).value])
    ensures var seedId := SeedOfFarmId(farmId).value;
      var t := AfterModifyDailyReward(d, env, farmId, dailyReward).value.seeds[seedId];
      && t.farms[farmId].distributedReward == SeedUpdated(d.seeds[seedId], env.now).farms[farmId].distributedReward
      && t.farms[farmId].distributedAt == SeedUpdated(d.seeds[seedId], env.now).farms[farmId].distributedAt
      && SeedUpdated(t, env.now) == t
  {
    var seedId := SeedOfFarmId(farmId).value;
    var s0 := d.seeds[seedId];
    var s := SeedUpdated(s0, env.now);
    var t := AfterModifyDailyReward(d, env, farmId, dailyReward).value.seeds[seedId];
    assert t == Retuned(s, farmId, dailyReward);
    RetunedSeedStaysCurrent(s0, farmId, env.now, dailyReward);
  }

  /** The seed `s` with farm `farmId` paying `dailyReward` a day. */
  function Retuned(s: Seed, farmId: FarmId, dailyReward: Balance): (t: Seed)
    requires farmId in s.farms
    ensures t.farms.Keys == s.farms.Keys && t.farms[farmId].terms.dailyReward == dailyReward
  {
    s.(farms := s.farms[farmId := s.farms[farmId].(terms := s.farms[farmId].terms.(dailyReward := dailyReward))])
  }

  /** A seed loaded at `now` and then retuned is still up to date at `now`. */
  lemma RetunedSeedStaysCurrent(s0: Seed, farmId: FarmId, now: Timestamp, dailyReward: Balance)
    requires SeedFarmsValid(s0) && farmId in s0.farms
    ensures var t := Retuned(SeedUpdated(s0, now), farmId, dailyReward);
      SeedUpdated(t, now) == t
  {
    var t := Retuned(SeedUpdated(s0, now), farmId, dailyReward);
    var u := SeedUpdated(t, now);
    forall f | f in t.farms ensures u.farms[f] == t.farms[f] {
      if f == farmId {
        RetunedStaysCurrent(s0.farms[f], s0.totalSeedPower, t.totalSeedPower, now, dailyReward);
      } else {
        UpdateTwiceSameInstant(s0.farms[f], s0.totalSeedPower, t.totalSeedPower, now);
      }
    }
  }

  /** `modify_locking_policy`: the new maximum duration and multiplier are
    * kept only if the configuration stays valid. */
  function AfterModifyLockingPolicy(d: ContractData, env: Env, maxDuration: nat, maxRatio: nat)
    : (r: Result<ContractData>)
    ensures OperatorGate(d, env).Fail? ==> r == Err(OperatorGate(d, env).error)
    ensures OperatorGate(d, env) == Pass ==> (r.Ok? <==> maxRatio > MIN_LOCKING_REWARD_RATIO)
    ensures OperatorGate(d, env) == Pass && r.Err? ==> r.error == E200InvalidRatio
    ensures r.Ok? ==> IsValid(r.value.config)
    ensures r.Ok? ==>
      r.value == d.(config := d.config.(maximumLockingDurationSec := maxDuration, maxLockingMultiplier := maxRatio))
  {
    if OperatorGate(d, env).Fail? then Err(OperatorGate(d, env).error)
    else
      var config := d.config.(maximumLockingDurationSec := maxDuration, maxLockingMultiplier := maxRatio);
      match AssertValid(config)
      case Fail(e) => Err(e)
      case Pass => Ok(d.(config := config))
  }

  /** `modify_max_farm_num_per_seed`. */
  function AfterModifyMaxFarmNumPerSeed(d: ContractData, env: Env, maxNum: nat): (r: Result<ContractData>)
    ensures r.Err? <==> OperatorGate(d, env).Fail?
    ensures r.Err? ==> r.error == OperatorGate(d, env).error
    ensures r.Ok? ==> r.value.config.maxNumFarmsPerSeed == maxNum
    ensures r.Ok? ==> r.value == d.(config := d.config.(maxNumFarmsPerSeed := r.value.config.maxNumFarmsPerSeed))
  {
    if OperatorGate(d, env).Fail? then Err(OperatorGate(d, env).error)
    else Ok(d.(config := d.config.(maxNumFarmsPerSeed := maxNum)))
  }

  /** `modify_default_slash_rate`: the rate new seeds start with. */
  function AfterModifyDefaultSlashRate(d: ContractData, env: Env, slashRate: nat): (r: Result<ContractData>)
    ensures r.Err? <==> OperatorGate(d, env).Fail?
    ensures r.Err? ==> r.error == OperatorGate(d, env).error
    ensures r.Ok? ==> r.value.config.seedSlashRate == slashRate
    ensures r.Ok? ==> r.value == d.(config := d.config.(seedSlashRate := r.value.config.seedSlashRate))
  {
    if OperatorGate(d, env).Fail? then Err(OperatorGate(d, env).error)
    else Ok(d.(config := d.config.(seedSlashRate := slashRate)))
  }

  /** No configuration change an operator can make leaves a valid
    * configuration invalid. */
  lemma ConfigStaysValid(d: ContractData, env: Env, maxDuration: nat, maxRatio: nat, maxNum: nat, slashRate: nat)
    requires IsValid(d.config)
    ensures AfterModifyLockingPolicy(d, env, maxDuration, maxRatio).Ok? ==>
              IsValid(AfterModifyLockingPolicy(d, env, maxDuration, maxRatio).value.config)
    ensures AfterModifyMaxFarmNumPerSeed(d, env, maxNum).Ok? ==>
              IsValid(AfterModifyMaxFarmNumPerSeed(d, env, maxNum).value.config)
    ensures AfterModifyDefaultSlashRate(d, env, slashRate).Ok? ==>
              IsValid(AfterModifyDefaultSlashRate(d, env, slashRate).value.config)
  {
  }

  /** The seed parameter a seed-level modification replaces. */
  datatype SeedParam = MinDeposit(minDeposit: Balance) | MinLockingDuration(sec: nat) | SlashRate(rate: nat)

  function WithParam(s: Seed, p: SeedParam): (t: Seed)
    ensures t.seedId == s.seedId && t.totalSeedAmount == s.totalSeedAmount
    ensures t.totalSeedPower == s.totalSeedPower && t.farms == s.farms && t.farmerCount == s.farmerCount
  {
    match p
    case MinDeposit(x) => s.(minDeposit := x)
    case MinLockingDuration(x) => s.(minLockingDurationSec := x)
    case SlashRate(x) => s.(slashRate := x)
  }

  /** `modify_seed_min_deposit`, `modify_seed_min_locking_duration` and
    * `modify_seed_slash_rate`: the seed is loaded (its farms brought up to
    * `now`) and one parameter replaced; a minimum locking duration above
    * the configured maximum is refused. */
  function AfterModifySeed(d: ContractData, env: Env, seedId: SeedId, p: SeedParam): (r: Result<ContractData>)
    ensures OperatorGate(d, env).Fail? ==> r == Err(OperatorGate(d, env).error)
    ensures (OperatorGate(d, env) == Pass && p.MinLockingDuration? && p.sec > d.config.maximumLockingDurationSec)
              ==> r == Err(E201InvalidDuration)
    ensures r.Ok? <==> OperatorGate(d, env) == Pass && seedId in d.seeds
                       && (p.MinLockingDuration? ==> p.sec <= d.config.maximumLockingDurationSec)
    ensures r.Ok? ==> r.value == WithSeed(d, seedId, WithParam(SeedUpdated(d.seeds[seedId], env.now), p))
  {
    if OperatorGate(d, env).Fail? then Err(OperatorGate(d, env).error)
    else if p.MinLockingDuration? && p.sec > d.config.maximumLockingDurationSec then Err(E201InvalidDuration)
    else
      match UnwrapSeed(d, seedId, env.now)
      case Err(e) => Err(e)
      case Ok(s) => Ok(WithSeed(d, seedId, WithParam(s, p)))
  }

  /** Retuning a seed touches no farmer and no other seed, and keeps the
    * seed's amount, power, farms' keys and validity. */
  lemma SeedModificationKeepsStakes(d: ContractData, env: Env, seedId: SeedId, p: SeedParam)
    requires AfterModifySeed(d, env, seedId, p).Ok?
    requires SeedFarmsValid(d.seeds[seedId])
    ensures var e := AfterModifySeed(d, env, seedId, p).value;
      && e.farmers == d.farmers && e.seeds.Keys == d.seeds.Keys
      && (forall id :: id in d.seeds && id != seedId ==> e.seeds[id] == d.seeds[id])
      && e.seeds[seedId].totalSeedAmount == d.seeds[seedId].totalSeedAmount
      && e.seeds[seedId].totalSeedPower == d.seeds[seedId].totalSeedPower
      && e.seeds[seedId].farms.Keys == d.seeds[seedId].farms.Keys
      && SeedFarmsValid(e.seeds[seedId])
  {
    var s := d.seeds[seedId];
    forall f | f in s.farms ensures FarmValid(SeedUpdated(s, env.now).farms[f]) {
      UpdateKeeps(s.farms[f], s.totalSeedPower, env.now);
    }
  }

  /** `withdraw_seed_slashed`: the whole slashed balance of the seed goes to
    * the owner, and its entry is removed; nothing slashed is refused. */
  function AfterWithdrawSeedSlashed(d: ContractData, env: Env, seedId: SeedId): (r: Result<(ContractData, Transfer)>)
    ensures OperatorGate(d, env).Fail? ==> r == Err(OperatorGate(d, env).error)
    ensures OperatorGate(d, env) == Pass ==> (r.Ok? <==> Get(d.seedsSlashed, seedId, 0) > 0)
    ensures OperatorGate(d, env) == Pass && r.Err? ==> r.error == E101InsufficientBalance
    ensures r.Ok? ==> var (e, t) := r.value;
      && t == SlashedTransfer(seedId, d.ownerId, d.seedsSlashed[seedId])
      && e == d.(seedsSlashed := e.seedsSlashed)
      && seedId !in e.seedsSlashed
      && e.seedsSlashed == d.seedsSlashed - {seedId}
  {
    if OperatorGate(d, env).Fail? then Err(OperatorGate(d, env).error)
    else
      var amount := Get(d.seedsSlashed, seedId, 0);
      if amount == 0 then Err(E101InsufficientBalance)
      else Ok((d.(seedsSlashed := d.seedsSlashed - {seedId}), SlashedTransfer(seedId, d.ownerId, amount)))
  }

  /** `callback_withdraw_seed_slashed`: a failed payout goes back to the
    * slashed balance. */
  function AfterCallbackWithdrawSeedSlashed(d: ContractData, seedId: SeedId, amount: Balance, ok: bool)
    : (r: ContractData)
    ensures ok ==> r == d
    ensures !ok ==>
      && r == d.(seedsSlashed := r.seedsSlashed)
      && Get(r.seedsSlashed, seedId, 0) == Get(d.seedsSlashed, seedId, 0) + amount
      && r.seedsSlashed - {seedId} == d.seedsSlashed - {seedId}
  {
    if ok then d
    else d.(seedsSlashed := d.seedsSlashed[seedId := Get(d.seedsSlashed, seedId, 0) + amount])
  }

  /** A slashed payout that fails leaves the ledger exactly as before. */
  lemma FailedSlashedPayoutUndone(d: ContractData, env: Env, seedId: SeedId)
    requires AfterWithdrawSeedSlashed(d, env, seedId).Ok?
    ensures var (e, t) := AfterWithdrawSeedSlashed(d, env, seedId).value;
            AfterCallbackWithdrawSeedSlashed(e, t.seedId, t.amount, false) == d
  {
    var (e, t) := AfterWithdrawSeedSlashed(d, env, seedId).value;
    assert (d.seedsSlashed - {seedId})[seedId := d.seedsSlashed[seedId]] == d.seedsSlashed;
  }

  /** `return_seed_lostfound`: the owner alone sends part of a seed's
    * lost-and-found balance to a registered farmer. The entry is written
    * even when it drops to zero. */
  function AfterReturnSeedLostfound(d: ContractData, env: Env, farmerId: AccountId, seedId: SeedId, amount: Balance)
    : (r: Result<(ContractData, Transfer)>)
    ensures env.deposit != 1 ==> r == Err(RequiresOneYocto)
    ensures env.deposit == 1 && env.caller != d.ownerId ==> r == Err(E002NotAllowed)
    ensures env.deposit == 1 && env.caller == d.ownerId && d.state != RunningState.Running ==> r == Err(E004ContractPaused)
    ensures r.Ok? <==> env.deposit == 1 && env.caller == d.ownerId && d.state == RunningState.Running
                       && farmerId in d.farmers && amount <= Get(d.seedsLostfound, seedId, 0)
    ensures r.Ok? ==> var (e, t) := r.value;
      && t == LostfoundTransfer(seedId, farmerId, amount)
      && e == d.(seedsLostfound := e.seedsLostfound)
      && seedId in e.seedsLostfound
      && e.seedsLostfound[seedId] + amount == Get(d.seedsLostfound, seedId, 0)
      && e.seedsLostfound - {seedId} == d.seedsLostfound - {seedId}
  {
    if AssertOneYocto(env).Fail? then Err(AssertOneYocto(env).error)
    else if AssertOwner(d, env.caller).Fail? then Err(AssertOwner(d, env.caller).error)
    else if AssertRunning(d).Fail? then Err(AssertRunning(d).error)
    else if farmerId !in d.farmers then Err(E100AccNotRegistered)
    else
      var most := Get(d.seedsLostfound, seedId, 0);
      if amount > most then Err(E101InsufficientBalance)
      else Ok((d.(seedsLostfound := d.seedsLostfound[seedId := most - amount]), LostfoundTransfer(seedId, farmerId, amount)))
  }

  /** `callback_withdraw_seed_lostfound`: a failed return goes back to the
    * lost-and-found balance. */
  function AfterCallbackWithdrawSeedLostfound(d: ContractData, seedId: SeedId, amount: Balance, ok: bool)
    : (r: ContractData)
    ensures ok ==> r == d
    ensures !ok ==>
      && r == d.(seedsLostfound := r.seedsLostfound)
      && Get(r.seedsLostfound, seedId, 0) == Get(d.seedsLostfound, seedId, 0) + amount
      && r.seedsLostfound - {seedId} == d.seedsLostfound - {seedId}
  {
    if ok then d
    else d.(seedsLostfound := d.seedsLostfound[seedId := Get(d.seedsLostfound, seedId, 0) + amount])
  }

  /** A lost-and-found return that fails leaves every balance as before. */
  lemma FailedLostfoundReturnUndone(d: ContractData, env: Env, farmerId: AccountId, seedId: SeedId, amount: Balance)
    requires AfterReturnSeedLostfound(d, env, farmerId, seedId, amount).Ok?
    ensures var (e, t) := AfterReturnSeedLostfound(d, env, farmerId, seedId, amount).value;
      var back := AfterCallbackWithdrawSeedLostfound(e, t.seedId, t.amount, false);
      && back == d.(seedsLostfound := back.seedsLostfound)
      && Get(back.seedsLostfound, seedId, 0) == Get(d.seedsLostfound, seedId, 0)
      && back.seedsLostfound - {seedId} == d.seedsLostfound - {seedId}
  {
  }

  method ModifyDailyReward(c: Contract, env: Env, farmId: FarmId, dailyReward: Balance) returns (r: Outcome)
    modifies c
    ensures Commits(old(c.Data()), c.Data(), r, AfterModifyDailyReward(old(c.Data()), env, farmId, dailyReward))
  {
    var gate := OperatorGate(c.Data(), env);
    if gate.Fail? { return gate; }
    var seedId := SeedOfFarmId(farmId);
    if seedId.Err? { return Fail(seedId.error); }
    var seed := UnwrapSeed(c.Data(), seedId.value, env.now);
    if seed.Err? { return Fail(seed.error); }
    var s := seed.value;
    if farmId !in s.farms { return Fail(E401FarmNotExist); }
    var farm := s.farms[farmId];
    c.seeds := c.seeds[seedId.value := s.(farms := s.farms[farmId := farm.(terms := farm.terms.(dailyReward := dailyReward))])];
    r := Pass;
  }

  method ModifyLockingPolicy(c: Contract, env: Env, maxDuration: nat, maxRatio: nat) returns (r: Outcome)
    modifies c
    ensures Commits(old(c.Data()), c.Data(), r, AfterModifyLockingPolicy(old(c.Data()), env, maxDuration, maxRatio))
  {
    var gate := OperatorGate(c.Data(), env);
    if gate.Fail? { return gate; }
    var config := c.config.(maximumLockingDurationSec := maxDuration, maxLockingMultiplier := maxRatio);
    r := AssertValid(config);
    if r.Pass? { c.config := config; }
  }

  method ModifyMaxFarmNumPerSeed(c: Contract, env: Env, maxNum: nat) returns (r: Outcome)
    modifies c
    ensures Commits(old(c.Data()), c.Data(), r, AfterModifyMaxFarmNumPerSeed(old(c.Data()), env, maxNum))
  {
    r := OperatorGate(c.Data(), env);
    if r.Pass? { c.config := c.config.(maxNumFarmsPerSeed := maxNum); }
  }

  method ModifyDefaultSlashRate(c: Contract, env: Env, slashRate: nat) returns (r: Outcome)
    modifies c
    ensures Commits(old(c.Data()), c.Data(), r, AfterModifyDefaultSlashRate(old(c.Data()), env, slashRate))
  {
    r := OperatorGate(c.Data(), env);
    if r.Pass? { c.config := c.config.(seedSlashRate := slashRate); }
  }

  method ModifySeed(c: Contract, env: Env, seedId: SeedId, p: SeedParam) returns (r: Outcome)
    modifies c
    ensures Commits(old(c.Data()), c.Data(), r, AfterModifySeed(old(c.Data()), env, seedId, p))
  {
    r := OperatorGate(c.Data(), env);
    if r.Fail? { return; }
    if p.MinLockingDuration? && p.sec > c.config.maximumLockingDurationSec { return Fail(E201InvalidDuration); }
    var seed := UnwrapSeed(c.Data(), seedId, env.now);
    if seed.Err? { return Fail(seed.error); }
    c.seeds := c.seeds[seedId := WithParam(seed.value, p)];
  }

  method WithdrawSeedSlashed(c: Contract, env: Env, seedId: SeedId) returns (r: Result<Transfer>)
    modifies c
    ensures Returns(old(c.Data()), c.Data(), r, AfterWithdrawSeedSlashed(old(c.Data()), env, seedId))
  {
    var gate := OperatorGate(c.Data(), env);
    if gate.Fail? { return Err(gate.error); }
    var amount := Get(c.seedsSlashed, seedId, 0);
    if amount == 0 { return Err(E101InsufficientBalance); }
    c.seedsSlashed := c.seedsSlashed - {seedId};
    r := Ok(SlashedTransfer(seedId, c.ownerId, amount));
  }

  method CallbackWithdrawSeedSlashed(c: Contract, seedId: SeedId, amount: Balance, ok: bool)
    modifies c
    ensures c.Data() == AfterCallbackWithdrawSeedSlashed(old(c.Data()), seedId, amount, ok)
  {
    if !ok {
      c.seedsSlashed := c.seedsSlashed[seedId := Get(c.seedsSlashed, seedId, 0) + amount];
    }
  }

  method ReturnSeedLostfound(c: Contract, env: Env, farmerId: AccountId, seedId: SeedId, amount: Balance)
    returns (r: Result<Transfer>)
    modifies c
    ensures Returns(old(c.Data()), c.Data(), r, AfterReturnSeedLostfound(old(c.Data()), env, farmerId, seedId, amount))
  {
    if env.deposit != 1 { return Err(RequiresOneYocto); }
    if env.caller != c.ownerId { return Err(E002NotAllowed); }
    if c.state != RunningState.Running { return Err(E004ContractPaused); }
    if farmerId !in c.farmers { return Err(E100AccNotRegistered); }
    var most := Get(c.seedsLostfound, seedId, 0);
    if amount > most { return Err(E101InsufficientBalance); }
    c.seedsLostfound := c.seedsLostfound[seedId := most - amount];
    r := Ok(LostfoundTransfer(seedId, farmerId, amount));
  }

  method CallbackWithdrawSeedLostfound(c: Contract, seedId: SeedId, amount: Balance, ok: bool)
    modifies c
    ensures c.Data() == AfterCallbackWithdrawSeedLostfound(old(c.Data()), seedId, amount, ok)
  {
    if !ok {
      c.seedsLostfound := c.seedsLostfound[seedId := Get(c.seedsLostfound, seedId, 0) + amount];
    }
  }
}
