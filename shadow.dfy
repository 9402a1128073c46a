/** Shadow seed (shadow_actions.rs): liquidity the exchange keeps but mirrors
  * into the farm as seed. Only the exchange calls these, on behalf of a
  * registered farmer; they ask for no deposit. */
module ShadowActions {
  import opened Base
  import opened FarmerSeeds
  import opened Seeds
  import opened Farmers
  import opened Ids
  import opened Contracts
  import opened FarmerSeedActions

  /** The part of `on_cast_shadow` after the claim, on the claimed farmer `f`
    * and seed `s`. */
  function CastShadowClaimed(d: ContractData, accountId: AccountId, seedId: SeedId, f: Farmer, s: Seed,
                             amount: Balance): (r: Result<ContractData>)
    ensures r.Ok? ==> Touches(d, r.value, accountId, seedId)
    ensures r.Ok? ==> (GetSeed(f, seedId).Some? &&
      var (before, after) := (GetSeed(f, seedId).value, Position(r.value, accountId, seedId));
      var t := r.value.seeds[seedId];
      && after == before.(shadowAmount := before.shadowAmount + amount)
      && t == s.(totalSeedAmount := t.totalSeedAmount, totalSeedPower := t.totalSeedPower)
      && t.totalSeedAmount == s.totalSeedAmount + amount
      && t.totalSeedPower + Power(before) == s.totalSeedPower + Power(after))
  {
    match GetSeed(f, seedId)
    case None => Err(MissingValue)
    case Some(fs) =>
      var (g, inc) := AddShadow(fs, amount);
      Ok(d.(farmers := d.farmers[accountId := SetSeed(f, seedId, g)],
            seeds := d.seeds[seedId := s.(totalSeedAmount := s.totalSeedAmount + amount,
                                          totalSeedPower := s.totalSeedPower + inc)]))
  }

  /** The checks `on_cast_shadow` and `on_remove_shadow` open with, giving
    * the seed the shadow id names. */
  function ShadowSeed(d: ContractData, env: Env, accountId: AccountId, shadowId: string, msg: string)
    : (r: Result<SeedId>)
    ensures env.caller != d.refExchangeId ==> r == Err(E002NotAllowed)
    ensures env.caller == d.refExchangeId && d.state != Running ==> r == Err(E004ContractPaused)
    ensures r.Ok? ==> env.caller == d.refExchangeId && d.state == Running && msg == ""
                      && accountId in d.farmers
                      && r == ShadowIdToSeedId(d.refExchangeId, shadowId) && r.value in d.seeds
  {
    if env.caller != d.refExchangeId then Err(E002NotAllowed)
    else if d.state != Running then Err(E004ContractPaused)
    else if msg != "" then Err(RequirementFailed)
    else if accountId !in d.farmers then Err(E100AccNotRegistered)
    else
      match ShadowIdToSeedId(d.refExchangeId, shadowId)
      case Err(e) => Err(e)
      case Ok(seedId) => if seedId !in d.seeds then Err(E301SeedNotExist) else Ok(seedId)
  }

  /** `on_cast_shadow`: the exchange mirrors `amount` more of the farmer's
    * liquidity, at least the seed's minimum deposit. */
  ghost function AfterOnCastShadow(d: ContractData, env: Env, accountId: AccountId, shadowId: string,
                                   amount: Balance, msg: string, boost: nat): (r: Result<ContractData>)
    ensures ShadowSeed(d, env, accountId, shadowId, msg).Err? ==> r == Err(ShadowSeed(d, env, accountId, shadowId, msg).error)
    ensures ShadowSeed(d, env, accountId, shadowId, msg).Ok? ==>
      var seedId := ShadowSeed(d, env, accountId, shadowId, msg).value;
      && (amount < d.seeds[seedId].minDeposit ==> r == Err(E307BelowMinDeposit))
      && (r.Ok? ==> FarmerClaimed(d, accountId, seedId, env.now, boost).Ok?)
  {
    match ShadowSeed(d, env, accountId, shadowId, msg)
    case Err(e) => Err(e)
    case Ok(seedId) =>
      if amount < d.seeds[seedId].minDeposit then Err(E307BelowMinDeposit)
      else
        match FarmerClaimed(d, accountId, seedId, env.now, boost)
        case Err(e) => Err(e)
        case Ok((f, s)) => CastShadowClaimed(d, accountId, seedId, f, s, amount)
  }

  /** The part of `on_remove_shadow` after the claim, on the claimed farmer
    * `f` and seed `s`. An emptied position is dropped; the seed's farmer
    * count is left alone. */
  function RemoveShadowClaimed(d: ContractData, accountId: AccountId, seedId: SeedId, f: Farmer, s: Seed,
                               amount: Balance): (r: Result<ContractData>)
    ensures r.Ok? ==> Touches(d, r.value, accountId, seedId)
    ensures r.Ok? && seedId !in f.seeds ==> (GetSeed(f, seedId).Some? &&
      var (before, after) := (GetSeed(f, seedId).value, Position(r.value, accountId, seedId));
      var t := r.value.seeds[seedId];
      && amount <= before.shadowAmount
      && Amount(after) + amount == Amount(before)
      && t == s.(totalSeedAmount := t.totalSeedAmount, totalSeedPower := t.totalSeedPower)
      && t.totalSeedAmount + amount == s.totalSeedAmount
      && (NoStrayPower(before) ==> t.totalSeedPower + Power(before) == s.totalSeedPower + Power(after)))
  {
    match GetSeed(f, seedId)
    case None => Err(MissingValue)
    case Some(fs) =>
      match WithdrawShadow(fs, amount)
      case Err(e) => Err(e)
      case Ok(g) =>
        match Sub(s.totalSeedAmount, amount)
        case Err(e) => Err(e)
        case Ok(totalAmount) =>
          match Sub(s.totalSeedPower, Power(fs))
          case Err(e) => Err(e)
          case Ok(rest) =>
            var r := Ok(d.(farmers := d.farmers[accountId := Stored(f, seedId, g)],
                           seeds := d.seeds[seedId := s.(totalSeedAmount := totalAmount,
                                                         totalSeedPower := rest + Power(g))]));
            assert IsEmpty(g) && NoStrayPower(fs) ==> BasicPower(g) == 0;
            r
  }

  /** `on_remove_shadow`: the exchange stops mirroring `amount`, which must
    * not be zero. */
  ghost function AfterOnRemoveShadow(d: ContractData, env: Env, accountId: AccountId, shadowId: string,
                                     amount: Balance, msg: string, boost: nat): (r: Result<ContractData>)
    ensures env.caller != d.refExchangeId ==> r == Err(E002NotAllowed)
    ensures env.caller == d.refExchangeId && d.state != Running ==> r == Err(E004ContractPaused)
    ensures amount == 0 ==> r.Err?
    ensures r.Ok? ==> ShadowSeed(d, env, accountId, shadowId, msg).Ok?
                      && FarmerClaimed(d, accountId, ShadowSeed(d, env, accountId, shadowId, msg).value, env.now, boost).Ok?
  {
    if env.caller != d.refExchangeId then Err(E002NotAllowed)
    else if d.state != Running then Err(E004ContractPaused)
    else if msg != "" then Err(RequirementFailed)
    else if amount == 0 then Err(RequirementFailed)
    else
      match ShadowSeed(d, env, accountId, shadowId, msg)
      case Err(e) => Err(e)
      case Ok(seedId) =>
        match FarmerClaimed(d, accountId, seedId, env.now, boost)
        case Err(e) => Err(e)
        case Ok((f, s)) => RemoveShadowClaimed(d, accountId, seedId, f, s, amount)
  }

  /** Casting shadow seed adds exactly `amount` to the position and to the
    * seed's total, and the seed's total power moves as the position's. */
  lemma CastShadowAdds(d: ContractData, env: Env, accountId: AccountId, shadowId: string,
                       amount: Balance, msg: string, boost: nat)
    requires Keyed(d) && AfterOnCastShadow(d, env, accountId, shadowId, amount, msg, boost).Ok?
    ensures var seedId := ShadowIdToSeedId(d.refExchangeId, shadowId).value;
      var e := AfterOnCastShadow(d, env, accountId, shadowId, amount, msg, boost).value;
      var (before, after) := (Position(d, accountId, seedId), Position(e, accountId, seedId));
      && Touches(d, e, accountId, seedId) && Keyed(e)
      && after.shadowAmount == before.shadowAmount + amount
      && Amount(after) == Amount(before) + amount
      && e.seeds[seedId].totalSeedAmount == d.seeds[seedId].totalSeedAmount + amount
      && e.seeds[seedId].farmerCount == d.seeds[seedId].farmerCount
      && e.seeds[seedId].totalSeedPower + Power(before) == d.seeds[seedId].totalSeedPower + Power(after)
  {
    var seedId := ShadowSeed(d, env, accountId, shadowId, msg).value;
    ClaimedPosition(d, accountId, seedId, env.now, boost);
  }

  /** Removing shadow seed takes exactly `amount` off the position and off
    * the seed's total, and the seed's total power moves as the position's. */
  lemma RemoveShadowTakes(d: ContractData, env: Env, accountId: AccountId, shadowId: string,
                          amount: Balance, msg: string, boost: nat)
    requires Keyed(d) && AfterOnRemoveShadow(d, env, accountId, shadowId, amount, msg, boost).Ok?
    ensures var seedId := ShadowIdToSeedId(d.refExchangeId, shadowId).value;
      var e := AfterOnRemoveShadow(d, env, accountId, shadowId, amount, msg, boost).value;
      var (before, after) := (Position(d, accountId, seedId), Position(e, accountId, seedId));
      && Touches(d, e, accountId, seedId) && Keyed(e)
      && amount <= before.shadowAmount
      && Amount(after) + amount == Amount(before)
      && e.seeds[seedId].totalSeedAmount + amount == d.seeds[seedId].totalSeedAmount
      && e.seeds[seedId].farmerCount == d.seeds[seedId].farmerCount
      && (NoStrayPower(before) ==>
            e.seeds[seedId].totalSeedPower + Power(before) == d.seeds[seedId].totalSeedPower + Power(after))
  {
    var seedId := ShadowSeed(d, env, accountId, shadowId, msg).value;
    ClaimedPosition(d, accountId, seedId, env.now, boost);
  }

  /** Mirroring `amount` and un-mirroring it again leaves the position and
    * the seed holding what they held. */
  lemma CastThenRemoveShadow(d: ContractData, env: Env, accountId: AccountId, shadowId: string,
                             amount: Balance, boost: nat)
    requires Keyed(d) && amount > 0
    requires AfterOnCastShadow(d, env, accountId, shadowId, amount, "", boost).Ok?
    requires var e := AfterOnCastShadow(d, env, accountId, shadowId, amount, "", boost).value;
             AfterOnRemoveShadow(e, env, accountId, shadowId, amount, "", boost).Ok?
    ensures var seedId := ShadowIdToSeedId(d.refExchangeId, shadowId).value;
      var e := AfterOnCastShadow(d, env, accountId, shadowId, amount, "", boost).value;
      var e2 := AfterOnRemoveShadow(e, env, accountId, shadowId, amount, "", boost).value;
      && Amount(Position(e2, accountId, seedId)) == Amount(Position(d, accountId, seedId))
      && e2.seeds[seedId].totalSeedAmount == d.seeds[seedId].totalSeedAmount
  {
    var seedId := ShadowIdToSeedId(d.refExchangeId, shadowId).value;
    var e := AfterOnCastShadow(d, env, accountId, shadowId, amount, "", boost).value;
    CastShadowAdds(d, env, accountId, shadowId, amount, "", boost);
    assert e.refExchangeId == d.refExchangeId;
    assert ShadowIdToSeedId(e.refExchangeId, shadowId).value == seedId;
    RemoveShadowTakes(e, env, accountId, shadowId, amount, "", boost);
    var e2 := AfterOnRemoveShadow(e, env, accountId, shadowId, amount, "", boost).value;
    assert Amount(Position(e, accountId, seedId)) == Amount(Position(d, accountId, seedId)) + amount;
    assert Amount(Position(e2, accountId, seedId)) + amount == Amount(Position(e, accountId, seedId));
  }

  /** The steps of `on_cast_shadow` after the claim. */
  method CastShadowClaimedSteps(c: Contract, accountId: AccountId, seedId: SeedId, farmer: Farmer, seed: Seed,
                                amount: Balance) returns (r: Outcome)
    modifies c
    ensures Commits(old(c.Data()), c.Data(), r, CastShadowClaimed(old(c.Data()), accountId, seedId, farmer, seed, amount))
  {
    var position := GetSeed(farmer, seedId);
    if position.None? { return Fail(MissingValue); }
    var (farmerSeed, increased) := AddShadow(position.value, amount);
    c.farmers := c.farmers[accountId := SetSeed(farmer, seedId, farmerSeed)];
    c.seeds := c.seeds[seedId := seed.(totalSeedAmount := seed.totalSeedAmount + amount,
                                       totalSeedPower := seed.totalSeedPower + increased)];
    r := Pass;
  }

  method OnCastShadow(c: Contract, env: Env, accountId: AccountId, shadowId: string, amount: Balance,
                      msg: string, boost: nat) returns (r: Outcome)
    modifies c
    ensures Commits(old(c.Data()), c.Data(), r,
                    AfterOnCastShadow(old(c.Data()), env, accountId, shadowId, amount, msg, boost))
  {
    if c.refExchangeId != env.caller { return Fail(E002NotAllowed); }
    if c.state != Running { return Fail(E004ContractPaused); }
    if msg != "" { return Fail(RequirementFailed); }
    if accountId !in c.farmers { return Fail(E100AccNotRegistered); }
    var farmer := c.farmers[accountId];
    var seedId := ShadowIdToSeedId(c.refExchangeId, shadowId);
    if seedId.Err? { return Fail(seedId.error); }
    if seedId.value !in c.seeds { return Fail(E301SeedNotExist); }
    var seed := SeedUpdated(c.seeds[seedId.value], env.now);
    if amount < seed.minDeposit { return Fail(E307BelowMinDeposit); }
    var claim := DoFarmerClaim(farmer, seed, boost);
    assert claim == FarmerClaimed(c.Data(), accountId, seedId.value, env.now, boost);
    if claim.Err? { return Fail(claim.error); }
    r := CastShadowClaimedSteps(c, accountId, seedId.value, claim.value.0, claim.value.1, amount);
  }

  /** The steps of `on_remove_shadow` after the claim. */
  method RemoveShadowClaimedSteps(c: Contract, accountId: AccountId, seedId: SeedId, farmer: Farmer, seed: Seed,
                                  amount: Balance) returns (r: Outcome)
    modifies c
    ensures Commits(old(c.Data()), c.Data(), r, RemoveShadowClaimed(old(c.Data()), accountId, seedId, farmer, seed, amount))
  {
    var position := GetSeed(farmer, seedId);
    if position.None? { return Fail(MissingValue); }
    var farmerSeed := position.value;
    var prev := Power(farmerSeed);
    var withdrawn := WithdrawShadow(farmerSeed, amount);
    if withdrawn.Err? { return Fail(withdrawn.error); }
    farmerSeed := withdrawn.value;
    if seed.totalSeedAmount < amount || seed.totalSeedPower < prev { return Fail(ArithmeticUnderflow); }
    var seed' := seed.(totalSeedAmount := seed.totalSeedAmount - amount,
                       totalSeedPower := seed.totalSeedPower - prev + Power(farmerSeed));
    var farmer' := if IsEmpty(farmerSeed) then RemoveSeed(farmer, seedId) else SetSeed(farmer, seedId, farmerSeed);
    c.farmers := c.farmers[accountId := farmer'];
    c.seeds := c.seeds[seedId := seed'];
    r := Pass;
  }

  method OnRemoveShadow(c: Contract, env: Env, accountId: AccountId, shadowId: string, amount: Balance,
                        msg: string, boost: nat) returns (r: Outcome)
    modifies c
    ensures Commits(old(c.Data()), c.Data(), r,
                    AfterOnRemoveShadow(old(c.Data()), env, accountId, shadowId, amount, msg, boost))
  {
    if c.refExchangeId != env.caller { return Fail(E002NotAllowed); }
    if c.state != Running { return Fail(E004ContractPaused); }
    if msg != "" { return Fail(RequirementFailed); }
    if amount == 0 { return Fail(RequirementFailed); }
    if accountId !in c.farmers { return Fail(E100AccNotRegistered); }
    var farmer := c.farmers[accountId];
    var seedId := ShadowIdToSeedId(c.refExchangeId, shadowId);
    if seedId.Err? { return Fail(seedId.error); }
    if seedId.value !in c.seeds { return Fail(E301SeedNotExist); }
    var seed := SeedUpdated(c.seeds[seedId.value], env.now);
    var claim := DoFarmerClaim(farmer, seed, boost);
    assert claim == FarmerClaimed(c.Data(), accountId, seedId.value, env.now, boost);
    if claim.Err? { return Fail(claim.error); }
    r := RemoveShadowClaimedSteps(c, accountId, seedId.value, claim.value.0, claim.value.1, amount);
  }
}
