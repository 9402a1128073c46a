/** Storage registration (storage_impl.rs). Registering an account costs a
  * fixed 0.1 NEAR, which the sponsor gets back when the account leaves. */
module StorageImpl {
  import opened Base
  import opened Farmers
  import opened Contracts

  datatype StorageBalance = StorageBalance(total: Balance, available: Balance)

  datatype StorageBalanceBounds = StorageBalanceBounds(min: Balance, max: Option<Balance>)

  /** `storage_balance_bounds`: registration is a fixed amount. */
  function StorageBalanceBoundsOf(): (b: StorageBalanceBounds)
    ensures b.max == Some(b.min) && b.min == STORAGE_BALANCE_MIN_BOUND
  {
    StorageBalanceBounds(STORAGE_BALANCE_MIN_BOUND, Some(STORAGE_BALANCE_MIN_BOUND))
  }

  /** `storage_balance_of`: the full bound for a registered farmer, none
    * available to withdraw; nothing for anyone else. */
  function StorageBalanceOf(d: ContractData, accountId: AccountId): (r: Option<StorageBalance>)
    ensures r.Some? <==> accountId in d.farmers
    ensures r.Some? ==> r.value == StorageBalance(StorageBalanceBoundsOf().min, 0)
  {
    if accountId in d.farmers then Some(StorageBalance(STORAGE_BALANCE_MIN_BOUND, 0)) else None
  }

  /** A NEAR refund, sent only when it is not zero. */
  function Refund(receiverId: AccountId, amount: Balance): (p: Option<NearPayment>)
    ensures p.Some? <==> amount > 0
    ensures p.Some? ==> p.value == NearPayment(receiverId, amount)
  {
    if amount > 0 then Some(NearPayment(receiverId, amount)) else None
  }

  /** `storage_deposit`: registers `accountId` (the caller by default), the
    * caller sponsoring it; a deposit for an account already registered is
    * refunded in full. */
  function AfterStorageDeposit(d: ContractData, env: Env, accountId: Option<AccountId>)
    : (r: Result<(ContractData, (StorageBalance, Option<NearPayment>))>)
    ensures var acc := accountId.GetOr(env.caller);
            r.Ok? <==> d.state == Running && (acc in d.farmers || env.deposit >= STORAGE_BALANCE_MIN_BOUND)
    ensures d.state != Running ==> r == Err(E004ContractPaused)
    ensures r.Err? && d.state == Running ==> r.error == E102InsufficientStorage
    ensures var acc := accountId.GetOr(env.caller);
            r.Ok? && acc in d.farmers ==> r.value == (d, (StorageBalance(STORAGE_BALANCE_MIN_BOUND, 0), Refund(env.caller, env.deposit)))
    ensures var acc := accountId.GetOr(env.caller);
            r.Ok? && acc !in d.farmers ==>
              && r.value.0 == d.(farmers := d.farmers[acc := NewFarmer(acc, env.caller)], farmerCount := d.farmerCount + 1)
              && r.value.1.0 == StorageBalance(STORAGE_BALANCE_MIN_BOUND, 0)
              && r.value.1.1 == Refund(env.caller, env.deposit - STORAGE_BALANCE_MIN_BOUND)
  {
    if d.state != Running then Err(E004ContractPaused)
    else
      var acc := accountId.GetOr(env.caller);
      var registered := acc in d.farmers;
      if env.deposit < STORAGE_BALANCE_MIN_BOUND && !registered then Err(E102InsufficientStorage)
      else if registered then
        Ok((d, (StorageBalanceOf(d, acc).value, Refund(env.caller, env.deposit))))
      else
        var e := d.(farmers := d.farmers[acc := NewFarmer(acc, env.caller)], farmerCount := d.farmerCount + 1);
        Ok((e, (StorageBalanceOf(e, acc).value, Refund(env.caller, env.deposit - STORAGE_BALANCE_MIN_BOUND))))
  }

  /** `storage_withdraw`: there is never anything available to withdraw. */
  function AfterStorageWithdraw(d: ContractData, env: Env, amount: Option<Balance>): (r: Result<(ContractData, StorageBalance)>)
    ensures r.Err?
    ensures r.error == (if env.deposit != 1 then RequiresOneYocto
                        else if d.state != Running then E004ContractPaused
                        else E006NotImplemented)
  {
    if env.deposit != 1 then Err(RequiresOneYocto)
    else if d.state != Running then Err(E004ContractPaused)
    else Err(E006NotImplemented)
  }

  /** `storage_unregister`: the caller leaves once it holds no rewards and no
    * seed, and the registration fee goes back to its sponsor. The `force`
    * flag is ignored. */
  function AfterStorageUnregister(d: ContractData, env: Env, force: Option<bool>)
    : (r: Result<(ContractData, (bool, Option<NearPayment>))>)
    ensures env.deposit != 1 ==> r == Err(RequiresOneYocto)
    ensures env.deposit == 1 && d.state != Running ==> r == Err(E004ContractPaused)
    ensures env.deposit == 1 && d.state == Running && env.caller !in d.farmers ==> r == Ok((d, (false, None)))
    ensures r.Ok? && r.value.1.0 ==>
              && env.caller in d.farmers
              && d.farmers[env.caller].rewards == map[]
              && HasNoSeeds(d.farmers[env.caller])
              && d.farmerCount >= 1
              && r.value.0 == d.(farmers := d.farmers - {env.caller}, farmerCount := d.farmerCount - 1)
              && r.value.1.1 == Some(NearPayment(d.farmers[env.caller].sponsorId, STORAGE_BALANCE_MIN_BOUND))
    ensures r.Err? && env.deposit == 1 && d.state == Running && env.caller in d.farmers ==>
              r.error == (if d.farmers[env.caller].rewards != map[] then E103StillHasReward
                          else if !HasNoSeeds(d.farmers[env.caller]) then E104StillHasSeed
                          else ArithmeticUnderflow)
  {
    if env.deposit != 1 then Err(RequiresOneYocto)
    else if d.state != Running then Err(E004ContractPaused)
    else if env.caller !in d.farmers then Ok((d, (false, None)))
    else
      var farmer := d.farmers[env.caller];
      if farmer.rewards != map[] then Err(E103StillHasReward)
      else if !HasNoSeeds(farmer) then Err(E104StillHasSeed)
      else
        match Sub(d.farmerCount, 1)
        case Err(e) => Err(e)
        case Ok(count) =>
          Ok((d.(farmers := d.farmers - {env.caller}, farmerCount := count),
              (true, Some(NearPayment(farmer.sponsorId, STORAGE_BALANCE_MIN_BOUND)))))
  }

  /** Registering oneself and leaving again restores the farmer map and
    * count, and returns the registration fee to the account: overall it
    * pays nothing but the excess it was refunded at once. */
  lemma RegisterThenUnregister(d: ContractData, env: Env, leave: Env)
    requires d.state == Running && env.caller !in d.farmers && env.deposit >= STORAGE_BALANCE_MIN_BOUND
    requires leave.caller == env.caller && leave.deposit == 1
    ensures AfterStorageDeposit(d, env, None).Ok?
    ensures var d1 := AfterStorageDeposit(d, env, None).value.0;
            AfterStorageUnregister(d1, leave, None)
              == Ok((d, (true, Some(NearPayment(env.caller, STORAGE_BALANCE_MIN_BOUND)))))
  {
    var d1 := AfterStorageDeposit(d, env, None).value.0;
    assert d1.farmers - {env.caller} == d.farmers;
  }

  /** A second registration changes nothing and refunds the deposit. */
  lemma RegisterTwice(d: ContractData, env: Env, accountId: AccountId)
    requires d.state == Running && env.deposit >= STORAGE_BALANCE_MIN_BOUND
    ensures AfterStorageDeposit(d, env, Some(accountId)).Ok?
    ensures var d1 := AfterStorageDeposit(d, env, Some(accountId)).value.0;
            AfterStorageDeposit(d1, env, Some(accountId)).value.0 == d1
            && AfterStorageDeposit(d1, env, Some(accountId)).value.1.1 == Refund(env.caller, env.deposit)
  {
  }

  method StorageDeposit(c: Contract, env: Env, accountId: Option<AccountId>)
    returns (r: Result<(StorageBalance, Option<NearPayment>)>)
    modifies c
    ensures Returns(old(c.Data()), c.Data(), r, AfterStorageDeposit(old(c.Data()), env, accountId))
  {
    if c.state != Running { return Err(E004ContractPaused); }
    var acc := accountId.GetOr(env.caller);
    var registered := acc in c.farmers;
    if env.deposit < STORAGE_BALANCE_MIN_BOUND && !registered {
      return Err(E102InsufficientStorage);
    }
    var refund;
    if registered {
      refund := Refund(env.caller, env.deposit);
    } else {
      c.farmers := c.farmers[acc := NewFarmer(acc, env.caller)];
      c.farmerCount := c.farmerCount + 1;
      refund := Refund(env.caller, env.deposit - STORAGE_BALANCE_MIN_BOUND);
    }
    r := Ok((StorageBalanceOf(c.Data(), acc).value, refund));
  }

  method StorageWithdraw(c: Contract, env: Env, amount: Option<Balance>) returns (r: Result<StorageBalance>)
    modifies c
    ensures Returns(old(c.Data()), c.Data(), r, AfterStorageWithdraw(old(c.Data()), env, amount))
  {
    if env.deposit != 1 { return Err(RequiresOneYocto); }
    if c.state != Running { return Err(E004ContractPaused); }
    r := Err(E006NotImplemented);
  }

  method StorageUnregister(c: Contract, env: Env, force: Option<bool>) returns (r: Result<(bool, Option<NearPayment>)>)
    modifies c
    ensures Returns(old(c.Data()), c.Data(), r, AfterStorageUnregister(old(c.Data()), env, force))
  {
    if env.deposit != 1 { return Err(RequiresOneYocto); }
    if c.state != Running { return Err(E004ContractPaused); }
    if env.caller !in c.farmers { return Ok((false, None)); }
    var farmer := c.farmers[env.caller];
    if farmer.rewards != map[] { return Err(E103StillHasReward); }
    if !HasNoSeeds(farmer) { return Err(E104StillHasSeed); }
    if c.farmerCount == 0 { return Err(ArithmeticUnderflow); }
    c.farmers := c.farmers - {env.caller};
    c.farmerCount := c.farmerCount - 1;
    r := Ok((true, Some(NearPayment(farmer.sponsorId, STORAGE_BALANCE_MIN_BOUND))));
  }
}
