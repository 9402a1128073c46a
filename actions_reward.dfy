/** What a farmer does with claimed rewards (actions_of_farmer_reward.rs):
  * flush the rewards of one seed into the reward balances, withdraw a
  * balance, and settle the withdrawal when the transfer reports back. */
module FarmerRewardActions {
  import opened Base
  import opened FarmerSeeds
  import opened Seeds
  import opened Farmers
  import opened Contracts

  /** `claim_reward_by_seed`: flushes the caller's rewards in one seed. No
    * deposit is asked for. */
  ghost function AfterClaimRewardBySeed(d: ContractData, env: Env, seedId: SeedId, boost: nat): (r: Result<ContractData>)
    ensures d.state != Running ==> r == Err(E004ContractPaused)
    ensures d.state == Running ==> r.Err? == FarmerClaimed(d, env.caller, seedId, env.now, boost).Err?
    ensures r.Ok? ==> Touches(d, r.value, env.caller, seedId)
    ensures r.Ok? ==> forall t :: t in d.farmers[env.caller].rewards ==>
                        t in r.value.farmers[env.caller].rewards
                        && r.value.farmers[env.caller].rewards[t] >= d.farmers[env.caller].rewards[t]
  {
    if d.state != Running then Err(E004ContractPaused)
    else
      match FarmerClaimed(d, env.caller, seedId, env.now, boost)
      case Err(e) => Err(e)
      case Ok((f, s)) => Ok(d.(farmers := d.farmers[env.caller := f], seeds := d.seeds[seedId := s]))
  }

  /** `withdraw_reward` as written: the amount defaults to the whole
    * balance, nothing happens for a zero amount, and otherwise the balance
    * is debited through `sub_reward` and a transfer goes out. `None` stands
    * for the immediate `true` returned when there is nothing to send. */
  function AfterWithdrawRewardAsWritten(d: ContractData, env: Env, tokenId: TokenId, amount: Option<Balance>)
    : (r: Result<(ContractData, Option<Transfer>)>)
    ensures d.state != Running ==> r == Err(E004ContractPaused)
    ensures d.state == Running && env.caller !in d.farmers ==> r == Err(E100AccNotRegistered)
    ensures r.Ok? ==> env.caller in d.farmers
    ensures r.Ok? ==>
      var sent := amount.GetOr(Get(d.farmers[env.caller].rewards, tokenId, 0));
      && (sent == 0 <==> r.value.1.None?)
      && (sent == 0 ==> r.value.0 == d)
      && (sent > 0 ==> r.value.1 == Some(RewardTransfer(tokenId, env.caller, sent)))
    ensures d.state == Running && env.caller in d.farmers && tokenId !in d.farmers[env.caller].rewards ==>
      r.Ok? && r.value.0 == d
    ensures d.state == Running && env.caller in d.farmers && tokenId in d.farmers[env.caller].rewards ==>
      var held := d.farmers[env.caller].rewards[tokenId];
      var sent := amount.GetOr(held);
      && (r.Err? <==> sent > held)
      && (r.Err? ==> r.error == E101InsufficientBalance)
      && (r.Ok? ==>
            && env.caller in r.value.0.farmers
            && r.value.0 == d.(farmers := d.farmers[env.caller := r.value.0.farmers[env.caller]])
            && Get(r.value.0.farmers[env.caller].rewards, tokenId, 0) + sent == held
            && (sent > 0 ==> (tokenId in r.value.0.farmers[env.caller].rewards <==> sent < held))
            && r.value.0.farmers[env.caller].rewards - {tokenId} == d.farmers[env.caller].rewards - {tokenId})
  {
    if d.state != Running then Err(E004ContractPaused)
    else if env.caller !in d.farmers then Err(E100AccNotRegistered)
    else
      var f := d.farmers[env.caller];
      var sent := amount.GetOr(Get(f.rewards, tokenId, 0));
      if sent == 0 then
        assert d.(farmers := d.farmers[env.caller := f]) == d;
        Ok((d, None))
      else
        match SubReward(f, tokenId, sent)
        case Err(e) => Err(e)
        case Ok(g) =>
          assert tokenId !in f.rewards ==> d.(farmers := d.farmers[env.caller := g]) == d;
          Ok((d.(farmers := d.farmers[env.caller := g]), Some(RewardTransfer(tokenId, env.caller, sent))))
  }

  /** The discrepancy: a farmer holding none of a token can have any amount
    * of it sent out, with no balance debited. */
  lemma WithdrawUnheldRewardAsWritten(d: ContractData, env: Env, tokenId: TokenId, amount: Balance)
    requires d.state == Running && env.caller in d.farmers && tokenId !in d.farmers[env.caller].rewards
    requires amount > 0
    ensures AfterWithdrawRewardAsWritten(d, env, tokenId, Some(amount))
            == Ok((d, Some(RewardTransfer(tokenId, env.caller, amount))))
  {
    assert d.(farmers := d.farmers[env.caller := d.farmers[env.caller]]) == d;
  }

  /** `withdraw_reward` with the balance check it evidently intends: more
    * than the balance, including any amount of a token not held, is refused. */
  function AfterWithdrawReward(d: ContractData, env: Env, tokenId: TokenId, amount: Option<Balance>)
    : (r: Result<(ContractData, Option<Transfer>)>)
    ensures d.state != Running ==> r == Err(E004ContractPaused)
    ensures d.state == Running && env.caller !in d.farmers ==> r == Err(E100AccNotRegistered)
    ensures d.state == Running && env.caller in d.farmers ==>
      var held := Get(d.farmers[env.caller].rewards, tokenId, 0);
      var sent := amount.GetOr(held);
      && (r.Err? <==> sent > held)
      && (r.Err? ==> r.error == E101InsufficientBalance)
      && (r.Ok? && sent == 0 ==> r.value == (d, None))
      && (r.Ok? && sent > 0 ==>
            && r.value.1 == Some(RewardTransfer(tokenId, env.caller, sent))
            && env.caller in r.value.0.farmers
            && r.value.0 == d.(farmers := d.farmers[env.caller := r.value.0.farmers[env.caller]])
            && Get(r.value.0.farmers[env.caller].rewards, tokenId, 0) + sent == held
            && r.value.0.farmers[env.caller].rewards - {tokenId} == d.farmers[env.caller].rewards - {tokenId})
  {
    if d.state != Running then Err(E004ContractPaused)
    else if env.caller !in d.farmers then Err(E100AccNotRegistered)
    else
      var f := d.farmers[env.caller];
      var sent := amount.GetOr(Get(f.rewards, tokenId, 0));
      if sent > Get(f.rewards, tokenId, 0) then Err(E101InsufficientBalance)
      else AfterWithdrawRewardAsWritten(d, env, tokenId, amount)
  }

  /** `callback_post_withdraw_reward`: a failed transfer is credited back to
    * the farmer; when the farmer has left in the meantime the amount is
    * only reported lost. Reports whether the transfer succeeded. */
  function AfterCallbackPostWithdrawReward(d: ContractData, tokenId: TokenId, farmerId: AccountId,
                                           amount: Balance, ok: bool): (r: (ContractData, bool))
    ensures r.1 == ok
    ensures ok || farmerId !in d.farmers ==> r.0 == d
    ensures !ok && farmerId in d.farmers ==>
              && farmerId in r.0.farmers
              && r.0 == d.(farmers := d.farmers[farmerId := r.0.farmers[farmerId]])
              && Get(r.0.farmers[farmerId].rewards, tokenId, 0) == Get(d.farmers[farmerId].rewards, tokenId, 0) + amount
  {
    if ok then (d, true)
    else if farmerId in d.farmers then
      var f := d.farmers[farmerId];
      (d.(farmers := d.farmers[farmerId := f.(rewards := Merged(f.rewards, map[tokenId := amount]))]), false)
    else (d, false)
  }

  /** A reward withdrawal whose transfer fails leaves the ledger exactly as
    * it was before the withdrawal. */
  lemma FailedRewardWithdrawalUndone(d: ContractData, env: Env, tokenId: TokenId, amount: Option<Balance>)
    requires AfterWithdrawReward(d, env, tokenId, amount).Ok?
    requires AfterWithdrawReward(d, env, tokenId, amount).value.1.Some?
    ensures var (e, t) := AfterWithdrawReward(d, env, tokenId, amount).value;
            AfterCallbackPostWithdrawReward(e, t.value.tokenId, t.value.farmerId, t.value.amount, false) == (d, false)
  {
    var f := d.farmers[env.caller];
    var sent := amount.GetOr(Get(f.rewards, tokenId, 0));
    RewardDebitUndone(f, tokenId, sent);
    var g := SubReward(f, tokenId, sent).value;
    var e := d.(farmers := d.farmers[env.caller := g]);
    assert AfterWithdrawReward(d, env, tokenId, amount).value == (e, Some(RewardTransfer(tokenId, env.caller, sent)));
    assert g.(rewards := Merged(g.rewards, map[tokenId := sent])) == f;
    assert e.(farmers := e.farmers[env.caller := f]) == d;
  }

  /** A reward withdrawal whose transfer succeeds has taken exactly the sent
    * amount off the balance. */
  lemma SucceededRewardWithdrawalDebits(d: ContractData, env: Env, tokenId: TokenId, amount: Option<Balance>)
    requires AfterWithdrawReward(d, env, tokenId, amount).Ok?
    requires AfterWithdrawReward(d, env, tokenId, amount).value.1.Some?
    ensures var (e, t) := AfterWithdrawReward(d, env, tokenId, amount).value;
            var e2 := AfterCallbackPostWithdrawReward(e, t.value.tokenId, t.value.farmerId, t.value.amount, true).0;
            Get(e2.farmers[env.caller].rewards, tokenId, 0) + t.value.amount
              == Get(d.farmers[env.caller].rewards, tokenId, 0)
  {
  }

  method ClaimRewardBySeed(c: Contract, env: Env, seedId: SeedId, boost: nat) returns (r: Outcome)
    modifies c
    ensures Commits(old(c.Data()), c.Data(), r, AfterClaimRewardBySeed(old(c.Data()), env, seedId, boost))
  {
    if c.state != Running { return Fail(E004ContractPaused); }
    var farmerId := env.caller;
    if farmerId !in c.farmers { return Fail(E100AccNotRegistered); }
    var farmer := c.farmers[farmerId];
    if seedId !in c.seeds { return Fail(E301SeedNotExist); }
    var seed := SeedUpdated(c.seeds[seedId], env.now);
    var claim := DoFarmerClaim(farmer, seed, boost);
    assert claim == FarmerClaimed(c.Data(), farmerId, seedId, env.now, boost);
    if claim.Err? { return Fail(claim.error); }
    c.seeds := c.seeds[seedId := claim.value.1];
    c.farmers := c.farmers[farmerId := claim.value.0];
    r := Pass;
  }

  method WithdrawReward(c: Contract, env: Env, tokenId: TokenId, amount: Option<Balance>)
    returns (r: Result<Option<Transfer>>)
    modifies c
    ensures Returns(old(c.Data()), c.Data(), r, AfterWithdrawReward(old(c.Data()), env, tokenId, amount))
  {
    if c.state != Running { return Err(E004ContractPaused); }
    var farmerId := env.caller;
    if farmerId !in c.farmers { return Err(E100AccNotRegistered); }
    var farmer := c.farmers[farmerId];
    var total := Get(farmer.rewards, tokenId, 0);
    var sent := amount.GetOr(total);
    if sent > total { return Err(E101InsufficientBalance); }
    if sent == 0 { return Ok(None); }
    var debited := SubReward(farmer, tokenId, sent);
    if debited.Err? { return Err(debited.error); }
    c.farmers := c.farmers[farmerId := debited.value];
    r := Ok(Some(RewardTransfer(tokenId, farmerId, sent)));
  }

  method CallbackPostWithdrawReward(c: Contract, tokenId: TokenId, farmerId: AccountId, amount: Balance, ok: bool)
    returns (b: bool)
    modifies c
    ensures (c.Data(), b) == AfterCallbackPostWithdrawReward(old(c.Data()), tokenId, farmerId, amount, ok)
  {
    if ok { return true; }
    if farmerId in c.farmers {
      var farmer := AddRewards(c.farmers[farmerId], map[tokenId := amount]);
      c.farmers := c.farmers[farmerId := farmer];
    }
    b := false;
  }
}
