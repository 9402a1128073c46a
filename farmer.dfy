/** A registered farmer (farmer.rs): claimed rewards per token, positions per
  * seed in the legacy and current layouts, seeds waiting to be withdrawn,
  * and the reward flush that every seed action runs first. */
module Farmers {
  import opened Base
  import opened SeedFarms
  import opened FarmerSeeds
  import opened Legacy
  import opened Seeds

  /** Unstaked seed waiting out the withdrawal delay. */
  datatype SeedWithdraw = SeedWithdraw(amount: Balance, applyTimestamp: Timestamp)

  datatype Farmer = Farmer(
    farmerId: AccountId,
    /** Who paid the storage fee and is refunded on unregistration. */
    sponsorId: AccountId,
    rewards: map<TokenId, Balance>,
    /** Positions still stored in the legacy layout. */
    seeds: map<SeedId, FarmerSeedOld>,
    vseeds: map<SeedId, FarmerSeed>,
    withdraws: map<SeedId, SeedWithdraw>)

  /** `Farmer::new`: a farmer with no rewards and no positions. */
  function NewFarmer(farmerId: AccountId, sponsorId: AccountId): (f: Farmer)
    ensures f.farmerId == farmerId && f.sponsorId == sponsorId
    ensures f.rewards == map[] && f.seeds == map[] && f.vseeds == map[] && f.withdraws == map[]
  {
    Farmer(farmerId, sponsorId, map[], map[], map[], map[])
  }

  /** The reward balances after crediting `delta`. */
  function Merged(m: map<TokenId, Balance>, delta: map<TokenId, Balance>): map<TokenId, Balance> {
    map t | t in m.Keys + delta.Keys :: Get(m, t, 0) + Get(delta, t, 0)
  }

  /** `add_rewards`: credits every token of `delta` on top of what the
    * farmer already holds. */
  method AddRewards(f: Farmer, delta: map<TokenId, Balance>) returns (g: Farmer)
    ensures g == f.(rewards := Merged(f.rewards, delta))
  {
    var rewards := f.rewards;
    var todo := delta.Keys;
    CreditedEnds(f.rewards, delta);
    while todo != {}
      invariant todo <= delta.Keys
      invariant rewards == Merged(f.rewards, Credited(delta, todo))
      decreases |todo|
    {
      var t :| t in todo;
      AddRewardsStep(f.rewards, delta, todo, t);
      rewards := rewards[t := delta[t] + Get(rewards, t, 0)];
      todo := todo - {t};
    }
    g := f.(rewards := rewards);
  }

  /** Nothing is credited before the first turn, and everything after the last. */
  lemma CreditedEnds(m: map<TokenId, Balance>, delta: map<TokenId, Balance>)
    ensures Merged(m, Credited(delta, delta.Keys)) == m
    ensures Credited(delta, {}) == delta
  {
    assert Credited(delta, delta.Keys) == map[];
  }

  /** The part of `delta` already credited while `pending` is still to go. */
  function Credited(delta: map<TokenId, Balance>, pending: set<TokenId>): map<TokenId, Balance> {
    map t | t in delta.Keys - pending :: delta[t]
  }

  lemma CreditedStep(delta: map<TokenId, Balance>, pending: set<TokenId>, t: TokenId)
    requires t in pending && t in delta
    ensures t !in Credited(delta, pending)
    ensures Credited(delta, pending - {t}) == Credited(delta, pending)[t := delta[t]]
  {
  }

  /** One turn of `add_rewards`: crediting token `t` of `delta`. */
  lemma AddRewardsStep(m: map<TokenId, Balance>, delta: map<TokenId, Balance>, pending: set<TokenId>, t: TokenId)
    requires t in pending && pending <= delta.Keys
    ensures var r := Merged(m, Credited(delta, pending));
      Merged(m, Credited(delta, pending - {t})) == r[t := delta[t] + Get(r, t, 0)]
  {
    CreditedStep(delta, pending, t);
    MergedStep(m, Credited(delta, pending), t, delta[t]);
  }

  /** Crediting one more token on top of a partial credit. */
  lemma MergedStep(m: map<TokenId, Balance>, d: map<TokenId, Balance>, t: TokenId, x: Balance)
    requires t !in d
    ensures Merged(m, d)[t := x + Get(Merged(m, d), t, 0)] == Merged(m, d[t := x])
  {
  }

  /** Crediting leaves every other token alone and adds to the credited ones. */
  lemma MergedCredits(m: map<TokenId, Balance>, delta: map<TokenId, Balance>)
    ensures Merged(m, delta).Keys == m.Keys + delta.Keys
    ensures forall t :: t in delta ==> Merged(m, delta)[t] == Get(m, t, 0) + delta[t]
    ensures forall t :: t in m && t !in delta ==> Merged(m, delta)[t] == m[t]
  {
  }

  /** `sub_reward`: debits `amount` of `token`, dropping an emptied entry.
    * A token the farmer holds nothing of is left alone and nothing fails. */
  function SubReward(f: Farmer, token: TokenId, amount: Balance): (r: Result<Farmer>)
    ensures token !in f.rewards ==> r == Ok(f)
    ensures token in f.rewards && amount > f.rewards[token] ==> r == Err(E101InsufficientBalance)
    ensures token in f.rewards && amount <= f.rewards[token] ==>
              (r.Ok? && r.value == f.(rewards := if amount == f.rewards[token] then f.rewards - {token}
                                                 else f.rewards[token := f.rewards[token] - amount]))
  {
    if token !in f.rewards then Ok(f)
    else if amount > f.rewards[token] then Err(E101InsufficientBalance)
    else if f.rewards[token] - amount > 0 then Ok(f.(rewards := f.rewards[token := f.rewards[token] - amount]))
    else Ok(f.(rewards := f.rewards - {token}))
  }

  /** A debit followed by crediting the same amount back restores the
    * farmer's reward balances exactly: a failed reward transfer is undone. */
  lemma RewardDebitUndone(f: Farmer, token: TokenId, amount: Balance)
    requires token in f.rewards && amount <= f.rewards[token]
    ensures Merged(SubReward(f, token, amount).value.rewards, map[token := amount]) == f.rewards
  {
    var m := Merged(SubReward(f, token, amount).value.rewards, map[token := amount]);
    assert m.Keys == f.rewards.Keys;
    forall t | t in m ensures m[t] == f.rewards[t] { }
  }

  /** `get_seed`: the legacy position converted to the current layout if
    * there is one, otherwise the current position. */
  function GetSeed(f: Farmer, seedId: SeedId): (r: Option<FarmerSeed>)
    ensures r.Some? <==> seedId in f.seeds || seedId in f.vseeds
    ensures seedId in f.seeds ==> r == Some(ToFarmerSeed(f.seeds[seedId]))
    ensures seedId !in f.seeds && seedId in f.vseeds ==> r == Some(f.vseeds[seedId])
  {
    if seedId in f.seeds then Some(ToFarmerSeed(f.seeds[seedId]))
    else if seedId in f.vseeds then Some(f.vseeds[seedId])
    else None
  }

  /** `set_seed`: stores the position in the current layout, dropping any
    * legacy copy. */
  function SetSeed(f: Farmer, seedId: SeedId, fs: FarmerSeed): (g: Farmer)
    ensures GetSeed(g, seedId) == Some(fs) && seedId !in g.seeds
    ensures forall s :: s != seedId ==> GetSeed(g, s) == GetSeed(f, s)
    ensures g.rewards == f.rewards && g.withdraws == f.withdraws
    ensures g.farmerId == f.farmerId && g.sponsorId == f.sponsorId
  {
    f.(seeds := f.seeds - {seedId}, vseeds := f.vseeds[seedId := fs])
  }

  /** `remove_seed`: drops the legacy position if there is one, otherwise
    * the current one. */
  function RemoveSeed(f: Farmer, seedId: SeedId): (g: Farmer)
    ensures forall s :: s != seedId ==> GetSeed(g, s) == GetSeed(f, s)
    ensures GetSeed(g, seedId).None? <==> !(seedId in f.seeds && seedId in f.vseeds)
    ensures g.rewards == f.rewards && g.withdraws == f.withdraws
    ensures g.farmerId == f.farmerId && g.sponsorId == f.sponsorId
  {
    if seedId in f.seeds then f.(seeds := f.seeds - {seedId})
    else f.(vseeds := f.vseeds - {seedId})
  }

  /** A position that was last stored with `set_seed` is gone after
    * `remove_seed`. */
  lemma RemoveAfterSet(f: Farmer, seedId: SeedId, fs: FarmerSeed)
    ensures GetSeed(RemoveSeed(SetSeed(f, seedId, fs), seedId), seedId) == None
  {
  }

  /** Whether the farmer holds no position at all. */
  predicate HasNoSeeds(f: Farmer) {
    f.seeds == map[] && f.vseeds == map[]
  }

  /** `add_withdraw_seed`: queues `amount` more of the seed for withdrawal;
    * the withdrawal delay starts again at `now` for the whole queued amount. */
  function AddWithdrawSeed(f: Farmer, seedId: SeedId, amount: Balance, now: Timestamp): (g: Farmer)
    ensures seedId in g.withdraws && g.withdraws[seedId].applyTimestamp == now
    ensures g.withdraws[seedId].amount == (if seedId in f.withdraws then f.withdraws[seedId].amount else 0) + amount
    ensures g == f.(withdraws := g.withdraws) && g.withdraws - {seedId} == f.withdraws - {seedId}
  {
    var prev := if seedId in f.withdraws then f.withdraws[seedId].amount else 0;
    f.(withdraws := f.withdraws[seedId := SeedWithdraw(prev + amount, now)])
  }

  /** `sub_withdraw_seed`: takes `amount` out of the queued withdrawal once
    * the delay has passed, dropping an emptied entry. */
  function SubWithdrawSeed(f: Farmer, seedId: SeedId, amount: Balance, delaySec: nat, now: Timestamp)
    : (r: Result<Farmer>)
    ensures seedId !in f.withdraws ==> r == Err(MissingValue)
    ensures seedId in f.withdraws && now < f.withdraws[seedId].applyTimestamp + ToNano(delaySec)
            ==> r == Err(E305StillInLock)
    ensures r.Ok? ==>
              (seedId in f.withdraws
               && f.withdraws[seedId].applyTimestamp + ToNano(delaySec) <= now
               && amount <= f.withdraws[seedId].amount
               && r.value == f.(withdraws := r.value.withdraws)
               && r.value.withdraws - {seedId} == f.withdraws - {seedId}
               && Get(r.value.withdraws, seedId, SeedWithdraw(0, 0)).amount == f.withdraws[seedId].amount - amount)
    ensures (seedId in f.withdraws && f.withdraws[seedId].applyTimestamp + ToNano(delaySec) <= now
             && amount > f.withdraws[seedId].amount) ==> r == Err(E101InsufficientBalance)
  {
    if seedId !in f.withdraws then Err(MissingValue)
    else
      var w := f.withdraws[seedId];
      if now < w.applyTimestamp + ToNano(delaySec) then Err(E305StillInLock)
      else if amount > w.amount then Err(E101InsufficientBalance)
      else if w.amount - amount == 0 then Ok(f.(withdraws := f.withdraws - {seedId}))
      else Ok(f.(withdraws := f.withdraws[seedId := w.(amount := w.amount - amount)]))
  }

  /** The reward a position is owed by one farm: the growth of the farm's
    * `rps` since the position's checkpoint, times the position's power,
    * rounded down. */
  function Owed(farm: SeedFarm, fs: FarmerSeed, farmId: FarmId): nat {
    var diff := farm.rps - Get(fs.userRps, farmId, 0.0);
    if diff <= 0.0 then 0 else (diff * Power(fs) as real).Floor
  }

  /** What the farms in `ids` pay out in a claim, per farm; farms that owe
    * nothing are left out. */
  function ClaimedAmounts(farms: map<FarmId, SeedFarm>, fs: FarmerSeed, ids: set<FarmId>): map<FarmId, Balance>
    requires ids <= farms.Keys
  {
    map f | f in ids && Owed(farms[f], fs, f) > 0 :: Owed(farms[f], fs, f)
  }

  /** The checkpoints a claim over `ids` leaves: every farm that has ever
    * been funded, at its current `rps`. */
  function RebasedUserRps(farms: map<FarmId, SeedFarm>, ids: set<FarmId>): map<FarmId, real>
    requires ids <= farms.Keys
  {
    map f | f in ids && farms[f].totalReward > 0 :: farms[f].rps
  }

  /** The share of `token` that farm `f` pays out. */
  function TokenShare(farms: map<FarmId, SeedFarm>, fs: FarmerSeed, token: TokenId, f: FarmId): nat
    requires f in farms
  {
    if farms[f].terms.rewardToken == token then Owed(farms[f], fs, f) else 0
  }

  ghost function Pick(s: set<FarmId>): FarmId
    requires s != {}
  {
    var x :| x in s; x
  }

  /** What the farms in `ids` owe the position in `token`, summed. */
  ghost function TokenTotal(farms: map<FarmId, SeedFarm>, fs: FarmerSeed, token: TokenId, ids: set<FarmId>): nat
    requires ids <= farms.Keys
    decreases |ids|
  {
    if ids == {} then 0
    else
      var f := Pick(ids);
      TokenShare(farms, fs, token, f) + TokenTotal(farms, fs, token, ids - {f})
  }

  /** Any farm of `ids` can be taken out of the sum first. */
  lemma {:induction false} TokenTotalRemove(farms: map<FarmId, SeedFarm>, fs: FarmerSeed, token: TokenId,
                                            ids: set<FarmId>, y: FarmId)
    requires ids <= farms.Keys && y in ids
    ensures TokenTotal(farms, fs, token, ids)
            == TokenShare(farms, fs, token, y) + TokenTotal(farms, fs, token, ids - {y})
    decreases |ids|
  {
    var x := Pick(ids);
    if x != y {
      TokenTotalRemove(farms, fs, token, ids - {x}, y);
      TokenTotalRemove(farms, fs, token, ids - {y}, x);
      assert ids - {x} - {y} == ids - {y} - {x};
    }
  }

  /** The reward tokens of the farms in `ids`. */
  function TokensOf(farms: map<FarmId, SeedFarm>, ids: set<FarmId>): set<TokenId>
    requires ids <= farms.Keys
  {
    set f | f in ids :: farms[f].terms.rewardToken
  }

  /** No farm of `ids` pays in a token none of them is funded with. */
  lemma {:induction false} TokenTotalOfOtherToken(farms: map<FarmId, SeedFarm>, fs: FarmerSeed, token: TokenId,
                                                  ids: set<FarmId>)
    requires ids <= farms.Keys && token !in TokensOf(farms, ids)
    ensures TokenTotal(farms, fs, token, ids) == 0
    decreases |ids|
  {
    if ids != {} {
      var f := Pick(ids);
      assert TokensOf(farms, ids - {f}) <= TokensOf(farms, ids);
      TokenTotalOfOtherToken(farms, fs, token, ids - {f});
    }
  }

  /** The rewards a claim over `ids` credits: for each token, the sum over
    * the farms paying in it of what they owe the position; tokens with a
    * zero sum are left out. */
  ghost function ClaimRewards(farms: map<FarmId, SeedFarm>, fs: FarmerSeed, ids: set<FarmId>)
    : (m: map<TokenId, Balance>)
    requires ids <= farms.Keys
    ensures forall t :: t in m <==> TokenTotal(farms, fs, t, ids) > 0
    ensures forall t :: t in m ==> m[t] == TokenTotal(farms, fs, t, ids)
  {
    forall t | TokenTotal(farms, fs, t, ids) > 0 ensures t in TokensOf(farms, ids) {
      if t !in TokensOf(farms, ids) { TokenTotalOfOtherToken(farms, fs, t, ids); }
    }
    map t | t in TokensOf(farms, ids) && TokenTotal(farms, fs, t, ids) > 0 :: TokenTotal(farms, fs, t, ids)
  }

  /** Visiting one more farm adds what it owes to the total of its reward
    * token. */
  lemma ClaimRewardsStep(farms: map<FarmId, SeedFarm>, fs: FarmerSeed, done: set<FarmId>, id: FarmId)
    requires done <= farms.Keys && id in farms && id !in done
    ensures var amount, token := Owed(farms[id], fs, id), farms[id].terms.rewardToken;
      var r := ClaimRewards(farms, fs, done);
      ClaimRewards(farms, fs, done + {id}) == (if amount > 0 then r[token := amount + Get(r, token, 0)] else r)
  {
    var amount, token := Owed(farms[id], fs, id), farms[id].terms.rewardToken;
    var r := ClaimRewards(farms, fs, done);
    var r' := if amount > 0 then r[token := amount + Get(r, token, 0)] else r;
    var n := ClaimRewards(farms, fs, done + {id});
    forall t ensures TokenTotal(farms, fs, t, done + {id})
                     == TokenShare(farms, fs, t, id) + TokenTotal(farms, fs, t, done) {
      TokenTotalAdd(farms, fs, t, done, id);
    }
    forall t ensures (t in n <==> t in r') && (t in n ==> n[t] == r'[t]) {
      if t != token {
        assert TokenShare(farms, fs, t, id) == 0;
      }
    }
  }

  lemma TokenTotalAdd(farms: map<FarmId, SeedFarm>, fs: FarmerSeed, token: TokenId, done: set<FarmId>, id: FarmId)
    requires done <= farms.Keys && id in farms && id !in done
    ensures TokenTotal(farms, fs, token, done + {id})
            == TokenShare(farms, fs, token, id) + TokenTotal(farms, fs, token, done)
  {
    TokenTotalRemove(farms, fs, token, done + {id}, id);
    assert done + {id} - {id} == done;
  }

  /** Visiting one more farm records what it pays out and its checkpoint. */
  lemma ClaimedStep(farms: map<FarmId, SeedFarm>, fs: FarmerSeed, done: set<FarmId>, id: FarmId)
    requires done <= farms.Keys && id in farms && id !in done
    ensures var amount := Owed(farms[id], fs, id);
      var c := ClaimedAmounts(farms, fs, done);
      ClaimedAmounts(farms, fs, done + {id}) == (if amount > 0 then c[id := amount] else c)
    ensures var u := RebasedUserRps(farms, done);
      RebasedUserRps(farms, done + {id}) == (if farms[id].totalReward > 0 then u[id := farms[id].rps] else u)
  {
  }

  /** The position a claim starts from: the farmer's, or an empty one. */
  function ClaimBase(f: Farmer, s: Seed, boostRatio: nat): FarmerSeed {
    GetSeed(f, s.seedId).GetOr(EmptySeed(boostRatio))
  }

  /** A claim starts with nothing credited, recorded or checkpointed. */
  lemma ClaimStart(farms: map<FarmId, SeedFarm>, fs: FarmerSeed)
    ensures ClaimRewards(farms, fs, {}) == map[]
    ensures ClaimedAmounts(farms, fs, {}) == map[]
    ensures RebasedUserRps(farms, {}) == map[]
  {
  }

  /** One turn of `internal_calc_farmer_claim`, over farm `id`. */
  lemma ClaimStep(farms: map<FarmId, SeedFarm>, fs: FarmerSeed, done: set<FarmId>, id: FarmId)
    requires done <= farms.Keys && id in farms && id !in done
    ensures var amount, token := Owed(farms[id], fs, id), farms[id].terms.rewardToken;
      var r, c, u := ClaimRewards(farms, fs, done), ClaimedAmounts(farms, fs, done), RebasedUserRps(farms, done);
      ClaimRewards(farms, fs, done + {id}) == (if amount > 0 then r[token := amount + Get(r, token, 0)] else r)
      && ClaimedAmounts(farms, fs, done + {id}) == (if amount > 0 then c[id := amount] else c)
      && RebasedUserRps(farms, done + {id}) == (if farms[id].totalReward > 0 then u[id := farms[id].rps] else u)
  {
    ClaimRewardsStep(farms, fs, done, id);
    ClaimedStep(farms, fs, done, id);
  }

  /** One turn of the loop of `internal_calc_farmer_claim`: farm `id` adds
    * what it owes to its token's total, records it as claimed from the farm
    * when positive, and keeps the farm's checkpoint when it has been funded. */
  method VisitFarm(farms: map<FarmId, SeedFarm>, base: FarmerSeed, ghost done: set<FarmId>, id: FarmId,
                   rewards: map<TokenId, Balance>, claimed: map<FarmId, Balance>, newUserRps: map<FarmId, real>)
    returns (rewards': map<TokenId, Balance>, claimed': map<FarmId, Balance>, newUserRps': map<FarmId, real>)
    requires done <= farms.Keys && id in farms && id !in done
    requires rewards == ClaimRewards(farms, base, done)
    requires claimed == ClaimedAmounts(farms, base, done)
    requires newUserRps == RebasedUserRps(farms, done)
    ensures rewards' == ClaimRewards(farms, base, done + {id})
    ensures claimed' == ClaimedAmounts(farms, base, done + {id})
    ensures newUserRps' == RebasedUserRps(farms, done + {id})
  {
    ClaimStep(farms, base, done, id);
    rewards', claimed', newUserRps' := rewards, claimed, newUserRps;
    var farm := farms[id];
    var amount := Owed(farm, base, id);
    if amount > 0 {
      rewards' := rewards'[farm.terms.rewardToken := amount + Get(rewards', farm.terms.rewardToken, 0)];
      claimed' := claimed'[id := amount];
    }
    if farm.totalReward > 0 {
      newUserRps' := newUserRps'[id := farm.rps];
    }
  }

  /** `internal_calc_farmer_claim`: what every farm of the seed owes the
    * farmer's position, per token and per farm, and the position with its
    * checkpoints moved to the farms' current `rps`. */
  method CalcFarmerClaim(f: Farmer, s: Seed, boostRatio: nat)
    returns (fs: FarmerSeed, rewards: map<TokenId, Balance>, claimed: map<FarmId, Balance>)
    ensures fs == ClaimBase(f, s, boostRatio).(userRps := RebasedUserRps(s.farms, s.farms.Keys))
    ensures rewards == ClaimRewards(s.farms, ClaimBase(f, s, boostRatio), s.farms.Keys)
    ensures claimed == ClaimedAmounts(s.farms, ClaimBase(f, s, boostRatio), s.farms.Keys)
  {
    var base := GetSeed(f, s.seedId).GetOr(EmptySeed(boostRatio));
    var farms := s.farms;
    rewards, claimed := map[], map[];
    var newUserRps := map[];
    var todo := farms.Keys;
    ghost var done: set<FarmId> := {};
    ClaimStart(farms, base);
    while todo != {}
      invariant todo <= farms.Keys && done == farms.Keys - todo
      invariant claimed == ClaimedAmounts(farms, base, done)
      invariant newUserRps == RebasedUserRps(farms, done)
      invariant rewards == ClaimRewards(farms, base, done)
      decreases |todo|
    {
      var id :| id in todo;
      rewards, claimed, newUserRps := VisitFarm(farms, base, done, id, rewards, claimed, newUserRps);
      todo := todo - {id};
      done := done + {id};
    }
    assert done == farms.Keys;
    fs := base.(userRps := newUserRps);
  }

  /** Right after a claim the position is owed nothing by any farm that has
    * been funded, whatever power it then has. */
  lemma ClaimLeavesNothingOwed(farms: map<FarmId, SeedFarm>, fs: FarmerSeed, id: FarmId)
    requires id in farms && farms[id].totalReward > 0
    requires fs.userRps == RebasedUserRps(farms, farms.Keys)
    ensures Owed(farms[id], fs, id) == 0
  {
  }

  lemma {:induction false} TokenTotalOfZeros(farms: map<FarmId, SeedFarm>, fs: FarmerSeed, token: TokenId,
                                             ids: set<FarmId>)
    requires ids <= farms.Keys && forall id :: id in ids ==> Owed(farms[id], fs, id) == 0
    ensures TokenTotal(farms, fs, token, ids) == 0
    decreases |ids|
  {
    if ids != {} {
      TokenTotalOfZeros(farms, fs, token, ids - {Pick(ids)});
    }
  }

  /** A second claim on unchanged farms credits nothing, provided the farms
    * that were never funded never accumulated `rps`. */
  lemma SecondClaimCreditsNothing(farms: map<FarmId, SeedFarm>, fs: FarmerSeed)
    requires forall id :: id in farms && farms[id].totalReward == 0 ==> farms[id].rps <= 0.0
    requires fs.userRps == RebasedUserRps(farms, farms.Keys)
    ensures ClaimedAmounts(farms, fs, farms.Keys) == map[]
    ensures ClaimRewards(farms, fs, farms.Keys) == map[]
  {
    assert forall id :: id in farms ==> Owed(farms[id], fs, id) == 0;
    forall t ensures TokenTotal(farms, fs, t, farms.Keys) == 0 {
      TokenTotalOfZeros(farms, fs, t, farms.Keys);
    }
  }

  /** The position a claim leaves: checkpoints at the farms' current `rps`
    * and the freshly generated booster bonus. */
  function Rebased(f: Farmer, s: Seed, boostRatio: nat): FarmerSeed {
    ClaimBase(f, s, boostRatio).(userRps := RebasedUserRps(s.farms, s.farms.Keys), boostRatio := boostRatio)
  }

  /** The outcome of `internal_do_farmer_claim`: the claimed rewards are
    * credited, the position gets its new checkpoints and booster bonus, the
    * seed's total power follows the position's change of power, and every
    * farm records what it paid out. */
  ghost function AfterClaim(f: Farmer, s: Seed, boostRatio: nat): (r: Result<(Farmer, Seed)>)
    ensures r.Err? <==> s.totalSeedPower + Power(Rebased(f, s, boostRatio)) < Power(ClaimBase(f, s, boostRatio))
    ensures r.Err? ==> r.error == ArithmeticUnderflow
    ensures r.Ok? ==> var (g, t) := r.value;
      GetSeed(g, s.seedId) == Some(Rebased(f, s, boostRatio)) && s.seedId !in g.seeds
      && (forall id :: id != s.seedId ==> GetSeed(g, id) == GetSeed(f, id))
      && g.rewards == Merged(f.rewards, ClaimRewards(s.farms, ClaimBase(f, s, boostRatio), s.farms.Keys))
      && g.withdraws == f.withdraws && g.farmerId == f.farmerId && g.sponsorId == f.sponsorId
      && t.totalSeedPower + Power(ClaimBase(f, s, boostRatio)) == s.totalSeedPower + Power(Rebased(f, s, boostRatio))
      && t == s.(totalSeedPower := t.totalSeedPower, farms := t.farms)
      && t.farms.Keys == s.farms.Keys
      && (forall id :: id in s.farms ==> t.farms[id] == s.farms[id].(claimedReward := t.farms[id].claimedReward))
      && (forall id :: id in s.farms ==>
            t.farms[id].claimedReward
            == s.farms[id].claimedReward + Get(ClaimedAmounts(s.farms, ClaimBase(f, s, boostRatio), s.farms.Keys), id, 0))
  {
    var base := ClaimBase(f, s, boostRatio);
    var fs := Rebased(f, s, boostRatio);
    if s.totalSeedPower + Power(fs) < Power(base) then Err(ArithmeticUnderflow)
    else
      Ok((SetSeed(f.(rewards := Merged(f.rewards, ClaimRewards(s.farms, base, s.farms.Keys))), s.seedId, fs),
          UpdateClaimed(s.(totalSeedPower := s.totalSeedPower + Power(fs) - Power(base)),
                        ClaimedAmounts(s.farms, base, s.farms.Keys))))
  }

  /** A claim keeps the position's amounts and lock, only moving its
    * checkpoints and booster bonus, stores it in the current layout and
    * leaves the withdrawal queue alone. */
  lemma ClaimKeepsPosition(f: Farmer, s: Seed, boostRatio: nat)
    requires AfterClaim(f, s, boostRatio).Ok?
    ensures var g := AfterClaim(f, s, boostRatio).value.0;
      && GetSeed(g, s.seedId) == Some(Rebased(f, s, boostRatio)) && s.seedId !in g.seeds
      && g.withdraws == f.withdraws
    ensures var (before, fs) := (GetSeed(f, s.seedId).GetOr(EmptySeed(0)), Rebased(f, s, boostRatio));
      fs == before.(userRps := fs.userRps, boostRatio := fs.boostRatio)
  {
  }

  /** A claim moves the seed's total power by the position's change of
    * power and changes nothing else of the seed but its farms. */
  lemma ClaimMovesPower(f: Farmer, s: Seed, boostRatio: nat)
    requires AfterClaim(f, s, boostRatio).Ok?
    ensures var t := AfterClaim(f, s, boostRatio).value.1;
      && t == s.(totalSeedPower := t.totalSeedPower, farms := t.farms)
      && t.totalSeedPower + Power(GetSeed(f, s.seedId).GetOr(EmptySeed(0)))
         == s.totalSeedPower + Power(Rebased(f, s, boostRatio))
  {
    ClaimBasePower(f, s, boostRatio);
  }

  /** A claim starting from an empty position starts from no power,
    * whatever its booster bonus. */
  lemma ClaimBasePower(f: Farmer, s: Seed, boostRatio: nat)
    ensures Power(ClaimBase(f, s, boostRatio)) == Power(GetSeed(f, s.seedId).GetOr(EmptySeed(0)))
  {
    if GetSeed(f, s.seedId).None? {
      assert BasicPower(EmptySeed(boostRatio)) == 0;
    }
  }

  /** A claim keeps every farm of the seed valid. */
  lemma ClaimKeepsFarmsValid(f: Farmer, s: Seed, boostRatio: nat)
    requires SeedFarmsValid(s) && AfterClaim(f, s, boostRatio).Ok?
    ensures SeedFarmsValid(AfterClaim(f, s, boostRatio).value.1)
  {
    var t := AfterClaim(f, s, boostRatio).value.1;
    forall id | id in t.farms ensures FarmValid(t.farms[id]) {
      assert t.farms[id] == s.farms[id].(claimedReward := t.farms[id].claimedReward);
    }
  }

  /** How much more the farms of `ids` paying in `token` have recorded as
    * claimed in `after` than in `before`. */
  ghost function ClaimedGrowth(before: map<FarmId, SeedFarm>, after: map<FarmId, SeedFarm>, token: TokenId,
                               ids: set<FarmId>): int
    requires ids <= before.Keys && ids <= after.Keys
    decreases |ids|
  {
    if ids == {} then 0
    else
      var f := Pick(ids);
      (if before[f].terms.rewardToken == token then after[f].claimedReward - before[f].claimedReward else 0)
      + ClaimedGrowth(before, after, token, ids - {f})
  }

  /** When every farm's claimed counter grows by what it owes the position,
    * the growth summed per token is what the position is owed in it. */
  lemma {:induction false} ClaimedGrowthIsOwed(before: map<FarmId, SeedFarm>, after: map<FarmId, SeedFarm>,
                                               fs: FarmerSeed, token: TokenId, ids: set<FarmId>)
    requires ids <= before.Keys && ids <= after.Keys
    requires forall id :: id in ids ==> after[id].claimedReward == before[id].claimedReward + Owed(before[id], fs, id)
    ensures ClaimedGrowth(before, after, token, ids) == TokenTotal(before, fs, token, ids)
    decreases |ids|
  {
    if ids != {} {
      ClaimedGrowthIsOwed(before, after, fs, token, ids - {Pick(ids)});
    }
  }

  /** The two ledgers of a claim agree: in every token, the farmer is
    * credited exactly what the seed's farms paying in that token record as
    * newly claimed. */
  lemma ClaimBalancesLedgers(f: Farmer, s: Seed, boostRatio: nat, token: TokenId)
    requires AfterClaim(f, s, boostRatio).Ok?
    ensures var (g, t) := AfterClaim(f, s, boostRatio).value;
      t.farms.Keys == s.farms.Keys
      && Get(g.rewards, token, 0) - Get(f.rewards, token, 0) == ClaimedGrowth(s.farms, t.farms, token, s.farms.Keys)
  {
    var (g, t) := AfterClaim(f, s, boostRatio).value;
    var base := ClaimBase(f, s, boostRatio);
    var c := ClaimedAmounts(s.farms, base, s.farms.Keys);
    forall id | id in s.farms
      ensures t.farms[id].claimedReward == s.farms[id].claimedReward + Owed(s.farms[id], base, id)
    {
      assert Get(c, id, 0) == Owed(s.farms[id], base, id);
    }
    ClaimedGrowthIsOwed(s.farms, t.farms, base, token, s.farms.Keys);
    MergedCredits(f.rewards, ClaimRewards(s.farms, base, s.farms.Keys));
  }

  /** What a claim records against a farm is what the farm's beneficiary
    * no longer receives when the farm is finalized. */
  lemma ClaimReducesBeneficiary(f: Farmer, s: Seed, boostRatio: nat, id: FarmId)
    requires AfterClaim(f, s, boostRatio).Ok? && id in s.farms
    requires Finalized(AfterClaim(f, s, boostRatio).value.1.farms[id]).Ok?
    ensures var t := AfterClaim(f, s, boostRatio).value.1;
      var owed := Get(ClaimedAmounts(s.farms, ClaimBase(f, s, boostRatio), s.farms.Keys), id, 0);
      && Finalized(s.farms[id]).Ok?
      && Finalized(t.farms[id]).value.amountOfBeneficiary + owed == Finalized(s.farms[id]).value.amountOfBeneficiary
  {
  }

  /** `internal_do_farmer_claim`; `boostRatio` is the booster bonus freshly
    * generated for this farmer and seed. */
  method DoFarmerClaim(f: Farmer, s: Seed, boostRatio: nat) returns (r: Result<(Farmer, Seed)>)
    ensures r == AfterClaim(f, s, boostRatio)
    ensures r.Ok? ==> GetSeed(r.value.0, s.seedId).Some?
    ensures r.Ok? ==> r.value.1.totalSeedAmount == s.totalSeedAmount && r.value.1.seedId == s.seedId
  {
    var fs, rewards, claimed := CalcFarmerClaim(f, s, boostRatio);
    var g := AddRewards(f, rewards);
    var prev := Power(fs);
    fs := fs.(boostRatio := boostRatio);
    if s.totalSeedPower + Power(fs) < prev {
      return Err(ArithmeticUnderflow);
    }
    var s2 := s.(totalSeedPower := s.totalSeedPower + Power(fs) - prev);
    g := SetSeed(g, s.seedId, fs);
    r := Ok((g, UpdateClaimed(s2, claimed)));
  }
}
