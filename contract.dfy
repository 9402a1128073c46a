/** The contract's state (lib.rs): owner and handover fields, running state,
  * operators, configuration, the seed and farmer maps, the slashed and
  * lost-and-found ledgers and the counters; the checks every entry point
  * shares; and the outbound transfers whose callbacks settle the ledger. */
module Contracts {
  import opened Base
  import opened Configs
  import opened FarmerSeeds
  import opened Seeds
  import opened Farmers

  datatype RunningState = Running | Paused

  /** What the host tells a call: who called (`predecessor_account_id`),
    * the block time in nanoseconds and the attached deposit in yoctoNEAR. */
  datatype Env = Env(caller: AccountId, now: Timestamp, deposit: Balance)

  /** `ContractData`, the current layout. The outdated-farm archive is not
    * part of this model. */
  datatype ContractData = ContractData(
    ownerId: AccountId,
    nextOwnerId: Option<AccountId>,
    /** Millisecond deadline for the nominee to accept; `None` once accepted. */
    nextOwnerAcceptDeadline: Option<nat>,
    refExchangeId: AccountId,
    state: RunningState,
    operators: set<AccountId>,
    config: Config,
    seeds: map<SeedId, Seed>,
    farmers: map<AccountId, Farmer>,
    /** Seed forfeited by forced unlocks, waiting for the owner to take it. */
    seedsSlashed: map<SeedId, Balance>,
    /** Seed whose owner was gone when a failed withdrawal came back. */
    seedsLostfound: map<SeedId, Balance>,
    farmerCount: nat,
    farmCount: nat)

  /** An outbound token transfer the ledger has already debited; its
    * callback receives the transfer and whether it succeeded. */
  datatype Transfer =
    | RewardTransfer(tokenId: TokenId, farmerId: AccountId, amount: Balance)
    | SeedTransfer(seedId: SeedId, farmerId: AccountId, amount: Balance)
    | SlashedTransfer(seedId: SeedId, receiverId: AccountId, amount: Balance)
    | LostfoundTransfer(seedId: SeedId, farmerId: AccountId, amount: Balance)

  /** A payment in NEAR (`Promise::transfer`) that needs no callback. */
  datatype NearPayment = NearPayment(receiverId: AccountId, amount: Balance)

  /** The state `new` creates. */
  function Initial(ownerId: AccountId, refExchangeId: AccountId): (d: ContractData)
    ensures d.state == Running && d.ownerId == ownerId && d.refExchangeId == refExchangeId
    ensures d.nextOwnerId.None? && d.nextOwnerAcceptDeadline.None?
    ensures d.operators == {} && d.seeds == map[] && d.farmers == map[]
    ensures d.seedsSlashed == map[] && d.seedsLostfound == map[]
    ensures d.farmerCount == 0 && d.farmCount == 0
    ensures d.config == Default() && IsValid(d.config)
  {
    ContractData(ownerId, None, None, refExchangeId, Running, {}, Default(),
                 map[], map[], map[], map[], 0, 0)
  }

  /** `is_owner_or_operators`. */
  function IsOwnerOrOperators(d: ContractData, caller: AccountId): (b: bool)
    ensures b <==> caller == d.ownerId || caller in d.operators
  {
    caller == d.ownerId || caller in d.operators
  }

  /** `assert_owner`. */
  function AssertOwner(d: ContractData, caller: AccountId): (r: Outcome)
    ensures r == Pass <==> caller == d.ownerId
    ensures r != Pass ==> r == Fail(E002NotAllowed)
  {
    if caller == d.ownerId then Pass else Fail(E002NotAllowed)
  }

  /** `assert_one_yocto`. */
  function AssertOneYocto(env: Env): (r: Outcome)
    ensures r == Pass <==> env.deposit == 1
    ensures r != Pass ==> r == Fail(RequiresOneYocto)
  {
    if env.deposit == 1 then Pass else Fail(RequiresOneYocto)
  }

  /** The paused check that opens every farmer entry point. */
  function AssertRunning(d: ContractData): (r: Outcome)
    ensures r == Pass <==> d.state == Running
    ensures r != Pass ==> r == Fail(E004ContractPaused)
  {
    if d.state == Running then Pass else Fail(E004ContractPaused)
  }

  /** `internal_unwrap_farmer`. */
  function UnwrapFarmer(d: ContractData, farmerId: AccountId): (r: Result<Farmer>)
    ensures r.Ok? <==> farmerId in d.farmers
    ensures r.Ok? ==> r.value == d.farmers[farmerId]
    ensures r.Err? ==> r.error == E100AccNotRegistered
  {
    if farmerId in d.farmers then Ok(d.farmers[farmerId]) else Err(E100AccNotRegistered)
  }

  /** `internal_unwrap_seed`: the seed with every farm brought up to `now`. */
  function UnwrapSeed(d: ContractData, seedId: SeedId, now: Timestamp): (r: Result<Seed>)
    ensures r.Ok? <==> seedId in d.seeds
    ensures r.Ok? ==> r.value == SeedUpdated(d.seeds[seedId], now)
    ensures r.Err? ==> r.error == E301SeedNotExist
  {
    if seedId in d.seeds then Ok(SeedUpdated(d.seeds[seedId], now)) else Err(E301SeedNotExist)
  }

  /** Loading a farmer and a seed and flushing the farmer's rewards in it:
    * the opening of every action that changes seed power. */
  ghost function FarmerClaimed(d: ContractData, farmerId: AccountId, seedId: SeedId, now: Timestamp, boost: nat)
    : (r: Result<(Farmer, Seed)>)
    ensures farmerId !in d.farmers ==> r == Err(E100AccNotRegistered)
    ensures farmerId in d.farmers && seedId !in d.seeds ==> r == Err(E301SeedNotExist)
    ensures r.Ok? ==>
      (farmerId in d.farmers && seedId in d.seeds
       && r == AfterClaim(d.farmers[farmerId], SeedUpdated(d.seeds[seedId], now), boost))
  {
    match UnwrapFarmer(d, farmerId)
    case Err(e) => Err(e)
    case Ok(f) =>
      match UnwrapSeed(d, seedId, now)
      case Err(e) => Err(e)
      case Ok(s) => AfterClaim(f, s, boost)
  }

  /** Every seed is stored under its own id. */
  predicate Keyed(d: ContractData) {
    forall id :: id in d.seeds ==> d.seeds[id].seedId == id
  }

  /** The farmer's position in the seed, an empty one when there is none. */
  function Position(d: ContractData, farmerId: AccountId, seedId: SeedId): (fs: FarmerSeed)
    requires farmerId in d.farmers
    ensures GetSeed(d.farmers[farmerId], seedId).None? ==> Amount(fs) == 0 && Power(fs) == 0
  {
    GetSeed(d.farmers[farmerId], seedId).GetOr(EmptySeed(0))
  }

  /** `e` differs from `d` at most in one farmer and one seed, both still present. */
  predicate Touches(d: ContractData, e: ContractData, farmerId: AccountId, seedId: SeedId) {
    && farmerId in e.farmers && seedId in e.seeds
    && e == d.(farmers := d.farmers[farmerId := e.farmers[farmerId]], seeds := d.seeds[seedId := e.seeds[seedId]])
  }

  /** What the opening claim does to the position and the seed: the
    * position keeps its amounts and lock and is stored in the current
    * layout, the withdrawal queue and the seed's total amount are untouched,
    * and the seed's total power follows the position's power. */
  lemma ClaimedPosition(d: ContractData, farmerId: AccountId, seedId: SeedId, now: Timestamp, boost: nat)
    requires Keyed(d) && FarmerClaimed(d, farmerId, seedId, now, boost).Ok?
    ensures var (f, s) := FarmerClaimed(d, farmerId, seedId, now, boost).value;
      var before := Position(d, farmerId, seedId);
      && GetSeed(f, seedId).Some? && seedId !in f.seeds
      && GetSeed(f, seedId).value == before.(userRps := GetSeed(f, seedId).value.userRps,
                                             boostRatio := GetSeed(f, seedId).value.boostRatio)
      && f.withdraws == d.farmers[farmerId].withdraws
      && s == SeedUpdated(d.seeds[seedId], now).(totalSeedPower := s.totalSeedPower, farms := s.farms)
      && s.totalSeedPower + Power(before) == d.seeds[seedId].totalSeedPower + Power(GetSeed(f, seedId).value)
  {
    var f0, s0 := d.farmers[farmerId], SeedUpdated(d.seeds[seedId], now);
    assert FarmerClaimed(d, farmerId, seedId, now, boost) == AfterClaim(f0, s0, boost);
    assert s0.seedId == seedId;
    ClaimKeepsPosition(f0, s0, boost);
    ClaimMovesPower(f0, s0, boost);
  }

  /** `u128` subtraction, which panics below zero. */
  function Sub(a: nat, b: nat): (r: Result<nat>)
    ensures r.Ok? <==> b <= a
    ensures r.Ok? ==> r.value + b == a
    ensures r.Err? ==> r.error == ArithmeticUnderflow
  {
    if b <= a then Ok(a - b) else Err(ArithmeticUnderflow)
  }

  /** A call that returns nothing commits the state its specification
    * computes, or panics, which the host rolls back to the state before it. */
  ghost predicate Commits(before: ContractData, after: ContractData, r: Outcome, spec: Result<ContractData>) {
    match spec
    case Ok(d) => r == Pass && after == d
    case Err(e) => r == Fail(e) && after == before
  }

  /** The same for a call that also returns a value. */
  ghost predicate Returns<T>(before: ContractData, after: ContractData, r: Result<T>, spec: Result<(ContractData, T)>) {
    match spec
    case Ok(p) => r == Ok(p.1) && after == p.0
    case Err(e) => r == Err(e) && after == before
  }

  /** The contract object: the fields of `ContractData`, updated in place. */
  class Contract {
    var ownerId: AccountId
    var nextOwnerId: Option<AccountId>
    var nextOwnerAcceptDeadline: Option<nat>
    var refExchangeId: AccountId
    var state: RunningState
    var operators: set<AccountId>
    var config: Config
    var seeds: map<SeedId, Seed>
    var farmers: map<AccountId, Farmer>
    var seedsSlashed: map<SeedId, Balance>
    var seedsLostfound: map<SeedId, Balance>
    var farmerCount: nat
    var farmCount: nat

    /** The state as a value, against which every entry point is specified. */
    function Data(): (d: ContractData)
      reads this
      ensures d.seeds == seeds && d.farmers == farmers && d.state == state
    {
      ContractData(ownerId, nextOwnerId, nextOwnerAcceptDeadline, refExchangeId, state, operators,
                   config, seeds, farmers, seedsSlashed, seedsLostfound, farmerCount, farmCount)
    }

    constructor (ownerId: AccountId, refExchangeId: AccountId)
      ensures Data() == Initial(ownerId, refExchangeId)
    {
      this.ownerId := ownerId;
      nextOwnerId := None;
      nextOwnerAcceptDeadline := None;
      this.refExchangeId := refExchangeId;
      state := Running;
      operators := {};
      config := Default();
      seeds := map[];
      farmers := map[];
      seedsSlashed := map[];
      seedsLostfound := map[];
      farmerCount := 0;
      farmCount := 0;
    }

    /** The host's rollback: a call that panics leaves the state it found. */
    method Restore(d: ContractData)
      modifies this
      ensures Data() == d
    {
      ownerId, nextOwnerId, nextOwnerAcceptDeadline := d.ownerId, d.nextOwnerId, d.nextOwnerAcceptDeadline;
      refExchangeId, state, operators, config := d.refExchangeId, d.state, d.operators, d.config;
      seeds, farmers, seedsSlashed, seedsLostfound := d.seeds, d.farmers, d.seedsSlashed, d.seedsLostfound;
      farmerCount, farmCount := d.farmerCount, d.farmCount;
    }
  }

  /** `new`: refused when the account already holds contract state. */
  method New(stateExists: bool, ownerId: AccountId, refExchangeId: AccountId) returns (r: Result<Contract>)
    ensures r.Err? <==> stateExists
    ensures r.Err? ==> r.error == E000AlreadyInit
    ensures r.Ok? ==> fresh(r.value) && r.value.Data() == Initial(ownerId, refExchangeId)
  {
    if stateExists {
      return Err(E000AlreadyInit);
    }
    var c := new Contract(ownerId, refExchangeId);
    r := Ok(c);
  }
}
