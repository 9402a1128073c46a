/** Vocabulary shared by every part of the boost-farm ledger model:
  * identifiers, the contract's error codes, the Option/Result wrappers,
  * the constants the contract is built with and the time-unit conversions. */
module Base {

  /** NEAR account ids, seed ids, farm ids and reward-token ids are strings. */
  type AccountId = string
  type SeedId = string
  type FarmId = string
  type TokenId = string

  /** Balances are `u128` and timestamps `u64` in the contract; the model uses
    * unbounded naturals and does not model overflow of additions. */
  type Balance = nat
  /** A block timestamp in nanoseconds. */
  type Timestamp = nat

  datatype Option<+T> = None | Some(value: T) {
    function GetOr(default: T): T {
      if Some? then value else default
    }
  }

  /** The reasons a call is rejected. A rejected call reverts every change
    * it made, so the model returns one of these and changes nothing. */
  datatype Error =
    | E000AlreadyInit
    | E002NotAllowed
    | E004ContractPaused
    | E006NotImplemented
    | E007InvalidOperator
    | E008AlreadyAccepted
    | E100AccNotRegistered
    | E101InsufficientBalance
    | E102InsufficientStorage
    | E103StillHasReward
    | E104StillHasSeed
    | E200InvalidRatio
    | E201InvalidDuration
    | E300ForbidLocking
    | E301SeedNotExist
    | E304CausePreUnlock
    | E305StillInLock
    | E307BelowMinDeposit
    | E309NoNeedForce
    | E401FarmNotExist
    | E404UnmatchedRewardToken
    | E405FarmNotEnded
    /** `assert_one_yocto` failed: the call must carry exactly 1 yoctoNEAR. */
    | RequiresOneYocto
    /** A `require!` without an error code, such as a non-empty `msg`. */
    | RequirementFailed
    /** `Option::unwrap` on an absent value. */
    | MissingValue
    /** A shadow id without the v1 prefix reaches `unimplemented!()`. */
    | Unimplemented
    /** A decimal that does not parse where the source calls `parse().unwrap()`. */
    | InvalidNumber
    /** A farm id that is not `<seed id>#<index>`. */
    | InvalidFarmId
    /** A checked `u128` subtraction that would go below zero. */
    | ArithmeticUnderflow

  datatype Result<+T> = Ok(value: T) | Err(error: Error)

  /** The result of a call that returns nothing. */
  datatype Outcome = Pass | Fail(error: Error)

  const NANOS_PER_SEC: nat := 1_000_000_000
  const NANOS_PER_MS: nat := 1_000_000
  const NANOS_PER_DAY: nat := 86_400 * NANOS_PER_SEC
  /** Basis-point denominator of slash rates. */
  const BP_DENOM: nat := 10_000
  /** The locking multiplier of a zero-length lock: 100% in basis points. */
  const MIN_LOCKING_REWARD_RATIO: nat := 10_000
  const DEFAULT_MAX_LOCKING_REWARD_RATIO: nat := 20_000
  const DEFAULT_MAX_LOCKING_DURATION_SEC: nat := 3600 * 24 * 30 * 12
  const DEFAULT_SEED_SLASH_RATE: nat := 200
  const DEFAULT_MAX_NUM_FARMS_PER_BOOSTER: nat := 64
  const DEFAULT_MAX_NUM_FARMS_PER_SEED: nat := 16
  /** Seconds a withdrawn seed waits before it can be sent out. */
  const DEFAULT_DELAY_WITHDRAW_SEC: nat := 3600 * 24 * 7
  /** The storage fee of one registered farmer: 0.1 NEAR in yoctoNEAR. */
  const STORAGE_BALANCE_MIN_BOUND: nat := 100_000_000_000_000_000_000_000
  /** How long a nominated owner has to accept, in milliseconds. */
  const AVAILABLE_MS_FOR_NEXT_OWNER_ACCEPT: nat := 72 * 3600 * 1000
  /** Denominator of the combined booster bonus ratio of a farmer's seed. */
  const BOOST_DENOM: nat := 1_000_000
  const U64_MAX: nat := 0xFFFF_FFFF_FFFF_FFFF

  function ToNano(sec: nat): nat { sec * NANOS_PER_SEC }

  function NanoToSec(ns: Timestamp): nat { ns / NANOS_PER_SEC }

  /** `env::block_timestamp_ms()` of a block whose nanosecond timestamp is `ns`. */
  function NanoToMs(ns: Timestamp): nat { ns / NANOS_PER_MS }

  /** `u128_ratio(a, num, denom)`: `a * num / denom` rounded down, computed
    * without intermediate overflow. */
  function Ratio(a: nat, num: nat, denom: nat): (r: nat)
    requires denom > 0
    ensures r * denom <= a * num < (r + 1) * denom
  {
    a * num / denom
  }

  function Min(a: nat, b: nat): nat { if a <= b then a else b }

  function Max(a: nat, b: nat): nat { if a >= b then a else b }

  /** The value stored under `k`, or `d` when there is none (`get(k).unwrap_or(d)`). */
  function Get<K, V>(m: map<K, V>, k: K, d: V): V {
    if k in m then m[k] else d
  }

  lemma MulLeLeft(a: nat, b: nat, c: nat)
    requires a <= b
    ensures a * c <= b * c
  {
  }

  lemma MulCancel(a: nat, b: nat, c: nat)
    requires c > 0 && a * c <= b * c
    ensures a <= b
  {
    if a > b { MulLeLeft(b + 1, a, c); }
  }

  /** A ratio whose numerator factor does not exceed its denominator
    * does not exceed the scaled amount. */
  lemma RatioAtMost(a: nat, num: nat, denom: nat)
    requires denom > 0 && num <= denom
    ensures Ratio(a, num, denom) <= a
  {
    var r := Ratio(a, num, denom);
    MulLeLeft(num, denom, a);
    assert r * denom <= a * denom;
    MulCancel(r, a, denom);
  }
}
