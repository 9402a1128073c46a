/** The identifier formats the ledger decodes: a shadow-seed id issued by
  * the exchange names a pool, and a farm id names its seed. */
module Ids {
  import opened Base
  import opened Decimal

  const SHADOW_V1_TOKEN_PREFIX: string := "shadow_ref_v1-"

  /** The text of `s` before its first `sep` (all of `s` when it has none). */
  function UpTo(s: string, sep: char): (r: string)
    ensures r <= s && sep !in r
    ensures |r| < |s| ==> s[|r|] == sep
  {
    if |s| == 0 || s[0] == sep then "" else [s[0]] + UpTo(s[1..], sep)
  }

  /** A prefix free of `sep`, followed by nothing or by `sep`, is what
    * `UpTo` returns. */
  lemma {:induction false} UpToOf(prefix: string, rest: string, sep: char)
    requires sep !in prefix && (rest == "" || rest[0] == sep)
    ensures UpTo(prefix + rest, sep) == prefix
  {
    if |prefix| == 0 {
      assert prefix + rest == rest;
    } else {
      assert (prefix + rest)[1..] == prefix[1..] + rest;
      assert sep !in prefix[1..];
      UpToOf(prefix[1..], rest, sep);
      assert prefix == [prefix[0]] + prefix[1..];
    }
  }

  /** The first `sep` of `s` is where `UpTo` stops. */
  lemma {:induction false} FirstSepAt(s: string, i: nat, sep: char)
    requires i < |s| && s[i] == sep && sep !in s[..i]
    ensures i == |UpTo(s, sep)|
  {
    if i > 0 {
      assert s[0] == s[..i][0];
      assert s[1..][..i - 1] == s[1..i];
      assert forall k :: 1 <= k < i ==> s[1..i][k - 1] == s[..i][k];
      FirstSepAt(s[1..], i - 1, sep);
    }
  }

  /** Decimal digits hold no separator. */
  lemma DigitsHoldNo(digits: string, sep: char)
    requires AllDigits(digits) && !IsDigit(sep)
    ensures sep !in digits
  {
    forall k | 0 <= k < |digits| ensures digits[k] != sep {
      assert IsDigit(digits[k]);
    }
  }

  /** The second '-'-separated segment of a shadow id that carries the v1
    * prefix: the prefix's own '-' is the first separator. */
  function PoolSegment(shadowId: string): string
    requires SHADOW_V1_TOKEN_PREFIX <= shadowId
  {
    UpTo(shadowId[|SHADOW_V1_TOKEN_PREFIX|..], '-')
  }

  /** `shadow_id_to_seed_id`: a v1 shadow id names the exchange pool whose
    * number follows the prefix; the seed of that pool is
    * `<exchange>@<pool number in decimal>`. */
  function ShadowIdToSeedId(refExchangeId: AccountId, shadowId: string): (r: Result<SeedId>)
    ensures !(SHADOW_V1_TOKEN_PREFIX <= shadowId) <==> r == Err(Unimplemented)
    ensures SHADOW_V1_TOKEN_PREFIX <= shadowId ==>
              (r == Err(InvalidNumber) <==> ParseU64(PoolSegment(shadowId)).None?)
    ensures r.Ok? ==>
              (SHADOW_V1_TOKEN_PREFIX <= shadowId
               && ParseU64(PoolSegment(shadowId)).Some?
               && r.value == refExchangeId + "@" + Print(ParseU64(PoolSegment(shadowId)).value))
  {
    if !(SHADOW_V1_TOKEN_PREFIX <= shadowId) then Err(Unimplemented)
    else
      match ParseU64(PoolSegment(shadowId))
      case None => Err(InvalidNumber)
      case Some(n) => Ok(refExchangeId + "@" + Print(n))
  }

  /** The shadow id the exchange issues for pool `n`, with any '-'-led
    * suffix, maps to that pool's seed. */
  lemma ShadowIdOfPool(refExchangeId: AccountId, n: nat, suffix: string)
    requires n <= U64_MAX && (suffix == "" || suffix[0] == '-')
    ensures ShadowIdToSeedId(refExchangeId, SHADOW_V1_TOKEN_PREFIX + Print(n) + suffix)
            == Ok(refExchangeId + "@" + Print(n))
  {
    var id := SHADOW_V1_TOKEN_PREFIX + Print(n) + suffix;
    assert SHADOW_V1_TOKEN_PREFIX <= id;
    assert id[|SHADOW_V1_TOKEN_PREFIX|..] == Print(n) + suffix;
    DigitsHoldNo(Print(n), '-');
    UpToOf(Print(n), suffix, '-');
    ParsePrint(n);
  }

  /** Different pools never share a seed. */
  lemma ShadowSeedsDistinct(refExchangeId: AccountId, a: string, b: string)
    requires ShadowIdToSeedId(refExchangeId, a).Ok? && ShadowIdToSeedId(refExchangeId, b).Ok?
    requires ShadowIdToSeedId(refExchangeId, a) == ShadowIdToSeedId(refExchangeId, b)
    ensures ParseU64(PoolSegment(a)) == ParseU64(PoolSegment(b))
  {
    var m, n := ParseU64(PoolSegment(a)).value, ParseU64(PoolSegment(b)).value;
    var pre := refExchangeId + "@";
    assert pre + Print(m) == pre + Print(n);
    assert Print(m) == (pre + Print(m))[|pre|..];
    assert Print(n) == (pre + Print(n))[|pre|..];
    ValueOfPrint(m);
    ValueOfPrint(n);
  }

  /** An id of another shadow version is not supported. */
  lemma ShadowIdOtherVersion()
    ensures ShadowIdToSeedId("ex", "shadow_ref_v2-1") == Err(Unimplemented)
  {
    assert "shadow_ref_v2-1"[12] != SHADOW_V1_TOKEN_PREFIX[12];
  }

  /** A pool number that is missing or not decimal is refused. */
  lemma ShadowIdBadNumber()
    ensures ShadowIdToSeedId("ex", "shadow_ref_v1-x") == Err(InvalidNumber)
    ensures ShadowIdToSeedId("ex", "shadow_ref_v1-") == Err(InvalidNumber)
  {
    assert SHADOW_V1_TOKEN_PREFIX <= "shadow_ref_v1-x";
    assert "shadow_ref_v1-x"[14..] == "x";
    assert UpTo("x", '-') == "x";
    assert !IsDigit('x');
    assert SHADOW_V1_TOKEN_PREFIX <= "shadow_ref_v1-";
    assert "shadow_ref_v1-"[14..] == "";
  }

  /** A signed or zero-padded pool number is read as its value, and what
    * follows a further '-' is ignored. */
  lemma ShadowIdPaddedNumber()
    ensures ShadowIdToSeedId("ex", "shadow_ref_v1-+007-a") == Ok("ex@7")
  {
    assert SHADOW_V1_TOKEN_PREFIX <= "shadow_ref_v1-+007-a";
    assert "shadow_ref_v1-+007-a"[14..] == "+007-a";
    assert UpTo("+007-a", '-') == "+007";
    ParseExamples();
    assert Print(7) == "7";
    assert "ex" + "@" + "7" == "ex@7";
  }

  /** `parse_farm_id`, as far as the ledger uses it: a farm id is
    * `<seed id>#<index>`, and an id without exactly one '#' is refused. */
  function SeedOfFarmId(farmId: FarmId): (r: Result<SeedId>)
    ensures r.Ok? <==> exists i :: 0 <= i < |farmId| && farmId[i] == '#' && '#' !in farmId[..i] && '#' !in farmId[i+1..]
    ensures r.Err? ==> r.error == InvalidFarmId
    ensures r.Ok? ==> r.value + "#" <= farmId && '#' !in r.value
  {
    var seed := UpTo(farmId, '#');
    if |seed| < |farmId| && '#' !in farmId[|seed|+1..] then
      assert farmId[..|seed|] == seed;
      Ok(seed)
    else
      forall i | 0 <= i < |farmId| && farmId[i] == '#' && '#' !in farmId[..i] ensures i == |seed| {
        FirstSepAt(farmId, i, '#');
      }
      Err(InvalidFarmId)
  }

  /** The seed a farm was created under is read back from its id. */
  lemma SeedOfFarmIdFormat(seedId: SeedId, index: nat)
    requires '#' !in seedId
    ensures SeedOfFarmId(seedId + "#" + Print(index)) == Ok(seedId)
  {
    var id := seedId + "#" + Print(index);
    assert id == seedId + ("#" + Print(index));
    UpToOf(seedId, "#" + Print(index), '#');
    assert id[|seedId|+1..] == Print(index);
    DigitsHoldNo(Print(index), '#');
  }
}
