# Boost-farm ledger model

A Dafny model of the ledger of ref-finance's boost-farming NEAR contract.

Farmers stake **seed** (fungible or multi-fungible LP tokens, or "shadow" seed that the Ref exchange mirrors in). They earn the rewards of the **farms** attached to each seed:

- **Emission.** Each farm streams its deposited reward at a daily rate. The stream is shared in proportion to seed **power**, which the farm tracks through a reward-per-seed accumulator (`rps`).
- **Locking and boosters.** Locking seed for a duration multiplies its power. Booster seeds add a further bonus.
- **Claiming.** Every action on a position first flushes the rewards it is owed (the claim).
- **Unstaking.** Unstaked seed waits out a withdrawal delay before it can be sent out.
- **Forced unlock.** A lock that has not matured can be broken early, at a slash that goes to the owner.
- **Failed transfers.** A transfer that fails is credited back by its callback. If the farmer has left in the meantime, the amount goes to a lost-and-found ledger.

Around this sits the owner's two-step handover, pausing, operators, configuration and storage registration.

How the model is shaped:

- **Value types.** Positions (`FarmerSeed`), farmers, seeds and farms are datatypes. The contract loads them by value, changes them and writes them back.
- **The contract.** It is a `class Contract` whose fields the entry points update in place.
- **Entry points.** Each one has two members:
  - a specification function `After<Op>` on a `ContractData` value, returning `Err` exactly where the contract panics;
  - a method `<Op>` on the class, proved to commit exactly that value or to leave the state unchanged when the call is rejected.
- **Legacy farms.** The in-place `SeedFarmV0` of legacy.rs is a class whose methods are specified by the emission functions on its converted value.
- **Host inputs.** The caller, the block time and the attached deposit arrive as an `Env`.
- **Outgoing transfers.** They are returned as `Transfer` values. Each callback is a separate operation that takes whether the transfer succeeded.

## Model

| member | source | states |
|---|---|---|
| Base.Ratio | contracts/boost-farming/src/legacy.rs:208-215 | `u128_ratio` rounds `a*num/denom` down: `r*denom <= a*num < (r+1)*denom` |
| Decimal.Print | contracts/boost-farming/src/shadow_actions.rs:14 | printing a number gives non-empty decimal digits with no leading zero |
| Decimal.ParseU64 | contracts/boost-farming/src/shadow_actions.rs:13 | a parsed `u64` fits in 64 bits and the text has a digit |
| Decimal.ParsePrint | contracts/boost-farming/src/shadow_actions.rs:13-14 | round trip: parsing a printed `u64` gives it back |
| Decimal.ParseExamples | contracts/boost-farming/src/shadow_actions.rs:13 | empty, sign-only and negative texts are refused; `+007` reads as 7 |
| Ids.UpTo | contracts/boost-farming/src/shadow_actions.rs:13 | a segment is the longest separator-free prefix: it stops at the first separator or at the end of the text |
| Ids.UpToOf | contracts/boost-farming/src/shadow_actions.rs:13 | a separator-free text followed by nothing or by a separator is read back whole as the segment |
| Ids.ShadowIdToSeedId | contracts/boost-farming/src/shadow_actions.rs:11-18 | unsupported exactly when the v1 prefix is missing; otherwise the seed is `<exchange>@<pool>` or an invalid-number error |
| Ids.ShadowIdOfPool | contracts/boost-farming/src/shadow_actions.rs:11-18 | the shadow id of pool `n`, with any suffix, maps to seed `<exchange>@n` |
| Ids.ShadowSeedsDistinct | contracts/boost-farming/src/shadow_actions.rs:13-14 | two shadow ids give the same seed only when their pool numbers parse equal |
| Ids.ShadowIdOtherVersion | contracts/boost-farming/src/shadow_actions.rs:15-16 | an id of another shadow version is refused as unimplemented |
| Ids.ShadowIdBadNumber | contracts/boost-farming/src/shadow_actions.rs:13 | a missing or non-decimal pool number is refused |
| Ids.ShadowIdPaddedNumber | contracts/boost-farming/src/shadow_actions.rs:13 | a signed, zero-padded pool number reads as its value; a further segment is ignored |
| Ids.SeedOfFarmId | contracts/boost-farming/src/management.rs:12 | a farm id yields its seed exactly when it has one '#'; the seed is the prefix before it |
| Ids.SeedOfFarmIdFormat | contracts/boost-farming/src/management.rs:12 | round trip: the farm id `<seed>#<index>` yields `<seed>` |
| Configs.Default | contracts/boost-farming/src/lib.rs:89-100 | the default configuration is valid, has no boosters, and doubles power at the maximum lock |
| Configs.AssertValid | contracts/boost-farming/src/lib.rs:103-108 | passes exactly when the maximum multiplier exceeds 100%, else E200 |
| Configs.GetAffectedSeedsFromBooster | contracts/boost-farming/src/lib.rs:110-112 | present exactly when the booster is configured, with its info |
| Configs.GetBoostersFromSeed | contracts/boost-farming/src/lib.rs:115-121 | exactly the other boosters whose affected seeds contain the seed, with decimal and log base |
| SeedFarms.StatusAt | contracts/boost-farming/src/legacy.rs:181-191 | Created before the start, Pending with no deposit, Ended once all is distributed, otherwise Running (each an iff) |
| SeedFarms.Release | contracts/boost-farming/src/legacy.rs:208-215 | the release is capped by the undistributed deposit and by the daily rate pro rata |
| SeedFarms.RewardAdded | contracts/boost-farming/src/legacy.rs:229-237 | a wrong token is refused with E404; the total grows by the amount; an unstarted farm starts now |
| SeedFarms.Finalized | contracts/boost-farming/src/legacy.rs:239-244 | only an ended farm finalizes; the beneficiary gets distributed minus claimed |
| SeedFarms.UpdateKeeps | contracts/boost-farming/src/legacy.rs:193-227 | an update keeps the farm valid; id, terms, deposits and claims are unchanged; the counters only grow |
| SeedFarms.UpdateIdempotent | contracts/boost-farming/src/legacy.rs:198-201 | an update at or before the last accounted instant only refreshes the status |
| SeedFarms.UpdateTwiceSameInstant | contracts/boost-farming/src/legacy.rs:193-227 | a second update at the same instant, under any power, changes nothing |
| SeedFarms.NotRunningKeepsClock | contracts/boost-farming/src/legacy.rs:225 | a Created or Pending farm keeps its clock and its counters |
| SeedFarms.EndedOnlyAdvancesClock | contracts/boost-farming/src/legacy.rs:204-206 | an ended farm only moves its clock |
| SeedFarms.RunningUpdateSplitsRelease | contracts/boost-farming/src/legacy.rs:207-223 | a running update releases exactly `Release`, to the stakers through `rps` when power is staked, otherwise to the beneficiary |
| SeedFarms.RunningEndsWhenExhausted | contracts/boost-farming/src/legacy.rs:216-223 | a running farm is Ended after an update exactly when the deposits are exhausted |
| SeedFarms.TopUpReopensEndedFarm | contracts/boost-farming/src/legacy.rs:229-237 | a top-up of an ended farm makes it run again from where its clock stopped |
| SeedFarms.BeneficiaryThenStaker | contracts/boost-farming/src/legacy.rs:207-223 | a day with no power goes to the beneficiary; a day with power owes the day's reward to that power |
| SeedFarms.UpdatePacedByClock | contracts/boost-farming/src/legacy.rs:208-216 | one update releases no faster than the daily rate over the span its clock advanced |
| SeedFarms.EmissionFollowsSchedule | contracts/boost-farming/src/legacy.rs:193-227 | over any series of updates, emission stays within the daily rate and within the deposits |
| Legacy.SeedFarmV0.ToSeedFarm | contracts/boost-farming/src/legacy.rs:248-273 | every field carries over; the withdrawn-beneficiary counter starts at zero |
| Legacy.SeedFarmV0.HasEnded | contracts/boost-farming/src/legacy.rs:174-179 | true exactly for an Ended status; reading an unset status fails |
| Legacy.SeedFarmV0.InternalUpdateStatus | contracts/boost-farming/src/legacy.rs:181-191 | only the status changes, to `StatusAt(now)` |
| Legacy.SeedFarmV0.Update | contracts/boost-farming/src/legacy.rs:193-227 | the farm becomes `Updated(old, power, now)` and stays valid |
| Legacy.SeedFarmV0.AddReward | contracts/boost-farming/src/legacy.rs:229-237 | the farm becomes `RewardAdded(...)` and the call returns its total and start; a rejection changes nothing |
| Legacy.SeedFarmV0.Finalize | contracts/boost-farming/src/legacy.rs:239-244 | the farm becomes `Finalized(old)`; a rejection changes nothing |
| Legacy.ToFarmerSeed | contracts/boost-farming/src/legacy.rs:350-372 | a migrated position has no shadow seed and keeps its amount, power, booster and checkpoints |
| FarmerSeeds.Power | contracts/boost-farming/src/farmer.rs:172-174 | the booster bonus only adds to the basic power |
| FarmerSeeds.LockedPower | contracts/boost-farming/src/actions_of_farmer_seed.rs:32-33 | locked power is at least the locked amount |
| FarmerSeeds.LockedPowerAtMostMultiplier | contracts/boost-farming/src/actions_of_farmer_seed.rs:19-21 | within the maximum duration, the power is at most the maximum multiplier times the amount |
| FarmerSeeds.LockedPowerExamples | contracts/boost-farming/src/actions_of_farmer_seed.rs:32-33 | under the default policy, 50 locked for the maximum counts 100, and for half of it 75 |
| FarmerSeeds.FreeToLock | contracts/boost-farming/src/actions_of_farmer_seed.rs:26-33 | E101 above the free amount; the amount moves from free to locked; a running lock is only ever extended; the returned gain equals the change of power |
| FarmerSeeds.RemainingLockedPower | contracts/boost-farming/src/actions_of_farmer_seed.rs:93-98 | the locked power that stays never grows and is zero once all is unlocked |
| FarmerSeeds.RemainingLockedPowerCovers | contracts/boost-farming/src/actions_of_farmer_seed.rs:93-98 | the power released covers the amount released; what stays covers what stays locked |
| FarmerSeeds.UnlockedKeepsValid | contracts/boost-farming/src/actions_of_farmer_seed.rs:93-98 | unlocking keeps a valid position valid |
| FarmerSeeds.UnlockToFree | contracts/boost-farming/src/actions_of_farmer_seed.rs:93-98 | E305 before maturity and E101 above the locked amount; otherwise the amount moves from locked to free |
| FarmerSeeds.SlashedBounded | contracts/boost-farming/src/actions_of_farmer_seed.rs:153 | the slash is at most the slash rate's share of the amount |
| FarmerSeeds.UnlockToFreeWithSlashed | contracts/boost-farming/src/actions_of_farmer_seed.rs:153 | E309 after maturity and E101 above the locked amount; otherwise the unslashed part becomes free, with the power lost and the slash returned |
| FarmerSeeds.WithdrawFree | contracts/boost-farming/src/actions_of_farmer_seed.rs:99-102 | E101 exactly above the free amount; otherwise the free amount shrinks by it, and so may the power |
| FarmerSeeds.AddShadow | contracts/boost-farming/src/shadow_actions.rs:35-37 | the shadow amount grows by the amount; the returned gain equals the change of power |
| FarmerSeeds.WithdrawShadow | contracts/boost-farming/src/shadow_actions.rs:71-75 | E101 exactly above the shadow amount; otherwise the shadow amount shrinks by it |
| FarmerSeeds.PowerMonotone | contracts/boost-farming/src/farmer.rs:172-174 | under the same booster, more basic power never means less power |
| FarmerSeeds.PowerCoversAmount | contracts/boost-farming/src/farmer.rs:172-174 | a valid position's power covers its amount |
| Seeds.SeedUpdated | contracts/boost-farming/src/actions_of_farmer_seed.rs:16 | loading a seed updates its farms at the current power and changes nothing else |
| Seeds.SeedUpdatedPaced | contracts/boost-farming/src/actions_of_farmer_seed.rs:16 | loading keeps every farm valid and paced by the daily rate |
| Seeds.UpdateClaimed | contracts/boost-farming/src/farmer.rs:177 | each farm's claimed counter grows by exactly its entry in the per-farm claim map and nothing else of the seed changes; `Farmers.ClaimBalancesLedgers` rests on this |
| Farmers.NewFarmer | contracts/boost-farming/src/farmer.rs:43-55 | a new farmer has the given ids and no rewards, positions or withdrawals |
| Farmers.AddRewards | contracts/boost-farming/src/farmer.rs:56-63 | after the loop, every token is credited on top of its balance (`Merged`) |
| Farmers.MergedCredits | contracts/boost-farming/src/farmer.rs:56-63 | crediting adds each delta to its token and leaves every other token alone |
| Farmers.SubReward | contracts/boost-farming/src/farmer.rs:65-73 | a token held is debited, with E101 above its balance, and an emptied entry dropped; a token not held is left alone |
| Farmers.RewardDebitUndone | contracts/boost-farming/src/actions_of_farmer_reward.rs:91-94 | crediting back what `sub_reward` debited restores the balances exactly |
| Farmers.GetSeed | contracts/boost-farming/src/farmer.rs:83-89 | a legacy position is converted and preferred over a current one |
| Farmers.SetSeed | contracts/boost-farming/src/farmer.rs:97-100 | the position is read back as stored, the legacy copy is dropped, and the other positions are untouched |
| Farmers.RemoveSeed | contracts/boost-farming/src/farmer.rs:91-95 | only one layout's entry is dropped, so a position stored in both stays readable |
| Farmers.RemoveAfterSet | contracts/boost-farming/src/farmer.rs:91-100 | a position stored by `set_seed` is gone after `remove_seed` |
| Farmers.AddWithdrawSeed | contracts/boost-farming/src/actions_of_farmer_seed.rs:101 | the queued amount grows by the amount and its delay restarts now; the rest is untouched |
| Farmers.SubWithdrawSeed | contracts/boost-farming/src/actions_of_farmer_seed.rs:64 | refused before the delay has passed or above the queued amount; otherwise the queue shrinks and an emptied entry is dropped |
| Farmers.ClaimRewards | contracts/boost-farming/src/farmer.rs:134-155 | each token credited carries the sum of what its farms owe; tokens owed nothing are absent |
| Farmers.CalcFarmerClaim | contracts/boost-farming/src/farmer.rs:106-165 | the loop computes per-token rewards, per-farm claims, and checkpoints at every funded farm's `rps` |
| Farmers.VisitFarm | contracts/boost-farming/src/farmer.rs:134-161 | one loop turn extends the rewards, claims and checkpoints by one farm |
| Farmers.ClaimLeavesNothingOwed | contracts/boost-farming/src/farmer.rs:157-162 | right after a claim, no funded farm owes the position anything |
| Farmers.SecondClaimCreditsNothing | contracts/boost-farming/src/farmer.rs:106-165 | a second claim on unchanged farms credits and records nothing |
| Farmers.AfterClaim | contracts/boost-farming/src/farmer.rs:167-179 | the claim credits its rewards, rebases the position, and moves the seed's power as the position's; every farm's claimed counter grows by exactly what that farm owed the position; it underflows exactly when the power would go negative |
| Farmers.ClaimKeepsPosition | contracts/boost-farming/src/farmer.rs:167-178 | the claim stores the rebased position in the current layout, which differs from the old one only in its checkpoints and booster ratio, and leaves the withdrawal queue alone |
| Farmers.ClaimMovesPower | contracts/boost-farming/src/farmer.rs:170-174 | the seed's total power moves by exactly the change in the position's power, and nothing else of the seed but its farms changes |
| Farmers.ClaimBasePower | contracts/boost-farming/src/farmer.rs:118-131 | a farmer without a position starts from an empty one, whose power is that of holding nothing |
| Farmers.ClaimKeepsFarmsValid | contracts/boost-farming/src/farmer.rs:167-179 | a claim keeps every farm of the seed valid (emission within deposits, non-negative `rps`) |
| Farmers.ClaimedGrowthIsOwed | contracts/boost-farming/src/farmer.rs:146-155 | when each farm's claimed counter grows by what it owes, the growth summed over a token's farms is the position's total owed in that token |
| Farmers.ClaimBalancesLedgers | contracts/boost-farming/src/farmer.rs:146-155 | in every token, the farmer's credit grows by exactly the growth of the claimed counters of the seed's farms paying that token |
| Farmers.ClaimReducesBeneficiary | contracts/boost-farming/src/farmer.rs:177 | what a claim records against a farm is exactly what the farm's beneficiary no longer receives when the farm is finalized |
| Farmers.DoFarmerClaim | contracts/boost-farming/src/farmer.rs:167-179 | the method computes `AfterClaim`; the seed's amount and id are kept and the position is stored |
| Contracts.Initial | contracts/boost-farming/src/lib.rs:171-191 | a new contract runs under the default configuration, with no operators, seeds, farmers or ledgers |
| Contracts.New | contracts/boost-farming/src/lib.rs:171-191 | E000 when state exists; otherwise a fresh contract holding `Initial` |
| Contracts.Contract.constructor | contracts/boost-farming/src/lib.rs:171-191 | the object holds `Initial(owner, exchange)` |
| Contracts.IsOwnerOrOperators | contracts/boost-farming/src/lib.rs:213-219 | true exactly for the owner or an operator |
| Contracts.AssertOwner | contracts/boost-farming/src/owner.rs:23-28 | passes exactly for the owner, else E002 |
| Contracts.AssertOneYocto | contracts/boost-farming/src/owner.rs:44 | passes exactly for a deposit of one yoctoNEAR |
| Contracts.UnwrapFarmer | contracts/boost-farming/src/farmer.rs:185-188 | the farmer exactly when registered, else E100 |
| Contracts.UnwrapSeed | contracts/boost-farming/src/actions_of_farmer_seed.rs:16 | the seed updated to now exactly when it exists, else E301 |
| Contracts.FarmerClaimed | contracts/boost-farming/src/actions_of_farmer_seed.rs:15-23 | E100, then E301, then the claim on the loaded farmer and seed |
| Contracts.ClaimedPosition | contracts/boost-farming/src/farmer.rs:167-179 | after a claim the position is the rebased one, withdrawals are unchanged, and the seed's power moves as the position's |
| Owner.DeadlineChecked | contracts/boost-farming/src/owner.rs:30-38 | the nomination is cleared exactly when its deadline has passed |
| Owner.AfterGrantNextOwner | contracts/boost-farming/src/owner.rs:44-54 | the owner nominates; the deadline is 72 hours from now |
| Owner.AfterAcceptNextOwner | contracts/boost-farming/src/owner.rs:57-66 | only the nominee, before the deadline, accepts; E008 when already accepted |
| Owner.AfterConfirmNextOwner | contracts/boost-farming/src/owner.rs:69-82 | the owner confirms an accepted nomination and ownership passes |
| Owner.AfterCancelNextOwner | contracts/boost-farming/src/owner.rs:85-94 | the owner clears a pending nomination |
| Owner.AfterPauseContract | contracts/boost-farming/src/owner.rs:97-107 | the owner pauses a running contract; pausing a paused one changes nothing |
| Owner.AfterResumeContract | contracts/boost-farming/src/owner.rs:110-120 | the owner resumes a paused contract |
| Owner.AfterExtendOperators | contracts/boost-farming/src/owner.rs:124-130 | the operators become their union with the listed accounts |
| Owner.RemovedAll | contracts/boost-farming/src/owner.rs:134-141 | succeeds exactly when every listed account is an operator, listed once; the result is the difference |
| Owner.AfterRemoveOperators | contracts/boost-farming/src/owner.rs:134-141 | the owner removes listed operators; E007 for one that is missing |
| Owner.HandoverCompletes | contracts/boost-farming/src/owner.rs:44-82 | grant, accept before the deadline, then confirm makes the nominee the owner |
| Owner.LapsedNominationRefused | contracts/boost-farming/src/owner.rs:278-299 | accepting after the deadline is refused |
| Owner.PauseResumeRoundTrip | contracts/boost-farming/src/owner.rs:97-120 | pausing then resuming restores the state |
| Owner.PauseIdempotent | contracts/boost-farming/src/owner.rs:97-107 | pausing twice is pausing once |
| Owner.ExtendThenRemove | contracts/boost-farming/src/owner.rs:124-141 | adding new operators and removing them again restores the operators |
| Owner.CheckNextOwnerDeadline | contracts/boost-farming/src/owner.rs:30-38 | the state becomes `DeadlineChecked(old, now)` |
| Owner.GrantNextOwner | contracts/boost-farming/src/owner.rs:44-54 | commits `AfterGrantNextOwner` or changes nothing |
| Owner.AcceptNextOwner | contracts/boost-farming/src/owner.rs:57-66 | commits `AfterAcceptNextOwner` or changes nothing |
| Owner.ConfirmNextOwner | contracts/boost-farming/src/owner.rs:69-82 | commits `AfterConfirmNextOwner` or changes nothing |
| Owner.CancelNextOwner | contracts/boost-farming/src/owner.rs:85-94 | commits `AfterCancelNextOwner` or changes nothing |
| Owner.PauseContract | contracts/boost-farming/src/owner.rs:97-107 | commits `AfterPauseContract` or changes nothing |
| Owner.ResumeContract | contracts/boost-farming/src/owner.rs:110-120 | commits `AfterResumeContract` or changes nothing |
| Owner.ExtendOperators | contracts/boost-farming/src/owner.rs:124-130 | the loop commits `AfterExtendOperators` or changes nothing |
| Owner.RemoveOperators | contracts/boost-farming/src/owner.rs:134-141 | the loop commits `AfterRemoveOperators`, or restores the state on a missing operator |
| StorageImpl.StorageBalanceBoundsOf | contracts/boost-farming/src/storage_impl.rs:87-92 | registration costs exactly the fixed minimum |
| StorageImpl.StorageBalanceOf | contracts/boost-farming/src/storage_impl.rs:94-103 | a balance exactly for a registered farmer, none of it available |
| StorageImpl.Refund | contracts/boost-farming/src/storage_impl.rs:37-45 | a refund is sent exactly when it is not zero |
| StorageImpl.AfterStorageDeposit | contracts/boost-farming/src/storage_impl.rs:19-47 | a new account is registered for the minimum and the excess is refunded; a known account is refunded in full; E102 below the minimum |
| StorageImpl.AfterStorageWithdraw | contracts/boost-farming/src/storage_impl.rs:51-55 | always refused: yocto, then E004, then E006 |
| StorageImpl.AfterStorageUnregister | contracts/boost-farming/src/storage_impl.rs:59-85 | a farmer with no rewards and no seed leaves and the sponsor is repaid; E103 or E104 otherwise; an unknown caller gets false |
| StorageImpl.RegisterThenUnregister | contracts/boost-farming/src/storage_impl.rs:19-85 | registering and leaving again restores the ledger, and the sponsor is repaid the fee |
| StorageImpl.RegisterTwice | contracts/boost-farming/src/storage_impl.rs:19-47 | registering again changes nothing and refunds everything |
| StorageImpl.StorageDeposit | contracts/boost-farming/src/storage_impl.rs:19-47 | commits `AfterStorageDeposit` or changes nothing |
| StorageImpl.StorageWithdraw | contracts/boost-farming/src/storage_impl.rs:51-55 | changes nothing |
| StorageImpl.StorageUnregister | contracts/boost-farming/src/storage_impl.rs:59-85 | commits `AfterStorageUnregister` or changes nothing |
| FarmerSeedActions.LockClaimed | contracts/boost-farming/src/actions_of_farmer_seed.rs:25-41 | only this farmer and seed change; the amount is kept and moves into the lock; the seed's power follows the position's |
| FarmerSeedActions.AfterLockFreeSeed | contracts/boost-farming/src/actions_of_farmer_seed.rs:9-51 | the gates in source order (yocto, E004, E100, E301, E300, E201), then the claim, then the lock |
| FarmerSeedActions.AfterWithdrawSeed | contracts/boost-farming/src/actions_of_farmer_seed.rs:54-67 | the queued seed is debited after its delay, and a seed transfer of that amount goes out |
| FarmerSeedActions.UnlockThenUnstake | contracts/boost-farming/src/actions_of_farmer_seed.rs:93-102 | an unlock, then a withdrawal of free seed, each only when its amount is positive |
| FarmerSeedActions.Stored | contracts/boost-farming/src/actions_of_farmer_seed.rs:107-114 | an emptied position is dropped, any other is stored |
| FarmerSeedActions.UnlockAndUnstakeClaimed | contracts/boost-farming/src/actions_of_farmer_seed.rs:89-119 | only this farmer and seed change |
| FarmerSeedActions.UnlockAndUnstakeClaimedMoves | contracts/boost-farming/src/actions_of_farmer_seed.rs:89-119 | the unstaked amount leaves the position and the seed's total and joins the withdrawal queue |
| FarmerSeedActions.AfterUnlockAndUnstakeSeed | contracts/boost-farming/src/actions_of_farmer_seed.rs:70-131 | yocto, E004, the claim, then unlock and unstake |
| FarmerSeedActions.ForceUnlockClaimed | contracts/boost-farming/src/actions_of_farmer_seed.rs:151-168 | the slash leaves the seed's total and joins the slashed ledger |
| FarmerSeedActions.AfterForceUnlock | contracts/boost-farming/src/actions_of_farmer_seed.rs:134-178 | yocto, E004, the claim, then the forced unlock |
| FarmerSeedActions.AfterCallbackWithdrawSeed | contracts/boost-farming/src/actions_of_farmer_seed.rs:181-221 | a failed transfer is queued again for the farmer, or goes to lost-and-found when the farmer is gone |
| FarmerSeedActions.LockConservesSeed | contracts/boost-farming/src/actions_of_farmer_seed.rs:9-51 | locking keeps the position's amount and the seed's total; the seed's power moves as the position's |
| FarmerSeedActions.UnstakeMovesSeedToQueue | contracts/boost-farming/src/actions_of_farmer_seed.rs:70-131 | the unstaked amount moves from the position and the seed's total to the queue; the power accounting holds |
| FarmerSeedActions.ForceUnlockMovesSlashed | contracts/boost-farming/src/actions_of_farmer_seed.rs:134-178 | the slashed amount moves from the seed's total to the slashed ledger; the position keeps the rest |
| FarmerSeedActions.FailedSeedWithdrawalRequeued | contracts/boost-farming/src/actions_of_farmer_seed.rs:54-67 | a seed withdrawal whose transfer fails puts the amount back in the queue |
| FarmerSeedActions.LockClaimedSteps | contracts/boost-farming/src/actions_of_farmer_seed.rs:25-41 | commits `LockClaimed` or changes nothing |
| FarmerSeedActions.LockFreeSeed | contracts/boost-farming/src/actions_of_farmer_seed.rs:9-51 | commits `AfterLockFreeSeed` or changes nothing |
| FarmerSeedActions.WithdrawSeed | contracts/boost-farming/src/actions_of_farmer_seed.rs:54-67 | commits `AfterWithdrawSeed` and returns its transfer, or changes nothing |
| FarmerSeedActions.UnlockThenUnstakeSteps | contracts/boost-farming/src/actions_of_farmer_seed.rs:93-102 | computes `UnlockThenUnstake` and the queued withdrawal |
| FarmerSeedActions.UnlockAndUnstakeClaimedSteps | contracts/boost-farming/src/actions_of_farmer_seed.rs:89-119 | commits `UnlockAndUnstakeClaimed` or changes nothing |
| FarmerSeedActions.UnlockAndUnstakeSeed | contracts/boost-farming/src/actions_of_farmer_seed.rs:70-131 | commits `AfterUnlockAndUnstakeSeed` or changes nothing |
| FarmerSeedActions.ForceUnlockClaimedSteps | contracts/boost-farming/src/actions_of_farmer_seed.rs:151-168 | commits `ForceUnlockClaimed` or changes nothing |
| FarmerSeedActions.ForceUnlock | contracts/boost-farming/src/actions_of_farmer_seed.rs:134-178 | commits `AfterForceUnlock` or changes nothing |
| FarmerSeedActions.CallbackWithdrawSeed | contracts/boost-farming/src/actions_of_farmer_seed.rs:181-221 | the state becomes `AfterCallbackWithdrawSeed` |
| FarmerRewardActions.AfterClaimRewardBySeed | contracts/boost-farming/src/actions_of_farmer_reward.rs:6-18 | E004 when paused; only this farmer and seed change; no reward balance falls |
| FarmerRewardActions.AfterWithdrawRewardAsWritten | contracts/boost-farming/src/actions_of_farmer_reward.rs:22-55 | the amount defaults to the balance; nothing is sent for zero; otherwise a transfer of the amount goes out. For a held token, E101 exactly when the amount exceeds the balance, else the balance falls by the amount, the entry is dropped at zero, and no other farmer or token changes; for a token not held, the ledger is left as it was |
| FarmerRewardActions.WithdrawUnheldRewardAsWritten | contracts/boost-farming/src/actions_of_farmer_reward.rs:28-33 | as written, any amount of an unheld token is sent with no debit |
| FarmerRewardActions.AfterWithdrawReward | contracts/boost-farming/src/actions_of_farmer_reward.rs:22-55 | refused with E101 exactly above the balance; otherwise the balance falls by exactly the amount sent, and other tokens are untouched |
| FarmerRewardActions.AfterCallbackPostWithdrawReward | contracts/boost-farming/src/actions_of_farmer_reward.rs:57-105 | a failed transfer is credited back to a farmer still registered; reports success |
| FarmerRewardActions.FailedRewardWithdrawalUndone | contracts/boost-farming/src/actions_of_farmer_reward.rs:22-105 | a withdrawal whose transfer fails leaves the ledger exactly as before |
| FarmerRewardActions.SucceededRewardWithdrawalDebits | contracts/boost-farming/src/actions_of_farmer_reward.rs:22-105 | a withdrawal whose transfer succeeds has taken exactly the sent amount |
| FarmerRewardActions.ClaimRewardBySeed | contracts/boost-farming/src/actions_of_farmer_reward.rs:6-18 | commits `AfterClaimRewardBySeed` or changes nothing |
| FarmerRewardActions.WithdrawReward | contracts/boost-farming/src/actions_of_farmer_reward.rs:22-55 | commits the corrected `AfterWithdrawReward` and returns its transfer, or changes nothing |
| FarmerRewardActions.CallbackPostWithdrawReward | contracts/boost-farming/src/actions_of_farmer_reward.rs:57-105 | the state becomes `AfterCallbackPostWithdrawReward` |
| ShadowActions.ShadowSeed | contracts/boost-farming/src/shadow_actions.rs:23-30 | only the exchange, while running and with an empty message, gets the seed the shadow id names |
| ShadowActions.CastShadowClaimed | contracts/boost-farming/src/shadow_actions.rs:35-45 | only this farmer and seed change; the shadow amount and the seed's total grow by the amount |
| ShadowActions.AfterOnCastShadow | contracts/boost-farming/src/shadow_actions.rs:23-55 | the gates, E307 below the minimum deposit, the claim, then the cast |
| ShadowActions.RemoveShadowClaimed | contracts/boost-farming/src/shadow_actions.rs:71-89 | only this farmer and seed change; the shadow amount and the seed's total shrink by the amount |
| ShadowActions.AfterOnRemoveShadow | contracts/boost-farming/src/shadow_actions.rs:57-97 | the gates, a zero amount refused, the claim, then the removal |
| ShadowActions.CastShadowAdds | contracts/boost-farming/src/shadow_actions.rs:23-55 | casting adds exactly the amount to the position and the seed; the power moves as the position's |
| ShadowActions.RemoveShadowTakes | contracts/boost-farming/src/shadow_actions.rs:57-97 | removing takes exactly the amount off the position and the seed |
| ShadowActions.CastThenRemoveShadow | contracts/boost-farming/src/shadow_actions.rs:23-97 | casting then removing the same amount restores the position's and the seed's holdings |
| ShadowActions.CastShadowClaimedSteps | contracts/boost-farming/src/shadow_actions.rs:35-45 | commits `CastShadowClaimed` or changes nothing |
| ShadowActions.OnCastShadow | contracts/boost-farming/src/shadow_actions.rs:23-55 | commits `AfterOnCastShadow` or changes nothing |
| ShadowActions.RemoveShadowClaimedSteps | contracts/boost-farming/src/shadow_actions.rs:71-89 | commits `RemoveShadowClaimed` or changes nothing |
| ShadowActions.OnRemoveShadow | contracts/boost-farming/src/shadow_actions.rs:57-97 | commits `AfterOnRemoveShadow` or changes nothing |
| Management.OperatorGate | contracts/boost-farming/src/management.rs:9-11 | passes exactly for one yoctoNEAR, an owner or operator, and a running contract, with the errors in that order |
| Management.AfterModifyDailyReward | contracts/boost-farming/src/management.rs:8-20 | the seed's farms are brought up to now, then only the farm's daily reward changes; E401 for an unknown farm |
| Management.RetunedStaysCurrent | contracts/boost-farming/src/management.rs:13-17 | a farm updated to now and then retuned releases nothing when updated again at now |
| Management.DailyRewardNotRetroactive | contracts/boost-farming/src/management.rs:8-20 | the new rate applies only from now: emission up to now is at the old rate, and reloading at now releases nothing |
| Management.RetunedSeedStaysCurrent | contracts/boost-farming/src/management.rs:14-19 | a seed loaded at now with one farm retuned is still up to date at now: reloading it changes no farm |
| Management.AfterModifyLockingPolicy | contracts/boost-farming/src/management.rs:23-36 | the new maximum duration and multiplier are kept exactly when the configuration stays valid, else E200 |
| Management.AfterModifyMaxFarmNumPerSeed | contracts/boost-farming/src/management.rs:39-47 | only the farm limit changes |
| Management.AfterModifyDefaultSlashRate | contracts/boost-farming/src/management.rs:50-58 | only the default slash rate changes, with no bound |
| Management.ConfigStaysValid | contracts/boost-farming/src/management.rs:23-58 | no configuration change by an operator makes a valid configuration invalid |
| Management.WithParam | contracts/boost-farming/src/management.rs:61-93 | a parameter change keeps the seed's id, amounts, power, farms and farmer count |
| Management.AfterModifySeed | contracts/boost-farming/src/management.rs:61-93 | the seed is loaded and one parameter replaced; a minimum lock above the maximum is refused with E201 |
| Management.SeedModificationKeepsStakes | contracts/boost-farming/src/management.rs:61-93 | retuning a seed touches no farmer and no other seed, and keeps its amount, power and valid farms |
| Management.AfterWithdrawSeedSlashed | contracts/boost-farming/src/management.rs:97-142 | the whole slashed balance goes to the owner and the entry is removed; E101 when there is none |
| Management.AfterCallbackWithdrawSeedSlashed | contracts/boost-farming/src/management.rs:237-267 | a failed payout goes back to the slashed balance |
| Management.FailedSlashedPayoutUndone | contracts/boost-farming/src/management.rs:97-142 | a slashed payout that fails leaves the ledger exactly as before |
| Management.AfterReturnSeedLostfound | contracts/boost-farming/src/management.rs:147-197 | only the owner, for a registered farmer and at most the balance, sends lost-and-found seed; the entry falls by the amount |
| Management.AfterCallbackWithdrawSeedLostfound | contracts/boost-farming/src/management.rs:200-233 | a failed return goes back to the lost-and-found balance |
| Management.FailedLostfoundReturnUndone | contracts/boost-farming/src/management.rs:147-233 | a lost-and-found return that fails leaves every balance as before |
| Management.ModifyDailyReward | contracts/boost-farming/src/management.rs:8-20 | commits `AfterModifyDailyReward` or changes nothing |
| Management.ModifyLockingPolicy | contracts/boost-farming/src/management.rs:23-36 | commits `AfterModifyLockingPolicy` or changes nothing |
| Management.ModifyMaxFarmNumPerSeed | contracts/boost-farming/src/management.rs:39-47 | commits `AfterModifyMaxFarmNumPerSeed` or changes nothing |
| Management.ModifyDefaultSlashRate | contracts/boost-farming/src/management.rs:50-58 | commits `AfterModifyDefaultSlashRate` or changes nothing |
| Management.ModifySeed | contracts/boost-farming/src/management.rs:61-93 | commits `AfterModifySeed` or changes nothing |
| Management.WithdrawSeedSlashed | contracts/boost-farming/src/management.rs:97-142 | commits `AfterWithdrawSeedSlashed` and returns its transfer, or changes nothing |
| Management.CallbackWithdrawSeedSlashed | contracts/boost-farming/src/management.rs:237-267 | the state becomes `AfterCallbackWithdrawSeedSlashed` |
| Management.ReturnSeedLostfound | contracts/boost-farming/src/management.rs:147-197 | commits `AfterReturnSeedLostfound` and returns its transfer, or changes nothing |
| Management.CallbackWithdrawSeedLostfound | contracts/boost-farming/src/management.rs:200-233 | the state becomes `AfterCallbackWithdrawSeedLostfound` |

## Left out

- Events and logs (`Event::...emit()`) are not modelled. The ledger does not read them.
- Cross-contract calls are not modelled. Each `ft_transfer`/`mft_transfer` is a returned `Transfer`. Its callback is a separate call that receives whether the transfer succeeded. `promise_results_count` and the `#[private]` caller check are left out.
- NEAR refunds are returned as `NearPayment` values.
- Block time, the caller and the attached deposit are parameters (`Env`).
- Integer widths are not modelled. Balances are unbounded naturals, so `u128`/`u64` overflow of additions is not captured. Subtractions the source performs unchecked are modelled as errors when they would go below zero.
- `rps` is a real number. The source's fixed-point `BigDecimal` rounding is not captured, except that the reward owed is rounded down.
- `update_impacted_seeds` and `gen_booster_ratios` are not modelled. The booster bonus is one caller-supplied ratio (`boost`), and the power of other seeds that a booster affects is not recomputed. Those booster computations use `f64` logarithms.
- seed.rs, farmer_seed.rs, seed_farm.rs, utils.rs and token_receiver.rs are not part of this model. Their helpers (`free_to_lock`, `unlock_to_free`, `unlock_to_free_with_slashed`, `get_seed_power`, `parse_farm_id`, `u128_ratio`, `internal_unwrap_seed`) are reconstructed from their call sites and the repository's tests. Depositing seed, creating farms and depositing rewards happen in those files and are not modelled.
- The layouts do not all agree:
  - The action files use `farmer.withdraws` and `config.delay_withdraw_sec`, which the included `Farmer` and `Config` do not declare. The model gives the farmer a `withdraws` map and the configuration a `delayWithdrawSec`.
  - `farmer.seeds.get/insert` in the action files is read as `get_seed`/`set_seed` in the current layout.
- Upgrades, state migration, the outdated-farm archive and the view methods are not modelled.
- The `VFarmer`/`VSeed` version wrappers are not modelled. Only the legacy farm `SeedFarmV0` and the legacy position `FarmerSeedOld` are modelled.
- AfterStorageDeposit: `registration_only` is ignored, because the source ignores it too.
- AfterStorageUnregister: `force` is ignored, because the source ignores it. Queued withdrawals are not checked before a farmer leaves, as in the source.
- AfterModifyDefaultSlashRate: the rate has no upper bound, because the code sets none. The repository's management test expects a bound.
- AfterOnCastShadow: a new position does not increase the seed's `farmer_count`, as in the source.
- ClaimedPosition and the conservation lemmas built on it (LockConservesSeed, UnstakeMovesSeedToQueue, ForceUnlockMovesSlashed, CastShadowAdds, RemoveShadowTakes, CastThenRemoveShadow) assume `Keyed`: every seed is stored under its own id. The contract never stores a seed under another id.
- UnstakeMovesSeedToQueue states the power accounting only for positions satisfying `NoStrayPower` (no locked power without a locked amount), which every valid position does.
- SecondClaimCreditsNothing assumes that farms that were never funded have a zero accumulator, which emission guarantees.
- WithdrawReward: the method implements the corrected withdrawal below, not the code as written.
- ClaimKeepsFarmsValid: farm validity does not bound a farm's claimed counter by its distributed reward. That bound holds only across all farmers of a seed (together they are owed at most what the farm has distributed), and the model does not sum positions over farmers. So `Finalized`'s underflow error is not shown unreachable.
- Owed: a farm accumulator below the position's checkpoint is read as nothing owed, where the source subtracts the two `BigDecimal`s without a check (farmer.rs:144). Accumulators never fall and checkpoints are only ever set to a farm's current accumulator, so the case does not arise; the model does not carry that invariant across farmers and seeds.

## Findings

| source | as written | input that shows it | evidently intended | confidence | as-written member | corrected member |
|---|---|---|---|---|---|---|
| contracts/boost-farming/src/actions_of_farmer_reward.rs:28-33 | `sub_reward` does nothing for a token the farmer holds no entry for, so `withdraw_reward` sends any explicit amount of such a token without debiting anything | a registered farmer with no balance of token `T` calls `withdraw_reward(T, Some(x))` with `x > 0`: a transfer of `x` of `T` goes out and the ledger is unchanged | refuse with E101 any amount above the balance held, including for a token not held at all | medium, not executed (the transfer draws on the contract's own balance of `T`, which other farmers' rewards fund) | FarmerRewardActions.WithdrawUnheldRewardAsWritten | FarmerRewardActions.AfterWithdrawReward |
