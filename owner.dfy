/** Ownership handover, pause switch and operator list (owner.rs). Every
  * entry point here wants exactly one yoctoNEAR attached and, except
  * `accept_next_owner`, the owner as caller. */
module Owner {
  import opened Base
  import opened Contracts

  /** `check_next_owner_deadline`: a nomination still waiting for acceptance
    * is withdrawn once the block time in milliseconds passes its deadline. */
  function DeadlineChecked(d: ContractData, now: Timestamp): (e: ContractData)
    ensures e != d <==> d.nextOwnerAcceptDeadline.Some? && NanoToMs(now) > d.nextOwnerAcceptDeadline.value
    ensures e != d ==> e == d.(nextOwnerId := None, nextOwnerAcceptDeadline := None)
    ensures e.nextOwnerAcceptDeadline.Some? ==> NanoToMs(now) <= e.nextOwnerAcceptDeadline.value
  {
    match d.nextOwnerAcceptDeadline
    case Some(deadline) =>
      if NanoToMs(now) > deadline then d.(nextOwnerId := None, nextOwnerAcceptDeadline := None) else d
    case None => d
  }

  /** `grant_next_owner`: nominates an account other than the owner, with
    * 72 hours to accept, unless a nomination is still pending. */
  function AfterGrantNextOwner(d: ContractData, env: Env, nextOwnerId: AccountId): (r: Result<ContractData>)
    ensures r.Ok? <==> env.deposit == 1 && env.caller == d.ownerId && nextOwnerId != d.ownerId
                       && DeadlineChecked(d, env.now).nextOwnerId.None?
    ensures r.Ok? ==> r.value == d.(nextOwnerId := Some(nextOwnerId),
                                    nextOwnerAcceptDeadline := Some(NanoToMs(env.now) + AVAILABLE_MS_FOR_NEXT_OWNER_ACCEPT))
    ensures r.Err? ==> r.error == (if env.deposit != 1 then RequiresOneYocto else E002NotAllowed)
  {
    if env.deposit != 1 then Err(RequiresOneYocto)
    else if env.caller != d.ownerId || d.ownerId == nextOwnerId then Err(E002NotAllowed)
    else
      var e := DeadlineChecked(d, env.now);
      if e.nextOwnerId.Some? then Err(E002NotAllowed)
      else Ok(e.(nextOwnerId := Some(nextOwnerId),
                 nextOwnerAcceptDeadline := Some(NanoToMs(env.now) + AVAILABLE_MS_FOR_NEXT_OWNER_ACCEPT)))
  }

  /** `accept_next_owner`: the nominee accepts before the deadline. */
  function AfterAcceptNextOwner(d: ContractData, env: Env): (r: Result<ContractData>)
    ensures r.Ok? <==> env.deposit == 1 && d.nextOwnerId == Some(env.caller)
                       && d.nextOwnerAcceptDeadline.Some? && NanoToMs(env.now) <= d.nextOwnerAcceptDeadline.value
    ensures r.Ok? ==> r.value == d.(nextOwnerAcceptDeadline := None)
    ensures env.deposit == 1 && d.nextOwnerId == Some(env.caller) && d.nextOwnerAcceptDeadline.None?
            ==> r == Err(E008AlreadyAccepted)
    ensures env.deposit == 1 && d.nextOwnerId != Some(env.caller) ==> r == Err(E002NotAllowed)
  {
    if env.deposit != 1 then Err(RequiresOneYocto)
    else
      var e := DeadlineChecked(d, env.now);
      if e.nextOwnerId != Some(env.caller) then Err(E002NotAllowed)
      else if e.nextOwnerAcceptDeadline.None? then Err(E008AlreadyAccepted)
      else Ok(e.(nextOwnerAcceptDeadline := None))
  }

  /** `confirm_next_owner`: the owner hands over to an accepted nominee. */
  function AfterConfirmNextOwner(d: ContractData, env: Env): (r: Result<ContractData>)
    ensures r.Ok? <==> env.deposit == 1 && env.caller == d.ownerId
                       && d.nextOwnerId.Some? && d.nextOwnerAcceptDeadline.None?
    ensures r.Ok? ==> r.value == d.(ownerId := d.nextOwnerId.value, nextOwnerId := None)
    ensures r.Err? ==> r.error == (if env.deposit != 1 then RequiresOneYocto else E002NotAllowed)
  {
    if env.deposit != 1 then Err(RequiresOneYocto)
    else if env.caller != d.ownerId then Err(E002NotAllowed)
    else
      var e := DeadlineChecked(d, env.now);
      if e.nextOwnerAcceptDeadline.Some? || e.nextOwnerId.None? then Err(E002NotAllowed)
      else Ok(e.(ownerId := e.nextOwnerId.value, nextOwnerId := None))
  }

  /** `cancel_next_owner`: the owner withdraws a nomination, accepted or not,
    * that has not lapsed on its own. */
  function AfterCancelNextOwner(d: ContractData, env: Env): (r: Result<ContractData>)
    ensures r.Ok? <==> env.deposit == 1 && env.caller == d.ownerId
                       && DeadlineChecked(d, env.now).nextOwnerId.Some?
    ensures r.Ok? ==> r.value == d.(nextOwnerId := None, nextOwnerAcceptDeadline := None)
    ensures r.Err? ==> r.error == (if env.deposit != 1 then RequiresOneYocto else E002NotAllowed)
  {
    if env.deposit != 1 then Err(RequiresOneYocto)
    else if env.caller != d.ownerId then Err(E002NotAllowed)
    else
      var e := DeadlineChecked(d, env.now);
      if e.nextOwnerId.None? then Err(E002NotAllowed)
      else Ok(e.(nextOwnerId := None, nextOwnerAcceptDeadline := None))
  }

  /** `pause_contract`; pausing a paused contract only logs. */
  function AfterPauseContract(d: ContractData, env: Env): (r: Result<ContractData>)
    ensures r.Ok? <==> env.deposit == 1 && env.caller == d.ownerId
    ensures r.Ok? ==> r.value.state == Paused && r.value.(state := d.state) == d
    ensures r.Ok? && d.state == Paused ==> r.value == d
  {
    if env.deposit != 1 then Err(RequiresOneYocto)
    else if env.caller != d.ownerId then Err(E002NotAllowed)
    else
      match d.state
      case Running => Ok(d.(state := Paused))
      case Paused => Ok(d)
  }

  /** `resume_contract`; resuming a running contract only logs. */
  function AfterResumeContract(d: ContractData, env: Env): (r: Result<ContractData>)
    ensures r.Ok? <==> env.deposit == 1 && env.caller == d.ownerId
    ensures r.Ok? ==> r.value.state == Running && r.value.(state := d.state) == d
    ensures r.Ok? && d.state == Running ==> r.value == d
  {
    if env.deposit != 1 then Err(RequiresOneYocto)
    else if env.caller != d.ownerId then Err(E002NotAllowed)
    else
      match d.state
      case Paused => Ok(d.(state := Running))
      case Running => Ok(d)
  }

  /** `extend_operators`: every listed account becomes an operator. */
  function AfterExtendOperators(d: ContractData, env: Env, operators: seq<AccountId>): (r: Result<ContractData>)
    ensures r.Ok? <==> env.deposit == 1 && env.caller == d.ownerId
    ensures r.Ok? ==> forall a :: a in r.value.operators <==> a in d.operators || a in operators
    ensures r.Ok? ==> r.value.(operators := d.operators) == d
  {
    if env.deposit != 1 then Err(RequiresOneYocto)
    else if env.caller != d.ownerId then Err(E002NotAllowed)
    else Ok(d.(operators := d.operators + set a | a in operators))
  }

  /** No account appears twice in the list. */
  predicate Distinct(s: seq<AccountId>) {
    forall i, j :: 0 <= i < j < |s| ==> s[i] != s[j]
  }

  /** The loop of `remove_operators`: each listed account is removed in turn,
    * and one that is not an operator at its turn (absent, or listed twice)
    * aborts the call. */
  function RemovedAll(ops: set<AccountId>, list: seq<AccountId>): (r: Result<set<AccountId>>)
    ensures r.Ok? <==> (forall a :: a in list ==> a in ops) && Distinct(list)
    ensures r.Ok? ==> r.value == ops - set a | a in list
    ensures r.Err? ==> r.error == E007InvalidOperator
  {
    if |list| == 0 then Ok(ops)
    else if list[0] !in ops then Err(E007InvalidOperator)
    else
      var rest := RemovedAll(ops - {list[0]}, list[1..]);
      assert forall i :: 0 < i < |list| ==> list[i] == list[1..][i - 1];
      assert forall a :: a in list <==> a == list[0] || a in list[1..];
      rest
  }

  /** `remove_operators`. */
  function AfterRemoveOperators(d: ContractData, env: Env, operators: seq<AccountId>): (r: Result<ContractData>)
    ensures r.Ok? <==> env.deposit == 1 && env.caller == d.ownerId
                       && (forall a :: a in operators ==> a in d.operators) && Distinct(operators)
    ensures r.Ok? ==> forall a :: a in r.value.operators <==> a in d.operators && a !in operators
    ensures r.Ok? ==> r.value.(operators := d.operators) == d
    ensures r.Err? && env.deposit == 1 && env.caller == d.ownerId ==> r.error == E007InvalidOperator
  {
    if env.deposit != 1 then Err(RequiresOneYocto)
    else if env.caller != d.ownerId then Err(E002NotAllowed)
    else
      match RemovedAll(d.operators, operators)
      case Ok(ops) => Ok(d.(operators := ops))
      case Err(e) => Err(e)
  }

  /** The three-step handover: a nomination accepted in time and then
    * confirmed makes the nominee the owner and leaves nothing pending. */
  lemma HandoverCompletes(d: ContractData, owner: Env, nominee: Env, confirm: Env, next: AccountId)
    requires owner.caller == d.ownerId && owner.deposit == 1 && nominee.deposit == 1 && confirm.deposit == 1
    requires next != d.ownerId && nominee.caller == next && confirm.caller == d.ownerId
    requires d.nextOwnerId.None?
    requires NanoToMs(nominee.now) <= NanoToMs(owner.now) + AVAILABLE_MS_FOR_NEXT_OWNER_ACCEPT
    ensures AfterGrantNextOwner(d, owner, next).Ok?
    ensures AfterAcceptNextOwner(AfterGrantNextOwner(d, owner, next).value, nominee).Ok?
    ensures var d2 := AfterAcceptNextOwner(AfterGrantNextOwner(d, owner, next).value, nominee).value;
            AfterConfirmNextOwner(d2, confirm)
              == Ok(d.(ownerId := next, nextOwnerId := None, nextOwnerAcceptDeadline := None))
  {
  }

  /** A nominee who comes back after the deadline is refused as a stranger,
    * and the lapsed nomination no longer blocks a fresh one. */
  lemma LapsedNominationRefused(d: ContractData, owner: Env, nominee: Env, next: AccountId)
    requires owner.caller == d.ownerId && owner.deposit == 1 && nominee.deposit == 1
    requires next != d.ownerId && nominee.caller == next && d.nextOwnerId.None?
    requires NanoToMs(nominee.now) > NanoToMs(owner.now) + AVAILABLE_MS_FOR_NEXT_OWNER_ACCEPT
    ensures AfterGrantNextOwner(d, owner, next).Ok?
    ensures AfterAcceptNextOwner(AfterGrantNextOwner(d, owner, next).value, nominee) == Err(E002NotAllowed)
    ensures AfterGrantNextOwner(AfterGrantNextOwner(d, owner, next).value, owner.(now := nominee.now), next).Ok?
  {
  }

  /** Pausing a running contract and resuming it restores it exactly. */
  lemma PauseResumeRoundTrip(d: ContractData, env: Env)
    requires d.state == Running && env.deposit == 1 && env.caller == d.ownerId
    ensures AfterPauseContract(d, env).Ok?
    ensures AfterResumeContract(AfterPauseContract(d, env).value, env) == Ok(d)
  {
  }

  /** Pausing twice is pausing once. */
  lemma PauseIdempotent(d: ContractData, env: Env)
    requires AfterPauseContract(d, env).Ok?
    ensures AfterPauseContract(AfterPauseContract(d, env).value, env) == AfterPauseContract(d, env)
  {
  }

  /** Adding new operators and removing the same list restores the set;
    * removing them a second time is refused. */
  lemma ExtendThenRemove(d: ContractData, env: Env, operators: seq<AccountId>)
    requires env.deposit == 1 && env.caller == d.ownerId
    requires Distinct(operators) && |operators| > 0
    requires forall a :: a in operators ==> a !in d.operators
    ensures AfterExtendOperators(d, env, operators).Ok?
    ensures AfterRemoveOperators(AfterExtendOperators(d, env, operators).value, env, operators) == Ok(d)
    ensures AfterRemoveOperators(d, env, operators) == Err(E007InvalidOperator)
  {
    var e := AfterExtendOperators(d, env, operators).value;
    var r := AfterRemoveOperators(e, env, operators).value;
    assert r.operators == d.operators;
    assert operators[0] in operators;
  }

  /** The entry points on the contract object. */

  method CheckNextOwnerDeadline(c: Contract, now: Timestamp)
    modifies c
    ensures c.Data() == DeadlineChecked(old(c.Data()), now)
  {
    if c.nextOwnerAcceptDeadline.Some? && NanoToMs(now) > c.nextOwnerAcceptDeadline.value {
      c.nextOwnerId := None;
      c.nextOwnerAcceptDeadline := None;
    }
  }

  method GrantNextOwner(c: Contract, env: Env, nextOwnerId: AccountId) returns (r: Outcome)
    modifies c
    ensures Commits(old(c.Data()), c.Data(), r, AfterGrantNextOwner(old(c.Data()), env, nextOwnerId))
  {
    var saved := c.Data();
    if env.deposit != 1 { return Fail(RequiresOneYocto); }
    if env.caller != c.ownerId || c.ownerId == nextOwnerId { return Fail(E002NotAllowed); }
    CheckNextOwnerDeadline(c, env.now);
    if c.nextOwnerId.Some? {
      c.Restore(saved);
      return Fail(E002NotAllowed);
    }
    c.nextOwnerId := Some(nextOwnerId);
    c.nextOwnerAcceptDeadline := Some(NanoToMs(env.now) + AVAILABLE_MS_FOR_NEXT_OWNER_ACCEPT);
    r := Pass;
  }

  method AcceptNextOwner(c: Contract, env: Env) returns (r: Outcome)
    modifies c
    ensures Commits(old(c.Data()), c.Data(), r, AfterAcceptNextOwner(old(c.Data()), env))
  {
    var saved := c.Data();
    if env.deposit != 1 { return Fail(RequiresOneYocto); }
    CheckNextOwnerDeadline(c, env.now);
    if c.nextOwnerId != Some(env.caller) {
      c.Restore(saved);
      return Fail(E002NotAllowed);
    }
    if c.nextOwnerAcceptDeadline.None? {
      c.Restore(saved);
      return Fail(E008AlreadyAccepted);
    }
    c.nextOwnerAcceptDeadline := None;
    r := Pass;
  }

  method ConfirmNextOwner(c: Contract, env: Env) returns (r: Outcome)
    modifies c
    ensures Commits(old(c.Data()), c.Data(), r, AfterConfirmNextOwner(old(c.Data()), env))
  {
    var saved := c.Data();
    if env.deposit != 1 { return Fail(RequiresOneYocto); }
    if env.caller != c.ownerId { return Fail(E002NotAllowed); }
    CheckNextOwnerDeadline(c, env.now);
    if c.nextOwnerAcceptDeadline.Some? || c.nextOwnerId.None? {
      c.Restore(saved);
      return Fail(E002NotAllowed);
    }
    c.ownerId := c.nextOwnerId.value;
    c.nextOwnerId := None;
    r := Pass;
  }

  method CancelNextOwner(c: Contract, env: Env) returns (r: Outcome)
    modifies c
    ensures Commits(old(c.Data()), c.Data(), r, AfterCancelNextOwner(old(c.Data()), env))
  {
    var saved := c.Data();
    if env.deposit != 1 { return Fail(RequiresOneYocto); }
    if env.caller != c.ownerId { return Fail(E002NotAllowed); }
    CheckNextOwnerDeadline(c, env.now);
    if c.nextOwnerId.None? {
      c.Restore(saved);
      return Fail(E002NotAllowed);
    }
    c.nextOwnerId := None;
    c.nextOwnerAcceptDeadline := None;
    r := Pass;
  }

  method PauseContract(c: Contract, env: Env) returns (r: Outcome)
    modifies c
    ensures Commits(old(c.Data()), c.Data(), r, AfterPauseContract(old(c.Data()), env))
  {
    if env.deposit != 1 { return Fail(RequiresOneYocto); }
    if env.caller != c.ownerId { return Fail(E002NotAllowed); }
    if c.state == Running {
      c.state := Paused;
    }
    r := Pass;
  }

  method ResumeContract(c: Contract, env: Env) returns (r: Outcome)
    modifies c
    ensures Commits(old(c.Data()), c.Data(), r, AfterResumeContract(old(c.Data()), env))
  {
    if env.deposit != 1 { return Fail(RequiresOneYocto); }
    if env.caller != c.ownerId { return Fail(E002NotAllowed); }
    if c.state == Paused {
      c.state := Running;
    }
    r := Pass;
  }

  method ExtendOperators(c: Contract, env: Env, operators: seq<AccountId>) returns (r: Outcome)
    modifies c
    ensures Commits(old(c.Data()), c.Data(), r, AfterExtendOperators(old(c.Data()), env, operators))
  {
    if env.deposit != 1 { return Fail(RequiresOneYocto); }
    if env.caller != c.ownerId { return Fail(E002NotAllowed); }
    ghost var start := c.operators;
    for i := 0 to |operators|
      invariant c.Data() == old(c.Data()).(operators := start + set a | a in operators[..i])
    {
      assert operators[..i + 1] == operators[..i] + [operators[i]];
      c.operators := c.operators + {operators[i]};
    }
    assert operators[..|operators|] == operators;
    r := Pass;
  }

  method RemoveOperators(c: Contract, env: Env, operators: seq<AccountId>) returns (r: Outcome)
    modifies c
    ensures Commits(old(c.Data()), c.Data(), r, AfterRemoveOperators(old(c.Data()), env, operators))
  {
    var saved := c.Data();
    if env.deposit != 1 { return Fail(RequiresOneYocto); }
    if env.caller != c.ownerId { return Fail(E002NotAllowed); }
    for i := 0 to |operators|
      invariant c.Data() == saved.(operators := c.operators)
      invariant RemovedAll(saved.operators, operators) == RemovedAll(c.operators, operators[i..])
    {
      if operators[i] !in c.operators {
        c.Restore(saved);
        return Fail(E007InvalidOperator);
      }
      c.operators := c.operators - {operators[i]};
      assert operators[i..][1..] == operators[i + 1..];
    }
    r := Pass;
  }
}
