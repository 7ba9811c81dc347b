/** The staking event handlers: deposit, withdraw and delegate, which keep
    each user's own stake, the stake delegated to representatives, the
    Governance totals and the per-transaction logs.

    A handler loads the Governance record, the staker and the
    representative as separate copies, changes each copy, and saves them in
    a fixed order: the representative, then the staker, then Governance.
    When the representative's id is the staker's id, the staker's copy is
    saved last and its fields win. The staker itself is saved only at the
    end, so a staker created by this event is not yet in the store when its
    representative is looked up. */
module StakingMapping {
  import opened Schema
  import opened Initializers

  datatype Deposited = Deposited(curEpoch: nat, staker: Address, amount: nat)

  datatype Withdraw = Withdraw(curEpoch: nat, staker: Address, amount: nat)

  datatype Delegated = Delegated(staker: Address, representative: Address, epoch: nat, isDelegated: bool)

  // ---- Invariants over the store ----

  /** The sum of the users' own stakes. */
  ghost function SumStake(users: map<Address, User>): int
    decreases |users|
  {
    if users == map[] then 0
    else
      var a :| a in users;
      users[a].stake + SumStake(users - {a})
  }

  lemma {:induction false} SumStakeRemove(users: map<Address, User>, a: Address)
    requires a in users
    ensures SumStake(users) == users[a].stake + SumStake(users - {a})
    decreases |users|
  {
    var b :| b in users && SumStake(users) == users[b].stake + SumStake(users - {b});
    if b != a {
      SumStakeRemove(users - {b}, a);
      SumStakeRemove(users - {a}, b);
      assert users - {b} - {a} == users - {a} - {b};
    }
  }

  /** Saving a user changes the sum by the difference of its stakes. */
  lemma SumStakeUpdate(users: map<Address, User>, a: Address, u: User)
    ensures SumStake(users[a := u]) == SumStake(users) - (if a in users then users[a].stake else 0) + u.stake
  {
    SumStakeRemove(users[a := u], a);
    if a in users {
      SumStakeRemove(users, a);
      assert users[a := u] - {a} == users - {a};
    } else {
      assert users[a := u] - {a} == users;
    }
  }

  /** Saving a user adds one to the number of users exactly when it is new. */
  lemma SizeUpdate(users: map<Address, User>, a: Address, u: User)
    ensures |users[a := u]| == |users| + (if a in users then 0 else 1)
  {
    if a in users {
      assert users[a := u].Keys == users.Keys;
    } else {
      assert users[a := u].Keys == users.Keys + {a};
    }
  }

  /** The Governance total (zero before the record exists). */
  function TotalStaked(governance: Option<Governance>): int {
    if governance.Some? then governance.value.totalStaked else 0
  }

  /** Governance's running total is the sum of every user's own stake. */
  ghost predicate StakeLedger(governance: Option<Governance>, users: map<Address, User>) {
    TotalStaked(governance) == SumStake(users)
  }

  /** Governance counts one staker per stored user. */
  predicate StakerCount(governance: Option<Governance>, users: map<Address, User>) {
    if governance.Some? then governance.value.totalStaker == |users| else users == map[]
  }

  // ---- Deposit ----

  /** The users after a deposit: a distinct representative (created when
      absent) gains the amount as delegated stake, then the staker (created
      when absent, representing itself) gains it as own stake. */
  function DepositedUsers(s: Store, ev: Deposited): map<Address, User> {
    var staker := UserOrInit(s, ev.staker);
    var rep := staker.representative;
    var prior := UserOrInit(s, rep);
    var users := if rep != ev.staker then s.users[rep := prior.(delegatedStake := prior.delegatedStake + ev.amount)] else s.users;
    users[ev.staker := staker.(stake := staker.stake + ev.amount)]
  }

  /** Who a deposit credits: the staker's own stake, and the delegated stake
      of a distinct representative; every other user is untouched. */
  lemma DepositCredits(s: Store, ev: Deposited)
    ensures var staker := UserOrInit(s, ev.staker);
      var rep := staker.representative;
      var r := DepositedUsers(s, ev);
      && r.Keys == s.users.Keys + {ev.staker} + (if rep != ev.staker then {rep} else {})
      && r[ev.staker] == staker.(stake := staker.stake + ev.amount)
      && (rep != ev.staker ==>
            r[rep] == UserOrInit(s, rep).(delegatedStake := UserOrInit(s, rep).delegatedStake + ev.amount))
      && (forall a :: a in s.users && a != ev.staker && a != rep ==> r[a] == s.users[a])
  {
  }

  /** Governance after a deposit: the total gains the amount, and the staker
      count gains one per user the deposit creates. */
  function DepositedGovernance(s: Store, ev: Deposited, chain: StakingContract): Governance {
    var g := InitOrGetGovernance(s, chain);
    var rep := UserOrInit(s, ev.staker).representative;
    var created := (if ev.staker in s.users then 0 else 1) + (if rep != ev.staker && rep !in s.users then 1 else 0);
    g.(totalStaked := g.totalStaked + ev.amount, totalStaker := g.totalStaker + created)
  }

  method HandleDeposit(s: Store, ev: Deposited, env: Envelope, chain: StakingContract) returns (r: Store)
    ensures r.users == DepositedUsers(s, ev)
    ensures r.governance == Some(DepositedGovernance(s, ev, chain))
    ensures var t := TransactionOrNew(s.transactions, env);
      var id := EventId(env.txHash, |t.deposits|);
      && r.transactions == s.transactions[env.txHash := t.(deposits := t.deposits + [id])]
      && r.depositEvents == s.depositEvents[id := DepositEvent(ev.amount, ev.staker, env.timestamp, ev.curEpoch, env.txHash)]
    ensures GovernanceTablesKept(s, r) && r.withdrawEvents == s.withdrawEvents && r.delegateEvents == s.delegateEvents
  {
    var governance := InitOrGetGovernance(s, chain);
    governance := governance.(totalStaked := governance.totalStaked + ev.amount);

    var staker: User;
    if ev.staker in s.users {
      staker := s.users[ev.staker];
    } else {
      governance := governance.(totalStaker := governance.totalStaker + 1);
      staker := InitStaker(ev.staker);
    }

    var store := s;
    var transaction := TransactionOrNew(store.transactions, env);
    var depositId := EventId(env.txHash, |transaction.deposits|);
    store := SaveDepositEvent(store, depositId, DepositEvent(ev.amount, ev.staker, env.timestamp, ev.curEpoch, env.txHash));
    transaction := transaction.(deposits := transaction.deposits + [depositId]);
    store := SaveTransaction(store, env.txHash, transaction);

    staker := staker.(stake := staker.stake + ev.amount);
    if staker.representative != ev.staker {
      var representative: User;
      if staker.representative in store.users {
        representative := store.users[staker.representative];
      } else {
        governance := governance.(totalStaker := governance.totalStaker + 1);
        representative := InitStaker(staker.representative);
      }
      representative := representative.(delegatedStake := representative.delegatedStake + ev.amount);
      store := SaveUser(store, staker.representative, representative);
    }

    store := SaveUser(store, ev.staker, staker);
    store := SaveGovernance(store, governance);
    return store;
  }

  /** A deposit adds the amount both to the ledger's total and to the users' stakes. */
  lemma DepositKeepsLedger(s: Store, ev: Deposited, chain: StakingContract)
    ensures SumStake(DepositedUsers(s, ev)) == SumStake(s.users) + ev.amount
    ensures StakeLedger(s.governance, s.users) ==>
      StakeLedger(Some(DepositedGovernance(s, ev, chain)), DepositedUsers(s, ev))
  {
    var staker := UserOrInit(s, ev.staker);
    var rep := staker.representative;
    var prior := UserOrInit(s, rep);
    var users := if rep != ev.staker then s.users[rep := prior.(delegatedStake := prior.delegatedStake + ev.amount)] else s.users;
    if rep != ev.staker {
      SumStakeUpdate(s.users, rep, prior.(delegatedStake := prior.delegatedStake + ev.amount));
    }
    SumStakeUpdate(users, ev.staker, staker.(stake := staker.stake + ev.amount));
  }

  /** A deposit counts each user it creates exactly once. */
  lemma DepositKeepsStakerCount(s: Store, ev: Deposited, chain: StakingContract)
    ensures StakerCount(s.governance, s.users) ==>
      StakerCount(Some(DepositedGovernance(s, ev, chain)), DepositedUsers(s, ev))
  {
    var staker := UserOrInit(s, ev.staker);
    var rep := staker.representative;
    var prior := UserOrInit(s, rep);
    var users := if rep != ev.staker then s.users[rep := prior.(delegatedStake := prior.delegatedStake + ev.amount)] else s.users;
    if rep != ev.staker {
      SizeUpdate(s.users, rep, prior.(delegatedStake := prior.delegatedStake + ev.amount));
    }
    SizeUpdate(users, ev.staker, staker.(stake := staker.stake + ev.amount));
  }

  // ---- Withdraw ----

  /** A withdrawal goes through when the staker exists and so does a
      distinct representative of it. */
  predicate Withdrawable(s: Store, ev: Withdraw) {
    ev.staker in s.users &&
    (s.users[ev.staker].representative == ev.staker || s.users[ev.staker].representative in s.users)
  }

  /** The users after a withdrawal: a distinct representative loses the
      amount from its delegated stake, then the staker loses it from its own
      stake. Nothing checks that either stays non-negative. */
  function WithdrawnUsers(s: Store, ev: Withdraw): map<Address, User>
    requires Withdrawable(s, ev)
  {
    var staker := s.users[ev.staker];
    var rep := staker.representative;
    var users := if rep != ev.staker then s.users[rep := s.users[rep].(delegatedStake := s.users[rep].delegatedStake - ev.amount)] else s.users;
    users[ev.staker := staker.(stake := staker.stake - ev.amount)]
  }

  /** Who a withdrawal debits; no user is created and every other user is untouched. */
  lemma WithdrawDebits(s: Store, ev: Withdraw)
    requires Withdrawable(s, ev)
    ensures var staker := s.users[ev.staker];
      var rep := staker.representative;
      var r := WithdrawnUsers(s, ev);
      && r.Keys == s.users.Keys
      && r[ev.staker] == staker.(stake := staker.stake - ev.amount)
      && (rep != ev.staker ==> r[rep] == s.users[rep].(delegatedStake := s.users[rep].delegatedStake - ev.amount))
      && (forall a :: a in s.users && a != ev.staker && a != rep ==> r[a] == s.users[a])
  {
  }

  /** Governance after a withdrawal: the total loses the amount; the staker count is unchanged. */
  function WithdrawnGovernance(s: Store, ev: Withdraw, chain: StakingContract): Governance {
    var g := InitOrGetGovernance(s, chain);
    g.(totalStaked := g.totalStaked - ev.amount)
  }

  method HandleWithdraw(s: Store, ev: Withdraw, env: Envelope, chain: StakingContract) returns (r: Result<Store>)
    ensures r.Ok? <==> Withdrawable(s, ev)
    ensures ev.staker !in s.users ==> r == Err(UserNotInit(ev.staker))
    ensures ev.staker in s.users && r.Err? ==> r == Err(RepresentativeNotInit(s.users[ev.staker].representative))
    ensures r.Ok? ==> r.value.users == WithdrawnUsers(s, ev)
    ensures r.Ok? ==> r.value.governance == Some(WithdrawnGovernance(s, ev, chain))
    ensures r.Ok? ==>
      var t := TransactionOrNew(s.transactions, env);
      var id := EventId(env.txHash, |t.withdraws|);
      && r.value.transactions == s.transactions[env.txHash := t.(withdraws := t.withdraws + [id])]
      && r.value.withdrawEvents == s.withdrawEvents[id := WithdrawEvent(ev.amount, ev.staker, env.timestamp, ev.curEpoch, env.txHash)]
    ensures r.Ok? ==>
      GovernanceTablesKept(s, r.value) && r.value.depositEvents == s.depositEvents &&
      r.value.delegateEvents == s.delegateEvents
  {
    var governance := InitOrGetGovernance(s, chain);
    governance := governance.(totalStaked := governance.totalStaked - ev.amount);

    if ev.staker !in s.users {
      return Err(UserNotInit(ev.staker));
    }
    var staker := s.users[ev.staker];

    var store := s;
    var transaction := TransactionOrNew(store.transactions, env);
    var withdrawId := EventId(env.txHash, |transaction.withdraws|);
    store := SaveWithdrawEvent(store, withdrawId, WithdrawEvent(ev.amount, ev.staker, env.timestamp, ev.curEpoch, env.txHash));
    transaction := transaction.(withdraws := transaction.withdraws + [withdrawId]);
    store := SaveTransaction(store, env.txHash, transaction);

    staker := staker.(stake := staker.stake - ev.amount);
    if staker.representative != ev.staker {
      if staker.representative !in store.users {
        return Err(RepresentativeNotInit(staker.representative));
      }
      var representative := store.users[staker.representative];
      representative := representative.(delegatedStake := representative.delegatedStake - ev.amount);
      store := SaveUser(store, staker.representative, representative);
    }

    store := SaveUser(store, ev.staker, staker);
    store := SaveGovernance(store, governance);
    return Ok(store);
  }

  /** A withdrawal removes the amount both from the ledger's total and from the users' stakes. */
  lemma WithdrawKeepsLedger(s: Store, ev: Withdraw, chain: StakingContract)
    requires Withdrawable(s, ev)
    ensures SumStake(WithdrawnUsers(s, ev)) == SumStake(s.users) - ev.amount
    ensures StakeLedger(s.governance, s.users) ==>
      StakeLedger(Some(WithdrawnGovernance(s, ev, chain)), WithdrawnUsers(s, ev))
  {
    var staker := s.users[ev.staker];
    var rep := staker.representative;
    if rep != ev.staker {
      var debited := s.users[rep].(delegatedStake := s.users[rep].delegatedStake - ev.amount);
      SumStakeUpdate(s.users, rep, debited);
      SumStakeUpdate(s.users[rep := debited], ev.staker, staker.(stake := staker.stake - ev.amount));
    } else {
      SumStakeUpdate(s.users, ev.staker, staker.(stake := staker.stake - ev.amount));
    }
  }

  /** A withdrawal creates no user and counts none. */
  lemma WithdrawKeepsStakerCount(s: Store, ev: Withdraw, chain: StakingContract)
    requires Withdrawable(s, ev)
    ensures StakerCount(s.governance, s.users) ==>
      StakerCount(Some(WithdrawnGovernance(s, ev, chain)), WithdrawnUsers(s, ev))
  {
    WithdrawDebits(s, ev);
    assert WithdrawnUsers(s, ev).Keys == s.users.Keys;
  }

  // ---- Delegate ----

  /** The delegated stake moved by a delegate event: the staker's own stake,
      credited when delegating and debited when undelegating. */
  function DelegationShift(staker: User, isDelegated: bool): int {
    if isDelegated then staker.stake else -staker.stake
  }

  /** The users after a delegate event. The representative record is loaded
      under the staker's PREVIOUS representative and shifted, then the staker
      is saved, with its new representative when delegating; when the
      previous representative is the staker itself, the staker's save
      overwrites the shifted record. */
  function DelegatedUsers(s: Store, ev: Delegated): map<Address, User> {
    var staker := UserOrInit(s, ev.staker);
    var rep := staker.representative;
    var prior := UserOrInit(s, rep);
    var saved := if ev.isDelegated then staker.(representative := ev.representative) else staker;
    s.users[rep := prior.(delegatedStake := prior.delegatedStake + DelegationShift(staker, ev.isDelegated))][ev.staker := saved]
  }

  /** What a delegate event changes: the staker's representative, and the
      delegated stake of the PREVIOUS representative. */
  lemma DelegateMovesStake(s: Store, ev: Delegated)
    ensures var staker := UserOrInit(s, ev.staker);
      var rep := staker.representative;
      var prior := UserOrInit(s, rep);
      var r := DelegatedUsers(s, ev);
      && r.Keys == s.users.Keys + {ev.staker, rep}
      // the staker's own fields survive: only its representative may change
      && r[ev.staker] == (if ev.isDelegated then staker.(representative := ev.representative) else staker)
      // delegating credits, and undelegating debits, the previous representative
      && (rep != ev.staker ==>
            r[rep] == prior.(delegatedStake := prior.delegatedStake + DelegationShift(staker, ev.isDelegated)))
      && (forall a :: a in s.users && a != ev.staker && a != rep ==> r[a] == s.users[a])
  {
  }

  /** Governance after a delegate event: the staker count gains one for a new
      staker and one for a representative record that was absent. A new
      staker is its own representative and is not yet stored when that
      record is looked up, so it is counted twice. */
  function DelegatedGovernance(s: Store, ev: Delegated, chain: StakingContract): Governance {
    var g := InitOrGetGovernance(s, chain);
    var rep := UserOrInit(s, ev.staker).representative;
    var created := (if ev.staker in s.users then 0 else 1) + (if rep in s.users then 0 else 1);
    g.(totalStaker := g.totalStaker + created)
  }

  method HandleDelegate(s: Store, ev: Delegated, env: Envelope, chain: StakingContract) returns (r: Store)
    ensures r.users == DelegatedUsers(s, ev)
    ensures r.governance == Some(DelegatedGovernance(s, ev, chain))
    ensures var t := TransactionOrNew(s.transactions, env);
      var id := EventId(env.txHash, |t.delegates|);
      && r.transactions == s.transactions[env.txHash := t.(delegates := t.delegates + [id])]
      && r.delegateEvents == s.delegateEvents[id := DelegateEvent(ev.representative, ev.staker, env.timestamp, ev.epoch, env.txHash)]
    ensures GovernanceTablesKept(s, r) && r.depositEvents == s.depositEvents && r.withdrawEvents == s.withdrawEvents
  {
    var governance := InitOrGetGovernance(s, chain);

    var staker: User;
    if ev.staker in s.users {
      staker := s.users[ev.staker];
    } else {
      governance := governance.(totalStaker := governance.totalStaker + 1);
      staker := InitStaker(ev.staker);
    }

    var store := s;
    var transaction := TransactionOrNew(store.transactions, env);
    var delegateId := EventId(env.txHash, |transaction.delegates|);
    store := SaveDelegateEvent(store, delegateId, DelegateEvent(ev.representative, ev.staker, env.timestamp, ev.epoch, env.txHash));
    transaction := transaction.(delegates := transaction.delegates + [delegateId]);
    store := SaveTransaction(store, env.txHash, transaction);

    // both branches of the source load the same record in the same way
    var repId := staker.representative;
    var representative: User;
    if repId in store.users {
      representative := store.users[repId];
    } else {
      governance := governance.(totalStaker := governance.totalStaker + 1);
      representative := InitStaker(repId);
    }
    if ev.isDelegated {
      staker := staker.(representative := ev.representative);
      representative := representative.(delegatedStake := representative.delegatedStake + staker.stake);
    } else {
      representative := representative.(delegatedStake := representative.delegatedStake - staker.stake);
    }
    store := SaveUser(store, repId, representative);

    store := SaveUser(store, ev.staker, staker);
    store := SaveGovernance(store, governance);
    return store;
  }

  /** Delegated stake is not own stake: the users' stakes are unchanged. */
  lemma DelegateKeepsLedger(s: Store, ev: Delegated, chain: StakingContract)
    ensures SumStake(DelegatedUsers(s, ev)) == SumStake(s.users)
    ensures StakeLedger(s.governance, s.users) ==>
      StakeLedger(Some(DelegatedGovernance(s, ev, chain)), DelegatedUsers(s, ev))
  {
    var staker := UserOrInit(s, ev.staker);
    var rep := staker.representative;
    var prior := UserOrInit(s, rep);
    var shifted := prior.(delegatedStake := prior.delegatedStake + DelegationShift(staker, ev.isDelegated));
    var saved := if ev.isDelegated then staker.(representative := ev.representative) else staker;
    SumStakeUpdate(s.users, rep, shifted);
    SumStakeUpdate(s.users[rep := shifted], ev.staker, saved);
  }

  /** The staker count after a delegate event: exact when the staker existed,
      one too many when the event created it. */
  lemma DelegateStakerCount(s: Store, ev: Delegated, chain: StakingContract)
    ensures StakerCount(s.governance, s.users) && ev.staker in s.users ==>
      StakerCount(Some(DelegatedGovernance(s, ev, chain)), DelegatedUsers(s, ev))
    ensures StakerCount(s.governance, s.users) && ev.staker !in s.users ==>
      DelegatedGovernance(s, ev, chain).totalStaker == |DelegatedUsers(s, ev)| + 1
  {
    var staker := UserOrInit(s, ev.staker);
    var rep := staker.representative;
    var prior := UserOrInit(s, rep);
    var shifted := prior.(delegatedStake := prior.delegatedStake + DelegationShift(staker, ev.isDelegated));
    var saved := if ev.isDelegated then staker.(representative := ev.representative) else staker;
    SizeUpdate(s.users, rep, shifted);
    SizeUpdate(s.users[rep := shifted], ev.staker, saved);
  }

  /** A self-represented staker that delegates is credited nothing, and its
      new representative is not created: the credit goes to the staker's
      own record, which the staker's later save overwrites. */
  lemma SelfDelegationCreditIsLost(s: Store, ev: Delegated)
    requires ev.staker in s.users && s.users[ev.staker].representative == ev.staker
    requires ev.isDelegated && ev.representative != ev.staker && ev.representative !in s.users
    ensures DelegatedUsers(s, ev)[ev.staker] == s.users[ev.staker].(representative := ev.representative)
    ensures ev.representative !in DelegatedUsers(s, ev)
    ensures DelegatedUsers(s, ev).Keys == s.users.Keys
  {
    DelegateMovesStake(s, ev);
  }

  /** A deposit of 50 by a new staker S, then S delegating to R, then a
      withdrawal of 20 by S: the withdrawal aborts, because the delegation
      never created R. */
  method DepositDelegateWithdrawAborts(env: Envelope, chain: StakingContract) returns (r: Result<Store>)
    ensures r == Err(RepresentativeNotInit("R"))
  {
    var deposited := HandleDeposit(EmptyStore, Deposited(0, "S", 50), env, chain);
    assert deposited.users == map["S" := User("S", 50, 0)];
    var delegated := HandleDelegate(deposited, Delegated("S", "R", 0, true), env, chain);
    SelfDelegationCreditIsLost(deposited, Delegated("S", "R", 0, true));
    r := HandleWithdraw(delegated, Withdraw(0, "S", 20), env, chain);
  }

  /** Delegating S from O to R and then undelegating S from R, as two
      delegate events: O keeps the 50 it was credited and R is left at -50,
      so the pair does not cancel. */
  lemma DelegateRoundTripDrifts(s: Store)
    requires s.users == map["S" := User("O", 50, 0), "O" := User("O", 0, 0), "R" := User("R", 0, 0)]
    ensures var s1 := s.(users := DelegatedUsers(s, Delegated("S", "R", 0, true)));
      var u := DelegatedUsers(s1, Delegated("S", "R", 0, false));
      u["O"].delegatedStake == 50 && u["R"].delegatedStake == -50
  {
    var d1 := DelegatedUsers(s, Delegated("S", "R", 0, true));
    assert d1 == map["S" := User("R", 50, 0), "O" := User("O", 0, 50), "R" := User("R", 0, 0)];
  }

  // ---- Delegation as evidently intended ----

  /** The users after a delegate event that moves stake to or from the
      event's representative: delegating credits it (creating it when
      absent) and makes it the staker's representative; undelegating debits
      it and makes the staker represent itself again. A staker naming itself
      moves no delegated stake. */
  function IntendedDelegatedUsers(s: Store, ev: Delegated): map<Address, User> {
    var staker := UserOrInit(s, ev.staker);
    var saved := staker.(representative := if ev.isDelegated then ev.representative else ev.staker);
    if ev.representative == ev.staker then s.users[ev.staker := saved]
    else
      var prior := UserOrInit(s, ev.representative);
      s.users[ev.representative := prior.(delegatedStake := prior.delegatedStake + DelegationShift(staker, ev.isDelegated))]
             [ev.staker := saved]
  }

  /** Governance after the intended delegate event: the staker is counted
      when new, and the representative only when it is a distinct user that
      was absent. */
  function IntendedDelegatedGovernance(s: Store, ev: Delegated, chain: StakingContract): Governance {
    var g := InitOrGetGovernance(s, chain);
    var created := (if ev.staker in s.users then 0 else 1) +
                   (if ev.representative != ev.staker && ev.representative !in s.users then 1 else 0);
    g.(totalStaker := g.totalStaker + created)
  }

  /** The intended delegate event counts each user it creates exactly once. */
  lemma IntendedDelegateKeepsStakerCount(s: Store, ev: Delegated, chain: StakingContract)
    ensures StakerCount(s.governance, s.users) ==>
      StakerCount(Some(IntendedDelegatedGovernance(s, ev, chain)), IntendedDelegatedUsers(s, ev))
  {
    var staker := UserOrInit(s, ev.staker);
    var saved := staker.(representative := if ev.isDelegated then ev.representative else ev.staker);
    if ev.representative == ev.staker {
      SizeUpdate(s.users, ev.staker, saved);
    } else {
      var prior := UserOrInit(s, ev.representative);
      var shifted := prior.(delegatedStake := prior.delegatedStake + DelegationShift(staker, ev.isDelegated));
      SizeUpdate(s.users, ev.representative, shifted);
      SizeUpdate(s.users[ev.representative := shifted], ev.staker, saved);
    }
  }

  /** The intended delegate event moves no own stake. */
  lemma IntendedDelegateKeepsLedger(s: Store, ev: Delegated, chain: StakingContract)
    ensures SumStake(IntendedDelegatedUsers(s, ev)) == SumStake(s.users)
    ensures StakeLedger(s.governance, s.users) ==>
      StakeLedger(Some(IntendedDelegatedGovernance(s, ev, chain)), IntendedDelegatedUsers(s, ev))
  {
    var staker := UserOrInit(s, ev.staker);
    var saved := staker.(representative := if ev.isDelegated then ev.representative else ev.staker);
    if ev.representative == ev.staker {
      SumStakeUpdate(s.users, ev.staker, saved);
    } else {
      var prior := UserOrInit(s, ev.representative);
      var shifted := prior.(delegatedStake := prior.delegatedStake + DelegationShift(staker, ev.isDelegated));
      SumStakeUpdate(s.users, ev.representative, shifted);
      SumStakeUpdate(s.users[ev.representative := shifted], ev.staker, saved);
    }
  }

  /** Under the intended semantics, a self-represented staker delegating to R
      and then undelegating from R restores every user; the only trace is R's
      record, created with nothing delegated if it was absent. */
  lemma IntendedDelegateRoundTrip(s: Store, ev: Delegated)
    requires ev.staker in s.users && s.users[ev.staker].representative == ev.staker
    requires ev.isDelegated && ev.representative != ev.staker
    ensures var s1 := s.(users := IntendedDelegatedUsers(s, ev));
      IntendedDelegatedUsers(s1, ev.(isDelegated := false)) ==
        s.users[ev.representative := UserOrInit(s, ev.representative)]
  {
    var staker := s.users[ev.staker];
    var prior := UserOrInit(s, ev.representative);
    var s1 := s.(users := IntendedDelegatedUsers(s, ev));
    assert s1.users[ev.staker] == staker.(representative := ev.representative);
    assert s1.users[ev.representative] == prior.(delegatedStake := prior.delegatedStake + staker.stake);
    assert s.users[ev.staker := staker] == s.users;
  }
}
