# KyberDAO governance subgraph — a Dafny model of the event handlers

The KyberDAO v2 governance subgraph folds the events of the KyberGovernance
and KyberStaking contracts into keyed records:
- proposals with their option tallies;
- votes, keyed by (proposal id, voter);
- executors;
- stakers and representatives;
- per-transaction logs of deposits, withdrawals, delegations and votes;
- one Governance record with the staking totals.

This project models each event handler as a Dafny method. The method takes
the store before the event and returns the store after it. A handler that
can abort (a `log.critical` call or an array-bounds trap) returns an
`Abort` instead, and its writes are then discarded.

Inside a handler the model follows the source step by step:
- records are loaded as copies and changed one field at a time;
- the `Save…` methods of `Schema` write them back in the source's order;
- the new tally array is built by loops that append, as the source's `push` loops do.

Files:
- `schema.dfy` (module `Schema`) holds the entities, the store and the per-table saves.
- `initializers.dfy` (module `Initializers`) holds the lookup helpers: get-or-create and load-or-abort.
- `tally.dfy` (module `Tally`) holds:
  - the bitmask reading;
  - reference definitions of the two tally loops;
  - a corrected tally (one entry per option) and its per-option property.
- `governance.dfy` (module `GovernanceMapping`) holds the governance handlers.
- `staking.dfy` (module `StakingMapping`) holds the staking handlers.

A bit of a vote mask is read as in the source: option `i` is selected when
`(mask div 2^i) mod 2 == 1`. The exponent goes through the source's `i as u8`
cast, so option `i` is actually tested with `2^(i mod 256)`. The model keeps
that wrap-around as `i % 256` and does not require at most 256 options.

Each staking handler is tied to a specification function of the store
before the event: `DepositedUsers`, `WithdrawnUsers`, `DelegatedUsers` and
their Governance counterparts. Lemmas over those functions state the
ledger facts:
- `StakeLedger`: the Governance `totalStaked` is the sum of the users' own stakes;
- `StakerCount`: `totalStaker` is the number of stored users.

Deposit and withdraw preserve both facts. Delegate preserves the ledger.
It preserves the count only for a staker that already existed.

## What the code does that the obvious intent does not

Each item below has two halves in the model. The first is a member that
shows what the code as written does. The second is a definition of the
evident intent, with its property proved.

- **The tally shrinks.** A vote appends an entry only for options whose bit
  changed (`src/mapping/governance.ts:131-135`). A power change appends only
  for options the mask selects (`src/mapping/governance.ts:203-210`). The
  tally therefore loses its alignment with the options.
  - As written: on a binary proposal, a first "Yes" vote leaves `[power]` (`FirstBinaryVoteShrinksTally`).
  - As written: switching that vote to "No" reads past the end of the array, and the handler traps (`SwitchingAfterShrinkTraps`).
  - As written: `VoteTallyAlignment` and `PowerTallyAlignment` say exactly when the length is preserved.
  - Intended: `CorrectedVoteTally` and `CorrectedPowerTally` keep every index. For them, entry i is the total power of the voters selecting option i (`CorrectedFirstVoteKeepsTotals`, `CorrectedRevoteKeepsTotals`, `CorrectedPowerChangeKeepsTotals`).
- **A Generic proposal starts with an empty tally.** The creation loop
  pushes a zero per option onto the list the entity getter returns
  (`src/mapping/governance.ts:52-55`). That getter builds a new array from
  the stored value. The zeros are therefore lost, and the stored tally is the
  `[]` assigned at line 52.
  - As written: `GenericFirstVoteTraps` shows that the proposal's first vote selecting any option traps.
  - Intended: `ZeroCounts` builds one zero per option, and `AlignedTallyNeverTraps` shows that such a tally never traps.
- **Delegation credits the previous representative.** The representative
  record is loaded under the staker's representative before the event
  (`src/mapping/staking.ts:140-146`).
  - As written: for a staker that represents itself, the credit lands on its own record, and the staker's later save overwrites it (`SelfDelegationCreditIsLost`).
  - As written: a deposit, then a delegation, then a withdrawal makes the withdrawal abort (`DepositDelegateWithdrawAborts`).
  - As written: delegating from O to R and then undelegating from R leaves O credited and R negative (`DelegateRoundTripDrifts`).
  - Intended: `IntendedDelegatedUsers` moves stake to and from the event's representative. `IntendedDelegateRoundTrip` shows that, for a staker that represents itself, delegating to R and then undelegating from R restores every user; R is at most created empty.
- **A new staker in a delegate event is counted twice.** The staker is only
  saved at the end (`src/mapping/staking.ts:108-113`, `:140-143`), so its own
  id is missing when it is looked up as its representative.
  - As written: `DelegateStakerCount` shows the count ending one too high.
  - Intended: `IntendedDelegatedGovernance` counts each created user once, and `IntendedDelegateKeepsStakerCount` shows that it preserves the count.

Unlike VoteEmitted, VotingPowerChanged sets neither `state := Active` nor the
last-update fields (`src/mapping/governance.ts:196-213`). With zero options
its loop body never runs, so the tally is kept as it was.

## Model

| member | source | states |
|---|---|---|
| GovernanceMapping.HandleBinaryProposalCreated | src/mapping/governance.ts:19-44 | the proposal under the id becomes Binary with options [YES, NO], a [0, 0] tally, zero totals, Pending state, the event's payload and block, keeping any earlier queueing/execution data; every other proposal and table is unchanged |
| GovernanceMapping.HandleGenericProposalCreated | src/mapping/governance.ts:46-74 | the proposal becomes Generic with the event's options, zero totals, Pending state and empty call lists; its stored tally is empty, because the zeros are pushed onto the getter's copy; existing proposals with that id are overwritten; nothing else changes |
| GovernanceMapping.GenericFirstVoteTraps | src/mapping/governance.ts:52-55 | after Generic creation, a first vote that selects any option aborts with the out-of-range trap |
| Tally.EmptyTallyTraps | src/mapping/governance.ts:131-134 | a first vote against an empty tally traps when it selects an option below the option count |
| Tally.ZeroCounts | src/mapping/governance.ts:52-55 | the intended initial tally: exactly one 0 per option |
| Tally.AlignedTallyNeverTraps | src/mapping/governance.ts:116-136 | a tally with one entry per option never traps on a vote |
| GovernanceMapping.HandleProposalQueued | src/mapping/governance.ts:76-84 | aborts with InvalidProposalId exactly when the proposal is absent; otherwise sets Queued, the execution time and the queueing initiator, whatever the prior state, and keeps the tally, totals and every other table |
| GovernanceMapping.HandleProposalExecuted | src/mapping/governance.ts:86-93 | aborts exactly when the proposal is absent; otherwise sets Executed and the execution initiator and keeps the tally, totals, execution time and other tables |
| GovernanceMapping.HandleProposalCanceled | src/mapping/governance.ts:95-101 | aborts exactly when the proposal is absent; otherwise sets Canceled and the last-update block and time, and changes nothing else |
| GovernanceMapping.CountVote | src/mapping/governance.ts:107-140 | a new voter adds its power to totalVotes and 1 to totalAddresses, and a returning voter adds nothing; the tally becomes VoteTally and is [] for an unchanged mask; the state becomes Active; it aborts exactly when VoteTally does |
| Schema.TransactionOrNew | src/mapping/governance.ts:151-160 | the stored transaction under the hash, or a new one stamped with the event's block and four empty lists; the same load-or-create is at src/mapping/staking.ts:18-27, 67-76 and 115-124 |
| GovernanceMapping.LogVote | src/mapping/governance.ts:150-172 | one VoteEvent with id (txHash, prior length of the vote list) is stored and appended to the transaction's vote list; the transaction is created with four empty lists when absent; its other lists and all other tables are unchanged |
| GovernanceMapping.HandleVoteEmitted | src/mapping/governance.ts:103-173 | aborts exactly when the proposal is absent (InvalidProposalId) or the tally reads past the end (VoteCountIndexOutOfRange); otherwise the proposal is updated as CountVote says, the vote is upserted with the event's mask, power and time, and the vote log grows by one row; executors and staking tables are unchanged |
| Tally.VoteEmittedCounts | src/mapping/governance.ts:116-136 | the push loop computes VoteTally: one entry per changed option in index order, old + power for a newly set bit and old − power for a cleared one, or the trap when an old entry is missing |
| Tally.BitAtIsQuotientParity | src/mapping/governance.ts:120-129 | reading bit e by repeated halving agrees with `(mask div 2^e) mod 2 == 1` |
| Tally.ChangedBitsMembership | src/mapping/governance.ts:119-135 | an option appears in the changed list iff it is below the option count and its bit differs between the two masks |
| Tally.ChangedBitsIncreasing | src/mapping/governance.ts:119-135 | the changed options come in increasing index order |
| Tally.ChangedBitsFull | src/mapping/governance.ts:119-135 | the changed list has one entry per option iff every option's bit flips |
| Tally.SameMaskChangesNothing | src/mapping/governance.ts:131-135 | no option changes between a mask and itself |
| Tally.SetBitsMembership | src/mapping/governance.ts:201-210 | an option is in the selected list iff it is below the option count and selected by the mask |
| Tally.RevoteWithSameMaskEmptiesTally | src/mapping/governance.ts:131-137 | re-voting with the stored mask turns the tally into [] |
| Tally.VoteTallyAbortsIff | src/mapping/governance.ts:132-134 | the vote tally traps iff some changed option has no old entry |
| Tally.VoteTallyAlignment | src/mapping/governance.ts:116-137 | the new tally has one entry per changed option, and one per option iff every bit flips |
| Tally.FirstBinaryVoteShrinksTally | src/mapping/governance.ts:116-137 | a first Yes-only vote on [0, 0] yields [power] |
| Tally.SwitchingAfterShrinkTraps | src/mapping/governance.ts:131-134 | switching from Yes to No on the shrunk tally traps |
| Tally.PowerChangedCounts | src/mapping/governance.ts:199-212 | the loop computes PowerTally: with no options the tally is kept; otherwise one entry per selected option, shifted by new − old, or the trap |
| Tally.PowerTallyAlignment | src/mapping/governance.ts:199-212 | after a power change the tally has one entry per selected option, and one per option iff the mask selects every option |
| GovernanceMapping.HandleVotingPowerChanged | src/mapping/governance.ts:196-219 | aborts exactly when the proposal is absent, the tally traps or the vote is absent, with InvalidProposalId, VoteCountIndexOutOfRange or InvalidVoteId in that order; otherwise totalVotes becomes totalVotes + new − old, the tally becomes PowerTally, state and last update stay, and the vote takes the new power and keeps its mask |
| GovernanceMapping.HandleExecutorAuthorized | src/mapping/governance.ts:175-186 | the executor ends up authorised; its authorisation block and time are set only when it is created; nothing else changes |
| GovernanceMapping.HandleExecutorUnauthorized | src/mapping/governance.ts:188-194 | an absent executor leaves the store unchanged; an existing one only loses its authorisation |
| Tally.CorrectedVoteTally | src/mapping/governance.ts:116-137 | the corrected vote tally keeps one entry per option |
| Tally.CorrectedPowerTally | src/mapping/governance.ts:199-212 | the corrected power tally keeps one entry per option |
| Tally.VoteTallyRestrictsCorrected | src/mapping/governance.ts:116-137 | the handler's tally is the corrected tally restricted to the changed options, when the earlier power equals the event's |
| Tally.CorrectedFirstVoteKeepsTotals | src/mapping/governance.ts:108-137 | under the corrected tally a first vote keeps each entry equal to the total power of the voters selecting that option |
| Tally.CorrectedRevoteKeepsTotals | src/mapping/governance.ts:112-137 | under the corrected tally a changed vote keeps each entry equal to its option's total |
| Tally.CorrectedPowerChangeKeepsTotals | src/mapping/governance.ts:196-212 | under the corrected power tally a power change keeps each entry equal to its option's total |
| StakingMapping.HandleDeposit | src/mapping/staking.ts:7-55 | the users become DepositedUsers and Governance becomes DepositedGovernance (created when absent); one deposit row is logged and appended to the transaction's deposit list; the governance tables are unchanged |
| StakingMapping.DepositCredits | src/mapping/staking.ts:11-15 | a deposit credits the staker's own stake and a distinct representative's delegated stake, creating either when absent, and touches no other user |
| StakingMapping.DepositKeepsLedger | src/mapping/staking.ts:9 | the users' stakes and totalStaked both grow by the amount, so the ledger is preserved |
| StakingMapping.DepositKeepsStakerCount | src/mapping/staking.ts:12-15 | each user the deposit creates is counted once, so totalStaker stays the number of users |
| StakingMapping.HandleWithdraw | src/mapping/staking.ts:57-103 | aborts with UserNotInit when the staker is absent and with RepresentativeNotInit when its distinct representative is absent; otherwise the users become WithdrawnUsers, totalStaked drops by the amount, and one withdraw row is logged |
| StakingMapping.WithdrawDebits | src/mapping/staking.ts:90-101 | a withdrawal debits the staker's stake and a distinct representative's delegated stake, with no non-negativity check, and creates no user |
| StakingMapping.WithdrawKeepsLedger | src/mapping/staking.ts:60 | the users' stakes and totalStaked both drop by the amount, so the ledger is preserved |
| StakingMapping.WithdrawKeepsStakerCount | src/mapping/staking.ts:57-103 | a withdrawal keeps totalStaker equal to the number of users |
| StakingMapping.HandleDelegate | src/mapping/staking.ts:105-160 | the users become DelegatedUsers and Governance becomes DelegatedGovernance; one delegate row is logged and appended to the transaction's delegate list; the governance tables are unchanged |
| StakingMapping.DelegateMovesStake | src/mapping/staking.ts:138-158 | delegating sets the staker's representative and adds its stake to the previous representative; undelegating subtracts it from the current one; no other user changes |
| StakingMapping.DelegateKeepsLedger | src/mapping/staking.ts:105-160 | a delegate event leaves the sum of own stakes and totalStaked unchanged |
| StakingMapping.DelegateStakerCount | src/mapping/staking.ts:108-113 | totalStaker stays exact for an existing staker and ends one too high for a staker the event creates |
| StakingMapping.SelfDelegationCreditIsLost | src/mapping/staking.ts:139-158 | a self-represented staker that delegates to an unknown R only changes its representative field, and R is not created |
| StakingMapping.DepositDelegateWithdrawAborts | src/mapping/staking.ts:92-96 | deposit 50 by S, then delegate S to R, then withdraw 20 by S aborts with RepresentativeNotInit(R) |
| StakingMapping.DelegateRoundTripDrifts | src/mapping/staking.ts:139-156 | delegating S (stake 50, representative O) to R and then undelegating from R leaves O with 50 and R with −50 delegated |
| StakingMapping.IntendedDelegateRoundTrip | src/mapping/staking.ts:139-156 | with stake moved to and from the event's representative, delegating a self-represented staker to R and undelegating restores every user (R is at most created empty) |
| StakingMapping.IntendedDelegateKeepsStakerCount | src/mapping/staking.ts:108-113 | counting the staker before its representative is looked up keeps totalStaker equal to the number of users |
| StakingMapping.IntendedDelegateKeepsLedger | src/mapping/staking.ts:105-160 | the intended delegate event leaves the own-stake sum and totalStaked unchanged |
| Initializers.NewProposal | src/helpers/initializers.ts:10 | a new proposal has no execution time and no queueing or execution initiators |
| Initializers.GetOrInitProposal | src/helpers/initializers.ts:7-13 | the stored proposal when present, otherwise a new one |
| Initializers.GetProposal | src/helpers/initializers.ts:15-21 | aborts with InvalidProposalId exactly when the id is absent; otherwise the stored record |
| Initializers.GetVote | src/helpers/initializers.ts:23-29 | aborts with InvalidVoteId exactly when the key is absent; otherwise the stored record |
| Initializers.InitOrGetGovernance | src/helpers/initializers.ts:31-42 | an existing record unchanged; otherwise zero totals and the contract's epoch period and start time |
| Initializers.InitStaker | src/helpers/initializers.ts:44-51 | a new staker represents itself and holds no stake, own or delegated |
| Initializers.UserOrInit | src/mapping/staking.ts:11-15 | the stored user when present, otherwise a new self-represented staker |

## Left out

- The graph-node entity store is modelled as a value, a record of finite maps. Writes are applied to the handler's own copy of the store, and an aborted handler returns no store at all. This matches graph-node discarding a failed handler's writes. Aliasing of entity objects inside one handler does not arise, because every load yields a copy.
- Entity ids are structured: a proposal id is a `nat`, a vote key a (proposal, voter) pair, and a log row id a (txHash, index) pair. The source builds them as strings by concatenation; that string form is left out.
- Addresses and hashes are strings, and the `toHexString` conversions are left out. Comparing a representative's bytes with a user id is modelled as equality of addresses.
- BigInt arithmetic is modelled with unbounded `int`/`nat`.
- HandleVoteEmitted: the vote's timestamp is stored without the `toI32` truncation.
- The staking contract reads (`KyberStaking.bind`, epoch period and first epoch start) are a `StakingContract` parameter.
- `log.critical` is modelled as an `Abort` value that carries the missing id; the log text is left out.
- The Governance singleton's fixed id and the option labels come from `src/utils/constants.ts`, which is not part of this model. The labels are written as "YES" and "NO".
- Payload fields copied verbatim from events (creator, strategy, executor, call lists, link, times, maximum voting power) are opaque values in `CreationParams`.
- Event routing from the contracts to the handlers, deployment and block ordering are left out. The handlers are single-threaded, so no concurrency is modelled.
