/** Lookups against the entity store: tolerant get-or-create helpers, which
    hand back a fresh unsaved record when the id is absent, and strict
    loads, which abort when it is absent. None of them writes the store. */
module Initializers {
  import opened Schema

  /** The values the staking contract reports for the epoch configuration;
      the contract is only read when the Governance record is created. */
  datatype StakingContract = StakingContract(epochPeriodInSeconds: int, firstEpochStartTime: int)

  /** A freshly constructed Proposal. Its fields stand for the unset fields
      of a new entity: the creation handlers assign every one of them except
      the queueing and execution data, which stay absent. */
  function NewProposal(): (p: Proposal)
    ensures p.executionTime.None? && p.initiatorQueueing.None? && p.initiatorExecution.None?
  {
    Proposal(Binary, [], [], 0, 0, Pending,
             CreationParams("", 0, "", "", [], [], [], [], [], 0, 0, ""),
             None, None, None, 0, 0)
  }

  /** The stored proposal, or a fresh one when there is none. */
  function GetOrInitProposal(s: Store, proposalId: nat): (p: Proposal)
    ensures proposalId in s.proposals ==> p == s.proposals[proposalId]
    ensures proposalId !in s.proposals ==> p == NewProposal()
  {
    if proposalId in s.proposals then s.proposals[proposalId] else NewProposal()
  }

  /** The stored proposal; a missing one is fatal. */
  function GetProposal(s: Store, proposalId: nat): (r: Result<Proposal>)
    ensures r.Ok? <==> proposalId in s.proposals
    ensures r.Ok? ==> r.value == s.proposals[proposalId]
    ensures r.Err? ==> r.error == InvalidProposalId(proposalId)
  {
    if proposalId in s.proposals then Ok(s.proposals[proposalId]) else Err(InvalidProposalId(proposalId))
  }

  /** The stored vote; a missing one is fatal. */
  function GetVote(s: Store, key: VoteKey): (r: Result<Vote>)
    ensures r.Ok? <==> key in s.votes
    ensures r.Ok? ==> r.value == s.votes[key]
    ensures r.Err? ==> r.error == InvalidVoteId(key)
  {
    if key in s.votes then Ok(s.votes[key]) else Err(InvalidVoteId(key))
  }

  /** The Governance singleton, created with zero totals and the contract's
      epoch configuration when it is absent. The caller saves it. */
  function InitOrGetGovernance(s: Store, chain: StakingContract): (g: Governance)
    ensures s.governance.Some? ==> g == s.governance.value
    ensures s.governance.None? ==>
      g.totalStaked == 0 && g.totalStaker == 0 &&
      g.epochPeriod == chain.epochPeriodInSeconds && g.startTime == chain.firstEpochStartTime
  {
    match s.governance
    case Some(g) => g
    case None => Governance(chain.epochPeriodInSeconds, chain.firstEpochStartTime, 0, 0)
  }

  /** A new staker (stored by the caller under `stakerAddress`): it is its
      own representative and holds no stake of its own or delegated. */
  function InitStaker(stakerAddress: Address): (u: User)
    ensures u.representative == stakerAddress
    ensures u.stake == 0 && u.delegatedStake == 0
  {
    User(stakerAddress, 0, 0)
  }

  /** A user as a handler sees it: the stored copy, or a new staker. */
  function UserOrInit(s: Store, a: Address): (u: User)
    ensures a in s.users ==> u == s.users[a]
    ensures a !in s.users ==> u == InitStaker(a)
  {
    if a in s.users then s.users[a] else InitStaker(a)
  }
}
