/** The subgraph's entities and the keyed entity store they live in.

    Every entity is a value: a handler loads a COPY of a record, changes
    fields of its copy and saves it back, so records are datatypes and the
    store is a record of finite maps from id to entity. The map key is the
    entity's id (the store returns under `load(id)` a record whose id is
    `id`), so records do not repeat their id. The Governance singleton lives
    under one fixed id and is modelled as an optional record.
 */
module Schema {

  type Address = string
  type TxHash = string
  type Bytes = seq<bv8>

  datatype Option<+T> = None | Some(value: T)

  /** Why a handler stops: a fatal `log.critical`, or the trap of an
      out-of-range array read in the AssemblyScript runtime. */
  datatype Abort =
    | InvalidProposalId(proposalId: nat)
    | InvalidVoteId(key: VoteKey)
    | UserNotInit(staker: Address)
    | RepresentativeNotInit(representative: Address)
    | VoteCountIndexOutOfRange

  /** The outcome of a handler or of a strict lookup. */
  datatype Result<+T> = Ok(value: T) | Err(error: Abort) {
    predicate IsFailure() { Err? }

    function PropagateFailure<U>(): Result<U>
      requires Err?
    {
      Err(error)
    }

    function Extract(): T
      requires Ok?
    {
      value
    }
  }

  /** Block and transaction metadata carried by every event. */
  datatype Envelope = Envelope(blockNumber: int, timestamp: int, txHash: TxHash)

  datatype ProposalType = Binary | Generic

  datatype ProposalState = Pending | Active | Queued | Executed | Canceled

  /** Payload copied verbatim from a creation event; never interpreted. */
  datatype CreationParams = CreationParams(
    creator: Address,
    maxVotingPower: nat,
    strategy: Address,
    executor: Address,
    targets: seq<Address>,
    weiValues: seq<nat>,
    signatures: seq<string>,
    calldatas: seq<Bytes>,
    withDelegatecalls: seq<bool>,
    startTime: int,
    endTime: int,
    link: string)

  datatype Proposal = Proposal(
    kind: ProposalType,
    options: seq<string>,
    voteCounts: seq<int>,
    totalVotes: int,
    totalAddresses: int,
    state: ProposalState,
    params: CreationParams,
    executionTime: Option<int>,
    initiatorQueueing: Option<Address>,
    initiatorExecution: Option<Address>,
    lastUpdateBlock: int,
    lastUpdateTimestamp: int)

  /** A Vote is keyed by the pair (proposal id, voter). */
  datatype VoteKey = VoteKey(proposalId: nat, voter: Address)

  /** `voteOptions` is a bitmask: bit i set means option i is selected. */
  datatype Vote = Vote(proposal: nat, voteOptions: nat, voter: Address, votingPower: nat, timestamp: int)

  datatype Executor = Executor(authorized: bool, authorizationBlock: int, authorizationTimestamp: int)

  /** A staker or representative; `representative` is itself when not delegated. */
  datatype User = User(representative: Address, stake: int, delegatedStake: int)

  /** The id of a per-transaction log row: the transaction hash and the
      length of the corresponding list when the row was created. */
  datatype EventId = EventId(txHash: TxHash, index: nat)

  datatype Transaction = Transaction(
    blockNumber: int,
    timestamp: int,
    deposits: seq<EventId>,
    withdraws: seq<EventId>,
    delegates: seq<EventId>,
    votes: seq<EventId>)

  datatype Governance = Governance(epochPeriod: int, startTime: int, totalStaked: int, totalStaker: int)

  datatype VoteEvent = VoteEvent(staker: Address, timestamp: int, proposal: nat, voteOptions: nat, txHash: TxHash)

  datatype DepositEvent = DepositEvent(amount: nat, staker: Address, timestamp: int, epoch: nat, txHash: TxHash)

  datatype WithdrawEvent = WithdrawEvent(amount: nat, staker: Address, timestamp: int, epoch: nat, txHash: TxHash)

  datatype DelegateEvent = DelegateEvent(representative: Address, staker: Address, timestamp: int, epoch: nat, txHash: TxHash)

  /** The entity store: one map per entity type, plus the Governance singleton. */
  datatype Store = Store(
    proposals: map<nat, Proposal>,
    votes: map<VoteKey, Vote>,
    executors: map<Address, Executor>,
    users: map<Address, User>,
    transactions: map<TxHash, Transaction>,
    governance: Option<Governance>,
    voteEvents: map<EventId, VoteEvent>,
    depositEvents: map<EventId, DepositEvent>,
    withdrawEvents: map<EventId, WithdrawEvent>,
    delegateEvents: map<EventId, DelegateEvent>)

  const EmptyStore := Store(map[], map[], map[], map[], map[], None, map[], map[], map[], map[])

  /** The Transaction a handler appends to: the stored one, or a new one
      with four empty lists stamped with the event's block. */
  function TransactionOrNew(transactions: map<TxHash, Transaction>, env: Envelope): (t: Transaction)
    ensures env.txHash in transactions ==> t == transactions[env.txHash]
    ensures env.txHash !in transactions ==>
      t.blockNumber == env.blockNumber && t.timestamp == env.timestamp &&
      t.deposits == [] && t.withdraws == [] && t.delegates == [] && t.votes == []
  {
    if env.txHash in transactions then transactions[env.txHash]
    else Transaction(env.blockNumber, env.timestamp, [], [], [], [])
  }

  /** The tables only the staking handlers write are the same in both stores. */
  predicate StakingTablesKept(s: Store, r: Store) {
    && r.users == s.users && r.governance == s.governance
    && r.depositEvents == s.depositEvents && r.withdrawEvents == s.withdrawEvents && r.delegateEvents == s.delegateEvents
  }

  /** The tables only the governance handlers write are the same in both stores. */
  predicate GovernanceTablesKept(s: Store, r: Store) {
    r.proposals == s.proposals && r.votes == s.votes && r.executors == s.executors && r.voteEvents == s.voteEvents
  }

  // ---- Saving an entity ----
  // A save replaces the stored copy under the id. Its contract names every
  // table it keeps, so that a handler reasons about one table at a time.

  /** Saves a proposal under its id. */
  method SaveProposal(s: Store, id: nat, e: Proposal) returns (r: Store)
    ensures r.proposals == s.proposals[id := e]
    ensures r.votes == s.votes && r.executors == s.executors && r.users == s.users &&
            r.transactions == s.transactions && r.governance == s.governance && r.voteEvents == s.voteEvents &&
            r.depositEvents == s.depositEvents && r.withdrawEvents == s.withdrawEvents && r.delegateEvents == s.delegateEvents
  {
    r := s.(proposals := s.proposals[id := e]);
  }

  /** Saves a vote under its (proposal, voter) key. */
  method SaveVote(s: Store, id: VoteKey, e: Vote) returns (r: Store)
    ensures r.votes == s.votes[id := e]
    ensures r.proposals == s.proposals && r.executors == s.executors && r.users == s.users &&
            r.transactions == s.transactions && r.governance == s.governance && r.voteEvents == s.voteEvents &&
            r.depositEvents == s.depositEvents && r.withdrawEvents == s.withdrawEvents && r.delegateEvents == s.delegateEvents
  {
    r := s.(votes := s.votes[id := e]);
  }

  /** Saves an executor under its address. */
  method SaveExecutor(s: Store, id: Address, e: Executor) returns (r: Store)
    ensures r.executors == s.executors[id := e]
    ensures r.proposals == s.proposals && r.votes == s.votes && r.users == s.users &&
            r.transactions == s.transactions && r.governance == s.governance && r.voteEvents == s.voteEvents &&
            r.depositEvents == s.depositEvents && r.withdrawEvents == s.withdrawEvents && r.delegateEvents == s.delegateEvents
  {
    r := s.(executors := s.executors[id := e]);
  }

  /** Saves a user under its address. */
  method SaveUser(s: Store, id: Address, e: User) returns (r: Store)
    ensures r.users == s.users[id := e]
    ensures r.proposals == s.proposals && r.votes == s.votes && r.executors == s.executors &&
            r.transactions == s.transactions && r.governance == s.governance && r.voteEvents == s.voteEvents &&
            r.depositEvents == s.depositEvents && r.withdrawEvents == s.withdrawEvents && r.delegateEvents == s.delegateEvents
  {
    r := s.(users := s.users[id := e]);
  }

  /** Saves the Governance singleton. */
  method SaveGovernance(s: Store, g: Governance) returns (r: Store)
    ensures r.governance == Some(g)
    ensures r.proposals == s.proposals && r.votes == s.votes && r.executors == s.executors &&
            r.users == s.users && r.transactions == s.transactions && r.voteEvents == s.voteEvents &&
            r.depositEvents == s.depositEvents && r.withdrawEvents == s.withdrawEvents && r.delegateEvents == s.delegateEvents
  {
    r := s.(governance := Some(g));
  }

  /** Saves a transaction under its hash. */
  method SaveTransaction(s: Store, id: TxHash, e: Transaction) returns (r: Store)
    ensures r.transactions == s.transactions[id := e]
    ensures r.proposals == s.proposals && r.votes == s.votes && r.executors == s.executors &&
            r.users == s.users && r.governance == s.governance && r.voteEvents == s.voteEvents &&
            r.depositEvents == s.depositEvents && r.withdrawEvents == s.withdrawEvents && r.delegateEvents == s.delegateEvents
  {
    r := s.(transactions := s.transactions[id := e]);
  }

  /** Saves a vote log row. */
  method SaveVoteEvent(s: Store, id: EventId, e: VoteEvent) returns (r: Store)
    ensures r.voteEvents == s.voteEvents[id := e]
    ensures r.proposals == s.proposals && r.votes == s.votes && r.executors == s.executors &&
            r.users == s.users && r.transactions == s.transactions && r.governance == s.governance &&
            r.depositEvents == s.depositEvents && r.withdrawEvents == s.withdrawEvents && r.delegateEvents == s.delegateEvents
  {
    r := s.(voteEvents := s.voteEvents[id := e]);
  }

  /** Saves a deposit log row. */
  method SaveDepositEvent(s: Store, id: EventId, e: DepositEvent) returns (r: Store)
    ensures r.depositEvents == s.depositEvents[id := e]
    ensures r.proposals == s.proposals && r.votes == s.votes && r.executors == s.executors &&
            r.users == s.users && r.transactions == s.transactions && r.governance == s.governance &&
            r.voteEvents == s.voteEvents && r.withdrawEvents == s.withdrawEvents && r.delegateEvents == s.delegateEvents
  {
    r := s.(depositEvents := s.depositEvents[id := e]);
  }

  /** Saves a withdraw log row. */
  method SaveWithdrawEvent(s: Store, id: EventId, e: WithdrawEvent) returns (r: Store)
    ensures r.withdrawEvents == s.withdrawEvents[id := e]
    ensures r.proposals == s.proposals && r.votes == s.votes && r.executors == s.executors &&
            r.users == s.users && r.transactions == s.transactions && r.governance == s.governance &&
            r.voteEvents == s.voteEvents && r.depositEvents == s.depositEvents && r.delegateEvents == s.delegateEvents
  {
    r := s.(withdrawEvents := s.withdrawEvents[id := e]);
  }

  /** Saves a delegate log row. */
  method SaveDelegateEvent(s: Store, id: EventId, e: DelegateEvent) returns (r: Store)
    ensures r.delegateEvents == s.delegateEvents[id := e]
    ensures r.proposals == s.proposals && r.votes == s.votes && r.executors == s.executors &&
            r.users == s.users && r.transactions == s.transactions && r.governance == s.governance &&
            r.voteEvents == s.voteEvents && r.depositEvents == s.depositEvents && r.withdrawEvents == s.withdrawEvents
  {
    r := s.(delegateEvents := s.delegateEvents[id := e]);
  }
}
