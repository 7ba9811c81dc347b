/** The governance event handlers: proposal creation and lifecycle, vote
    tallying, executor authorisation and voting-power corrections.

    Each handler takes the store as it is before the event and returns the
    store after it, or the reason it aborted; an aborted handler commits
    none of its writes. Inside a handler, records are loaded as copies,
    changed field by field and saved in the source's order. */
module GovernanceMapping {
  import opened Schema
  import opened Initializers
  import opened Tally

  /** The option labels of a binary proposal. */
  const YesOption: string := "YES"
  const NoOption: string := "NO"

  datatype BinaryProposalCreated = BinaryProposalCreated(proposalId: nat, params: CreationParams)

  datatype GenericProposalCreated = GenericProposalCreated(
    proposalId: nat, creator: Address, maxVotingPower: nat, options: seq<string>,
    strategy: Address, executor: Address, startTime: int, endTime: int, link: string)

  datatype ProposalQueued = ProposalQueued(proposalId: nat, executionTime: int, initiatorQueueing: Address)

  datatype ProposalExecuted = ProposalExecuted(proposalId: nat, initiatorExecution: Address)

  datatype ProposalCanceled = ProposalCanceled(proposalId: nat)

  datatype VoteEmitted = VoteEmitted(proposalId: nat, voter: Address, voteOptions: nat, votingPower: nat)

  datatype VotingPowerChanged = VotingPowerChanged(
    proposalId: nat, voter: Address, oldVotingPower: nat, newVotingPower: nat, voteOptions: nat)

  /** The proposal's tally has one entry per option. */
  predicate Aligned(p: Proposal) {
    |p.voteCounts| == |p.options|
  }

  /** The fields a creation event overwrites are fresh, and the queueing and
      execution data of an earlier proposal with that id survive. */
  ghost predicate CreatedFrom(p: Proposal, prior: Proposal, env: Envelope) {
    && p.totalVotes == 0 && p.totalAddresses == 0
    && p.state == Pending
    && p.executionTime == prior.executionTime
    && p.initiatorQueueing == prior.initiatorQueueing
    && p.initiatorExecution == prior.initiatorExecution
    && p.lastUpdateBlock == env.blockNumber && p.lastUpdateTimestamp == env.timestamp
  }

  method HandleBinaryProposalCreated(s: Store, ev: BinaryProposalCreated, env: Envelope) returns (r: Store)
    ensures ev.proposalId in r.proposals
    ensures var p := r.proposals[ev.proposalId];
      && p.kind == Binary
      && p.options == [YesOption, NoOption] && p.voteCounts == [0, 0] && Aligned(p)
      && p.params == ev.params
      && CreatedFrom(p, GetOrInitProposal(s, ev.proposalId), env)
    ensures r.proposals.Keys == s.proposals.Keys + {ev.proposalId}
    ensures forall id :: id in s.proposals && id != ev.proposalId ==> r.proposals[id] == s.proposals[id]
    ensures r.votes == s.votes && r.executors == s.executors && r.voteEvents == s.voteEvents
    ensures r.transactions == s.transactions && StakingTablesKept(s, r)
  {
    var proposal := GetOrInitProposal(s, ev.proposalId);
    proposal := proposal.(kind := Binary);
    proposal := proposal.(options := [YesOption, NoOption]);
    proposal := proposal.(voteCounts := [0, 0]);
    proposal := proposal.(totalVotes := 0, totalAddresses := 0);
    proposal := proposal.(params := ev.params);
    proposal := proposal.(state := Pending);
    proposal := proposal.(lastUpdateBlock := env.blockNumber, lastUpdateTimestamp := env.timestamp);
    r := SaveProposal(s, ev.proposalId, proposal);
  }

  method HandleGenericProposalCreated(s: Store, ev: GenericProposalCreated, env: Envelope) returns (r: Store)
    ensures ev.proposalId in r.proposals
    ensures var p := r.proposals[ev.proposalId];
      && p.kind == Generic
      && p.options == ev.options
      // the zeros pushed per option never reach the stored tally
      && p.voteCounts == []
      && p.params == CreationParams(ev.creator, ev.maxVotingPower, ev.strategy, ev.executor,
                                    [], [], [], [], [], ev.startTime, ev.endTime, ev.link)
      && CreatedFrom(p, GetOrInitProposal(s, ev.proposalId), env)
    ensures r.proposals.Keys == s.proposals.Keys + {ev.proposalId}
    ensures forall id :: id in s.proposals && id != ev.proposalId ==> r.proposals[id] == s.proposals[id]
    ensures r.votes == s.votes && r.executors == s.executors && r.voteEvents == s.voteEvents
    ensures r.transactions == s.transactions && StakingTablesKept(s, r)
  {
    var proposal := GetOrInitProposal(s, ev.proposalId);
    proposal := proposal.(kind := Generic);
    proposal := proposal.(options := ev.options);
    proposal := proposal.(voteCounts := []);
    // The source then pushes one zero per option onto `proposal.voteCounts`.
    // The entity's getter hands back a new copy of the stored list, so each
    // zero lands on that copy and the stored tally stays empty; the model
    // therefore writes nothing here.
    proposal := proposal.(totalVotes := 0, totalAddresses := 0);
    proposal := proposal.(params := CreationParams(ev.creator, ev.maxVotingPower, ev.strategy, ev.executor,
                                                   [], [], [], [], [], ev.startTime, ev.endTime, ev.link));
    proposal := proposal.(state := Pending);
    proposal := proposal.(lastUpdateBlock := env.blockNumber, lastUpdateTimestamp := env.timestamp);
    r := SaveProposal(s, ev.proposalId, proposal);
  }

  /** What a lifecycle event may change: the state, the two last-update
      fields and the given queueing/execution data; the tally and the totals
      stay. */
  ghost predicate LifecycleStep(p: Proposal, prior: Proposal, state: ProposalState, env: Envelope) {
    && p.state == state
    && p.options == prior.options && p.voteCounts == prior.voteCounts
    && p.totalVotes == prior.totalVotes && p.totalAddresses == prior.totalAddresses
    && p.kind == prior.kind && p.params == prior.params
    && p.lastUpdateBlock == env.blockNumber && p.lastUpdateTimestamp == env.timestamp
  }

  method HandleProposalQueued(s: Store, ev: ProposalQueued, env: Envelope) returns (r: Result<Store>)
    ensures r.Err? <==> ev.proposalId !in s.proposals
    ensures r.Err? ==> r.error == InvalidProposalId(ev.proposalId)
    ensures r.Ok? ==> ev.proposalId in r.value.proposals
    ensures r.Ok? ==>
      var prior := s.proposals[ev.proposalId];
      var p := r.value.proposals[ev.proposalId];
      && r.value.proposals == s.proposals[ev.proposalId := p]
      && LifecycleStep(p, prior, Queued, env)
      && p.executionTime == Some(ev.executionTime)
      && p.initiatorQueueing == Some(ev.initiatorQueueing)
      && p.initiatorExecution == prior.initiatorExecution
    ensures r.Ok? ==>
      r.value.votes == s.votes && r.value.executors == s.executors && r.value.voteEvents == s.voteEvents &&
      r.value.transactions == s.transactions && StakingTablesKept(s, r.value)
  {
    var proposal :- GetProposal(s, ev.proposalId);
    proposal := proposal.(state := Queued);
    proposal := proposal.(executionTime := Some(ev.executionTime));
    proposal := proposal.(initiatorQueueing := Some(ev.initiatorQueueing));
    proposal := proposal.(lastUpdateBlock := env.blockNumber, lastUpdateTimestamp := env.timestamp);
    var store := SaveProposal(s, ev.proposalId, proposal);
    return Ok(store);
  }

  method HandleProposalExecuted(s: Store, ev: ProposalExecuted, env: Envelope) returns (r: Result<Store>)
    ensures r.Err? <==> ev.proposalId !in s.proposals
    ensures r.Err? ==> r.error == InvalidProposalId(ev.proposalId)
    ensures r.Ok? ==> ev.proposalId in r.value.proposals
    ensures r.Ok? ==>
      var prior := s.proposals[ev.proposalId];
      var p := r.value.proposals[ev.proposalId];
      && r.value.proposals == s.proposals[ev.proposalId := p]
      && LifecycleStep(p, prior, Executed, env)
      && p.executionTime == prior.executionTime
      && p.initiatorQueueing == prior.initiatorQueueing
      && p.initiatorExecution == Some(ev.initiatorExecution)
    ensures r.Ok? ==>
      r.value.votes == s.votes && r.value.executors == s.executors && r.value.voteEvents == s.voteEvents &&
      r.value.transactions == s.transactions && StakingTablesKept(s, r.value)
  {
    var proposal :- GetProposal(s, ev.proposalId);
    proposal := proposal.(state := Executed);
    proposal := proposal.(initiatorExecution := Some(ev.initiatorExecution));
    proposal := proposal.(lastUpdateBlock := env.blockNumber, lastUpdateTimestamp := env.timestamp);
    var store := SaveProposal(s, ev.proposalId, proposal);
    return Ok(store);
  }

  method HandleProposalCanceled(s: Store, ev: ProposalCanceled, env: Envelope) returns (r: Result<Store>)
    ensures r.Err? <==> ev.proposalId !in s.proposals
    ensures r.Err? ==> r.error == InvalidProposalId(ev.proposalId)
    ensures r.Ok? ==> ev.proposalId in r.value.proposals
    ensures r.Ok? ==>
      var prior := s.proposals[ev.proposalId];
      var p := r.value.proposals[ev.proposalId];
      && r.value.proposals == s.proposals[ev.proposalId := p]
      && LifecycleStep(p, prior, Canceled, env)
      && p.executionTime == prior.executionTime
      && p.initiatorQueueing == prior.initiatorQueueing
      && p.initiatorExecution == prior.initiatorExecution
    ensures r.Ok? ==>
      r.value.votes == s.votes && r.value.executors == s.executors && r.value.voteEvents == s.voteEvents &&
      r.value.transactions == s.transactions && StakingTablesKept(s, r.value)
  {
    var proposal :- GetProposal(s, ev.proposalId);
    proposal := proposal.(state := Canceled);
    proposal := proposal.(lastUpdateBlock := env.blockNumber, lastUpdateTimestamp := env.timestamp);
    var store := SaveProposal(s, ev.proposalId, proposal);
    return Ok(store);
  }

  /** The mask a voter had selected before this event: none for a new voter. */
  function PriorMask(s: Store, key: VoteKey): nat {
    if key in s.votes then s.votes[key].voteOptions else 0
  }

  /** What a vote does to its proposal, given the proposal before it, whether
      the voter is new and the mask the voter had selected before. */
  ghost predicate VoteCounted(p: Proposal, prior: Proposal, isNew: bool, preMask: nat, ev: VoteEmitted, env: Envelope) {
    // a first vote counts the voter's power and address once; a repeated vote counts nothing
    && p.totalVotes == prior.totalVotes + (if isNew then ev.votingPower else 0)
    && p.totalAddresses == prior.totalAddresses + (if isNew then 1 else 0)
    // the tally keeps only the entries of options whose bit changed
    && Ok(p.voteCounts) == VoteTally(prior.voteCounts, preMask, ev.voteOptions, ev.votingPower, |prior.options|)
    && (preMask == ev.voteOptions ==> p.voteCounts == [])
    // whatever the proposal's state was, it is now Active
    && p.state == Active
    && p == prior.(totalVotes := p.totalVotes, totalAddresses := p.totalAddresses, voteCounts := p.voteCounts,
                   state := Active, lastUpdateBlock := env.blockNumber, lastUpdateTimestamp := env.timestamp)
  }

  /** The changes VoteEmitted makes to the loaded proposal, up to its save;
      the tally aborts the handler when it reads past the end. */
  method CountVote(prior: Proposal, isNew: bool, preVoteOptions: nat, ev: VoteEmitted, env: Envelope)
    returns (r: Result<Proposal>)
    ensures r.Err? <==> VoteTally(prior.voteCounts, preVoteOptions, ev.voteOptions, ev.votingPower, |prior.options|).Err?
    ensures r.Err? ==> r.error == VoteCountIndexOutOfRange
    ensures r.Ok? ==> VoteCounted(r.value, prior, isNew, preVoteOptions, ev, env)
  {
    var proposal := prior;
    if isNew {
      proposal := proposal.(totalVotes := proposal.totalVotes + ev.votingPower);
      proposal := proposal.(totalAddresses := proposal.totalAddresses + 1);
    }
    var newVoteCounts :- VoteEmittedCounts(proposal.voteCounts, |proposal.options|, preVoteOptions, ev.voteOptions, ev.votingPower);
    if preVoteOptions == ev.voteOptions {
      RevoteWithSameMaskEmptiesTally(proposal.voteCounts, preVoteOptions, ev.votingPower, |proposal.options|);
    }
    proposal := proposal.(voteCounts := newVoteCounts);
    proposal := proposal.(state := Active);
    proposal := proposal.(lastUpdateBlock := env.blockNumber, lastUpdateTimestamp := env.timestamp);
    return Ok(proposal);
  }

  /** The vote's log row: a VoteEvent whose id is the transaction hash and
      the length of the transaction's vote list, appended to that list. */
  method LogVote(s: Store, ev: VoteEmitted, env: Envelope) returns (r: Store)
    ensures var t := TransactionOrNew(s.transactions, env);
      var id := EventId(env.txHash, |t.votes|);
      && r.transactions == s.transactions[env.txHash := t.(votes := t.votes + [id])]
      && r.voteEvents == s.voteEvents[id := VoteEvent(ev.voter, env.timestamp, ev.proposalId, ev.voteOptions, env.txHash)]
    ensures r.proposals == s.proposals && r.votes == s.votes && r.executors == s.executors && StakingTablesKept(s, r)
  {
    var transaction := TransactionOrNew(s.transactions, env);
    var voteEventId := EventId(env.txHash, |transaction.votes|);
    r := SaveVoteEvent(s, voteEventId, VoteEvent(ev.voter, env.timestamp, ev.proposalId, ev.voteOptions, env.txHash));
    transaction := transaction.(votes := transaction.votes + [voteEventId]);
    r := SaveTransaction(r, env.txHash, transaction);
  }

  method HandleVoteEmitted(s: Store, ev: VoteEmitted, env: Envelope) returns (r: Result<Store>)
    ensures var key := VoteKey(ev.proposalId, ev.voter);
      r.Err? <==>
        ev.proposalId !in s.proposals ||
        VoteTally(s.proposals[ev.proposalId].voteCounts, PriorMask(s, key), ev.voteOptions,
                  ev.votingPower, |s.proposals[ev.proposalId].options|).Err?
    ensures ev.proposalId !in s.proposals ==> r == Err(InvalidProposalId(ev.proposalId))
    ensures ev.proposalId in s.proposals && r.Err? ==> r.error == VoteCountIndexOutOfRange
    ensures r.Ok? ==> ev.proposalId in r.value.proposals
    ensures r.Ok? ==>
      var key := VoteKey(ev.proposalId, ev.voter);
      var p := r.value.proposals[ev.proposalId];
      && r.value.proposals == s.proposals[ev.proposalId := p]
      && VoteCounted(p, s.proposals[ev.proposalId], key !in s.votes, PriorMask(s, key), ev, env)
    // the vote is upserted with the event's selection and power
    ensures r.Ok? ==>
      r.value.votes == s.votes[VoteKey(ev.proposalId, ev.voter) :=
                               Vote(ev.proposalId, ev.voteOptions, ev.voter, ev.votingPower, env.timestamp)]
    // one VoteEvent is appended to the transaction's vote list
    ensures r.Ok? ==>
      var t := TransactionOrNew(s.transactions, env);
      var id := EventId(env.txHash, |t.votes|);
      && r.value.transactions == s.transactions[env.txHash := t.(votes := t.votes + [id])]
      && r.value.voteEvents == s.voteEvents[id := VoteEvent(ev.voter, env.timestamp, ev.proposalId, ev.voteOptions, env.txHash)]
    ensures r.Ok? ==>
      r.value.executors == s.executors && StakingTablesKept(s, r.value)
  {
    var proposal :- GetProposal(s, ev.proposalId);
    var key := VoteKey(ev.proposalId, ev.voter);
    var preVoteOptions := 0;
    if key in s.votes {
      preVoteOptions := s.votes[key].voteOptions;
    }
    proposal :- CountVote(proposal, key !in s.votes, preVoteOptions, ev, env);
    var store := SaveProposal(s, ev.proposalId, proposal);

    var vote := Vote(ev.proposalId, ev.voteOptions, ev.voter, ev.votingPower, env.timestamp);
    store := SaveVote(store, key, vote);

    store := LogVote(store, ev, env);
    return Ok(store);
  }

  /** A Generic proposal's first vote that selects any of its options traps:
      the stored tally is empty, and the vote reads the entry of the first
      selected option. */
  method GenericFirstVoteTraps(s: Store, created: GenericProposalCreated, voter: Address, voteOptions: nat,
                               votingPower: nat, i: nat, env: Envelope) returns (r: Result<Store>)
    requires i < |created.options| && Bit(voteOptions, i)
    requires VoteKey(created.proposalId, voter) !in s.votes
    ensures r == Err(VoteCountIndexOutOfRange)
  {
    var store := HandleGenericProposalCreated(s, created, env);
    EmptyTallyTraps(voteOptions, votingPower, |created.options|, i);
    r := HandleVoteEmitted(store, VoteEmitted(created.proposalId, voter, voteOptions, votingPower), env);
  }

  /** Authorisation always leaves the executor authorised; the
      authorisation block and time are recorded only when it is created. */
  method HandleExecutorAuthorized(s: Store, executor: Address, env: Envelope) returns (r: Store)
    ensures executor in r.executors && r.executors[executor].authorized
    ensures executor in s.executors ==>
      r.executors == s.executors[executor := s.executors[executor].(authorized := true)]
    ensures executor !in s.executors ==>
      r.executors == s.executors[executor := Executor(true, env.blockNumber, env.timestamp)]
    ensures r.proposals == s.proposals && r.votes == s.votes && r.voteEvents == s.voteEvents
    ensures r.transactions == s.transactions && StakingTablesKept(s, r)
  {
    var record: Executor;
    if executor in s.executors {
      record := s.executors[executor];
      record := record.(authorized := true);
    } else {
      record := Executor(true, env.blockNumber, env.timestamp);
    }
    r := SaveExecutor(s, executor, record);
  }

  /** Unauthorising an unknown executor is a no-op. */
  method HandleExecutorUnauthorized(s: Store, executor: Address) returns (r: Store)
    ensures executor !in s.executors ==> r == s
    ensures executor in s.executors ==>
      r.executors == s.executors[executor := s.executors[executor].(authorized := false)]
    ensures r.proposals == s.proposals && r.votes == s.votes && r.voteEvents == s.voteEvents
    ensures r.transactions == s.transactions && StakingTablesKept(s, r)
  {
    r := s;
    if executor in s.executors {
      var record := s.executors[executor];
      record := record.(authorized := false);
      r := SaveExecutor(s, executor, record);
    }
  }

  method HandleVotingPowerChanged(s: Store, ev: VotingPowerChanged) returns (r: Result<Store>)
    ensures var key := VoteKey(ev.proposalId, ev.voter);
      r.Err? <==>
        ev.proposalId !in s.proposals ||
        PowerTally(s.proposals[ev.proposalId].voteCounts, ev.voteOptions, ev.oldVotingPower,
                   ev.newVotingPower, |s.proposals[ev.proposalId].options|).Err? ||
        key !in s.votes
    ensures ev.proposalId !in s.proposals ==> r == Err(InvalidProposalId(ev.proposalId))
    ensures ev.proposalId in s.proposals &&
            PowerTally(s.proposals[ev.proposalId].voteCounts, ev.voteOptions, ev.oldVotingPower,
                       ev.newVotingPower, |s.proposals[ev.proposalId].options|).Err? ==>
      r == Err(VoteCountIndexOutOfRange)
    ensures ev.proposalId in s.proposals && VoteKey(ev.proposalId, ev.voter) !in s.votes &&
            PowerTally(s.proposals[ev.proposalId].voteCounts, ev.voteOptions, ev.oldVotingPower,
                       ev.newVotingPower, |s.proposals[ev.proposalId].options|).Ok? ==>
      r == Err(InvalidVoteId(VoteKey(ev.proposalId, ev.voter)))
    ensures r.Ok? ==> ev.proposalId in r.value.proposals && VoteKey(ev.proposalId, ev.voter) in s.votes
    ensures r.Ok? ==>
      var key := VoteKey(ev.proposalId, ev.voter);
      var prior := s.proposals[ev.proposalId];
      var p := r.value.proposals[ev.proposalId];
      && r.value.proposals == s.proposals[ev.proposalId := p]
      && p.totalVotes == prior.totalVotes + ev.newVotingPower - ev.oldVotingPower
      // entries are kept only for options selected by the event's mask
      && Ok(p.voteCounts) == PowerTally(prior.voteCounts, ev.voteOptions, ev.oldVotingPower, ev.newVotingPower, |prior.options|)
      // nothing else about the proposal changes: not its state, nor its last update
      && p == prior.(totalVotes := p.totalVotes, voteCounts := p.voteCounts)
      // the vote takes the new power and keeps its selection
      && r.value.votes == s.votes[key := s.votes[key].(votingPower := ev.newVotingPower)]
    ensures r.Ok? ==>
      r.value.executors == s.executors && r.value.voteEvents == s.voteEvents &&
      r.value.transactions == s.transactions && StakingTablesKept(s, r.value)
  {
    var proposal :- GetProposal(s, ev.proposalId);
    proposal := proposal.(totalVotes := proposal.totalVotes + ev.newVotingPower - ev.oldVotingPower);
    var newVoteCounts :- PowerChangedCounts(proposal.voteCounts, |proposal.options|, ev.voteOptions, ev.oldVotingPower, ev.newVotingPower);
    proposal := proposal.(voteCounts := newVoteCounts);
    var store := SaveProposal(s, ev.proposalId, proposal);

    var key := VoteKey(ev.proposalId, ev.voter);
    var vote :- GetVote(store, key);
    vote := vote.(votingPower := ev.newVotingPower);
    store := SaveVote(store, key, vote);
    return Ok(store);
  }
}
