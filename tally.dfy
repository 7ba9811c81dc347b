/** Bitmask vote tallies.

    A vote selects options through a bitmask held as an unbounded integer:
    option i is selected when `(mask div 2^i) mod 2 == 1`. The exponent is
    cast to an unsigned 8-bit integer before `pow`, so option i is tested
    with `2^(i mod 256)`.

    The handlers build the proposal's new tally array by appending only for
    some options; `VoteTally` and `PowerTally` are reference definitions of
    what those loops compute, and `CorrectedVoteTally` and
    `CorrectedPowerTally` keep one entry per option, for which the per-option
    property (entry i is the total power of the voters selecting option i)
    is proved. */
module Tally {
  import opened Schema

  function Pow2(e: nat): (r: nat)
    ensures r > 0
  {
    if e == 0 then 1 else 2 * Pow2(e - 1)
  }

  /** Bit e of `mask`, read by halving. */
  predicate BitAt(mask: nat, e: nat) {
    if e == 0 then mask % 2 == 1 else BitAt(mask / 2, e - 1)
  }

  /** Whether option i is selected by `mask`. */
  predicate Bit(mask: nat, i: nat) {
    BitAt(mask, i % 256)
  }

  /** The halving reading agrees with the source's `(mask div 2^e) mod 2 == 1`. */
  lemma {:induction false} BitAtIsQuotientParity(mask: nat, e: nat)
    ensures BitAt(mask, e) <==> (mask / Pow2(e)) % 2 == 1
  {
    if e > 0 {
      BitAtIsQuotientParity(mask / 2, e - 1);
      HalveThenDivide(mask, Pow2(e - 1));
    }
  }

  lemma HalveThenDivide(m: nat, p: nat)
    requires p > 0
    ensures (m / 2) / p == m / (2 * p)
  {
    var q, a, b := m / 2, (m / 2) / p, (m / 2) % p;
    assert m == 2 * q + m % 2;
    assert q == p * a + b;
    var r := 2 * b + m % 2;
    assert m == (2 * p) * a + r && 0 <= r < 2 * p;
    DivisionIsUnique(m, 2 * p, a, r);
  }

  lemma DivisionIsUnique(m: nat, d: nat, a: nat, r: nat)
    requires d > 0 && m == d * a + r && r < d
    ensures m / d == a
  {
    var a', r' := m / d, m % d;
    assert m == d * a' + r';
    if a' < a {
      var x := a - a';
      assert d * a == d * a' + d * x;
      ProductAtLeast(d, x);
    } else if a' > a {
      var x := a' - a;
      assert d * a' == d * a + d * x;
      ProductAtLeast(d, x);
    }
  }

  lemma {:induction false} ProductAtLeast(d: nat, x: nat)
    requires x >= 1
    ensures d * x >= d
  {
    if x > 1 {
      ProductAtLeast(d, x - 1);
      assert d * x == d * (x - 1) + d;
    }
  }

  lemma {:induction false} NoBitAtInZero(e: nat)
    ensures !BitAt(0, e)
  {
    if e > 0 {
      NoBitAtInZero(e - 1);
    }
  }

  lemma NoBitInZero(i: nat)
    ensures !Bit(0, i)
  {
    NoBitAtInZero(i % 256);
  }

  /** The options below n whose selection differs between the masks
      `pre` and `next`, in increasing order. */
  function ChangedBits(pre: nat, next: nat, n: nat): (r: seq<nat>)
    ensures |r| <= n
    ensures forall k :: 0 <= k < |r| ==> r[k] < n
  {
    if n == 0 then []
    else ChangedBits(pre, next, n - 1) + (if Bit(pre, n - 1) != Bit(next, n - 1) then [n - 1] else [])
  }

  /** The options below n selected by `mask`, in increasing order. */
  function SetBits(mask: nat, n: nat): (r: seq<nat>)
    ensures |r| <= n
  {
    ChangedBits(0, mask, n)
  }

  lemma {:induction false} ChangedBitsMembership(pre: nat, next: nat, n: nat, i: nat)
    ensures i in ChangedBits(pre, next, n) <==> i < n && Bit(pre, i) != Bit(next, i)
  {
    if n > 0 {
      ChangedBitsMembership(pre, next, n - 1, i);
    }
  }

  lemma {:induction false} ChangedBitsIncreasing(pre: nat, next: nat, n: nat)
    ensures forall j, k :: 0 <= j < k < |ChangedBits(pre, next, n)| ==>
      ChangedBits(pre, next, n)[j] < ChangedBits(pre, next, n)[k]
  {
    if n > 0 {
      ChangedBitsIncreasing(pre, next, n - 1);
    }
  }

  /** Exactly n entries are produced only when every one of the n option bits flips. */
  lemma {:induction false} ChangedBitsFull(pre: nat, next: nat, n: nat)
    ensures |ChangedBits(pre, next, n)| == n <==> forall i :: 0 <= i < n ==> Bit(pre, i) != Bit(next, i)
  {
    if n > 0 {
      ChangedBitsFull(pre, next, n - 1);
    }
  }

  lemma {:induction false} SameMaskChangesNothing(mask: nat, n: nat)
    ensures ChangedBits(mask, mask, n) == []
  {
    if n > 0 {
      SameMaskChangesNothing(mask, n - 1);
    }
  }

  lemma SetBitsMembership(mask: nat, n: nat, i: nat)
    ensures i in SetBits(mask, n) <==> i < n && Bit(mask, i)
  {
    ChangedBitsMembership(0, mask, n, i);
    NoBitInZero(i);
  }

  /** What the vote loop appends for a changed option i. The event's power
      is used both when the option is added and when it is removed. */
  function VoteDelta(next: nat, i: nat, power: int): int {
    if Bit(next, i) then power else -power
  }

  /** Reference definition of the tally after a VoteEmitted event for a
      proposal with n options: one entry per changed option, in option order,
      each the old entry plus or minus the event's power. Reading an old
      entry that does not exist traps. */
  function VoteTally(counts: seq<int>, pre: nat, next: nat, power: int, n: nat): Result<seq<int>> {
    var changed := ChangedBits(pre, next, n);
    if forall k :: 0 <= k < |changed| ==> changed[k] < |counts| then
      Ok(seq(|changed|, k requires 0 <= k < |changed| => counts[changed[k]] + VoteDelta(next, changed[k], power)))
    else
      Err(VoteCountIndexOutOfRange)
  }

  /** Reference definition of the tally after a VotingPowerChanged event:
      with no options the tally is left as it was; otherwise one entry per
      option selected by `mask`, each shifted by the power difference. */
  function PowerTally(counts: seq<int>, mask: nat, oldPower: int, newPower: int, n: nat): Result<seq<int>> {
    var selected := SetBits(mask, n);
    if n == 0 then Ok(counts)
    else if forall k :: 0 <= k < |selected| ==> selected[k] < |counts| then
      Ok(seq(|selected|, k requires 0 <= k < |selected| => counts[selected[k]] + newPower - oldPower))
    else
      Err(VoteCountIndexOutOfRange)
  }

  /** The new tally of a VoteEmitted event, built as the handler does:
      a pass over the options that appends an entry for each changed bit. */
  method VoteEmittedCounts(oldVoteCounts: seq<int>, optionCount: nat, preVoteOptions: nat, voteOptions: nat, votingPower: nat)
    returns (r: Result<seq<int>>)
    ensures r == VoteTally(oldVoteCounts, preVoteOptions, voteOptions, votingPower, optionCount)
  {
    var newVoteCounts: seq<int> := [];
    for i := 0 to optionCount
      invariant |newVoteCounts| == |ChangedBits(preVoteOptions, voteOptions, i)|
      invariant forall k :: 0 <= k < |newVoteCounts| ==>
        ChangedBits(preVoteOptions, voteOptions, i)[k] < |oldVoteCounts| &&
        newVoteCounts[k] == oldVoteCounts[ChangedBits(preVoteOptions, voteOptions, i)[k]]
                            + VoteDelta(voteOptions, ChangedBits(preVoteOptions, voteOptions, i)[k], votingPower)
    {
      var hasVoted := Bit(preVoteOptions, i);
      var isVoting := Bit(voteOptions, i);
      if hasVoted != isVoting {
        if i >= |oldVoteCounts| {
          ChangedBitsMembership(preVoteOptions, voteOptions, optionCount, i);
          return Err(VoteCountIndexOutOfRange);
        }
        if hasVoted && !isVoting {
          newVoteCounts := newVoteCounts + [oldVoteCounts[i] - votingPower];
        } else {
          newVoteCounts := newVoteCounts + [oldVoteCounts[i] + votingPower];
        }
      }
    }
    ghost var changed := ChangedBits(preVoteOptions, voteOptions, optionCount);
    assert newVoteCounts == seq(|changed|, k requires 0 <= k < |changed| =>
      oldVoteCounts[changed[k]] + VoteDelta(voteOptions, changed[k], votingPower));
    return Ok(newVoteCounts);
  }

  /** The new tally of a VotingPowerChanged event, built as the handler
      does: the proposal's tally is replaced by the list built so far at the
      end of every pass through the loop body. */
  method PowerChangedCounts(oldVoteCounts: seq<int>, optionCount: nat, voteOptions: nat, oldVotingPower: nat, newVotingPower: nat)
    returns (r: Result<seq<int>>)
    ensures r == PowerTally(oldVoteCounts, voteOptions, oldVotingPower, newVotingPower, optionCount)
  {
    var voteCounts := oldVoteCounts;
    var newVoteCounts: seq<int> := [];
    for i := 0 to optionCount
      invariant voteCounts == if i == 0 then oldVoteCounts else newVoteCounts
      invariant |newVoteCounts| == |SetBits(voteOptions, i)|
      invariant forall k :: 0 <= k < |newVoteCounts| ==>
        SetBits(voteOptions, i)[k] < |oldVoteCounts| &&
        newVoteCounts[k] == oldVoteCounts[SetBits(voteOptions, i)[k]] + newVotingPower - oldVotingPower
    {
      if Bit(voteOptions, i) {
        if i >= |oldVoteCounts| {
          SetBitsMembership(voteOptions, optionCount, i);
          return Err(VoteCountIndexOutOfRange);
        }
        NoBitInZero(i);
        newVoteCounts := newVoteCounts + [oldVoteCounts[i] + newVotingPower - oldVotingPower];
      } else {
        NoBitInZero(i);
      }
      voteCounts := newVoteCounts;
    }
    ghost var selected := SetBits(voteOptions, optionCount);
    assert optionCount > 0 ==>
      voteCounts == seq(|selected|, k requires 0 <= k < |selected| =>
        oldVoteCounts[selected[k]] + newVotingPower - oldVotingPower);
    return Ok(voteCounts);
  }

  /** The initial tally the Generic creation loop evidently intends: one
      zero per option. (The stored tally stays empty; see the handler.) */
  method ZeroCounts(optionCount: nat) returns (voteCounts: seq<int>)
    ensures |voteCounts| == optionCount
    ensures forall i :: 0 <= i < optionCount ==> voteCounts[i] == 0
  {
    voteCounts := [];
    for i := 0 to optionCount
      invariant |voteCounts| == i
      invariant forall j :: 0 <= j < i ==> voteCounts[j] == 0
    {
      voteCounts := voteCounts + [0];
    }
  }

  /** A first vote against an empty tally traps as soon as it selects one
      of the proposal's options. */
  lemma EmptyTallyTraps(next: nat, power: int, n: nat, i: nat)
    requires i < n && Bit(next, i)
    ensures VoteTally([], 0, next, power, n) == Err(VoteCountIndexOutOfRange)
  {
    NoBitInZero(i);
    VoteTallyAbortsIff([], 0, next, power, n);
  }

  /** A tally with one entry per option never traps: every option it may
      read has an entry. Creation with `ZeroCounts` gives such a tally. */
  lemma AlignedTallyNeverTraps(counts: seq<int>, pre: nat, next: nat, power: int)
    ensures VoteTally(counts, pre, next, power, |counts|).Ok?
  {
    VoteTallyAbortsIff(counts, pre, next, power, |counts|);
  }

  /** Re-voting with the stored mask produces an empty tally: no option
      changed, so nothing is appended and no old entry is read. */
  lemma RevoteWithSameMaskEmptiesTally(counts: seq<int>, mask: nat, power: int, n: nat)
    ensures VoteTally(counts, mask, mask, power, n) == Ok([])
  {
    SameMaskChangesNothing(mask, n);
    assert |VoteTally(counts, mask, mask, power, n).value| == 0;
  }

  /** The tally aborts exactly when some changed option has no entry. */
  lemma VoteTallyAbortsIff(counts: seq<int>, pre: nat, next: nat, power: int, n: nat)
    ensures VoteTally(counts, pre, next, power, n).Err? <==>
      exists i :: 0 <= i < n && Bit(pre, i) != Bit(next, i) && i >= |counts|
  {
    var changed := ChangedBits(pre, next, n);
    if VoteTally(counts, pre, next, power, n).Err? {
      var k :| 0 <= k < |changed| && changed[k] >= |counts|;
      ChangedBitsMembership(pre, next, n, changed[k]);
    } else {
      forall i | 0 <= i < n && Bit(pre, i) != Bit(next, i)
        ensures i < |counts|
      {
        ChangedBitsMembership(pre, next, n, i);
      }
    }
  }

  /** The tally after a vote has one entry per option only when every one of
      the proposal's option bits flips; otherwise it no longer lines up with
      the options. */
  lemma VoteTallyAlignment(counts: seq<int>, pre: nat, next: nat, power: int, n: nat)
    requires VoteTally(counts, pre, next, power, n).Ok?
    ensures |VoteTally(counts, pre, next, power, n).value| == |ChangedBits(pre, next, n)|
    ensures |VoteTally(counts, pre, next, power, n).value| == n <==>
      forall i :: 0 <= i < n ==> Bit(pre, i) != Bit(next, i)
  {
    ChangedBitsFull(pre, next, n);
  }

  /** After a power change on a proposal with options, the tally keeps one
      entry per selected option only. */
  lemma PowerTallyAlignment(counts: seq<int>, mask: nat, oldPower: int, newPower: int, n: nat)
    requires n > 0 && PowerTally(counts, mask, oldPower, newPower, n).Ok?
    ensures |PowerTally(counts, mask, oldPower, newPower, n).value| == |SetBits(mask, n)|
    ensures |PowerTally(counts, mask, oldPower, newPower, n).value| == n <==>
      forall i :: 0 <= i < n ==> Bit(mask, i)
  {
    ChangedBitsFull(0, mask, n);
    forall i | 0 <= i < n
      ensures Bit(0, i) != Bit(mask, i) <==> Bit(mask, i)
    {
      NoBitInZero(i);
    }
  }

  /** A binary proposal's first vote, for "Yes" only, leaves a one-entry tally. */
  lemma FirstBinaryVoteShrinksTally(power: nat)
    ensures VoteTally([0, 0], 0, 1, power, 2) == Ok([power])
  {
    assert Bit(1, 0);
    assert !Bit(1, 1);
    assert !Bit(0, 0) && !Bit(0, 1);
    assert ChangedBits(0, 1, 1) == [0];
    assert ChangedBits(0, 1, 2) == [0];
    var r := VoteTally([0, 0], 0, 1, power, 2);
    assert r.Ok?;
    assert |r.value| == 1;
    assert r.value[0] == power;
    assert r.value == [power];
  }

  /** Switching that vote to "No" then reads a tally entry that no longer
      exists, and the handler traps. */
  lemma SwitchingAfterShrinkTraps(power: nat)
    ensures VoteTally([power], 1, 2, power, 2) == Err(VoteCountIndexOutOfRange)
  {
    assert Bit(1, 0) && !Bit(1, 1) && !Bit(2, 0) && Bit(2, 1);
    assert ChangedBits(1, 2, 1) == [0];
    assert ChangedBits(1, 2, 2) == [0, 1];
    assert ChangedBits(1, 2, 2)[1] >= |[power]|;
  }

  // ---- The corrected tally: one entry per option ----

  /** How much a voter with `mask` and `power` contributes to option i. */
  function Contribution(mask: nat, power: int, i: nat): int {
    if Bit(mask, i) then power else 0
  }

  /** The tally after a vote that keeps an entry for every option: the
      voter's previous selection is taken out with the power it was cast
      with, and the new selection is added with the event's power. */
  function CorrectedVoteTally(counts: seq<int>, pre: nat, prePower: int, next: nat, power: int): (r: seq<int>)
    ensures |r| == |counts|
  {
    seq(|counts|, i requires 0 <= i < |counts| =>
      counts[i] - Contribution(pre, prePower, i) + Contribution(next, power, i))
  }

  /** The tally after a power change that keeps an entry for every option. */
  function CorrectedPowerTally(counts: seq<int>, mask: nat, oldPower: int, newPower: int): (r: seq<int>)
    ensures |r| == |counts|
  {
    seq(|counts|, i requires 0 <= i < |counts| =>
      counts[i] - Contribution(mask, oldPower, i) + Contribution(mask, newPower, i))
  }

  /** The handler's tally is the corrected one restricted to the changed
      options, when the voter's earlier power equals the event's power. */
  lemma VoteTallyRestrictsCorrected(counts: seq<int>, pre: nat, next: nat, power: int, n: nat)
    requires VoteTally(counts, pre, next, power, n).Ok?
    ensures var r := VoteTally(counts, pre, next, power, n).value;
            var changed := ChangedBits(pre, next, n);
            |r| == |changed| &&
            forall k :: 0 <= k < |r| ==>
              changed[k] < |counts| && r[k] == CorrectedVoteTally(counts, pre, power, next, power)[changed[k]]
  {
    var changed := ChangedBits(pre, next, n);
    forall k | 0 <= k < |changed|
      ensures Bit(pre, changed[k]) != Bit(next, changed[k])
    {
      ChangedBitsMembership(pre, next, n, changed[k]);
    }
  }

  /** A voter's current selection. */
  datatype Ballot = Ballot(voteOptions: nat, votingPower: int)

  /** The total power of the ballots selecting option i. */
  function OptionTotal(ballots: seq<Ballot>, i: nat): int {
    if ballots == [] then 0
    else Contribution(ballots[0].voteOptions, ballots[0].votingPower, i) + OptionTotal(ballots[1..], i)
  }

  /** Every entry of the tally is the total power of the voters selecting that option. */
  ghost predicate TallyMatches(counts: seq<int>, ballots: seq<Ballot>) {
    forall i :: 0 <= i < |counts| ==> counts[i] == OptionTotal(ballots, i)
  }

  lemma {:induction false} OptionTotalAppend(ballots: seq<Ballot>, b: Ballot, i: nat)
    ensures OptionTotal(ballots + [b], i) == OptionTotal(ballots, i) + Contribution(b.voteOptions, b.votingPower, i)
  {
    if ballots != [] {
      assert (ballots + [b])[1..] == ballots[1..] + [b];
      OptionTotalAppend(ballots[1..], b, i);
    }
  }

  lemma {:induction false} OptionTotalUpdate(ballots: seq<Ballot>, j: nat, b: Ballot, i: nat)
    requires j < |ballots|
    ensures OptionTotal(ballots[j := b], i) ==
      OptionTotal(ballots, i)
      - Contribution(ballots[j].voteOptions, ballots[j].votingPower, i)
      + Contribution(b.voteOptions, b.votingPower, i)
  {
    if j > 0 {
      assert ballots[j := b][1..] == ballots[1..][j - 1 := b];
      OptionTotalUpdate(ballots[1..], j - 1, b, i);
    }
  }

  /** A first vote keeps every entry equal to its option's total. */
  lemma CorrectedFirstVoteKeepsTotals(counts: seq<int>, ballots: seq<Ballot>, next: nat, power: int)
    requires TallyMatches(counts, ballots)
    ensures TallyMatches(CorrectedVoteTally(counts, 0, 0, next, power), ballots + [Ballot(next, power)])
  {
    forall i | 0 <= i < |counts|
      ensures CorrectedVoteTally(counts, 0, 0, next, power)[i] == OptionTotal(ballots + [Ballot(next, power)], i)
    {
      OptionTotalAppend(ballots, Ballot(next, power), i);
    }
  }

  /** A changed vote keeps every entry equal to its option's total. */
  lemma CorrectedRevoteKeepsTotals(counts: seq<int>, ballots: seq<Ballot>, j: nat, next: nat, power: int)
    requires j < |ballots| && TallyMatches(counts, ballots)
    ensures TallyMatches(
      CorrectedVoteTally(counts, ballots[j].voteOptions, ballots[j].votingPower, next, power),
      ballots[j := Ballot(next, power)])
  {
    forall i | 0 <= i < |counts|
      ensures CorrectedVoteTally(counts, ballots[j].voteOptions, ballots[j].votingPower, next, power)[i]
              == OptionTotal(ballots[j := Ballot(next, power)], i)
    {
      OptionTotalUpdate(ballots, j, Ballot(next, power), i);
    }
  }

  /** A power change keeps every entry equal to its option's total. */
  lemma CorrectedPowerChangeKeepsTotals(counts: seq<int>, ballots: seq<Ballot>, j: nat, newPower: int)
    requires j < |ballots| && TallyMatches(counts, ballots)
    ensures TallyMatches(
      CorrectedPowerTally(counts, ballots[j].voteOptions, ballots[j].votingPower, newPower),
      ballots[j := Ballot(ballots[j].voteOptions, newPower)])
  {
    forall i | 0 <= i < |counts|
      ensures CorrectedPowerTally(counts, ballots[j].voteOptions, ballots[j].votingPower, newPower)[i]
              == OptionTotal(ballots[j := Ballot(ballots[j].voteOptions, newPower)], i)
    {
      OptionTotalUpdate(ballots, j, Ballot(ballots[j].voteOptions, newPower), i);
    }
  }
}
