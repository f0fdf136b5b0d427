/** The state of the charity evaluator contract as values: the records it
    keeps, the invariant that ties them together, and the combined scores an
    incentive round is computed from.

    Charity ids are handed out as `0, 1, 2, ...` (the registry's size at the
    time of registration) and no charity is ever removed, so the registry is
    a sequence indexed by id: id `i` is registered exactly when
    `i < |charities|`. */
module RegistryState {
  import opened Common
  import opened Allocation

  /** A registered charity. `transparencyScore` starts at 100 and no operation
      here changes it. */
  datatype Charity = Charity(
    name: string,
    description: string,
    wallet: string,
    totalDonations: nat,
    transparencyScore: nat)

  /** The current administrator-set impact score of a charity (the
      `lastUpdated` timestamp is not modelled). */
  datatype ImpactScore = ImpactScore(score: nat)

  /** A donor's vote: its score and the donation amount it was cast with. */
  datatype Vote = Vote(score: nat, weight: nat)

  /** The contract's invariant: each charity's total is the sum of the amounts
      added to it; every score lies in [0, 100]; every donation names a
      registered charity; every vote has a donation behind it. */
  ghost predicate Consistent(
    charities: seq<Charity>, donations: map<DonationKey, Donation>,
    impactScores: map<nat, ImpactScore>, votes: map<DonationKey, Vote>,
    contributions: seq<seq<nat>>)
  {
    |contributions| == |charities| &&
    (forall id :: 0 <= id < |charities| ==>
      charities[id].totalDonations == Sum(contributions[id]) &&
      charities[id].transparencyScore <= MaxScore) &&
    (forall k :: k in donations ==> k.0 < |charities|) &&
    (forall k :: k in votes ==> k in donations && votes[k].score <= MaxScore) &&
    (forall id :: id in impactScores ==> impactScores[id].score <= MaxScore)
  }

  /** A donation to a registered charity keeps the state consistent: the
      charity's total and its list of contributions grow by the same amount. */
  lemma DonationKeepsConsistent(
    charities: seq<Charity>, donations: map<DonationKey, Donation>,
    impactScores: map<nat, ImpactScore>, votes: map<DonationKey, Vote>,
    contributions: seq<seq<nat>>,
    charityId: nat, amount: nat, sender: string)
    requires Consistent(charities, donations, impactScores, votes, contributions)
    requires charityId < |charities|
    ensures Consistent(
      charities[charityId := charities[charityId].(totalDonations := charities[charityId].totalDonations + amount)],
      donations[(charityId, sender) := Donation(amount)],
      impactScores, votes,
      contributions[charityId := contributions[charityId] + [amount]])
  {
    SumAppend(contributions[charityId], amount);
  }

  /** The impact score used for `id` in a round, 0 when none is recorded. */
  function ImpactOf(impactScores: map<nat, ImpactScore>, id: nat): nat
  {
    if id in impactScores then impactScores[id].score else 0
  }

  /** The combined scores of charities `0 .. n - 1`, in registration order. */
  function CombinedScoresUpTo(charities: seq<Charity>, impactScores: map<nat, ImpactScore>, n: nat): (r: seq<nat>)
    requires n <= |charities|
    ensures |r| == n
    ensures forall id :: 0 <= id < n ==>
      r[id] == Combined(ImpactOf(impactScores, id), charities[id].transparencyScore)
  {
    if n == 0 then
      []
    else
      CombinedScoresUpTo(charities, impactScores, n - 1) +
        [Combined(ImpactOf(impactScores, n - 1), charities[n - 1].transparencyScore)]
  }
}
