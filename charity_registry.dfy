/** The charity evaluator contract: registry, donations, impact scores, votes
    and the incentive round, as one object owning the registry and four maps. */
module CharityRegistry {
  import opened Common
  import opened Allocation
  import opened RegistryState

  /** The incentives a round assigns: one entry per id `0 .. |scores| - 1`, each
      the share of the pool that id's combined score earns. A round over no
      charities assigns nothing. */
  ghost function RoundOf(pool: nat, scores: seq<nat>): map<nat, nat>
    requires |scores| == 0 || Sum(scores) > 0
  {
    map id: nat | id < |scores| :: Shares(pool, scores)[id]
  }

  /** What a round guarantees: it covers exactly the registered ids, no charity
      gets more than the pool, the shares add up to at most the pool and to more
      than the pool minus the number of charities, and a larger combined score
      never earns less (so a strictly larger share means a strictly larger
      score). */
  lemma RoundProperties(pool: nat, scores: seq<nat>)
    requires Sum(scores) > 0
    ensures forall id: nat :: id in RoundOf(pool, scores) <==> id < |scores|
    ensures forall id :: id in RoundOf(pool, scores) ==> RoundOf(pool, scores)[id] <= pool
    ensures Sum(Shares(pool, scores)) <= pool < Sum(Shares(pool, scores)) + |scores|
    ensures forall a: nat, b: nat :: a < |scores| && b < |scores| && scores[a] <= scores[b] ==>
      RoundOf(pool, scores)[a] <= RoundOf(pool, scores)[b]
    ensures forall a: nat, b: nat ::
      a < |scores| && b < |scores| && RoundOf(pool, scores)[a] < RoundOf(pool, scores)[b] ==>
        scores[a] < scores[b]
  {
    var round := RoundOf(pool, scores);
    forall id | id in round
      ensures round[id] <= pool
    {
      EachShareAtMostPool(pool, scores, id);
    }
    forall a: nat, b: nat | a < |scores| && b < |scores|
      ensures scores[a] <= scores[b] ==> round[a] <= round[b]
      ensures round[a] < round[b] ==> scores[a] < scores[b]
    {
      SharesFollowScores(pool, scores, a, b);
    }
    SharesSumAtMostPool(pool, scores);
    RoundingLossBelowCount(pool, scores);
  }

  /** The second pass of `distributeIncentives`: gives each charity, in id
      order, its floor share of the pool and sets it in `incentives`. Those
      sets overwrite the charities' earlier entries and keep any other entry,
      which is the map override of `incentives` by the round. The combined
      scores are the ones the first pass summed; nothing changes them in
      between, so recomputing them per charity gives the same values. With no
      charities the loop runs no iteration, so no share is computed. */
  method ShareOut(scores: seq<nat>, incentives: map<nat, nat>) returns (round: map<nat, nat>)
    requires |scores| == 0 || Sum(scores) > 0
    ensures round == incentives + RoundOf(IncentivePool, scores)
  {
    var totalScore := Sum(scores);
    ghost var target := if |scores| == 0 then [] else Shares(IncentivePool, scores);
    var earned: map<nat, nat> := map[];
    var i := 0;
    while i < |scores|
      invariant 0 <= i <= |scores|
      invariant forall id :: id in earned ==> id < i && earned[id] == target[id]
      invariant forall id: nat :: id < i ==> id in earned
    {
      var incentiveAmount := Share(IncentivePool, scores[i], totalScore);
      assert incentiveAmount == target[i];
      earned := earned[i := incentiveAmount];
      i := i + 1;
    }
    assert earned == RoundOf(IncentivePool, scores);
    round := incentives + earned;
  }

  class Evaluator {
    /** The registry; a charity's id is its position. */
    var charities: seq<Charity>
    var donations: map<DonationKey, Donation>
    var impactScores: map<nat, ImpactScore>
    var votes: map<DonationKey, Vote>
    var incentives: map<nat, nat>
    /** Every amount ever added to each charity's total, in order. */
    ghost var contributions: seq<seq<nat>>

    /** The contract's invariant (see `Consistent`). It does not read
        `incentives`, which only the incentive round writes. */
    ghost predicate Valid()
      reads this`charities, this`donations, this`impactScores, this`votes, this`contributions
    {
      Consistent(charities, donations, impactScores, votes, contributions)
    }

    /** An empty contract state. */
    constructor ()
      ensures Valid()
      ensures charities == [] && donations == map[] && impactScores == map[]
      ensures votes == map[] && incentives == map[] && contributions == []
    {
      charities, donations, impactScores, votes, incentives := [], map[], map[], map[], map[];
      contributions := [];
    }

    /** Registers a charity under the next sequential id (the registry's
        size), with no donations and transparency 100. Always succeeds. */
    method RegisterCharity(name: string, description: string, sender: string) returns (r: Result<nat>)
      requires Valid()
      modifies this`charities, this`contributions
      ensures Valid()
      ensures r == Ok(|old(charities)|)
      ensures charities == old(charities) + [Charity(name, description, sender, 0, 100)]
      ensures contributions == old(contributions) + [[]]
    {
      var id := |charities|;
      charities, contributions := charities + [Charity(name, description, sender, 0, 100)], contributions + [[]];
      r := Ok(id);
    }

    /** Records `sender`'s donation to a registered charity: the per-donor record
        is replaced by this amount, while the charity's total grows by it. */
    method RecordDonation(charityId: nat, amount: nat, sender: string) returns (r: Result<bool>)
      requires Valid()
      requires charityId < |charities|
      modifies this`donations, this`charities, this`contributions
      ensures Valid()
      ensures r == Ok(true)
      ensures donations == old(donations)[(charityId, sender) := Donation(amount)]
      ensures charities == old(charities)[charityId :=
        old(charities)[charityId].(totalDonations := old(charities)[charityId].totalDonations + amount)]
      ensures contributions == old(contributions)[charityId := old(contributions)[charityId] + [amount]]
    {
      DonationKeepsConsistent(charities, donations, impactScores, votes, contributions, charityId, amount, sender);
      var charity := charities[charityId];
      donations, charities, contributions :=
        donations[(charityId, sender) := Donation(amount)],
        charities[charityId := charity.(totalDonations := charity.totalDonations + amount)],
        contributions[charityId := contributions[charityId] + [amount]];
      r := Ok(true);
    }

    /** Sets a charity's impact score, overwriting any earlier one; a score
        outside [0, 100] is rejected with 400 and changes nothing. The charity
        is not looked up. */
    method UpdateImpactScore(charityId: nat, score: int) returns (r: Result<bool>)
      requires Valid()
      modifies this`impactScores
      ensures Valid()
      ensures MinScore <= score <= MaxScore ==>
        r == Ok(true) && impactScores == old(impactScores)[charityId := ImpactScore(score)]
      ensures !(MinScore <= score <= MaxScore) ==>
        r == Err(InvalidScore) && impactScores == old(impactScores)
    {
      if score < MinScore || score > MaxScore {
        return Err(InvalidScore);
      }
      impactScores := impactScores[charityId := ImpactScore(score)];
      r := Ok(true);
    }

    /** Casts (or recasts) `sender`'s vote on a charity. The score is checked
        first (400), then the donor's donation to that charity (404); on success
        the vote records the score and, as its weight, the donation's current
        amount. */
    method CastVote(charityId: nat, score: int, sender: string) returns (r: Result<bool>)
      requires Valid()
      modifies this`votes
      ensures Valid()
      ensures !(MinScore <= score <= MaxScore) ==> r == Err(InvalidScore) && votes == old(votes)
      ensures MinScore <= score <= MaxScore && (charityId, sender) !in donations ==>
        r == Err(NotFound) && votes == old(votes)
      ensures MinScore <= score <= MaxScore && (charityId, sender) in donations ==>
        r == Ok(true) &&
        votes == old(votes)[(charityId, sender) := Vote(score, donations[(charityId, sender)].amount)]
    {
      if score < MinScore || score > MaxScore {
        return Err(InvalidScore);
      }
      var key := (charityId, sender);
      if key !in donations {
        return Err(NotFound);
      }
      var donation := donations[key];
      votes := votes[key := Vote(score, donation.amount)];
      r := Ok(true);
    }

    /** The combined scores of the registered charities, in id order. */
    ghost function Scores(): seq<nat>
      reads this`charities, this`impactScores
    {
      CombinedScoresUpTo(charities, impactScores, |charities|)
    }

    /** Runs an incentive round: every registered charity's entry of
        `incentives` is set to its floor share of the pool, proportional to
        impact times transparency. Only `incentives` is written. On an empty
        registry nothing is written and the round still succeeds. */
    method DistributeIncentives() returns (r: Result<bool>)
      requires Valid()
      requires |charities| == 0 || Sum(Scores()) > 0
      modifies this`incentives
      ensures Valid()
      ensures r == Ok(true)
      ensures incentives == old(incentives) + RoundOf(IncentivePool, Scores())
      ensures |charities| == 0 ==> incentives == old(incentives)
    {
      var scores := CombinedScoresUpTo(charities, impactScores, |charities|);
      incentives := ShareOut(scores, incentives);
      r := Ok(true);
    }
  }

  /** Two charities at transparency 100 with impact scores 80 and 60 (the
      state after registering both and setting their scores): the round gives
      them 571428 and 428571, so the first gets more. */
  lemma TwoCharityRound(c0: Charity, c1: Charity)
    requires c0.transparencyScore == 100 && c1.transparencyScore == 100
    ensures Sum(CombinedScoresUpTo([c0, c1], map[0 := ImpactScore(80), 1 := ImpactScore(60)], 2)) > 0
    ensures Shares(IncentivePool, CombinedScoresUpTo([c0, c1], map[0 := ImpactScore(80), 1 := ImpactScore(60)], 2))
      == [571428, 428571]
  {
    var scores := CombinedScoresUpTo([c0, c1], map[0 := ImpactScore(80), 1 := ImpactScore(60)], 2);
    assert scores == [Combined(80, 100), Combined(60, 100)];
    TwoCharitySplit();
  }

  /** A first charity gets id 0 and makes the registry one long; its impact
      score can be set to 80; a donation of 1000 by `donor1` makes its total
      1000, and that donor's vote of 90 is stored with weight 1000. */
  method EvaluatorRun() returns (id: Result<nat>, size: nat, scored: Result<bool>, impact: ImpactScore,
    total: nat, voted: Result<bool>, vote: Vote)
    ensures id == Ok(0) && size == 1
    ensures scored == Ok(true) && impact == ImpactScore(80)
    ensures total == 1000
    ensures voted == Ok(true) && vote == Vote(90, 1000)
  {
    var e := new Evaluator();
    id := e.RegisterCharity("Test Charity", "A test charity", "wallet1");
    size := |e.charities|;
    scored := e.UpdateImpactScore(0, 80);
    impact := e.impactScores[0];
    var _ := e.RecordDonation(0, 1000, "donor1");
    total := e.charities[0].totalDonations;
    voted := e.CastVote(0, 90, "donor1");
    vote := e.votes[(0, "donor1")];
  }

  /** A round on a fresh contract, before any charity is registered, succeeds
      and pays nothing. */
  method EmptyRoundRun() returns (r: Result<bool>, paid: map<nat, nat>)
    ensures r == Ok(true) && paid == map[]
  {
    var e := new Evaluator();
    r := e.DistributeIncentives();
    paid := e.incentives;
  }

  /** Two charities with impact scores 80 and 60: the round gives the first
      571428 and the second 428571. */
  method IncentiveRun() returns (first: nat, second: nat)
    ensures first == 571428 && second == 428571
  {
    var e := new Evaluator();
    var _ := e.RegisterCharity("Charity A", "Description A", "walletA");
    var _ := e.RegisterCharity("Charity B", "Description B", "walletB");
    var _ := e.UpdateImpactScore(0, 80);
    var _ := e.UpdateImpactScore(1, 60);
    TwoCharityRound(e.charities[0], e.charities[1]);
    assert e.charities == [e.charities[0], e.charities[1]];
    assert e.impactScores == map[0 := ImpactScore(80), 1 := ImpactScore(60)];
    var _ := e.DistributeIncentives();
    first, second := e.incentives[0], e.incentives[1];
  }
}
