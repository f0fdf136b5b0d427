# Decentralized Autonomous Charity Evaluator: a Dafny model

The evaluator is a set of contracts. A registry hands out sequential charity ids. Donors record donations against a charity. Each donation replaces that donor's record and adds to the charity's running total. An administrator sets impact scores in [0, 100]. A donor may vote on a charity they gave to, and the vote is weighted by that donation. An incentive round shares a pool of 1000000 among all charities. Each charity's share is proportional to its impact score times its transparency score, rounded down. A second contract, the donation tracker, records donations only after it has looked the charity up in the registry. It also answers lookups of single donations and of a charity's total.

The model has five modules, one file each:

- `common.dfy` (`Common`): the `ok`/`err` result and the optional value. It also holds the error codes 400 and 404, the score bounds, the donation record, and the sum of a sequence of naturals (the fold that adds up the combined scores).
- `allocation.dfy` (`Allocation`): the pool and the per-charity floor share as pure functions, plus the lemmas about them:
  - every share is at most the pool;
  - the shares add up to at most the pool;
  - fewer than one unit per charity is left undistributed;
  - shares follow the order of the scores in both directions;
  - a sole positive scorer takes the whole pool;
  - the 80/60 split is 571428/428571.
- `registry_state.dfy` (`RegistryState`): the registry's records as values, the invariant that ties them together, and the sequence of combined scores a round works from.
- `charity_registry.dfy` (`CharityRegistry`):
  - the class `Evaluator`, whose fields are the registry and the donation, impact-score, vote and incentive maps, with one method per operation;
  - the incentive loop `ShareOut` and the round it computes (`RoundOf`), with `RoundProperties`;
  - two end-to-end runs of the contract.
- `donation_tracker.dfy` (`DonationTracker`): the class `Tracker`, with its checked `RecordDonation`, the two lookups, and the registry's charity lookup and total update. The registry those two calls reach is a map field of the tracker.

Charity ids are the registry's size at registration, and no charity is ever removed. So the registry is a sequence indexed by id, and "ids are exactly `0 .. size - 1`" holds by construction. `Evaluator.Valid` is the invariant every operation keeps:

- each charity's `totalDonations` equals the sum of every amount ever donated to it, recorded in a ghost list per charity;
- every stored score lies in [0, 100];
- every donation names a registered charity;
- every vote has a donation behind it.

Donation and vote keys are `(charity id, donor)` pairs. The source writes them as the string `` `${charityId}-${sender}` ``. That string is in one-to-one correspondence with the pair, because a decimal id contains no `-`.

## Model

| member | source | states |
|---|---|---|
| CharityRegistry.Evaluator.constructor | tests/charity-registry.test.ts:3-8 | The contract starts with an empty registry and empty donation, score, vote and incentive maps, and the invariant holds. |
| CharityRegistry.Evaluator.RegisterCharity | tests/charity-registry.test.ts:11-15 | Returns `ok` with the number of charities registered before the call as the new id. Appends exactly one charity (the given name and description, the sender as wallet, total 0, transparency 100). Keeps the invariant. |
| CharityRegistry.Evaluator.RecordDonation | tests/charity-registry.test.ts:17-23 | For a registered charity: returns `ok true`. Replaces the donor's record for that charity with this amount, adds the amount to the charity's total, and changes nothing else. Keeps the invariant that each total is the sum of all amounts donated to it. |
| RegistryState.DonationKeepsConsistent | tests/charity-registry.test.ts:17-23 | Adding an amount to a charity's total and to its list of donations, and storing the donor's record, keeps the whole invariant. |
| CharityRegistry.Evaluator.UpdateImpactScore | tests/charity-registry.test.ts:25-29 | A score in [0, 100] (both ends included) is stored for the charity, overwriting any earlier one, and the result is `ok true`. Any other score gives `err 400` and leaves the scores unchanged. Keeps the invariant. |
| CharityRegistry.Evaluator.CastVote | tests/charity-registry.test.ts:31-39 | An out-of-range score gives `err 400`, checked before any lookup. Otherwise a donor with no donation to the charity gets `err 404`. Both errors leave the votes unchanged. Otherwise the vote at (charity, donor) becomes (score, current donation amount), overwriting any earlier vote, and the result is `ok true`. |
| Common.Sum | tests/charity-registry.test.ts:42-45 | The left fold of `+` from 0 over a sequence of naturals: the `reduce` that adds up the combined scores into `totalScore`. |
| RegistryState.ImpactOf | tests/charity-registry.test.ts:43 | A charity's recorded impact score, or 0 when it has none. |
| Allocation.Combined | tests/charity-registry.test.ts:44 | A charity's combined score: its impact score times its transparency score. |
| RegistryState.CombinedScoresUpTo | tests/charity-registry.test.ts:42-45 | The sequence the fold runs over: one entry per charity in id order, equal to impact × transparency, with a missing impact score counted as 0. |
| Allocation.Share | tests/charity-registry.test.ts:52 | One charity's incentive: `pool * combined / total` rounded down, for a positive total. |
| Allocation.Shares | tests/charity-registry.test.ts:49-54 | The incentive of every charity of a round, in id order, each its `Share` of the pool against the sum of all combined scores. |
| CharityRegistry.RoundOf | tests/charity-registry.test.ts:49-54 | The entries the loop sets: id `i` maps to the `i`-th of `Shares`, for every id below the number of charities, and nothing else. A round over no charities sets nothing. |
| CharityRegistry.ShareOut | tests/charity-registry.test.ts:47-54 | The distribution loop. Every charity's entry becomes `floor(1000000 * combined / total)`, so its result is the old incentives overridden by the round; other entries are kept. |
| CharityRegistry.Evaluator.DistributeIncentives | tests/charity-registry.test.ts:41-57 | Returns `ok true`. `incentives` becomes its old value overridden by the round computed from the current registry and scores. On an empty registry `incentives` is unchanged. Nothing else is written, and the invariant is kept. |
| CharityRegistry.RoundProperties | tests/charity-registry.test.ts:41-57 | A round covers exactly the registered ids and gives no charity more than the pool. Its shares add up to at most the pool and to more than the pool minus the number of charities. A larger combined score never earns less, and a strictly larger share implies a strictly larger score. |
| Allocation.ShareBounds | tests/charity-registry.test.ts:52 | The share is the floor of `pool * combined / total`: `share * total <= pool * combined < (share + 1) * total`. |
| Allocation.ShareAtMostPool | tests/charity-registry.test.ts:52 | A combined score that is part of the total earns at most the pool. |
| Allocation.ShareMonotone | tests/charity-registry.test.ts:52 | Against the same total, a larger combined score never earns a smaller share. |
| Allocation.SharesOverSum | tests/charity-registry.test.ts:49-54 | The sum of the floored shares, scaled by the total, is at most the exact `pool * Σ scores`. The rounding loses at most `total - 1` per charity. |
| Allocation.EachShareAtMostPool | tests/charity-registry.test.ts:42-54 | Each charity's share in a round is at most 1000000 (or whatever pool is used). |
| Allocation.SharesSumAtMostPool | tests/charity-registry.test.ts:42-54 | The shares of a round add up to at most the pool. |
| Allocation.RoundingLossBelowCount | tests/charity-registry.test.ts:42-54 | Floor rounding leaves less than one unit per charity undistributed: `pool < Σ shares + number of charities`. |
| Allocation.SharesFollowScores | tests/charity-registry.test.ts:42-54 | Shares are ordered like the combined scores: `score_i <= score_j` implies `share_i <= share_j`, and `share_i < share_j` implies `score_i < score_j`. |
| Allocation.SoleScorerTakesPool | tests/charity-registry.test.ts:42-54 | If one charity has the only positive combined score, it receives the whole pool. |
| Allocation.TwoCharitySplit | tests/charity-registry.test.ts:100-107 | For impact scores 80 and 60 at transparency 100, the total is 14000 and the pool splits into 571428 and 428571. |
| CharityRegistry.TwoCharityRound | tests/charity-registry.test.ts:100-107 | Two registered charities at transparency 100, with impact scores 80 and 60, have a positive total and receive 571428 and 428571. |
| CharityRegistry.EvaluatorRun | tests/charity-registry.test.ts:68-98 | The first registration returns id 0 and leaves one charity. Setting impact 80 succeeds and stores 80. A donation of 1000 makes the total 1000. A vote of 90 by that donor succeeds and is stored as (90, weight 1000). |
| CharityRegistry.IncentiveRun | tests/charity-registry.test.ts:100-107 | Registering two charities, setting impacts 80 and 60 and running a round gives charity 0 571428 and charity 1 428571, so charity 0 gets more. |
| CharityRegistry.EmptyRoundRun | tests/charity-registry.test.ts:41-57 | A round on a fresh contract, with no charity registered, returns `ok true` and leaves the incentives empty. |
| DonationTracker.Tracker.constructor | tests/donation-tracker_.test.ts:4-5 | A tracker starts with no donations, in front of the given registry, with no total updates issued. |
| DonationTracker.Tracker.GetCharity | tests/donation-tracker_.test.ts:45-48 | The registry lookup returns the charity exactly when the id is registered, and nothing otherwise. |
| DonationTracker.Tracker.UpdateTotalDonations | tests/donation-tracker_.test.ts:50-55 | May be called in any state. Each call is logged as (id, amount). It keeps the invariant. For a registered id it adds the amount to that charity's total. For an unknown id the registry is unchanged. The set of ids never changes. |
| DonationTracker.Tracker.RecordDonation | tests/donation-tracker_.test.ts:12-22 | An unknown charity gives `err 404` with no change at all, and no total update is issued. Otherwise the donor's record is replaced by this amount and exactly one total update (charity, amount) is issued, which raises the total by the amount. The result is `ok true`, and the donation can then be read back. |
| DonationTracker.Tracker.GetDonation | tests/donation-tracker_.test.ts:24-27 | Returns the stored record exactly when (charity, donor) has one, and `null` otherwise. It changes nothing. |
| DonationTracker.Tracker.GetTotalDonations | tests/donation-tracker_.test.ts:29-33 | Returns `err 404` exactly when the charity is unknown, and otherwise `ok` with its total. It changes nothing. |
| DonationTracker.TestRegistry | tests/donation-tracker_.test.ts:45-48 | The registry the tracker runs against knows only charity 0. |
| DonationTracker.TrackerRun | tests/donation-tracker_.test.ts:58-88 | A donation of 1000 to charity 0 succeeds, issues the total update (0, 1000) and reads back as 1000. A donation to charity 999 fails with 404 and issues no total update. Both logs of total updates are returned as ghost results. An unknown donor has no donation. Charity 999's total is `err 404`. |
| DonationTracker.StrayUpdateRun | tests/donation-tracker_.test.ts:50-55 | A total update for unknown charity 999 leaves the registry as it was. A later donation of 1 to charity 0 still succeeds, and its total becomes 1. |

## Left out

- Timestamps: `Date.now()` in donation and impact-score records is wall-clock input. The records keep only the amount or score.
- String keys: the `` `${charityId}-${sender}` `` formatting is modelled as the pair it encodes.
- Number semantics: amounts are naturals and scores are integers. Negative or fractional amounts, and fractional scores, are not modelled; the source validates neither.
- Floating-point division: the model uses exact integer floor division. The source divides in floating point and then floors. The two agree while the rounding error of the quotient stays below `1 / totalScore`, which holds for any registry of fewer than a million charities with scores in [0, 100].
- CharityRegistry.Evaluator.DistributeIncentives: requires the total combined score to be positive unless the registry is empty. An empty registry is modelled: no share is computed, nothing is written, and the result is `ok true`. When charities are registered but their total is 0, the source computes `0 / 0` and stores `NaN` for every charity. The model does not represent `NaN`.
- CharityRegistry.Evaluator.RecordDonation: requires the charity to be registered. For an unknown id, the source first stores the donation record and then throws when it increments the missing charity's total. The model does not represent that crash or the partial write before it.
- CharityRegistry.ShareOut: reuses the combined scores the first pass computed instead of recomputing each one in the second loop. Nothing changes between the two passes, so the values are the same.
- DonationTracker.Tracker.UpdateTotalDonations: models the total update as an in-place increment of the registry entry. The test's `mockGetCharity` builds a new record on every call, so as the test is written the increment lands on a temporary copy and is lost.
- The mocked registry's call recording (`toHaveBeenCalledWith`, `not.toHaveBeenCalled`) is modelled by the ghost log `totalUpdates`. The rest of the test framework is not modelled.
- Names, descriptions and wallets are stored as given. Transparency scores never change after registration, because no operation here changes them.
- The code has no separate outcome for a round over registered charities whose total score is 0, and it does not validate donation amounts. The model adds neither.
