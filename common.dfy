/** Shared vocabulary of the charity evaluator: tagged results, error codes,
    donation records and the sum of a sequence of naturals. */
module Common {

  /** The `{ type: 'ok', value }` / `{ type: 'err', value: code }` objects the
      contract functions return. */
  datatype Result<T> = Ok(value: T) | Err(code: nat)

  /** A value or `null`. */
  datatype Option<T> = None | Some(value: T)

  /** Error code for a score outside [0, 100]. */
  const InvalidScore: nat := 400
  /** Error code for a missing charity or donation. */
  const NotFound: nat := 404

  /** Lowest and highest accepted score. */
  const MinScore: int := 0
  const MaxScore: int := 100

  /** A donation record (its timestamp is not modelled). */
  datatype Donation = Donation(amount: nat)

  /** Donations and votes are keyed by (charity id, donor identity). */
  type DonationKey = (nat, string)

  /** Left fold of `+` over `s`, as `reduce((sum, x) => sum + x, 0)` computes it. */
  function Sum(s: seq<nat>): nat
  {
    if s == [] then 0 else Sum(s[..|s| - 1]) + s[|s| - 1]
  }

  lemma SumAppend(s: seq<nat>, x: nat)
    ensures Sum(s + [x]) == Sum(s) + x
  {
    assert (s + [x])[..|s|] == s;
  }

  /** Every element is bounded by the sum. */
  lemma {:induction false} ElementAtMostSum(s: seq<nat>, i: nat)
    requires i < |s|
    ensures s[i] <= Sum(s)
  {
    if i < |s| - 1 {
      ElementAtMostSum(s[..|s| - 1], i);
    }
  }

  /** A sequence whose only positive entry is `s[i]` sums to `s[i]`. */
  lemma {:induction false} SumOfSingleSupport(s: seq<nat>, i: nat)
    requires i < |s|
    requires forall j :: 0 <= j < |s| && j != i ==> s[j] == 0
    ensures Sum(s) == s[i]
  {
    if i < |s| - 1 {
      SumOfSingleSupport(s[..|s| - 1], i);
    } else {
      SumOfZeros(s[..|s| - 1]);
    }
  }

  lemma {:induction false} SumOfZeros(s: seq<nat>)
    requires forall j :: 0 <= j < |s| ==> s[j] == 0
    ensures Sum(s) == 0
  {
    if s != [] {
      SumOfZeros(s[..|s| - 1]);
    }
  }
}
