/** The donation tracker contract: a second version of `recordDonation` that
    looks the charity up in the registry contract before recording anything,
    and the two read accessors. The registry contract is modelled by the map
    `charities`, its `get-charity` by a lookup in it and its total update by an
    in-place increment of it. */
module DonationTracker {
  import opened Common

  /** The registry's view of a charity, as the tracker receives it. */
  datatype TrackedCharity = TrackedCharity(id: nat, name: string, totalDonations: nat)

  class Tracker {
    var donations: map<DonationKey, Donation>
    /** The registry contract's charities. */
    var charities: map<nat, TrackedCharity>
    /** The calls made to the registry's total update, in order, as
        (charity id, amount). */
    ghost var totalUpdates: seq<(nat, nat)>

    /** Every donation names a charity the registry knows. */
    ghost predicate Valid()
      reads this`donations, this`charities
    {
      forall k :: k in donations ==> k.0 in charities
    }

    /** A tracker with no donations, in front of the given registry. */
    constructor (registry: map<nat, TrackedCharity>)
      ensures Valid()
      ensures donations == map[] && charities == registry && totalUpdates == []
    {
      donations, charities := map[], registry;
      totalUpdates := [];
    }

    /** The registry's `get-charity`: the charity, or nothing for an unknown id. */
    function GetCharity(charityId: nat): (r: Option<TrackedCharity>)
      reads this`charities
      ensures r.Some? <==> charityId in charities
      ensures r.Some? ==> r.value == charities[charityId]
    {
      if charityId in charities then Some(charities[charityId]) else None
    }

    /** The registry's total update: adds `amount` to a registered charity's
        total and does nothing for an unknown id. It may be called at any
        time and keeps `Valid`. */
    method UpdateTotalDonations(charityId: nat, amount: nat)
      modifies this`charities, this`totalUpdates
      ensures old(Valid()) ==> Valid()
      ensures totalUpdates == old(totalUpdates) + [(charityId, amount)]
      ensures charityId in old(charities) ==>
        charities == old(charities)[charityId :=
          old(charities)[charityId].(totalDonations := old(charities)[charityId].totalDonations + amount)]
      ensures charityId !in old(charities) ==> charities == old(charities)
      ensures charities.Keys == old(charities).Keys
    {
      totalUpdates := totalUpdates + [(charityId, amount)];
      var charity := GetCharity(charityId);
      if charity.Some? {
        var c := charity.value;
        charities := charities[charityId := c.(totalDonations := c.totalDonations + amount)];
      }
    }

    /** Records `sender`'s donation: an unknown charity is rejected with 404
        before anything changes; otherwise the per-donor record is replaced by
        this amount and the registry's total update is called once with
        (charityId, amount). */
    method RecordDonation(charityId: nat, amount: nat, sender: string) returns (r: Result<bool>)
      requires Valid()
      modifies this
      ensures Valid()
      ensures charityId !in old(charities) ==>
        r == Err(NotFound) && donations == old(donations) &&
        charities == old(charities) && totalUpdates == old(totalUpdates)
      ensures charityId in old(charities) ==>
        r == Ok(true) &&
        donations == old(donations)[(charityId, sender) := Donation(amount)] &&
        totalUpdates == old(totalUpdates) + [(charityId, amount)] &&
        charities == old(charities)[charityId :=
          old(charities)[charityId].(totalDonations := old(charities)[charityId].totalDonations + amount)]
      ensures charityId in old(charities) ==> GetDonation(charityId, sender) == Some(Donation(amount))
    {
      var charity := GetCharity(charityId);
      if charity.None? {
        return Err(NotFound);
      }
      donations := donations[(charityId, sender) := Donation(amount)];
      UpdateTotalDonations(charityId, amount);
      r := Ok(true);
    }

    /** The donation `donor` last made to a charity, or nothing if there is none. */
    function GetDonation(charityId: nat, donor: string): (r: Option<Donation>)
      reads this`donations
      ensures r.Some? <==> (charityId, donor) in donations
      ensures r.Some? ==> r.value == donations[(charityId, donor)]
    {
      if (charityId, donor) in donations then Some(donations[(charityId, donor)]) else None
    }

    /** A charity's total donations, or 404 for an unknown charity. */
    function GetTotalDonations(charityId: nat): (r: Result<nat>)
      reads this`charities
      ensures r.Err? <==> charityId !in charities
      ensures r.Err? ==> r.code == NotFound
      ensures r.Ok? ==> r.value == charities[charityId].totalDonations
    {
      match GetCharity(charityId)
      case None => Err(NotFound)
      case Some(charity) => Ok(charity.totalDonations)
    }
  }

  /** The registry the tracker is run against: only charity 0 exists. */
  function TestRegistry(): (m: map<nat, TrackedCharity>)
    ensures m.Keys == {0}
  {
    map[0 := TrackedCharity(0, "Test Charity", 0)]
  }

  /** Against that registry: a donation of 1000 to charity 0 succeeds, updates
      its total with (0, 1000) and can be read back; a donation to charity 999
      fails with 404 and updates nothing; an unknown donor has no donation; and
      charity 999 has no total. */
  method TrackerRun() returns (recorded: Result<bool>, donation: Option<Donation>,
    rejected: Result<bool>, noDonation: Option<Donation>, noTotal: Result<nat>,
    ghost updates: seq<(nat, nat)>, ghost rejectedUpdates: seq<(nat, nat)>)
    ensures recorded == Ok(true) && donation == Some(Donation(1000)) && updates == [(0, 1000)]
    ensures rejected == Err(NotFound) && rejectedUpdates == []
    ensures noDonation == None && noTotal == Err(NotFound)
  {
    var t := new Tracker(TestRegistry());
    recorded := t.RecordDonation(0, 1000, "donor1");
    updates := t.totalUpdates;
    donation := t.GetDonation(0, "donor1");
    var other := new Tracker(TestRegistry());
    rejected := other.RecordDonation(999, 1000, "donor1");
    rejectedUpdates := other.totalUpdates;
    noDonation := other.GetDonation(0, "non-existent-donor");
    noTotal := other.GetTotalDonations(999);
  }

  /** A total update for an unknown charity, issued directly, changes nothing
      in the registry and does not stop a later donation to charity 0. */
  method StrayUpdateRun() returns (recorded: Result<bool>, total: Result<nat>)
    ensures recorded == Ok(true) && total == Ok(1)
  {
    var t := new Tracker(TestRegistry());
    t.UpdateTotalDonations(999, 5);
    recorded := t.RecordDonation(0, 1, "d");
    total := t.GetTotalDonations(0);
  }
}
