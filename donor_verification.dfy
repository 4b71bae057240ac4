/** The donor verification contract: an admin-kept allow-list of donors,
    each with a profile and running donation statistics. */
module DonorVerification {
  import opened Common
  import opened AccessControl

  /** A donor's profile and statistics (`donorDetails` entries). */
  datatype DonorRecord = DonorRecord(
    name: string,
    verificationDate: BlockHeight,
    donationCount: nat,
    totalDonated: nat)

  /** The profile written by a successful add: the given name, the current
      block height, and both counters at zero. */
  function FreshDonor(name: string, height: BlockHeight): (d: DonorRecord)
  {
    DonorRecord(name, height, 0, 0)
  }

  /** The profile after one donation of `amount`: one more donation, the
      total up by exactly `amount`, name and verification date kept. */
  function AfterDonation(d: DonorRecord, amount: nat): (e: DonorRecord)
  {
    d.(donationCount := d.donationCount + 1, totalDonated := d.totalDonated + amount)
  }

  class DonorRegistry {
    /** The contract's own admin. */
    const access: AdminState
    /** `verifiedDonors`: absent (never added), false (revoked) or true. */
    var verifiedDonors: map<Identity, bool>
    /** `donorDetails`: kept after revocation. */
    var donorDetails: map<Identity, DonorRecord>

    /** Every verified donor has a profile. */
    ghost predicate Valid()
      reads this
    {
      FlagsBacked(verifiedDonors, donorDetails)
    }

    /** Initial state: `initialAdmin` is the admin and both maps are empty. */
    constructor (initialAdmin: Identity)
      ensures Valid() && fresh(access)
      ensures access.admin == initialAdmin
      ensures verifiedDonors == map[] && donorDetails == map[]
    {
      access := new AdminState(initialAdmin);
      verifiedDonors := map[];
      donorDetails := map[];
    }

    /** `is-verified-donor`: true exactly when the donor's flag is true;
        a never-added and a revoked donor both read false. A donor that
        reads true always has a profile. */
    function IsVerifiedDonor(donor: Identity): (b: bool)
      reads this
      requires Valid()
      ensures b <==> donor in verifiedDonors && verifiedDonors[donor]
      ensures b ==> donor in donorDetails
    {
      Flag(verifiedDonors, donor)
    }

    /** `get-donor-details`: the stored profile, if the donor was ever added.
        It is always present for a verified donor, and still present after
        the donor was removed. */
    function GetDonorDetails(donor: Identity): (r: Option<DonorRecord>)
      reads this
      requires Valid()
      ensures IsVerifiedDonor(donor) ==> r.Some?
      ensures r.Some? <==> donor in donorDetails
      ensures r.Some? ==> r.value == donorDetails[donor]
    {
      if donor in donorDetails then Some(donorDetails[donor]) else None
    }

    /** `add-verified-donor`: admin only. Sets the flag to true and writes a
        fresh profile, replacing any earlier one (statistics restart at 0).
        A non-admin caller gets error 1 and nothing changes. */
    method AddVerifiedDonor(caller: Identity, donor: Identity, name: string, height: BlockHeight)
      returns (r: Response<bool>)
      requires Valid()
      modifies this
      ensures Valid()
      ensures r.Ok? <==> access.IsAdmin(caller)
      ensures r.Ok? ==>
        && r == Ok(true)
        && verifiedDonors == old(verifiedDonors)[donor := true]
        && donorDetails == old(donorDetails)[donor := FreshDonor(name, height)]
      ensures r.Err? ==>
        && r == Err(ErrUnauthorized)
        && verifiedDonors == old(verifiedDonors)
        && donorDetails == old(donorDetails)
    {
      if !access.IsAdmin(caller) {
        return Err(ErrUnauthorized);
      }
      verifiedDonors := verifiedDonors[donor := true];
      donorDetails := donorDetails[donor := FreshDonor(name, height)];
      r := Ok(true);
    }

    /** `remove-verified-donor`: admin only. Sets the flag to false and keeps
        the profile. A non-admin caller gets error 1 and nothing changes. */
    method RemoveVerifiedDonor(caller: Identity, donor: Identity) returns (r: Response<bool>)
      requires Valid()
      modifies this
      ensures Valid()
      ensures r.Ok? <==> access.IsAdmin(caller)
      ensures r.Ok? ==>
        && r == Ok(true)
        && verifiedDonors == old(verifiedDonors)[donor := false]
        && !IsVerifiedDonor(donor)
      ensures r.Err? ==> r == Err(ErrUnauthorized) && verifiedDonors == old(verifiedDonors)
      ensures donorDetails == old(donorDetails)
    {
      if !access.IsAdmin(caller) {
        return Err(ErrUnauthorized);
      }
      verifiedDonors := verifiedDonors[donor := false];
      r := Ok(true);
    }

    /** `record-donation`: open to any caller, but only for a verified donor,
        whose donation count rises by one and total by `amount`; nothing
        else changes. For any other donor it returns error 2 and nothing
        changes. */
    method RecordDonation(donor: Identity, amount: nat) returns (r: Response<bool>)
      requires Valid()
      modifies this
      ensures Valid()
      ensures r.Ok? <==> old(IsVerifiedDonor(donor))
      ensures r.Ok? ==>
        && r == Ok(true)
        && donorDetails == old(donorDetails)[donor := AfterDonation(old(donorDetails[donor]), amount)]
      ensures r.Err? ==> r == Err(ErrNotVerified) && donorDetails == old(donorDetails)
      ensures verifiedDonors == old(verifiedDonors)
    {
      if !IsVerifiedDonor(donor) {
        return Err(ErrNotVerified);
      }
      var details := donorDetails[donor];
      donorDetails := donorDetails[donor := AfterDonation(details, amount)];
      r := Ok(true);
    }
  }
}
