/** The recipient verification contract: an admin-kept allow-list of aid
    recipients, each with a profile and a count of aid deliveries. */
module RecipientVerification {
  import opened Common
  import opened AccessControl

  /** A recipient's profile and statistics (`recipientDetails` entries). */
  datatype RecipientRecord = RecipientRecord(
    name: string,
    location: string,
    verificationDate: BlockHeight,
    needsCategory: string,
    aidReceivedCount: nat)

  /** The profile written by a successful add: the given name, location and
      needs category, the current block height, and no aid received yet. */
  function FreshRecipient(name: string, location: string, needsCategory: string, height: BlockHeight): (p: RecipientRecord)
  {
    RecipientRecord(name, location, height, needsCategory, 0)
  }

  /** The profile after one aid delivery: the count up by exactly one,
      every other field kept. */
  function AfterAid(p: RecipientRecord): (q: RecipientRecord)
  {
    p.(aidReceivedCount := p.aidReceivedCount + 1)
  }

  class RecipientRegistry {
    /** The contract's own admin. */
    const access: AdminState
    /** `verifiedRecipients`: absent (never added), false (revoked) or true. */
    var verifiedRecipients: map<Identity, bool>
    /** `recipientDetails`: kept after revocation. */
    var recipientDetails: map<Identity, RecipientRecord>

    /** Every verified recipient has a profile. */
    ghost predicate Valid()
      reads this
    {
      FlagsBacked(verifiedRecipients, recipientDetails)
    }

    /** Initial state: `initialAdmin` is the admin and both maps are empty. */
    constructor (initialAdmin: Identity)
      ensures Valid() && fresh(access)
      ensures access.admin == initialAdmin
      ensures verifiedRecipients == map[] && recipientDetails == map[]
    {
      access := new AdminState(initialAdmin);
      verifiedRecipients := map[];
      recipientDetails := map[];
    }

    /** `is-verified-recipient`: true exactly when the recipient's flag is
        true; a never-added and a revoked recipient both read false. A
        recipient that reads true always has a profile. */
    function IsVerifiedRecipient(recipient: Identity): (b: bool)
      reads this
      requires Valid()
      ensures b <==> recipient in verifiedRecipients && verifiedRecipients[recipient]
      ensures b ==> recipient in recipientDetails
    {
      Flag(verifiedRecipients, recipient)
    }

    /** `get-recipient-details`: the stored profile, if the recipient was ever
        added. It is always present for a verified recipient, and still
        present after the recipient was removed. */
    function GetRecipientDetails(recipient: Identity): (r: Option<RecipientRecord>)
      reads this
      requires Valid()
      ensures IsVerifiedRecipient(recipient) ==> r.Some?
      ensures r.Some? <==> recipient in recipientDetails
      ensures r.Some? ==> r.value == recipientDetails[recipient]
    {
      if recipient in recipientDetails then Some(recipientDetails[recipient]) else None
    }

    /** `add-verified-recipient`: admin only. Sets the flag to true and writes
        a fresh profile, replacing any earlier one (the count restarts at 0).
        A non-admin caller gets error 1 and nothing changes. */
    method AddVerifiedRecipient(caller: Identity, recipient: Identity, name: string, location: string,
                                needsCategory: string, height: BlockHeight)
      returns (r: Response<bool>)
      requires Valid()
      modifies this
      ensures Valid()
      ensures r.Ok? <==> access.IsAdmin(caller)
      ensures r.Ok? ==>
        && r == Ok(true)
        && verifiedRecipients == old(verifiedRecipients)[recipient := true]
        && recipientDetails == old(recipientDetails)[recipient := FreshRecipient(name, location, needsCategory, height)]
      ensures r.Err? ==>
        && r == Err(ErrUnauthorized)
        && verifiedRecipients == old(verifiedRecipients)
        && recipientDetails == old(recipientDetails)
    {
      if !access.IsAdmin(caller) {
        return Err(ErrUnauthorized);
      }
      verifiedRecipients := verifiedRecipients[recipient := true];
      recipientDetails := recipientDetails[recipient := FreshRecipient(name, location, needsCategory, height)];
      r := Ok(true);
    }

    /** `remove-verified-recipient`: admin only. Sets the flag to false and
        keeps the profile. A non-admin caller gets error 1 and nothing
        changes. */
    method RemoveVerifiedRecipient(caller: Identity, recipient: Identity) returns (r: Response<bool>)
      requires Valid()
      modifies this
      ensures Valid()
      ensures r.Ok? <==> access.IsAdmin(caller)
      ensures r.Ok? ==>
        && r == Ok(true)
        && verifiedRecipients == old(verifiedRecipients)[recipient := false]
        && !IsVerifiedRecipient(recipient)
      ensures r.Err? ==> r == Err(ErrUnauthorized) && verifiedRecipients == old(verifiedRecipients)
      ensures recipientDetails == old(recipientDetails)
    {
      if !access.IsAdmin(caller) {
        return Err(ErrUnauthorized);
      }
      verifiedRecipients := verifiedRecipients[recipient := false];
      r := Ok(true);
    }

    /** `record-aid-received`: open to any caller, but only for a verified
        recipient, whose aid count rises by exactly one; nothing else
        changes. For any other recipient it returns error 2 and nothing
        changes. */
    method RecordAidReceived(recipient: Identity) returns (r: Response<bool>)
      requires Valid()
      modifies this
      ensures Valid()
      ensures r.Ok? <==> old(IsVerifiedRecipient(recipient))
      ensures r.Ok? ==>
        && r == Ok(true)
        && recipientDetails == old(recipientDetails)[recipient := AfterAid(old(recipientDetails[recipient]))]
      ensures r.Err? ==> r == Err(ErrNotVerified) && recipientDetails == old(recipientDetails)
      ensures verifiedRecipients == old(verifiedRecipients)
    {
      if !IsVerifiedRecipient(recipient) {
        return Err(ErrNotVerified);
      }
      var details := recipientDetails[recipient];
      recipientDetails := recipientDetails[recipient := AfterAid(details)];
      r := Ok(true);
    }
  }
}
