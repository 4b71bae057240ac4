/** The behaviours the three contracts are exercised with, replayed against
    the models. Each one follows from the operations' contracts alone. */
module Scenarios {
  import opened Common
  import opened AccessControl
  import opened DonorVerification
  import opened RecipientVerification
  import opened ImpactMeasurement

  /** A donor is added, gives 100, is removed, and then tries to give 50:
      the add and the first donation succeed, the revoked donor reads as
      not verified, the late donation is refused with error 2 and the
      profile still shows one donation totalling 100. */
  method DonorLifecycle(admin: Identity, donor: Identity, height: BlockHeight)
    returns (added: Response<bool>, afterAdd: Option<DonorRecord>, donated: Response<bool>,
             afterDonation: Option<DonorRecord>, verifiedAfterRemove: bool,
             lateDonation: Response<bool>, finalDetails: Option<DonorRecord>)
    ensures added == Ok(true)
    ensures afterAdd == Some(DonorRecord("Test Donor", height, 0, 0))
    ensures donated == Ok(true)
    ensures afterDonation == Some(DonorRecord("Test Donor", height, 1, 100))
    ensures !verifiedAfterRemove
    ensures lateDonation == Err(ErrNotVerified)
    ensures finalDetails == afterDonation
  {
    var registry := new DonorRegistry(admin);
    added := registry.AddVerifiedDonor(admin, donor, "Test Donor", height);
    afterAdd := registry.GetDonorDetails(donor);
    donated := registry.RecordDonation(donor, 100);
    afterDonation := registry.GetDonorDetails(donor);
    var removed := registry.RemoveVerifiedDonor(admin, donor);
    verifiedAfterRemove := registry.IsVerifiedDonor(donor);
    lateDonation := registry.RecordDonation(donor, 50);
    finalDetails := registry.GetDonorDetails(donor);
  }

  /** A recipient is added, receives aid once and is removed: the profile
      carries the given fields and a count of 1 and survives removal,
      after which further aid is refused with error 2. A recipient never
      added is refused as well and has no profile. */
  method RecipientLifecycle(admin: Identity, recipient: Identity, stranger: Identity, height: BlockHeight)
    returns (added: Response<bool>, received: Response<bool>, afterAid: Option<RecipientRecord>,
             verifiedAfterRemove: bool, lateAid: Response<bool>, strangerAid: Response<bool>,
             strangerDetails: Option<RecipientRecord>)
    requires stranger != recipient
    ensures added == Ok(true) && received == Ok(true)
    ensures afterAid == Some(RecipientRecord("Test Recipient", "Test Location", height, "Food", 1))
    ensures !verifiedAfterRemove
    ensures lateAid == Err(ErrNotVerified)
    ensures strangerAid == Err(ErrNotVerified) && strangerDetails == None
  {
    var registry := new RecipientRegistry(admin);
    added := registry.AddVerifiedRecipient(admin, recipient, "Test Recipient", "Test Location", "Food", height);
    received := registry.RecordAidReceived(recipient);
    afterAid := registry.GetRecipientDetails(recipient);
    var removed := registry.RemoveVerifiedRecipient(admin, recipient);
    verifiedAfterRemove := registry.IsVerifiedRecipient(recipient);
    lateAid := registry.RecordAidReceived(recipient);
    strangerAid := registry.RecordAidReceived(stranger);
    strangerDetails := registry.GetRecipientDetails(stranger);
  }

  /** After the admin hands its role to someone else, the old admin's next
      admin-gated call is refused with error 1 and the new admin's succeeds,
      in both registries. */
  method AdminHandOver(oldAdmin: Identity, newAdmin: Identity, who: Identity, height: BlockHeight)
    returns (donorTransfer: Response<bool>, oldAdminAddsDonor: Response<bool>, newAdminAddsDonor: Response<bool>,
             recipientTransfer: Response<bool>, oldAdminAddsRecipient: Response<bool>,
             newAdminRemovesRecipient: Response<bool>)
    requires oldAdmin != newAdmin
    ensures donorTransfer == Ok(true) && oldAdminAddsDonor == Err(ErrUnauthorized) && newAdminAddsDonor == Ok(true)
    ensures recipientTransfer == Ok(true) && oldAdminAddsRecipient == Err(ErrUnauthorized)
    ensures newAdminRemovesRecipient == Ok(true)
  {
    var donors := new DonorRegistry(oldAdmin);
    donorTransfer := donors.access.TransferAdmin(oldAdmin, newAdmin);
    oldAdminAddsDonor := donors.AddVerifiedDonor(oldAdmin, who, "Test Donor", height);
    newAdminAddsDonor := donors.AddVerifiedDonor(newAdmin, who, "Test Donor", height);

    var recipients := new RecipientRegistry(oldAdmin);
    recipientTransfer := recipients.access.TransferAdmin(oldAdmin, newAdmin);
    oldAdminAddsRecipient := recipients.AddVerifiedRecipient(oldAdmin, who, "Test Recipient", "Test Location", "Food", height);
    newAdminRemovesRecipient := recipients.RemoveVerifiedRecipient(newAdmin, who);
  }

  /** Three records (two food, one healthcare) are filed and the first and
      third verified: the ids come out as 1, 2, 3, the food total counts
      only the verified 100 and the healthcare total is 300. A caller that
      is not the admin cannot verify the second record, and an id never
      handed out is reported missing. */
  method CategoryTotals(admin: Identity, outsider: Identity, recipient: Identity, height: BlockHeight)
    returns (ids: seq<Response<nat>>, food: CategoryTotal, health: CategoryTotal,
             outsiderVerify: Response<bool>, missingVerify: Response<bool>)
    requires outsider != admin
    ensures ids == [Ok(1), Ok(2), Ok(3)]
    ensures food == CategoryTotal("Food Security", 100)
    ensures health == CategoryTotal("Healthcare", 300)
    ensures outsiderVerify == Err(ErrUnauthorized)
    ensures missingVerify == Err(ErrNotFound)
  {
    var ledger := new ImpactLedger(admin);
    var id1 := ledger.RecordImpact(1, recipient, 1, 100, height);
    var id2 := ledger.RecordImpact(2, recipient, 1, 200, height);
    var id3 := ledger.RecordImpact(3, recipient, 2, 300, height);
    ids := [id1, id2, id3];
    var v1 := ledger.VerifyImpact(admin, 1, "Impact 1");
    var v3 := ledger.VerifyImpact(admin, 3, "Impact 3");
    outsiderVerify := ledger.VerifyImpact(outsider, 2, "Impact 2");
    missingVerify := ledger.VerifyImpact(admin, 4, "Impact 4");
    food := ledger.GetTotalImpactByCategory("Food Security");
    health := ledger.GetTotalImpactByCategory("Healthcare");
  }
}
