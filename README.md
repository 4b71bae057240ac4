# Humanitarian aid ledger contracts, modelled in Dafny

This project models the three contracts of a humanitarian-aid transparency
ledger:

- **Donor verification**: an admin-kept allow-list of donors. Each donor has
  a profile (name, verification date) and donation statistics (number of
  donations, total donated).
- **Recipient verification**: the same shape for aid recipients. The profile
  holds name, location, verification date and needs category. The statistic
  is the number of aid deliveries received.
- **Impact measurement**: an append-only ledger of aid disbursement records.
  Anyone may file a record. Each record gets the next sequential id and a
  category derived from its aid type. Only the admin can verify (attest) a
  record. Per-category totals count only verified records.

Each contract has its own single admin. Only the admin can make
admin-gated calls, and the admin can hand the role to another principal
in one step.

Every contract is a class whose fields are the contract's tables
(`map`s) and counters. Entry points that change the tables are methods
with a `modifies` clause; the lookups are functions, and the category
total is a read-only method with a loop, as in the code. The admin lives
in a separate `AdminState` object that each contract owns through its
`access` field, so `is-admin` and `transfer-admin` are reached as
`access.IsAdmin` and `access.TransferAdmin`. The calling principal and the current block
height are parameters. Principals are an opaque type with equality only.

| file | contents |
|---|---|
| `common.dfy` | principals, block heights, the `Ok`/`Err` response shape with the error codes 1 (unauthorized) and 2 (not verified / not found), and the membership-flag convention |
| `access_control.dfy` | `AdminState`: the admin field, `is-admin`, `transfer-admin` |
| `donor_verification.dfy` | `DonorRegistry` |
| `recipient_verification.dfy` | `RecipientRegistry` |
| `impact_measurement.dfy` | the category taxonomy, the filtered-sum definition of a category total and its lemmas, `ImpactLedger` |
| `scenarios.dfy` | the contracts' usage scenarios, proved from the operations' contracts alone |

Invariants kept by every operation (`Valid()`):

- in both registries, a donor or recipient whose flag is true has a
  profile, so the profile lookup after a successful flag check never
  misses;
- in the impact ledger, the stored ids are exactly 1 to the counter, so
  ids are handed out in call order and are never reused.

Every failing call returns its error code and leaves all state as it was.

## Model

| member | source | states |
|---|---|---|
| `AccessControl.AdminState.constructor` | tests/donor-verification.test.ts:7-8 | the initial admin is the deploying principal |
| `AccessControl.AdminState.IsAdmin` | tests/donor-verification.test.ts:14-16 | the calling principal is the admin exactly when it equals the stored admin |
| `AccessControl.AdminState.TransferAdmin` | tests/donor-verification.test.ts:49-53 | succeeds exactly when the caller is the admin, and then the new admin replaces it at once; after a hand-over to someone else the old admin is no longer admin; any other caller gets error 1 and the admin is unchanged (the same entry point in all three contracts) |
| `DonorVerification.DonorRegistry.constructor` | tests/donor-verification.test.ts:7-10 | starts with the given admin, no flags and no profiles, which satisfies the invariant |
| `DonorVerification.DonorRegistry.IsVerifiedDonor` | tests/donor-verification.test.ts:33-35 | true only when the flag is true (never-added and revoked donors read false); a donor that reads true always has a profile |
| `DonorVerification.DonorRegistry.GetDonorDetails` | tests/donor-verification.test.ts:46-48 | a profile is returned exactly when one was stored; every verified donor has one |
| `DonorVerification.DonorRegistry.AddVerifiedDonor` | tests/donor-verification.test.ts:17-27 | admin only: the flag becomes true and the profile is overwritten with the given name, the current block height and zero donations totalling zero, even for a donor added before; no other donor changes; a non-admin gets error 1 and nothing changes; keeps the invariant |
| `DonorVerification.DonorRegistry.RemoveVerifiedDonor` | tests/donor-verification.test.ts:28-32 | admin only: the flag becomes false, the donor then reads as not verified, and profiles are never touched; a non-admin gets error 1 and nothing changes |
| `DonorVerification.DonorRegistry.RecordDonation` | tests/donor-verification.test.ts:36-45 | succeeds exactly for a verified donor, whose profile alone gets one more donation and exactly `amount` more in total, name and verification date kept; any other donor gets error 2 and nothing changes; flags never change |
| `RecipientVerification.RecipientRegistry.constructor` | tests/recipient-verification.test.ts:7-10 | starts with the given admin, no flags and no profiles |
| `RecipientVerification.RecipientRegistry.IsVerifiedRecipient` | tests/recipient-verification.test.ts:34-36 | true only when the flag is true (never-added and revoked recipients read false); a recipient that reads true always has a profile |
| `RecipientVerification.RecipientRegistry.GetRecipientDetails` | tests/recipient-verification.test.ts:46-48 | a profile is returned exactly when one was stored; every verified recipient has one |
| `RecipientVerification.RecipientRegistry.AddVerifiedRecipient` | tests/recipient-verification.test.ts:17-28 | admin only: the flag becomes true and the profile is overwritten with the given name, location and needs category, the current block height and a zero aid count, even for a recipient added before; no other recipient changes; a non-admin gets error 1 and nothing changes; keeps the invariant |
| `RecipientVerification.RecipientRegistry.RemoveVerifiedRecipient` | tests/recipient-verification.test.ts:29-33 | admin only: the flag becomes false and profiles are never touched; a non-admin gets error 1 and nothing changes |
| `RecipientVerification.RecipientRegistry.RecordAidReceived` | tests/recipient-verification.test.ts:37-45 | succeeds exactly for a verified recipient, whose aid count alone rises by exactly 1, every other field and every other recipient kept; any other recipient gets error 2 and nothing changes; the invariant is what makes the profile lookup safe |
| `ImpactMeasurement.Category` | tests/impact-measurement.test.ts:22-41 | aid types 1 to 5 map to Food Security, Healthcare, Shelter, Education, Financial Support; every other value maps to Other |
| `ImpactMeasurement.CategorySeparatesAidTypes` | tests/impact-measurement.test.ts:22-41 | two aid types share a category only if they are equal or both outside 1 to 5 |
| `ImpactMeasurement.TotalUpToFrame` | tests/impact-measurement.test.ts:75-86 | a category total depends only on the records stored under the ids it ranges over |
| `ImpactMeasurement.TotalAfterAppend` | tests/impact-measurement.test.ts:17-56 | storing a record under the next id raises a category total by exactly that record's contribution (zero for an unverified record) |
| `ImpactMeasurement.TotalAfterUpdate` | tests/impact-measurement.test.ts:57-71 | replacing a stored record changes a category total by the new record's contribution minus the old one's |
| `ImpactMeasurement.AttestRaisesTotal` | tests/impact-measurement.test.ts:57-86 | verifying a record raises the total of its own category by its amount if it was unverified, and leaves every other total, and every total on re-verification, unchanged |
| `ImpactMeasurement.ImpactLedger.constructor` | tests/impact-measurement.test.ts:7-10 | starts with the given admin, no records and counter 0, so every category total is 0 |
| `ImpactMeasurement.ImpactLedger.RecordImpact` | tests/impact-measurement.test.ts:17-56 | open to any caller; returns the counter plus one as the new id, which was not in use; stores under it a record holding allocation id, recipient, aid type and amount as given, the current block height, the category of its aid type, an empty description and not verified, and touches no other record; the stored ids stay exactly 1 to the counter; no category total changes |
| `ImpactMeasurement.ImpactLedger.VerifyImpact` | tests/impact-measurement.test.ts:57-71 | a non-admin gets error 1 before any existence check; the admin gets error 2 for an id not in the ledger; both leave the ledger as it was; otherwise only that record changes (description set, verified, every other field kept), re-verification included, and its category total rises by its amount if it was unverified |
| `ImpactMeasurement.ImpactLedger.GetImpactDetails` | tests/impact-measurement.test.ts:72-74 | a record is found exactly for the ids handed out so far |
| `ImpactMeasurement.ImpactLedger.GetTotalImpactByCategory` | tests/impact-measurement.test.ts:75-86 | returns the category asked for and the sum of the amounts of the verified records in that category over the whole ledger |
| `Scenarios.DonorLifecycle` | tests/donor-verification.test.ts:64-103 | add, donate 100, remove, donate 50: the late donation gets error 2 and the retained profile still shows one donation totalling 100 |
| `Scenarios.RecipientLifecycle` | tests/recipient-verification.test.ts:64-103 | add, receive aid, remove: the profile shows the given fields and a count of 1; aid for a revoked or never-added recipient gets error 2; a never-added recipient has no profile |
| `Scenarios.AdminHandOver` | tests/recipient-verification.test.ts:105-120 | after a transfer the old admin's add gets error 1 and the new admin's calls succeed, in both registries |
| `Scenarios.CategoryTotals` | tests/impact-measurement.test.ts:137-168 | three records get ids 1, 2, 3; with records 1 and 3 verified the Food Security total is 100 and the Healthcare total 300; a non-admin verify gets error 1 and an unknown id gets error 2 |

## Left out

- The test scaffolding (`describe`, `it`, `expect`, the `beforeEach` resets): the reset state is each class's constructor.
- Direct reassignment of the admin inside a test (tests/impact-measurement.test.ts:161) is not a contract operation; `Scenarios.CategoryTotals` uses a caller who is not the admin instead.
- The fixed sender principal and the fixed block height 123 are parameters (`caller`, `height`); principal string formats are not modelled, only equality of principals.
- The on-chain contracts these mocks stand for, and the ledger that orders transactions and authenticates callers, are not part of this model.
- JavaScript numbers: amounts, counters and ids are unbounded naturals, and there is no overflow policy because the code has none. Aid types and allocation ids are integers.
- `DonorVerification.DonorRegistry.RecordDonation`: `amount` is a natural; the code would also take a negative or fractional number.
- `ImpactMeasurement.ImpactLedger.RecordImpact`: `amount` is a natural and `aidType` an integer; any non-integer aid type would fall into Other in the code too.
- `ImpactMeasurement.ImpactLedger.VerifyImpact`: the impact id is an integer; a key of another type can never be found in the code either.
- `ImpactMeasurement.ImpactLedger.GetTotalImpactByCategory` walks ids 1 to the counter; the code walks the map in insertion order, which the ledger invariant makes the same order.
- The code totals a category by scanning every record, and the model keeps that scan instead of keeping a per-category running total. `AttestRaisesTotal` is the fact such a running total would rely on.
- The model follows the code as written: counters are unbounded naturals with no saturating or checked overflow; verification may be repeated and then overwrites the description; a revoked donor or recipient keeps its profile; `record-impact`, `record-donation` and `record-aid-received` take no caller and check no role.
- `DonorVerification.DonorRegistry.GetDonorDetails`, `RecipientVerification.RecipientRegistry.GetRecipientDetails` and `ImpactMeasurement.ImpactLedger.GetImpactDetails` return the stored record as a value; in the code they return the stored object itself, so a caller that mutated it would change the table. No operation relies on that aliasing.
