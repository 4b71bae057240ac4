/** The impact measurement contract: an append-only ledger of aid
    disbursement records, each filed under a fixed category, that only the
    admin can attest, with per-category totals over attested records. */
module ImpactMeasurement {
  import opened Common
  import opened AccessControl

  /** The category labels for aid types 1 to 5, in that order. */
  const Labels: seq<string> := ["Food Security", "Healthcare", "Shelter", "Education", "Financial Support"]
  /** The category of every other aid type. */
  const Other: string := "Other"

  /** The fixed aid-type taxonomy. It is total: types 1 to 5 get their own
      label, every other value falls into "Other". */
  function Category(aidType: int): (c: string)
    ensures 1 <= aidType <= 5 ==> c == Labels[aidType - 1]
    ensures !(1 <= aidType <= 5) ==> c == Other
  {
    match aidType
    case 1 => "Food Security"
    case 2 => "Healthcare"
    case 3 => "Shelter"
    case 4 => "Education"
    case 5 => "Financial Support"
    case _ => "Other"
  }

  /** No two known aid types share a category, and none of them lands in
      "Other", so a category total never mixes two known aid types. */
  lemma CategorySeparatesAidTypes(a: int, b: int)
    requires Category(a) == Category(b)
    ensures a == b || (!(1 <= a <= 5) && !(1 <= b <= 5))
  {
  }

  /** One entry of `impactRecords`. */
  datatype ImpactRecord = ImpactRecord(
    allocationId: int,
    recipient: Identity,
    aidType: int,
    amount: nat,
    impactDate: BlockHeight,
    category: string,
    description: string,
    verified: bool)

  /** The record `record-impact` stores: the arguments as given, the
      derived category, an empty description and not yet verified. */
  function NewImpact(allocationId: int, recipient: Identity, aidType: int, amount: nat, height: BlockHeight): (r: ImpactRecord)
  {
    ImpactRecord(allocationId, recipient, aidType, amount, height, Category(aidType), "", false)
  }

  /** The record after `verify-impact`: the new description and the
      verified mark; every other field kept. */
  function Attested(r: ImpactRecord, description: string): (s: ImpactRecord)
  {
    r.(description := description, verified := true)
  }

  /** What one record adds to the total of `category`: its amount when it
      is in that category and verified, otherwise nothing. */
  function Contribution(r: ImpactRecord, category: string): (part: nat)
  {
    if r.category == category && r.verified then r.amount else 0
  }

  /** The filtered sum behind `get-total-impact-by-category`: the amounts of
      the verified records of `category` among ids 1 to `n`. */
  function TotalUpTo(records: map<int, ImpactRecord>, category: string, n: nat): (total: nat)
  {
    if n == 0 then 0
    else TotalUpTo(records, category, n - 1) + (if n in records then Contribution(records[n], category) else 0)
  }

  /** The total over ids 1 to `n` depends only on the records stored under
      those ids. */
  lemma {:induction false} TotalUpToFrame(a: map<int, ImpactRecord>, b: map<int, ImpactRecord>, category: string, n: nat)
    requires forall id :: 1 <= id <= n ==> (id in a <==> id in b)
    requires forall id :: 1 <= id <= n && id in a ==> a[id] == b[id]
    ensures TotalUpTo(a, category, n) == TotalUpTo(b, category, n)
  {
    if n > 0 {
      TotalUpToFrame(a, b, category, n - 1);
    }
  }

  /** Storing a record under the next id raises every category total by
      exactly that record's contribution. */
  lemma TotalAfterAppend(records: map<int, ImpactRecord>, category: string, n: nat, r: ImpactRecord)
    ensures TotalUpTo(records[n + 1 := r], category, n + 1) == TotalUpTo(records, category, n) + Contribution(r, category)
  {
    TotalUpToFrame(records[n + 1 := r], records, category, n);
  }

  /** Replacing the record under an existing id among 1 to `n` changes the
      total by the new record's contribution minus the old one's. */
  lemma {:induction false} TotalAfterUpdate(records: map<int, ImpactRecord>, category: string, n: nat, id: int, r: ImpactRecord)
    requires 1 <= id <= n && id in records
    ensures TotalUpTo(records[id := r], category, n) + Contribution(records[id], category)
         == TotalUpTo(records, category, n) + Contribution(r, category)
  {
    if n == id {
      TotalUpToFrame(records[id := r], records, category, n - 1);
    } else {
      TotalAfterUpdate(records, category, n - 1, id, r);
    }
  }

  /** Verifying a record raises the total of its own category by its amount
      if it was not verified before, and leaves every total unchanged
      otherwise (re-verification, or any other category). */
  lemma AttestRaisesTotal(records: map<int, ImpactRecord>, category: string, n: nat, id: int, description: string)
    requires 1 <= id <= n && id in records
    ensures TotalUpTo(records[id := Attested(records[id], description)], category, n)
         == TotalUpTo(records, category, n)
            + (if records[id].category == category && !records[id].verified then records[id].amount else 0)
  {
    TotalAfterUpdate(records, category, n, id, Attested(records[id], description));
  }

  /** The answer of `get-total-impact-by-category`. */
  datatype CategoryTotal = CategoryTotal(category: string, total: nat)

  class ImpactLedger {
    /** The contract's own admin. */
    const access: AdminState
    /** `impactRecords`, keyed by impact id. */
    var impactRecords: map<int, ImpactRecord>
    /** `impactIdCounter`: the last id handed out (0 before the first). */
    var impactIdCounter: nat

    /** The ids in use are exactly 1 to the counter: every id handed out
        has a record, and no record sits under an id not handed out. */
    ghost predicate Valid()
      reads this
    {
      forall id :: id in impactRecords <==> 1 <= id <= impactIdCounter
    }

    /** The total of `category` over the whole ledger. */
    ghost function Total(category: string): (total: nat)
      reads this
    {
      TotalUpTo(impactRecords, category, impactIdCounter)
    }

    /** Initial state: `initialAdmin` is the admin, no records, counter 0. */
    constructor (initialAdmin: Identity)
      ensures Valid() && fresh(access)
      ensures access.admin == initialAdmin
      ensures impactRecords == map[] && impactIdCounter == 0
      ensures forall category :: Total(category) == 0
    {
      access := new AdminState(initialAdmin);
      impactRecords := map[];
      impactIdCounter := 0;
    }

    /** `record-impact`: open to any caller. Hands out the next id, stores
        the new unverified record under it, touches no other record, and
        returns the id. Because the record is unverified, no category
        total moves. */
    method RecordImpact(allocationId: int, recipient: Identity, aidType: int, amount: nat, height: BlockHeight)
      returns (r: Response<nat>)
      requires Valid()
      modifies this
      ensures Valid()
      ensures r == Ok(impactIdCounter)
      ensures impactIdCounter == old(impactIdCounter) + 1
      ensures old(impactIdCounter) + 1 !in old(impactRecords)
      ensures impactRecords == old(impactRecords)[impactIdCounter := NewImpact(allocationId, recipient, aidType, amount, height)]
      ensures forall category :: Total(category) == old(Total(category))
    {
      impactIdCounter := impactIdCounter + 1;
      var newId := impactIdCounter;
      impactRecords := impactRecords[newId := NewImpact(allocationId, recipient, aidType, amount, height)];
      r := Ok(newId);
      forall category | true
        ensures Total(category) == old(Total(category))
      {
        TotalAfterAppend(old(impactRecords), category, old(impactIdCounter), impactRecords[newId]);
      }
    }

    /** `verify-impact`: the admin check comes first (error 1), then the
        existence check (error 2); either failure changes nothing. On
        success the record gets the description and the verified mark and
        nothing else changes; the total of its category rises by its
        amount if it was not verified before. */
    method VerifyImpact(caller: Identity, impactId: int, description: string) returns (r: Response<bool>)
      requires Valid()
      modifies this
      ensures Valid()
      ensures impactIdCounter == old(impactIdCounter)
      ensures !access.IsAdmin(caller) ==> r == Err(ErrUnauthorized)
      ensures access.IsAdmin(caller) && impactId !in old(impactRecords) ==> r == Err(ErrNotFound)
      ensures r.Err? ==> impactRecords == old(impactRecords)
      ensures r.Ok? <==> access.IsAdmin(caller) && impactId in old(impactRecords)
      ensures r.Ok? ==>
        && r == Ok(true)
        && impactRecords == old(impactRecords)[impactId := Attested(old(impactRecords[impactId]), description)]
        && forall category :: Total(category) == old(Total(category))
             + (if category == old(impactRecords[impactId]).category && !old(impactRecords[impactId]).verified
                then old(impactRecords[impactId]).amount else 0)
    {
      if !access.IsAdmin(caller) {
        return Err(ErrUnauthorized);
      }
      if impactId !in impactRecords {
        return Err(ErrNotFound);
      }
      var impact := impactRecords[impactId];
      impactRecords := impactRecords[impactId := Attested(impact, description)];
      r := Ok(true);
      forall category | true
        ensures Total(category) == old(Total(category))
          + (if category == impact.category && !impact.verified then impact.amount else 0)
      {
        AttestRaisesTotal(old(impactRecords), category, impactIdCounter, impactId, description);
      }
    }

    /** `get-impact-details`: a record is found exactly for the ids handed
        out so far. */
    function GetImpactDetails(impactId: int): (r: Option<ImpactRecord>)
      reads this
      requires Valid()
      ensures r.Some? <==> 1 <= impactId <= impactIdCounter
      ensures r.Some? ==> r.value == impactRecords[impactId]
    {
      if impactId in impactRecords then Some(impactRecords[impactId]) else None
    }

    /** `get-total-impact-by-category`: walks the ledger in id order (the
        order the records were stored in) and adds up the amounts of the
        verified records of `category`. */
    method GetTotalImpactByCategory(category: string) returns (result: CategoryTotal)
      requires Valid()
      ensures result.category == category
      ensures result.total == Total(category)
    {
      var total := 0;
      var id := 1;
      while id <= impactIdCounter
        invariant 1 <= id <= impactIdCounter + 1
        invariant total == TotalUpTo(impactRecords, category, id - 1)
      {
        var impact := impactRecords[id];
        if impact.category == category && impact.verified {
          total := total + impact.amount;
        }
        id := id + 1;
      }
      result := CategoryTotal(category, total);
    }
  }
}
