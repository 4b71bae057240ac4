/** Vocabulary shared by the three contracts: principals, call results and
    the membership-flag convention of the two verification registries. */
module Common {

  /** A principal (an address). The contracts only ever compare principals
      for equality, so nothing else about them is modelled. */
  type Identity(==, !new)

  /** A block height, supplied by the host on every call. */
  type BlockHeight = nat

  /** Error code returned when the caller is not the current admin. */
  const ErrUnauthorized: nat := 1
  /** Error code returned when activity is recorded for an identity whose
      membership flag is not true. */
  const ErrNotVerified: nat := 2
  /** Error code returned when an impact id is not in the ledger; the
      contracts reuse code 2 for it. */
  const ErrNotFound: nat := 2

  /** The `{ ok: v }` / `{ err: n }` shape every mutating entry point returns. */
  datatype Response<T> = Ok(value: T) | Err(code: nat)

  /** A map lookup that may come back empty (the contracts return `undefined` for it). */
  datatype Option<T> = None | Some(value: T)

  /** Reads a membership flag the way the registries do (`get(id) || false`):
      an identity that was never added and one whose flag was set to false
      both read as not verified. */
  predicate Flag(flags: map<Identity, bool>, id: Identity)
  {
    id in flags && flags[id]
  }

  /** The invariant both registries keep: every identity whose flag is true
      has a details record, so the record lookup that follows a successful
      flag check cannot miss. */
  ghost predicate FlagsBacked<P>(flags: map<Identity, bool>, details: map<Identity, P>)
  {
    forall id :: Flag(flags, id) ==> id in details
  }
}
