/** The single-admin access control that each of the three contracts
    carries: a stored admin principal, the `is-admin` query and a one-step
    `transfer-admin`. */
module AccessControl {
  import opened Common

  class AdminState {
    /** The one principal allowed to make admin-gated calls. */
    var admin: Identity

    /** Initial state: the deploying principal is the admin. */
    constructor (initialAdmin: Identity)
      ensures admin == initialAdmin
    {
      admin := initialAdmin;
    }

    /** `is-admin`: whether the calling principal is the current admin. */
    predicate IsAdmin(caller: Identity)
      reads this
    {
      caller == admin
    }

    /** `transfer-admin`: only the current admin may name a new admin; the
        replacement takes effect at once, so the previous admin is refused
        on the very next admin-gated call. Any other caller gets error 1 and
        the admin stays as it was. */
    method TransferAdmin(caller: Identity, newAdmin: Identity) returns (r: Response<bool>)
      modifies this
      ensures old(IsAdmin(caller)) ==> r == Ok(true) && admin == newAdmin
      ensures !old(IsAdmin(caller)) ==> r == Err(ErrUnauthorized) && admin == old(admin)
      ensures r.Ok? <==> old(IsAdmin(caller))
      ensures r.Ok? && caller != newAdmin ==> !IsAdmin(caller) && IsAdmin(newAdmin)
    {
      if caller != admin {
        return Err(ErrUnauthorized);
      }
      admin := newAdmin;
      r := Ok(true);
    }
  }
}
