/** The shipping-address handlers: the first address of a user becomes the default,
    updates are restricted to the owner, and deletion is by id. */
module Addresses {
  import opened Common
  import opened Db

  /** `createShippingAddress`: inserts the address for the caller, as the default
      exactly when the caller had no address. When the caller already had one, the
      400 reply is sent first and the insert still happens (the handler's second
      reply then fails because the headers were sent). */
  method CreateShippingAddress(db: Store, caller: Option<UserId>, lines: AddressLines) returns (code: Code)
    requires db.Valid()
    modifies db`addresses, db`nextId
    ensures db.Valid()
    ensures code == (
      if caller.None? then Unauthorized
      else if HasAddress(old(db.addresses), caller.value) then BadRequest(AlreadyHasAddress)
      else Created)
    ensures caller.None? ==> db.addresses == old(db.addresses) && db.nextId == old(db.nextId)
    ensures caller.Some? ==>
      && old(db.nextId) !in old(db.addresses)
      && db.addresses == old(db.addresses)[old(db.nextId) :=
           Address(caller.value, lines, !HasAddress(old(db.addresses), caller.value))]
  {
    if caller.None? {
      return Unauthorized;
    }
    var userId := caller.value;
    var isDefault := true;
    var userHasAddress := HasAddress(db.addresses, userId);
    if userHasAddress {
      code := BadRequest(AlreadyHasAddress);
      isDefault := false;
    }
    var id := db.nextId;
    InsertKeepsOneDefault(db.addresses, id, Address(userId, lines, isDefault));
    db.addresses := db.addresses[id := Address(userId, lines, isDefault)];
    db.nextId := db.nextId + 1;
    if !userHasAddress {
      code := Created;
    }
  }

  /** An insert keeps at most one default per user when the new row is a default only
      for a user without addresses. */
  lemma InsertKeepsOneDefault(addresses: map<AddressId, Address>, k: AddressId, a: Address)
    requires AtMostOneDefault(addresses) && k !in addresses
    requires a.isDefault ==> !HasAddress(addresses, a.userId)
    ensures AtMostOneDefault(addresses[k := a])
  {
  }

  /** The first address a user creates is that user's one default address. */
  lemma FirstAddressIsTheDefault(addresses: map<AddressId, Address>, k: AddressId, userId: UserId, lines: AddressLines)
    requires k !in addresses && !HasAddress(addresses, userId)
    ensures var after := addresses[k := Address(userId, lines, true)];
      forall j :: j in after && after[j].userId == userId ==> j == k && after[j].isDefault
  {
  }

  /** `getShippingAddresses`: the addresses of the given user; 400 without a user id. */
  function GetShippingAddresses(db: Store, userId: Option<UserId>): (r: Result<map<AddressId, Address>>)
    reads db
    ensures userId.None? <==> r == Err(BadRequest(MissingId))
    ensures r.Ok? ==> forall id :: id in r.value <==> id in db.addresses && db.addresses[id].userId == userId.value
    ensures r.Ok? ==> forall id :: id in r.value ==> r.value[id] == db.addresses[id]
  {
    if userId.None? then Err(BadRequest(MissingId))
    else Ok(map id | id in db.addresses && db.addresses[id].userId == userId.value :: db.addresses[id])
  }

  /** `updateShippingAddress`: 404 unless the address belongs to the caller; then
      overwrites its six address lines, never its owner or default flag. */
  method UpdateShippingAddress(db: Store, caller: Option<UserId>, addressId: AddressId, lines: AddressLines)
    returns (code: Code)
    requires db.Valid()
    modifies db`addresses
    ensures db.Valid()
    ensures code == (
      if caller.None? then Unauthorized
      else if addressId !in old(db.addresses) || old(db.addresses)[addressId].userId != caller.value
      then NotFound(NoAddress)
      else Success)
    ensures code != Success ==> db.addresses == old(db.addresses)
    ensures code == Success ==>
      db.addresses == old(db.addresses)[addressId := old(db.addresses)[addressId].(lines := lines)]
  {
    if caller.None? {
      return Unauthorized;
    }
    var userId := caller.value;
    if addressId !in db.addresses || db.addresses[addressId].userId != userId {
      return NotFound(NoAddress);
    }
    db.addresses := db.addresses[addressId := db.addresses[addressId].(lines := lines)];
    code := Success;
  }

  /** `deleteShippingAddress`: 400 without an id, 404 when the address is absent;
      otherwise deletes it, whoever owns it. */
  method DeleteShippingAddress(db: Store, addressId: Option<AddressId>) returns (code: Code)
    requires db.Valid()
    modifies db`addresses
    ensures db.Valid()
    ensures code == (
      if addressId.None? then BadRequest(MissingId)
      else if addressId.value !in old(db.addresses) then NotFound(NoAddress)
      else Success)
    ensures code != Success ==> db.addresses == old(db.addresses)
    ensures code == Success ==> db.addresses == old(db.addresses) - {addressId.value}
  {
    if addressId.None? {
      return BadRequest(MissingId);
    }
    var id := addressId.value;
    if id !in db.addresses {
      return NotFound(NoAddress);
    }
    db.addresses := db.addresses - {id};
    code := Success;
  }

  /** Deleting a user's default address while another address remains leaves that
      user with no default: the handlers keep "at most one", not "exactly one". */
  lemma DeleteCanLeaveNoDefault(u: UserId, lines: AddressLines)
    ensures var before := map[1 := Address(u, lines, true), 2 := Address(u, lines, false)];
            var after := before - {1};
            HasAddress(after, u) && forall k :: k in after ==> !after[k].isDefault
  {
    var after := map[1 := Address(u, lines, true), 2 := Address(u, lines, false)] - {1};
    assert 2 in after && after[2].userId == u;
  }
}
