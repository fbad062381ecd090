/**
 * The auth-token store (src/utils/auth.js): one `localStorage` slot named
 * "authToken", read through a JWT decoder, plus the admin role test.
 * The decoder is a foreign library, so it is a function parameter here.
 */
module Auth {
  import opened Js

  const AdminRole := "admin"
  /** Written as the phrase callers test for, then the rest of the message. */
  const AccessDeniedMessage := "Access denied" + ": Admin privileges required"
  /**
   * What destructuring `role` out of a null `getAuthInfo()` throws
   * (engine-dependent text), split around its only 'A'.
   */
  const NullAuthInfoMessage :=
    "Cannot " + "destructure " + "property " + "'role' " + "of 'get" + "A" + "uthInfo(...)' " + "as it is null."

  /** The claims `jwtDecode` may return. */
  datatype Claims = Claims(id: Field, role: Field, username: Field, firstName: Field, lastName: Field)

  /** `jwtDecode(token)`: throws, or returns a (possibly null) claims object. */
  datatype Decoding = DecodeError | Decoded(claims: Option<Claims>)

  /** The session snapshot `getAuthInfo` returns; it has no `user` property. */
  datatype AuthInfo = AuthInfo(token: string, id: string, role: Field, username: Field, firstName: Field, lastName: Field)

  /** The decoded claims carry a truthy `id`. */
  predicate UsableClaims(d: Decoding) {
    d.Decoded? && d.claims.Some? && Truthy(d.claims.value.id)
  }

  /** The value `getAuthInfo` returns for a stored slot value. */
  function AuthInfoOf(slot: Option<string>, decode: string -> Decoding): (r: Option<AuthInfo>)
    ensures r.Some? <==> Truthy(slot) && UsableClaims(decode(slot.value))
    ensures r.Some? ==> r.value.token == slot.value && r.value.id != ""
    ensures r.Some? ==> var c := decode(slot.value).claims.value;
      r.value.id == c.id.value && r.value.role == c.role && r.value.username == c.username
      && r.value.firstName == c.firstName && r.value.lastName == c.lastName
  {
    if !Truthy(slot) then None
    else
      match decode(slot.value)
      case DecodeError => None
      case Decoded(None) => None
      case Decoded(Some(c)) =>
        if !Truthy(c.id) then None
        else Some(AuthInfo(slot.value, c.id.value, c.role, c.username, c.firstName, c.lastName))
  }

  /** The slot after `getAuthInfo`: a present token that does not decode to usable claims is removed. */
  function SlotAfterRead(slot: Option<string>, decode: string -> Decoding): (r: Option<string>)
    ensures r == slot || r == None
    ensures r == None && slot != None <==> Truthy(slot) && AuthInfoOf(slot, decode).None?
  {
    if Truthy(slot) && !UsableClaims(decode(slot.value)) then None else slot
  }

  /** Reading the store twice gives the same answer and leaves it as the first read left it. */
  lemma {:induction false} ReadIsStable(slot: Option<string>, decode: string -> Decoding)
    ensures AuthInfoOf(SlotAfterRead(slot, decode), decode) == AuthInfoOf(slot, decode)
    ensures SlotAfterRead(SlotAfterRead(slot, decode), decode) == SlotAfterRead(slot, decode)
  {
    if Truthy(slot) && !UsableClaims(decode(slot.value)) {
      assert SlotAfterRead(slot, decode) == None;
    }
  }

  /** `checkAdmin()` over the value `getAuthInfo()` returned. */
  function CheckAdmin(info: Option<AuthInfo>): (r: Outcome<bool>)
    ensures r.Ok? <==> info.Some? && info.value.role == Some(AdminRole)
    ensures r.Ok? ==> r.value
    ensures info.None? ==> r == Fail(NewError(NullAuthInfoMessage))
    ensures info.Some? && info.value.role != Some(AdminRole) ==> r == Fail(NewError(AccessDeniedMessage))
  {
    if info.None? then Fail(NewError(NullAuthInfoMessage))
    else if info.value.role != Some(AdminRole) then Fail(NewError(AccessDeniedMessage))
    else Ok(true)
  }

  /** The "authToken" slot of `localStorage`. */
  class TokenStore {
    var slot: Option<string>

    constructor (initial: Option<string>)
      ensures slot == initial
    {
      slot := initial;
    }

    /** `getAuthInfo()`. */
    method GetAuthInfo(decode: string -> Decoding) returns (info: Option<AuthInfo>)
      modifies this
      ensures info == AuthInfoOf(old(slot), decode)
      ensures slot == SlotAfterRead(old(slot), decode)
      ensures info.Some? ==> slot == old(slot)
    {
      var token := slot;
      if !Truthy(token) {
        return None;
      }
      var decoded := decode(token.value);
      if decoded.DecodeError? || decoded.claims.None? || !Truthy(decoded.claims.value.id) {
        slot := None;
        return None;
      }
      var c := decoded.claims.value;
      info := Some(AuthInfo(token.value, c.id.value, c.role, c.username, c.firstName, c.lastName));
    }

    /** `setAuthToken(token)`: only a truthy token is stored. */
    method SetAuthToken(token: Field)
      modifies this
      ensures Truthy(token) ==> slot == token
      ensures !Truthy(token) ==> slot == old(slot)
    {
      if Truthy(token) {
        slot := token;
      }
    }

    /** `removeAuthToken()`. */
    method RemoveAuthToken()
      modifies this
      ensures slot == None
    {
      slot := None;
    }

    /** `checkAdmin()`: reads the store, then tests the role. */
    method CheckAdminNow(decode: string -> Decoding) returns (r: Outcome<bool>)
      modifies this
      ensures r == CheckAdmin(AuthInfoOf(old(slot), decode))
      ensures slot == SlotAfterRead(old(slot), decode)
    {
      var info := GetAuthInfo(decode);
      r := CheckAdmin(info);
    }
  }
}
