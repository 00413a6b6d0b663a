/** API-token authentication (internal/pkg/proxmox/token_auth.go): stateless, every
    request carries one Authorization header built from the four credentials. */
module TokenAuthentication {
  import opened Errors
  import opened Headers
  import opened Format
  import Clients

  const AuthorizationFormat := "PVEAPIToken=%s@%s!%s=%s"

  /** NewTokenAuth(realm, username, tokenID, tokenSecret): all four are required. */
  function NewTokenAuth(realm: string, username: string, tokenID: string, tokenSecret: string): (r: Result<TokenAuth, Error>)
    ensures r.Failure? <==> realm == "" || username == "" || tokenID == "" || tokenSecret == ""
    ensures r.Failure? ==> r.error == InvalidTokenAuth
    ensures r.Success? ==>
      && r.value.realm == realm && r.value.username == username
      && r.value.tokenID == tokenID && r.value.tokenSecret == tokenSecret
  {
    if realm == "" || username == "" || tokenID == "" || tokenSecret == "" then Failure(InvalidTokenAuth)
    else Success(TokenAuth(username := username, realm := realm, tokenID := tokenID, tokenSecret := tokenSecret))
  }

  datatype TokenAuth = TokenAuth(username: string, realm: string, tokenID: string, tokenSecret: string) {

    /** Authenticate(ctx, client): token authentication needs no handshake. */
    method Authenticate(client: Clients.Client?) returns (err: Option<Error>)
      ensures err == None
    {
      err := None;
    }

    /** The Authorization value: the fields in the order user, realm, token id, secret,
        which is not the constructor's order. */
    function AuthorizationValue(): (v: string)
      ensures v == "PVEAPIToken=" + username + "@" + realm + "!" + tokenID + "=" + tokenSecret
    {
      AuthorizationFormatted(username, realm, tokenID, tokenSecret);
      Sprintf(AuthorizationFormat, [username, realm, tokenID, tokenSecret])
    }

    /** What ModifyHeaders makes of the entries of a header map: Authorization is
        overwritten with the one value, every other key keeps its values. */
    function WithAuthorization(h: Header): (r: Header)
      ensures AuthorizationKey in r && r[AuthorizationKey] == [AuthorizationValue()]
      ensures r.Keys == h.Keys + {AuthorizationKey}
      ensures UntouchedExcept(h, r, {AuthorizationKey})
    {
      h[AuthorizationKey := [AuthorizationValue()]]
    }

    /** Writing the header a second time changes nothing. */
    lemma WithAuthorizationIdempotent(h: Header)
      ensures WithAuthorization(WithAuthorization(h)) == WithAuthorization(h)
    {
    }

    /** ModifyHeaders(headers): writes Authorization into the caller's map in place and
        returns that map; a nil map is replaced by a fresh one. */
    method ModifyHeaders(headers: HeaderMap?) returns (r: HeaderMap)
      modifies headers
      ensures headers != null ==> r == headers
      ensures headers == null ==> fresh(r) && r.entries == map[AuthorizationKey := [AuthorizationValue()]]
      ensures r.entries == WithAuthorization(old(EntriesOf(headers)))
    {
      if headers == null {
        r := new HeaderMap();
      } else {
        r := headers;
      }
      r.entries := r.entries[AuthorizationKey := [AuthorizationValue()]];
    }
  }

  /** The format with its operands substituted is the bit-exact header value. */
  lemma AuthorizationFormatted(username: string, realm: string, tokenID: string, tokenSecret: string)
    ensures Conforms(AuthorizationFormat, [username, realm, tokenID, tokenSecret])
    ensures Sprintf(AuthorizationFormat, [username, realm, tokenID, tokenSecret])
            == "PVEAPIToken=" + username + "@" + realm + "!" + tokenID + "=" + tokenSecret
  {
    SprintfFourVerbs("PVEAPIToken=", "@", "!", "=", username, realm, tokenID, tokenSecret);
    assert AuthorizationFormat == "PVEAPIToken=" + ("%s" + ("@" + ("%s" + ("!" + ("%s" + ("=" + "%s"))))));
  }
}
