/** Ticket (password) authentication (internal/pkg/proxmox/login_auth.go): stateful; a
    successful Authenticate stores the server's ticket response, which ModifyHeaders then
    turns into the session cookie and the anti-forgery header. */
module LoginAuthentication {
  import opened Errors
  import opened Headers
  import opened Clients

  const CSRFKey := "CSRFPreventionToken"
  const CookieKey := "Cookie"
  const CookiePrefix := "PVEAuthCookie="

  /** What ModifyHeaders makes of the entries of a header map, given the stored ticket data:
      CSRFPreventionToken and Cookie are overwritten, every other key keeps its values. */
  function SessionHeaders(h: Header, data: TicketData): (r: Header)
    ensures CSRFKey in r && r[CSRFKey] == [data.csrfPreventionToken]
    ensures CookieKey in r && r[CookieKey] == [CookiePrefix + data.ticket]
    ensures r.Keys == h.Keys + {CSRFKey, CookieKey}
    ensures UntouchedExcept(h, r, {CSRFKey, CookieKey})
  {
    h[CSRFKey := [data.csrfPreventionToken]][CookieKey := [CookiePrefix + data.ticket]]
  }

  /** Writing the session headers a second time changes nothing. */
  lemma SessionHeadersIdempotent(h: Header, data: TicketData)
    ensures SessionHeaders(SessionHeaders(h, data), data) == SessionHeaders(h, data)
  {
  }

  class LoginAuth {
    const realm: string
    const username: string
    const password: string
    var response: Option<IssueTicketResponse>

    /** The struct literal of NewLoginAuth: no ticket yet. */
    constructor (realm: string, username: string, password: string)
      ensures this.realm == realm && this.username == username && this.password == password
      ensures response == None
    {
      this.realm := realm;
      this.username := username;
      this.password := password;
      response := None;
    }

    /** Authenticate(ctx, client): request a ticket with the stored credentials; keep the
        response only when the request succeeds, and otherwise return its error unchanged. */
    method Authenticate(client: Client?, issueTicket: TicketIssuer) returns (err: Option<Error>)
      modifies this`response
      ensures match issueTicket(client, realm, username, password)
        case Failure(e) => err == Some(e) && response == old(response)
        case Success(ticket) => err == None && response == Some(ticket)
    {
      match issueTicket(client, realm, username, password)
      case Failure(e) =>
        return Some(e);
      case Success(ticket) =>
        response := Some(ticket);
        return None;
    }

    /** ModifyHeaders(headers): writes the two session headers into the caller's map in
        place and returns that map; a nil map is replaced by a fresh one. The stored
        response is read without a nil check, so a successful Authenticate must come first. */
    method ModifyHeaders(headers: HeaderMap?) returns (r: HeaderMap)
      requires response.Some?
      modifies headers
      ensures headers != null ==> r == headers
      ensures headers == null ==> fresh(r)
      ensures r.entries == SessionHeaders(old(EntriesOf(headers)), response.value.data)
      ensures response == old(response)
    {
      if headers == null {
        r := new HeaderMap();
      } else {
        r := headers;
      }
      r.entries := r.entries[CSRFKey := [response.value.data.csrfPreventionToken]];
      r.entries := r.entries[CookieKey := [CookiePrefix + response.value.data.ticket]];
    }
  }

  /** NewLoginAuth(realm, username, password): all three are required. */
  method NewLoginAuth(realm: string, username: string, password: string) returns (a: LoginAuth?, err: Option<Error>)
    ensures err.Some? <==> realm == "" || username == "" || password == ""
    ensures err.Some? ==> err.value == InvalidLoginAuth && a == null
    ensures err.None? ==> a != null && fresh(a)
    ensures a != null ==> a.realm == realm && a.username == username && a.password == password && a.response == None
  {
    if realm == "" || username == "" || password == "" {
      return null, Some(InvalidLoginAuth);
    }
    a := new LoginAuth(realm, username, password);
    err := None;
  }
}
