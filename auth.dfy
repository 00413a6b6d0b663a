/** The authentication strategy (internal/pkg/proxmox/auth.go): an interface with a
    handshake and a header contribution, implemented by TokenAuth and LoginAuth. The
    interface is modelled as a tagged union over the two implementations. */
module Authentication {
  import opened Errors
  import opened Headers
  import opened Clients
  import TokenAuthentication
  import LoginAuthentication

  datatype Auth =
    | Token(token: TokenAuthentication.TokenAuth)
    | Login(login: LoginAuthentication.LoginAuth)
  {
    /** Authenticate(ctx, client), dispatched to the implementation. */
    method Authenticate(client: Client?, issueTicket: TicketIssuer) returns (err: Option<Error>)
      modifies if Login? then {login} else {}
      ensures Token? ==> err == None
      ensures Login? ==>
        match issueTicket(client, login.realm, login.username, login.password)
        case Failure(e) => err == Some(e) && login.response == old(login.response)
        case Success(ticket) => err == None && login.response == Some(ticket)
    {
      match this
      case Token(t) =>
        err := t.Authenticate(client);
      case Login(l) =>
        err := l.Authenticate(client, issueTicket);
    }

    /** ModifyHeaders(headers), dispatched to the implementation. */
    method ModifyHeaders(headers: HeaderMap?) returns (r: HeaderMap)
      requires Login? ==> login.response.Some?
      modifies headers
      ensures headers != null ==> r == headers
      ensures headers == null ==> fresh(r)
      ensures Token? ==> r.entries == token.WithAuthorization(old(EntriesOf(headers)))
      ensures Login? ==> r.entries == LoginAuthentication.SessionHeaders(old(EntriesOf(headers)), login.response.value.data)
    {
      match this
      case Token(t) =>
        r := t.ModifyHeaders(headers);
      case Login(l) =>
        r := l.ModifyHeaders(headers);
    }
  }
}
