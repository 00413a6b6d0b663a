/** The API client (internal/pkg/proxmox/client.go): construction from options, and the
    version request with its ordered outcome checks. The library calls the client makes
    (url.JoinPath, http.NewRequestWithContext, http.Client.Do with io.ReadAll, and
    json.Unmarshal) are parameters of type Library. */
module Clients {
  import opened Errors
  import opened Headers
  import opened Configs

  newtype byte = x: int | 0 <= x < 256

  /** The http.Client's Transport: nil (Go's default, verifying certificates) or one whose
      TLS configuration sets InsecureSkipVerify. */
  datatype Transport = DefaultTransport | SkipVerifyTransport

  datatype HttpClient = HttpClient(transport: Transport)

  datatype Method = Get | Post

  /** An *http.Request as far as the model needs it. */
  datatype Request = Request(verb: Method, url: string, header: Header)

  /** What http.Client.Do returned: the status code, and what io.ReadAll makes of the body. */
  datatype Response = Response(statusCode: int, body: Result<seq<byte>, Cause>)

  /** VersionResponse: the `data` envelope of GET /api2/json/version. */
  datatype VersionData = VersionData(version: string, release: string, repoid: string)
  datatype VersionResponse = VersionResponse(data: VersionData)

  /** The `data` of the ticket response, as far as LoginAuth reads it. */
  datatype TicketData = TicketData(ticket: string, csrfPreventionToken: string)
  datatype IssueTicketResponse = IssueTicketResponse(data: TicketData)

  /** Client.IssueTicket(ctx, realm, username, password): its definition is not part of the
      model; it yields a ticket response or an error. */
  type TicketIssuer = (Client?, string, string, string) -> Result<IssueTicketResponse, Error>

  /** The library code the client calls. */
  datatype Library = Library(
    joinPath: (string, string) -> Result<string, Cause>,          // url.JoinPath
    newRequest: (Method, string) -> Option<Cause>,                 // the error of http.NewRequestWithContext, if any
    doRequest: (HttpClient, Request) -> Result<Response, Cause>,   // http.Client.Do
    unmarshalVersion: seq<byte> -> Result<VersionResponse, Cause>) // json.Unmarshal into a VersionResponse

  const StatusOK := 200
  const VersionPath := "/api2/json/version"

  /** call's (statusCode, content, err); `content == None` is a nil slice. */
  datatype CallResult = CallResult(statusCode: int, content: Option<seq<byte>>, err: Option<Error>)

  /** Version's (string, error). */
  datatype VersionResult = VersionResult(version: string, err: Option<Error>)

  /** newGetRequest(ctx, endpoint, headers): a GET request carrying exactly `headers`. */
  function NewGetRequest(lib: Library, endpoint: string, headers: Header): (r: Result<Request, Error>)
    ensures r.Failure? <==> lib.newRequest(Get, endpoint).Some?
    ensures r.Failure? ==> r.error == CreateRequest(lib.newRequest(Get, endpoint).value)
    ensures r.Success? ==> r.value.verb == Get && r.value.url == endpoint && r.value.header == headers
  {
    match lib.newRequest(Get, endpoint)
    case Some(e) => Failure(CreateRequest(e))
    case None => Success(Request(Get, endpoint, headers))
  }

  class Client {
    const baseURL: string
    const apiToken: string
    const httpClient: HttpClient

    constructor (baseURL: string, apiToken: string, httpClient: HttpClient)
      ensures this.baseURL == baseURL && this.apiToken == apiToken && this.httpClient == httpClient
    {
      this.baseURL := baseURL;
      this.apiToken := apiToken;
      this.httpClient := httpClient;
    }

    /** call(req): send the request and read the whole body. Every error comes with status 0
        and a nil body; a non-2xx status is not an error here. */
    function Call(lib: Library, req: Request): (r: CallResult)
      ensures r.err.Some? ==> r.statusCode == 0 && r.content.None?
      ensures lib.doRequest(httpClient, req).Failure? ==>
                r.err == Some(MakeRequest(lib.doRequest(httpClient, req).error))
      ensures lib.doRequest(httpClient, req).Success? ==>
                var resp := lib.doRequest(httpClient, req).value;
                match resp.body
                case Failure(e) => r.err == Some(ReadBody(e))
                case Success(content) => r == CallResult(resp.statusCode, Some(content), None)
    {
      match lib.doRequest(httpClient, req)
      case Failure(e) => CallResult(0, None, Some(MakeRequest(e)))
      case Success(resp) =>
        match resp.body
        case Failure(e) => CallResult(0, None, Some(ReadBody(e)))
        case Success(content) => CallResult(resp.statusCode, Some(content), None)
    }

    /** Version(ctx): the server's version string. The checks run in order: URL join,
        request creation, transport and body read, status 200, JSON decoding; the first
        that fails decides the error, and every error comes with the empty string. */
    function Version(lib: Library): (r: VersionResult)
      ensures r.err.Some? ==> r.version == ""
      ensures match lib.joinPath(baseURL, VersionPath)
        case Failure(e) => r.err == Some(ConstructURL(e))
        case Success(endpoint) =>
          if lib.newRequest(Get, endpoint).Some? then r.err == Some(CreateRequest(lib.newRequest(Get, endpoint).value))
          else
            match lib.doRequest(httpClient, Request(Get, endpoint, map[AuthorizationKey := [apiToken]]))
            case Failure(e) => r.err == Some(MakeRequest(e))
            case Success(resp) =>
              match resp.body
              case Failure(e) => r.err == Some(ReadBody(e))
              case Success(content) =>
                if resp.statusCode != StatusOK then r.err == Some(InvalidStatusCode(resp.statusCode))
                else
                  match lib.unmarshalVersion(content)
                  case Failure(e) => r.err == Some(ParseJSON(e))
                  case Success(decoded) => r == VersionResult(decoded.data.version, None)
    {
      match lib.joinPath(baseURL, VersionPath)
      case Failure(e) => VersionResult("", Some(ConstructURL(e)))
      case Success(endpoint) =>
        // http.Header{} followed by Set: "Authorization" is already in canonical form.
        var headers := map[AuthorizationKey := [apiToken]];
        match NewGetRequest(lib, endpoint, headers)
        case Failure(e) => VersionResult("", Some(e))
        case Success(req) =>
          var called := Call(lib, req);
          if called.err.Some? then VersionResult("", called.err)
          else if called.statusCode != StatusOK then VersionResult("", Some(InvalidStatusCode(called.statusCode)))
          else
            match lib.unmarshalVersion(called.content.value)
            case Failure(e) => VersionResult("", Some(ParseJSON(e)))
            case Success(decoded) => VersionResult(decoded.data.version, None)
    }

    /** The body is decoded only after a 200 response: every other outcome is the same
        whatever the JSON decoder does. */
    lemma VersionDecodesOnlyAfterOK(lib: Library, decode: seq<byte> -> Result<VersionResponse, Cause>)
      requires Version(lib).err.Some? && !Version(lib).err.value.ParseJSON?
      ensures Version(lib.(unmarshalVersion := decode)) == Version(lib)
    {
    }

    /** The transport is consulted only through this client's http.Client and only with a
        GET request whose header set is exactly Authorization = [apiToken]: a transport
        that answers such requests alike gives the same outcome. */
    lemma VersionSendsOnlyAuthorization(lib: Library, send: (HttpClient, Request) -> Result<Response, Cause>)
      requires forall req: Request ::
        req.verb == Get && req.header == map[AuthorizationKey := [apiToken]] ==>
          send(httpClient, req) == lib.doRequest(httpClient, req)
      ensures Version(lib.(doRequest := send)) == Version(lib)
    {
      var lib' := lib.(doRequest := send);
      match lib.joinPath(baseURL, VersionPath)
      case Failure(_) =>
      case Success(endpoint) =>
        var req := Request(Get, endpoint, map[AuthorizationKey := [apiToken]]);
        assert send(httpClient, req) == lib.doRequest(httpClient, req);
    }
  }

  /** NewClient(baseURL, apiToken, opts...): fold the options over a zero Config, then build
      the http.Client; never fails and does no I/O. */
  method NewClient(baseURL: string, apiToken: string, opts: seq<ConfigOption>) returns (c: Client)
    ensures fresh(c)
    ensures c.baseURL == baseURL && c.apiToken == apiToken
    ensures c.httpClient.transport == SkipVerifyTransport <==> InsecureAfter(opts)
  {
    var config := new Config();
    for i := 0 to |opts|
      invariant config.insecureSkipTLS == InsecureAfter(opts[..i])
    {
      opts[i].Apply(config);
      assert opts[..i + 1][..i] == opts[..i];
    }
    assert opts[..|opts|] == opts;

    var httpClient := HttpClient(DefaultTransport);
    if config.insecureSkipTLS {
      httpClient := HttpClient(SkipVerifyTransport);
    }
    c := new Client(baseURL, apiToken, httpClient);
  }
}
