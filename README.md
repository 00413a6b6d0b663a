# pveclient authentication and request core, in Dafny

This project models the core of `pveclient`, a Go client library for the Proxmox Virtual
Environment (PVE) management API:

- the two authentication strategies behind the `Auth` interface:
  - **TokenAuth** is stateless. Every request gets an
    `Authorization: PVEAPIToken=<user>@<realm>!<tokenid>=<secret>` header.
  - **LoginAuth** is stateful. `Authenticate` requests a session ticket and stores the
    response. `ModifyHeaders` then writes the `Cookie: PVEAuthCookie=<ticket>` header and the
    `CSRFPreventionToken` header.
- client options (`Config`, `ConfigOption`, `WithInsecure`) and how `NewClient` folds them
  into the HTTP client's TLS policy;
- the `Version` request: the headers it sends, and the order in which it checks the URL
  join, request creation, the transport, the body read, the status code and JSON decoding.
  The first check that fails decides the error.

Layout, one module per Go file:

| file | module | Go source |
|---|---|---|
| `errors.dfy` | `Errors` | the error values of package `proxmox`; `Option` and `Result` |
| `headers.dfy` | `Headers` | a `map[string][]string` as a reference (`HeaderMap`); nil is `null` |
| `format.dfy` | `Format` | `fmt.Sprintf` for formats whose only verb is `%s` |
| `config.dfy` | `Configs` | `config.go` |
| `client.dfy` | `Clients` | `client.go` |
| `token_auth.dfy` | `TokenAuthentication` | `token_auth.go` |
| `login_auth.dfy` | `LoginAuthentication` | `login_auth.go` |
| `auth.dfy` | `Authentication` | `auth.go` |

How the model is shaped:

- The library code the client calls is passed in as a `Library` value: `url.JoinPath`, the
  failure of `http.NewRequestWithContext`, `http.Client.Do` (with the outcome of
  `io.ReadAll` on the body), and `json.Unmarshal` into a `VersionResponse`. Each field is a
  function that returns a value or an error.
- `Client.IssueTicket` is not in the modelled source. It is a `TicketIssuer` parameter that
  returns a ticket response or an error.
- Go's `(value, error)` returns become `Option`/`Result` values, or pairs with an
  `Option<Error>` where the source returns a meaningful value next to the error.
  `Version` is one of these: it returns `""` with every error.
- The `Auth` interface becomes a tagged union, `Auth = Token(..) | Login(..)`, whose methods
  dispatch to the two implementations.
- `TokenAuth` never changes after construction, so it is a datatype. `LoginAuth` updates its
  `response` field, so it is a class.
- Header maps are passed by reference and written in place, as in Go. The pure functions
  `WithAuthorization` and `SessionHeaders` say what the new contents are, and the lemmas are
  stated about those functions.

Behaviour of the code that a reader might not expect, and that the model keeps:

- Calling `LoginAuth.ModifyHeaders` before a successful `Authenticate` dereferences a nil
  response and faults. It does not contribute empty headers. The model states this as
  `requires response.Some?`.
- `NewClient` does not validate the base URL and never fails. The URL is joined, and can
  fail, on every `Version` call.
- `Version` returns only the version string, not the release or repository id. It sends the
  stored `apiToken` verbatim as the `Authorization` header and does not use an `Auth`
  strategy.
- A non-200 status is reported as `ErrInvalidStatusCode` wrapped with the code, with no
  body interpretation. An error while reading the body wins over the status check, because
  `call` reads the body before `Version` looks at the status.

## Model

| member | source | states |
|---|---|---|
| `Headers.HeaderMap.constructor` | internal/pkg/proxmox/token_auth.go:38-40 | `make(map[string][]string)` yields an empty map |
| `Format.Sprintf` | internal/pkg/proxmox/token_auth.go:43 | the formatted string's length is the format's length, minus two per `%s`, plus the operands' lengths |
| `Format.SprintfLiteral` | internal/pkg/proxmox/token_auth.go:43 | verb-free text ahead of a format is copied unchanged to the output |
| `Format.SprintfVerb` | internal/pkg/proxmox/token_auth.go:43 | a leading `%s` is replaced by the first operand, and the rest uses the remaining operands |
| `Format.SprintfFourVerbs` | internal/pkg/proxmox/token_auth.go:43 | a format with four `%s` verbs, each after verb-free text, puts the four operands in place in order |
| `TokenAuthentication.NewTokenAuth` | internal/pkg/proxmox/token_auth.go:20-31 | fails with `ErrInvalidTokenAuth` exactly when realm, username, tokenID or tokenSecret is empty; otherwise stores all four verbatim in their own fields |
| `TokenAuthentication.TokenAuth.Authenticate` | internal/pkg/proxmox/token_auth.go:33-35 | always returns nil; the strategy has no state to change |
| `TokenAuthentication.TokenAuth.AuthorizationValue` | internal/pkg/proxmox/token_auth.go:42-44 | the `%s` format with its operands filled in is `"PVEAPIToken=" + username + "@" + realm + "!" + tokenID + "=" + tokenSecret`, with username first although the constructor takes realm first |
| `TokenAuthentication.AuthorizationFormatted` | internal/pkg/proxmox/token_auth.go:43 | the format literal `PVEAPIToken=%s@%s!%s=%s` has one `%s` per operand and formats to the bit-exact header value |
| `TokenAuthentication.TokenAuth.WithAuthorization` | internal/pkg/proxmox/token_auth.go:42-46 | afterwards `Authorization` maps to the single header value; no other key is added, and every other key keeps its values |
| `TokenAuthentication.TokenAuth.WithAuthorizationIdempotent` | internal/pkg/proxmox/token_auth.go:37-47 | applying the header write twice gives the same map as applying it once |
| `TokenAuthentication.TokenAuth.ModifyHeaders` | internal/pkg/proxmox/token_auth.go:37-47 | writes into the caller's map and returns that same map; a nil map is replaced by a fresh map that holds only the `Authorization` entry |
| `LoginAuthentication.NewLoginAuth` | internal/pkg/proxmox/login_auth.go:19-30 | fails with `ErrInvalidLoginAuth` and no object exactly when realm, username or password is empty; otherwise returns a fresh object with the credentials stored verbatim and no ticket response |
| `LoginAuthentication.LoginAuth.constructor` | internal/pkg/proxmox/login_auth.go:24-29 | stores the three credentials and a nil response |
| `LoginAuthentication.LoginAuth.Authenticate` | internal/pkg/proxmox/login_auth.go:32-41 | asks for a ticket with the stored realm, username and password. On failure it returns that same error and leaves the stored response unchanged; on success it returns nil and stores exactly the returned response |
| `LoginAuthentication.SessionHeaders` | internal/pkg/proxmox/login_auth.go:48-49 | afterwards `CSRFPreventionToken` maps to `[token]` and `Cookie` maps to `["PVEAuthCookie=" + ticket]`; only those two keys are added, and all other keys keep their values |
| `LoginAuthentication.SessionHeadersIdempotent` | internal/pkg/proxmox/login_auth.go:43-52 | writing the session headers twice gives the same map as writing them once |
| `LoginAuthentication.LoginAuth.ModifyHeaders` | internal/pkg/proxmox/login_auth.go:43-52 | requires a stored response (nil faults). Writes the session headers into the caller's map and returns it; nil becomes a fresh map. The object's own state does not change |
| `Authentication.Auth.Authenticate` | internal/pkg/proxmox/auth.go:6 | the token variant always succeeds; the login variant behaves as `LoginAuth.Authenticate` |
| `Authentication.Auth.ModifyHeaders` | internal/pkg/proxmox/auth.go:7 | each variant writes its own headers into the caller's map, as its implementation states |
| `Configs.Config.constructor` | internal/pkg/proxmox/client.go:30 | the zero `Config` has `insecureSkipTLS` false |
| `Configs.ConfigOption.Apply` | internal/pkg/proxmox/client.go:31-33 | `opt(&config)`: the package's option and a caller's own `func(*Config)` each set the flag to what that function makes of the old flag. Nothing but that Config changes |
| `Configs.WithInsecure` | internal/pkg/proxmox/config.go:9-13 | the package's option sets `insecureSkipTLS` to true whatever its prior value. Applying it twice equals applying it once |
| `Configs.InsecureAfterEndingWithInsecure` | internal/pkg/proxmox/client.go:30-33 | when `WithInsecure` is the last option, the folded Config skips TLS verification whatever options came before it |
| `Configs.InsecureAfterIff` | internal/pkg/proxmox/client.go:30-33 | if every option other than `WithInsecure` leaves the flag alone, folding the options over the zero Config sets `insecureSkipTLS` exactly when `WithInsecure` is among them |
| `Configs.ResetAfterWithInsecure` | internal/pkg/proxmox/client.go:31-33 | options apply in order, so a caller's option after `WithInsecure` that clears the flag leaves verification on |
| `Clients.NewClient` | internal/pkg/proxmox/client.go:29-49 | never fails. Returns a fresh client with `baseURL` and `apiToken` verbatim. Its transport skips TLS verification exactly when the options, applied in order to a zero Config, leave `insecureSkipTLS` set |
| `Clients.Client.constructor` | internal/pkg/proxmox/client.go:44-48 | stores the base URL, the API token and the HTTP client |
| `Clients.NewGetRequest` | internal/pkg/proxmox/client.go:105-114 | fails with the wrapped request-creation error exactly when request creation fails; otherwise builds a GET to the endpoint that carries exactly the given headers |
| `Clients.Client.Call` | internal/pkg/proxmox/client.go:84-103 | a transport error or a body-read error comes with status 0 and a nil body; otherwise returns the response's status and the whole body, and never treats a status as an error |
| `Clients.Client.Version` | internal/pkg/proxmox/client.go:53-82 | every error comes with `""`. The outcome is decided in order: URL join, request creation, transport, body read, status 200 (otherwise `ErrInvalidStatusCode` with the code), JSON decoding; on success it returns `Data.Version` and nil. The request is a GET with the single header `Authorization = [apiToken]` |
| `Clients.Client.VersionDecodesOnlyAfterOK` | internal/pkg/proxmox/client.go:72-79 | on every outcome except success and a decoding failure, the result does not depend on the JSON decoder, so the body is never decoded before a 200 |
| `Clients.Client.VersionSendsOnlyAuthorization` | internal/pkg/proxmox/client.go:59-67 | the transport is asked only through this client's HTTP client, and only with a GET whose header set is exactly `Authorization = [apiToken]` |

## Left out

- Network I/O, TLS handshakes and certificate checking are not modelled. The HTTP client is
  reduced to which transport it carries: the default one, or one that skips verification.
- Contexts, cancellation and deadlines are not modelled. The `ctx` arguments are dropped.
- `url.JoinPath`, `http.NewRequestWithContext`, `http.Client.Do`, `io.ReadAll` and
  `json.Unmarshal` are library code. They are abstract functions in `Library`, so nothing is
  said about how URLs are joined or how JSON is parsed.
- `Client.IssueTicket`, its request, its form body and its response type are not part of
  this model. Only the two fields LoginAuth reads, `Data.Ticket` and
  `Data.CSRFPreventionToken`, are kept.
- Clients.Client.Call: does not model closing the response body or logging a failed close
  (client.go:90-95). These side effects do not change the result.
- The error texts passed to `errors.New` and `fmt.Errorf` are not modelled. Errors are
  compared by kind, by wrapped cause, and by status code.
- Format.Sprintf: models only formats whose verbs are all `%s`, with one string operand per
  verb. Other verbs, `%%`, and missing or extra operands are not modelled.
- `http.Header.Set` canonicalises its key. `"Authorization"` is already canonical, so
  `Version`'s header map is written directly.
- The `Library` fields and `TicketIssuer` are pure, total functions. Two calls with the same
  arguments give the same answer, which a real server or network need not do.
- A caller's `ConfigOption` is reduced to what it does to `insecureSkipTLS`. A nil option,
  which panics at `client.go:32`, and any side effect an option has outside the Config are
  not modelled.
- The client passed to `Authenticate` may be `null`, as a nil `*Client` may be passed in Go.
  `TokenAuth` ignores it, and what `IssueTicket` does with it is up to the `TicketIssuer`.
- Object identity of `*TokenAuth` is not modelled, because `TokenAuth` is a value.
- `requester.go` and `request.go` are thin wrappers over `net/http` that nothing in the
  modelled core calls. They are not modelled.
- The command-line program (`cmd/pveclient/main.go`) and environment loading
  (`internal/pkg/config/config.go`) are not modelled.
- The integration test `client_test.go` needs a live server. It is not modelled.
- Node listing, disk listing, tolerant numeric decoding, and single-flight handshakes are
  absent from the source. They are not modelled.
