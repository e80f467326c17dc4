# roxy: the authorization gate of a Basic-auth reverse proxy

roxy is a small HTTP reverse proxy that lets a request through to one fixed
backend only when it carries the configured Basic credentials. Its handler
(`rproxy.ServeHTTP` in `main.go`) does three things per request:

1. asks the request for its Basic credential pair (`r.BasicAuth()`);
2. if there is none, or the username or the password differs from the
   configured one, adds `WWW-Authenticate: Basic` to the response headers,
   writes status 401 and a fixed body ("Missing basic auth credentials" or
   "Incorrect auth credentials") and stops;
3. otherwise overwrites the request's `X-HTTP-USER` header with the configured
   username and hands the request to Go's single-host reverse proxy.

The model has four modules:

- `Headers` (`headers.dfy`): Go's header maps, `map<string, seq<string>>`,
  with `Add`, `Set` and `Values`. Each of them goes through the canonical form
  of the header name, as Go's `CanonicalMIMEHeaderKey` does: the first letter
  and every letter after a hyphen in upper case, the other letters in lower case,
  and a name containing a non-token character left alone. Go's net/textproto
  source is not part of this model. The canonicalisation follows that
  package's documented rule. It matters here because `Set("X-HTTP-USER", …)`
  writes the entry `X-Http-User`. `WellFormed` states that every key is
  already canonical, which holds for every request the Go server builds.
- `Http` (`http.dfy`): a `Request` class, whose header map is updated in
  place and whose `basicAuth` constant stands for the result of
  `BasicAuth()`. It also has a `ResponseWriter` class with `AddHeader`,
  `WriteHeader` and `Write`. Each of these methods is specified by a function
  on the `Response` value: the first `WriteHeader` fixes the status, and a
  `Write` before it implies status 200.
- `Gate` (`gate.dfy`): the decision as pure functions. `Decide` maps the
  configuration, the credentials and the request headers to `RejectMissing`,
  `RejectIncorrect` or `Forward(headers')`. `Respond` gives what the handler
  writes for each outcome. The lemmas cover precedence, empty usernames, the
  absence of a wildcard, and two concrete requests under the default settings.
- `Proxy` (`proxy.dfy`): the `AuthProxy` class with `ServeHTTP`, written
  with the source's early returns and in-place updates. Its contract ties the
  new request headers, the response writer and the log of hand-offs to the
  forwarding engine to `Decide` and `Respond`.

The configured username and password are package-level flags in the source
(main.go:18-19, default "bubbles"/"bubbles"). Here they are an immutable
`Config` that `AuthProxy` is constructed with.

The handler has no `"*"` wildcard username and no separate rejection of
empty usernames, and it answers missing credentials with "Missing basic auth
credentials" (main.go:43). `Gate.NoWildcard` and `Gate.EmptyUsername` state
what it does instead.

## Model

| member | source | states |
|---|---|---|
| `Headers.Add` | main.go:41 | the value is appended to the values already under the canonical name, every other entry is unchanged, and canonical keys stay canonical |
| `Headers.Set` | main.go:54 | the canonical name then holds exactly the one value, every other entry is unchanged, and in a canonical map no spelling of the name keeps an older value |
| `Headers.CanonicalKey` | main.go:54 | canonicalisation keeps the length and leaves names with non-token characters alone; in a token name each letter is upper case when it starts the name or follows a hyphen and lower case otherwise, and the result is again a token name |
| `Headers.CanonicalKeyIdempotent` | main.go:54 | canonicalising a header name twice is the same as once, so `Add` and `Set` keep a server-built header map canonical |
| `Headers.IdentityHeaderCanonical` | main.go:54 | the identity header `X-HTTP-USER` is stored under `X-Http-User` |
| `Headers.NonCanonicalEntrySurvivesSet` | main.go:54 | `Set` replaces only the canonical entry, so spoofing resistance relies on the server canonicalising incoming names |
| `Http.StatusWritten` | main.go:42 | the first `WriteHeader` fixes the status and later ones leave it, with headers and body untouched |
| `Http.BodyWritten` | main.go:43 | `Write` appends the bytes to the body, and a write before any `WriteHeader` implies status 200 |
| `Http.FreshResponse` | main.go:38 | the writer a handler receives has no status, no headers and no body yet |
| `Http.Request.constructor` | main.go:39 | a request carries its header map and the outcome of `BasicAuth()` |
| `Http.ResponseWriter.constructor` | main.go:38 | a new writer is the fresh response |
| `Http.ResponseWriter.AddHeader` | main.go:47 | `w.Header().Add` changes only the header map, as `Headers.Add` |
| `Http.ResponseWriter.WriteHeader` | main.go:48 | `w.WriteHeader` changes the writer as `StatusWritten` |
| `Http.ResponseWriter.Write` | main.go:49 | `w.Write` changes the writer as `BodyWritten` |
| `Gate.DefaultConfig` | main.go:18-19 | the default username and password are both "bubbles" |
| `Gate.Decide` | main.go:39-54 | missing credentials are rejected as missing, and only they are; a differing username or password is rejected as incorrect, and only that; a request is forwarded if and only if it carries exactly the configured pair; a forwarded request's identity header holds exactly the configured username, which equals the supplied one, and every other header is as sent |
| `Gate.Reject` | main.go:41-43 | a rejection appends `Basic` to the `WWW-Authenticate` values (earlier values kept), changes no other response header, writes status 401 on a fresh writer and appends the body |
| `Gate.Respond` | main.go:40-51 | the missing case writes "Missing basic auth credentials", the incorrect case "Incorrect auth credentials", both with the challenge and 401; a forward leaves the writer to the engine |
| `Gate.MissingTakesPrecedence` | main.go:39-46 | a request without credentials is never answered "Incorrect auth credentials" |
| `Gate.EmptyUsername` | main.go:46 | an empty username is forwarded only when the configured username is empty and the passwords agree |
| `Gate.NoWildcard` | main.go:46 | a configured username "*" does not admit any other username |
| `Gate.DefaultAcceptsAndOverwrites` | main.go:46-54 | with the defaults, bubbles:bubbles is forwarded on every server-built request, and every spelling of the identity header then holds only `bubbles`, whatever the caller sent |
| `Gate.DefaultRejectsOthers` | main.go:46-49 | with the defaults, eve:wrong is rejected as incorrect |
| `Proxy.AuthProxy.constructor` | main.go:33-35 | a new proxy has its target and configuration and has forwarded nothing |
| `Proxy.AuthProxy.Delegate` | main.go:56 | handing a request to the engine logs its current header map and the writer as it stands; what the engine then writes on the writer is left open |
| `Proxy.AuthProxy.ServeHTTP` | main.go:38-57 | on a rejection the writer ends as `Respond` says; the request headers are rewritten only on a forward and are otherwise left exactly as they were; the engine is called exactly on a forward, with the rewritten headers and a writer the handler has not touched |
| `Proxy.ServeRepeated` | main.go:38-57 | two identical authorized requests give two separate hand-offs to the engine, with the same rewritten headers |

## Left out

- Parsing of the `Authorization` header inside `BasicAuth()` (base64 of `user:pass`, section 2 of RFC 7617): it is Go library code, and its result is the abstract `Request.basicAuth`.
- The forwarding engine (`httputil.NewSingleHostReverseProxy` and its `ServeHTTP`): the model records what it receives in `AuthProxy.forwarded`, and after a hand-off the writer may hold anything. Rewriting the target URL, network I/O, the backend's answer on the writer and gateway errors are not modelled.
- Flag parsing with kingpin, `main`, `ListenAndServe`, the gorilla logging handler and the `log.Println` calls: these are startup, I/O and logging, and they do not affect the decision.
- Concurrency between requests: each request and writer is owned by one handler call, and the configuration is read-only.
- Http.ResponseWriter.WriteHeader: does not model Go's check that a status code has three digits, because the handler only ever passes 401.
- Http.ResponseWriter.Write: does not model the `Content-Type` and `Content-Length` headers the Go server adds when sending, nor the fact that header changes after `WriteHeader` are not sent; the handler changes no header after writing the status.
- Headers.CanonicalKey: works on characters, where Go works on bytes; every name the handler uses is ASCII.
