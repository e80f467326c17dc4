/**
 * The authorization decision of the proxy's request handler, as values: which
 * way a request goes given the configured credentials and the pair the caller
 * sent, what the forwarded request's headers become, and what a rejection
 * writes to the response.
 */
module Gate {
  import opened Headers
  import opened Http

  /** The username and password the proxy accepts, fixed at startup. */
  datatype Config = Config(user: string, pass: string)

  /** The settings used when no flag overrides them. */
  function DefaultConfig(): (c: Config)
    ensures c.user == "bubbles" && c.pass == "bubbles"
  {
    Config("bubbles", "bubbles")
  }

  const ChallengeHeader := "WWW-Authenticate"
  const ChallengeScheme := "Basic"
  const IdentityHeader := "X-HTTP-USER"
  const StatusUnauthorized := 401
  const MissingBody := "Missing basic auth credentials"
  const IncorrectBody := "Incorrect auth credentials"

  /** The handler's decision; a forwarded request carries its rewritten header map. */
  datatype Outcome = RejectMissing | RejectIncorrect | Forward(request: Header)

  /**
   * The decision for a request whose `BasicAuth()` gave `auth` and whose
   * headers are `req`.
   */
  function Decide(cfg: Config, auth: Option<Credentials>, req: Header): (o: Outcome)
    // No credentials: rejected as missing, and only then.
    ensures o.RejectMissing? <==> auth.None?
    // Credentials whose username or password differ: rejected as incorrect, and only then.
    ensures o.RejectIncorrect? <==> auth.Some? && (auth.value.user != cfg.user || auth.value.pass != cfg.pass)
    // Forwarded exactly when the configured pair was sent.
    ensures o.Forward? <==> auth == Some(Credentials(cfg.user, cfg.pass))
    // The identity header holds one value, the configured username, which is
    // also the username the caller sent.
    ensures o.Forward? ==> Values(o.request, IdentityHeader) == [cfg.user]
    ensures o.Forward? ==> Values(o.request, IdentityHeader) == [auth.value.user]
    // Every other header is as the caller sent it.
    ensures o.Forward? ==> forall k :: k != CanonicalKey(IdentityHeader) ==> (k in o.request <==> k in req)
    ensures o.Forward? ==> forall k :: k in req && k != CanonicalKey(IdentityHeader) ==> o.request[k] == req[k]
    // On a request as the server builds it, no spelling of the identity
    // header keeps a value the caller chose.
    ensures o.Forward? && WellFormed(req) ==> WellFormed(o.request)
    ensures o.Forward? && WellFormed(req) ==>
      forall k :: k in o.request && CanonicalKey(k) == CanonicalKey(IdentityHeader) ==> o.request[k] == [cfg.user]
  {
    match auth
    case None => RejectMissing
    case Some(c) =>
      if c.user != cfg.user || c.pass != cfg.pass then RejectIncorrect
      else Forward(Set(req, IdentityHeader, cfg.user))
  }

  /** The answer the handler writes for a rejection: challenge, status 401 and `body`. */
  function Reject(w: Response, body: string): (r: Response)
    ensures Values(r.header, ChallengeHeader) == Values(w.header, ChallengeHeader) + [ChallengeScheme]
    ensures forall k :: k != CanonicalKey(ChallengeHeader) ==> (k in r.header <==> k in w.header)
    ensures forall k :: k in w.header && k != CanonicalKey(ChallengeHeader) ==> r.header[k] == w.header[k]
    ensures r.wroteHeader && (!w.wroteHeader ==> r.status == StatusUnauthorized)
    ensures r.body == w.body + body
  {
    var challenged := w.(header := Add(w.header, ChallengeHeader, ChallengeScheme));
    BodyWritten(StatusWritten(challenged, StatusUnauthorized), body)
  }

  /**
   * What the handler itself writes to the response for outcome `o`; on a
   * forward it writes nothing, the forwarding engine answers instead.
   */
  function Respond(o: Outcome, w: Response): (r: Response)
    ensures o.Forward? ==> r == w
    ensures o.RejectMissing? ==> r.body == w.body + MissingBody
    ensures o.RejectIncorrect? ==> r.body == w.body + IncorrectBody
    ensures !o.Forward? ==> r.wroteHeader && (!w.wroteHeader ==> r.status == StatusUnauthorized)
    ensures !o.Forward? ==> Values(r.header, ChallengeHeader) == Values(w.header, ChallengeHeader) + [ChallengeScheme]
  {
    match o
    case RejectMissing => Reject(w, MissingBody)
    case RejectIncorrect => Reject(w, IncorrectBody)
    case Forward(_) => w
  }

  /** A request without credentials is never told its credentials were incorrect. */
  lemma MissingTakesPrecedence(cfg: Config, req: Header, w: Response)
    ensures Decide(cfg, None, req) == RejectMissing
    ensures Respond(Decide(cfg, None, req), w).body == w.body + MissingBody
  {
  }

  /**
   * There is no separate check of the username: an empty one passes only when
   * the configured username is empty too and the passwords agree.
   */
  lemma EmptyUsername(cfg: Config, pass: string, req: Header)
    ensures Decide(cfg, Some(Credentials("", pass)), req).Forward? <==> cfg.user == "" && pass == cfg.pass
  {
  }

  /** "*" is an ordinary username: it does not let other usernames through. */
  lemma NoWildcard(pass: string, c: Credentials, req: Header)
    requires c.user != "*"
    ensures Decide(Config("*", pass), Some(c), req) == RejectIncorrect
  {
  }

  /**
   * With the default settings, the pair bubbles:bubbles is forwarded as
   * "bubbles" on any request the server builds, whatever identity header the
   * caller sent.
   */
  lemma DefaultAcceptsAndOverwrites(req: Header)
    requires WellFormed(req)
    ensures var o := Decide(DefaultConfig(), Some(Credentials("bubbles", "bubbles")), req);
      && o.Forward?
      && "X-Http-User" in o.request && o.request["X-Http-User"] == ["bubbles"]
      && forall k :: k in o.request && CanonicalKey(k) == "X-Http-User" ==> o.request[k] == ["bubbles"]
  {
    IdentityHeaderCanonical();
  }

  /** With the default settings, eve:wrong is rejected as incorrect. */
  lemma DefaultRejectsOthers(req: Header, w: Response)
    ensures var o := Decide(DefaultConfig(), Some(Credentials("eve", "wrong")), req);
      o == RejectIncorrect && Respond(o, w).body == w.body + IncorrectBody
  {
  }
}
