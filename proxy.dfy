/**
 * The reverse proxy object and its request handler: the gate in front of the
 * forwarding engine. The engine is represented by the list of requests it has
 * been handed; what it does with them is outside the model.
 */
module Proxy {
  import opened Headers
  import opened Http
  import opened Gate

  /**
   * What the forwarding engine is handed: the request's header map and the
   * response writer as it stood at that moment.
   */
  datatype Handoff = Handoff(request: Header, writer: Response)

  class AuthProxy {
    /** The backend URL the forwarding engine was built for. */
    const target: string
    /** The accepted credentials, read-only for the proxy's lifetime. */
    const config: Config
    /** Every hand-off to the forwarding engine, in order. */
    var forwarded: seq<Handoff>

    /** `NewAuthProxy(target)`: nothing forwarded yet. */
    constructor (target: string, config: Config)
      ensures this.target == target && this.config == config && forwarded == []
    {
      this.target := target;
      this.config := config;
      forwarded := [];
    }

    /**
     * `p.proxy.ServeHTTP(w, r)`: the engine receives the request and the writer
     * as they now stand. It then answers on the writer with the backend's
     * response, so the writer's final state is left open.
     */
    method Delegate(w: ResponseWriter, r: Request)
      modifies this`forwarded, w
      ensures forwarded == old(forwarded) + [Handoff(r.header, old(w.Snapshot()))]
    {
      forwarded := forwarded + [Handoff(r.header, w.Snapshot())];
    }

    /**
     * The handler: reject with a challenge when the credentials are missing or
     * wrong, otherwise stamp the identity header and hand the request on.
     */
    method ServeHTTP(w: ResponseWriter, r: Request)
      modifies w, r`header, this`forwarded
      // A rejection is written by the handler itself.
      ensures var o := Decide(config, r.basicAuth, old(r.header));
        !o.Forward? ==> w.Snapshot() == Respond(o, old(w.Snapshot()))
      // The request headers change only on a forward.
      ensures var o := Decide(config, r.basicAuth, old(r.header));
        r.header == (if o.Forward? then o.request else old(r.header))
      // The engine is called exactly on a forward, with the rewritten headers
      // and a writer the handler has not touched.
      ensures var o := Decide(config, r.basicAuth, old(r.header));
        forwarded == old(forwarded) + (if o.Forward? then [Handoff(o.request, old(w.Snapshot()))] else [])
    {
      match r.basicAuth
      case None =>
        w.AddHeader(ChallengeHeader, ChallengeScheme);
        w.WriteHeader(StatusUnauthorized);
        w.Write(MissingBody);
        return;
      case Some(c) =>
        if c.user != config.user || c.pass != config.pass {
          w.AddHeader(ChallengeHeader, ChallengeScheme);
          w.WriteHeader(StatusUnauthorized);
          w.Write(IncorrectBody);
          return;
        }
        r.header := Set(r.header, IdentityHeader, config.user);
        Delegate(w, r);
    }
  }

  /**
   * Two identical authorized requests are forwarded as two separate calls of
   * the engine, with the same rewritten headers; nothing is cached or merged.
   */
  method ServeRepeated(p: AuthProxy, w1: ResponseWriter, r1: Request, w2: ResponseWriter, r2: Request)
    requires w1 != w2 && r1 != r2
    requires r1.header == r2.header && r1.basicAuth == r2.basicAuth
    requires r1.basicAuth == Some(Credentials(p.config.user, p.config.pass))
    modifies p, w1, w2, r1, r2
    ensures var h := Set(old(r1.header), IdentityHeader, p.config.user);
      p.forwarded == old(p.forwarded) + [Handoff(h, old(w1.Snapshot())), Handoff(h, old(w2.Snapshot()))]
  {
    p.ServeHTTP(w1, r1);
    p.ServeHTTP(w2, r2);
  }
}
