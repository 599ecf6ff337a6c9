/** The request-origin policy and the final error handler of server.js. Parsing an origin as a URL
    is left to a parameter, `host`, which gives the hostname of a parseable origin and `None` for
    one the URL parser refuses. */
module Cors {
  import opened Common

  const VERCEL_ORIGIN: string := "https://zoomrecordingapplication.vercel.app"
  const LOCALHOST: string := "localhost"
  const LOOPBACK: string := "127.0.0.1"
  const NGROK_FREE_SUFFIX: string := ".ngrok-free.app"
  const NGROK_SUFFIX: string := ".ngrok.io"

  /** The fixed list `allowedOrigins`. */
  const ALLOWED_ORIGINS: seq<string> := [
    VERCEL_ORIGIN,
    "http://localhost:5173",
    "http://127.0.0.1:5173",
    "http://localhost:4173",
    "http://127.0.0.1:4173"]

  /** A URL parser that reads the five listed origins as any URL parser does: each parses, and the
      four development origins have the host they name. */
  predicate ReadsListedHosts(host: string -> Option<string>) {
    && host(VERCEL_ORIGIN).Some?
    && host("http://localhost:5173") == Some(LOCALHOST)
    && host("http://127.0.0.1:5173") == Some(LOOPBACK)
    && host("http://localhost:4173") == Some(LOCALHOST)
    && host("http://127.0.0.1:4173") == Some(LOOPBACK)
  }

  /** A hostname the policy accepts whatever the rest of the origin is. */
  predicate TrustedHost(h: string) {
    h == LOCALHOST || h == LOOPBACK || EndsWith(h, NGROK_FREE_SUFFIX) || EndsWith(h, NGROK_SUFFIX)
  }

  /** `dynamicOriginAllow(origin)`. */
  predicate DynamicOriginAllow(origin: Option<string>, host: string -> Option<string>) {
    if !Truthy(origin) then true
    else match host(origin.value)
      case None => false
      case Some(h) => TrustedHost(h) || origin.value == VERCEL_ORIGIN
  }

  /** The decision of the `origin` callback: `dynamicOriginAllow(origin) || allowedOrigins.includes(origin)`. */
  predicate CorsAllows(origin: Option<string>, host: string -> Option<string>) {
    DynamicOriginAllow(origin, host) || (origin.Some? && origin.value in ALLOWED_ORIGINS)
  }

  /** A request without an origin (curl, mobile apps) is allowed; an origin that does not parse is
      refused, even the Vercel one. */
  lemma AbsentOrUnparseable(origin: Option<string>, host: string -> Option<string>)
    ensures !Truthy(origin) ==> DynamicOriginAllow(origin, host)
    ensures Truthy(origin) && host(origin.value).None? ==> !DynamicOriginAllow(origin, host)
  {
  }

  /** An accepted origin is absent, the Vercel origin, or one whose host is trusted. */
  lemma AllowedMeansTrusted(origin: Option<string>, host: string -> Option<string>)
    requires DynamicOriginAllow(origin, host) && Truthy(origin)
    ensures host(origin.value).Some?
    ensures origin.value == VERCEL_ORIGIN || TrustedHost(host(origin.value).value)
  {
  }

  /** Any scheme and port on the loopback hosts, and any subdomain of the two tunnel domains, are
      allowed. */
  lemma TrustedHostsAllowed(origin: string, host: string -> Option<string>, sub: string)
    requires origin != ""
    ensures host(origin) == Some(LOCALHOST) || host(origin) == Some(LOOPBACK) ==> DynamicOriginAllow(Some(origin), host)
    ensures host(origin) == Some(sub + NGROK_SUFFIX) ==> DynamicOriginAllow(Some(origin), host)
    ensures host(origin) == Some(sub + NGROK_FREE_SUFFIX) ==> DynamicOriginAllow(Some(origin), host)
  {
    assert (sub + NGROK_SUFFIX)[|sub|..] == NGROK_SUFFIX;
    assert (sub + NGROK_FREE_SUFFIX)[|sub|..] == NGROK_FREE_SUFFIX;
  }

  /** The bare `ngrok.io` host does not end with ".ngrok.io" and is refused. */
  lemma NgrokApexRefused(origin: string, host: string -> Option<string>)
    requires origin != "" && origin != VERCEL_ORIGIN && host(origin) == Some("ngrok.io")
    ensures !DynamicOriginAllow(Some(origin), host)
  {
  }

  /** Every listed origin already passes `dynamicOriginAllow`, so the list adds nothing: the
      decision is `dynamicOriginAllow(origin)`. */
  lemma {:induction false} AllowListRedundant(origin: Option<string>, host: string -> Option<string>)
    requires ReadsListedHosts(host)
    ensures CorsAllows(origin, host) <==> DynamicOriginAllow(origin, host)
  {
    if origin.Some? && origin.value in ALLOWED_ORIGINS {
      var o := origin.value;
      assert o == ALLOWED_ORIGINS[0] || o == ALLOWED_ORIGINS[1] || o == ALLOWED_ORIGINS[2]
        || o == ALLOWED_ORIGINS[3] || o == ALLOWED_ORIGINS[4];
      assert o != "";
      assert host(o).Some?;
    }
  }

  /** The status of the central error handler: `err.status || 500`. */
  function ErrorStatus(status: Option<int>): (r: int)
    ensures r != 0
    ensures TruthyNum(status) ==> r == status.value
    ensures !TruthyNum(status) ==> r == 500
  {
    if TruthyNum(status) then status.value else 500
  }

  /** The message of the central error handler: `err.message || "Internal Server Error"`. */
  function ErrorMessage(message: Option<string>): (r: string)
    ensures r != ""
    ensures Truthy(message) ==> r == message.value
  {
    if Truthy(message) then message.value else "Internal Server Error"
  }

  /** What a request gets from the CORS layer: passed on, or the handler's reply to the error the
      `origin` callback raises. */
  datatype CorsResult = PassOn | Refused(status: int, error: string)

  function CorsGate(origin: Option<string>, host: string -> Option<string>): (r: CorsResult)
    ensures r.PassOn? <==> CorsAllows(origin, host)
    ensures r.Refused? ==> r.status == 500 && Truthy(origin)
  {
    if CorsAllows(origin, host) then PassOn
    else
      var err := "CORS policy does not allow access from origin: " + origin.value;
      Refused(ErrorStatus(None), ErrorMessage(Some(err)))
  }

  /** A refused origin is answered 500 with a message that names it. */
  lemma RefusalNamesOrigin(origin: string, host: string -> Option<string>)
    requires !CorsAllows(Some(origin), host)
    ensures CorsGate(Some(origin), host) ==
      Refused(500, "CORS policy does not allow access from origin: " + origin)
  {
  }
}
