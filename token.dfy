/** The credential and access-token caches of utils/zoom.js: `loadZoomConfig` decrypts the stored
    Zoom credentials once and keeps them; `getAccessToken` reuses the cached token until its
    recorded expiry and otherwise performs the account-credentials exchange. */
module TokenCache {
  import opened Common

  /** The decrypted Server-to-Server OAuth credentials. */
  datatype Credentials = Credentials(clientId: string, clientSecret: string, accountId: string)

  /** A stored Zoom configuration: three encrypted credentials and the download directory. */
  datatype ZoomConfigDoc = ZoomConfigDoc(
    companyId: string,
    clientIdEnc: string,
    clientSecretEnc: string,
    accountIdEnc: string,
    downloadPath: Option<string>)

  /** The body of a successful token exchange. */
  datatype TokenGrant = TokenGrant(accessToken: string, expiresIn: int)

  /** The seconds of validity given up, so that a token is renewed before Zoom expires it. */
  const EXPIRY_MARGIN_S: int := 60

  /** The three module-level variables. A `cachedToken` of "" stands for `null`. */
  datatype Cache = Cache(config: Option<Credentials>, token: string, tokenExp: int)

  const EMPTY_CACHE: Cache := Cache(None, "", 0)

  /** `cachedToken && now < cachedTokenExp`. */
  predicate Fresh(c: Cache, now: int) {
    c.token != "" && now < c.tokenExp
  }

  /** `now + (expires_in - 60) * 1000`, with `now` read before the exchange. */
  function ExpiryFor(now: int, expiresIn: int): int {
    now + (expiresIn - EXPIRY_MARGIN_S) * 1000
  }

  /** Decrypting the stored document; any credential that fails authentication makes the whole
      call throw. */
  function DecryptConfig(doc: ZoomConfigDoc, decrypt: string -> Option<string>): Outcome<Credentials> {
    var id := decrypt(doc.clientIdEnc);
    var secret := decrypt(doc.clientSecretEnc);
    var account := decrypt(doc.accountIdEnc);
    if id.Some? && secret.Some? && account.Some? then Ok(Credentials(id.value, secret.value, account.value))
    else Err(None, "Unsupported state or unable to authenticate data")
  }

  /** `loadZoomConfig()`: the cached credentials, else the stored document decrypted and cached.
      `doc` is what `ZoomConfig.findOne()` returns with no filter: the first stored configuration,
      of any company. */
  function LoadConfig(c: Cache, doc: Option<ZoomConfigDoc>, decrypt: string -> Option<string>)
    : (Outcome<Credentials>, Cache)
  {
    if c.config.Some? then (Ok(c.config.value), c)
    else if doc.None? then (Err(None, "No Zoom configuration found."), c)
    else
      match DecryptConfig(doc.value, decrypt)
      case Ok(creds) => (Ok(creds), c.(config := Some(creds)))
      case Err(s, m) => (Err(s, m), c)
  }

  /** `getAccessToken()` at time `now`, where `exchange` is the token endpoint's answer for the
      credentials it is given. */
  function AccessToken(c: Cache, now: int, doc: Option<ZoomConfigDoc>, decrypt: string -> Option<string>,
                       exchange: Credentials -> Outcome<TokenGrant>): (Outcome<string>, Cache)
  {
    if Fresh(c, now) then (Ok(c.token), c)
    else
      var (creds, c1) := LoadConfig(c, doc, decrypt);
      match creds
      case Err(s, m) => (Err(s, m), c1)
      case Ok(cr) =>
        match exchange(cr)
        case Err(s, m) => (Err(s, m), c1)
        case Ok(g) => (Ok(g.accessToken), c1.(token := g.accessToken, tokenExp := ExpiryFor(now, g.expiresIn)))
  }

  /** Loaded credentials are kept for good: a later load returns them whatever the store holds. */
  lemma ConfigLoadedOnce(c: Cache, doc: Option<ZoomConfigDoc>, decrypt: string -> Option<string>)
    requires c.config.Some?
    ensures LoadConfig(c, doc, decrypt) == (Ok(c.config.value), c)
  {
  }

  /** A missing configuration throws, with no status, and caches nothing. */
  lemma MissingConfigThrows(c: Cache, decrypt: string -> Option<string>)
    requires c.config.None?
    ensures LoadConfig(c, None, decrypt).0.Err? && LoadConfig(c, None, decrypt).0.status.None?
    ensures LoadConfig(c, None, decrypt).1 == c
  {
  }

  /** A successful load caches exactly the credentials it returns and touches neither token field. */
  lemma LoadCachesResult(c: Cache, doc: Option<ZoomConfigDoc>, decrypt: string -> Option<string>)
    requires LoadConfig(c, doc, decrypt).0.Ok?
    ensures var (r, c1) := LoadConfig(c, doc, decrypt);
      c1 == c.(config := Some(r.value))
  {
  }

  /** While the cached token is fresh it is returned as is, and neither the store, the cipher nor
      the token endpoint is consulted: the answer is the same for any of them. */
  lemma FreshTokenReused(c: Cache, now: int,
                         doc1: Option<ZoomConfigDoc>, decrypt1: string -> Option<string>, exchange1: Credentials -> Outcome<TokenGrant>,
                         doc2: Option<ZoomConfigDoc>, decrypt2: string -> Option<string>, exchange2: Credentials -> Outcome<TokenGrant>)
    requires Fresh(c, now)
    ensures AccessToken(c, now, doc1, decrypt1, exchange1) == (Ok(c.token), c)
    ensures AccessToken(c, now, doc1, decrypt1, exchange1) == AccessToken(c, now, doc2, decrypt2, exchange2)
  {
  }

  /** A successful exchange caches the new token with an expiry 60 seconds short of the one granted,
      counted from the time read before the exchange, and keeps the credentials it used. */
  lemma ExchangeCachesToken(c: Cache, now: int, doc: Option<ZoomConfigDoc>, decrypt: string -> Option<string>,
                            exchange: Credentials -> Outcome<TokenGrant>)
    requires !Fresh(c, now)
    requires LoadConfig(c, doc, decrypt).0.Ok?
    requires exchange(LoadConfig(c, doc, decrypt).0.value).Ok?
    ensures var g := exchange(LoadConfig(c, doc, decrypt).0.value).value;
      var (r, c2) := AccessToken(c, now, doc, decrypt, exchange);
      && r == Ok(g.accessToken)
      && c2.token == g.accessToken
      && c2.tokenExp == now + (g.expiresIn - 60) * 1000
      && c2.config == Some(LoadConfig(c, doc, decrypt).0.value)
  {
  }

  /** A failed load or exchange leaves the token fields as they were. */
  lemma FailedRefreshKeepsToken(c: Cache, now: int, doc: Option<ZoomConfigDoc>, decrypt: string -> Option<string>,
                                exchange: Credentials -> Outcome<TokenGrant>)
    requires AccessToken(c, now, doc, decrypt, exchange).0.Err?
    ensures AccessToken(c, now, doc, decrypt, exchange).1.token == c.token
    ensures AccessToken(c, now, doc, decrypt, exchange).1.tokenExp == c.tokenExp
  {
  }

  /** A non-empty token just obtained is reused at every instant before its expiry. */
  lemma {:induction false} FreshUntilExpiry(c: Cache, now: int, later: int, doc: Option<ZoomConfigDoc>,
                                            decrypt: string -> Option<string>, exchange: Credentials -> Outcome<TokenGrant>)
    requires !Fresh(c, now)
    requires AccessToken(c, now, doc, decrypt, exchange).0.Ok?
    requires AccessToken(c, now, doc, decrypt, exchange).0.value != ""
    requires later < AccessToken(c, now, doc, decrypt, exchange).1.tokenExp
    ensures AccessToken(AccessToken(c, now, doc, decrypt, exchange).1, later, doc, decrypt, exchange).0
            == AccessToken(c, now, doc, decrypt, exchange).0
  {
    var (r, c2) := AccessToken(c, now, doc, decrypt, exchange);
    assert c2.token == r.value;
    assert Fresh(c2, later);
  }

  /** A token granted for 60 seconds or less is never reused: it is already stale when cached. */
  lemma ShortGrantNeverReused(c: Cache, now: int, later: int, g: TokenGrant)
    requires g.expiresIn <= EXPIRY_MARGIN_S && now <= later
    ensures !Fresh(c.(token := g.accessToken, tokenExp := ExpiryFor(now, g.expiresIn)), later)
  {
  }

  /** The module-level cache of utils/zoom.js as an object whose fields the two functions update. */
  class ZoomSession {
    var cachedConfig: Option<Credentials>
    var cachedToken: string
    var cachedTokenExp: int

    function State(): Cache
      reads this
    {
      Cache(cachedConfig, cachedToken, cachedTokenExp)
    }

    /** The module's initial values: nothing cached, expiry 0. */
    constructor ()
      ensures State() == EMPTY_CACHE
    {
      cachedConfig := None;
      cachedToken := "";
      cachedTokenExp := 0;
    }

    /** `loadZoomConfig()`. */
    method LoadZoomConfig(doc: Option<ZoomConfigDoc>, decrypt: string -> Option<string>)
      returns (r: Outcome<Credentials>)
      modifies this
      ensures (r, State()) == LoadConfig(old(State()), doc, decrypt)
    {
      if cachedConfig.Some? {
        return Ok(cachedConfig.value);
      }
      if doc.None? {
        return Err(None, "No Zoom configuration found.");
      }
      r := DecryptConfig(doc.value, decrypt);
      if r.Ok? {
        cachedConfig := Some(r.value);
      }
    }

    /** `getAccessToken()`; `now` is `Date.now()` and `exchanged` tells whether the token endpoint
        was called. */
    method GetAccessToken(now: int, doc: Option<ZoomConfigDoc>, decrypt: string -> Option<string>,
                          exchange: Credentials -> Outcome<TokenGrant>)
      returns (r: Outcome<string>, exchanged: bool)
      modifies this
      ensures (r, State()) == AccessToken(old(State()), now, doc, decrypt, exchange)
      ensures exchanged <==> !Fresh(old(State()), now) && LoadConfig(old(State()), doc, decrypt).0.Ok?
    {
      exchanged := false;
      if cachedToken != "" && now < cachedTokenExp {
        return Ok(cachedToken), exchanged;
      }
      var creds := LoadZoomConfig(doc, decrypt);
      if creds.Err? {
        return Err(creds.status, creds.message), exchanged;
      }
      exchanged := true;
      var res := exchange(creds.value);
      if res.Err? {
        return Err(res.status, res.message), exchanged;
      }
      cachedToken := res.value.accessToken;
      cachedTokenExp := now + (res.value.expiresIn - EXPIRY_MARGIN_S) * 1000;
      r := Ok(cachedToken);
    }
  }
}
