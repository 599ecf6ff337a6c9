/** Accounts and request authentication: the signup and login routes of routes/authRoutes.js and
    the bearer-token middleware of middleware/auth.js. Token signing and verification, password
    hashing and the user collection are parameters. */
module Auth {
  import opened Common

  const DEFAULT_COMPANY: string := "default"
  const DEFAULT_ROLE: string := "agent"
  const ADMIN: string := "admin"
  const BEARER: string := "Bearer "

  // ---------------------------------------------------------------------------------------------
  // Company slug

  /** `s.replace(/\s+/g, "-")`: every maximal run of whitespace becomes one "-". */
  function DashRuns(s: string): (r: string)
    ensures forall i :: 0 <= i < |r| ==> !IsWhitespace(r[i])
    ensures s == "" <==> r == ""
    decreases |s|
  {
    if s == "" then ""
    else if IsWhitespace(s[0]) then
      var rest := TrimStart(s);
      "-" + DashRuns(rest)
    else [s[0]] + DashRuns(s[1..])
  }

  /** `(companyName || "default").toLowerCase().replace(/\s+/g, "-")`. */
  function CompanySlug(companyName: Option<string>): (r: string)
    ensures r != ""
    ensures forall i :: 0 <= i < |r| ==> !IsWhitespace(r[i])
    ensures !Truthy(companyName) ==> r == DEFAULT_COMPANY
  {
    DefaultSlug();
    DashRuns(ToLower(OrDefault(companyName, DEFAULT_COMPANY)))
  }

  /** "default" is its own slug. */
  lemma DefaultSlug()
    ensures DashRuns(ToLower(DEFAULT_COMPANY)) == DEFAULT_COMPANY
  {
    assert ToLower(DEFAULT_COMPANY) == DEFAULT_COMPANY;
    DashRunsNoWhitespace(DEFAULT_COMPANY);
  }

  predicate LowerCase(s: string) {
    forall i :: 0 <= i < |s| ==> LowerChar(s[i]) == s[i]
  }

  /** Text without whitespace passes the replacement unchanged. */
  lemma {:induction false} DashRunsNoWhitespace(s: string)
    requires forall i :: 0 <= i < |s| ==> !IsWhitespace(s[i])
    ensures DashRuns(s) == s
    decreases |s|
  {
    if s != "" {
      DashRunsNoWhitespace(s[1..]);
    }
  }

  /** The replacement keeps text lower-case. */
  lemma {:induction false} DashRunsLowerCase(s: string)
    requires LowerCase(s)
    ensures LowerCase(DashRuns(s))
    decreases |s|
  {
    if s != "" {
      if IsWhitespace(s[0]) {
        var rest := TrimStart(s);
        assert forall i :: 0 <= i < |rest| ==> rest[i] == s[|s| - |rest| + i];
        DashRunsLowerCase(rest);
      } else {
        DashRunsLowerCase(s[1..]);
      }
    }
  }

  /** The replacement works piecewise on any cut that does not fall inside a whitespace run. */
  lemma {:induction false} DashRunsConcat(a: string, b: string)
    requires a == "" || b == "" || !IsWhitespace(a[|a| - 1]) || !IsWhitespace(b[0])
    ensures DashRuns(a + b) == DashRuns(a) + DashRuns(b)
    decreases |a|
  {
    if a == "" {
      assert a + b == b;
    } else if b == "" {
      assert a + b == a;
    } else if !IsWhitespace(a[0]) {
      assert (a + b)[1..] == a[1..] + b;
      DashRunsConcat(a[1..], b);
      AppendAssoc([a[0]], DashRuns(a[1..]), DashRuns(b));
    } else {
      DashRunsConcatRun(a, b);
    }
  }

  /** The case of `DashRunsConcat` where `a` starts with whitespace. */
  lemma {:induction false} DashRunsConcatRun(a: string, b: string)
    requires a != "" && b != "" && IsWhitespace(a[0])
    requires !IsWhitespace(a[|a| - 1]) || !IsWhitespace(b[0])
    ensures DashRuns(a + b) == DashRuns(a) + DashRuns(b)
    decreases |a|, 0
  {
    var ra := TrimStart(a);
    var p := a[..|a| - |ra|];
    assert a == p + ra;
    assert (a + b)[0] == a[0];
    if ra == "" {
      assert a == p;
      TrimStartRun(a, b);
      assert DashRuns(a) == "-";
    } else {
      TrimStartKeepsRest(p, ra, b);
      assert p + ra + b == a + b;
      TrimStartKeepsRest(p, ra, []);
      assert p + ra + [] == a;
      assert ra[|ra| - 1] == a[|a| - 1];
      DashRunsConcat(ra, b);
      AppendAssoc("-", DashRuns(ra), DashRuns(b));
    }
  }

  /** A run of whitespace followed by text that does not start with whitespace becomes exactly
      one "-". */
  lemma DashRunsRun(w: string, b: string)
    requires w != "" && forall i :: 0 <= i < |w| ==> IsWhitespace(w[i])
    requires b == "" || !IsWhitespace(b[0])
    ensures DashRuns(w + b) == "-" + DashRuns(b)
  {
    assert (w + b)[0] == w[0];
    TrimStartRun(w, b);
  }

  /** A run of whitespace between two pieces of text is replaced by exactly one "-", and the text
      on either side is replaced independently. */
  lemma DashRunsSplit(a: string, w: string, b: string)
    requires w != "" && forall i :: 0 <= i < |w| ==> IsWhitespace(w[i])
    requires a == "" || !IsWhitespace(a[|a| - 1])
    requires b == "" || !IsWhitespace(b[0])
    ensures DashRuns(a + w + b) == DashRuns(a) + "-" + DashRuns(b)
  {
    assert a + w + b == a + (w + b);
    DashRunsConcat(a, w + b);
    DashRunsRun(w, b);
    AppendAssoc(DashRuns(a), "-", DashRuns(b));
  }

  /** Trimming a whitespace prefix `w` off `w + b` leaves `b` when `b` does not start with
      whitespace. */
  lemma {:induction false} TrimStartRun(w: string, b: string)
    requires forall i :: 0 <= i < |w| ==> IsWhitespace(w[i])
    requires b == "" || !IsWhitespace(b[0])
    ensures TrimStart(w + b) == b
    decreases |w|
  {
    if w != "" {
      assert (w + b)[1..] == w[1..] + b;
      TrimStartRun(w[1..], b);
    } else {
      assert w + b == b;
    }
  }

  /** Trimming stops at the first non-whitespace character: text after it is kept. */
  lemma {:induction false} TrimStartKeepsRest(p: string, r: string, tail: string)
    requires forall i :: 0 <= i < |p| ==> IsWhitespace(p[i])
    requires r != "" && !IsWhitespace(r[0])
    ensures TrimStart(p + r + tail) == r + tail
  {
    assert p + r + tail == p + (r + tail);
    TrimStartRun(p, r + tail);
  }

  /** The slug of a slug is itself: a company id derived once is stable. */
  lemma {:induction false} SlugIdempotent(companyName: Option<string>)
    ensures CompanySlug(Some(CompanySlug(companyName))) == CompanySlug(companyName)
  {
    var s := ToLower(OrDefault(companyName, DEFAULT_COMPANY));
    assert LowerCase(s);
    DashRunsLowerCase(s);
    var r := DashRuns(s);
    assert ToLower(r) == r;
    DashRunsNoWhitespace(r);
  }

  /** The role stored for a new user: `role || "agent"`. */
  function SignupRole(role: Option<string>): (r: string)
    ensures r != ""
    ensures Truthy(role) ==> r == role.value
    ensures !Truthy(role) ==> r == DEFAULT_ROLE
  {
    OrDefault(role, DEFAULT_ROLE)
  }

  // ---------------------------------------------------------------------------------------------
  // Accounts

  /** A stored user; `password` is the hash. */
  datatype User = User(id: string, username: string, email: string, password: string, companyId: string,
                       phone: Option<string>, role: string)

  /** The claims of a signed token. `name` is read by the engagement listing; `sign` never puts it
      in a token. */
  datatype Claims = Claims(id: string, role: string, companyId: string, name: Option<string>)

  /** What `sign(user)` puts in the token. */
  function SignedClaims(u: User): Claims
  {
    Claims(u.id, u.role, u.companyId, None)
  }

  /** A token carries the user's id, role and company and nothing else of the account: users that
      agree on those three get the same claims, whatever their email, password hash, username or
      phone. */
  lemma ClaimsCarryOnlyIdRoleCompany(u: User, v: User)
    requires u.id == v.id && u.role == v.role && u.companyId == v.companyId
    ensures SignedClaims(u) == SignedClaims(v)
    ensures SignedClaims(u).name.None?
  {
  }

  /** The fields of a signup request. */
  datatype SignupForm = SignupForm(username: string, email: string, password: string,
                                   companyName: Option<string>, phone: Option<string>, role: Option<string>)

  /** The document handed to `User.create`. */
  datatype NewUser = NewUser(username: string, email: string, password: string, companyId: string,
                             phone: Option<string>, role: string)

  datatype AuthReply =
    | Failed(status: int, message: string)
    | Session(user: User, claims: Claims)

  function SignupDoc(f: SignupForm): NewUser
  {
    NewUser(f.username, f.email, f.password, CompanySlug(f.companyName), f.phone, SignupRole(f.role))
  }

  /** A company id derived at signup is stable: signing up with it as the company name joins the
      same company. The account's credentials are passed to `create` as given. */
  lemma SignupCompanyStable(f: SignupForm, g: SignupForm)
    requires g.companyName == Some(SignupDoc(f).companyId)
    ensures SignupDoc(g).companyId == SignupDoc(f).companyId
    ensures SignupDoc(g).email == g.email && SignupDoc(g).password == g.password
  {
    SlugIdempotent(f.companyName);
  }

  /** POST /api/auth/signup. `create` is `User.create`, which may reject the document (a duplicate
      email, a role outside the schema's enum); any rejection is answered 400 with its message. */
  function Signup(f: SignupForm, create: NewUser -> Outcome<User>): (r: AuthReply)
    ensures r.Failed? <==> create(SignupDoc(f)).Err?
    ensures r.Failed? ==> r.status == 400 && r.message == create(SignupDoc(f)).message
    ensures r.Session? ==> r.user == create(SignupDoc(f)).value && r.claims == SignedClaims(r.user)
  {
    match create(SignupDoc(f))
    case Err(_, m) => Failed(400, m)
    case Ok(u) => Session(u, SignedClaims(u))
  }

  /** A signup that leaves the company and role out is stored for the "default" company as an agent. */
  lemma SignupDefaults(f: SignupForm, create: NewUser -> Outcome<User>)
    requires f.companyName.None? && f.role.None?
    ensures SignupDoc(f).companyId == DEFAULT_COMPANY && SignupDoc(f).role == DEFAULT_ROLE
  {
  }

  /** POST /api/auth/login. `findByEmail` is `User.findOne({email})`, `matches(user, password)`
      bcrypt's comparison. */
  function Login(email: string, password: string, findByEmail: string -> Option<User>,
                 matches: (User, string) -> bool): (r: AuthReply)
    ensures r.Session? <==> findByEmail(email).Some? && matches(findByEmail(email).value, password)
    ensures r.Failed? ==> r == Failed(401, "Invalid credentials")
    ensures r.Session? ==> r.user == findByEmail(email).value && r.claims == SignedClaims(r.user)
  {
    var u := findByEmail(email);
    if u.None? || !matches(u.value, password) then Failed(401, "Invalid credentials")
    else Session(u.value, SignedClaims(u.value))
  }

  /** An unknown email and a wrong password get the same answer. */
  lemma LoginDoesNotRevealEmails(email1: string, email2: string, password: string,
                                 findByEmail: string -> Option<User>, matches: (User, string) -> bool)
    requires findByEmail(email1).None?
    requires findByEmail(email2).Some? && !matches(findByEmail(email2).value, password)
    ensures Login(email1, password, findByEmail, matches) == Login(email2, password, findByEmail, matches)
  {
  }

  // ---------------------------------------------------------------------------------------------
  // Bearer middleware

  /** `header.startsWith("Bearer ") ? header.slice(7) : null`, with `null` as `None`. */
  function BearerToken(header: string): (t: Option<string>)
    ensures t.Some? <==> StartsWith(header, BEARER)
    ensures t.Some? ==> BEARER + t.value == header
  {
    if StartsWith(header, BEARER) then Some(header[|BEARER|..]) else None
  }

  datatype Gate = Reject(status: int, message: string) | Next(user: Claims)

  const TOKEN_MISSING: string := "Auth token missing"
  const TOKEN_INVALID: string := "Invalid or expired token"

  /** The middleware. `authorization` is the request's header, `verify` is `jwt.verify` under the
      server's secret, `None` when it throws. `Next(c)` sets `req.user` to `c` and calls `next`. */
  function Authenticate(authorization: Option<string>, verify: string -> Option<Claims>): (g: Gate)
    ensures g.Next? <==>
      var t := BearerToken(OrDefault(authorization, ""));
      t.Some? && t.value != "" && verify(t.value).Some?
    ensures g.Next? ==> g.user == verify(BearerToken(authorization.value).value).value
    ensures g.Reject? ==> g.status == 401
  {
    var token := BearerToken(OrDefault(authorization, ""));
    if !Truthy(token) then Reject(401, TOKEN_MISSING)
    else match verify(token.value)
      case None => Reject(401, TOKEN_INVALID)
      case Some(c) => Next(c)
  }

  /** A missing header, another scheme (including lower-case "bearer "), or "Bearer " with nothing
      after it is refused as missing, without consulting the verifier. */
  lemma MissingTokenCases(authorization: Option<string>, verify1: string -> Option<Claims>,
                          verify2: string -> Option<Claims>)
    requires var h := OrDefault(authorization, ""); !StartsWith(h, BEARER) || h == BEARER
    ensures Authenticate(authorization, verify1) == Reject(401, TOKEN_MISSING)
    ensures Authenticate(authorization, verify1) == Authenticate(authorization, verify2)
  {
  }

  lemma LowerCaseSchemeRefused(token: string, verify: string -> Option<Claims>)
    ensures Authenticate(Some("bearer " + token), verify) == Reject(401, TOKEN_MISSING)
  {
    assert ("bearer " + token)[0] == 'b';
  }

  /** A present token the verifier refuses is reported as invalid, not missing. */
  lemma RefusedToken(token: string, verify: string -> Option<Claims>)
    requires token != "" && verify(token).None?
    ensures Authenticate(Some(BEARER + token), verify) == Reject(401, TOKEN_INVALID)
  {
    assert (BEARER + token)[|BEARER|..] == token;
  }

  /** A token signed at login passes the middleware with exactly the signed claims, given a verifier
      that accepts what the server signed. */
  lemma LoginTokenAccepted(u: User, token: string, verify: string -> Option<Claims>)
    requires token != "" && verify(token) == Some(SignedClaims(u))
    ensures Authenticate(Some(BEARER + token), verify) == Next(SignedClaims(u))
  {
    assert (BEARER + token)[|BEARER|..] == token;
  }
}
