/** The company Zoom configuration routes of routes/configRoutes.js: reading the stored credentials
    back in masked form and saving them encrypted, one document per company. The caller is an
    authenticated administrator; the cipher is a parameter. */
module ConfigRoutes {
  import opened Common
  import opened TokenCache
  import D = Delivery
  import I = Ingestion

  const MASK: string := "****"

  /** The collection of configurations, stored under their `companyId` (the unique index). */
  type Configs = map<string, ZoomConfigDoc>

  ghost predicate OnePerCompany(cs: Configs) {
    forall k :: k in cs ==> cs[k].companyId == k
  }

  /** `s.slice(-4)`: the last four characters, or all of a shorter string. */
  function LastFour(s: string): (r: string)
    ensures |r| == if |s| < 4 then |s| else 4
    ensures EndsWith(s, r)
  {
    if |s| < 4 then s else s[|s| - 4..]
  }

  /** `"****" + s.slice(-4)`. */
  function Mask(s: string): (r: string)
    ensures StartsWith(r, MASK) && r[|MASK|..] == LastFour(s)
    ensures |r| <= 8
  {
    MASK + LastFour(s)
  }

  /** A mask shows the last four characters and nothing else: two values of four or more characters
      have the same mask exactly when they end alike. */
  lemma MaskShowsOnlyLastFour(s: string, t: string)
    requires |s| >= 4 && |t| >= 4
    ensures Mask(s) == Mask(t) <==> s[|s| - 4..] == t[|t| - 4..]
  {
    if Mask(s) == Mask(t) {
      assert Mask(s)[|MASK|..] == Mask(t)[|MASK|..];
    }
  }

  /** A value of at most four characters is shown whole. */
  lemma ShortValueShownWhole(s: string)
    requires |s| <= 4
    ensures Mask(s) == MASK + s
  {
  }

  /** The body of GET /api/config/zoom. It has no field for the client secret. */
  datatype ConfigView = ConfigView(clientId: string, accountId: string, downloadPath: string)

  /** `null` when the company has no configuration; `Unreadable` when `decrypt` throws on one of the
      two credentials it shows. */
  datatype ViewReply = NullConfig | Shown(view: ConfigView) | Unreadable

  /** GET /api/config/zoom for the company of the requesting administrator. */
  function ViewConfig(cs: Configs, companyId: string, decrypt: string -> Option<string>): (r: ViewReply)
    ensures r == NullConfig <==> companyId !in cs
    ensures r.Shown? <==>
      companyId in cs && decrypt(cs[companyId].clientIdEnc).Some? && decrypt(cs[companyId].accountIdEnc).Some?
    ensures r.Shown? ==>
      var doc := cs[companyId];
      && r.view.clientId == Mask(decrypt(doc.clientIdEnc).value)
      && r.view.accountId == Mask(decrypt(doc.accountIdEnc).value)
      && r.view.downloadPath == OrDefault(doc.downloadPath, "")
  {
    if companyId !in cs then NullConfig
    else
      var doc := cs[companyId];
      var id := decrypt(doc.clientIdEnc);
      var account := decrypt(doc.accountIdEnc);
      if id.None? || account.None? then Unreadable
      else Shown(ConfigView(Mask(id.value), Mask(account.value), OrDefault(doc.downloadPath, "")))
  }

  /** The view never depends on the stored client secret: replacing it changes nothing. */
  lemma ViewIgnoresSecret(cs: Configs, companyId: string, decrypt: string -> Option<string>, other: string)
    requires companyId in cs
    ensures ViewConfig(cs, companyId, decrypt) ==
      ViewConfig(cs[companyId := cs[companyId].(clientSecretEnc := other)], companyId, decrypt)
  {
  }

  /** The body of POST /api/config/zoom. A credential is absent when the body does not carry it as
      a string. */
  datatype ConfigForm = ConfigForm(clientId: Option<string>, clientSecret: Option<string>, accountId: Option<string>,
                                   downloadPath: Option<string>)

  /** `encrypt` accepts only a string: an absent credential makes it throw. */
  predicate Complete(form: ConfigForm) {
    form.clientId.Some? && form.clientSecret.Some? && form.accountId.Some?
  }

  /** `{ ok: true }`, or the error `encrypt` throws before the update is sent, which the route does
      not catch. */
  datatype SaveReply = SavedOk | Threw(message: string)

  const NOT_A_STRING: string := "The \"data\" argument must be of type string"

  /** POST /api/config/zoom: the company's document is created or replaced with the three
      credentials encrypted (`encrypt` gives this request's envelopes) and `downloadPath || ""`. An
      incomplete form throws before anything is written. */
  function SaveConfig(cs: Configs, companyId: string, form: ConfigForm, encrypt: string -> string): (r: (SaveReply, Configs))
    ensures r.0.SavedOk? <==> Complete(form)
    ensures r.0.Threw? ==> r.1 == cs
    ensures r.0.SavedOk? ==>
      && r.1.Keys == cs.Keys + {companyId}
      && (forall k :: k in cs && k != companyId ==> r.1[k] == cs[k])
      && r.1[companyId].companyId == companyId
      && r.1[companyId].downloadPath == Some(OrDefault(form.downloadPath, ""))
    ensures OnePerCompany(cs) ==> OnePerCompany(r.1)
  {
    if !Complete(form) then (Threw(NOT_A_STRING), cs)
    else
      (SavedOk, cs[companyId := ZoomConfigDoc(companyId, encrypt(form.clientId.value), encrypt(form.clientSecret.value),
                                              encrypt(form.accountId.value), Some(OrDefault(form.downloadPath, "")))])
  }

  /** Saving twice for a company keeps only the last save that was complete. */
  lemma LastSaveWins(cs: Configs, companyId: string, f1: ConfigForm, f2: ConfigForm, encrypt: string -> string)
    ensures Complete(f2) ==>
      SaveConfig(SaveConfig(cs, companyId, f1, encrypt).1, companyId, f2, encrypt).1 == SaveConfig(cs, companyId, f2, encrypt).1
    ensures !Complete(f2) ==>
      SaveConfig(SaveConfig(cs, companyId, f1, encrypt).1, companyId, f2, encrypt).1 == SaveConfig(cs, companyId, f1, encrypt).1
  {
  }

  /** What was saved reads back masked: the last four characters of the client id and account id,
      and the download path or "". An incomplete form leaves the view as it was. */
  lemma SaveThenView(cs: Configs, companyId: string, form: ConfigForm, encrypt: string -> string,
                     decrypt: string -> Option<string>)
    requires form.clientId.Some? ==> decrypt(encrypt(form.clientId.value)) == form.clientId
    requires form.accountId.Some? ==> decrypt(encrypt(form.accountId.value)) == form.accountId
    ensures Complete(form) ==>
      ViewConfig(SaveConfig(cs, companyId, form, encrypt).1, companyId, decrypt)
        == Shown(ConfigView(Mask(form.clientId.value), Mask(form.accountId.value), OrDefault(form.downloadPath, "")))
    ensures !Complete(form) ==>
      ViewConfig(SaveConfig(cs, companyId, form, encrypt).1, companyId, decrypt) == ViewConfig(cs, companyId, decrypt)
  {
  }

  /** A configuration saved without a download path stores "". The recordings route treats that as
      absent and falls back to the environment, and the ingestion run uses the base "", but only
      when the document they read is this one: both read the first stored configuration of any
      company (`found`). When the saving company is the only one with a configuration, that is
      necessarily its own. */
  lemma SavedEmptyPathFallsBack(cs: Configs, companyId: string, form: ConfigForm, encrypt: string -> string,
                                env: Option<string>, found: ZoomConfigDoc)
    requires Complete(form) && !Truthy(form.downloadPath)
    requires found in SaveConfig(cs, companyId, form, encrypt).1.Values
    ensures var saved := SaveConfig(cs, companyId, form, encrypt).1;
      found == saved[companyId] ==>
        D.RecordingsRoot(Some(found), env) == D.RecordingsRoot(None, env) && I.BasePath(Some(found)) == ""
    ensures cs.Keys <= {companyId} ==> found == SaveConfig(cs, companyId, form, encrypt).1[companyId]
  {
    var saved := SaveConfig(cs, companyId, form, encrypt).1;
    if cs.Keys <= {companyId} {
      assert saved.Keys == {companyId};
    }
  }

  /** The lookup that ingestion and delivery make is not filtered by company: with another
      company's document found, its download path is the one used, whatever this company saved. */
  lemma OtherCompanyPathUsed(cs: Configs, companyId: string, form: ConfigForm, encrypt: string -> string,
                             env: Option<string>, other: string)
    requires other in cs && other != companyId && Truthy(cs[other].downloadPath)
    ensures var found := SaveConfig(cs, companyId, form, encrypt).1[other];
      && found == cs[other]
      && D.RecordingsRoot(Some(found), env) == Some(Join(cs[other].downloadPath.value, D.RECORDINGS_DIR))
      && I.BasePath(Some(found)) == cs[other].downloadPath.value
  {
  }
}
