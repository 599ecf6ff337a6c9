/** GET /api/engagements/all of routes/engagementRoutes.js: administrators see every engagement,
    agents those whose `agent` column is their name, both newest first; any other role is refused
    before the collection is queried. */
module Listing {
  import opened Common
  import opened EngagementModel
  import opened Auth

  /** Newest first: `sort({startTime: -1})`. */
  predicate NewestFirst(s: seq<Engagement>) {
    forall i, j :: 0 <= i < j < |s| ==> s[i].startTime.epochMs >= s[j].startTime.epochMs
  }

  /** Places `e` into a list already newest first, after every record at least as new. */
  function Insert(e: Engagement, s: seq<Engagement>): (r: seq<Engagement>)
    requires NewestFirst(s)
    ensures NewestFirst(r)
    ensures multiset(r) == multiset(s) + multiset{e}
    ensures |r| == |s| + 1
  {
    if s == [] then [e]
    else if s[0].startTime.epochMs >= e.startTime.epochMs then
      var rest := Insert(e, s[1..]);
      assert s == [s[0]] + s[1..];
      NewerHead(s[0], rest);
      [s[0]] + rest
    else
      NewerHead(e, s);
      [e] + s
  }

  /** A record at least as new as every record of a list sorted newest first can lead it. */
  lemma NewerHead(h: Engagement, s: seq<Engagement>)
    requires NewestFirst(s)
    requires s != [] ==> h.startTime.epochMs >= s[0].startTime.epochMs
    ensures NewestFirst([h] + s)
  {
    var r := [h] + s;
    forall i, j | 0 <= i < j < |r| ensures r[i].startTime.epochMs >= r[j].startTime.epochMs {
      if i == 0 {
        assert r[j] == s[j - 1];
        assert s[0].startTime.epochMs >= s[j - 1].startTime.epochMs || j - 1 == 0;
      } else {
        assert r[i] == s[i - 1] && r[j] == s[j - 1];
      }
    }
  }

  /** The records of `s` newest first. Records with equal start times keep their relative order;
      the database leaves that order unspecified. */
  function SortNewestFirst(s: seq<Engagement>): (r: seq<Engagement>)
    ensures NewestFirst(r)
    ensures multiset(r) == multiset(s)
  {
    if s == [] then []
    else
      assert s == [s[0]] + s[1..];
      Insert(s[0], SortNewestFirst(s[1..]))
  }

  /** `{agent: name}`. A token without a `name` claim queries `{agent: undefined}`, which the driver
      sends as `null` and which matches no stored record, since every record has a string agent. */
  function OwnedBy(s: seq<Engagement>, name: Option<string>): (r: seq<Engagement>)
    ensures forall e :: e in r ==> name.Some? && e.agent == name.value
    ensures forall e :: multiset(r)[e] == if name.Some? && e.agent == name.value then multiset(s)[e] else 0
  {
    if s == [] then []
    else
      assert s == [s[0]] + s[1..];
      var rest := OwnedBy(s[1..], name);
      if name.Some? && s[0].agent == name.value then [s[0]] + rest else rest
  }

  datatype ListReply =
    | Records(records: seq<Engagement>)
    | Failure(status: int, message: string)

  const UNAUTHORIZED: string := "Unauthorized"
  const SERVER_ERROR: string := "Server error"

  /** The handler for an authenticated `user`. `docs` is the collection in its natural order and
      `queryOk` tells whether the query succeeded. */
  function ListAll(user: Claims, docs: seq<Engagement>, queryOk: bool): (r: ListReply)
    ensures r.Records? ==> NewestFirst(r.records)
    ensures r.Records? <==> queryOk && (user.role == ADMIN || user.role == DEFAULT_ROLE)
    ensures user.role != ADMIN && user.role != DEFAULT_ROLE ==> r == Failure(403, UNAUTHORIZED)
    ensures (user.role == ADMIN || user.role == DEFAULT_ROLE) && !queryOk ==> r == Failure(500, SERVER_ERROR)
  {
    if user.role == ADMIN then
      if queryOk then Records(SortNewestFirst(docs)) else Failure(500, SERVER_ERROR)
    else if user.role == DEFAULT_ROLE then
      if queryOk then Records(SortNewestFirst(OwnedBy(docs, user.name))) else Failure(500, SERVER_ERROR)
    else Failure(403, UNAUTHORIZED)
  }

  /** An administrator gets every record exactly once, newest first. */
  lemma AdminSeesAll(user: Claims, docs: seq<Engagement>)
    requires user.role == ADMIN
    ensures var r := ListAll(user, docs, true);
      r.Records? && multiset(r.records) == multiset(docs) && NewestFirst(r.records)
  {
  }

  /** An agent gets exactly the records whose agent is their name, each as often as stored. */
  lemma AgentSeesOwn(user: Claims, docs: seq<Engagement>, e: Engagement)
    requires user.role == DEFAULT_ROLE && user.name.Some?
    ensures var r := ListAll(user, docs, true);
      && r.Records?
      && (e in r.records <==> e in docs && e.agent == user.name.value)
      && multiset(r.records)[e] == if e.agent == user.name.value then multiset(docs)[e] else 0
  {
    var r := ListAll(user, docs, true).records;
    assert multiset(r) == multiset(OwnedBy(docs, user.name));
    assert (e in r) == (multiset(r)[e] > 0);
    assert (e in docs) == (multiset(docs)[e] > 0);
  }

  /** Any other role is refused whatever the collection holds and whether or not it can be read. */
  lemma OtherRolesRefused(user: Claims, docs1: seq<Engagement>, docs2: seq<Engagement>, ok1: bool, ok2: bool)
    requires user.role != ADMIN && user.role != DEFAULT_ROLE
    ensures ListAll(user, docs1, ok1) == ListAll(user, docs2, ok2) == Failure(403, UNAUTHORIZED)
  {
  }

  /** The tokens signed at login carry no `name`, so an agent holding one is listed nothing,
      whatever the collection holds. */
  lemma LoginAgentListsNothing(u: User, docs: seq<Engagement>)
    requires u.role == DEFAULT_ROLE
    ensures ListAll(SignedClaims(u), docs, true) == Records([])
  {
  }

  /** The claims the listing evidently expects: those of `sign` with the user's name added. */
  function NamedClaims(u: User): (c: Claims)
    ensures c.name == Some(u.username)
    ensures c.(name := None) == SignedClaims(u)
  {
    Claims(u.id, u.role, u.companyId, Some(u.username))
  }

  /** With the name in the token, an agent who logged in is listed exactly the records whose agent
      is their name, each as often as stored, newest first. */
  lemma NamedAgentSeesOwn(u: User, docs: seq<Engagement>, e: Engagement)
    requires u.role == DEFAULT_ROLE
    ensures var r := ListAll(NamedClaims(u), docs, true);
      && r.Records? && NewestFirst(r.records)
      && (e in r.records <==> e in docs && e.agent == u.username)
      && multiset(r.records)[e] == if e.agent == u.username then multiset(docs)[e] else 0
  {
    AgentSeesOwn(NamedClaims(u), docs, e);
  }
}
