/** The engagement record of models/Engagement.js, its schema defaults, and the collection of
    records, keyed by the unique `engagementId`, together with the keyed upsert that writes it. */
module EngagementModel {
  import opened Common

  /** A calendar date in local time, as `getFullYear()`, `getMonth() + 1` and `getDate()` give it. */
  datatype CalendarDate = CalendarDate(year: nat, month: nat, day: nat)

  /** A point in time: milliseconds since the epoch, and the local date it falls on. */
  datatype Instant = Instant(epochMs: int, local: CalendarDate)

  /** One transcript entry, in cue order. */
  datatype TranscriptLine = TranscriptLine(speaker: string, time: string, text: string)

  /** A stored engagement. `companyId` has no schema default, so a record inserted without one
      lacks it; `createdAt` and `updatedAt` are the schema's timestamps. */
  datatype Engagement = Engagement(
    companyId: Option<string>,
    engagementId: string,
    direction: string,
    startTime: Instant,
    duration: int,
    waitingDuration: int,
    handlingDuration: int,
    wrapUpDuration: int,
    agent: string,
    acceptType: string,
    upgradedToChannelType: string,
    transferType: string,
    queue: string,
    channel: string,
    flow: string,
    disposition: string,
    consumer: string,
    source: string,
    notes: string,
    transcript: seq<TranscriptLine>,
    voicemail: bool,
    recordingConsent: bool,
    recordingUrl: string,
    localPath: string,
    publicUrl: string,
    createdAt: int,
    updatedAt: int)

  /** A document as the schema creates it for `engagementId` at time `now`: every duration 0,
      every string field "", both flags false, an empty transcript, `startTime` now. */
  function NewEngagement(id: string, now: Instant): Engagement {
    Engagement(
      None, id, "", now, 0, 0, 0, 0, "", "", "", "", "", "", "", "", "", "", "",
      [], false, false, "", "", "", now.epochMs, now.epochMs)
  }

  /** The collection: at most one record per `engagementId` (the unique index), stored under it. */
  type Store = map<string, Engagement>

  ghost predicate KeyedById(db: Store) {
    forall k :: k in db ==> db[k].engagementId == k
  }

  /** `findOneAndUpdate({engagementId}, update, {upsert: true})`: every field of `u` is written
      except the two the update does not name, `companyId` and `createdAt`, which are kept from the
      existing record or take the schema's values for a new one. */
  function Upsert(db: Store, u: Engagement, now: Instant): (r: Store)
    ensures r.Keys == db.Keys + {u.engagementId}
    ensures forall k :: k in db && k != u.engagementId ==> r[k] == db[k]
    ensures r[u.engagementId].(companyId := u.companyId, createdAt := u.createdAt) == u
    ensures u.engagementId in db ==>
      r[u.engagementId].companyId == db[u.engagementId].companyId &&
      r[u.engagementId].createdAt == db[u.engagementId].createdAt
    ensures u.engagementId !in db ==>
      r[u.engagementId].companyId == None && r[u.engagementId].createdAt == now.epochMs
    ensures KeyedById(db) ==> KeyedById(r)
  {
    var id := u.engagementId;
    var base := if id in db then db[id] else NewEngagement(id, now);
    db[id := u.(companyId := base.companyId, createdAt := base.createdAt)]
  }

  /** Upserting the same record twice leaves the collection as one upsert did. */
  lemma UpsertIdempotent(db: Store, u: Engagement, now1: Instant, now2: Instant)
    ensures Upsert(Upsert(db, u, now1), u, now2) == Upsert(db, u, now1)
  {
  }
}
