/** Ingestion and delivery agree: a recording that `handleEngagementEnded` stored under a configured
    download path is what the recordings route serves for the segments of its public URL. */
module IngestDeliver {
  import opened Common
  import opened EngagementModel
  import opened TokenCache
  import I = Ingestion
  import D = Delivery

  /** The date segments of a stored recording pass the route's validation whenever the year has
      four digits. */
  lemma SegmentsValid(d: CalendarDate)
    requires 1000 <= d.year <= 9999 && d.month < 100 && d.day < 100
    ensures D.IsYear(I.YearSegment(d)) && D.IsMonthDay(I.MonthSegment(d)) && D.IsMonthDay(I.DaySegment(d))
  {
    NatToStringFourDigits(d.year);
  }

  /** The last dot of `id + ext` is the one that starts `ext` when `ext` has no other. */
  lemma ExtnameOfStored(id: string, x: string)
    requires id != "" && x != "" && '.' !in x
    ensures D.Extname(id + "." + x) == "." + x
  {
    var f := id + "." + x;
    assert f[|id|] == '.';
    var k := D.LastDot(f);
    assert forall j :: |id| < j < |f| ==> f[j] == x[j - |id| - 1];
    assert k.Some? && k.value == |id|;
    assert f[|id|..] == "." + x;
  }

  /** With a configured download path, no encrypted variant, a four-digit year and a lower-case
      extension, the request for the stored file's public-URL segments is answered from exactly
      the file ingestion wrote. */
  lemma {:induction false} DeliveryFindsIngestedFile(doc: ZoomConfigDoc, env: Option<string>, disk: D.Disk,
                                                    decipher: (Bytes, Bytes) -> D.Decryption, d: CalendarDate, id: string, x: string,
                                                    range: Option<string>)
    requires Truthy(doc.downloadPath)
    requires 1000 <= d.year <= 9999 && d.month < 100 && d.day < 100
    requires id != "" && x != "" && '.' !in x && ToLower("." + x) == "." + x
    requires I.LocalPath(doc.downloadPath.value, d, id + "." + x) in disk
    requires var root := Join(doc.downloadPath.value, I.RECORDINGS_DIR);
      var q := D.Request(I.YearSegment(d), I.MonthSegment(d), I.DaySegment(d), id + "." + x, range);
      !(D.EncPath(root, q) in disk && D.EncPath(root, q) + D.META in disk)
    ensures var path := I.LocalPath(doc.downloadPath.value, d, id + "." + x);
      var q := D.Request(I.YearSegment(d), I.MonthSegment(d), I.DaySegment(d), id + "." + x, range);
      D.Serve(q, Some(doc), env, disk, decipher) == D.PlainResponse(path, "." + x, id, |disk[path]|, range)
  {
    var ext := "." + x;
    var f := id + ext;
    assert f == id + "." + x;
    var q := D.Request(I.YearSegment(d), I.MonthSegment(d), I.DaySegment(d), f, range);
    var root := Join(doc.downloadPath.value, I.RECORDINGS_DIR);
    SegmentsValid(d);
    assert D.RecordingsRoot(Some(doc), env) == Some(root);
    ExtnameOfStored(id, x);
    assert D.RequestedExt(q) == ext;
    assert f[..|f| - |ext|] == id;
    assert D.BaseName(q) == id;
    var path := I.LocalPath(doc.downloadPath.value, d, f);
    assert path == Join(D.DayDir(root, q), id + ext);
    assert D.TryExts(ext) == [ext];
    assert D.FirstExisting(D.DayDir(root, q), id, [ext], disk) == Some(0);
    D.FirstExistingServed(q, Some(doc), env, disk, decipher, root, 0);
  }
}
