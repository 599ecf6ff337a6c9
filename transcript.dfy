/** The WebVTT-style cue parser inlined in `handleEngagementEnded` (utils/zoom.js), lifted into its
    own operation: lines are trimmed; blank lines, the `WEBVTT` header and cue numbers are skipped;
    a cue timing line sets the current time; every other line becomes one transcript entry whose
    speaker is read from a short `Label:` prefix when there is one. */
module TranscriptParser {
  import opened Common
  import opened EngagementModel

  const UNKNOWN_SPEAKER: string := "Unknown"
  const ARROW: string := "-->"
  const MAX_LABEL: nat := 30

  /** `vttData.split(/\r?\n/)`, each line then trimmed by the loop. Splitting at '\n' alone yields
      the same trimmed lines, because trimming removes the '\r' that a CRLF break leaves behind. */
  function Lines(vtt: string): seq<string> {
    SplitOn(vtt, '\n')
  }

  /** Blank lines, the header and all-digit cue numbers carry nothing. */
  predicate Skipped(line: string) {
    line == "" || line == "WEBVTT" || AllDigits(line)
  }

  predicate IsCueTiming(line: string) {
    Includes(line, ARROW)
  }

  /** The start time of a cue timing line: the text before the first arrow, trimmed, up to its
      first '.' (so "00:00:01.000 --> 00:00:04.000" gives "00:00:01"). */
  function CueTime(line: string): (t: string)
    ensures '.' !in t
    ensures StartsWith(Trim(BeforeFirst(line, ARROW)), t)
  {
    var left := Trim(BeforeFirst(line, ARROW));
    BeforeFirst(left, ".")
  }

  /** The character class `[A-Za-z0-9 \-_.]`. */
  predicate LabelChar(c: char) {
    ('A' <= c <= 'Z') || ('a' <= c <= 'z') || ('0' <= c <= '9') || c == ' ' || c == '-' || c == '_' || c == '.'
  }

  /** `/^[A-Za-z0-9 \-_.]{1,30}$/`. */
  predicate SpeakerLabel(s: string) {
    1 <= |s| <= MAX_LABEL && forall i :: 0 <= i < |s| ==> LabelChar(s[i])
  }

  /** The speaker heuristic: a colon, a prefix of 1 to 30 permitted characters before the first
      colon, and something left after it once trimmed. */
  predicate HasSpeaker(line: string) {
    && Includes(line, ":")
    && SpeakerLabel(BeforeFirst(line, ":"))
    && Trim(AfterFirst(line, ":")) != ""
  }

  /** The entry emitted for a cue text line, stamped with the current time. */
  function CueEntry(line: string, time: string): TranscriptLine
  {
    if HasSpeaker(line) then
      TranscriptLine(Trim(BeforeFirst(line, ":")), time, Trim(AfterFirst(line, ":")))
    else
      TranscriptLine(UNKNOWN_SPEAKER, time, line)
  }

  /** An emitted entry is never blank: its text is a non-empty tail of the line, and its speaker is
      either the fallback or a trimmed prefix that begins the line. */
  lemma CueEntryShape(line: string, time: string)
    requires line != "" && line == Trim(line)
    ensures var e := CueEntry(line, time);
      && e.time == time
      && e.text != "" && EndsWith(line, e.text)
      && e.speaker != ""
      && (e.speaker == UNKNOWN_SPEAKER || (StartsWith(line, e.speaker) && |e.speaker| <= MAX_LABEL))
  {
    if HasSpeaker(line) {
      SpeakerShape(line);
      SpokenTextShape(line);
    }
  }

  /** A detected speaker is a non-empty prefix of the line of at most 30 characters. */
  lemma SpeakerShape(line: string)
    requires line != "" && line == Trim(line) && HasSpeaker(line)
    ensures var sp := Trim(BeforeFirst(line, ":"));
      sp != "" && StartsWith(line, sp) && |sp| <= MAX_LABEL
  {
    var prefix := BeforeFirst(line, ":");
    assert prefix == line[..|prefix|];
    TrimPrefix(line, |prefix|);
  }

  /** The text after a detected speaker is a non-empty tail of the line. */
  lemma SpokenTextShape(line: string)
    requires line != "" && line == Trim(line) && HasSpeaker(line)
    ensures var tx := Trim(AfterFirst(line, ":"));
      tx != "" && EndsWith(line, tx)
  {
    var prefix := BeforeFirst(line, ":");
    var rest := AfterFirst(line, ":");
    assert line == prefix + ":" + rest;
    assert rest == line[|prefix| + 1..];
    TrimSuffix(line, |prefix| + 1);
  }

  /** A speaker was read from the line exactly when the emitted text is not the whole line. */
  lemma SpeakerDetectedIff(line: string, time: string)
    ensures HasSpeaker(line) <==> CueEntry(line, time).text != line
  {
    if HasSpeaker(line) {
      var prefix := BeforeFirst(line, ":");
      var rest := AfterFirst(line, ":");
      assert line == prefix + ":" + rest;
      assert |Trim(rest)| <= |rest| < |line|;
    }
  }

  /** What one trimmed line does: nothing, set the current time, or emit an entry. */
  datatype Step = Skip | Timing(time: string) | Emit(entry: TranscriptLine)

  function Classify(rawLine: string, time: string): Step {
    var line := Trim(rawLine);
    if Skipped(line) then Skip
    else if IsCueTiming(line) then Timing(CueTime(line))
    else Emit(CueEntry(line, time))
  }

  /** The current time after one line. */
  function NextTime(rawLine: string, time: string): string {
    match Classify(rawLine, time)
    case Timing(t) => t
    case _ => time
  }

  /** The entries one line contributes. */
  function Output(rawLine: string, time: string): seq<TranscriptLine> {
    match Classify(rawLine, time)
    case Emit(e) => [e]
    case _ => []
  }

  /** The current time after a run of lines. */
  function TimeAfter(lines: seq<string>, time: string): string
    decreases |lines|
  {
    if lines == [] then time else TimeAfter(lines[1..], NextTime(lines[0], time))
  }

  /** A skipped line emits nothing and keeps the time. */
  lemma SkipStep(raw: string, time: string)
    requires Skipped(Trim(raw))
    ensures Output(raw, time) == [] && NextTime(raw, time) == time
  {
  }

  /** A cue timing line emits nothing and sets the time. */
  lemma TimingStep(raw: string, time: string)
    requires !Skipped(Trim(raw)) && IsCueTiming(Trim(raw))
    ensures Output(raw, time) == [] && NextTime(raw, time) == CueTime(Trim(raw))
  {
  }

  /** Any other line emits one entry and keeps the time. */
  lemma EmitStep(raw: string, time: string)
    requires !Skipped(Trim(raw)) && !IsCueTiming(Trim(raw))
    ensures Output(raw, time) == [CueEntry(Trim(raw), time)] && NextTime(raw, time) == time
  {
  }

  predicate NonBlank(e: TranscriptLine) {
    e.text != "" && e.speaker != ""
  }

  lemma OutputNonBlank(raw: string, time: string)
    ensures forall e :: e in Output(raw, time) ==> NonBlank(e)
  {
    var line := Trim(raw);
    if Skipped(line) {
      SkipStep(raw, time);
    } else if IsCueTiming(line) {
      TimingStep(raw, time);
    } else {
      EmitStep(raw, time);
      TrimIdempotent(raw);
      CueEntryShape(line, time);
    }
  }

  /** The entries of a run of lines, given the current time before it; no line yields more than
      one entry. */
  function ParseFrom(lines: seq<string>, time: string): (r: seq<TranscriptLine>)
    ensures |r| <= |lines|
    decreases |lines|
  {
    if lines == [] then []
    else Output(lines[0], time) + ParseFrom(lines[1..], NextTime(lines[0], time))
  }

  /** Every entry of a parse has a non-empty text and a non-empty speaker. */
  lemma {:induction false} ParseFromNonBlank(lines: seq<string>, time: string)
    ensures forall e :: e in ParseFrom(lines, time) ==> NonBlank(e)
    decreases |lines|
  {
    if lines != [] {
      OutputNonBlank(lines[0], time);
      ParseFromNonBlank(lines[1..], NextTime(lines[0], time));
    }
  }

  /** The transcript of a whole text; the current time starts empty. */
  function Parse(vtt: string): seq<TranscriptLine> {
    ParseFrom(Lines(vtt), "")
  }

  /** The parse of a concatenation is the parse of the first part followed by the parse of the
      second from the time the first part ends with: output order follows input order, and each
      entry depends only on the lines before it. */
  lemma {:induction false} ParseAppend(a: seq<string>, b: seq<string>, time: string)
    ensures ParseFrom(a + b, time) == ParseFrom(a, time) + ParseFrom(b, TimeAfter(a, time))
    decreases |a|
  {
    if a == [] {
      assert a + b == b;
    } else {
      assert (a + b)[0] == a[0];
      assert (a + b)[1..] == a[1..] + b;
      ParseAppend(a[1..], b, NextTime(a[0], time));
    }
  }

  /** Line `j` contributes its entries, stamped with the time the lines before it leave, between the
      entries of the lines before it and those of the lines after it. */
  lemma LineByLine(lines: seq<string>, time: string, j: nat)
    requires j < |lines|
    ensures ParseFrom(lines, time) ==
      ParseFrom(lines[..j], time)
      + Output(lines[j], TimeAfter(lines[..j], time))
      + ParseFrom(lines[j + 1..], TimeAfter(lines[..j + 1], time))
  {
    assert lines == lines[..j] + lines[j..];
    ParseAppend(lines[..j], lines[j..], time);
    var t := TimeAfter(lines[..j], time);
    assert lines[j..] == [lines[j]] + lines[j + 1..];
    ParseAppend([lines[j]], lines[j + 1..], t);
    assert lines[..j + 1] == lines[..j] + [lines[j]];
    TimeAfterAppend(lines[..j], [lines[j]], time);
    assert ParseFrom([lines[j]], t) == Output(lines[j], t) by {
      assert [lines[j]][1..] == [];
    }
    AppendAssoc(ParseFrom(lines[..j], time), Output(lines[j], t), ParseFrom(lines[j + 1..], TimeAfter(lines[..j + 1], time)));
  }

  lemma {:induction false} TimeAfterAppend(a: seq<string>, b: seq<string>, time: string)
    ensures TimeAfter(a + b, time) == TimeAfter(b, TimeAfter(a, time))
    decreases |a|
  {
    if a == [] {
      assert a + b == b;
    } else {
      assert (a + b)[0] == a[0];
      assert (a + b)[1..] == a[1..] + b;
      TimeAfterAppend(a[1..], b, NextTime(a[0], time));
    }
  }

  /** The time of the last cue timing line of a run, or `time` when it has none. */
  function LatestCue(lines: seq<string>, time: string): string
    decreases |lines|
  {
    if lines == [] then time
    else
      var last := Trim(lines[|lines| - 1]);
      if !Skipped(last) && IsCueTiming(last) then CueTime(last)
      else LatestCue(lines[..|lines| - 1], time)
  }

  /** Every entry carries the latest cue time seen before it, or "" when none was seen. */
  lemma {:induction false} TimeIsLatestCue(lines: seq<string>, time: string)
    ensures TimeAfter(lines, time) == LatestCue(lines, time)
    decreases |lines|
  {
    if lines != [] {
      var init := lines[..|lines| - 1];
      var last := lines[|lines| - 1];
      assert lines == init + [last];
      TimeAfterAppend(init, [last], time);
      TimeIsLatestCue(init, time);
      assert TimeAfter([last], TimeAfter(init, time)) == NextTime(last, TimeAfter(init, time)) by {
        assert [last][1..] == [];
      }
    }
  }

  /** Handling line `i` keeps the loop's invariant: the entries so far, followed by the parse of
      the lines still to come from the current time, are the whole transcript. */
  lemma ParseStep(lines: seq<string>, i: nat, time: string, done: seq<TranscriptLine>, all: seq<TranscriptLine>)
    requires i < |lines| && done + ParseFrom(lines[i..], time) == all
    ensures (done + Output(lines[i], time)) + ParseFrom(lines[i + 1..], NextTime(lines[i], time)) == all
  {
    assert lines[i..][0] == lines[i] && lines[i..][1..] == lines[i + 1..];
    AppendAssoc(done, Output(lines[i], time), ParseFrom(lines[i + 1..], NextTime(lines[i], time)));
  }

  /** One pass of the loop body: the trimmed line is skipped, sets the current time, or appends
      its entry. */
  method ParseLine(raw: string, currentTime: string, entries: seq<TranscriptLine>)
    returns (time: string, entries': seq<TranscriptLine>)
    ensures time == NextTime(raw, currentTime)
    ensures entries' == entries + Output(raw, currentTime)
  {
    var line := Trim(raw);
    time, entries' := currentTime, entries;
    if Skipped(line) {
      SkipStep(raw, currentTime);
      assert entries + [] == entries;
    } else if IsCueTiming(line) {
      TimingStep(raw, currentTime);
      assert entries + [] == entries;
      time := CueTime(line);
    } else {
      EmitStep(raw, currentTime);
      entries' := entries + [CueEntry(line, currentTime)];
    }
  }

  /** The parsing loop of `handleEngagementEnded`, with `currentTime` and the growing list. */
  method ParseLines(lines: seq<string>) returns (entries: seq<TranscriptLine>)
    ensures entries == ParseFrom(lines, "")
  {
    var currentTime := "";
    entries := [];
    assert lines[0..] == lines;
    var i := 0;
    while i < |lines|
      invariant 0 <= i <= |lines|
      invariant entries + ParseFrom(lines[i..], currentTime) == ParseFrom(lines, "")
    {
      ParseStep(lines, i, currentTime, entries, ParseFrom(lines, ""));
      currentTime, entries := ParseLine(lines[i], currentTime, entries);
      i := i + 1;
    }
    assert lines[|lines|..] == [];
  }

  /** `vttData.split(/\r?\n/)` followed by the loop. */
  method ParseTranscript(vtt: string) returns (entries: seq<TranscriptLine>)
    ensures entries == Parse(vtt)
  {
    entries := ParseLines(Lines(vtt));
  }
}
