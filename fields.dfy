/** The engagement metadata returned by Zoom's contact-center API, and the record fields
    `handleEngagementEnded` (utils/zoom.js) derives from it. A missing field never fails: it gives
    "", "-", 0 or false. */
module EngagementFields {
  import opened Common

  datatype Consumer = Consumer(displayName: Option<string>, number: Option<string>)
  datatype Agent = Agent(displayName: Option<string>)
  datatype Queue = Queue(queueName: Option<string>)
  datatype Flow = Flow(flowName: Option<string>)
  datatype Disposition = Disposition(name: Option<string>)
  datatype Note = Note(content: Option<string>)
  datatype Event = Event(eventType: Option<string>)

  /** The fields of the engagement body that the run reads. `dispositions` and `notes` are `None`
      whenever the upstream value is not an array. */
  datatype EngagementData = EngagementData(
    consumers: Option<seq<Consumer>>,
    agents: Option<seq<Agent>>,
    queues: Option<seq<Queue>>,
    flows: Option<seq<Flow>>,
    dispositions: Option<seq<Disposition>>,
    disposition: Option<string>,
    notes: Option<seq<Note>>,
    events: Option<seq<Event>>,
    channel: Option<string>,
    direction: Option<string>,
    source: Option<string>,
    transferType: Option<string>,
    upgradedToChannelType: Option<string>,
    duration: Option<int>,
    waitingDuration: Option<int>,
    handlingDuration: Option<int>,
    wrapUpDuration: Option<int>,
    voiceMail: Option<bool>,
    recordingConsent: Option<bool>)

  /** The value the run starts from (`let engagementData = {}`): every field absent. */
  const NO_DATA: EngagementData :=
    EngagementData(None, None, None, None, None, None, None, None, None, None, None, None, None,
                   None, None, None, None, None, None)

  const NO_VALUE: string := "-"
  const MANUAL: string := "manual"
  const AGENT_ACCEPT: string := "Agent Accept"

  /** `xs?.[0]` for an optional array. */
  function First<T>(xs: Option<seq<T>>): Option<T> {
    if xs.Some? && |xs.value| > 0 then Some(xs.value[0]) else None
  }

  /** The consumer column: name and number on two lines when both are present, else whichever
      is, else "-". */
  function ConsumerField(data: EngagementData): (r: string)
    ensures r != ""
  {
    var c := First(data.consumers);
    var name := if c.Some? then c.value.displayName else None;
    var number := if c.Some? then c.value.number else None;
    if Truthy(name) && Truthy(number) then name.value + "\n" + number.value
    else if Truthy(name) then name.value
    else if Truthy(number) then number.value
    else NO_VALUE
  }

  /** The consumer column shows every part the first consumer reports: it starts with a present
      name and ends with a present number. It is "-" when neither is present, and otherwise only
      when a present part is itself "-". When both are present and the name has no line break, the
      first line break splits the column back into the name and the number. */
  lemma ConsumerCases(data: EngagementData, name: Option<string>, number: Option<string>)
    requires First(data.consumers) == Some(Consumer(name, number))
    ensures Truthy(name) ==> StartsWith(ConsumerField(data), name.value)
    ensures Truthy(number) ==> EndsWith(ConsumerField(data), number.value)
    ensures !Truthy(name) && !Truthy(number) ==> ConsumerField(data) == NO_VALUE
    ensures ConsumerField(data) == NO_VALUE ==>
      (!Truthy(name) && !Truthy(number)) || name == Some(NO_VALUE) || number == Some(NO_VALUE)
    ensures Truthy(name) && Truthy(number) && '\n' !in name.value ==>
      && Includes(ConsumerField(data), "\n")
      && BeforeFirst(ConsumerField(data), "\n") == name.value
      && AfterFirst(ConsumerField(data), "\n") == number.value
  {
    var r := ConsumerField(data);
    if Truthy(name) && Truthy(number) {
      assert r == name.value + "\n" + number.value;
      assert r[..|name.value|] == name.value;
      assert r[|r| - |number.value|..] == number.value;
      if '\n' !in name.value {
        assert MarksSeparator("\n", 0);
        FirstOccurrenceAfter(name.value, "\n", number.value, 0);
        assert r[..|name.value|] == name.value;
        assert r[|name.value| + 1..] == number.value;
      }
    }
  }

  /** Without a consumer entry the column is "-". */
  lemma NoConsumer(data: EngagementData)
    requires First(data.consumers).None?
    ensures ConsumerField(data) == NO_VALUE
  {
  }

  /** `agents.map(a => a.display_name)`, an absent name read as "" (as `join` writes it). */
  function AgentNames(agents: seq<Agent>): seq<string>
  {
    seq(|agents|, i requires 0 <= i < |agents| => OrDefault(agents[i].displayName, ""))
  }

  /** `agents?.map(a => a.display_name).join(", ") || ""`. */
  function AgentField(data: EngagementData): string {
    if data.agents.None? then "" else JoinWith(AgentNames(data.agents.value), ", ")
  }

  /** The agent column reads back: splitting it on ", " gives each agent's name in order, when no
      name holds a comma. */
  lemma AgentColumnRoundTrip(data: EngagementData)
    requires data.agents.Some? && |data.agents.value| >= 1
    requires forall i :: 0 <= i < |data.agents.value| ==> ',' !in OrDefault(data.agents.value[i].displayName, "")
    ensures SplitWith(AgentField(data), ", ") == AgentNames(data.agents.value)
  {
    assert MarksSeparator(", ", 0);
    SplitJoin(AgentNames(data.agents.value), ", ", 0);
  }

  /** A single agent's name is the whole column. */
  lemma SingleAgent(data: EngagementData, name: string)
    requires data.agents == Some([Agent(Some(name))])
    ensures AgentField(data) == name
  {
  }

  function QueueField(data: EngagementData): string {
    var q := First(data.queues);
    if q.Some? then OrDefault(q.value.queueName, "") else ""
  }

  function FlowField(data: EngagementData): string {
    var f := First(data.flows);
    if f.Some? then OrDefault(f.value.flowName, "") else ""
  }

  /** The first disposition's name when `dispositions` is an array, else `disposition`. */
  function DispositionField(data: EngagementData): string
  {
    if data.dispositions.Some? then
      var d := First(data.dispositions);
      if d.Some? then OrDefault(d.value.name, "") else ""
    else OrDefault(data.disposition, "")
  }

  /** The disposition column reads only the form the body uses: when `dispositions` is an array,
      even an empty one, the single `disposition` field is ignored; a non-empty column is a name the
      body reported in that form. */
  lemma DispositionSource(data: EngagementData, other: Option<string>)
    ensures data.dispositions.Some? ==> DispositionField(data.(disposition := other)) == DispositionField(data)
    ensures DispositionField(data) != "" ==>
      if data.dispositions.Some? then First(data.dispositions).Some? && First(data.dispositions).value.name == Some(DispositionField(data))
      else data.disposition == Some(DispositionField(data))
  {
  }

  /** The note contents joined with " | " when `notes` is an array; "" otherwise, whatever the
      upstream value is. */
  function NotesField(data: EngagementData): (r: string)
    ensures data.notes.None? ==> r == ""
    ensures data.notes.Some? && |data.notes.value| == 1 ==> r == OrDefault(data.notes.value[0].content, "")
  {
    if data.notes.None? then "" else JoinWith(NoteContents(data.notes.value), " | ")
  }

  /** `notes.map(note => note.content || "")`. */
  function NoteContents(notes: seq<Note>): seq<string>
  {
    seq(|notes|, i requires 0 <= i < |notes| => OrDefault(notes[i].content, ""))
  }

  /** The notes column reads back: splitting it on " | " gives each note's content in order, when
      no content holds a '|'. */
  lemma NotesColumnRoundTrip(data: EngagementData)
    requires data.notes.Some? && |data.notes.value| >= 1
    requires forall i :: 0 <= i < |data.notes.value| ==> '|' !in OrDefault(data.notes.value[i].content, "")
    ensures SplitWith(NotesField(data), " | ") == NoteContents(data.notes.value)
  {
    assert MarksSeparator(" | ", 1);
    SplitJoin(NoteContents(data.notes.value), " | ", 1);
  }

  /** Two notes are separated by the delimiter. */
  lemma TwoNotes(data: EngagementData, a: string, b: string)
    requires data.notes == Some([Note(Some(a)), Note(Some(b))])
    ensures NotesField(data) == a + " | " + b
  {
    var parts := NoteContents(data.notes.value);
    assert parts == [a, b];
    assert parts[1..] == [b];
    assert JoinWith(parts, " | ") == a + " | " + JoinWith([b], " | ");
  }

  predicate IsAgentAccept(e: Event) {
    e.eventType == Some(AGENT_ACCEPT)
  }

  /** `events?.some(e => e.event_type === "Agent Accept") ? "manual" : "-"`. */
  function AcceptTypeField(data: EngagementData): string
  {
    if data.events.Some? && exists i :: 0 <= i < |data.events.value| && IsAgentAccept(data.events.value[i])
    then MANUAL else NO_VALUE
  }

  /** The accept type depends only on which events occurred, not on their order or on how often. */
  lemma AcceptTypeOrderFree(data: EngagementData, events: seq<Event>)
    requires data.events.Some? && multiset(events) == multiset(data.events.value)
    ensures AcceptTypeField(data.(events := Some(events))) == AcceptTypeField(data)
  {
    var recorded := data.events.value;
    if exists i :: 0 <= i < |recorded| && IsAgentAccept(recorded[i]) {
      var i :| 0 <= i < |recorded| && IsAgentAccept(recorded[i]);
      assert recorded[i] in multiset(recorded);
      assert recorded[i] in events;
      var j :| 0 <= j < |events| && events[j] == recorded[i];
    }
    if exists j :: 0 <= j < |events| && IsAgentAccept(events[j]) {
      var j :| 0 <= j < |events| && IsAgentAccept(events[j]);
      assert events[j] in multiset(events);
      assert events[j] in recorded;
      var i :| 0 <= i < |recorded| && recorded[i] == events[j];
    }
  }

  /** Later events never undo a manual accept. */
  lemma AcceptTypeKeptByLaterEvents(data: EngagementData, later: seq<Event>)
    requires AcceptTypeField(data) == MANUAL
    ensures AcceptTypeField(data.(events := Some(data.events.value + later))) == MANUAL
  {
    var i :| 0 <= i < |data.events.value| && IsAgentAccept(data.events.value[i]);
    assert (data.events.value + later)[i] == data.events.value[i];
  }

  /** The recorded duration: the first non-zero of the recording's, the recordings response's and
      the engagement's own, else 0. `selected` is the value `getRecording` already chose from the
      first two. */
  function DurationField(selected: int, recordingDuration: Option<int>, data: EngagementData): int {
    if selected != 0 then selected
    else if TruthyNum(recordingDuration) then recordingDuration.value
    else NumOr(data.duration, 0)
  }

  /** When nothing reports a duration it is 0; a non-zero one found first wins. */
  lemma DurationFallsBack(selected: int, recordingDuration: Option<int>, data: EngagementData)
    ensures selected != 0 ==> DurationField(selected, recordingDuration, data) == selected
    ensures selected == 0 && !TruthyNum(recordingDuration) && !TruthyNum(data.duration) ==>
      DurationField(selected, recordingDuration, data) == 0
    ensures DurationField(selected, recordingDuration, data) != 0 ==>
      DurationField(selected, recordingDuration, data) in {selected} + (if recordingDuration.Some? then {recordingDuration.value} else {})
        + (if data.duration.Some? then {data.duration.value} else {})
  {
  }

  /** `!!voice_mail`. */
  function VoicemailField(data: EngagementData): bool {
    data.voiceMail == Some(true)
  }

  /** `recording_consent || false`. */
  function ConsentField(data: EngagementData): bool {
    data.recordingConsent == Some(true)
  }

  /** Every derived column of an empty engagement body takes its fallback. */
  lemma EmptyDataDefaults()
    ensures ConsumerField(NO_DATA) == NO_VALUE
    ensures AgentField(NO_DATA) == "" && QueueField(NO_DATA) == "" && FlowField(NO_DATA) == ""
    ensures DispositionField(NO_DATA) == "" && NotesField(NO_DATA) == ""
    ensures AcceptTypeField(NO_DATA) == NO_VALUE
    ensures OrDefault(NO_DATA.transferType, NO_VALUE) == NO_VALUE
    ensures OrDefault(NO_DATA.upgradedToChannelType, NO_VALUE) == NO_VALUE
    ensures !VoicemailField(NO_DATA) && !ConsentField(NO_DATA)
  {
  }
}
