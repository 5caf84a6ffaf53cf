/** One `_process_emails` pass (agent.py:76-135) as a fold over the fetched
    messages, and the exception-swallowing shape of `_run_loop`
    (agent.py:60-68).

    Every external answer is an input: the fetch, the extraction judgment of
    each message, the insert and mark-read outcomes, and the `running` flag
    the loop reads before each message (another thread's `stop` may clear it
    at any time). The local `event_data` is carried from message to message:
    it is unbound when a pass starts and rebound only for event-intent
    messages, yet it is read for every Medium or High message. */
module Processing {
  import opened Json
  import opened Calendar
  import opened RecentEmails
  import opened Lifecycle

  /** A fetched message (the inbox client always supplies all four keys). */
  datatype Message = Message(id: string, subject: string, sender: string, body: string)

  /** The dictionary returned by extraction; any key may be absent or `null`. */
  datatype Judgment = Judgment(
    intent: Entry<string>,
    category: Entry<string>,
    importance: Entry<string>,
    eventData: Entry<EventData>)

  /** What extraction returns when its own call fails (extraction.py:73). */
  const Fallback := Judgment(Present("None"), Missing, Missing, Present(NoEventData))

  const NoSummary := "No summary available"

  datatype MarkOutcome = MarkedRead | MarkRaised(reason: string)

  /** One fetched message with the answers the outside world gives while it
      is handled. `mark` is never consulted: a raise from `mark_as_read` is
      caught by the `except` at agent.py:129 with nothing left to do in the
      `try`, so both outcomes lead to the same state. */
  datatype Incoming = Incoming(
    message: Message,
    stillRunning: bool,
    judgment: Judgment,
    insert: InsertOutcome,
    mark: MarkOutcome)

  /** The state of the local `event_data`. */
  datatype Binding = Unbound | Bound(value: Option<EventData>)

  /** The calls a pass makes to its collaborators, in order. */
  datatype Effect =
    | Classify(text: string)
    | CalendarCall(messageId: string, created: bool)
    | MarkReadCall(messageId: string)

  datatype PassError = NoInboxClient | FetchFailed(reason: string) | UnboundEventData

  /** How handling a message, or a whole pass, ended. */
  datatype Ending = Finished | StopObserved | Aborted(error: PassError)

  datatype PassState = PassState(agent: Agent, eventData: Binding, trace: seq<Effect>)

  datatype Progress = Progress(state: PassState, ending: Ending)

  /** The text handed to extraction (agent.py:93). */
  function ClassificationText(m: Message): (r: string)
    ensures |r| == |"Subject: "| + |m.subject| + 2 + |m.body|
    ensures r[..9] == "Subject: "
    ensures r[9..9 + |m.subject|] == m.subject
    ensures r[9 + |m.subject|..11 + |m.subject|] == "\n\n"
    ensures r[11 + |m.subject|..] == m.body
  {
    "Subject: " + m.subject + "\n\n" + m.body
  }

  /** `extraction_result.get("Importance", "Low")` */
  function Importance(j: Judgment): (r: Option<string>)
    ensures j.importance.Missing? ==> r == Some("Low")
    ensures !j.importance.Missing? ==> r == Get(j.importance)
    ensures IsPriority(r) <==> j.importance == Present("High") || j.importance == Present("Medium")
  {
    GetOr(j.importance, "Low")
  }

  predicate IsPriority(importance: Option<string>) {
    importance == Some("High") || importance == Some("Medium")
  }

  predicate IsEventIntent(intent: Option<string>) {
    intent == Some("Meeting") || intent == Some("Registration") || intent == Some("Event")
  }

  /** `event_data.get("description") if event_data else "No summary available"`,
      for a bound `event_data`. */
  function Summary(v: Option<EventData>): (r: Option<string>)
    ensures v.None? || !v.value.Truthy() ==> r == Some(NoSummary)
    ensures v.Some? && v.value.description.Present? ==> r == Some(v.value.description.value)
    ensures r.None? <==> v.Some? && v.value.Truthy() && !v.value.description.Present?
  {
    if v.Some? && v.value.Truthy() then Get(v.value.description) else Some(NoSummary)
  }

  function ItemFor(m: Message, j: Judgment, summary: Option<string>, importance: string): RecentItem {
    RecentItem(m.id, m.subject, m.sender, summary, GetOr(j.category, "Unknown"), importance)
  }

  /** Inserts at the front, truncates, and recounts (agent.py:104-114). */
  function Remember(a: Agent, item: RecentItem): (r: Agent)
    ensures r.recentEmails == Push(a.recentEmails, item)
    ensures r.priorityCount == |r.recentEmails|
    ensures r.(recentEmails := a.recentEmails, priorityCount := a.priorityCount) == a
    ensures Valid(a) ==> Valid(r)
  {
    var recent := Push(a.recentEmails, item);
    a.(recentEmails := recent, priorityCount := |recent|)
  }

  // ---------------------------------------------------------------------------
  // Reference predicates: which branches a message reaches.

  /** The message is handled to its end: the flag was still set and the
      summary read did not raise. */
  predicate Reached(s: PassState, x: Incoming) {
    x.stillRunning && !(IsPriority(Importance(x.judgment)) && s.eventData.Unbound?)
  }

  /** The message is inserted into the recent list. */
  predicate Remembers(s: PassState, x: Incoming) {
    Reached(s, x) && IsPriority(Importance(x.judgment))
  }

  /** `create_event` is called: an event intent with a truthy `EventData`
      and a calendar client to call it on. */
  predicate CallsCalendar(s: PassState, x: Incoming) {
    var data := Get(x.judgment.eventData);
    Reached(s, x) && IsEventIntent(Get(x.judgment.intent))
    && data.Some? && data.value.Truthy() && s.agent.calendar.Some?
  }

  /** `create_event` returns. */
  predicate Creates(s: PassState, x: Incoming) {
    CallsCalendar(s, x)
    && CreateEvent(s.agent.calendar.value, Get(x.judgment.eventData).value, x.insert).Ok?
  }

  /** The calls one message gives rise to, listed by case. */
  function EffectsOf(s: PassState, x: Incoming): seq<Effect> {
    if !x.stillRunning then []
    else
      [Classify(ClassificationText(x.message))]
      + (if CallsCalendar(s, x) then [CalendarCall(x.message.id, Creates(s, x))] else [])
      + (if Creates(s, x) && s.agent.gmail.Some? then [MarkReadCall(x.message.id)] else [])
  }

  /** The pass leaves these fields to the lifecycle operations. */
  predicate SameLifecycle(a: Agent, b: Agent) {
    && a.running == b.running && a.status == b.status
    && a.gmail == b.gmail && a.calendar == b.calendar
    && a.threadsStarted == b.threadsStarted && a.pollInterval == b.pollInterval
  }

  // ---------------------------------------------------------------------------
  // One message.

  /** The body of the `for email in emails` loop (agent.py:86-135). */
  function Step(s: PassState, x: Incoming): (r: Progress)
    ensures !x.stillRunning ==> r == Progress(s, StopObserved)
    ensures r.ending.Aborted? <==> x.stillRunning && !Reached(s, x)
    ensures r.ending.Aborted? ==> r.ending.error == UnboundEventData && r.state.agent == s.agent
    ensures r.ending == Finished <==> Reached(s, x)
    ensures r.state.trace == s.trace + EffectsOf(s, x)
    ensures r.state.eventData ==
              if Reached(s, x) && IsEventIntent(Get(x.judgment.intent))
              then Bound(Get(x.judgment.eventData)) else s.eventData
    ensures Remembers(s, x) ==>
              r.state.agent.recentEmails
                == Push(s.agent.recentEmails,
                        ItemFor(x.message, x.judgment, Summary(s.eventData.value), Importance(x.judgment).value))
    ensures !Remembers(s, x) ==> r.state.agent.recentEmails == s.agent.recentEmails
    ensures r.state.agent.createdToday == s.agent.createdToday + (if Creates(s, x) then 1 else 0)
    ensures SameLifecycle(s.agent, r.state.agent)
    ensures Valid(s.agent) ==> Valid(r.state.agent)
  {
    if !x.stillRunning then Progress(s, StopObserved)
    else
      var j := x.judgment;
      var seen := s.trace + [Classify(ClassificationText(x.message))];
      var importance := Importance(j);
      if IsPriority(importance) && s.eventData.Unbound? then
        // Reading the unbound local raises; the pass is abandoned here.
        Progress(s.(trace := seen), Aborted(UnboundEventData))
      else
        var agent :=
          if IsPriority(importance)
          then Remember(s.agent, ItemFor(x.message, j, Summary(s.eventData.value), importance.value))
          else s.agent;
        if !IsEventIntent(Get(j.intent)) then
          Progress(PassState(agent, s.eventData, seen), Finished)
        else
          var data := Get(j.eventData);
          if data.Some? && data.value.Truthy() && agent.calendar.Some? then
            var outcome := CreateEvent(agent.calendar.value, data.value, x.insert);
            var called := seen + [CalendarCall(x.message.id, outcome.Ok?)];
            if outcome.Ok? then
              // The counter moves before `mark_as_read`, whose raise is caught.
              var counted := agent.(createdToday := agent.createdToday + 1);
              var marked := if agent.gmail.Some? then called + [MarkReadCall(x.message.id)] else called;
              Progress(PassState(counted, Bound(data), marked), Finished)
            else
              Progress(PassState(agent, Bound(data), called), Finished)
          else
            // A falsy `EventData`, or no calendar client (its attribute
            // lookup raises inside the same `try`): nothing is called.
            Progress(PassState(agent, Bound(data), seen), Finished)
  }

  // ---------------------------------------------------------------------------
  // The pass.

  /** The messages of one fetch, in fetch order, until one of them observes
      the stop flag or raises. */
  function Fold(s: PassState, xs: seq<Incoming>): (r: Progress)
    ensures |s.trace| <= |r.state.trace| && r.state.trace[..|s.trace|] == s.trace
    ensures SameLifecycle(s.agent, r.state.agent)
    ensures Valid(s.agent) ==> Valid(r.state.agent)
    ensures s.agent.createdToday <= r.state.agent.createdToday
    decreases |xs|
  {
    if |xs| == 0 then Progress(s, Finished)
    else
      var p := Step(s, xs[0]);
      if p.ending == Finished then Fold(p.state, xs[1..]) else p
  }

  datatype Fetch = Fetched(items: seq<Incoming>) | FetchRaised(reason: string)

  /** The state a pass starts from: `event_data` unbound, nothing called. */
  function Begin(a: Agent): PassState {
    PassState(a, Unbound, [])
  }

  /** `_process_emails` (agent.py:76-135). */
  function ProcessEmails(a: Agent, fetch: Fetch): (r: Progress)
    ensures SameLifecycle(a, r.state.agent)
    ensures Valid(a) ==> Valid(r.state.agent)
    ensures a.createdToday <= r.state.agent.createdToday
    ensures a.gmail.None? ==> r == Progress(Begin(a), Aborted(NoInboxClient))
    ensures a.gmail.Some? && fetch.FetchRaised? ==> r == Progress(Begin(a), Aborted(FetchFailed(fetch.reason)))
    ensures a.gmail.Some? && fetch.Fetched? && |fetch.items| == 0 ==> r == Progress(Begin(a), Finished)
    ensures a.gmail.Some? && fetch.Fetched? ==> r == Fold(Begin(a), fetch.items)
  {
    if a.gmail.None? then Progress(Begin(a), Aborted(NoInboxClient))
    else
      match fetch
      case FetchRaised(reason) => Progress(Begin(a), Aborted(FetchFailed(reason)))
      case Fetched(items) =>
        if |items| == 0 then Progress(Begin(a), Finished) else Fold(Begin(a), items)
  }

  /** One iteration of `_run_loop`: a pass whose exception is caught and
      logged, so only its effect on the agent survives. */
  datatype Turn = Turn(runningAtTop: bool, fetch: Fetch)

  /** `_run_loop` (agent.py:60-74) over the passes it gets to run; the idle
      wait between passes is not modelled. */
  function RunLoop(a: Agent, turns: seq<Turn>): (r: Agent)
    ensures SameLifecycle(a, r)
    ensures Valid(a) ==> Valid(r)
    ensures a.createdToday <= r.createdToday
    ensures |turns| == 0 || !turns[0].runningAtTop ==> r == a
    decreases |turns|
  {
    if |turns| == 0 || !turns[0].runningAtTop then a
    else RunLoop(ProcessEmails(a, turns[0].fetch).state.agent, turns[1..])
  }
}
