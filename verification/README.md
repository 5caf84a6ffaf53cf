# Inbox-to-calendar agent: verified model of the agent loop

This project models the core of an agent that polls an inbox, has a language
model classify each unread message, and inserts a calendar event when the
message describes one. It models:

- the `Agent` object of `src/agent.py`: its state, its lifecycle (`__init__`,
  `initialize_clients`, `start`, `stop`), one `_process_emails` pass, and the
  exception-swallowing loop `_run_loop`;
- `CalendarClient.create_event` of `src/calendar_client.py`: the mapping from
  extracted event fields to the insert body, the service guard, and the
  re-raise of an insert failure.

Everything the agent cannot decide for itself is an input of the model:

- whether each client constructor returns or raises;
- the fetched messages;
- the extraction judgment of each message;
- the outcomes of the insert and of `mark_as_read`;
- the value of the `running` flag at each check.

The flag is an input because `stop()` runs on another thread.

Files, one module each:

| file | module | contents |
|---|---|---|
| `json.dfy` | `Json` | Python `None`, dictionary keys that are absent, `null` or present, `d.get(k)`, `d.get(k, default)`, `d[k]` |
| `calendar.dfy` | `Calendar` | `EventData`, its truthiness, the event body, `create_event` |
| `recent.dfy` | `RecentEmails` | the newest-first list of at most 10 surfaced messages |
| `lifecycle.dfy` | `Lifecycle` | the `Agent` record, its invariant, `start`/`stop` |
| `processing.dfy` | `Processing` | one message (`Step`), a pass as a fold (`Fold`, `ProcessEmails`), the loop (`RunLoop`) |
| `pass_properties.dfy` | `PassProperties` | lemmas relating several messages and passes |

Two behaviours of the source are modelled as written, not corrected:

- **`event_data` is carried across messages.** The local `event_data` is
  bound only at agent.py:117, and only for event-intent messages. It is still
  read at agent.py:108 for every Medium or High message. The model carries it
  as a `Binding` (`Unbound | Bound(value)`):
  - a read while unbound raises and ends the pass (the loop catches the
    error);
  - a read after it was bound gives the `EventData` of the latest earlier
    event-intent message, not this message's own.
- **Python `.get` and truthiness.** `d.get(k, default)` gives the default only
  when the key is absent, and `None` when the key holds `null`. `{}` is falsy.
  Keys are modelled as `Entry<T> = Missing | Null | Present(value)`.

## Model

| member | source | states |
|---|---|---|
| `Json.Get` | src/agent.py:96 | `d.get(k)` yields a value exactly when the key holds one, and that value; an absent key and a `null` both give `None` |
| `Json.GetOr` | src/agent.py:100-101 | `d.get(k, default)` gives the default only when the key is absent; a `null` gives `None`; a present value is returned as `d.get(k)` would |
| `Json.Subscript` | src/calendar_client.py:50-54 | `d[k]` raises `KeyError(k)` exactly when the key is absent; a `null` value comes back as `None`, the same as `d.get(k)` |
| `Calendar.InviteeEmails` | src/calendar_client.py:57 | `attendees or []` is empty exactly when the key is absent, `null` or an empty list; otherwise it is the extracted list itself |
| `Calendar.AttendeeList` | src/calendar_client.py:57 | one `{email: e}` entry per input address, same length, same order |
| `Calendar.EmailsOfAttendeeList` | src/calendar_client.py:57 | reading the addresses back from the attendee entries gives exactly the input list |
| `Calendar.BuildBody` | src/calendar_client.py:45-58 | raises `KeyError` exactly when `startDateTime` or `endDateTime` is absent, naming `startDateTime` first. Otherwise: `summary` is `title` if present and "New Event" if absent; `location`/`description` are copied or "" when absent; both times are copied verbatim with zone "UTC"; attendees are one entry per address of `attendees or []` |
| `Calendar.CreateEvent` | src/calendar_client.py:42-69 | returns exactly when the service is set, both time keys exist and the insert returns. An unset service raises `RuntimeError` before anything is built; a missing key raises its `KeyError`; an insert failure is re-raised; on success the body sent is the built body |
| `Calendar.InsertNotReachedOnEarlyFailure` | src/calendar_client.py:42-58 | when the service is unset or a time key is missing, the result is an error other than an insert failure, and it is the same whatever the insert would have done |
| `Calendar.BodyAttendeesRoundTrip` | src/calendar_client.py:57 | the body's attendee addresses are exactly the extracted list; an absent, `null` or empty list gives none |
| `Calendar.EmptyEventDataIsRejected` | src/calendar_client.py:50 | the fallback's `{}` is falsy, and passing it to `create_event` would raise `KeyError('startDateTime')` |
| `RecentEmails.Push` | src/agent.py:104-113 | the new item is at index 0, the old items follow in order, and the length is `min(old + 1, 10)` |
| `RecentEmails.Reverse` | src/agent.py:104 | reference reversal used to state the order of successive front insertions: same length, element `i` is element `n-1-i` |
| `RecentEmails.PushAllKeepsNewest` | src/agent.py:103-113 | any run of insertions into a list of at most 10 leaves the inserted items newest-first, then the old list, cut to 10 |
| `RecentEmails.ManyPushesKeepLastTen` | src/agent.py:112-113 | after 10 or more insertions the list holds exactly the last 10 inserted, newest first |
| `Lifecycle.ErrorStatus` | src/agent.py:45 | the error status always starts with "Error: " |
| `Lifecycle.ErrorStatusIsDistinct` | src/agent.py:39-45 | an error status is never "Running" or "Stopped" |
| `Lifecycle.Init` | src/agent.py:10-19 | a new agent is stopped with status "Stopped", has no clients, a zero counter and an empty list, and satisfies the invariant |
| `Lifecycle.InitializeClients` | src/agent.py:21-28 | builds only the clients that are still `None`; an existing client is kept. An inbox-constructor raise skips the calendar constructor; a client built before a raise is kept. It succeeds exactly when both clients end up present; nothing else changes |
| `Lifecycle.Start` | src/agent.py:30-46 | when already running, changes nothing. Otherwise, if client setup succeeds: running, "Running", one more thread. If it raises: not running, "Error: <msg>", no thread. The clients are those `initialize_clients` left. Counters and list are untouched; the invariant is kept |
| `Lifecycle.Stop` | src/agent.py:48-57 | when not running, changes nothing. Otherwise not running and "Stopped", whatever the join did. No other field changes; the invariant is kept |
| `Lifecycle.StartIsIdempotent` | src/agent.py:30-34 | after a successful start, a second start changes nothing and consults no constructor |
| `Lifecycle.StopIsIdempotent` | src/agent.py:48-51 | a second stop changes nothing |
| `Lifecycle.RetryKeepsBuiltInbox` | src/agent.py:23-28 | if the calendar constructor raised after the inbox client was built, the inbox client is kept; a retry's result does not depend on the inbox constructor |
| `Lifecycle.RunningFlipsOnlyThroughStartAndStop` | src/agent.py:30-57 | only `start` turns `running` on and only `stop` turns it off |
| `Lifecycle.ControlKeepsInvariantAndCounters` | src/agent.py:18 | any sequence of start/stop calls keeps the invariant, the creation counter and the recent list: the counter is reset only by construction |
| `Processing.ClassificationText` | src/agent.py:93 | the extraction text is "Subject: ", then the subject, then a blank line, then the body, each part at its exact offset |
| `Processing.Importance` | src/agent.py:101-103 | an absent importance reads as "Low"; a message counts as priority exactly when its importance is present and is "High" or "Medium" (a `null` one never is) |
| `Processing.Summary` | src/agent.py:108 | a `None` or falsy `event_data` gives "No summary available"; a truthy one gives its `description`, and `None` exactly when that key is absent or `null` |
| `Processing.Remember` | src/agent.py:103-114 | the item goes to the front of the list cut to 10, `priority_count` becomes the new length, no other field changes, and the invariant is kept |
| `Processing.Step` | src/agent.py:86-135 | see the notes below this table |
| `Processing.Fold` | src/agent.py:85-135 | a fold over the fetched messages. It keeps the invariant, only extends the call trace, never touches the lifecycle fields, and never lowers the counter |
| `Processing.ProcessEmails` | src/agent.py:76-87 | with no inbox client, or when the fetch raises, the pass raises with the agent unchanged. An empty fetch returns with nothing changed. A non-empty fetch is handled message by message from an unbound `event_data` and an empty call list, exactly as `Fold` does. The invariant is kept and the counter never drops |
| `Processing.RunLoop` | src/agent.py:60-68 | with no turns left, or when the flag reads false at the top, the agent is left as it is. The invariant is kept, the counter never drops and the lifecycle fields never change. `EachTurnRunsOnePass`, `RunLoopRunsEveryRunningTurn` and `RunLoopStopsAtFirstClearedFlag` below state the rest of the loop's behaviour |
| `PassProperties.Judgments` | src/agent.py:94 | the judgments of the fetched messages, one per message |
| `PassProperties.Texts` | src/agent.py:93 | the extraction texts of the fetched messages, one per message |
| `PassProperties.FoldTraceSplits` | src/agent.py:85-135 | the calls of a pass are the first message's calls followed by the calls made for the rest |
| `PassProperties.CreatedCountAppend` | src/agent.py:124 | the count of returned calendar calls adds up over concatenated traces |
| `PassProperties.ClassifiedTextsAppend` | src/agent.py:94 | the classified texts of concatenated traces concatenate |
| `PassProperties.FoldAppend` | src/agent.py:85-87 | handling `xs + ys` means handling `xs` and then, only if that finished, going on with `ys` from the state it reached |
| `PassProperties.StopLeavesRestUntouched` | src/agent.py:86-87 | once a message reads the flag false, that message and every later one are left untouched; the pass ends in the state reached before it |
| `PassProperties.FoldCountsCreations` | src/agent.py:121-124 | over a pass, the counter grows by exactly the number of `create_event` calls that returned |
| `PassProperties.FoldClassifiesInFetchOrder` | src/agent.py:85-94 | the texts sent to extraction are those of a prefix of the fetch, in fetch order; the whole fetch when the pass finishes |
| `PassProperties.StepClassifiesOnce` | src/agent.py:86-94 | a message that reads the flag true is sent to extraction exactly once, with its own "Subject: …" text |
| `PassProperties.TextsOfCallsAreEmpty` | src/agent.py:94 | a trace with no extraction call classifies no text |
| `PassProperties.FoldMarksOnlyAfterCreation` | src/agent.py:121-127 | every `mark_as_read` call in a pass comes right after a `create_event` for the same message that returned |
| `PassProperties.FoldLastStep` | src/agent.py:85-87 | one more fetched message is stepped from the state the pass reached if the pass finished, and is ignored otherwise |
| `PassProperties.UnboundReadAbandonsRest` | src/agent.py:85-108 | when a message's step raises, the pass ends there in the state that step reached; no later message is handled |
| `PassProperties.FoldBindsLatestEventData` | src/agent.py:116-117 | after a pass that finished, `event_data` holds the `EventData` of the last event-intent message, or its earlier value if there was none |
| `PassProperties.SummaryComesFromLatestEventMessage` | src/agent.py:104-117 | see the notes below this table |
| `PassProperties.NoCalendarWithoutEventAndData` | src/agent.py:116-118 | no calendar call, no mark-read and no counter change in either case: the intent is outside Meeting/Registration/Event, or `EventData` is absent, `null` or `{}` |
| `PassProperties.FallbackTakesNoAction` | src/agent.py:96-118 | with the extraction fallback `{"Intent":"None","EventData":{}}`, only the extraction call happens. Importance defaults to "Low", so nothing is inserted, and no event call is made |
| `PassProperties.MarkOutcomeIsIrrelevant` | src/agent.py:124-130 | whether `mark_as_read` raises makes no difference; the increment before it stays |
| `PassProperties.CalendarFailureIsContained` | src/agent.py:121-130 | a raising `create_event` leaves the counter unchanged and is not followed by `mark_as_read`; the pass goes on |
| `PassProperties.CalendarSuccessCountsAndMarks` | src/agent.py:121-127 | a returning `create_event` adds exactly 1 to the counter and is followed by exactly one `mark_as_read` of that message's id |
| `PassProperties.EmptyFetchChangesNothing` | src/agent.py:79-83 | an empty fetch leaves the agent as it was and makes no call |
| `PassProperties.LeadingPriorityMessageAbortsPass` | src/agent.py:103-108 | a Medium or High message first in a fetch makes the pass raise before any calendar call or insertion, whatever its intent |
| `PassProperties.RunLoopKeepsInvariant` | src/agent.py:60-68 | at every point of the loop the invariant holds, and the counter has not dropped since the start or since any earlier point |
| `PassProperties.PassCountsCreations` | src/agent.py:76-124 | over a whole pass, whatever the fetch, the counter grows by exactly the number of `create_event` calls in the pass that returned |
| `PassProperties.EachTurnRunsOnePass` | src/agent.py:63-68 | a turn that reads the flag true runs exactly one pass, and the next turn starts from the state that pass reached. This holds whether the pass finished, saw the stop flag or raised; a raise does not end the loop, and increments and recent entries made before it are kept |
| `PassProperties.RunLoopAppendRunning` | src/agent.py:63-65 | one more running turn after a run of running turns adds exactly one pass on top of the agent they reached |
| `PassProperties.RunLoopRunsEveryRunningTurn` | src/agent.py:63-65 | while the flag reads true at every turn, the loop's result is exactly one pass per turn, in order, as given by the independent reference `PassesOver` |
| `PassProperties.RunLoopStopsAtFirstClearedFlag` | src/agent.py:63-65 | the loop ends at the first turn where the flag reads false, and no later turn is looked at. Its result is exactly one pass for each earlier turn (`PassesOver`) |

Notes on two rows:

- **`Processing.Step`** states, for one message:
  - a message that reads the flag false changes nothing;
  - otherwise extraction is called on "Subject: s\n\nbody";
  - a Medium or High message is inserted at the front of the recent list with
    the summary of the current `event_data`; a read while unbound raises
    instead;
  - for an event intent, `event_data` is rebound to this message's
    `EventData`;
  - the counter grows by 1 exactly when `create_event` returns;
  - the calls follow the reference list `EffectsOf`;
  - the invariant is kept.
- **`PassProperties.SummaryComesFromLatestEventMessage`** states, for a Medium
  or High message:
  - its summary comes from the `EventData` of the most recent earlier
    event-intent message of the pass;
  - that is its `description` if the value is truthy, and
    "No summary available" otherwise;
  - if no such message exists, the read raises: nothing is inserted and the
    rest of the fetch is abandoned.

The agent invariant `Lifecycle.Valid` holds in every state reachable from
`Init`:

- `priority_count` equals the length of the recent list;
- the list holds at most 10 entries;
- `running` is set exactly when the status is "Running", and both clients
  exist then;
- the status is "Stopped", "Running" or starts with "Error: ".

## Behaviour of the code worth knowing

- **The summary source.** The summary at agent.py:108 reads the `event_data`
  that agent.py:117 bound for the latest earlier event-intent message of the
  pass. It does not read the current message's own extraction
  (`PassProperties.SummaryComesFromLatestEventMessage`).
- **A Medium or High message first in a fetch.** The read at agent.py:108
  raises `UnboundLocalError` before any insertion, calendar call or
  `mark_as_read`, whatever the message's intent
  (`PassProperties.LeadingPriorityMessageAbortsPass`). The message stays
  unread, so a later pass that fetches it first again raises again. The loop
  catches the error and goes on from the state the pass reached
  (`PassProperties.EachTurnRunsOnePass`).
- **Failed extraction.** The fallback at extraction.py:73 carries
  `Intent: "None"`, so the test at agent.py:116 skips the event block and no
  event is created. Its `EventData: {}` would be falsy at agent.py:118 as
  well (`PassProperties.FallbackTakesNoAction`,
  `Calendar.EmptyEventDataIsRejected`).
- **The counter.** `created_today` is set to 0 at agent.py:18 and is never
  reset afterwards (`Lifecycle.ControlKeepsInvariantAndCounters`).

## Left out

- Threading and timing are not modelled: the background thread's scheduling,
  `join(timeout=5)`, and the one-second sleep chunks between passes. The flag
  is an input per message and per loop turn. `threadsStarted` only counts
  threads started.
- A failure of `thread.start()` at agent.py:41 is not modelled. It is a
  runtime resource error, outside the agent's logic.
- `src/gmail_client.py` (OAuth, Gmail REST calls, base64 decoding) is not part
  of this model. Fetch and `mark_as_read` are inputs. The fetch's limit of 5
  messages is the service's promise and is not imposed on the input.
- `src/extraction.py` (the OpenAI call) is not part of this model. Its result
  is an input judgment, and its fallback value at extraction.py:73 is one such
  input.
- Credential loading and the Google insert API (calendar_client.py:13-30,
  61-64) are foreign calls. The insert's outcome is an input. Whether the
  client has a service object is a field of the handle.
- JSON values of unexpected types are not modelled: a non-string intent,
  importance or description, or a non-object `EventData`, which would raise
  `AttributeError` at agent.py:108/120. All scalar values are strings; all
  `EventData` values are objects.
- `email.get('sender', 'Unknown')` at agent.py:107 is modelled as the sender
  itself, because the inbox client always supplies the key.
- The HTTP control surface (`src/server.py`), the browser extension, the test
  scripts, and print/traceback logging are not modelled.
- Date and time values are opaque strings. The code never checks that the
  end is after the start, and neither does the model.
