/** The calendar client's `create_event`: a pure mapping from the extracted
    event fields to the body of a calendar insert, guarded by the client's
    initialisation, followed by the insert itself, whose outcome is an
    input of the model. */
module Calendar {
  import opened Json

  /** The `EventData` object produced by extraction. Every key may be absent
      or `null`; `otherKeys` counts keys outside the six the client reads,
      which matter only for the object's truthiness. */
  datatype EventData = EventData(
    title: Entry<string>,
    startDateTime: Entry<string>,
    endDateTime: Entry<string>,
    location: Entry<string>,
    description: Entry<string>,
    attendees: Entry<seq<string>>,
    otherKeys: nat)
  {
    /** Python truthiness of a dictionary: false exactly for `{}`. */
    predicate Truthy() {
      || !title.Missing?
      || !startDateTime.Missing?
      || !endDateTime.Missing?
      || !location.Missing?
      || !description.Missing?
      || !attendees.Missing?
      || otherKeys > 0
    }
  }

  /** The empty object `{}`. */
  const NoEventData := EventData(Missing, Missing, Missing, Missing, Missing, Missing, 0)

  const DefaultTitle := "New Event"
  const TimeZone := "UTC"

  /** A `start` or `end` entry of the body; `dateTime` is `None` when the
      extracted value was `null`. */
  datatype TimeSlot = TimeSlot(dateTime: Option<string>, timeZone: string)

  datatype Attendee = Attendee(email: string)

  /** The dictionary handed to the insert call. */
  datatype EventBody = EventBody(
    summary: Option<string>,
    location: Option<string>,
    description: Option<string>,
    start: TimeSlot,
    end: TimeSlot,
    attendees: seq<Attendee>)

  datatype CalendarError =
    | ServiceNotInitialized
    | KeyError(key: string)
    | InsertFailed(reason: string)

  /** What the foreign insert call does when it is reached. */
  datatype InsertOutcome = Inserted(response: string) | InsertRaised(reason: string)

  /** A constructed client: the calendar it writes to and whether its
      service object is set. */
  datatype CalendarHandle = CalendarHandle(calendarId: string, serviceReady: bool)

  /** A successful `create_event`: what was sent and what the service returned. */
  datatype Created = Created(calendarId: string, body: EventBody, response: string)

  /** `event_data.get('attendees') or []`: an absent key, `null` and `[]` all
      give the empty list. */
  function InviteeEmails(e: Entry<seq<string>>): (r: seq<string>)
    ensures |r| == 0 <==> !e.Present? || |e.value| == 0
    ensures |r| > 0 ==> r == e.value
  {
    if e.Present? then e.value else []
  }

  /** One `{'email': e}` per address, in order. */
  function AttendeeList(emails: seq<string>): (r: seq<Attendee>)
    ensures |r| == |emails|
    ensures forall i :: 0 <= i < |r| ==> r[i].email == emails[i]
  {
    if |emails| == 0 then [] else [Attendee(emails[0])] + AttendeeList(emails[1..])
  }

  /** The addresses of a body's attendee list. */
  function Emails(attendees: seq<Attendee>): (r: seq<string>)
    ensures |r| == |attendees|
  {
    if |attendees| == 0 then [] else [attendees[0].email] + Emails(attendees[1..])
  }

  /** The attendee list loses nothing and adds nothing: reading the addresses
      back gives exactly the input list. */
  lemma {:induction false} EmailsOfAttendeeList(emails: seq<string>)
    ensures Emails(AttendeeList(emails)) == emails
  {
    if |emails| > 0 {
      EmailsOfAttendeeList(emails[1..]);
      assert AttendeeList(emails)[1..] == AttendeeList(emails[1..]);
    }
  }

  /** The body built from `event_data` (calendar_client.py:45-58). The
      dictionary literal is evaluated in order, so a missing `startDateTime`
      is reported before a missing `endDateTime`. */
  function BuildBody(data: EventData): (r: Result<EventBody, CalendarError>)
    ensures r.Err? <==> data.startDateTime.Missing? || data.endDateTime.Missing?
    ensures r.Err? && data.startDateTime.Missing? ==> r.error == KeyError("startDateTime")
    ensures r.Err? && !data.startDateTime.Missing? ==> r.error == KeyError("endDateTime")
    ensures r.Ok? ==> r.value.summary == GetOr(data.title, DefaultTitle)
    ensures r.Ok? ==> r.value.location == GetOr(data.location, "")
    ensures r.Ok? ==> r.value.description == GetOr(data.description, "")
    ensures r.Ok? ==> r.value.start == TimeSlot(Get(data.startDateTime), TimeZone)
    ensures r.Ok? ==> r.value.end == TimeSlot(Get(data.endDateTime), TimeZone)
    ensures r.Ok? ==> |r.value.attendees| == |InviteeEmails(data.attendees)|
    ensures r.Ok? ==> forall i :: 0 <= i < |r.value.attendees| ==>
                        r.value.attendees[i] == Attendee(InviteeEmails(data.attendees)[i])
  {
    var summary := GetOr(data.title, DefaultTitle);
    var location := GetOr(data.location, "");
    var description := GetOr(data.description, "");
    match Subscript(data.startDateTime, "startDateTime")
    case Err(k) => Err(KeyError(k))
    case Ok(start) =>
      match Subscript(data.endDateTime, "endDateTime")
      case Err(k) => Err(KeyError(k))
      case Ok(end) =>
        Ok(EventBody(summary, location, description,
                     TimeSlot(start, TimeZone), TimeSlot(end, TimeZone),
                     AttendeeList(InviteeEmails(data.attendees))))
  }

  /** `create_event` (calendar_client.py:42-69): the service guard, then the
      body, then the insert, whose failure is re-raised to the caller. */
  function CreateEvent(client: CalendarHandle, data: EventData, insert: InsertOutcome)
    : (r: Result<Created, CalendarError>)
    ensures r.Ok? <==> client.serviceReady && BuildBody(data).Ok? && insert.Inserted?
    ensures !client.serviceReady ==> r == Err(ServiceNotInitialized)
    ensures client.serviceReady && BuildBody(data).Err? ==> r == Err(BuildBody(data).error)
    ensures client.serviceReady && BuildBody(data).Ok? && insert.InsertRaised? ==>
              r == Err(InsertFailed(insert.reason))
    ensures r.Ok? ==> r.value == Created(client.calendarId, BuildBody(data).value, insert.response)
  {
    if !client.serviceReady then Err(ServiceNotInitialized)
    else
      match BuildBody(data)
      case Err(e) => Err(e)
      case Ok(body) =>
        match insert
        case InsertRaised(reason) => Err(InsertFailed(reason))
        case Inserted(response) => Ok(Created(client.calendarId, body, response))
  }

  /** The guard and a missing time key both raise before the insert is
      reached: the insert's outcome cannot influence the result. */
  lemma InsertNotReachedOnEarlyFailure(client: CalendarHandle, data: EventData, a: InsertOutcome, b: InsertOutcome)
    requires !client.serviceReady || data.startDateTime.Missing? || data.endDateTime.Missing?
    ensures CreateEvent(client, data, a) == CreateEvent(client, data, b)
    ensures CreateEvent(client, data, a).Err? && !CreateEvent(client, data, a).error.InsertFailed?
  {
  }

  /** The attendees of a built body are exactly the extracted addresses, in
      order; an absent, `null` or empty list gives none. */
  lemma {:induction false} BodyAttendeesRoundTrip(data: EventData)
    requires BuildBody(data).Ok?
    ensures Emails(BuildBody(data).value.attendees) == InviteeEmails(data.attendees)
  {
    EmailsOfAttendeeList(InviteeEmails(data.attendees));
  }

  /** The fallback judgment's `{}` has no time keys, so handing it to
      `create_event` would raise `KeyError('startDateTime')`. */
  lemma EmptyEventDataIsRejected(client: CalendarHandle, insert: InsertOutcome)
    requires client.serviceReady
    ensures !NoEventData.Truthy()
    ensures CreateEvent(client, NoEventData, insert) == Err(KeyError("startDateTime"))
  {
  }
}
