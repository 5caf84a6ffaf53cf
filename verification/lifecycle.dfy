/** The agent's state and its lifecycle transitions (agent.py:9-57). Client
    construction touches credentials and the network, so whether each
    constructor returns or raises is an input. Starting the background thread
    is recorded as a count; its scheduling and the bounded `join` in `stop`
    are not modelled. */
module Lifecycle {
  import opened Json
  import opened Calendar
  import opened RecentEmails

  /** A constructed inbox client; its operations are inputs of the model. */
  datatype GmailHandle = GmailHandle(account: string)

  /** What a client constructor does when it is called. */
  datatype Construction<+H> = Built(handle: H) | Raised(reason: string)

  datatype Agent = Agent(
    pollInterval: nat,
    running: bool,
    status: string,
    threadsStarted: nat,
    gmail: Option<GmailHandle>,
    calendar: Option<CalendarHandle>,
    createdToday: nat,
    priorityCount: nat,
    recentEmails: seq<RecentItem>)

  const StoppedStatus := "Stopped"
  const RunningStatus := "Running"
  const ErrorPrefix := "Error: "

  /** `f"Error: {e}"` */
  function ErrorStatus(reason: string): (s: string)
    ensures |s| >= |ErrorPrefix| && s[..|ErrorPrefix|] == ErrorPrefix
    ensures s[|ErrorPrefix|..] == reason
  {
    ErrorPrefix + reason
  }

  predicate IsErrorStatus(s: string) {
    |s| >= |ErrorPrefix| && s[..|ErrorPrefix|] == ErrorPrefix
  }

  /** What holds of every agent reachable from construction: the priority
      counter is the list's length, the list is bounded, `running` is set
      exactly when the status reads "Running" and then both clients exist,
      and the status is one of its three forms. */
  predicate Valid(a: Agent) {
    && a.priorityCount == |a.recentEmails|
    && |a.recentEmails| <= Capacity
    && (a.running <==> a.status == RunningStatus)
    && (a.running ==> a.gmail.Some? && a.calendar.Some?)
    && (a.status == StoppedStatus || a.status == RunningStatus || IsErrorStatus(a.status))
  }

  /** "Error: " + anything is neither of the other two statuses. */
  lemma ErrorStatusIsDistinct(reason: string)
    ensures IsErrorStatus(ErrorStatus(reason))
    ensures ErrorStatus(reason) != RunningStatus && ErrorStatus(reason) != StoppedStatus
  {
    var s := ErrorStatus(reason);
    assert s[0] == 'E';
  }

  /** `Agent.__init__`. */
  function Init(pollInterval: nat): (a: Agent)
    ensures Valid(a)
    ensures !a.running && a.status == StoppedStatus && a.threadsStarted == 0
    ensures a.gmail == None && a.calendar == None
    ensures a.createdToday == 0 && a.recentEmails == []
  {
    Agent(pollInterval, false, StoppedStatus, 0, None, None, 0, 0, [])
  }

  /** The agent after `initialize_clients`, and the message of the
      exception it raised, if any. */
  datatype Initialized = Initialized(agent: Agent, failure: Option<string>)

  /** `initialize_clients` (agent.py:21-28): each client is built only when
      it is still `None`; a raise in the inbox constructor skips the calendar
      constructor, and a client built before a raise is kept. */
  function InitializeClients(a: Agent, gmail: Construction<GmailHandle>, calendar: Construction<CalendarHandle>)
    : (r: Initialized)
    ensures r.agent == a.(gmail := r.agent.gmail, calendar := r.agent.calendar)
    ensures a.gmail.Some? ==> r.agent.gmail == a.gmail
    ensures a.calendar.Some? ==> r.agent.calendar == a.calendar
    ensures a.gmail.None? && gmail.Built? ==> r.agent.gmail == Some(gmail.handle)
    ensures a.gmail.None? && gmail.Raised? ==>
              r.failure == Some(gmail.reason) && r.agent.gmail == None && r.agent.calendar == a.calendar
    ensures (a.gmail.Some? || gmail.Built?) && a.calendar.None? && calendar.Built? ==>
              r.agent.calendar == Some(calendar.handle)
    ensures (a.gmail.Some? || gmail.Built?) && a.calendar.None? && calendar.Raised? ==>
              r.failure == Some(calendar.reason) && r.agent.calendar == None
    ensures r.failure.None? <==> (a.gmail.Some? || gmail.Built?) && (a.calendar.Some? || calendar.Built?)
    ensures r.failure.None? ==> r.agent.gmail.Some? && r.agent.calendar.Some?
  {
    if a.gmail.None? && gmail.Raised? then
      Initialized(a, Some(gmail.reason))
    else
      var withInbox := if a.gmail.None? then a.(gmail := Some(gmail.handle)) else a;
      if withInbox.calendar.None? then
        match calendar
        case Raised(reason) => Initialized(withInbox, Some(reason))
        case Built(handle) => Initialized(withInbox.(calendar := Some(handle)), None)
      else
        Initialized(withInbox, None)
  }

  /** `start` (agent.py:30-46). */
  function Start(a: Agent, gmail: Construction<GmailHandle>, calendar: Construction<CalendarHandle>): (r: Agent)
    ensures a.running ==> r == a
    ensures !a.running ==> (r.running <==> InitializeClients(a, gmail, calendar).failure.None?)
    ensures !a.running ==> r.gmail == InitializeClients(a, gmail, calendar).agent.gmail
    ensures !a.running ==> r.calendar == InitializeClients(a, gmail, calendar).agent.calendar
    ensures !a.running && r.running ==>
              r.status == RunningStatus && r.threadsStarted == a.threadsStarted + 1
    ensures !a.running && !r.running ==>
              r.status == ErrorStatus(InitializeClients(a, gmail, calendar).failure.value)
              && r.threadsStarted == a.threadsStarted
    ensures r.createdToday == a.createdToday && r.priorityCount == a.priorityCount
    ensures r.recentEmails == a.recentEmails && r.pollInterval == a.pollInterval
    ensures Valid(a) ==> Valid(r)
  {
    if a.running then a
    else
      var init := InitializeClients(a, gmail, calendar);
      match init.failure
      case None =>
        init.agent.(running := true, status := RunningStatus, threadsStarted := a.threadsStarted + 1)
      case Some(reason) =>
        ErrorStatusIsDistinct(reason);
        init.agent.(status := ErrorStatus(reason), running := false)
  }

  /** `stop` (agent.py:48-57): the status becomes "Stopped" whatever the
      bounded join does. */
  function Stop(a: Agent): (r: Agent)
    ensures !a.running ==> r == a
    ensures a.running ==> !r.running && r.status == StoppedStatus
    ensures r.(running := a.running, status := a.status) == a
    ensures Valid(a) ==> Valid(r)
  {
    if !a.running then a else a.(running := false, status := StoppedStatus)
  }

  /** A second `start` after a successful one changes nothing and consults
      neither constructor. */
  lemma StartIsIdempotent(a: Agent, g1: Construction<GmailHandle>, c1: Construction<CalendarHandle>,
                          g2: Construction<GmailHandle>, c2: Construction<CalendarHandle>)
    requires Start(a, g1, c1).running
    ensures Start(Start(a, g1, c1), g2, c2) == Start(a, g1, c1)
  {
  }

  /** A second `stop` changes nothing. */
  lemma StopIsIdempotent(a: Agent)
    ensures Stop(Stop(a)) == Stop(a)
  {
  }

  /** After a `start` whose calendar constructor raised, the inbox client it
      built is kept: a retry does not call the inbox constructor again. */
  lemma RetryKeepsBuiltInbox(a: Agent, g: Construction<GmailHandle>, c: Construction<CalendarHandle>,
                             g1: Construction<GmailHandle>, g2: Construction<GmailHandle>,
                             c2: Construction<CalendarHandle>)
    requires !a.running && a.gmail.None? && g.Built? && a.calendar.None? && c.Raised?
    ensures !Start(a, g, c).running && Start(a, g, c).gmail == Some(g.handle)
    ensures Start(Start(a, g, c), g1, c2) == Start(Start(a, g, c), g2, c2)
  {
  }

  /** A call on the control surface. */
  datatype Command =
    | StartCommand(gmail: Construction<GmailHandle>, calendar: Construction<CalendarHandle>)
    | StopCommand

  function Apply(a: Agent, c: Command): Agent {
    match c
    case StartCommand(g, cal) => Start(a, g, cal)
    case StopCommand => Stop(a)
  }

  function ApplyAll(a: Agent, cs: seq<Command>): Agent
    decreases |cs|
  {
    if |cs| == 0 then a else ApplyAll(Apply(a, cs[0]), cs[1..])
  }

  /** Only `start` turns `running` on and only `stop` turns it off. */
  lemma RunningFlipsOnlyThroughStartAndStop(a: Agent, c: Command)
    ensures !a.running && Apply(a, c).running ==> c.StartCommand?
    ensures a.running && !Apply(a, c).running ==> c.StopCommand?
  {
  }

  /** Any sequence of `start`/`stop` calls from construction keeps the
      invariant and leaves the counters and the recent list untouched: the
      creation counter is reset only by constructing a new agent. */
  lemma {:induction false} ControlKeepsInvariantAndCounters(a: Agent, cs: seq<Command>)
    requires Valid(a)
    ensures Valid(ApplyAll(a, cs))
    ensures ApplyAll(a, cs).createdToday == a.createdToday
    ensures ApplyAll(a, cs).recentEmails == a.recentEmails
    decreases |cs|
  {
    if |cs| > 0 {
      ControlKeepsInvariantAndCounters(Apply(a, cs[0]), cs[1..]);
    }
  }
}
