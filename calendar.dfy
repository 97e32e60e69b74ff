/** The event calendar: an in-memory list of events seeded with two fixtures,
    and the add-event form with its three ordered checks. */
module Calendar {
  import opened Records

  /** Time stamps are minutes on a local clock; `LocalMinutes` places a calendar
      date on it in chronological order (months 0-based, as `new Date` takes them). */
  function LocalMinutes(year: int, monthIndex: int, day: int, hour: int, minute: int): int {
    ((((year * 12 + monthIndex) * 31 + (day - 1)) * 24 + hour) * 60) + minute
  }

  datatype Event = Event(title: string, start: int, end: int)

  /** The add-event form; an empty date-time input is None. */
  datatype EventDraft = EventDraft(title: string, start: Option<int>, end: Option<int>)

  const EmptyDraft: EventDraft := EventDraft("", None, None)

  /** The two events the calendar starts with. */
  function Fixtures(): (es: seq<Event>)
    ensures |es| == 2
    ensures es[0].title == "Team Meeting" && es[1].title == "Project Deadline"
    ensures es[0].start < es[0].end <= es[1].start < es[1].end
  {
    [ Event("Team Meeting", LocalMinutes(2024, 10, 29, 10, 0), LocalMinutes(2024, 10, 29, 11, 30)),
      Event("Project Deadline", LocalMinutes(2024, 10, 30, 15, 0), LocalMinutes(2024, 10, 30, 17, 0)) ]
  }

  /** The outcome of the add-event checks. */
  datatype Check = Accepted | EmptyTitle | MissingTime | EndBeforeStart

  /** The checks of `handleAddEvent`, in the order the handler runs them; the first failure wins.
      The ordering check is strict, so an event may end when it starts. */
  function CheckDraft(d: EventDraft): (c: Check)
    ensures c == EmptyTitle <==> Blank(d.title)
    ensures c == MissingTime <==> !Blank(d.title) && (d.start.None? || d.end.None?)
    ensures c == EndBeforeStart <==> !Blank(d.title) && d.start.Some? && d.end.Some? && d.start.value > d.end.value
    ensures c == Accepted <==> !Blank(d.title) && d.start.Some? && d.end.Some? && d.start.value <= d.end.value
  {
    if Blank(d.title) then EmptyTitle
    else if d.start.None? || d.end.None? then MissingTime
    else if d.start.value > d.end.value then EndBeforeStart
    else Accepted
  }

  /** The alert text of each check; only an accepted draft goes without one. */
  function Alert(c: Check): (msg: string)
    ensures msg == "" <==> c == Accepted
  {
    match c
    case Accepted => ""
    case EmptyTitle => "Title cannot be empty."
    case MissingTime => "Please provide both start and end times."
    case EndBeforeStart => "End time must be after start time."
  }

  /** What every event admitted by the form satisfies. */
  predicate WellFormed(e: Event) {
    !Blank(e.title) && e.start <= e.end
  }

  lemma FixturesWellFormed()
    ensures forall i :: 0 <= i < |Fixtures()| ==> WellFormed(Fixtures()[i])
  {
    var es := Fixtures();
    assert !IsWhitespace(es[0].title[0]) && !IsWhitespace(es[1].title[0]);
  }

  /** An event that starts and ends at the same instant is accepted. */
  lemma SameInstantAccepted(title: string, t: int)
    requires !Blank(title)
    ensures CheckDraft(EventDraft(title, Some(t), Some(t))) == Accepted
  {
  }

  /** A draft failing every check is reported only as having an empty title. */
  lemma EmptyTitleReportedFirst(title: string, start: Option<int>, end: Option<int>)
    requires Blank(title)
    ensures CheckDraft(EventDraft(title, start, end)) == EmptyTitle
  {
  }

  class CalendarView {
    var events: seq<Event>
    var showModal: bool
    var newEvent: EventDraft

    /** Every event on the calendar has a title and does not end before it starts. */
    predicate Valid()
      reads this
    {
      forall i :: 0 <= i < |events| ==> WellFormed(events[i])
    }

    constructor ()
      ensures Valid()
      ensures events == Fixtures() && !showModal && newEvent == EmptyDraft
    {
      FixturesWellFormed();
      events := Fixtures();
      showModal := false;
      newEvent := EmptyDraft;
    }

    /** The "Add Task" button. */
    method OpenModal()
      requires Valid()
      modifies this
      ensures Valid()
      ensures showModal && events == old(events) && newEvent == old(newEvent)
    {
      showModal := true;
    }

    /** The "Cancel" button: closes the form and keeps what was typed. */
    method CloseModal()
      requires Valid()
      modifies this
      ensures Valid()
      ensures !showModal && events == old(events) && newEvent == old(newEvent)
    {
      showModal := false;
    }

    /** The form's onChange handlers. */
    method EditDraft(d: EventDraft)
      requires Valid()
      modifies this
      ensures Valid()
      ensures newEvent == d && events == old(events) && showModal == old(showModal)
    {
      newEvent := d;
    }

    /** `handleAddEvent`: on the first failed check, alert and change nothing; otherwise
        append the event with its untrimmed title, close the form and clear it. */
    method HandleAddEvent() returns (alert: Option<string>)
      requires Valid()
      modifies this
      ensures Valid()
      ensures CheckDraft(old(newEvent)) == Accepted ==>
                alert == None &&
                events == old(events) + [Event(old(newEvent).title, old(newEvent).start.value, old(newEvent).end.value)] &&
                !showModal && newEvent == EmptyDraft
      ensures CheckDraft(old(newEvent)) != Accepted ==>
                alert == Some(Alert(CheckDraft(old(newEvent)))) &&
                events == old(events) && showModal == old(showModal) && newEvent == old(newEvent)
    {
      var check := CheckDraft(newEvent);
      if check != Accepted {
        return Some(Alert(check));
      }
      events := events + [Event(newEvent.title, newEvent.start.value, newEvent.end.value)];
      showModal := false;
      newEvent := EmptyDraft;
      alert := None;
    }
  }

  /** Adding "Sync" from 10:00 to 11:00 on 29 November 2024 appends exactly that event
      after the two fixtures. */
  method AddSync() returns (events: seq<Event>)
    ensures |events| == 3 && events[..2] == Fixtures()
    ensures events[2] == Event("Sync", LocalMinutes(2024, 10, 29, 10, 0), LocalMinutes(2024, 10, 29, 11, 0))
  {
    var view := new CalendarView();
    view.OpenModal();
    view.EditDraft(EventDraft("Sync", Some(LocalMinutes(2024, 10, 29, 10, 0)), Some(LocalMinutes(2024, 10, 29, 11, 0))));
    assert !IsWhitespace("Sync"[0]);
    var alert := view.HandleAddEvent();
    events := view.events;
  }
}
