/**
 * The event form (src/pages/CreateEventPage.tsx): six text inputs, and a
 * submit that builds an event row and appends it to the page's own copy of
 * the sample events.
 */
module CreateEvent {
  import opened Wrappers
  import opened Text
  import opened Schema
  import opened ProfileSetup

  datatype EventForm = EventForm(
    name: string,
    description: string,
    location: string,
    event_date: string,
    event_time: string,
    price: string
  )

  const EMPTY_EVENT_FORM: EventForm := EventForm("", "", "", "", "", "")

  /** The owner every event made on this page carries. */
  const CURRENT_USER: string := "current-user"

  /** `e${Date.now()}`: the letter e and the clock's milliseconds. */
  function EventId(stamp: nat): (id: string)
    ensures |id| >= 2 && id[0] == 'e' && AllDigits(id[1..])
  {
    "e" + NatText(stamp)
  }

  /** Events made at different milliseconds get different ids. */
  lemma EventIdsDistinct(a: nat, b: nat)
    requires a != b
    ensures EventId(a) != EventId(b)
  {
    if EventId(a) == EventId(b) {
      assert NatText(a) == EventId(a)[1..];
      assert NatText(b) == EventId(b)[1..];
      NatTextRoundTrip(a);
      NatTextRoundTrip(b);
    }
  }

  /**
   * handleSubmit's row: the name trimmed, the optional texts trimmed or null,
   * the date as typed, no image, no attendees, and the two clock readings as
   * creation and update times.
   */
  function NewEvent(form: EventForm, stamp: nat, createdAt: string, updatedAt: string): (e: EventRow)
    ensures e.id == EventId(stamp) && e.created_by == CURRENT_USER
    ensures e.name == Trim(form.name)
    ensures e.description == TrimOrNull(form.description) && e.location == TrimOrNull(form.location)
    ensures e.event_time == TrimOrNull(form.event_time) && e.price == TrimOrNull(form.price)
    ensures e.event_date == form.event_date
    ensures e.image_url.None? && e.attendee_count == 0
    ensures e.created_at == createdAt && e.updated_at == updatedAt
  {
    EventRow(
      EventId(stamp),
      CURRENT_USER,
      Trim(form.name),
      TrimOrNull(form.description),
      TrimOrNull(form.location),
      form.event_date,
      TrimOrNull(form.event_time),
      TrimOrNull(form.price),
      None,
      0,
      createdAt,
      updatedAt)
  }

  /** The optional texts of a new event are trimmed and never empty. */
  lemma NewEventTextsTrimmed(form: EventForm, stamp: nat, createdAt: string, updatedAt: string)
    ensures var e := NewEvent(form, stamp, createdAt, updatedAt);
      && Trimmed(e.name)
      && (e.description.Some? ==> e.description.value != "" && Trimmed(e.description.value))
      && (e.location.Some? ==> e.location.value != "" && Trimmed(e.location.value))
      && (e.event_time.Some? ==> e.event_time.value != "" && Trimmed(e.event_time.value))
      && (e.price.Some? ==> e.price.value != "" && Trimmed(e.price.value))
  {
  }

  /**
   * `let mockEvents = [...MOCK_EVENTS]`: the page's list, starting as a copy
   * of the sample events, which stay as they were.
   */
  class EventStore {
    const seed: seq<EventRow>
    var events: seq<EventRow>

    /** The sample events are always the start of the list. */
    predicate Valid()
      reads this
    {
      seed <= events
    }

    constructor(seed: seq<EventRow>)
      ensures this.seed == seed && events == seed && Valid()
    {
      this.seed := seed;
      events := seed;
    }

    /** `mockEvents = [...mockEvents, newEvent]`. */
    method Append(e: EventRow)
      requires Valid()
      modifies this
      ensures events == old(events) + [e]
      ensures Valid()
    {
      events := events + [e];
    }
  }

  /** The inputs of the form. */
  datatype EventField = NameInput | DescriptionInput | LocationInput | DateInput | TimeInput | PriceInput

  class CreateEventPage {
    const store: EventStore
    var form: EventForm
    var loading: bool

    constructor(store: EventStore)
      ensures this.store == store && form == EMPTY_EVENT_FORM && !loading
    {
      this.store := store;
      form := EMPTY_EVENT_FORM;
      loading := false;
    }

    /** Typing into one input. */
    method Edit(field: EventField, text: string)
      modifies this
      ensures loading == old(loading)
      ensures form == match field
        case NameInput => old(form).(name := text)
        case DescriptionInput => old(form).(description := text)
        case LocationInput => old(form).(location := text)
        case DateInput => old(form).(event_date := text)
        case TimeInput => old(form).(event_time := text)
        case PriceInput => old(form).(price := text)
    {
      match field
      case NameInput => form := form.(name := text);
      case DescriptionInput => form := form.(description := text);
      case LocationInput => form := form.(location := text);
      case DateInput => form := form.(event_date := text);
      case TimeInput => form := form.(event_time := text);
      case PriceInput => form := form.(price := text);
    }

    /**
     * handleSubmit: the new event goes at the end of the list, nothing before
     * it changes, the busy flag ends false, and the page replaces itself
     * with `/events`.
     */
    method Submit(stamp: nat, createdAt: string, updatedAt: string) returns (navigatedTo: string)
      requires store.Valid()
      modifies this`loading, store
      ensures store.events == old(store.events) + [NewEvent(form, stamp, createdAt, updatedAt)]
      ensures store.Valid() && !loading
      ensures navigatedTo == "/events"
    {
      loading := true;
      store.Append(NewEvent(form, stamp, createdAt, updatedAt));
      loading := false;
      navigatedTo := "/events";
    }
  }
}
