/**
 * The organizer panel: the organizer's events with their totals, and the
 * vendor applications the organizer approves or rejects.
 */
module OrganizerDashboard {
  import opened Wrappers
  import opened Lists

  datatype EventStatus = Draft | Published | Active | Completed

  datatype Event = Event(
    id: string, name: string, location: string, date: string, time: string,
    description: string, category: string, maxAttendees: nat, currentAttendees: nat,
    price: real, status: EventStatus, applications: nat, revenue: real)

  datatype ApplicationStatus = Pending | Approved | Rejected

  datatype Application = Application(
    id: string, eventId: string, applicantName: string, businessName: string,
    category: string, experience: string, status: ApplicationStatus,
    appliedDate: string, avatar: string)

  datatype Action = Approve | Reject

  /** The text fields of the "new event" form. */
  datatype EventForm = EventForm(
    name: string, location: string, date: string, time: string,
    description: string, category: string, maxAttendees: string, price: string)

  const EmptyForm: EventForm := EventForm("", "", "", "", "", "", "", "")

  /** The status an action gives an application. */
  function Decided(action: Action): ApplicationStatus
  {
    if action == Approve then Approved else Rejected
  }

  /** `handleApplicationAction` on the list: the applications with `id` take the action's status. */
  function WithDecision(apps: seq<Application>, id: string, action: Action): (r: seq<Application>)
    ensures |r| == |apps|
    ensures forall i :: 0 <= i < |apps| && apps[i].id == id ==>
              r[i] == apps[i].(status := Decided(action))
    ensures forall i :: 0 <= i < |apps| && apps[i].id != id ==> r[i] == apps[i]
  {
    if apps == [] then []
    else
      var head := if apps[0].id == id then apps[0].(status := Decided(action)) else apps[0];
      [head] + WithDecision(apps[1..], id, action)
  }

  /** Approving every application with `id` gives it status approved, rejecting gives rejected. */
  lemma DecisionSetsStatus(apps: seq<Application>, id: string, action: Action, i: nat)
    requires i < |apps| && apps[i].id == id
    ensures WithDecision(apps, id, action)[i].status == (if action == Approve then Approved else Rejected)
  {
  }

  /** Taking the same action twice gives the same list as taking it once. */
  lemma DecisionIdempotent(apps: seq<Application>, id: string, action: Action)
    ensures WithDecision(WithDecision(apps, id, action), id, action) == WithDecision(apps, id, action)
  {
    var once := WithDecision(apps, id, action);
    var twice := WithDecision(once, id, action);
    assert forall i :: 0 <= i < |apps| ==> twice[i] == once[i];
  }

  function IsPending(a: Application): bool
  {
    a.status == Pending
  }

  /** The test for a pending application with a given id. */
  function PendingWithId(id: string): Application -> bool
  {
    (a: Application) => a.id == id && a.status == Pending
  }

  /** `pendingApplications`: how many applications are pending. */
  function PendingApplications(apps: seq<Application>): nat
  {
    |Filter(IsPending, apps)|
  }

  /** Deciding on `id` lowers the pending count by the number of pending applications with that id. */
  lemma {:induction false} PendingAfterDecision(apps: seq<Application>, id: string, action: Action)
    ensures PendingApplications(WithDecision(apps, id, action)) + |Filter(PendingWithId(id), apps)|
            == PendingApplications(apps)
  {
    if apps != [] {
      var r := WithDecision(apps, id, action);
      assert r[1..] == WithDecision(apps[1..], id, action);
      PendingAfterDecision(apps[1..], id, action);
    }
  }

  /** Deciding on a pending application whose id is unique lowers the pending count by exactly one. */
  lemma DecidingPendingLowersCountByOne(apps: seq<Application>, i: nat, action: Action)
    requires i < |apps| && apps[i].status == Pending
    requires forall j :: 0 <= j < |apps| && j != i ==> apps[j].id != apps[i].id
    ensures PendingApplications(WithDecision(apps, apps[i].id, action)) == PendingApplications(apps) - 1
  {
    var id := apps[i].id;
    var p := PendingWithId(id);
    var before, after := apps[..i], apps[i + 1..];
    assert apps == before + [apps[i]] + after;
    forall x | x in before ensures !p(x) {
      var j :| 0 <= j < |before| && before[j] == x;
      assert apps[j] == x;
    }
    forall x | x in after ensures !p(x) {
      var j :| 0 <= j < |after| && after[j] == x;
      assert apps[i + 1 + j] == x;
    }
    FilterNone(p, before);
    FilterNone(p, after);
    FilterAppend(p, before + [apps[i]], after);
    FilterAppend(p, before, [apps[i]]);
    PendingAfterDecision(apps, id, action);
  }

  // ---- totals over the events ----

  function RevenueOf(e: Event): real
  {
    e.revenue
  }

  function AttendeesOf(e: Event): nat
  {
    e.currentAttendees
  }

  /** `totalRevenue`: the sum of the events' revenue. */
  function TotalRevenue(events: seq<Event>): real
  {
    Sum(events, RevenueOf)
  }

  /** `totalAttendees`: the sum of the events' current attendees. */
  function TotalAttendees(events: seq<Event>): nat
  {
    NatSum(events, AttendeesOf)
  }

  /** `totalEvents`: the number of events. */
  function TotalEvents(events: seq<Event>): nat
  {
    |events|
  }

  /** One more event adds one to the count and its revenue and attendees to the totals. */
  lemma TotalsAfterAppend(events: seq<Event>, e: Event)
    ensures TotalEvents(events + [e]) == TotalEvents(events) + 1
    ensures TotalRevenue(events + [e]) == TotalRevenue(events) + e.revenue
    ensures TotalAttendees(events + [e]) == TotalAttendees(events) + e.currentAttendees
  {
    SumSnoc(events, e, RevenueOf);
    NatSumAppend(events, [e], AttendeesOf);
  }

  /** The two events the panel starts with. */
  const MockEvents: seq<Event> := [
    Event("1", "Feria Gastronómica Popayán", "Parque Caldas, Popayán", "2024-01-15", "08:00 - 18:00",
          "La mejor feria gastronómica de la ciudad", "Gastronomía", 60, 45, 25000.0, Active, 12, 1125000.0),
    Event("2", "Mercado Artesanal Navideño", "Centro Comercial Campanario", "2024-01-20", "10:00 - 20:00",
          "Artesanías y productos navideños", "Artesanías", 40, 32, 30000.0, Published, 8, 960000.0)
  ]

  /** The two applications the panel starts with. */
  const MockApplications: seq<Application> := [
    Application("1", "1", "María González", "Delicias Caseras", "Gastronomía",
                "5 años de experiencia en ferias gastronómicas", Pending, "2024-01-10",
                "/placeholder.svg?height=40&width=40"),
    Application("2", "1", "Carlos Rodríguez", "Café de Montaña", "Bebidas",
                "Productor de café orgánico con 3 años de experiencia", Approved, "2024-01-08",
                "/placeholder.svg?height=40&width=40")
  ]

  /** On the starting data: 2 events, 2085000 in revenue, 77 attendees and 1 pending application. */
  lemma StartingTotals()
    ensures TotalEvents(MockEvents) == 2
    ensures TotalRevenue(MockEvents) == 2085000.0
    ensures TotalAttendees(MockEvents) == 77
    ensures PendingApplications(MockApplications) == 1
  {
    assert MockEvents == [] + [MockEvents[0]] + [MockEvents[1]];
    TotalsAfterAppend([], MockEvents[0]);
    TotalsAfterAppend([MockEvents[0]], MockEvents[1]);
    assert [] + [MockEvents[0]] == [MockEvents[0]];
  }

  /** The panel's state: its lists, the new-event form and the two dialogs. */
  class Dashboard {
    var events: seq<Event>
    var applications: seq<Application>
    var newEvent: EventForm
    var eventModalOpen: bool
    var appModalOpen: bool
    var selectedApplication: Option<Application>

    constructor ()
      ensures events == MockEvents && applications == MockApplications
      ensures newEvent == EmptyForm && !eventModalOpen && !appModalOpen
      ensures selectedApplication == None
    {
      events := MockEvents;
      applications := MockApplications;
      newEvent := EmptyForm;
      eventModalOpen, appModalOpen := false, false;
      selectedApplication := None;
    }

    /** "Crear Evento": opens the new-event dialog. */
    method OpenEventForm()
      modifies this`eventModalOpen
      ensures eventModalOpen
    {
      eventModalOpen := true;
    }

    /** `handleCreateEvent`: closes the dialog and empties every form field; the event list is not touched. */
    method HandleCreateEvent()
      modifies this`newEvent, this`eventModalOpen
      ensures newEvent == EmptyForm && !eventModalOpen
      ensures events == old(events) && applications == old(applications)
    {
      eventModalOpen := false;
      newEvent := EmptyForm;
    }

    /** `handleApplicationAction`: the applications with `id` become approved or rejected; the rest stay. */
    method HandleApplicationAction(id: string, action: Action)
      modifies this`applications
      ensures applications == WithDecision(old(applications), id, action)
    {
      applications := WithDecision(applications, id, action);
    }

    /** "Ver Detalles": remembers the application and opens its dialog. */
    method ShowApplication(app: Application)
      modifies this`selectedApplication, this`appModalOpen
      ensures selectedApplication == Some(app) && appModalOpen
    {
      selectedApplication := Some(app);
      appModalOpen := true;
    }

    /**
     * The dialog's approve and reject buttons: the action on the selected
     * application, then the dialog closes. The selection keeps the copy taken
     * when the dialog opened.
     */
    method DecideSelected(action: Action)
      requires selectedApplication.Some?
      modifies this`applications, this`appModalOpen
      ensures applications == WithDecision(old(applications), selectedApplication.value.id, action)
      ensures !appModalOpen
    {
      HandleApplicationAction(selectedApplication.value.id, action);
      appModalOpen := false;
    }
  }
}
