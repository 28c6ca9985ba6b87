/** The user dashboard: the event-id → status map built from the user's
    registrations, the search filter, the register button and the local
    update after a successful registration. */
module UserDashboard {
  import opened Common
  import opened Records
  import EventCard

  /** The map state `registrations`: property key → `reg.status?.toUpperCase()`,
      which is `undefined` for a registration without a status. */
  type RegMap = map<string, Option<string>>

  /** `reg.event?._id || reg.event` used as a property key: an object without an
      `_id` becomes "[object Object]" and a missing event "undefined". */
  function RegistrationKey(ref: EventRef): (key: string)
    ensures ref.EventId? ==> key == ref.ref
    ensures ref.Populated? && Truthy(ref.event.id) ==> key == ref.event.id.value
    ensures ref.Populated? && !Truthy(ref.event.id) ==> key == "[object Object]"
    ensures ref.NoEvent? ==> key == "undefined"
  {
    match ref
    case NoEvent => "undefined"
    case EventId(s) => s
    case Populated(e) => if Truthy(e.id) then e.id.value else "[object Object]"
  }

  /** `event._id` used as a property key. */
  function EventKey(id: Option<string>): string {
    match id
    case None => "undefined"
    case Some(s) => s
  }

  /** The map the `forEach` loop leaves: each registration in turn writes its key. */
  function RegistrationMap(regs: seq<Registration>): RegMap
    decreases |regs|
  {
    if regs == [] then map[]
    else
      var last := regs[|regs| - 1];
      RegistrationMap(regs[..|regs| - 1])[RegistrationKey(last.event) := UpperOpt(last.status)]
  }

  /** The loop at the heart of `fetchEvents`. */
  method BuildRegistrationMap(regs: seq<Registration>) returns (regMap: RegMap)
    ensures regMap == RegistrationMap(regs)
  {
    regMap := map[];
    var i := 0;
    while i < |regs|
      invariant 0 <= i <= |regs|
      invariant regMap == RegistrationMap(regs[..i])
    {
      var reg := regs[i];
      regMap := regMap[RegistrationKey(reg.event) := UpperOpt(reg.status)];
      assert regs[..i + 1][..i] == regs[..i];
      i := i + 1;
    }
    assert regs[..|regs|] == regs;
  }

  /** The map has one key per distinct event key among the registrations,
      which is what the "Registered" counter shows. */
  lemma {:induction false} RegistrationMapKeys(regs: seq<Registration>)
    ensures RegistrationMap(regs).Keys == set i | 0 <= i < |regs| :: RegistrationKey(regs[i].event)
  {
    if regs != [] {
      var init := regs[..|regs| - 1];
      RegistrationMapKeys(init);
      assert forall i :: 0 <= i < |init| ==> init[i] == regs[i];
    }
  }

  /** A later registration for the same event overwrites an earlier one: the
      entry of a key is the upper-cased status of the last registration with it. */
  lemma {:induction false} RegistrationMapLastWins(regs: seq<Registration>, i: int)
    requires 0 <= i < |regs|
    requires forall j :: i < j < |regs| ==> RegistrationKey(regs[j].event) != RegistrationKey(regs[i].event)
    ensures RegistrationKey(regs[i].event) in RegistrationMap(regs)
    ensures RegistrationMap(regs)[RegistrationKey(regs[i].event)] == UpperOpt(regs[i].status)
  {
    if i < |regs| - 1 {
      var init := regs[..|regs| - 1];
      assert forall j :: 0 <= j < |init| ==> init[j] == regs[j];
      RegistrationMapLastWins(init, i);
    }
  }

  /** `registrations[key]`: `undefined` for an absent key. */
  function Lookup(m: RegMap, key: string): Option<string> {
    if key in m then m[key] else None
  }

  /** `{ ...prev, [selectedEvent._id]: "PENDING" }` */
  function MarkPending(m: RegMap, key: string): (m': RegMap)
    ensures m'.Keys == m.Keys + {key}
    ensures m'[key] == Some("PENDING")
    ensures forall k :: k in m && k != key ==> m'[k] == m[k]
  {
    m[key := Some("PENDING")]
  }

  /** `!!registrations[selectedEvent._id]`: the register button is disabled and
      the form cannot be opened. */
  predicate AlreadyRegistered(m: RegMap, eventId: Option<string>): (b: bool)
    ensures b <==> EventKey(eventId) in m && Truthy(m[EventKey(eventId)])
  {
    Truthy(Lookup(m, EventKey(eventId)))
  }

  /** After a successful registration the event's button is disabled, and
      every other event is as registered as before. */
  lemma MarkPendingLocksOnlyTarget(m: RegMap, eventId: Option<string>, other: Option<string>)
    ensures AlreadyRegistered(MarkPending(m, EventKey(eventId)), eventId)
    ensures EventKey(other) != EventKey(eventId) ==>
              Lookup(MarkPending(m, EventKey(eventId)), EventKey(other)) == Lookup(m, EventKey(other))
  {
  }

  /** Any entry with a non-empty status locks the button. An entry whose status
      was missing does not, although it still counts as "Registered". */
  lemma EntryWithoutStatusDoesNotLock(m: RegMap, eventId: Option<string>)
    requires EventKey(eventId) in m
    ensures AlreadyRegistered(m, eventId) <==> Truthy(m[EventKey(eventId)])
    ensures m[EventKey(eventId)] == None ==> !AlreadyRegistered(m, eventId)
  {
  }

  /** The style branch of `getStatusButtonStyles`. */
  datatype ButtonStyle = LockedPending | LockedApproved | LockedRejected | Active

  /** `getStatusButtonStyles(status)`: an exact `switch`; anything else,
      `undefined` included, gets the active "register" style. */
  function StatusButtonStyle(status: Option<string>): (b: ButtonStyle)
    ensures b != Active <==> status in {Some("PENDING"), Some("APPROVED"), Some("REJECTED")}
    ensures b == LockedPending <==> status == Some("PENDING")
    ensures b == LockedApproved <==> status == Some("APPROVED")
    ensures b == LockedRejected <==> status == Some("REJECTED")
  {
    match status
    case Some("PENDING") => LockedPending
    case Some("APPROVED") => LockedApproved
    case Some("REJECTED") => LockedRejected
    case _ => Active
  }

  /** The register button's text: the entry itself, or "Register Now". */
  function RegisterButtonText(m: RegMap, eventId: Option<string>): (text: string)
    ensures AlreadyRegistered(m, eventId) ==> text == Lookup(m, EventKey(eventId)).value
    ensures !AlreadyRegistered(m, eventId) ==> text == "Register Now"
  {
    var v := Lookup(m, EventKey(eventId));
    if Truthy(v) then v.value else "Register Now"
  }

  /** A locked style always comes with a disabled button. */
  lemma LockedStyleMeansDisabled(m: RegMap, eventId: Option<string>)
    requires StatusButtonStyle(Lookup(m, EventKey(eventId))) != Active
    ensures AlreadyRegistered(m, eventId)
  {
  }

  // ---------------------------------------------------------------------
  // Search

  /** The filter predicate: the lower-cased title (`title || name || ""`) or
      location contains the lower-cased query. */
  predicate MatchesQuery(e: Event, query: string): (b: bool)
    ensures query == "" ==> b
    ensures Truthy(e.title) && Includes(Lower(e.title.value), Lower(query)) ==> b
    ensures !Truthy(e.title) && !Truthy(e.name) && !Truthy(e.location) ==> (b <==> query == "")
  {
    var q := Lower(query);
    IncludesEmpty(Lower(Or(OrElse(e.title, e.name), "")));
    Includes(Lower(Or(OrElse(e.title, e.name), "")), q) || Includes(Lower(Or(e.location, "")), q)
  }

  /** `events.filter(...)`: exactly the matching events, each as often as in
      `events`, in their original order. */
  function Search(events: seq<Event>, query: string): (r: seq<Event>)
    ensures forall e :: multiset(r)[e] == if MatchesQuery(e, query) then multiset(events)[e] else 0
    ensures IsSubsequence(r, events)
  {
    Filter(events, e => MatchesQuery(e, query))
  }

  /** An empty query keeps every event. */
  lemma EmptyQueryKeepsAll(events: seq<Event>)
    ensures Search(events, "") == events
  {
    forall i | 0 <= i < |events|
      ensures MatchesQuery(events[i], "")
    {
      IncludesEmpty(Lower(Or(OrElse(events[i].title, events[i].name), "")));
    }
    FilterKeepsAll(events, e => MatchesQuery(e, ""));
  }

  /** The query is compared without regard to ASCII case. */
  lemma SearchIgnoresQueryCase(events: seq<Event>, q1: string, q2: string)
    requires Lower(q1) == Lower(q2)
    ensures Search(events, q1) == Search(events, q2)
  {
    assert forall e :: MatchesQuery(e, q1) == MatchesQuery(e, q2);
    SameFilter(events, e => MatchesQuery(e, q1), e => MatchesQuery(e, q2));
  }

  lemma {:induction false} SameFilter(s: seq<Event>, p: Event -> bool, q: Event -> bool)
    requires forall e :: p(e) == q(e)
    ensures Filter(s, p) == Filter(s, q)
  {
    if s != [] {
      SameFilter(s[1..], p, q);
    }
  }

  // ---------------------------------------------------------------------
  // Cards

  /** The event object handed to EventCard: `title || name || "Untitled Event"`
      and `imageUrl || image || "/placeholder.png"` replace title and image. */
  function CardEvent(e: Event): (c: Event)
    ensures c.title == Some(Or(OrElse(e.title, e.name), "Untitled Event"))
    ensures c.image == Some(Or(OrElse(e.imageUrl, e.image), "/placeholder.png"))
    ensures c.(title := e.title, image := e.image) == e
  {
    e.(title := Some(Or(OrElse(e.title, e.name), "Untitled Event")),
       image := Some(Or(OrElse(e.imageUrl, e.image), "/placeholder.png")))
  }

  /** The forced title never reaches the card heading, which reads `eventName`;
      the resolved image always does. */
  lemma CardHeadingIgnoresTitle(e: Event, m: RegMap)
    ensures EventCard.Render(Some(CardEvent(e)), Lookup(m, EventKey(e.id)), true).value.heading
            == Or(e.eventName, "Untitled Event")
    ensures EventCard.Render(Some(CardEvent(e)), Lookup(m, EventKey(e.id)), true).value.image
            == Or(OrElse(e.imageUrl, e.image), "/placeholder.png")
  {
  }

  // ---------------------------------------------------------------------
  // Component state

  /** The dashboard's state: the fetched events, the search result, the
      registration map and the details / registration modal. */
  class Dashboard {
    var events: seq<Event>
    var filtered: seq<Event>
    var query: string
    var registrations: RegMap
    var selected: Option<Event>
    var showModal: bool
    var isRegistering: bool

    constructor ()
      ensures events == [] && filtered == [] && query == "" && registrations == map[]
      ensures selected == None && !showModal && !isRegistering
    {
      events, filtered, query, registrations := [], [], "", map[];
      selected, showModal, isRegistering := None, false, false;
    }

    /** `fetchEvents` settles. A failed events request changes nothing. After
        a successful one the events are stored (and the search effect filters
        them), and the registration map is rebuilt only when a token is stored
        and the second request succeeds as well. */
    method Fetched(eventsOutcome: Outcome, fetched: seq<Event>, token: bool,
                   regsOutcome: Outcome, regs: seq<Registration>)
      modifies this
      ensures eventsOutcome == Failed ==> events == old(events) && filtered == old(filtered)
      ensures eventsOutcome == Succeeded ==> events == fetched && filtered == Search(fetched, query)
      ensures registrations == if eventsOutcome == Succeeded && token && regsOutcome == Succeeded
                               then RegistrationMap(regs) else old(registrations)
      ensures query == old(query) && selected == old(selected)
      ensures showModal == old(showModal) && isRegistering == old(isRegistering)
    {
      if eventsOutcome == Succeeded {
        events := fetched;
        if token && regsOutcome == Succeeded {
          registrations := BuildRegistrationMap(regs);
        }
        filtered := Search(events, query);
      }
    }

    /** Typing in the search box re-runs the filter effect. */
    method SetQuery(q: string)
      modifies this
      ensures query == q && filtered == Search(events, q)
      ensures events == old(events) && registrations == old(registrations)
      ensures selected == old(selected) && showModal == old(showModal) && isRegistering == old(isRegistering)
    {
      query := q;
      filtered := Search(events, q);
    }

    /** `openDetails(event)` */
    method OpenDetails(e: Event)
      modifies this
      ensures selected == Some(e) && showModal && !isRegistering
      ensures events == old(events) && filtered == old(filtered) && query == old(query)
      ensures registrations == old(registrations)
    {
      selected := Some(e);
      isRegistering := false;
      showModal := true;
    }

    /** The modal's Close button. */
    method CloseModal()
      modifies this
      ensures !showModal
      ensures events == old(events) && filtered == old(filtered) && query == old(query)
      ensures registrations == old(registrations) && selected == old(selected) && isRegistering == old(isRegistering)
    {
      showModal := false;
    }

    /** The register button: it opens the form only when the event has no
        truthy entry. */
    method PressRegister()
      requires showModal && selected.Some?
      modifies this
      ensures isRegistering == (old(isRegistering) || !AlreadyRegistered(old(registrations), old(selected).value.id))
      ensures events == old(events) && filtered == old(filtered) && query == old(query)
      ensures registrations == old(registrations) && selected == old(selected) && showModal == old(showModal)
    {
      if !AlreadyRegistered(registrations, selected.value.id) {
        isRegistering := true;
      }
    }

    /** `handleRegister` after its request. */
    method FinishRegister(outcome: Outcome)
      requires selected.Some?
      modifies this
      ensures outcome == Succeeded ==>
                registrations == MarkPending(old(registrations), EventKey(old(selected).value.id))
                && !showModal && !isRegistering
      ensures outcome == Failed ==>
                registrations == old(registrations) && showModal == old(showModal) && isRegistering == old(isRegistering)
      ensures events == old(events) && filtered == old(filtered) && query == old(query)
      ensures selected == old(selected)
    {
      if outcome == Succeeded {
        showModal := false;
        isRegistering := false;
        registrations := MarkPending(registrations, EventKey(selected.value.id));
      }
    }
  }
}
