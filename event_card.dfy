/** The EventCard component: a status-badge lookup table and conditional
    rendering of an event's fields. */
module EventCard {
  import opened Common
  import opened Records

  const PLACEHOLDER_IMAGE: string := "https://via.placeholder.com/400"

  /** What a rendered card shows. `callsHandler` says whether its button calls
      `onReadMore(event)`. */
  datatype CardView = CardView(
    image: string,
    heading: string,
    badge: Option<Tone>,
    badgeText: Option<string>,
    showsDate: bool,
    showsLocation: bool,
    showsCategory: bool,
    description: string,
    callsHandler: bool)

  /** `statusStyles[status]`: the table has exactly the upper-case keys. */
  function BadgeTone(status: Option<string>): (t: Option<Tone>)
    ensures t.Some? <==> status in {Some("PENDING"), Some("APPROVED"), Some("REJECTED")}
    ensures t == Some(Yellow) <==> status == Some("PENDING")
    ensures t == Some(Green) <==> status == Some("APPROVED")
    ensures t == Some(Red) <==> status == Some("REJECTED")
  {
    match status
    case Some("PENDING") => Some(Yellow)
    case Some("APPROVED") => Some(Green)
    case Some("REJECTED") => Some(Red)
    case _ => None
  }

  /** `EventCard({ event, onReadMore, status })`; `None` is the `null` it
      renders for a missing event. */
  function Render(event: Option<Event>, status: Option<string>, hasHandler: bool): (view: Option<CardView>)
    ensures event.None? <==> view.None?
    ensures view.Some? ==> view.value.heading == Or(event.value.eventName, "Untitled Event")
    ensures view.Some? ==> view.value.image == Or(event.value.image, PLACEHOLDER_IMAGE)
    ensures view.Some? ==> view.value.description == Or(event.value.description, "No description available.")
    ensures view.Some? ==> (view.value.badge.Some? <==> view.value.badgeText.Some?)
    ensures view.Some? && view.value.badgeText.Some? ==> view.value.badgeText == status
    ensures view.Some? ==> view.value.badge == BadgeTone(status)
    ensures view.Some? ==> view.value.showsDate == Truthy(event.value.date)
    ensures view.Some? ==> view.value.showsLocation == Truthy(event.value.location)
    ensures view.Some? ==> view.value.showsCategory == Truthy(event.value.category)
    ensures view.Some? ==> view.value.callsHandler == hasHandler
  {
    match event
    case None => None
    case Some(e) =>
      var tone := BadgeTone(status);
      Some(CardView(
        Or(e.image, PLACEHOLDER_IMAGE),
        Or(e.eventName, "Untitled Event"),
        tone,
        if tone.Some? then status else None,
        Truthy(e.date),
        Truthy(e.location),
        Truthy(e.category),
        Or(e.description, "No description available."),
        hasHandler))
  }

  /** A lower-case status gets no badge, even one whose upper-case form is a
      known status. */
  lemma LowerCaseStatusHasNoBadge(e: Event, s: string, hasHandler: bool)
    requires IsLowerWord(s)
    ensures Render(Some(e), Some(s), hasHandler).value.badge.None?
  {
    if s != [] {
      assert 'a' <= s[0] <= 'z';
    }
  }
}
