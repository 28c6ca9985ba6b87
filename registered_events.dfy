/** The "registered events" page: the image each card shows, the cancel
    control (offered only while a registration is pending) and cancellation,
    which removes the registration from the list. */
module RegisteredEvents {
  import opened Common
  import opened Records
  import EventCard

  const LOCAL_PLACEHOLDER: string := "/placeholder.png"

  /** `resolveImage(event)`: an absolute `imageUrl` wins; otherwise a non-empty
      `image` is a path on the API host (a leading "/" is added when missing);
      otherwise the local placeholder. */
  function ResolveImage(event: Option<Event>): (url: string)
    ensures event.None? ==> url == LOCAL_PLACEHOLDER
    ensures event.Some? && event.value.imageUrl.Some? && StartsWith(event.value.imageUrl.value, "http")
            ==> url == event.value.imageUrl.value
    ensures event.Some? && !(event.value.imageUrl.Some? && StartsWith(event.value.imageUrl.value, "http"))
            && Truthy(event.value.image)
            ==> StartsWith(url, BASE_URL + "/") && EndsWith(url, event.value.image.value)
    ensures event.Some? && !(event.value.imageUrl.Some? && StartsWith(event.value.imageUrl.value, "http"))
            && !Truthy(event.value.image)
            ==> url == LOCAL_PLACEHOLDER
    ensures url != ""
  {
    match event
    case None => LOCAL_PLACEHOLDER
    case Some(e) =>
      if e.imageUrl.Some? && StartsWith(e.imageUrl.value, "http") then e.imageUrl.value
      else if Truthy(e.image) then
        var image := e.image.value;
        var path := if StartsWith(image, "/") then image else "/" + image;
        assert StartsWith(BASE_URL + path, BASE_URL + "/");
        BASE_URL + path
      else LOCAL_PLACEHOLDER
  }

  /** A stored image path is joined to the host with exactly one "/": an image
      already starting with "/" is used as it is, any other gets one. */
  lemma ImagePathJoin(e: Event)
    requires !(e.imageUrl.Some? && StartsWith(e.imageUrl.value, "http")) && Truthy(e.image)
    ensures StartsWith(e.image.value, "/") ==> ResolveImage(Some(e)) == BASE_URL + e.image.value
    ensures !StartsWith(e.image.value, "/") ==> ResolveImage(Some(e)) == BASE_URL + "/" + e.image.value
  {
  }

  /** The event object handed to EventCard: `{...event, title: event.title ||
      "Untitled Event", image: resolveImage(event)}` with `event = reg.event || {}`. */
  function CardEvent(reg: Registration): (c: Event)
    ensures c.title == Some(Or(EventOf(reg.event).title, "Untitled Event"))
    ensures c.image == Some(ResolveImage(Some(EventOf(reg.event))))
    ensures c.(title := EventOf(reg.event).title, image := EventOf(reg.event).image) == EventOf(reg.event)
  {
    var e := EventOf(reg.event);
    e.(title := Some(Or(e.title, "Untitled Event")), image := Some(ResolveImage(Some(e))))
  }

  /** The rendered card shows the resolved image (never EventCard's own
      placeholder) and, because EventCard reads `eventName`, a heading that the
      `title` set here does not affect. */
  lemma CardShowsResolvedImage(reg: Registration)
    ensures EventCard.Render(Some(CardEvent(reg)), reg.status, true).value.image
            == ResolveImage(Some(EventOf(reg.event)))
    ensures EventCard.Render(Some(CardEvent(reg)), reg.status, true).value.heading
            == Or(EventOf(reg.event).eventName, "Untitled Event")
  {
  }

  /** The control under a card. */
  datatype CancelControl = CancelButton(disabled: bool, text: string) | StatusLocked

  /** The cancel button for a pending registration, disabled and reading
      "Cancelling..." while its own cancellation is in flight; "Status Locked"
      once the registration is approved, rejected or anything else. */
  function Control(reg: Registration, cancelingId: Option<string>): (c: CancelControl)
    ensures c.CancelButton? <==> StatusOf(reg.status) == Pending
    ensures c.CancelButton? ==> (c.disabled <==> cancelingId == Some(reg.id))
    ensures c.CancelButton? ==> c.text == (if c.disabled then "Cancelling..." else "Cancel Request")
  {
    if IsPending(reg) then
      var busy := cancelingId == Some(reg.id);
      CancelButton(busy, if busy then "Cancelling..." else "Cancel Request")
    else StatusLocked
  }

  /** A lower-case "pending" can be cancelled, yet its card gets no badge,
      since EventCard's table only has the upper-case keys. */
  lemma LowerCasePendingCancellableWithoutBadge(reg: Registration)
    requires reg.status == Some("pending")
    ensures Control(reg, None).CancelButton?
    ensures EventCard.Render(Some(CardEvent(reg)), reg.status, true).value.badge.None?
  {
    UpperStatusWords();
  }

  /** `res.data || []`: a missing body gives the empty list. */
  function FetchedRegistrations(body: Option<seq<Registration>>): (rows: seq<Registration>)
    ensures body.None? ==> rows == []
    ensures body.Some? ==> rows == body.value
  {
    if body.Some? then body.value else []
  }

  /** `prev.filter((reg) => reg._id !== registrationId)` */
  function RemoveRegistration(rows: seq<Registration>, id: string): (r: seq<Registration>)
    ensures forall x :: multiset(r)[x] == if x.id != id then multiset(rows)[x] else 0
    ensures IsSubsequence(r, rows)
    ensures forall k :: 0 <= k < |r| ==> r[k].id != id
  {
    var r := Filter(rows, (reg: Registration) => reg.id != id);
    forall k | 0 <= k < |r|
      ensures r[k].id != id
    {
      assert r[k] in multiset(r);
    }
    r
  }

  /** Removing a registration the list does not hold leaves the list as it is. */
  lemma RemoveAbsentKeepsAll(rows: seq<Registration>, id: string)
    requires forall k :: 0 <= k < |rows| ==> rows[k].id != id
    ensures RemoveRegistration(rows, id) == rows
  {
    FilterKeepsAll(rows, (reg: Registration) => reg.id != id);
  }

  /** The page's state: the registrations and the id of the cancellation in flight. */
  class RegisteredEventsPage {
    var registrations: seq<Registration>
    var cancelingId: Option<string>

    constructor ()
      ensures registrations == [] && cancelingId == None
    {
      registrations := [];
      cancelingId := None;
    }

    /** `fetchRegistrations`: the body replaces the list on success; a failed
        request leaves it unchanged. */
    method Fetched(outcome: Outcome, body: Option<seq<Registration>>)
      modifies this
      ensures registrations == if outcome == Succeeded then FetchedRegistrations(body) else old(registrations)
      ensures cancelingId == old(cancelingId)
    {
      if outcome == Succeeded {
        registrations := FetchedRegistrations(body);
      }
    }

    /** `handleCancel` up to its request: a declined confirmation sends
        nothing and changes nothing. */
    method BeginCancel(id: string, confirmed: bool) returns (sent: bool)
      modifies this
      ensures sent == confirmed
      ensures cancelingId == if confirmed then Some(id) else old(cancelingId)
      ensures registrations == old(registrations)
    {
      sent := confirmed;
      if confirmed {
        cancelingId := Some(id);
      }
    }

    /** `handleCancel` after its request: the registration leaves the list on
        success, and `cancelingId` is cleared either way. */
    method FinishCancel(id: string, outcome: Outcome)
      modifies this
      ensures registrations == if outcome == Succeeded then RemoveRegistration(old(registrations), id)
                               else old(registrations)
      ensures cancelingId == None
    {
      if outcome == Succeeded {
        registrations := RemoveRegistration(registrations, id);
      }
      cancelingId := None;
    }
  }
}
