/** The "my registered events" page: per registration, the header label and
    colour, the status panel, the ticket action, and the ticket modal's
    registration id and attendee. */
module MyEvents {
  import opened Common
  import opened Records
  import opened Expiry
  import Profile

  /** `isExpired((reg.event || {}).date)` */
  predicate RegistrationExpired(reg: Registration, now: int, parse: string -> EventDate): (b: bool)
    ensures EventOf(reg.event).date.None? ==> !b
    ensures b ==> LocalDay(EventOf(reg.event).date, parse).OnDay?
  {
    IsExpired(now, LocalDay(EventOf(reg.event).date, parse))
  }

  /** A registration whose event, or whose event's date, is missing has an
      Invalid Date and is reported not expired. */
  lemma MissingDateNeverExpires(reg: Registration, now: int, parse: string -> EventDate)
    requires !reg.event.Populated? || reg.event.event.date.None?
    ensures !RegistrationExpired(reg, now, parse)
  {
  }

  /** The end-of-day rule as this page applies it: valid through the event day,
      expired from the next day on. */
  lemma ExpiredExactlyAfterEventDay(reg: Registration, now: int, parse: string -> EventDate, day: int)
    requires LocalDay(EventOf(reg.event).date, parse) == OnDay(day)
    ensures RegistrationExpired(reg, now, parse) <==> DayOf(now) > day
  {
    ExpiredIffLaterDay(now, day);
  }

  /** The header text: "EXPIRED" replaces the upper-cased status only for an
      approved registration on an expired event. */
  function HeaderLabel(status: Option<string>, expired: bool): (text: Option<string>)
    ensures text == UpperOpt(status) || text == Some("EXPIRED")
    ensures text != UpperOpt(status) <==> expired && StatusOf(status) == Approved
  {
    var s := UpperOpt(status);
    if expired && s == Some("APPROVED") then Some("EXPIRED") else s
  }

  /** The header colour. */
  function HeaderTone(status: Option<string>, expired: bool): (t: Tone)
    ensures t == Grey <==> expired && StatusOf(status) == Approved
    ensures t == Green <==> !expired && StatusOf(status) == Approved
    ensures t == Red <==> StatusOf(status) == Rejected
    ensures t == Yellow <==> StatusOf(status) == Pending || StatusOf(status).Unknown?
  {
    var s := UpperOpt(status);
    if expired && s == Some("APPROVED") then Grey
    else if s == Some("APPROVED") then Green
    else if s == Some("REJECTED") then Red
    else Yellow
  }

  /** The two pages colour the same registration differently when its status
      is neither pending, approved nor rejected: red on the profile, yellow here. */
  lemma UnknownStatusColouredDifferently(status: Option<string>, now: int, date: EventDate)
    requires StatusOf(status).Unknown?
    ensures Profile.StatusStyle(status, now, date) == Red
    ensures HeaderTone(status, IsExpired(now, date)) == Yellow
  {
  }

  /** The card body. */
  datatype Panel = ConfirmedPanel | ExpiredPanel | DeclinedNotice | WaitingNotice

  /** The body by status: confirmation or expiry panel when approved, the
      "declined by admin" notice when rejected, "Waiting for approval..." otherwise. */
  function StatusPanel(status: Option<string>, expired: bool): (p: Panel)
    ensures p == ConfirmedPanel <==> StatusOf(status) == Approved && !expired
    ensures p == ExpiredPanel <==> StatusOf(status) == Approved && expired
    ensures p == DeclinedNotice <==> StatusOf(status) == Rejected
    ensures p == WaitingNotice <==> StatusOf(status) == Pending || StatusOf(status).Unknown?
  {
    var s := UpperOpt(status);
    if s == Some("APPROVED") then (if expired then ExpiredPanel else ConfirmedPanel)
    else if s == Some("REJECTED") then DeclinedNotice
    else WaitingNotice
  }

  /** What an approved card offers below its panel. */
  datatype TicketAction = ViewTicketButton | NoLongerValidNotice | NoTicketAction

  /** "View Digital Ticket" only for an approved, unexpired registration; the
      "no longer valid" notice for an approved, expired one. */
  function TicketOffer(status: Option<string>, expired: bool): (a: TicketAction)
    ensures a == ViewTicketButton <==> StatusOf(status) == Approved && !expired
    ensures a == NoLongerValidNotice <==> StatusOf(status) == Approved && expired
  {
    if UpperOpt(status) == Some("APPROVED") then
      (if expired then NoLongerValidNotice else ViewTicketButton)
    else NoTicketAction
  }

  /** The ticket action is consistent with the header: a viewable ticket is
      always under a green "APPROVED" header. */
  lemma ViewableTicketIsGreen(status: Option<string>, expired: bool)
    requires TicketOffer(status, expired) == ViewTicketButton
    ensures HeaderTone(status, expired) == Green
    ensures HeaderLabel(status, expired) == Some("APPROVED")
  {
  }

  /** The card title: `eventDetails.title || "Untitled Event"`. */
  function CardTitle(reg: Registration): (title: string)
    ensures Truthy(EventOf(reg.event).title) ==> title == EventOf(reg.event).title.value
    ensures !Truthy(EventOf(reg.event).title) ==> title == "Untitled Event"
  {
    Or(EventOf(reg.event).title, "Untitled Event")
  }

  /** `selectedTicket._id.slice(-8).toUpperCase()` */
  function RegId(id: string): (r: string)
    ensures |r| == if |id| < 8 then |id| else 8
    ensures r == Upper(id[|id| - |r|..])
  {
    Upper(Last(id, 8))
  }

  /** `selectedTicket.name || "Guest"` */
  function Attendee(reg: Registration): (name: string)
    ensures name != ""
    ensures Truthy(reg.name) ==> name == reg.name.value
    ensures !Truthy(reg.name) ==> name == "Guest"
  {
    Or(reg.name, "Guest")
  }

  /** The page's state: the fetched registrations, the loading flag and the
      registration whose ticket modal is open. */
  class MyEventsPage {
    var events: seq<Registration>
    var loading: bool
    var selectedTicket: Option<Registration>

    constructor ()
      ensures events == [] && loading && selectedTicket == None
    {
      events := [];
      loading := true;
      selectedTicket := None;
    }

    /** The fetch settles: its rows on success, the empty list kept on failure;
        loading ends either way. */
    method Fetched(outcome: Outcome, rows: seq<Registration>)
      modifies this
      ensures events == if outcome == Succeeded then rows else old(events)
      ensures !loading && selectedTicket == old(selectedTicket)
    {
      if outcome == Succeeded {
        events := rows;
      }
      loading := false;
    }

    /** "View Digital Ticket": the button exists only on an approved card whose
        event has not ended. */
    method ViewTicket(reg: Registration, now: int, parse: string -> EventDate)
      requires TicketOffer(reg.status, RegistrationExpired(reg, now, parse)) == ViewTicketButton
      modifies this
      ensures selectedTicket == Some(reg)
      ensures events == old(events) && loading == old(loading)
    {
      selectedTicket := Some(reg);
    }

    /** The modal's close button. */
    method CloseTicket()
      modifies this
      ensures selectedTicket == None
      ensures events == old(events) && loading == old(loading)
    {
      selectedTicket := None;
    }
  }
}
