/** The user's profile page: profile strength, the registration cards with
    their badge, style and ticket button, the ticket modal, and the handlers
    that save the profile and upload an avatar. */
module Profile {
  import opened Common
  import opened Records
  import opened Expiry

  /** The profile fields the page reads from `user`. */
  datatype User = User(
    name: Option<string>,
    email: Option<string>,
    phone: Option<string>,
    bio: Option<string>,
    address: Option<string>,
    avatar: Option<string>)

  // ---------------------------------------------------------------------
  // Profile strength

  /** `[user?.name, user?.email, user?.phone, user?.bio, user?.address, user?.avatar]` */
  function ProgressFields(user: Option<User>): (fields: seq<Option<string>>)
    ensures |fields| == 6
  {
    match user
    case None => [None, None, None, None, None, None]
    case Some(u) => [u.name, u.email, u.phone, u.bio, u.address, u.avatar]
  }

  /** `fields.filter(Boolean).length` */
  function FilledCount(fields: seq<Option<string>>): (k: nat)
    ensures k <= |fields|
  {
    if fields == [] then 0
    else (if Truthy(fields[0]) then 1 else 0) + FilledCount(fields[1..])
  }

  /** `r == Math.round(num / den)`: `r` is the nearest integer to the quotient,
      halves rounding up. */
  predicate RoundsTo(num: int, den: int, r: int)
    requires den > 0
  {
    2 * den * r - den <= 2 * num < 2 * den * r + den
  }

  /** `calculateProgress`: the percentage of the six fields that are filled, rounded. */
  function CalculateProgress(user: Option<User>): (p: int)
    ensures 0 <= p <= 100
    ensures RoundsTo(100 * FilledCount(ProgressFields(user)), 6, p)
  {
    var k := FilledCount(ProgressFields(user));
    (100 * k + 3) / 6
  }

  lemma {:induction false} FilledCountZeroIff(fields: seq<Option<string>>)
    ensures FilledCount(fields) == 0 <==> forall i :: 0 <= i < |fields| ==> !Truthy(fields[i])
  {
    if fields != [] {
      FilledCountZeroIff(fields[1..]);
      assert forall i :: 1 <= i < |fields| ==> fields[i] == fields[1..][i - 1];
    }
  }

  lemma {:induction false} FilledCountFullIff(fields: seq<Option<string>>)
    ensures FilledCount(fields) == |fields| <==> forall i :: 0 <= i < |fields| ==> Truthy(fields[i])
  {
    if fields != [] {
      FilledCountFullIff(fields[1..]);
      assert forall i :: 1 <= i < |fields| ==> fields[i] == fields[1..][i - 1];
    }
  }

  /** Pointwise more filled fields never give a smaller count, and a field
      filled only in `more` makes it strictly larger. */
  lemma {:induction false} FilledCountMonotone(fewer: seq<Option<string>>, more: seq<Option<string>>)
    requires |fewer| == |more|
    requires forall i :: 0 <= i < |fewer| && Truthy(fewer[i]) ==> Truthy(more[i])
    ensures FilledCount(fewer) <= FilledCount(more)
    ensures (exists i :: 0 <= i < |fewer| && !Truthy(fewer[i]) && Truthy(more[i])) ==>
              FilledCount(fewer) < FilledCount(more)
  {
    if fewer != [] {
      assert forall i :: 1 <= i < |fewer| ==> fewer[i] == fewer[1..][i - 1] && more[i] == more[1..][i - 1];
      FilledCountMonotone(fewer[1..], more[1..]);
      if exists i :: 0 <= i < |fewer| && !Truthy(fewer[i]) && Truthy(more[i]) {
        var i :| 0 <= i < |fewer| && !Truthy(fewer[i]) && Truthy(more[i]);
        if i > 0 {
          assert !Truthy(fewer[1..][i - 1]) && Truthy(more[1..][i - 1]);
        }
      }
    }
  }

  /** Profile strength is 0% exactly when none of the six fields is filled. */
  lemma ProgressZeroIffEmpty(user: Option<User>)
    ensures CalculateProgress(user) == 0 <==>
              forall i :: 0 <= i < 6 ==> !Truthy(ProgressFields(user)[i])
  {
    FilledCountZeroIff(ProgressFields(user));
  }

  /** Profile strength is 100% exactly when all six fields are filled. */
  lemma ProgressFullIffComplete(user: Option<User>)
    ensures CalculateProgress(user) == 100 <==>
              forall i :: 0 <= i < 6 ==> Truthy(ProgressFields(user)[i])
  {
    FilledCountFullIff(ProgressFields(user));
  }

  /** Filling more fields never lowers the profile strength, and filling one
      more field raises it. */
  lemma ProgressMonotone(before: Option<User>, after: Option<User>)
    requires forall i :: 0 <= i < 6 && Truthy(ProgressFields(before)[i]) ==> Truthy(ProgressFields(after)[i])
    ensures CalculateProgress(before) <= CalculateProgress(after)
    ensures (exists i :: 0 <= i < 6 && !Truthy(ProgressFields(before)[i]) && Truthy(ProgressFields(after)[i])) ==>
              CalculateProgress(before) < CalculateProgress(after)
  {
    FilledCountMonotone(ProgressFields(before), ProgressFields(after));
  }

  // ---------------------------------------------------------------------
  // Registration cards

  /** `getStatusStyle(status, eventDate)` */
  function StatusStyle(status: Option<string>, now: int, date: EventDate): (t: Tone)
    ensures t == Grey <==> IsExpired(now, date) && StatusOf(status) == Approved
    ensures t == Green <==> !IsExpired(now, date) && StatusOf(status) == Approved
    ensures t == Yellow <==> StatusOf(status) == Pending
    ensures t == Red <==> StatusOf(status).Rejected? || StatusOf(status).Unknown?
  {
    LowerStatusMatch(status);
    if IsExpired(now, date) && LowerOpt(status) == Some("approved") then Grey
    else
      var s := LowerOpt(status);
      if s == Some("approved") then Green
      else if s == Some("pending") then Yellow
      else Red
  }

  /** The badge text: "Expired" replaces the raw status, and only the exact
      lower-case "approved" on an expired event. */
  function BadgeLabel(status: Option<string>, expired: bool): (text: Option<string>)
    ensures text == status || text == Some("Expired")
    ensures text != status <==> expired && status == Some("approved")
  {
    if expired && status == Some("approved") then Some("Expired") else status
  }

  /** The ticket button: present only for approved registrations (any case),
      reading "Event Ended" once the event is expired. */
  function TicketButton(status: Option<string>, expired: bool): (text: Option<string>)
    ensures text.Some? <==> StatusOf(status) == Approved
    ensures text == Some("Event Ended") <==> StatusOf(status) == Approved && expired
    ensures text == Some("View Ticket") <==> StatusOf(status) == Approved && !expired
  {
    LowerStatusMatch(status);
    if LowerOpt(status) == Some("approved") then
      Some(if expired then "Event Ended" else "View Ticket")
    else None
  }

  /** The two spellings disagree: an upper-case "APPROVED" registration on an
      expired event is styled grey, but its badge still reads "APPROVED". */
  lemma UpperCaseApprovedKeepsRawBadge(now: int, day: int)
    requires now > DayEnd(day)
    ensures StatusStyle(Some("APPROVED"), now, OnDay(day)) == Grey
    ensures BadgeLabel(Some("APPROVED"), IsExpired(now, OnDay(day))) == Some("APPROVED")
    ensures TicketButton(Some("APPROVED"), IsExpired(now, OnDay(day))) == Some("Event Ended")
  {
    UpperStatusWords();
  }

  // ---------------------------------------------------------------------
  // Ticket modal

  /** What the ticket modal shows for the selected registration. */
  datatype TicketModal = TicketModal(
    expiredOverlay: bool,
    ticketNumber: string,
    attendee: Option<string>,
    printOffered: bool)

  /** `_id.slice(-6).toUpperCase()` */
  function TicketNumber(id: string): (n: string)
    ensures |n| == if |id| < 6 then |id| else 6
    ensures n == Upper(id[|id| - |n|..])
  {
    Upper(Last(id, 6))
  }

  /** The modal of `selectedTicket`; "Print Ticket" is offered only for an
      event that is not expired. */
  function Modal(ticket: Registration, user: User, now: int, parse: string -> EventDate): (m: TicketModal)
    ensures m.expiredOverlay == IsExpired(now, LocalDay(EventOf(ticket.event).date, parse))
    ensures m.printOffered <==> !m.expiredOverlay
    ensures m.ticketNumber == TicketNumber(ticket.id)
    ensures m.attendee == user.name
  {
    var expired := IsExpired(now, LocalDay(EventOf(ticket.event).date, parse));
    TicketModal(expired, TicketNumber(ticket.id), user.name, !expired)
  }

  /** A ticket whose event is today can still be printed. */
  lemma PrintOfferedOnEventDay(ticket: Registration, user: User, now: int, parse: string -> EventDate, day: int)
    requires LocalDay(EventOf(ticket.event).date, parse) == OnDay(day)
    requires DayStart(day) <= now <= DayEnd(day)
    ensures Modal(ticket, user, now, parse).printOffered
  {
  }

  // ---------------------------------------------------------------------
  // Component state

  /** `{ ...user, avatar }`: spreading a missing user gives an object with only an avatar. */
  function WithAvatar(user: Option<User>, avatar: Option<string>): (u: User)
    ensures u.avatar == avatar
    ensures user.Some? ==> u == user.value.(avatar := avatar)
    ensures user.None? ==> u == User(None, None, None, None, None, avatar)
  {
    match user
    case None => User(None, None, None, None, None, avatar)
    case Some(v) => v.(avatar := avatar)
  }

  /** A successful upload of a non-empty avatar path never lowers the profile strength. */
  lemma UploadNeverLowersProgress(user: Option<User>, avatar: Option<string>)
    requires Truthy(avatar)
    ensures CalculateProgress(user) <= CalculateProgress(Some(WithAvatar(user, avatar)))
  {
    ProgressMonotone(user, Some(WithAvatar(user, avatar)));
  }

  /** The profile page's own state: `user`, `editing`, `uploading` and
      `selectedTicket`. */
  class ProfilePage {
    var user: Option<User>
    var editing: bool
    var uploading: bool
    var selectedTicket: Option<Registration>

    constructor ()
      ensures user == None && !editing && !uploading && selectedTicket == None
    {
      user := None;
      editing := false;
      uploading := false;
      selectedTicket := None;
    }

    /** The fetched profile arrives. */
    method Loaded(fetched: User)
      modifies this
      ensures user == Some(fetched)
      ensures editing == old(editing) && uploading == old(uploading) && selectedTicket == old(selectedTicket)
    {
      user := Some(fetched);
    }

    /** The "Edit Profile" / "Save Changes" button: it starts editing, or, while
        editing, saves; `saved` is the profile the server answers with. */
    method PressEditButton(outcome: Outcome, saved: User)
      modifies this
      ensures !old(editing) ==> editing && user == old(user)
      ensures old(editing) && outcome == Succeeded ==> !editing && user == Some(saved)
      ensures old(editing) && outcome == Failed ==> editing && user == old(user)
      ensures uploading == old(uploading) && selectedTicket == old(selectedTicket)
    {
      if !editing {
        editing := true;
      } else if outcome == Succeeded {
        user := Some(saved);
        editing := false;
      }
    }

    /** `handlePhotoUpload` up to its request: nothing happens without a file. */
    method BeginUpload(fileChosen: bool) returns (sent: bool)
      modifies this
      ensures sent == fileChosen
      ensures uploading == (fileChosen || old(uploading))
      ensures user == old(user) && editing == old(editing) && selectedTicket == old(selectedTicket)
    {
      sent := fileChosen;
      if fileChosen {
        uploading := true;
      }
    }

    /** `handlePhotoUpload` after its request: the avatar is replaced on success
        and `uploading` is cleared either way. */
    method FinishUpload(outcome: Outcome, avatar: Option<string>)
      modifies this
      ensures user == if outcome == Succeeded then Some(WithAvatar(old(user), avatar)) else old(user)
      ensures !uploading
      ensures editing == old(editing) && selectedTicket == old(selectedTicket)
    {
      if outcome == Succeeded {
        user := Some(WithAvatar(user, avatar));
      }
      uploading := false;
    }

    /** The ticket button opens the modal, also when it reads "Event Ended". */
    method OpenTicket(reg: Registration)
      requires StatusOf(reg.status) == Approved
      modifies this
      ensures selectedTicket == Some(reg)
      ensures user == old(user) && editing == old(editing) && uploading == old(uploading)
    {
      selectedTicket := Some(reg);
    }

    /** The modal's close button. */
    method CloseTicket()
      modifies this
      ensures selectedTicket == None
      ensures user == old(user) && editing == old(editing) && uploading == old(uploading)
    {
      selectedTicket := None;
    }
  }
}
