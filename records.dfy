/** The records the pages receive from the remote API, as the pages read them,
    and the status vocabulary they share. */
module Records {
  import opened Common

  /** The API host every page talks to (`BASE_URL` and the literal URLs). */
  const BASE_URL: string := "https://eventmanagementserver-3qnz.onrender.com"

  /** An event object. Every field may be missing; `eventName` is the field
      EventCard destructures, which no API event is known to carry. */
  datatype Event = Event(
    id: Option<string>,
    title: Option<string>,
    name: Option<string>,
    eventName: Option<string>,
    location: Option<string>,
    category: Option<string>,
    description: Option<string>,
    date: Option<string>,
    image: Option<string>,
    imageUrl: Option<string>)

  /** The empty object `{}`. */
  const EMPTY_EVENT: Event := Event(None, None, None, None, None, None, None, None, None, None)

  /** `reg.event`: missing, an unpopulated id string, or a populated event object. */
  datatype EventRef = NoEvent | EventId(ref: string) | Populated(event: Event)

  /** A registration object: its `_id`, its raw `status`, its `event` and the
      attendee `name` typed into the registration form. */
  datatype Registration = Registration(
    id: string,
    status: Option<string>,
    event: EventRef,
    name: Option<string>)

  /** `reg.event || {}` (an id string has none of the event fields either). */
  function EventOf(ref: EventRef): (e: Event)
    ensures !ref.Populated? ==> e == EMPTY_EVENT
  {
    match ref
    case Populated(e) => e
    case _ => EMPTY_EVENT
  }

  /** A registration status after case normalisation: the three values the
      API uses, and every other value (including a missing one) kept raw. */
  datatype Status = Pending | Approved | Rejected | Unknown(raw: Option<string>)

  /** `status?.toUpperCase()` compared with "PENDING", "APPROVED" and "REJECTED". */
  function StatusOf(raw: Option<string>): (st: Status)
    ensures st.Unknown? ==> st.raw == raw
  {
    match UpperOpt(raw)
    case Some("PENDING") => Pending
    case Some("APPROVED") => Approved
    case Some("REJECTED") => Rejected
    case _ => Unknown(raw)
  }

  /** `reg.status?.toUpperCase() === "PENDING"`, the test both the admin queue
      and the user's cancel control apply. */
  predicate IsPending(reg: Registration): (b: bool)
    ensures b ==> reg.status.Some? && |reg.status.value| == 7
    ensures reg.status == Some("pending") || reg.status == Some("PENDING") ==> b
  {
    UpperStatusWords();
    StatusOf(reg.status) == Pending
  }

  /** The upper-case forms of the three status words, from either spelling. */
  lemma UpperStatusWords()
    ensures Upper("approved") == "APPROVED" && Upper("APPROVED") == "APPROVED"
    ensures Upper("pending") == "PENDING" && Upper("PENDING") == "PENDING"
    ensures Upper("rejected") == "REJECTED" && Upper("REJECTED") == "REJECTED"
  {
    assert Upper("APPROVED") == "APPROVED" by {
      assert forall i :: 0 <= i < 8 ==> Upper("APPROVED")[i] == "APPROVED"[i];
    }
    assert Upper("PENDING") == "PENDING" by {
      assert forall i :: 0 <= i < 7 ==> Upper("PENDING")[i] == "PENDING"[i];
    }
    assert Upper("REJECTED") == "REJECTED" by {
      assert forall i :: 0 <= i < 8 ==> Upper("REJECTED")[i] == "REJECTED"[i];
    }
    assert Upper("approved") == "APPROVED" by {
      assert forall i :: 0 <= i < 8 ==> Upper("approved")[i] == "APPROVED"[i];
    }
    assert Upper("pending") == "PENDING" by {
      assert forall i :: 0 <= i < 7 ==> Upper("pending")[i] == "PENDING"[i];
    }
    assert Upper("rejected") == "REJECTED" by {
      assert forall i :: 0 <= i < 8 ==> Upper("rejected")[i] == "REJECTED"[i];
    }
  }

  /** `status?.toLowerCase() === w` and `StatusOf` agree for the three status words. */
  lemma LowerStatusMatch(status: Option<string>)
    ensures LowerOpt(status) == Some("approved") <==> StatusOf(status) == Approved
    ensures LowerOpt(status) == Some("pending") <==> StatusOf(status) == Pending
    ensures LowerOpt(status) == Some("rejected") <==> StatusOf(status) == Rejected
  {
    UpperStatusWords();
    LowerOptMatchIffUpperOptMatch(status, "approved");
    LowerOptMatchIffUpperOptMatch(status, "pending");
    LowerOptMatchIffUpperOptMatch(status, "rejected");
  }

  /** The colour category of a style class string. */
  datatype Tone = Grey | Green | Yellow | Red
}
