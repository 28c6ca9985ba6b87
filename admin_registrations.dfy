/** The admin registration queue: approve / reject a registration, the local
    row update after success, the `loadingId` lifecycle, the status badge and
    the rules that enable the buttons in the desktop table and mobile cards. */
module AdminRegistrations {
  import opened Common
  import opened Records

  /** The two actions the buttons pass to `updateRegistrationStatus`. */
  datatype Action = Approve | Reject

  /** `apiMap[action]` */
  function ApiSegment(action: Action): (seg: string)
    ensures seg == "approve" <==> action == Approve
    ensures seg == "reject" <==> action == Reject
  {
    match action
    case Approve => "approve"
    case Reject => "reject"
  }

  /** `statusMap[action]` */
  function NewStatus(action: Action): (s: string)
    ensures Upper(s) == s
    ensures StatusOf(Some(s)) == if action == Approve then Approved else Rejected
  {
    UpperStatusWords();
    match action
    case Approve => "APPROVED"
    case Reject => "REJECTED"
  }

  /** The URL of the PUT request. */
  function Endpoint(action: Action, id: string): (url: string)
    ensures StartsWith(url, BASE_URL + "/registrations/")
    ensures StartsWith(url, BASE_URL + "/registrations/" + ApiSegment(action) + "/")
    ensures EndsWith(url, "/" + id)
  {
    var prefix := BASE_URL + "/registrations/";
    var head := prefix + ApiSegment(action) + "/";
    var url := head + id;
    assert url[..|prefix|] == prefix;
    assert url[..|head|] == head;
    assert url[|url| - |"/" + id|..] == "/" + id;
    url
  }

  /** The status an action writes is one the queue then recognises: APPROVE
      gives an approved row, REJECT a rejected one, and neither leaves it
      pending; each goes to its own endpoint. */
  lemma ActionMapsAgree(action: Action)
    ensures StatusOf(Some(NewStatus(action))) == if action == Approve then Approved else Rejected
    ensures forall id :: Endpoint(Approve, id) != Endpoint(Reject, id)
  {
    forall id
      ensures Endpoint(Approve, id) != Endpoint(Reject, id)
    {
      var k := |BASE_URL + "/registrations/"|;
      assert Endpoint(Approve, id)[k + 1] == 'p';
      assert Endpoint(Reject, id)[k + 1] == 'e';
    }
  }

  /** `prev.map(r => r._id === id ? { ...r, status } : r)`: every row whose
      `_id` matches gets the new status; nothing else changes. */
  function SetStatus(rows: seq<Registration>, id: string, status: string): (r: seq<Registration>)
    ensures |r| == |rows|
    ensures forall i :: 0 <= i < |rows| ==> r[i].(status := rows[i].status) == rows[i]
    ensures forall i :: 0 <= i < |rows| && rows[i].id == id ==> r[i].status == Some(status)
    ensures forall i :: 0 <= i < |rows| && rows[i].id != id ==> r[i] == rows[i]
  {
    seq(|rows|, i requires 0 <= i < |rows| => if rows[i].id == id then rows[i].(status := Some(status)) else rows[i])
  }

  /** Repeating the same update changes nothing more. */
  lemma SetStatusIdempotent(rows: seq<Registration>, id: string, status: string)
    ensures SetStatus(SetStatus(rows, id, status), id, status) == SetStatus(rows, id, status)
  {
    var once := SetStatus(rows, id, status);
    var twice := SetStatus(once, id, status);
    forall i | 0 <= i < |rows|
      ensures twice[i] == once[i]
    {
      assert once[i].id == rows[i].id;
    }
  }

  /** Desktop table: the buttons of a row are enabled when it is pending and is
      not the row whose request is in flight. */
  predicate DesktopEnabled(reg: Registration, loadingId: Option<string>): (b: bool)
    ensures b ==> StatusOf(reg.status) == Pending && loadingId != Some(reg.id)
    ensures loadingId.None? ==> (b <==> StatusOf(reg.status) == Pending)
  {
    IsPending(reg) && loadingId != Some(reg.id)
  }

  /** Mobile cards: `disabled={loadingId || !isPending}`, so any in-flight
      request with a non-empty id disables every card. */
  predicate MobileEnabled(reg: Registration, loadingId: Option<string>): (b: bool)
    ensures b ==> StatusOf(reg.status) == Pending && (loadingId.None? || loadingId == Some(""))
    ensures loadingId.None? ==> (b <==> StatusOf(reg.status) == Pending)
  {
    IsPending(reg) && !Truthy(loadingId)
  }

  /** Mobile cards are at least as strict as the desktop table (for non-empty ids). */
  lemma MobileStricterThanDesktop(reg: Registration, loadingId: Option<string>)
    requires loadingId != Some("")
    ensures MobileEnabled(reg, loadingId) ==> DesktopEnabled(reg, loadingId)
  {
  }

  /** While a request is in flight, the desktop table still enables the other
      pending rows, whereas the mobile cards enable none. */
  lemma InFlightGating(reg: Registration, loading: string)
    requires loading != "" && loading != reg.id && IsPending(reg)
    ensures DesktopEnabled(reg, Some(loading))
    ensures !MobileEnabled(reg, Some(loading))
  {
  }

  /** After a successful update the changed rows are no longer pending, so their
      buttons are disabled on both layouts. */
  lemma UpdatedRowsLocked(rows: seq<Registration>, id: string, action: Action, i: int, loadingId: Option<string>)
    requires 0 <= i < |rows| && rows[i].id == id
    ensures !DesktopEnabled(SetStatus(rows, id, NewStatus(action))[i], loadingId)
    ensures !MobileEnabled(SetStatus(rows, id, NewStatus(action))[i], loadingId)
  {
    ActionMapsAgree(action);
  }

  /** `getStatusBadge(status)`: case-insensitive, grey for anything else. */
  function StatusBadge(status: Option<string>): (t: Tone)
    ensures t == Yellow <==> StatusOf(status) == Pending
    ensures t == Green <==> StatusOf(status) == Approved
    ensures t == Red <==> StatusOf(status) == Rejected
    ensures t == Grey <==> StatusOf(status).Unknown?
  {
    var s := UpperOpt(status);
    if s == Some("PENDING") then Yellow
    else if s == Some("APPROVED") then Green
    else if s == Some("REJECTED") then Red
    else Grey
  }

  /** Two spellings that differ only in ASCII case get the same badge. */
  lemma BadgeIgnoresCase(a: string, b: string)
    requires Upper(a) == Upper(b)
    ensures StatusBadge(Some(a)) == StatusBadge(Some(b))
  {
  }

  /** `reg.status || "UNKNOWN"` in the desktop table. */
  function StatusText(status: Option<string>): (text: string)
    ensures !Truthy(status) ==> text == "UNKNOWN"
    ensures Truthy(status) ==> text == status.value
    ensures text != ""
  {
    Or(status, "UNKNOWN")
  }

  /** The queue page's state: the rows and the id of the request in flight. */
  class Queue {
    var registrations: seq<Registration>
    var loadingId: Option<string>

    constructor ()
      ensures registrations == [] && loadingId == None
    {
      registrations := [];
      loadingId := None;
    }

    /** `fetchRegistrations`: the queue is replaced on success and kept on failure. */
    method Fetched(outcome: Outcome, rows: seq<Registration>)
      modifies this
      ensures registrations == if outcome == Succeeded then rows else old(registrations)
      ensures loadingId == old(loadingId)
    {
      if outcome == Succeeded {
        registrations := rows;
      }
    }

    /** `updateRegistrationStatus` up to its request: a declined confirmation
        sends nothing and changes nothing. */
    method BeginUpdate(id: string, action: Action, confirmed: bool) returns (sent: bool)
      modifies this
      ensures sent == confirmed
      ensures loadingId == if confirmed then Some(id) else old(loadingId)
      ensures registrations == old(registrations)
    {
      sent := confirmed;
      if confirmed {
        loadingId := Some(id);
      }
    }

    /** `updateRegistrationStatus` after its request: the rows are rewritten on
        success, and `loadingId` is cleared either way. */
    method FinishUpdate(id: string, action: Action, outcome: Outcome)
      modifies this
      ensures registrations == if outcome == Succeeded then SetStatus(old(registrations), id, NewStatus(action))
                               else old(registrations)
      ensures loadingId == None
    {
      if outcome == Succeeded {
        registrations := SetStatus(registrations, id, NewStatus(action));
      }
      loadingId := None;
    }
  }
}
