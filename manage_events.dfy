/** The admin "manage events" page: deleting an event from the list, the
    edit modal with its image preview, the date truncation in its date field
    and the multipart payload of an update. */
module ManageEvents {
  import opened Common
  import opened Records

  /** A file picked in the modal's file input (compared by identity only). */
  datatype FileRef = FileRef(handle: nat)

  /** `editingEvent`: the event being edited, plus the `imageFile` the file
      input adds to it. */
  datatype Draft = Draft(event: Event, imageFile: Option<FileRef>)

  /** A FormData entry's value: text, or a file. */
  datatype FormValue = Text(text: string) | File(file: FileRef)

  /** `events.filter((e) => e._id !== id)`; `id` is `event._id`, possibly missing. */
  function DeleteEvents(events: seq<Event>, id: Option<string>): (r: seq<Event>)
    ensures forall x :: multiset(r)[x] == if x.id != id then multiset(events)[x] else 0
    ensures IsSubsequence(r, events)
    ensures forall k :: 0 <= k < |r| ==> r[k].id != id
  {
    var r := Filter(events, (e: Event) => e.id != id);
    forall k | 0 <= k < |r|
      ensures r[k].id != id
    {
      assert r[k] in multiset(r);
    }
    r
  }

  /** Deleting an id no event carries leaves the list as it is. */
  lemma DeleteAbsentKeepsAll(events: seq<Event>, id: Option<string>)
    requires forall k :: 0 <= k < |events| ==> events[k].id != id
    ensures DeleteEvents(events, id) == events
  {
    FilterKeepsAll(events, (e: Event) => e.id != id);
  }

  /** `editingEvent.date.split("T")[0]`; `None` when the event has no date, where
      the call on `undefined` throws while rendering. */
  function DateFieldValue(date: Option<string>): (v: Option<string>)
    ensures v.Some? <==> date.Some?
    ensures v.Some? ==> StartsWith(date.value, v.value) && 'T' !in v.value
    ensures v.Some? && |v.value| < |date.value| ==> date.value[|v.value|] == 'T'
  {
    if date.Some? then Some(BeforeFirst(date.value, 'T')) else None
  }

  /** The field shows a date the input itself produced (no "T") unchanged, and
      truncating twice is truncating once. */
  lemma DateFieldStable(s: string)
    ensures 'T' !in s ==> DateFieldValue(Some(s)) == Some(s)
    ensures DateFieldValue(DateFieldValue(Some(s))) == DateFieldValue(Some(s))
  {
    NoSeparatorKept(s);
    NoSeparatorKept(BeforeFirst(s, 'T'));
  }

  /** A string without a "T" is its own first part. */
  lemma NoSeparatorKept(s: string)
    ensures 'T' !in s ==> BeforeFirst(s, 'T') == s
  {
  }

  /** `handleUpdate`'s FormData: title, category and date, each as its text
      (a missing one as "undefined"), then the image only when a file was chosen. */
  method UpdatePayload(draft: Draft) returns (form: seq<(string, FormValue)>)
    ensures |form| == if draft.imageFile.Some? then 4 else 3
    ensures form[0] == ("title", Text(ToText(draft.event.title)))
    ensures form[1] == ("category", Text(ToText(draft.event.category)))
    ensures form[2] == ("date", Text(ToText(draft.event.date)))
    ensures draft.imageFile.Some? ==> form[3] == ("image", File(draft.imageFile.value))
    ensures (exists k :: 0 <= k < |form| && form[k].0 == "image") <==> draft.imageFile.Some?
  {
    form := [];
    form := form + [("title", Text(ToText(draft.event.title)))];
    form := form + [("category", Text(ToText(draft.event.category)))];
    form := form + [("date", Text(ToText(draft.event.date)))];
    if draft.imageFile.Some? {
      form := form + [("image", File(draft.imageFile.value))];
    }
  }

  /** `event.image || null`: the preview the editor opens with. */
  function InitialPreview(e: Event): (p: Option<string>)
    ensures Truthy(e.image) ==> p == e.image
    ensures !Truthy(e.image) ==> p == None
  {
    if Truthy(e.image) then e.image else None
  }

  /** The page's state. */
  class ManageEventsPage {
    var events: seq<Event>
    var loading: bool
    var editing: Option<Draft>
    var preview: Option<string>

    constructor ()
      ensures events == [] && loading && editing == None && preview == None
    {
      events := [];
      loading := true;
      editing := None;
      preview := None;
    }

    /** `fetchEvents`: the list is replaced on success and kept on failure;
        loading ends either way. */
    method Fetched(outcome: Outcome, rows: seq<Event>)
      modifies this
      ensures events == if outcome == Succeeded then rows else old(events)
      ensures !loading && editing == old(editing) && preview == old(preview)
    {
      if outcome == Succeeded {
        events := rows;
      }
      loading := false;
    }

    /** `handleDelete`: a declined confirmation sends nothing; a successful
        request removes the events carrying that id. */
    method Delete(id: Option<string>, confirmed: bool, outcome: Outcome) returns (sent: bool)
      modifies this
      ensures sent == confirmed
      ensures events == if confirmed && outcome == Succeeded then DeleteEvents(old(events), id)
                        else old(events)
      ensures loading == old(loading) && editing == old(editing) && preview == old(preview)
    {
      sent := confirmed;
      if confirmed && outcome == Succeeded {
        events := DeleteEvents(events, id);
      }
    }

    /** The edit button of a row. */
    method OpenEditor(e: Event)
      modifies this
      ensures editing == Some(Draft(e, None))
      ensures preview == InitialPreview(e)
      ensures events == old(events) && loading == old(loading)
    {
      editing := Some(Draft(e, None));
      preview := InitialPreview(e);
    }

    /** Typing into the title, category or date input. */
    method EditTitle(value: string)
      requires editing.Some?
      modifies this
      ensures editing == Some(old(editing).value.(event := old(editing).value.event.(title := Some(value))))
      ensures events == old(events) && loading == old(loading) && preview == old(preview)
    {
      editing := Some(editing.value.(event := editing.value.event.(title := Some(value))));
    }

    method EditCategory(value: string)
      requires editing.Some?
      modifies this
      ensures editing == Some(old(editing).value.(event := old(editing).value.event.(category := Some(value))))
      ensures events == old(events) && loading == old(loading) && preview == old(preview)
    {
      editing := Some(editing.value.(event := editing.value.event.(category := Some(value))));
    }

    method EditDate(value: string)
      requires editing.Some?
      modifies this
      ensures editing == Some(old(editing).value.(event := old(editing).value.event.(date := Some(value))))
      ensures events == old(events) && loading == old(loading) && preview == old(preview)
    {
      editing := Some(editing.value.(event := editing.value.event.(date := Some(value))));
    }

    /** The file input: the draft records the file and the preview shows its
        object URL. */
    method ChooseImage(file: FileRef, objectUrl: string)
      requires editing.Some?
      modifies this
      ensures editing == Some(old(editing).value.(imageFile := Some(file)))
      ensures preview == Some(objectUrl)
      ensures events == old(events) && loading == old(loading)
    {
      editing := Some(editing.value.(imageFile := Some(file)));
      preview := Some(objectUrl);
    }

    /** The Cancel button closes the modal but leaves the preview as it was. */
    method CancelEdit()
      modifies this
      ensures editing == None
      ensures preview == old(preview) && events == old(events) && loading == old(loading)
    {
      editing := None;
    }

    /** `handleUpdate` after its request: success closes the editor and clears
        the preview (the list is then refetched); failure changes nothing. */
    method FinishUpdate(outcome: Outcome)
      modifies this
      ensures outcome == Succeeded ==> editing == None && preview == None
      ensures outcome == Failed ==> editing == old(editing) && preview == old(preview)
      ensures events == old(events) && loading == old(loading)
    {
      if outcome == Succeeded {
        editing := None;
        preview := None;
      }
    }
  }
}
