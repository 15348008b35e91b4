/**
 * The lawyer's case notebook: a title/content form, a loading flag while a note
 * is being created, and the list of notes loaded from the backend. Backend
 * calls are recorded as requests; their outcomes arrive as separate steps.
 */
module CaseNotebook {
  import opened Wrappers
  import opened JsText

  /** A stored note as the list endpoint returns it. */
  datatype Note = Note(id: string, title: string, content: string)

  /** The body of a create request. */
  datatype NoteDraft = NoteDraft(title: string, content: string)

  /** The two backend calls the page makes. */
  datatype Request = ListNotes | CreateNote(draft: NoteDraft)

  const FillAllFields := "Fill all fields"

  /** `if (!title || !content)`: both fields must be non-empty strings. Only the
      empty string is refused; whitespace is not trimmed. */
  predicate AcceptsDraft(title: string, content: string) {
    Truthy(title) && Truthy(content)
  }

  /** The notebook guard is weaker than the chat guard: a title made only of
      spaces passes it although it is blank. */
  lemma WhitespaceTitlePasses()
    ensures AcceptsDraft(" ", "x") && IsBlank(" ")
  {
    assert TrimStart(" ") == TrimStart(" "[1..]);
  }

  class NotebookPage {
    var notes: seq<Note>
    var title: string
    var content: string
    var loading: bool
    /** The create request awaiting its outcome, if any. */
    var inFlight: Option<NoteDraft>
    /** List requests whose outcome has not arrived yet. */
    var pendingFetches: nat
    /** Every backend request issued, oldest first. */
    var requests: seq<Request>
    /** Alerts shown, oldest first. */
    var alerts: seq<string>

    ghost predicate Valid()
      reads this
    {
      (loading <==> inFlight.Some?)
    }

    /** Empty list and form, not loading; mounting issues the first list request. */
    constructor()
      ensures notes == [] && title == "" && content == "" && !loading && inFlight == None
      ensures requests == [ListNotes] && pendingFetches == 1 && alerts == []
      ensures Valid()
    {
      notes := [];
      title := "";
      content := "";
      loading := false;
      inFlight := None;
      pendingFetches := 1;
      requests := [ListNotes];
      alerts := [];
    }

    method EditTitle(value: string)
      modifies this
      ensures title == value && content == old(content) && notes == old(notes)
      ensures loading == old(loading) && inFlight == old(inFlight) && pendingFetches == old(pendingFetches)
      ensures requests == old(requests) && alerts == old(alerts)
    {
      title := value;
    }

    method EditContent(value: string)
      modifies this
      ensures content == value && title == old(title) && notes == old(notes)
      ensures loading == old(loading) && inFlight == old(inFlight) && pendingFetches == old(pendingFetches)
      ensures requests == old(requests) && alerts == old(alerts)
    {
      content := value;
    }

    /** "Add Note", clickable only while not loading (`disabled={loading}`): an
        empty field only alerts; otherwise a create request with exactly the two
        fields is sent and the page is loading until it settles. */
    method ClickAdd()
      requires Valid() && !loading
      modifies this
      ensures Valid()
      ensures title == old(title) && content == old(content) && notes == old(notes)
      ensures pendingFetches == old(pendingFetches)
      ensures !AcceptsDraft(title, content) ==>
                && !loading && inFlight == None
                && requests == old(requests) && alerts == old(alerts) + [FillAllFields]
      ensures AcceptsDraft(title, content) ==>
                && loading && inFlight == Some(NoteDraft(title, content))
                && requests == old(requests) + [CreateNote(NoteDraft(title, content))]
                && alerts == old(alerts)
    {
      if !AcceptsDraft(title, content) {
        alerts := alerts + [FillAllFields];
        return;
      }
      loading := true;
      inFlight := Some(NoteDraft(title, content));
      requests := requests + [CreateNote(NoteDraft(title, content))];
    }

    /** The create request settles. Success clears both fields and issues a list
        request; failure keeps the fields and alerts the error message. Either
        way loading ends. */
    method CreateSettled(outcome: Result<()>)
      requires Valid() && loading
      modifies this
      ensures Valid() && !loading && inFlight == None
      ensures notes == old(notes)
      ensures outcome.Ok? ==>
                && title == "" && content == ""
                && requests == old(requests) + [ListNotes] && pendingFetches == old(pendingFetches) + 1
                && alerts == old(alerts)
      ensures outcome.Err? ==>
                && title == old(title) && content == old(content)
                && requests == old(requests) && pendingFetches == old(pendingFetches)
                && alerts == old(alerts) + [outcome.message]
    {
      match outcome {
        case Ok(_) =>
          title := "";
          content := "";
          requests := requests + [ListNotes];
          pendingFetches := pendingFetches + 1;
        case Err(message) =>
          alerts := alerts + [message];
      }
      loading := false;
      inFlight := None;
    }

    /** A list request settles: success replaces the notes wholesale, failure
        (only logged to the console) leaves them as they were. */
    method FetchSettled(result: Result<seq<Note>>)
      requires pendingFetches > 0
      modifies this
      ensures notes == (if result.Ok? then result.value else old(notes))
      ensures pendingFetches == old(pendingFetches) - 1
      ensures title == old(title) && content == old(content)
      ensures loading == old(loading) && inFlight == old(inFlight)
      ensures requests == old(requests) && alerts == old(alerts)
    {
      if result.Ok? {
        notes := result.value;
      }
      pendingFetches := pendingFetches - 1;
    }
  }
}
