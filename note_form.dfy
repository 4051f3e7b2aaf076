/**
 * The event handlers of the note-creation form (components/NoteForm/NoteForm.tsx):
 * field edits written into the shared draft, Cancel, the guarded submission, and
 * the two outcomes of the creation request.
 *
 * `FormState` and `Step` are the specification: one pure transition per event.
 * The class `NoteForm` holds the same state in fields and updates it in place;
 * each of its methods is proved to perform exactly the transition `Step` describes.
 */
module NoteFormHandlers {

  import opened Wrappers
  import opened NoteSchema

  /** Where a successful creation sends the user: the unfiltered note list. */
  const ListAll: string := "/notes/filter/All"

  /** The draft field a change handler writes. */
  datatype Field = Title | Content | Tag

  datatype Event =
    | Edit(field: Field, text: string)  // a change handler: setDraft with a one-field partial
    | Cancel                            // the Cancel button
    | Submit                            // the form's submit
    | Created                           // the creation request succeeded
    | CreateFailed                      // the creation request failed

  /** Observable side effects, logged in the order they happen. */
  datatype Effect =
    | InvalidateNotes        // the `['notes']` query family is marked stale
    | ClearDraft             // the store's draft is reset to its defaults
    | ResetForm              // the form's values are reset
    | Back                   // the router goes back one history entry
    | Navigate(path: string) // the router is pushed to `path`

  /**
   * The `onClose` the mounting page passes: none (the full-page create page), or
   * the list page's modal handler, which clears the draft and goes back.
   */
  datatype OnClose = NoHandler | CloseModal

  /**
   * The state the handlers act on. `defaults` is the store's empty draft, `onClose`
   * the handler the mounting page passed and `origin` the location the form was
   * opened over; none of them ever changes. `open` is whether the form is mounted;
   * `variables` the values of the latest creation request.
   */
  datatype FormState = FormState(
    defaults: Draft,
    onClose: OnClose,
    origin: string,
    draft: Draft,
    notesStale: bool,
    location: string,
    pending: bool,
    open: bool,
    variables: Option<Draft>,
    effects: seq<Effect>)

  /** A creation request in flight always carries a draft that passed validation. */
  predicate Inv(s: FormState)
  {
    s.pending ==> s.variables.Some? && DraftValid(s.variables.value)
  }

  /** The draft after a one-field partial update: last write wins for that field. */
  function Written(d: Draft, f: Field, text: string): Draft
  {
    match f
    case Title => d.(title := text)
    case Content => d.(content := text)
    case Tag => d.(tag := text)
  }

  /** What calling `onClose` does: the modal handler clears the draft and goes back. */
  function Closed(s: FormState): FormState
  {
    match s.onClose
    case NoHandler => s
    case CloseModal => s.(draft := s.defaults, location := s.origin, open := false,
                          effects := s.effects + [ClearDraft, Back])
  }

  /** The effects of `onClose`, in order. */
  function CloseEffects(h: OnClose): seq<Effect>
  {
    match h
    case NoHandler => []
    case CloseModal => [ClearDraft, Back]
  }

  /** What a successful creation does while the form is still mounted, in order. */
  function SuccessEffects(h: OnClose): seq<Effect>
  {
    [InvalidateNotes, ClearDraft, ResetForm] + CloseEffects(h) + [Navigate(ListAll)]
  }

  /**
   * One event. Form events reach the handlers only while the form is mounted.
   * The hook-level success callback (invalidation) runs for every successful
   * request; the per-call one (clear, reset, `onClose`, navigate) only while the
   * form that issued the request is still mounted. With no `onClose`, Cancel has
   * no handler; on success this function takes the guarded call `onClose?.()`,
   * the corrected path (`CreatedAsWritten` is the code as written).
   * Navigations take effect in the order they are requested.
   */
  function Step(s: FormState, e: Event): (r: FormState)
    ensures Inv(s) ==> Inv(r)
    ensures r.defaults == s.defaults && r.onClose == s.onClose && r.origin == s.origin
    ensures !e.Created? ==> r.notesStale == s.notesStale
    ensures !e.Created? && !e.Cancel? ==> r.location == s.location
    ensures r.location == s.location || r.location == s.origin || r.location == ListAll
    ensures r.draft != s.draft ==> e.Edit? || r.draft == s.defaults
    ensures e.Submit? || e.CreateFailed? ==> r.draft == s.draft
    ensures e.Cancel? && s.onClose == NoHandler ==> r == s
    ensures e.Submit? ==> (r.pending && !s.pending <==> s.open && !s.pending && DraftValid(s.draft))
    ensures s.pending && e.Submit? ==> r == s
    ensures s.notesStale ==> r.notesStale
  {
    match e
    case Edit(f, text) =>
      if s.open then s.(draft := Written(s.draft, f, text)) else s
    case Cancel =>
      if s.open then Closed(s) else s
    case Submit =>
      if s.open && !s.pending && DraftValid(s.draft)
      then s.(pending := true, variables := Some(s.draft))
      else s
    case Created =>
      if !s.pending then s
      else if !s.open then s.(pending := false, notesStale := true, effects := s.effects + [InvalidateNotes])
      else s.(pending := false, notesStale := true, draft := s.defaults, open := false,
              location := ListAll, effects := s.effects + SuccessEffects(s.onClose))
    case CreateFailed =>
      if s.pending then s.(pending := false) else s
  }

  /** A sequence of events, applied from first to last. */
  function Run(s: FormState, es: seq<Event>): (r: FormState)
    ensures Inv(s) ==> Inv(r)
    ensures r.defaults == s.defaults && r.onClose == s.onClose && r.origin == s.origin
    ensures (forall i | 0 <= i < |es| :: !es[i].Created?) ==> r.notesStale == s.notesStale
    ensures (forall i | 0 <= i < |es| :: !es[i].Created? && !es[i].Cancel?) ==> r.location == s.location
    ensures r.location == s.location || r.location == s.origin || r.location == ListAll
    ensures s.notesStale ==> r.notesStale
    decreases |es|
  {
    if es == [] then s else Run(Step(s, es[0]), es[1..])
  }

  lemma {:induction false} RunSnoc(s: FormState, es: seq<Event>, e: Event)
    ensures Run(s, es + [e]) == Step(Run(s, es), e)
    decreases |es|
  {
    if es == [] {
      assert [e][1..] == [];
    } else {
      assert (es + [e])[1..] == es[1..] + [e];
      RunSnoc(Step(s, es[0]), es[1..], e);
    }
  }

  /** The text last written to field `f` by the edits in `es`, or `init` when none wrote it. */
  function LastWrite(es: seq<Event>, f: Field, init: string): string
  {
    if es == [] then init
    else if es[|es| - 1].Edit? && es[|es| - 1].field == f then es[|es| - 1].text
    else LastWrite(es[..|es| - 1], f, init)
  }

  /**
   * Any sequence of field edits on a mounted form leaves each draft field holding
   * the last value written to it, and changes nothing but the draft.
   */
  lemma {:induction false} LastWriteWins(s: FormState, es: seq<Event>)
    requires s.open
    requires forall i | 0 <= i < |es| :: es[i].Edit?
    ensures Run(s, es) == s.(draft := Draft(
      LastWrite(es, Title, s.draft.title),
      LastWrite(es, Content, s.draft.content),
      LastWrite(es, Tag, s.draft.tag)))
    decreases |es|
  {
    if es != [] {
      var init, last := es[..|es| - 1], es[|es| - 1];
      assert init + [last] == es;
      LastWriteWins(s, init);
      RunSnoc(s, init, last);
    }
  }

  /**
   * Submission attempts and failed requests, in any number and order, never touch
   * the draft, the location or the notes cache; neither does Cancel on a page that
   * passes no `onClose`.
   */
  lemma {:induction false} DraftSurvivesSubmitsAndFailures(s: FormState, es: seq<Event>)
    requires forall i | 0 <= i < |es| ::
      es[i].Submit? || es[i].CreateFailed? || (es[i].Cancel? && s.onClose == NoHandler)
    ensures Run(s, es).draft == s.draft
    ensures Run(s, es).location == s.location && Run(s, es).notesStale == s.notesStale
    decreases |es|
  {
    if es != [] {
      DraftSurvivesSubmitsAndFailures(Step(s, es[0]), es[1..]);
    }
  }

  /**
   * Cancel on the list page's overlay calls its `onClose`: the draft is cleared,
   * the router goes back to the location under the overlay, and the form unmounts;
   * the cache and any pending request are untouched.
   */
  lemma CancelOnOverlay(s: FormState)
    requires s.open && s.onClose == CloseModal
    ensures Step(s, Cancel) == s.(draft := s.defaults, location := s.origin, open := false,
                                   effects := s.effects + [ClearDraft, Back])
  {
  }

  /**
   * A success on a mounted form: the cache is marked stale, then the draft cleared,
   * the form reset, `onClose` called (when there is one), the user sent to the
   * list; nothing remains pending.
   */
  lemma SuccessWhileMounted(s: FormState)
    requires s.pending && s.open
    ensures Step(s, Created).effects == s.effects + SuccessEffects(s.onClose)
    ensures Step(s, Created).draft == s.defaults
    ensures Step(s, Created).location == ListAll
    ensures Step(s, Created).notesStale && !Step(s, Created).pending && !Step(s, Created).open
  {
  }

  /** A failed request only ends the pending state. */
  lemma FailureKeepsDraft(s: FormState)
    requires s.pending
    ensures Step(s, CreateFailed) == s.(pending := false)
  {
  }

  /**
   * Cancelling the overlay while its request is in flight: Cancel clears the draft
   * and goes back; the later success still marks the notes stale, but unmounted,
   * it neither clears again nor navigates to the list.
   */
  lemma CancelThenSuccessOnOverlay(s: FormState)
    requires s.open && s.pending && s.onClose == CloseModal
    ensures Run(s, [Cancel, Created]).draft == s.defaults
    ensures Run(s, [Cancel, Created]).location == s.origin
    ensures Run(s, [Cancel, Created]).notesStale && !Run(s, [Cancel, Created]).pending
    ensures Run(s, [Cancel, Created]).effects == s.effects + [ClearDraft, Back, InvalidateNotes]
  {
    assert [Cancel, Created][1..] == [Created];
    assert [Created][1..] == [];
  }

  /**
   * The success outcome exactly as written: `onClose()` is called unconditionally.
   * On a page that passes no `onClose`, the call throws after the draft is cleared
   * and the form reset, so the router is never pushed and the page is not left.
   */
  function CreatedAsWritten(s: FormState): (r: FormState)
    ensures s.onClose == CloseModal ==> r == Step(s, Created)
    ensures s.pending && s.open && s.onClose == NoHandler ==>
      && r.draft == s.defaults
      && r.location == s.location
      && r.open
      && !r.pending && r.notesStale
      && r.effects == s.effects + [InvalidateNotes, ClearDraft, ResetForm]
  {
    if !s.pending then s
    else if !s.open then s.(pending := false, notesStale := true, effects := s.effects + [InvalidateNotes])
    else if s.onClose == CloseModal then Step(s, Created)
    else s.(pending := false, notesStale := true, draft := s.defaults,
            effects := s.effects + [InvalidateNotes, ClearDraft, ResetForm])
  }

  /**
   * On the full-page create form, a success as written ends away from the list,
   * where the guarded `onClose?.()` ends on it.
   */
  lemma FullPageSuccessAsWrittenStrands(s: FormState)
    requires s.pending && s.open && s.onClose == NoHandler && s.location != ListAll
    ensures CreatedAsWritten(s).location != Step(s, Created).location
    ensures CreatedAsWritten(s).draft == Step(s, Created).draft
  {
  }

  /** With `onClose` optional, every mounted success reaches the list, on either page. */
  lemma SuccessNavigatesOnEveryPage(s: FormState)
    requires s.pending && s.open
    ensures Step(s, Created).location == ListAll
    ensures Navigate(ListAll) in Step(s, Created).effects
  {
    assert SuccessEffects(s.onClose)[|SuccessEffects(s.onClose)| - 1] == Navigate(ListAll);
  }

  /**
   * The mounted form. Fields mirror `FormState`; every method performs the
   * transition `Step` gives for its event.
   */
  class NoteForm {
    const defaults: Draft
    const onClose: OnClose
    const origin: string
    var draft: Draft
    var notesStale: bool
    var location: string
    var pending: bool
    var open: bool
    var variables: Option<Draft>
    var effects: seq<Effect>

    function State(): FormState
      reads this
    {
      FormState(defaults, onClose, origin, draft, notesStale, location, pending, open, variables, effects)
    }

    ghost predicate Valid()
      reads this
    {
      Inv(State())
    }

    /** Mounting the form over the store's current draft; no request has been made. */
    constructor (defaults: Draft, onClose: OnClose, origin: string, draft: Draft, notesStale: bool, location: string)
      ensures Valid()
      ensures State() == FormState(defaults, onClose, origin, draft, notesStale, location, false, true, None, [])
    {
      this.defaults := defaults;
      this.onClose := onClose;
      this.origin := origin;
      this.draft := draft;
      this.notesStale := notesStale;
      this.location := location;
      pending := false;
      open := true;
      variables := None;
      effects := [];
    }

    /** The title input's change handler. */
    method EditTitle(text: string)
      requires Valid() && open
      modifies this
      ensures Valid()
      ensures draft == old(draft).(title := text)
      ensures State() == old(State()).(draft := draft)
      ensures State() == Step(old(State()), Edit(Title, text))
    {
      draft := draft.(title := text);
    }

    /** The content textarea's change handler. */
    method EditContent(text: string)
      requires Valid() && open
      modifies this
      ensures Valid()
      ensures draft == old(draft).(content := text)
      ensures State() == old(State()).(draft := draft)
      ensures State() == Step(old(State()), Edit(Content, text))
    {
      draft := draft.(content := text);
    }

    /** The tag select's change handler; the value is taken as given. */
    method EditTag(text: string)
      requires Valid() && open
      modifies this
      ensures Valid()
      ensures draft == old(draft).(tag := text)
      ensures State() == old(State()).(draft := draft)
      ensures State() == Step(old(State()), Edit(Tag, text))
    {
      draft := draft.(tag := text);
    }

    /**
     * The Cancel button: calls `onClose` and nothing else. Without a handler it
     * does nothing; the modal handler clears the draft and goes back.
     */
    method Cancel()
      requires Valid() && open
      modifies this
      ensures Valid()
      ensures notesStale == old(notesStale) && pending == old(pending) && variables == old(variables)
      ensures onClose == CloseModal ==>
        && draft == defaults && location == origin && !open
        && effects == old(effects) + [ClearDraft, Back]
      ensures onClose == NoHandler ==> State() == old(State())
      ensures State() == Step(old(State()), Event.Cancel)
    {
      if onClose == CloseModal {
        draft := defaults;
        effects := effects + [ClearDraft];
        location := origin;
        effects := effects + [Back];
        open := false;
      }
    }

    /**
     * The form's submit: the schema must accept the draft and the submit button is
     * disabled while a request is pending. Reports whether a request was started.
     */
    method Submit() returns (started: bool)
      requires Valid() && open
      modifies this
      ensures Valid()
      ensures started <==> !old(pending) && DraftValid(old(draft))
      ensures started ==> pending && variables == Some(old(draft))
      ensures started ==> State() == old(State()).(pending := true, variables := Some(old(draft)))
      ensures !started ==> State() == old(State())
      ensures State() == Step(old(State()), Event.Submit)
    {
      started := !pending && DraftValid(draft);
      if started {
        pending := true;
        variables := Some(draft);
      }
    }

    /**
     * The request succeeded: invalidate, then (if still mounted) clear, reset, call
     * `onClose` if there is one, navigate.
     */
    method CreationSucceeded()
      requires Valid() && pending
      modifies this
      ensures Valid()
      ensures !pending && notesStale && variables == old(variables)
      ensures old(open) ==> draft == defaults && location == ListAll && !open
      ensures old(open) ==> effects == old(effects) + SuccessEffects(onClose)
      ensures !old(open) ==> draft == old(draft) && location == old(location) && !open
      ensures !old(open) ==> effects == old(effects) + [InvalidateNotes]
      ensures State() == Step(old(State()), Created)
    {
      pending := false;
      notesStale := true;
      effects := effects + [InvalidateNotes];
      if open {
        draft := defaults;
        effects := effects + [ClearDraft, ResetForm];
        if onClose == CloseModal {
          effects := effects + [ClearDraft, Back];
          location := origin;
        }
        location := ListAll;
        effects := effects + [Navigate(ListAll)];
        open := false;
      }
    }

    /** The request failed: no callback clears anything; only the pending state ends. */
    method CreationFailed()
      requires Valid() && pending
      modifies this
      ensures Valid()
      ensures State() == old(State()).(pending := false)
      ensures State() == Step(old(State()), CreateFailed)
    {
      pending := false;
    }
  }
}
