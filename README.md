# NoteForm: note-creation validation and submission handlers

A model of the note-creation form of a note-taking web client
(`components/NoteForm/NoteForm.tsx`). The form edits a draft note that lives in a
shared store, validates it with a schema, and sends it to the notes service.
When the service accepts the note, the form invalidates the cached note lists,
clears the draft and sends the user back to the unfiltered list.

The project has three modules:

- `Wrappers`: an `Option` type for form fields that may be absent.
- `NoteSchema` (`note_schema.dfy`): the validation schema as pure functions.
  - Each field has a function that returns the set of rules the field breaks.
  - Each is proved to accept exactly the inputs the rules describe: a title of
    3 to 50 characters, optional content of at most 500, one of the five
    categories `Todo`, `Work`, `Personal`, `Meeting`, `Shopping`.
  - `DraftValid` applies the schema after the form library's preparation step,
    which turns empty strings into absent values. It is proved equal to the
    plain length and membership conditions.
- `NoteFormHandlers` (`note_form.dfy`): the handlers as a state machine.
  - The state holds the draft, the "notes family stale" flag, the location, the
    pending flag, whether the form is mounted, the latest request's values and a
    log of side effects in order.
  - `Step` is the pure transition for one event and `Run` applies a sequence of
    events. Both keep the invariant that a pending request carries a draft that
    passed validation.
  - The class `NoteForm` holds the same state in fields. Each of its methods is
    proved to perform exactly `Step`'s transition for its event.

Outcomes of the creation request are events: the network call is not modelled.
The draft defaults are a constructor parameter, because the store's initial draft
is not part of this model. Formik's form values are identified with the draft:
the form re-initialises from the draft whenever the draft changes.

The form's `onClose` is whatever the mounting page passes, so the state records
which handler that is (`OnClose`):

- The list page's overlay passes `handleCloseModal`
  (app/notes/filter/[...slug]/Notes.client.tsx:70-73, passed at :106). It clears
  the draft and goes back one history entry, to the location the form was opened
  over (`origin`). So Cancel on the overlay clears the draft and returns to the list.
- The full-page create page passes no `onClose`. Cancel then has no click handler
  and does nothing.

Success runs two callbacks, and the model follows the installed query library's
order. The callback registered on the mutation hook runs first and marks the
notes family stale. The callback passed to `mutate` runs next. It clears the
draft, resets the form, calls `onClose` and navigates to `/notes/filter/All`.
The second callback does not run when the form has been unmounted in the
meantime. So after Cancel on the overlay, a success only marks the notes stale
(`CancelThenSuccessOnOverlay`).

On the full-page create page, the unconditional `onClose()` call throws as
written. `Step`, `NoteForm.CreationSucceeded`, `SuccessWhileMounted` and
`SuccessNavigatesOnEveryPage` model the guarded call `onClose?.()` there: the
corrected success path, recorded under "## Findings". `CreatedAsWritten` models
the code as written. On the overlay, the two agree.

Client-side validation runs before any request is made: a two-letter title such
as `Hi` fails `min(3)` and is never sent.

## Model

| member | source | states |
|---|---|---|
| `NoteSchema.TitleViolations` | components/NoteForm/NoteForm.tsx:45-48 | the title's rules pass iff the title is present and 3 ≤ length ≤ 50; an absent title breaks only `required`, an over-long one only `max` |
| `NoteSchema.ContentViolations` | components/NoteForm/NoteForm.tsx:49 | content passes iff it is absent or at most 500 long; the only rule it can break is `max` |
| `NoteSchema.TagViolations` | components/NoteForm/NoteForm.tsx:50-52 | the tag passes iff it is present and one of the five categories; an absent tag breaks only `required` |
| `NoteSchema.Violations` | components/NoteForm/NoteForm.tsx:44-53 | the whole schema accepts iff all three field conditions hold |
| `NoteSchema.DraftValid` | components/NoteForm/NoteForm.tsx:44-60 | a draft passes submit-time validation iff 3 ≤ title length ≤ 50, content length ≤ 500 (empty allowed) and the tag is one of the five categories |
| `NoteSchema.AllTagRejected` | components/NoteForm/NoteForm.tsx:50-52 | the filter value `All` breaks `oneOf` and no draft tagged `All` validates |
| `NoteSchema.TagOptionsAccepted` | components/NoteForm/NoteForm.tsx:97-112 | every option of the tag select passes the tag rules, and every category is offered |
| `NoteFormHandlers.Step` | components/NoteForm/NoteForm.tsx:17-42 | one event keeps the pending-request invariant; only a success changes the stale flag; only a success or Cancel changes the location, and only to the list or to the location under the overlay; the draft changes only by an edit or by being reset to its defaults; submits and failures keep it; Cancel without `onClose` changes nothing; a submit starts a request iff the form is mounted, idle and the draft validates; nothing starts while a request is pending; a stale flag stays set |
| `NoteFormHandlers.Run` | components/NoteForm/NoteForm.tsx:17-42 | any event sequence keeps the invariant and ends at the starting location, the location under the overlay or the list; without a success the stale flag is unchanged; without a success or Cancel the location is unchanged |
| `NoteFormHandlers.LastWriteWins` | components/NoteForm/NoteForm.tsx:72-105 | after any sequence of field edits each draft field holds the last value written to it, and nothing else has changed |
| `NoteFormHandlers.DraftSurvivesSubmitsAndFailures` | components/NoteForm/NoteForm.tsx:29-42 | submits and failed requests in any order, and Cancel on a page with no `onClose`, leave the draft, location and stale flag unchanged |
| `NoteFormHandlers.CancelOnOverlay` | components/NoteForm/NoteForm.tsx:117-122 | Cancel on the overlay calls the list page's modal handler, which clears the draft, goes back to the location under the overlay and unmounts the form, in that order; cache and pending request are untouched |
| `NoteFormHandlers.SuccessWhileMounted` | components/NoteForm/NoteForm.tsx:24-38 | a success on a mounted form logs invalidate, clear draft, reset form, the `onClose` effects (clear draft, back, on the overlay), navigate to `/notes/filter/All`, in that order; it resets the draft to its defaults, ends at the list and ends pending (with no `onClose`, the corrected path) |
| `NoteFormHandlers.FailureKeepsDraft` | components/NoteForm/NoteForm.tsx:31-39 | a failed request changes nothing but the pending flag |
| `NoteFormHandlers.CancelThenSuccessOnOverlay` | components/NoteForm/NoteForm.tsx:22-39 | after Cancel on the overlay while a request is in flight, the draft is cleared and the location is the one under the overlay; the success then only marks the notes stale and does not navigate |
| `NoteFormHandlers.CreatedAsWritten` | components/NoteForm/NoteForm.tsx:32-38 | the success path as written: on the overlay identical to `Step`; on a page with no `onClose` the draft is reset and the notes marked stale, but the location is unchanged, the form stays mounted and no navigation is logged |
| `NoteFormHandlers.FullPageSuccessAsWrittenStrands` | app/notes/action/create/page.tsx:36 | on the full-page form, a success as written resets the draft like the corrected path but ends at a different location |
| `NoteFormHandlers.SuccessNavigatesOnEveryPage` | components/NoteForm/NoteForm.tsx:34-37 | with `onClose` optional, every success on a mounted form ends at `/notes/filter/All` |
| `NoteFormHandlers.NoteForm.constructor` | components/NoteForm/NoteForm.tsx:17-20 | mounting starts from the store's draft with the page's `onClose`, no request pending and an empty effect log |
| `NoteFormHandlers.NoteForm.EditTitle` | components/NoteForm/NoteForm.tsx:72-74 | writes the title and nothing else |
| `NoteFormHandlers.NoteForm.EditContent` | components/NoteForm/NoteForm.tsx:88-90 | writes the content and nothing else |
| `NoteFormHandlers.NoteForm.EditTag` | components/NoteForm/NoteForm.tsx:103-105 | writes the tag and nothing else |
| `NoteFormHandlers.NoteForm.Cancel` | components/NoteForm/NoteForm.tsx:117-122 | only calls `onClose`: on the overlay the draft is cleared, the location goes back to the one under the overlay and the form unmounts; with no `onClose` nothing changes; cache and pending are never touched |
| `NoteFormHandlers.NoteForm.Submit` | components/NoteForm/NoteForm.tsx:29-31 | starts a request with the current draft iff none is pending and the draft validates; otherwise changes nothing |
| `NoteFormHandlers.NoteForm.CreationSucceeded` | components/NoteForm/NoteForm.tsx:22-38 | marks the notes stale; while mounted it also clears the draft, calls `onClose` and navigates to the list, with the effects in source order (with no `onClose`, the corrected path) |
| `NoteFormHandlers.NoteForm.CreationFailed` | components/NoteForm/NoteForm.tsx:31-39 | only the pending flag changes |

## Left out

- Rendering: the markup, CSS, labels, inline error display and the success toast have no checkable logic.
- The network call: `createNote` lives in a module that is not part of this model. Its outcome is the `Created` or `CreateFailed` event.
- Store internals: the store is not part of this model. The draft defaults are a parameter, and `setDraft` is modelled only through the one-field partials the change handlers pass.
- Query-cache internals: invalidating `['notes']` is a single stale flag. Refetching, deduplication and per-key entries are not modelled.
- Remounting: one mounting of the form is modelled, from mount to unmount. A remount gets a fresh mutation whose pending flag is false while an older request may still be in flight. That is not captured.
- Formik bookkeeping: touched fields and the submitting flag have no effect on the state modelled here. Which of several broken rules' messages Formik shows is not modelled; the schema returns the set of broken rules.
- `NoteSchema.TitleViolations`, `NoteSchema.ContentViolations`: lengths count Dafny characters. JavaScript counts UTF-16 code units, so a character outside the Basic Multilingual Plane counts twice in the source and once here.
- Error messages: the schema's message strings are display text. The model reports which rules fail, not the words shown.
- Navigation timing: `router.back()` and `router.push` are taken to act in the order they are called. On the overlay's success path, `back` is followed at once by the push to the list, and the model ends at the list. The browser's asynchronous history traversal is not modelled.
- The overlay's modal frame receives the same `handleCloseModal` as the form. Its own close gestures live in a component that is not part of this model.
- The create page's `generateMetadata` builds static strings and falls back to a default site address when an environment variable is unset. It has no state and is not modelled.

## Findings

| source | as written | input that shows it | evidently intended | confidence | as-written member | corrected member |
|---|---|---|---|---|---|---|
| app/notes/action/create/page.tsx:36 | the full-page create page mounts the form without the required `onClose`, and the success callback calls `onClose()` unconditionally (components/NoteForm/NoteForm.tsx:36); the call throws after the draft is cleared and the form reset, so `router.push` never runs | any valid draft submitted on `/notes/action/create` whose request succeeds | the draft is cleared and the user is sent to `/notes/filter/All`, as on the overlay | not executed; medium: the missing prop is also a type error, which a type-checked build would reject | `NoteFormHandlers.CreatedAsWritten` | `NoteFormHandlers.SuccessNavigatesOnEveryPage` |
