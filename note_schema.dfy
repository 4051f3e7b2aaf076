/**
 * The note-input validation schema of the note-creation form
 * (components/NoteForm/NoteForm.tsx, the Yup object schema), together with the
 * preparation step the form library applies to the draft before the schema runs.
 *
 * Every string is a `seq<char>` and lengths are plain `|s|`: the schema neither
 * trims nor normalises, so whitespace counts like any other character.
 */
module NoteSchema {

  import opened Wrappers

  /** The five categories the `tag` field's `oneOf` admits. */
  const Tags: seq<string> := ["Todo", "Work", "Personal", "Meeting", "Shopping"]

  /** The values of the options of the form's tag `<select>`, in display order. */
  const TagOptions: seq<string> := ["Todo", "Work", "Personal", "Meeting", "Shopping"]

  const TitleMin: nat := 3
  const TitleMax: nat := 50
  const ContentMax: nat := 500

  /** The note being composed: the store's draft record, which is also the form's values. */
  datatype Draft = Draft(title: string, content: string, tag: string)

  /** The object the schema validates; a field is `None` when it is `undefined`. */
  datatype Values = Values(title: Option<string>, content: Option<string>, tag: Option<string>)

  /** One failed rule of the schema. */
  datatype Violation =
    | TitleRequired | TitleTooShort | TitleTooLong
    | ContentTooLong
    | TagRequired | TagNotAllowed

  /**
   * The rules of `title`: `min(3)`, `max(50)`, `required()`. An absent value fails
   * only `required` (length rules skip absent values); a present string fails
   * `required` when it is empty and each length rule on its own.
   */
  function TitleViolations(title: Option<string>): (r: set<Violation>)
    ensures r == {} <==> title.Some? && TitleMin <= |title.value| <= TitleMax
    ensures r <= {TitleRequired, TitleTooShort, TitleTooLong}
    ensures title.None? ==> r == {TitleRequired}
    ensures title.Some? && |title.value| > TitleMax ==> r == {TitleTooLong}
  {
    match title
    case None => {TitleRequired}
    case Some(t) =>
      (if t == "" then {TitleRequired} else {})
      + (if |t| < TitleMin then {TitleTooShort} else {})
      + (if |t| > TitleMax then {TitleTooLong} else {})
  }

  /** The rule of `content`: `max(500)` and nothing else, so the field is optional. */
  function ContentViolations(content: Option<string>): (r: set<Violation>)
    ensures r == {} <==> content.None? || |content.value| <= ContentMax
    ensures r <= {ContentTooLong}
  {
    match content
    case None => {}
    case Some(c) => if |c| > ContentMax then {ContentTooLong} else {}
  }

  /**
   * The rules of `tag`: `oneOf(Tags)` and `required()`. An absent value fails only
   * `required` (`oneOf` lets `undefined` through); a present string fails `oneOf`
   * unless it is one of the five categories, and `required` when it is empty.
   */
  function TagViolations(tag: Option<string>): (r: set<Violation>)
    ensures r == {} <==> tag.Some? && tag.value in Tags
    ensures r <= {TagRequired, TagNotAllowed}
    ensures tag.None? ==> r == {TagRequired}
  {
    match tag
    case None => {TagRequired}
    case Some(t) =>
      (if t == "" then {TagRequired} else {})
      + (if t !in Tags then {TagNotAllowed} else {})
  }

  /** The whole schema: the union of the three fields' failed rules. */
  function Violations(v: Values): (r: set<Violation>)
    ensures r == {} <==>
      && v.title.Some? && TitleMin <= |v.title.value| <= TitleMax
      && (v.content.None? || |v.content.value| <= ContentMax)
      && v.tag.Some? && v.tag.value in Tags
  {
    TitleViolations(v.title) + ContentViolations(v.content) + TagViolations(v.tag)
  }

  /** An empty string is handed to the schema as an absent value. */
  function NonEmpty(s: string): Option<string>
  {
    if s == "" then None else Some(s)
  }

  /** The draft as the form library hands it to the schema: empty fields become absent. */
  function Prepared(d: Draft): Values
  {
    Values(NonEmpty(d.title), NonEmpty(d.content), NonEmpty(d.tag))
  }

  /**
   * Whether submitting the draft passes client-side validation: a title of 3 to 50
   * characters, content of at most 500 characters (empty allowed), one of the five tags.
   */
  function DraftValid(d: Draft): (ok: bool)
    ensures ok <==>
      && TitleMin <= |d.title| <= TitleMax
      && |d.content| <= ContentMax
      && d.tag in Tags
  {
    Violations(Prepared(d)) == {}
  }

  /** `All` is a filter value, never a category: the schema rejects it. */
  lemma AllTagRejected(d: Draft)
    requires d.tag == "All"
    ensures TagViolations(Some(d.tag)) == {TagNotAllowed}
    ensures !DraftValid(d)
  {
  }

  /** Every option the tag select offers passes the tag rules, and the select offers every category. */
  lemma TagOptionsAccepted()
    ensures forall i | 0 <= i < |TagOptions| :: TagViolations(Some(TagOptions[i])) == {}
    ensures forall t | t in Tags :: t in TagOptions
  {
  }
}
