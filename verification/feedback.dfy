/** Customer feedback: the stored record and its schema bounds
    (src/models/feedback.ts) and the submission route
    (src/app/api/feedback/route.ts). The route's own checks are weaker than
    the schema's, so some inputs pass the route and fail on save. */
module Feedback {
  import opened Common

  /** A stored feedback entry. */
  datatype Feedback = Feedback(id: Id, name: string, comment: string, rating: real, createdAt: Time)

  const NAME_MIN: nat := 2
  const NAME_MAX: nat := 50
  const COMMENT_MAX: nat := 1000
  const RATING_MIN: real := 1.0
  const RATING_MAX: real := 5.0

  /** The schema: a name of 2 to 50 characters without surrounding blanks, a non-empty comment
      of at most 1000, and a rating in [1, 5]. */
  predicate Valid(f: Feedback) {
    && NAME_MIN <= |f.name| <= NAME_MAX && !IsSpace(f.name[0]) && !IsSpace(f.name[|f.name| - 1])
    && f.comment != "" && |f.comment| <= COMMENT_MAX
    && RATING_MIN <= f.rating <= RATING_MAX
  }

  /** The JSON body. `rating` is `None` unless it is a JSON number. */
  datatype Submission = Submission(name: Option<string>, comment: Option<string>, rating: Option<real>)

  datatype FeedbackError = InvalidInput | Failed

  /** The route's check: name and comment truthy, rating a number in [1, 5]. */
  predicate Acceptable(s: Submission) {
    Truthy(s.name) && Truthy(s.comment) && s.rating.Some? && RATING_MIN <= s.rating.value <= RATING_MAX
  }

  /** `Feedback.create({ name, comment, rating })`: the name is trimmed, then
      the validators decide; `None` is a validation error. */
  function Build(s: Submission, id: Id, now: Time): (r: Option<Feedback>)
    requires Acceptable(s)
    ensures r.Some? <==> NAME_MIN <= |Trim(s.name.value)| <= NAME_MAX && |s.comment.value| <= COMMENT_MAX
    ensures r.Some? ==> Valid(r.value)
    ensures r.Some? ==> r.value == Feedback(id, Trim(s.name.value), s.comment.value, s.rating.value, now)
  {
    var name := Trim(s.name.value);
    if NAME_MIN <= |name| <= NAME_MAX && |s.comment.value| <= COMMENT_MAX then
      Some(Feedback(id, name, s.comment.value, s.rating.value, now))
    else None
  }

  /** The identifier of a stored feedback. */
  function EntryId(x: Feedback): Id {
    x.id
  }

  /** POST /api/feedback. */
  function Submit(entries: seq<Feedback>, s: Submission, now: Time)
    : (h: Handled<Feedback, FeedbackError, seq<Feedback>>)
    ensures h.reply.Err? ==> h.store == entries
    ensures h.reply == Err(BAD_REQUEST, InvalidInput) <==> !Acceptable(s)
    ensures h.reply.Ok? ==>
      && h.reply.code == CREATED && Valid(h.reply.body)
      && h.store == entries + [h.reply.body]
      && Some(h.reply.body.name) == (if s.name.Some? then Some(Trim(s.name.value)) else None)
      && Some(h.reply.body.comment) == s.comment && Some(h.reply.body.rating) == s.rating
      && h.reply.body.createdAt == now
    ensures h.reply.Err? && Acceptable(s) ==> h.reply == Err(SERVER_ERROR, Failed)
    ensures Acceptable(s) ==>
      (h.reply.Ok? <==> NAME_MIN <= |Trim(s.name.value)| <= NAME_MAX && |s.comment.value| <= COMMENT_MAX)
    ensures h.reply.Ok? ==> h.reply.body.id == FreshId(entries, EntryId)
  {
    if !Acceptable(s) then Handled(Err(BAD_REQUEST, InvalidInput), entries)
    else
      match Build(s, FreshId(entries, EntryId), now)
      case None => Handled(Err(SERVER_ERROR, Failed), entries)
      case Some(f) => Handled(Ok(CREATED, f), entries + [f])
  }

  /** Every stored entry satisfies the schema. */
  predicate AllValid(entries: seq<Feedback>) {
    forall i :: 0 <= i < |entries| ==> Valid(entries[i])
  }

  /** Submission keeps every stored entry within the schema's bounds. */
  lemma SubmitKeepsEntriesValid(entries: seq<Feedback>, s: Submission, now: Time)
    requires AllValid(entries)
    ensures AllValid(Submit(entries, s, now).store)
  {
    var h := Submit(entries, s, now);
    if h.reply.Ok? {
      assert forall i :: 0 <= i < |entries| ==> h.store[i] == entries[i];
    }
  }

  /** The rating bounds are inclusive: 1 and 5 pass the route's check. */
  lemma RatingBoundsAreInclusive(name: string, comment: string)
    requires name != "" && comment != ""
    ensures Acceptable(Submission(Some(name), Some(comment), Some(RATING_MIN)))
    ensures Acceptable(Submission(Some(name), Some(comment), Some(RATING_MAX)))
    ensures !Acceptable(Submission(Some(name), Some(comment), Some(0.5)))
    ensures !Acceptable(Submission(Some(name), Some(comment), Some(5.5)))
  {
  }

  /** A name that is not empty but trims to fewer than two characters
      (one letter, or only blanks) passes the route's truthiness check but
      not the schema's minimum length: the submission ends in a 500, not a
      400, and stores nothing. */
  lemma ShortNameIsServerError(entries: seq<Feedback>, name: string, comment: string, rating: real, now: Time)
    requires name != "" && |Trim(name)| < NAME_MIN
    requires comment != "" && RATING_MIN <= rating <= RATING_MAX
    ensures Submit(entries, Submission(Some(name), Some(comment), Some(rating)), now)
      == Handled(Err(SERVER_ERROR, Failed), entries)
  {
  }

  /** A name of blanks only is one such name. */
  lemma BlankNameIsServerError(entries: seq<Feedback>, comment: string, now: Time)
    requires comment != ""
    ensures Submit(entries, Submission(Some("   "), Some(comment), Some(3.0)), now)
      == Handled(Err(SERVER_ERROR, Failed), entries)
  {
    assert |Trim("   ")| == 0;
    ShortNameIsServerError(entries, "   ", comment, 3.0, now);
  }

  /** Blanks around an otherwise valid name are stripped before it is
      stored: the submission succeeds and keeps the bare name. */
  lemma PaddedNameIsStoredTrimmed(entries: seq<Feedback>, w: string, comment: string, rating: real, now: Time)
    requires NAME_MIN <= |w| <= NAME_MAX && !IsSpace(w[0]) && !IsSpace(w[|w| - 1])
    requires comment != "" && |comment| <= COMMENT_MAX && RATING_MIN <= rating <= RATING_MAX
    ensures var h := Submit(entries, Submission(Some([' '] + w + [' ']), Some(comment), Some(rating)), now);
      h.reply.Ok? && h.reply.body.name == w
  {
    TrimPadding(w);
  }

  /** A string without surrounding blanks is its own trim. */
  lemma TrimKeepsUnpadded(s: string)
    requires s != [] && !IsSpace(s[0]) && !IsSpace(s[|s| - 1])
    ensures Trim(s) == s
  {
    assert TrimStart(s) == s;
    assert TrimEnd(s) == s;
  }

  /** One blank on each side of an unpadded string is trimmed away. */
  lemma TrimPadding(w: string)
    requires w != [] && !IsSpace(w[0]) && !IsSpace(w[|w| - 1])
    ensures Trim([' '] + w + [' ']) == w
  {
    var s := [' '] + w + [' '];
    assert s[1..] == w + [' '];
    assert TrimStart(s) == TrimStart(w + [' ']) == w + [' '];
    assert (w + [' '])[..|w|] == w;
    assert TrimEnd(w + [' ']) == TrimEnd(w) == w;
  }
}
