/** The comment composer of src/components/ArticleCommentForm.tsx: a text box
    capped at 500 characters, a submit that ignores blank text, and a Clear button. */
module ArticleCommentForm {
  import opened Wrappers
  import Text

  const MAX_LENGTH := 500
  const NEAR_LIMIT := 50

  /** `remainingChars`. */
  function RemainingChars(content: string): int {
    MAX_LENGTH - |content|
  }

  /** `isNearLimit`: at most 50 characters left, that is, 450 or more written. */
  function IsNearLimit(content: string): (near: bool)
    ensures near <==> RemainingChars(content) <= NEAR_LIMIT
    ensures near <==> |content| >= MAX_LENGTH - NEAR_LIMIT
  {
    RemainingChars(content) <= NEAR_LIMIT
  }

  /** `hasContent`: something other than white space has been written. */
  function HasContent(content: string): (has: bool)
    ensures has <==> !Text.IsBlank(content)
  {
    Text.TrimEmptyIffBlank(content);
    |Text.Trim(content)| > 0
  }

  /** The submit button is disabled while posting or when there is nothing to post. */
  function SubmitDisabled(isLoading: bool, content: string): (disabled: bool)
    ensures disabled <==> isLoading || Text.IsBlank(content)
  {
    isLoading || !HasContent(content)
  }

  /** The composer's state. */
  class CommentForm {
    var content: string

    /** The length cap the change handler keeps: the counter of remaining
        characters never goes negative or above the cap. */
    predicate Valid()
      reads this
    {
      0 <= RemainingChars(content) <= MAX_LENGTH
    }

    constructor ()
      ensures content == "" && Valid()
    {
      content := "";
    }

    /** The text box's `onChange`: a value over the cap is refused and the text stays as it was. */
    method OnChange(value: string)
      requires Valid()
      modifies this
      ensures Valid()
      ensures |value| <= MAX_LENGTH ==> content == value
      ensures |value| > MAX_LENGTH ==> content == old(content)
    {
      if |value| <= MAX_LENGTH {
        content := value;
      }
    }

    /** `handleSubmit`: blank text does nothing; otherwise the text, untrimmed,
        goes to `onSubmit` (the returned value) and the box is emptied. */
    method HandleSubmit() returns (submitted: Option<string>)
      requires Valid()
      modifies this
      ensures Valid()
      ensures Text.IsBlank(old(content)) ==> submitted.None? && content == old(content)
      ensures !Text.IsBlank(old(content)) ==> submitted == Some(old(content)) && content == ""
      ensures submitted.Some? ==> |submitted.value| <= MAX_LENGTH && HasContent(submitted.value)
    {
      if |Text.Trim(content)| > 0 {
        Text.TrimEmptyIffBlank(content);
        submitted := Some(content);
        content := "";
      } else {
        Text.TrimEmptyIffBlank(content);
        submitted := None;
      }
    }

    /** The Clear button. */
    method Clear()
      modifies this
      ensures content == "" && Valid()
    {
      content := "";
    }
  }
}
