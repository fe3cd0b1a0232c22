/** One comment in an article's thread (src/components/ArticleCommentItem.tsx):
    its relative date, whether it belongs to the signed-in user, and the inline
    editor. Times are integer milliseconds since the epoch. */
module ArticleCommentItem {
  import opened Wrappers
  import opened Entities
  import Text
  import Decimal

  const MS_PER_DAY := 1000 * 60 * 60 * 24

  function Abs(x: int): nat {
    if x < 0 then -x else x
  }

  /** Whole days between the two instants, in either direction, rounded down. */
  function DiffDays(now: int, date: int): (days: nat)
    ensures days * MS_PER_DAY <= Abs(now - date) < (days + 1) * MS_PER_DAY
  {
    Abs(now - date) / MS_PER_DAY
  }

  /** A date in the future reads like the same distance in the past. */
  lemma DiffDaysSymmetric(now: int, d: int)
    ensures DiffDays(now, now - d) == DiffDays(now, now + d)
    ensures DiffDays(now, now + d) == DiffDays(now + d, now)
  {
    assert Abs(now - (now - d)) == Abs(now - (now + d));
    assert Abs(now - (now + d)) == Abs((now + d) - now);
  }

  /** The rule `formatDate` applies, before it becomes text. */
  datatype DateLabel = Today | Yesterday | DaysAgo(days: nat) | CalendarDate(date: int)

  function DateBucket(now: int, date: int): (l: DateLabel)
    ensures l == Today <==> DiffDays(now, date) == 0
    ensures l == Yesterday <==> DiffDays(now, date) == 1
    ensures l.DaysAgo? <==> 2 <= DiffDays(now, date) < 7
    ensures l.DaysAgo? ==> l.days == DiffDays(now, date)
    ensures l.CalendarDate? <==> DiffDays(now, date) >= 7
    ensures l.CalendarDate? ==> l.date == date
  {
    var days := DiffDays(now, date);
    if days == 0 then Today
    else if days == 1 then Yesterday
    else if days < 7 then DaysAgo(days)
    else CalendarDate(date)
  }

  /** `formatDate`; `localeDate` stands for `toLocaleDateString("en-US", ...)`. */
  function FormatDate(now: int, date: int, localeDate: int -> string): string {
    match DateBucket(now, date)
    case Today => "Today"
    case Yesterday => "Yesterday"
    case DaysAgo(days) => Decimal.IntToString(days) + " days ago"
    case CalendarDate(d) => localeDate(d)
  }

  /** Within the last 24 hours it is "Today"; between 24 and 48 hours ago, "Yesterday";
      a week or more away the locale formatter decides. */
  lemma FormatDateCases(now: int, date: int, localeDate: int -> string)
    ensures 0 <= now - date < MS_PER_DAY ==> FormatDate(now, date, localeDate) == "Today"
    ensures MS_PER_DAY <= now - date < 2 * MS_PER_DAY ==> FormatDate(now, date, localeDate) == "Yesterday"
    ensures Abs(now - date) >= 7 * MS_PER_DAY ==> FormatDate(now, date, localeDate) == localeDate(date)
  {
    var days := DiffDays(now, date);
    if Abs(now - date) >= 7 * MS_PER_DAY {
      assert days >= 7;
    }
  }

  /** Three days back reads "3 days ago". */
  lemma ThreeDaysAgo(now: int, localeDate: int -> string)
    ensures FormatDate(now, now - 3 * MS_PER_DAY, localeDate) == "3 days ago"
  {
    assert DiffDays(now, now - 3 * MS_PER_DAY) == 3;
    assert Decimal.IntToString(3) == "3";
  }

  /** `isOwnComment`: someone is signed in and wrote the comment. */
  predicate IsOwnComment(currentUser: Option<User>, comment: Comment) {
    currentUser.Some? && comment.userId == currentUser.value.id
  }

  /** The edit and delete controls show for one's own comment when not editing. */
  function ControlsVisible(currentUser: Option<User>, comment: Comment, isEditing: bool): (visible: bool)
    ensures visible ==> currentUser.Some?
    ensures visible <==> IsOwnComment(currentUser, comment) && !isEditing
  {
    IsOwnComment(currentUser, comment) && !isEditing
  }

  /** The item's editing state. The draft starts as the comment's text and is
      not reset by Cancel. */
  class CommentItem {
    const comment: Comment
    var isEditing: bool
    var editedContent: string

    constructor (comment: Comment)
      ensures this.comment == comment && !isEditing && editedContent == comment.content
    {
      this.comment := comment;
      isEditing := false;
      editedContent := comment.content;
    }

    /** The pencil button. */
    method StartEditing()
      modifies this
      ensures isEditing && editedContent == old(editedContent)
    {
      isEditing := true;
    }

    /** The editor's `onChange`. */
    method OnEditChange(value: string)
      modifies this
      ensures editedContent == value && isEditing == old(isEditing)
    {
      editedContent := value;
    }

    /** `handleUpdate`: hands the comment and the draft to `onUpdate` (the
        returned pair) and leaves edit mode. */
    method HandleUpdate() returns (update: (Comment, string))
      modifies this
      ensures update == (comment, old(editedContent))
      ensures !isEditing && editedContent == old(editedContent)
    {
      update := (comment, editedContent);
      isEditing := false;
    }

    /** The Cancel button: edit mode ends, the draft stays. */
    method Cancel()
      modifies this
      ensures !isEditing && editedContent == old(editedContent)
    {
      isEditing := false;
    }
  }
}
