/** The comment list reducers of src/store/modules/commentSlice.ts. They mirror
    the article reducers with one difference: an update finds the comment by its
    numeric `id`, a delete by its `documentId`. */
module CommentSlice {
  import opened Entities
  import JsArray

  /** The list after `updateComment(c)`: the first comment with `c.id` replaced by `c`. */
  function Updated(s: seq<Comment>, c: Comment): seq<Comment> {
    JsArray.ReplaceFirst(s, (x: Comment) => x.id == c.id, c)
  }

  /** The list after `deleteComment(documentId)`: every comment with that document id dropped. */
  function Deleted(s: seq<Comment>, documentId: string): seq<Comment> {
    JsArray.Filter(s, (x: Comment) => x.documentId != documentId)
  }

  /** Update keeps the length, replaces exactly the first comment with the
      payload's numeric id and nothing else; with no such comment it is the identity. */
  lemma UpdateSpec(s: seq<Comment>, c: Comment)
    ensures |Updated(s, c)| == |s|
    ensures (forall j :: 0 <= j < |s| ==> s[j].id != c.id) ==> Updated(s, c) == s
    ensures forall i :: 0 <= i < |s| && s[i].id == c.id && (forall j :: 0 <= j < i ==> s[j].id != c.id) ==>
      Updated(s, c)[i] == c && forall j :: 0 <= j < |s| && j != i ==> Updated(s, c)[j] == s[j]
  {
  }

  /** Delete leaves no comment with the document id, keeps every copy of every
      other comment and keeps their order. */
  lemma DeleteSpec(s: seq<Comment>, documentId: string)
    ensures forall i :: 0 <= i < |Deleted(s, documentId)| ==> Deleted(s, documentId)[i].documentId != documentId
    ensures forall i :: 0 <= i < |s| && s[i].documentId != documentId ==> s[i] in Deleted(s, documentId)
    ensures forall x :: multiset(Deleted(s, documentId))[x] ==
                         (if x.documentId == documentId then 0 else multiset(s)[x])
    ensures JsArray.IsSubsequence(Deleted(s, documentId), s)
  {
    JsArray.FilterIsSubsequence(s, (x: Comment) => x.documentId != documentId);
    JsArray.FilterCount(s, (x: Comment) => x.documentId != documentId);
  }

  /** Deleting twice is deleting once. */
  lemma DeleteIdempotent(s: seq<Comment>, documentId: string)
    ensures Deleted(Deleted(s, documentId), documentId) == Deleted(s, documentId)
  {
    JsArray.FilterIdempotent(s, (x: Comment) => x.documentId != documentId);
  }

  /** The two keys are independent: a delete keyed by document id drops a
      comment whatever its numeric id, and an update keyed by numeric id ignores
      the document id. */
  lemma KeysDiffer(c: Comment, d: Comment)
    requires c.documentId == d.documentId && c.id != d.id
    ensures Deleted([c], d.documentId) == []
    ensures Updated([c], d) == [c]
  {
  }

  /** The `comments` slice. */
  class CommentState {
    var comments: seq<Comment>

    /** The initial state: no comments. */
    constructor ()
      ensures comments == []
    {
      comments := [];
    }

    /** `setComments`: the payload becomes the list. */
    method SetComments(payload: seq<Comment>)
      modifies this
      ensures comments == payload
    {
      comments := payload;
    }

    /** `addComment`: appended at the end, with no duplicate check. */
    method AddComment(c: Comment)
      modifies this
      ensures comments == old(comments) + [c]
    {
      comments := comments + [c];
    }

    /** `updateComment`: find the first index with the payload's id and assign there. */
    method UpdateComment(c: Comment)
      modifies this
      ensures comments == Updated(old(comments), c)
    {
      var index := JsArray.FindIndex(comments, (x: Comment) => x.id == c.id);
      if index != -1 {
        comments := comments[index := c];
      }
    }

    /** `deleteComment`: keep the comments whose document id differs. */
    method DeleteComment(documentId: string)
      modifies this
      ensures comments == Deleted(old(comments), documentId)
    {
      comments := JsArray.Filter(comments, (x: Comment) => x.documentId != documentId);
    }
  }
}
