/** The article list reducers of src/store/modules/articleSlice.ts. The slice
    state is an object whose list the reducers change in place; `Updated` and
    `Deleted` say what the list becomes. */
module ArticleSlice {
  import opened Entities
  import JsArray

  /** The list after `updateArticle(a)`: the first article with `a`'s id replaced by `a`. */
  function Updated(s: seq<Article>, a: Article): seq<Article> {
    JsArray.ReplaceFirst(s, (x: Article) => x.id == a.id, a)
  }

  /** The list after `deleteArticle(id)`: every article with that id dropped. */
  function Deleted(s: seq<Article>, id: int): seq<Article> {
    JsArray.Filter(s, (x: Article) => x.id != id)
  }

  /** Update keeps the length; it replaces exactly the first article with the
      payload's id and leaves every other position alone, and with no such
      article it changes nothing. */
  lemma UpdateSpec(s: seq<Article>, a: Article)
    ensures |Updated(s, a)| == |s|
    ensures (forall j :: 0 <= j < |s| ==> s[j].id != a.id) ==> Updated(s, a) == s
    ensures forall i :: 0 <= i < |s| && s[i].id == a.id && (forall j :: 0 <= j < i ==> s[j].id != a.id) ==>
      Updated(s, a)[i] == a && forall j :: 0 <= j < |s| && j != i ==> Updated(s, a)[j] == s[j]
  {
  }

  /** Delete leaves no article with the id, keeps every copy of every other
      article, and keeps their order. */
  lemma DeleteSpec(s: seq<Article>, id: int)
    ensures forall i :: 0 <= i < |Deleted(s, id)| ==> Deleted(s, id)[i].id != id
    ensures forall i :: 0 <= i < |s| && s[i].id != id ==> s[i] in Deleted(s, id)
    ensures forall x :: multiset(Deleted(s, id))[x] == if x.id == id then 0 else multiset(s)[x]
    ensures JsArray.IsSubsequence(Deleted(s, id), s)
  {
    JsArray.FilterIsSubsequence(s, (x: Article) => x.id != id);
    JsArray.FilterCount(s, (x: Article) => x.id != id);
  }

  /** Deleting twice is deleting once. */
  lemma DeleteIdempotent(s: seq<Article>, id: int)
    ensures Deleted(Deleted(s, id), id) == Deleted(s, id)
  {
    JsArray.FilterIdempotent(s, (x: Article) => x.id != id);
  }

  /** Deleting an id from a list grown by `addArticle` removes the added article
      too when it has that id, and otherwise keeps it at the end. */
  lemma DeleteAfterAdd(s: seq<Article>, a: Article, id: int)
    ensures Deleted(s + [a], id) == Deleted(s, id) + (if a.id == id then [] else [a])
  {
    JsArray.FilterAppend(s, [a], (x: Article) => x.id != id);
    assert [a][1..] == [];
  }

  /** The `article` slice. */
  class ArticleState {
    var articles: seq<Article>

    /** The initial state: no articles. */
    constructor ()
      ensures articles == []
    {
      articles := [];
    }

    /** `setArticles`: the payload becomes the list. */
    method SetArticles(payload: seq<Article>)
      modifies this
      ensures articles == payload
    {
      articles := payload;
    }

    /** `addArticle`: appended at the end, with no duplicate check. */
    method AddArticle(a: Article)
      modifies this
      ensures articles == old(articles) + [a]
    {
      articles := articles + [a];
    }

    /** `updateArticle`: find the first index with the payload's id and assign there. */
    method UpdateArticle(a: Article)
      modifies this
      ensures articles == Updated(old(articles), a)
    {
      var index := JsArray.FindIndex(articles, (x: Article) => x.id == a.id);
      if index != -1 {
        articles := articles[index := a];
      }
    }

    /** `deleteArticle`: keep the articles whose id differs. */
    method DeleteArticle(id: int)
      modifies this
      ensures articles == Deleted(old(articles), id)
    {
      articles := JsArray.Filter(articles, (x: Article) => x.id != id);
    }
  }
}
