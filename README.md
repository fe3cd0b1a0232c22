# Travel blog client: a verified model of its core

The application is a single-page travel blog. Readers page through articles by
category and search their titles. Signed-in users comment on articles, edit
or delete their own comments, manage categories and see their own comments on
their profile. Everything is stored on a content backend reached over REST.

This project models the client's core in Dafny:

- the session store and its write-through to browser storage;
- the bearer header and the 401 sign-out wrapper of the shared request layer;
- the route guard and the `useAuth` hook;
- the URLs, methods and bodies of the article, comment, category and
  authentication endpoints;
- the article and comment list reducers;
- the infinite-scroll accumulator behind the articles page;
- the articles page's search, category select, scroll trigger and screens;
- the comment composer, the comment item with its inline editor and relative
  dates, and the category form;
- the profile page's list of the user's comments: its query, its newest-first
  stable sort, its "more" flag and its screens.

Code that changes state step by step is modelled as classes whose methods
state the whole new state: the stores, the hooks' `useState` cells and the
components' local state. Each such method is tied to a pure function whose
properties are proved as lemmas.

Every request builder has a partner decoder (`Decode`). Round-trip lemmas show
that a request reads back as the call that built it. For the article and
comment lists this holds up to the defaults the builder fills in, which is
what `Canonical` records.

The JavaScript built-ins the core relies on are modelled in small modules:

- `JSON.stringify` and `JSON.parse`, for a token and a user record (`Json`);
- integer-to-text conversion and back (`Decimal`);
- `trim`, `toLowerCase` and `includes` (`Text`);
- `filter`, `findIndex` and `some` (`JsArray`);
- query strings (`Url`).

Timestamps are integer milliseconds since the epoch.

## Model

| member | source | states |
|---|---|---|
| AuthSlice.LoadAuthState | src/store/modules/authSlice.ts:4-19 | a missing key, or a value that does not parse, gives the signed-out state; otherwise the parsed user and token |
| AuthSlice.ReloadAfterSetCredentials | src/store/modules/authSlice.ts:27-33 | reading storage back after `setCredentials` yields exactly the user and token that were set |
| AuthSlice.ReloadAfterLogout | src/store/modules/authSlice.ts:34-39 | reading storage back after `logout` yields the signed-out state, whatever else is stored |
| AuthSlice.AuthStore.constructor | src/store/modules/authSlice.ts:21 | the initial state is what `loadAuthState` reads from storage |
| AuthSlice.AuthStore.SetCredentials | src/store/modules/authSlice.ts:27-33 | the state takes the response's user and token; both storage keys are written as JSON; storage and state agree afterwards |
| AuthSlice.AuthStore.Logout | src/store/modules/authSlice.ts:34-39 | the state is cleared; both keys are removed and no other key changes; storage and state agree afterwards |
| AuthSlice.Storage.SetItem | src/store/modules/authSlice.ts:31-32 | sets one key and leaves every other key alone |
| AuthSlice.Storage.RemoveItem | src/store/modules/authSlice.ts:37-38 | removes one key and leaves every other key alone |
| AuthSlice.WriteCredentials | src/store/modules/authSlice.ts:31-32 | the storage `setCredentials` leaves; its properties are `ReloadAfterSetCredentials` |
| Json.Quote | src/store/modules/authSlice.ts:31 | `JSON.stringify` of a string; its properties are `ParseStringRoundTrip` and `ParseTokenRoundTrip` |
| Json.StringifyUser | src/store/modules/authSlice.ts:32 | `JSON.stringify` of the user record; its property is `ParseUserRoundTrip` |
| Json.ParseToken | src/store/modules/authSlice.ts:13 | `JSON.parse` of a stored token; its property is `ParseTokenRoundTrip` |
| Json.ParseUser | src/store/modules/authSlice.ts:12 | `JSON.parse` of a stored user; its property is `ParseUserRoundTrip` |
| Json.ParseTokenRoundTrip | src/store/modules/authSlice.ts:13 | `JSON.parse` of what `JSON.stringify` wrote for a token gives that token back |
| Json.ParseStringRoundTrip | src/store/modules/authSlice.ts:31 | a string literal written with escapes parses back to the same string, and the text after it is left untouched |
| Json.UnescapeChar | src/store/modules/authSlice.ts:31 | every escape sequence the writer emits decodes to the character it stands for |
| Json.UnescapeControl | src/store/modules/authSlice.ts:31 | the `\u00XX` form written for a control character decodes to that character |
| Json.ParseUserRoundTrip | src/store/modules/authSlice.ts:12 | `JSON.parse` of the stored user record gives the user back |
| Json.ParseBoolRoundTrip | src/store/modules/authSlice.ts:32 | the `true`/`false` literal of the user's `blocked` flag reads back as written |
| ApiIndex.ChooseTokenAsWritten | src/api/index.ts:11-12 | the store's token when truthy, otherwise the raw stored text |
| ApiIndex.ChooseToken | src/api/index.ts:11-12 | the store's token when truthy, otherwise the stored text read back through `JSON.parse`, and none when it does not parse |
| ApiIndex.FallbackSendsQuotedToken | src/api/index.ts:11-12 | with the store signed out, the as-written choice sends the quoted text, which differs from the token; the corrected choice sends the token |
| ApiIndex.QuotedTokenHeader | src/api/index.ts:13-15 | for any non-empty token the as-written header is `Bearer "<token>"` and the corrected one `Bearer <token>` |
| ApiIndex.QuotedTokenExample | src/store/modules/authSlice.ts:31 | storage holds the five characters `"abc"` for the token `abc` |
| ApiIndex.AuthorizationValue | src/api/index.ts:13-15 | a header exists exactly for a truthy token, and it is `Bearer ` followed by that token |
| ApiIndex.AuthorizationInjective | src/api/index.ts:14 | two truthy tokens give the same header exactly when they are equal |
| ApiIndex.PrepareHeaders | src/api/index.ts:10-17 | as written: sets `Authorization` to the header of the token `ChooseTokenAsWritten` picks (the raw stored text when the store has none) when there is one, and otherwise leaves the headers unchanged |
| ApiIndex.PrepareHeadersCorrected | src/api/index.ts:10-17 | the same over the token `ChooseToken` picks, so a stored token is sent without its JSON quotes |
| ApiIndex.StoredNullHeader | src/api/index.ts:11-15 | a stored `null` with the store signed out sends `Bearer null` as written and no header once corrected |
| ApiIndex.Headers.Set | src/api/index.ts:14 | sets one header and leaves the others alone |
| ApiIndex.ReauthActions | src/api/index.ts:27-29 | exactly one `logout` for a 401 failure, and no action for a success or any other failure |
| ApiIndex.BaseQueryWithReauth | src/api/index.ts:20-32 | the result is returned unchanged; a 401 signs the store out, clears both storage keys and nothing else; otherwise state and storage are untouched |
| RequireAuth.Guard | src/store/modules/RequireAuth.tsx:13-17 | the outlet is rendered exactly when the token is truthy and a user is present; otherwise a replacing redirect to `/login` that records the location |
| RequireAuth.GuardFollowsSession | src/store/modules/RequireAuth.tsx:13-17 | after `setCredentials` with a non-empty token the guard admits; after `logout` it redirects |
| RequireAuth.TokenWithoutUser | src/store/modules/RequireAuth.tsx:13 | a token without a user is redirected |
| UseAuth.UseAuth | src/hooks/useAuth.ts:7-18 | returns the stored user and token; authenticated exactly when the token is truthy |
| UseAuth.TokenDecides | src/hooks/useAuth.ts:11 | an empty token is not authenticated; a non-empty token is, even without a user |
| UseAuth.GuardImpliesAuthenticated | src/hooks/useAuth.ts:11 | whoever the guard admits is authenticated; a token without a user is authenticated and still redirected |
| ArticleApi.Encode | src/services/articleApi.ts:11-53 | the request each article endpoint builds; its properties are `RoundTrip` and the lemmas beside it |
| ArticleApi.GetArticlesQuery | src/services/articleApi.ts:20-29 | the step-by-step URL equals the query-string build of the path and the pairs in template order |
| ArticleApi.BaseQueryIsBuild | src/services/articleApi.ts:21 | the template's fixed part is the build of its three pairs |
| ArticleApi.GetArticlesRoundTrip | src/services/articleApi.ts:20-29 | the list request decodes to the call with defaults filled in, a falsy `userId` dropped and `null` and omitted `categoryId` made the same |
| ArticleApi.RoundTrip | src/services/articleApi.ts:11-53 | every endpoint's request decodes to its canonical call, and encoding that canonical call gives the very same request |
| ArticleApi.ResourceRoundTrip | src/services/articleApi.ts:31-53 | reading, updating and deleting one article decode back to the same call, id included |
| ArticleApi.ResourceUrl | src/services/articleApi.ts:32 | an article's URL is never the collection path and names that article's id |
| ArticleApi.SameResourceUrl | src/services/articleApi.ts:32-50 | reading, updating and deleting one article address the same URL `/articles/<id>` |
| ArticleApi.ArticlesParamsSafe | src/services/articleApi.ts:21-27 | no key the list query writes contains `&` or `=`, and no value contains `&` |
| ArticleApi.DecodeArticlesParamsOf | src/services/articleApi.ts:20-27 | the pairs of a list query read back as the canonical arguments |
| CommentApi.Encode | src/services/commentApi.ts:11-43 | the request each comment endpoint builds; its properties are `RoundTrip` and the lemmas beside it |
| CommentApi.ListUrlIsBuild | src/services/commentApi.ts:15-16 | the list template is the query-string build of its four pairs in order |
| CommentApi.GetCommentsRoundTrip | src/services/commentApi.ts:15-16 | a thread query decodes to the call with defaults filled in, provided the article id has no `&` |
| CommentApi.GetUserCommentsRoundTrip | src/services/commentApi.ts:42-43 | a user's comment query decodes to the call with defaults filled in |
| CommentApi.OwnerKeysDiffer | src/services/commentApi.ts:16-43 | a user query is never read as a thread query: the two filter keys differ |
| CommentApi.RoundTrip | src/services/commentApi.ts:11-43 | every endpoint's request decodes to its canonical call, and encoding that canonical call gives the very same request |
| CommentApi.ResourceRoundTrip | src/services/commentApi.ts:25-37 | updating and deleting one comment decode back to the same call |
| CommentApi.ResourceUrl | src/services/commentApi.ts:27 | a comment's URL is never the collection path and names that comment's id |
| CommentApi.SameResourceUrl | src/services/commentApi.ts:27-34 | updating and deleting one comment address the same URL `/comments/<id>` |
| CommentApi.ParseListUrl | src/services/commentApi.ts:16 | a list URL parses back into the collection path and its four pairs |
| CommentApi.DecodeListOf | src/services/commentApi.ts:15 | the four pairs read back as the arguments with defaults filled in |
| CategoryApi.Encode | src/services/categoryApi.ts:10-35 | the request each category endpoint builds; its properties are `RoundTrip` and `EncodeInjective` |
| CategoryApi.RoundTrip | src/services/categoryApi.ts:10-35 | every call reads back unchanged from its request: nothing is dropped or defaulted |
| CategoryApi.EncodeInjective | src/services/categoryApi.ts:10-35 | two calls give the same request exactly when they are the same call |
| CategoryApi.ResourceRoundTrip | src/services/categoryApi.ts:13-35 | reading, updating and deleting one category decode back to the same call |
| CategoryApi.ResourceUrl | src/services/categoryApi.ts:14 | a category's URL names its id and is never the collection path |
| AuthApi.Encode | src/services/authApi.ts:12-42 | the request each authentication endpoint builds; its property is `RoundTrip` |
| AuthApi.RoundTrip | src/services/authApi.ts:12-42 | login, register and `getMe` read back unchanged from their requests |
| AuthApi.TransformErrorResponse | src/services/authApi.ts:18-24 | the status is kept; the message is the server's when it is a non-empty string and the fixed fallback otherwise; it is never empty |
| ArticleSlice.Updated | src/store/modules/articleSlice.ts:22-29 | the list after `updateArticle`; its properties are `UpdateSpec` |
| ArticleSlice.Deleted | src/store/modules/articleSlice.ts:30-34 | the list after `deleteArticle`; its properties are `DeleteSpec` and `DeleteIdempotent` |
| ArticleSlice.UpdateSpec | src/store/modules/articleSlice.ts:22-29 | the length is kept; exactly the first article with the payload's id is replaced, nothing else; with no such article nothing changes |
| ArticleSlice.DeleteSpec | src/store/modules/articleSlice.ts:30-34 | no article with the id is left; every other article is kept, in order, as many times as it occurred |
| ArticleSlice.DeleteIdempotent | src/store/modules/articleSlice.ts:30-34 | deleting twice is deleting once |
| ArticleSlice.DeleteAfterAdd | src/store/modules/articleSlice.ts:19-34 | deleting after an add drops the added article exactly when it has that id |
| ArticleSlice.ArticleState.constructor | src/store/modules/articleSlice.ts:8-10 | the list starts empty |
| ArticleSlice.ArticleState.SetArticles | src/store/modules/articleSlice.ts:16-18 | the payload becomes the list |
| ArticleSlice.ArticleState.AddArticle | src/store/modules/articleSlice.ts:19-21 | the payload is appended, with no duplicate check |
| ArticleSlice.ArticleState.UpdateArticle | src/store/modules/articleSlice.ts:22-29 | the list becomes the first-match replacement |
| ArticleSlice.ArticleState.DeleteArticle | src/store/modules/articleSlice.ts:30-34 | the list becomes the list without the id |
| CommentSlice.Updated | src/store/modules/commentSlice.ts:22-29 | the list after `updateComment`; its properties are `UpdateSpec` |
| CommentSlice.Deleted | src/store/modules/commentSlice.ts:30-34 | the list after `deleteComment`; its properties are `DeleteSpec` and `DeleteIdempotent` |
| CommentSlice.UpdateSpec | src/store/modules/commentSlice.ts:22-29 | the length is kept; exactly the first comment with the payload's numeric id is replaced; with none nothing changes |
| CommentSlice.DeleteSpec | src/store/modules/commentSlice.ts:30-34 | no comment with the document id is left; every other comment is kept, in order, as many times as it occurred |
| CommentSlice.DeleteIdempotent | src/store/modules/commentSlice.ts:30-34 | deleting twice is deleting once |
| CommentSlice.KeysDiffer | src/store/modules/commentSlice.ts:22-34 | delete matches by document id, update by numeric id, independently of each other |
| CommentSlice.CommentState.constructor | src/store/modules/commentSlice.ts:8-10 | the list starts empty |
| CommentSlice.CommentState.SetComments | src/store/modules/commentSlice.ts:16-18 | the payload becomes the list |
| CommentSlice.CommentState.AddComment | src/store/modules/commentSlice.ts:19-21 | the payload is appended |
| CommentSlice.CommentState.UpdateComment | src/store/modules/commentSlice.ts:22-29 | the list becomes the first-match replacement |
| CommentSlice.CommentState.DeleteComment | src/store/modules/commentSlice.ts:30-34 | the list becomes the list without the document id |
| UseArticles.Merge | src/hooks/useArticles.ts:20-32 | the list the data effect stores; its properties are `MergeShape` and the lemmas below it |
| UseArticles.MergeShape | src/hooks/useArticles.ts:20-32 | the old list stays an unchanged prefix; what follows is, in page order, exactly the fetched articles whose id was not there, each as many times as the page holds it |
| UseArticles.MergeKnown | src/hooks/useArticles.ts:23-29 | a page of already known ids leaves the list unchanged |
| UseArticles.MergeCovers | src/hooks/useArticles.ts:23-29 | after a merge every fetched id is present |
| UseArticles.MergeIdempotent | src/hooks/useArticles.ts:20-32 | merging the same page twice is merging it once |
| UseArticles.MergeFresh | src/hooks/useArticles.ts:29 | a page of all-new ids is simply appended |
| UseArticles.MergeDistinct | src/hooks/useArticles.ts:23-29 | distinct ids before the merge and within the page give distinct ids after it |
| UseArticles.DuplicateWithinPageKept | src/hooks/useArticles.ts:25-27 | only ids already in the list are screened out; a page that repeats an id keeps both copies |
| UseArticles.NextPage | src/hooks/useArticles.ts:34-43 | the page advances by one exactly when not fetching and the server's page and page count are truthy with page below page count |
| UseArticles.NoAdvanceWithoutData | src/hooks/useArticles.ts:35-39 | while fetching, or with no data, the page never moves |
| UseArticles.HasMore | src/hooks/useArticles.ts:52 | false without data, otherwise whether the current page is below the page count |
| UseArticles.LoadMoreAgreesWithHasMore | src/hooks/useArticles.ts:34-52 | when the server's page is the current page, `loadMore` advances exactly when not fetching and `hasMore` holds |
| UseArticles.ArticleFeed.constructor | src/hooks/useArticles.ts:4-7 | page 1 and an empty list |
| UseArticles.ArticleFeed.Query | src/hooks/useArticles.ts:9-13 | the query asks for the current page, three per page, the category when there is one, and no user filter |
| UseArticles.ArticleFeed.SetCategory | src/hooks/useArticles.ts:15-18 | a changed category empties the list and returns to page 1; the same category changes nothing |
| UseArticles.ArticleFeed.OnData | src/hooks/useArticles.ts:20-32 | present data is merged into the list; the page and category are unchanged |
| UseArticles.ArticleFeed.LoadMore | src/hooks/useArticles.ts:34-43 | the page becomes `NextPage`; the list is unchanged |
| ArticlesPage.FilteredArticles | src/pages/Articles/Articles.tsx:15-17 | the search applied to the accumulated list; its properties are `FilteredSpec` |
| ArticlesPage.FilteredSpec | src/pages/Articles/Articles.tsx:15-17 | the shown list keeps page order and holds exactly the articles whose lower-cased title contains the lower-cased query, each as many times as the list holds it |
| ArticlesPage.EmptyQueryKeepsAll | src/pages/Articles/Articles.tsx:15-17 | an empty search shows every article |
| ArticlesPage.CaseInsensitiveExample | src/pages/Articles/Articles.tsx:16 | an upper-case query finds a lower-case title |
| ArticlesPage.PageAfterObserver | src/pages/Articles/Articles.tsx:21-44 | the page advances by one exactly when the sentinel is visible, `hasMore` holds and `loadMore`'s own guard holds |
| ArticlesPage.EndOfListStopsLoading | src/pages/Articles/Articles.tsx:186 | while the end-of-list notice shows, the observer never advances the page |
| ArticlesPage.SelectValue | src/pages/Articles/Articles.tsx:121 | the select shows the empty option exactly for no category or category 0 |
| ArticlesPage.CategoryFromSelect | src/pages/Articles/Articles.tsx:122-127 | the empty option gives no category; any other option gives its number |
| ArticlesPage.SelectRoundTrip | src/pages/Articles/Articles.tsx:121-127 | choosing a non-zero category and reading the select back gives that category |
| ArticlesPage.Render | src/pages/Articles/Articles.tsx:46-188 | spinner only while the first page loads, then the error notice, then the filtered grid with its empty-state hint and end-of-list notice |
| ArticlesPage.LoadedFeedStaysVisible | src/pages/Articles/Articles.tsx:46 | once articles have arrived, a later fetch with no error and an empty search shows all of them |
| ArticlesPage.ArticlesView.constructor | src/pages/Articles/Articles.tsx:9-13 | no category, an empty search, and a fresh feed on page 1 |
| ArticlesPage.ArticlesView.OnSearchChange | src/pages/Articles/Articles.tsx:105 | the search text is replaced and the category kept |
| ArticlesPage.ArticlesView.OnCategoryChange | src/pages/Articles/Articles.tsx:122-127 | the category becomes the select's choice and is handed to the feed, which resets exactly when it changed |
| ArticleCommentForm.IsNearLimit | src/components/ArticleCommentForm.tsx:25-26 | near the limit exactly when at most 50 characters remain, that is, 450 or more are written |
| ArticleCommentForm.HasContent | src/components/ArticleCommentForm.tsx:27 | there is content exactly when the text is not all white space |
| ArticleCommentForm.SubmitDisabled | src/components/ArticleCommentForm.tsx:85 | submit is disabled exactly while posting or when the text is blank |
| ArticleCommentForm.CommentForm.constructor | src/components/ArticleCommentForm.tsx:13 | the text starts empty |
| ArticleCommentForm.CommentForm.OnChange | src/components/ArticleCommentForm.tsx:44-48 | a value within 500 characters replaces the text; a longer one is refused; the cap is kept, so the remaining-characters counter stays between 0 and 500 |
| ArticleCommentForm.CommentForm.HandleSubmit | src/components/ArticleCommentForm.tsx:17-23 | blank text submits nothing and stays; otherwise the untrimmed text is submitted and the box emptied |
| ArticleCommentForm.CommentForm.Clear | src/components/ArticleCommentForm.tsx:75 | the text becomes empty |
| ArticleCommentItem.DiffDays | src/components/ArticleCommentItem.tsx:36-37 | the whole number of days between the two instants, in either direction, rounded down |
| ArticleCommentItem.DiffDaysSymmetric | src/components/ArticleCommentItem.tsx:36 | a future date reads like the same distance in the past |
| ArticleCommentItem.FormatDate | src/components/ArticleCommentItem.tsx:33-52 | the relative date shown under a comment; its properties are `FormatDateCases` and `ThreeDaysAgo` |
| ArticleCommentItem.DateBucket | src/components/ArticleCommentItem.tsx:39-51 | "Today" for 0 days, "Yesterday" for 1, "n days ago" for 2 to 6, the calendar date from 7 on |
| ArticleCommentItem.FormatDateCases | src/components/ArticleCommentItem.tsx:33-52 | within the last 24 hours it is "Today", 24 to 48 hours ago "Yesterday", a week or more away the locale date |
| ArticleCommentItem.ThreeDaysAgo | src/components/ArticleCommentItem.tsx:44 | three days back reads "3 days ago" |
| ArticleCommentItem.ControlsVisible | src/components/ArticleCommentItem.tsx:31-78 | edit and delete controls show exactly for one's own comment when not editing |
| ArticleCommentItem.CommentItem.constructor | src/components/ArticleCommentItem.tsx:23-24 | not editing, with the draft set to the comment's text |
| ArticleCommentItem.CommentItem.StartEditing | src/components/ArticleCommentItem.tsx:81 | edit mode starts and the draft is kept |
| ArticleCommentItem.CommentItem.OnEditChange | src/components/ArticleCommentItem.tsx:108 | the draft is replaced |
| ArticleCommentItem.CommentItem.HandleUpdate | src/components/ArticleCommentItem.tsx:26-29 | hands over the comment and the current draft, and leaves edit mode |
| ArticleCommentItem.CommentItem.Cancel | src/components/ArticleCommentItem.tsx:133 | edit mode ends and the draft is not reset |
| CategoryForm.InitialName | src/components/CategoryForm.tsx:18 | the edited category's name, or empty when creating |
| Text.BusyOrBlank | src/components/CategoryForm.tsx:53 | disabled exactly while the request is in flight or when the text is blank; the category form's submit button and the comment editor's save button (src/components/ArticleCommentItem.tsx:120) both use this guard |
| CategoryForm.ButtonLabel | src/components/CategoryForm.tsx:56-63 | "Saving..." while saving, otherwise "Update Category" when editing and "Create Category" when creating |
| CategoryForm.CategoryFormState.constructor | src/components/CategoryForm.tsx:18 | the name is seeded from the initial data |
| CategoryForm.CategoryFormState.OnInitialDataChange | src/components/CategoryForm.tsx:20-22 | new initial data reseeds the name the same way |
| CategoryForm.CategoryFormState.OnChange | src/components/CategoryForm.tsx:42 | the name is replaced |
| CategoryForm.CategoryFormState.HandleSubmit | src/components/CategoryForm.tsx:24-27 | the name is submitted as typed, untrimmed, and kept |
| ProfileComment.SortDesc | src/components/ProfileComment.tsx:29-35 | the sort the page applies; its properties are `SortDescSpec` and the lemmas below it |
| ProfileComment.SortDescSpec | src/components/ProfileComment.tsx:29-35 | the sort returns a permutation of the page, newest first |
| ProfileComment.SortDescKeepsTies | src/components/ProfileComment.tsx:31-34 | comments with the same timestamp keep the server's order |
| ProfileComment.SortDescCharacterised | src/components/ProfileComment.tsx:31-34 | any newest-first ordering that keeps same-timestamp comments in server order is exactly what the sort produces |
| ProfileComment.SortedUnique | src/components/ProfileComment.tsx:31-34 | two newest-first orderings with the same same-timestamp order are equal |
| ProfileComment.SortedComments | src/components/ProfileComment.tsx:29-35 | nothing until data arrives; then a newest-first permutation of the page that keeps ties in server order |
| ProfileComment.HasMore | src/components/ProfileComment.tsx:37-39 | more pages exactly when a pagination block is present and the page is below its page count |
| ProfileComment.QueryArgs | src/components/ProfileComment.tsx:24-27 | the owner is the user id as text (empty without a user), with the current page and five per page |
| ProfileComment.Request | src/components/ProfileComment.tsx:24-27 | no call exactly when skipped (signed out or no user); otherwise the user-comments query for that user's id, the current page and five per page |
| ProfileComment.QueryRequest | src/components/ProfileComment.tsx:24-27 | once signed in with a user the page issues that query, and its request reads back as the same query |
| ProfileComment.ObserverNextPage | src/components/ProfileComment.tsx:41-61 | the page advances by one exactly when the sentinel is visible, more pages exist and nothing is fetching |
| ProfileComment.Render | src/components/ProfileComment.tsx:63-172 | the login prompt exactly when signed out; signed in, the spinner exactly while loading, the error notice exactly when not loading and failed, otherwise "no comments" or the sorted list with the end notice exactly when there is no more |
| ProfileComment.ProfileCommentsView.constructor | src/components/ProfileComment.tsx:14 | the page starts at 1 |
| ProfileComment.ProfileCommentsView.OnIntersect | src/components/ProfileComment.tsx:43-46 | the page becomes what the observer rule gives |
| Url.ParseBuild | src/services/articleApi.ts:21-27 | a built URL parses back into its path and pairs, when the path has no `?` and the pairs are safe |
| Url.ResourceIdOf | src/services/articleApi.ts:32 | `/<collection>/<id>` parses as a resource URL naming that id |
| Decimal.IntValueRoundTrip | src/services/articleApi.ts:21 | the decimal text of an integer reads back as that integer |
| Decimal.IntToStringInjective | src/services/articleApi.ts:23-26 | distinct integers render differently |
| Decimal.IntToStringChars | src/services/articleApi.ts:23-26 | the text of an integer holds only digits and a leading minus, so it never contains `&` |
| Text.TrimEmptyIffBlank | src/components/ArticleCommentForm.tsx:27 | `trim()` is empty exactly when the text is all white space |
| Text.IncludesIffOccurs | src/pages/Articles/Articles.tsx:16 | `includes` holds exactly when the query occurs at some position |
| Text.ToLowerCase | src/pages/Articles/Articles.tsx:16 | lower-casing keeps the length and lower-cases each letter in place |
| JsArray.FindIndex | src/store/modules/articleSlice.ts:23-25 | the first matching position, or -1 exactly when nothing matches |
| JsArray.Filter | src/store/modules/articleSlice.ts:31-33 | holds exactly the elements that pass, and each comes from the input |
| JsArray.FilterCount | src/store/modules/articleSlice.ts:31-33 | every element that passes is kept as many times as it occurs, and every other element is gone |
| JsArray.FilterIdempotent | src/store/modules/articleSlice.ts:31-33 | filtering twice with the same test is filtering once |

## Left out

- Network, timing and caching: the request library's fetching, caching,
  refetching and its `isLoading`, `isFetching` and `isError` flags. These are
  inputs to the modelled handlers. A response arriving for a page other than
  the current one is merged like any other page.
- React scheduling: effects are modelled as the method their dependency change
  triggers (`SetCategory`, `OnInitialDataChange`). The observer's setup and
  teardown, `isFocused` and all styling are not modelled.
- The base URL from the environment and `credentials: "include"`. URLs are
  modelled as the path the services write.
- Selectors (`selectCurrentUser`, `selectCurrentToken`, `selectAllArticles`)
  are plain reads of the modelled state.
- Percent-encoding: the services interpolate ids unencoded. Round trips are
  proved for ids that are one path segment and for list owners without `&`.
- `Number()`: the category select reads an option value. Option values are
  category ids written in decimal, so only that text is modelled.
- Json: whitespace, key order and value types other than string, boolean,
  integer and `null` are not modelled.
- AuthSlice.LoadAuthState: stored text the model's parser rejects gives the
  signed-out state, where `JSON.parse` would accept it and restore the
  session. Such text has whitespace, a different key order, or user fields
  beyond the four modelled ones (the backend's full user record has more).
  Text that `setCredentials` wrote is always accepted. A lone surrogate is written as it is
  rather than as a `\uXXXX` escape; well-formed text is unaffected.
- Records keep only the fields some modelled rule reads. The stored user is
  modelled with `id`, `username`, `email` and `blocked`; the backend's other
  user fields are not part of the round trip.
- Text.ToLowerCase: only ASCII letters are lower-cased; the Unicode case
  mapping is not modelled. String lengths count UTF-16 code units, which the
  model equates with characters.
- Dates are integer milliseconds. Invalid dates (`NaN`) and the parsing of
  ISO strings are not modelled. The locale formatting of a calendar date is a
  parameter of `FormatDate`.
- The profile list's link to each comment's article, and the "no longer
  available" text. `Comment` carries no article field.
- AuthApi.TransformErrorResponse: a message that is not a string (a number,
  an object) is not modelled; only absent, empty and non-empty strings are.
- The error notices' texts (`error.toString()`, the status suffix).
- src/store/modules/authApiSplice.ts is not part of this model.

## Findings

| source | as written | input that shows it | evidently intended | confidence | as-written member | corrected member |
|---|---|---|---|---|---|---|
| src/api/index.ts:11-12 | when the store has no token, the raw `localStorage` value is used. That value was written with `JSON.stringify` (src/store/modules/authSlice.ts:31), so it still carries its quotes | storage holds `authToken` = `"abc"` (quotes included) and the store's token is `null`, e.g. after a reload whose `authUser` entry is missing; the header becomes `Bearer "abc"` | read the stored value back with `JSON.parse`, giving `Bearer abc` | not executed | ApiIndex.QuotedTokenHeader | ApiIndex.ChooseToken |
