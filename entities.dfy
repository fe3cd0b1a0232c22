/** The records the application mirrors from the content backend. Timestamps are
    integer milliseconds since the epoch. Only the fields that some modelled rule
    reads are kept. */
module Entities {
  import opened Wrappers

  datatype User = User(id: int, username: string, email: string, blocked: bool)

  /** `documentId` is the external identifier used in request paths; `id` is the
      numeric identifier used for equality checks and list keys. */
  datatype Article = Article(id: int, documentId: string, title: string, description: string)

  /** `userId` is `comment.user.id`, the author. */
  datatype Comment = Comment(id: int, documentId: string, content: string, userId: int, createdAt: int)

  datatype Category = Category(id: int, documentId: string, name: string)

  /** The `meta.pagination` block of a list response. */
  datatype Pagination = Pagination(page: int, pageSize: int, pageCount: int, total: int)

  /** `GET /articles` response: `{data, meta: {pagination}}`. */
  datatype ArticlesResponse = ArticlesResponse(data: seq<Article>, pagination: Pagination)

  /** `GET /comments` response; its pagination block may be missing. */
  datatype CommentsResponse = CommentsResponse(data: seq<Comment>, pagination: Option<Pagination>)

  /** Body of a successful login or registration. */
  datatype LoginResponse = LoginResponse(jwt: string, user: User)
}
