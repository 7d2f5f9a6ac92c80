/** The immutable post record every component consumes. */
module Tweets {
  import opened Wrappers

  /** A `created_at` timestamp, kept as the provider's ISO-8601 text; it is never inspected. */
  datatype Instant = Instant(iso: string)

  /** One post with its author's identity. `createdAt` is `None` where the source has `null`. */
  datatype Tweet = Tweet(
    id: string,
    authorId: string,
    authorName: string,
    authorUsername: string,
    text: string,
    createdAt: Option<Instant>)
}
