/** The trending-topics route keeps at most the first three topics it is sent. */
module Trending {
  import opened Js

  const MaxTopics := 3

  /** The `trending` field of the request body. */
  datatype Body<T> = Missing | NotAnArray | Topics(items: seq<T>)

  /** The handler's outcome: a 400 error, or the topics it stores. */
  datatype Saved<T> = BadRequest | Stored(trending: seq<T>)

  /** `if (!trending || !Array.isArray(trending)) 400; else trending.slice(0, 3)`. */
  function SaveTrending<T>(body: Body<T>): (r: Saved<T>)
    ensures r.Stored? <==> body.Topics?
    ensures r.Stored? ==> |r.trending| <= MaxTopics && r.trending <= body.items
    ensures r.Stored? && |body.items| <= MaxTopics ==> r.trending == body.items
    ensures r.Stored? && |body.items| >= MaxTopics ==> |r.trending| == MaxTopics
  {
    match body
    case Topics(items) => Stored(Take(items, MaxTopics))
    case _ => BadRequest
  }

  /** Sending back what was stored stores the same topics. */
  lemma SaveTrendingIdempotent<T>(items: seq<T>)
    ensures var first := SaveTrending(Topics(items));
      SaveTrending(Topics(first.trending)) == first
  {
  }
}
