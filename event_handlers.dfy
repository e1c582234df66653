/**
 * The network side of the scraper: feed responses are tracked by request
 * id from the moment their headers arrive until their body has loaded;
 * each body is then decoded once and its feed items are queued for the
 * watch loop.
 */
module EventHandling {
  import opened Wrappers
  import opened Values
  import opened Scraper

  /** The browser's answer to the request for a response body. */
  datatype BodyFetch =
    | FetchRaised(error: Exception)     // the request raised
    | NoBody                            // the answer was None
    | Body(body: string, isBase64: bool)

  /**
   * Base64 decoding (when flagged), UTF-8 decoding and JSON parsing of a
   * body, as one partial function: `None` where any of them raises.
   */
  type Decoder = (string, bool) -> Option<Value>

  /**
   * The feed items of a parsed response: what iterating over its "itemList"
   * entry yields. A document that is not a dict, or has no "itemList", or
   * whose entry has no length, yields nothing (the source either returns
   * early or raises and catches).
   */
  function FeedItems(data: Value): (r: seq<Value>)
    ensures !data.Object? ==> r == []
    ensures data.Object? && !HasKey(data.fields, "itemList") ==> r == []
    ensures data.Object? && HasKey(data.fields, "itemList") && Get(data.fields, "itemList").value.Array? ==>
      r == Get(data.fields, "itemList").value.elems
  {
    match data
    case Object(fields) =>
      (match Get(fields, "itemList")
       case Some(items) => Iterate(items).GetOr([])
       case None => [])
    case _ => []
  }

  /** The items `handle_response` queues for a fetched body. */
  function DecodedItems(fetch: BodyFetch, decode: Decoder): (r: seq<Value>)
    ensures fetch.FetchRaised? || fetch.NoBody? ==> r == []
    ensures fetch.Body? && decode(fetch.body, fetch.isBase64).None? ==> r == []
    ensures fetch.Body? && decode(fetch.body, fetch.isBase64).Some? ==> r == FeedItems(decode(fetch.body, fetch.isBase64).value)
  {
    match fetch
    case Body(body, isBase64) =>
      (match decode(body, isBase64)
       case Some(data) => FeedItems(data)
       case None => [])
    case _ => []
  }

  class EventHandlers {
    const context: ScraperContext

    constructor (context: ScraperContext)
      ensures this.context == context
    {
      this.context := context;
    }

    /**
     * `response_received_handler`: a feed response not yet processed
     * becomes pending; any other response changes nothing.
     */
    method ResponseReceived(url: string, requestId: string)
      requires context.Valid()
      modifies context`pendingRequestIds
      ensures context.Valid()
      ensures TargetEndpoint <= url && requestId !in context.processedRequestIds ==>
        context.pendingRequestIds == old(context.pendingRequestIds) + {requestId}
      ensures !(TargetEndpoint <= url) || requestId in context.processedRequestIds ==>
        context.pendingRequestIds == old(context.pendingRequestIds)
      ensures context.processedRequestIds == old(context.processedRequestIds)
    {
      if TargetEndpoint <= url {
        if requestId in context.processedRequestIds {
          return;
        }
        context.pendingRequestIds := context.pendingRequestIds + {requestId};
      }
    }

    /**
     * `loading_finished_handler`: a pending id moves to processed and its
     * body is decoded, exactly once; any other id changes nothing. The
     * decode task is taken to run to completion here; `fetch` is the
     * browser's answer to the body request.
     */
    method LoadingFinished(requestId: string, fetch: BodyFetch, decode: Decoder) returns (spawned: bool)
      requires context.Valid()
      modifies context`pendingRequestIds, context`processedRequestIds, context`videoBatchesQueue
      ensures context.Valid()
      ensures spawned <==> requestId in old(context.pendingRequestIds)
      ensures spawned ==>
        context.pendingRequestIds == old(context.pendingRequestIds) - {requestId} &&
        context.processedRequestIds == old(context.processedRequestIds) + {requestId} &&
        context.videoBatchesQueue == old(context.videoBatchesQueue) + DecodedItems(fetch, decode)
      ensures !spawned ==>
        context.pendingRequestIds == old(context.pendingRequestIds) &&
        context.processedRequestIds == old(context.processedRequestIds) &&
        context.videoBatchesQueue == old(context.videoBatchesQueue)
    {
      spawned := requestId in context.pendingRequestIds;
      if spawned {
        context.pendingRequestIds := context.pendingRequestIds - {requestId};
        context.processedRequestIds := context.processedRequestIds + {requestId};
        HandleResponse(fetch, decode);
      }
    }

    /**
     * `handle_response`: puts the feed items of the body on the queue, one
     * at a time and in order; a missing body, a failed decode or a
     * document without items puts nothing.
     */
    method HandleResponse(fetch: BodyFetch, decode: Decoder)
      modifies context`videoBatchesQueue
      ensures context.videoBatchesQueue == old(context.videoBatchesQueue) + DecodedItems(fetch, decode)
    {
      if fetch.FetchRaised? || fetch.NoBody? {
        return;
      }
      var data := decode(fetch.body, fetch.isBase64);
      if data.None? {
        return;
      }
      var videos := FeedItems(data.value);
      for i := 0 to |videos|
        invariant context.videoBatchesQueue == old(context.videoBatchesQueue) + videos[..i]
      {
        context.videoBatchesQueue := context.videoBatchesQueue + [videos[i]];
      }
      assert videos[..|videos|] == videos;
    }

    /**
     * A second loading-finished event for the same id spawns no second
     * decode, and a later response with that id is not tracked again.
     */
    method FinishedTwice(requestId: string, url: string, fetch: BodyFetch, decode: Decoder)
      returns (first: bool, second: bool)
      requires context.Valid()
      modifies context`pendingRequestIds, context`processedRequestIds, context`videoBatchesQueue
      ensures context.Valid()
      ensures first <==> requestId in old(context.pendingRequestIds)
      ensures !second
      ensures first ==> requestId !in context.pendingRequestIds && requestId in context.processedRequestIds
      ensures context.videoBatchesQueue == old(context.videoBatchesQueue) + (if first then DecodedItems(fetch, decode) else [])
    {
      first := LoadingFinished(requestId, fetch, decode);
      second := LoadingFinished(requestId, fetch, decode);
      ResponseReceived(url, requestId);
    }
  }
}
