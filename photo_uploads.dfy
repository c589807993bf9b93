/**
  The singleton feed cache (`usePhotoUploads`): the bulk load, the live
  subscription's handlers and the init guard with its mount and unmount
  hooks. Network results arrive as arguments; each handler is one atomic
  step.
 */
module PhotoUploads {
  import opened Wrappers
  import opened Json
  import opened PhotoSchema
  import opened PhotoQueries

  /** What ends up in the `error` state. */
  datatype Err =
    | SchemaError               // the bulk batch failed `photoQuerySchema`
    | FetchError(reason: string) // the bulk `client.fetch` threw
    | ListenError(reason: string) // the subscription reported a transport error

  /** The outcome of one `client.fetch`: a raw body, or a thrown error. */
  datatype Response = Body(raw: Json) | Thrown(reason: string)

  /** What the bulk load does with its response: the whole parsed batch, or
      the error it records. */
  function BulkOutcome(resp: Response): (r: Result<seq<Photo>, Err>)
    ensures r.Success? <==> resp.Body? && ValidPhotoArray(resp.raw)
    ensures r.Success? ==> |r.value| == |resp.raw.items|
    ensures r.Success? ==>
      forall i :: 0 <= i < |resp.raw.items| ==> ParsePhoto(resp.raw.items[i]) == Some(r.value[i])
    ensures resp.Thrown? ==> r == Failure(FetchError(resp.reason))
    ensures resp.Body? && !ValidPhotoArray(resp.raw) ==> r == Failure(SchemaError)
  {
    match resp
    case Thrown(reason) => Failure(FetchError(reason))
    case Body(raw) =>
      match ParsePhotoArray(raw)
      case Some(ps) => Success(ps)
      case None => Failure(SchemaError)
  }

  /** The records the `next` handler puts in front of the feed: empty when
      the update has no result, the re-fetch threw, the batch failed the
      schema, or it was empty. */
  function Incoming(hasResult: bool, resp: Response): (data: seq<Photo>)
    ensures data != [] <==>
      hasResult && resp.Body? && ValidPhotoArray(resp.raw) && resp.raw.items != []
    ensures data != [] ==> |data| == |resp.raw.items|
    ensures data != [] ==>
      forall i :: 0 <= i < |data| ==> ParsePhoto(resp.raw.items[i]) == Some(data[i])
  {
    if !hasResult then []
    else
      match resp
      case Thrown(_) => []
      case Body(raw) =>
        match ParsePhotoArray(raw)
        case Some(ps) => ps
        case None => []
  }

  /** The module-level singleton state. */
  class PhotoFeed {
    var feed: seq<Photo>         // `photoUploads.value`
    var loading: bool
    var error: Option<Err>
    var isInitialized: bool
    var subscribed: bool         // `subscription != null`
    var fetchPending: bool       // the bulk fetch has started and not finished

    ghost var bulkFetches: nat        // bulk fetches ever started
    ghost var openSubscriptions: nat  // subscriptions created and not released

    /** The init guard has run exactly when one bulk fetch was started; no
        subscription is created and not released except the one the
        reference holds (after a transport error that one may have ended,
        yet it is still held); `loading` is set from start-up until the bulk
        load finishes. */
    ghost predicate Valid()
      reads this
    {
      && (!isInitialized ==> !subscribed && !fetchPending)
      && bulkFetches == (if isInitialized then 1 else 0)
      && openSubscriptions == (if subscribed then 1 else 0)
      && loading == (!isInitialized || fetchPending)
    }

    /** The state at module load: `loading` starts out true. */
    constructor ()
      ensures Valid()
      ensures feed == [] && loading && error == None
      ensures !isInitialized && !subscribed && !fetchPending
    {
      feed, loading, error := [], true, None;
      isInitialized, subscribed, fetchPending := false, false, false;
      bulkFetches, openSubscriptions := 0, 0;
    }

    /** `usePhotoUploads()`: the first call starts the bulk fetch (setting
        `loading`) and creates the subscription; every later call changes
        nothing. */
    method Use()
      requires Valid()
      modifies this
      ensures Valid()
      ensures isInitialized && bulkFetches == 1
      ensures old(isInitialized) ==> unchanged(this)
      ensures !old(isInitialized) ==>
        && loading && fetchPending && subscribed && openSubscriptions == 1
        && feed == old(feed) && error == old(error)
    {
      if !isInitialized {
        loading := true;
        fetchPending := true;
        bulkFetches := bulkFetches + 1;
        subscribed := true;
        openSubscriptions := openSubscriptions + 1;
        isInitialized := true;
      }
    }

    /** The rest of `fetchPhotoUploads` once its fetch returns: the feed
        becomes the whole parsed batch, or stays as it was and `error` is
        set; `loading` is cleared either way. A success does not clear an
        earlier error. */
    method BulkLoadResult(resp: Response)
      requires Valid() && fetchPending
      modifies this`feed, this`error, this`loading, this`fetchPending
      ensures Valid()
      ensures !loading && !fetchPending
      ensures BulkOutcome(resp).Success? ==>
        feed == BulkOutcome(resp).value && error == old(error)
      ensures BulkOutcome(resp).Failure? ==>
        feed == old(feed) && error == Some(BulkOutcome(resp).error)
    {
      match BulkOutcome(resp) {
        case Success(ps) => feed := ps;
        case Failure(e) => error := Some(e);
      }
      loading := false;
      fetchPending := false;
    }

    /** The subscription's `next` handler for an update whose result has id
        `update` (`None` when it carries no result). It returns the query it
        re-fetches with; `resp` is that fetch's outcome. The re-fetched
        records, when they pass the schema and are not empty, are put in
        front of the feed as they are (no removal of an id already present,
        no re-ordering). */
    method MergeResult(update: Option<string>, resp: Response) returns (query: Option<string>)
      requires Valid()
      modifies this`feed
      ensures Valid()
      ensures query == if update.Some? then Some(GetPhotoById(update.value)) else None
      ensures feed == Incoming(update.Some?, resp) + old(feed)
    {
      query := if update.Some? then Some(GetPhotoById(update.value)) else None;
      var data := Incoming(update.Some?, resp);
      if data != [] {
        feed := data + feed;
      }
    }

    /** The subscription's `error` handler. */
    method SubscriptionError(reason: string)
      requires Valid()
      modifies this`error
      ensures Valid()
      ensures error == Some(ListenError(reason))
    {
      error := Some(ListenError(reason));
    }

    /** The `onMounted` hook: subscribes again only when no subscription is
        held. Hooks exist only once the init guard has run. */
    method Mounted()
      requires Valid() && isInitialized
      modifies this`subscribed, this`openSubscriptions
      ensures Valid()
      ensures subscribed && openSubscriptions == 1
      ensures old(subscribed) ==> openSubscriptions == old(openSubscriptions)
    {
      if !subscribed {
        subscribed := true;
        openSubscriptions := openSubscriptions + 1;
      }
    }

    /** The `onUnmounted` hook: releases the subscription when one is held.
        It does not reset `isInitialized`, and it does not count consumers:
        any unmount releases the shared subscription. */
    method Unmounted()
      requires Valid()
      modifies this`subscribed, this`openSubscriptions
      ensures Valid()
      ensures !subscribed && openSubscriptions == 0
      ensures !old(subscribed) ==> openSubscriptions == old(openSubscriptions)
    {
      if subscribed {
        subscribed := false;
        openSubscriptions := openSubscriptions - 1;
      }
    }
  }

  /** A notification delivered twice for the same valid record puts the record
      in the feed twice: the merge does not deduplicate. */
  lemma RepeatedMergeDuplicates(feed: seq<Photo>, p: Photo)
    ensures
      var resp := Body(PhotoArrayJson([p]));
      var once := Incoming(true, resp) + feed;
      var twice := Incoming(true, resp) + once;
      |twice| == |feed| + 2 && twice[0] == twice[1] == p && twice[2..] == feed
  {
  }

  /** Two consumers, one fetch, one subscription: a walk through the
      lifecycle as the hooks and handlers drive it. */
  method ConsumerLifecycle(first: Response, p: Photo)
    requires p.show == ShowAbsent  // the queries do not project `show`
  {
    var cache := new PhotoFeed();
    cache.Use();
    cache.Use();
    assert cache.bulkFetches == 1 && cache.openSubscriptions == 1 && cache.loading;
    cache.BulkLoadResult(first);
    assert !cache.loading;
    var before := cache.feed;
    var q := cache.MergeResult(Some("photo-1"), Thrown("offline"));
    assert q == Some(GetPhotoById("photo-1"));
    q := cache.MergeResult(Some("photo-1"), Body(JArr([JNull])));
    q := cache.MergeResult(None, Body(PhotoArrayJson([p])));
    assert q == None && cache.feed == before;
    PhotoArrayRoundTrip([p]);
    q := cache.MergeResult(Some("photo-1"), Body(PhotoArrayJson([p])));
    assert cache.feed == [p] + before;
    cache.Mounted();
    cache.Unmounted();
    cache.Unmounted();
    assert !cache.subscribed && cache.openSubscriptions == 0 && cache.isInitialized;
    cache.Use();
    assert cache.bulkFetches == 1 && !cache.subscribed;
    cache.Mounted();
    assert cache.openSubscriptions == 1;
  }

  /** A live update can land while the bulk fetch is still pending, since the
      subscription is created alongside it. A failed bulk load keeps the
      merged record; a successful one replaces the feed and drops it. */
  method MergeDuringBulkLoad(p: Photo, batch: seq<Photo>)
    requires p.show == ShowAbsent
  {
    PhotoArrayRoundTrip([p]);
    PhotoArrayRoundTrip(batch);

    var failing := new PhotoFeed();
    failing.Use();
    var q := failing.MergeResult(Some("photo-1"), Body(PhotoArrayJson([p])));
    failing.BulkLoadResult(Body(JNull));
    assert failing.feed == [p] && failing.error == Some(SchemaError);

    var succeeding := new PhotoFeed();
    succeeding.Use();
    q := succeeding.MergeResult(Some("photo-1"), Body(PhotoArrayJson([p])));
    assert succeeding.feed == [p];
    succeeding.BulkLoadResult(Body(PhotoArrayJson(batch)));
    assert succeeding.feed == batch;
  }
}
