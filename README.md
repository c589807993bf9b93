# Photo feed cache — a verified model

This project models the synchronisation core of a wedding-photo feed: the
singleton cache in `src/composables/usePhotoUploads.ts`, which loads the
feed of photo records from a document store and then keeps it current
through a live subscription.

- `wrappers.dfy` — `Option` and `Result`.
- `json.dfy` — the raw values the store returns: null, booleans, numbers,
  strings, arrays and objects. A missing key stands for an absent
  (`undefined`) value.
- `photo_schema.dfy` — the record schema (`photoSchema`, `photoQuerySchema`).
  `ParsePhoto` follows the schema's nesting. `ValidPhoto` states the same
  requirements leaf by leaf, by path. The contracts prove that the two agree
  and that a parsed record keeps every leaf of its input. `PhotoJson` gives
  a raw form of a record, and parsing it returns the record. Neither feed
  query projects `show`, so every record the store returns parses with
  `show` absent.
- `photo_queries.dfy` — the text of the single-record query (`getPhotoById`),
  which the `next` handler re-fetches with.
- `photo_uploads.dfy` — the feed cache. The pure functions `BulkOutcome` and
  `Incoming` say what the bulk load and the `next` handler do with a
  response. The class `PhotoFeed` holds the singleton state (`feed`,
  `loading`, `error`, `isInitialized`, and whether a subscription is held).
  Its methods are the init guard `Use`, the end of the bulk load, the
  subscription's two handlers and the mount and unmount hooks. The ghost
  counters `bulkFetches` and `openSubscriptions` back the object invariant
  `Valid()`. That invariant says the bulk fetch runs at most once, at most
  one subscription is held, and `loading` is true from start-up until the
  bulk load finishes.

Network results (`client.fetch`, `client.listen`) arrive as method
arguments. Each handler runs as one atomic step.

The model keeps what the code does, including behaviour a reader of a
shared, deduplicated, ordered feed might not expect:
- The `next` handler prepends with a plain `unshift`. It does not remove a
  record whose id is already in the feed, and it does not re-check the
  `_createdAt` ordering. `RepeatedMergeDuplicates` shows that a repeated
  notification puts the record in twice.
- Records with `show: false` are kept out only by the store-side query
  filter. The schema itself accepts `show: false`.
- There is no count of consumers: any unmount releases the shared
  subscription, even while other components still use the feed.
  `isInitialized` is never reset, so the init block runs once per process,
  as the comment at `usePhotoUploads.ts:125` says.
- The `next` handler does not check whether the cache is still subscribed.
- The subscription is created in the same init block that starts the bulk
  fetch, so a live update can be merged before the bulk load finishes. A
  failed bulk load then keeps the merged records; a successful one replaces
  the whole feed and drops them. `MergeDuringBulkLoad` walks through both.
- A failed bulk load leaves the feed as it was and sets `error`. A
  successful load does not clear an earlier error. `loading` starts out
  true, before any fetch begins.
- After the subscription's `error` callback the listen stream has ended,
  but the reference is still held. The mount hook therefore does not
  subscribe again, and no live updates arrive until an unmount and a later
  mount.
- The id is spliced into the single-record query text without escaping.

## Model

| member | source | states |
|---|---|---|
| `PhotoSchema.ParsePhoto` | src/composables/usePhotoUploads.ts:15-31 | a raw record parses iff `_createdAt` is a string, `show` is absent, null or boolean, width and height are numbers, `url` is a string, and caption and attribution are each a string or null; a parsed record carries every one of those leaves unchanged |
| `PhotoSchema.ParseAll` | src/composables/usePhotoUploads.ts:33 | a sequence of raw records parses iff every element is valid; the result has the same length, and element i is the parse of raw element i |
| `PhotoSchema.ParsePhotoArray` | src/composables/usePhotoUploads.ts:33 | a batch parses iff it is an array whose every element is valid, so one bad element rejects the whole batch; on success the records are the element-wise parses, in order |
| `PhotoSchema.PhotoJson` | src/composables/usePhotoUploads.ts:36-53 | a raw form of the record, in the nesting the feed query projects (plus `show` when the record has one), is valid and parses back to the same record |
| `PhotoSchema.PhotoArrayRoundTrip` | src/composables/usePhotoUploads.ts:33-53 | a batch in raw form validates and parses back to exactly the same sequence of records |
| `PhotoQueries.GetPhotoById` | src/composables/usePhotoUploads.ts:55-73 | the single-record query puts the id verbatim between a fixed filter prefix and a fixed ordering/projection suffix, so the id can be read back from the query |
| `PhotoQueries.GetPhotoByIdInjective` | src/composables/usePhotoUploads.ts:55-73 | two ids that give the same query text are equal |
| `PhotoUploads.BulkOutcome` | src/composables/usePhotoUploads.ts:86-91 | the bulk load succeeds iff the fetch returned a body that is a valid batch, and then yields the element-wise parses; a thrown fetch gives a fetch error and an invalid batch a schema error |
| `PhotoUploads.Incoming` | src/composables/usePhotoUploads.ts:101-111 | the records to prepend are non-empty iff the update has a result, the re-fetch returned a body, the body is a valid batch and the batch is non-empty; they are then the element-wise parses of the batch |
| `PhotoUploads.PhotoFeed.constructor` | src/composables/usePhotoUploads.ts:75-81 | the initial state: empty feed, `loading` true, no error, not initialised, no subscription |
| `PhotoUploads.PhotoFeed.Use` | src/composables/usePhotoUploads.ts:123-129 | the first call starts the one bulk fetch (setting `loading`) and creates the one subscription; a later call changes nothing; afterwards `isInitialized` holds and exactly one bulk fetch has been started |
| `PhotoUploads.PhotoFeed.BulkLoadResult` | src/composables/usePhotoUploads.ts:84-95 | all or nothing: on a valid batch the feed becomes exactly the parsed batch and `error` is untouched; otherwise the feed is unchanged and `error` is set; `loading` is false afterwards either way |
| `PhotoUploads.PhotoFeed.MergeResult` | src/composables/usePhotoUploads.ts:100-114 | the re-fetch uses the single-record query for the update's id, and none is issued without a result; the new feed is the incoming records followed by the old feed; with no result, a thrown fetch, an invalid or an empty batch the feed is unchanged; `error` is never touched |
| `PhotoUploads.PhotoFeed.SubscriptionError` | src/composables/usePhotoUploads.ts:115-118 | a transport error is recorded in `error`; the feed and everything else are untouched |
| `PhotoUploads.PhotoFeed.Mounted` | src/composables/usePhotoUploads.ts:131-135 | a subscription is created only when none is held; afterwards exactly one is held |
| `PhotoUploads.PhotoFeed.Unmounted` | src/composables/usePhotoUploads.ts:137-142 | a held subscription is released and none is held afterwards; `isInitialized` stays as it was |
| `PhotoUploads.RepeatedMergeDuplicates` | src/composables/usePhotoUploads.ts:106-108 | merging the same one-record update twice adds the record twice in front of the unchanged old feed: the merge does not deduplicate |

## Left out

- Construction of the store client, `client.fetch` and `client.listen`
  (`usePhotoUploads.ts:7-12`, `:87`, `:99`, `:103`). These are network I/O.
  Their results are method arguments: a `Response` is a body or a thrown
  error, and an update is reduced to the id of its result, if any.
- Running the query text (`:36-53`, `:55-73`). The store does that: the
  `show != false` filter, the `_createdAt` ordering and the asset
  dereference. So the model proves nothing about visibility, ordering or
  uniqueness of the feed, because the code does not enforce them.
- Vue reactivity (`ref`) and hook registration. The refs are plain fields,
  and the hooks are explicit calls to `Mounted` and `Unmounted`.
- Interleaving between overlapping `await`s in the bulk load and the `next`
  handler. Each handler is one atomic step. A re-fetch that completes after
  an unmount is modelled as an ordinary merge, because the handler has no
  liveness check.
- `console.error` logging and the unused `viewerImage` ref.
- JSON numbers are integers in the model. The schema only checks their
  type, so fractional numbers would not change any result.
- The `metadata` level of `photo.asset` is checked by the parser, but the
  typed `Asset` keeps only its `dimensions`.
- `src/composables/fetchImages.ts`: it builds placeholder image URLs from
  random numbers. That is demo data with no feed logic.
- The ingestion pipeline (content hashing, asset upload, create-or-replace)
  is not modelled; its code is outside `usePhotoUploads.ts`.
