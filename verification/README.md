# Peacasso job-dispatch client, modelled in Dafny

Peacasso's websocket client connects to a job-feed server and logs in with a
token. It then receives generation jobs. Each job is a `WsData`: a job id,
the parameter record of the image to generate (a `CacheConfig` / generator
configuration), and an `image_url` once the server already has an image.
The client answers each job with an `update` message that carries the job id
and the base64 text of a PNG image.

The model covers the parts of that client that decide which jobs run, in what
order, and what gets sent back:

- `OrderedSet` (`ordered_sets.dfy`): a set that keeps insertion order, as a
  class over the sequence of its dictionary's keys.
- `SetQueue` (`dedup_queue.dfy`): the request queue that keeps one pending job
  per id. It stores the latest version of a re-submitted job at the id's
  original place, and drops a job whose id is the one being worked on. The
  class is proved against the value-level `QueueState` functions. The lemmas
  about those functions give the invariant, first-insertion order, "latest
  version wins" and "one job per id".
- `CacheConfig.get_cache_key` and `FileCache` (`cache.dfy`, `uuids.dfy`): the
  key is the text of a UUID of the record. The file for a key sits in a shard
  directory named by the key's first 8 characters. `set` rewrites the
  record's prompt before hashing it.
- `WebsocketHandler` (`session.dfy`): login, dispatch by action name
  (`create`, `update`, `clearqueue`), and the `communicate` loop's exception
  handling.
- The worker process of `consumer.py` (`worker.dfy`): cache hit or miss, one
  engine call per miss, and one result message per job, in queue order.
- The single-process client `appmhws.py` (`legacy_client.dfy`): its own copies
  of `OrderedSet`, `SetQueue` and `satitize_prompt` are modelled by the same
  members (the table cites both copies). Its `main` and `consume` run as
  interleaved turns over one `SetQueue`.
- `satitize_prompt` (`prompts.dfy`), the wire form of the result message
  (`messages.dfy`), and base64 as in section 4 of RFC 4648 (`base64.dfy`).

The connection, the clock and the image engine are parameters:

- A received message is a `Reply`. It is `Received` with the decoded message,
  `Lost` with the exception `recv` itself raised, or `Raised` with the
  exception that decoding or validation raised. The two failures differ only
  in whether the code's `message` variable was bound.
- The time is a `now` value.
- The engine is a `render` function plus a flag saying whether it turns a
  string prompt into `[prompt] * num_images`.
- `uuid5` (SHA-1 over `str(config)`) is a function parameter of `FileCache`.
  Different UUIDs are kept apart, but nothing is assumed about hash collisions
  between records.

Where the code and the design description of this client differ, the model
follows the code:

- The description has a bounded reconnect policy with a "giving up" state. The
  handler only stores `max_reconnect` and never reads or changes it, so the
  model keeps the field and has no reconnect loop.
- The description says a malformed message is logged and skipped. As written,
  the JSON-error handlers name an undefined variable, which raises
  `NameError` (see Findings).

Nothing in these sources reads the session's request queue (the `SetQueue`).
`consumer.py` reads its own input queue, which is the shared queue that
`clearqueue` drains with `get_nowait`. The model assumes that the request
queue's reader calls `task_done` at most once per `get`. Under that
assumption the counter keeps covering the queued ids
(`LegacyClient.TaskDoneAfterGetSucceeds` proves this for a `get` followed by
its `task_done`), and then `clearqueue` never raises
(`Session.SessionClearAlwaysFlushes`, over the session's own dispatches).

Where the code is evidently wrong (see Findings), the as-written behaviour has
its own function and a lemma that exhibits the difference. The methods and
loops (`Session.WebsocketHandler.Login`, `Session.WebsocketHandler.Communicate`,
`Cache.FileCache.Set` and everything built on them, the `LegacyClient`
methods) use the corrected definition instead; "## Left out" names each of
them.

## Model

| member | source | states |
|---|---|---|
| OrderedSets.AddedSpec | peacasso/ws/backend/queue.py:16-17 | `add` keeps elements distinct and every existing element at its rank; a present element changes nothing; a new one goes last; membership is old members plus `x` |
| OrderedSets.RemovedAbsent | peacasso/ws/backend/queue.py:22-23 | discarding an absent element leaves the set unchanged (no KeyError) |
| OrderedSets.RemovedAt | peacasso/ws/backend/queue.py:22-23 | discarding the element at rank `i` cuts out exactly that position and keeps the others in order |
| OrderedSets.RemovedMembers | peacasso/ws/backend/queue.py:22-23 | after `discard(x)` the members are exactly the old members other than `x` |
| OrderedSets.RemovedSpec | peacasso/ws/backend/queue.py:22-23 | `discard` keeps elements distinct, shrinks the set by one when `x` was present, and changes nothing otherwise |
| OrderedSets.FromKeysSpec | peacasso/ws/backend/queue.py:13-14 | `dict.fromkeys(iterable)` keeps one copy of each element in first-seen order, with the same members, and a prefix of the input gives a prefix of the keys |
| OrderedSets.Added | peacasso/ws/backend/queue.py:16-17 | defines the keys after `_d[x] = None`: unchanged when `x` is present, `x` appended otherwise; its properties are `AddedSpec` |
| OrderedSets.Removed | peacasso/ws/backend/queue.py:22-23 | defines the keys after `_d.pop(x, None)`: never longer than before; its properties are the `Removed*` lemmas |
| OrderedSets.FromKeys | peacasso/ws/backend/queue.py:13-14 | defines the keys of `dict.fromkeys(init)` as successive additions; its properties are `FromKeysSpec` |
| OrderedSets.OrderedSet.constructor | peacasso/ws/backend/queue.py:13-14 | the keys are `FromKeys(init)`; an empty iterable gives the empty set |
| OrderedSets.OrderedSet.Add | peacasso/ws/backend/queue.py:16-17 | keys become `Added(old keys, x)`; the single-process client's copy at peacasso/ws/backend/appmhws.py:48-49 behaves the same |
| OrderedSets.OrderedSet.Clear | peacasso/ws/backend/queue.py:19-20 | no keys remain |
| OrderedSets.OrderedSet.Discard | peacasso/ws/backend/queue.py:22-23 | keys become `Removed(old keys, x)`; the single-process client's copy at peacasso/ws/backend/appmhws.py:54-55 behaves the same |
| OrderedSets.OrderedSet.GetItem | peacasso/ws/backend/queue.py:25-29 | a negative index is refused (ValueError from `islice`); an index past the end is IndexError; otherwise the element of that insertion rank, which is the only rank holding it; the single-process client's copy at peacasso/ws/backend/appmhws.py:57-61 behaves the same |
| OrderedSets.OrderedSet.Contains | peacasso/ws/backend/queue.py:31-32 | true exactly for members |
| OrderedSets.OrderedSet.Length | peacasso/ws/backend/queue.py:34-35 | the number of keys |
| OrderedSets.OrderedSet.Pop | peacasso/ws/backend/queue.py:37-38 | the inherited `MutableSet.pop` takes the first element in iteration order and removes it; an empty set gives KeyError (None) and stays empty |
| DedupQueue.AfterGet | peacasso/ws/backend/queue.py:62-65 | a `get` keeps the queue invariant: one entry per id, and the stored ids are exactly the queued ones |
| DedupQueue.Ids | peacasso/ws/backend/queue.py:57-60 | the ids of a job sequence, position by position |
| DedupQueue.AfterPut | peacasso/ws/backend/queue.py:57-60 | defines `put`: the counter always goes up by one; a job for the checked-out id is dropped; otherwise the id is added to the order and the job stored under it; its properties are `PutPlacement`, `PutInFlightDropped` and `PutKeepsInv` |
| DedupQueue.AfterTaskDone | peacasso/ws/backend/appmhws.py:215 | defines `task_done`: ValueError when the counter would go below zero, otherwise the counter lowered by one; `LegacyClient.TaskDoneAfterGetSucceeds` shows the first case cannot follow a `get` |
| DedupQueue.AfterClear | peacasso/ws/backend/queue.py:67-79 | defines `clear`: ValueError with nothing changed when the counter would go negative, otherwise everything emptied; its properties are `ClearSpec` |
| DedupQueue.PutAll | peacasso/ws/backend/queue.py:57-60 | defines a sequence of puts, used by the `PutAll*` lemmas |
| DedupQueue.Drain | peacasso/ws/backend/queue.py:62-65 | defines successive `get`s until Empty, used by `DrainFollowsOrder` and `OneJobPerId` |
| DedupQueue.PutKeepsInv | peacasso/ws/backend/queue.py:57-60 | a put keeps the invariant |
| DedupQueue.PutPlacement | peacasso/ws/backend/queue.py:57-60 | a put for an id not checked out stores the job under its id and leaves the other jobs alone; a queued id keeps its place, a new id goes last; the single-process client's copy at peacasso/ws/backend/appmhws.py:146-150 behaves the same |
| DedupQueue.PutInFlightDropped | peacasso/ws/backend/queue.py:58 | a put for the checked-out id changes neither order nor jobs but still adds one to the unfinished counter |
| DedupQueue.GetOldest | peacasso/ws/backend/queue.py:62-65 | `get` hands out the job of the oldest id, removes that id, and marks it checked out; the single-process client's copy at peacasso/ws/backend/appmhws.py:155-159 behaves the same |
| DedupQueue.ClearSpec | peacasso/ws/backend/queue.py:67-79 | `clear` succeeds exactly when the counter covers the queued ids; it then lowers the counter by their number and empties the queue; otherwise ValueError |
| DedupQueue.CounterCoversKept | peacasso/ws/backend/queue.py:57-79 | put, get and clear keep the counter covering the queued ids, so `clear` cannot raise while it holds |
| DedupQueue.PutAllKeepsInv | peacasso/ws/backend/queue.py:57-60 | any sequence of puts keeps the invariant and the checked-out id, and only extends the id order |
| DedupQueue.PutAllKeepsLatest | peacasso/ws/backend/queue.py:57-60 | the job stored for an id is the last one put for it |
| DedupQueue.PutAllUntouched | peacasso/ws/backend/queue.py:57-60 | puts for other ids leave the stored job of an id alone |
| DedupQueue.PutAllQueues | peacasso/ws/backend/queue.py:57-60 | a job put while its id is not checked out leaves its id queued |
| DedupQueue.FirstPutOrder | peacasso/ws/backend/queue.py:57-60 | ids are ordered by first insertion: an id first put before another stays ahead of it whatever is put later |
| DedupQueue.PutAllIdsFrom | peacasso/ws/backend/queue.py:57-60 | puts only queue ids that were queued already or were put |
| DedupQueue.DrainFollowsOrder | peacasso/ws/backend/queue.py:62-65 | successive `get`s hand out one job per queued id, oldest first |
| DedupQueue.PutTwiceThenGet | peacasso/ws/backend/queue.py:57-65 | a job re-submitted before it is taken is handed out once, in its later version |
| DedupQueue.OneJobPerId | peacasso/ws/backend/queue.py:47-65 | however jobs are (re)submitted, draining the queue yields each id at most once |
| DedupQueue.SetQueue.constructor | peacasso/ws/backend/queue.py:52-55 | a new queue is empty, with counter 0 and nothing checked out |
| DedupQueue.SetQueue.Init | peacasso/ws/backend/queue.py:52-55 | `_init` gives a fresh ordered set, no jobs and nothing checked out, and leaves the counter as it was |
| DedupQueue.SetQueue.Put | peacasso/ws/backend/queue.py:57-60 | the new state is `AfterPut` of the old one; the single-process client's copy at peacasso/ws/backend/appmhws.py:146-150 behaves the same |
| DedupQueue.SetQueue.Get | peacasso/ws/backend/queue.py:62-65 | the job and new state are `AfterGet` of the old state; the single-process client's copy at peacasso/ws/backend/appmhws.py:155-159 behaves the same |
| DedupQueue.SetQueue.TaskDone | peacasso/ws/backend/appmhws.py:215 | `task_done` lowers the counter by one, or raises ValueError and changes nothing when it would go below zero |
| DedupQueue.SetQueue.Clear | peacasso/ws/backend/queue.py:67-79 | the new state is `AfterClear` of the old one; on ValueError nothing changes |
| DedupQueue.SetQueue.Size | peacasso/ws/backend/queue.py:72 | the number of queued ids |
| ProcessQueues.ProcessQueue.Put | peacasso/ws/backend/consumer.py:87 | the item is appended to the shared FIFO |
| ProcessQueues.ProcessQueue.GetNowait | peacasso/ws/backend/websocket.py:150-154 | the oldest item is taken out; an empty queue raises Empty (None) and stays empty |
| Uuids.Hex | peacasso/cache.py:32 | two lower-case hex digits per byte |
| Uuids.UuidText | peacasso/cache.py:32 | defines `str(uuid)` as the 8-4-4-4-12 grouping of the hex digits; its properties are `UuidTextShape` and `UuidTextInjective` |
| Uuids.UuidTextShape | peacasso/cache.py:32 | `str(uuid)` is 36 characters: hex digits with dashes at 8, 13, 18 and 23; no `/`; its first 8 characters are the hex of the first 4 bytes |
| Uuids.UuidTextInjective | peacasso/cache.py:31-32 | two UUIDs have the same text only when they are equal |
| Base64.EncodeLength | peacasso/ws/backend/consumer.py:85 | `b64encode` gives 4 characters per started group of 3 bytes |
| Base64.Encode | peacasso/ws/backend/consumer.py:85 | `b64encode(...).decode()` is one character per 6-bit code, padding included; its properties are `EncodeLength`, `EncodePadded` and `DecodeEncode` |
| Base64.EncodePadded | peacasso/ws/backend/consumer.py:85 | the encoded text is alphabet symbols, with `=` only in the last two places |
| Base64.DecodeEncode | peacasso/ws/backend/consumer.py:85 | decoding the encoded text gives back exactly the image bytes |
| Base64.EncodeInjective | peacasso/ws/backend/appmhws.py:212 | different images never share an `image` text |
| Prompts.FlattenNewlines | peacasso/ws/backend/appmhws.py:132-133 | the same length, with each newline replaced by a space and every other character kept |
| Prompts.FlattenNewlinesSpec | peacasso/ws/backend/appmhws.py:132-133 | the result has no newline, keeps every other character, and leaves a newline-free prompt unchanged |
| Prompts.SliceTo | peacasso/ws/backend/consumer.py:27 | Python's `s[:k]` is a prefix of `s`, of length `min(k, len)` for `k >= 0` and `max(len + k, 0)` for negative `k` |
| Prompts.Sanitize | peacasso/ws/backend/consumer.py:23-27 | defines the worker's `satitize_prompt`; its properties are the `Sanitize*` lemmas |
| Prompts.SanitizeHasNoNewline | peacasso/ws/backend/consumer.py:23-27 | the shortened prompt never holds a newline, whatever the length |
| Prompts.SanitizeShort | peacasso/ws/backend/consumer.py:25-26 | a prompt shorter than `length - 3` comes back flattened but otherwise unchanged |
| Prompts.SanitizeLong | peacasso/ws/backend/consumer.py:27 | otherwise, for `length >= 3`, it is cut to exactly `length` characters ending in `...` |
| Prompts.SanitizeNegativeBound | peacasso/ws/backend/consumer.py:27 | for `length < 3` the slice bound counts from the end, so the prompt's length shifts by `length - 3` (not below 0) before `...` is added |
| Prompts.SanitizeDefaultBound | peacasso/ws/backend/consumer.py:23 | with the default 50, the result is at most 50 characters, and exactly 50 for prompts of 47 or more |
| Prompts.SanitizeIdempotent | peacasso/ws/backend/consumer.py:23-27 | shortening a shortened prompt changes nothing |
| Cache.Join | peacasso/cache.py:46 | `os.path.join` with an absolute second part gives that part |
| Cache.CacheKey | peacasso/cache.py:31-32 | defines `get_cache_key` as the text of the record's UUID; `Uuids.UuidTextShape` gives its 36-character shape |
| Cache.ShardDir | peacasso/cache.py:39-40 | defines the shard directory as the root joined with the key's first 8 characters; its properties are `StoragePathShape` and `StoragePathInjective` |
| Cache.StoragePath | peacasso/cache.py:44-46 | defines the file path of a key as its shard directory joined with the key; its properties are `StoragePathShape` and `StoragePathInjective` |
| Cache.Fetch | peacasso/cache.py:42-50 | defines what `get` reads: the bytes at the key's path, or nothing when no file is there; its properties are `FetchAfterStore` |
| Cache.Store | peacasso/cache.py:52-63 | defines the disk after `set` writes the bytes to the key's path, replacing any file there; its properties are `FetchAfterStore` |
| Cache.CacheRoot | peacasso/cache.py:36-37 | no path or an empty one means `cache`; otherwise the path itself; never empty |
| Cache.StoragePathShape | peacasso/cache.py:39-46 | a key's file is `<root>/<first 8 hex digits>/<key>` |
| Cache.StoragePathInjective | peacasso/cache.py:39-46 | records with different UUIDs never share a cache file |
| Cache.FetchAfterStore | peacasso/cache.py:42-63 | a `get` after a `set` for the same key returns exactly the stored bytes; other keys are unaffected |
| Cache.PromptForKey | peacasso/cache.py:54 | the prompt `set` hashes is a string; a string prompt is kept |
| Cache.PromptForKeyAsWritten | peacasso/cache.py:54 | as written, `prompt[0]` raises IndexError exactly on an empty list or an empty string, and cuts a string prompt down to its first character |
| Cache.Repeat | peacasso/generator.py:36 | `[prompt] * n` is `max(n, 0)` copies of the prompt |
| Cache.PromptForKeyUndoesRepeat | peacasso/cache.py:54 | taking element 0 folds the engine's list back to the original string prompt, both as written and in the model |
| Cache.PromptForKeyAgreesOnLists | peacasso/cache.py:54 | the as-written and corrected rewrites agree on every list prompt |
| Cache.StringPromptStoredUnderFirstCharacter | peacasso/cache.py:52-55 | as written, a string prompt of 2 or more characters is filed under its first character, so a later `get` for the same record misses |
| Cache.FileCache.constructor | peacasso/cache.py:36-37 | the root is `CacheRoot(path)` |
| Cache.FileCache.Get | peacasso/cache.py:42-50 | the bytes at the record key's path, or None when no such file exists |
| Cache.FileCache.Set | peacasso/cache.py:52-63 | IndexError on an empty list prompt; otherwise the rewritten record is returned, its shard directory exists (idempotently), the file holds exactly `content`, `get` finds it, and records with other UUIDs are unaffected |
| Messages.EnvelopeWireForm | peacasso/ws/backend/consumer.py:81-86 | the result message names its job by the 36-character text of the job id, and its image text decodes to exactly the produced bytes; the single-process client's copy at peacasso/ws/backend/appmhws.py:208-213 behaves the same |
| Messages.PkText | peacasso/ws/backend/consumer.py:84 | defines the `pk` text as `str(item.id)`, the UUID text; its properties are `EnvelopeWireForm` and `WireFormInjective` |
| Messages.ImageText | peacasso/ws/backend/consumer.py:85 | defines the `image` text as the base64 text of the image bytes; its properties are `EnvelopeWireForm` and `WireFormInjective` |
| Messages.Envelope | peacasso/ws/backend/consumer.py:81-86 | defines the `update` message for a job and its image; its properties are `EnvelopeWireForm` and `WireFormInjective` |
| Messages.WireFormInjective | peacasso/ws/backend/consumer.py:84-85 | equal wire texts mean the same job id and the same image |
| Session.ParseAction | peacasso/ws/backend/websocket.py:99-107 | defines the `getattr` dispatch: `create`, `update` and `clearqueue` select their handler; every other name selects none |
| Session.LoginFateAsWritten | peacasso/ws/backend/websocket.py:59-97 | defines `login` as written: a received reply proceeds exactly on status 200; a JSON error raises NameError; every other failure is a refusal |
| Session.LoginFate | peacasso/ws/backend/websocket.py:59-97 | defines `login` with the JSON handler corrected: every failure is a refusal |
| Session.CommunicateFateAsWritten | peacasso/ws/backend/websocket.py:112-138 | defines `communicate` as written: a closed connection or an interrupt re-raises; a JSON error raises NameError; another failure of `recv` raises UnboundLocalError; everything else is swallowed |
| Session.CommunicateFate | peacasso/ws/backend/websocket.py:112-138 | defines `communicate` with both handlers corrected: only a closed connection or an interrupt leaves it |
| Session.LoginSucceedsOnlyOnOk | peacasso/ws/backend/websocket.py:59-97 | login succeeds exactly on a well-formed reply with status 200; every failure is a refusal, never an exception |
| Session.LoginAsWrittenRaisesOnBadJson | peacasso/ws/backend/websocket.py:73-79 | as written, login differs from that only on a non-JSON reply, which raises NameError |
| Session.CommunicateEndsOnlyOnClose | peacasso/ws/backend/websocket.py:112-138 | only a closed connection or an interrupt ends the session, each re-raising its own exception; any other bad message is skipped |
| Session.CommunicateAsWrittenRaisesOnBadJson | peacasso/ws/backend/websocket.py:117-122 | as written, once a message was received, a non-JSON one ends the session with NameError, and nothing else differs |
| Session.CommunicateAsWrittenRaisesOnLostMessage | peacasso/ws/backend/websocket.py:113-138 | as written, when `recv` itself raises something other than a closed connection, an interrupt or a TypeError, the session ends: NameError for a JSON error, UnboundLocalError for the rest, because the catch-all logs the unbound `message`; the intended loop goes on |
| Session.Enqueued | peacasso/ws/backend/websocket.py:140-146 | defines `create`/`update`: a job without an image is put on the request queue; its properties are `NewJobQueued` and `IgnoredMessages` |
| Session.Handled | peacasso/ws/backend/websocket.py:99-154 | defines `handle_action`: dispatch by `ParseAction`; `clearqueue` leaves both queues alone on ValueError; its properties are `HandledKeepsInv`, `NewJobQueued`, `IgnoredMessages` and `ClearQueueFlushes` |
| Session.HandledAll | peacasso/ws/backend/websocket.py:112-116 | defines dispatching received messages in turn, used by `SessionClearAlwaysFlushes` |
| Session.HandledKeepsInv | peacasso/ws/backend/websocket.py:99-154 | dispatching any message keeps the request queue's invariant and the counter covering its ids |
| Session.NewJobQueued | peacasso/ws/backend/websocket.py:140-146 | `create`/`update` with a job that has no image queues it under its id (unless that job is in progress), adds one to the counter, and leaves the shared queue alone |
| Session.IgnoredMessages | peacasso/ws/backend/websocket.py:99-107 | an unknown action, a job that already has an image, or a message without a job changes nothing |
| Session.ClearQueueFlushes | peacasso/ws/backend/websocket.py:148-154 | `clearqueue` empties both queues and forgets the job in progress, lowering the counter by the number of queued ids |
| Session.SessionClearAlwaysFlushes | peacasso/ws/backend/websocket.py:112-154 | from a fresh queue, after any sequence of messages, `clearqueue` still flushes both queues |
| Session.WebsocketHandler.constructor | peacasso/ws/backend/websocket.py:49-57 | given a valid request queue apart from the shared queue, the handler is valid and its state is the two queues as given; it keeps the token; the reconnect count starts at 0 and `max_reconnect` defaults to 50 |
| Session.WebsocketHandler.Login | peacasso/ws/backend/websocket.py:59-97 | sends `login` with the token and the time; proceeds exactly on a received reply with status 200, which is `LoginFate`'s `LoggedIn` |
| Session.WebsocketHandler.Enqueue | peacasso/ws/backend/websocket.py:140-146 | the new state is `Enqueued` of the old one |
| Session.WebsocketHandler.DrainShared | peacasso/ws/backend/websocket.py:150-154 | the shared queue ends empty |
| Session.WebsocketHandler.ClearQueues | peacasso/ws/backend/websocket.py:148-154 | the new state is `clearqueue` dispatched on the old one; it fails exactly when the request queue raises ValueError |
| Session.WebsocketHandler.HandleResponse | peacasso/ws/backend/websocket.py:99-110 | the new state is `Handled` of the old one; it fails only on a `clearqueue` that raised |
| Session.WebsocketHandler.Communicate | peacasso/ws/backend/websocket.py:112-138 | a received message is dispatched (new state `Handled` of the old one); a failure of receiving or decoding leaves both queues as they were; the fate is `CommunicateFate` |
| Worker.Prepared | peacasso/generator.py:36 | the engine changes at most the prompt of the caller's record |
| Worker.FiledUnder | peacasso/cache.py:52-55 | the record `set` hashes after the engine ran on the job's record, with the corrected `PromptForKey`: its prompt is always a string, and it fails only with IndexError when there is no first element |
| Worker.StoredUnderLookedUpRecord | peacasso/ws/backend/consumer.py:30-54 | for a string prompt, the record `FiledUnder` gives is the record `get` looked up; it fails only when the list-making engine was asked for no images |
| Worker.Engine.Generate | peacasso/generator.py:34-39 | one engine call; the image is `render(c)`, and the caller's record is left as `Prepared` |
| Worker.Found | peacasso/cache.py:42-50 | defines what `get` finds on a disk for a record |
| Worker.Misses | peacasso/ws/backend/consumer.py:33-42 | defines when `generate` runs the engine: the job has a record and nothing is stored for it |
| Worker.NewDirs | peacasso/cache.py:56-57 | the shard directories `generate` creates: none unless the job misses and is answered; then exactly one, the shard of the key the image is filed under |
| Worker.Serve | peacasso/ws/backend/consumer.py:30-65 | defines `generate` on a disk: no record is AttributeError (`None.__dict__` in `get`); a hit is the stored bytes with the disk kept (AttributeError for a list prompt, from the log line); a miss is the engine's failure, `set`'s IndexError, or the image stored under the key of the corrected `FiledUnder` |
| Worker.ServeAnswer | peacasso/ws/backend/consumer.py:30-65 | an answer is either the bytes already on disk for the job's record or the engine's image for it; the disk changes only when a miss succeeds |
| Worker.ServeMiss | peacasso/ws/backend/consumer.py:42-54 | a miss succeeds exactly when the engine renders an image and `set` accepts the record the engine left behind |
| Worker.ServeTwice | peacasso/ws/backend/consumer.py:33-54 | with the corrected `set`, once a job with a string prompt was answered, answering it again is a hit that gives the same image and leaves the disk alone |
| Worker.Generate | peacasso/ws/backend/consumer.py:30-65 | the answer and the new disk are `Serve` of the old disk; the engine is called exactly once when the job `Misses` and never otherwise; the new directories are exactly `NewDirs`; the single-process client's copy at peacasso/ws/backend/appmhws.py:170-198 behaves the same |
| Worker.ConsumerStep | peacasso/ws/backend/consumer.py:77-91 | an interrupt stops the worker; an empty queue waits with nothing changed, directories included; otherwise the oldest job is taken and answered as `Serve` says: exactly its result message, with its own id and image, goes on the output queue, or the worker crashes with `Serve`'s failure having sent nothing; the disk is `Serve`'s, the engine ran once exactly when the job `Misses`, and the new directories are `NewDirs` |
| Worker.Envelopes | peacasso/ws/backend/consumer.py:81-87 | one result message per job |
| Worker.EnvelopesKeyed | peacasso/ws/backend/consumer.py:81-87 | the k-th result message belongs to the k-th job and image |
| Worker.ServeAll | peacasso/ws/backend/consumer.py:77-91 | answering jobs in order until the first failure: an image for every job when none fails, fewer images than jobs otherwise |
| Worker.ServeAllSnoc | peacasso/ws/backend/consumer.py:77-91 | one more job after a run without failure extends the run by exactly that job's answer and disk |
| Worker.RunGrows | peacasso/ws/backend/consumer.py:77-87 | one more job also extends the result messages by exactly that job's message when it succeeds |
| Worker.ConsumeNext | peacasso/ws/backend/consumer.py:77-91 | one pass of the loop keeps the queue, the disk, the images and the messages equal to those of `ServeAll` over the jobs taken, and takes one job unless the queue is empty |
| Worker.RunConsumer | peacasso/ws/backend/consumer.py:68-91 | the jobs taken are a prefix of the input queue; the disk, the failure and the images are `ServeAll` of the old disk over them; the output queue gains exactly one result message per answered job, with that job's id and image, in queue order; it idles only with the queue empty and no failure |
| LegacyClient.MainFateAsWritten | peacasso/ws/backend/appmhws.py:242-263 | defines `main`'s loop as written: a JSON error raises NameError; an interrupt stops; everything else is swallowed |
| LegacyClient.MainFate | peacasso/ws/backend/appmhws.py:242-263 | defines `main`'s loop with the JSON handler corrected |
| LegacyClient.MainStopsOnlyOnInterrupt | peacasso/ws/backend/appmhws.py:242-263 | only an interrupt, from receiving or from decoding, ends `main`'s loop; nothing raises out of it; a closed connection is swallowed |
| LegacyClient.MainAsWrittenRaisesOnBadJson | peacasso/ws/backend/appmhws.py:249-254 | as written, a non-JSON message raises NameError out of `main`, and nothing else differs |
| LegacyClient.Accepted | peacasso/ws/backend/appmhws.py:243-248 | a job is queued only from a received message whose job has a record and no image, and it is that job; a message with a job that is not queued has an image or no record |
| LegacyClient.AfterReceive | peacasso/ws/backend/appmhws.py:243-248 | defines the request queue after one message: `AfterPut` of the accepted job, if any |
| LegacyClient.TaskDoneAfterGetSucceeds | peacasso/ws/backend/appmhws.py:205-215 | while the counter covers the queued ids, the `task_done` after a `get` never raises, and the counter still covers them |
| LegacyClient.AcceptedIdsGrow | peacasso/ws/backend/appmhws.py:242-248 | later messages only add accepted job ids |
| LegacyClient.ReceiveKeeps | peacasso/ws/backend/appmhws.py:243-248 | a received message keeps the queue invariants; the queue then holds accepted jobs only |
| LegacyClient.ConsumeKeeps | peacasso/ws/backend/appmhws.py:205-215 | a consumer pass sends at most the message for the job it took, so everything sent is for accepted jobs |
| LegacyClient.ConsumeStep | peacasso/ws/backend/appmhws.py:203-217 | an empty queue idles with nothing changed; otherwise the oldest job is taken and answered as `Serve` says: a failure ends the task with nothing sent; otherwise exactly that job's `update`, with its own image, is sent, then `task_done` lowers the counter, or raises ValueError and ends the task; the disk is `Serve`'s |
| LegacyClient.Receive | peacasso/ws/backend/appmhws.py:243-263 | the queue becomes `AfterReceive` of the old one, so only a job with a record and without an image is queued; the loop's fate is `MainFate` |
| LegacyClient.Turn | peacasso/ws/backend/appmhws.py:240-263 | a received message gives the queue `AfterReceive` and leaves the consumer alone; a consumer pass while alive answers the oldest job as `Serve` says: on success its `update` is sent and the queue is `AfterTaskDone` of `AfterGet`; on failure nothing is sent and the consumer ends; the loop stops exactly on an interrupt, and the invariants are kept |
| LegacyClient.Listen | peacasso/ws/backend/appmhws.py:239-263 | the loop ends exactly when some event interrupts it, and is still listening otherwise; every message sent is an `update` for an accepted job |
| LegacyClient.RunMain | peacasso/ws/backend/appmhws.py:220-265 | an empty token exits at once; a failure of the login exchange leaves `main` with that failure; a refused login exits; otherwise it listens and ends exactly when interrupted, sending only `update`s for accepted jobs |

## Left out

- The websocket transport, `asyncio`, and the `websockets.connect` context are left out. Messages received are inputs; messages sent are outputs.
- `multiprocessing` processes, `Queue` locking, and blocking are left out. A blocking `get` on an empty queue is modelled as an idle step (None). The code that starts the worker pool is not part of this model.
- The inside of the image engine is left out: `base64_to_pil` of `init_image`, `result["images"][image_index]`, `fit`, and PNG encoding. They are folded into the `render` parameter, whose None stands for any exception raised there.
- `uuid.uuid5` (SHA-1 over the record's `str`) is a function parameter and is not computed.
- The record's own field list and defaults are out of scope: `peacasso/datamodel.py` is not part of this model, and `CacheConfig` keeps only the fields the key depends on.
- Logging, `print`, colour codes, `time.sleep` and `random` are left out. `time.time()` is the `now` parameter.
- Session.WebsocketHandler.constructor: it keeps the reconnect counter and `max_reconnect`, but the source never uses them, so no reconnect loop is modelled.
- `peacasso/web/backend/appmh.py` and `peacasso/climh.py` are other front ends and are not part of this model.
- OrderedSet `__iter__`, `__str__` and `__repr__` are not modelled as members. Iteration order is the `keys` sequence.
- Cache.FileCache.Set: the in-place change to the caller's `prompt_config.__dict__` is modelled by returning the rewritten record. Aliasing of that record is not modelled.
- Worker.Prepared: a list prompt given to the list-making engine is left unchanged, where the source nests it inside another list. This changes where such an image is filed. For a job whose prompt is the list `ts`, the model files the image under the record with the string prompt `ts[0]`. The source's `prompt[0]` gives `ts` back, so it files the image under the job's own record. The next `get` of that job then hits, and `generate` raises AttributeError at its log line (peacasso/ws/backend/consumer.py:37-40); the model misses instead.
- Pydantic validation is collapsed into one `ValidationError` reply. Field coercion is not modelled.
- Worker.ConsumerStep: a KeyboardInterrupt is modelled only at step boundaries.
- Session.ParseAction: action names that select some other attribute of the handler through `getattr` are collapsed into "no handler". Either way the error is swallowed and the queues are unchanged.
- Session.WebsocketHandler.Login: follows `LoginFate`, not `LoginFateAsWritten`. A non-JSON reply is a refusal here; as written it raises NameError (see Findings).
- Session.WebsocketHandler.Communicate: follows `CommunicateFate`, not `CommunicateFateAsWritten`. A non-JSON message, or a failure of `recv` other than a closed connection, an interrupt or a TypeError, is swallowed here; as written it ends the session with NameError or UnboundLocalError (see Findings).
- LegacyClient.Receive: follows `MainFate`, not `MainFateAsWritten`. A non-JSON message is swallowed here; as written it raises NameError out of `main` (see Findings).
- LegacyClient.Turn: follows `MainFate`, as `Receive` does, and answers jobs through the corrected `Cache.FileCache.Set`.
- LegacyClient.Listen: follows `MainFate`, as `Receive` does, so a non-JSON message does not end the loop here.
- LegacyClient.RunMain: follows `MainFate`, as `Receive` does, so a non-JSON message does not end `main` here.
- LegacyClient.ConsumeStep: answers jobs through the corrected `Cache.FileCache.Set`, as `Worker.Generate` does.
- Cache.FileCache.Set: hashes the prompt given by `PromptForKey`, not `PromptForKeyAsWritten`. As written, a string prompt is filed under its first character (see Findings).
- Worker.Generate: goes through the corrected `Cache.FileCache.Set`, so a string prompt is stored under the record `get` looks up.
- Worker.ConsumerStep: answers jobs through the corrected `Cache.FileCache.Set`, as `Worker.Generate` does.
- Worker.RunConsumer: answers jobs through the corrected `Cache.FileCache.Set`, as `Worker.Generate` does.
- Worker.FiledUnder: uses the corrected `PromptForKey`, not `PromptForKeyAsWritten`. As written, a string prompt left by the stand-in engine is filed under its first character (see Findings).
- Worker.Serve: its miss branch stores the image under the key of the corrected `FiledUnder`, so as written a string prompt's image lands under its first character.
- Worker.ServeTwice: holds for the corrected `set` only. As written, with the stand-in engine, the second `get` of a job with a string prompt of two or more characters misses (`Cache.StringPromptStoredUnderFirstCharacter`).
- Worker.ConsumeNext: answers jobs through the corrected `Cache.FileCache.Set`, as `Worker.Generate` does.
- The reader of the session's request queue is not in these sources; the model assumes it calls `task_done` at most once per `get`, which `Session.SessionClearAlwaysFlushes` relies on.
- Base64.Decode is the reference inverse that the round trip is stated against. The client itself never decodes.

## Findings

| source | as written | input that shows it | evidently intended | confidence | as-written member | corrected member |
|---|---|---|---|---|---|---|
| peacasso/ws/backend/websocket.py:73-79 | the JSON-error handler of `login` logs `message_json`, which is never defined | a login reply that is not JSON | log the raw reply and return False, like every other failure | high (not executed) | Session.LoginFateAsWritten, Session.LoginAsWrittenRaisesOnBadJson | Session.LoginFate, Session.LoginSucceedsOnlyOnOk |
| peacasso/ws/backend/websocket.py:117-122 | the JSON-error handler of `communicate` logs the undefined `message_json` | a received message that is not JSON | log it and keep receiving | high (not executed) | Session.CommunicateFateAsWritten, Session.CommunicateAsWrittenRaisesOnBadJson | Session.CommunicateFate, Session.CommunicateEndsOnlyOnClose |
| peacasso/ws/backend/websocket.py:133-138 | the catch-all handler of `communicate` logs `message`, which is unbound when `recv` itself raised | `recv` raising an error other than a closed connection, an interrupt or a TypeError | log the error and keep receiving | medium (not executed) | Session.CommunicateFateAsWritten, Session.CommunicateAsWrittenRaisesOnLostMessage | Session.CommunicateFate, Session.CommunicateEndsOnlyOnClose |
| peacasso/ws/backend/appmhws.py:249-254 | the JSON-error handler of `main`'s loop logs the undefined `message_json`, so NameError leaves `main` | a received message that is not JSON | log it and keep receiving | high (not executed) | LegacyClient.MainFateAsWritten, LegacyClient.MainAsWrittenRaisesOnBadJson | LegacyClient.MainFate, LegacyClient.MainStopsOnlyOnInterrupt |
| peacasso/cache.py:54 | `set` always takes `prompt[0]`, even when the prompt is still a string (the stand-in engine leaves it one) | a record whose prompt is the string `"ab"` | hash the record that `get` looks up, so the next `get` hits | medium (not executed) | Cache.PromptForKeyAsWritten, Cache.StringPromptStoredUnderFirstCharacter | Cache.PromptForKey, Cache.PromptForKeyUndoesRepeat, Worker.StoredUnderLookedUpRecord, Worker.FiledUnder, Worker.ServeTwice |
