# Playout look-ahead queue (kawa `src/queue.rs`) in Dafny

This project models the look-ahead queue of the kawa broadcast automation
engine. The queue holds the pending `QueueEntry`s (entry 0 is the next
candidate source) and an optional staged batch of per-stream prebuffers for
the next playout slot. Every mutation that changes the head rebuilds that
batch at once (`start_next_tc`). A rebuild has two steps:

- **Source selection** (`next_buffer`). First the queue scan
  (`next_queue_buffer`) removes unresolvable entries from the head for good
  and stops at the first entry that resolves. If the queue runs dry, up to 10
  requests go to the remote random-track endpoint (`random_buffer`). If all
  10 fail, the configured static fallback is used.
- **Batch building** (`initiate_transcode`). One transcode is started per
  configured stream, in stream order, over the same shared bytes. The ones
  that start are kept.

Files:

- `wrappers.dfy`: `Option`.
- `selection.dfy`: module `Selection`. It holds the entry and source types,
  the collaborators as oracles, and the selection and batch policy as pure
  functions (`Dropped`/`Pruned`, `QueueChoice`, `Attempt`, `RemoteSearch`,
  `Select`, `Batch`, `Started`). `Pruned`, `QueueChoice`, `RemoteSearch`,
  `Select` and `RemoteOrFallback` are the reference definitions of
  `next_queue_buffer` and `next_buffer`. They carry no contract of their own;
  the lemma rows of the table below state what the source promises about them.
- `queue.dfy`: module `PlayoutQueue`. It holds the class `Queue` with the
  source's fields `next` and `entries`. Its methods update them in place
  with the source's loops. Each method is proved against the functions of
  `Selection`. Two client methods replay the push/pop and retrieve-twice
  scenarios.

The collaborators are parameters of the queue:

- `resolve: Resolver` stands for `util::path_to_data`. It is a total function
  from a path to an optional `(bytes, extension)` pair.
- `remote: RemoteService` stands for the random-track endpoint. It gives the
  response to the n-th request: `None` when the request, the body read or the
  JSON decode fails, and otherwise the decoded `QueueEntry`.
- `requests` counts the requests sent so far. `next_buffer` numbers its
  requests from this count and advances it by the number it sent.
- `transcode: Transcoder` stands for `PreBuffer::from_transcode`.

`QueueEntry::new` is the datatype constructor `QueueEntry(id, path)`. The
`i64` id is the newtype `Int64`.

A ghost counter, `recomputations`, counts the `start_next_tc` runs. It lets
the contracts say exactly which mutations rebuild the batch.

The ghost predicate `HeadConsistent` is the invariant the rebuild rules keep:
the head, if any, resolves, and a staged batch is the one built from the
current head. Every mutation keeps it, so `get_next_tc` always hands out the
batch of the current head.

### Behaviour of the code worth noting


- `initiate_transcode` skips a stream whose transcode fails. It does not
  throw away the partial batch. A batch can therefore hold fewer buffers
  than there are streams, and it can be empty (`BatchSkipsFailingStream`,
  `BatchEmptyWhenNothingStarts`).
- Selection and batch building run once per rebuild. Nothing retries them.
- A batch carries no correlation counter.
- `get_next_tc` can return an empty batch, when no stream starts.
- Popping an already-empty queue also rebuilds the batch, because the
  length is 0 afterwards.

## Model

| member | source | states |
|---|---|---|
| `Selection.Dropped` | src/queue.rs:81-92 | The scan drops a prefix of the entries. Every dropped entry fails to resolve, and the entry after the prefix, if any, resolves. |
| `Selection.QueueChoiceIsFirstResolvable` | src/queue.rs:81-92 | The scan finds nothing exactly when no entry resolves. Otherwise it returns the resolution of the first entry that resolves. |
| `Selection.PruningKeepsResolvable` | src/queue.rs:81-92 | An entry that resolves is never removed. It stays in the queue, shifted only by the dropped prefix. |
| `Selection.PrunedIdempotent` | src/queue.rs:81-92 | Scanning an already-scanned queue removes nothing more and finds the same source. |
| `Selection.PrunedHeadSelected` | src/queue.rs:81-92 | After the scan the head, if any, resolves, and the slot is fed from it with no remote request. |
| `Selection.ResolvableHeadWins` | src/queue.rs:81-92 | A queue whose head resolves loses no entry, and the slot is fed from the head without any remote request. |
| `Selection.SelfHealing` | src/queue.rs:81-92 | `[broken, broken2, good]` is left as `[good]`, and the slot is fed from `good`'s data without any remote request. |
| `Selection.Attempt` | src/queue.rs:94-104 | A remote attempt yields a source exactly when the response decoded to an entry whose path resolves. |
| `Selection.RemoteSearchSpec` | src/queue.rs:67-79 | At most `tries` requests are sent. A success is the last request sent, and every earlier one failed. With no success, all `tries` requests were sent and all failed. |
| `Selection.RemoteSearchFirstHit` | src/queue.rs:67-79 | If request k is the first success, the search returns its source after exactly k+1 requests. |
| `Selection.SelectSpec` | src/queue.rs:67-79 | The queue's source wins when it has one, with no remote request, and otherwise the queue is left empty. Next comes the first of at most 10 remote successes. After exactly 10 failures the fallback is used. |
| `Selection.FirstRemoteSuccessWins` | src/queue.rs:67-79 | When the queue has nothing, the first remote request that succeeds supplies the source, and no later request is sent. |
| `Selection.FallbackAfterAllRemoteFailures` | src/queue.rs:67-79 | With no resolvable entry and 10 failed requests, the static fallback is used after exactly 10 requests. |
| `Selection.Batch` | src/queue.rs:106-115 | The batch has at most one buffer per configured stream. |
| `Selection.Started` | src/queue.rs:109-113 | Reference definition: the positions of the streams that start, strictly increasing, containing position i exactly when stream i starts. |
| `Selection.BatchIsStartedStreams` | src/queue.rs:106-115 | The batch is exactly the buffers of the streams that start, in stream order. Each is built from the same `(data, ext)`. |
| `Selection.BatchConcat` | src/queue.rs:109-113 | Building over `xs + ys` gives the batch of `xs` followed by the batch of `ys`, so stream order is kept. |
| `Selection.BatchSkipsFailingStream` | src/queue.rs:110-112 | A stream that fails is skipped. The batch equals the one built without that stream and is not discarded. |
| `Selection.BatchComplete` | src/queue.rs:106-115 | When every stream starts, the batch has one buffer per stream, and buffer i is stream i's. |
| `Selection.BatchEmptyWhenNothingStarts` | src/queue.rs:106-115 | When no stream starts, the batch is empty. |
| `PlayoutQueue.Queue.RecomputedIsHeadConsistent` | src/queue.rs:63-65 | After a rebuild the head resolves and the staged batch is the head's batch. |
| `PlayoutQueue.Queue.constructor` | src/queue.rs:17-23 | A new queue has no entries and no staged batch, and it is head-consistent. |
| `PlayoutQueue.Queue.Push` | src/queue.rs:25-30 | `qe` is appended after the unchanged old entries. The batch is rebuilt from the new entries exactly when the new length is 1. Otherwise nothing else changes. Head-consistency is kept. |
| `PlayoutQueue.Queue.PushHead` | src/queue.rs:32-35 | `qe` becomes entry 0 ahead of the unchanged old entries, and the batch is always rebuilt from them. The queue is then head-consistent. |
| `PlayoutQueue.Queue.Pop` | src/queue.rs:37-42 | The last entry, if any, is removed. The batch is rebuilt exactly when the queue is then empty, including a pop of an empty queue. Otherwise nothing else changes. Head-consistency is kept. |
| `PlayoutQueue.Queue.PopHead` | src/queue.rs:44-49 | Only entry 0, if any, is removed, and the batch is always rebuilt. The queue is then head-consistent. |
| `PlayoutQueue.Queue.Clear` | src/queue.rs:51-54 | The entries are emptied and the batch is always rebuilt, from the remote tier or the fallback. The queue is then head-consistent. |
| `PlayoutQueue.Queue.GetNextTc` | src/queue.rs:56-61 | Nothing is staged afterwards. A staged batch is returned as it is, without a rebuild. Otherwise a freshly built batch is returned. Either way, when the queue is not empty the batch is the one built from the current head, and head-consistency is kept. |
| `PlayoutQueue.Queue.StartNextTc` | src/queue.rs:63-65 | A batch is staged (`next` is `Some`), built from the current entries by selection and batch building. The queue is then head-consistent. |
| `PlayoutQueue.Queue.NextBuffer` | src/queue.rs:67-79 | Returns the source `Select` picks and sends exactly the remote requests it counts. Entries are only pruned by the scan, never by remote attempts. |
| `PlayoutQueue.Queue.NextQueueBuffer` | src/queue.rs:81-92 | Removes exactly the dropped prefix. It returns the resolution of the remaining head, or `None` exactly when the queue is now empty. |
| `PlayoutQueue.Queue.RandomBuffer` | src/queue.rs:94-104 | Request number n yields a source exactly when its response decoded to an entry whose path resolves. The queue is not touched. |
| `PlayoutQueue.Queue.InitiateTranscode` | src/queue.rs:106-115 | Returns `Batch` over the selected source and the configured streams, in stream order. |
| `PlayoutQueue.PushThenPop` | src/queue.rs:25-42 | `push(A)` on a new queue stages a batch built from `A`. Popping it stages a batch from the remote tier or the fallback. |
| `PlayoutQueue.RetrieveTwice` | src/queue.rs:56-61 | Two retrievals in a row both return a batch built from the head. The second one is rebuilt: the batch is built exactly twice, once by the push and once by the second retrieval. |

## Left out

- The HTTP request, body read and JSON decode inside `random_buffer` are network I/O. Each request's outcome is the oracle value `remote(n)`.
- `util::path_to_data` is file-system access. It is the total function `resolve`, fixed for the life of the queue, so a file that appears or disappears between two rebuilds is not modelled.
- `PreBuffer::from_transcode` and `PreBuffer` are not part of this model. The transcoder is the oracle `transcode`, and a prebuffer is an opaque value.
- `transcode` is a fixed total function, so it is deterministic: a rebuild over the same source and streams starts the same streams and yields equal buffers. The source starts fresh transcodes on every rebuild, whose outcome may differ; `RetrieveTwice`'s `first == second` rests on this.
- `Arc` reference counting and the cloning of the shared bytes are not modelled. Every stream of a batch receives the same `(data, ext)` value.
- Configuration loading is not modelled. `Config` keeps only `streams`, `fallback` and the `random` endpoint address, and the endpoint itself is the oracle.
- The derived `RustcDecodable`/`RustcEncodable` serialisation of `QueueEntry` is generated code and is left out.
- PlayoutQueue.Queue.NextBuffer: `cfg.queue.fallback` is an `Option` in the source, and line 78 returns that `Option` where a pair is expected. The model returns the unwrapped pair and takes the fallback to be always present, so the case of a missing fallback is not modelled.
- Thread-safety and tracing are left out, because the code has neither.
