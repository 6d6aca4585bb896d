# In-memory queue storage of a STOMP broker

This project models `MemoryQueueStorage`, the reference implementation of the
broker's `QueueStorage` interface (`queue_storage.go`). The store keeps one
field, `lists`: a map from destination names to lists of frames. The field is
nil until `Start` and again after `Stop`.

- `Enqueue(queue, frame)` creates the destination on first use and pushes the frame at the back.
- `Requeue(queue, frame)` creates the destination on first use and pushes the frame at the front.
- `Dequeue(queue)` removes and returns the front frame. It returns no frame when the destination is unknown or empty.
- `Start` installs an empty map; `Stop` sets the map to nil.

The model has two modules.

- `QueueStorage` (`queue_storage.dfy`) holds the data model and the operations.
  - `Store` is the value of the `lists` field: `Nil` or `Live(queues)`.
  - `Appended`, `Prepended` and `Popped` are what the three data operations do to an allocated map.
  - `Step` is one interface operation (`Op`) on a `Store`. It returns the new store and the returned frame, or `Panic`.
  - The class `MemoryQueueStorage` has the field `lists` and one method per Go method. Each method's `ensures` ties its new state to `Step`.
- `QueueStorageProperties` (`queue_storage_properties.dfy`) runs sequences of operations (`Run`). It proves FIFO order, requeue priority, the end-to-end broker scenario, the lifecycle, independence of destinations, how destinations come into existence, and frame conservation (no frame lost or duplicated).

Frames are a type parameter `F`: the store never looks inside a frame. A
destination's `container/list` is a `seq<F>`, front first.

Go semantics made explicit:

- Reading the nil map is allowed in Go: `Dequeue` before `Start` or after `Stop` returns no frame and no error.
- Writing a new key into the nil map panics. So `Step` gives `Panic` for `Enqueue` or `Requeue` on `Nil`, and the class methods `Enqueue` and `Requeue` require `Started()`.
- Every error return of the source is nil. The methods return `err: Option<Error>` and ensure `err == None`.

Before `Start` and after `Stop` no method returns an error: a write to the nil
map panics (queue_storage.go:50, 64) and a read returns nil
(queue_storage.go:74-76).

## Model

| member | source | states |
|---|---|---|
| `QueueStorage.Appended` | queue_storage.go:46-52 | Enqueue adds the destination if it was missing and no other key. The frame goes after the frames already queued. Every other destination keeps its frames. |
| `QueueStorage.Prepended` | queue_storage.go:60-66 | Requeue adds the destination if it was missing and no other key. The frame goes before the frames already queued. Every other destination keeps its frames. |
| `QueueStorage.Popped` | queue_storage.go:73-84 | Dequeue returns no frame exactly when the destination is unknown or empty, and then changes nothing. Otherwise the returned frame followed by the remaining list is the old list. The key set and the other destinations do not change. |
| `QueueStorage.Step` | queue_storage.go:41-97 | An operation panics exactly when it is an Enqueue or Requeue on the nil map. Only Dequeue returns a frame. Start yields the empty map and Stop the nil map. A data operation keeps the lifecycle state and leaves every other destination's frames unchanged. |
| `QueueStorage.MemoryQueueStorage.constructor` | queue_storage.go:41-44 | A new store has the nil map. |
| `QueueStorage.MemoryQueueStorage.Enqueue` | queue_storage.go:46-55 | On a started store: the destination exists afterwards and its list is the old list plus `frame` at the back. Exactly that key is added. Other destinations are unchanged. The error is nil. Agrees with `Step`. |
| `QueueStorage.MemoryQueueStorage.Requeue` | queue_storage.go:60-69 | On a started store: the destination exists afterwards and its list is `frame` followed by the old list. Exactly that key is added. Other destinations are unchanged. The error is nil. Agrees with `Step`. |
| `QueueStorage.MemoryQueueStorage.Dequeue` | queue_storage.go:73-85 | On any store, nil map included: no frame iff the destination's list was empty or unknown, and then nothing changes. Otherwise the frame is the old head and the list keeps the rest. Keys, lifecycle and other destinations are unchanged. The error is nil. Agrees with `Step`. |
| `QueueStorage.MemoryQueueStorage.Start` | queue_storage.go:89-91 | The store is started with an empty map, whatever it held before. |
| `QueueStorage.MemoryQueueStorage.Stop` | queue_storage.go:95-97 | The store holds the nil map again. |
| `QueueStorageProperties.Run` | queue_storage.go:13-35 | A run of interface calls that does not panic returns one result per call. |
| `QueueStorageProperties.EnqueueAll` | queue_storage.go:46-55 | Enqueueing a sequence of frames on a started store appends them, in order, to the destination's list. Each call returns no frame. Other destinations are unchanged. |
| `QueueStorageProperties.DequeueAll` | queue_storage.go:73-85 | `n` dequeues from a list of at least `n` frames return its first `n` frames in order and leave the rest. Other destinations are unchanged. |
| `QueueStorageProperties.Fifo` | queue_storage.go:46-85 | From an empty destination, enqueueing any frames and then dequeueing as many times returns exactly those frames, in order. The destination is empty again afterwards. |
| `QueueStorageProperties.FifoTwo` | queue_storage.go:46-85 | Enqueue A, enqueue B, dequeue, dequeue returns A and then B. |
| `QueueStorageProperties.RequeueThenDequeue` | queue_storage.go:60-85 | On a started store, a requeued frame is the next frame its destination delivers. Afterwards every destination, as `Dequeue` sees it, is as before. |
| `QueueStorageProperties.DeliverFirst` | queue_storage.go:46-85 | From an empty destination, enqueue A, enqueue B, dequeue returns A and leaves exactly B queued. |
| `QueueStorageProperties.RequeuePriority` | queue_storage.go:46-85 | Enqueue A, enqueue B, dequeue (A), requeue A, dequeue, dequeue returns A again and then B. The destination is drained. |
| `QueueStorageProperties.EndToEnd` | queue_storage.go:41-97 | From any store: Start; enqueue A and B on "orders"; dequeue; requeue A; three dequeues; Stop. The frames returned are A, A, B, then none, and the run ends with the nil map. |
| `QueueStorageProperties.NotStarted` | queue_storage.go:41-85 | On the nil map, with no Start: a run completes iff it contains no Enqueue or Requeue. A completed run returns no frame and leaves the map nil. |
| `QueueStorageProperties.AfterStop` | queue_storage.go:95-97 | After Stop and with no Start: a run completes iff it writes nothing. It then returns no frame, because Stop has discarded every queued frame. |
| `QueueStorageProperties.FreshStart` | queue_storage.go:89-91 | After Start, any number of dequeues return no frame and the map stays empty, whatever was queued before. |
| `QueueStorageProperties.EmptyReads` | queue_storage.go:73-82 | Dequeues on the empty map return no frame and change nothing. |
| `QueueStorageProperties.Isolated` | queue_storage.go:46-85 | A run of data operations that never names destination `k` leaves the frames of `k` unchanged. |
| `QueueStorageProperties.KnownDestinations` | queue_storage.go:46-85 | On a started store, a run of data operations never panics. The known destinations become the old ones plus those named by some Enqueue or Requeue: lazy creation is the only way a key is added, and none is removed. |
| `QueueStorageProperties.AppendedFrames` | queue_storage.go:46-52 | Across all destinations, Enqueue adds exactly its frame to the frames held. |
| `QueueStorageProperties.PrependedFrames` | queue_storage.go:60-66 | Across all destinations, Requeue adds exactly its frame to the frames held. |
| `QueueStorageProperties.PoppedFrames` | queue_storage.go:79-84 | Across all destinations, Dequeue removes exactly the frame it returns from the frames held. |
| `QueueStorageProperties.StepConserves` | queue_storage.go:46-85 | On a started store, a data operation does not panic. The frames held afterwards plus the frame returned equal the frames held before plus the frame written. |
| `QueueStorageProperties.RunConserves` | queue_storage.go:46-85 | On a started store, a run of data operations never panics and neither loses nor duplicates a frame. Final contents plus frames returned equal initial contents plus frames written, as multisets. |

## Left out

- Concurrency: the Go code takes no locks. The model is sequential and says nothing about linearizability or races on the map.
- `message-id` assignment: the interface comments (queue_storage.go:14-16, 19-21) promise it, but `MemoryQueueStorage` never sets it. The model holds frames as opaque values and has no identifier allocator.
- The contents of `message.Frame` (headers, body) live in an external package. Frames are a type parameter compared by equality.
- `container/list` internals (`PushBack`, `PushFront`, `Front`, `Remove`) are abstracted to sequence operations on `seq<F>`. The pointer sharing between the map entry and the local `l` is not modelled; each method writes the updated sequence back into the map.
- The `QueueStorage` interface is not a polymorphic type in the model: it has one implementation here. Its operations are the datatype `Op`, and its behaviour is `Step`.
- A destination whose list becomes empty keeps its map entry (queue_storage.go:79-84 never deletes a key); the model keeps it too, and no operation removes a key.
- Go's run-time panic is not an error value: `Step` reports it as `Panic`, and the class methods `Enqueue` and `Requeue` require `Started()` instead of returning an error. A recovered panic is not modelled: in Go the panic at queue_storage.go:50 and 64 happens before any change, so a caller that recovers still holds the nil map and later Dequeues return nil, but `Run` ends the whole run as `Crashed`.
- Nil frames: frames are taken to be non-nil pointers. Go's `Enqueue` and `Requeue` accept a nil `*message.Frame` without a check (queue_storage.go:46-52, 60-66), and a later `Dequeue` returns that nil (queue_storage.go:84), which a caller cannot tell from "no frame available" (queue_storage.go:76, 81). The model returns `Some(f)` for any queued `f`, so its `None` means only "no frame available".
