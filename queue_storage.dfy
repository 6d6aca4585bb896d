/**
 The in-memory queue storage of a STOMP message broker: a map from destination
 names to ordered lists of frames, with a start/stop lifecycle.

 Frames are opaque: the type parameter `F` stands for `*message.Frame`, and the
 store never looks inside one. The doubly linked `container/list` that holds a
 destination's frames is abstracted to a `seq<F>` whose first element is the
 front of the list.
 */
module QueueStorage {

  datatype Option<T> = None | Some(value: T)

  /** A non-nil Go `error`. Every method of the in-memory store returns a nil `error` (`None`). */
  datatype Error = Error

  /** Destination name to the frames queued for it, head first. */
  type Lists<F> = map<string, seq<F>>

  /**
   The value of the `lists` field of the Go struct: the nil map (the zero value,
   and again after `Stop`) or an allocated map (after `Start`).
   */
  datatype Store<F> = Nil | Live(queues: Lists<F>)

  /**
   The frames queued for destination `q`, as Go's `l, ok := m.lists[q]` sees
   them: a nil map and an absent key both read as no frames.
   */
  function Queue<F>(s: Store<F>, q: string): seq<F>
  {
    if s.Live? && q in s.queues then s.queues[q] else []
  }

  /** The operations of the `QueueStorage` interface. */
  datatype Op<F> =
    | Enqueue(queue: string, frame: F)
    | Requeue(queue: string, frame: F)
    | Dequeue(queue: string)
    | Start
    | Stop
  {
    /** Enqueue, Requeue and Dequeue name a destination; Start and Stop do not. */
    predicate IsData() { Enqueue? || Requeue? || Dequeue? }
  }

  /**
   What one operation does: the new value of the field and the frame returned
   (`None` is Dequeue's "no frame available"; only Dequeue returns a frame), or a run-time panic.
   */
  datatype Outcome<F> = Panic | Done(store: Store<F>, frame: Option<F>)

  /** A Dequeue's result on the map: the frame removed, if any, and the remaining map. */
  datatype Taken<F> = Taken(frame: Option<F>, rest: Lists<F>)

  /** Enqueue on an allocated map: create the destination if needed, then push at the back. */
  function Appended<F>(l: Lists<F>, q: string, f: F): (r: Lists<F>)
    ensures r.Keys == l.Keys + {q}
    ensures r[q] == Queue(Live(l), q) + [f]
    ensures forall k :: k in l && k != q ==> r[k] == l[k]
  {
    var list := if q in l then l[q] else [];
    l[q := list + [f]]
  }

  /** Requeue on an allocated map: create the destination if needed, then push at the front. */
  function Prepended<F>(l: Lists<F>, q: string, f: F): (r: Lists<F>)
    ensures r.Keys == l.Keys + {q}
    ensures r[q] == [f] + Queue(Live(l), q)
    ensures forall k :: k in l && k != q ==> r[k] == l[k]
  {
    var list := if q in l then l[q] else [];
    l[q := [f] + list]
  }

  /**
   Dequeue on an allocated map: no frame when the destination is unknown or its
   list is empty, otherwise the front frame, removed from the list.
   */
  function Popped<F>(l: Lists<F>, q: string): (r: Taken<F>)
    ensures r.rest.Keys == l.Keys
    ensures r.frame.None? <==> Queue(Live(l), q) == []
    ensures r.frame.None? ==> r.rest == l
    ensures r.frame.Some? ==> [r.frame.value] + r.rest[q] == l[q]
    ensures forall k :: k in l && k != q ==> r.rest[k] == l[k]
  {
    if q !in l || |l[q]| == 0 then Taken(None, l)
    else Taken(Some(l[q][0]), l[q := l[q][1..]])
  }

  /**
   One operation of `MemoryQueueStorage` on the value of its `lists` field.
   Writing a new key into the nil map panics in Go, so Enqueue and Requeue before
   Start or after Stop panic; reading the nil map does not, so Dequeue then
   returns no frame. No operation returns a non-nil error.
   */
  function Step<F>(s: Store<F>, op: Op<F>): (r: Outcome<F>)
    ensures r.Panic? <==> s.Nil? && (op.Enqueue? || op.Requeue?)
    ensures r.Done? && !op.Dequeue? ==> r.frame.None?
    ensures op.Start? ==> r.store == Live(map[])
    ensures op.Stop? ==> r.store == Nil
    ensures r.Done? && op.IsData() ==> r.store.Live? == s.Live?
    ensures r.Done? && op.IsData() ==>
      forall k :: k != op.queue ==> Queue(r.store, k) == Queue(s, k)
  {
    match op
    case Enqueue(q, f) => if s.Nil? then Panic else Done(Live(Appended(s.queues, q, f)), None)
    case Requeue(q, f) => if s.Nil? then Panic else Done(Live(Prepended(s.queues, q, f)), None)
    case Dequeue(q) =>
      if s.Nil? then Done(Nil, None)
      else var t := Popped(s.queues, q); Done(Live(t.rest), t.frame)
    case Start => Done(Live(map[]), None)
    case Stop => Done(Nil, None)
  }

  /** `MemoryQueueStorage`: one map field, nil until `Start`. */
  class MemoryQueueStorage<F> {
    var lists: Store<F>

    /** `NewMemoryQueueStorage`: the zero value, whose map is nil. */
    constructor ()
      ensures lists == Nil
    {
      lists := Nil;
    }

    /** The map has been allocated by `Start` and not discarded by `Stop`. */
    predicate Started()
      reads this
    {
      lists.Live?
    }

    /** Push `frame` to the back of `queue`, creating the destination on first use. */
    method Enqueue(queue: string, frame: F) returns (err: Option<Error>)
      requires Started()
      modifies this
      ensures Step(old(lists), Op.Enqueue(queue, frame)) == Done(lists, None)
      ensures Started() && queue in lists.queues
      ensures Queue(lists, queue) == old(Queue(lists, queue)) + [frame]
      ensures lists.queues.Keys == old(lists.queues.Keys) + {queue}
      ensures forall k :: k != queue ==> Queue(lists, k) == old(Queue(lists, k))
      ensures err == None
    {
      var l: seq<F>;
      var ok := queue in lists.queues;
      if !ok {
        l := [];
        lists := Live(lists.queues[queue := l]);
      } else {
        l := lists.queues[queue];
      }
      l := l + [frame];
      lists := Live(lists.queues[queue := l]);
      err := None;
    }

    /** Push `frame` to the front of `queue`, creating the destination on first use. */
    method Requeue(queue: string, frame: F) returns (err: Option<Error>)
      requires Started()
      modifies this
      ensures Step(old(lists), Op.Requeue(queue, frame)) == Done(lists, None)
      ensures Started() && queue in lists.queues
      ensures Queue(lists, queue) == [frame] + old(Queue(lists, queue))
      ensures lists.queues.Keys == old(lists.queues.Keys) + {queue}
      ensures forall k :: k != queue ==> Queue(lists, k) == old(Queue(lists, k))
      ensures err == None
    {
      var l: seq<F>;
      var ok := queue in lists.queues;
      if !ok {
        l := [];
        lists := Live(lists.queues[queue := l]);
      } else {
        l := lists.queues[queue];
      }
      l := [frame] + l;
      lists := Live(lists.queues[queue := l]);
      err := None;
    }

    /**
     Remove and return the front frame of `queue`; no frame when the destination
     is unknown or empty (or the map is nil), and then nothing changes.
     */
    method Dequeue(queue: string) returns (frame: Option<F>, err: Option<Error>)
      modifies this
      ensures Step(old(lists), Op.Dequeue(queue)) == Done(lists, frame)
      ensures frame.None? <==> old(Queue(lists, queue)) == []
      ensures frame.None? ==> lists == old(lists)
      ensures frame.Some? ==> old(Queue(lists, queue)) == [frame.value] + Queue(lists, queue)
      ensures lists.Live? == old(lists.Live?)
      ensures lists.Live? ==> lists.queues.Keys == old(lists.queues.Keys)
      ensures forall k :: k != queue ==> Queue(lists, k) == old(Queue(lists, k))
      ensures err == None
    {
      err := None;
      if lists.Nil? || queue !in lists.queues {
        frame := None;
        return;
      }
      var l := lists.queues[queue];
      if |l| == 0 {
        frame := None;
        return;
      }
      frame := Some(l[0]);
      lists := Live(lists.queues[queue := l[1..]]);
    }

    /** Server startup: install a fresh, empty map. */
    method Start()
      modifies this
      ensures Step(old(lists), Op.Start) == Done(lists, None)
      ensures Started() && lists.queues == map[]
    {
      lists := Live(map[]);
    }

    /** Server shutdown: discard the map and everything queued in it. */
    method Stop()
      modifies this
      ensures Step(old(lists), Op.Stop) == Done(lists, None)
      ensures !Started()
    {
      lists := Nil;
    }
  }
}
