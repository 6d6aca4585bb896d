/**
 Properties of `MemoryQueueStorage` over whole sequences of operations: FIFO
 order, requeue priority, conservation of frames, independence of
 destinations, and the start/stop lifecycle.
 */
module QueueStorageProperties {
  import opened QueueStorage

  /** The result of running several operations: a panic, or the final store and the frame each operation returned. */
  datatype Trace<F> = Crashed | Completed(store: Store<F>, frames: seq<Option<F>>)

  /** `out` followed by the frames of `t`. */
  function Prefixed<F>(out: Option<F>, t: Trace<F>): Trace<F>
  {
    match t
    case Crashed => Crashed
    case Completed(s, outs) => Completed(s, [out] + outs)
  }

  /** Run `ops` in order from `s`; the whole run panics when one operation does. */
  function Run<F>(s: Store<F>, ops: seq<Op<F>>): (r: Trace<F>)
    ensures r.Completed? ==> |r.frames| == |ops|
    decreases |ops|
  {
    if |ops| == 0 then Completed(s, [])
    else match Step(s, ops[0])
      case Panic => Crashed
      case Done(s', out) => Prefixed(out, Run(s', ops[1..]))
  }

  /** Run `ops` after the operations that produced `t`. */
  function Continue<F>(t: Trace<F>, ops: seq<Op<F>>): Trace<F>
  {
    match t
    case Crashed => Crashed
    case Completed(s, outs) =>
      match Run(s, ops)
      case Crashed => Crashed
      case Completed(s', outs') => Completed(s', outs + outs')
  }

  /** Running `a + b` is running `a`, then `b` from where `a` left off. */
  lemma {:induction false} RunAppend<F>(s: Store<F>, a: seq<Op<F>>, b: seq<Op<F>>)
    ensures Run(s, a + b) == Continue(Run(s, a), b)
    decreases |a|
  {
    if |a| == 0 {
      assert a + b == b;
    } else {
      assert (a + b)[0] == a[0];
      assert (a + b)[1..] == a[1..] + b;
      match Step(s, a[0])
      case Panic =>
      case Done(s', out) =>
        RunAppend(s', a[1..], b);
    }
  }

  /** One operation of a run that does not panic, taken off the front of the suffix `ops[i..]`. */
  lemma Unfold<F>(s: Store<F>, ops: seq<Op<F>>, i: nat)
    requires i < |ops| && Step(s, ops[i]).Done?
    ensures Run(s, ops[i..]) == Prefixed(Step(s, ops[i]).frame, Run(Step(s, ops[i]).store, ops[i + 1..]))
  {
  }

  function Enqueues<F>(q: string, fs: seq<F>): seq<Op<F>>
  {
    seq(|fs|, i requires 0 <= i < |fs| => Op.Enqueue(q, fs[i]))
  }

  function Dequeues<F>(q: string, n: nat): seq<Op<F>>
  {
    seq(n, _ => Op.Dequeue(q))
  }

  function Nones<F>(n: nat): seq<Option<F>>
  {
    seq(n, _ => None)
  }

  function Somes<F>(fs: seq<F>): seq<Option<F>>
  {
    seq(|fs|, i requires 0 <= i < |fs| => Some(fs[i]))
  }

  /** Enqueueing `fs` one by one appends them, in order, to the back of `q` and touches no other destination. */
  lemma {:induction false} EnqueueAll<F>(l: Lists<F>, q: string, fs: seq<F>)
    ensures Run(Live(l), Enqueues(q, fs)).Completed?
    ensures Run(Live(l), Enqueues(q, fs)).store.Live?
    ensures Run(Live(l), Enqueues(q, fs)).frames == Nones(|fs|)
    ensures Queue(Run(Live(l), Enqueues(q, fs)).store, q) == Queue(Live(l), q) + fs
    ensures forall k :: k != q ==> Queue(Run(Live(l), Enqueues(q, fs)).store, k) == Queue(Live(l), k)
    decreases |fs|
  {
    if |fs| == 0 {
      assert Enqueues(q, fs) == [];
      assert Nones<F>(0) == [];
    } else {
      var ops := Enqueues(q, fs);
      var l1 := Appended(l, q, fs[0]);
      assert ops[0] == Op.Enqueue(q, fs[0]);
      assert ops[1..] == Enqueues(q, fs[1..]);
      EnqueueAll(l1, q, fs[1..]);
      assert Nones<F>(|fs|) == [None] + Nones(|fs| - 1);
      assert Queue(Live(l), q) + fs == (Queue(Live(l), q) + [fs[0]]) + fs[1..];
    }
  }

  /** `n` dequeues from a destination holding at least `n` frames return its first `n` frames, in order. */
  lemma {:induction false} DequeueAll<F>(l: Lists<F>, q: string, n: nat)
    requires n <= |Queue(Live(l), q)|
    ensures Run(Live(l), Dequeues(q, n)).Completed?
    ensures Run(Live(l), Dequeues(q, n)).store.Live?
    ensures Run(Live(l), Dequeues(q, n)).frames == Somes(Queue(Live(l), q)[..n])
    ensures Queue(Run(Live(l), Dequeues(q, n)).store, q) == Queue(Live(l), q)[n..]
    ensures forall k :: k != q ==> Queue(Run(Live(l), Dequeues(q, n)).store, k) == Queue(Live(l), k)
    decreases n
  {
    var ops := Dequeues<F>(q, n);
    var xs := Queue(Live(l), q);
    if n == 0 {
      assert ops == [];
      assert Somes(xs[..0]) == [];
    } else {
      var t := Popped(l, q);
      assert ops[0] == Op.Dequeue(q);
      assert ops[1..] == Dequeues(q, n - 1);
      assert t.frame == Some(xs[0]) && Queue(Live(t.rest), q) == xs[1..];
      DequeueAll(t.rest, q, n - 1);
      assert xs[1..][..n - 1] == xs[1..n];
      assert xs[1..][n - 1..] == xs[n..];
      assert Somes(xs[..n]) == [Some(xs[0])] + Somes(xs[1..n]);
    }
  }

  /**
   FIFO: on a started store whose destination `q` is empty, enqueueing `fs` and
   then dequeueing `|fs|` times returns exactly `fs`, in order, and leaves `q`
   empty again.
   */
  lemma Fifo<F>(l: Lists<F>, q: string, fs: seq<F>)
    requires Queue(Live(l), q) == []
    ensures Run(Live(l), Enqueues(q, fs) + Dequeues(q, |fs|)).Completed?
    ensures Run(Live(l), Enqueues(q, fs) + Dequeues(q, |fs|)).frames == Nones(|fs|) + Somes(fs)
    ensures Queue(Run(Live(l), Enqueues(q, fs) + Dequeues(q, |fs|)).store, q) == []
  {
    RunAppend(Live(l), Enqueues(q, fs), Dequeues(q, |fs|));
    EnqueueAll(l, q, fs);
    var s1 := Run(Live(l), Enqueues(q, fs)).store;
    assert Queue(s1, q) == fs;
    DequeueAll(s1.queues, q, |fs|);
    assert fs[..|fs|] == fs;
  }

  /** FIFO for two frames: enqueue A, enqueue B, then two dequeues return A and then B. */
  lemma FifoTwo<F>(l: Lists<F>, q: string, a: F, b: F)
    requires Queue(Live(l), q) == []
    ensures Run(Live(l), [Op.Enqueue(q, a), Op.Enqueue(q, b), Op.Dequeue(q), Op.Dequeue(q)]).Completed?
    ensures Run(Live(l), [Op.Enqueue(q, a), Op.Enqueue(q, b), Op.Dequeue(q), Op.Dequeue(q)]).frames
      == [None, None, Some(a), Some(b)]
  {
    Fifo(l, q, [a, b]);
    assert Enqueues(q, [a, b]) + Dequeues(q, 2)
      == [Op.Enqueue(q, a), Op.Enqueue(q, b), Op.Dequeue(q), Op.Dequeue(q)];
    assert Nones<F>(2) + Somes([a, b]) == [None, None, Some(a), Some(b)];
  }

  /** Two stores that no Dequeue can tell apart: same lifecycle state, same frames in every destination. */
  ghost predicate SameQueues<F>(s: Store<F>, t: Store<F>)
  {
    s.Live? == t.Live? && forall k :: Queue(s, k) == Queue(t, k)
  }

  /**
   A requeued frame is the next one delivered from its destination, and
   requeue-then-dequeue leaves every destination as it was (the destination may
   now exist with no frames, which no Dequeue can observe).
   */
  lemma RequeueThenDequeue<F>(l: Lists<F>, q: string, f: F)
    ensures Run(Live(l), [Op.Requeue(q, f), Op.Dequeue(q)]).Completed?
    ensures Run(Live(l), [Op.Requeue(q, f), Op.Dequeue(q)]).frames == [None, Some(f)]
    ensures SameQueues(Run(Live(l), [Op.Requeue(q, f), Op.Dequeue(q)]).store, Live(l))
  {
    var ops := [Op.Requeue(q, f), Op.Dequeue(q)];
    var l1 := Prepended(l, q, f);
    var t := Popped(l1, q);
    assert ops[1..] == [Op.Dequeue(q)];
    assert Run(Live(l1), ops[1..]) == Completed(Live(t.rest), [Some(f)]);
    assert Run(Live(l), ops) == Completed(Live(t.rest), [None, Some(f)]);
    forall k
      ensures Queue(Live(t.rest), k) == Queue(Live(l), k)
    {
      if k == q {
        assert [f] + Queue(Live(t.rest), q) == [f] + Queue(Live(l), q);
      }
    }
  }

  /**
   Requeue priority: enqueue A, enqueue B, dequeue (A), requeue A; the next
   dequeue returns A again, before B, and the destination is then drained.
   */
  lemma RequeuePriority<F>(l: Lists<F>, q: string, a: F, b: F)
    requires Queue(Live(l), q) == []
    ensures Run(Live(l), Redelivery(q, a, b)).Completed?
    ensures Run(Live(l), Redelivery(q, a, b)).frames == [None, None, Some(a), None, Some(a), Some(b)]
    ensures Run(Live(l), Redelivery(q, a, b)).store.Live?
    ensures Queue(Run(Live(l), Redelivery(q, a, b)).store, q) == []
  {
    var first := Enqueues(q, [a, b]) + Dequeues(q, 1);
    var middle := [Op.Requeue(q, a), Op.Dequeue(q)];
    var last := Dequeues(q, 1);
    assert first + middle + last == Redelivery(q, a, b);
    DeliverFirst(l, q, a, b);
    var r2 := Run(Live(l), first);
    RequeueThenDequeue(r2.store.queues, q, a);
    var r3 := Run(r2.store, middle);
    assert Queue(r3.store, q) == [b];
    RunAppend(Live(l), first, middle);
    assert Run(Live(l), first + middle) == Completed(r3.store, [None, None, Some(a), None, Some(a)]);
    DequeueAll(r3.store.queues, q, 1);
    assert Run(r3.store, last).frames == [Some(b)];
    RunAppend(Live(l), first + middle, last);
  }

  /** Enqueue A, enqueue B, dequeue: A is returned and B is left. */
  lemma DeliverFirst<F>(l: Lists<F>, q: string, a: F, b: F)
    requires Queue(Live(l), q) == []
    ensures Run(Live(l), Enqueues(q, [a, b]) + Dequeues(q, 1)).Completed?
    ensures Run(Live(l), Enqueues(q, [a, b]) + Dequeues(q, 1)).frames == [None, None, Some(a)]
    ensures Run(Live(l), Enqueues(q, [a, b]) + Dequeues(q, 1)).store.Live?
    ensures Queue(Run(Live(l), Enqueues(q, [a, b]) + Dequeues(q, 1)).store, q) == [b]
  {
    EnqueueAll(l, q, [a, b]);
    var r1 := Run(Live(l), Enqueues(q, [a, b]));
    DequeueAll(r1.store.queues, q, 1);
    RunAppend(Live(l), Enqueues(q, [a, b]), Dequeues(q, 1));
    assert Nones<F>(2) + Somes([a, b][..1]) == [None, None, Some(a)];
  }

  /** Enqueue A, enqueue B, dequeue, requeue A, dequeue, dequeue, all on destination `q`. */
  function Redelivery<F>(q: string, a: F, b: F): seq<Op<F>>
  {
    [Op.Enqueue(q, a), Op.Enqueue(q, b), Op.Dequeue(q), Op.Requeue(q, a), Op.Dequeue(q), Op.Dequeue(q)]
  }

  /**
   The end-to-end scenario of the broker: Start; enqueue A and B on "orders";
   dequeue A; requeue A; dequeue A again; dequeue B; dequeue nothing; Stop.
   Whatever the store held before, the run ends with the nil map.
   */
  lemma EndToEnd<F>(s: Store<F>, a: F, b: F)
    ensures Run(s, [Op.Start] + Redelivery("orders", a, b) + [Op.Dequeue("orders"), Op.Stop])
      == Completed(Nil, [None, None, None, Some(a), None, Some(a), Some(b), None, None])
  {
    var q := "orders";
    var tail := [Op.Dequeue(q), Op.Stop];
    RunAppend(s, [Op.Start] + Redelivery(q, a, b), tail);
    RunAppend(s, [Op.Start], Redelivery(q, a, b));
    assert Run(s, [Op.Start]) == Completed(Live(map[]), [None]);
    RequeuePriority(map[], q, a, b);
    var s1 := Run(Live(map[]), Redelivery(q, a, b)).store;
    assert Popped(s1.queues, q).rest == s1.queues;
    assert tail[2..] == [];
    Unfold(Nil, tail, 1);
    Unfold(s1, tail, 0);
    assert tail[0..] == tail;
  }

  /** The operations in `ops` are all Dequeue. */
  ghost predicate OnlyReads<F>(ops: seq<Op<F>>)
  {
    forall i :: 0 <= i < |ops| ==> ops[i].Dequeue?
  }

  /** Some operation in `ops` is an Enqueue or a Requeue. */
  ghost predicate Writes<F>(ops: seq<Op<F>>)
  {
    exists i :: 0 <= i < |ops| && (ops[i].Enqueue? || ops[i].Requeue?)
  }

  /**
   Before Start (and after Stop) the map is nil: a run with no Start completes
   exactly when it writes nothing, and then every Dequeue returns no frame and
   the map stays nil.
   */
  lemma {:induction false} NotStarted<F>(ops: seq<Op<F>>)
    requires forall i :: 0 <= i < |ops| ==> !ops[i].Start?
    ensures Run(Nil, ops).Completed? <==> !Writes(ops)
    ensures Run(Nil, ops).Completed? ==> Run(Nil, ops) == Completed(Nil, Nones(|ops|))
    decreases |ops|
  {
    if |ops| == 0 {
      assert Nones<F>(0) == [];
    } else {
      NotStarted(ops[1..]);
      if ops[0].Enqueue? || ops[0].Requeue? {
        assert Writes(ops);
      } else {
        assert Writes(ops) <==> Writes(ops[1..]) by {
          if Writes(ops) {
            var i :| 0 <= i < |ops| && (ops[i].Enqueue? || ops[i].Requeue?);
            assert ops[1..][i - 1] == ops[i];
          }
          if Writes(ops[1..]) {
            var i :| 0 <= i < |ops[1..]| && (ops[1..][i].Enqueue? || ops[1..][i].Requeue?);
            assert ops[i + 1] == ops[1..][i];
          }
        }
        assert Nones<F>(|ops|) == [None] + Nones(|ops| - 1);
      }
    }
  }

  /** Stop discards every frame: after it, only a run that writes nothing completes, and it returns no frame. */
  lemma AfterStop<F>(s: Store<F>, ops: seq<Op<F>>)
    requires forall i :: 0 <= i < |ops| ==> !ops[i].Start?
    ensures Run(s, [Op.Stop] + ops).Completed? <==> !Writes(ops)
    ensures Run(s, [Op.Stop] + ops).Completed? ==> Run(s, [Op.Stop] + ops) == Completed(Nil, Nones(|ops| + 1))
  {
    RunAppend(s, [Op.Stop], ops);
    NotStarted(ops);
    assert Nones<F>(|ops| + 1) == [None] + Nones(|ops|);
  }

  /** After Start every destination is empty: any number of dequeues return no frame and change nothing. */
  lemma {:induction false} FreshStart<F>(s: Store<F>, ops: seq<Op<F>>)
    requires OnlyReads(ops)
    ensures Run(s, [Op.Start] + ops) == Completed(Live(map[]), Nones(|ops| + 1))
  {
    RunAppend(s, [Op.Start], ops);
    EmptyReads(ops);
    assert Nones<F>(|ops| + 1) == [None] + Nones(|ops|);
  }

  /** Dequeues on the empty map. */
  lemma {:induction false} EmptyReads<F>(ops: seq<Op<F>>)
    requires OnlyReads(ops)
    ensures Run(Live(map[]), ops) == Completed(Live(map[]), Nones(|ops|))
    decreases |ops|
  {
    if |ops| == 0 {
      assert Nones<F>(0) == [];
    } else {
      EmptyReads(ops[1..]);
      assert Nones<F>(|ops|) == [None] + Nones(|ops| - 1);
    }
  }

  /**
   Independence of destinations: a run of data operations none of which names
   `k` leaves the frames of `k` as they were.
   */
  lemma {:induction false} Isolated<F>(s: Store<F>, ops: seq<Op<F>>, k: string)
    requires forall i :: 0 <= i < |ops| ==> ops[i].IsData() && ops[i].queue != k
    ensures Run(s, ops).Completed? ==> Queue(Run(s, ops).store, k) == Queue(s, k)
    decreases |ops|
  {
    if |ops| > 0 {
      match Step(s, ops[0])
      case Panic =>
      case Done(s', out) =>
        Isolated(s', ops[1..], k);
    }
  }

  /** The destinations named by the Enqueue and Requeue operations of `ops`. */
  ghost function Targets<F>(ops: seq<Op<F>>): set<string>
  {
    set i | 0 <= i < |ops| && (ops[i].Enqueue? || ops[i].Requeue?) :: ops[i].queue
  }

  /**
   Lazy creation is the only way a destination comes into existence: after a
   run of data operations on a started store, the known destinations are the
   ones known before plus those some Enqueue or Requeue named. Dequeue never
   creates one, and no operation removes one.
   */
  lemma {:induction false} KnownDestinations<F>(s: Store<F>, ops: seq<Op<F>>)
    requires s.Live?
    requires forall i :: 0 <= i < |ops| ==> ops[i].IsData()
    ensures Run(s, ops).Completed? && Run(s, ops).store.Live?
    ensures Run(s, ops).store.queues.Keys == s.queues.Keys + Targets(ops)
    decreases |ops|
  {
    if |ops| > 0 {
      var d := Step(s, ops[0]);
      KnownDestinations(d.store, ops[1..]);
      Unfold(s, ops, 0);
      assert ops[0..] == ops;
      var head := if ops[0].Enqueue? || ops[0].Requeue? then {ops[0].queue} else {};
      assert d.store.queues.Keys == s.queues.Keys + head;
      assert Targets(ops) == head + Targets(ops[1..]) by {
        forall x | x in Targets(ops) ensures x in head + Targets(ops[1..]) {
          var i :| 0 <= i < |ops| && (ops[i].Enqueue? || ops[i].Requeue?) && ops[i].queue == x;
          if i > 0 { assert ops[1..][i - 1] == ops[i]; }
        }
        forall x | x in Targets(ops[1..]) ensures x in Targets(ops) {
          var i :| 0 <= i < |ops[1..]| && (ops[1..][i].Enqueue? || ops[1..][i].Requeue?) && ops[1..][i].queue == x;
          assert ops[i + 1] == ops[1..][i];
        }
      }
    } else {
      assert Targets(ops) == {};
    }
  }

  // ---------------------------------------------------------------------------
  // Conservation of frames

  /** Every frame held by a map, counted with multiplicity, across all destinations. */
  ghost function AllFrames<F>(l: Lists<F>): multiset<F>
    decreases |l|
  {
    if l == map[] then multiset{}
    else
      var k :| k in l;
      assert |l - {k}| < |l| by { assert (l - {k}).Keys == l.Keys - {k}; }
      multiset(l[k]) + AllFrames(l - {k})
  }

  /** `AllFrames` can split off any destination, not only the one it happens to pick. */
  lemma {:induction false} AllFramesRemove<F>(l: Lists<F>, k: string)
    requires k in l
    ensures AllFrames(l) == multiset(l[k]) + AllFrames(l - {k})
    decreases |l|
  {
    var j :| j in l && AllFrames(l) == multiset(l[j]) + AllFrames(l - {j});
    if j != k {
      var lj, lk := l - {j}, l - {k};
      assert (lj - {k}) == (lk - {j});
      assert |lj| < |l| by { assert lj.Keys == l.Keys - {j}; }
      assert |lk| < |l| by { assert lk.Keys == l.Keys - {k}; }
      AllFramesRemove(lj, k);
      AllFramesRemove(lk, j);
    }
  }

  /** The frames of a map are those of destination `k` plus those of all other destinations. */
  lemma AllFramesSplit<F>(l: Lists<F>, k: string)
    ensures AllFrames(l) == multiset(Queue(Live(l), k)) + AllFrames(l - {k})
  {
    if k in l {
      AllFramesRemove(l, k);
    } else {
      assert l - {k} == l;
    }
  }

  /** Replacing the list of destination `k` by `xs`: the other destinations' frames plus those of `xs`. */
  lemma AllFramesUpdate<F>(l: Lists<F>, k: string, xs: seq<F>)
    ensures AllFrames(l[k := xs]) == multiset(xs) + AllFrames(l - {k})
  {
    AllFramesRemove(l[k := xs], k);
    assert l[k := xs] - {k} == l - {k};
  }

  /** The frames held by a store; the nil map holds none. */
  ghost function Contents<F>(s: Store<F>): multiset<F>
  {
    if s.Live? then AllFrames(s.queues) else multiset{}
  }

  /** The frame an Enqueue or Requeue hands to the store. */
  ghost function Input<F>(op: Op<F>): multiset<F>
  {
    if op.Enqueue? || op.Requeue? then multiset{op.frame} else multiset{}
  }

  /** The frame returned by one operation. */
  ghost function Output<F>(out: Option<F>): multiset<F>
  {
    if out.Some? then multiset{out.value} else multiset{}
  }

  /** The frames handed to the store by the Enqueue and Requeue operations of `ops`. */
  ghost function Written<F>(ops: seq<Op<F>>): multiset<F>
    decreases |ops|
  {
    if |ops| == 0 then multiset{} else Input(ops[0]) + Written(ops[1..])
  }

  /** The frames returned by the store in `outs`. */
  ghost function Delivered<F>(outs: seq<Option<F>>): multiset<F>
    decreases |outs|
  {
    if |outs| == 0 then multiset{} else Output(outs[0]) + Delivered(outs[1..])
  }

  /** Enqueue adds exactly its frame to the frames held. */
  lemma AppendedFrames<F>(l: Lists<F>, q: string, f: F)
    ensures AllFrames(Appended(l, q, f)) == AllFrames(l) + multiset{f}
  {
    var xs := Queue(Live(l), q);
    AllFramesSplit(l, q);
    assert Appended(l, q, f) == l[q := xs + [f]];
    AllFramesUpdate(l, q, xs + [f]);
    assert multiset(xs + [f]) == multiset(xs) + multiset{f};
  }

  /** Requeue adds exactly its frame to the frames held. */
  lemma PrependedFrames<F>(l: Lists<F>, q: string, f: F)
    ensures AllFrames(Prepended(l, q, f)) == AllFrames(l) + multiset{f}
  {
    var xs := Queue(Live(l), q);
    AllFramesSplit(l, q);
    assert Prepended(l, q, f) == l[q := [f] + xs];
    AllFramesUpdate(l, q, [f] + xs);
    assert multiset([f] + xs) == multiset{f} + multiset(xs);
  }

  /** Dequeue removes exactly the frame it returns from the frames held. */
  lemma PoppedFrames<F>(l: Lists<F>, q: string)
    ensures AllFrames(Popped(l, q).rest) + Output(Popped(l, q).frame) == AllFrames(l)
  {
    var xs := Queue(Live(l), q);
    var t := Popped(l, q);
    if t.frame.Some? {
      AllFramesSplit(l, q);
      assert t.rest == l[q := xs[1..]];
      AllFramesUpdate(l, q, xs[1..]);
      assert xs == [xs[0]] + xs[1..];
      assert multiset(xs) == multiset{xs[0]} + multiset(xs[1..]);
    }
  }

  /** One data operation on a started store neither loses nor duplicates a frame. */
  lemma StepConserves<F>(s: Store<F>, op: Op<F>)
    requires s.Live? && op.IsData()
    ensures Step(s, op).Done? && Step(s, op).store.Live?
    ensures Contents(Step(s, op).store) + Output(Step(s, op).frame) == Contents(s) + Input(op)
  {
    match op
    case Enqueue(q, f) => AppendedFrames(s.queues, q, f);
    case Requeue(q, f) => PrependedFrames(s.queues, q, f);
    case Dequeue(q) => PoppedFrames(s.queues, q);
  }

  /**
   No loss and no duplication: on a started store, a run of data operations
   always completes, and the frames still stored plus the frames returned are
   exactly the frames stored before plus the frames written.
   */
  lemma {:induction false} RunConserves<F>(s: Store<F>, ops: seq<Op<F>>)
    requires s.Live?
    requires forall i :: 0 <= i < |ops| ==> ops[i].IsData()
    ensures Run(s, ops).Completed? && Run(s, ops).store.Live?
    ensures Contents(Run(s, ops).store) + Delivered(Run(s, ops).frames) == Contents(s) + Written(ops)
    decreases |ops|
  {
    if |ops| > 0 {
      StepConserves(s, ops[0]);
      var d := Step(s, ops[0]);
      RunConserves(d.store, ops[1..]);
      var r := Run(d.store, ops[1..]);
      Unfold(s, ops, 0);
      assert ops[0..] == ops;
      assert Run(s, ops) == Completed(r.store, [d.frame] + r.frames);
      assert ([d.frame] + r.frames)[1..] == r.frames;
      ghost var cr, dr, cd := Contents(r.store), Delivered(r.frames), Contents(d.store);
      ghost var w1, o, i := Written(ops[1..]), Output(d.frame), Input(ops[0]);
      assert Delivered([d.frame] + r.frames) == o + dr;
      assert Written(ops) == i + w1;
      calc {
        cr + (o + dr);
        (cr + dr) + o;
        (cd + w1) + o;
        (cd + o) + w1;
        (Contents(s) + i) + w1;
      }
    }
  }
}
