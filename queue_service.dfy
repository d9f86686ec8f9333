/** QueueService: a fan-out of bounded FIFO queues, one per registered consumer. put offers
    a metric to every queue and a full queue drops it; each consumer's thread polls the
    head of its own queue. */
module QueueService {
  import opened Common
  import opened Domain

  /** queue.mem.events: the bound of every queue. QueueConfig's init sets it after any
      bound configuration, so it is always this value. */
  const Capacity: nat := 4096

  /** BlockingQueue.offer on a queue bounded by Capacity: appended when there is room,
      dropped otherwise. */
  function Offer(q: seq<MetricData>, m: MetricData): seq<MetricData>
  {
    if |q| < Capacity then q + [m] else q
  }

  /** The queues after put: m offered to each, in registration order. */
  function OfferAll(qs: seq<seq<MetricData>>, m: MetricData): (r: seq<seq<MetricData>>)
    ensures |r| == |qs|
    ensures forall i :: 0 <= i < |qs| ==> r[i] == Offer(qs[i], m)
  {
    if qs == [] then [] else [Offer(qs[0], m)] + OfferAll(qs[1..], m)
  }

  /** The number of queues full when m is offered, each of which logs a warning. */
  function FullCount(qs: seq<seq<MetricData>>): nat
  {
    if qs == [] then 0 else (if |qs[0]| < Capacity then 0 else 1) + FullCount(qs[1..])
  }

  /** The queue.size gauge: the sum of the queues' sizes. */
  function TotalSize(qs: seq<seq<MetricData>>): nat
  {
    if qs == [] then 0 else |qs[0]| + TotalSize(qs[1..])
  }

  /** Every queue within its bound. */
  predicate Bounded(qs: seq<seq<MetricData>>)
  {
    forall i :: 0 <= i < |qs| ==> |qs[i]| <= Capacity
  }

  /** put keeps every queue within its bound, grows each queue that had room by exactly
      m at its tail, leaves a full one as it was, and adds to the total one item per queue
      that was not full. */
  lemma {:induction false} OfferAllShape(qs: seq<seq<MetricData>>, m: MetricData)
    ensures Bounded(qs) ==> Bounded(OfferAll(qs, m))
    ensures forall i :: 0 <= i < |qs| && |qs[i]| < Capacity ==> OfferAll(qs, m)[i] == qs[i] + [m]
    ensures forall i :: 0 <= i < |qs| && |qs[i]| >= Capacity ==> OfferAll(qs, m)[i] == qs[i]
    ensures TotalSize(OfferAll(qs, m)) + FullCount(qs) == TotalSize(qs) + |qs|
  {
    if qs != [] {
      OfferAllShape(qs[1..], m);
      assert OfferAll(qs, m)[1..] == OfferAll(qs[1..], m);
    }
  }

  /** FIFO: an offer appends at the tail, so the head a poll takes is unchanged, and what
      remains after the poll is what the offer would have left of the shorter queue. */
  lemma OfferFifo(q: seq<MetricData>, m: MetricData)
    requires q != []
    ensures Offer(q, m)[0] == q[0]
    ensures |q| < Capacity ==> Offer(q, m)[1..] == Offer(q[1..], m)
  {
  }

  /** Replacing one queue by a queue one shorter lowers the total by one. */
  lemma {:induction false} TotalSizeUpdate(qs: seq<seq<MetricData>>, i: nat, q: seq<MetricData>)
    requires i < |qs|
    ensures TotalSize(qs[i := q]) + |qs[i]| == TotalSize(qs) + |q|
  {
    if i > 0 {
      TotalSizeUpdate(qs[1..], i - 1, q);
      assert qs[i := q][1..] == qs[1..][i - 1 := q];
    }
  }

  class QueueService {
    /** queues, in registration order; each is a consumer's queue, head first. */
    var queues: seq<seq<MetricData>>
    /** run: cleared by destroy, which ends every consumer loop. */
    var run: bool

    ghost predicate Valid()
      reads this
    {
      Bounded(queues)
    }

    constructor()
      ensures Valid() && queues == [] && run
    {
      queues := [];
      run := true;
    }

    /** destroy. */
    method Destroy()
      modifies this
      ensures !run && queues == old(queues)
    {
      run := false;
    }

    /** put: offer the metric to every queue in turn; warnings counts the queues that were
        full (each logs "Access queue memory limit!"). */
    method Put(metric: MetricData) returns (warnings: nat)
      modifies this
      requires Valid()
      ensures Valid() && run == old(run)
      ensures queues == OfferAll(old(queues), metric)
      ensures warnings == FullCount(old(queues))
      ensures Size() + warnings == old(Size()) + |old(queues)|
    {
      warnings := 0;
      var i := 0;
      while i < |queues|
        invariant 0 <= i <= |queues| == |old(queues)| && run == old(run)
        invariant forall j :: 0 <= j < i ==> queues[j] == Offer(old(queues)[j], metric)
        invariant forall j :: i <= j < |queues| ==> queues[j] == old(queues)[j]
        invariant warnings == FullCount(old(queues)[..i])
      {
        var queue := queues[i];
        PutStep(old(queues), i);
        if |queue| < Capacity {
          queues := queues[i := queue + [metric]];
        } else {
          warnings := warnings + 1;
        }
        i := i + 1;
      }
      assert old(queues)[..i] == old(queues);
      assert queues == OfferAll(old(queues), metric);
      OfferAllShape(old(queues), metric);
    }

    /** consume: register one new, empty queue; its index is the consumer's handle. */
    method Consume() returns (index: nat)
      modifies this
      requires Valid()
      ensures Valid() && run == old(run)
      ensures queues == old(queues) + [[]] && index == |old(queues)|
      ensures Size() == old(Size())
    {
      TotalSizeUpdate(queues + [[]], |queues|, []);
      assert (queues + [[]])[|queues| := []] == queues + [[]];
      TotalSizeAppend(queues, []);
      index := |queues|;
      queues := queues + [[]];
    }

    /** One turn of a consumer's loop: take the head of its queue, or nothing when the
        queue is empty (the poll times out). The consumer itself is not modelled. */
    method Poll(index: nat) returns (metric: Option<MetricData>)
      modifies this
      requires Valid() && index < |queues|
      ensures Valid() && run == old(run) && |queues| == |old(queues)|
      ensures old(queues)[index] == [] ==> metric.None? && queues == old(queues)
      ensures old(queues)[index] != [] ==>
                && metric == Some(old(queues)[index][0])
                && queues == old(queues)[index := old(queues)[index][1..]]
                && Size() + 1 == old(Size())
    {
      var queue := queues[index];
      if queue == [] {
        return None;
      }
      TotalSizeUpdate(queues, index, queue[1..]);
      queues := queues[index := queue[1..]];
      return Some(queue[0]);
    }

    /** The queue.size gauge. */
    function Size(): nat
      reads this
    {
      TotalSize(queues)
    }
  }

  lemma {:induction false} TotalSizeAppend(qs: seq<seq<MetricData>>, q: seq<MetricData>)
    ensures TotalSize(qs + [q]) == TotalSize(qs) + |q|
  {
    if qs != [] {
      assert (qs + [q])[1..] == qs[1..] + [q];
      TotalSizeAppend(qs[1..], q);
    } else {
      assert [] + [q] == [q];
    }
  }

  /** One step of put's loop: queue i adds to the warnings when it is full. */
  lemma PutStep(qs: seq<seq<MetricData>>, i: nat)
    requires i < |qs|
    ensures FullCount(qs[..i + 1]) == FullCount(qs[..i]) + (if |qs[i]| < Capacity then 0 else 1)
  {
    FullCountAppend(qs[..i], qs[i]);
    assert qs[..i + 1] == qs[..i] + [qs[i]];
  }

  lemma {:induction false} FullCountAppend(qs: seq<seq<MetricData>>, q: seq<MetricData>)
    ensures FullCount(qs + [q]) == FullCount(qs) + (if |q| < Capacity then 0 else 1)
  {
    if qs != [] {
      assert (qs + [q])[1..] == qs[1..] + [q];
      FullCountAppend(qs[1..], q);
    } else {
      assert [] + [q] == [q];
    }
  }
}
