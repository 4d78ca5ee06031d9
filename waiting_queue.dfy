/** The FIFO of (request, completion) pairs that wait for a token refresh
    (WaitingRequestQueue). Sequential: every enqueue and dequeue is one step. */
module WaitingQueue {

  import opened Wrappers
  import opened Requests

  /** One waiting caller: the descriptor to re-fire and the completion to hand on. */
  datatype Entry = Entry(request: NetworkRequest, completion: CallbackId)

  class WaitingRequestQueue {

    /** The waiting entries, front first. No bound on length, no deduplication. */
    var elements: seq<Entry>

    constructor ()
      ensures elements == []
    {
      elements := [];
    }

    /** Appends one entry at the back; the entries already waiting keep their order. */
    method Enqueue(request: NetworkRequest, completion: CallbackId)
      modifies this
      ensures elements == old(elements) + [Entry(request, completion)]
      ensures |elements| == |old(elements)| + 1
      ensures elements[..|old(elements)|] == old(elements)
    {
      elements := elements + [Entry(request, completion)];
    }

    /** Removes and returns the front entry, or returns nil on an empty queue. */
    method Dequeue() returns (element: Option<Entry>)
      modifies this
      ensures old(elements) == [] ==> element == None && elements == []
      ensures old(elements) != [] ==> element == Some(old(elements)[0]) && elements == old(elements)[1..]
      ensures element.Some? <==> |old(elements)| > 0
    {
      if |elements| == 0 {
        return None;
      }
      element := Some(elements[0]);
      elements := elements[1..];
    }

    /** Performs a run of calls on this queue, one Enqueue or Dequeue per call, and
        collects what the dequeues return: exactly what `Run` describes. */
    method Perform(calls: seq<QueueCall>) returns (out: seq<Entry>)
      modifies this
      ensures (elements, out) == Run(old(elements), calls)
    {
      out := [];
      var i := 0;
      assert calls[0..] == calls;
      assert out + Run(elements, calls).1 == Run(elements, calls).1;
      while i < |calls|
        invariant 0 <= i <= |calls|
        invariant Run(old(elements), calls) == (Run(elements, calls[i..]).0, out + Run(elements, calls[i..]).1)
      {
        ghost var before := elements;
        assert calls[i..][1..] == calls[i + 1..];
        match calls[i] {
          case EnqueueCall(e) =>
            Enqueue(e.request, e.completion);
          case DequeueCall =>
            var front := Dequeue();
            if front.Some? {
              ghost var r := Run(elements, calls[i + 1..]);
              assert Run(before, calls[i..]) == (r.0, [front.value] + r.1);
              assert out + ([front.value] + r.1) == (out + [front.value]) + r.1;
              out := out + [front.value];
            }
        }
        i := i + 1;
      }
      assert out + [] == out;
    }
  }

  /** A call on the queue, for reasoning about runs of calls. */
  datatype QueueCall = EnqueueCall(entry: Entry) | DequeueCall

  /** The entries a run of calls hands to `enqueue`, in call order. */
  ghost function Enqueued(calls: seq<QueueCall>): seq<Entry>
  {
    if |calls| == 0 then []
    else (if calls[0].EnqueueCall? then [calls[0].entry] else []) + Enqueued(calls[1..])
  }

  /** What a run of calls does to a queue holding `q`, call by call as the postconditions
      of Enqueue and Dequeue state it: the final contents and the non-nil results of the
      dequeues, in order. `WaitingRequestQueue.Perform` is proved to agree with it. */
  ghost function Run(q: seq<Entry>, calls: seq<QueueCall>): (seq<Entry>, seq<Entry>)
    decreases |calls|
  {
    if |calls| == 0 then (q, [])
    else match calls[0]
      case EnqueueCall(e) => Run(q + [e], calls[1..])
      case DequeueCall =>
        if |q| == 0 then Run(q, calls[1..])
        else var r := Run(q[1..], calls[1..]); (r.0, [q[0]] + r.1)
  }

  /** FIFO: what comes out, followed by what is left, is exactly what was waiting
      followed by what went in, in the same order. */
  lemma {:induction false} RunIsFifo(q: seq<Entry>, calls: seq<QueueCall>)
    ensures Run(q, calls).1 + Run(q, calls).0 == q + Enqueued(calls)
    decreases |calls|, 1
  {
    if |calls| > 0 {
      if calls[0].EnqueueCall? {
        EnqueueThenRunIsFifo(q, calls);
      } else {
        DequeueThenRunIsFifo(q, calls);
      }
    }
  }

  /** The FIFO step for a run that starts with an enqueue. */
  lemma {:induction false} EnqueueThenRunIsFifo(q: seq<Entry>, calls: seq<QueueCall>)
    requires |calls| > 0 && calls[0].EnqueueCall?
    ensures Run(q, calls).1 + Run(q, calls).0 == q + Enqueued(calls)
    decreases |calls|, 0
  {
    var e, rest := calls[0].entry, calls[1..];
    RunIsFifo(q + [e], rest);
    assert q + Enqueued(calls) == (q + [e]) + Enqueued(rest);
  }

  /** The FIFO step for a run that starts with a dequeue. */
  lemma {:induction false} DequeueThenRunIsFifo(q: seq<Entry>, calls: seq<QueueCall>)
    requires |calls| > 0 && calls[0].DequeueCall?
    ensures Run(q, calls).1 + Run(q, calls).0 == q + Enqueued(calls)
    decreases |calls|, 0
  {
    var rest := calls[1..];
    assert Enqueued(calls) == Enqueued(rest);
    if |q| == 0 {
      RunIsFifo(q, rest);
    } else {
      RunIsFifo(q[1..], rest);
      assert q + Enqueued(rest) == [q[0]] + (q[1..] + Enqueued(rest));
    }
  }

  /** From an empty queue, the entries dequeued are a prefix of the entries enqueued. */
  lemma OutputIsPrefixOfInput(calls: seq<QueueCall>)
    ensures Run([], calls).1 <= Enqueued(calls)
  {
    RunIsFifo([], calls);
    assert [] + Enqueued(calls) == Enqueued(calls);
  }

  /** `n` calls to `dequeue` in a row. */
  ghost function Dequeues(n: nat): (calls: seq<QueueCall>)
    ensures |calls| == n && forall i :: 0 <= i < n ==> calls[i] == DequeueCall
  {
    if n == 0 then [] else [DequeueCall] + Dequeues(n - 1)
  }

  /** Dequeuing until nil: |q| dequeues yield every waiting entry exactly once, in order,
      and leave the queue empty, so one more dequeue returns nil. */
  lemma {:induction false} DrainYieldsAll(q: seq<Entry>)
    ensures Run(q, Dequeues(|q|)) == ([], q)
    decreases |q|
  {
    if |q| > 0 {
      assert Dequeues(|q|)[1..] == Dequeues(|q| - 1);
      DrainYieldsAll(q[1..]);
      assert [q[0]] + q[1..] == q;
    }
  }

  /** No deduplication: enqueuing the same entry twice leaves it waiting twice. */
  lemma NoDeduplication(q: seq<Entry>, e: Entry)
    ensures Run(q, [EnqueueCall(e), EnqueueCall(e)]).0 == q + [e, e]
  {
    assert [EnqueueCall(e), EnqueueCall(e)][1..] == [EnqueueCall(e)];
    assert [EnqueueCall(e)][1..] == [];
    assert Run(q, [EnqueueCall(e), EnqueueCall(e)]) == Run(q + [e], [EnqueueCall(e)]);
    assert Run(q + [e], [EnqueueCall(e)]) == Run(q + [e] + [e], []);
    assert q + [e] + [e] == q + [e, e];
  }
}
