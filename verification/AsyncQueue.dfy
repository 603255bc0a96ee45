/**
 The queue between a delegated runtime's events and the loop that reads them: values wait for
 takers or takers wait for values, in order of arrival.
 */
module AsyncQueue {
  import opened Sequences
  import opened Wrappers

  type TakerId(==, !new) = nat

  datatype QueueError = Failure(message: string) | StreamClosed | TakeAborted

  /** How a take goes at once: with a value, with an error, or by waiting. */
  datatype Taken<T> = Value(value: T) | Refused(error: QueueError) | Waits

  /** A value handed to a taker. */
  datatype Delivery<T> = Delivery(taker: TakerId, value: T)

  function Values<T>(ds: seq<Delivery<T>>): seq<T> { seq(|ds|, i requires 0 <= i < |ds| => ds[i].value) }

  function Takers<T>(ds: seq<Delivery<T>>): seq<TakerId> { seq(|ds|, i requires 0 <= i < |ds| => ds[i].taker) }

  class Queue<T(==)> {
    var values: seq<T>
    var waiters: seq<TakerId>
    var error: Option<QueueError>
    var closed: bool
    /** Histories: values accepted, deliveries made, and the takers still entitled to one, in order of arrival. */
    ghost var accepted: seq<T>
    ghost var deliveries: seq<Delivery<T>>
    ghost var line: seq<TakerId>

    /**
     What was accepted is what was delivered, in order, and then what is buffered; takers are served in the
     order of their arrival; values and takers never wait together, and nobody waits once the queue has ended.
     */
    ghost predicate Valid()
      reads this
    {
      && accepted == Values(deliveries) + values
      && line == Takers(deliveries) + waiters
      && Distinct(line)
      && (values == [] || waiters == [])
      && (Ended() ==> waiters == [])
    }

    predicate Ended()
      reads this
    {
      closed || error.Some?
    }

    constructor ()
      ensures Valid() && values == [] && waiters == [] && error.None? && !closed
      ensures accepted == [] && deliveries == [] && line == []
    {
      values, waiters, error, closed := [], [], None, false;
      accepted, deliveries, line := [], [], [];
    }

    /** `push`: to the taker that has waited longest, or into the buffer; dropped once the queue has ended. */
    method Push(value: T) returns (handedTo: Option<TakerId>)
      requires Valid()
      modifies this`values, this`waiters, this`accepted, this`deliveries
      ensures Valid()
      ensures accepted == if Ended() then old(accepted) else old(accepted) + [value]
      ensures handedTo == if old(waiters) == [] || Ended() then None else Some(old(waiters)[0])
      ensures deliveries == old(deliveries) + if handedTo.Some? then [Delivery(handedTo.value, value)] else []
    {
      if closed || error.Some? { return None; }
      accepted := accepted + [value];
      if waiters != [] {
        handedTo := Some(waiters[0]);
        deliveries := deliveries + [Delivery(waiters[0], value)];
        waiters := waiters[1..];
      } else {
        handedTo := None;
        values := values + [value];
      }
    }

    /** `fail` and `close` reject everyone who waits; the buffer stays. */
    method Fail(e: QueueError) returns (rejected: seq<TakerId>)
      requires Valid()
      modifies this`error, this`waiters, this`line
      ensures Valid() && error == if old(Ended()) then old(error) else Some(e)
      ensures rejected == old(waiters) && waiters == [] && line == Takers(deliveries)
    {
      rejected := waiters;
      if closed || error.Some? { return; }
      assert forall i | 0 <= i < |deliveries| :: line[i] == Takers(deliveries)[i];
      error, waiters := Some(e), [];
      line := Takers(deliveries);
    }

    method Close() returns (rejected: seq<TakerId>)
      requires Valid()
      modifies this`closed, this`waiters, this`line
      ensures Valid() && closed
      ensures rejected == old(waiters) && waiters == [] && line == Takers(deliveries)
    {
      assert forall i | 0 <= i < |deliveries| :: line[i] == Takers(deliveries)[i];
      rejected, closed, waiters := waiters, true, [];
      line := Takers(deliveries);
    }

    /**
     `take`, with a signal that may have fired already: then nothing is taken. Otherwise the oldest
     buffered value; with none left, the failure, the close, or a place in the line.
     */
    method Take(taker: TakerId, aborted: bool) returns (taken: Taken<T>)
      requires Valid() && taker !in line
      modifies this`values, this`waiters, this`deliveries, this`line
      ensures Valid()
      ensures taken ==
        if aborted then Refused(TakeAborted)
        else if old(values) != [] then Value(old(values)[0])
        else if error.Some? then Refused(error.value)
        else if closed then Refused(StreamClosed)
        else Waits
      ensures deliveries == old(deliveries) + if taken.Value? then [Delivery(taker, taken.value)] else []
      ensures line == old(line) + if taken.Refused? then [] else [taker]
      ensures taken.Refused? ==> values == old(values)
    {
      if aborted {
        taken := Refused(TakeAborted);
      } else if values != [] {
        taken := Value(values[0]);
        deliveries := deliveries + [Delivery(taker, values[0])];
        line, values := line + [taker], values[1..];
      } else if error.Some? {
        taken := Refused(error.value);
      } else if closed {
        taken := Refused(StreamClosed);
      } else {
        taken, waiters, line := Waits, waiters + [taker], line + [taker];
      }
    }

    /** A waiting taker's abort handler: it leaves the line, and no value is lost by that. */
    method Abort(taker: TakerId) returns (left: bool)
      requires Valid()
      modifies this`waiters, this`line
      ensures Valid() && left == (taker in old(waiters))
      ensures line == if left then Without(old(line), taker) else old(line)
      ensures waiters == Without(old(waiters), taker)
    {
      left := taker in waiters;
      WithoutSplits(Takers(deliveries), waiters, taker);
      if !left {
        WithoutAbsent(waiters, taker);
        return;
      }
      var index := 0;
      while waiters[index] != taker
        invariant 0 <= index < |waiters| && taker in waiters[index..]
        decreases |waiters| - index
      {
        assert waiters[index..] == [waiters[index]] + waiters[index + 1..];
        index := index + 1;
      }
      assert waiters == waiters[..index] + [taker] + waiters[index + 1..];
      LeavesLine(Takers(deliveries), waiters[..index], taker, waiters[index + 1..]);
      waiters := waiters[..index] + waiters[index + 1..];
      line := Without(line, taker);
    }
  }

  /** Removing a taker at its place is removing it altogether, as takers are distinct. */
  lemma LeavesLine(served: seq<TakerId>, a: seq<TakerId>, taker: TakerId, b: seq<TakerId>)
    requires Distinct(served + (a + [taker] + b))
    ensures Without(a + [taker] + b, taker) == a + b
    ensures Without(served + (a + [taker] + b), taker) == served + (a + b)
    ensures Distinct(served + (a + b))
  {
    Regroup(served, a, [taker], b);
    Regroup(served, a, [], b);
    OnlyThere(served + a, taker, b);
    assert forall t | t in a :: t in served + a;
    WithoutMiddle(a, taker, b);
    WithoutMiddle(served + a, taker, b);
    assert a + [] + b == a + b && (served + a) + [] + b == (served + a) + b;
  }

  lemma Regroup(served: seq<TakerId>, a: seq<TakerId>, one: seq<TakerId>, b: seq<TakerId>)
    ensures served + (a + one + b) == (served + a) + one + b
  {}
}
