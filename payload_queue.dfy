/**
 * The bounded pending-payload queue of the service and its flush discipline, as
 * functions on sequences (head at index 0). The service class applies these.
 */
module PayloadQueue {
  import opened Types

  /** The newest `n` elements of `s`, in order (all of `s` when it is shorter). */
  function Newest<T>(s: seq<T>, n: nat): (r: seq<T>)
    ensures |r| == if |s| <= n then |s| else n
  {
    if |s| <= n then s else s[|s| - n..]
  }

  /** Element `i` of the newest `n` is element `i` counted from the start of that tail. */
  lemma NewestAt<T>(s: seq<T>, n: nat, i: nat)
    requires i < |Newest(s, n)|
    ensures Newest(s, n)[i] == s[|s| - |Newest(s, n)| + i]
  {
  }

  /**
   * Enqueue exactly as the service writes it: when the queue is at or over capacity the
   * head, and only the head, is removed before the new payload is appended.
   */
  function EnqueuedAsWritten<T>(q: seq<T>, p: T, cap: Capacity): (r: seq<T>)
    ensures |r| == if |q| >= cap then |q| else |q| + 1
    ensures r[|r| - 1] == p
    ensures |q| <= cap ==> |r| <= cap
    ensures |q| >= cap ==> r[..|r| - 1] == q[1..]
    ensures |q| < cap ==> r[..|r| - 1] == q
  {
    (if |q| >= cap then q[1..] else q) + [p]
  }

  /**
   * A queue left longer than the capacity (the capacity of a restarted session can be
   * smaller than the queue it inherits) stays over capacity after the enqueue as written.
   */
  lemma AsWrittenStaysOverCapacity<T>(q: seq<T>, p: T, cap: Capacity)
    requires |q| > cap
    ensures |EnqueuedAsWritten(q, p, cap)| == |q| > cap
  {
  }

  /** A concrete witness: three queued samples, a restart with capacity 1, one more sample. */
  lemma AsWrittenOverflowWitness(a: LocationPayload, b: LocationPayload, c: LocationPayload, d: LocationPayload)
    ensures EnqueuedAsWritten([a, b, c], d, 1) == [b, c, d]
  {
  }

  /**
   * Enqueue as intended: evict the oldest payloads until there is room, then append;
   * the queue afterwards is the newest `cap` of the old queue plus the new payload.
   */
  function Enqueued<T>(q: seq<T>, p: T, cap: Capacity): (r: seq<T>)
    ensures 1 <= |r| <= cap
    ensures r[|r| - 1] == p
    ensures r == Newest(q + [p], cap)
  {
    if |q| >= cap then q[|q| - cap + 1..] + [p] else q + [p]
  }

  /** Whenever the queue is within capacity the intended enqueue is the one written. */
  lemma EnqueuedAgreesWithSource<T>(q: seq<T>, p: T, cap: Capacity)
    requires |q| <= cap
    ensures Enqueued(q, p, cap) == EnqueuedAsWritten(q, p, cap)
  {
  }

  /** A run of enqueues, oldest first. */
  function EnqueueAll<T>(q: seq<T>, ps: seq<T>, cap: Capacity): seq<T>
    decreases |ps|
  {
    if ps == [] then q else EnqueueAll(Enqueued(q, ps[0], cap), ps[1..], cap)
  }

  lemma {:induction false} NewestOfNewest<T>(s: seq<T>, t: seq<T>, n: nat)
    ensures Newest(Newest(s, n) + t, n) == Newest(s + t, n)
  {
    var a := Newest(Newest(s, n) + t, n);
    var b := Newest(s + t, n);
    assert |a| == |b|;
    forall i | 0 <= i < |a| ensures a[i] == b[i] {
      var k := |Newest(s, n) + t| - |a| + i;
      NewestAt(Newest(s, n) + t, n, i);
      NewestAt(s + t, n, i);
      if k < |Newest(s, n)| {
        NewestAt(s, n, k);
        assert (Newest(s, n) + t)[k] == Newest(s, n)[k];
      } else {
        assert (Newest(s, n) + t)[k] == t[k - |Newest(s, n)|];
      }
    }
  }

  /** One enqueue of a run, stated as the newest elements of the longer queue. */
  lemma EnqueueAllUnfold<T>(q: seq<T>, ps: seq<T>, cap: Capacity)
    requires ps != []
    ensures EnqueueAll(q, ps, cap) == EnqueueAll(Newest(q + [ps[0]], cap), ps[1..], cap)
  {
    var q' := Enqueued(q, ps[0], cap);
    assert EnqueueAll(q, ps, cap) == EnqueueAll(q', ps[1..], cap);
  }

  lemma ConcatHead<T>(q: seq<T>, ps: seq<T>)
    requires ps != []
    ensures q + [ps[0]] + ps[1..] == q + ps
  {
    assert ps == [ps[0]] + ps[1..];
  }

  /**
   * After any run of enqueues into a queue within capacity, the queue holds exactly the
   * newest `cap` payloads of the old queue followed by the run, in insertion order.
   */
  lemma {:induction false} EnqueueAllKeepsNewest<T>(q: seq<T>, ps: seq<T>, cap: Capacity)
    requires |q| <= cap
    ensures EnqueueAll(q, ps, cap) == Newest(q + ps, cap)
    decreases |ps|
  {
    if ps == [] {
      assert q + ps == q;
    } else {
      EnqueueAllUnfold(q, ps, cap);
      ConcatHead(q, ps);
      EnqueueAllKeepsNewest(Newest(q + [ps[0]], cap), ps[1..], cap);
      NewestOfNewest(q + [ps[0]], ps[1..], cap);
    }
  }

  /** One connected flush iteration with a configuration: the head leaves only on a successful send. */
  function FlushOnce<T>(q: seq<T>, sendOk: bool): seq<T>
  {
    if q != [] && sendOk then q[1..] else q
  }

  /**
   * A run of connected flush iterations, one send result per iteration; returns the
   * queue left over and the payloads delivered, in delivery order.
   */
  function Drain<T>(q: seq<T>, results: seq<bool>): (seq<T>, seq<T>)
    decreases |results|
  {
    if results == [] then (q, [])
    else
      var rest := Drain(FlushOnce(q, results[0]), results[1..]);
      (rest.0, (if q != [] && results[0] then [q[0]] else []) + rest.1)
  }

  function Successes(results: seq<bool>): nat
  {
    if results == [] then 0 else (if results[0] then 1 else 0) + Successes(results[1..])
  }

  /**
   * Head-of-line delivery: the payloads delivered are a prefix of the queue, in queue
   * order, one per successful send, and the rest of the queue is left in place.
   */
  lemma {:induction false} DrainDeliversPrefix<T>(q: seq<T>, results: seq<bool>)
    ensures var n := if Successes(results) <= |q| then Successes(results) else |q|;
      Drain(q, results).1 == q[..n] && Drain(q, results).0 == q[n..]
    decreases |results|
  {
    if results != [] {
      var q1 := FlushOnce(q, results[0]);
      var m := Successes(results[1..]);
      var n1 := if m <= |q1| then m else |q1|;
      DrainDeliversPrefix(q1, results[1..]);
      assert Drain(q1, results[1..]).1 == q1[..n1] && Drain(q1, results[1..]).0 == q1[n1..];
      if q != [] && results[0] {
        assert q1 == q[1..];
        assert Successes(results) == m + 1;
        assert Drain(q, results).1 == [q[0]] + q1[..n1];
        assert q[..n1 + 1] == [q[0]] + q[1..][..n1];
        assert q[n1 + 1..] == q[1..][n1..];
      } else {
        assert q1 == q;
        assert Drain(q, results).1 == q1[..n1];
        assert q == [] || Successes(results) == m;
      }
    }
  }

  /** Sends that keep failing never shorten the queue and never skip its head. */
  lemma FailuresKeepQueue<T>(q: seq<T>, results: seq<bool>)
    requires forall i :: 0 <= i < |results| ==> !results[i]
    ensures Drain(q, results) == (q, [])
  {
    assert Successes(results) == 0 by { NoSuccesses(results); }
    DrainDeliversPrefix(q, results);
  }

  lemma {:induction false} NoSuccesses(results: seq<bool>)
    requires forall i :: 0 <= i < |results| ==> !results[i]
    ensures Successes(results) == 0
  {
    if results != [] {
      NoSuccesses(results[1..]);
    }
  }
}
