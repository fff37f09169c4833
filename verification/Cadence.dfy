/**
  How often the stalled scan runs. Times are nanoseconds; Redis counts in milliseconds and
  keeps a key while its clock has not passed the expiry.
 */
module Cadence {
  import opened Wrappers

  const MS := 1_000_000

  function Millis(t: nat): nat {
    t / MS
  }

  /** stalledCheckTTL. */
  function CheckTtl(interval: nat): (ttl: nat) {
    var ms := Millis(interval - interval / 10);
    if ms < 1 then 1 else ms
  }

  /** The key set at time t with that TTL is still there at time u. */
  predicate KeyAlive(t: nat, ttl: nat, u: nat) {
    Millis(u) <= Millis(t) + ttl
  }

  lemma MillisAdd(t: nat, d: nat)
    ensures Millis(t) + Millis(d) <= Millis(t + d) <= Millis(t) + Millis(d) + 1
  {
  }

  lemma MillisMonotone(t: nat, u: nat)
    requires t <= u
    ensures Millis(t) <= Millis(u)
  {
  }

  /**
    A worker that scans again one interval or more after its scan finds the key gone whatever
    the phase of the millisecond clock, exactly when the interval's whole milliseconds exceed
    the TTL.
   */
  lemma NextScanIsEffective(interval: nat)
    ensures (forall t: nat, u: nat :: u >= t + interval ==> !KeyAlive(t, CheckTtl(interval), u))
       <==> Millis(interval) > CheckTtl(interval)
  {
    if Millis(interval) > CheckTtl(interval) {
      forall t: nat, u: nat | u >= t + interval
        ensures !KeyAlive(t, CheckTtl(interval), u)
      {
        MillisAdd(t, interval);
        MillisMonotone(t + interval, u);
      }
    } else {
      assert KeyAlive(0, CheckTtl(interval), interval);
    }
  }

  /** The TTL is nine tenths of the interval, in whole milliseconds, and at least one. */
  lemma TtlLeavesATenth(interval: nat)
    ensures CheckTtl(interval) >= 1
    ensures interval >= 2 * MS ==> 10 * MS * CheckTtl(interval) <= 9 * interval + 9
    ensures 9 * interval < 10 * MS * (CheckTtl(interval) + 1)
  {
    var rest := interval - interval / 10;
    assert MS * Millis(rest) <= rest < MS * (Millis(rest) + 1);
  }

  /** Ten milliseconds are enough. */
  lemma TenMillisecondsSuffice(interval: nat)
    requires interval >= 10 * MS
    ensures Millis(interval) > CheckTtl(interval)
  {
    var margin := interval / 10;
    assert margin >= MS;
    MillisMonotone(interval - margin, interval - MS);
    assert Millis(interval - MS) == Millis(interval) - 1;
  }

  /** An interval of one millisecond is too short: the key outlives it. */
  lemma OneMillisecondMisses()
    ensures KeyAlive(0, CheckTtl(MS), MS)
  {
  }

  // ---------- any number of workers ----------

  /** A call of the script at time t by a worker that asks for this TTL. */
  datatype Call = Call(t: nat, ttl: nat)

  /** The expiry of stalled-check after the first n calls, and whether a call finds it absent. */
  function Expiry(calls: seq<Call>, n: nat): Option<nat>
    requires n <= |calls|
    decreases n, 0
  {
    if n == 0 then None
    else if Effective(calls, n - 1) then Some(Millis(calls[n - 1].t) + calls[n - 1].ttl)
    else Expiry(calls, n - 1)
  }

  predicate Effective(calls: seq<Call>, i: nat)
    requires i < |calls|
    decreases i, 1
  {
    var key := Expiry(calls, i);
    key.None? || Millis(calls[i].t) > key.value
  }

  predicate InTime(calls: seq<Call>) {
    forall i, j :: 0 <= i < j < |calls| ==> calls[i].t <= calls[j].t
  }

  lemma {:induction false} ExpiryCovers(calls: seq<Call>, i: nat, n: nat)
    requires InTime(calls) && i < n <= |calls| && Effective(calls, i)
    ensures Expiry(calls, n).Some? && Expiry(calls, n).value >= Millis(calls[i].t) + calls[i].ttl
  {
    if i < n - 1 {
      ExpiryCovers(calls, i, n - 1);
    }
  }

  /** However many workers call, effective scans are more than the TTL of the earlier one apart. */
  lemma EffectiveScansApart(calls: seq<Call>, i: nat, j: nat)
    requires InTime(calls) && i < j < |calls| && Effective(calls, i) && Effective(calls, j)
    ensures Millis(calls[j].t) > Millis(calls[i].t) + calls[i].ttl
  {
    ExpiryCovers(calls, i, j);
  }
}
