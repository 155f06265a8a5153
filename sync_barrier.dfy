// The synchronisation barrier of AVClock: a generation id handed out by a
// counter shared by every clock, and a countdown of the reports still expected
// for that generation.

module SyncBarrier {

  /** The C++ `int` used for barrier ids. */
  newtype Int32 = x: int | -0x8000_0000 <= x < 0x8000_0000

  const MaxInt32: Int32 := 0x7FFF_FFFF
  const MinInt32: Int32 := -0x8000_0000

  /** `++sId` on a 32-bit counter, wrapping from the largest value to the smallest. */
  function Wrap32Inc(s: Int32): (r: Int32)
    ensures (r as int - s as int) % 0x1_0000_0000 == 1
    ensures s != MaxInt32 ==> r as int == s as int + 1
  {
    if s == MaxInt32 then MinInt32 else s + 1
  }

  /** The id `syncStart` hands out after the shared counter held `s`: a counter
      at -1 is first put back to 0, so that the increment never yields the
      sentinel 0 that marks a closed barrier. */
  function NextSyncId(s: Int32): (r: Int32)
    ensures r != 0
    ensures (r as int - s as int) % 0x1_0000_0000 == if s == -1 then 2 else 1
  {
    Wrap32Inc(if s == -1 then 0 else s)
  }

  /** The value of the shared counter after `k` calls of `syncStart`, starting
      from its initial 0. */
  function IdAfter(k: nat): Int32 {
    if k == 0 then 0 else NextSyncId(IdAfter(k - 1))
  }

  /** From the initial counter the k-th barrier gets id k, so no two barriers
      opened before the counter wraps share an id. */
  lemma {:induction false} IdsCountUp(k: nat)
    requires k <= MaxInt32 as int
    ensures IdAfter(k) as int == k
  {
    if k > 0 {
      IdsCountUp(k - 1);
    }
  }

  /** The function-local `static int sId` of `syncStart`: one counter shared by
      every clock. */
  class SyncIdSource {
    var last: Int32

    constructor ()
      ensures last == 0
    {
      last := 0;
    }

    method Next() returns (id: Int32)
      modifies this
      ensures id == NextSyncId(old(last)) && last == id
      ensures id != 0
    {
      if last == -1 {
        last := 0;
      }
      last := Wrap32Inc(last);
      id := last;
    }
  }

  /** `nb_sync` (the reports still expected) and `sync_id` (the open
      generation, 0 when closed). */
  datatype Barrier = Barrier(nbSync: int, syncId: Int32)

  const Closed := Barrier(0, 0)

  /** The barrier after `syncStart(count)` has drawn the id `id`. */
  function Open(id: Int32, count: int): (r: Barrier)
    requires id != 0
    ensures r.syncId != 0 && r.nbSync == count
  {
    Barrier(count, id)
  }

  /** `syncEndOnce(id)`: the new barrier and the returned bool. */
  function EndOnce(b: Barrier, id: Int32): (r: (Barrier, bool))
    // a report for another generation is answered `true` and ignored
    ensures id != b.syncId ==> r == (b, true)
    // a report for the open generation counts down by one ...
    ensures id == b.syncId ==> r.0.nbSync == b.nbSync - 1
    // ... closes the barrier exactly when the count reaches zero ...
    ensures id == b.syncId ==> r.0.syncId == (if r.0.nbSync == 0 then 0 else b.syncId)
    // ... and answers whether the barrier is still open
    ensures id == b.syncId ==> r.1 == (r.0.syncId != 0)
  {
    if id != b.syncId then (b, true)
    else
      var n := b.nbSync - 1;
      var sid := if n == 0 then 0 else b.syncId;
      (Barrier(n, sid), sid != 0)
  }

  /** `k` successive calls of `syncEndOnce(id)`: the final barrier and the
      answers in call order. */
  function EndRepeat(b: Barrier, id: Int32, k: nat): (r: (Barrier, seq<bool>))
    ensures |r.1| == k
    decreases k
  {
    if k == 0 then (b, [])
    else
      var (b1, first) := EndOnce(b, id);
      var (b2, rest) := EndRepeat(b1, id, k - 1);
      (b2, [first] + rest)
  }

  /** Stale reports never block: each is answered `true` and the barrier is
      left as it was. */
  lemma {:induction false} StaleReportsChangeNothing(b: Barrier, id: Int32, k: nat)
    requires id != b.syncId
    ensures EndRepeat(b, id, k).0 == b
    ensures forall i :: 0 <= i < k ==> EndRepeat(b, id, k).1[i]
    decreases k
  {
    if k > 0 {
      StaleReportsChangeNothing(b, id, k - 1);
    }
  }

  /** With `n >= 1` reports expected on an open generation, `k` reports with
      its id are answered `true` except the n-th, which closes the barrier and
      is answered `false`; reports after that are stale. */
  lemma {:induction false} Countdown(b: Barrier, id: Int32, k: nat)
    requires id != 0 && b.syncId == id && b.nbSync >= 1
    ensures forall i :: 0 <= i < k ==> EndRepeat(b, id, k).1[i] == (i != b.nbSync - 1)
    ensures EndRepeat(b, id, k).0 ==
              if k < b.nbSync then Barrier(b.nbSync - k, id) else Closed
    decreases k
  {
    if k > 0 {
      var b1 := EndOnce(b, id).0;
      if b.nbSync == 1 {
        assert b1 == Closed;
        StaleReportsChangeNothing(b1, id, k - 1);
      } else {
        Countdown(b1, id, k - 1);
      }
    }
  }

  /** `syncStart(n)` followed by `k` reports with the id it returned. */
  lemma SyncRoundTrip(counter: Int32, n: int, k: nat)
    requires n >= 1
    ensures var id := NextSyncId(counter);
            var r := EndRepeat(Open(id, n), id, k);
            (forall i :: 0 <= i < k ==> r.1[i] == (i != n - 1)) &&
            (k >= n ==> r.0 == Closed)
  {
    Countdown(Open(NextSyncId(counter), n), NextSyncId(counter), k);
  }

  /** Once the barrier has been closed its id is 0, so a report carrying 0
      matches it: the count drops below zero and the answer is `false`. */
  lemma ZeroIdMatchesClosedBarrier()
    ensures EndOnce(Closed, 0) == (Barrier(-1, 0), false)
  {
  }
}
