/** Small shared vocabulary: an optional value and the modulo-n rotation that
    the drivechain panel and the onboarding page both advance on a timer. */
module Common {

  datatype Option<+T> = None | Some(value: T)

  /** `(prev + 1) % n`, the update both rotating panels apply on each interval tick. */
  function Next(prev: nat, n: nat): (r: nat)
    requires n > 0
    ensures r < n
    ensures prev < n ==> (r == 0 <==> prev == n - 1)
    ensures prev + 1 < n ==> r == prev + 1
  {
    (prev + 1) % n
  }

  /** `k` ticks in a row. */
  function Advance(start: nat, n: nat, k: nat): (r: nat)
    requires n > 0
    ensures r < n || (k == 0 && r == start)
  {
    if k == 0 then start else Next(Advance(start, n, k - 1), n)
  }

  /** Up to a full cycle, `k` ticks from an in-range index add `k` and wrap once past `n`. */
  lemma {:induction false} AdvanceWraps(start: nat, n: nat, k: nat)
    requires start < n && k <= n
    ensures Advance(start, n, k) == if start + k < n then start + k else start + k - n
  {
    if k > 0 {
      AdvanceWraps(start, n, k - 1);
    }
  }

  /** Fewer than n ticks never bring an in-range index back to itself: the
      rotation visits every other index before it returns. */
  lemma {:induction false} NoEarlyReturn(start: nat, n: nat, k: nat)
    requires start < n && 0 < k < n
    ensures Advance(start, n, k) != start
  {
    AdvanceWraps(start, n, k);
  }

  /** n ticks bring any in-range index back to itself. */
  lemma FullCycle(start: nat, n: nat)
    requires start < n
    ensures Advance(start, n, n) == start
  {
    AdvanceWraps(start, n, n);
  }

  /** Number of `true` entries. */
  function CountTrue(flags: seq<bool>): nat {
    if flags == [] then 0 else (if flags[0] then 1 else 0) + CountTrue(flags[1..])
  }

  /** The per-item "is this the active one" flags a rendered list computes. */
  function ActiveFlags(n: nat, active: nat): (flags: seq<bool>)
    ensures |flags| == n
    ensures forall i :: 0 <= i < n ==> (flags[i] <==> i == active)
  {
    seq(n, i => i == active)
  }

  /** With an in-range active index, exactly one item is flagged; out of range, none. */
  lemma {:induction false} ExactlyOneActive(n: nat, active: nat)
    ensures CountTrue(ActiveFlags(n, active)) == if active < n then 1 else 0
  {
    if n > 0 {
      var flags := ActiveFlags(n, active);
      ExactlyOneActive(n - 1, active);
      assert flags[..n - 1] == ActiveFlags(n - 1, active);
      CountTrueSplit(flags[..n - 1], [flags[n - 1]]);
      assert flags[..n - 1] + [flags[n - 1]] == flags;
    }
  }

  lemma {:induction false} CountTrueSplit(a: seq<bool>, b: seq<bool>)
    ensures CountTrue(a + b) == CountTrue(a) + CountTrue(b)
  {
    if a != [] {
      CountTrueSplit(a[1..], b);
      assert (a + b)[1..] == a[1..] + b;
    } else {
      assert a + b == b;
    }
  }

  /** One entry of a day-by-day history: how many days before today, and its value. */
  datatype DailyValue = DailyValue(daysAgo: nat, value: int)

  /** The history loop shared by the data generators: `for (i = days; i >= 0; i--)`
      pushes one entry for `i` days ago whose value is `base` plus that
      iteration's draw `Math.floor(Math.random() * span)`. */
  method DailySeries(days: nat, base: int, span: nat, draws: seq<int>) returns (result: seq<DailyValue>)
    requires |draws| == days + 1
    requires forall k :: 0 <= k < |draws| ==> 0 <= draws[k] < span
    ensures |result| == days + 1
    ensures result[days].daysAgo == 0
    ensures forall k :: 0 <= k < |result| ==> result[k].daysAgo == days - k
    ensures forall k :: 0 <= k < |result| ==> result[k].value == base + draws[k]
    ensures forall k :: 0 <= k < |result| ==> base <= result[k].value < base + span
  {
    result := [];
    var i: int := days;
    while i >= 0
      invariant -1 <= i <= days
      invariant |result| == days - i
      invariant forall k :: 0 <= k < |result| ==> result[k] == DailyValue(days - k, base + draws[k])
    {
      result := result + [DailyValue(i, base + draws[days - i])];
      i := i - 1;
    }
  }
}
