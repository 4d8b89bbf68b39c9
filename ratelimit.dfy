/** The sliding-window rate limiter of `check_rate_limit`: a call at time
    `now` first forgets every recorded timestamp that is not strictly newer
    than `now - 60`, then is refused when ten or more remain, and otherwise
    records `now`. Timestamps are whole seconds. */
module RateLimit {

  /** At most this many calls are admitted inside one window. */
  const MaxCalls: nat := 10

  /** The length of the trailing window, in seconds. */
  const WindowSeconds: int := 60

  predicate Recent(t: int, now: int) {
    t > now - WindowSeconds
  }

  ghost predicate Sorted(s: seq<int>) {
    forall i, j :: 0 <= i <= j < |s| ==> s[i] <= s[j]
  }

  /** `a` is `b` with some elements left out, the rest in their order. */
  ghost predicate IsSubsequence(a: seq<int>, b: seq<int>)
    decreases |b|
  {
    a == [] || (b != [] && ((a[0] == b[0] && IsSubsequence(a[1..], b[1..])) || IsSubsequence(a, b[1..])))
  }

  /** `r` holds every recent timestamp of `calls` as often as `calls` does,
      and no other. */
  ghost predicate KeepsRecentCopies(r: seq<int>, calls: seq<int>, now: int) {
    forall t :: multiset(r)[t] == if Recent(t, now) then multiset(calls)[t] else 0
  }

  /** `[t for t in calls if t > now - 60]`. */
  function Pruned(calls: seq<int>, now: int): (r: seq<int>)
    ensures |r| <= |calls|
    ensures forall t :: t in r <==> t in calls && Recent(t, now)
    ensures IsSubsequence(r, calls)
    decreases |calls|
  {
    if calls == [] then []
    else
      var rest := Pruned(calls[1..], now);
      if Recent(calls[0], now) then
        assert ([calls[0]] + rest)[1..] == rest;
        [calls[0]] + rest
      else rest
  }

  /** Whether a call at `now` is admitted: fewer than ten recorded calls
      are still inside the window. A refusal needs ten recorded calls, and
      a window whose calls are all older than a minute always admits. */
  predicate Admits(calls: seq<int>, now: int): (b: bool)
    ensures !b ==> |calls| >= MaxCalls
    ensures (forall i :: 0 <= i < |calls| ==> !Recent(calls[i], now)) ==> b
  {
    var kept := Pruned(calls, now);
    assert (forall i :: 0 <= i < |calls| ==> !Recent(calls[i], now)) ==> kept == [] by {
      if (forall i :: 0 <= i < |calls| ==> !Recent(calls[i], now)) && kept != [] {
        assert kept[0] in kept;
      }
    }
    |kept| < MaxCalls
  }

  /** The window after a call at `now`. */
  function AfterCall(calls: seq<int>, now: int): (r: seq<int>)
    ensures |calls| <= MaxCalls ==> |r| <= MaxCalls
    ensures Admits(calls, now) <==> now in r && |r| == |Pruned(calls, now)| + 1
    ensures Admits(calls, now) ==> r == Pruned(calls, now) + [now]
    ensures !Admits(calls, now) ==> r == Pruned(calls, now)
    ensures forall t :: t in r ==> Recent(t, now)
    ensures (forall t :: t in calls ==> t <= now) ==> forall t :: t in r ==> t <= now
  {
    var kept := Pruned(calls, now);
    if |kept| >= MaxCalls then kept else kept + [now]
  }

  /** Pruning keeps each recent timestamp as many times as it was recorded,
      which is what the `len(...) >= 10` count sees. */
  lemma {:induction false} PrunedCounts(calls: seq<int>, now: int)
    ensures KeepsRecentCopies(Pruned(calls, now), calls, now)
    decreases |calls|
  {
    if calls != [] {
      PrunedCounts(calls[1..], now);
      var rest := Pruned(calls[1..], now);
      assert calls == [calls[0]] + calls[1..];
      assert multiset(calls) == multiset{calls[0]} + multiset(calls[1..]);
      if Recent(calls[0], now) {
        assert multiset([calls[0]] + rest) == multiset{calls[0]} + multiset(rest);
      }
    }
  }

  lemma {:induction false} PrunedConcat(a: seq<int>, b: seq<int>, now: int)
    ensures Pruned(a + b, now) == Pruned(a, now) + Pruned(b, now)
    decreases |a|
  {
    if a == [] {
      assert a + b == b;
    } else {
      assert (a + b)[0] == a[0];
      assert (a + b)[1..] == a[1..] + b;
      PrunedConcat(a[1..], b, now);
    }
  }

  lemma {:induction false} PrunedAllRecent(s: seq<int>, now: int)
    requires forall i :: 0 <= i < |s| ==> Recent(s[i], now)
    ensures Pruned(s, now) == s
    decreases |s|
  {
    if s != [] {
      PrunedAllRecent(s[1..], now);
      assert [s[0]] + s[1..] == s;
    }
  }

  /** Pruning at an earlier time and then at a later one is pruning at the later one. */
  lemma {:induction false} PrunedTwice(s: seq<int>, earlier: int, now: int)
    requires earlier <= now
    ensures Pruned(Pruned(s, earlier), now) == Pruned(s, now)
    decreases |s|
  {
    if s != [] {
      PrunedTwice(s[1..], earlier, now);
      var rest := Pruned(s[1..], earlier);
      if Recent(s[0], earlier) {
        assert ([s[0]] + rest)[0] == s[0];
        assert ([s[0]] + rest)[1..] == rest;
      }
    }
  }

  datatype Trace = Trace(window: seq<int>, admitted: seq<int>)

  /** The window and the admitted timestamps after calls at the times in
      `nows`, in order, starting from an empty window. */
  function Replay(nows: seq<int>): Trace
    decreases |nows|
  {
    if nows == [] then Trace([], [])
    else
      var before := Replay(nows[..|nows| - 1]);
      var now := nows[|nows| - 1];
      Trace(AfterCall(before.window, now),
            if Admits(before.window, now) then before.admitted + [now] else before.admitted)
  }

  /** Any eleven consecutive admitted calls span at least sixty seconds. */
  ghost predicate Spaced(a: seq<int>) {
    forall i, j :: 0 <= i && j == i + MaxCalls && j < |a| ==> a[j] - a[i] >= WindowSeconds
  }

  /** No stretch of fewer than sixty seconds holds more than ten of `a`. */
  ghost predicate WindowBounded(a: seq<int>) {
    forall i, j :: 0 <= i <= j < |a| && a[j] - a[i] < WindowSeconds ==> j - i < MaxCalls
  }

  ghost predicate AllAtMost(a: seq<int>, bound: int) {
    forall t :: t in a ==> t <= bound
  }

  /** With a clock that never goes back, the window is exactly the admitted
      timestamps that are recent at the last call. */
  lemma {:induction false} ReplayWindow(nows: seq<int>)
    requires Sorted(nows) && nows != []
    ensures Replay(nows).window == Pruned(Replay(nows).admitted, nows[|nows| - 1])
    ensures Sorted(Replay(nows).admitted)
    ensures AllAtMost(Replay(nows).admitted, nows[|nows| - 1])
    decreases |nows|
  {
    var prefix := nows[..|nows| - 1];
    var now := nows[|nows| - 1];
    var before := Replay(prefix);
    var b := before.admitted;
    if prefix == [] {
      assert before == Trace([], []);
      assert Pruned([], now) == [];
      PrunedAllRecent([now], now);
    } else {
      var prev := prefix[|prefix| - 1];
      assert Sorted(prefix);
      assert prev <= now;
      ReplayWindow(prefix);
      PrunedTwice(b, prev, now);
      assert Pruned(before.window, now) == Pruned(b, now);
      if Admits(before.window, now) {
        PrunedConcat(b, [now], now);
        PrunedAllRecent([now], now);
        SortedAppend(b, now);
      }
    }
  }

  lemma SortedAppend(b: seq<int>, now: int)
    requires Sorted(b) && AllAtMost(b, now)
    ensures Sorted(b + [now]) && AllAtMost(b + [now], now)
  {
    var a := b + [now];
    forall i, j | 0 <= i <= j < |a| ensures a[i] <= a[j] {
      if j < |b| {
        assert a[i] == b[i] && a[j] == b[j];
      } else {
        assert a[i] in b || i == j;
      }
    }
  }

  /** A call that finds ten recent timestamps among the sorted `b` is refused,
      so an admitted call lies at least sixty seconds after the tenth-last. */
  lemma AdmittedCallIsSpaced(b: seq<int>, now: int, i: int)
    requires Sorted(b) && |Pruned(b, now)| < MaxCalls
    requires 0 <= i && i + MaxCalls == |b|
    ensures now - b[i] >= WindowSeconds
  {
    if b[i] > now - WindowSeconds {
      var tail := b[i..];
      forall k | 0 <= k < |tail| ensures Recent(tail[k], now) {
        assert tail[k] == b[i + k] && b[i] <= b[i + k];
      }
      PrunedAllRecent(tail, now);
      assert b == b[..i] + tail;
      PrunedConcat(b[..i], tail, now);
    }
  }

  lemma {:induction false} ReplaySpacing(nows: seq<int>)
    requires Sorted(nows)
    ensures Spaced(Replay(nows).admitted)
    decreases |nows|
  {
    if nows != [] {
      var prefix := nows[..|nows| - 1];
      var now := nows[|nows| - 1];
      var before := Replay(prefix);
      var b := before.admitted;
      var a := Replay(nows).admitted;
      assert Sorted(prefix);
      ReplaySpacing(prefix);
      if Admits(before.window, now) {
        assert a == b + [now];
        forall i, j | 0 <= i && j == i + MaxCalls && j < |a|
          ensures a[j] - a[i] >= WindowSeconds
        {
          if j < |b| {
            assert a[i] == b[i] && a[j] == b[j];
          } else {
            assert prefix != [];
            var prev := prefix[|prefix| - 1];
            assert prev <= now;
            ReplayWindow(prefix);
            PrunedTwice(b, prev, now);
            AdmittedCallIsSpaced(b, now, i);
          }
        }
      }
    }
  }

  lemma SpacedIsBounded(a: seq<int>)
    requires Sorted(a) && Spaced(a)
    ensures WindowBounded(a)
  {
    forall i, j | 0 <= i <= j < |a|
      ensures j - i >= MaxCalls ==> a[j] - a[i] >= WindowSeconds
    {
      if j - i >= MaxCalls {
        var k := i + MaxCalls;
        assert a[k] - a[i] >= WindowSeconds;
        assert a[k] <= a[j];
      }
    }
  }

  /** The headline bound: for any sequence of calls with a clock that never
      goes back, no stretch shorter than sixty seconds holds more than ten
      admitted calls. */
  lemma SlidingWindowBound(nows: seq<int>)
    requires Sorted(nows)
    ensures WindowBounded(Replay(nows).admitted)
  {
    ReplaySpacing(nows);
    if nows != [] {
      ReplayWindow(nows);
      SpacedIsBounded(Replay(nows).admitted);
    }
  }

  function Repeat(n: nat, t: int): (s: seq<int>)
    ensures |s| == n && forall i :: 0 <= i < n ==> s[i] == t
  {
    seq(n, _ => t)
  }

  function Min(a: nat, b: nat): nat {
    if a <= b then a else b
  }

  /** A burst of `n` calls at one instant: the first ten are admitted, every
      later one is refused. */
  lemma {:induction false} BurstAtOneInstant(n: nat, t: int)
    ensures Replay(Repeat(n, t)).admitted == Repeat(Min(n, MaxCalls), t)
    ensures Replay(Repeat(n, t)).window == Repeat(Min(n, MaxCalls), t)
  {
    if n > 0 {
      var nows := Repeat(n, t);
      assert nows[..n - 1] == Repeat(n - 1, t);
      BurstAtOneInstant(n - 1, t);
      var before := Repeat(Min(n - 1, MaxCalls), t);
      PrunedAllRecent(before, t);
      assert Replay(nows[..n - 1]) == Trace(before, before);
      assert before + [t] == Repeat(Min(n, MaxCalls), t) || n - 1 >= MaxCalls;
    }
  }
}
