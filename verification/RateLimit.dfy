/** The per-connection rate limit: a counting window that starts anew with the first message that
    arrives more than an interval after it began. */
module RateLimit {
  const MAX_MESSAGES_PER_INTERVAL: nat := 10
  const RATE_LIMIT_INTERVAL: nat := 1_000_000_000   // one second, in nanoseconds

  datatype Window = Window(count: nat, start: int)

  function Handle(w: Window, now: int): Window {
    if now - w.start > RATE_LIMIT_INTERVAL then Window(1, now) else Window(w.count + 1, w.start)
  }

  /** Whether the message that led to this window was let through. */
  predicate Accepted(w: Window) {
    w.count <= MAX_MESSAGES_PER_INTERVAL
  }

  ghost predicate Clock(ts: seq<int>) {
    forall i, j | 0 <= i < j < |ts| :: ts[i] <= ts[j]
  }

  /** How many of the messages were let through that arrived in the closed interval [a, b]. */
  function AcceptedBetween(w: Window, ts: seq<int>, a: int, b: int): nat
    decreases |ts|
  {
    if ts == [] then 0
    else
      var w1 := Handle(w, ts[0]);
      (if Accepted(w1) && a <= ts[0] <= b then 1 else 0) + AcceptedBetween(w1, ts[1..], a, b)
  }

  /** How many were let through by the window that began at `start`. */
  function AcceptedIn(w: Window, ts: seq<int>, start: int): nat
    decreases |ts|
  {
    if ts == [] then 0
    else
      var w1 := Handle(w, ts[0]);
      (if Accepted(w1) && w1.start == start then 1 else 0) + AcceptedIn(w1, ts[1..], start)
  }

  /** What a window can still let through. */
  function Left(w: Window): nat {
    if w.count < MAX_MESSAGES_PER_INTERVAL then MAX_MESSAGES_PER_INTERVAL - w.count else 0
  }

  lemma {:induction false} NoneAfter(w: Window, ts: seq<int>, a: int, b: int)
    requires Clock(ts) && ts != [] && ts[0] > b
    ensures AcceptedBetween(w, ts, a, b) == 0
    decreases |ts|
  {
    if |ts| > 1 {
      NoneAfter(Handle(w, ts[0]), ts[1..], a, b);
    }
  }

  /** Up to an interval after it began, a window lets through no more than it has left. */
  lemma {:induction false} WithinWindow(w: Window, ts: seq<int>, a: int, b: int)
    requires Clock(ts) && b <= w.start + RATE_LIMIT_INTERVAL
    ensures AcceptedBetween(w, ts, a, b) <= Left(w)
    decreases |ts|
  {
    if ts != [] {
      if ts[0] > b {
        NoneAfter(w, ts, a, b);
      } else {
        WithinWindow(Handle(w, ts[0]), ts[1..], a, b);
      }
    }
  }

  /** Up to two intervals after it began, at most one more window opens. */
  lemma {:induction false} WithinTwoWindows(w: Window, ts: seq<int>, a: int, b: int)
    requires Clock(ts) && b <= w.start + 2 * RATE_LIMIT_INTERVAL
    ensures AcceptedBetween(w, ts, a, b) <= Left(w) + MAX_MESSAGES_PER_INTERVAL
    decreases |ts|
  {
    if ts != [] {
      var w1 := Handle(w, ts[0]);
      if ts[0] > b {
        NoneAfter(w, ts, a, b);
      } else if ts[0] - w.start > RATE_LIMIT_INTERVAL {
        WithinWindow(w1, ts[1..], a, b);
      } else {
        WithinTwoWindows(w1, ts[1..], a, b);
      }
    }
  }

  /** Whatever the arrivals, a closed interval as long as the rate limit's sees at most twice the
      messages of one window let through. */
  lemma {:induction false} IntervalBound(w: Window, ts: seq<int>, a: int)
    requires Clock(ts)
    ensures AcceptedBetween(w, ts, a, a + RATE_LIMIT_INTERVAL) <= 2 * MAX_MESSAGES_PER_INTERVAL
    decreases |ts|
  {
    var b := a + RATE_LIMIT_INTERVAL;
    if ts != [] {
      var w1 := Handle(w, ts[0]);
      if ts[0] < a {
        IntervalBound(w1, ts[1..], a);
      } else if ts[0] > b {
        NoneAfter(w, ts, a, b);
      } else if ts[0] - w.start > RATE_LIMIT_INTERVAL {
        WithinWindow(w1, ts[1..], a, b);
      } else {
        WithinTwoWindows(w, ts, a, b);
      }
    }
  }

  /** How many messages the window that began at `start` counted. */
  function ArrivedIn(w: Window, ts: seq<int>, start: int): nat
    decreases |ts|
  {
    if ts == [] then 0
    else
      var w1 := Handle(w, ts[0]);
      (if w1.start == start then 1 else 0) + ArrivedIn(w1, ts[1..], start)
  }

  function Min(a: nat, b: nat): nat {
    if a < b then a else b
  }

  /** Every counting window lets through its first messages up to the maximum, and no more. */
  lemma {:induction false} WindowBound(w: Window, ts: seq<int>, start: int)
    requires Clock(ts) && (ts != [] ==> w.start <= ts[0])
    ensures AcceptedIn(w, ts, start) ==
              Min(ArrivedIn(w, ts, start), if w.start == start then Left(w) else MAX_MESSAGES_PER_INTERVAL)
    ensures w.start > start ==> ArrivedIn(w, ts, start) == 0
    decreases |ts|
  {
    if ts != [] {
      WindowBound(Handle(w, ts[0]), ts[1..], start);
    }
  }

  // ---------------------------------------------------------------- nothing is dropped too early

  function After(w: Window, ts: seq<int>): Window {
    if ts == [] then w else Handle(After(w, ts[..|ts| - 1]), ts[|ts| - 1])
  }

  lemma {:induction false} AcceptedAppend(w: Window, ts: seq<int>, now: int, a: int, b: int)
    ensures AcceptedBetween(w, ts + [now], a, b) ==
            AcceptedBetween(w, ts, a, b) + if Accepted(Handle(After(w, ts), now)) && a <= now <= b then 1 else 0
    decreases |ts|
  {
    var all := ts + [now];
    if ts == [] {
      assert all[1..] == [];
    } else {
      assert all[0] == ts[0] && all[1..] == ts[1..] + [now];
      AcceptedAppend(Handle(w, ts[0]), ts[1..], now, a, b);
      AfterFront(w, ts);
    }
  }

  lemma {:induction false} AfterFront(w: Window, ts: seq<int>)
    requires ts != []
    ensures After(w, ts) == After(Handle(w, ts[0]), ts[1..])
    decreases |ts|
  {
    if |ts| > 1 {
      var front := ts[..|ts| - 1];
      AfterFront(w, front);
      assert front[1..] == ts[1..][..|ts| - 2];
    }
  }

  lemma ClockFront(ts: seq<int>)
    requires Clock(ts) && ts != []
    ensures Clock(ts[..|ts| - 1]) && (|ts| > 1 ==> ts[|ts| - 2] <= ts[|ts| - 1])
  {
    var front := ts[..|ts| - 1];
    assert forall i | 0 <= i < |front| :: front[i] == ts[i];
  }

  /** A window's count is made of messages that were let through since it began. */
  lemma {:induction false} CountWasAccepted(w: Window, ts: seq<int>, b: int)
    requires w.count == 0 && Clock(ts) && (ts != [] ==> w.start <= ts[0] && ts[|ts| - 1] <= b)
    ensures var w1 := After(w, ts);
            && (ts != [] ==> w1.start <= ts[|ts| - 1])
            && AcceptedBetween(w, ts, w1.start, b) >= Min(w1.count, MAX_MESSAGES_PER_INTERVAL)
    decreases |ts|
  {
    if ts != [] {
      ClockFront(ts);
      hide AcceptedBetween; hide Clock;
      var front, now := ts[..|ts| - 1], ts[|ts| - 1];
      assert ts == front + [now];
      if front != [] { assert front[0] == ts[0] && front[|front| - 1] == ts[|ts| - 2]; }
      CountWasAccepted(w, front, b);
      AcceptedAppend(w, front, now, After(w, ts).start, b);
      assert After(w, ts) == Handle(After(w, front), now);
    }
  }

  /** A message is dropped only if, within the interval before it, as many messages were let through
      as a window allows. */
  lemma DroppedOnlyAfterTheMaximum(w: Window, ts: seq<int>, now: int)
    requires w.count == 0 && Clock(ts + [now]) && (ts != [] ==> w.start <= ts[0]) && w.start <= now
    requires !Accepted(Handle(After(w, ts), now))
    ensures AcceptedBetween(w, ts, now - RATE_LIMIT_INTERVAL, now) >= MAX_MESSAGES_PER_INTERVAL
  {
    var all := ts + [now];
    assert forall i | 0 <= i < |ts| :: all[i] == ts[i];
    assert all[|ts|] == now;
    assert Clock(ts);
    CountWasAccepted(w, ts, now);
    WiderIsMore(w, ts, After(w, ts).start, now - RATE_LIMIT_INTERVAL, now);
  }

  lemma {:induction false} WiderIsMore(w: Window, ts: seq<int>, a: int, a': int, b: int)
    requires a' <= a
    ensures AcceptedBetween(w, ts, a', b) >= AcceptedBetween(w, ts, a, b)
    decreases |ts|
  {
    if ts != [] {
      WiderIsMore(Handle(w, ts[0]), ts[1..], a, a', b);
    }
  }

  // ---------------------------------------------------------------- the bound is reached

  function Burst(now: int, n: nat): seq<int> {
    seq(n, _ => now)
  }

  lemma {:induction false} BurstAccepted(w: Window, now: int, n: nat, ts: seq<int>, a: int, b: int)
    requires now - w.start <= RATE_LIMIT_INTERVAL && w.count + n <= MAX_MESSAGES_PER_INTERVAL && a <= now <= b
    ensures AcceptedBetween(w, Burst(now, n) + ts, a, b) == n + AcceptedBetween(Window(w.count + n, w.start), ts, a, b)
    decreases n
  {
    var all := Burst(now, n) + ts;
    if n == 0 {
      assert all == ts;
    } else {
      assert all[0] == now && all[1..] == Burst(now, n - 1) + ts;
      BurstAccepted(Handle(w, now), now, n - 1, ts, a, b);
    }
  }

  /** The bound is reached: a full window at its very end, and a full one just after. */
  lemma IntervalBoundIsReached(start: int)
    ensures var late := start + 1_000_000_000;
            var ts := Burst(late, 10) + Burst(late + 1, 10);
            && Clock(ts)
            && AcceptedBetween(Window(0, start), ts, start + 1, start + 1_000_000_001) == 20
  {
    hide AcceptedBetween;
    var late := start + RATE_LIMIT_INTERVAL;
    var a, b := start + 1, start + 1 + RATE_LIMIT_INTERVAL;
    var next := Burst(late + 1, 10);
    BurstAccepted(Window(0, start), late, 10, next, a, b);
    NextBurst(start, a, b);
  }

  lemma NextBurst(start: int, a: int, b: int)
    requires a <= start + RATE_LIMIT_INTERVAL + 1 <= b
    ensures AcceptedBetween(Window(10, start), Burst(start + RATE_LIMIT_INTERVAL + 1, 10), a, b) == 10
  {
    var t := start + RATE_LIMIT_INTERVAL + 1;
    var all := Burst(t, 10);
    assert all[0] == t && all[1..] == Burst(t, 9) + [];
    BurstAccepted(Window(1, t), t, 9, [], a, b);
  }

  class ClientSession {
    var messageCount: nat
    var intervalStart: int

    ghost function State(): Window
      reads this
    {
      Window(messageCount, intervalStart)
    }

    /** The head of the stream handler: false means that the message is dropped. */
    method Receive(now: int) returns (accepted: bool)
      modifies this
      ensures State() == Handle(old(State()), now) && accepted == Accepted(State())
    {
      if now - intervalStart > RATE_LIMIT_INTERVAL {
        messageCount := 0;
        intervalStart := now;
      }
      messageCount := messageCount + 1;
      accepted := messageCount <= MAX_MESSAGES_PER_INTERVAL;
    }
  }
}
