// The sliding-window restart limiter of the process host.
module RestartLimiter {

  datatype Policy = Policy(maxRestarts: nat, windowMs: nat, cooldownMs: nat)

  // How many admissions the trimming loop shifts out of the front.
  function Expired(times: seq<int>, windowStart: int): (n: nat)
    ensures n <= |times|
    ensures forall i :: 0 <= i < n ==> times[i] < windowStart
    ensures n < |times| ==> times[n] >= windowStart
  {
    if times != [] && times[0] < windowStart then 1 + Expired(times[1..], windowStart) else 0
  }

  function Trim(times: seq<int>, windowStart: int): seq<int> {
    times[Expired(times, windowStart)..]
  }

  predicate Admits(p: Policy, times: seq<int>, now: int) {
    |Trim(times, now - p.windowMs)| < p.maxRestarts
  }

  function AfterAdmission(p: Policy, times: seq<int>, now: int): seq<int> {
    var kept := Trim(times, now - p.windowMs);
    if Admits(p, times, now) then kept + [now] else kept
  }

  // A run of the limiter: the queue it keeps, every admission ever made, and how
  // many of them the queue has dropped.
  datatype Run = Run(queue: seq<int>, history: seq<int>, dropped: nat)

  const Fresh := Run([], [], 0)

  function Ask(p: Policy, r: Run, now: int): Run {
    Run(AfterAdmission(p, r.queue, now),
        if Admits(p, r.queue, now) then r.history + [now] else r.history,
        r.dropped + Expired(r.queue, now - p.windowMs))
  }

  function AskAll(p: Policy, r: Run, clock: seq<int>): Run
    decreases |clock|
  {
    if clock == [] then r else AskAll(p, Ask(p, r, clock[0]), clock[1..])
  }

  ghost predicate NonDecreasing(s: seq<int>) {
    forall i, j :: 0 <= i < j < |s| ==> s[i] <= s[j]
  }

  // The queue is a suffix of the history, and everything it dropped is older than
  // the window that ends at `now`.
  ghost predicate QueueOk(p: Policy, r: Run, now: int) {
    && r.dropped <= |r.history|
    && r.queue == r.history[r.dropped..]
    && |r.queue| <= p.maxRestarts
    && NonDecreasing(r.history)
    && (forall i :: 0 <= i < |r.history| ==> r.history[i] <= now)
    && (forall i :: 0 <= i < r.dropped ==> r.history[i] < now - p.windowMs)
  }

  // maxRestarts admissions later, more than a window has passed.
  ghost predicate Spaced(p: Policy, history: seq<int>) {
    forall i, j :: 0 <= i && j == i + p.maxRestarts && j < |history| ==> history[j] - history[i] > p.windowMs
  }

  // What trimming keeps is still a suffix of the history, and the rest is old.
  lemma TrimIsSuffix(p: Policy, r: Run, before: int, now: int, n: nat)
    requires QueueOk(p, r, before) && before <= now
    requires n == r.dropped + Expired(r.queue, now - p.windowMs)
    ensures n <= |r.history|
    ensures Trim(r.queue, now - p.windowMs) == r.history[n..]
    ensures forall i :: 0 <= i < n ==> r.history[i] < now - p.windowMs
    ensures n < |r.history| ==> now - p.windowMs <= r.history[n]
  {
    forall i | 0 <= i < n ensures r.history[i] < now - p.windowMs {
      if i >= r.dropped { assert r.history[i] == r.queue[i - r.dropped]; }
    }
  }

  lemma AdmissionKeepsSpacing(p: Policy, history: seq<int>, n: nat, now: int)
    requires n <= |history| && |history| - n < p.maxRestarts
    requires forall i :: 0 <= i < n ==> history[i] < now - p.windowMs
    requires Spaced(p, history)
    ensures Spaced(p, history + [now])
  {
  }

  // The queue after an admission, given what trimming left of the history.
  lemma AppendToSuffix(p: Policy, history: seq<int>, n: nat, now: int)
    requires n <= |history| && |history| - n < p.maxRestarts
    requires NonDecreasing(history)
    requires forall i :: 0 <= i < |history| ==> history[i] <= now
    requires forall i :: 0 <= i < n ==> history[i] < now - p.windowMs
    ensures QueueOk(p, Run(history[n..] + [now], history + [now], n), now)
  {
    assert (history + [now])[n..] == history[n..] + [now];
  }

  lemma SuffixAlone(p: Policy, history: seq<int>, n: nat, now: int)
    requires n <= |history| && |history| - n <= p.maxRestarts
    requires NonDecreasing(history)
    requires forall i :: 0 <= i < |history| ==> history[i] <= now
    requires forall i :: 0 <= i < n ==> history[i] < now - p.windowMs
    ensures QueueOk(p, Run(history[n..], history, n), now)
  {
  }

  lemma HistoryBefore(p: Policy, r: Run, before: int, now: int)
    requires QueueOk(p, r, before) && before <= now
    ensures NonDecreasing(r.history)
    ensures forall i :: 0 <= i < |r.history| ==> r.history[i] <= now
    ensures |r.history| - r.dropped <= p.maxRestarts
  {
  }

  lemma AdmittedKeeps(p: Policy, r: Run, n: nat, now: int)
    requires n <= |r.history| && n == r.dropped + Expired(r.queue, now - p.windowMs)
    requires Trim(r.queue, now - p.windowMs) == r.history[n..] && Admits(p, r.queue, now)
    requires QueueOk(p, Run(r.history[n..] + [now], r.history + [now], n), now) && Spaced(p, r.history + [now])
    ensures QueueOk(p, Ask(p, r, now), now) && Spaced(p, Ask(p, r, now).history)
  {
    assert Ask(p, r, now) == Run(r.history[n..] + [now], r.history + [now], n);
  }

  lemma RefusedKeeps(p: Policy, r: Run, n: nat, now: int)
    requires n <= |r.history| && n == r.dropped + Expired(r.queue, now - p.windowMs)
    requires Trim(r.queue, now - p.windowMs) == r.history[n..] && !Admits(p, r.queue, now)
    requires QueueOk(p, Run(r.history[n..], r.history, n), now) && Spaced(p, r.history)
    ensures QueueOk(p, Ask(p, r, now), now) && Spaced(p, Ask(p, r, now).history)
  {
    assert Ask(p, r, now) == Run(r.history[n..], r.history, n);
  }

  lemma AskKeeps(p: Policy, r: Run, before: int, now: int)
    requires QueueOk(p, r, before) && Spaced(p, r.history) && before <= now
    ensures QueueOk(p, Ask(p, r, now), now) && Spaced(p, Ask(p, r, now).history)
  {
    var n := r.dropped + Expired(r.queue, now - p.windowMs);
    TrimIsSuffix(p, r, before, now, n);
    HistoryBefore(p, r, before, now);
    if Admits(p, r.queue, now) {
      AdmissionKeepsSpacing(p, r.history, n, now);
      AppendToSuffix(p, r.history, n, now);
      AdmittedKeeps(p, r, n, now);
    } else {
      SuffixAlone(p, r.history, n, now);
      RefusedKeeps(p, r, n, now);
    }
  }

  lemma {:induction false} AskAllKeeps(p: Policy, r: Run, before: int, clock: seq<int>, last: int)
    requires QueueOk(p, r, before) && Spaced(p, r.history)
    requires NonDecreasing(clock)
    requires if clock == [] then last == before else before <= clock[0] && last == clock[|clock| - 1]
    ensures QueueOk(p, AskAll(p, r, clock), last)
    ensures Spaced(p, AskAll(p, r, clock).history)
    decreases |clock|
  {
    if clock != [] {
      AskKeeps(p, r, before, clock[0]);
      AskAllKeeps(p, Ask(p, r, clock[0]), clock[0], clock[1..], last);
    }
  }

  // How many admissions fall into the closed interval [from, to].
  function CountWithin(history: seq<int>, from: int, to: int): nat {
    if history == [] then 0
    else CountWithin(history[1..], from, to) + if from <= history[0] <= to then 1 else 0
  }

  lemma {:induction false} CountAtMost(history: seq<int>, from: int, to: int, n: nat)
    requires NonDecreasing(history)
    requires n < |history| ==> history[n] > to
    ensures CountWithin(history, from, to) <= n
  {
    if history != [] {
      CountAtMost(history[1..], from, to, if n == 0 then 0 else n - 1);
    }
  }

  lemma {:induction false} SpacedCount(p: Policy, history: seq<int>, from: int)
    requires Spaced(p, history) && NonDecreasing(history)
    ensures CountWithin(history, from, from + p.windowMs) <= p.maxRestarts
  {
    if history == [] {
    } else if history[0] < from {
      SpacedCount(p, history[1..], from);
    } else {
      CountAtMost(history, from, from + p.windowMs, p.maxRestarts);
    }
  }

  // Over every run with a clock that does not go back, no closed interval as long
  // as the window holds more admitted restarts than the policy allows, and the
  // trimmed queue is exactly the part of the history that can still matter.
  lemma WindowNeverExceeded(p: Policy, clock: seq<int>, from: int)
    requires NonDecreasing(clock)
    ensures var r := AskAll(p, Fresh, clock);
      && CountWithin(r.history, from, from + p.windowMs) <= p.maxRestarts
      && (clock != [] ==> QueueOk(p, r, clock[|clock| - 1]))
  {
    if clock != [] {
      AskAllKeeps(p, Fresh, clock[0], clock, clock[|clock| - 1]);
      SpacedCount(p, AskAll(p, Fresh, clock).history, from);
    }
  }

  lemma {:induction false} CountAll(history: seq<int>, from: int, to: int)
    requires forall i :: 0 <= i < |history| ==> from <= history[i] <= to
    ensures CountWithin(history, from, to) == |history|
  {
    if history != [] { CountAll(history[1..], from, to); }
  }

  lemma {:induction false} CountDropsOld(history: seq<int>, n: nat, from: int, to: int)
    requires n <= |history|
    requires forall i :: 0 <= i < n ==> history[i] < from
    ensures CountWithin(history, from, to) == CountWithin(history[n..], from, to)
  {
    if n > 0 {
      CountDropsOld(history[1..], n - 1, from, to);
      assert history[1..][n - 1..] == history[n..];
    }
  }

  // A restart is refused exactly when the window that ends now is already full.
  lemma RefusedExactlyWhenFull(p: Policy, r: Run, before: int, now: int)
    requires QueueOk(p, r, before) && before <= now
    ensures Admits(p, r.queue, now) <==> CountWithin(r.history, now - p.windowMs, now) < p.maxRestarts
  {
    var n := r.dropped + Expired(r.queue, now - p.windowMs);
    TrimIsSuffix(p, r, before, now, n);
    HistoryBefore(p, r, before, now);
    CountWindow(p, r.history, n, now);
  }

  lemma CountWindow(p: Policy, history: seq<int>, n: nat, now: int)
    requires n <= |history| && NonDecreasing(history)
    requires forall i :: 0 <= i < |history| ==> history[i] <= now
    requires forall i :: 0 <= i < n ==> history[i] < now - p.windowMs
    requires n < |history| ==> now - p.windowMs <= history[n]
    ensures CountWithin(history, now - p.windowMs, now) == |history| - n
  {
    CountDropsOld(history, n, now - p.windowMs, now);
    forall i | 0 <= i < |history[n..]| ensures now - p.windowMs <= history[n..][i] <= now {
      assert history[n] <= history[n + i];
    }
    CountAll(history[n..], now - p.windowMs, now);
  }
}
