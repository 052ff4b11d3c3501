/** One rolling-window request log: the prune and the wait test of futur3/data/sources/backoff_queue.py,
  * with every clock reading explicit. */
module RollingLog {
  /** Entries older than the cutoff are dropped from the front. */
  function Pruned(log: seq<real>, cutoff: real): (r: seq<real>)
  {
    if |log| > 0 && log[0] < cutoff then Pruned(log[1..], cutoff) else log
  }

  /** Time still to wait at `now`; None when the log has room. */
  function Wait(log: seq<real>, limit: nat, window: real, now: real): (w: real)
    requires limit > 0
    ensures w >= 0.0
  {
    if |log| >= limit && log[0] + window > now then log[0] + window - now else 0.0
  }

  predicate Sorted(times: seq<real>) {
    forall i, j | 0 <= i < j < |times| :: times[i] <= times[j]
  }

  predicate NotBefore(log: seq<real>, cutoff: real) {
    forall i | 0 <= i < |log| :: cutoff <= log[i]
  }

  /** The log is the recent part of the history of grants: what was dropped is too old to matter. */
  ghost predicate Recent(log: seq<real>, history: seq<real>, window: real, now: real) {
    && Sorted(history) && (forall i | 0 <= i < |history| :: history[i] <= now)
    && |log| <= |history| && (forall i | 0 <= i < |log| :: log[i] == history[|history| - |log| + i])
    && forall i | 0 <= i < |history| - |log| :: history[i] < now - window
  }

  /** Any `limit + 1` consecutive grants span more than the window. */
  ghost predicate Spaced(history: seq<real>, limit: nat, window: real) {
    forall i | limit <= i < |history| :: SpacedAt(history, limit, window, i)
  }

  ghost predicate SpacedAt(history: seq<real>, limit: nat, window: real, i: nat)
    requires limit <= i < |history|
  {
    history[i - limit] + window < history[i]
  }

  /** No grant was recorded at the very instant the grant `limit` before it left the window. */
  ghost predicate NoTies(history: seq<real>, limit: nat, window: real) {
    forall i | limit <= i < |history| :: NoTieAt(history, limit, window, i)
  }

  ghost predicate NoTieAt(history: seq<real>, limit: nat, window: real, i: nat)
    requires limit <= i < |history|
  {
    history[i - limit] + window != history[i]
  }

  /** What holds of a log in every reachable state. */
  ghost predicate Good(log: seq<real>, history: seq<real>, limit: nat, window: real, now: real) {
    Recent(log, history, window, now) && (Spaced(history, limit, window) <==> NoTies(history, limit, window))
  }

  // ---------------------------------------------------------------------------------------------
  // Closed windows
  // ---------------------------------------------------------------------------------------------

  function CountIn(history: seq<real>, lo: real, hi: real): nat {
    if |history| == 0 then 0 else CountIn(history[..|history| - 1], lo, hi) + if lo <= history[|history| - 1] <= hi then 1 else 0
  }

  /** Grants in the closed window from `lo`. */
  function CountFrom(history: seq<real>, lo: real, window: real): nat {
    CountIn(history, lo, lo + window)
  }

  lemma {:induction false} CountAtMost(history: seq<real>, lo: real, hi: real, first: nat)
    requires first <= |history| && forall i | 0 <= i < first :: history[i] < lo
    ensures CountIn(history, lo, hi) <= |history| - first
  {
    if |history| > first {
      CountAtMost(history[..|history| - 1], lo, hi, first);
    } else if first > 0 {
      CountAtMost(history[..|history| - 1], lo, hi, first - 1);
    }
  }

  lemma {:induction false} CountAll(history: seq<real>, lo: real, hi: real, first: nat)
    requires first <= |history| && forall i | first <= i < |history| :: lo <= history[i] <= hi
    ensures CountIn(history, lo, hi) >= |history| - first
  {
    if |history| > first {
      CountAll(history[..|history| - 1], lo, hi, first);
    }
  }

  lemma {:induction false} CountOfPrefix(history: seq<real>, n: nat, lo: real, hi: real)
    requires n <= |history|
    ensures CountIn(history[..n], lo, hi) <= CountIn(history, lo, hi)
  {
    if n < |history| {
      var shorter := history[..|history| - 1];
      CountOfPrefix(shorter, n, lo, hi);
      assert shorter[..n] == history[..n];
    } else {
      assert history[..n] == history;
    }
  }

  lemma SpacedPrefix(history: seq<real>, limit: nat, window: real)
    requires |history| > 0 && Spaced(history, limit, window)
    ensures Spaced(history[..|history| - 1], limit, window)
  {
    var shorter := history[..|history| - 1];
    forall i | limit <= i < |shorter| ensures SpacedAt(shorter, limit, window, i) {
      assert SpacedAt(history, limit, window, i);
    }
  }

  lemma {:induction false} SpacedWindow(history: seq<real>, limit: nat, window: real, lo: real)
    requires limit > 0 && Sorted(history) && Spaced(history, limit, window)
    ensures CountIn(history, lo, lo + window) <= limit
  {
    var n := |history|;
    if n > limit {
      if history[n - 1] > lo + window {
        SpacedPrefix(history, limit, window);
        SpacedWindow(history[..n - 1], limit, window, lo);
      } else {
        assert SpacedAt(history, limit, window, n - 1);
        CountAtMost(history, lo, lo + window, n - limit);
      }
    } else {
      CountAtMost(history, lo, lo + window, 0);
    }
  }

  /** The spacing of grants is the documented limit: no closed window holds more than `limit` of them. */
  lemma SpacedIsWindowed(history: seq<real>, limit: nat, window: real)
    requires limit > 0 && Sorted(history)
    ensures Spaced(history, limit, window) <==> forall lo :: CountFrom(history, lo, window) <= limit
  {
    if Spaced(history, limit, window) {
      forall lo ensures CountFrom(history, lo, window) <= limit {
        SpacedWindow(history, limit, window, lo);
      }
    }
    forall i | limit <= i < |history| && !SpacedAt(history, limit, window, i)
      ensures CountFrom(history, history[i - limit], window) > limit
    {
      var lo := history[i - limit];
      CountAll(history[..i + 1], lo, lo + window, i - limit);
      CountOfPrefix(history, i + 1, lo, lo + window);
    }
  }

  // ---------------------------------------------------------------------------------------------
  // Steps
  // ---------------------------------------------------------------------------------------------

  /** Pruning at a later reading keeps the log faithful and leaves only the closed window before it. */
  lemma {:induction false} PruneKeeps(log: seq<real>, history: seq<real>, window: real, before: real, now: real)
    requires Recent(log, history, window, before) && before <= now
    ensures Recent(Pruned(log, now - window), history, window, now)
    ensures NotBefore(Pruned(log, now - window), now - window)
    decreases |log|
  {
    var first := |history| - |log|;
    if |log| > 0 && log[0] < now - window {
      assert log[1..] == history[first + 1..];
      forall i | 0 <= i < first + 1 ensures history[i] < now - window {
        assert history[first] == log[0];
      }
      PruneKeeps(log[1..], history, window, now, now);
    } else {
      forall i | 0 <= i < |log| ensures now - window <= log[i] {
        assert log[i] == history[first + i] && log[0] == history[first];
      }
    }
  }

  lemma PruneGood(log: seq<real>, history: seq<real>, limit: nat, window: real, before: real, now: real)
    requires Good(log, history, limit, window, before) && before <= now
    ensures Good(Pruned(log, now - window), history, limit, window, now) && NotBefore(Pruned(log, now - window), now - window)
  {
    PruneKeeps(log, history, window, before, now);
  }

  lemma Later(log: seq<real>, history: seq<real>, window: real, before: real, now: real)
    requires Recent(log, history, window, before) && before <= now
    ensures Recent(log, history, window, now)
  {
  }

  lemma RecordKeeps(log: seq<real>, history: seq<real>, window: real, now: real)
    requires Recent(log, history, window, now) && window > 0.0
    ensures Recent(log + [now], history + [now], window, now)
  {
    var first := |history| - |log|;
    assert (history + [now])[first..] == history[first..] + [now];
  }

  /** A freshly pruned log of a spaced history is never over-full. */
  lemma PrunedFits(log: seq<real>, history: seq<real>, limit: nat, window: real, pruneTime: real)
    requires limit > 0 && Recent(log, history, window, pruneTime) && Spaced(history, limit, window)
    requires NotBefore(log, pruneTime - window)
    ensures |log| <= limit
  {
    if |log| > limit {
      OverfullNotSpaced(log, history, limit, window, pruneTime);
    }
  }

  lemma OverfullNotSpaced(log: seq<real>, history: seq<real>, limit: nat, window: real, pruneTime: real)
    requires Recent(log, history, window, pruneTime) && NotBefore(log, pruneTime - window) && |log| > limit
    ensures !Spaced(history, limit, window)
  {
    var n := |history|;
    assert history[n - 1 - limit] == log[|log| - 1 - limit];
    assert !SpacedAt(history, limit, window, n - 1);
  }

  /** A grant passes the limit exactly when it is recorded as the oldest entry of a full log leaves
    * the window: the prune at `pruneTime`, the wait test at `checkTime`, the record at `recordTime`. */
  lemma GrantSpaced(log: seq<real>, history: seq<real>, limit: nat, window: real, pruneTime: real, checkTime: real, recordTime: real)
    requires limit > 0 && window > 0.0 && pruneTime <= checkTime <= recordTime
    requires Recent(log, history, window, pruneTime) && Spaced(history, limit, window)
    requires NotBefore(log, pruneTime - window)
    requires Wait(log, limit, window, checkTime) <= 0.0
    ensures |log| <= limit
    ensures |history| >= limit ==> history[|history| - limit] + window <= recordTime
    ensures Spaced(history + [recordTime], limit, window) <==> !(|log| == limit && recordTime == log[0] + window)
  {
    PrunedFits(log, history, limit, window, pruneTime);
    var n := |history|;
    var longer := history + [recordTime];
    if n >= limit {
      assert longer[n] == recordTime && longer[n - limit] == history[n - limit];
      if |log| == limit {
        assert history[n - limit] == log[0];
      } else {
        assert history[n - limit] < pruneTime - window;
      }
    }
    SpacedOneMore(history, recordTime, limit, window);
  }

  lemma SpacedOneMore(history: seq<real>, t: real, limit: nat, window: real)
    requires limit > 0
    ensures Spaced(history + [t], limit, window) <==>
            Spaced(history, limit, window) && (|history| >= limit ==> history[|history| - limit] + window < t)
  {
    var longer := history + [t];
    var n := |history|;
    forall i | limit <= i < n ensures SpacedAt(history, limit, window, i) <==> SpacedAt(longer, limit, window, i) {
    }
    if n >= limit {
      assert SpacedAt(longer, limit, window, n) <==> history[n - limit] + window < t;
    }
    if Spaced(longer, limit, window) {
      forall i | limit <= i < n ensures SpacedAt(history, limit, window, i) {
        assert SpacedAt(longer, limit, window, i);
      }
    }
  }

  lemma NoTiesOneMore(history: seq<real>, t: real, limit: nat, window: real)
    requires limit > 0
    ensures NoTies(history + [t], limit, window) <==>
            NoTies(history, limit, window) && (|history| >= limit ==> history[|history| - limit] + window != t)
  {
    var longer := history + [t];
    var n := |history|;
    forall i | limit <= i < n ensures NoTieAt(history, limit, window, i) <==> NoTieAt(longer, limit, window, i) {
    }
    if n >= limit {
      assert NoTieAt(longer, limit, window, n) <==> history[n - limit] + window != t;
    }
    if NoTies(longer, limit, window) {
      forall i | limit <= i < n ensures NoTieAt(history, limit, window, i) {
        assert NoTieAt(longer, limit, window, i);
      }
    }
  }

  /** Every grant the limiter makes keeps: spaced exactly when no grant tied. */
  lemma GrantGood(log: seq<real>, history: seq<real>, limit: nat, window: real, pruneTime: real, checkTime: real, recordTime: real)
    requires limit > 0 && window > 0.0 && pruneTime <= checkTime <= recordTime
    requires Good(log, history, limit, window, pruneTime) && NotBefore(log, pruneTime - window)
    requires Wait(log, limit, window, checkTime) <= 0.0
    ensures Good(log + [recordTime], history + [recordTime], limit, window, recordTime)
  {
    Later(log, history, window, pruneTime, recordTime);
    RecordKeeps(log, history, window, recordTime);
    SpacedOneMore(history, recordTime, limit, window);
    NoTiesOneMore(history, recordTime, limit, window);
    if Spaced(history, limit, window) {
      GrantSpaced(log, history, limit, window, pruneTime, checkTime, recordTime);
    }
  }

  // ---------------------------------------------------------------------------------------------
  // No needless waiting, and what a tie does
  // ---------------------------------------------------------------------------------------------

  /** A request is held back only when granting it at once would pass the limit. */
  lemma WaitIsNeeded(log: seq<real>, history: seq<real>, limit: nat, window: real, pruneTime: real, checkTime: real)
    requires limit > 0 && window > 0.0 && pruneTime <= checkTime && Recent(log, history, window, pruneTime)
    requires Wait(log, limit, window, checkTime) > 0.0
    ensures !Spaced(history + [checkTime], limit, window)
  {
    var n := |history|;
    SpacedOneMore(history, checkTime, limit, window);
    assert log[0] == history[n - |log|] && log[|log| - limit] == history[n - limit];
  }

  /** After waiting as long as told, the next prune and check find room. */
  lemma OneWaitIsEnough(log: seq<real>, limit: nat, window: real, checkTime: real, later: real)
    requires 0 < limit && |log| <= limit && checkTime + Wait(log, limit, window, checkTime) <= later
    ensures Wait(Pruned(log, later - window), limit, window, later) == 0.0
  {
    PrunedShorter(log, later - window);
  }

  lemma {:induction false} PrunedShorter(log: seq<real>, cutoff: real)
    ensures Pruned(log, cutoff) == log || |Pruned(log, cutoff)| < |log|
  {
    if |log| > 0 && log[0] < cutoff {
      PrunedShorter(log[1..], cutoff);
    }
  }

  // ---------------------------------------------------------------------------------------------
  // Exactly when a request is held back
  // ---------------------------------------------------------------------------------------------

  /** Grants later than `cutoff`. */
  function CountAfter(history: seq<real>, cutoff: real): nat {
    if |history| == 0 then 0 else CountAfter(history[..|history| - 1], cutoff) + if history[|history| - 1] > cutoff then 1 else 0
  }

  lemma {:induction false} CountAfterAtLeast(history: seq<real>, cutoff: real, first: nat)
    requires first <= |history| && forall i | first <= i < |history| :: history[i] > cutoff
    ensures CountAfter(history, cutoff) >= |history| - first
  {
    if |history| > first {
      CountAfterAtLeast(history[..|history| - 1], cutoff, first);
    }
  }

  lemma {:induction false} CountAfterAtMost(history: seq<real>, cutoff: real, first: nat)
    requires first <= |history| && forall i | 0 <= i < first :: history[i] <= cutoff
    ensures CountAfter(history, cutoff) <= |history| - first
  {
    if |history| > first {
      CountAfterAtMost(history[..|history| - 1], cutoff, first);
    } else if first > 0 {
      CountAfterAtMost(history[..|history| - 1], cutoff, first - 1);
    }
  }

  /** A log holds a request back only when the limit of grants lies inside the window. */
  lemma WaitMeansFull(log: seq<real>, history: seq<real>, limit: nat, window: real, pruneTime: real, checkTime: real)
    requires limit > 0 && Recent(log, history, window, pruneTime) && Wait(log, limit, window, checkTime) > 0.0
    ensures CountAfter(history, checkTime - window) >= limit
  {
    var first := |history| - |log|;
    assert history[first] == log[0];
    CountAfterAtLeast(history, checkTime - window, first);
  }

  /** And, while the limit holds, whenever it does. */
  lemma FullMeansWait(log: seq<real>, history: seq<real>, limit: nat, window: real, pruneTime: real, checkTime: real)
    requires limit > 0 && pruneTime <= checkTime && Recent(log, history, window, pruneTime) && NotBefore(log, pruneTime - window)
    requires Spaced(history, limit, window) && CountAfter(history, checkTime - window) >= limit
    ensures Wait(log, limit, window, checkTime) > 0.0
  {
    var first := |history| - |log|;
    PrunedFits(log, history, limit, window, pruneTime);
    CountAfterAtMost(history, checkTime - window, first);
    if log[0] <= checkTime - window {
      assert history[first] == log[0];
      CountAfterAtMost(history, checkTime - window, first + 1);
    }
  }

  /** The clock readings of one attempt, in order. */
  datatype Reading = Reading(prune: real, check: real, record: real)

  datatype Book = Book(log: seq<real>, history: seq<real>)

  function Attempt(b: Book, limit: nat, window: real, r: Reading): Book
    requires limit > 0
  {
    var log := Pruned(b.log, r.prune - window);
    if Wait(log, limit, window, r.check) <= 0.0 then Book(log + [r.record], b.history + [r.record]) else Book(log, b.history)
  }

  function Run(readings: seq<Reading>, limit: nat, window: real): Book
    requires limit > 0
  {
    if |readings| == 0 then Book([], [])
    else
      var n := |readings| - 1;
      Attempt(Run(readings[..n], limit, window), limit, window, readings[n])
  }

  predicate InOrder(readings: seq<Reading>) {
    && (forall i | 0 <= i < |readings| :: readings[i].prune <= readings[i].check <= readings[i].record)
    && forall i, j | 0 <= i < j < |readings| :: readings[i].record <= readings[j].prune
  }

  lemma AttemptGood(b: Book, limit: nat, window: real, before: real, r: Reading)
    requires limit > 0 && window > 0.0 && before <= r.prune <= r.check <= r.record
    requires Good(b.log, b.history, limit, window, before)
    ensures var c := Attempt(b, limit, window, r); Good(c.log, c.history, limit, window, r.record)
  {
    PruneGood(b.log, b.history, limit, window, before, r.prune);
    var log := Pruned(b.log, r.prune - window);
    if Wait(log, limit, window, r.check) <= 0.0 {
      GrantGood(log, b.history, limit, window, r.prune, r.check, r.record);
    } else {
      Later(log, b.history, window, r.prune, r.record);
    }
  }

  /** Over any run of attempts on a non-decreasing clock, the limit holds in every closed window exactly
    * when no grant ties. */
  lemma {:induction false} RunGood(readings: seq<Reading>, limit: nat, window: real)
    requires limit > 0 && window > 0.0 && InOrder(readings)
    ensures var b := Run(readings, limit, window);
            |readings| > 0 ==> Good(b.log, b.history, limit, window, readings[|readings| - 1].record)
  {
    var n := |readings| - 1;
    if n == 0 {
      AttemptGood(Book([], []), limit, window, readings[0].prune, readings[0]);
    } else if n > 0 {
      RunGood(readings[..n], limit, window);
      AttemptGood(Run(readings[..n], limit, window), limit, window, readings[n - 1].record, readings[n]);
    }
  }

  /** A clock that stands still between jumps: the log filled at time zero, then attempts as it leaves the window. */
  function TieReadings(limit: nat, window: real, n: nat): seq<Reading> {
    if n == 0 then seq(limit, i => Reading(0.0, 0.0, 0.0)) else TieReadings(limit, window, n - 1) + [Reading(window, window, window)]
  }

  function Times(n: nat, t: real): seq<real> {
    seq(n, i => t)
  }

  lemma {:induction false} FillAtZero(limit: nat, window: real, n: nat)
    requires 0 < limit && n <= limit && window > 0.0
    ensures Run(seq(n, i => Reading(0.0, 0.0, 0.0)), limit, window) == Book(Times(n, 0.0), Times(n, 0.0))
  {
    if n > 0 {
      FillAtZero(limit, window, n - 1);
      var readings := seq(n, i => Reading(0.0, 0.0, 0.0));
      assert readings[..n - 1] == seq(n - 1, i => Reading(0.0, 0.0, 0.0));
      assert Times(n - 1, 0.0) + [0.0] == Times(n, 0.0);
    }
  }

  /** At an exact tie nothing is pruned and nothing waits: any number of further grants go through, all
    * within one closed window. */
  lemma {:induction false} TieBurst(limit: nat, window: real, n: nat)
    requires limit > 0 && window > 0.0
    ensures InOrder(TieReadings(limit, window, n))
    ensures Run(TieReadings(limit, window, n), limit, window).history == Times(limit, 0.0) + Times(n, window)
    ensures CountFrom(Run(TieReadings(limit, window, n), limit, window).history, 0.0, window) == limit + n
  {
    TieInOrder(limit, window, n);
    TieRun(limit, window, n);
    var history := Times(limit, 0.0) + Times(n, window);
    CountAll(history, 0.0, window, 0);
    CountAtMost(history, 0.0, window, 0);
  }

  lemma {:induction false} TieInOrder(limit: nat, window: real, n: nat)
    requires limit > 0 && window > 0.0
    ensures InOrder(TieReadings(limit, window, n))
    ensures forall i | 0 <= i < |TieReadings(limit, window, n)| :: TieReadings(limit, window, n)[i].record <= window
  {
    if n > 0 {
      TieInOrder(limit, window, n - 1);
    }
  }

  lemma RunOneMore(readings: seq<Reading>, r: Reading, limit: nat, window: real)
    requires limit > 0
    ensures Run(readings + [r], limit, window) == Attempt(Run(readings, limit, window), limit, window, r)
  {
    assert (readings + [r])[..|readings|] == readings;
  }

  lemma TieAttempt(times: seq<real>, limit: nat, window: real)
    requires limit > 0 && window > 0.0 && |times| >= limit && times[0] == 0.0
    ensures Attempt(Book(times, times), limit, window, Reading(window, window, window)) == Book(times + [window], times + [window])
  {
  }

  lemma {:induction false} TieRun(limit: nat, window: real, n: nat)
    requires limit > 0 && window > 0.0
    ensures var times := Times(limit, 0.0) + Times(n, window); Run(TieReadings(limit, window, n), limit, window) == Book(times, times)
  {
    if n == 0 {
      FillAtZero(limit, window, limit);
      assert Times(limit, 0.0) + Times(0, window) == Times(limit, 0.0);
    } else {
      TieRun(limit, window, n - 1);
      var early, tie := TieReadings(limit, window, n - 1), Reading(window, window, window);
      var start, ties := Times(limit, 0.0), Times(n - 1, window);
      RunOneMore(early, tie, limit, window);
      TieAttempt(start + ties, limit, window);
      assert start + ties + [window] == start + (ties + [window]);
    }
  }
}
