/** The three-constraint request gate: `BackoffQueue` of futur3/data/sources/backoff_queue.py. The clock
  * is any non-decreasing sequence of readings, one for each time the code reads it; sleeping is whatever
  * the clock does between two readings. */
module Backoff {
  import opened Wrappers
  import opened RollingLog

  datatype Config = Config(
    globalLimit: nat, globalWindow: real, keyLimit: nat, keyWindow: real, concurrentLimit: nat, timeout: real)
  {
    predicate Valid() {
      globalLimit > 0 && keyLimit > 0 && concurrentLimit > 0 && globalWindow > 0.0 && keyWindow > 0.0 && timeout > 0.0
    }
  }

  const REPOLL := 0.05

  datatype Outcome = EmptyKey | Granted | TimedOut | Waiting

  ghost predicate NonDecreasing(clock: nat -> real) {
    forall i: nat, j: nat :: i <= j ==> clock(i) <= clock(j)
  }

  function At(m: map<string, seq<real>>, key: string): seq<real> {
    if key in m then m[key] else []
  }

  ghost predicate KeysGood(logs: map<string, seq<real>>, grants: map<string, seq<real>>, limit: nat, window: real, now: real) {
    forall key {:trigger Good(At(logs, key), At(grants, key), limit, window, now)} :: Good(At(logs, key), At(grants, key), limit, window, now)
  }

  lemma GoodLater(log: seq<real>, history: seq<real>, limit: nat, window: real, before: real, now: real)
    requires Good(log, history, limit, window, before) && before <= now
    ensures Good(log, history, limit, window, now)
  {
    Later(log, history, window, before, now);
  }

  lemma KeysLater(logs: map<string, seq<real>>, grants: map<string, seq<real>>, limit: nat, window: real, before: real, now: real)
    requires KeysGood(logs, grants, limit, window, before) && before <= now
    ensures KeysGood(logs, grants, limit, window, now)
  {
    forall key ensures Good(At(logs, key), At(grants, key), limit, window, now) {
      GoodLater(At(logs, key), At(grants, key), limit, window, before, now);
    }
  }

  /** One key's log changes; the others are as good later as they were. */
  lemma KeysUpdate(logs: map<string, seq<real>>, grants: map<string, seq<real>>, limit: nat, window: real, before: real, now: real,
                   key: string, log: seq<real>, history: seq<real>)
    requires KeysGood(logs, grants, limit, window, before) && before <= now && Good(log, history, limit, window, now)
    ensures KeysGood(logs[key := log], grants[key := history], limit, window, now)
  {
    KeysLater(logs, grants, limit, window, before, now);
    var newLogs, newGrants := logs[key := log], grants[key := history];
    forall k ensures Good(At(newLogs, k), At(newGrants, k), limit, window, now) {
      assert k != key ==> At(newLogs, k) == At(logs, k) && At(newGrants, k) == At(grants, k);
    }
  }

  /** Pruning one key's log leaves every key's log good. */
  lemma KeyPruned(logs: map<string, seq<real>>, grants: map<string, seq<real>>, limit: nat, window: real, now: real, later: real,
                  key: string, log: seq<real>)
    requires KeysGood(logs, grants, limit, window, now) && now <= later && log == Pruned(At(logs, key), now - window)
    ensures KeysGood(logs[key := log], grants, limit, window, later)
    ensures Good(log, At(grants, key), limit, window, now) && NotBefore(log, now - window)
  {
    var newLogs := logs[key := log];
    PruneGood(At(logs, key), At(grants, key), limit, window, now, now);
    forall k ensures Good(At(newLogs, k), At(grants, k), limit, window, later) {
      assert k != key ==> At(newLogs, k) == At(logs, k);
      GoodLater(At(newLogs, k), At(grants, k), limit, window, now, later);
    }
  }

  /** Entries leave the front of the log until one is recent enough. */
  method DropOld(log: seq<real>, cutoff: real) returns (kept: seq<real>)
    ensures kept == Pruned(log, cutoff)
  {
    kept := log;
    while |kept| > 0 && kept[0] < cutoff
      invariant Pruned(kept, cutoff) == Pruned(log, cutoff)
    {
      kept := kept[1..];
    }
  }

  method DropOldOf(logs: map<string, seq<real>>, ghost grants: map<string, seq<real>>, ghost limit: nat, window: real,
                   now: real, ghost later: real, key: string) returns (newLogs: map<string, seq<real>>)
    requires KeysGood(logs, grants, limit, window, now) && now <= later
    ensures KeysGood(newLogs, grants, limit, window, later)
    ensures newLogs == logs[key := Pruned(At(logs, key), now - window)]
    ensures Good(At(newLogs, key), At(grants, key), limit, window, now) && NotBefore(At(newLogs, key), now - window)
  {
    var log := DropOld(At(logs, key), now - window);
    KeyPruned(logs, grants, limit, window, now, later, key, log);
    newLogs := logs[key := log];
  }

  lemma LogWaits(log: seq<real>, history: seq<real>, limit: nat, window: real, prune: real, check: real)
    requires limit > 0 && prune <= check && Good(log, history, limit, window, prune) && NotBefore(log, prune - window)
    ensures Wait(log, limit, window, check) > 0.0 ==> CountAfter(history, check - window) >= limit
    ensures NoTies(history, limit, window) && CountAfter(history, check - window) >= limit ==> Wait(log, limit, window, check) > 0.0
  {
    if Wait(log, limit, window, check) > 0.0 {
      WaitMeansFull(log, history, limit, window, prune, check);
    } else if NoTies(history, limit, window) && CountAfter(history, check - window) >= limit {
      FullMeansWait(log, history, limit, window, prune, check);
    }
  }

  class BackoffQueue {
    const config: Config
    const clock: nat -> real
    var ticks: nat
    var globalLog: seq<real>
    var keyLogs: map<string, seq<real>>
    var inFlight: nat
    ghost var grants: seq<real>
    ghost var keyGrants: map<string, seq<real>>
    ghost var released: nat

    ghost predicate LogsGood(now: real)
      reads this
    {
      && Good(globalLog, grants, config.globalLimit, config.globalWindow, now)
      && KeysGood(keyLogs, keyGrants, config.keyLimit, config.keyWindow, now)
    }

    /** Holds before and after every call. */
    ghost predicate Valid()
      reads this
    {
      && config.Valid() && NonDecreasing(clock) && LogsGood(clock(ticks))
      && inFlight <= config.concurrentLimit && inFlight + released == |grants|
    }

    constructor (config: Config, clock: nat -> real)
      requires config.Valid() && NonDecreasing(clock)
      ensures Valid() && grants == [] && keyGrants == map[] && inFlight == 0 && released == 0
      ensures this.config == config && this.clock == clock
    {
      this.config, this.clock, ticks := config, clock, 0;
      globalLog, keyLogs, inFlight := [], map[], 0;
      grants, keyGrants, released := [], map[], 0;
    }

    method Read() returns (now: real)
      requires Valid()
      modifies this`ticks
      ensures Valid() && now == clock(old(ticks)) && ticks == old(ticks) + 1 && now <= clock(ticks)
    {
      now := clock(ticks);
      GoodLater(globalLog, grants, config.globalLimit, config.globalWindow, now, clock(ticks + 1));
      KeysLater(keyLogs, keyGrants, config.keyLimit, config.keyWindow, now, clock(ticks + 1));
      ticks := ticks + 1;
    }

    method PruneGlobal() returns (now: real)
      requires Valid()
      modifies this`ticks, this`globalLog
      ensures Valid() && now == clock(old(ticks)) && ticks == old(ticks) + 1
      ensures globalLog == Pruned(old(globalLog), now - config.globalWindow)
      ensures NotBefore(globalLog, now - config.globalWindow)
      ensures Good(globalLog, grants, config.globalLimit, config.globalWindow, now)
    {
      now := clock(ticks);
      var log := DropOld(globalLog, now - config.globalWindow);
      PruneGood(globalLog, grants, config.globalLimit, config.globalWindow, now, now);
      GoodLater(log, grants, config.globalLimit, config.globalWindow, now, clock(ticks + 1));
      KeysLater(keyLogs, keyGrants, config.keyLimit, config.keyWindow, now, clock(ticks + 1));
      ticks, globalLog := ticks + 1, log;
    }

    method PruneKey(key: string) returns (now: real)
      requires Valid()
      modifies this`ticks, this`keyLogs
      ensures Valid() && now == clock(old(ticks)) && ticks == old(ticks) + 1
      ensures keyLogs == old(keyLogs)[key := Pruned(At(old(keyLogs), key), now - config.keyWindow)]
      ensures NotBefore(At(keyLogs, key), now - config.keyWindow)
      ensures Good(At(keyLogs, key), At(keyGrants, key), config.keyLimit, config.keyWindow, now)
    {
      now := Read();
      keyLogs := DropOldOf(keyLogs, keyGrants, config.keyLimit, config.keyWindow, now, clock(ticks), key);
    }

    /** Seconds until the rolling limits clear, or the re-poll interval when too many are in flight. */
    function RequiredSleep(key: string, now: real): (w: real)
      reads this
      requires config.Valid()
      ensures w <= 0.0 <==>
                && Wait(globalLog, config.globalLimit, config.globalWindow, now) <= 0.0
                && Wait(At(keyLogs, key), config.keyLimit, config.keyWindow, now) <= 0.0
                && inFlight < config.concurrentLimit
      ensures w >= Wait(globalLog, config.globalLimit, config.globalWindow, now) && w >= Wait(At(keyLogs, key), config.keyLimit, config.keyWindow, now)
      ensures inFlight >= config.concurrentLimit ==> w >= 0.05
      ensures || w == Wait(globalLog, config.globalLimit, config.globalWindow, now)
              || w == Wait(At(keyLogs, key), config.keyLimit, config.keyWindow, now)
              || (inFlight >= config.concurrentLimit && w == 0.05)
    {
      Max(Max(Wait(globalLog, config.globalLimit, config.globalWindow, now),
                      Wait(At(keyLogs, key), config.keyLimit, config.keyWindow, now)),
              if inFlight >= config.concurrentLimit then REPOLL else 0.0)
    }

    /** At `check` the global or the key's limit of grants lies inside its window, or all slots are in flight. */
    ghost predicate Full(key: string, check: real)
      reads this
    {
      || CountAfter(grants, check - config.globalWindow) >= config.globalLimit
      || CountAfter(At(keyGrants, key), check - config.keyWindow) >= config.keyLimit
      || inFlight == config.concurrentLimit
    }

    ghost predicate Untied(key: string)
      reads this
    {
      && NoTies(grants, config.globalLimit, config.globalWindow)
      && NoTies(At(keyGrants, key), config.keyLimit, config.keyWindow)
    }

    /** With both logs pruned, something is to be waited for only when full, and, without ties, whenever full. */
    lemma SleepsWhenFull(key: string, pruneGlobal: real, pruneKey: real, check: real)
      requires Valid() && pruneGlobal <= check && pruneKey <= check
      requires Good(globalLog, grants, config.globalLimit, config.globalWindow, pruneGlobal)
      requires NotBefore(globalLog, pruneGlobal - config.globalWindow)
      requires Good(At(keyLogs, key), At(keyGrants, key), config.keyLimit, config.keyWindow, pruneKey)
      requires NotBefore(At(keyLogs, key), pruneKey - config.keyWindow)
      ensures RequiredSleep(key, check) > 0.0 ==> Full(key, check)
      ensures Untied(key) && Full(key, check) ==> RequiredSleep(key, check) > 0.0
    {
      LogWaits(globalLog, grants, config.globalLimit, config.globalWindow, pruneGlobal, check);
      LogWaits(At(keyLogs, key), At(keyGrants, key), config.keyLimit, config.keyWindow, pruneKey, check);
    }

    /** Log the grant and count it in flight: allowed once the waits at `check` are over. */
    method Record(key: string, ghost pruneGlobal: real, ghost pruneKey: real, ghost check: real)
      requires Valid() && pruneGlobal <= check && pruneKey <= check <= clock(ticks)
      requires Good(globalLog, grants, config.globalLimit, config.globalWindow, pruneGlobal)
      requires NotBefore(globalLog, pruneGlobal - config.globalWindow)
      requires Good(At(keyLogs, key), At(keyGrants, key), config.keyLimit, config.keyWindow, pruneKey)
      requires NotBefore(At(keyLogs, key), pruneKey - config.keyWindow)
      requires RequiredSleep(key, check) <= 0.0
      modifies this
      ensures Valid() && inFlight == old(inFlight) + 1 && released == old(released)
      ensures grants == old(grants) + [clock(old(ticks))]
      ensures keyGrants == old(keyGrants)[key := At(old(keyGrants), key) + [clock(old(ticks))]]
    {
      ghost var log, history := At(keyLogs, key), At(keyGrants, key);
      ghost var logs, kept := keyLogs, keyGrants;
      GrantGood(globalLog, grants, config.globalLimit, config.globalWindow, pruneGlobal, check, clock(ticks));
      GrantGood(log, history, config.keyLimit, config.keyWindow, pruneKey, check, clock(ticks));
      KeysUpdate(keyLogs, keyGrants, config.keyLimit, config.keyWindow, clock(ticks), clock(ticks), key, log + [clock(ticks)], history + [clock(ticks)]);
      var now := clock(ticks);
      globalLog := globalLog + [now];
      keyLogs := keyLogs[key := At(keyLogs, key) + [now]];
      grants := grants + [now];
      keyGrants := keyGrants[key := history + [now]];
      inFlight := inFlight + 1;
      var _ := Read();
    }

    /** One turn of the wait loop: prune both logs, then take the slot if nothing is to be waited for. */
    method TryOnce(key: string) returns (sleep: real, granted: bool, at: real)
      requires Valid()
      modifies this
      ensures Valid() && released == old(released)
      ensures !granted ==> grants == old(grants) && keyGrants == old(keyGrants) && inFlight == old(inFlight)
      ensures !granted ==> ticks == old(ticks) + 3 && sleep == RequiredSleep(key, clock(ticks - 1)) > 0.0
      ensures granted ==> inFlight == old(inFlight) + 1 && grants == old(grants) + [at]
      ensures granted ==> keyGrants == old(keyGrants)[key := At(old(keyGrants), key) + [at]]
      ensures !granted ==> old(Full(key, clock(ticks + 2)))
      ensures granted && old(Untied(key)) ==> !old(Full(key, clock(ticks + 2)))
    {
      ghost var pruneGlobal, pruneKey;
      var check;
      pruneGlobal, pruneKey, check := PruneBoth(key);
      SleepsWhenFull(key, pruneGlobal, pruneKey, check);
      sleep, at := RequiredSleep(key, check), clock(ticks);
      granted := sleep <= 0.0;
      if granted {
        Record(key, pruneGlobal, pruneKey, check);
      }
    }

    /** Drop what has left both windows, then read the clock for the decision. */
    method PruneBoth(key: string) returns (ghost pruneGlobal: real, ghost pruneKey: real, check: real)
      requires Valid()
      modifies this`ticks, this`globalLog, this`keyLogs
      ensures Valid() && ticks == old(ticks) + 3 && check == clock(ticks - 1)
      ensures pruneGlobal <= check && pruneKey <= check <= clock(ticks)
      ensures Good(globalLog, grants, config.globalLimit, config.globalWindow, pruneGlobal)
      ensures NotBefore(globalLog, pruneGlobal - config.globalWindow)
      ensures Good(At(keyLogs, key), At(keyGrants, key), config.keyLimit, config.keyWindow, pruneKey)
      ensures NotBefore(At(keyLogs, key), pruneKey - config.keyWindow)
    {
      pruneGlobal := PruneGlobal();
      pruneKey := PruneKey(key);
      check := Read();
    }

    /** Wait for a slot and take it. A call times out when, at its last look, the time still to wait would
      * end past its deadline. `rounds` bounds how often the wait loop turns; a call still waiting after
      * that many has changed nothing but dropped entries, and its deadline has not passed yet, so on a
      * clock that passes it enough turns always end the call. */
    method Acquire(key: string, rounds: nat) returns (r: Outcome, at: real)
      requires Valid()
      modifies this
      ensures Valid() && released == old(released)
      ensures r == EmptyKey <==> key == ""
      ensures r != Granted ==> grants == old(grants) && keyGrants == old(keyGrants) && inFlight == old(inFlight)
      ensures r == Granted ==> inFlight == old(inFlight) + 1 && grants == old(grants) + [at]
      ensures r == Granted ==> keyGrants == old(keyGrants)[key := At(old(keyGrants), key) + [at]]
      ensures r == Waiting && rounds > 0 ==> clock(old(ticks) + 4 * rounds) < clock(old(ticks)) + config.timeout
      ensures rounds > 0 && key != "" && !old(Full(key, clock(ticks + 3))) ==> r == Granted
      ensures r == TimedOut || (r == Waiting && rounds > 0) ==> ticks >= 2 && Full(key, clock(ticks - 2))
      ensures r == TimedOut ==> ticks >= old(ticks) + 5 && OutOfTime(key, clock(old(ticks)), clock(ticks - 2), clock(ticks - 1))
    {
      at := 0.0;
      if key == "" {
        return EmptyKey, at;
      }
      var start := Read();
      for i := 0 to rounds
        invariant Valid() && released == old(released) && ticks == old(ticks) + 1 + 4 * i && start == clock(old(ticks))
        invariant i > 0 ==> clock(old(ticks) + 4 * i) < start + config.timeout
        invariant i > 0 ==> old(Full(key, clock(ticks + 3))) && Full(key, clock(ticks - 2))
        invariant grants == old(grants) && keyGrants == old(keyGrants) && inFlight == old(inFlight)
      {
        r, at := Turn(key, start);
        if r != Waiting {
          return;
        }
      }
      r := Waiting;
    }

    /** One turn of the wait loop of a call begun at `start`. */
    method Turn(key: string, start: real) returns (r: Outcome, at: real)
      requires Valid()
      modifies this
      ensures Valid() && released == old(released) && r != EmptyKey
      ensures r != Granted ==> ticks == old(ticks) + 4 && grants == old(grants) && keyGrants == old(keyGrants) && inFlight == old(inFlight)
      ensures r == Granted ==> inFlight == old(inFlight) + 1 && grants == old(grants) + [at]
      ensures r == Granted ==> keyGrants == old(keyGrants)[key := At(old(keyGrants), key) + [at]]
      ensures r == Waiting ==> clock(ticks - 1) < start + config.timeout
      ensures r != Granted ==> old(Full(key, clock(ticks + 2)))
      ensures r == Granted && old(Untied(key)) ==> !old(Full(key, clock(ticks + 2)))
      ensures r == TimedOut ==> OutOfTime(key, start, clock(ticks - 2), clock(ticks - 1))
    {
      var sleep, granted, time := TryOnce(key);
      r, at := Granted, time;
      if !granted {
        var now := Read();
        r := if now + sleep > start + config.timeout then TimedOut else Waiting;
      }
    }

    /** Of a call begun at `start`: what was still to wait for at `check` would end past the deadline at `now`. */
    predicate OutOfTime(key: string, start: real, check: real, now: real)
      reads this
      requires config.Valid()
    {
      RequiredSleep(key, check) > 0.0 && now + RequiredSleep(key, check) > start + config.timeout
    }

    method Release()
      requires Valid()
      modifies this`inFlight, this`released
      ensures Valid()
      ensures if old(inFlight) > 0 then inFlight == old(inFlight) - 1 && released == old(released) + 1
              else inFlight == 0 && released == old(released)
    {
      if inFlight > 0 {
        inFlight, released := inFlight - 1, released + 1;
      }
    }
  }

  /** In every reachable state: at most the limit of grants in any closed window, globally exactly when no
    * global tie happened, and for each key exactly when none did for that key. */
  lemma LimitsHold(q: BackoffQueue, key: string)
    requires q.Valid()
    ensures NoTies(q.grants, q.config.globalLimit, q.config.globalWindow)
            <==> forall lo :: CountFrom(q.grants, lo, q.config.globalWindow) <= q.config.globalLimit
    ensures NoTies(At(q.keyGrants, key), q.config.keyLimit, q.config.keyWindow)
            <==> forall lo :: CountFrom(At(q.keyGrants, key), lo, q.config.keyWindow) <= q.config.keyLimit
  {
    SpacedIsWindowed(q.grants, q.config.globalLimit, q.config.globalWindow);
    assert Good(At(q.keyLogs, key), At(q.keyGrants, key), q.config.keyLimit, q.config.keyWindow, q.clock(q.ticks));
    SpacedIsWindowed(At(q.keyGrants, key), q.config.keyLimit, q.config.keyWindow);
  }
}
