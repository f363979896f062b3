/** internal/raidwatch/raidwatch.go, runSchedules, recordFailure and Start, and
    internal/raidwatch/schedule.go: starting scheduled scrubs once per occurrence. */
module RaidSchedule {
  import opened Wrappers

  // ---- Rules ----

  /** How a rule is evaluated: None for one that does not parse, else its first
      occurrence strictly after a time, if there is one. Times are Unix seconds. */
  type Evaluator = (string, int) -> Option<Option<int>>

  predicate Occurs(after: Evaluator, rule: string, t: int) {
    after(rule, t - 1) == Some(Some(t))
  }

  /** The evaluator enumerates a fixed set of occurrences for every rule. */
  ghost predicate Lawful(after: Evaluator) {
    forall rule, s :: LawfulAt(after, rule, s)
  }

  ghost predicate LawfulAt(after: Evaluator, rule: string, s: int) {
    match after(rule, s)
    case None => forall t :: after(rule, t) == None
    case Some(None) => forall t :: s < t ==> !Occurs(after, rule, t)
    case Some(Some(next)) => s < next && Occurs(after, rule, next) && forall t :: s < t < next ==> !Occurs(after, rule, t)
  }

  /** Whether an occurrence falls in (since, now]; None for a bad rule. */
  function DueSince(after: Evaluator, rule: string, since: int, now: int): Option<bool> {
    match after(rule, since)
    case None => None
    case Some(None) => Some(false)
    case Some(Some(next)) => Some(next <= now)
  }

  /** The occurrence that made a rule due. */
  function FirstAfter(after: Evaluator, rule: string, since: int): int {
    match after(rule, since)
    case Some(Some(next)) => next
    case _ => since
  }

  lemma DueMeansOccurrence(after: Evaluator, rule: string, since: int, now: int)
    requires Lawful(after) && DueSince(after, rule, since, now).Some?
    ensures DueSince(after, rule, since, now) == Some(true) <==> exists t :: since < t <= now && Occurs(after, rule, t)
    ensures DueSince(after, rule, since, now) == Some(true) ==>
      var t := FirstAfter(after, rule, since); since < t <= now && Occurs(after, rule, t)
  {
    assert LawfulAt(after, rule, since);
  }

  // ---- State ----

  datatype Schedule = Schedule(enabled: bool, rrule: string)

  datatype ScanFailure = ScanFailure(attempts: nat, firstAt: int, lastAt: int, scheduled: bool, nextRetryAt: int)

  datatype Reading = Reading(name: string, action: string)

  datatype Notice = CannotStart(name: string) | WillRetry(name: string) | GaveUp(name: string)

  const RETRY_DELAYS := [60, 300, 900, 3600]
  const MOST_ATTEMPTS := |RETRY_DELAYS| + 1

  /** A scheduled scrub that started, the occurrence it is for, and the window since
      the last run that occurrence fell in. */
  datatype Fire = Fire(name: string, rule: string, occurrence: int, since: int, at: int)

  /** A scheduled start that was tried, whether that was announced, and whether it worked. */
  datatype Try = Try(at: int, announced: bool, started: bool)

  /** The occurrence an array's pending retries are for, and the tries so far. */
  datatype Chain = Chain(rule: string, occurrence: int, tries: seq<Try>)

  /** The tries for an array between two values of its last run; `disturbed` says
      whether its failure record was meanwhile touched by anything but a try. */
  datatype Span = Span(name: string, since: int, until: int, tries: seq<Try>, disturbed: bool)

  predicate IsPending(f: ScanFailure) {
    f.scheduled && f.nextRetryAt > 0
  }

  /** A scheduled failure waits for its next try, except after the last one. */
  ghost predicate WellKept(f: ScanFailure) {
    f.scheduled ==>
      && 1 <= f.attempts <= MOST_ATTEMPTS
      && f.nextRetryAt == if f.attempts == MOST_ATTEMPTS then 0 else f.lastAt + RETRY_DELAYS[f.attempts - 1]
  }

  /** Tries are spaced by the delays, all but the last have failed, and only the
      first and the fifth failure are announced. */
  ghost predicate Disciplined(tries: seq<Try>) {
    && |tries| <= MOST_ATTEMPTS
    && (forall i :: 0 < i < |tries| ==> tries[i].at >= tries[i - 1].at + RETRY_DELAYS[i - 1])
    && (forall i :: 0 <= i < |tries| ==> (tries[i].announced <==> !tries[i].started && (i == 0 || i == MOST_ATTEMPTS - 1)))
    && (forall i :: 0 <= i < |tries| - 1 ==> !tries[i].started)
  }

  ghost predicate AllFailed(tries: seq<Try>) {
    forall i :: 0 <= i < |tries| ==> !tries[i].started
  }

  lemma OneMoreTry(tries: seq<Try>, t: Try)
    requires Disciplined(tries) && AllFailed(tries) && |tries| < MOST_ATTEMPTS
    requires tries != [] ==> t.at >= tries[|tries| - 1].at + RETRY_DELAYS[|tries| - 1]
    requires t.announced <==> !t.started && (|tries| == 0 || |tries| == MOST_ATTEMPTS - 1)
    ensures Disciplined(tries + [t]) && (!t.started ==> AllFailed(tries + [t]))
  {
  }

  /** All scheduled tries: for each array those since its last run was set, and the
      spans before; `disturbed` holds the arrays whose failure record was touched
      since by anything but a try. */
  datatype Log = Log(current: map<string, seq<Try>>, disturbed: set<string>, spans: seq<Span>)

  function Tries(log: Log, n: string): seq<Try> {
    if n in log.current then log.current[n] else []
  }

  /** The log with one more try for an array whose last run was `since` and is now
      `until`: if that changed, the try ended a span. */
  function WithTry(log: Log, n: string, t: Try, since: int, until: int): Log {
    if until == since then log.(current := log.current[n := Tries(log, n) + [t]])
    else Log(log.current[n := []], log.disturbed - {n},
             log.spans + [Span(n, since, until, Tries(log, n) + [t], n in log.disturbed)])
  }

  function Touched(log: Log, n: string): Log {
    log.(disturbed := log.disturbed + {n})
  }

  /** The tries a pending failure record stands for. */
  function PendingTries(failures: map<string, ScanFailure>, chains: map<string, Chain>, n: string): seq<Try> {
    if n in failures && IsPending(failures[n]) && n in chains then chains[n].tries else []
  }

  /** The tries since an array's last run are those its record stands for, unless the
      record was touched; and every span ended as it should. */
  ghost predicate Agrees(log: Log, lastRun: map<string, int>, failures: map<string, ScanFailure>, chains: map<string, Chain>) {
    && (forall n :: n in log.current && n !in lastRun ==> Tries(log, n) == [])
    && (forall n :: n in lastRun && n !in log.disturbed ==> Tries(log, n) == PendingTries(failures, chains, n))
    && (forall i :: 0 <= i < |log.spans| ==> EndsRight(log.spans[i]))
  }

  /** From one log to a later one no span of `n` was disturbed that was not before. */
  ghost predicate Undisturbed(log: Log, log': Log, n: string) {
    && (n in log'.disturbed ==> n in log.disturbed)
    && |log.spans| <= |log'.spans| && log'.spans[..|log.spans|] == log.spans
    && forall i :: |log.spans| <= i < |log'.spans| && log'.spans[i].name == n && log'.spans[i].disturbed ==> n in log.disturbed
  }

  /** The spans of `n` that ended from one log to a later one ended well. */
  ghost predicate AllInFiveTries(log: Log, log': Log, n: string) {
    forall i :: |log.spans| <= i < |log'.spans| && log'.spans[i].name == n ==> InFiveTries(log'.spans[i])
  }

  lemma UndisturbedTransitive(log: Log, log': Log, log'': Log, n: string)
    requires Undisturbed(log, log', n) && Undisturbed(log', log'', n)
    ensures Undisturbed(log, log'', n)
  {
    assert log''.spans[..|log.spans|] == log''.spans[..|log'.spans|][..|log.spans|];
    forall i | |log.spans| <= i < |log''.spans| && log''.spans[i].name == n && log''.spans[i].disturbed
      ensures n in log.disturbed
    {
      if i < |log'.spans| {
        assert log''.spans[i] == log''.spans[..|log'.spans|][i];
      }
    }
  }

  lemma TryAgrees(log: Log, lastRun: map<string, int>, failures: map<string, ScanFailure>, chains: map<string, Chain>,
                  n: string, t: Try, lastRun': map<string, int>, failures': map<string, ScanFailure>, chains': map<string, Chain>)
    requires Agrees(log, lastRun, failures, chains) && n in lastRun
    requires forall m :: m != n ==> PendingTries(failures', chains', m) == PendingTries(failures, chains, m)
    requires var tries := PendingTries(failures, chains, n) + [t];
      && Disciplined(tries)
      && if !t.started && |tries| < MOST_ATTEMPTS then lastRun' == lastRun && PendingTries(failures', chains', n) == tries
         else lastRun' == lastRun[n := t.at] && lastRun[n] < t.at && PendingTries(failures', chains', n) == []
    ensures Agrees(WithTry(log, n, t, lastRun[n], lastRun'[n]), lastRun', failures', chains')
  {
    var log' := WithTry(log, n, t, lastRun[n], lastRun'[n]);
    forall m | m in lastRun' && m !in log'.disturbed
      ensures Tries(log', m) == PendingTries(failures', chains', m)
    {
      assert m in lastRun;
    }
  }

  /** Touching a failure record disturbs the tries for its array, and nothing else. */
  lemma TouchAgrees(log: Log, lastRun: map<string, int>, failures: map<string, ScanFailure>, chains: map<string, Chain>,
                    n: string, failures': map<string, ScanFailure>)
    requires Agrees(log, lastRun, failures, chains)
    requires forall m :: m != n ==> PendingTries(failures', chains, m) == PendingTries(failures, chains, m)
    ensures Agrees(Touched(log, n), lastRun, failures', chains)
  {
    var log' := Touched(log, n);
    forall m | m in lastRun && m !in log'.disturbed
      ensures Tries(log', m) == PendingTries(failures', chains, m)
    {
    }
  }

  /** At most five well-kept tries, of which a success or the fifth failure is the last. */
  ghost predicate InFiveTries(s: Span) {
    Disciplined(s.tries) && s.tries != [] && (s.tries[|s.tries| - 1].started || |s.tries| == MOST_ATTEMPTS)
  }

  /** A span ends with the try that sets the last run. */
  ghost predicate EndsRight(s: Span) {
    && s.tries != [] && s.tries[|s.tries| - 1].at == s.until && s.since < s.until
    && (!s.disturbed ==> InFiveTries(s))
  }

  predicate On(schedules: map<string, Schedule>, n: string) {
    n in schedules && schedules[n].enabled && schedules[n].rrule != ""
  }

  predicate Knows(known: seq<Reading>, name: string) {
    exists i :: 0 <= i < |known| && known[i].name == name
  }

  predicate SeenChecking(arrays: seq<Reading>, name: string) {
    exists i :: 0 <= i < |arrays| && arrays[i].name == name && arrays[i].action == "check"
  }

  class Scheduler {
    const after: Evaluator
    var schedules: map<string, Schedule>
    var lastRun: map<string, int>
    var failures: map<string, ScanFailure>
    var notices: seq<Notice>
    ghost var clock: int
    ghost var fires: seq<Fire>
    ghost var chains: map<string, Chain>
    ghost var log: Log

    ghost predicate Valid()
      reads this
    {
      Sound() && Agrees(log, lastRun, failures, chains)
    }

    /** All of that but for the log. */
    ghost predicate Sound()
      reads this
    {
      && Lawful(after) && clock > 0
      && (forall n :: n in lastRun ==> lastRun[n] <= clock)
      && (forall n :: n in failures ==> KeptWell(n))
      && (forall i :: 0 <= i < |fires| ==> Fired(fires[i]))
      && OnceEach()
    }

    ghost predicate KeptWell(n: string)
      reads this
      requires n in failures
    {
      var f := failures[n];
      && WellKept(f) && (f.scheduled ==> f.lastAt <= clock)
      && (IsPending(f) ==>
            && n in lastRun && n in chains
            && var c := chains[n];
              && Occurs(after, c.rule, c.occurrence) && lastRun[n] < c.occurrence <= f.lastAt
              && Disciplined(c.tries) && AllFailed(c.tries) && |c.tries| == f.attempts && c.tries[|c.tries| - 1].at == f.lastAt)
    }

    ghost predicate Fired(f: Fire)
      reads this
    {
      && Occurs(after, f.rule, f.occurrence) && f.since < f.occurrence <= f.at
      && f.name in lastRun && f.at <= lastRun[f.name]
    }

    /** The windows of an array's scrubs follow each other. */
    ghost predicate OnceEach()
      reads this
    {
      forall i, j :: 0 <= i < j < |fires| && fires[i].name == fires[j].name ==> fires[i].at <= fires[j].since
    }

    constructor (after: Evaluator, now: int)
      requires Lawful(after) && now > 0
      ensures Valid() && this.after == after && clock == now && fires == [] && failures == map[] && lastRun == map[]
    {
      this.after := after;
      schedules, lastRun, failures, notices := map[], map[], map[], [];
      clock, fires, chains, log := now, [], map[], Log(map[], {}, []);
    }

    /** Whether the kernel takes the request to start a check. */
    method TryStart(name: string) returns (ok: bool)
    {
      ok := *;
    }

    /** The record of a failed start, announced if it is the first or the last of a
        scheduled one, or not scheduled. */
    method RecordFailure(name: string, prev: ScanFailure, scheduled: bool, now: int) returns (f: ScanFailure)
      requires prev.attempts < MOST_ATTEMPTS && now > 0
      modifies this`notices
      ensures f.attempts == prev.attempts + 1 && f.lastAt == now && f.scheduled == scheduled
      ensures f.firstAt == if prev.attempts == 0 then now else prev.firstAt
      ensures !scheduled ==> f.nextRetryAt == 0
      ensures WellKept(f) && (IsPending(f) <==> scheduled && f.attempts < MOST_ATTEMPTS)
      ensures notices == old(notices) +
              if !scheduled then [CannotStart(name)]
              else if f.attempts == 1 then [WillRetry(name)]
              else if f.attempts == MOST_ATTEMPTS then [GaveUp(name)]
              else []
    {
      f := prev;
      if f.attempts == 0 {
        f := f.(firstAt := now);
      }
      f := f.(attempts := f.attempts + 1, lastAt := now, scheduled := scheduled, nextRetryAt := 0);
      if scheduled && f.attempts <= |RETRY_DELAYS| {
        f := f.(nextRetryAt := now + RETRY_DELAYS[f.attempts - 1]);
      }
      if !scheduled {
        notices := notices + [CannotStart(name)];
      } else if f.attempts == 1 {
        notices := notices + [WillRetry(name)];
      } else if f.nextRetryAt == 0 {
        notices := notices + [GaveUp(name)];
      }
    }

    // ---- One array of a sweep ----

    predicate IsScheduled(n: string)
      reads this
    {
      On(schedules, n)
    }

    predicate Retrying(n: string)
      reads this
    {
      n in failures && IsPending(failures[n])
    }

    /** Whether a sweep tries to start a scrub: the array is idle and its schedule is
        due, or a retry is. */
    predicate WillTry(a: Reading, now: int)
      reads this
    {
      && IsScheduled(a.name) && a.name in lastRun && a.action in {"idle", ""}
      && if Retrying(a.name) then now >= failures[a.name].nextRetryAt
         else DueSince(after, schedules[a.name].rrule, lastRun[a.name], now) == Some(true)
    }

    /** The state of every array but one is as it was. */
    twostate predicate OthersKept(n: string)
      reads this
    {
      && (forall m :: m != n ==> (m in lastRun <==> m in old(lastRun)) && (m in lastRun ==> lastRun[m] == old(lastRun)[m]))
      && (forall m :: m != n ==> (m in failures <==> m in old(failures)) && (m in failures ==> failures[m] == old(failures)[m]))
      && (forall m :: m != n ==> (m in chains <==> m in old(chains)) && (m in chains ==> chains[m] == old(chains)[m]))
    }

    ghost method Advance(now: int)
      requires Valid() && now >= clock
      modifies this`clock
      ensures Valid() && clock == now
    {
      clock := now;
    }

    /** A failure that a running scrub or a vanished schedule has made moot. */
    predicate Moot(a: Reading)
      reads this
    {
      a.name in failures && (a.action == "check" || (failures[a.name].scheduled && !IsScheduled(a.name)))
    }

    /** Drops a moot failure. */
    method Clean(a: Reading, ghost now: int)
      requires Valid() && now >= clock
      modifies this`failures, this`clock, this`log
      ensures Valid() && clock == now
      ensures log == if old(Moot(a)) then Touched(old(log), a.name) else old(log)
      ensures failures == if old(Moot(a)) then old(failures) - {a.name} else old(failures)
    {
      Advance(now);
      if a.name in failures && (a.action == "check" || (failures[a.name].scheduled && !IsScheduled(a.name))) {
        TouchAgrees(log, lastRun, failures, chains, a.name, failures - {a.name});
        failures := failures - {a.name};
        log := Touched(log, a.name);
      }
    }

    /** A schedule seen for the first time does not fire for what is already past. */
    method Anchor(n: string, now: int)
      requires Valid() && clock == now && n !in lastRun
      modifies this`lastRun
      ensures Valid() && lastRun == old(lastRun)[n := now]
    {
      lastRun := lastRun[n := now];
    }

    /** The chain a try belongs to: the one being retried, or a new one. */
    ghost function ChainOf(n: string, rrule: string, retrying: bool): Chain
      reads this
      requires n in lastRun && (retrying ==> n in chains)
    {
      if retrying then chains[n] else Chain(rrule, FirstAfter(after, rrule, lastRun[n]), [])
    }

    /** A scheduled start failed: it is recorded, and once the retries run out the
        occurrence is given up. */
    method Fail(n: string, retrying: bool, ghost chain: Chain, now: int)
      requires Valid() && clock == now && n in lastRun && retrying == Retrying(n)
      requires Occurs(after, chain.rule, chain.occurrence) && lastRun[n] < chain.occurrence <= now
      requires retrying ==> chain == chains[n] && now >= failures[n].nextRetryAt
      requires !retrying ==> chain.tries == []
      modifies this
      ensures Valid() && clock == now && fires == old(fires) && schedules == old(schedules)
      ensures OthersKept(n) && n in failures && failures[n].scheduled && failures[n].lastAt == now
      ensures failures[n].attempts == if retrying then old(failures)[n].attempts + 1 else 1
      ensures lastRun == if failures[n].attempts == MOST_ATTEMPTS then old(lastRun)[n := now] else old(lastRun)
      ensures log == WithTry(old(log), n, Try(now, notices != old(notices), false), old(lastRun)[n], lastRun[n])
    {
      var prev := if retrying then failures[n] else ScanFailure(0, 0, 0, false, 0);
      ghost var before := notices;
      var next := RecordFailure(n, prev, true, now);
      ghost var t := Try(now, notices != before, false);
      ghost var longer := chain.(tries := chain.tries + [t]);
      OneMoreTry(chain.tries, t);
      File(n, next, longer, t);
    }

    /** A failed try is recorded and entered in the log. */
    method File(n: string, next: ScanFailure, ghost chain: Chain, ghost t: Try)
      requires Valid() && n in lastRun && clock == next.lastAt == t.at && next.scheduled && WellKept(next) && !t.started
      requires Occurs(after, chain.rule, chain.occurrence) && lastRun[n] < chain.occurrence <= clock
      requires chain.tries == PendingTries(failures, chains, n) + [t] && Disciplined(chain.tries) && AllFailed(chain.tries)
      requires |chain.tries| == next.attempts
      modifies this`failures, this`chains, this`lastRun, this`log
      ensures Valid() && failures == old(failures)[n := next] && chains == old(chains)[n := chain]
      ensures lastRun == if next.attempts == MOST_ATTEMPTS then old(lastRun)[n := next.lastAt] else old(lastRun)
      ensures log == WithTry(old(log), n, t, old(lastRun)[n], lastRun[n])
    {
      Store(n, next, chain);
      LogTry(n, t, old(lastRun), old(failures), old(chains));
    }

    /** The last try for an array is entered in the log, given the state before it. */
    ghost method LogTry(n: string, t: Try, lastRun0: map<string, int>, failures0: map<string, ScanFailure>, chains0: map<string, Chain>)
      requires Sound() && Agrees(log, lastRun0, failures0, chains0) && n in lastRun0 && n in lastRun
      requires forall m :: m != n ==> PendingTries(failures, chains, m) == PendingTries(failures0, chains0, m)
      requires var tries := PendingTries(failures0, chains0, n) + [t];
        && Disciplined(tries)
        && if !t.started && |tries| < MOST_ATTEMPTS then lastRun == lastRun0 && PendingTries(failures, chains, n) == tries
           else lastRun == lastRun0[n := t.at] && lastRun0[n] < t.at && PendingTries(failures, chains, n) == []
      modifies this`log
      ensures Valid() && log == WithTry(old(log), n, t, lastRun0[n], lastRun[n])
    {
      TryAgrees(log, lastRun0, failures0, chains0, n, t, lastRun, failures, chains);
      log := WithTry(log, n, t, lastRun0[n], lastRun[n]);
    }

    /** Files the record of a failed try, and sets the last run if it was the final one. */
    method Store(n: string, next: ScanFailure, ghost chain: Chain)
      requires Sound() && n in lastRun && clock == next.lastAt && next.scheduled && WellKept(next)
      requires Occurs(after, chain.rule, chain.occurrence) && lastRun[n] < chain.occurrence <= clock
      requires Disciplined(chain.tries) && AllFailed(chain.tries)
      requires |chain.tries| == next.attempts && chain.tries[|chain.tries| - 1].at == clock
      modifies this`failures, this`chains, this`lastRun
      ensures Sound() && failures == old(failures)[n := next] && chains == old(chains)[n := chain]
      ensures lastRun == if next.attempts == MOST_ATTEMPTS then old(lastRun)[n := next.lastAt] else old(lastRun)
    {
      failures := failures[n := next];
      chains := chains[n := chain];
      if next.nextRetryAt == 0 {
        lastRun := lastRun[n := next.lastAt];
      }
    }

    /** A scheduled start worked: the occurrence is used up. */
    method Succeed(n: string, ghost chain: Chain, now: int)
      requires Valid() && clock == now && n in lastRun
      requires Occurs(after, chain.rule, chain.occurrence) && lastRun[n] < chain.occurrence <= now
      requires if Retrying(n) then chain == chains[n] && now >= failures[n].nextRetryAt else chain.tries == []
      modifies this
      ensures Valid() && clock == now && schedules == old(schedules) && notices == old(notices)
      ensures OthersKept(n) && n !in failures && lastRun == old(lastRun)[n := now]
      ensures fires == old(fires) + [Fire(n, chain.rule, chain.occurrence, old(lastRun)[n], now)]
      ensures log == WithTry(old(log), n, Try(now, false, true), old(lastRun)[n], now)
    {
      OneMoreTry(chain.tries, Try(now, false, true));
      UseUp(n, chain, now);
      LogTry(n, Try(now, false, true), old(lastRun), old(failures), old(chains));
    }

    method UseUp(n: string, ghost chain: Chain, now: int)
      requires Sound() && clock == now && n in lastRun
      requires Occurs(after, chain.rule, chain.occurrence) && lastRun[n] < chain.occurrence <= now
      modifies this`fires, this`failures, this`lastRun
      ensures Sound() && failures == old(failures) - {n} && lastRun == old(lastRun)[n := now]
      ensures fires == old(fires) + [Fire(n, chain.rule, chain.occurrence, old(lastRun)[n], now)]
    {
      fires := fires + [Fire(n, chain.rule, chain.occurrence, lastRun[n], now)];
      failures := failures - {n};
      lastRun := lastRun[n := now];
    }

    /** The part of a sweep that concerns one array. */
    method SweepOne(a: Reading, now: int) returns (ghost tried: bool, started: bool)
      requires Valid() && now >= clock
      modifies this
      ensures Valid() && clock == now && schedules == old(schedules) && OthersKept(a.name)
      ensures tried <==> old(WillTry(a, now))
      ensures started ==> tried
      // What a success changes.
      ensures started ==> a.name !in failures && lastRun == old(lastRun)[a.name := now] && |fires| == |old(fires)| + 1
      ensures if started then fires[..|fires| - 1] == old(fires) else fires == old(fires)
      // What a failure changes.
      ensures tried && !started ==> a.name in failures && failures[a.name].lastAt == now
      ensures tried && !started ==>
        failures[a.name].attempts == if old(Retrying(a.name)) then old(failures)[a.name].attempts + 1 else 1
      ensures tried && !started ==> lastRun == if failures[a.name].attempts == MOST_ATTEMPTS then old(lastRun)[a.name := now] else old(lastRun)
      ensures tried ==>
        log == WithTry(old(log), a.name, Try(now, notices != old(notices), started), old(lastRun)[a.name], lastRun[a.name])
      // What happens when nothing is tried: at most a new schedule is anchored, or a moot failure dropped.
      ensures !tried ==> lastRun == if IsScheduled(a.name) && a.name !in old(lastRun) then old(lastRun)[a.name := now] else old(lastRun)
      ensures !tried ==> log == if old(Moot(a)) then Touched(old(log), a.name) else old(log)
    {
      tried, started := false, false;
      var n := a.name;
      Clean(a, now);
      if !IsScheduled(n) {
        return;
      }
      var rrule := schedules[n].rrule;
      if n !in lastRun {
        Anchor(n, now);
        return;
      }
      if a.action != "idle" && a.action != "" {
        return;
      }
      var retrying := Retrying(n);
      if retrying {
        if now < failures[n].nextRetryAt {
          return;
        }
      } else {
        var due := DueSince(after, rrule, lastRun[n], now);
        if due.None? || !due.value {
          return;
        }
      }
      tried := true;
      started := Attempt(n, retrying, now);
    }

    /** Starts a scrub that is due. */
    method Attempt(n: string, retrying: bool, now: int) returns (started: bool)
      requires Valid() && clock == now && n in schedules && n in lastRun && retrying == Retrying(n)
      requires if retrying then now >= failures[n].nextRetryAt
               else DueSince(after, schedules[n].rrule, lastRun[n], now) == Some(true)
      modifies this
      ensures Valid() && clock == now && schedules == old(schedules) && OthersKept(n)
      ensures started ==> n !in failures && lastRun == old(lastRun)[n := now] && |fires| == |old(fires)| + 1
      ensures if started then fires[..|fires| - 1] == old(fires) else fires == old(fires)
      ensures !started ==> n in failures && failures[n].lastAt == now
      ensures !started ==> failures[n].attempts == if retrying then old(failures)[n].attempts + 1 else 1
      ensures !started ==> lastRun == if failures[n].attempts == MOST_ATTEMPTS then old(lastRun)[n := now] else old(lastRun)
      ensures log == WithTry(old(log), n, Try(now, notices != old(notices), started), old(lastRun)[n], lastRun[n])
    {
      if !retrying {
        DueMeansOccurrence(after, schedules[n].rrule, lastRun[n], now);
      }
      ghost var chain := ChainOf(n, schedules[n].rrule, retrying);
      started := TryStart(n);
      if started {
        Succeed(n, chain, now);
      } else {
        Fail(n, retrying, chain, now);
      }
    }

    // ---- Whole sweeps, manual starts, and runs of both ----

    /** What has fired stays fired. */
    twostate predicate FiresGrew()
      reads this
    {
      |old(fires)| <= |fires| && fires[..|old(fires)|] == old(fires)
    }

    method RunSchedules(arrays: seq<Reading>, now: int)
      requires Valid() && now >= clock
      modifies this
      ensures Valid() && clock == (if arrays == [] then old(clock) else now) && schedules == old(schedules) && FiresGrew()
      ensures forall n :: On(schedules, n) && !SeenChecking(arrays, n) ==> Undisturbed(old(log), log, n)
    {
      for i := 0 to |arrays|
        invariant Valid() && clock == (if i == 0 then old(clock) else now) && schedules == old(schedules) && FiresGrew()
        invariant forall n :: On(schedules, n) && !SeenChecking(arrays, n) ==> Undisturbed(old(log), log, n)
      {
        SweepNext(arrays, i, now, old(log));
      }
    }

    method SweepNext(arrays: seq<Reading>, i: nat, now: int, ghost log0: Log)
      requires Valid() && now >= clock && i < |arrays|
      requires forall n :: On(schedules, n) && !SeenChecking(arrays, n) ==> Undisturbed(log0, log, n)
      modifies this
      ensures Valid() && clock == now && schedules == old(schedules) && FiresGrew()
      ensures forall n :: On(schedules, n) && !SeenChecking(arrays, n) ==> Undisturbed(log0, log, n)
    {
      ghost var before := log;
      var _, _ := SweepOne(arrays[i], now);
      forall n | On(schedules, n) && !SeenChecking(arrays, n) ensures Undisturbed(log0, log, n) {
        UndisturbedTransitive(log0, before, log, n);
      }
    }

    /** Start: by hand, without regard to any schedule. A failure replaces whatever
        retries were pending and brings none; the last run stays what it was. */
    method Start(name: string, known: seq<Reading>, now: int) returns (ok: bool)
      requires Valid() && now >= clock
      modifies this
      ensures Valid() && clock == now && lastRun == old(lastRun) && fires == old(fires) && schedules == old(schedules)
      ensures !Knows(known, name) ==> !ok && failures == old(failures) && notices == old(notices)
      ensures ok ==> failures == old(failures) - {name} && notices == old(notices)
      ensures log == if Knows(known, name) then Touched(old(log), name) else old(log)
      ensures !ok && Knows(known, name) ==>
        failures == old(failures)[name := ScanFailure(1, now, now, false, 0)] && notices == old(notices) + [CannotStart(name)]
    {
      Advance(now);
      var found := IsKnown(name, known);
      if !found {
        return false;
      }
      ok := StartKnown(name, now);
    }

    method StartKnown(name: string, now: int) returns (ok: bool)
      requires Valid() && now == clock
      modifies this`failures, this`log, this`notices
      ensures Valid() && log == Touched(old(log), name)
      ensures ok ==> failures == old(failures) - {name} && notices == old(notices)
      ensures !ok ==> failures == old(failures)[name := ScanFailure(1, now, now, false, 0)] && notices == old(notices) + [CannotStart(name)]
    {
      ok := TryStart(name);
      if ok {
        Supersede(name, None);
      } else {
        var f := RecordFailure(name, ScanFailure(0, 0, 0, false, 0), false, now);
        Supersede(name, Some(f));
      }
    }

    method IsKnown(name: string, known: seq<Reading>) returns (found: bool)
      ensures found <==> Knows(known, name)
    {
      found := false;
      for i := 0 to |known|
        invariant found <==> exists j :: 0 <= j < i && known[j].name == name
      {
        found := found || known[i].name == name;
      }
    }

    /** Replaces an array's failure record, whatever it was, by that of a manual start. */
    method Supersede(name: string, f: Option<ScanFailure>)
      requires Valid() && (f.Some? ==> !f.value.scheduled)
      modifies this`failures, this`log
      ensures Valid() && failures == if f.Some? then old(failures)[name := f.value] else old(failures) - {name}
      ensures log == Touched(old(log), name)
    {
      ghost var before := failures;
      failures := if f.Some? then failures[name := f.value] else failures - {name};
      TouchAgrees(log, lastRun, before, chains, name, failures);
      log := Touched(log, name);
    }

    method Configure(config: map<string, Schedule>)
      requires Valid()
      modifies this`schedules
      ensures Valid() && schedules == config
    {
      schedules := config;
    }

    /** Any run of sweeps, manual starts and changes of configuration. */
    method Run(events: seq<Event>)
      requires Valid() && Chronological(clock, events)
      modifies this
      ensures Valid() && FiresGrew()
      // An array left alone: between two values of its last run there were at most five
      // tries, spaced by the delays, the first and the fifth failure announced; and but
      // for a success only the fifth failure set the last run.
      ensures forall n :: On(old(schedules), n) && LeftAlone(events, n) ==> Undisturbed(old(log), log, n)
      ensures forall n :: On(old(schedules), n) && LeftAlone(events, n) && n !in old(log).disturbed ==> AllInFiveTries(old(log), log, n)
    {
      for i := 0 to |events|
        invariant Valid() && FiresGrew() && Chronological(clock, events[i..])
        invariant forall n :: On(old(schedules), n) && LeftAlone(events, n) ==> On(schedules, n) && Undisturbed(old(log), log, n)
      {
        Handle(events, i, old(schedules), old(log));
      }
    }

    method Handle(events: seq<Event>, i: nat, ghost schedules0: map<string, Schedule>, ghost log0: Log)
      requires Valid() && i < |events| && Chronological(clock, events[i..])
      requires forall n :: On(schedules0, n) && LeftAlone(events, n) ==> On(schedules, n) && Undisturbed(log0, log, n)
      modifies this
      ensures Valid() && FiresGrew() && Chronological(clock, events[i+1..])
      ensures forall n :: On(schedules0, n) && LeftAlone(events, n) ==> On(schedules, n) && Undisturbed(log0, log, n)
    {
      ghost var before := log;
      match events[i] {
        case Swept(arrays, now) => RunSchedules(arrays, now);
        case Started(name, known, now) => var _ := Start(name, known, now);
        case Configured(config) => Configure(config);
      }
      forall n | On(schedules0, n) && LeftAlone(events, n) ensures On(schedules, n) && Undisturbed(log0, log, n) {
        assert Leaves(events[i], n);
        UndisturbedTransitive(log0, before, log, n);
      }
    }

    /** No occurrence has more than one scrub started for it: the occurrences an
        array's scrubs are for come strictly later and later, whatever happened in
        between, and each is an occurrence of the rule the scrub was for. */
    lemma OncePerOccurrence(i: nat, j: nat)
      requires Valid() && i < j < |fires| && fires[i].name == fires[j].name
      ensures fires[i].occurrence < fires[j].occurrence
      ensures Occurs(after, fires[i].rule, fires[i].occurrence) && Occurs(after, fires[j].rule, fires[j].occurrence)
    {
      assert Fired(fires[i]) && Fired(fires[j]);
    }

    /** A pending retry always stands for an occurrence not yet run, no later than
        the failed try; it has been tried as often as it says, at the right
        distances, with only the first try announced. */
    lemma PendingRetryIsForAnOccurrence(n: string) returns (rule: string, occurrence: int)
      requires Valid() && Retrying(n)
      ensures Occurs(after, rule, occurrence) && n in lastRun && lastRun[n] < occurrence <= failures[n].lastAt
      ensures 1 <= failures[n].attempts < MOST_ATTEMPTS
      ensures failures[n].nextRetryAt == failures[n].lastAt + RETRY_DELAYS[failures[n].attempts - 1]
      ensures forall k :: 0 <= k < |chains[n].tries| ==> (chains[n].tries[k].announced <==> k == 0)
      ensures n !in log.disturbed ==> Tries(log, n) == chains[n].tries && |chains[n].tries| == failures[n].attempts
    {
      assert KeptWell(n);
      rule, occurrence := chains[n].rule, chains[n].occurrence;
    }
  }

  datatype Event =
    | Swept(arrays: seq<Reading>, now: int)
    | Started(name: string, known: seq<Reading>, now: int)
    | Configured(config: map<string, Schedule>)

  /** An event that is no manual start of array `n`, sees no check on it, and keeps
      its schedule enabled. */
  predicate Leaves(e: Event, n: string) {
    match e
    case Swept(arrays, _) => !SeenChecking(arrays, n)
    case Started(name, _, _) => name != n
    case Configured(config) => On(config, n)
  }

  ghost predicate LeftAlone(events: seq<Event>, n: string) {
    forall i :: 0 <= i < |events| ==> Leaves(events[i], n)
  }

  /** The clock does not run backwards. */
  ghost predicate Chronological(clock: int, events: seq<Event>)
    decreases |events|
  {
    events == [] ||
    match events[0]
    case Swept(arrays, now) => now >= clock && Chronological(if arrays == [] then clock else now, events[1..])
    case Started(_, _, now) => now >= clock && Chronological(now, events[1..])
    case Configured(_) => Chronological(clock, events[1..])
  }
}
