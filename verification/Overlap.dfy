/**
 * Executions of one source that overlap: each checks the budget and records its execution as two separate steps,
 * and any number of them may lie between the two at once.
 */
module Overlap {
  import opened Common
  import opened Windows
  import opened Scheduler

  /** `inFlight` executions have passed the check and not recorded yet. */
  datatype Load = Load(clock: int, records: seq<Record>, inFlight: nat)

  datatype Step = Advance(t: int) | Check | Finish(executed: bool)

  predicate Enabled(b: Budget, offset: int, s: Load, step: Step) {
    match step
    case Advance(t) => s.clock <= t
    case Check => WithinBudget(b, s.records, s.clock, offset)
    case Finish(_) => s.inFlight > 0
  }

  function Next(b: Budget, offset: int, s: Load, step: Step): Load
    requires Enabled(b, offset, s, step)
  {
    match step
    case Advance(t) => s.(clock := t)
    case Check => s.(inFlight := s.inFlight + 1)
    case Finish(executed) =>
      s.(inFlight := s.inFlight - 1, records := if executed then s.records + [Record(Executed, s.clock)] else s.records)
  }

  predicate ValidRun(b: Budget, offset: int, s: Load, steps: seq<Step>)
    decreases |steps|
  {
    steps == [] || (Enabled(b, offset, s, steps[0]) && ValidRun(b, offset, Next(b, offset, s, steps[0]), steps[1..]))
  }

  function Run(b: Budget, offset: int, s: Load, steps: seq<Step>): Load
    requires ValidRun(b, offset, s, steps)
    decreases |steps|
  {
    if steps == [] then s else Run(b, offset, Next(b, offset, s, steps[0]), steps[1..])
  }

  /** The most executions in flight at any moment of the run. */
  function Peak(b: Budget, offset: int, s: Load, steps: seq<Step>): nat
    requires ValidRun(b, offset, s, steps)
    decreases |steps|
  {
    if steps == [] then s.inFlight else Max(s.inFlight, Peak(b, offset, Next(b, offset, s, steps[0]), steps[1..]))
  }

  // ---------------------------------------------------------------- the bound

  /** The limit, and one more for every execution beyond the first that can be in flight. */
  function Cap(limit: int, peak: nat): int {
    if limit <= 0 then 0 else limit + Max(1, peak) - 1
  }

  ghost predicate WithinCap(b: Budget, offset: int, s: Load, peak: nat) {
    forall w: Window, t: int :: LimitOf(b, w).Some? && t >= s.clock ==>
      WindowCount(s.records, w, t, offset) + s.inFlight <= Cap(LimitOf(b, w).value, peak)
  }

  lemma StepKeepsCap(b: Budget, offset: int, s: Load, step: Step, peak: nat)
    requires WithinCap(b, offset, s, peak) && Enabled(b, offset, s, step) && Next(b, offset, s, step).inFlight <= peak
    ensures WithinCap(b, offset, Next(b, offset, s, step), peak)
  {
    var s' := Next(b, offset, s, step);
    forall w: Window, t: int | LimitOf(b, w).Some? && t >= s'.clock
      ensures WindowCount(s'.records, w, t, offset) + s'.inFlight <= Cap(LimitOf(b, w).value, peak)
    {
      assert WindowCount(s.records, w, t, offset) + s.inFlight <= Cap(LimitOf(b, w).value, peak);
      match step
      case Advance(_) =>
      case Check =>
        CountStartMonotone(w, s.clock, t, offset);
        CountSinceAntitone(s.records, CountStart(w, s.clock, offset), CountStart(w, t, offset));
      case Finish(_) =>
        CountSnoc(s.records, Record(Executed, s.clock), CountStart(w, t, offset));
    }
  }

  lemma {:induction false} RunKeepsCap(b: Budget, offset: int, s: Load, steps: seq<Step>, peak: nat)
    requires WithinCap(b, offset, s, peak) && ValidRun(b, offset, s, steps) && Peak(b, offset, s, steps) <= peak
    ensures WithinCap(b, offset, Run(b, offset, s, steps), peak)
    decreases |steps|
  {
    if steps != [] {
      var s' := Next(b, offset, s, steps[0]);
      assert s'.inFlight <= Peak(b, offset, s', steps[1..]);
      StepKeepsCap(b, offset, s, steps[0], peak);
      RunKeepsCap(b, offset, s', steps[1..], peak);
    }
  }

  /**
   * How far overlapping executions can overshoot. In every run, at every later moment, the executions counted in
   * a window are at most its limit plus the most that were in flight at once, less one.
   */
  lemma {:induction false} OvershootIsBounded(b: Budget, offset: int, clock: int, steps: seq<Step>, w: Window, t: int)
    requires ValidRun(b, offset, Load(clock, [], 0), steps) && LimitOf(b, w).Some?
    requires t >= Run(b, offset, Load(clock, [], 0), steps).clock
    ensures WindowCount(Run(b, offset, Load(clock, [], 0), steps).records, w, t, offset)
            <= if LimitOf(b, w).value <= 0 then 0
               else LimitOf(b, w).value + Max(1, Peak(b, offset, Load(clock, [], 0), steps)) - 1
  {
    var s0 := Load(clock, [], 0);
    var peak := Peak(b, offset, s0, steps);
    RunKeepsCap(b, offset, s0, steps, peak);
    var s := Run(b, offset, s0, steps);
    assert WindowCount(s.records, w, t, offset) + s.inFlight <= Cap(LimitOf(b, w).value, peak);
  }

  // ---------------------------------------------------------------- the bound is reached

  function Only(w: Window, limit: int): Budget {
    match w
    case Hour => Budget(Some(limit), None, None, None)
    case Day => Budget(None, Some(limit), None, None)
    case Week => Budget(None, None, Some(limit), None)
    case Month => Budget(None, None, None, Some(limit))
  }

  /** `n` executions recorded at the clock, `k` in flight. */
  function Filled(clock: int, n: nat, k: nat): Load {
    Load(clock, seq(n, _ => Record(Executed, clock)), k)
  }

  lemma {:induction false} AllCount(clock: int, n: nat, w: Window, offset: int)
    ensures WindowCount(Filled(clock, n, 0).records, w, clock, offset) == n
  {
    if n > 0 {
      var records := Filled(clock, n - 1, 0).records;
      AllCount(clock, n - 1, w, offset);
      WindowContainsNow(w, clock, offset);
      WindowContainsNow(Month, clock, offset);
      CountSnoc(records, Record(Executed, clock), CountStart(w, clock, offset));
      assert Filled(clock, n, 0).records == records + [Record(Executed, clock)];
    }
  }

  lemma CheckPasses(clock: int, n: nat, k: nat, w: Window, limit: int, offset: int)
    requires n < limit
    ensures Enabled(Only(w, limit), offset, Filled(clock, n, k), Check)
    ensures Next(Only(w, limit), offset, Filled(clock, n, k), Check) == Filled(clock, n, k + 1)
  {
    AllCount(clock, n, w, offset);
  }

  lemma Records(clock: int, n: nat, k: nat, b: Budget, offset: int)
    requires k > 0
    ensures Next(b, offset, Filled(clock, n, k), Finish(true)) == Filled(clock, n + 1, k - 1)
  {
    assert Filled(clock, n + 1, k - 1).records == Filled(clock, n, k).records + [Record(Executed, clock)];
  }

  /** All `k` in flight record. */
  function Finishes(k: nat): seq<Step> {
    if k == 0 then [] else [Finish(true)] + Finishes(k - 1)
  }

  /** With `k` in flight, `more` executions pass the check, and then all record. */
  function Burst(more: nat, k: nat): seq<Step> {
    if more == 0 then Finishes(k) else [Check] + Burst(more - 1, k + 1)
  }

  /** `one` executions one after another, and then `k` at once. */
  function Series(one: nat, k: nat): seq<Step> {
    if one == 0 then Burst(k, 0) else [Check] + ([Finish(true)] + Series(one - 1, k))
  }

  /** The steps are possible from `from`, lead to `to`, and have at most `peak` in flight. */
  ghost predicate Leads(b: Budget, offset: int, from: Load, steps: seq<Step>, to: Load, peak: nat) {
    ValidRun(b, offset, from, steps) && Run(b, offset, from, steps) == to && Peak(b, offset, from, steps) == peak
  }

  lemma LeadsCons(b: Budget, offset: int, from: Load, step: Step, rest: seq<Step>, to: Load, peak: nat)
    requires Enabled(b, offset, from, step) && Leads(b, offset, Next(b, offset, from, step), rest, to, peak)
    ensures Leads(b, offset, from, [step] + rest, to, Max(from.inFlight, peak))
  {
    assert ([step] + rest)[1..] == rest;
  }

  lemma {:induction false} FinishAll(clock: int, n: nat, k: nat, b: Budget, offset: int)
    ensures Leads(b, offset, Filled(clock, n, k), Finishes(k), Filled(clock, n + k, 0), k)
    decreases k
  {
    if k > 0 {
      Records(clock, n, k, b, offset);
      FinishAll(clock, n + 1, k - 1, b, offset);
      LeadsCons(b, offset, Filled(clock, n, k), Finish(true), Finishes(k - 1), Filled(clock, n + k, 0), k - 1);
    }
  }

  lemma {:induction false} CheckAll(clock: int, n: nat, k: nat, more: nat, w: Window, limit: int, offset: int)
    requires n < limit
    ensures Leads(Only(w, limit), offset, Filled(clock, n, k), Burst(more, k), Filled(clock, n + k + more, 0), k + more)
    decreases more
  {
    if more == 0 {
      FinishAll(clock, n, k, Only(w, limit), offset);
    } else {
      CheckPasses(clock, n, k, w, limit, offset);
      CheckAll(clock, n, k + 1, more - 1, w, limit, offset);
      LeadsCons(Only(w, limit), offset, Filled(clock, n, k), Check, Burst(more - 1, k + 1), Filled(clock, n + k + more, 0), k + more);
    }
  }

  lemma {:induction false} SeriesLeads(clock: int, n: nat, one: nat, k: nat, w: Window, limit: int, offset: int)
    requires n + one == limit - 1 && k > 0
    ensures Leads(Only(w, limit), offset, Filled(clock, n, 0), Series(one, k), Filled(clock, limit - 1 + k, 0), k)
    decreases one
  {
    if one == 0 {
      CheckAll(clock, n, 0, k, w, limit, offset);
    } else {
      var b, to, rest := Only(w, limit), Filled(clock, limit - 1 + k, 0), Series(one - 1, k);
      SeriesLeads(clock, n + 1, one - 1, k, w, limit, offset);
      CheckPasses(clock, n, 0, w, limit, offset);
      Records(clock, n, 1, b, offset);
      LeadsCons(b, offset, Filled(clock, n, 1), Finish(true), rest, to, k);
      LeadsCons(b, offset, Filled(clock, n, 0), Check, [Finish(true)] + rest, to, k);
    }
  }

  /** The run keeps to the budget's checks, has `k` in flight at once, and ends at `clock` with the window so far overshot. */
  ghost predicate Reaches(b: Budget, offset: int, from: int, steps: seq<Step>, clock: int, w: Window, limit: int, k: nat) {
    var s0 := Load(from, [], 0);
    && ValidRun(b, offset, s0, steps) && Peak(b, offset, s0, steps) == k
    && Run(b, offset, s0, steps).clock == clock
    && WindowCount(Run(b, offset, s0, steps).records, w, clock, offset) == limit + k - 1
  }

  /** The bound is exact: with a limit on any one window alone, for every positive number in flight some run reaches it. */
  lemma OvershootIsReached(from: int, clock: int, w: Window, limit: int, k: nat, offset: int)
    requires limit > 0 && k > 0 && from <= clock
    ensures exists b, steps ::
              && LimitOf(b, w) == Some(limit) && (forall v: Window :: v != w ==> LimitOf(b, v) == None)
              && Reaches(b, offset, from, steps, clock, w, limit, k)
  {
    var b, steps := Only(w, limit), Series(limit - 1, k);
    SeriesLeads(clock, 0, limit - 1, k, w, limit, offset);
    assert Filled(clock, 0, 0) == Load(clock, [], 0);
    AllCount(clock, limit - 1 + k, w, offset);
    LeadsCons(b, offset, Load(from, [], 0), Step.Advance(clock), steps, Filled(clock, limit - 1 + k, 0), k);
    assert Reaches(b, offset, from, [Step.Advance(clock)] + steps, clock, w, limit, k);
  }
}
