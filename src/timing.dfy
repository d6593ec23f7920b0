/** The latency timers (backend/app/utils/timeit.py). Every reading of
    `time.perf_counter()` is a parameter `now`, in seconds. */
module Timing {
  import opened Wrappers
  import opened PyDict

  /** `(later - earlier) * 1000`: an interval in milliseconds. */
  function Millis(earlier: real, later: real): (ms: real)
    ensures earlier <= later ==> ms >= 0.0
    ensures ms / 1000.0 == later - earlier
  {
    (later - earlier) * 1000.0
  }

  /** `Timer`: one interval, measured once it is stopped. */
  class Timer {
    var name: string
    var startTime: Option<real>
    var endTime: Option<real>
    var elapsedMs: real

    constructor(name: string)
      ensures this.name == name && startTime == None && endTime == None && elapsedMs == 0.0
    {
      this.name := name;
      startTime := None;
      endTime := None;
      elapsedMs := 0.0;
    }

    /** `start`: the start reading is taken; nothing else changes. */
    method Start(now: real)
      modifies this
      ensures startTime == Some(now)
      ensures name == old(name) && endTime == old(endTime) && elapsedMs == old(elapsedMs)
    {
      startTime := Some(now);
    }

    /** `stop`: the `RuntimeError` when never started, and nothing changes;
        otherwise the end reading is taken and the elapsed time is recorded
        and returned. */
    method Stop(now: real) returns (r: Result<real, string>)
      modifies this
      ensures old(startTime).None? ==>
        r == Err("Timer was not started")
        && startTime == old(startTime) && endTime == old(endTime) && elapsedMs == old(elapsedMs)
      ensures old(startTime).Some? ==>
        r == Ok(Millis(old(startTime).value, now))
        && startTime == old(startTime) && endTime == Some(now) && elapsedMs == r.value
      ensures name == old(name)
    {
      if startTime.None? {
        return Err("Timer was not started");
      }
      endTime := Some(now);
      elapsedMs := Millis(startTime.value, now);
      return Ok(elapsedMs);
    }
  }

  /** `x` in a condition: a current step name is true when not empty, a clock
      reading when not zero. */
  predicate NameSet(n: Option<string>) { n.Some? && n.value != "" }
  predicate ReadingSet(t: Option<real>) { t.Some? && t.value != 0.0 }

  /** Closing the current step at `now`: its duration is recorded under its
      name, when both the name and its start reading are set. */
  function CloseStep(steps: Dict<string, real>, current: Option<string>, stepStart: Option<real>, now: real)
    : (r: Dict<string, real>)
    ensures Valid(steps) ==> Valid(r)
  {
    if NameSet(current) && ReadingSet(stepStart) then Put(steps, current.value, Millis(stepStart.value, now))
    else steps
  }

  /** The recorded duration of the step just closed replaces any earlier
      duration under that name, keeping the name's place; no other entry
      changes. A start reading of exactly 0.0 records nothing. */
  lemma CloseStepRecords(steps: Dict<string, real>, current: Option<string>, stepStart: Option<real>, now: real)
    requires Valid(steps)
    ensures var r := CloseStep(steps, current, stepStart, now);
      && (NameSet(current) && ReadingSet(stepStart) ==>
            Get(r, current.value) == Some(Millis(stepStart.value, now))
            && (current.value in steps.vals ==> r.keys == steps.keys)
            && (current.value !in steps.vals ==> r.keys == steps.keys + [current.value]))
      && (forall k :: k != current.GetOr("") ==> Get(r, k) == Get(steps, k))
      && (stepStart == Some(0.0) ==> r == steps)
  {
  }

  /** The value of `total_ms`. */
  function TotalOf(steps: Dict<string, real>): (ms: real)
    ensures "total" !in steps.vals ==> ms == 0.0
    ensures "total" in steps.vals ==> ms == steps.vals["total"]
  {
    Get(steps, "total").GetOr(0.0)
  }

  /** What `stop` leaves: the last step closed, then "total" recorded when the
      overall start reading is set. */
  function Stopped(steps: Dict<string, real>, current: Option<string>, stepStart: Option<real>,
                   totalStart: Option<real>, now: real): (r: Dict<string, real>)
    ensures Valid(steps) ==> Valid(r)
  {
    var closed := CloseStep(steps, current, stepStart, now);
    if ReadingSet(totalStart) then Put(closed, "total", Millis(totalStart.value, now)) else closed
  }

  /** After `stop` with the overall timer started, `total_ms` is the time
      since that start; without it, "total" is left as it was. */
  lemma StoppedTotal(steps: Dict<string, real>, current: Option<string>, stepStart: Option<real>,
                     totalStart: Option<real>, now: real)
    ensures ReadingSet(totalStart) ==>
      TotalOf(Stopped(steps, current, stepStart, totalStart, now)) == Millis(totalStart.value, now)
    ensures !ReadingSet(totalStart) ==>
      Stopped(steps, current, stepStart, totalStart, now) == CloseStep(steps, current, stepStart, now)
  {
  }

  /** A step itself named "total" sets `total_ms` before `stop` is called. */
  lemma StepNamedTotal(t0: real, t1: real)
    requires t0 != 0.0
    ensures TotalOf(CloseStep(Empty(), Some("total"), Some(t0), t1)) == Millis(t0, t1)
  {
  }

  /** `StepTimer`: named steps, each closed by the next one or by `stop`. */
  class StepTimer {
    var steps: Dict<string, real>
    var currentStep: Option<string>
    var stepStart: Option<real>
    var totalStart: Option<real>

    predicate Valid()
      reads this
    {
      PyDict.Valid(steps)
    }

    constructor()
      ensures Valid() && steps == Empty() && currentStep == None && stepStart == None && totalStart == None
      ensures TotalMs() == 0.0
    {
      steps := Empty();
      currentStep := None;
      stepStart := None;
      totalStart := None;
    }

    /** `total_ms`: the "total" entry, 0.0 while there is none. */
    function TotalMs(): (ms: real)
      reads this
    {
      TotalOf(steps)
    }

    /** `start`: the overall start reading. */
    method Start(now: real)
      requires Valid()
      modifies this
      ensures Valid()
      ensures totalStart == Some(now)
      ensures steps == old(steps) && currentStep == old(currentStep) && stepStart == old(stepStart)
    {
      totalStart := Some(now);
    }

    /** `step(name)`: the previous step is closed, then `name` is current
        from `now`. */
    method Step(name: string, now: real)
      requires Valid()
      modifies this
      ensures Valid()
      ensures steps == CloseStep(old(steps), old(currentStep), old(stepStart), now)
      ensures currentStep == Some(name) && stepStart == Some(now) && totalStart == old(totalStart)
    {
      if currentStep.Some? && currentStep.value != "" && stepStart.Some? && stepStart.value != 0.0 {
        steps := Put(steps, currentStep.value, Millis(stepStart.value, now));
      }
      currentStep := Some(name);
      stepStart := Some(now);
    }

    /** `stop`: the last step is closed and "total" recorded; the steps are
        returned. The current step stays current. */
    method Stop(now: real) returns (r: Dict<string, real>)
      requires Valid()
      modifies this
      ensures Valid()
      ensures steps == Stopped(old(steps), old(currentStep), old(stepStart), old(totalStart), now) && r == steps
      ensures currentStep == old(currentStep) && stepStart == old(stepStart) && totalStart == old(totalStart)
    {
      if currentStep.Some? && currentStep.value != "" && stepStart.Some? && stepStart.value != 0.0 {
        steps := Put(steps, currentStep.value, Millis(stepStart.value, now));
      }
      if totalStart.Some? && totalStart.value != 0.0 {
        steps := Put(steps, "total", Millis(totalStart.value, now));
      }
      r := steps;
    }
  }
}
