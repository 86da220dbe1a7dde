/** The batch driver of the burst-based chain (`ost/s1/burst_batch.py`):
  * the rule that widens the number of concurrent units when each unit's
  * tool runs use few threads, and the dispatch of one unit per prepared
  * burst. */
module BurstBatch {
  import opened Errors

  /** `int(a / b)` for integers: true division truncated toward zero;
    * a zero divisor raises ZeroDivisionError. */
  function TruncDiv(a: int, b: int): (r: Result<int>)
    ensures r.Success? <==> b != 0
    ensures r.Failure? ==> r.error == ZeroDivisionError
    ensures b > 0 && a >= 0 ==> r == Success(a / b)
    ensures b != 0 ==> var q := r.value; (a >= 0) == (b > 0) || q <= 0
  {
    if b == 0 then Failure(ZeroDivisionError)
    else if (a >= 0) == (b > 0) then Success(Abs(a) / Abs(b))
    else Success(-(Abs(a) / Abs(b)))
  }

  function Abs(x: int): nat
  {
    if x >= 0 then x else -x
  }

  /** The worker-tuning rule: when a single unit is asked for and each
    * unit's tool runs use fewer threads than the host has CPUs, as many
    * units run side by side as fit, `int(cpus / gpt_max_workers)`;
    * otherwise the requested count stands. */
  function TuneWorkers(maxWorkers: int, gptMaxWorkers: int, cpus: nat): (r: Result<int>)
    ensures !(maxWorkers == 1 && gptMaxWorkers < cpus) ==> r == Success(maxWorkers)
    ensures maxWorkers == 1 && gptMaxWorkers < cpus ==> r == TruncDiv(cpus, gptMaxWorkers)
  {
    if maxWorkers == 1 && gptMaxWorkers < cpus then TruncDiv(cpus, gptMaxWorkers) else Success(maxWorkers)
  }

  /** In the widened case with at least one thread per unit, at least one
    * unit runs, the units together use no more threads than there are
    * CPUs, and one more unit would exceed them. */
  lemma TunedWorkersFit(gptMaxWorkers: int, cpus: nat)
    requires 1 <= gptMaxWorkers < cpus
    ensures TuneWorkers(1, gptMaxWorkers, cpus).Success?
    ensures var w := TuneWorkers(1, gptMaxWorkers, cpus).value;
      w >= 1 && w * gptMaxWorkers <= cpus < (w + 1) * gptMaxWorkers
  {
    var w := cpus / gptMaxWorkers;
    assert cpus == gptMaxWorkers * w + cpus % gptMaxWorkers;
  }

  /** A tool-thread setting of zero below the CPU count divides by zero. */
  lemma ZeroThreads(cpus: nat)
    requires cpus >= 1
    ensures TuneWorkers(1, 0, cpus) == Failure(ZeroDivisionError)
  {
  }

  /** The dispatch loop: one task per prepared burst, in row order; the
    * first failing task's exception propagates and ends the batch. */
  method Dispatch(rows: nat, run: nat -> Result<()>) returns (r: Result<()>)
    ensures r.Success? <==> forall i :: 0 <= i < rows ==> run(i).Success?
    ensures r.Failure? ==> exists i :: 0 <= i < rows && run(i) == r && forall j :: 0 <= j < i ==> run(j).Success?
  {
    var i := 0;
    while i < rows
      invariant 0 <= i <= rows
      invariant forall j :: 0 <= j < i ==> run(j).Success?
    {
      var result := run(i);
      if result.Failure? {
        return result;
      }
      i := i + 1;
    }
    return Success(());
  }

  /** `bursts_to_ards`: the worker count is tuned from the configuration's
    * `gpt_max_workers`, then every prepared burst is processed; the result
    * is the tuned worker count once every burst succeeded. */
  method BurstsToArds(rows: nat, gptMaxWorkers: int, maxWorkers: int, cpus: nat, run: nat -> Result<()>)
    returns (r: Result<int>)
    ensures TuneWorkers(maxWorkers, gptMaxWorkers, cpus).Failure? ==> r == Failure(TuneWorkers(maxWorkers, gptMaxWorkers, cpus).error)
    ensures r.Success? <==> TuneWorkers(maxWorkers, gptMaxWorkers, cpus).Success? && forall i :: 0 <= i < rows ==> run(i).Success?
    ensures r.Success? ==> r == TuneWorkers(maxWorkers, gptMaxWorkers, cpus)
  {
    var workers := TuneWorkers(maxWorkers, gptMaxWorkers, cpus);
    if workers.Failure? {
      return Failure(workers.error);
    }
    var done := Dispatch(rows, run);
    if done.Failure? {
      return Failure(done.error);
    }
    r := workers;
  }
}
