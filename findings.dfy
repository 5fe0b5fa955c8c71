/** Two places where `train` (naacl/utils.py) computes something other than
    what its comments and the surrounding code evidently intend. Each has the code as written,
    a lemma that exhibits the difference, and the corrected definition with
    the property it was meant to have. `Training.Train` keeps the behaviour
    as written. */
module Findings {
  import opened Training

  // ---------------------------------------------------------------------
  // total_steps (naacl/utils.py:283)

  /** The number of micro-batches needed to cover `total_examples`:
      ceil(total_examples / batch_size), the fewest batches that hold every
      example of every epoch. */
  function IntendedTotalSteps(cfg: Config, numExamples: nat): (r: nat)
    requires ValidConfig(cfg)
    ensures numExamples * cfg.numEpochs <= r * cfg.batchSize
    ensures r == 0 || (r - 1) * cfg.batchSize < numExamples * cfg.numEpochs
  {
    CeilDivBounds(numExamples * cfg.numEpochs, cfg.batchSize);
    (numExamples * cfg.numEpochs + cfg.batchSize - 1) / cfg.batchSize
  }

  /** As written, `total_steps` rounds with the effective batch size but
      divides by the batch size, so it always runs `accum - 1` micro-steps
      more than the examples need. */
  lemma {:induction false} TotalStepsOvershoot(cfg: Config, numExamples: nat)
    requires ValidConfig(cfg)
    ensures TotalSteps(cfg, numExamples) == IntendedTotalSteps(cfg, numExamples) + cfg.accumSteps - 1
  {
    var b, a := cfg.batchSize, cfg.accumSteps;
    var n := numExamples * cfg.numEpochs;
    var q, r := (n + b - 1) / b, (n + b - 1) % b;
    assert n + b * a - 1 == (q + a - 1) * b + r;
    DivModUnique(n + b * a - 1, b, q + a - 1, r);
  }

  /** 8 examples, 2 epochs, batches of 4, accumulation 2: the examples fill 4
      batches, but 5 micro-steps run, the fifth takes batch 0 a third time,
      and 3 updates happen instead of 2. */
  lemma SmallRunOvershoot(maxLr: real, minLr: real)
    ensures var cfg := Config(4, 2, 2, 1, 1, maxLr, minLr);
      && IntendedTotalSteps(cfg, 8) == 4
      && TotalSteps(cfg, 8) == 5
      && 4 % BatchCount(8, 4) == 0
      && NumUpdates(IntendedTotalSteps(cfg, 8), 2) == 2
      && NumUpdates(TotalSteps(cfg, 8), 2) == 3
  {
    TotalStepsOvershoot(Config(4, 2, 2, 1, 1, maxLr, minLr), 8);
  }

  /** When the batch size divides the dataset, the intended count is exactly
      `num_epochs` passes over the dataloader. */
  lemma IntendedIsWholeEpochs(cfg: Config, numExamples: nat)
    requires ValidConfig(cfg) && numExamples % cfg.batchSize == 0
    ensures IntendedTotalSteps(cfg, numExamples) == cfg.numEpochs * BatchCount(numExamples, cfg.batchSize)
  {
    var b := cfg.batchSize;
    var c := numExamples / b;
    assert numExamples == c * b;
    DivModUnique(numExamples + b - 1, b, c, b - 1);
    assert numExamples * cfg.numEpochs + b - 1 == (cfg.numEpochs * c) * b + (b - 1);
    DivModUnique(numExamples * cfg.numEpochs + b - 1, b, cfg.numEpochs * c, b - 1);
  }

  // ---------------------------------------------------------------------
  // Checkpoint and evaluation intervals (naacl/utils.py:339, 349)

  /** As written, the conditions test `effective_steps`, which is the same at
      every update: in the trace of a run, every update writes a checkpoint or
      none does, and every update evaluates or none does. */
  lemma DueEveryUpdateOrNever(inp: RunInputs, updates: seq<Update>)
    requires ValidInputs(inp)
    requires |updates| <= NumUpdates(TotalSteps(inp.cfg, inp.numExamples), inp.cfg.accumSteps)
    requires forall k :: 0 <= k < |updates| ==> IsUpdate(updates[k], k, inp)
    ensures (forall k :: 0 <= k < |updates| ==> updates[k].checkpointed)
            || (forall k :: 0 <= k < |updates| ==> !updates[k].checkpointed)
    ensures (forall k :: 0 <= k < |updates| ==> updates[k].evalLoss.Some?)
            || (forall k :: 0 <= k < |updates| ==> updates[k].evalLoss.None?)
  {
  }

  /** The corrected condition: update number `counter` is due when the
      counter is a multiple of the interval. */
  predicate DueIntended(counter: nat, interval: nat)
    requires interval >= 1
  {
    counter % interval == 0
  }

  /** How many of the updates `1..updates` are due. */
  function CountDue(updates: nat, interval: nat): nat
    requires interval >= 1
  {
    if updates == 0 then 0
    else CountDue(updates - 1, interval) + (if DueIntended(updates, interval) then 1 else 0)
  }

  /** With the corrected condition, a run of `updates` updates checkpoints
      (or evaluates) `updates // interval` times, once per interval. */
  lemma {:induction false} CountDueIsQuotient(updates: nat, interval: nat)
    requires interval >= 1
    ensures CountDue(updates, interval) == updates / interval
  {
    if updates > 0 {
      CountDueIsQuotient(updates - 1, interval);
      var q, r := (updates - 1) / interval, (updates - 1) % interval;
      if r + 1 == interval {
        DivModUnique(updates, interval, q + 1, 0);
      } else {
        DivModUnique(updates, interval, q, r + 1);
      }
    }
  }

  /** A run whose `effective_steps` is 4 with an interval of 2: as written it
      evaluates at the first update, which the corrected condition skips;
      with 5 effective steps it never evaluates, though updates 2 and 4 are
      due. Of the first 4 (or 5) updates the corrected condition picks 2. */
  lemma IntervalExamples()
    ensures DueAsWritten(4, 2) && !DueIntended(1, 2)
    ensures !DueAsWritten(5, 2) && DueIntended(2, 2) && DueIntended(4, 2)
    ensures CountDue(4, 2) == 2 && CountDue(5, 2) == 2
  {
    CountDueIsQuotient(4, 2);
    CountDueIsQuotient(5, 2);
  }
}
