/** The step scheduling of `train` (naacl/utils.py:222-370): how many
    micro-steps run, which of them apply an optimizer update, which batch each
    one consumes, which step counter reaches the learning-rate schedule, what
    loss is logged, and how the best evaluation loss evolves.

    The model, optimizer and evaluation are external: the loss of each
    micro-step and the result of each evaluation enter as sequences. */
module Training {
  import opened Wrappers
  import opened Schedule

  /** The fields of `args` that the step scheduling reads. */
  datatype Config = Config(
    batchSize: nat,
    accumSteps: nat,     // gradient_accumulation_steps
    numEpochs: nat,
    loggingSteps: nat,
    evalInterval: nat,
    maxLr: real,
    minLr: real)

  /** Positive sizes and intervals. With a zero batch size or accumulation
      count Python fails in the DataLoader or at line 283 before any step;
      with a zero `logging_steps` or `eval_interval` it runs the first
      accumulation window and its update, then fails on the `%` of line 339
      or 349. */
  predicate ValidConfig(cfg: Config)
  {
    cfg.batchSize >= 1 && cfg.accumSteps >= 1 && cfg.loggingSteps >= 1 && cfg.evalInterval >= 1
  }

  /** `best_eval_loss = 1e12`. */
  const InitialBest: real := 1000000000000.0

  // ---------------------------------------------------------------------
  // Derived quantities, lines 281-284

  /** `effective_batch_size = batch_size * gradient_accumulation_steps`. */
  function EffectiveBatchSize(cfg: Config): (s: nat)
    ensures s == 0 <==> cfg.batchSize == 0 || cfg.accumSteps == 0
    ensures ValidConfig(cfg) ==> s >= cfg.batchSize && s >= cfg.accumSteps
  {
    cfg.batchSize * cfg.accumSteps
  }

  /** `total_steps = (total_examples + effective_batch_size - 1) // batch_size`. */
  function TotalSteps(cfg: Config, numExamples: nat): (t: nat)
    requires ValidConfig(cfg)
    ensures var n := numExamples * cfg.numEpochs + EffectiveBatchSize(cfg) - 1;
      t * cfg.batchSize <= n < t * cfg.batchSize + cfg.batchSize
  {
    var n := numExamples * cfg.numEpochs + EffectiveBatchSize(cfg) - 1;
    FloorDivBounds(n, cfg.batchSize);
    n / cfg.batchSize
  }

  /** `effective_steps = total_steps // gradient_accumulation_steps`. */
  function EffectiveSteps(cfg: Config, numExamples: nat): (e: nat)
    requires ValidConfig(cfg)
    ensures e * cfg.accumSteps <= TotalSteps(cfg, numExamples) < e * cfg.accumSteps + cfg.accumSteps
  {
    FloorDivBounds(TotalSteps(cfg, numExamples), cfg.accumSteps);
    TotalSteps(cfg, numExamples) / cfg.accumSteps
  }

  /** `len(dataloader)`: the number of batches of one pass over the dataset,
      the last one possibly short. */
  function BatchCount(numExamples: nat, batchSize: nat): (c: nat)
    requires batchSize >= 1
    ensures c == 0 <==> numExamples == 0
    ensures (c - 1) * batchSize < numExamples <= c * batchSize || c == 0
  {
    var c := (numExamples + batchSize - 1) / batchSize;
    CeilDivBounds(numExamples, batchSize);
    c
  }

  /** The condition of line 319: micro-step `s` applies an update. */
  predicate IsUpdateStep(s: nat, total: nat, accum: nat)
    requires accum >= 1
  {
    (s + 1) % accum == 0 || s == total - 1
  }

  /** How many updates a run of `total` micro-steps applies:
      ceil(total / accum). */
  function NumUpdates(total: nat, accum: nat): nat
    requires accum >= 1
  {
    (total + accum - 1) / accum
  }

  /** The micro-step at which update number `k` (counted from 0) happens. */
  function UpdateStep(k: nat, total: nat, accum: nat): (s: nat)
    requires accum >= 1
    requires k < NumUpdates(total, accum)
    ensures k * accum <= s < total
  {
    CeilDivBounds(total, accum);
    MulMono(k + 1, NumUpdates(total, accum), accum);
    if (k + 1) * accum <= total then (k + 1) * accum - 1 else total - 1
  }

  /** `sum(loss_i / accum for lo <= i < hi)`, accumulated in step order. */
  function WindowLoss(losses: seq<real>, lo: nat, hi: nat, accum: nat): real
    requires lo <= hi <= |losses|
    requires accum >= 1
    decreases hi - lo
  {
    if hi == lo then 0.0 else WindowLoss(losses, lo, hi - 1, accum) + losses[hi - 1] / accum as real
  }

  /** `best_eval_loss` after the evaluations `evals`: it starts at 1e12 and is
      replaced only by a strictly smaller evaluation loss (lines 354-355). */
  function BestSoFar(evals: seq<real>): (b: real)
    ensures b <= InitialBest
    ensures |evals| > 0 ==> b <= evals[|evals| - 1]
  {
    if |evals| == 0 then InitialBest
    else
      var previous := BestSoFar(evals[..|evals| - 1]);
      if evals[|evals| - 1] < previous then evals[|evals| - 1] else previous
  }

  /** The checkpoint and evaluation conditions of lines 339 and 349, as
      written: they test `effective_steps`, a constant of the run, and not the
      counter `effective_step_cnt`. */
  predicate DueAsWritten(effectiveSteps: nat, interval: nat)
    requires interval >= 1
  {
    effectiveSteps % interval == 0
  }

  // ---------------------------------------------------------------------
  // One run

  /** What one update step does, as the model observes it. */
  datatype Update = Update(
    step: nat,               // the micro-step `step`
    counter: nat,            // `effective_step_cnt`, the `it` passed to `get_lr`
    lr: LrValue,             // what `get_lr` returned
    loss: real,              // `total_loss` as logged
    checkpointed: bool,      // whether a periodic checkpoint was written
    evalLoss: Option<real>,  // the evaluation loss, when evaluation ran
    savedBest: bool)         // whether a best checkpoint was written

  datatype Outcome =
    | Finished
    | BatchModuloByZero   // `step % len(dataloader)` with an empty dataloader
    | LrZeroDivision      // `get_lr` divided by zero

  /** The trace of a run: the batch index consumed at each micro-step, the
      updates, the final best evaluation loss and what was left in
      `total_loss`. */
  datatype Run = Run(outcome: Outcome, batches: seq<nat>, updates: seq<Update>, bestEvalLoss: real, pendingLoss: real)

  /** What a run depends on besides the code: the configuration, the dataset
      size, `warmup_steps` (a float product in the source, taken as given),
      the model's loss at each micro-step, and what each call of `evaluate`
      returns, in call order. */
  datatype RunInputs = RunInputs(
    cfg: Config, numExamples: nat, warmup: int, losses: seq<real>, evalLosses: seq<real>)

  /** A loss for every micro-step, and an evaluation result for every update. */
  predicate ValidInputs(inp: RunInputs)
  {
    && ValidConfig(inp.cfg)
    && |inp.losses| >= TotalSteps(inp.cfg, inp.numExamples)
    && |inp.evalLosses| >= NumUpdates(TotalSteps(inp.cfg, inp.numExamples), inp.cfg.accumSteps)
  }

  /** `u` is what update number `k` (counted from 0) records. */
  ghost predicate IsUpdate(u: Update, k: nat, inp: RunInputs)
    requires ValidInputs(inp)
    requires k < NumUpdates(TotalSteps(inp.cfg, inp.numExamples), inp.cfg.accumSteps)
  {
    var cfg := inp.cfg;
    var total := TotalSteps(cfg, inp.numExamples);
    var effective := EffectiveSteps(cfg, inp.numExamples);
    var evaluated := DueAsWritten(effective, cfg.evalInterval);
    && u.step == UpdateStep(k, total, cfg.accumSteps)
    && u.counter == k + 1
    && u.lr == GetLr(k + 1, inp.warmup, effective, cfg.maxLr, cfg.minLr)
    && u.loss == WindowLoss(inp.losses, k * cfg.accumSteps, u.step + 1, cfg.accumSteps)
    && u.checkpointed == DueAsWritten(effective, cfg.loggingSteps)
    && u.evalLoss == (if evaluated then Some(inp.evalLosses[k]) else None)
    && u.savedBest == (evaluated && inp.evalLosses[k] < BestSoFar(inp.evalLosses[..k]))
  }

  /** The variables the loop of `train` updates. */
  datatype State = State(
    counter: nat,      // `effective_step_cnt`
    totalLoss: real,   // `total_loss`
    best: real,        // `best_eval_loss`
    evals: nat,        // calls of `evaluate` so far
    nextBatch: nat)    // position of `dataloader_iter` in the current pass

  /** The state before micro-step `step` (or after the last one), after
      `cycles` complete passes over the dataloader. */
  ghost predicate StateInv(inp: RunInputs, step: nat, st: State, cycles: nat)
    requires ValidInputs(inp)
  {
    var cfg := inp.cfg;
    var accum := cfg.accumSteps;
    var total := TotalSteps(cfg, inp.numExamples);
    var effective := EffectiveSteps(cfg, inp.numExamples);
    var count := BatchCount(inp.numExamples, cfg.batchSize);
    && step <= total
    && step == cycles * count + st.nextBatch
    && st.nextBatch <= count && (step > 0 ==> st.nextBatch > 0)
    && st.counter <= NumUpdates(total, accum)
    && (step == total ==> st.counter == NumUpdates(total, accum))
    && (step < total ==> st.counter * accum <= step < st.counter * accum + accum)
    && st.totalLoss == (if step == total then 0.0 else WindowLoss(inp.losses, st.counter * accum, step, accum))
    && st.evals == (if DueAsWritten(effective, cfg.evalInterval) then st.counter else 0)
    && st.best == BestSoFar(inp.evalLosses[..st.evals])
    && (inp.warmup == effective ==> st.counter < (if inp.warmup > 1 then inp.warmup else 1))
  }

  /** The state before the loop, lines 292-298. */
  lemma InitialState(inp: RunInputs)
    requires ValidInputs(inp)
    ensures StateInv(inp, 0, State(0, 0.0, InitialBest, 0, 0), 0)
  {
    var a := inp.cfg.accumSteps;
    DivModUnique(a - 1, a, 0, a - 1);
    TotalStepsEmpty(inp.cfg, inp.numExamples);
    assert inp.evalLosses[..0] == [];
  }

  /** One iteration of the loop of `train` (lines 300-362) on a non-empty
      dataloader: the batch consumed, the update applied if any, and whether
      `get_lr` raised. */
  method MicroStep(inp: RunInputs, step: nat, st: State, ghost cycles: nat)
    returns (next: State, batch: nat, update: Option<Update>, failed: bool, ghost cycles': nat)
    requires ValidInputs(inp) && inp.numExamples > 0
    requires step < TotalSteps(inp.cfg, inp.numExamples)
    requires StateInv(inp, step, st, cycles)
    ensures BatchCount(inp.numExamples, inp.cfg.batchSize) > 0
    ensures batch == step % BatchCount(inp.numExamples, inp.cfg.batchSize)
    ensures var total := TotalSteps(inp.cfg, inp.numExamples);
      && st.counter < NumUpdates(total, inp.cfg.accumSteps)
      && (failed <==>
            && IsUpdateStep(step, total, inp.cfg.accumSteps)
            && inp.warmup == EffectiveSteps(inp.cfg, inp.numExamples)
            && st.counter + 1 == (if inp.warmup > 1 then inp.warmup else 1))
      && (failed ==> UpdateStep(st.counter, total, inp.cfg.accumSteps) == step)
      && (!failed ==> StateInv(inp, step + 1, next, cycles'))
      && (!failed ==> (update.Some? <==> IsUpdateStep(step, total, inp.cfg.accumSteps)))
      && (!failed && update.Some? ==> next.counter == st.counter + 1 && IsUpdate(update.value, st.counter, inp))
      && (!failed && update.None? ==> next.counter == st.counter)
  {
    var cfg := inp.cfg;
    var accum := cfg.accumSteps;
    var total := TotalSteps(cfg, inp.numExamples);
    var effective := total / accum;
    var batchCount := BatchCount(inp.numExamples, cfg.batchSize);
    var nextBatch := st.nextBatch;
    cycles' := cycles;

    BatchAdvance(step, batchCount, cycles, nextBatch);
    if step % batchCount == 0 {
      // `dataloader_iter = iter(dataloader)`
      if nextBatch == batchCount {
        cycles' := cycles + 1;
      }
      nextBatch := 0;
    }
    batch := nextBatch;         // `next(dataloader_iter)` never runs dry
    nextBatch := nextBatch + 1;

    var totalLoss := st.totalLoss + inp.losses[step] / accum as real;
    var k := st.counter;
    WindowAdvance(step, total, accum, k);
    if (step + 1) % accum == 0 || step == total - 1 {
      var counter := k + 1;
      var lr := GetLr(counter, inp.warmup, effective, cfg.maxLr, cfg.minLr);
      ZeroDivisionExactly(counter, inp.warmup, effective, cfg.maxLr, cfg.minLr);
      if lr.ZeroDivision? {
        return st, batch, None, true, cycles';
      }
      var logged := totalLoss;
      var checkpointed := effective % cfg.loggingSteps == 0;
      var evalLoss := None;
      var best := st.best;
      var evals := st.evals;
      var savedBest := false;
      if effective % cfg.evalInterval == 0 {
        var e := inp.evalLosses[evals];
        assert inp.evalLosses[..evals + 1][..evals] == inp.evalLosses[..evals];
        evals := evals + 1;
        evalLoss := Some(e);
        if e < best {
          best := e;
          savedBest := true;
        }
      }
      update := Some(Update(step, counter, lr, logged, checkpointed, evalLoss, savedBest));
      next := State(counter, 0.0, best, evals, nextBatch);
    } else {
      update := None;
      next := State(k, totalLoss, st.best, st.evals, nextBatch);
    }
    failed := false;
  }

  /** The loop of `train`, lines 292-362. */
  method Train(inp: RunInputs) returns (run: Run)
    requires ValidInputs(inp)
    ensures var cfg := inp.cfg;
      var total := TotalSteps(cfg, inp.numExamples);
      && (run.outcome == BatchModuloByZero <==> inp.numExamples == 0 && total > 0)
      && (run.outcome == LrZeroDivision <==>
            inp.numExamples > 0 && total > 0 && inp.warmup == EffectiveSteps(cfg, inp.numExamples))
      && (run.outcome == BatchModuloByZero ==> run.batches == [] && run.updates == [])
      && (run.outcome == Finished ==>
            && |run.batches| == total
            && |run.updates| == NumUpdates(total, cfg.accumSteps)
            && run.pendingLoss == 0.0)
      && (run.outcome == LrZeroDivision ==>
            && |run.updates| == (if inp.warmup > 1 then inp.warmup else 1) - 1
            && |run.updates| < NumUpdates(total, cfg.accumSteps)
            && |run.batches| == UpdateStep(|run.updates|, total, cfg.accumSteps) + 1)
    ensures run.batches != [] ==> inp.numExamples > 0
    ensures forall s :: 0 <= s < |run.batches| ==>
              var count := BatchCount(inp.numExamples, inp.cfg.batchSize); count > 0 && run.batches[s] == s % count
    ensures |run.updates| <= NumUpdates(TotalSteps(inp.cfg, inp.numExamples), inp.cfg.accumSteps)
    ensures forall k :: 0 <= k < |run.updates| ==> IsUpdate(run.updates[k], k, inp)
    ensures run.bestEvalLoss == BestSoFar(
              if DueAsWritten(EffectiveSteps(inp.cfg, inp.numExamples), inp.cfg.evalInterval)
              then inp.evalLosses[..|run.updates|] else [])
  {
    var total := TotalSteps(inp.cfg, inp.numExamples);
    var st := State(0, 0.0, InitialBest, 0, 0);
    ghost var cycles := 0;
    InitialState(inp);
    var batches: seq<nat> := [];
    var updates: seq<Update> := [];

    for step := 0 to total
      invariant StateInv(inp, step, st, cycles)
      invariant step > 0 ==> inp.numExamples > 0
      invariant |batches| == step
      invariant forall s :: 0 <= s < step ==>
                  var count := BatchCount(inp.numExamples, inp.cfg.batchSize); count > 0 && batches[s] == s % count
      invariant |updates| == st.counter
      invariant forall k :: 0 <= k < st.counter ==> IsUpdate(updates[k], k, inp)
    {
      if BatchCount(inp.numExamples, inp.cfg.batchSize) == 0 {
        // `step % len(dataloader)` raises before the first batch
        return Run(BatchModuloByZero, [], [], st.best, st.totalLoss);
      }
      var next, batch, update, failed;
      next, batch, update, failed, cycles := MicroStep(inp, step, st, cycles);
      batches := batches + [batch];
      if failed {
        return Run(LrZeroDivision, batches, updates, st.best, st.totalLoss);
      }
      if update.Some? {
        updates := updates + [update.value];
      }
      st := next;
    }
    if inp.numExamples > 0 && total > 0 && inp.warmup == EffectiveSteps(inp.cfg, inp.numExamples) {
      NumUpdatesCoversEffective(total, inp.cfg.accumSteps);
    }
    return Run(Finished, batches, updates, st.best, st.totalLoss);
  }

  // ---------------------------------------------------------------------
  // Arithmetic used by the loop

  /** The batch iterator at micro-step `step`, after `cycles` full passes and
      `next` batches of the current one: `step % count == 0` exactly when the
      iterator is fresh or used up, and otherwise the next batch is number
      `step % count`. */
  lemma BatchAdvance(step: nat, count: nat, cycles: nat, next: nat)
    requires count >= 1
    requires step == cycles * count + next && next <= count && (step > 0 ==> next > 0)
    ensures step % count == 0 <==> next == 0 || next == count
    ensures step % count == 0 ==> step == (if next == count then cycles + 1 else cycles) * count
    ensures step % count != 0 ==> step % count == next
  {
    if next == count {
      DivModUnique(step, count, cycles + 1, 0);
    } else {
      DivModUnique(step, count, cycles, next);
    }
  }

  /** One micro-step inside the accumulation window that starts at
      `k * accum`: whether it closes the window, and where the next one is. */
  lemma WindowAdvance(step: nat, total: nat, accum: nat, k: nat)
    requires accum >= 1 && step < total
    requires k * accum <= step < k * accum + accum
    ensures k < NumUpdates(total, accum)
    ensures (step + 1) % accum == 0 <==> step + 1 == (k + 1) * accum
    ensures IsUpdateStep(step, total, accum) ==> UpdateStep(k, total, accum) == step
    ensures IsUpdateStep(step, total, accum) && step + 1 < total ==> (k + 1) * accum == step + 1
    ensures IsUpdateStep(step, total, accum) && step + 1 == total ==> k + 1 == NumUpdates(total, accum)
    ensures !IsUpdateStep(step, total, accum) ==> step + 1 < total && step + 1 < k * accum + accum
  {
    assert (k + 1) * accum == k * accum + accum;
    if step + 1 == (k + 1) * accum {
      DivModUnique(step + 1, accum, k + 1, 0);
    } else {
      DivModUnique(step + 1, accum, k, step + 1 - k * accum);
    }
    CeilDivChar(total, accum, k);
    CeilDivChar(total, accum, k + 1);
  }

  lemma FloorDivBounds(n: nat, d: nat)
    requires d >= 1
    ensures (n / d) * d <= n < (n / d) * d + d
  {
  }

  lemma MulReflect(x: nat, y: nat, c: nat)
    requires y * c < x * c
    ensures y < x
  {
    if x <= y {
      MulMono(x, y, c);
    }
  }

  lemma MulMono(a: nat, b: nat, c: nat)
    requires a <= b
    ensures a * c <= b * c
  {
  }

  /** The quotient and remainder of a division are unique. */
  lemma DivModUnique(n: nat, d: nat, q: nat, r: nat)
    requires d >= 1 && r < d && n == q * d + r
    ensures n / d == q && n % d == r
  {
    var q', r' := n / d, n % d;
    if q' > q {
      MulMono(q + 1, q', d);
    } else if q' < q {
      MulMono(q' + 1, q, d);
    }
  }

  /** `k` is below `ceil(n / d)` exactly when `k * d < n`. */
  lemma CeilDivChar(n: nat, d: nat, k: nat)
    requires d >= 1
    ensures k < (n + d - 1) / d <==> k * d < n
  {
    var c, r := (n + d - 1) / d, (n + d - 1) % d;
    assert n + d - 1 == c * d + r;
    if k < c {
      MulMono(k + 1, c, d);
    } else {
      MulMono(c, k, d);
    }
  }

  /** `(n + d - 1) / d` is the least `c` with `n <= c * d`. */
  lemma CeilDivBounds(n: nat, d: nat)
    requires d >= 1
    ensures var c := (n + d - 1) / d; n <= c * d && (c == 0 || (c - 1) * d < n)
    ensures (n + d - 1) / d == 0 <==> n == 0
  {
    var c := (n + d - 1) / d;
    CeilDivChar(n, d, c);
    CeilDivChar(n, d, 0);
    if c > 0 {
      CeilDivChar(n, d, c - 1);
    }
  }

  /** ceil(total / accum) is at least `total // accum`, and at least 1 for a
      non-empty run. */
  lemma NumUpdatesCoversEffective(total: nat, accum: nat)
    requires accum >= 1 && total >= 1
    ensures NumUpdates(total, accum) >= total / accum
    ensures NumUpdates(total, accum) >= 1
  {
    var e := total / accum;
    CeilDivChar(total, accum, 0);
    if e >= 1 {
      MulMono(e - 1, e, accum);
      CeilDivChar(total, accum, e - 1);
    }
  }

  /** With an empty dataset (or no epochs) the run still has
      `accum - 1` micro-steps; otherwise it has at least `accum`. */
  lemma TotalStepsEmpty(cfg: Config, numExamples: nat)
    requires ValidConfig(cfg)
    ensures numExamples * cfg.numEpochs == 0 ==> TotalSteps(cfg, numExamples) == cfg.accumSteps - 1
    ensures numExamples * cfg.numEpochs > 0 ==> TotalSteps(cfg, numExamples) >= cfg.accumSteps
  {
    var b, a := cfg.batchSize, cfg.accumSteps;
    var n := numExamples * cfg.numEpochs;
    assert b * a == (a - 1) * b + b;
    if n == 0 {
      DivModUnique(b * a - 1, b, a - 1, b - 1);
    } else {
      // n + b * a - 1 < (t + 1) * b with n >= 1 gives a * b < (t + 1) * b
      var t := TotalSteps(cfg, numExamples);
      assert t * b + b == (t + 1) * b;
      MulReflect(t + 1, a, b);
    }
  }

  // ---------------------------------------------------------------------
  // Properties of the schedule

  /** An update happens at micro-step `s` exactly when `s` is one of the
      update steps `UpdateStep(0), ..., UpdateStep(NumUpdates - 1)`. */
  lemma UpdateStepsExactly(s: nat, total: nat, accum: nat)
    requires accum >= 1 && s < total
    ensures IsUpdateStep(s, total, accum) <==>
            exists k :: 0 <= k < NumUpdates(total, accum) && UpdateStep(k, total, accum) == s
  {
    var q := s / accum;
    DivModUnique(s, accum, q, s % accum);
    WindowAdvance(s, total, accum, q);
    if k :| 0 <= k < NumUpdates(total, accum) && UpdateStep(k, total, accum) == s {
      if s != total - 1 {
        DivModUnique(s + 1, accum, k + 1, 0);
      }
    }
  }

  /** Update steps come in increasing order, one window of `accum`
      micro-steps apart, and the last one is the last micro-step. */
  lemma UpdateStepsOrdered(j: nat, k: nat, total: nat, accum: nat)
    requires accum >= 1 && j < k < NumUpdates(total, accum)
    ensures UpdateStep(j, total, accum) == (j + 1) * accum - 1
    ensures UpdateStep(j, total, accum) < UpdateStep(k, total, accum)
    ensures UpdateStep(NumUpdates(total, accum) - 1, total, accum) == total - 1
  {
    var n := NumUpdates(total, accum);
    CeilDivChar(total, accum, j + 1);
    CeilDivChar(total, accum, n);
    CeilDivChar(total, accum, n - 1);
    MulMono(j + 1, k, accum);
  }

  /** ceil(total / accum) updates: one more than `effective_steps` when
      `accum` does not divide `total_steps`, so the counter passed to
      `get_lr` can reach `effective_steps + 1`. */
  lemma NumUpdatesVsEffective(total: nat, accum: nat)
    requires accum >= 1
    ensures NumUpdates(total, accum) == total / accum + (if total % accum == 0 then 0 else 1)
  {
    var q, r := total / accum, total % accum;
    if r == 0 {
      DivModUnique(total + accum - 1, accum, q, accum - 1);
    } else {
      assert total + accum - 1 == (q + 1) * accum + (r - 1);
      DivModUnique(total + accum - 1, accum, q + 1, r - 1);
    }
  }

  /** Window sums add up over adjacent windows. */
  lemma {:induction false} WindowLossSplit(losses: seq<real>, lo: nat, mid: nat, hi: nat, accum: nat)
    requires lo <= mid <= hi <= |losses| && accum >= 1
    ensures WindowLoss(losses, lo, mid, accum) + WindowLoss(losses, mid, hi, accum) == WindowLoss(losses, lo, hi, accum)
    decreases hi - mid
  {
    if hi > mid {
      WindowLossSplit(losses, lo, mid, hi - 1, accum);
    }
  }

  /** The sum of the first `k` logged losses. */
  function LoggedSum(losses: seq<real>, total: nat, accum: nat, k: nat): real
    requires accum >= 1 && total <= |losses| && k <= NumUpdates(total, accum)
  {
    if k == 0 then 0.0
    else
      LoggedSum(losses, total, accum, k - 1)
      + WindowLoss(losses, (k - 1) * accum, UpdateStep(k - 1, total, accum) + 1, accum)
  }

  /** Every micro-step's scaled loss is logged exactly once: the windows of
      the updates tile the run, so the logged losses add up to
      `sum(loss_i / accum)` over all micro-steps. */
  lemma {:induction false} LoggedLossCoversRun(losses: seq<real>, total: nat, accum: nat, k: nat)
    requires accum >= 1 && total <= |losses| && k <= NumUpdates(total, accum)
    ensures k > 0 ==> LoggedSum(losses, total, accum, k) == WindowLoss(losses, 0, UpdateStep(k - 1, total, accum) + 1, accum)
    ensures k == NumUpdates(total, accum) ==> LoggedSum(losses, total, accum, k) == WindowLoss(losses, 0, total, accum)
  {
    if k > 0 {
      if k > 1 {
        LoggedLossCoversRun(losses, total, accum, k - 1);
        UpdateStepsOrdered(k - 2, k - 1, total, accum);
        assert UpdateStep(k - 2, total, accum) + 1 == (k - 1) * accum;
        WindowLossSplit(losses, 0, (k - 1) * accum, UpdateStep(k - 1, total, accum) + 1, accum);
      }
      if k == NumUpdates(total, accum) {
        CeilDivChar(total, accum, k - 1);
        CeilDivChar(total, accum, k);
        assert UpdateStep(k - 1, total, accum) == total - 1;
      }
    } else if k == NumUpdates(total, accum) {
      CeilDivChar(total, accum, 0);
    }
  }

  /** `best_eval_loss` is the least of 1e12 and the evaluation losses so far. */
  lemma {:induction false} BestSoFarIsMinimum(evals: seq<real>)
    ensures BestSoFar(evals) <= InitialBest
    ensures forall i :: 0 <= i < |evals| ==> BestSoFar(evals) <= evals[i]
    ensures BestSoFar(evals) == InitialBest || BestSoFar(evals) in evals
  {
    if |evals| > 0 {
      var init := evals[..|evals| - 1];
      BestSoFarIsMinimum(init);
      assert forall i :: 0 <= i < |init| ==> evals[i] == init[i];
    }
  }

  /** `best_eval_loss` never increases, and it changes exactly when an
      evaluation loss is strictly smaller. */
  lemma {:induction false} BestSoFarNonIncreasing(evals: seq<real>, i: nat, j: nat)
    requires i <= j <= |evals|
    ensures BestSoFar(evals[..j]) <= BestSoFar(evals[..i])
    ensures j == i + 1 ==> (BestSoFar(evals[..j]) != BestSoFar(evals[..i]) <==> evals[i] < BestSoFar(evals[..i]))
    decreases j - i
  {
    if i < j {
      BestSoFarNonIncreasing(evals, i, j - 1);
      assert evals[..j][..j - 1] == evals[..j - 1];
    }
  }

  /** 8 examples, 2 epochs, batches of 4 and accumulation 2: 5 micro-steps,
      2 effective steps, and 3 updates, at micro-steps 1, 3 and 4. */
  lemma SmallRunSchedule(maxLr: real, minLr: real)
    ensures var cfg := Config(4, 2, 2, 1, 1, maxLr, minLr);
      && TotalSteps(cfg, 8) == 5
      && EffectiveSteps(cfg, 8) == 2
      && NumUpdates(5, 2) == 3
      && UpdateStep(0, 5, 2) == 1 && UpdateStep(1, 5, 2) == 3 && UpdateStep(2, 5, 2) == 4
      && BatchCount(8, 4) == 2
  {
  }
}
