# MACSum training harness — a Dafny model of `naacl/utils.py`

`naacl/utils.py` is a fine-tuning harness around an external pretrained-model
library. Most of it delegates to that library. This project models the logic
the file does itself:

- **`train`'s step scheduling** (`Training`). It derives `total_steps`,
  `effective_steps` and `len(dataloader)` from the configuration. It walks the
  micro-steps and restarts the batch iterator whenever
  `step % len(dataloader) == 0`. It accumulates `loss / accum` and applies an
  update at the end of each accumulation window or at the last micro-step.
  Each update passes `effective_step_cnt` to `get_lr`, logs and resets the
  accumulated loss, decides on checkpointing and evaluation, and keeps the
  best evaluation loss. `Training.MicroStep` is one iteration of the loop.
  `Training.Train` is the loop. It returns a `Run` trace: the batch consumed
  at each micro-step, one `Update` record per update, the final best loss and
  how the run ended. A run ends normally, with Python's `ZeroDivisionError`
  at `step % len(dataloader)` on an empty dataset, or with one inside
  `get_lr`.
- **`get_lr`** (`Schedule.GetLr`). The warmup ramp is modelled exactly over
  `real`. The decay branch is modelled up to its cosine: the model gives the
  `progress` it feeds to `math.cos`, and the division by zero when the decay
  phase has length zero.
- **The padding collator** returned by `collate_function` (`Padding`). It
  patches the tokenizer's pad token and right-pads each field with torch's
  `pad_sequence(batch_first=True)`. The pad values are the pad id (or the
  end-of-sequence id), 0 and -1.
- **The plain collator `collate_fn`** (`Collation`). It transposes a list of
  records into a record of lists.
- **`generate_text`'s result records** (`Generation`). Each record is built
  from six fixed fields, then every other field of the example is copied in
  without overwriting a fixed one. These records are collected into an
  index-keyed map. An example without `input_ids` fails before its record
  is built.

The model, optimizer, tokenizer decoding and `evaluate` are external. The
per-micro-step losses, the evaluation results, the generated token sequences
and the prompt lengths enter as inputs; decoding is a function parameter. `Wrappers` holds `Option` and `Result`.

`train` follows line 283 as written. `ceil(total_examples / batch_size)`
micro-batches hold the data, and line 283 runs `accum - 1` more. For
8 examples, 2 epochs, batch size 4 and accumulation 2, that is 5 micro-steps
where 4 hold the data. The model follows the code; see "## Findings".

## Model

| member | source | states |
|---|---|---|
| `Schedule.GetLr` | naacl/utils.py:145-150 | `get_lr` takes the ramp exactly when `it < num_warmup_steps` and that length is non-zero; it takes the decay exactly from `num_warmup_steps` on when the decay length is non-zero; it raises `ZeroDivisionError` in exactly the remaining cases; the decay's progress times the decay length is `it - num_warmup_steps` |
| `Schedule.WarmupStartsAtMin` | naacl/utils.py:145-146 | with a positive warmup length, `get_lr(0)` is `min_lr` |
| `Schedule.RampScaled` | naacl/utils.py:145-146 | for `0 <= it < W` the ramp is linear: `(lr - min_lr) * W == (max_lr - min_lr) * it` |
| `Schedule.WarmupMonotone` | naacl/utils.py:145-146 | when `min_lr <= max_lr` the warmup rate is non-decreasing in `it` |
| `Schedule.WarmupBounds` | naacl/utils.py:145-146 | during warmup the rate lies between the two bounds; it stays strictly below `max_lr` when `min_lr < max_lr` (and strictly above it when `max_lr < min_lr`) |
| `Schedule.WarmupInverse` | naacl/utils.py:146 | the ramp is invertible: `it == (lr - min_lr) * W / (max_lr - min_lr)` when the bounds differ |
| `Schedule.DecayEndpoints` | naacl/utils.py:150 | the decay's progress is 0 at `it == W`, 1 at `it == T` and above 1 after `T` |
| `Schedule.ZeroDivisionExactly` | naacl/utils.py:145-150 | for `it >= 0`, `get_lr` raises exactly when `it >= W` and `T == W` |
| `Padding.MaxLen` | naacl/utils.py:207-209 | the pad target is the length of some row and at least the length of every row (0 for no rows) |
| `Padding.PadSequence` | naacl/utils.py:207-209 | `pad_sequence` keeps the number and order of rows; every row gets the maximum length, keeps its original prefix, and holds the pad value after it |
| `Padding.PaddingUnique` | naacl/utils.py:207-209 | those properties determine the padded block: any block with them equals `PadSequence` |
| `Padding.PadIdempotent` | naacl/utils.py:207-209 | padding an already padded block changes nothing |
| `Padding.EnsurePadToken` | naacl/utils.py:203-204 | a defined pad id is kept; a missing one becomes the end-of-sequence id |
| `Padding.EnsurePadTokenIdempotent` | naacl/utils.py:203-204 | the pad-token patch applied twice is the patch applied once, so later calls see the patched tokenizer unchanged |
| `Padding.Column` | naacl/utils.py:198-200 | a field's list has one entry per example |
| `Padding.PadCollate` | naacl/utils.py:181-216 | the padding collator fails exactly when there is no pad or end-of-sequence id, or when the batch is empty; otherwise `input_ids` is padded with the pad id (or the end-of-sequence id), `attention_mask` with 0 and `labels` with -1, each to its own field's maximum; it leaves the tokenizer patched |
| `Padding.ThreeExampleBatch` | naacl/utils.py:198-209 | examples of lengths 3, 5 and 2 give a 3 x 5 block whose third row ends in three pad values: pad id, 0 and -1 by field |
| `Collation.Transpose` | naacl/utils.py:106-108 | an empty batch fails (`batch[0]`); an example that lacks a key of the first one fails; otherwise the keys are the first example's, and each key maps to one value per example, in example order |
| `Collation.Untranspose` | naacl/utils.py:108 | the inverse: equal-length columns give records that all have the columns' keys |
| `Collation.TransposeRoundTrip` | naacl/utils.py:106-108 | when all examples have the same keys, untransposing the result gives the batch back |
| `Collation.UntransposeRoundTrip` | naacl/utils.py:106-108 | transposing the records made from equal-length columns gives the columns back |
| `Collation.LaterKeysDropped` | naacl/utils.py:108 | a key that only a later example has is not in the result |
| `Generation.FirstMissing` | naacl/utils.py:87-94 | the first of `input`, `output`, `control_value`, `control_attribute` the example lacks, if any: the `KeyError` the record literal raises |
| `Generation.FixedFields` | naacl/utils.py:87-94 | the record literal has exactly the six fixed keys |
| `Generation.MergedRecord` | naacl/utils.py:87-99 | the finished record has the fixed keys and the example's keys. The fixed fields hold the generated text, the decoded output and the example's `input`, `output`, `control_value`, `control_attribute`. Every other field holds the example's value |
| `Generation.MergeRecord` | naacl/utils.py:87-99 | the copy loop over the example's keys yields `MergedRecord`, or the `KeyError` of the first missing required field |
| `Generation.GenerationIds` | naacl/utils.py:80 | `output[0, len(input_ids[0]):]` keeps the output's tokens after the prompt, in order, and is empty when the prompt is at least as long as the output |
| `Generation.GenerationIdsSplit` | naacl/utils.py:80-81 | when the output starts with the prompt, the prompt followed by the sliced generation is the whole output |
| `Generation.ExampleFailure` | naacl/utils.py:64-94 | an example stops the loop exactly when it lacks `input_ids` (the `KeyError` of line 80 comes first) or one of the four fields the record literal reads; the key reported is one the example lacks |
| `Generation.GenerateText` | naacl/utils.py:59-104 | the run fails exactly when some example has an `ExampleFailure`, and then reports the first such example's missing key. Otherwise the result is keyed `0..n-1`. Each record is `MergedRecord` of its example, with the decoding of the tokens after the prompt (`GenerationIds`) as the generated text and the decoding of the whole output as the full text |
| `Training.EffectiveBatchSize` | naacl/utils.py:281 | the examples per update: 0 exactly when the batch size or the accumulation count is 0, otherwise at least each of them |
| `Training.TotalSteps` | naacl/utils.py:283 | `total_steps` is the number of whole batches in `total_examples + effective_batch_size - 1` (floor division) |
| `Training.EffectiveSteps` | naacl/utils.py:284 | `effective_steps` is the number of whole accumulation windows in `total_steps` |
| `Training.IsUpdateStep` | naacl/utils.py:319 | the update condition of line 319 as written; `UpdateStepsExactly` characterizes the steps where it holds |
| `Training.BestSoFar` | naacl/utils.py:298-355 | `best_eval_loss` after a sequence of evaluations: at most 1e12, and after an evaluation at most that evaluation's loss |
| `Training.DueAsWritten` | naacl/utils.py:339-349 | the checkpoint and evaluation condition as written, on `effective_steps`; `DueEveryUpdateOrNever` states its consequence |
| `Training.BatchCount` | naacl/utils.py:273 | `len(dataloader)` is the fewest batches that hold the dataset, and is 0 exactly for an empty dataset |
| `Training.UpdateStep` | naacl/utils.py:319 | update `k` happens inside window `k`: `k * accum <= step < total_steps` |
| `Training.BatchAdvance` | naacl/utils.py:302-305 | the iterator is restarted exactly when it is fresh or used up, and otherwise the batch taken is number `step % len(dataloader)` |
| `Training.WindowAdvance` | naacl/utils.py:319 | within an accumulation window, `(step + 1) % accum == 0` exactly at its end; an update step is `UpdateStep(k)`, and the last one makes the count `NumUpdates` |
| `Training.InitialState` | naacl/utils.py:292-298 | the initial counters satisfy the loop invariant `StateInv` |
| `Training.MicroStep` | naacl/utils.py:300-362 | one iteration: the batch consumed is `step % len(dataloader)`; it updates exactly at update steps, recording `IsUpdate` for the current counter and adding one to the counter; it raises in `get_lr` exactly at the update whose counter is `max(W, 1)` when `W == effective_steps`; otherwise `StateInv` is kept |
| `Training.Train` | naacl/utils.py:280-362 | a run fails at `step % len(dataloader)` exactly for an empty dataset with a positive step count, and in `get_lr` exactly when `warmup_steps == effective_steps` on a non-empty run. Otherwise it runs `total_steps` micro-steps and `ceil(total_steps/accum)` updates and leaves `total_loss` at 0. Micro-step `s` consumes batch `s % len(dataloader)`. Update `k` happens at `UpdateStep(k)` and passes `it = k + 1` to `get_lr`. It logs the sum of `loss_i / accum` over its window. Its checkpoint and evaluation follow the conditions as written, and it writes a best checkpoint only on strict improvement. The final best loss is the running minimum from 1e12 |
| `Training.UpdateStepsExactly` | naacl/utils.py:319 | an update happens at micro-step `s` exactly when `(s+1) % accum == 0 or s == total_steps-1`, i.e. exactly when `s` is one of the `UpdateStep(k)` |
| `Training.UpdateStepsOrdered` | naacl/utils.py:319 | update steps increase, every update but the last ends a full window at `(k+1)*accum - 1`, and the last is the final micro-step |
| `Training.NumUpdatesVsEffective` | naacl/utils.py:284 | the run has `effective_steps` updates, plus one when `accum` does not divide `total_steps`, so `get_lr` can be called with `effective_steps + 1` |
| `Training.WindowLossSplit` | naacl/utils.py:313-314 | accumulated losses of adjacent windows add up |
| `Training.LoggedLossCoversRun` | naacl/utils.py:313-336 | the logged losses of the updates add up to `sum(loss_i / accum)` over all micro-steps: every micro-step's loss is logged once |
| `Training.BestSoFarIsMinimum` | naacl/utils.py:298 | `best_eval_loss` is at most 1e12, at most every evaluation loss, and equal to 1e12 or to one of them |
| `Training.BestSoFarNonIncreasing` | naacl/utils.py:354-355 | `best_eval_loss` never increases, and one evaluation changes it exactly when its loss is strictly smaller |
| `Training.SmallRunSchedule` | naacl/utils.py:281-284 | 8 examples, 2 epochs, batch 4, accumulation 2: 5 micro-steps, 2 effective steps, updates at micro-steps 1, 3 and 4, 2 batches per pass |
| `Training.TotalStepsEmpty` | naacl/utils.py:282-284 | an empty dataset still gives `accum - 1` micro-steps (so `train` raises when `accum > 1`); a non-empty one gives at least `accum` |
| `Findings.IntendedTotalSteps` | naacl/utils.py:283 | the corrected step count is the fewest batches holding every example of every epoch |
| `Findings.TotalStepsOvershoot` | naacl/utils.py:283 | as written, `total_steps` is always the corrected count plus `accum - 1` |
| `Findings.SmallRunOvershoot` | naacl/utils.py:281-284 | in the 8/2/4/2 run, 5 micro-steps run where 4 hold the data: the fifth takes batch 0 again, and 3 updates happen instead of 2 |
| `Findings.IntendedIsWholeEpochs` | naacl/utils.py:282-283 | when the batch size divides the dataset, the corrected count is exactly `num_epochs` passes over the dataloader |
| `Findings.DueEveryUpdateOrNever` | naacl/utils.py:339-349 | as written, in the update trace of a run (as `Train` returns it), every update writes a checkpoint or none does, and every update evaluates or none does |
| `Findings.CountDueIsQuotient` | naacl/utils.py:339-349 | with the corrected condition on `effective_step_cnt`, `u` updates checkpoint or evaluate `u // interval` times |
| `Findings.IntervalExamples` | naacl/utils.py:339-349 | interval 2: with `effective_steps` 4 the as-written condition holds, so the first update evaluates, which the corrected condition skips; with 5 it never holds, though updates 2 and 4 are due; of the first 4 (or 5) updates the corrected condition picks 2 |

## Left out

- The cosine value of `get_lr` (naacl/utils.py:153) is left out: it needs `math.cos` and `math.pi` on floats. `Schedule.GetLr` returns the `progress` that line 150 computes.
- Floating point: learning rates and losses are exact `real` values. There is no rounding, NaN or infinity; in particular a NaN evaluation loss never compares smaller.
- `warmup_steps = int(warmup_ratio * effective_steps)` (naacl/utils.py:285) is a float product. It enters `Training.RunInputs` as a given integer.
- The forward pass, `backward`, `clip_grad_norm_`, the optimizer's step and `zero_grad`, and setting the optimizer's learning rate are left out: they are external library calls. Each micro-step's loss is an input.
- `evaluate` (naacl/utils.py:375-427) is left out: it averages losses from the external model. The `j`-th call's result is `evalLosses[j]`.
- Checkpoint paths and writes are left out (filesystem I/O). The trace records whether a periodic checkpoint or a best checkpoint is written at each update. The final checkpoint, written unconditionally after a finished run, is not recorded.
- `Generation.GenerateText`: `model.generate` is external. Its first output sequence and the prompt length `len(input_ids[0])` of each example are inputs, and `tokenizer.decode` is a function parameter. The decoded prompt of line 84 is never used and is not modelled.
- Device selection and `.to(device)`, `model.train()`/`model.eval()`, gradient checkpointing, `print`, `tqdm`, `wandb.log` and the `timer` decorator are left out: they are external calls or logging side effects. 
- Exceptions raised inside the external calls are left out: the model has no way to raise them.
- `ValidConfig` requires positive `batch_size`, `gradient_accumulation_steps`, `logging_steps` and `eval_interval`. A zero makes Python fail in `DataLoader` or on a `//` or `%`. Those failures are not modelled.
- Python dictionaries keep insertion order; Dafny maps do not. The order of keys in `collate_fn`'s result and in the result records is not modelled.
- `Padding.Example` holds only the three fields the padding collator reads. Tensors are integer sequences, so dtype and device are not modelled.
- `Padding.PadCollate`: the `KeyError` that lines 198-200 raise for an example without `input_ids`, `attention_mask` or `labels` is not modelled, because `Padding.Example` always has all three fields. "Exactly" in its row covers only examples that have them.
- `Padding.PadCollate`: when neither a pad id nor an end-of-sequence id exists, torch refuses `padding_value=None`. The model reports this as one error, `NoPadValue`, and does not model which torch exception is raised.
- `batch_size` of `generate_text` is unused by the source and is not modelled.

## Findings

| source | as written | input that shows it | evidently intended | confidence | as-written member | corrected member |
|---|---|---|---|---|---|---|
| naacl/utils.py:283 | `(total_examples + effective_batch_size - 1) // batch_size`, which always equals ceil(total_examples / batch_size) + accum - 1 | 8 examples, 2 epochs, batch 4, accum 2: 5 micro-steps and 3 updates, where the data fill 4 batches and 2 windows | ceil(total_examples / batch_size) micro-batches | medium, not executed | `Findings.TotalStepsOvershoot` | `Findings.IntendedTotalSteps` |
| naacl/utils.py:339-349 | `effective_steps % logging_steps == 0` and `effective_steps % eval_interval == 0` test a constant of the run | `effective_steps` 4, `eval_interval` 2: evaluation after every update, the first included; `effective_steps` 5: never | test `effective_step_cnt`, so that a checkpoint or evaluation happens every `interval` updates | high, not executed | `Findings.DueEveryUpdateOrNever` | `Findings.CountDueIsQuotient` |

`Training.Train` keeps both behaviours as written, since it models the code. The corrected definitions and their proved properties are in `Findings`.
