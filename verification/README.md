# Logger metrics aggregator, modelled in Dafny

This project models the `Logger` class of `src/logger/simple.py`. The class is the
metrics aggregator of a StyleGAN text-style-transfer training run. It holds:

- two step counters, `train_iter` and `val_iter`, that both start at 1;
- two buffer groups, `loss_buff` and `metrics_buff`. Each group holds three
  `defaultdict`s keyed by name: `values` is the list of values seen since the last
  window flush, `sumlast` is their running sum, and `sum` is the sum over the
  whole validation phase.

It has three transitions:

- `log_train` records losses in the loss window.
- `log_val` records losses and metrics in their windows and phase sums. At the
  first call of a phase it drops the loss window.
- `end_val` returns the per-name phase means and resets the counters.

`log_train` and `log_val` flush their windows when the pre-increment counter is
a multiple of `print_freq`. The windowed mean always divides by `print_freq`.

The model is functional. `SimpleLogger.Logger` is an immutable record, and
`LogTrain`, `LogVal` and `EndVal` are pure functions that return the next state
together with the numbers the source writes to its log.

Modules, one file each:

- `Options` (`options.dfy`): `Option` and `Result`.
- `Dicts` (`dicts.dfy`): a Python dict's items as `seq<(string, real)>`;
  `defaultdict` reads (`Get`); the per-name reference updates `Bump` and
  `Extend`; and `Sum`.
- `Buffers` (`buffers.dfy`): one buffer group. `Record` is the source's loop over
  a dict's items, one item at a time. `RecordMatchesReference` ties it to the
  per-name reference update.
- `SimpleLogger` (`simple_logger.dfy`): the state, `Init`, `LogTrain`, `LogVal`,
  `EndVal`, the invariant and the lemmas about single calls.
- `Phases` (`phases.dfy`): runs of calls, and what `end_val` returns after a
  whole validation phase and after two epochs.
- `Scenarios` (`scenarios.dfy`): concrete runs.

Behaviour of the code that the model keeps:

- `end_val` never clears the loss group. Line 114 names `clear` but does not call
  it. Loss `values`, `sumlast` and `sum` survive into the next epoch.
  - The next validation phase's loss means include every earlier phase's losses
    (`Phases.TwoEpochs`, `Scenarios.LossSumsCarryOver`).
  - A validation loss left in the window shows up in the next training report
    (`Scenarios.ValidationLossLeaksIntoTraining`).
- At `val_iter == 1`, `log_val` clears only the loss window. It clears no phase
  sum and no part of the metrics group.
- `end_val` divides by `val_iter - 1`. After n `log_val` calls from a counter of 1
  the divisor is n, so losses 2.0 and 4.0 give a phase mean of 3.0
  (`Scenarios.ValMeanOverCalls`).
- `end_val` raises `ZeroDivisionError` only when `val_iter == 1` and some phase sum
  has an entry. It loops over the sums' names, so empty sums divide nothing. The
  model returns `Failure(ZeroDivision)` in exactly that case; it has no
  precondition.
- The flush condition reads the counter before the increment at the end of the
  call, so it fires on the `print_freq`-th, `2*print_freq`-th, ... call.

## Model

| member | source | states |
|---|---|---|
| SimpleLogger.Init | src/logger/simple.py:11-24 | A new logger keeps the `print_freq` and `image_freq` it was given, has empty `values`, `sumlast` and `sum` in both groups and both counters at 1, and satisfies the invariant `Inv` |
| SimpleLogger.LogTrain | src/logger/simple.py:27-55 | `train_iter` rises by exactly one and `val_iter` is unchanged; the metrics group and the loss phase sums are untouched; the "started" marker fires iff `train_iter == 1`; a report is emitted iff the pre-increment counter is divisible by `print_freq`, and then it carries that counter and the loss window is empty afterwards |
| SimpleLogger.LogTrainKeepsInv | src/logger/simple.py:33-36 | Appending to `values` and adding to `sumlast` together keeps, for both groups, the same names in `sumlast` as in `values` and each `sumlast` equal to its list's total |
| SimpleLogger.LogTrainWindow | src/logger/simple.py:33-49 | Without a flush, each named loss list gains exactly this call's value and its window sum grows by it, and other names are unchanged; with a flush, the reported mean of every name in the window is its list's total, this call included, divided by `print_freq` |
| SimpleLogger.LogVal | src/logger/simple.py:57-97 | `val_iter` rises by exactly one and `train_iter` is unchanged; "started" iff `val_iter == 1`; a report iff the pre-increment counter is divisible by `print_freq`, and then both windows are empty afterwards |
| SimpleLogger.LogValKeepsInv | src/logger/simple.py:60-90 | The phase-start clear, the recording and the flush all keep `sumlast` equal to the totals of `values`, name by name, in both groups |
| SimpleLogger.LogValPhaseSums | src/logger/simple.py:66-76 | Each supplied loss and metric is added to its phase sum whether or not the window flushes; no other name's phase sum changes |
| SimpleLogger.LogValWindows | src/logger/simple.py:60-90 | At `val_iter == 1` the loss window restarts from nothing while the metric window keeps its old contents; without a flush each list gains exactly this call's value; with a flush each reported loss and metric mean is its list's total over `print_freq` |
| SimpleLogger.EndVal | src/logger/simple.py:99-121 | Fails with a zero division iff `val_iter == 1` and some phase sum has an entry; otherwise returns means over exactly the names of each phase sum, each mean times `val_iter - 1` giving back its sum; the metrics group is emptied, the loss group is left exactly as it was, and both counters are 1 |
| SimpleLogger.MeansOf | src/logger/simple.py:102-111 | The phase means cover the names of the sums, and each mean times the divisor gives back its sum |
| SimpleLogger.EndValKeepsInv | src/logger/simple.py:113-119 | After a successful `end_val` the invariant still holds |
| Buffers.ObservePreserves | src/logger/simple.py:35-36 | Appending a value to a name's list and adding it to the name's window sum keeps the window sums equal to the lists' totals |
| Buffers.RecordPreserves | src/logger/simple.py:34-36 | The loop over a dict's items keeps the window sums equal to the lists' totals, for any dict |
| Buffers.RecordKeepsSum | src/logger/simple.py:33-37 | The training loop never changes the phase sums |
| Buffers.RecordMatchesReference | src/logger/simple.py:66-76 | For a dict with distinct names, the item-by-item loop equals the per-name update: each named list gains exactly its value, each named window (and, in validation, phase) sum grows by it, and all other names are unchanged |
| Buffers.WindowMeansAreListTotals | src/logger/simple.py:43-45 | Under the invariant, the reported windowed mean of each name is its list's total over `print_freq`, whatever the number of observations |
| Phases.RunTrain | src/logger/simple.py:27-55 | n training calls raise `train_iter` by n, leave `val_iter`, the loss phase sums and the whole metrics group unchanged |
| Phases.RunVal | src/logger/simple.py:57-97 | n validation calls raise `val_iter` by n and leave `train_iter` unchanged |
| Phases.RunValSums | src/logger/simple.py:66-76 | After a run of validation calls, each phase sum is its starting value plus the total of every value recorded under that name during the run |
| Phases.PhaseMeans | src/logger/simple.py:102-111 | After n >= 1 validation calls from a counter of 1, `end_val` succeeds, and each mean times n is the starting phase sum plus everything recorded under the name in the phase |
| Phases.TwoEpochs | src/logger/simple.py:113-119 | After two epochs from a fresh logger, each metric mean covers only the second phase, and each loss mean carries the losses of both phases, because line 114 never clears the loss sums |
| Scenarios.TrainFlushAtSecondCall | src/logger/simple.py:39-49 | With `print_freq` 2 and losses 1.0 then 3.0, only the second call flushes, and it reports 2.0 for batch 2 |
| Scenarios.ValMeanOverCalls | src/logger/simple.py:97-106 | Two validation calls with losses 2.0 and 4.0 give `val_iter == 3` and a phase mean of 3.0 |
| Scenarios.LossSumsCarryOver | src/logger/simple.py:113-114 | A second phase of one call with loss 1.0, after the phase above, reports 7.0 |
| Scenarios.SecondEndValDividesByZero | src/logger/simple.py:102-106 | A second `end_val` straight after a successful one divides by zero, because the loss sums survive |
| Scenarios.ValidationLossLeaksIntoTraining | src/logger/simple.py:113-114 | A validation loss left in the window is averaged into the next training report |
| Scenarios.EndValOnFreshLogger | src/logger/simple.py:102-111 | With no sums, `end_val` at `val_iter == 1` succeeds and returns empty means |

## Left out

- Log output (`logger.info`) and its text. The numbers it prints are returned as `Report` values and `started` flags.
- Wall-clock timing (`start_time`, `end_time`, and the duration line, which subtracts `end_time` from itself).
- The experiment-tracking client (`wandb.init`, `wandb.log`). It is an external network service, and the model keeps no state for it.
- The `tb_path` and `project_name` constructor arguments. `tb_path` is stored and never read; `project_name` is passed only to the tracking client.
- Image arguments and the `image_freq` branches. They are `pass`; only the modulo by `image_freq` remains, as the requirement that it be nonzero.
- Float rounding. Values are `real`, so sums are exact.
- `None` passed for `losses` or `metrics`. It behaves like an empty dict, so the model takes a possibly empty sequence of items.
- SimpleLogger.LogTrain: with a zero `print_freq` or `image_freq` the source raises `ZeroDivisionError` at its modulo; the model requires both nonzero (`Config.Valid`) instead of modelling that error.
- SimpleLogger.LogVal: same as `LogTrain` for a zero `print_freq` or `image_freq`.
- src/config/stylegan.py: device choice, dataset download, data loaders, model and optimizer construction, and trainer wiring. These are glue over deep-learning library code that is not part of this model.
