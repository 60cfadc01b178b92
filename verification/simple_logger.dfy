/**
 The `Logger` metrics aggregator: two step counters, a loss buffer group and a
 metrics buffer group, driven by `log_train`, `log_val` and `end_val`.
 Log lines are returned as reports instead of being printed; clocks, the
 experiment-tracking client and image branches are not part of the state.
 */
module SimpleLogger {
  import opened Options
  import opened Dicts
  import opened Buffers

  /** The constructor's default reporting cadences. */
  const DefaultPrintFreq := 100
  const DefaultImageFreq := 1000

  /** Reporting cadences, fixed at construction. */
  datatype Config = Config(printFreq: int, imageFreq: int) {
    /** Both cadences are used as the right operand of `%`, which raises on zero. */
    predicate Valid()
    {
      printFreq != 0 && imageFreq != 0
    }
  }

  datatype Logger = Logger(cfg: Config, lossBuff: Buff, metricsBuff: Buff, trainIter: int, valIter: int)

  /** The numbers of one window flush: the batch counter and the windowed mean per name. */
  datatype Report = Report(batch: int, lossMeans: map<string, real>, metricMeans: map<string, real>)

  /** The outcome of one `log_train` or `log_val` call: the new state, whether the
      call announced the start of its phase, and the flush report if one was due. */
  datatype Step = Step(next: Logger, started: bool, report: Option<Report>)

  /** The outcome of `end_val`: the new state and the per-name phase means. */
  datatype Averages = Averages(next: Logger, lossMeans: map<string, real>, metricMeans: map<string, real>)

  /** The exception `end_val` raises when it divides by `val_iter - 1 == 0`. */
  datatype Error = ZeroDivision

  /** Counters start at one and stay positive; both groups keep their window sums equal to their lists' totals. */
  predicate Inv(s: Logger)
  {
    && s.trainIter >= 1
    && s.valIter >= 1
    && WindowConsistent(s.lossBuff)
    && WindowConsistent(s.metricsBuff)
  }

  /** `__init__`: the given cadences, empty groups, both counters at one. */
  function Init(printFreq: int, imageFreq: int): (s: Logger)
    ensures s.cfg == Config(printFreq, imageFreq)
    ensures Inv(s)
    ensures s.lossBuff == Empty && s.metricsBuff == Empty
    ensures s.trainIter == 1 && s.valIter == 1
  {
    Logger(Config(printFreq, imageFreq), Empty, Empty, 1, 1)
  }

  /** Dafny's `%` and Python's `%` disagree in sign for a negative divisor but agree on
      whether the remainder is zero, which is all the flush and image conditions ask. */
  predicate Due(counter: int, freq: int)
    requires freq != 0
  {
    counter % freq == 0
  }

  /** `log_train`: record each loss in the loss window, flush the window when the
      counter is a multiple of `print_freq`, then advance the training counter. */
  function LogTrain(s: Logger, losses: Dict): (r: Step)
    requires s.cfg.Valid()
    ensures r.next.cfg == s.cfg
    ensures r.next.trainIter == s.trainIter + 1 && r.next.valIter == s.valIter
    ensures r.next.metricsBuff == s.metricsBuff
    ensures r.next.lossBuff.sum == s.lossBuff.sum
    ensures r.started <==> s.trainIter == 1
    ensures r.report.Some? <==> s.trainIter % s.cfg.printFreq == 0
    ensures r.report.Some? ==>
              && r.report.value.batch == s.trainIter
              && r.report.value.metricMeans == map[]
              && r.next.lossBuff.values == map[]
              && r.next.lossBuff.sumlast == map[]
  {
    var recorded := Record(s.lossBuff, losses, false);
    RecordKeepsSum(s.lossBuff, losses);
    var flush := Due(s.trainIter, s.cfg.printFreq);
    Step(s.(lossBuff := if flush then ClearWindow(recorded) else recorded, trainIter := s.trainIter + 1),
         s.trainIter == 1,
         if flush then Some(Report(s.trainIter, WindowMeans(recorded, s.cfg.printFreq), map[])) else None)
  }

  /** `log_train` keeps the invariant. */
  lemma LogTrainKeepsInv(s: Logger, losses: Dict)
    requires s.cfg.Valid() && Inv(s)
    ensures Inv(LogTrain(s, losses).next)
  {
    RecordPreserves(s.lossBuff, losses, false);
  }

  /** What a `log_train` call does to the loss window: without a flush, each named list gains exactly
      this call's value and each window sum grows by it; with a flush, the reported mean of every name
      in the window is the total of its list, this call's value included, over `print_freq`. */
  lemma LogTrainWindow(s: Logger, losses: Dict)
    requires s.cfg.Valid() && Inv(s) && Distinct(losses)
    ensures var r := LogTrain(s, losses);
            var window := Extend(s.lossBuff.values, ToMap(losses));
            && (r.report.None? ==>
                  && r.next.lossBuff.values == window
                  && r.next.lossBuff.sumlast == Bump(s.lossBuff.sumlast, ToMap(losses)))
            && (r.report.Some? ==>
                  && r.report.value.lossMeans.Keys == window.Keys
                  && forall k :: k in window ==>
                       r.report.value.lossMeans[k] == Sum(window[k]) / s.cfg.printFreq as real)
  {
    var recorded := Record(s.lossBuff, losses, false);
    RecordMatchesReference(s.lossBuff, losses, false);
    RecordPreserves(s.lossBuff, losses, false);
    WindowMeansAreListTotals(recorded, s.cfg.printFreq);
  }

  /** `log_val`: at the first call of a phase drop the loss window (not the metric window); record each
      loss and metric in its window and its phase sum; flush both windows when the counter is a
      multiple of `print_freq`; then advance the validation counter. */
  function LogVal(s: Logger, losses: Dict, metrics: Dict): (r: Step)
    requires s.cfg.Valid()
    ensures r.next.cfg == s.cfg
    ensures r.next.valIter == s.valIter + 1 && r.next.trainIter == s.trainIter
    ensures r.started <==> s.valIter == 1
    ensures r.report.Some? <==> s.valIter % s.cfg.printFreq == 0
    ensures r.report.Some? ==>
              && r.report.value.batch == s.valIter
              && r.next.lossBuff.values == map[] && r.next.lossBuff.sumlast == map[]
              && r.next.metricsBuff.values == map[] && r.next.metricsBuff.sumlast == map[]
  {
    var start := s.valIter == 1;
    var lossBase := if start then ClearWindow(s.lossBuff) else s.lossBuff;
    var lossRec := Record(lossBase, losses, true);
    var metricRec := Record(s.metricsBuff, metrics, true);
    var flush := Due(s.valIter, s.cfg.printFreq);
    Step(s.(lossBuff := if flush then ClearWindow(lossRec) else lossRec,
            metricsBuff := if flush then ClearWindow(metricRec) else metricRec,
            valIter := s.valIter + 1),
         start,
         if flush
         then Some(Report(s.valIter, WindowMeans(lossRec, s.cfg.printFreq), WindowMeans(metricRec, s.cfg.printFreq)))
         else None)
  }

  /** `log_val` keeps the invariant. */
  lemma LogValKeepsInv(s: Logger, losses: Dict, metrics: Dict)
    requires s.cfg.Valid() && Inv(s)
    ensures Inv(LogVal(s, losses, metrics).next)
  {
    var lossBase := if s.valIter == 1 then ClearWindow(s.lossBuff) else s.lossBuff;
    RecordPreserves(lossBase, losses, true);
    RecordPreserves(s.metricsBuff, metrics, true);
  }

  /** Every value a `log_val` call receives lands in its phase sum, flush or not: each named
      phase sum grows by exactly this call's value and no other name changes. */
  lemma LogValPhaseSums(s: Logger, losses: Dict, metrics: Dict)
    requires s.cfg.Valid() && Distinct(losses) && Distinct(metrics)
    ensures LogVal(s, losses, metrics).next.lossBuff.sum == Bump(s.lossBuff.sum, ToMap(losses))
    ensures LogVal(s, losses, metrics).next.metricsBuff.sum == Bump(s.metricsBuff.sum, ToMap(metrics))
  {
    var lossBase := if s.valIter == 1 then ClearWindow(s.lossBuff) else s.lossBuff;
    RecordSum(lossBase, losses, true);
    RecordSum(s.metricsBuff, metrics, true);
  }

  /** What a `log_val` call does to the windows. The loss window starts from nothing at the first call
      of a phase and from the old window otherwise; the metric window always starts from the old one.
      Without a flush, each list gains exactly this call's value; with a flush, each reported mean is
      the total of its list, this call's value included, over `print_freq`. */
  lemma LogValWindows(s: Logger, losses: Dict, metrics: Dict)
    requires s.cfg.Valid() && Inv(s) && Distinct(losses) && Distinct(metrics)
    ensures var r := LogVal(s, losses, metrics);
            var lossWindow := Extend(if s.valIter == 1 then map[] else s.lossBuff.values, ToMap(losses));
            var metricWindow := Extend(s.metricsBuff.values, ToMap(metrics));
            && (r.report.None? ==>
                  && r.next.lossBuff.values == lossWindow
                  && r.next.lossBuff.sumlast == Bump(if s.valIter == 1 then map[] else s.lossBuff.sumlast, ToMap(losses))
                  && r.next.metricsBuff.values == metricWindow
                  && r.next.metricsBuff.sumlast == Bump(s.metricsBuff.sumlast, ToMap(metrics)))
            && (r.report.Some? ==>
                  && r.report.value.lossMeans.Keys == lossWindow.Keys
                  && r.report.value.metricMeans.Keys == metricWindow.Keys
                  && (forall k :: k in lossWindow ==>
                        r.report.value.lossMeans[k] == Sum(lossWindow[k]) / s.cfg.printFreq as real)
                  && (forall k :: k in metricWindow ==>
                        r.report.value.metricMeans[k] == Sum(metricWindow[k]) / s.cfg.printFreq as real))
  {
    var lossBase := if s.valIter == 1 then ClearWindow(s.lossBuff) else s.lossBuff;
    var lossRec := Record(lossBase, losses, true);
    var metricRec := Record(s.metricsBuff, metrics, true);
    RecordMatchesReference(lossBase, losses, true);
    RecordMatchesReference(s.metricsBuff, metrics, true);
    RecordPreserves(lossBase, losses, true);
    RecordPreserves(s.metricsBuff, metrics, true);
    WindowMeansAreListTotals(lossRec, s.cfg.printFreq);
    WindowMeansAreListTotals(metricRec, s.cfg.printFreq);
  }

  /** `end_val`: divide each phase sum by `val_iter - 1`, empty the metrics group, reset both counters.
      The loss group is left exactly as it was: its clear is named but never called. Division by
      zero happens only when `val_iter == 1` and some phase sum has an entry to divide. */
  function EndVal(s: Logger): (r: Result<Averages, Error>)
    ensures r.Failure? <==> s.valIter == 1 && (|s.lossBuff.sum| > 0 || |s.metricsBuff.sum| > 0)
    ensures r.Success? ==>
              && AveragedOver(r.value.lossMeans, s.lossBuff.sum, s.valIter - 1)
              && AveragedOver(r.value.metricMeans, s.metricsBuff.sum, s.valIter - 1)
    ensures r.Success? ==>
              && r.value.next.cfg == s.cfg
              && r.value.next.lossBuff == s.lossBuff
              && r.value.next.metricsBuff == Empty
              && r.value.next.trainIter == 1 && r.value.next.valIter == 1
  {
    var steps := s.valIter - 1;
    if steps == 0 && (|s.lossBuff.sum| > 0 || |s.metricsBuff.sum| > 0) then
      Failure(ZeroDivision)
    else
      Success(Averages(
        s.(metricsBuff := Empty, trainIter := 1, valIter := 1),
        MeansOf(s.lossBuff.sum, steps),
        MeansOf(s.metricsBuff.sum, steps)))
  }

  /** Each phase sum divided by the step count; a name's mean times the count gives back its sum. */
  function MeansOf(sum: map<string, real>, steps: int): (means: map<string, real>)
    requires steps != 0 || |sum| == 0
    ensures AveragedOver(means, sum, steps)
  {
    var means := map k | k in sum :: sum[k] / steps as real;
    assert forall k :: k in sum ==> means[k] * steps as real == sum[k] by {
      forall k | k in sum ensures means[k] * steps as real == sum[k] {
        assert steps != 0;
      }
    }
    means
  }

  /** The means cover the same names as the sums, and each mean times the step count gives back its sum. */
  predicate AveragedOver(means: map<string, real>, sum: map<string, real>, steps: int)
  {
    && means.Keys == sum.Keys
    && forall k :: k in sum ==> means[k] * steps as real == sum[k]
  }

  /** `end_val` keeps the invariant: the untouched loss group stays consistent, the emptied metrics group is. */
  lemma EndValKeepsInv(s: Logger)
    requires Inv(s) && EndVal(s).Success?
    ensures Inv(EndVal(s).value.next)
  {
  }
}
