/**
 Concrete runs of the logger that pin down the cadence, the denominators and
 the loss sums that `end_val` leaves behind.
 */
module Scenarios {
  import opened Options
  import opened SimpleLogger

  /** With `print_freq == 2`, losses 1.0 then 3.0: the second call flushes and reports (1.0 + 3.0) / 2. */
  lemma TrainFlushAtSecondCall()
    ensures var r1 := LogTrain(Init(2, DefaultImageFreq), [("a", 1.0)]);
            var r2 := LogTrain(r1.next, [("a", 3.0)]);
            && r1.started && r1.report.None?
            && !r2.started
            && r2.report == Some(Report(2, map["a" := 2.0], map[]))
            && r2.next.lossBuff.values == map[]
            && r2.next.trainIter == 3
  {
    var r1 := LogTrain(Init(2, DefaultImageFreq), [("a", 1.0)]);
    assert r1.next.lossBuff.sumlast == map["a" := 1.0];
    var r2 := LogTrain(r1.next, [("a", 3.0)]);
    assert r2.report.value.lossMeans == map["a" := 2.0];
  }

  /** Two validation calls with losses 2.0 and 4.0: `end_val` divides by `val_iter - 1`, which is the
      number of calls, so the mean is 3.0. */
  lemma ValMeanOverCalls()
    ensures var s := Init(DefaultPrintFreq, DefaultImageFreq);
            var v1 := LogVal(s, [("l", 2.0)], []);
            var v2 := LogVal(v1.next, [("l", 4.0)], []);
            var e := EndVal(v2.next);
            && v2.next.valIter == 3
            && e.Success?
            && e.value.lossMeans == map["l" := 3.0]
            && e.value.metricMeans == map[]
  {
    var s := Init(DefaultPrintFreq, DefaultImageFreq);
    var v1 := LogVal(s, [("l", 2.0)], []);
    assert v1.next.lossBuff.sum == map["l" := 2.0];
    var v2 := LogVal(v1.next, [("l", 4.0)], []);
    assert v2.next.lossBuff.sum == map["l" := 6.0];
    assert v2.next.metricsBuff == Buffers.Empty;
    var e := EndVal(v2.next);
    assert e.value.lossMeans == map["l" := 3.0];
  }

  /** The loss phase sums survive `end_val`: a second phase of one call with loss 1.0 reports 6.0 + 1.0. */
  lemma LossSumsCarryOver()
    ensures var s := Init(DefaultPrintFreq, DefaultImageFreq);
            var v1 := LogVal(s, [("l", 2.0)], []);
            var v2 := LogVal(v1.next, [("l", 4.0)], []);
            var e1 := EndVal(v2.next);
            && e1.Success?
            && var v3 := LogVal(e1.value.next, [("l", 1.0)], []);
            && v3.started
            && EndVal(v3.next).Success?
            && EndVal(v3.next).value.lossMeans == map["l" := 7.0]
  {
    var s := Init(DefaultPrintFreq, DefaultImageFreq);
    var v1 := LogVal(s, [("l", 2.0)], []);
    assert v1.next.lossBuff.sum == map["l" := 2.0];
    var v2 := LogVal(v1.next, [("l", 4.0)], []);
    assert v2.next.lossBuff.sum == map["l" := 6.0];
    var e1 := EndVal(v2.next);
    var v3 := LogVal(e1.value.next, [("l", 1.0)], []);
    assert v3.next.lossBuff.sum == map["l" := 7.0];
    var e2 := EndVal(v3.next);
    assert e2.value.lossMeans == map["l" := 7.0];
  }

  /** Because the loss sums survive, a second `end_val` straight after the first divides by zero. */
  lemma SecondEndValDividesByZero()
    ensures var v1 := LogVal(Init(DefaultPrintFreq, DefaultImageFreq), [("l", 2.0)], []);
            var e1 := EndVal(v1.next);
            && e1.Success?
            && EndVal(e1.value.next) == Failure(ZeroDivision)
  {
    var v1 := LogVal(Init(DefaultPrintFreq, DefaultImageFreq), [("l", 2.0)], []);
    assert v1.next.lossBuff.sum == map["l" := 2.0];
  }

  /** The loss window survives `end_val` too: a validation loss left in the window is averaged into
      the next training report, under its own name. */
  lemma ValidationLossLeaksIntoTraining()
    ensures var v1 := LogVal(Init(2, DefaultImageFreq), [("l", 2.0)], []);
            var e := EndVal(v1.next);
            && e.Success?
            && var t1 := LogTrain(e.value.next, [("a", 1.0)]);
            && var t2 := LogTrain(t1.next, [("a", 3.0)]);
            && t2.report == Some(Report(2, map["a" := 2.0, "l" := 1.0], map[]))
  {
    var v1 := LogVal(Init(2, DefaultImageFreq), [("l", 2.0)], []);
    assert v1.report.None?;
    assert v1.next.lossBuff.sumlast == map["l" := 2.0];
    var e := EndVal(v1.next);
    var t1 := LogTrain(e.value.next, [("a", 1.0)]);
    assert t1.next.lossBuff.sumlast == map["l" := 2.0, "a" := 1.0];
    var t2 := LogTrain(t1.next, [("a", 3.0)]);
    assert t2.report.value.lossMeans == map["a" := 2.0, "l" := 1.0];
  }

  /** With nothing recorded, `end_val` at a fresh counter divides nothing and succeeds with empty means. */
  lemma EndValOnFreshLogger()
    ensures var e := EndVal(Init(DefaultPrintFreq, DefaultImageFreq));
            && e.Success?
            && e.value.lossMeans == map[] && e.value.metricMeans == map[]
  {
  }
}
