/**
 Whole runs of the logger: sequences of `log_train` and `log_val` calls and the
 phase means `end_val` returns at the end of a validation phase.
 */
module Phases {
  import opened Options
  import opened Dicts
  import opened Buffers
  import opened SimpleLogger

  /** The arguments of one `log_val` call. */
  datatype ValInput = ValInput(losses: Dict, metrics: Dict)

  /** Every call's dicts have distinct names, as Python dicts do. */
  predicate AllDistinct(steps: seq<ValInput>)
  {
    forall i :: 0 <= i < |steps| ==> Distinct(steps[i].losses) && Distinct(steps[i].metrics)
  }

  /** Consecutive `log_train` calls. */
  function RunTrain(s: Logger, batches: seq<Dict>): (t: Logger)
    requires s.cfg.Valid()
    ensures t.cfg == s.cfg
    ensures t.trainIter == s.trainIter + |batches| && t.valIter == s.valIter
    ensures t.lossBuff.sum == s.lossBuff.sum && t.metricsBuff == s.metricsBuff
    decreases |batches|
  {
    if |batches| == 0 then s else RunTrain(LogTrain(s, batches[0]).next, batches[1..])
  }

  /** Consecutive `log_val` calls. */
  function RunVal(s: Logger, steps: seq<ValInput>): (t: Logger)
    requires s.cfg.Valid()
    ensures t.cfg == s.cfg
    ensures t.valIter == s.valIter + |steps| && t.trainIter == s.trainIter
    decreases |steps|
  {
    if |steps| == 0 then s else RunVal(LogVal(s, steps[0].losses, steps[0].metrics).next, steps[1..])
  }

  /** The loss dicts of a run of `log_val` calls. */
  function LossInputs(steps: seq<ValInput>): seq<Dict>
  {
    if |steps| == 0 then [] else [steps[0].losses] + LossInputs(steps[1..])
  }

  /** The metric dicts of a run of `log_val` calls. */
  function MetricInputs(steps: seq<ValInput>): seq<Dict>
  {
    if |steps| == 0 then [] else [steps[0].metrics] + MetricInputs(steps[1..])
  }

  /** The values recorded under one name across a run of dicts, in call order. */
  function Column(ds: seq<Dict>, k: string): seq<real>
  {
    if |ds| == 0 then []
    else (if k in ToMap(ds[0]) then [ToMap(ds[0])[k]] else []) + Column(ds[1..], k)
  }

  /** The names that occur somewhere in a run of dicts. */
  function Seen(ds: seq<Dict>): set<string>
  {
    if |ds| == 0 then {} else ToMap(ds[0]).Keys + Seen(ds[1..])
  }

  /** Phase sums after a run: the starting sum plus the total of every value recorded under the name. */
  function Accumulated(m: map<string, real>, ds: seq<Dict>): map<string, real>
  {
    map k | k in m.Keys + Seen(ds) :: Get(m, k, 0.0) + Sum(Column(ds, k))
  }

  /** A name that never occurs has no recorded values. */
  lemma {:induction false} ColumnOfUnseen(ds: seq<Dict>, k: string)
    requires k !in Seen(ds)
    ensures Column(ds, k) == []
    decreases |ds|
  {
    if |ds| > 0 {
      ColumnOfUnseen(ds[1..], k);
    }
  }

  /** Folding one more call's dict into the sums first, then the rest, is accumulating them all. */
  lemma AccumulatedStep(m: map<string, real>, d: Dict, ds: seq<Dict>)
    ensures Accumulated(Bump(m, ToMap(d)), ds) == Accumulated(m, [d] + ds)
  {
    var all := [d] + ds;
    assert all[0] == d && all[1..] == ds;
    var lhs := Accumulated(Bump(m, ToMap(d)), ds);
    var rhs := Accumulated(m, all);
    assert lhs.Keys == rhs.Keys;
    forall k | k in lhs ensures lhs[k] == rhs[k] {
      var head := if k in ToMap(d) then [ToMap(d)[k]] else [];
      assert Column(all, k) == head + Column(ds, k);
      if k in ToMap(d) {
        assert (head + Column(ds, k))[1..] == Column(ds, k);
      } else {
        assert head + Column(ds, k) == Column(ds, k);
      }
    }
  }

  /** After a run of `log_val` calls, each phase sum is its starting value plus the total of every
      value recorded under that name during the run; names never seen keep their sums. */
  lemma {:induction false} RunValSums(s: Logger, steps: seq<ValInput>)
    requires s.cfg.Valid() && AllDistinct(steps)
    ensures RunVal(s, steps).lossBuff.sum == Accumulated(s.lossBuff.sum, LossInputs(steps))
    ensures RunVal(s, steps).metricsBuff.sum == Accumulated(s.metricsBuff.sum, MetricInputs(steps))
    decreases |steps|
  {
    if |steps| == 0 {
      AccumulatedNothing(s.lossBuff.sum);
      AccumulatedNothing(s.metricsBuff.sum);
    } else {
      var v := steps[0];
      var s1 := LogVal(s, v.losses, v.metrics).next;
      LogValPhaseSums(s, v.losses, v.metrics);
      assert AllDistinct(steps[1..]) by {
        forall i | 0 <= i < |steps[1..]|
          ensures Distinct(steps[1..][i].losses) && Distinct(steps[1..][i].metrics)
        {
          assert steps[1..][i] == steps[i + 1];
        }
      }
      RunValSums(s1, steps[1..]);
      AccumulatedStep(s.lossBuff.sum, v.losses, LossInputs(steps[1..]));
      AccumulatedStep(s.metricsBuff.sum, v.metrics, MetricInputs(steps[1..]));
    }
  }

  /** Accumulating nothing leaves the sums as they are. */
  lemma AccumulatedNothing(m: map<string, real>)
    ensures Accumulated(m, []) == m
  {
    var r := Accumulated(m, []);
    assert r.Keys == m.Keys;
  }

  /** Each name's mean, times the number of calls, is its starting sum plus its recorded total. */
  ghost predicate MeansOver(means: map<string, real>, start: map<string, real>, ds: seq<Dict>, n: nat)
  {
    forall k :: k in means ==> means[k] * n as real == Get(start, k, 0.0) + Sum(Column(ds, k))
  }

  /** The phase means `end_val` returns after a validation phase of n >= 1 calls started from a fresh
      counter: each name's mean is its starting phase sum plus everything recorded under it in the
      phase, divided by n, the number of `log_val` calls (not the number that carried the name). */
  lemma {:induction false} PhaseMeans(s: Logger, steps: seq<ValInput>)
    requires s.cfg.Valid() && s.valIter == 1 && |steps| > 0 && AllDistinct(steps)
    ensures var e := EndVal(RunVal(s, steps));
            && e.Success?
            && e.value.lossMeans.Keys == s.lossBuff.sum.Keys + Seen(LossInputs(steps))
            && e.value.metricMeans.Keys == s.metricsBuff.sum.Keys + Seen(MetricInputs(steps))
            && MeansOver(e.value.lossMeans, s.lossBuff.sum, LossInputs(steps), |steps|)
            && MeansOver(e.value.metricMeans, s.metricsBuff.sum, MetricInputs(steps), |steps|)
  {
    RunValSums(s, steps);
    EndValOfSums(RunVal(s, steps), s.lossBuff.sum, LossInputs(steps), s.metricsBuff.sum, MetricInputs(steps), |steps|);
  }

  /** `end_val` on a state whose phase sums were accumulated over n >= 1 calls. */
  lemma EndValOfSums(t: Logger, lossStart: map<string, real>, lossInputs: seq<Dict>,
                     metricStart: map<string, real>, metricInputs: seq<Dict>, n: nat)
    requires n > 0 && t.valIter == n + 1
    requires t.lossBuff.sum == Accumulated(lossStart, lossInputs)
    requires t.metricsBuff.sum == Accumulated(metricStart, metricInputs)
    ensures var e := EndVal(t);
            && e.Success?
            && e.value.lossMeans.Keys == lossStart.Keys + Seen(lossInputs)
            && e.value.metricMeans.Keys == metricStart.Keys + Seen(metricInputs)
            && MeansOver(e.value.lossMeans, lossStart, lossInputs, n)
            && MeansOver(e.value.metricMeans, metricStart, metricInputs, n)
  {
    var e := EndVal(t);
    assert e.Success?;
    MeansFromSums(e.value.lossMeans, t.lossBuff.sum, t.valIter - 1, lossStart, lossInputs, n);
    MeansFromSums(e.value.metricMeans, t.metricsBuff.sum, t.valIter - 1, metricStart, metricInputs, n);
  }

  /** Means that give back the accumulated sums are means over the recorded values. */
  lemma MeansFromSums(means: map<string, real>, sums: map<string, real>, divisor: int,
                      start: map<string, real>, ds: seq<Dict>, n: nat)
    requires sums == Accumulated(start, ds)
    requires AveragedOver(means, sums, divisor)
    requires divisor == n
    ensures means.Keys == start.Keys + Seen(ds)
    ensures MeansOver(means, start, ds, n)
  {
  }

  /** One epoch: training calls, then validation calls, then `end_val`. */
  function Epoch(s: Logger, batches: seq<Dict>, steps: seq<ValInput>): Result<Averages, Error>
    requires s.cfg.Valid()
  {
    EndVal(RunVal(RunTrain(s, batches), steps))
  }

  /** Phase sums accumulated from nothing: exactly the names seen, each holding its recorded total. */
  lemma AccumulatedFromNothing(ds: seq<Dict>)
    ensures Accumulated(map[], ds).Keys == Seen(ds)
    ensures forall k :: Get(Accumulated(map[], ds), k, 0.0) == Sum(Column(ds, k))
  {
    forall k ensures Get(Accumulated(map[], ds), k, 0.0) == Sum(Column(ds, k)) {
      if k !in Seen(ds) {
        ColumnOfUnseen(ds, k);
      }
    }
  }

  /** Training between validation phases does not disturb the phase sums: after two epochs from a
      fresh logger, each metric's mean covers the second phase only, while each loss's mean also
      carries every loss recorded in the first phase, since `end_val` never clears the loss sums. */
  lemma TwoEpochs(printFreq: int, imageFreq: int,
                  train1: seq<Dict>, val1: seq<ValInput>, train2: seq<Dict>, val2: seq<ValInput>)
    requires Config(printFreq, imageFreq).Valid()
    requires |val1| > 0 && |val2| > 0 && AllDistinct(val1) && AllDistinct(val2)
    ensures var e1 := Epoch(Init(printFreq, imageFreq), train1, val1);
            && e1.Success?
            && var e2 := Epoch(e1.value.next, train2, val2);
            && e2.Success?
            && e2.value.metricMeans.Keys == Seen(MetricInputs(val2))
            && e2.value.lossMeans.Keys == Seen(LossInputs(val1)) + Seen(LossInputs(val2))
            && MeansOver(e2.value.metricMeans, map[], MetricInputs(val2), |val2|)
            && CarriedMeans(e2.value.lossMeans, LossInputs(val1), LossInputs(val2), |val2|)
  {
    var e1 := Epoch(Init(printFreq, imageFreq), train1, val1);
    FirstEpoch(printFreq, imageFreq, train1, val1);
    LaterEpoch(e1.value.next, LossInputs(val1), train2, val2);
  }

  /** The first epoch of a fresh logger ends successfully and leaves the loss phase sums holding
      the first phase's totals, the metrics group empty and the validation counter at one. */
  lemma FirstEpoch(printFreq: int, imageFreq: int, train: seq<Dict>, val: seq<ValInput>)
    requires Config(printFreq, imageFreq).Valid()
    requires |val| > 0 && AllDistinct(val)
    ensures var e := Epoch(Init(printFreq, imageFreq), train, val);
            && e.Success?
            && e.value.next.cfg == Config(printFreq, imageFreq)
            && e.value.next.valIter == 1
            && e.value.next.metricsBuff == Empty
            && e.value.next.lossBuff.sum == Accumulated(map[], LossInputs(val))
  {
    var t := RunTrain(Init(printFreq, imageFreq), train);
    PhaseMeans(t, val);
    RunValSums(t, val);
  }

  /** An epoch that starts with loss phase sums left over from an earlier phase. */
  lemma LaterEpoch(s: Logger, earlier: seq<Dict>, train: seq<Dict>, val: seq<ValInput>)
    requires s.cfg.Valid() && s.valIter == 1 && s.metricsBuff.sum == map[]
    requires s.lossBuff.sum == Accumulated(map[], earlier)
    requires |val| > 0 && AllDistinct(val)
    ensures var e := Epoch(s, train, val);
            && e.Success?
            && e.value.metricMeans.Keys == Seen(MetricInputs(val))
            && e.value.lossMeans.Keys == Seen(earlier) + Seen(LossInputs(val))
            && MeansOver(e.value.metricMeans, map[], MetricInputs(val), |val|)
            && CarriedMeans(e.value.lossMeans, earlier, LossInputs(val), |val|)
  {
    var t := RunTrain(s, train);
    PhaseMeans(t, val);
    var e := Epoch(s, train, val);
    AccumulatedFromNothing(earlier);
    CarriedFromAccumulated(e.value.lossMeans, earlier, LossInputs(val), |val|);
  }

  /** Means over sums left by an earlier phase are means over both phases' recorded values. */
  lemma CarriedFromAccumulated(means: map<string, real>, earlier: seq<Dict>, ds: seq<Dict>, n: nat)
    requires MeansOver(means, Accumulated(map[], earlier), ds, n)
    ensures CarriedMeans(means, earlier, ds, n)
  {
    AccumulatedFromNothing(earlier);
  }

  /** Each loss mean of the second phase, times that phase's call count, is the total recorded
      under the name over both phases. */
  ghost predicate CarriedMeans(means: map<string, real>, first: seq<Dict>, second: seq<Dict>, n: nat)
  {
    forall k :: k in means ==> means[k] * n as real == Sum(Column(first, k)) + Sum(Column(second, k))
  }
}
