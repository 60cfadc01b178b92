/**
 One buffer group of the logger (`loss_buff` or `metrics_buff`): per name, the
 values seen since the last window flush (`values`), their running sum
 (`sumlast`) and the sum over the whole validation phase (`sum`).
 */
module Buffers {
  import opened Dicts

  datatype Buff = Buff(values: map<string, seq<real>>, sumlast: map<string, real>, sum: map<string, real>)

  /** A group whose three `defaultdict`s hold nothing. */
  const Empty := Buff(map[], map[], map[])

  /** The window sums track the window lists: same names, and each sum is its list's total. */
  predicate WindowConsistent(b: Buff)
  {
    && b.sumlast.Keys == b.values.Keys
    && forall k :: k in b.values ==> b.sumlast[k] == Sum(b.values[k])
  }

  /** One loop iteration over a dict item: the value goes into the window list and window sum,
      and, when `phase` holds (validation), into the phase sum too. */
  function Observe(b: Buff, name: string, v: real, phase: bool): Buff
  {
    Buff(b.values[name := Get(b.values, name, []) + [v]],
         b.sumlast[name := Get(b.sumlast, name, 0.0) + v],
         if phase then b.sum[name := Get(b.sum, name, 0.0) + v] else b.sum)
  }

  /** The whole loop over a dict's items, in order. */
  function Record(b: Buff, d: Dict, phase: bool): Buff
    decreases |d|
  {
    if |d| == 0 then b else Record(Observe(b, d[0].0, d[0].1, phase), d[1..], phase)
  }

  /** The window flush: `values.clear()` and `sumlast.clear()`; the phase sums stay. */
  function ClearWindow(b: Buff): Buff
  {
    b.(values := map[], sumlast := map[])
  }

  /** The reported windowed mean per name: window sum over `print_freq`, whatever the number of observations. */
  function WindowMeans(b: Buff, printFreq: int): map<string, real>
    requires printFreq != 0
  {
    map k | k in b.sumlast :: b.sumlast[k] / printFreq as real
  }

  /** Observing one value keeps the window sums equal to the window lists' totals. */
  lemma ObservePreserves(b: Buff, name: string, v: real, phase: bool)
    requires WindowConsistent(b)
    ensures WindowConsistent(Observe(b, name, v, phase))
  {
    SumAppend(Get(b.values, name, []), v);
  }

  /** Recording a whole dict keeps the window sums equal to the window lists' totals. */
  lemma {:induction false} RecordPreserves(b: Buff, d: Dict, phase: bool)
    requires WindowConsistent(b)
    ensures WindowConsistent(Record(b, d, phase))
    decreases |d|
  {
    if |d| > 0 {
      ObservePreserves(b, d[0].0, d[0].1, phase);
      RecordPreserves(Observe(b, d[0].0, d[0].1, phase), d[1..], phase);
    }
  }

  /** A training-side record never touches the phase sums, whatever the dict. */
  lemma {:induction false} RecordKeepsSum(b: Buff, d: Dict)
    ensures Record(b, d, false).sum == b.sum
    decreases |d|
  {
    if |d| > 0 {
      RecordKeepsSum(Observe(b, d[0].0, d[0].1, false), d[1..]);
    }
  }

  /** The loop over a dict's items equals the per-name reference update: each named list gains
      exactly that name's value, each named sum grows by it, every other name is left alone. */
  lemma RecordMatchesReference(b: Buff, d: Dict, phase: bool)
    requires Distinct(d)
    ensures Record(b, d, phase).values == Extend(b.values, ToMap(d))
    ensures Record(b, d, phase).sumlast == Bump(b.sumlast, ToMap(d))
    ensures Record(b, d, phase).sum == if phase then Bump(b.sum, ToMap(d)) else b.sum
  {
    RecordValues(b, d, phase);
    RecordSumlast(b, d, phase);
    RecordSum(b, d, phase);
  }

  /** The window lists part of RecordMatchesReference. */
  lemma {:induction false} RecordValues(b: Buff, d: Dict, phase: bool)
    requires Distinct(d)
    ensures Record(b, d, phase).values == Extend(b.values, ToMap(d))
    decreases |d|
  {
    if |d| == 0 {
      ExtendNothing(b.values);
    } else {
      HeadNotInTail(d);
      RecordValues(Observe(b, d[0].0, d[0].1, phase), d[1..], phase);
      ExtendStep(b.values, ToMap(d[1..]), d[0].0, d[0].1);
    }
  }

  /** The window sums part of RecordMatchesReference. */
  lemma {:induction false} RecordSumlast(b: Buff, d: Dict, phase: bool)
    requires Distinct(d)
    ensures Record(b, d, phase).sumlast == Bump(b.sumlast, ToMap(d))
    decreases |d|
  {
    if |d| == 0 {
      BumpNothing(b.sumlast);
    } else {
      HeadNotInTail(d);
      RecordSumlast(Observe(b, d[0].0, d[0].1, phase), d[1..], phase);
      BumpStep(b.sumlast, ToMap(d[1..]), d[0].0, d[0].1);
    }
  }

  /** The phase sums part of RecordMatchesReference. */
  lemma {:induction false} RecordSum(b: Buff, d: Dict, phase: bool)
    requires Distinct(d)
    ensures Record(b, d, phase).sum == if phase then Bump(b.sum, ToMap(d)) else b.sum
    decreases |d|
  {
    if |d| == 0 {
      BumpNothing(b.sum);
    } else {
      HeadNotInTail(d);
      RecordSum(Observe(b, d[0].0, d[0].1, phase), d[1..], phase);
      if phase {
        BumpStep(b.sum, ToMap(d[1..]), d[0].0, d[0].1);
      }
    }
  }

  /** With consistent sums, the windowed mean of each name is the total of its window list over `print_freq`. */
  lemma WindowMeansAreListTotals(b: Buff, printFreq: int)
    requires printFreq != 0
    requires WindowConsistent(b)
    ensures WindowMeans(b, printFreq).Keys == b.values.Keys
    ensures forall k :: k in b.values ==> WindowMeans(b, printFreq)[k] == Sum(b.values[k]) / printFreq as real
  {
  }
}
