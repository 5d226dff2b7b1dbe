/** The per-peer progress reports and their reduction to run-level scalars
    (the body of the `for item in metrics` loop of the monitor). */
module Metrics {

  /** One peer's report (`utils.LocalMetrics`), already parsed. `loss` is the
      peer's accumulated loss sum over `miniSteps` local micro-steps. */
  datatype LocalMetrics = LocalMetrics(
    step: int,
    loss: real,
    samplesPerSecond: real,
    samplesAccumulated: int,
    miniSteps: int)

  /** The five accumulators of the aggregation loop. */
  datatype Totals = Totals(
    alivePeers: int,
    sumLoss: real,
    sumPerf: real,
    numSamples: int,
    sumMiniSteps: int)

  /** The accumulators before the first report is added. */
  const NoTotals := Totals(0, 0.0, 0.0, 0, 0)

  /** The accumulators after one more report `m`. */
  function Add(t: Totals, m: LocalMetrics): Totals
  {
    Totals(t.alivePeers + 1, t.sumLoss + m.loss, t.sumPerf + m.samplesPerSecond,
           t.numSamples + m.samplesAccumulated, t.sumMiniSteps + m.miniSteps)
  }

  /** Reference definition: the totals over a list of reports, first report outermost. */
  function TotalsOf(ms: seq<LocalMetrics>): Totals
  {
    if ms == [] then NoTotals else Add(TotalsOf(ms[1..]), ms[0])
  }

  /** The run-level step: the largest step any peer reports. */
  function MaxStep(ms: seq<LocalMetrics>): (m: int)
    requires ms != []
    ensures exists i :: 0 <= i < |ms| && ms[i].step == m
    ensures forall i :: 0 <= i < |ms| ==> ms[i].step <= m
  {
    if |ms| == 1 then ms[0].step
    else
      var rest := MaxStep(ms[1..]);
      assert forall i :: 1 <= i < |ms| ==> ms[i] == ms[1..][i - 1];
      if ms[0].step >= rest then ms[0].step else rest
  }

  /** Adding the reports in list order, as the loop does, gives the same totals
      as the reference definition. */
  lemma {:induction false} TotalsOfAppend(ms: seq<LocalMetrics>, m: LocalMetrics)
    ensures TotalsOf(ms + [m]) == Add(TotalsOf(ms), m)
  {
    if ms != [] {
      assert (ms + [m])[1..] == ms[1..] + [m];
      TotalsOfAppend(ms[1..], m);
    }
  }

  /** `alive_peers` counts the reports. */
  lemma {:induction false} AlivePeersIsLength(ms: seq<LocalMetrics>)
    ensures TotalsOf(ms).alivePeers == |ms|
  {
    if ms != [] {
      AlivePeersIsLength(ms[1..]);
    }
  }

  /** The aggregation loop of the monitor (the `for item in metrics` loop):
      it sums loss, throughput, samples and micro-steps and counts the peers. */
  method Aggregate(metrics: seq<LocalMetrics>) returns (t: Totals)
    ensures t == TotalsOf(metrics)
    ensures t.alivePeers == |metrics|
  {
    var alivePeers, sumLoss, numSamples, sumPerf, sumMiniSteps := 0, 0.0, 0, 0.0, 0;
    for i := 0 to |metrics|
      invariant Totals(alivePeers, sumLoss, sumPerf, numSamples, sumMiniSteps) == TotalsOf(metrics[..i])
    {
      var item := metrics[i];
      assert metrics[..i + 1] == metrics[..i] + [item];
      TotalsOfAppend(metrics[..i], item);
      sumLoss := sumLoss + item.loss;
      alivePeers := alivePeers + 1;
      sumPerf := sumPerf + item.samplesPerSecond;
      numSamples := numSamples + item.samplesAccumulated;
      sumMiniSteps := sumMiniSteps + item.miniSteps;
    }
    assert metrics[..|metrics|] == metrics;
    t := Totals(alivePeers, sumLoss, sumPerf, numSamples, sumMiniSteps);
    AlivePeersIsLength(metrics);
  }

  /** The run-level loss: summed loss over summed micro-steps. */
  function AverageLoss(t: Totals): real
    requires t.sumMiniSteps != 0
  {
    t.sumLoss / t.sumMiniSteps as real
  }

  /** The loss is weighted by micro-steps: when every peer's loss sum is `rate`
      per micro-step, the summed loss is `rate` times the summed micro-steps, so
      the run-level loss is `rate` whatever the peers' shares. */
  lemma {:induction false} UniformRateIsPreserved(ms: seq<LocalMetrics>, rate: real)
    requires forall i :: 0 <= i < |ms| ==> ms[i].loss == rate * ms[i].miniSteps as real
    ensures TotalsOf(ms).sumLoss == rate * TotalsOf(ms).sumMiniSteps as real
    ensures TotalsOf(ms).sumMiniSteps != 0 ==> AverageLoss(TotalsOf(ms)) == rate
  {
    if ms != [] {
      assert forall i :: 0 <= i < |ms[1..]| ==> ms[1..][i] == ms[i + 1];
      UniformRateIsPreserved(ms[1..], rate);
    }
  }

  /** When every peer did at least one micro-step, the loss division cannot fail. */
  lemma {:induction false} PositiveMiniSteps(ms: seq<LocalMetrics>)
    requires forall i :: 0 <= i < |ms| ==> ms[i].miniSteps > 0
    ensures TotalsOf(ms).sumMiniSteps >= |ms|
  {
    if ms != [] {
      assert forall i :: 0 <= i < |ms[1..]| ==> ms[1..][i] == ms[i + 1];
      PositiveMiniSteps(ms[1..]);
    }
  }

  /** Taking the report at index `j` out and adding it last gives the same totals. */
  lemma {:induction false} TotalsOfRemove(ms: seq<LocalMetrics>, j: nat)
    requires j < |ms|
    ensures TotalsOf(ms) == Add(TotalsOf(ms[..j] + ms[j + 1..]), ms[j])
  {
    if j > 0 {
      var tail := ms[1..];
      TotalsOfRemove(tail, j - 1);
      assert ms[..j] + ms[j + 1..] == [ms[0]] + (tail[..j - 1] + tail[j..]);
    } else {
      assert ms[..j] + ms[j + 1..] == ms[1..];
    }
  }

  /** The totals do not depend on the order in which the peers are listed
      (the order of the keys of the metrics dictionary). */
  lemma {:induction false} TotalsOfPermutation(a: seq<LocalMetrics>, b: seq<LocalMetrics>)
    requires multiset(a) == multiset(b)
    ensures TotalsOf(a) == TotalsOf(b)
    decreases |a|
  {
    if a == [] {
      assert |b| == |multiset(b)| == 0;
    } else {
      var x := a[0];
      assert x in multiset(b);
      var j :| 0 <= j < |b| && b[j] == x;
      var rest := b[..j] + b[j + 1..];
      assert b == b[..j] + [x] + b[j + 1..];
      assert a == [x] + a[1..];
      assert multiset(b) == multiset(b[..j]) + multiset{x} + multiset(b[j + 1..]);
      assert multiset(rest) == multiset(b[..j]) + multiset(b[j + 1..]);
      assert multiset(a) == multiset{x} + multiset(a[1..]);
      assert multiset(a[1..]) == multiset(a) - multiset{x};
      assert multiset(rest) == multiset(b) - multiset{x};
      TotalsOfPermutation(a[1..], rest);
      TotalsOfRemove(b, j);
    }
  }

  /** The run-level step does not depend on the order of the peers either. */
  lemma MaxStepPermutation(a: seq<LocalMetrics>, b: seq<LocalMetrics>)
    requires a != [] && multiset(a) == multiset(b)
    ensures b != [] && MaxStep(a) == MaxStep(b)
  {
    assert |b| == |multiset(b)| == |multiset(a)| == |a|;
    var i :| 0 <= i < |a| && a[i].step == MaxStep(a);
    var j :| 0 <= j < |b| && b[j].step == MaxStep(b);
    assert a[i] in multiset(b);
    assert b[j] in multiset(a);
  }

  /** Two peers with loss sums 1.0 and 2.0 over 2 and 3 micro-steps: the run
      loss is 3.0 / 5 = 0.6, not the mean 1.5 of the peers' sums. */
  lemma WeightedLossExample()
    ensures AverageLoss(TotalsOf([LocalMetrics(1, 1.0, 0.0, 0, 2), LocalMetrics(1, 2.0, 0.0, 0, 3)])) == 0.6
  {
    assert TotalsOf([LocalMetrics(1, 2.0, 0.0, 0, 3)]) == Totals(1, 2.0, 0.0, 0, 3);
  }
}
