/** The merge of many per-invocation load-test results into one summary
    (`results_aggregator` in invokust/aws_lambda/results_aggregator.py).

    A result record is what one Lambda invocation returned: per-task success
    statistics, per-task failure descriptors, request counters and the time the
    invocation had left.  The aggregator sums the counters, unions the task names,
    averages the per-task statistics and merges the latency samples. */
module Aggregator {
  import opened Wrappers
  import opened Numeric

  /** The Lambda execution-time ceiling, in milliseconds, that each record's
      `remaining_time` is subtracted from. */
  const LambdaTimeoutMs: int := 300000

  /** numpy's default number of histogram bins. */
  const HistogramBins: nat := 10

  /** One item of a task's `response_times` dict: the latency key (after `int()`)
      and how many requests took that long. */
  datatype Bucket = Bucket(latency: int, count: nat)

  /** A record's statistics for one successful task. */
  datatype SuccessEntry = SuccessEntry(
    medianResponseTime: real,
    totalRps: real,
    avgResponseTime: real,
    maxResponseTime: Option<real>,
    minResponseTime: Option<real>,
    responseTimes: Option<seq<Bucket>>)

  /** A record's descriptor for one failing task. */
  datatype FailEntry = FailEntry(occurrences: int, httpMethod: string, name: string, error: string)

  /** The result of one Lambda invocation. */
  datatype ResultRecord = ResultRecord(
    success: map<string, SuccessEntry>,
    fail: map<string, FailEntry>,
    numRequests: int,
    numRequestsFail: int,
    numRequestsSuccess: int,
    remainingTime: int)

  /** The merged statistics of one successful task; `histogram` holds the bin
      counts of the merged latency samples. */
  datatype TaskSummary = TaskSummary(
    medianResponseTime: real,
    totalRps: real,
    avgResponseTime: real,
    maxResponseTime: real,
    minResponseTime: real,
    histogram: seq<nat>,
    totalRpm: real)

  /** The aggregated results dict. */
  datatype AggResults = AggResults(
    success: map<string, TaskSummary>,
    fail: map<string, FailEntry>,
    numRequests: int,
    numRequestsFail: int,
    numRequestsSuccess: int,
    totalTime: int,
    invocations: nat)

  // ---------------------------------------------------------------------------
  // Helpers of results_aggregator

  /** `_flatten_unique`: the duplicate-free union of several groups of names. */
  function FlattenUnique(groups: seq<set<string>>): (r: set<string>)
    ensures forall x :: x in r <==> exists i :: 0 <= i < |groups| && x in groups[i]
  {
    if groups == [] then {}
    else
      var init := groups[..|groups| - 1];
      var rest := FlattenUnique(init);
      assert forall x :: x in rest ==> exists i :: 0 <= i < |groups| && x in groups[i] by {
        forall x | x in rest ensures exists i :: 0 <= i < |groups| && x in groups[i] {
          var i :| 0 <= i < |init| && x in init[i];
          assert groups[i] == init[i];
        }
      }
      rest + groups[|groups| - 1]
  }

  /** `_mean`: the arithmetic mean, and 0 for an empty list. */
  function Mean(xs: seq<real>): (m: real)
    ensures xs == [] ==> m == 0.0
    ensures xs != [] ==> m * |xs| as real == RealSum(xs)
  {
    RealSum(xs) / (if |xs| > 1 then |xs| else 1) as real
  }

  /** The mean of values in [lo, hi] lies in [lo, hi]. */
  lemma MeanBetween(xs: seq<real>, lo: real, hi: real)
    requires xs != []
    requires forall i :: 0 <= i < |xs| ==> lo <= xs[i] <= hi
    ensures lo <= Mean(xs) <= hi
  {
    RealSumBounds(xs, lo, hi);
    var n := |xs| as real;
    var m := Mean(xs);
    assert n * lo <= m * n <= n * hi;
  }

  /** The values that are not None, in order. */
  function Present(values: seq<Option<real>>): (p: seq<real>)
    ensures forall x :: x in p <==> Some(x) in values
  {
    if values == [] then []
    else
      var rest := Present(values[1..]);
      assert forall v :: v in values <==> v == values[0] || v in values[1..];
      match values[0]
      case Some(x) => [x] + rest
      case None => rest
  }

  function MinOf(xs: seq<real>): (m: real)
    requires xs != []
    ensures m in xs
    ensures forall i :: 0 <= i < |xs| ==> m <= xs[i]
  {
    if |xs| == 1 then xs[0]
    else
      var rest := MinOf(xs[1..]);
      assert forall i :: 1 <= i < |xs| ==> xs[i] == xs[1..][i - 1];
      if xs[0] <= rest then xs[0] else rest
  }

  function MaxOf(xs: seq<real>): (m: real)
    requires xs != []
    ensures m in xs
    ensures forall i :: 0 <= i < |xs| ==> xs[i] <= m
  {
    if |xs| == 1 then xs[0]
    else
      var rest := MaxOf(xs[1..]);
      assert forall i :: 1 <= i < |xs| ==> xs[i] == xs[1..][i - 1];
      if rest <= xs[0] then xs[0] else rest
  }

  /** `_get_min`: the least value that is not None, and 0 when there is none. */
  function GetMin(values: seq<Option<real>>): (m: real)
    ensures (forall v :: v in values ==> v == None) ==> m == 0.0
    ensures (exists x :: Some(x) in values) ==>
              Some(m) in values && forall x :: Some(x) in values ==> m <= x
  {
    var p := Present(values);
    if p == [] then 0.0
    else
      var m := MinOf(p);
      assert forall x :: x in p ==> m <= x;
      m
  }

  /** `_get_max`: the greatest value that is not None, and 0 when there is none. */
  function GetMax(values: seq<Option<real>>): (m: real)
    ensures (forall v :: v in values ==> v == None) ==> m == 0.0
    ensures (exists x :: Some(x) in values) ==>
              Some(m) in values && forall x :: Some(x) in values ==> x <= m
  {
    var p := Present(values);
    if p == [] then 0.0
    else
      var m := MaxOf(p);
      assert forall x :: x in p ==> x <= m;
      m
  }

  // ---------------------------------------------------------------------------
  // Latency samples: `_merge_response_times`

  /** `[latency] * count`: the latency, `count` times, and nothing else. */
  function Repeat(latency: int, count: nat): (s: seq<int>)
    ensures |s| == count
    ensures forall x :: multiset(s)[x] == if x == latency then count else 0
  {
    if count == 0 then [] else Repeat(latency, count - 1) + [latency]
  }

  /** The samples one response-times dict stands for, in item order. */
  function ExpandBuckets(items: seq<Bucket>): seq<int>
  {
    if items == [] then []
    else ExpandBuckets(items[..|items| - 1]) + Repeat(items[|items| - 1].latency, items[|items| - 1].count)
  }

  /** The samples of several response-times dicts, one after the other. */
  function Expanded(rts: seq<seq<Bucket>>): seq<int>
  {
    if rts == [] then []
    else Expanded(rts[..|rts| - 1]) + ExpandBuckets(rts[|rts| - 1])
  }

  /** The sum of the counts of one dict. */
  function BucketTotal(items: seq<Bucket>): nat
  {
    if items == [] then 0 else BucketTotal(items[..|items| - 1]) + items[|items| - 1].count
  }

  /** The sum of all counts of all dicts. */
  function TotalCount(rts: seq<seq<Bucket>>): nat
  {
    if rts == [] then 0 else TotalCount(rts[..|rts| - 1]) + BucketTotal(rts[|rts| - 1])
  }

  /** The sum of the counts that one dict gives to latency `x`. */
  function BucketOccurrences(items: seq<Bucket>, x: int): nat
  {
    if items == [] then 0
    else
      BucketOccurrences(items[..|items| - 1], x)
      + (if items[|items| - 1].latency == x then items[|items| - 1].count else 0)
  }

  /** The sum of the counts that all dicts give to latency `x`. */
  function Occurrences(rts: seq<seq<Bucket>>, x: int): nat
  {
    if rts == [] then 0 else Occurrences(rts[..|rts| - 1], x) + BucketOccurrences(rts[|rts| - 1], x)
  }

  /** There are as many merged samples as the counts add up to. */
  lemma {:induction false} ExpandedSize(rts: seq<seq<Bucket>>)
    ensures |Expanded(rts)| == TotalCount(rts)
  {
    if rts != [] {
      ExpandedSize(rts[..|rts| - 1]);
      ExpandBucketsSize(rts[|rts| - 1]);
    }
  }

  lemma {:induction false} ExpandBucketsSize(items: seq<Bucket>)
    ensures |ExpandBuckets(items)| == BucketTotal(items)
  {
    if items != [] {
      ExpandBucketsSize(items[..|items| - 1]);
    }
  }

  /** Each latency occurs among the merged samples exactly as often as the dicts count it. */
  lemma {:induction false} ExpandedMultiset(rts: seq<seq<Bucket>>, x: int)
    ensures multiset(Expanded(rts))[x] == Occurrences(rts, x)
  {
    if rts != [] {
      ExpandedMultiset(rts[..|rts| - 1], x);
      ExpandBucketsMultiset(rts[|rts| - 1], x);
    }
  }

  lemma {:induction false} ExpandBucketsMultiset(items: seq<Bucket>, x: int)
    ensures multiset(ExpandBuckets(items))[x] == BucketOccurrences(items, x)
  {
    if items != [] {
      ExpandBucketsMultiset(items[..|items| - 1], x);
    }
  }

  // ---------------------------------------------------------------------------
  // numpy.histogram, bin counts only

  /** The samples as reals, so that `MinOf` and `MaxOf` serve for them too. */
  function AsReals(s: seq<int>): (r: seq<real>)
    ensures |r| == |s| && forall i :: 0 <= i < |s| ==> r[i] == s[i] as real
  {
    seq(|s|, i requires 0 <= i < |s| => s[i] as real)
  }

  /** The least sample. */
  function SeqMin(s: seq<int>): (m: int)
    requires s != []
    ensures m in s
    ensures forall i :: 0 <= i < |s| ==> m <= s[i]
  {
    var r := MinOf(AsReals(s));
    assert exists k :: 0 <= k < |s| && r == s[k] as real;
    r.Floor
  }

  /** The greatest sample. */
  function SeqMax(s: seq<int>): (m: int)
    requires s != []
    ensures m in s
    ensures forall i :: 0 <= i < |s| ==> s[i] <= m
  {
    var r := MaxOf(AsReals(s));
    assert exists k :: 0 <= k < |s| && r == s[k] as real;
    r.Floor
  }

  /** The bin of sample `x` among ten equal-width bins spanning [lo, hi]; the
      last bin is closed, and when lo == hi the range is widened by one half on
      each side, which puts every sample in the middle bin. */
  function BinIndex(x: int, lo: int, hi: int): (b: nat)
    requires lo <= x <= hi
    ensures b < HistogramBins
  {
    if lo == hi then 5
    else if x == hi then 9
    else (x - lo) * 10 / (hi - lo)
  }

  function Zeros(n: nat): (z: seq<nat>)
    ensures |z| == n && Sum(z) == 0
  {
    if n == 0 then [] else Zeros(n - 1) + [0]
  }

  lemma {:induction false} SumIncrement(t: seq<nat>, b: nat)
    requires b < |t|
    ensures Sum(t[b := t[b] + 1]) == Sum(t) + 1
  {
    var u := t[b := t[b] + 1];
    if b < |t| - 1 {
      assert u[..|u| - 1] == t[..|t| - 1][b := t[b] + 1];
      SumIncrement(t[..|t| - 1], b);
    } else {
      assert u[..|u| - 1] == t[..|t| - 1];
    }
  }

  /** The bin counts of `samples`, all of which lie in [lo, hi]. */
  function Tally(samples: seq<int>, lo: int, hi: int): (counts: seq<nat>)
    requires forall i :: 0 <= i < |samples| ==> lo <= samples[i] <= hi
    ensures |counts| == HistogramBins
    ensures Sum(counts) == |samples|
  {
    if samples == [] then Zeros(HistogramBins)
    else
      var t := Tally(samples[..|samples| - 1], lo, hi);
      var b := BinIndex(samples[|samples| - 1], lo, hi);
      SumIncrement(t, b);
      t[b := t[b] + 1]
  }

  /** `numpy.histogram(samples)[0]`: ten bins over the samples' range; no sample
      is lost or counted twice. */
  function Histogram(samples: seq<int>): (counts: seq<nat>)
    ensures |counts| == HistogramBins
    ensures Sum(counts) == |samples|
  {
    if samples == [] then Zeros(HistogramBins)
    else Tally(samples, SeqMin(samples), SeqMax(samples))
  }

  /** `_merge_response_times`: expands every `{latency: count}` dict into a flat
      list of samples and returns the histogram of that list. */
  method MergeResponseTimes(responseTimes: seq<seq<Bucket>>) returns (histogram: seq<nat>)
    ensures histogram == Histogram(Expanded(responseTimes))
    ensures |histogram| == HistogramBins
    ensures Sum(histogram) == TotalCount(responseTimes)
  {
    var flat: seq<int> := [];
    for i := 0 to |responseTimes|
      invariant flat == Expanded(responseTimes[..i])
    {
      var items := responseTimes[i];
      for j := 0 to |items|
        invariant flat == Expanded(responseTimes[..i]) + ExpandBuckets(items[..j])
      {
        assert items[..j + 1][..j] == items[..j];
        flat := flat + Repeat(items[j].latency, items[j].count);
      }
      assert items[..|items|] == items;
      assert responseTimes[..i + 1][..i] == responseTimes[..i];
    }
    assert responseTimes[..|responseTimes|] == responseTimes;
    histogram := Histogram(flat);
    ExpandedSize(responseTimes);
  }

  // ---------------------------------------------------------------------------
  // Per-task columns

  /** `[stat['success'][task] for stat in results if task in stat['success']]`. */
  function SuccessColumn(records: seq<ResultRecord>, task: string): (col: seq<SuccessEntry>)
    ensures |col| > 0 <==> exists i :: 0 <= i < |records| && task in records[i].success
  {
    if records == [] then []
    else
      var rest := SuccessColumn(records[1..], task);
      assert forall i :: 1 <= i < |records| ==> records[i] == records[1..][i - 1];
      (if task in records[0].success then [records[0].success[task]] else []) + rest
  }

  /** `[stat['fail'][task] for stat in results if task in stat['fail']]`. */
  function FailColumn(records: seq<ResultRecord>, task: string): (col: seq<FailEntry>)
    ensures |col| > 0 <==> exists i :: 0 <= i < |records| && task in records[i].fail
  {
    if records == [] then []
    else
      var rest := FailColumn(records[1..], task);
      assert forall i :: 1 <= i < |records| ==> records[i] == records[1..][i - 1];
      (if task in records[0].fail then [records[0].fail[task]] else []) + rest
  }

  /** The index of the first record that reports `task` as failing, or |records|. */
  function FirstFail(records: seq<ResultRecord>, task: string): (k: nat)
    ensures k <= |records|
    ensures k < |records| ==> task in records[k].fail
    ensures forall j :: 0 <= j < k ==> task !in records[j].fail
  {
    if records == [] then 0
    else if task in records[0].fail then 0
    else 1 + FirstFail(records[1..], task)
  }

  /** The first entry of a failing task's column is the first contributing record's entry. */
  lemma {:induction false} FailColumnHead(records: seq<ResultRecord>, task: string)
    requires FailColumn(records, task) != []
    ensures FirstFail(records, task) < |records|
    ensures FailColumn(records, task)[0] == records[FirstFail(records, task)].fail[task]
  {
    if task !in records[0].fail {
      FailColumnHead(records[1..], task);
    }
  }

  /** Two lists of records that agree on `task`'s failure entries, index by
      index, have the same column and the same first contributor for it. */
  lemma {:induction false} FailColumnAgree(a: seq<ResultRecord>, b: seq<ResultRecord>, task: string)
    requires |a| == |b|
    requires forall i :: 0 <= i < |a| ==> (task in a[i].fail <==> task in b[i].fail)
    requires forall i :: 0 <= i < |a| && task in a[i].fail ==> a[i].fail[task] == b[i].fail[task]
    ensures FailColumn(a, task) == FailColumn(b, task)
    ensures FirstFail(a, task) == FirstFail(b, task)
  {
    if a != [] {
      FailColumnAgree(a[1..], b[1..], task);
    }
  }

  function Medians(data: seq<SuccessEntry>): seq<real>
  {
    seq(|data|, i requires 0 <= i < |data| => data[i].medianResponseTime)
  }

  function Rps(data: seq<SuccessEntry>): seq<real>
  {
    seq(|data|, i requires 0 <= i < |data| => data[i].totalRps)
  }

  function Averages(data: seq<SuccessEntry>): seq<real>
  {
    seq(|data|, i requires 0 <= i < |data| => data[i].avgResponseTime)
  }

  function MaxTimes(data: seq<SuccessEntry>): seq<Option<real>>
  {
    seq(|data|, i requires 0 <= i < |data| => data[i].maxResponseTime)
  }

  function MinTimes(data: seq<SuccessEntry>): seq<Option<real>>
  {
    seq(|data|, i requires 0 <= i < |data| => data[i].minResponseTime)
  }

  /** `[data['response_times'] for data in task_data_results if data['response_times'] is not None]`. */
  function PresentTimes(data: seq<SuccessEntry>): seq<seq<Bucket>>
  {
    if data == [] then []
    else
      (match data[0].responseTimes
       case Some(items) => [items]
       case None => [])
      + PresentTimes(data[1..])
  }

  /** The merged statistics of one task from its contributing entries (lines 74-80). */
  function TaskStats(data: seq<SuccessEntry>): (s: TaskSummary)
  {
    var rps := Mean(Rps(data));
    TaskSummary(
      Mean(Medians(data)),
      rps,
      Mean(Averages(data)),
      GetMax(MaxTimes(data)),
      GetMin(MinTimes(data)),
      Histogram(Expanded(PresentTimes(data))),
      rps * 60.0)
  }

  /** The merged minimum is at most every contributing minimum, and the merged
      maximum at least every contributing maximum. */
  lemma TaskStatsBounds(data: seq<SuccessEntry>)
    ensures forall i :: 0 <= i < |data| && data[i].minResponseTime.Some? ==>
              TaskStats(data).minResponseTime <= data[i].minResponseTime.value
    ensures forall i :: 0 <= i < |data| && data[i].maxResponseTime.Some? ==>
              data[i].maxResponseTime.value <= TaskStats(data).maxResponseTime
  {
    var mins, maxs := MinTimes(data), MaxTimes(data);
    forall i | 0 <= i < |data| && data[i].minResponseTime.Some?
      ensures GetMin(mins) <= data[i].minResponseTime.value
    {
      assert mins[i] == data[i].minResponseTime;
      assert Some(data[i].minResponseTime.value) in mins;
    }
    forall i | 0 <= i < |data| && data[i].maxResponseTime.Some?
      ensures data[i].maxResponseTime.value <= GetMax(maxs)
    {
      assert maxs[i] == data[i].maxResponseTime;
      assert Some(data[i].maxResponseTime.value) in maxs;
    }
  }

  /** The merged histogram has ten bins whose counts add up to the number of
      latency samples the contributing entries report. */
  lemma TaskStatsHistogram(data: seq<SuccessEntry>)
    ensures |TaskStats(data).histogram| == HistogramBins
    ensures Sum(TaskStats(data).histogram) == TotalCount(PresentTimes(data))
  {
    ExpandedSize(PresentTimes(data));
  }

  // ---------------------------------------------------------------------------
  // Totals and task names (lines 55-57, 63-67)

  /** `sum([f(stat) for stat in results])`. */
  function SumOf(records: seq<ResultRecord>, f: ResultRecord -> int): int
  {
    if records == [] then 0 else SumOf(records[..|records| - 1], f) + f(records[|records| - 1])
  }

  lemma {:induction false} SumOfConcat(a: seq<ResultRecord>, b: seq<ResultRecord>, f: ResultRecord -> int)
    ensures SumOf(a + b, f) == SumOf(a, f) + SumOf(b, f)
    decreases |b|
  {
    if b == [] {
      assert a + b == a;
    } else {
      assert (a + b)[..|a + b| - 1] == a + b[..|b| - 1];
      SumOfConcat(a, b[..|b| - 1], f);
    }
  }

  function NumRequests(r: ResultRecord): int { r.numRequests }
  function NumRequestsFail(r: ResultRecord): int { r.numRequestsFail }
  function NumRequestsSuccess(r: ResultRecord): int { r.numRequestsSuccess }

  /** The execution time of one invocation: the ceiling minus the time it had left. */
  function ExecutionTime(r: ResultRecord): int { LambdaTimeoutMs - r.remainingTime }

  /** `_flatten_unique` of the records' success task names. */
  function SuccessTasks(records: seq<ResultRecord>): (tasks: set<string>)
    ensures forall t :: t in tasks <==> exists i :: 0 <= i < |records| && t in records[i].success
  {
    var groups := seq(|records|, i requires 0 <= i < |records| => records[i].success.Keys);
    assert forall i :: 0 <= i < |records| ==> groups[i] == records[i].success.Keys;
    FlattenUnique(groups)
  }

  /** `_flatten_unique` of the records' fail task names. */
  function FailTasks(records: seq<ResultRecord>): (tasks: set<string>)
    ensures forall t :: t in tasks <==> exists i :: 0 <= i < |records| && t in records[i].fail
  {
    var groups := seq(|records|, i requires 0 <= i < |records| => records[i].fail.Keys);
    assert forall i :: 0 <= i < |records| ==> groups[i] == records[i].fail.Keys;
    FlattenUnique(groups)
  }

  /** The entry of a failing task (lines 84-85): the first entry of its column,
      carrying the occurrences of the whole column. */
  function MergeColumn(col: seq<FailEntry>): FailEntry
    requires col != []
  {
    col[0].(occurrences := Sum(seq(|col|, i requires 0 <= i < |col| => col[i].occurrences)))
  }

  /** The merged entry of a failing task over `records`. */
  function MergedFail(records: seq<ResultRecord>, task: string): FailEntry
    requires FailColumn(records, task) != []
  {
    MergeColumn(FailColumn(records, task))
  }

  // ---------------------------------------------------------------------------
  // The intended aggregation

  /** Each success task with its own statistics. */
  function SuccessSummaries(records: seq<ResultRecord>): (m: map<string, TaskSummary>)
    ensures m.Keys == SuccessTasks(records)
    ensures forall t :: t in m ==> m[t].totalRpm == m[t].totalRps * 60.0
  {
    var tasks := SuccessTasks(records);
    map t | t in tasks :: TaskStats(SuccessColumn(records, t))
  }

  /** Each failing task with its merged entry. */
  function FailSummaries(records: seq<ResultRecord>): (m: map<string, FailEntry>)
    ensures m.Keys == FailTasks(records)
  {
    var tasks := FailTasks(records);
    map t | t in tasks :: MergedFail(records, t)
  }

  /** The aggregate the code evidently means to compute: every success task gets
      its own statistics, and no input record is changed. */
  function Aggregate(records: seq<ResultRecord>): (agg: AggResults)
    ensures agg.invocations == |records|
    ensures forall t :: t in agg.success <==> exists i :: 0 <= i < |records| && t in records[i].success
    ensures forall t :: t in agg.fail <==> exists i :: 0 <= i < |records| && t in records[i].fail
    ensures forall t :: t in agg.success ==> agg.success[t].totalRpm == agg.success[t].totalRps * 60.0
  {
    AggResults(
      SuccessSummaries(records),
      FailSummaries(records),
      SumOf(records, NumRequests),
      SumOf(records, NumRequestsFail),
      SumOf(records, NumRequestsSuccess),
      SumOf(records, ExecutionTime),
      |records|)
  }

  /** Running the aggregation on no records gives zero totals and no tasks. */
  lemma AggregateEmpty()
    ensures Aggregate([]) == AggResults(map[], map[], 0, 0, 0, 0, 0)
  {
    var agg := Aggregate([]);
    assert agg.success.Keys == {};
    assert agg.fail.Keys == {};
  }

  /** Aggregating two batches together adds their totals and unions their task
      names: the totals are sums, so the merge is the same in any grouping. */
  lemma AggregateConcat(a: seq<ResultRecord>, b: seq<ResultRecord>)
    ensures Aggregate(a + b).numRequests == Aggregate(a).numRequests + Aggregate(b).numRequests
    ensures Aggregate(a + b).numRequestsFail == Aggregate(a).numRequestsFail + Aggregate(b).numRequestsFail
    ensures Aggregate(a + b).numRequestsSuccess == Aggregate(a).numRequestsSuccess + Aggregate(b).numRequestsSuccess
    ensures Aggregate(a + b).totalTime == Aggregate(a).totalTime + Aggregate(b).totalTime
    ensures Aggregate(a + b).invocations == Aggregate(a).invocations + Aggregate(b).invocations
    ensures Aggregate(a + b).success.Keys == Aggregate(a).success.Keys + Aggregate(b).success.Keys
    ensures Aggregate(a + b).fail.Keys == Aggregate(a).fail.Keys + Aggregate(b).fail.Keys
  {
    AggregateFields(a);
    AggregateFields(b);
    AggregateFields(a + b);
    SumOfConcat(a, b, NumRequests);
    SumOfConcat(a, b, NumRequestsFail);
    SumOfConcat(a, b, NumRequestsSuccess);
    SumOfConcat(a, b, ExecutionTime);
    TasksConcat(a, b);
  }

  /** The totals are the same for either order of two batches of records. */
  lemma AggregateTotalsCommute(a: seq<ResultRecord>, b: seq<ResultRecord>)
    ensures Aggregate(a + b).numRequests == Aggregate(b + a).numRequests
    ensures Aggregate(a + b).numRequestsFail == Aggregate(b + a).numRequestsFail
    ensures Aggregate(a + b).numRequestsSuccess == Aggregate(b + a).numRequestsSuccess
    ensures Aggregate(a + b).totalTime == Aggregate(b + a).totalTime
    ensures Aggregate(a + b).invocations == Aggregate(b + a).invocations
  {
    AggregateFields(a + b);
    AggregateFields(b + a);
    SumOfConcat(a, b, NumRequests);
    SumOfConcat(b, a, NumRequests);
    SumOfConcat(a, b, NumRequestsFail);
    SumOfConcat(b, a, NumRequestsFail);
    SumOfConcat(a, b, NumRequestsSuccess);
    SumOfConcat(b, a, NumRequestsSuccess);
    SumOfConcat(a, b, ExecutionTime);
    SumOfConcat(b, a, ExecutionTime);
  }

  /** The task names are the same for either order of two batches, too. */
  lemma AggregateTasksCommute(a: seq<ResultRecord>, b: seq<ResultRecord>)
    ensures Aggregate(a + b).success.Keys == Aggregate(b + a).success.Keys
    ensures Aggregate(a + b).fail.Keys == Aggregate(b + a).fail.Keys
  {
    AggregateFields(a + b);
    AggregateFields(b + a);
    TasksConcat(a, b);
    TasksConcat(b, a);
  }

  lemma AggregateFields(records: seq<ResultRecord>)
    ensures Aggregate(records).numRequests == SumOf(records, NumRequests)
    ensures Aggregate(records).numRequestsFail == SumOf(records, NumRequestsFail)
    ensures Aggregate(records).numRequestsSuccess == SumOf(records, NumRequestsSuccess)
    ensures Aggregate(records).totalTime == SumOf(records, ExecutionTime)
    ensures Aggregate(records).success.Keys == SuccessTasks(records)
    ensures Aggregate(records).fail.Keys == FailTasks(records)
  {
  }

  lemma TasksConcat(a: seq<ResultRecord>, b: seq<ResultRecord>)
    ensures SuccessTasks(a + b) == SuccessTasks(a) + SuccessTasks(b)
    ensures FailTasks(a + b) == FailTasks(a) + FailTasks(b)
  {
    var ab := a + b;
    assert forall i :: 0 <= i < |a| ==> ab[i] == a[i];
    assert forall i :: 0 <= i < |b| ==> ab[|a| + i] == b[i];
    forall t | t in SuccessTasks(ab)
      ensures t in SuccessTasks(a) + SuccessTasks(b)
    {
      var i :| 0 <= i < |ab| && t in ab[i].success;
      if i >= |a| {
        assert ab[|a| + (i - |a|)] == b[i - |a|];
      }
    }
    forall t | t in FailTasks(ab)
      ensures t in FailTasks(a) + FailTasks(b)
    {
      var i :| 0 <= i < |ab| && t in ab[i].fail;
      if i >= |a| {
        assert ab[|a| + (i - |a|)] == b[i - |a|];
      }
    }
  }

  /** A single record's totals are its own counters and its execution time. */
  lemma AggregateSingle(r: ResultRecord)
    ensures Aggregate([r]).numRequests == r.numRequests
    ensures Aggregate([r]).numRequestsFail == r.numRequestsFail
    ensures Aggregate([r]).numRequestsSuccess == r.numRequestsSuccess
    ensures Aggregate([r]).totalTime == LambdaTimeoutMs - r.remainingTime
    ensures Aggregate([r]).invocations == 1
  {
    var agg := Aggregate([r]);
    assert [r][..0] == [];
    assert SumOf([r], NumRequests) == NumRequests(r);
    assert SumOf([r], NumRequestsFail) == NumRequestsFail(r);
    assert SumOf([r], NumRequestsSuccess) == NumRequestsSuccess(r);
    assert SumOf([r], ExecutionTime) == ExecutionTime(r);
  }

  /** `sum(occurences)` over the records that report `task` as failing. */
  function OccurrenceTotal(records: seq<ResultRecord>, task: string): int
  {
    if records == [] then 0
    else (if task in records[0].fail then records[0].fail[task].occurrences else 0)
         + OccurrenceTotal(records[1..], task)
  }

  lemma {:induction false} ColumnOccurrences(records: seq<ResultRecord>, task: string)
    ensures var col := FailColumn(records, task);
      Sum(seq(|col|, i requires 0 <= i < |col| => col[i].occurrences)) == OccurrenceTotal(records, task)
  {
    if records != [] {
      ColumnOccurrences(records[1..], task);
      var rest := FailColumn(records[1..], task);
      var restOcc := seq(|rest|, i requires 0 <= i < |rest| => rest[i].occurrences);
      if task in records[0].fail {
        var col := FailColumn(records, task);
        var occ := seq(|col|, i requires 0 <= i < |col| => col[i].occurrences);
        assert occ == [records[0].fail[task].occurrences] + restOcc;
        SumCons(records[0].fail[task].occurrences, restOcc);
      } else {
        assert FailColumn(records, task) == rest;
      }
    }
  }

  /** A failing task's merged entry is computed from that task's column. */
  lemma AggregateFailEntry(records: seq<ResultRecord>, task: string)
    requires task in FailTasks(records)
    ensures task in Aggregate(records).fail
    ensures FailColumn(records, task) != []
    ensures Aggregate(records).fail[task] == MergedFail(records, task)
  {
  }

  /** Each failing task's merged entry is the first contributing record's
      descriptor, with the occurrences summed over every record that reports it. */
  lemma AggregateFailOccurrences(records: seq<ResultRecord>, task: string)
    requires exists i :: 0 <= i < |records| && task in records[i].fail
    ensures task in Aggregate(records).fail
    ensures FirstFail(records, task) < |records|
    ensures Aggregate(records).fail[task]
         == records[FirstFail(records, task)].fail[task].(occurrences := OccurrenceTotal(records, task))
  {
    AggregateFailEntry(records, task);
    FailColumnHead(records, task);
    ColumnOccurrences(records, task);
  }

  /** A success task's merged entry is computed from that task's column. */
  lemma AggregateSuccessEntry(records: seq<ResultRecord>, task: string)
    requires task in SuccessTasks(records)
    ensures task in Aggregate(records).success
    ensures Aggregate(records).success[task] == TaskStats(SuccessColumn(records, task))
  {
  }

  /** The success column holds exactly the entries of the records that report
      the task: each reporting record's entry is in it, and each of its entries
      comes from a reporting record. */
  lemma {:induction false} SuccessColumnEntries(records: seq<ResultRecord>, task: string)
    ensures forall i :: 0 <= i < |records| && task in records[i].success ==>
              records[i].success[task] in SuccessColumn(records, task)
    ensures forall e :: e in SuccessColumn(records, task) ==>
              exists i :: 0 <= i < |records| && task in records[i].success && records[i].success[task] == e
  {
    if records != [] {
      var tail := records[1..];
      SuccessColumnEntries(tail, task);
      assert forall i :: 1 <= i < |records| ==> records[i] == tail[i - 1];
      forall e | e in SuccessColumn(tail, task)
        ensures exists i :: 0 <= i < |records| && task in records[i].success && records[i].success[task] == e
      {
        var j :| 0 <= j < |tail| && task in tail[j].success && tail[j].success[task] == e;
        assert records[j + 1] == tail[j];
      }
    }
  }

  /** The aggregate's minimum of a task is at most the minimum any record
      reports for it, and its maximum at least the maximum any record reports. */
  lemma AggregateSuccessBounds(records: seq<ResultRecord>, task: string, i: nat)
    requires i < |records| && task in records[i].success
    ensures task in Aggregate(records).success
    ensures records[i].success[task].minResponseTime.Some? ==>
              Aggregate(records).success[task].minResponseTime <= records[i].success[task].minResponseTime.value
    ensures records[i].success[task].maxResponseTime.Some? ==>
              records[i].success[task].maxResponseTime.value <= Aggregate(records).success[task].maxResponseTime
  {
    var col := SuccessColumn(records, task);
    SuccessColumnEntries(records, task);
    var j :| 0 <= j < |col| && col[j] == records[i].success[task];
    AggregateSuccessEntry(records, task);
    TaskStatsBounds(col);
  }

  lemma ColumnOfTwo(e1: SuccessEntry, e2: SuccessEntry, r1: ResultRecord, r2: ResultRecord)
    requires r1.success == map["task" := e1] && r2.success == map["task" := e2]
    ensures "task" in SuccessTasks([r1, r2])
    ensures SuccessColumn([r1, r2], "task") == [e1, e2]
  {
    var records := [r1, r2];
    assert "task" in records[0].success;
    assert records[1..] == [r2];
    assert [r2][1..] == [];
  }

  lemma MeanOfTwoMedians(e1: SuccessEntry, e2: SuccessEntry)
    requires e1.medianResponseTime == 100.0 && e2.medianResponseTime == 200.0
    ensures TaskStats([e1, e2]).medianResponseTime == 150.0
  {
    assert Medians([e1, e2]) == [100.0, 200.0];
    assert [100.0, 200.0][..1] == [100.0];
    assert [100.0][..0] == [];
  }

  /** Two records for one task with medians 100 and 200 merge to a median of
      150: a mean of the per-invocation medians, not a recomputed median. */
  lemma MedianMeanOfTwo(e1: SuccessEntry, e2: SuccessEntry, r1: ResultRecord, r2: ResultRecord)
    requires e1.medianResponseTime == 100.0 && e2.medianResponseTime == 200.0
    requires r1.success == map["task" := e1] && r2.success == map["task" := e2]
    ensures "task" in Aggregate([r1, r2]).success
    ensures Aggregate([r1, r2]).success["task"].medianResponseTime == 150.0
  {
    ColumnOfTwo(e1, e2, r1, r2);
    AggregateSuccessEntry([r1, r2], "task");
    MeanOfTwoMedians(e1, e2);
  }

  // ---------------------------------------------------------------------------
  // The aggregation as the code is written

  /** The shape `dict.fromkeys(successful_tasks, {})` leaves behind: the keys are
      the success task names and all of them refer to ONE dict, which holds the
      statistics of whichever task the loop handled last. */
  ghost predicate SharedStats(records: seq<ResultRecord>, success: map<string, TaskSummary>)
  {
    && success.Keys == SuccessTasks(records)
    && (success != map[] ==>
          exists last :: last in success &&
            forall t :: t in success ==> success[t] == TaskStats(SuccessColumn(records, last)))
  }

  /** The body of the success loop (lines 72-80): the statistics of one task
      from the entries that report it, with the response-time histogram built
      by `MergeResponseTimes`. */
  method ComputeTaskStats(data: seq<SuccessEntry>) returns (stats: TaskSummary)
    ensures stats == TaskStats(data)
    ensures stats.totalRpm == stats.totalRps * 60.0
    ensures |stats.histogram| == HistogramBins
  {
    var rps := Mean(Rps(data));
    var histogram := MergeResponseTimes(PresentTimes(data));
    stats := TaskSummary(
      Mean(Medians(data)), rps, Mean(Averages(data)),
      GetMax(MaxTimes(data)), GetMin(MinTimes(data)),
      histogram, rps * 60.0);
  }

  /** The success loop (lines 71-80).  Every key of the result dict refers to the
      same dict object, so each iteration overwrites the statistics that every
      task shows; `shared` stands for that one object.  The loop visits the
      tasks in set order, which Python does not fix: `:|` picks any. */
  method AggregateSuccess(records: seq<ResultRecord>) returns (success: map<string, TaskSummary>)
    ensures SharedStats(records, success)
  {
    var tasks := SuccessTasks(records);
    var shared := TaskSummary(0.0, 0.0, 0.0, 0.0, 0.0, [], 0.0);
    var remaining := tasks;
    ghost var last := "";
    while remaining != {}
      invariant remaining <= tasks
      invariant remaining != tasks ==> last in tasks && shared == TaskStats(SuccessColumn(records, last))
      decreases remaining
    {
      var task :| task in remaining;
      shared := ComputeTaskStats(SuccessColumn(records, task));
      last := task;
      remaining := remaining - {task};
    }
    success := map t | t in tasks :: shared;
    SharedStatsOfConstant(records, shared, last);
  }

  /** `dict.fromkeys(tasks, v)`: every key of `tasks`, each mapped to `v`. */
  lemma ConstantMap(tasks: set<string>, v: TaskSummary)
    ensures (map t | t in tasks :: v).Keys == tasks
    ensures forall t :: t in tasks ==> (map t | t in tasks :: v)[t] == v
    ensures (map t | t in tasks :: v) != map[] <==> tasks != {}
  {
    var m := map t | t in tasks :: v;
    if tasks != {} {
      var k :| k in tasks;
      assert k in m;
    }
  }

  /** A dict whose keys all hold the statistics of one success task is what
      `SharedStats` describes. */
  lemma SharedStatsOfConstant(records: seq<ResultRecord>, shared: TaskSummary, last: string)
    requires SuccessTasks(records) != {} ==>
               last in SuccessTasks(records) && shared == TaskStats(SuccessColumn(records, last))
    ensures SharedStats(records, map t | t in SuccessTasks(records) :: shared)
  {
    var tasks := SuccessTasks(records);
    var success := map t | t in tasks :: shared;
    ConstantMap(tasks, shared);
    if success != map[] {
      assert last in success && success[last] == shared;
    }
  }

  /** The input records once the fail loop has handled the tasks in `done`: for
      each of them, the entry of the first record that reports it has been
      replaced by the merged entry, because line 84 stores that very dict in the
      result and line 85 then writes the summed occurrences into it. */
  function WriteBackDone(records: seq<ResultRecord>, done: set<string>): (after: seq<ResultRecord>)
    ensures |after| == |records|
    ensures forall i :: 0 <= i < |records| ==> after[i] == records[i].(fail := RewrittenFail(records, done, i))
  {
    seq(|records|, i requires 0 <= i < |records| => records[i].(fail := RewrittenFail(records, done, i)))
  }

  /** The failure entries of record `i` once the tasks in `done` are handled. */
  function RewrittenFail(records: seq<ResultRecord>, done: set<string>, i: nat): map<string, FailEntry>
    requires i < |records|
  {
    map t | t in records[i].fail ::
      if t in done && FirstFail(records, t) == i then MergedFail(records, t) else records[i].fail[t]
  }

  lemma RewrittenFailStep(records: seq<ResultRecord>, done: set<string>, task: string, i: nat)
    requires i < |records|
    requires task !in done
    ensures i != FirstFail(records, task) ==>
              RewrittenFail(records, done + {task}, i) == RewrittenFail(records, done, i)
    ensures i == FirstFail(records, task) ==>
              RewrittenFail(records, done + {task}, i)
                == RewrittenFail(records, done, i)[task := MergedFail(records, task)]
  {
  }

  lemma WriteBackNothing(records: seq<ResultRecord>)
    ensures WriteBackDone(records, {}) == records
  {
    var w := WriteBackDone(records, {});
    forall i | 0 <= i < |records|
      ensures w[i] == records[i]
    {
      assert w[i].fail == records[i].fail;
    }
  }

  /** The input records as the whole fail loop leaves them: every failing
      task's entry in the first record that reports it holds the merged entry,
      and every other entry and every other field is as it was. */
  function WriteBack(records: seq<ResultRecord>): (after: seq<ResultRecord>)
    ensures |after| == |records|
    ensures forall i :: 0 <= i < |records| ==>
              after[i] == records[i].(fail := after[i].fail) && after[i].fail.Keys == records[i].fail.Keys
    ensures forall i, t :: 0 <= i < |records| && t in records[i].fail ==>
              t in after[i].fail
              && after[i].fail[t] == if FirstFail(records, t) == i then MergedFail(records, t) else records[i].fail[t]
  {
    WriteBackAll(records);
    WriteBackDone(records, FailTasks(records))
  }

  /** Once every failing task is handled, the rewritten entries are exactly the
      first reporters' ones. */
  lemma WriteBackAll(records: seq<ResultRecord>)
    ensures forall i, t :: 0 <= i < |records| && t in records[i].fail ==>
              t in FailTasks(records) && FailColumn(records, t) != []
              && RewrittenFail(records, FailTasks(records), i)[t]
                 == if FirstFail(records, t) == i then MergedFail(records, t) else records[i].fail[t]
  {
    forall i, t | 0 <= i < |records| && t in records[i].fail
      ensures t in FailTasks(records) && FailColumn(records, t) != []
    {
    }
  }

  /** Rewriting the entries of other tasks leaves `task`'s column and first
      contributor as they were. */
  lemma WriteBackKeepsOthers(records: seq<ResultRecord>, done: set<string>, task: string)
    requires task !in done
    ensures FailColumn(WriteBackDone(records, done), task) == FailColumn(records, task)
    ensures FirstFail(WriteBackDone(records, done), task) == FirstFail(records, task)
  {
    FailColumnAgree(WriteBackDone(records, done), records, task);
  }

  /** Handling one more task rewrites exactly one entry: that task's, in its
      first contributing record. */
  lemma WriteBackStep(records: seq<ResultRecord>, done: set<string>, task: string)
    requires task !in done
    requires FailColumn(records, task) != []
    ensures FirstFail(records, task) < |records|
    ensures var w := WriteBackDone(records, done);
      var k := FirstFail(records, task);
      WriteBackDone(records, done + {task})
        == w[k := w[k].(fail := w[k].fail[task := MergedFail(records, task)])]
  {
    FailColumnHead(records, task);
    var w := WriteBackDone(records, done);
    var w' := WriteBackDone(records, done + {task});
    var k := FirstFail(records, task);
    var v := w[k := w[k].(fail := w[k].fail[task := MergedFail(records, task)])];
    forall i | 0 <= i < |records|
      ensures w'[i] == v[i]
    {
      RewrittenFailStep(records, done, task, i);
    }
  }

  lemma SetStep(tasks: set<string>, done: set<string>, remaining: set<string>, task: string)
    requires done <= tasks && remaining == tasks - done && task in remaining
    ensures task in tasks && task !in done && done + {task} <= tasks
    ensures remaining - {task} == tasks - (done + {task})
  {
  }

  /** One turn of the fail loop: the task's column is read unchanged from the
      partly rewritten list, and the turn rewrites exactly that task's entry in
      its first contributing record. */
  lemma FailLoopStep(records: seq<ResultRecord>, done: set<string>, task: string)
    requires task !in done && task in FailTasks(records)
    ensures FailColumn(records, task) != []
    ensures var w := WriteBackDone(records, done);
      var k := FirstFail(records, task);
      k < |w| && FailColumn(w, task) == FailColumn(records, task) && FirstFail(w, task) == k
      && WriteBackDone(records, done + {task})
           == w[k := w[k].(fail := w[k].fail[task := MergedFail(records, task)])]
  {
    AggregateFailEntry(records, task);
    WriteBackKeepsOthers(records, done, task);
    WriteBackStep(records, done, task);
  }

  /** A map holding the merged entry of every failing task is the intended
      `fail` part. */
  lemma FailEntriesAggregate(records: seq<ResultRecord>, fail: map<string, FailEntry>)
    requires fail.Keys == FailTasks(records)
    requires MergedUpTo(records, fail, fail.Keys)
    ensures fail == Aggregate(records).fail
  {
    var m := Aggregate(records).fail;
    AggregateFields(records);
    forall t | t in fail
      ensures m[t] == fail[t]
    {
      AggregateFailEntry(records, t);
    }
    MapsAgree(fail, m);
  }

  lemma MapsAgree(m1: map<string, FailEntry>, m2: map<string, FailEntry>)
    requires m1.Keys == m2.Keys
    requires forall t :: t in m1 ==> m1[t] == m2[t]
    ensures m1 == m2
  {
  }

  lemma SetDone(tasks: set<string>, done: set<string>)
    requires done <= tasks && tasks - done == {}
    ensures done == tasks
  {
    forall x | x in tasks
      ensures x in done
    {
      assert x !in tasks - done;
    }
  }

  /** Every task of `done` holds its merged entry in `fail`. */
  ghost predicate MergedUpTo(records: seq<ResultRecord>, fail: map<string, FailEntry>, done: set<string>)
  {
    forall t :: t in done ==> t in fail && FailColumn(records, t) != [] && fail[t] == MergedFail(records, t)
  }

  lemma MergedStep(records: seq<ResultRecord>, fail: map<string, FailEntry>, done: set<string>,
                   task: string, entry: FailEntry)
    requires MergedUpTo(records, fail, done) && task in fail
    requires FailColumn(records, task) != [] && entry == MergedFail(records, task)
    ensures fail[task := entry].Keys == fail.Keys
    ensures MergedUpTo(records, fail[task := entry], done + {task})
  {
  }

  /** The fail loop (lines 82-85): each failing task gets the merged entry, and
      the input list is changed as `WriteBack` says. */
  method AggregateFail(records: seq<ResultRecord>) returns (fail: map<string, FailEntry>, recordsAfter: seq<ResultRecord>)
    ensures fail == Aggregate(records).fail
    ensures recordsAfter == WriteBack(records)
  {
    var tasks := FailTasks(records);
    // dict.fromkeys(failed_tasks, {}); each key is rebound below
    fail := map t | t in tasks :: FailEntry(0, "", "", "");
    recordsAfter := records;
    WriteBackNothing(records);
    var remaining := tasks;
    ghost var done: set<string> := {};
    while remaining != {}
      invariant done <= tasks && remaining == tasks - done
      invariant fail.Keys == tasks && MergedUpTo(records, fail, done)
      invariant recordsAfter == WriteBackDone(records, done)
      decreases remaining
    {
      var task :| task in remaining;
      SetStep(tasks, done, remaining, task);
      FailLoopStep(records, done, task);
      var column := FailColumn(recordsAfter, task);
      var first := FirstFail(recordsAfter, task);
      var entry := MergeColumn(column);
      MergedStep(records, fail, done, task, entry);
      fail := fail[task := entry];
      recordsAfter := recordsAfter[first := recordsAfter[first].(fail := recordsAfter[first].fail[task := entry])];
      done := done + {task};
      remaining := remaining - {task};
    }
    SetDone(tasks, done);
    FailEntriesAggregate(records, fail);
  }

  /** `results_aggregator` as written: the totals and the failures are those of
      `Aggregate`, but every success task shows one shared set of statistics,
      and the input list comes back with its first failure entries rewritten. */
  method ResultsAggregator(records: seq<ResultRecord>) returns (agg: AggResults, recordsAfter: seq<ResultRecord>)
    ensures agg == Aggregate(records).(success := agg.success)
    ensures SharedStats(records, agg.success)
    ensures recordsAfter == WriteBack(records)
  {
    var totalTime := SumOf(records, ExecutionTime);
    var success := AggregateSuccess(records);
    var fail;
    fail, recordsAfter := AggregateFail(records);
    agg := AggResults(
      success, fail,
      SumOf(records, NumRequests),
      SumOf(records, NumRequestsFail),
      SumOf(records, NumRequestsSuccess),
      totalTime,
      |records|);
  }

  // ---------------------------------------------------------------------------
  // The two discrepancies, on concrete inputs

  lemma ColumnsOfOne(r: ResultRecord, ea: SuccessEntry, eb: SuccessEntry)
    requires r.success == map["a" := ea, "b" := eb]
    ensures SuccessTasks([r]) == {"a", "b"}
    ensures SuccessColumn([r], "a") == [ea] && SuccessColumn([r], "b") == [eb]
  {
    var records := [r];
    assert records[1..] == [];
    assert "a" in records[0].success && "b" in records[0].success;
  }

  /** With the shared dict, any two tasks report the same statistics. */
  lemma SharedStatsAllEqual(records: seq<ResultRecord>, success: map<string, TaskSummary>, a: string, b: string)
    requires SharedStats(records, success)
    requires a in success && b in success
    ensures success[a] == success[b]
  {
    var last :| last in success &&
      forall t :: t in success ==> success[t] == TaskStats(SuccessColumn(records, last));
  }

  lemma MedianOfOne(e: SuccessEntry)
    ensures TaskStats([e]).medianResponseTime == e.medianResponseTime
  {
    var xs := Medians([e]);
    assert xs == [e.medianResponseTime];
    assert xs[..0] == [];
    assert RealSum(xs) == e.medianResponseTime;
  }

  /** A record reporting tasks "a" and "b" with medians 100 and 200 aggregates
      to those two medians. */
  lemma TwoTaskMedians(r: ResultRecord, ea: SuccessEntry, eb: SuccessEntry)
    requires ea.medianResponseTime == 100.0 && eb.medianResponseTime == 200.0
    requires r.success == map["a" := ea, "b" := eb]
    ensures SuccessTasks([r]) == {"a", "b"}
    ensures "a" in Aggregate([r]).success && Aggregate([r]).success["a"].medianResponseTime == 100.0
    ensures "b" in Aggregate([r]).success && Aggregate([r]).success["b"].medianResponseTime == 200.0
  {
    ColumnsOfOne(r, ea, eb);
    MedianOfOne(ea);
    MedianOfOne(eb);
    AggregateSuccessEntry([r], "a");
    AggregateSuccessEntry([r], "b");
  }

  /** The same record: with the shared dict both tasks report the same
      statistics, so no result of the loop as written is the intended one. */
  lemma SharedStatsMisreport(r: ResultRecord, ea: SuccessEntry, eb: SuccessEntry, success: map<string, TaskSummary>)
    requires ea.medianResponseTime == 100.0 && eb.medianResponseTime == 200.0
    requires r.success == map["a" := ea, "b" := eb]
    requires SharedStats([r], success)
    ensures "a" in success && "b" in success && success["a"] == success["b"]
    ensures success != Aggregate([r]).success
  {
    TwoTaskMedians(r, ea, eb);
    assert "a" in success && "b" in success;
    SharedStatsAllEqual([r], success, "a", "b");
  }

  /** A failure entry of task "x" with one occurrence. */
  function OneFailure(): FailEntry
  {
    FailEntry(1, "GET", "/", "timeout")
  }

  /** The merged entry of two records that each report one failure of "x"
      counts 2 occurrences. */
  lemma MergedFailOfTwo(r: ResultRecord)
    requires r.fail == map["x" := OneFailure()]
    ensures FailColumn([r, r], "x") != []
    ensures MergedFail([r, r], "x") == OneFailure().(occurrences := 2)
  {
    var records := [r, r];
    assert records[1..] == [r] && [r][1..] == [];
    assert OccurrenceTotal([r], "x") == 1;
    assert "x" in records[0].fail;
    FailColumnHead(records, "x");
    ColumnOccurrences(records, "x");
  }

  lemma RewrittenFailOfTwo(r: ResultRecord)
    requires r.fail == map["x" := OneFailure()]
    ensures RewrittenFail([r, r], {"x"}, 0) == map["x" := OneFailure().(occurrences := 2)]
    ensures RewrittenFail([r, r], {"x"}, 1) == r.fail
  {
    var records := [r, r];
    assert FirstFail(records, "x") == 0;
    MergedFailOfTwo(r);
    assert records[0].fail.Keys == {"x"};
  }

  /** After the write-back the first of the two records carries the sum of
      both records' occurrences. */
  lemma WriteBackOfTwo(r: ResultRecord)
    requires r.fail == map["x" := OneFailure()]
    ensures WriteBack([r, r]) == [r.(fail := map["x" := OneFailure().(occurrences := 2)]), r]
  {
    var records := [r, r];
    assert "x" in records[0].fail;
    assert FailTasks(records) == {"x"};
    RewrittenFailOfTwo(r);
    var after := WriteBackDone(records, {"x"});
    assert after[0] == records[0].(fail := RewrittenFail(records, {"x"}, 0));
    assert after[1] == records[1].(fail := RewrittenFail(records, {"x"}, 1));
  }

  /** Merging the written-back pair counts the first record's 2 and the
      second's 1. */
  lemma MergedFailAfterWriteBack(r: ResultRecord)
    requires r.fail == map["x" := OneFailure()]
    ensures var after := [r.(fail := map["x" := OneFailure().(occurrences := 2)]), r];
      "x" in Aggregate(after).fail && Aggregate(after).fail["x"].occurrences == 3
  {
    var r2 := r.(fail := map["x" := OneFailure().(occurrences := 2)]);
    var after := [r2, r];
    assert "x" in after[0].fail;
    AggregateFailOccurrences(after, "x");
    assert after[1..] == [r] && [r][1..] == [];
    assert OccurrenceTotal([r], "x") == 1;
  }

  /** Two records with one failure of "x" each merge to 2 occurrences; merging
      the same list again after the write-back gives 3, so the aggregation as
      written is not repeatable. */
  lemma WriteBackDoubleCounts(r: ResultRecord)
    requires r.fail == map["x" := OneFailure()]
    ensures "x" in Aggregate([r, r]).fail
    ensures Aggregate([r, r]).fail["x"].occurrences == 2
    ensures "x" in Aggregate(WriteBack([r, r])).fail
    ensures Aggregate(WriteBack([r, r])).fail["x"].occurrences == 3
  {
    var records := [r, r];
    assert "x" in records[0].fail;
    AggregateFailEntry(records, "x");
    MergedFailOfTwo(r);
    WriteBackOfTwo(r);
    MergedFailAfterWriteBack(r);
  }
}
