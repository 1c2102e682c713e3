/** The bookkeeping of a load test that runs locust on many parallel Lambda
    invocations (`LambdaLoadTest` in invokust/aws_lambda/lambda_load_test.py).

    Worker threads invoke the function, count invocations and errors, collect
    the result records, add up the request counters and keep per-thread data;
    the control loop decides when to start another thread and when to stop.
    Wall-clock time and the number of live threads are parameters here, and the
    outcome of one invocation is an input. */
module Coordinator {
  import opened Numeric
  import opened Aggregator

  /** More invocation errors than this stop the test. */
  const MaxInvocationErrors: int := 20

  /** Seconds a worker waits after a failed invocation. */
  const RetryDelay: int := 2

  /** What one Lambda invocation came back with. */
  datatype Outcome =
    | InvokeFailed                                 // the invoke call raised
    | FunctionError                                // the response carries a function error
    | EmptyPayload                                 // the payload decodes to a falsy value
    | Completed(results: ResultRecord, rpm: real)  // rpm: this call's requests per minute

  /** What a worker does once an iteration is over. */
  datatype Step = Exit | Sleep(seconds: int)

  /** Why the control loop stops, if it does. */
  datatype StopReason = KeepRunning | ErrorLimit | TimeLimit

  /** One pass of the control loop: whether it starts a thread, and whether it stops. */
  datatype Decision = Decision(spawn: bool, stop: StopReason)

  /** `thread_data`: per thread name, its named values. */
  type ThreadData = map<string, map<string, real>>

  /** The part of the object that its methods change.  `threadOrder` is the
      insertion order of `threadData`'s keys, which Python dicts keep. */
  datatype State = State(
    invocationErrors: nat,
    invocationCount: nat,
    totalExecutionTime: int,
    requestsSuccess: int,
    requestsFail: int,
    requestsTotal: int,
    locustResults: seq<ResultRecord>,
    threadData: ThreadData,
    threadOrder: seq<string>,
    exitThreads: bool)

  function InitialState(): State
  {
    State(0, 0, 0, 0, 0, 0, [], map[], [], false)
  }

  // ---------------------------------------------------------------------------
  // Per-thread data

  /** `thread_data` once `key` of thread `t` is set to `value`: the thread's
      entry is created when missing, and nothing else changes. */
  function WithThreadDatum(data: ThreadData, t: string, key: string, value: real): (r: ThreadData)
    ensures r.Keys == data.Keys + {t}
    ensures key in r[t] && r[t][key] == value
    ensures r[t].Keys == (if t in data then data[t].Keys else {}) + {key}
    ensures t in data ==> forall k :: k in data[t] && k != key ==> r[t][k] == data[t][k]
    ensures forall u :: u in data && u != t ==> r[u] == data[u]
  {
    var entry := if t in data then data[t] else map[];
    data[t := entry[key := value]]
  }

  /** The key order of `thread_data` once thread `t` has an entry. */
  function OrderAfter(order: seq<string>, data: ThreadData, t: string): seq<string>
  {
    if t in data then order else order + [t]
  }

  /** `order` lists every thread of `data` exactly once. */
  predicate OrderMatches(order: seq<string>, data: ThreadData)
  {
    && (forall i, j :: 0 <= i < j < |order| ==> order[i] != order[j])
    && (forall t :: t in data ==> t in order)
    && (forall t :: t in order ==> t in data)
  }

  /** The rpm a thread has reported, or nothing. */
  function RpmOf(data: ThreadData, t: string): real
  {
    if t in data && "rpm" in data[t] then data[t]["rpm"] else 0.0
  }

  /** The sum of the reported rpm over the threads, in `thread_data` order. */
  function RpmTotal(order: seq<string>, data: ThreadData): real
  {
    if order == [] then 0.0 else RpmTotal(order[..|order| - 1], data) + RpmOf(data, order[|order| - 1])
  }

  lemma {:induction false} RpmTotalSame(order: seq<string>, d1: ThreadData, d2: ThreadData)
    requires forall t :: t in order ==> RpmOf(d1, t) == RpmOf(d2, t)
    ensures RpmTotal(order, d1) == RpmTotal(order, d2)
  {
    if order != [] {
      RpmTotalSame(order[..|order| - 1], d1, d2);
    }
  }

  /** Changing one thread's rpm changes the total by the difference, once. */
  lemma {:induction false} RpmTotalChange(order: seq<string>, d1: ThreadData, d2: ThreadData, t: string)
    requires forall i, j :: 0 <= i < j < |order| ==> order[i] != order[j]
    requires forall u :: u != t ==> RpmOf(d1, u) == RpmOf(d2, u)
    ensures RpmTotal(order, d2) == RpmTotal(order, d1) + (if t in order then RpmOf(d2, t) - RpmOf(d1, t) else 0.0)
  {
    if order != [] {
      var init, last := order[..|order| - 1], order[|order| - 1];
      RpmTotalChange(init, d1, d2, t);
      if last == t {
        assert t !in init by {
          forall i | 0 <= i < |init| ensures init[i] != t {
            assert order[i] != order[|order| - 1];
          }
        }
      } else {
        assert t in order <==> t in init by {
          if t in order {
            var i :| 0 <= i < |order| && order[i] == t;
            assert init[i] == t;
          }
        }
      }
    }
  }

  /** `update_thread_data` keeps the key order in step with the dict, and moves
      the rpm total by exactly the change to that thread's rpm. */
  lemma RpmAfterUpdate(order: seq<string>, data: ThreadData, t: string, key: string, value: real)
    requires OrderMatches(order, data)
    ensures OrderMatches(OrderAfter(order, data, t), WithThreadDatum(data, t, key, value))
    ensures RpmTotal(OrderAfter(order, data, t), WithThreadDatum(data, t, key, value))
              == RpmTotal(order, data) - RpmOf(data, t)
                 + (if key == "rpm" then value else RpmOf(data, t))
  {
    var d2 := WithThreadDatum(data, t, key, value);
    var order2 := OrderAfter(order, data, t);
    if t in data {
      RpmTotalChange(order, data, d2, t);
    } else {
      assert t !in order;
      RpmTotalChange(order, data, d2, t);
      assert order2[..|order2| - 1] == order;
      forall i, j | 0 <= i < j < |order2| ensures order2[i] != order2[j] {
        if j == |order| { assert order[i] in order; }
      }
    }
  }

  lemma OrderAfterUpdate(order: seq<string>, data: ThreadData, t: string, key: string, value: real)
    requires OrderMatches(order, data)
    ensures OrderMatches(OrderAfter(order, data, t), WithThreadDatum(data, t, key, value))
  {
    RpmAfterUpdate(order, data, t, key, value);
  }

  // ---------------------------------------------------------------------------
  // Ratios and the cool-down

  /** `a / float(b)`, with 0 when `b` is 0. */
  function Ratio(a: int, b: int): (r: real)
    ensures b == 0 ==> r == 0.0
    ensures b != 0 ==> r * b as real == a as real
  {
    if b == 0 then 0.0 else a as real / b as real
  }

  /** A ratio above one half, by integer cross-multiplication. */
  lemma RatioAboveHalf(a: int, b: int)
    ensures Ratio(a, b) > 0.5 <==> (b > 0 && 2 * a > b) || (b < 0 && 2 * a < b)
  {
    if b > 0 {
      QuotientAboveHalf(a as real, b as real);
    } else if b < 0 {
      assert a as real / b as real == (-a) as real / (-b) as real;
      QuotientAboveHalf((-a) as real, (-b) as real);
    }
  }

  lemma QuotientAboveHalf(x: real, y: real)
    requires y > 0.0
    ensures x / y > 0.5 <==> 2.0 * x > y
  {
    var q := x / y;
    assert q * y == x;
    if q > 0.5 {
      assert q * y > 0.5 * y;
    } else {
      assert q * y <= 0.5 * y;
    }
  }

  /** The seconds a worker sleeps after a completed invocation: none without a
      ramp-up, otherwise a thirtieth of the ramp-up time still to go, rounded. */
  function SleepTime(rampTime: int, threadRunTime: real): (r: int)
    ensures r >= 0
    ensures rampTime == 0 || threadRunTime >= rampTime as real ==> r == 0
    ensures rampTime != 0 && threadRunTime < rampTime as real ==>
              (rampTime as real - threadRunTime) / 30.0 - 0.5 <= r as real <= (rampTime as real - threadRunTime) / 30.0 + 0.5
    ensures rampTime != 0 && threadRunTime < rampTime as real ==>
              var x := (rampTime as real - threadRunTime) / 30.0;
              r as real - x == 0.5 || x - r as real == 0.5 ==> r % 2 == 0
  {
    if rampTime == 0 then 0
    else
      var left := rampTime as real - threadRunTime;
      RoundHalfEven((if left > 0.0 then left else 0.0) / 30.0)
  }

  /** Workers that have run longer never sleep longer. */
  lemma SleepTimeNonIncreasing(rampTime: int, t1: real, t2: real)
    requires t1 <= t2
    ensures SleepTime(rampTime, t2) <= SleepTime(rampTime, t1)
  {
    if rampTime != 0 {
      var l1, l2 := rampTime as real - t1, rampTime as real - t2;
      RoundMonotone((if l2 > 0.0 then l2 else 0.0) / 30.0, (if l1 > 0.0 then l1 else 0.0) / 30.0);
    }
  }

  // ---------------------------------------------------------------------------
  // One iteration of a worker

  /** The state and the next step after one iteration of a worker's loop. */
  function Iteration(s: State, rampTime: int, threadId: string, threadRunTime: real, outcome: Outcome): (State, Step)
  {
    if s.exitThreads then (s, Exit)
    else match outcome
      case InvokeFailed => (s, Sleep(RetryDelay))
      case FunctionError =>
        (s.(invocationCount := s.invocationCount + 1, invocationErrors := s.invocationErrors + 1), Sleep(RetryDelay))
      case EmptyPayload =>
        (s.(invocationCount := s.invocationCount + 1, invocationErrors := s.invocationErrors + 1), Sleep(RetryDelay))
      case Completed(results, rpm) =>
        (Recorded(s.(invocationCount := s.invocationCount + 1), threadId, results, rpm),
         Sleep(SleepTime(rampTime, threadRunTime)))
  }

  /** The state once a completed invocation's results are recorded: the record
      appended, the request counters and the execution time grown by its
      fields, and the thread's rpm and execution time stored. */
  function Recorded(s: State, threadId: string, results: ResultRecord, rpm: real): State
  {
    var exec := ExecutionTime(results);
    var withRpm := WithThreadDatum(s.threadData, threadId, "rpm", rpm);
    s.(locustResults := s.locustResults + [results],
       requestsSuccess := s.requestsSuccess + results.numRequestsSuccess,
       requestsFail := s.requestsFail + results.numRequestsFail,
       requestsTotal := s.requestsTotal + results.numRequests,
       threadData := WithThreadDatum(withRpm, threadId, "lambda_execution_time", exec as real),
       threadOrder := OrderAfter(s.threadOrder, s.threadData, threadId),
       totalExecutionTime := s.totalExecutionTime + exec)
  }

  /** The counters agree with the collected results: every invocation either
      failed or delivered one record, and the request and time totals are sums
      over the records. */
  predicate Consistent(s: State)
  {
    && s.invocationCount == s.invocationErrors + |s.locustResults|
    && s.requestsSuccess == SumOf(s.locustResults, NumRequestsSuccess)
    && s.requestsFail == SumOf(s.locustResults, NumRequestsFail)
    && s.requestsTotal == SumOf(s.locustResults, NumRequests)
    && s.totalExecutionTime == SumOf(s.locustResults, ExecutionTime)
    && OrderMatches(s.threadOrder, s.threadData)
  }

  lemma InitialConsistent()
    ensures Consistent(InitialState())
  {
  }

  /** Every iteration keeps the counters consistent with the results. */
  lemma IterationConsistent(s: State, rampTime: int, threadId: string, threadRunTime: real, outcome: Outcome)
    requires Consistent(s)
    ensures Consistent(Iteration(s, rampTime, threadId, threadRunTime, outcome).0)
  {
    if !s.exitThreads && outcome.Completed? {
      CompletedConsistent(s, rampTime, threadId, threadRunTime, outcome.results, outcome.rpm);
    }
  }

  lemma CompletedConsistent(s: State, rampTime: int, threadId: string, threadRunTime: real, results: ResultRecord, rpm: real)
    requires Consistent(s) && !s.exitThreads
    ensures Consistent(Iteration(s, rampTime, threadId, threadRunTime, Completed(results, rpm)).0)
  {
    var s' := Iteration(s, rampTime, threadId, threadRunTime, Completed(results, rpm)).0;
    var rs := s.locustResults + [results];
    assert s'.locustResults == rs;
    assert s'.invocationCount == s.invocationCount + 1 && s'.invocationErrors == s.invocationErrors;
    SumOfAppend(s.locustResults, results, NumRequestsSuccess);
    SumOfAppend(s.locustResults, results, NumRequestsFail);
    SumOfAppend(s.locustResults, results, NumRequests);
    SumOfAppend(s.locustResults, results, ExecutionTime);
    CompletedThreadData(s.threadOrder, s.threadData, threadId, rpm, ExecutionTime(results) as real);
  }

  lemma SumOfAppend(rs: seq<ResultRecord>, r: ResultRecord, f: ResultRecord -> int)
    ensures SumOf(rs + [r], f) == SumOf(rs, f) + f(r)
  {
    assert (rs + [r])[..|rs|] == rs;
  }

  lemma CompletedThreadData(order: seq<string>, data: ThreadData, t: string, rpm: real, exec: real)
    requires OrderMatches(order, data)
    ensures OrderMatches(OrderAfter(order, data, t),
                         WithThreadDatum(WithThreadDatum(data, t, "rpm", rpm), t, "lambda_execution_time", exec))
  {
    var withRpm := WithThreadDatum(data, t, "rpm", rpm);
    RpmAfterUpdate(order, data, t, "rpm", rpm);
    var order1 := OrderAfter(order, data, t);
    RpmAfterUpdate(order1, withRpm, t, "lambda_execution_time", exec);
    assert OrderAfter(order1, withRpm, t) == order1;
  }

  /** An iteration only ever adds: the counts do not drop, the results list
      grows at its end by at most one record, and the stop flag is left as it is. */
  lemma IterationProgress(s: State, rampTime: int, threadId: string, threadRunTime: real, outcome: Outcome)
    ensures var (s', step) := Iteration(s, rampTime, threadId, threadRunTime, outcome);
      && s'.invocationCount >= s.invocationCount
      && s'.invocationErrors >= s.invocationErrors
      && s.locustResults <= s'.locustResults
      && |s'.locustResults| <= |s.locustResults| + 1
      && s'.exitThreads == s.exitThreads
      && (step == Exit <==> s.exitThreads)
      && (s.exitThreads || outcome.InvokeFailed? ==> s' == s)
  {
  }

  /** What the counters of a consistent state say agrees with aggregating the
      collected results. */
  lemma ConsistentAggregate(s: State)
    requires Consistent(s)
    ensures Aggregate(s.locustResults).numRequests == s.requestsTotal
    ensures Aggregate(s.locustResults).numRequestsFail == s.requestsFail
    ensures Aggregate(s.locustResults).numRequestsSuccess == s.requestsSuccess
    ensures Aggregate(s.locustResults).totalTime == s.totalExecutionTime
    ensures Aggregate(s.locustResults).invocations == s.invocationCount - s.invocationErrors
  {
    AggregateFields(s.locustResults);
  }

  // ---------------------------------------------------------------------------
  // The object

  class LambdaLoadTest {
    const threads: int
    const rampTime: int
    const timeLimit: int
    var invocationErrors: nat
    var invocationCount: nat
    var totalExecutionTime: int
    var requestsSuccess: int
    var requestsFail: int
    var requestsTotal: int
    var locustResults: seq<ResultRecord>
    var threadData: ThreadData
    var threadOrder: seq<string>
    var exitThreads: bool

    function Snap(): State
      reads this
    {
      State(invocationErrors, invocationCount, totalExecutionTime, requestsSuccess, requestsFail,
            requestsTotal, locustResults, threadData, threadOrder, exitThreads)
    }

    /** `threadOrder` lists the keys of `threadData` once each, as the dict
        keeps them. */
    predicate Valid()
      reads this
    {
      OrderMatches(threadOrder, threadData)
    }

    constructor (threads: int, rampTime: int, timeLimit: int)
      ensures this.threads == threads && this.rampTime == rampTime && this.timeLimit == timeLimit
      ensures Snap() == InitialState()
      ensures Valid()
    {
      this.threads := threads;
      this.rampTime := rampTime;
      this.timeLimit := timeLimit;
      invocationErrors, invocationCount, totalExecutionTime := 0, 0, 0;
      requestsSuccess, requestsFail, requestsTotal := 0, 0, 0;
      locustResults := [];
      threadData, threadOrder := map[], [];
      exitThreads := false;
    }

    method UpdateThreadData(threadId: string, key: string, value: real)
      requires Valid()
      modifies this
      ensures Valid()
      ensures Snap() == old(Snap()).(threadData := WithThreadDatum(old(threadData), threadId, key, value),
                                     threadOrder := OrderAfter(old(threadOrder), old(threadData), threadId))
    {
      ghost var order, data := threadOrder, threadData;
      OrderAfterUpdate(order, data, threadId, key, value);
      if threadId !in threadData {
        threadData := threadData[threadId := map[]];
        threadOrder := threadOrder + [threadId];
      }
      threadData := threadData[threadId := threadData[threadId][key := value]];
      assert threadData == WithThreadDatum(data, threadId, key, value);
      assert threadOrder == OrderAfter(order, data, threadId);
    }

    method LogLambdaInvocationError()
      modifies this
      ensures Snap() == old(Snap()).(invocationErrors := old(invocationErrors) + 1)
    {
      invocationErrors := invocationErrors + 1;
    }

    method LogLambdaInvocationCount()
      modifies this
      ensures Snap() == old(Snap()).(invocationCount := old(invocationCount) + 1)
    {
      invocationCount := invocationCount + 1;
    }

    function InvocationErrorRatio(): (r: real)
      reads this
      ensures invocationCount == 0 ==> r == 0.0
      ensures invocationCount != 0 ==> r * invocationCount as real == invocationErrors as real
    {
      Ratio(invocationErrors, invocationCount)
    }

    method LogRequestsTotal(requests: int)
      modifies this
      ensures Snap() == old(Snap()).(requestsTotal := old(requestsTotal) + requests)
    {
      requestsTotal := requestsTotal + requests;
    }

    method LogRequestsSuccess(requests: int)
      modifies this
      ensures Snap() == old(Snap()).(requestsSuccess := old(requestsSuccess) + requests)
    {
      requestsSuccess := requestsSuccess + requests;
    }

    method LogRequestsFail(requests: int)
      modifies this
      ensures Snap() == old(Snap()).(requestsFail := old(requestsFail) + requests)
    {
      requestsFail := requestsFail + requests;
    }

    /** Failed requests per successful one (not per request). */
    function RequestFailRatio(): (r: real)
      reads this
      ensures requestsSuccess == 0 ==> r == 0.0
      ensures requestsSuccess != 0 ==> r * requestsSuccess as real == requestsFail as real
    {
      Ratio(requestsFail, requestsSuccess)
    }

    method LogLocustResults(results: ResultRecord)
      modifies this
      ensures Snap() == old(Snap()).(locustResults := old(locustResults) + [results])
    {
      locustResults := locustResults + [results];
    }

    method LogLambdaExecutionTime(time: int)
      modifies this
      ensures Snap() == old(Snap()).(totalExecutionTime := old(totalExecutionTime) + time)
    {
      totalExecutionTime := totalExecutionTime + time;
    }

    /** The rounded rpm total over the threads that have reported one. */
    function CalculateRpm(): (r: int)
      requires Valid()
      reads this
      ensures RpmTotal(threadOrder, threadData) - 0.5 <= r as real <= RpmTotal(threadOrder, threadData) + 0.5
      ensures var x := RpmTotal(threadOrder, threadData);
              r as real - x == 0.5 || x - r as real == 0.5 ==> r % 2 == 0
      ensures (forall t :: t in threadOrder ==> RpmOf(threadData, t) == 0.0) ==> r == 0
    {
      RpmTotalZero(threadOrder, threadData);
      RoundHalfEven(RpmTotal(threadOrder, threadData))
    }

    /** The test stops on more than 20 invocation errors, or on more than one
        failed request per two successful ones. */
    predicate CheckErrorThreshold()
      reads this
      ensures CheckErrorThreshold() <==>
                invocationErrors > MaxInvocationErrors
                || (requestsSuccess > 0 && 2 * requestsFail > requestsSuccess)
                || (requestsSuccess < 0 && 2 * requestsFail < requestsSuccess)
    {
      RatioAboveHalf(requestsFail, requestsSuccess);
      invocationErrors > MaxInvocationErrors || RequestFailRatio() > 0.5
    }

    /** During ramp-up, thread number `threadCount + 1` starts once the run time
        is strictly past `threadCount` shares of the ramp-up time. */
    predicate ThreadRequired(threadCount: nat, runTime: int)
      reads this
      ensures ThreadRequired(threadCount, runTime) <==>
                threadCount < threads && runTime * threads > rampTime * threadCount
    {
      if threadCount < threads then
        SpawnShare(rampTime, threads, threadCount, runTime);
        runTime as real > (rampTime as real / threads as real) * threadCount as real
      else
        false
    }

    method StopThreads()
      modifies this
      ensures Snap() == old(Snap()).(exitThreads := true)
    {
      exitThreads := true;
    }

    /** One iteration of `thread()`: invoke, then count, log and record what
        came back. */
    method ThreadIteration(threadId: string, threadRunTime: real, outcome: Outcome) returns (step: Step)
      requires Valid()
      modifies this
      ensures Valid()
      ensures (Snap(), step) == Iteration(old(Snap()), rampTime, threadId, threadRunTime, outcome)
    {
      if exitThreads {
        return Exit;
      }
      var sleepTime := SleepTime(rampTime, threadRunTime);
      match outcome {
        case InvokeFailed =>
          step := Sleep(RetryDelay);
        case FunctionError =>
          LogLambdaInvocationCount();
          LogLambdaInvocationError();
          step := Sleep(RetryDelay);
        case EmptyPayload =>
          LogLambdaInvocationCount();
          LogLambdaInvocationError();
          step := Sleep(RetryDelay);
        case Completed(results, rpm) =>
          LogLambdaInvocationCount();
          RecordResults(threadId, results, rpm);
          step := Sleep(sleepTime);
      }
    }

    /** Lines 260-270, after the invocation is counted: log the record and its
        counters, and store the thread's rpm and execution time. */
    method RecordResults(threadId: string, results: ResultRecord, rpm: real)
      requires Valid()
      modifies this
      ensures Valid()
      ensures Snap() == Recorded(old(Snap()), threadId, results, rpm)
    {
      var executionTime := LambdaTimeoutMs - results.remainingTime;
      LogLocustResults(results);
      LogRequestsSuccess(results.numRequestsSuccess);
      LogRequestsFail(results.numRequestsFail);
      LogRequestsTotal(results.numRequests);
      UpdateThreadData(threadId, "rpm", rpm);
      UpdateThreadData(threadId, "lambda_execution_time", executionTime as real);
      LogLambdaExecutionTime(executionTime);
    }

    /** One pass of `run()`: start a thread when ramp-up calls for one, then
        stop the workers on the error threshold or past the time limit. */
    method ControlStep(threadCount: nat, runTime: int) returns (d: Decision)
      modifies this
      ensures d.spawn == ThreadRequired(threadCount, runTime)
      ensures d.stop == if old(CheckErrorThreshold()) then ErrorLimit
                        else if timeLimit != 0 && runTime > timeLimit then TimeLimit
                        else KeepRunning
      ensures Snap() == old(Snap()).(exitThreads := old(exitThreads) || d.stop != KeepRunning)
    {
      var spawn := ThreadRequired(threadCount, runTime);
      var stop := KeepRunning;
      if CheckErrorThreshold() {
        StopThreads();
        stop := ErrorLimit;
      } else if timeLimit != 0 && runTime > timeLimit {
        StopThreads();
        stop := TimeLimit;
      }
      d := Decision(spawn, stop);
    }
  }

  /** Threads without an rpm add nothing. */
  lemma {:induction false} RpmTotalZero(order: seq<string>, data: ThreadData)
    ensures (forall t :: t in order ==> RpmOf(data, t) == 0.0) ==> RpmTotal(order, data) == 0.0
  {
    if order != [] {
      RpmTotalZero(order[..|order| - 1], data);
    }
  }

  /** `(ramp / threads) * count < runTime` by cross-multiplication. */
  lemma SpawnShare(rampTime: int, threads: int, threadCount: nat, runTime: int)
    requires threadCount < threads
    ensures runTime as real > (rampTime as real / threads as real) * threadCount as real
            <==> runTime * threads > rampTime * threadCount
  {
    var n := threads as real;
    var share := rampTime as real / n;
    assert share * n == rampTime as real;
    var lhs := share * threadCount as real;
    assert lhs * n == rampTime as real * threadCount as real;
    assert runTime as real > lhs <==> runTime as real * n > lhs * n;
  }

  /** The invocation-error limit is strict: 20 errors with no failed request
      keep the test running, a 21st stops it. */
  lemma ErrorThresholdBoundary(lt: LambdaLoadTest)
    requires lt.requestsFail == 0 && lt.requestsSuccess >= 0
    ensures lt.invocationErrors == 20 ==> !lt.CheckErrorThreshold()
    ensures lt.invocationErrors == 21 ==> lt.CheckErrorThreshold()
  {
  }

  /** With a 30-second ramp-up over 3 threads, the second thread starts after
      second 10 and the third after second 20, not at them. */
  lemma RampUpSchedule(lt: LambdaLoadTest)
    requires lt.threads == 3 && lt.rampTime == 30
    ensures !lt.ThreadRequired(1, 10) && lt.ThreadRequired(1, 11)
    ensures !lt.ThreadRequired(2, 20) && lt.ThreadRequired(2, 21)
    ensures !lt.ThreadRequired(3, 1000)
  {
  }
}
