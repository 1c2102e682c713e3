# invokust core, modelled in Dafny

invokust runs locust load tests from AWS Lambda. This project models three of
its parts.

- **Result aggregation.** `results_aggregator` merges the result records of
  many Lambda invocations into one summary. It sums the request counters and
  the execution time and unions the task names. For each task it averages the
  per-invocation statistics and builds a histogram of the merged latency
  samples. For each failing task it sums the failure occurrences.
  Module `Aggregator`, file `aggregator.dfy`.
- **Load-test bookkeeping.** The `LambdaLoadTest` object holds:
  - the invocation and error counters;
  - the request counters;
  - the total execution time;
  - the list of result records;
  - the per-thread data;
  - the stop flag.

  Its worker threads update this state after every invocation. Its control
  loop decides when to start another worker and when to stop them all.
  Module `Coordinator`, file `coordinator.dfy`.
- **Settings construction.** `create_settings` builds the settings object in
  these steps:
  1. It applies `LOCUST_*` environment overrides on request.
  2. It requires exactly one of a locustfile and a class list.
  3. It loads or resolves the user classes.
  4. It requires the four required attributes to be truthy.
  5. It turns those given as digit strings into integers.

  Module `Settings`, file `settings.dfy`.

`numeric.dfy` holds the arithmetic these share:
- sums;
- Python's `round` (half to even);
- `str.isdigit` and `int()` on ASCII digit strings.

`wrappers.dfy` holds `Option` and `Result`.

The imperative parts of the source are methods with loop invariants:
- `_merge_response_times` and the two task loops of `results_aggregator`;
- the `LambdaLoadTest` methods;
- `create_settings`.

Each method is proved equal to a specification function:
- `Aggregate` for the aggregation, or what the loops really produce;
- `Iteration` for one pass of a worker;
- `CreateSettingsSpec` for the settings.

The lemmas state what these functions promise.

The model follows the code's exact behaviour, including where it is easy to
misread:
- The request fail ratio is failed requests per *successful* request, and 0
  when there are none. It is not per request in total
  (lambda_load_test.py:110-117).
- An invocation whose `invoke` call raises changes no counter at all. Only a
  function error or an empty payload counts as an invocation error
  (lambda_load_test.py:233-257).
- A completed invocation also adds the record's successful requests to the
  success counter (lambda_load_test.py:265).
- The totals and the task names of the aggregate are the same for either order
  of two batches of records (`AggregateTotalsCommute`,
  `AggregateTasksCommute`). A failing
  task's descriptor, however, comes from the *first* record that reports it,
  so the merge of failures is not order-independent
  (results_aggregator.py:84).
- `create_settings` checks truthiness *before* coercing a digit string. The
  string `"0"` therefore passes and becomes the integer 0, which the same
  check refuses when it is given directly (`ZeroStringAccepted`).
- The `loglevel` argument is never stored. Only the environment can set a
  `loglevel` attribute (settings.py:38-70).

## Model

| member | source | states |
|---|---|---|
| Aggregator.FlattenUnique | invokust/aws_lambda/results_aggregator.py:15-18 | a name is in the result exactly when it is in one of the groups |
| Aggregator.Mean | invokust/aws_lambda/results_aggregator.py:20-21 | 0 for an empty list; otherwise mean times length is the sum |
| Aggregator.MeanBetween | invokust/aws_lambda/results_aggregator.py:20-21 | the mean of values within [lo, hi] lies within [lo, hi] |
| Aggregator.Present | invokust/aws_lambda/results_aggregator.py:36 | keeps exactly the values that are not None |
| Aggregator.GetMin | invokust/aws_lambda/results_aggregator.py:34-38 | 0 when every value is None; otherwise a present value no greater than any present value |
| Aggregator.GetMax | invokust/aws_lambda/results_aggregator.py:40-44 | 0 when every value is None; otherwise a present value no smaller than any present value |
| Aggregator.Repeat | invokust/aws_lambda/results_aggregator.py:27 | `[latency] * count` holds the latency exactly `count` times and no other value |
| Aggregator.ExpandedSize | invokust/aws_lambda/results_aggregator.py:24-27 | the flat sample list is as long as all counts added up |
| Aggregator.ExpandBucketsSize | invokust/aws_lambda/results_aggregator.py:26-27 | one dict expands to as many samples as its counts add up to |
| Aggregator.ExpandedMultiset | invokust/aws_lambda/results_aggregator.py:24-27 | each latency occurs in the flat list exactly as often as all dicts count it |
| Aggregator.ExpandBucketsMultiset | invokust/aws_lambda/results_aggregator.py:26-27 | the same for the items of one dict |
| Aggregator.BinIndex | invokust/aws_lambda/results_aggregator.py:28 | every sample in the range falls in one of the ten bins |
| Aggregator.Tally | invokust/aws_lambda/results_aggregator.py:28 | ten bin counts that add up to the number of samples |
| Aggregator.Histogram | invokust/aws_lambda/results_aggregator.py:28 | ten bins; no sample is lost or counted twice |
| Aggregator.MergeResponseTimes | invokust/aws_lambda/results_aggregator.py:23-32 | the loop builds the flat list of all samples; its histogram has ten bins counting every sample |
| Aggregator.SuccessColumn | invokust/aws_lambda/results_aggregator.py:72 | non-empty exactly when some record reports the task as successful |
| Aggregator.FailColumn | invokust/aws_lambda/results_aggregator.py:83 | non-empty exactly when some record reports the task as failing |
| Aggregator.FirstFail | invokust/aws_lambda/results_aggregator.py:83-84 | the first record reporting the task; no earlier record does |
| Aggregator.FailColumnHead | invokust/aws_lambda/results_aggregator.py:84 | `task_data_results[0]` is the first reporting record's entry |
| Aggregator.FailColumnAgree | invokust/aws_lambda/results_aggregator.py:83 | records that agree on a task's entries give the same column and first contributor |
| Aggregator.TaskStatsBounds | invokust/aws_lambda/results_aggregator.py:77-78 | the merged minimum is at most every contributing minimum; the merged maximum is at least every contributing maximum |
| Aggregator.TaskStatsHistogram | invokust/aws_lambda/results_aggregator.py:79 | the task's histogram counts all latency samples of its entries |
| Aggregator.SumOfConcat | invokust/aws_lambda/results_aggregator.py:63-65 | a sum over two batches is the sum of the two sums |
| Aggregator.SuccessTasks | invokust/aws_lambda/results_aggregator.py:55 | exactly the names some record reports as successful |
| Aggregator.FailTasks | invokust/aws_lambda/results_aggregator.py:56 | exactly the names some record reports as failing |
| Aggregator.SuccessSummaries | invokust/aws_lambda/results_aggregator.py:71-80 | one summary per success task, with rpm = rps * 60 |
| Aggregator.FailSummaries | invokust/aws_lambda/results_aggregator.py:82-85 | one merged entry per failing task |
| Aggregator.Aggregate | invokust/aws_lambda/results_aggregator.py:55-85 | invocations = number of records; the success and fail keys are exactly the names the records report; total_rpm = total_rps * 60 |
| Aggregator.AggregateEmpty | invokust/aws_lambda/results_aggregator.py:55-69 | no records give zero totals and no tasks |
| Aggregator.AggregateConcat | invokust/aws_lambda/results_aggregator.py:55-67 | aggregating two batches together adds their totals and unions their task names |
| Aggregator.AggregateTotalsCommute | invokust/aws_lambda/results_aggregator.py:57-67 | the totals are the same for either order of two batches of records |
| Aggregator.AggregateTasksCommute | invokust/aws_lambda/results_aggregator.py:55-56 | the task names are the same for either order of two batches of records |
| Aggregator.AggregateFields | invokust/aws_lambda/results_aggregator.py:55-67 | each counter is the sum of that field; total time sums 300000 - remaining_time; the keys are the task-name unions |
| Aggregator.TasksConcat | invokust/aws_lambda/results_aggregator.py:55-56 | the names of two batches are the union of each batch's names |
| Aggregator.AggregateSingle | invokust/aws_lambda/results_aggregator.py:57-67 | one record's aggregate carries its own counters and execution time |
| Aggregator.ColumnOccurrences | invokust/aws_lambda/results_aggregator.py:85 | the summed column occurrences are the occurrences over all records reporting the task |
| Aggregator.AggregateFailEntry | invokust/aws_lambda/results_aggregator.py:82-85 | a failing task's entry is merged from its column |
| Aggregator.AggregateFailOccurrences | invokust/aws_lambda/results_aggregator.py:82-85 | a failing task's entry is the first reporting record's descriptor with occurrences summed over all reporting records |
| Aggregator.AggregateSuccessEntry | invokust/aws_lambda/results_aggregator.py:71-80 | a success task's entry is computed from that task's own column |
| Aggregator.SuccessColumnEntries | invokust/aws_lambda/results_aggregator.py:72 | every reporting record's entry is in the task's column, and every column entry is some reporting record's entry |
| Aggregator.AggregateSuccessBounds | invokust/aws_lambda/results_aggregator.py:72-78 | a task's aggregate minimum is at most every minimum a record reports for it, and its maximum at least every reported maximum |
| Aggregator.ColumnOfTwo | invokust/aws_lambda/results_aggregator.py:72 | two records reporting one task give a column of their two entries |
| Aggregator.MeanOfTwoMedians | invokust/aws_lambda/results_aggregator.py:74-75 | medians 100 and 200 merge to 150 |
| Aggregator.MedianMeanOfTwo | invokust/aws_lambda/results_aggregator.py:74-75 | the merged "median" is the mean of the per-invocation medians |
| Aggregator.ComputeTaskStats | invokust/aws_lambda/results_aggregator.py:72-80 | the loop body yields the task's statistics, with rpm = rps * 60 and ten histogram bins |
| Aggregator.AggregateSuccess | invokust/aws_lambda/results_aggregator.py:61-80 | as written: keys are the success tasks and all of them show the statistics of the task handled last |
| Aggregator.ConstantMap | invokust/aws_lambda/results_aggregator.py:61 | `dict.fromkeys(tasks, v)` has exactly the keys in `tasks`, each mapped to v |
| Aggregator.SharedStatsOfConstant | invokust/aws_lambda/results_aggregator.py:61-80 | one shared dict holding some task's statistics is the shape the loop leaves |
| Aggregator.RewrittenFailStep | invokust/aws_lambda/results_aggregator.py:84-85 | handling a task changes only its first contributing record |
| Aggregator.WriteBackNothing | invokust/aws_lambda/results_aggregator.py:82 | before the fail loop the input list is unchanged |
| Aggregator.WriteBack | invokust/aws_lambda/results_aggregator.py:82-85 | the input list as the fail loop leaves it: each failing task's entry in the first record reporting it is the merged entry; every other entry, key and field is unchanged |
| Aggregator.WriteBackAll | invokust/aws_lambda/results_aggregator.py:83-85 | once every failing task is handled, a record's entry for a task is the merged entry if it is the task's first reporter and its own entry otherwise |
| Aggregator.WriteBackKeepsOthers | invokust/aws_lambda/results_aggregator.py:83-85 | rewriting other tasks leaves a task's column and first contributor as they were |
| Aggregator.WriteBackStep | invokust/aws_lambda/results_aggregator.py:84-85 | one more task rewrites exactly one entry, in its first contributing record |
| Aggregator.FailLoopStep | invokust/aws_lambda/results_aggregator.py:82-85 | one turn of the fail loop reads the task's column unchanged and rewrites exactly that entry |
| Aggregator.FailEntriesAggregate | invokust/aws_lambda/results_aggregator.py:82-85 | a map with every failing task's merged entry is the intended `fail` part |
| Aggregator.MergedStep | invokust/aws_lambda/results_aggregator.py:84 | storing one merged entry keeps the keys and extends the merged tasks |
| Aggregator.AggregateFail | invokust/aws_lambda/results_aggregator.py:82-85 | the fail loop yields the intended `fail` map and leaves the input list as `WriteBack` says |
| Aggregator.ResultsAggregator | invokust/aws_lambda/results_aggregator.py:55-87 | as written: totals and failures equal `Aggregate`'s, success stats are shared, input list is written back |
| Aggregator.ColumnsOfOne | invokust/aws_lambda/results_aggregator.py:72 | one record with tasks "a" and "b" gives each a one-entry column |
| Aggregator.SharedStatsAllEqual | invokust/aws_lambda/results_aggregator.py:61 | with the shared dict any two tasks show equal statistics |
| Aggregator.MedianOfOne | invokust/aws_lambda/results_aggregator.py:74-75 | the mean of one median is that median |
| Aggregator.TwoTaskMedians | invokust/aws_lambda/results_aggregator.py:71-80 | the intended aggregate keeps medians 100 and 200 apart |
| Aggregator.SharedStatsMisreport | invokust/aws_lambda/results_aggregator.py:61 | the loop as written shows both tasks the same median, so it differs from the intended aggregate |
| Aggregator.MergedFailOfTwo | invokust/aws_lambda/results_aggregator.py:83-85 | two single failures of "x" merge to 2 occurrences |
| Aggregator.RewrittenFailOfTwo | invokust/aws_lambda/results_aggregator.py:84-85 | the first record's entry becomes the merged one; the second is untouched |
| Aggregator.WriteBackOfTwo | invokust/aws_lambda/results_aggregator.py:84-85 | after the loop the first input record carries 2 occurrences |
| Aggregator.MergedFailAfterWriteBack | invokust/aws_lambda/results_aggregator.py:85 | merging the written-back pair counts 3 |
| Aggregator.WriteBackDoubleCounts | invokust/aws_lambda/results_aggregator.py:84-85 | a second aggregation of the same list reports 3 occurrences where the first reported 2 |
| Numeric.RoundHalfEven | invokust/aws_lambda/lambda_load_test.py:229 | Python `round`: within one half of x, ties to the even integer |
| Numeric.RoundMonotone | invokust/aws_lambda/lambda_load_test.py:229 | rounding never reverses order |
| Numeric.ParseShowRoundTrip | invokust/settings.py:95-96 | `int()` of a natural number's decimal digits gives it back |
| Coordinator.WithThreadDatum | invokust/aws_lambda/lambda_load_test.py:45-52 | creates the thread's entry if missing and sets one key; every other thread and key is unchanged |
| Coordinator.RpmTotalSame | invokust/aws_lambda/lambda_load_test.py:174 | the rpm sum depends only on the threads' rpm values |
| Coordinator.RpmTotalChange | invokust/aws_lambda/lambda_load_test.py:174 | changing one thread's rpm moves the sum by exactly that change |
| Coordinator.RpmAfterUpdate | invokust/aws_lambda/lambda_load_test.py:45-52 | an update keeps the key order in step with the dict and moves the rpm sum by the change |
| Coordinator.Ratio | invokust/aws_lambda/lambda_load_test.py:84-87 | 0 for a zero divisor; otherwise ratio times divisor is the dividend |
| Coordinator.RatioAboveHalf | invokust/aws_lambda/lambda_load_test.py:180 | a ratio is above 0.5 exactly when twice the dividend exceeds the divisor, with the divisor's sign taken into account |
| Coordinator.SleepTime | invokust/aws_lambda/lambda_load_test.py:226-229 | never negative; 0 without ramp-up or once ramp-up is over; otherwise within one half of (ramp - run time) / 30, and even on a tie |
| Coordinator.SleepTimeNonIncreasing | invokust/aws_lambda/lambda_load_test.py:226-229 | a worker that has run longer never sleeps longer |
| Coordinator.InitialConsistent | invokust/aws_lambda/lambda_load_test.py:34-43 | the fresh counters agree with the empty results list |
| Coordinator.IterationConsistent | invokust/aws_lambda/lambda_load_test.py:220-270 | every worker iteration keeps count = errors + records and each total the sum over the records |
| Coordinator.CompletedConsistent | invokust/aws_lambda/lambda_load_test.py:259-270 | a completed invocation keeps the counters consistent |
| Coordinator.SumOfAppend | invokust/aws_lambda/lambda_load_test.py:264-270 | appending a record adds its field to the sum |
| Coordinator.CompletedThreadData | invokust/aws_lambda/lambda_load_test.py:268-269 | the two thread-data updates keep the key order matching the dict |
| Coordinator.IterationProgress | invokust/aws_lambda/lambda_load_test.py:220-270 | counts never drop; the results list grows at its end by at most one; the stop flag is kept; a failed invoke or a set stop flag changes nothing |
| Coordinator.ConsistentAggregate | invokust/aws_lambda/lambda_load_test.py:264-270 | the live counters equal the aggregate of the collected records |
| Coordinator.LambdaLoadTest.constructor | invokust/aws_lambda/lambda_load_test.py:25-43 | zero counters, no results, no thread data, stop flag unset; the object is valid |
| Coordinator.LambdaLoadTest.UpdateThreadData | invokust/aws_lambda/lambda_load_test.py:45-52 | the new state is the old one with only the thread data (and its key order) updated; the key order stays a list of the dict's keys, each once |
| Coordinator.LambdaLoadTest.LogLambdaInvocationError | invokust/aws_lambda/lambda_load_test.py:66-71 | error count + 1, nothing else changes |
| Coordinator.LambdaLoadTest.LogLambdaInvocationCount | invokust/aws_lambda/lambda_load_test.py:73-78 | invocation count + 1, nothing else changes |
| Coordinator.LambdaLoadTest.InvocationErrorRatio | invokust/aws_lambda/lambda_load_test.py:80-87 | errors / count, and 0 when count is 0 |
| Coordinator.LambdaLoadTest.LogRequestsTotal | invokust/aws_lambda/lambda_load_test.py:89-94 | adds its argument to the total, nothing else changes |
| Coordinator.LambdaLoadTest.LogRequestsSuccess | invokust/aws_lambda/lambda_load_test.py:96-101 | adds its argument to the success count, nothing else changes |
| Coordinator.LambdaLoadTest.LogRequestsFail | invokust/aws_lambda/lambda_load_test.py:103-108 | adds its argument to the fail count, nothing else changes |
| Coordinator.LambdaLoadTest.RequestFailRatio | invokust/aws_lambda/lambda_load_test.py:110-117 | fail / success, and 0 when success is 0 |
| Coordinator.LambdaLoadTest.LogLocustResults | invokust/aws_lambda/lambda_load_test.py:119-124 | appends the record, nothing else changes |
| Coordinator.LambdaLoadTest.LogLambdaExecutionTime | invokust/aws_lambda/lambda_load_test.py:163-168 | adds its argument to the execution time, nothing else changes |
| Coordinator.LambdaLoadTest.CalculateRpm | invokust/aws_lambda/lambda_load_test.py:170-174 | on a valid object, within one half of the sum of the reported rpm and even on a tie; 0 when no thread reports one |
| Coordinator.LambdaLoadTest.CheckErrorThreshold | invokust/aws_lambda/lambda_load_test.py:176-183 | true exactly when errors > 20 or failed requests exceed half the successful ones |
| Coordinator.LambdaLoadTest.ThreadRequired | invokust/aws_lambda/lambda_load_test.py:185-194 | true exactly when count < threads and run time * threads > ramp time * count (strict) |
| Coordinator.LambdaLoadTest.StopThreads | invokust/aws_lambda/lambda_load_test.py:196-201 | sets the stop flag, nothing else changes |
| Coordinator.LambdaLoadTest.ThreadIteration | invokust/aws_lambda/lambda_load_test.py:220-280 | the new state and next step are `Iteration`'s, per outcome; the object stays valid |
| Coordinator.LambdaLoadTest.RecordResults | invokust/aws_lambda/lambda_load_test.py:260-270 | logging a completed invocation appends the record, grows the counters and time by its fields and stores the thread's rpm and execution time, nothing else; the object stays valid |
| Coordinator.LambdaLoadTest.ControlStep | invokust/aws_lambda/lambda_load_test.py:303-326 | spawns exactly when a thread is required; stops on the error threshold first, then past a non-zero time limit; the stop flag is only ever set |
| Coordinator.RpmTotalZero | invokust/aws_lambda/lambda_load_test.py:174 | threads without an rpm add nothing |
| Coordinator.SpawnShare | invokust/aws_lambda/lambda_load_test.py:191-192 | the real-number spawn test equals integer cross-multiplication |
| Coordinator.ErrorThresholdBoundary | invokust/aws_lambda/lambda_load_test.py:180 | 20 errors alone do not stop the test; 21 do |
| Coordinator.RampUpSchedule | invokust/aws_lambda/lambda_load_test.py:185-194 | 3 threads over 30 s: the second starts after second 10, the third after second 20, none beyond 3 |
| Settings.Upper | invokust/settings.py:67 | `upper()` on ASCII: leaves no lower-case letter, turns each one into its capital and keeps every other character in place |
| Settings.UpperIdempotent | invokust/settings.py:67 | upper-casing twice is upper-casing once |
| Settings.ApplyEnvironmentAt | invokust/settings.py:57-70 | a listed attribute takes its variable's non-empty value; every other attribute keeps its value |
| Settings.Split | invokust/settings.py:83 | at least one piece, none holding the separator |
| Settings.JoinSplit | invokust/settings.py:83 | joining the pieces gives back the string |
| Settings.SplitPiece | invokust/settings.py:83 | a separator-free piece splits to itself |
| Settings.SplitJoin | invokust/settings.py:83 | splitting joined separator-free pieces gives them back |
| Settings.ResolveClassList | invokust/settings.py:83-86 | the in-place loop gives one class per name, in order, each what its name evaluates to |
| Settings.CreateSettings | invokust/settings.py:38-98 | the loops compute `CreateSettingsSpec` |
| Settings.Coerced | invokust/settings.py:95-96 | a digit string becomes the integer its digits denote (`ParseDigits`, which `ParseShowRoundTrip` ties to `int()`); anything else is kept |
| Settings.ValidateStep | invokust/settings.py:88-96 | one validation step coerces only its attribute |
| Settings.ValidateSucceeds | invokust/settings.py:88-93 | validation succeeds exactly when every required attribute is truthy |
| Settings.ValidateFirstError | invokust/settings.py:88-93 | a failure names the first falsy attribute |
| Settings.ValidateResult | invokust/settings.py:88-96 | success coerces each required attribute and changes nothing else |
| Settings.EnvironmentOverrides | invokust/settings.py:57-70 | each of the seven attributes takes its non-empty variable's value and otherwise keeps its own; `loglevel` exists only when overridden |
| Settings.EnvironmentLeavesOthers | invokust/settings.py:57-70 | other attributes are untouched by the environment |
| Settings.ValidateErrorsNamed | invokust/settings.py:88-93 | validation fails only with a not-set error |
| Settings.SourceErrors | invokust/settings.py:72-76 | "missing source" exactly when both are None; "both sources" exactly when both are truthy |
| Settings.SuccessfulSettings | invokust/settings.py:88-96 | returned settings had truthy required attributes, now coerced |
| Settings.UntouchedAttribute | invokust/settings.py:38-55 | an attribute the environment cannot set leaves with its initial value |
| Settings.FixedAttributes | invokust/settings.py:46-50 | tags, exclude_tags and stop_timeout are None, step_load is False |
| Settings.ArgumentAttributes | invokust/settings.py:40-48 | from_environment and reset_stats are the arguments |
| Settings.InitialValues | invokust/settings.py:40-55 | the initial attributes are the arguments |
| Settings.RequiredValidated | invokust/settings.py:88-96 | truthy required attributes pass, each coerced |
| Settings.LocustfileExample | tests/test_settings.py:23-42 | a locustfile, host and numbers give the locustfile's classes and the values passed |
| Settings.MissingHostExample | tests/test_settings.py:51-56 | without a host the call fails on "host" |
| Settings.EnvVarNames | invokust/settings.py:67 | the variables are `LOCUST_` plus the upper-cased name |
| Settings.EnvironmentResolved | invokust/settings.py:72-80 | an environment locustfile supplies the classes |
| Settings.EnvironmentSettings | invokust/settings.py:57-96 | with locustfile, host and numbers from the environment, the settings succeed with those values, coerced |
| Settings.FromEnvironmentExample | tests/test_settings.py:70-82 | the environment example yields host, 2 users and spawn rate 1 |
| Settings.ClassesPassedExample | tests/test_settings.py:84-98 | classes passed directly arrive unchanged |
| Settings.ZeroStringAccepted | invokust/settings.py:88-96 | `"0"` passes and becomes 0, while 0 itself is refused |

## Left out

- AWS and I/O. The boto3 client, `client.invoke`, JSON decoding of the
  payload and logging are not modelled. The outcome of one invocation is an
  input (`Coordinator.Outcome`).
- Threads and time. The following are parameters or not modelled at all:
  - thread creation (`start_new_thread`);
  - `threading.enumerate` (`get_thread_count`);
  - `time.time` (`get_run_time`, the thread's run time);
  - `time.sleep`;
  - the lock.

  The source takes the lock inside each `log_*` method, `update_thread_data`
  and `stop_threads` separately; `calculate_rpm`, `check_error_threshold` and
  the ratios read the counters without it.
- Coordinator.LambdaLoadTest.ThreadIteration and
  Coordinator.LambdaLoadTest.RecordResults: each runs as one atomic step,
  although a completed pass of `thread()` makes eight separately locked
  calls: the invocation count, then the seven calls that record the results.
  The interleaving of other threads between those calls is not modelled.
  `Consistent` (count = errors + records, totals as sums) is therefore proved
  only between whole passes: in the source the control thread can see the
  invocation count raised before the matching error or record is logged.
  Nor does `Outcome` have a case for a pass that raises after the count is
  logged: a malformed payload (`json.loads`), a missing key
  (`results['num_requests']`) or a zero call duration ends the worker and
  leaves the count above errors + records for good.
- Coordinator.LambdaLoadTest.ThreadIteration: models one pass of the
  `while True` loop of `thread()`. The repetition, and the `start_time`
  entry written when the thread starts, are not modelled.
- Coordinator.LambdaLoadTest.ControlStep: models one pass of `run()`. The
  wait for threads to exit, the stats logging and the 3-second delay are not
  modelled.
- Per-thread rpm. `num_requests / (duration / 60)` needs wall-clock
  durations, so the rpm of a completed invocation is an input.
- `get_summary_stats`, `get_stats` and `get_locust_results` only assemble
  dicts from the values the model computes. They are not modelled.
- Cost. `_calculate_aws_lambda_cost` is a floating-point estimate. The
  `memory_limit` maximum over the records only feeds that estimate, so it is
  left out with it. `AggResults` has no `approximate_cost`.
- Aggregator.Histogram: keeps the ten bin counts only, not numpy's float bin
  edges. Bin membership is computed exactly, so a sample that sits on a
  boundary up to float rounding may land in the neighbouring bin in numpy.
- Floating point. All ratios, means and rounding use exact reals.
- Settings.CreateSettings: a setting's `Value` has no float case, so an
  argument such as `spawn_rate=0.5` is not representable. A float would be
  handled like an `Int`: truthy exactly when non-zero, and never coerced.
- Aggregator.AggregateSuccess: the order in which Python iterates over a set
  is not fixed, so the loop takes any order. Its contract says which task's
  statistics are shared only up to that choice.
- Aggregator.ResultsAggregator: the success dicts are values. The contract
  states their sharing as "every key shows one task's statistics". Object
  identity is not modelled.
- Settings.CreateSettings: `load_locustfile` and `eval` are total functions
  passed in. Their exceptions, and their side effects on the interpreter,
  are not modelled.
- Numeric.IsDigits: `str.isdigit` accepts only ASCII digits here. Python also
  accepts other Unicode digits.
- `invokust/loadtest.py`, `invokust/aws_lambda.py`, the CLI, the Lambda
  handlers and the examples are not part of this model.

## Findings

| source | as written | input that shows it | evidently intended | confidence | as-written member | corrected member |
|---|---|---|---|---|---|---|
| invokust/aws_lambda/results_aggregator.py:61 | `dict.fromkeys(successful_tasks, {})` binds every success task to one dict, so the loop at lines 71-80 overwrites every task's statistics and all tasks report those of the task handled last | one record with success tasks "a" (median 100) and "b" (median 200): both report the same median | each task gets its own dict of statistics | high (not executed) | Aggregator.AggregateSuccess, Aggregator.SharedStatsMisreport | Aggregator.Aggregate, Aggregator.TwoTaskMedians |
| invokust/aws_lambda/results_aggregator.py:84-85 | the merged failure entry is the first input record's own dict, so the summed occurrences are written back into the caller's results list | two records each reporting one failure of "x": the first aggregation reports 2, aggregating the same list again reports 3 | the inputs are left unchanged and aggregation is repeatable | high (not executed) | Aggregator.WriteBack, Aggregator.WriteBackDoubleCounts | Aggregator.Aggregate, Aggregator.AggregateFailOccurrences |
