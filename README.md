# supersonic-benchmark: the job dispatcher, its telemetry and its cluster controls

This project models in Dafny the core of supersonic-benchmark, a tool that
measures an inference service on Kubernetes. It covers four parts.

- **The job dispatcher** (`run_client_job`). It starts a job of `n_clients`
  load-generator pods and polls the job's status until the batch finishes. On
  every tick it samples three Prometheus signals: envoy overhead, GPU
  utilisation and total latency. When a live writer is attached it also writes
  a live row. After the batch finishes it aggregates the samples and reads
  every pod's log into a record with thirteen regular-expression patterns. It
  then deletes the job and returns the records restricted to the columns the
  dispatcher fills.
- **The monitoring queries.** Each query filters the samples of a Prometheus
  answer and sums or averages them.
- **The cluster controls.** These delete and recreate the Triton service for
  a mode, patch the KEDA ScaledObject, scale the deployment and wait for it to
  converge, and count running pods.
- **The configuration.** The pattern table and the column layouts.

The cluster, the clock and the monitoring backend are replaced by data. A run
is given a finite trace of ticks, and each tick holds:

- the job status;
- the three HTTP answers;
- the pods of the namespace.

It is also given the pods listed once the batch has finished, each with its
log. The poll loop has no timeout, so a trace that ends before the job finishes
ends the model's run as "still polling".

The model is built in three layers.

- **Specification functions.** `Step`, `Poll` and `Run` say what the loop and
  the whole run produce.
- **Imperative methods.** The class `ClientJob.JobRun` holds the sample lists,
  the live rows, the records and the job's existence, and its methods are
  proved against those functions. The class `KubeUtils.Cluster` holds the
  service, the ScaledObject bounds, the replica count and the accepted API
  mutations in order.
- **Lemmas.** These state what the source promises about the functions.

Modules:

| module | file | models |
|---|---|---|
| `Outcomes` | `outcomes.dfy` | `Option`, `Result`, `x or 0` |
| `Stats` | `stats.dfy` | `sum`, `np.mean`, `np.std` (as population variance), min and max |
| `Config` | `config.dfy` | config.py: names, `METRIC_PATTERNS`, `COLUMNS`, `LIVE_METRICS_COLUMNS` |
| `LogParse` | `log_parse.dfy` | `re.search` of the pattern shapes the table uses, and `float`/`int` of the capture |
| `Metrics` | `metrics.dfy` | metrics.py: the three queries |
| `KubeUtils` | `kube_utils.dfy` | kube_utils.py: services, KEDA patch, scaling waits, pod counts |
| `ClientJob` | `client_job.dfy` | client_job.py: the poll loop, the records, the projection, the whole run |

Behaviours of the code worth noting:

- **A failing monitoring query is not skipped.** `raise_for_status` raises on
  an HTTP status from 400 to 599. The exception leaves the poll loop and the
  job, so the job is never deleted (`ClientJob.PollStopReason`,
  `ClientJob.RunDeletesJob`).
- **A malformed decimal stops the run.** `float` can refuse the text
  `([\d.]+)` captures, such as "1.2.3" or ".". The resulting `ValueError`
  leaves `run_client_job` before the delete call
  (`LogParse.MalformedDecimalRaises`, `ClientJob.RunDeletesJob`).
- **No listed pods means no table.** `pd.DataFrame([])` has no columns, so the
  final column selection raises `KeyError` after the job was deleted
  (`ClientJob.RunWithoutPods`).
- **`std` is variance here.** `np.std` is the population standard deviation.
  The model keeps its square, the population variance, since square roots of
  reals are not available.

## Model

| member | source | states |
|---|---|---|
| Config.DispatcherColumnsSpec | client_job.py:177 | the dispatcher's columns are exactly those of COLUMNS other than "mode" and "n_servers" |
| Config.ModeAndServersLast | config.py:48-53 | COLUMNS has 21 entries and ends with "mode", "n_servers"; the dispatcher's columns followed by those two are COLUMNS |
| Config.PatternKeysInOrder | config.py:29-53 | the 13 pattern keys are, in order, the dispatcher's columns 2 to 14 |
| Config.PatternKeysDistinct | config.py:29-43 | no two patterns share a key, so no extraction overwrites another |
| Config.OnlyThroughputCapturesDots | config.py:30-42 | a pattern captures `[\d.]+` iff it is throughput_ips; all others capture `\d+` |
| Stats.MeanBetweenMinAndMax | client_job.py:134 | the mean of a non-empty list lies between its smallest and largest element |
| Stats.MeanBounds | client_job.py:134 | samples that all lie in [lo, hi] have their mean in [lo, hi] |
| Stats.ConstantSamples | client_job.py:134-135 | a list of one repeated value has that value as mean and zero spread |
| Stats.VarianceNonNegative | client_job.py:135 | the spread np.std is computed from is never negative |
| LogParse.RunEnd | config.py:30-42 | a greedy `\s+`/`(\d+)` run ends at the first character outside its class, all characters before it are inside |
| LogParse.MatchAtSound | config.py:30-42 | every capture the matcher reports is a decomposition literal, whitespace, capture run, whitespace and unit |
| LogParse.MatchAtComplete | client_job.py:158-160 | whenever the expression matches at a position the matcher finds it; with a unit it is the only capture, without one it is the greedy longest one |
| LogParse.SearchFromLeftmost | client_job.py:158 | `re.search` reports the leftmost position: no match lies between the start and it |
| LogParse.SearchFromNone | client_job.py:158-159 | no search result means the expression matches at no position |
| LogParse.ExtractSpec | client_job.py:157-163 | a field is None iff the pattern matches nowhere; otherwise it is the conversion of the capture at the first matching position, or the ValueError of that conversion |
| LogParse.ParseCapture | client_job.py:161 | a capture with a dot is read by float (a ValueError iff not exactly one dot and at least one digit), without a dot by int (a ValueError iff more than 4300 digits, otherwise its decimal value) |
| LogParse.DigitPatternYieldsInteger | client_job.py:161 | a `(\d+)` pattern never yields a float, and raises iff its first match captures more than 4300 digits |
| LogParse.PatternTableWellFormed | config.py:30-42 | no unit word starts with whitespace, so the whitespace run before it is forced |
| LogParse.DigitsRoundTrip | client_job.py:161 | the decimal value of the digits of n, which int gives when it accepts them, is n |
| LogParse.LineMatches | client_job.py:158-160 | in a log starting "literal value[ unit]\n" the pattern matches at position 0 and captures exactly the value |
| LogParse.ExtractLine | client_job.py:157-163 | such a log yields the conversion of the printed value, whatever follows |
| LogParse.ExtractRendered | client_job.py:157-163 | round trip: a log printing integer n for a field yields Int(n) when n has at most 4300 digits, and ValueError of the digits otherwise |
| LogParse.ParseDecimal | client_job.py:161 | float reads "w.f" as w + f / 10^|f| |
| LogParse.ExtractRenderedDecimal | client_job.py:157-163 | round trip: a log printing "w.f" for throughput yields Decimal(w + f / 10^|f|) |
| LogParse.SeparatorIsWhitespace | config.py:30 | `\s+` accepts the separator `\x1c`: "Batch size:\x1c5" yields the batch size 5 |
| LogParse.TwoDotsRefused | client_job.py:161 | float refuses "1.2.3" |
| LogParse.MalformedDecimalRaises | client_job.py:157-161 | a `[\d.]+` pattern on a printed "1.2.3" yields ValueError("1.2.3"), not None |
| Metrics.SurvivingMembers | metrics.py:24-29 | a value survives the filter iff some result item has a value whose text is neither "NaN" nor "0" and whose number is that value |
| Metrics.NothingSurvives | metrics.py:24-31 | the filtered list is empty iff no item passes the filter |
| Metrics.EnvoyOverheadSpec | metrics.py:6-34 | an error iff the status is 4xx/5xx, carrying that status; None iff nothing survives the filter; otherwise the sum of the survivors |
| Metrics.GpuUtilizationSpec | metrics.py:36-50 | an error iff the status is 4xx/5xx; None iff nothing survives; otherwise their mean, which lies between their minimum and maximum |
| Metrics.TotalLatencySpec | metrics.py:52-74 | an error iff the status is 4xx/5xx; None iff nothing survives; otherwise the sum of the survivors |
| Metrics.SameFilterEverywhere | metrics.py:23-31 | on the same answer the three queries agree on raising and on having no data |
| Metrics.AllNaNOrZeroIsNoData | metrics.py:28-31 | an answer whose values all read "NaN" or "0" gives no data for every query |
| Metrics.ZeroPointZeroIsKept | metrics.py:28 | the filter compares text: a value printed "0.0" is kept and summed as 0.0 |
| KubeUtils.SelectSpec | kube_utils.py:136 | the label selection keeps exactly the listed pods carrying the label value |
| KubeUtils.CountRunning | kube_utils.py:137 | the count of Running pods is at most the number of pods |
| KubeUtils.CountRunningAppend | kube_utils.py:137 | counting Running pods distributes over concatenation |
| KubeUtils.CountRunningExtremes | kube_utils.py:137 | the count equals the list size iff every pod runs, and is 0 iff none does |
| KubeUtils.RunningServersSpec | kube_utils.py:139-141 | the server count, over the pods listed with `app.kubernetes.io/component=triton`, is 0 iff no pod carrying that label is running |
| KubeUtils.ServiceFor | kube_utils.py:19-83 | a service exists iff the mode is supersonic or bare_triton; named sonic-server-triton with the three ports; headless ClusterIP for supersonic, LoadBalancer for bare_triton |
| KubeUtils.ServicePortsFixed | kube_utils.py:38-42 | the ports are http 8000, grpc 8001, metrics 8002, each with target port equal to port |
| KubeUtils.KedaBounds | kube_utils.py:97-101 | supersonic patches min/max replicas to 1/10; any other mode to replicas/replicas |
| KubeUtils.FirstReached | kube_utils.py:119-133 | the first reading at or after a start that meets the goal: none before it does, it does (or the trace ran out) |
| KubeUtils.WaitFor | kube_utils.py:119-124 | the polling loop stops at the first reading that meets the goal |
| KubeUtils.AbsentReadsAsZero | kube_utils.py:121 | an absent available_replicas ends the drain wait, and ends the scale-up wait only for a target of at most 0 |
| KubeUtils.Cluster.DeleteService | kube_utils.py:11-17 | the service is removed; a 404 refusal is absorbed; any other refusal raises ApiError with its status and changes nothing |
| KubeUtils.Cluster.CreateService | kube_utils.py:45 | the service is created unless refused or already present (409), then nothing changes |
| KubeUtils.Cluster.SetServiceMode | kube_utils.py:76-83 | delete, then create the mode's service; an invalid mode raises ValueError after the delete; each refusal and its effect on the state |
| KubeUtils.Cluster.ScaleDeployment | kube_utils.py:85-133 | KEDA bounds patched unless refused (the failure is swallowed); with reset replicas go to 0 and the wait for the first drained reading; replicas then go to the target and the wait ends at the first reading with availability at least the target |
| KubeUtils.SwitchModeTwice | kube_utils.py:76-83 | switching to the same valid mode twice without refusals succeeds both times and leaves that mode's service |
| ClientJob.ExtraKeys | client_job.py:23 | the keys of a row that the writer's fieldnames lack, exactly |
| ClientJob.LiveWriterRejectsRows | benchmark.py:12-14 | the live writer's fieldnames lack "total_latency", so every live row has an unknown key |
| ClientJob.LiveRowColumnsAcceptRows | client_job.py:15-22 | with "total_latency" added, the fieldnames are exactly the row's keys and no key is unknown |
| ClientJob.Accepted | client_job.py:108-112 | a sample is appended iff it is present and non-zero, and it is appended as is |
| ClientJob.StepOutcome | client_job.py:101-113 | a tick exits iff the batch finished (succeeded == n or failed >= n, absent counts as 0), and raises iff it did not and a query failed |
| ClientJob.StepContinues | client_job.py:107-129 | a sampled tick appends its accepted envoy and GPU samples and its live rows, never the total latency |
| ClientJob.Poll | client_job.py:100-131 | the loop reads at most the whole trace; it runs out only at the end of the trace; otherwise it stopped on a tick it read |
| ClientJob.PollSampledBefore | client_job.py:100-113 | every tick before the stopping one did not finish the batch and had all three queries succeed |
| ClientJob.PollStopReason | client_job.py:101-113 | a finished run stopped on a tick that finished the batch; a raised run stopped on an unfinished tick whose first failing query is the error |
| ClientJob.PollRows | client_job.py:115-129 | the live rows written are those of the ticks sampled, in order |
| ClientJob.PollEnvoySamples | client_job.py:107-109 | the envoy samples are the accepted envoy samples of the ticks sampled, in order |
| ClientJob.PollGpuSamples | client_job.py:110-112 | the GPU samples are the accepted GPU samples of the ticks sampled, in order |
| ClientJob.SamplesNonZero | client_job.py:108-112 | no gathered sample is zero |
| ClientJob.RowsWithoutWriter | client_job.py:115 | without a live writer no row is written |
| ClientJob.RowsEveryTick | client_job.py:125-129 | outside supersonic mode every tick writes exactly one row |
| ClientJob.RowsComplete | client_job.py:118-124 | in supersonic mode every row written has all three samples |
| ClientJob.RowsAdmitted | client_job.py:115-129 | every tick the policy admits has its row among those written |
| ClientJob.AggregateSpec | client_job.py:133-145 | the aggregates are None iff there are no samples; otherwise mean and variance, the mean between min and max, the variance non-negative |
| ClientJob.FieldsSucceed | client_job.py:157-163 | storing the extractions succeeds iff none of them raised |
| ClientJob.FieldsKeys | client_job.py:157-163 | the record has the base keys and exactly the patterns' keys |
| ClientJob.FieldsValues | client_job.py:157-163 | each pattern's key holds that pattern's extraction, and the other base keys are untouched |
| ClientJob.FieldsFirstError | client_job.py:157-163 | a failed record fails with the first extraction that raised |
| ClientJob.RecordSucceeds | client_job.py:152-168 | a pod's record is built iff every pattern's extraction on its log succeeds |
| ClientJob.RecordColumns | client_job.py:156-167 | a built record has exactly the dispatcher's columns |
| ClientJob.RecordPodCells | client_job.py:156 | the record holds the client count and the pod's name |
| ClientJob.RecordBatchCells | client_job.py:164-167 | the record holds the batch's average and spread of both signals |
| ClientJob.RecordFieldCells | client_job.py:157-163 | the record holds each pattern's extraction under its key |
| ClientJob.DispatcherLayout | config.py:48-53 | the dispatcher's columns are the two pod columns, the pattern keys and the four aggregate columns |
| ClientJob.OwnColumnsAtEnds | config.py:48-53 | n_clients and pod_name come first, the aggregates last, no pattern key is one of them |
| ClientJob.RecordsContent | client_job.py:152-168 | the record list is built iff every pod's record is; it then holds them in order |
| ClientJob.RecordsFirstError | client_job.py:152-168 | a failed list fails with the first pod's error |
| ClientJob.RecordsErrorSticks | client_job.py:152-168 | once a record fails, later pods do not change the result |
| ClientJob.MissingColumnsSpec | client_job.py:176-177 | the missing columns are exactly the requested ones no record has |
| ClientJob.ProjectSpec | client_job.py:176-177 | selecting columns fails iff one is missing, reporting exactly those; otherwise one row per record and one cell per column |
| ClientJob.NoRecordsNoColumns | client_job.py:176-177 | an empty frame lacks every column |
| ClientJob.ProjectFullRecords | client_job.py:176-177 | on records that all have the columns the selection succeeds and cell (i, j) is record i's value for column j |
| ClientJob.JobName | client_job.py:31 | the job's name is "sonic-benchmark-" followed by the suffix |
| ClientJob.JobPodsSelected | client_job.py:64 | a pod is selected by job-name iff it carries the label the job's template gives its pods |
| ClientJob.BuildRecord | client_job.py:152-168 | the loop over the patterns builds the pod's record, or stops at the first ValueError |
| ClientJob.FieldsErrorSticks | client_job.py:157-163 | once an extraction raised, later patterns do not change the result |
| ClientJob.AppendRecord | client_job.py:152-168 | one pass of the pod loop extends the records of the first i pods to those of the first i + 1 |
| ClientJob.RecordList | client_job.py:150-168 | the pod loop builds the records of the listed pods in order, or stops at the first error |
| ClientJob.JobRun.constructor | client_job.py:31-98 | a fresh run: its name, its job (n_clients parallelism and completions, backoff limit 1000, pod label job-name), the job existing, nothing gathered |
| ClientJob.JobRun.PollLoop | client_job.py:98-131 | the loop leaves the state Poll prescribes for the trace, and does not touch the job or the records |
| ClientJob.JobRun.PollTick | client_job.py:100-131 | one loop pass either goes on to the next tick as Poll does or stops with Poll's result |
| ClientJob.JobRun.SampleTick | client_job.py:107-129 | the sampling part of a pass updates the state as Step does, or raises Step's error |
| ClientJob.JobRun.BuildRecords | client_job.py:150-168 | records are the listed pods' records under this batch's aggregates, or the first error leaves them unchanged |
| ClientJob.JobRun.DeleteJob | client_job.py:170-174 | the job no longer exists and nothing else changes |
| ClientJob.RunClientJob | client_job.py:25-177 | the outcome and the job's existence are those Run prescribes for the trace and the listed pods; the live rows are Poll's |
| ClientJob.RunDeletesJob | client_job.py:98-174 | the job is deleted iff the batch finished and every listed pod's log converted |
| ClientJob.RunFinishedCases | client_job.py:150-177 | a deleted job iff finished with records; a completed run deleted its job; after the delete the outcome is the projection or its KeyError |
| ClientJob.RunWithoutPods | client_job.py:170-177 | a finished batch with no listed pods deletes the job and fails with KeyError for every dispatcher column |
| ClientJob.FinishedRunStops | client_job.py:100-105 | a finished run stopped on the first tick that finished the batch, every earlier tick being sampled |
| ClientJob.FinishedRunSamples | client_job.py:107-145 | the batch aggregates of a finished run come from the accepted samples of every tick before the last |
| ClientJob.ProjectPodRecords | client_job.py:176-177 | records of listed pods project to one row per pod, cell j being the record's value for the j-th dispatcher column |
| ClientJob.RecordsHaveColumns | client_job.py:152-168 | every record has exactly the dispatcher's columns |
| ClientJob.RunCompletes | client_job.py:98-177 | a run completes iff the batch finished, at least one pod is listed and every listed pod's log converted |
| ClientJob.RunTable | client_job.py:150-177 | a completed run listed a pod and its table is the projection of those pods' records |
| ClientJob.RecordsArePodRecords | client_job.py:150-168 | the i-th record is the record of the i-th listed pod |

## Left out

- Time is not modelled: `time.sleep`, the poll interval and the live row's timestamp. A live row carries no timestamp field.
- `uuid.uuid4()` is not modelled. The eight-character suffix of the job's name is a parameter of the run.
- The job's body beyond its parallelism, completions, backoff limit and pod label is left out: the barrier script, the container image and command, and the resources. So are the endpoint URL and the service's metadata labels and selector.
- The PromQL query strings are left out. Each query is modelled by the HTTP answer it receives.
- `requests` failures other than an HTTP error status are left out: connection errors and a body that is not JSON. The JSON structure of the answer is not modelled: each answer is its status and its list of result items, and an answer without "data" or "result" reads, through the `.get` defaults, as an empty list.
- `float()` of the answer's value string is left out. Each item carries its text and the number that text denotes.
- The numbers are exact reals. Floating-point rounding of `sum`, `np.mean` and `np.std` is not modelled.
- `int` conversion follows CPython 3.11 and later (and the security releases that carry the limit back): a run of more than 4300 digits raises ValueError. Versions without the limit, and a limit changed through `sys.set_int_max_str_digits` or `PYTHONINTMAXSTRDIGITS`, are not modelled.
- LogParse.DigitsRoundTrip: states the decimal value of the digits only. Whether `int` accepts them is stated by ParseCapture and ExtractRendered.
- ClientJob.AggregateSpec: the spread is the population variance, not its square root, because real square roots are not available.
- `\s` is modelled as its ASCII members, space, `\t`, `\n`, `\v`, `\f`, `\r` and `\x1c` to `\x1f`, and `\d` as `0` to `9`. The non-ASCII whitespace (such as `\x85` and `\xa0`) and the non-ASCII digits that Python's `str` patterns also accept are not modelled.
- Kubernetes API failures of the dispatcher are left out: `create_namespaced_job`, `read_namespaced_job` in the poll loop (client_job.py:101), `list_namespaced_pod` (in the pod counts and the final listing), `read_namespaced_pod_log` and `delete_namespaced_job`. Every tick carries a job status, so the model cannot produce a run that ends with an `ApiException` from the status read while the job stays in place.
- KubeUtils.Cluster.ScaleDeployment: failures of `patch_namespaced_deployment` and `read_namespaced_deployment` (kube_utils.py:118, 120, 127, 129) are left out, so the model never raises them. Only the KEDA patch may be refused, and that failure is swallowed as in the source.
- A pod's log is part of the listed pod.
- The live writer is modelled as the sequence of rows it receives. CSV formatting and file I/O are left out.
- The running counts are computed for every tick, even without a writer. Reading them has no effect, so the outcome is the same.
- The `n_servers` argument of `run_client_job` and the unused `mode`, `n_clients` and `n_servers` arguments of `log_live_metrics` are left out. Neither function uses them in its result.
- All console output is left out: the two prints of the dispatcher (client_job.py:147-148), the three prints and the `traceback.print_exc` of scale_deployment (kube_utils.py:99, 102, 113-114), and the print of each query (metrics.py:33, 49, 73).
- KubeUtils.Cluster.ScaleDeployment: the deployment name and namespace parameters are left out, since the model has one deployment. The readings are one trace shared by both waits. Each wait is unbounded in the source; a trace that ends first gives StillWaiting.
- cleanup_benchmark_jobs is not part of this model. It is an independent maintenance helper that the dispatcher does not call.
- benchmark.py, plotting and the deployment and bootstrap scripts are not part of this model. The one exception is the live writer's fieldnames, which the finding below needs.
- The pandas dtype coercion of the result frame is left out. Absent fields are cells holding None.

## Findings

| source | as written | input that shows it | evidently intended | confidence | as-written member | corrected member |
|---|---|---|---|---|---|---|
| config.py:55-58, benchmark.py:12-14, benchmark.py:24 | The live writer's fieldnames lack "total_latency". `log_live_metrics` (client_job.py:15-23) writes that key, so `csv.DictWriter.writerow` raises `ValueError` on the first live row. | Any run with a live writer in which a tick admits a row, such as a bare_triton tick that does not finish the batch. The repository's own driver does not get that far: benchmark.py:24 calls scale_deployment without its `mode` argument, which raises TypeError before run_client_job is reached. The claim holds for any caller that passes this writer. | The fieldnames include "total_latency", so every row the dispatcher writes is accepted | not executed | ClientJob.LiveWriterRejectsRows | ClientJob.LiveRowColumnsAcceptRows |
