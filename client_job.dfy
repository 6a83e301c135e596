/** The job dispatcher (client_job.py). run_client_job creates a Kubernetes job
    of `n_clients` load-generator pods, polls its status until it has finished,
    sampling telemetry and optionally writing a live row on every tick, then
    reads every pod's log into a record carrying the batch aggregates, deletes
    the job and returns the records restricted to the columns it fills.
    The cluster and the monitoring backend are replaced by a finite trace of
    observations, one per poll tick; the loop has no timeout, so a trace that
    ends before the job finishes ends the model's run as "still polling". */
module ClientJob {
  import opened Outcomes
  import opened Config
  import opened Stats
  import opened LogParse
  import opened Metrics
  import opened KubeUtils

  // ---------------------------------------------------------------------------
  // The poll loop, one tick at a time

  /** The job status fields the loop reads; either may be absent. */
  datatype JobStatus = JobStatus(succeeded: Option<int>, failed: Option<int>)

  /** The loop's exit test, with an absent count read as 0. */
  predicate BatchFinished(nClients: int, status: JobStatus)
  {
    OrZero(status.succeeded) == nClients || OrZero(status.failed) >= nClients
  }

  /** What one tick reads: the job status, the answers of the three
      monitoring queries, and the pods of the namespace. */
  datatype Tick = Tick(status: JobStatus, envoy: Response, gpu: Response, total: Response, pods: seq<Pod>)

  /** A query's outcome on one tick: a sample or no data, or the error it raised. */
  type QueryOutcome = Result<Option<real>, QueryError>

  /** A tick as the loop of job `name` sees it, once the three queries have
      run on its answers and the running pods of the job and the running
      servers have been counted. */
  datatype Observation = Observation(
    status: JobStatus, envoy: QueryOutcome, gpu: QueryOutcome, total: QueryOutcome,
    runningClients: nat, runningServers: nat)

  function Observe(name: string, tick: Tick): (o: Observation)
    ensures o.status == tick.status
    ensures o.envoy == QueryEnvoyOverhead(tick.envoy)
    ensures o.gpu == QueryGpuUtilization(tick.gpu)
    ensures o.total == QueryTotalLatency(tick.total)
    ensures o.runningClients == CountRunningPods(tick.pods, JobSelector(name))
    ensures o.runningServers == CountRunningServers(tick.pods)
  {
    Observation(tick.status, QueryEnvoyOverhead(tick.envoy), QueryGpuUtilization(tick.gpu),
                QueryTotalLatency(tick.total),
                CountRunningPods(tick.pods, JobSelector(name)), CountRunningServers(tick.pods))
  }

  function ObserveAll(name: string, ticks: seq<Tick>): (os: seq<Observation>)
    ensures |os| == |ticks| && forall i :: 0 <= i < |ticks| ==> os[i] == Observe(name, ticks[i])
  {
    seq(|ticks|, i requires 0 <= i < |ticks| => Observe(name, ticks[i]))
  }

  /** A live row as log_live_metrics writes it (the timestamp is left out). */
  datatype LiveRow = LiveRow(
    runningClients: nat, runningServers: nat,
    envoyOverhead: Option<real>, gpuUtil: Option<real>, totalLatency: Option<real>)

  /** The keys of the dictionary log_live_metrics hands to the live writer. */
  const LIVE_ROW_KEYS: seq<string> := [
    "timestamp", "running_clients", "running_servers",
    "envoy_overhead", "gpu_util", "total_latency"
  ]

  /** The keys of a row that a `csv.DictWriter` with these fieldnames does not
      know; with the default `extrasaction="raise"`, `writerow` raises
      `ValueError` exactly when there is one. */
  function ExtraKeys(fieldnames: seq<string>, keys: seq<string>): (extra: seq<string>)
    ensures forall k :: k in extra <==> k in keys && k !in fieldnames
    ensures |extra| <= |keys|
  {
    if keys == [] then []
    else if keys[0] in fieldnames then ExtraKeys(fieldnames, keys[1..])
    else [keys[0]] + ExtraKeys(fieldnames, keys[1..])
  }

  /** The live writer is opened with the five fieldnames of
      LIVE_METRICS_COLUMNS, while every live row also carries "total_latency":
      the first `writerow` of a run with a live writer raises. */
  lemma LiveWriterRejectsRows()
    ensures ExtraKeys(LIVE_METRICS_COLUMNS, LIVE_ROW_KEYS) == ["total_latency"]
  {
    assert LIVE_ROW_KEYS[..5] == LIVE_METRICS_COLUMNS;
    assert ExtraKeys(LIVE_METRICS_COLUMNS, LIVE_ROW_KEYS[5..]) == ["total_latency"];
    ExtraKeysOfKnown(LIVE_METRICS_COLUMNS, LIVE_ROW_KEYS, 5);
  }

  /** Keys that are all fieldnames add nothing to the extra keys. */
  lemma {:induction false} ExtraKeysOfKnown(fieldnames: seq<string>, keys: seq<string>, n: nat)
    requires n <= |keys| && forall i :: 0 <= i < n ==> keys[i] in fieldnames
    ensures ExtraKeys(fieldnames, keys) == ExtraKeys(fieldnames, keys[n..])
    decreases n
  {
    if n > 0 {
      ExtraKeysOfKnown(fieldnames, keys[1..], n - 1);
      assert keys[1..][n - 1..] == keys[n..];
    }
  }

  /** The fieldnames the live writer needs: LIVE_METRICS_COLUMNS with the
      "total_latency" column the rows carry. */
  const LIVE_ROW_COLUMNS: seq<string> := LIVE_METRICS_COLUMNS + ["total_latency"]

  /** With LIVE_ROW_COLUMNS as fieldnames every live row is written, and every
      column of the file is filled by each row. */
  lemma LiveRowColumnsAcceptRows()
    ensures ExtraKeys(LIVE_ROW_COLUMNS, LIVE_ROW_KEYS) == []
    ensures forall k :: k in LIVE_ROW_COLUMNS <==> k in LIVE_ROW_KEYS
  {
    assert LIVE_ROW_COLUMNS == LIVE_ROW_KEYS;
    ExtraKeysOfKnown(LIVE_ROW_COLUMNS, LIVE_ROW_KEYS, |LIVE_ROW_KEYS|);
  }

  /** The run's parameters: the client count, the mode string, whether a live
      writer was given, and the job's name. */
  datatype JobConfig = JobConfig(nClients: int, mode: string, liveSink: bool, name: string)

  /** The label selector of the job's pods. */
  function JobSelector(name: string): Selector
  {
    Selector("job-name", name)
  }

  /** The samples a tick adds to a sample list: one when present and non-zero. */
  function Accepted(x: Option<real>): (r: seq<real>)
    ensures r == [] <==> x.None? || x.value == 0.0
    ensures r != [] ==> r == [x.value]
  {
    if x.Some? && x.value != 0.0 then [x.value] else []
  }

  /** The live-row policy: in supersonic mode only ticks where the three
      samples are all present (the running counts are always present); in any
      other mode every tick, absent samples included. */
  predicate EmitsRow(mode: string, envoy: Option<real>, gpu: Option<real>, total: Option<real>)
  {
    mode != SUPERSONIC || (envoy.Some? && gpu.Some? && total.Some?)
  }

  datatype PollState = PollState(envoy: seq<real>, gpu: seq<real>, rows: seq<LiveRow>)

  /** One tick: the job has finished, a query raised (after the samples of the
      queries before it were accumulated), or the loop goes on. */
  datatype StepResult = Exit | Raised(error: QueryError, state: PollState) | Continue(state: PollState)

  function Step(cfg: JobConfig, o: Observation, st: PollState): StepResult
  {
    if BatchFinished(cfg.nClients, o.status) then Exit
    else match o.envoy
      case Err(e) => Raised(e, st)
      case Ok(es) =>
        var st1 := st.(envoy := st.envoy + Accepted(es));
        match o.gpu
        case Err(e) => Raised(e, st1)
        case Ok(gs) =>
          var st2 := st1.(gpu := st1.gpu + Accepted(gs));
          match o.total
          case Err(e) => Raised(e, st2)
          case Ok(ts) =>
            if cfg.liveSink && EmitsRow(cfg.mode, es, gs, ts) then
              Continue(st2.(rows := st2.rows + [RowOf(o)]))
            else
              Continue(st2)
  }

  /** The row log_live_metrics writes for a tick: the running clients of this
      job, the running servers, and the three samples as they are. */
  function RowOf(o: Observation): LiveRow
  {
    LiveRow(o.runningClients, o.runningServers, SampleOf(o.envoy), SampleOf(o.gpu), SampleOf(o.total))
  }

  /** The sample of a query that succeeded; `None` otherwise. */
  function SampleOf(r: QueryOutcome): Option<real>
  {
    if r.Ok? then r.value else None
  }

  /** The three queries of a tick all succeeded. */
  predicate Sampled(o: Observation)
  {
    o.envoy.Ok? && o.gpu.Ok? && o.total.Ok?
  }

  /** A tick that does not finish the job and whose queries succeed adds its
      accepted samples, and a row exactly when a writer is attached and the
      policy admits it; the total latency is never accumulated. */
  lemma StepContinues(cfg: JobConfig, o: Observation, st: PollState)
    requires !BatchFinished(cfg.nClients, o.status) && Sampled(o)
    ensures Step(cfg, o, st).Continue?
    ensures var st' := Step(cfg, o, st).state;
      st'.envoy == st.envoy + Accepted(o.envoy.value) &&
      st'.gpu == st.gpu + Accepted(o.gpu.value) &&
      st'.rows == st.rows + TickRows(cfg, o)
  {
  }

  /** A tick exits exactly when its status finishes the batch, and raises
      exactly when it does not and one of its queries fails. */
  lemma StepOutcome(cfg: JobConfig, o: Observation, st: PollState)
    ensures Step(cfg, o, st).Exit? <==> BatchFinished(cfg.nClients, o.status)
    ensures Step(cfg, o, st).Raised? <==> !BatchFinished(cfg.nClients, o.status) && !Sampled(o)
  {
  }

  /** How the poll loop ended on a trace. */
  datatype PollEnd = Finished | SamplerRaised(error: QueryError) | TraceExhausted

  datatype PollResult = PollResult(state: PollState, end: PollEnd, ticksRead: nat)

  /** The poll loop from tick `i` on. */
  function Poll(cfg: JobConfig, os: seq<Observation>, i: nat, st: PollState): (r: PollResult)
    requires i <= |os|
    ensures i <= r.ticksRead <= |os|
    ensures r.end.TraceExhausted? ==> r.ticksRead == |os|
    ensures !r.end.TraceExhausted? ==> i < r.ticksRead
    decreases |os| - i
  {
    if i == |os| then PollResult(st, TraceExhausted, i)
    else match Step(cfg, os[i], st)
      case Exit => PollResult(st, Finished, i + 1)
      case Raised(e, st') => PollResult(st', SamplerRaised(e), i + 1)
      case Continue(st') => Poll(cfg, os, i + 1, st')
  }

  /** The number of ticks that were fully sampled: all of them when the trace
      ran out, all but the last (the one that finished or raised) otherwise. */
  function SampledTicks(r: PollResult): nat
  {
    if r.end.TraceExhausted? || r.ticksRead == 0 then r.ticksRead else r.ticksRead - 1
  }

  /** Every tick before the one the loop stopped at was unfinished and fully sampled. */
  lemma {:induction false} PollSampledBefore(cfg: JobConfig, os: seq<Observation>, i: nat, st: PollState)
    requires i <= |os|
    ensures var r := Poll(cfg, os, i, st);
      forall j :: i <= j < SampledTicks(r) ==> !BatchFinished(cfg.nClients, os[j].status) && Sampled(os[j])
    decreases |os| - i
  {
    if i < |os| {
      StepOutcome(cfg, os[i], st);
      var step := Step(cfg, os[i], st);
      if step.Continue? {
        PollSampledBefore(cfg, os, i + 1, step.state);
      }
    }
  }

  /** The loop stops at a tick whose status finishes the batch, or at an
      unfinished tick where a query raised. With PollSampledBefore: it stops at
      the first tick that finishes the batch unless a query raised earlier. */
  lemma {:induction false} PollStopReason(cfg: JobConfig, os: seq<Observation>, i: nat, st: PollState)
    requires i <= |os|
    ensures var r := Poll(cfg, os, i, st);
      (r.end.Finished? ==> BatchFinished(cfg.nClients, os[r.ticksRead - 1].status)) &&
      (r.end.SamplerRaised? ==>
        !BatchFinished(cfg.nClients, os[r.ticksRead - 1].status) && !Sampled(os[r.ticksRead - 1]) &&
        r.end.error == FirstError(os[r.ticksRead - 1]))
    decreases |os| - i
  {
    if i < |os| {
      StepOutcome(cfg, os[i], st);
      var step := Step(cfg, os[i], st);
      if step.Continue? {
        PollStopReason(cfg, os, i + 1, step.state);
      }
    }
  }

  /** The error a tick raises: that of the first failing query, in the order
      envoy overhead, GPU utilisation, total latency. */
  function FirstError(o: Observation): QueryError
    requires !Sampled(o)
  {
    if o.envoy.Err? then o.envoy.error else if o.gpu.Err? then o.gpu.error else o.total.error
  }

  /** The envoy and GPU samples that ticks `i` up to (not including) `k`
      contribute, tick by tick. */
  function EnvoySamples(os: seq<Observation>, i: nat, k: nat): seq<real>
    requires i <= k <= |os|
    decreases k - i
  {
    if i == k then [] else Accepted(SampleOf(os[i].envoy)) + EnvoySamples(os, i + 1, k)
  }

  function GpuSamples(os: seq<Observation>, i: nat, k: nat): seq<real>
    requires i <= k <= |os|
    decreases k - i
  {
    if i == k then [] else Accepted(SampleOf(os[i].gpu)) + GpuSamples(os, i + 1, k)
  }

  /** The live rows that ticks `i` up to `k` contribute under the policy. */
  function Rows(cfg: JobConfig, os: seq<Observation>, i: nat, k: nat): seq<LiveRow>
    requires i <= k <= |os|
    decreases k - i
  {
    if i == k then [] else TickRows(cfg, os[i]) + Rows(cfg, os, i + 1, k)
  }

  /** The row a tick writes, if the writer is attached and the policy admits it. */
  function TickRows(cfg: JobConfig, o: Observation): seq<LiveRow>
  {
    if cfg.liveSink && EmitsRow(cfg.mode, SampleOf(o.envoy), SampleOf(o.gpu), SampleOf(o.total))
    then [RowOf(o)] else []
  }

  /** The writer receives, in order, the rows the policy admits for the fully
      sampled ticks; when a query raised, the rows written before remain. */
  lemma {:induction false} PollRows(cfg: JobConfig, os: seq<Observation>, i: nat, st: PollState)
    requires i <= |os|
    ensures var r := Poll(cfg, os, i, st);
      i <= SampledTicks(r) && r.state.rows == st.rows + Rows(cfg, os, i, SampledTicks(r))
    decreases |os| - i
  {
    if i < |os| {
      StepOutcome(cfg, os[i], st);
      var step := Step(cfg, os[i], st);
      if step.Continue? {
        StepContinues(cfg, os[i], st);
        PollRows(cfg, os, i + 1, step.state);
      }
    }
  }

  /** The envoy samples grow by the accepted samples of the fully sampled
      ticks, in order. */
  lemma {:induction false} PollEnvoySamples(cfg: JobConfig, os: seq<Observation>, i: nat, st: PollState)
    requires i <= |os|
    ensures var r := Poll(cfg, os, i, st);
      !r.end.SamplerRaised? ==> r.state.envoy == st.envoy + EnvoySamples(os, i, SampledTicks(r))
    decreases |os| - i
  {
    if i < |os| {
      StepOutcome(cfg, os[i], st);
      var step := Step(cfg, os[i], st);
      if step.Continue? {
        StepContinues(cfg, os[i], st);
        PollEnvoySamples(cfg, os, i + 1, step.state);
      }
    }
  }

  /** The GPU samples grow likewise. */
  lemma {:induction false} PollGpuSamples(cfg: JobConfig, os: seq<Observation>, i: nat, st: PollState)
    requires i <= |os|
    ensures var r := Poll(cfg, os, i, st);
      !r.end.SamplerRaised? ==> r.state.gpu == st.gpu + GpuSamples(os, i, SampledTicks(r))
    decreases |os| - i
  {
    if i < |os| {
      StepOutcome(cfg, os[i], st);
      var step := Step(cfg, os[i], st);
      if step.Continue? {
        StepContinues(cfg, os[i], st);
        PollGpuSamples(cfg, os, i + 1, step.state);
      }
    }
  }

  /** Every accumulated sample is non-zero: a zero (or absent) sample is "no
      data" and is dropped rather than averaged in. */
  lemma {:induction false} SamplesNonZero(os: seq<Observation>, i: nat, k: nat)
    requires i <= k <= |os|
    ensures forall x :: x in EnvoySamples(os, i, k) ==> x != 0.0
    ensures forall x :: x in GpuSamples(os, i, k) ==> x != 0.0
    decreases k - i
  {
    if i < k {
      SamplesNonZero(os, i + 1, k);
      var e, g := Accepted(SampleOf(os[i].envoy)), Accepted(SampleOf(os[i].gpu));
      assert forall x :: x in e ==> x != 0.0;
      assert forall x :: x in g ==> x != 0.0;
    }
  }

  /** The live-row policy over ticks `i` up to `k`, in four lemmas: without a
      writer nothing is written; ... */
  lemma {:induction false} RowsWithoutWriter(cfg: JobConfig, os: seq<Observation>, i: nat, k: nat)
    requires i <= k <= |os| && !cfg.liveSink
    ensures Rows(cfg, os, i, k) == []
    decreases k - i
  {
    if i < k {
      RowsWithoutWriter(cfg, os, i + 1, k);
    }
  }

  /** ... in a mode other than supersonic, one row per tick ... */
  lemma {:induction false} RowsEveryTick(cfg: JobConfig, os: seq<Observation>, i: nat, k: nat)
    requires i <= k <= |os| && cfg.liveSink && cfg.mode != SUPERSONIC
    ensures |Rows(cfg, os, i, k)| == k - i
    decreases k - i
  {
    if i < k {
      RowsEveryTick(cfg, os, i + 1, k);
    }
  }

  /** ... in supersonic mode, every written row carries all three samples ... */
  lemma {:induction false} RowsComplete(cfg: JobConfig, os: seq<Observation>, i: nat, k: nat)
    requires i <= k <= |os| && cfg.mode == SUPERSONIC
    ensures forall row :: row in Rows(cfg, os, i, k) ==>
      row.envoyOverhead.Some? && row.gpuUtil.Some? && row.totalLatency.Some?
    decreases k - i
  {
    if i < k {
      RowsComplete(cfg, os, i + 1, k);
    }
  }

  /** ... and with a writer, every tick the policy admits has its row written. */
  lemma {:induction false} RowsAdmitted(cfg: JobConfig, os: seq<Observation>, i: nat, k: nat)
    requires i <= k <= |os| && cfg.liveSink
    ensures forall j :: i <= j < k && EmitsRow(cfg.mode, SampleOf(os[j].envoy), SampleOf(os[j].gpu), SampleOf(os[j].total)) ==>
      RowOf(os[j]) in Rows(cfg, os, i, k)
    decreases k - i
  {
    if i < k {
      RowsAdmitted(cfg, os, i + 1, k);
    }
  }

  // ---------------------------------------------------------------------------
  // Batch aggregates

  /** The average and the spread of a signal over the batch; the spread is the
      population variance, whose square root np.std returns. */
  datatype Summary = Summary(avg: real, variance: real)

  /** The summary of a list of samples: `None` for an empty list, otherwise
      its mean and its spread (AggregateSpec). */
  function Aggregate(xs: seq<real>): Option<Summary>
  {
    if xs == [] then None else Some(Summary(Mean(xs), Variance(xs)))
  }

  /** The summary is `None` exactly for an empty list; otherwise its average
      lies between the smallest and the largest sample and its spread is not
      negative. */
  lemma AggregateSpec(xs: seq<real>)
    ensures Aggregate(xs).None? <==> xs == []
    ensures Aggregate(xs).Some? ==>
      Aggregate(xs).value.avg == Mean(xs) && Aggregate(xs).value.variance == Variance(xs) &&
      Min(xs) <= Aggregate(xs).value.avg <= Max(xs) && 0.0 <= Aggregate(xs).value.variance
  {
    if xs != [] {
      MeanBetweenMinAndMax(xs);
      VarianceNonNegative(xs);
    }
  }

  /** The average of a signal, `None` exactly when the spread is `None`. */
  function Avg(s: Option<Summary>): Option<real>
  {
    if s.Some? then Some(s.value.avg) else None
  }

  function Spread(s: Option<Summary>): Option<real>
  {
    if s.Some? then Some(s.value.variance) else None
  }

  // ---------------------------------------------------------------------------
  // Per-pod records

  /** A value of the results table: the client count, the pod's name, an
      extracted field, a batch statistic, or the blank pandas fills in for a
      key a record lacks. */
  datatype Cell = Count(n: int) | Text(s: string) | Field(v: Option<Number>) | Stat(x: Option<real>) | Blank

  /** A pod record: a dictionary from column names to cells. */
  type Record = map<string, Cell>

  /** What each pattern yields on a log, in table order. */
  type Extraction = Result<Option<Number>, ValueError>

  function Extractions(log: string, ps: seq<Pattern>): (xs: seq<Extraction>)
    ensures |xs| == |ps|
  {
    seq(|ps|, j requires 0 <= j < |ps| => Extract(log, ps[j]))
  }

  lemma ExtractionsAt(log: string, ps: seq<Pattern>)
    ensures forall j :: 0 <= j < |ps| ==> Extractions(log, ps)[j] == Extract(log, ps[j])
  {
  }

  /** The record after the first `k` extractions have been stored under their
      patterns' keys, in order, starting from `base`; the first extraction that
      raised (a malformed decimal) aborts the record. */
  function Fields(base: Record, ps: seq<Pattern>, xs: seq<Extraction>, k: nat): Result<Record, ValueError>
    requires k <= |ps| == |xs|
  {
    if k == 0 then Ok(base)
    else match Fields(base, ps, xs, k - 1)
      case Err(e) => Err(e)
      case Ok(rec) =>
        match xs[k - 1]
        case Err(e) => Err(e)
        case Ok(v) => Ok(rec[ps[k - 1].key := Field(v)])
  }

  predicate DistinctKeys(ps: seq<Pattern>)
  {
    forall i, j :: 0 <= i < j < |ps| ==> ps[i].key != ps[j].key
  }

  /** Storing the fields succeeds exactly when no extraction raised. */
  lemma {:induction false} FieldsSucceed(base: Record, ps: seq<Pattern>, xs: seq<Extraction>, k: nat)
    requires k <= |ps| == |xs|
    ensures Fields(base, ps, xs, k).Ok? <==> forall j :: 0 <= j < k ==> xs[j].Ok?
  {
    if k > 0 {
      FieldsSucceed(base, ps, xs, k - 1);
    }
  }

  /** A successful record has exactly the base keys and the keys tried. */
  lemma {:induction false} FieldsKeys(base: Record, ps: seq<Pattern>, xs: seq<Extraction>, k: nat)
    requires k <= |ps| == |xs| && Fields(base, ps, xs, k).Ok?
    ensures forall c :: c in Fields(base, ps, xs, k).value <==> c in base || exists j :: 0 <= j < k && ps[j].key == c
  {
    if k > 0 {
      FieldsKeys(base, ps, xs, k - 1);
    }
  }

  /** In a successful record every key tried holds its pattern's field (a field
      with no match is `None`, not 0), and the base keys not tried keep their cells. */
  lemma {:induction false} FieldsValues(base: Record, ps: seq<Pattern>, xs: seq<Extraction>, k: nat)
    requires k <= |ps| == |xs| && DistinctKeys(ps) && Fields(base, ps, xs, k).Ok?
    ensures forall j :: 0 <= j < k ==> var rec := Fields(base, ps, xs, k).value;
      xs[j].Ok? && ps[j].key in rec && rec[ps[j].key] == Field(xs[j].value)
    ensures forall key :: key in base && (forall j :: 0 <= j < k ==> ps[j].key != key) ==>
      var rec := Fields(base, ps, xs, k).value;
      key in rec && rec[key] == base[key]
  {
    if k > 0 {
      FieldsValues(base, ps, xs, k - 1);
      FieldsSucceed(base, ps, xs, k);
    }
  }

  /** When storing the fields raises, the error is that of the first pattern
      whose capture is a malformed decimal. */
  lemma {:induction false} FieldsFirstError(base: Record, ps: seq<Pattern>, xs: seq<Extraction>, k: nat)
    requires k <= |ps| == |xs|
    ensures Fields(base, ps, xs, k).Err? ==>
      exists j :: 0 <= j < k && xs[j] == Err(Fields(base, ps, xs, k).error) &&
        forall i :: 0 <= i < j ==> xs[i].Ok?
  {
    if k > 0 {
      FieldsFirstError(base, ps, xs, k - 1);
      FieldsSucceed(base, ps, xs, k - 1);
    }
  }

  /** What every record of one run shares: the client count and the two batch aggregates. */
  datatype BatchStats = BatchStats(nClients: int, envoy: Option<Summary>, gpu: Option<Summary>)

  /** The record as first built: the client count and the pod's name. */
  function BaseRecord(nClients: int, podName: string): Record
  {
    map["n_clients" := Count(nClients), "pod_name" := Text(podName)]
  }

  /** The four batch statistics added after the fields. */
  function WithAggregates(rec: Record, batch: BatchStats): Record
  {
    rec["envoy_overhead_avg" := Stat(Avg(batch.envoy))]["envoy_overhead_std" := Stat(Spread(batch.envoy))]
       ["gpu_util_avg" := Stat(Avg(batch.gpu))]["gpu_util_std" := Stat(Spread(batch.gpu))]
  }

  /** The record of one pod under a pattern table, or the error of the first
      pattern whose capture `float` rejects. */
  function RecordFrom(batch: BatchStats, pod: Pod, ps: seq<Pattern>): Result<Record, ValueError>
  {
    match Fields(BaseRecord(batch.nClients, pod.name), ps, Extractions(pod.log, ps), |ps|)
    case Err(e) => Err(e)
    case Ok(rec) => Ok(WithAggregates(rec, batch))
  }

  /** The record run_client_job builds for one pod. */
  function RecordOf(batch: BatchStats, pod: Pod): Result<Record, ValueError>
  {
    RecordFrom(batch, pod, METRIC_PATTERNS)
  }

  /** The six column names the dispatcher fills besides the patterns' fields. */
  predicate IsOwnColumn(c: string)
  {
    c == "n_clients" || c == "pod_name" || c in AGGREGATE_COLUMNS
  }

  /** A table whose keys are distinct and are not the dispatcher's own columns,
      laid out in `cols` as the client count, the pod's name, the keys in table
      order and the four statistics. */
  predicate TableLayout(ps: seq<Pattern>, cols: seq<string>)
  {
    DistinctKeys(ps) && (forall j :: 0 <= j < |ps| ==> !IsOwnColumn(ps[j].key)) &&
    |cols| == |ps| + 6 && cols[0] == "n_clients" && cols[1] == "pod_name" &&
    (forall j :: 0 <= j < |ps| ==> cols[j + 2] == ps[j].key) &&
    cols[|ps| + 2..] == AGGREGATE_COLUMNS
  }

  /** A record exists exactly when no pattern raised on the pod's log. */
  lemma RecordSucceeds(batch: BatchStats, pod: Pod, ps: seq<Pattern>)
    ensures RecordFrom(batch, pod, ps).Ok? <==> forall j :: 0 <= j < |ps| ==> Extract(pod.log, ps[j]).Ok?
  {
    var xs := Extractions(pod.log, ps);
    FieldsSucceed(BaseRecord(batch.nClients, pod.name), ps, xs, |ps|);
    assert forall j :: 0 <= j < |ps| ==> xs[j] == Extract(pod.log, ps[j]);
  }

  /** A record has exactly the columns of the layout. */
  lemma RecordColumns(batch: BatchStats, pod: Pod, ps: seq<Pattern>, cols: seq<string>)
    requires TableLayout(ps, cols) && RecordFrom(batch, pod, ps).Ok?
    ensures forall c :: c in RecordFrom(batch, pod, ps).value <==> c in cols
  {
    var base := BaseRecord(batch.nClients, pod.name);
    var xs := Extractions(pod.log, ps);
    FieldsKeys(base, ps, xs, |ps|);
    var fields := Fields(base, ps, xs, |ps|).value;
    AggregateKeys(fields, batch);
    BaseKeys(batch.nClients, pod.name);
    var rec := RecordFrom(batch, pod, ps).value;
    assert forall c :: c in rec <==> c in fields || c in AGGREGATE_COLUMNS;
    forall c | c in cols
      ensures c in rec
    {
      var i :| 0 <= i < |cols| && cols[i] == c;
      if i == 0 {
        assert c == "n_clients";
      } else if i == 1 {
        assert c == "pod_name";
      } else if i < |ps| + 2 {
        assert ps[i - 2].key == c;
        assert c in fields;
      } else {
        assert AGGREGATE_COLUMNS[i - |ps| - 2] == c;
      }
    }
    forall c | c in rec
      ensures c in cols
    {
      if c == "n_clients" {
        assert cols[0] == c;
      } else if c == "pod_name" {
        assert cols[1] == c;
      } else if c in AGGREGATE_COLUMNS {
        var a :| 0 <= a < 4 && AGGREGATE_COLUMNS[a] == c;
        assert cols[|ps| + 2 + a] == c;
      } else {
        var j :| 0 <= j < |ps| && ps[j].key == c;
        assert cols[j + 2] == c;
      }
    }
  }

  const AGGREGATE_COLUMNS: seq<string> := ["envoy_overhead_avg", "envoy_overhead_std", "gpu_util_avg", "gpu_util_std"]

  lemma BaseKeys(nClients: int, podName: string)
    ensures forall c :: c in BaseRecord(nClients, podName) <==> c == "n_clients" || c == "pod_name"
  {
  }

  lemma AggregateKeys(rec: Record, batch: BatchStats)
    ensures forall c :: c in WithAggregates(rec, batch) <==> c in rec || c in AGGREGATE_COLUMNS
  {
  }

  /** A record carries the client count and the pod's name. */
  lemma RecordPodCells(batch: BatchStats, pod: Pod, ps: seq<Pattern>, cols: seq<string>)
    requires TableLayout(ps, cols) && RecordFrom(batch, pod, ps).Ok?
    ensures var rec := RecordFrom(batch, pod, ps).value;
      "n_clients" in rec && rec["n_clients"] == Count(batch.nClients) &&
      "pod_name" in rec && rec["pod_name"] == Text(pod.name)
  {
    var base := BaseRecord(batch.nClients, pod.name);
    FieldsValues(base, ps, Extractions(pod.log, ps), |ps|);
    var rec := Fields(base, ps, Extractions(pod.log, ps), |ps|).value;
    assert rec["n_clients"] == Count(batch.nClients) && rec["pod_name"] == Text(pod.name);
  }

  /** A record carries the batch's four statistics, the same for every pod of the run. */
  lemma RecordBatchCells(batch: BatchStats, pod: Pod, ps: seq<Pattern>)
    requires RecordFrom(batch, pod, ps).Ok?
    ensures var rec := RecordFrom(batch, pod, ps).value;
      "envoy_overhead_avg" in rec && rec["envoy_overhead_avg"] == Stat(Avg(batch.envoy)) &&
      "envoy_overhead_std" in rec && rec["envoy_overhead_std"] == Stat(Spread(batch.envoy)) &&
      "gpu_util_avg" in rec && rec["gpu_util_avg"] == Stat(Avg(batch.gpu)) &&
      "gpu_util_std" in rec && rec["gpu_util_std"] == Stat(Spread(batch.gpu))
  {
  }

  /** Each pattern's column holds that pattern's extraction from the pod's log:
      the first match converted, or `None` when nothing matches. */
  lemma RecordFieldCells(batch: BatchStats, pod: Pod, ps: seq<Pattern>, cols: seq<string>)
    requires TableLayout(ps, cols) && RecordFrom(batch, pod, ps).Ok?
    ensures forall j :: 0 <= j < |ps| ==>
      var rec := RecordFrom(batch, pod, ps).value;
      Extract(pod.log, ps[j]).Ok? && ps[j].key in rec && rec[ps[j].key] == Field(Extract(pod.log, ps[j]).value)
  {
    var xs := Extractions(pod.log, ps);
    FieldsValues(BaseRecord(batch.nClients, pod.name), ps, xs, |ps|);
  }

  /** The pattern table and the dispatcher's columns have that layout. */
  lemma DispatcherLayout()
    ensures TableLayout(METRIC_PATTERNS, DispatcherColumns())
  {
    PatternKeysDistinct();
    PatternKeysInOrder();
    OwnColumnsAtEnds();
  }

  lemma OwnColumnsAtEnds()
    ensures var cs := DispatcherColumns();
      cs[0] == "n_clients" && cs[1] == "pod_name" &&
      cs[15..] == AGGREGATE_COLUMNS &&
      forall j :: 2 <= j < 15 ==> !IsOwnColumn(cs[j])
  {
    var cs := DispatcherColumns();
    assert cs == COLUMNS[..19];
    forall j | 2 <= j < 15
      ensures !IsOwnColumn(cs[j])
    {
      assert cs[j] == COLUMNS[j];
    }
  }

  /** The record of each listed pod under a pattern table, in list order. */
  function PodRecordsFrom(batch: BatchStats, pods: seq<Pod>, ps: seq<Pattern>): (rs: seq<Result<Record, ValueError>>)
    ensures |rs| == |pods|
  {
    seq(|pods|, j requires 0 <= j < |pods| => RecordFrom(batch, pods[j], ps))
  }

  /** The record of each listed pod, in list order. */
  function PodRecords(batch: BatchStats, pods: seq<Pod>): (rs: seq<Result<Record, ValueError>>)
    ensures |rs| == |pods|
    ensures forall j :: 0 <= j < |pods| ==> rs[j] == RecordOf(batch, pods[j])
  {
    PodRecordsFrom(batch, pods, METRIC_PATTERNS)
  }

  /** The first `k` records, in order; the first pod whose log raised aborts the list. */
  function Records(rs: seq<Result<Record, ValueError>>, k: nat): Result<seq<Record>, ValueError>
    requires k <= |rs|
  {
    if k == 0 then Ok([])
    else match Records(rs, k - 1)
      case Err(e) => Err(e)
      case Ok(recs) =>
        match rs[k - 1]
        case Err(e) => Err(e)
        case Ok(rec) => Ok(recs + [rec])
  }

  /** The records exist exactly when every pod's record does; then there is one
      per listed pod, in list order. */
  lemma {:induction false} RecordsContent(rs: seq<Result<Record, ValueError>>, k: nat)
    requires k <= |rs|
    ensures Records(rs, k).Ok? <==> forall j :: 0 <= j < k ==> rs[j].Ok?
    ensures Records(rs, k).Ok? ==>
      |Records(rs, k).value| == k && forall j :: 0 <= j < k ==> rs[j] == Ok(Records(rs, k).value[j])
  {
    if k > 0 {
      RecordsContent(rs, k - 1);
    }
  }

  /** When the records raise, the error is that of the first pod whose log raised. */
  lemma {:induction false} RecordsFirstError(rs: seq<Result<Record, ValueError>>, k: nat)
    requires k <= |rs|
    ensures Records(rs, k).Err? ==>
      exists j :: 0 <= j < k && rs[j] == Err(Records(rs, k).error) && forall i :: 0 <= i < j ==> rs[i].Ok?
  {
    if k > 0 {
      RecordsFirstError(rs, k - 1);
      RecordsContent(rs, k - 1);
    }
  }

  /** Once a pod's log raises, the record list stays aborted with that error. */
  lemma {:induction false} RecordsErrorSticks(rs: seq<Result<Record, ValueError>>, k: nat, m: nat)
    requires k <= m <= |rs| && Records(rs, k).Err?
    ensures Records(rs, m) == Records(rs, k)
    decreases m - k
  {
    if k < m {
      RecordsErrorSticks(rs, k + 1, m);
    }
  }

  // ---------------------------------------------------------------------------
  // The returned table

  /** pandas refused a column selection: the columns no record has. */
  datatype KeyError = KeyError(missing: seq<string>)

  predicate HasColumn(records: seq<Record>, c: string)
  {
    exists i :: 0 <= i < |records| && c in records[i]
  }

  /** The selected columns no record has, in selection order. */
  function MissingColumns(records: seq<Record>, cols: seq<string>): seq<string>
  {
    if cols == [] then []
    else (if HasColumn(records, cols[0]) then [] else [cols[0]]) + MissingColumns(records, cols[1..])
  }

  /** A column is reported missing exactly when it is selected and no record has it. */
  lemma {:induction false} MissingColumnsSpec(records: seq<Record>, cols: seq<string>)
    ensures forall c :: c in MissingColumns(records, cols) <==> c in cols && !HasColumn(records, c)
  {
    if cols != [] {
      MissingColumnsSpec(records, cols[1..]);
    }
  }

  /** A record's cell in a column; pandas fills a key the record lacks with a blank. */
  function CellAt(rec: Record, c: string): Cell
  {
    if c in rec then rec[c] else Blank
  }

  /** `pd.DataFrame(records)[cols]`: the frame's columns are the keys of the
      records, so selecting a column no record has raises; otherwise one row
      per record, its cells in selection order. */
  function Project(records: seq<Record>, cols: seq<string>): Result<seq<seq<Cell>>, KeyError>
  {
    var missing := MissingColumns(records, cols);
    if missing != [] then Err(KeyError(missing))
    else
      Ok(seq(|records|, i requires 0 <= i < |records| =>
        seq(|cols|, j requires 0 <= j < |cols| => CellAt(records[i], cols[j]))))
  }

  /** The selection raises exactly when some selected column is in no record,
      and then names all such columns in selection order; otherwise it has one
      row per record and one cell per selected column. */
  lemma ProjectSpec(records: seq<Record>, cols: seq<string>)
    ensures var r := Project(records, cols);
      (r.Err? <==> exists c :: c in cols && !HasColumn(records, c)) &&
      (r.Err? ==> r.error.missing == MissingColumns(records, cols)) &&
      (r.Ok? ==> |r.value| == |records| && forall i :: 0 <= i < |records| ==> |r.value[i]| == |cols|)
  {
    var missing := MissingColumns(records, cols);
    MissingColumnsSpec(records, cols);
    if missing != [] {
      assert missing[0] in missing;
    }
  }

  /** With no records the frame has no columns, so every selected column is missing. */
  lemma {:induction false} NoRecordsNoColumns(cols: seq<string>)
    ensures MissingColumns([], cols) == cols
  {
    if cols != [] {
      NoRecordsNoColumns(cols[1..]);
    }
  }

  /** Records that all have exactly the selected columns project to a table
      whose every cell is the record's own value for that column. */
  lemma ProjectFullRecords(records: seq<Record>, cols: seq<string>)
    requires records != []
    requires forall i :: 0 <= i < |records| ==> forall c :: c in records[i] <==> c in cols
    ensures Project(records, cols).Ok?
    ensures forall i, j :: 0 <= i < |records| && 0 <= j < |cols| ==>
      cols[j] in records[i] && Project(records, cols).value[i][j] == records[i][cols[j]]
  {
    forall c | c in cols
      ensures HasColumn(records, c)
    {
      assert c in records[0];
    }
    ProjectSpec(records, cols);
  }

  // ---------------------------------------------------------------------------
  // The job and one run of the dispatcher

  /** The parts of the Kubernetes job that the rest of the run depends on. */
  datatype Job = Job(name: string, parallelism: int, completions: int, backoffLimit: int, podLabels: map<string, string>)

  const BACKOFF_LIMIT := 1000

  /** The job's name: the base name, a dash and a random eight-character suffix. */
  function JobName(suffix: string): (name: string)
    ensures |name| == |JOB_BASE_NAME| + 1 + |suffix|
    ensures name[..|JOB_BASE_NAME| + 1] == JOB_BASE_NAME + "-" && name[|JOB_BASE_NAME| + 1..] == suffix
  {
    JOB_BASE_NAME + "-" + suffix
  }

  /** The job for `nClients` clients runs them all at once, and its pods are
      labelled with the job's name. */
  function JobFor(nClients: int, name: string): Job
  {
    Job(name, nClients, nClients, BACKOFF_LIMIT, map["job-name" := name])
  }

  /** Every pod carrying the job's template labels is one the run's selector
      lists and counts; and a pod of another job is not. */
  lemma JobPodsSelected(nClients: int, name: string, pod: Pod)
    requires "job-name" in pod.labels
    ensures Selects(JobSelector(name), pod) <==> pod.labels["job-name"] == JobFor(nClients, name).podLabels["job-name"]
  {
  }

  /** The record of one pod, trying the patterns in table order as the source's
      inner loop does. */
  method BuildRecord(batch: BatchStats, pod: Pod, ps: seq<Pattern>) returns (r: Result<Record, ValueError>)
    ensures r == RecordFrom(batch, pod, ps)
  {
    var base := BaseRecord(batch.nClients, pod.name);
    ghost var xs := Extractions(pod.log, ps);
    var rec := base;
    var i := 0;
    while i < |ps|
      invariant 0 <= i <= |ps|
      invariant Fields(base, ps, xs, i) == Ok(rec)
    {
      var pat := ps[i];
      var v := Extract(pod.log, pat);
      assert xs[i] == v;
      if v.Err? {
        FieldsErrorSticks(base, ps, xs, i + 1, |ps|);
        return Err(v.error);
      }
      rec := rec[pat.key := Field(v.value)];
      i := i + 1;
    }
    r := Ok(WithAggregates(rec, batch));
  }

  /** Once a field raises, the record stays aborted with that error. */
  lemma {:induction false} FieldsErrorSticks(base: Record, ps: seq<Pattern>, xs: seq<Extraction>, k: nat, m: nat)
    requires k <= m <= |ps| == |xs| && Fields(base, ps, xs, k).Err?
    ensures Fields(base, ps, xs, m) == Fields(base, ps, xs, k)
    decreases m - k
  {
    if k < m {
      FieldsErrorSticks(base, ps, xs, k + 1, m);
    }
  }

  /** The records of the listed pods, one pod at a time as the source's outer
      loop does; the first pod whose log raises aborts the list. */
  method RecordList(batch: BatchStats, listed: seq<Pod>, ps: seq<Pattern>) returns (r: Result<seq<Record>, ValueError>)
    ensures r == Records(PodRecordsFrom(batch, listed, ps), |listed|)
  {
    var recs := [];
    var i := 0;
    while i < |listed|
      invariant 0 <= i <= |listed|
      invariant Records(PodRecordsFrom(batch, listed, ps), i) == Ok(recs)
    {
      var next := AppendRecord(batch, listed, ps, i, recs);
      if next.Err? {
        RecordsErrorSticks(PodRecordsFrom(batch, listed, ps), i + 1, |listed|);
        return next;
      }
      recs := next.value;
      i := i + 1;
    }
    r := Ok(recs);
  }

  /** One pass of the outer loop: the record of pod `i` is appended, or its
      error aborts the list. */
  method AppendRecord(batch: BatchStats, listed: seq<Pod>, ps: seq<Pattern>, i: nat, recs: seq<Record>)
    returns (r: Result<seq<Record>, ValueError>)
    requires i < |listed| && Records(PodRecordsFrom(batch, listed, ps), i) == Ok(recs)
    ensures r == Records(PodRecordsFrom(batch, listed, ps), i + 1)
  {
    var rec := BuildRecord(batch, listed[i], ps);
    assert PodRecordsFrom(batch, listed, ps)[i] == rec;
    if rec.Err? {
      return Err(rec.error);
    }
    r := Ok(recs + [rec.value]);
  }

  /** One call of run_client_job: the job it created, the telemetry it gathered
      while polling, the records it built, and whether the job still exists. */
  class JobRun {
    const cfg: JobConfig
    const job: Job
    var jobExists: bool
    var envoySamples: seq<real>
    var gpuSamples: seq<real>
    var liveRows: seq<LiveRow>
    var records: seq<Record>

    /** Creates the job for `nClients` clients. */
    constructor (nClients: int, mode: string, liveSink: bool, suffix: string)
      ensures cfg == JobConfig(nClients, mode, liveSink, JobName(suffix))
      ensures job == JobFor(nClients, cfg.name) && jobExists
      ensures envoySamples == [] && gpuSamples == [] && liveRows == [] && records == []
    {
      cfg := JobConfig(nClients, mode, liveSink, JobName(suffix));
      job := JobFor(nClients, JobName(suffix));
      jobExists := true;
      envoySamples := [];
      gpuSamples := [];
      liveRows := [];
      records := [];
    }

    function State(): PollState
      reads this
    {
      PollState(envoySamples, gpuSamples, liveRows)
    }

    /** What every record of this run shares: the client count and the
      aggregates of the samples gathered. */
    function Batch(): BatchStats
      reads this
    {
      BatchStats(cfg.nClients, Aggregate(envoySamples), Aggregate(gpuSamples))
    }

    /** The poll loop over a trace of ticks, as Poll specifies it. */
    method PollLoop(ticks: seq<Tick>) returns (end: PollEnd, ticksRead: nat)
      modifies this
      ensures PollResult(State(), end, ticksRead) == Poll(cfg, ObserveAll(cfg.name, ticks), 0, old(State()))
      ensures jobExists == old(jobExists) && records == old(records)
    {
      ghost var os := ObserveAll(cfg.name, ticks);
      var i := 0;
      while i < |ticks|
        invariant 0 <= i <= |ticks|
        invariant Poll(cfg, os, 0, old(State())) == Poll(cfg, os, i, State())
        invariant jobExists == old(jobExists) && records == old(records)
      {
        var stop := PollTick(os, i, ticks[i]);
        if stop.Some? {
          return stop.value, i + 1;
        }
        i := i + 1;
      }
      return TraceExhausted, |ticks|;
    }

    /** One pass of the poll loop: read the job's status and leave the loop
      when the batch finished; otherwise sample the tick, leaving the loop
      when a query raised. */
    method PollTick(ghost os: seq<Observation>, i: nat, tick: Tick) returns (stop: Option<PollEnd>)
      requires i < |os| && os[i] == Observe(cfg.name, tick)
      modifies this
      ensures stop.None? ==> Poll(cfg, os, i, old(State())) == Poll(cfg, os, i + 1, State())
      ensures stop.Some? ==> Poll(cfg, os, i, old(State())) == PollResult(State(), stop.value, i + 1)
      ensures jobExists == old(jobExists) && records == old(records)
    {
      var succeeded := OrZero(tick.status.succeeded);
      var failed := OrZero(tick.status.failed);
      if succeeded == cfg.nClients || failed >= cfg.nClients {
        return Some(Finished);
      }
      var raised := SampleTick(os[i], tick);
      if raised.Some? {
        return Some(SamplerRaised(raised.value));
      }
      return None;
    }

    /** The body of one tick of an unfinished job: query the three signals in
      order, keep the present non-zero envoy and GPU samples, and write the
      live row the policy admits. A query that raises ends the tick there. */
    method SampleTick(ghost o: Observation, tick: Tick) returns (raised: Option<QueryError>)
      requires o == Observe(cfg.name, tick) && !BatchFinished(cfg.nClients, o.status)
      modifies this
      ensures raised.Some? ==> Step(cfg, o, old(State())) == Raised(raised.value, State())
      ensures raised.None? ==> Step(cfg, o, old(State())) == Continue(State())
      ensures jobExists == old(jobExists) && records == old(records)
    {
      ghost var st := State();
      var e := QueryEnvoyOverhead(tick.envoy);
      if e.Err? {
        return Some(e.error);
      }
      if e.value.Some? && e.value.value != 0.0 {
        envoySamples := envoySamples + [e.value.value];
      }
      assert envoySamples == st.envoy + Accepted(e.value);
      var g := QueryGpuUtilization(tick.gpu);
      if g.Err? {
        return Some(g.error);
      }
      if g.value.Some? && g.value.value != 0.0 {
        gpuSamples := gpuSamples + [g.value.value];
      }
      assert gpuSamples == st.gpu + Accepted(g.value);
      var t := QueryTotalLatency(tick.total);
      if t.Err? {
        return Some(t.error);
      }
      if cfg.liveSink {
        var runningClients := CountRunningPods(tick.pods, JobSelector(cfg.name));
        var runningServers := CountRunningServers(tick.pods);
        var row := LiveRow(runningClients, runningServers, e.value, g.value, t.value);
        assert row == RowOf(o);
        if cfg.mode == SUPERSONIC {
          if e.value.Some? && g.value.Some? && t.value.Some? {
            liveRows := liveRows + [row];
          }
        } else {
          liveRows := liveRows + [row];
        }
      }
      assert liveRows == st.rows + TickRows(cfg, o);
      StepContinues(cfg, o, st);
      raised := None;
    }

    /** The records of the pods listed under the job's label, each carrying the
      batch aggregates of the samples gathered; a pod whose log raises aborts
      the list and leaves the records as they were. */
    method BuildRecords(pods: seq<Pod>) returns (err: Option<ValueError>)
      modifies this
      ensures var listed := Select(pods, JobSelector(cfg.name));
        match Records(PodRecords(old(Batch()), listed), |listed|)
        case Ok(recs) => err.None? && records == recs
        case Err(e) => err == Some(e) && records == old(records)
      ensures jobExists == old(jobExists)
      ensures envoySamples == old(envoySamples) && gpuSamples == old(gpuSamples) && liveRows == old(liveRows)
    {
      var records' := RecordList(Batch(), Select(pods, JobSelector(cfg.name)), METRIC_PATTERNS);
      match records'
      case Err(e) =>
        err := Some(e);
      case Ok(recs) =>
        records := recs;
        err := None;
    }

    /** Deletes the job; nothing else changes. */
    method DeleteJob()
      modifies this
      ensures !jobExists
      ensures State() == old(State()) && records == old(records)
    {
      jobExists := false;
    }
  }

  /** Why a run raised: a monitoring query, a malformed decimal in a pod's log,
      or a column selection pandas refused. */
  datatype JobError = SamplerFailed(query: QueryError) | MalformedValue(value: ValueError) | MissingColumn(key: KeyError)

  /** A run returns the table, raises, or is still polling when the trace ends. */
  datatype JobOutcome = Completed(table: seq<seq<Cell>>) | Failed(error: JobError) | StillPolling

  datatype RunResult = RunResult(outcome: JobOutcome, jobDeleted: bool)

  /** The poll of a run, from empty sample lists. */
  function RunPoll(cfg: JobConfig, os: seq<Observation>): PollResult
  {
    Poll(cfg, os, 0, PollState([], [], []))
  }

  /** The batch statistics of a run that polled to `r`. */
  function RunBatch(cfg: JobConfig, r: PollResult): BatchStats
  {
    BatchStats(cfg.nClients, Aggregate(r.state.envoy), Aggregate(r.state.gpu))
  }

  /** What run_client_job does with a trace of ticks and the pods it finally
      lists: poll; on a finished batch build the records, delete the job and
      select the dispatcher's columns. An exception before the delete leaves
      the job in place. */
  function Run(cfg: JobConfig, os: seq<Observation>, pods: seq<Pod>): RunResult
  {
    var r := RunPoll(cfg, os);
    match r.end
    case TraceExhausted => RunResult(StillPolling, false)
    case SamplerRaised(e) => RunResult(Failed(SamplerFailed(e)), false)
    case Finished =>
      var listed := Select(pods, JobSelector(cfg.name));
      match Records(PodRecords(RunBatch(cfg, r), listed), |listed|)
      case Err(e) => RunResult(Failed(MalformedValue(e)), false)
      case Ok(recs) =>
        match Project(recs, DispatcherColumns())
        case Ok(table) => RunResult(Completed(table), true)
        case Err(k) => RunResult(Failed(MissingColumn(k)), true)
  }

  /** run_client_job, over a trace of ticks and the pods listed at the end. */
  method RunClientJob(nClients: int, mode: string, liveSink: bool, suffix: string, ticks: seq<Tick>, pods: seq<Pod>)
    returns (run: JobRun, outcome: JobOutcome)
    ensures fresh(run) && run.cfg == JobConfig(nClients, mode, liveSink, JobName(suffix))
    ensures run.job == JobFor(nClients, run.cfg.name)
    ensures var expected := Run(run.cfg, ObserveAll(run.cfg.name, ticks), pods);
      outcome == expected.outcome && run.jobExists == !expected.jobDeleted
    ensures run.liveRows == RunPoll(run.cfg, ObserveAll(run.cfg.name, ticks)).state.rows
  {
    run := new JobRun(nClients, mode, liveSink, suffix);
    var end, ticksRead := run.PollLoop(ticks);
    match end
    case TraceExhausted =>
      outcome := StillPolling;
    case SamplerRaised(e) =>
      outcome := Failed(SamplerFailed(e));
    case Finished =>
      var err := run.BuildRecords(pods);
      if err.Some? {
        outcome := Failed(MalformedValue(err.value));
        return;
      }
      run.DeleteJob();
      match Project(run.records, DispatcherColumns())
      case Ok(table) =>
        outcome := Completed(table);
      case Err(k) =>
        outcome := Failed(MissingColumn(k));
  }

  // ---------------------------------------------------------------------------
  // What a run promises

  /** The job is deleted exactly when the batch finished and every listed pod's
      log converted without error; an exception from a query or from `float`
      leaves the job in the cluster. */
  lemma RunDeletesJob(cfg: JobConfig, os: seq<Observation>, pods: seq<Pod>)
    ensures var r := RunPoll(cfg, os);
      var listed := Select(pods, JobSelector(cfg.name));
      Run(cfg, os, pods).jobDeleted <==>
        r.end.Finished? && forall j :: 0 <= j < |listed| ==> RecordOf(RunBatch(cfg, r), listed[j]).Ok?
  {
    var r := RunPoll(cfg, os);
    var listed := Select(pods, JobSelector(cfg.name));
    var rs := PodRecords(RunBatch(cfg, r), listed);
    RecordsContent(rs, |listed|);
    assert forall j :: 0 <= j < |listed| ==> rs[j] == RecordOf(RunBatch(cfg, r), listed[j]);
    RunFinishedCases(cfg, os, pods);
  }

  /** How a finished run ends, read off its records. */
  lemma RunFinishedCases(cfg: JobConfig, os: seq<Observation>, pods: seq<Pod>)
    ensures var r := RunPoll(cfg, os);
      var listed := Select(pods, JobSelector(cfg.name));
      var recs := Records(PodRecords(RunBatch(cfg, r), listed), |listed|);
      (Run(cfg, os, pods).jobDeleted <==> r.end.Finished? && recs.Ok?) &&
      (Run(cfg, os, pods).outcome.Completed? ==> Run(cfg, os, pods).jobDeleted) &&
      (r.end.Finished? && recs.Ok? ==>
        Run(cfg, os, pods).outcome == match Project(recs.value, DispatcherColumns())
          case Ok(table) => Completed(table)
          case Err(k) => Failed(MissingColumn(k)))
  {
    var r := RunPoll(cfg, os);
    if r.end.Finished? {
      var listed := Select(pods, JobSelector(cfg.name));
      match Records(PodRecords(RunBatch(cfg, r), listed), |listed|) {
        case Err(e) =>
          assert Run(cfg, os, pods) == RunResult(Failed(MalformedValue(e)), false);
        case Ok(recs) =>
          assert Run(cfg, os, pods).jobDeleted;
      }
    }
  }

  /** When the batch finished but no pod is listed under the job's label, the
      job is deleted and the column selection raises, naming every column. */
  lemma RunWithoutPods(cfg: JobConfig, os: seq<Observation>, pods: seq<Pod>)
    requires RunPoll(cfg, os).end.Finished? && Select(pods, JobSelector(cfg.name)) == []
    ensures Run(cfg, os, pods) == RunResult(Failed(MissingColumn(KeyError(DispatcherColumns()))), true)
  {
    NoRecordsNoColumns(DispatcherColumns());
  }

  /** A finished run stopped at a tick whose status finishes the batch, and
      every tick before it was unfinished and fully sampled. */
  lemma FinishedRunStops(cfg: JobConfig, os: seq<Observation>)
    requires RunPoll(cfg, os).end.Finished?
    ensures var k := RunPoll(cfg, os).ticksRead - 1;
      0 <= k < |os| && BatchFinished(cfg.nClients, os[k].status) &&
      forall j :: 0 <= j < k ==> !BatchFinished(cfg.nClients, os[j].status) && Sampled(os[j])
  {
    var st := PollState([], [], []);
    PollSampledBefore(cfg, os, 0, st);
    PollStopReason(cfg, os, 0, st);
  }

  /** The samples a finished run aggregates into its batch statistics
      (RunBatch) are the accepted samples of every tick before the one that
      finished it. */
  lemma FinishedRunSamples(cfg: JobConfig, os: seq<Observation>)
    requires RunPoll(cfg, os).end.Finished?
    ensures var r := RunPoll(cfg, os);
      0 < r.ticksRead &&
      r.state.envoy == EnvoySamples(os, 0, r.ticksRead - 1) && r.state.gpu == GpuSamples(os, 0, r.ticksRead - 1)
  {
    var st := PollState([], [], []);
    PollEnvoySamples(cfg, os, 0, st);
    PollGpuSamples(cfg, os, 0, st);
  }

  /** Records built for listed pods all have the dispatcher's columns, so
      selecting those columns yields one row per pod, in list order, holding
      the pod's record in column order. */
  lemma ProjectPodRecords(batch: BatchStats, listed: seq<Pod>)
    requires listed != [] && Records(PodRecords(batch, listed), |listed|).Ok?
    ensures var recs := Records(PodRecords(batch, listed), |listed|).value;
      |recs| == |listed| && Project(recs, DispatcherColumns()).Ok? &&
      forall i, j :: 0 <= i < |recs| && 0 <= j < |DispatcherColumns()| ==>
        DispatcherColumns()[j] in recs[i] &&
        Project(recs, DispatcherColumns()).value[i][j] == recs[i][DispatcherColumns()[j]]
  {
    RecordsContent(PodRecords(batch, listed), |listed|);
    RecordsHaveColumns(batch, listed);
    ProjectFullRecords(Records(PodRecords(batch, listed), |listed|).value, DispatcherColumns());
  }

  /** Every record built for the listed pods has exactly the dispatcher's columns. */
  lemma RecordsHaveColumns(batch: BatchStats, listed: seq<Pod>)
    requires Records(PodRecords(batch, listed), |listed|).Ok?
    ensures var recs := Records(PodRecords(batch, listed), |listed|).value;
      forall i :: 0 <= i < |recs| ==> forall c :: c in recs[i] <==> c in DispatcherColumns()
  {
    var rs := PodRecords(batch, listed);
    var recs := Records(rs, |listed|).value;
    var cols := DispatcherColumns();
    RecordsContent(rs, |listed|);
    DispatcherLayout();
    forall i | 0 <= i < |recs|
      ensures forall c :: c in recs[i] <==> c in cols
    {
      assert rs[i] == RecordOf(batch, listed[i]);
      RecordColumns(batch, listed[i], METRIC_PATTERNS, cols);
    }
  }

  /** A run completes exactly when the batch finished, at least one pod is
      listed, and every listed pod's log converted. */
  lemma RunCompletes(cfg: JobConfig, os: seq<Observation>, pods: seq<Pod>)
    ensures var r := RunPoll(cfg, os);
      var listed := Select(pods, JobSelector(cfg.name));
      Run(cfg, os, pods).outcome.Completed? <==>
        r.end.Finished? && listed != [] && forall j :: 0 <= j < |listed| ==> RecordOf(RunBatch(cfg, r), listed[j]).Ok?
  {
    var r := RunPoll(cfg, os);
    var listed := Select(pods, JobSelector(cfg.name));
    var rs := PodRecords(RunBatch(cfg, r), listed);
    RunFinishedCases(cfg, os, pods);
    RecordsContent(rs, |listed|);
    assert forall j :: 0 <= j < |listed| ==> rs[j] == RecordOf(RunBatch(cfg, r), listed[j]);
    if r.end.Finished? && Records(rs, |listed|).Ok? {
      if listed == [] {
        NoRecordsNoColumns(DispatcherColumns());
      } else {
        ProjectPodRecords(RunBatch(cfg, r), listed);
      }
    }
  }

  /** A completed run listed at least one pod, and its table is the selection
      of the dispatcher's columns from the records of those pods, one row per
      pod in list order (ProjectPodRecords gives the cells). */
  lemma RunTable(cfg: JobConfig, os: seq<Observation>, pods: seq<Pod>)
    requires Run(cfg, os, pods).outcome.Completed?
    ensures var listed := Select(pods, JobSelector(cfg.name));
      var recs := Records(PodRecords(RunBatch(cfg, RunPoll(cfg, os)), listed), |listed|);
      listed != [] && recs.Ok? && Project(recs.value, DispatcherColumns()).Ok? &&
      Run(cfg, os, pods).outcome.table == Project(recs.value, DispatcherColumns()).value
  {
    RunFinishedCases(cfg, os, pods);
    if Select(pods, JobSelector(cfg.name)) == [] {
      NoRecordsNoColumns(DispatcherColumns());
    }
  }

  /** The i-th record is the record of the i-th listed pod. */
  lemma RecordsArePodRecords(batch: BatchStats, listed: seq<Pod>)
    requires Records(PodRecords(batch, listed), |listed|).Ok?
    ensures var recs := Records(PodRecords(batch, listed), |listed|).value;
      |recs| == |listed| && forall i :: 0 <= i < |listed| ==> RecordOf(batch, listed[i]) == Ok(recs[i])
  {
    var rs := PodRecords(batch, listed);
    RecordsContent(rs, |listed|);
    forall i | 0 <= i < |listed|
      ensures RecordOf(batch, listed[i]) == Ok(Records(rs, |listed|).value[i])
    {
      assert rs[i] == RecordOf(batch, listed[i]);
    }
  }
}
