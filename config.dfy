/** The benchmark's fixed configuration (config.py): names in the cluster, the
    table of log-extraction patterns and the column layouts of the two outputs. */
module Config {
  import opened Outcomes

  const NAMESPACE := "cms"
  const JOB_BASE_NAME := "sonic-benchmark"
  const BARE_TRITON_SERVICE := "sonic-server-triton"

  /** The two service modes the benchmark knows; any other string is invalid
      for the mode controller and means "not supersonic" everywhere else. */
  const SUPERSONIC := "supersonic"
  const BARE_TRITON := "bare_triton"

  /** The capture group of a pattern: `(\d+)` or `([\d.]+)`. */
  datatype Capture = DigitRun | DigitDotRun

  /** A pattern `literal\s+(capture)` optionally followed by `\s+unit`.
      Every pattern of the table has this shape, hence exactly one capture group. */
  datatype Pattern = Pattern(key: string, literal: string, capture: Capture, unit: Option<string>)

  const METRIC_PATTERNS: seq<Pattern> := [
    Pattern("batch_size", "Batch size:", DigitRun, None),
    Pattern("throughput_ips", "Throughput:", DigitDotRun, Some("infer/sec")),
    Pattern("avg_latency_us", "Avg latency:", DigitRun, Some("usec")),
    Pattern("p50_latency_us", "p50 latency:", DigitRun, Some("usec")),
    Pattern("p90_latency_us", "p90 latency:", DigitRun, Some("usec")),
    Pattern("p95_latency_us", "p95 latency:", DigitRun, Some("usec")),
    Pattern("p99_latency_us", "p99 latency:", DigitRun, Some("usec")),
    Pattern("avg_request_latency_us", "Avg request latency:", DigitRun, Some("usec")),
    Pattern("overhead_us", "overhead", DigitRun, Some("usec")),
    Pattern("queue_us", "queue", DigitRun, Some("usec")),
    Pattern("compute_input_us", "compute input", DigitRun, Some("usec")),
    Pattern("compute_infer_us", "compute infer", DigitRun, Some("usec")),
    Pattern("compute_output_us", "compute output", DigitRun, Some("usec"))
  ]

  const COLUMNS: seq<string> := [
    "n_clients", "pod_name", "batch_size", "throughput_ips", "avg_latency_us", "p50_latency_us", "p90_latency_us",
    "p95_latency_us", "p99_latency_us", "avg_request_latency_us", "overhead_us", "queue_us", "compute_input_us",
    "compute_infer_us", "compute_output_us", "envoy_overhead_avg", "envoy_overhead_std", "gpu_util_avg",
    "gpu_util_std", "mode", "n_servers"
  ]

  const LIVE_METRICS_COLUMNS: seq<string> := [
    "timestamp", "running_clients", "running_servers",
    "envoy_overhead", "gpu_util"
  ]

  /** The columns the dispatcher itself fills: COLUMNS without "mode" and
      "n_servers", which the experiment loop adds (DispatcherColumnsSpec). */
  function DispatcherColumns(): (cs: seq<string>)
    ensures |cs| == |COLUMNS| - 2
  {
    COLUMNS[..19]
  }

  /** A column is the dispatcher's exactly when it is a column of the results
      table other than "mode" and "n_servers". */
  lemma DispatcherColumnsSpec()
    ensures forall c :: c in DispatcherColumns() <==> c in COLUMNS && c != "mode" && c != "n_servers"
  {
    ModeAndServersLast();
  }

  function Keys(ps: seq<Pattern>): (ks: seq<string>)
    ensures |ks| == |ps|
    ensures forall i :: 0 <= i < |ps| ==> ks[i] == ps[i].key
  {
    if ps == [] then [] else [ps[0].key] + Keys(ps[1..])
  }

  /** The pattern table has 13 entries whose keys are, in table order, the
      thirteen columns of the dispatcher between the pod's name and the
      statistics. */
  lemma PatternKeysInOrder()
    ensures |METRIC_PATTERNS| == 13
    ensures forall j :: 0 <= j < 13 ==> METRIC_PATTERNS[j].key == DispatcherColumns()[j + 2]
  {
  }

  /** No two patterns of the table store into the same key. */
  lemma PatternKeysDistinct()
    ensures forall i, j :: 0 <= i < j < |METRIC_PATTERNS| ==> METRIC_PATTERNS[i].key != METRIC_PATTERNS[j].key
  {
  }

  /** Only throughput_ips captures `[\d.]+`; every other pattern captures digits only. */
  lemma OnlyThroughputCapturesDots()
    ensures forall i :: 0 <= i < |METRIC_PATTERNS| ==>
      (METRIC_PATTERNS[i].capture == DigitDotRun <==> METRIC_PATTERNS[i].key == "throughput_ips")
  {
  }

  /** "mode" and "n_servers" are the last two columns, and the dispatcher's
      columns are COLUMNS in order with those two dropped. */
  lemma ModeAndServersLast()
    ensures |COLUMNS| == 21 && COLUMNS[19] == "mode" && COLUMNS[20] == "n_servers"
    ensures DispatcherColumns() + ["mode", "n_servers"] == COLUMNS
    ensures "mode" !in DispatcherColumns() && "n_servers" !in DispatcherColumns()
  {
  }
}
