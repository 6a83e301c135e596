/** The telemetry sampler (metrics.py). Each query issues one request to the
    monitoring backend, raises on an HTTP error status, keeps the result items
    that carry a value whose text is neither "NaN" nor "0", and reduces the kept
    values: a sum for the envoy overhead and the total latency, a mean for the
    GPU utilisation. Nothing kept means `None`, never 0. The query strings, the
    HTTP transport and the JSON decoding are outside the model: a response is its
    status code and its list of result items. */
module Metrics {
  import opened Outcomes
  import opened Stats

  /** `item["value"][1]` and `float` of it: the text the filter compares, and
      the number it stands for. */
  datatype Sample = Sample(text: string, number: real)

  /** One entry of the result vector; `value` is absent when the entry has none. */
  datatype Item = Item(value: Option<Sample>)

  datatype Response = Response(status: int, result: seq<Item>)

  /** `raise_for_status` failed: the error propagates to the caller, no retry. */
  datatype QueryError = HttpError(status: int)

  /** `raise_for_status` raises for a client (4xx) or server (5xx) status. */
  predicate IsErrorStatus(status: int)
  {
    400 <= status < 600
  }

  /** The filter shared by the three queries. */
  predicate Kept(item: Item)
  {
    item.value.Some? && item.value.value.text != "NaN" && item.value.value.text != "0"
  }

  /** The values of the kept items, in the order of the result vector. */
  function Surviving(items: seq<Item>): (vs: seq<real>)
    ensures |vs| <= |items|
  {
    if items == [] then []
    else (if Kept(items[0]) then [items[0].value.value.number] else []) + Surviving(items[1..])
  }

  /** A value survives exactly when some kept item carries it. */
  lemma {:induction false} SurvivingMembers(items: seq<Item>, x: real)
    ensures x in Surviving(items) <==>
      exists i :: 0 <= i < |items| && Kept(items[i]) && items[i].value.value.number == x
  {
    if items != [] {
      SurvivingMembers(items[1..], x);
      if x in Surviving(items[1..]) {
        var i :| 0 <= i < |items[1..]| && Kept(items[1..][i]) && items[1..][i].value.value.number == x;
        assert items[i + 1] == items[1..][i];
      }
      if exists i :: 0 <= i < |items| && Kept(items[i]) && items[i].value.value.number == x {
        var i :| 0 <= i < |items| && Kept(items[i]) && items[i].value.value.number == x;
        if i > 0 {
          assert items[1..][i - 1] == items[i];
        }
      }
    }
  }

  /** Nothing survives exactly when every item is dropped by the filter. */
  lemma {:induction false} NothingSurvives(items: seq<Item>)
    ensures Surviving(items) == [] <==> forall i :: 0 <= i < |items| ==> !Kept(items[i])
  {
    if items != [] {
      NothingSurvives(items[1..]);
      assert forall i :: 1 <= i < |items| ==> items[i] == items[1..][i - 1];
    }
  }

  /** The reduction of the kept values: `None` when nothing is kept. */
  function SumOrNone(items: seq<Item>): (r: Option<real>)
  {
    var vs := Surviving(items);
    if vs == [] then None else Some(Sum(vs))
  }

  function MeanOrNone(items: seq<Item>): (r: Option<real>)
  {
    var vs := Surviving(items);
    if vs == [] then None else Some(Mean(vs))
  }

  /** query_envoy_overhead: the sum over pods of the envoy overhead increase. */
  function QueryEnvoyOverhead(resp: Response): Result<Option<real>, QueryError>
  {
    if IsErrorStatus(resp.status) then Err(HttpError(resp.status)) else Ok(SumOrNone(resp.result))
  }

  /** query_gpu_utilization: the mean over GPUs of the utilisation. */
  function QueryGpuUtilization(resp: Response): Result<Option<real>, QueryError>
  {
    if IsErrorStatus(resp.status) then Err(HttpError(resp.status)) else Ok(MeanOrNone(resp.result))
  }

  /** query_total_latency: the sum over pods of the downstream latency increase. */
  function QueryTotalLatency(resp: Response): Result<Option<real>, QueryError>
  {
    if IsErrorStatus(resp.status) then Err(HttpError(resp.status)) else Ok(SumOrNone(resp.result))
  }

  /** The envoy overhead query raises on an HTTP error status; otherwise it
      yields no data exactly when no sample survives the filter, and the sum
      of the surviving samples when some do. */
  lemma EnvoyOverheadSpec(resp: Response)
    ensures var r := QueryEnvoyOverhead(resp);
      (r.Err? <==> IsErrorStatus(resp.status)) &&
      (r.Err? ==> r.error == HttpError(resp.status)) &&
      (r.Ok? ==> (r.value.None? <==> Surviving(resp.result) == [])) &&
      (r.Ok? && r.value.Some? ==> r.value.value == Sum(Surviving(resp.result)))
  {
  }

  /** The GPU utilisation query likewise, with the mean of the surviving
      samples, which lies between the smallest and the largest of them. */
  lemma GpuUtilizationSpec(resp: Response)
    ensures var r := QueryGpuUtilization(resp);
      (r.Err? <==> IsErrorStatus(resp.status)) &&
      (r.Err? ==> r.error == HttpError(resp.status)) &&
      (r.Ok? ==> (r.value.None? <==> Surviving(resp.result) == [])) &&
      (r.Ok? && r.value.Some? ==>
        var vs := Surviving(resp.result);
        vs != [] && r.value.value == Mean(vs) && Min(vs) <= r.value.value <= Max(vs))
  {
    if !IsErrorStatus(resp.status) && Surviving(resp.result) != [] {
      MeanBetweenMinAndMax(Surviving(resp.result));
    }
  }

  /** The total latency query likewise, with the sum. */
  lemma TotalLatencySpec(resp: Response)
    ensures var r := QueryTotalLatency(resp);
      (r.Err? <==> IsErrorStatus(resp.status)) &&
      (r.Err? ==> r.error == HttpError(resp.status)) &&
      (r.Ok? ==> (r.value.None? <==> Surviving(resp.result) == [])) &&
      (r.Ok? && r.value.Some? ==> r.value.value == Sum(Surviving(resp.result)))
  {
  }

  /** The three queries agree on errors and on absence for the same response:
      they apply one filter, and differ only in the reduction. */
  lemma SameFilterEverywhere(resp: Response)
    ensures QueryEnvoyOverhead(resp).Err? == QueryGpuUtilization(resp).Err? == QueryTotalLatency(resp).Err?
    ensures QueryEnvoyOverhead(resp).Ok? ==>
      QueryEnvoyOverhead(resp).value.None? == QueryGpuUtilization(resp).value.None? == QueryTotalLatency(resp).value.None?
  {
  }

  /** A vector whose every value is "NaN" or "0" reads as no data, not as 0. */
  lemma AllNaNOrZeroIsNoData(resp: Response)
    requires !IsErrorStatus(resp.status)
    requires forall i :: 0 <= i < |resp.result| ==>
      resp.result[i].value.Some? ==> resp.result[i].value.value.text in {"NaN", "0"}
    ensures QueryEnvoyOverhead(resp) == Ok(None)
    ensures QueryGpuUtilization(resp) == Ok(None)
    ensures QueryTotalLatency(resp) == Ok(None)
  {
    NothingSurvives(resp.result);
  }

  /** The filter compares text, so a value written "0.0" is kept and counts. */
  lemma ZeroPointZeroIsKept()
    ensures QueryEnvoyOverhead(Response(200, [Item(Some(Sample("0.0", 0.0)))])) == Ok(Some(0.0))
    ensures QueryGpuUtilization(Response(200, [Item(Some(Sample("0.0", 0.0)))])) == Ok(Some(0.0))
  {
    var items := [Item(Some(Sample("0.0", 0.0)))];
    assert Kept(items[0]);
    assert Surviving(items) == [0.0];
  }
}
