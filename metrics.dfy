/**
 * The in-memory metrics of the GPU server: a dictionary from metric name to number,
 * created with five known metrics and updated in place.
 */
module Metrics {

  const InitialNames: set<string> := {
    "vton_inference_count",
    "vton_inference_latency_ms",
    "vton_inference_errors_total",
    "gpu_memory_used_bytes",
    "gpu_utilization_percent"
  }

  /** The dictionary after `increment_metric(name, value)`: unknown names are ignored. */
  function Incremented(m: map<string, real>, name: string, value: real): map<string, real> {
    if name in m then m[name := m[name] + value] else m
  }

  /** The dictionary after `set_metric(name, value)`: the name is created if absent. */
  function WithValue(m: map<string, real>, name: string, value: real): map<string, real> {
    m[name := value]
  }

  /** Incrementing changes at most the named entry and never adds a name. */
  lemma IncrementedFrame(m: map<string, real>, name: string, value: real)
    ensures Incremented(m, name, value).Keys == m.Keys
    ensures forall k :: k in m && k != name ==> Incremented(m, name, value)[k] == m[k]
    ensures name in m ==> Incremented(m, name, value)[name] == m[name] + value
  {
  }

  /** Once `set_metric` has created a name, `increment_metric` applies to it. */
  lemma IncrementAfterSet(m: map<string, real>, name: string, v: real, d: real)
    ensures Incremented(WithValue(m, name, v), name, d) == m[name := v + d]
  {
  }

  class MetricsRegistry {
    var metrics: map<string, real>

    /** The module-level `_metrics`: the five known metrics, all zero. */
    constructor()
      ensures metrics.Keys == InitialNames
      ensures forall k :: k in metrics ==> metrics[k] == 0.0
    {
      metrics := map[
        "vton_inference_count" := 0.0,
        "vton_inference_latency_ms" := 0.0,
        "vton_inference_errors_total" := 0.0,
        "gpu_memory_used_bytes" := 0.0,
        "gpu_utilization_percent" := 0.0
      ];
    }

    /** `increment_metric(name, value=1.0)`: adds to a known metric; an unknown name is a no-op. */
    method IncrementMetric(name: string, value: real := 1.0)
      modifies this
      ensures metrics.Keys == old(metrics).Keys
      ensures name in old(metrics) ==> metrics == old(metrics)[name := old(metrics)[name] + value]
      ensures name !in old(metrics) ==> metrics == old(metrics)
      ensures metrics == Incremented(old(metrics), name, value)
    {
      if name in metrics {
        metrics := metrics[name := metrics[name] + value];
      }
    }

    /** `set_metric(name, value)`: overwrites or creates the entry. */
    method SetMetric(name: string, value: real)
      modifies this
      ensures metrics.Keys == old(metrics).Keys + {name}
      ensures metrics[name] == value
      ensures forall k :: k in old(metrics) && k != name ==> metrics[k] == old(metrics)[k]
      ensures metrics == WithValue(old(metrics), name, value)
    {
      metrics := metrics[name := value];
    }
  }

  /**
   * A fresh registry: increment a known metric by the default, increment an unknown
   * one, create a new metric and increment it.
   */
  method MetricsScenario() returns (m: map<string, real>)
    ensures m.Keys == InitialNames + {"queue_wait_ms"}
    ensures m["vton_inference_count"] == 1.0
    ensures m["queue_wait_ms"] == 7.5
    ensures m["gpu_utilization_percent"] == 0.0
  {
    var reg := new MetricsRegistry();
    reg.IncrementMetric("vton_inference_count");
    reg.IncrementMetric("no_such_metric", 3.0);
    reg.SetMetric("queue_wait_ms", 5.0);
    reg.IncrementMetric("queue_wait_ms", 2.5);
    m := reg.metrics;
  }
}
