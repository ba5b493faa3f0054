/** The `metrics.application` catalog: metrics in the Application Load Balancer namespace. */
module ApplicationMetrics {
  import opened Wrappers
  import opened ElbMetrics

  const Namespace := "AWS/ApplicationELB"

  /** `application.metric`: fixes the namespace and the metric name, then spreads the change over them. */
  function Metric(metricName: string, change: MetricChange): (r: Result<MetricDescriptor, string>)
    ensures Describes(r, "AWS/ApplicationELB", metricName, change.statistic, change)
  {
    BuildMetric(Namespace, metricName, change)
  }

  /** `activeConnectionCount`: statistic `Sum` unless the caller picks another. */
  function ActiveConnectionCount(change: Option<MetricChange>): (r: Result<MetricDescriptor, string>)
    ensures Describes(r, "AWS/ApplicationELB", "ActiveConnectionCount",
      if change.Some? && change.value.statistic.Some? then change.value.statistic else Some(Sum),
      Spread(change))
  {
    Metric("ActiveConnectionCount", WithDefaultStatistic(Sum, change))
  }

  /** `consumedLCUs`: no default statistic; the caller's, if any, is passed through. */
  function ConsumedLCUs(change: Option<MetricChange>): (r: Result<MetricDescriptor, string>)
    ensures Describes(r, "AWS/ApplicationELB", "ConsumedLCUs",
      if change.Some? then change.value.statistic else None,
      Spread(change))
  {
    Metric("ConsumedLCUs", Spread(change))
  }

  /** `targetResponseTime`: no default statistic. */
  function TargetResponseTime(change: Option<MetricChange>): (r: Result<MetricDescriptor, string>)
    ensures Describes(r, "AWS/ApplicationELB", "TargetResponseTime",
      if change.Some? then change.value.statistic else None,
      Spread(change))
  {
    Metric("TargetResponseTime", Spread(change))
  }

  /** Supplying a statistic only changes the statistic: the defaulted and the explicit calls agree elsewhere. */
  lemma CallerStatisticOverridesDefault(change: MetricChange, s: Statistic)
    requires !MissingLoadBalancer(change)
    ensures ActiveConnectionCount(Some(change.(statistic := Some(s)))).Success?
    ensures ActiveConnectionCount(Some(change.(statistic := Some(s)))).value
         == ActiveConnectionCount(Some(change)).value.(statistic := Some(s))
  {
  }
}
