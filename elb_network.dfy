/** The `metrics.network` catalog: metrics in the Network Load Balancer namespace. */
module NetworkMetrics {
  import opened Wrappers
  import opened ElbMetrics

  /** The namespace string the network builder passes, trailing space included. */
  const NamespaceAsWritten := "AWS/NetworkELB "

  /** The CloudWatch namespace of Network Load Balancer metrics, as the builder's own documentation names it. */
  const Namespace := "AWS/NetworkELB"

  /** `network.metric` as written: the namespace carries a trailing space. The catalog below uses it. */
  function MetricAsWritten(metricName: string, change: MetricChange): (r: Result<MetricDescriptor, string>)
    ensures Describes(r, "AWS/NetworkELB ", metricName, change.statistic, change)
  {
    BuildMetric(NamespaceAsWritten, metricName, change)
  }

  /** Every descriptor the as-written builder produces names a namespace other than the documented one. */
  lemma AsWrittenNamespaceIsNotDocumented(metricName: string, change: MetricChange)
    requires !MissingLoadBalancer(change)
    ensures MetricAsWritten(metricName, change).Success?
    ensures MetricAsWritten(metricName, change).value.namespace != "AWS/NetworkELB"
    ensures |MetricAsWritten(metricName, change).value.namespace| == |"AWS/NetworkELB"| + 1
  {
  }

  /** `network.metric` with the documented namespace. */
  function Metric(metricName: string, change: MetricChange): (r: Result<MetricDescriptor, string>)
    ensures Describes(r, "AWS/NetworkELB", metricName, change.statistic, change)
  {
    BuildMetric(Namespace, metricName, change)
  }

  /** The corrected builder differs from the written one in the namespace only. */
  lemma MetricDiffersOnlyInNamespace(metricName: string, change: MetricChange)
    ensures MetricAsWritten(metricName, change).Success? <==> Metric(metricName, change).Success?
    ensures Metric(metricName, change).Success? ==>
      Metric(metricName, change).value
        == MetricAsWritten(metricName, change).value.(namespace := "AWS/NetworkELB")
  {
  }

  /** `healthyHostCount`: statistic `Maximum` unless the caller picks another. */
  function HealthyHostCount(change: Option<MetricChange>): (r: Result<MetricDescriptor, string>)
    ensures Describes(r, "AWS/NetworkELB ", "HealthyHostCount",
      if change.Some? && change.value.statistic.Some? then change.value.statistic else Some(Maximum),
      Spread(change))
  {
    MetricAsWritten("HealthyHostCount", WithDefaultStatistic(Maximum, change))
  }

  /** `newFlowCount`: statistic `Sum` unless the caller picks another. */
  function NewFlowCount(change: Option<MetricChange>): (r: Result<MetricDescriptor, string>)
    ensures Describes(r, "AWS/NetworkELB ", "NewFlowCount",
      if change.Some? && change.value.statistic.Some? then change.value.statistic else Some(Sum),
      Spread(change))
  {
    MetricAsWritten("NewFlowCount", WithDefaultStatistic(Sum, change))
  }

  /** `activeFlowCount`: no default statistic. */
  function ActiveFlowCount(change: Option<MetricChange>): (r: Result<MetricDescriptor, string>)
    ensures Describes(r, "AWS/NetworkELB ", "ActiveFlowCount",
      if change.Some? then change.value.statistic else None,
      Spread(change))
  {
    MetricAsWritten("ActiveFlowCount", Spread(change))
  }

  /** With the corrected builder, `healthyHostCount` would differ only in the namespace. */
  lemma HealthyHostCountCorrected(change: Option<MetricChange>)
    ensures HealthyHostCount(change).Success?
        <==> Metric("HealthyHostCount", WithDefaultStatistic(Maximum, change)).Success?
    ensures HealthyHostCount(change).Success? ==>
      HealthyHostCount(change).value.(namespace := "AWS/NetworkELB")
        == Metric("HealthyHostCount", WithDefaultStatistic(Maximum, change)).value
  {
    MetricDiffersOnlyInNamespace("HealthyHostCount", WithDefaultStatistic(Maximum, change));
  }
}
