/**
 * Dimension resolution and descriptor assembly shared by the application and the
 * network load-balancer metric catalogs (nodejs/awsx/elasticloadbalancingv2/metrics.ts).
 */
module ElbMetrics {
  import opened Wrappers

  /** A provider load balancer (`aws.elasticloadbalancingv2.LoadBalancer`); only its ARN suffix matters. */
  datatype ElbLoadBalancer = ElbLoadBalancer(arnSuffix: string)

  /** A provider target group (`aws.elasticloadbalancingv2.TargetGroup`). */
  datatype ElbTargetGroup = ElbTargetGroup(arnSuffix: string)

  /** The awsx `LoadBalancer` wrapper, which owns a provider load balancer. */
  datatype LoadBalancer = LoadBalancer(loadBalancer: ElbLoadBalancer)

  /** The awsx `TargetGroup` wrapper, which owns a provider target group and knows its load balancer. */
  datatype TargetGroup = TargetGroup(targetGroup: ElbTargetGroup, loadBalancer: LoadBalancer)

  /** What `change.loadBalancer` may hold; the source tells the two apart with `instanceof LoadBalancer`. */
  datatype LoadBalancerArg =
    | RawLoadBalancer(raw: ElbLoadBalancer)
    | WrappedLoadBalancer(wrapper: LoadBalancer)

  /** What `change.targetGroup` may hold; the source tells the two apart with `instanceof TargetGroup`. */
  datatype TargetGroupArg =
    | RawTargetGroup(raw: ElbTargetGroup)
    | WrappedTargetGroup(wrapper: TargetGroup)

  /** The CloudWatch statistics a metric may request. */
  datatype Statistic = SampleCount | Average | Sum | Minimum | Maximum

  /**
   * A metric change record: every field is optional. `statistic`, `period` and `unit` are
   * the fields of the generic CloudWatch change that this model carries; the last three
   * select dimensions.
   */
  datatype MetricChange = MetricChange(
    statistic: Option<Statistic>,
    period: Option<int>,
    unit: Option<string>,
    loadBalancer: Option<LoadBalancerArg>,
    targetGroup: Option<TargetGroupArg>,
    availabilityZone: Option<string>)

  /** The empty change record `{}`. */
  const NoChange := MetricChange(None, None, None, None, None, None)

  /** Dimension name to dimension value. */
  type Dimensions = map<string, string>

  const LoadBalancerKey := "LoadBalancer"
  const TargetGroupKey := "TargetGroup"
  const AvailabilityZoneKey := "AvailabilityZone"
  const DimensionNames := {LoadBalancerKey, TargetGroupKey, AvailabilityZoneKey}

  /** The message of the error thrown for a provider target group without a load balancer. */
  const MissingLoadBalancerMessage :=
    "[change.loadBalancer] must be provided if [change.targetGroup] is an [aws.elasticloadbalancingv2.TargetGroup]"

  /** The ARN suffix a load-balancer argument stands for: a wrapper's is that of the load balancer it owns. */
  function LoadBalancerSuffix(arg: LoadBalancerArg): string {
    match arg
    case RawLoadBalancer(lb) => lb.arnSuffix
    case WrappedLoadBalancer(w) => w.loadBalancer.arnSuffix
  }

  /** True when the change names a provider target group but no load balancer: the error case. */
  predicate MissingLoadBalancer(change: MetricChange) {
    change.targetGroup.Some? && change.targetGroup.value.RawTargetGroup? && change.loadBalancer.None?
  }

  /**
   * The `LoadBalancer` dimension a change selects, if any: a wrapped target group's own load
   * balancer is authoritative; otherwise the load balancer supplied, if one is.
   */
  function LoadBalancerDimension(change: MetricChange): Option<string> {
    match change.targetGroup
    case Some(WrappedTargetGroup(w)) => Some(w.loadBalancer.loadBalancer.arnSuffix)
    case _ =>
      match change.loadBalancer
      case Some(lb) => Some(LoadBalancerSuffix(lb))
      case None => None
  }

  /** The `TargetGroup` dimension a change selects, if any. */
  function TargetGroupDimension(change: MetricChange): Option<string> {
    match change.targetGroup
    case Some(RawTargetGroup(tg)) => Some(tg.arnSuffix)
    case Some(WrappedTargetGroup(w)) => Some(w.targetGroup.arnSuffix)
    case None => None
  }

  /** A one-entry map when the value is present, the empty map otherwise. */
  function Entry(key: string, value: Option<string>): (m: Dimensions)
    ensures key in m <==> value.Some?
    ensures m.Keys <= {key}
    ensures key in m ==> m[key] == value.value
  {
    if value.Some? then map[key := value.value] else map[]
  }

  /**
   * The dimensions a change selects, stated key by key: the reference definition that the
   * step-by-step `CreateDimensions` is proved to compute.
   */
  function ResolvedDimensions(change: MetricChange): (r: Result<Dimensions, string>)
    ensures r.Failure? <==> MissingLoadBalancer(change)
    ensures r.Failure? ==> r.error == MissingLoadBalancerMessage
    ensures r.Success? ==> r.value.Keys <= DimensionNames
  {
    if MissingLoadBalancer(change) then Failure(MissingLoadBalancerMessage)
    else Success(
      Entry(LoadBalancerKey, LoadBalancerDimension(change))
      + Entry(TargetGroupKey, TargetGroupDimension(change))
      + Entry(AvailabilityZoneKey, change.availabilityZone))
  }

  /**
   * `createDimensions`: fills a fresh record in order (load balancer, then target group,
   * then availability zone), with a wrapped target group overwriting `LoadBalancer` and a
   * provider target group without a load balancer throwing.
   */
  method CreateDimensions(change: MetricChange) returns (r: Result<Dimensions, string>)
    ensures r == ResolvedDimensions(change)
  {
    var dimensions: Dimensions := map[];
    if change.loadBalancer.Some? {
      match change.loadBalancer.value
      case WrappedLoadBalancer(w) =>
        dimensions := dimensions[LoadBalancerKey := w.loadBalancer.arnSuffix];
      case RawLoadBalancer(lb) =>
        dimensions := dimensions[LoadBalancerKey := lb.arnSuffix];
    }

    if change.targetGroup.Some? {
      match change.targetGroup.value
      case WrappedTargetGroup(w) =>
        dimensions := dimensions[TargetGroupKey := w.targetGroup.arnSuffix];
        dimensions := dimensions[LoadBalancerKey := w.loadBalancer.loadBalancer.arnSuffix];
      case RawTargetGroup(tg) =>
        if change.loadBalancer.None? {
          return Failure(MissingLoadBalancerMessage);
        }
        dimensions := dimensions[TargetGroupKey := tg.arnSuffix];
    }

    if change.availabilityZone.Some? {
      dimensions := dimensions[AvailabilityZoneKey := change.availabilityZone.value];
    }

    ghost var expected := ResolvedDimensions(change).value;
    SameEntries(dimensions, expected);
    r := Success(dimensions);
  }

  /** Two dimension maps with the same keys and the same value at each key are equal. */
  lemma SameEntries(a: Dimensions, b: Dimensions)
    requires a.Keys == b.Keys
    requires forall k :: k in a ==> a[k] == b[k]
    ensures a == b
  {
  }

  // Properties of the resolved dimensions.

  /** A change that selects nothing (in particular `{}`) yields no dimensions. */
  lemma NoSelectionNoDimensions(change: MetricChange)
    requires change.loadBalancer.None? && change.targetGroup.None? && change.availabilityZone.None?
    ensures ResolvedDimensions(change) == Success(map[])
  {
  }

  /** With only a load balancer, the single dimension is its suffix (a wrapper's inner one). */
  lemma LoadBalancerOnly(change: MetricChange, lb: LoadBalancerArg)
    requires change.loadBalancer == Some(lb) && change.targetGroup.None? && change.availabilityZone.None?
    ensures lb.WrappedLoadBalancer? ==>
      ResolvedDimensions(change) == Success(map[LoadBalancerKey := lb.wrapper.loadBalancer.arnSuffix])
    ensures lb.RawLoadBalancer? ==>
      ResolvedDimensions(change) == Success(map[LoadBalancerKey := lb.raw.arnSuffix])
  {
    var d := ResolvedDimensions(change).value;
    SameEntries(d, map[LoadBalancerKey := LoadBalancerSuffix(lb)]);
  }

  /**
   * A wrapped target group never fails, and its own load balancer wins over any load
   * balancer supplied alongside it.
   */
  lemma WrappedTargetGroupWins(change: MetricChange, tg: TargetGroup)
    requires change.targetGroup == Some(WrappedTargetGroup(tg))
    ensures ResolvedDimensions(change).Success?
    ensures var d := ResolvedDimensions(change).value;
      && TargetGroupKey in d && d[TargetGroupKey] == tg.targetGroup.arnSuffix
      && LoadBalancerKey in d && d[LoadBalancerKey] == tg.loadBalancer.loadBalancer.arnSuffix
  {
  }

  /** A provider target group fails exactly when no load balancer accompanies it. */
  lemma RawTargetGroupNeedsLoadBalancer(change: MetricChange, tg: ElbTargetGroup)
    requires change.targetGroup == Some(RawTargetGroup(tg))
    ensures ResolvedDimensions(change) == Failure(MissingLoadBalancerMessage) <==> change.loadBalancer.None?
  {
  }

  /**
   * A provider target group accompanied by a load balancer adds its own suffix and leaves
   * what the load-balancer step produced untouched.
   */
  lemma RawTargetGroupKeepsLoadBalancer(change: MetricChange, tg: ElbTargetGroup)
    requires change.targetGroup == Some(RawTargetGroup(tg)) && change.loadBalancer.Some?
    ensures ResolvedDimensions(change).Success?
    ensures ResolvedDimensions(change.(targetGroup := None)).Success?
    ensures ResolvedDimensions(change).value
         == ResolvedDimensions(change.(targetGroup := None)).value[TargetGroupKey := tg.arnSuffix]
  {
  }

  /**
   * The availability zone is a dimension exactly when supplied, verbatim, and it changes
   * neither the outcome nor any other key.
   */
  lemma AvailabilityZoneIndependent(change: MetricChange)
    ensures var r, r' := ResolvedDimensions(change), ResolvedDimensions(change.(availabilityZone := None));
      && (r.Success? <==> r'.Success?)
      && (r.Success? ==>
            && (AvailabilityZoneKey in r.value <==> change.availabilityZone.Some?)
            && (AvailabilityZoneKey in r.value ==> r.value[AvailabilityZoneKey] == change.availabilityZone.value)
            && r.value - {AvailabilityZoneKey} == r'.value)
  {
  }

  /**
   * `LoadBalancer` is present exactly when a load balancer was supplied or the target group
   * is a wrapper, and `TargetGroup` exactly when a target group was supplied.
   */
  lemma KeyPresence(change: MetricChange)
    requires ResolvedDimensions(change).Success?
    ensures var d := ResolvedDimensions(change).value;
      && (LoadBalancerKey in d <==>
            change.loadBalancer.Some? || (change.targetGroup.Some? && change.targetGroup.value.WrappedTargetGroup?))
      && (TargetGroupKey in d <==> change.targetGroup.Some?)
  {
  }

  // Descriptor assembly.

  /** The metric descriptor handed to CloudWatch. */
  datatype MetricDescriptor = MetricDescriptor(
    namespace: string,
    name: string,
    statistic: Option<Statistic>,
    period: Option<int>,
    unit: Option<string>,
    dimensions: Dimensions)

  /**
   * `r` is what a builder yields for `change` under the given namespace, name and statistic:
   * the dimension error exactly when resolution fails, and otherwise the descriptor carrying
   * the change's period and unit and its resolved dimensions.
   */
  predicate Describes(r: Result<MetricDescriptor, string>, namespace: string, name: string,
                      statistic: Option<Statistic>, change: MetricChange)
  {
    && (r.Failure? <==> MissingLoadBalancer(change))
    && (r.Failure? ==> r.error == MissingLoadBalancerMessage)
    && (r.Success? ==>
          r.value == MetricDescriptor(namespace, name, statistic, change.period, change.unit,
                                      ResolvedDimensions(change).value))
  }

  /**
   * The body shared by both `metric` builders: `{ namespace, name, ...change }` with the
   * resolved dimensions attached; the dimension error aborts the build.
   */
  function BuildMetric(namespace: string, name: string, change: MetricChange): (r: Result<MetricDescriptor, string>)
    ensures Describes(r, namespace, name, change.statistic, change)
  {
    match ResolvedDimensions(change)
    case Failure(e) => Failure(e)
    case Success(d) => Success(MetricDescriptor(namespace, name, change.statistic, change.period, change.unit, d))
  }

  /** `{ ...change }` for a change that may be absent. */
  function Spread(change: Option<MetricChange>): MetricChange {
    change.GetOr(NoChange)
  }

  /**
   * `{ statistic: default, ...change }`: the caller's fields win over the default, so the
   * default statistic is used only when the caller gives none.
   */
  function WithDefaultStatistic(default: Statistic, change: Option<MetricChange>): (r: MetricChange)
    ensures r.statistic.Some?
    ensures change.Some? && change.value.statistic.Some? ==> r.statistic == change.value.statistic
    ensures (change.None? || change.value.statistic.None?) ==> r.statistic == Some(default)
    ensures r.(statistic := None) == Spread(change).(statistic := None)
  {
    var c := Spread(change);
    if c.statistic.Some? then c else c.(statistic := Some(default))
  }
}
