# ELBv2 metric descriptors and the availability-zone cache

A Dafny model of two pieces of the awsx Node.js package.

**Load-balancer metrics** (`nodejs/awsx/elasticloadbalancingv2/metrics.ts`). A caller asks for a
named CloudWatch metric of an Application or Network Load Balancer. They pass an optional change
record that can override the statistic, period and unit. The record can also filter by load
balancer, target group and availability zone. `createDimensions` turns the three filters into a
dimension map. Each filter can be a provider resource or an awsx wrapper. A wrapped target
group's own load balancer overwrites any `LoadBalancer` set before it. A provider target group
needs an accompanying load balancer, or the call throws. Each catalog's `metric` builder fixes the
namespace and the metric name, then spreads the change record over them. Each catalog constructor
puts its default statistic in front of the caller's change, so a statistic the caller gives
replaces the default.

**Availability zones** (`nodejs/awsx/aws.ts`). A module-level variable caches the region's zone
list. The first call to `getAvailabilityZones` starts the one provider lookup. Every later call
returns what it stored. `getAvailabilityZone(i)` indexes into that same list.

Files:
- `wrappers.dfy`: `Option` and `Result`.
- `elb_dimensions.dfy`: module `ElbMetrics`. It holds the change record and the resource
  variants. `CreateDimensions` is a step-by-step method, proved equal to the key-by-key definition
  `ResolvedDimensions`. The module also holds the shared descriptor builder and the
  default-statistic spread.
- `elb_application.dfy`, `elb_network.dfy`: the two catalogs, each with its builder and
  representative constructors.
- `aws_zones.dfy`: module `AwsZones`. The `ZoneCache` class is the imperative cache. Its methods
  are tied to a transition function on `CacheState`. The single-flight property is proved over
  arbitrary request sequences (`RunSingleFlight`).

The `instanceof` tests become pattern matches on `LoadBalancerArg` and `TargetGroupArg`. A thrown
error becomes `Failure` carrying the source's message text. `undefined` becomes `None`.
The check at `metrics.ts:63` tests truthiness (`!change.loadBalancer`), while line 48 tests
`!== undefined`. For the object values the types admit, both are the same test, and the model
uses `change.loadBalancer.None?` for each.

## Model

| member | source | states |
|---|---|---|
| `ElbMetrics.CreateDimensions` | nodejs/awsx/elasticloadbalancingv2/metrics.ts:46-76 | The in-place filling of the dimension record computes exactly the key-by-key definition `ResolvedDimensions`. This covers the early throw. |
| `ElbMetrics.ResolvedDimensions` | nodejs/awsx/elasticloadbalancingv2/metrics.ts:46-76 | Resolution fails iff a provider target group comes without a load balancer, and then with the source's message. A successful map only uses keys from {LoadBalancer, TargetGroup, AvailabilityZone}. |
| `ElbMetrics.NoSelectionNoDimensions` | nodejs/awsx/elasticloadbalancingv2/metrics.ts:46-76 | A change that selects no resource (in particular `{}`) yields the empty map. |
| `ElbMetrics.LoadBalancerOnly` | nodejs/awsx/elasticloadbalancingv2/metrics.ts:48-55 | A lone load balancer gives exactly one key, `LoadBalancer`. Its value is the wrapper's inner load balancer's suffix, or the provider resource's own suffix. |
| `ElbMetrics.WrappedTargetGroupWins` | nodejs/awsx/elasticloadbalancingv2/metrics.ts:57-61 | A wrapped target group never fails. It sets `TargetGroup` to its inner suffix and `LoadBalancer` to its owning load balancer's suffix, whatever load balancer was supplied. |
| `ElbMetrics.RawTargetGroupNeedsLoadBalancer` | nodejs/awsx/elasticloadbalancingv2/metrics.ts:62-65 | A provider target group fails with the error exactly when no load balancer is supplied. |
| `ElbMetrics.RawTargetGroupKeepsLoadBalancer` | nodejs/awsx/elasticloadbalancingv2/metrics.ts:48-68 | With a load balancer, a provider target group adds its own suffix as `TargetGroup`. The map is otherwise the one the load-balancer step produced. |
| `ElbMetrics.AvailabilityZoneIndependent` | nodejs/awsx/elasticloadbalancingv2/metrics.ts:71-73 | `AvailabilityZone` is present iff supplied, with the verbatim value. It changes neither success nor any other key. |
| `ElbMetrics.KeyPresence` | nodejs/awsx/elasticloadbalancingv2/metrics.ts:47-75 | `LoadBalancer` is present iff a load balancer was supplied or the target group is a wrapper. `TargetGroup` is present iff a target group was supplied. |
| `ElbMetrics.BuildMetric` | nodejs/awsx/elasticloadbalancingv2/metrics.ts:164-172 | The descriptor carries the given namespace and name, and the caller's statistic, period and unit. Its dimensions are the resolved ones. The dimension error aborts the build. |
| `ElbMetrics.WithDefaultStatistic` | nodejs/awsx/elasticloadbalancingv2/metrics.ts:183 | A caller's statistic replaces the default. The default is used only when the caller gives none. Every other field is the caller's. |
| `ApplicationMetrics.Metric` | nodejs/awsx/elasticloadbalancingv2/metrics.ts:164-172 | Namespace `AWS/ApplicationELB` and name = metricName. The change's fields pass through, with the resolved dimensions. |
| `ApplicationMetrics.ActiveConnectionCount` | nodejs/awsx/elasticloadbalancingv2/metrics.ts:182-184 | Statistic is the caller's, else `Sum`. Name, namespace, period, unit and dimensions are as the builder gives them. |
| `ApplicationMetrics.ConsumedLCUs` | nodejs/awsx/elasticloadbalancingv2/metrics.ts:208-210 | No default: the statistic is the caller's or absent. |
| `ApplicationMetrics.TargetResponseTime` | nodejs/awsx/elasticloadbalancingv2/metrics.ts:544-546 | No default: the statistic is the caller's or absent. |
| `ApplicationMetrics.CallerStatisticOverridesDefault` | nodejs/awsx/elasticloadbalancingv2/metrics.ts:182-184 | Supplying a statistic changes only the statistic of the descriptor. |
| `NetworkMetrics.MetricAsWritten` | nodejs/awsx/elasticloadbalancingv2/metrics.ts:643-651 | As written, the namespace is `"AWS/NetworkELB "` with its trailing space, and name = metricName. The change's fields pass through. |
| `NetworkMetrics.AsWrittenNamespaceIsNotDocumented` | nodejs/awsx/elasticloadbalancingv2/metrics.ts:647 | Every descriptor the written builder makes has a namespace other than `AWS/NetworkELB`. It is one character longer. |
| `NetworkMetrics.Metric` | nodejs/awsx/elasticloadbalancingv2/metrics.ts:643-651 | The corrected builder: namespace `AWS/NetworkELB`, otherwise as the written one. The catalog does not use it. |
| `NetworkMetrics.MetricDiffersOnlyInNamespace` | nodejs/awsx/elasticloadbalancingv2/metrics.ts:643-651 | The corrected and written builders agree on success and on every field but the namespace. |
| `NetworkMetrics.HealthyHostCount` | nodejs/awsx/elasticloadbalancingv2/metrics.ts:699-701 | Built on the builder as written, so the namespace is `"AWS/NetworkELB "`. Statistic is the caller's, else `Maximum`. The other fields are as the builder gives them. |
| `NetworkMetrics.NewFlowCount` | nodejs/awsx/elasticloadbalancingv2/metrics.ts:709-711 | Built on the builder as written, so the namespace is `"AWS/NetworkELB "`. Statistic is the caller's, else `Sum`. |
| `NetworkMetrics.ActiveFlowCount` | nodejs/awsx/elasticloadbalancingv2/metrics.ts:661-663 | Built on the builder as written, so the namespace is `"AWS/NetworkELB "`. No default: the statistic is the caller's or absent. |
| `NetworkMetrics.HealthyHostCountCorrected` | nodejs/awsx/elasticloadbalancingv2/metrics.ts:699-701 | On the corrected builder, `healthyHostCount` would succeed on the same inputs and differ only in the namespace. |
| `AwsZones.AvailabilityZoneService.GetAvailabilityZones` | nodejs/awsx/aws.ts:30 | The provider call: each request is counted and answered with that request's answer. |
| `AwsZones.Call` | nodejs/awsx/aws.ts:28-34 | One `getAvailabilityZones` call. Afterwards the cache holds exactly the list returned. The lookup count grows by one only when the cache was empty. A set cache is left unchanged. The first-call, idempotence and trace lemmas below state the rest. |
| `AwsZones.Handle` | nodejs/awsx/aws.ts:23-34 | One request of either kind. It moves the cache as `Call` does. It answers from the list the cache then holds: the whole list, or element `i` of it. |
| `AwsZones.ZoneAt` | nodejs/awsx/aws.ts:25 | `azs[index]` is present iff `0 <= index < |azs|`, and is then that element. |
| `AwsZones.FirstCallLooksUp` | nodejs/awsx/aws.ts:28-31 | On an empty cache a call makes one lookup. It caches that result's `names` and returns it. |
| `AwsZones.CachedCallIsIdempotent` | nodejs/awsx/aws.ts:29-33 | Once set, a call makes no lookup, leaves the state alone and returns the stored list. Repeating it changes nothing. |
| `AwsZones.HandleKeepsSingleFlight` | nodejs/awsx/aws.ts:23-34 | Each request keeps "at most one lookup, list cached iff made". It answers from the list it leaves cached. |
| `AwsZones.RunSingleFlight` | nodejs/awsx/aws.ts:20-34 | Over any request sequence, the lookup count grows by at most one, and only on the first request on an empty cache. The cache never changes once set. Every response comes from the final cached list. |
| `AwsZones.FreshCacheLooksUpOnce` | nodejs/awsx/aws.ts:20-34 | From process start, a non-empty run makes exactly one lookup. Every `getAvailabilityZones` caller receives that lookup's `names`. |
| `AwsZones.ZoneCache.constructor` | nodejs/awsx/aws.ts:20 | The cache starts unset, with no lookup made. |
| `AwsZones.ZoneCache.GetAvailabilityZones` | nodejs/awsx/aws.ts:28-34 | It moves the cache as `Call` does and keeps the single-flight invariant. It sends the provider exactly as many requests as it starts lookups. |
| `AwsZones.ZoneCache.GetAvailabilityZone` | nodejs/awsx/aws.ts:23-26 | It goes through the same cache as `GetAvailabilityZones` (`Handle` on `GetZone`) and returns element `index` of that list, or none. |

## Findings

| source | as written | input that shows it | evidently intended | confidence | as-written member | corrected member |
|---|---|---|---|---|---|---|
| nodejs/awsx/elasticloadbalancingv2/metrics.ts:647 | the network builder's namespace is `"AWS/NetworkELB "` with a trailing space | any network metric, e.g. `network.healthyHostCount()` (`NetworkMetrics.HealthyHostCount(None)`) | `"AWS/NetworkELB"`, as the builder's doc comment (line 613) and CloudWatch name it | high; not executed | `NetworkMetrics.MetricAsWritten` | `NetworkMetrics.Metric` |

`NetworkMetrics.AsWrittenNamespaceIsNotDocumented` proves that the written builder never produces
the documented namespace. The network catalog constructors model the program as written, so
they carry the trailing space. `NetworkMetrics.HealthyHostCountCorrected` shows what the
corrected builder changes for one of them.

## Left out

- Promises and `async`/`await`: the cache is modelled with sequential calls. In the source the
  test and the assignment happen synchronously (`aws.ts:29-31`), which already gives single flight.
- A failed or rejected provider lookup (the source would cache the rejected promise) is not
  modelled. Every lookup succeeds with the service's answer.
- `aws.getAvailabilityZones` is foreign: `AvailabilityZoneService` stands in for it. Its result
  is reduced to `names` and `zoneIds`.
- `getAvailabilityZone` with a non-integer index is not modelled. Out-of-range and negative
  indexes give `None`, which stands for JavaScript's `undefined`.
- `cloudwatch.Metric` and `withDimensions` are not part of this model. The descriptor is a plain
  record whose dimensions are the resolved map.
- Of the CloudWatch change fields, only `statistic`, `period` and `unit` are carried. The others
  (`extendedStatistic`, `dimensions`, display options) are not modelled.
- Statistics are the closed set SampleCount, Average, Sum, Minimum, Maximum. Percentile
  statistics are not modelled.
- Pulumi `Input`/`Output` wrapping of `arnSuffix` is not modelled: suffixes are plain strings.
- The application and network change types differ only in the wrapper subclasses they accept.
  Both are modelled by the one `MetricChange`.
- Metric-name string unions and the full catalogs are data and are not modelled.
  `ActiveConnectionCount`, `ConsumedLCUs`, `TargetResponseTime`, `HealthyHostCount`,
  `NewFlowCount` and `ActiveFlowCount` stand for the three shapes: default `Sum`, default
  `Maximum`, no default. The other constructors repeat one of those shapes with another name.
- `WithDefaultStatistic`: an explicit `statistic: undefined` in the caller's object would, by
  JavaScript spread, erase the default. The model has no separate present-but-undefined state, so
  it treats that case as absent.
- A `null` load balancer or target group, which the types exclude, is not modelled.
- The key order of the JavaScript record is not modelled: dimensions are a map.
- The builders' default parameter `change = {}` is not modelled separately, because every
  constructor passes an object. A constructor's own missing change is `None`, read as `{}`.
