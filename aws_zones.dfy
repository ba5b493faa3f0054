/**
 * The memoized availability-zone lookup of nodejs/awsx/aws.ts: a module-level cache that is
 * filled by the first request and read by every later one.
 */
module AwsZones {
  import opened Wrappers

  /** What the provider's availability-zone query answers; the cache keeps only `names`. */
  datatype LookupResult = LookupResult(names: seq<string>, zoneIds: seq<string>)

  /**
   * Stand-in for the provider call `aws.getAvailabilityZones()`: it counts the requests it
   * has served, and its n-th request is answered with `answers(n)`, so different requests
   * may see different answers.
   */
  class AvailabilityZoneService {
    const answers: nat -> LookupResult
    var requests: nat

    constructor (answers: nat -> LookupResult)
      ensures this.answers == answers && requests == 0
    {
      this.answers := answers;
      requests := 0;
    }

    method GetAvailabilityZones() returns (r: LookupResult)
      modifies this
      ensures requests == old(requests) + 1
      ensures r == answers(old(requests))
    {
      r := answers(requests);
      requests := requests + 1;
    }
  }

  // The cache as a state machine on values.

  /** The cached zone list, if any, and how many lookups the cache has started. */
  datatype CacheState = CacheState(zones: Option<seq<string>>, lookups: nat)

  /** The state at process start: nothing cached, no lookup made. */
  const Initial := CacheState(None, 0)

  /** The cache's invariant: at most one lookup, and the list is cached exactly when it was made. */
  predicate SingleFlight(s: CacheState) {
    s.lookups <= 1 && (s.zones.Some? <==> s.lookups == 1)
  }

  /**
   * One call of `getAvailabilityZones`, where `answer` is what the provider would answer
   * were it asked now: the new state and the list returned.
   */
  function Call(s: CacheState, answer: LookupResult): (r: (CacheState, seq<string>))
    ensures r.0.zones == Some(r.1)
    ensures r.0.lookups == if s.zones.None? then s.lookups + 1 else s.lookups
    ensures s.zones.Some? ==> r.0 == s
  {
    match s.zones
    case None => (CacheState(Some(answer.names), s.lookups + 1), answer.names)
    case Some(azs) => (s, azs)
  }

  /** `azs[index]`: the zone at `index`, absent (`undefined`) outside the list. */
  function ZoneAt(azs: seq<string>, index: int): (az: Option<string>)
    ensures az.Some? <==> 0 <= index < |azs|
    ensures az.Some? ==> az.value == azs[index]
  {
    if 0 <= index < |azs| then Some(azs[index]) else None
  }

  /** The two entry points of the cache. */
  datatype Request = GetZones | GetZone(index: int)

  /** What each entry point resolves to. */
  datatype Response = Zones(names: seq<string>) | Zone(name: Option<string>)

  /** The response a request gets from a cache holding `azs`. */
  function Served(azs: seq<string>, req: Request): Response {
    match req
    case GetZones => Zones(azs)
    case GetZone(i) => Zone(ZoneAt(azs, i))
  }

  /** One request against the cache; `getAvailabilityZone` goes through `getAvailabilityZones`. */
  function Handle(s: CacheState, req: Request, answer: LookupResult): (r: (CacheState, Response))
    ensures r.0 == Call(s, answer).0
    ensures r.0.zones.Some? && r.1 == Served(r.0.zones.value, req)
  {
    var (t, azs) := Call(s, answer);
    match req
    case GetZones => (t, Zones(azs))
    case GetZone(i) => (t, Zone(ZoneAt(azs, i)))
  }

  /**
   * A sequence of requests served in order; `answers[j]` is what the provider would answer
   * were it asked while serving `reqs[j]`.
   */
  function Run(s: CacheState, reqs: seq<Request>, answers: seq<LookupResult>): (CacheState, seq<Response>)
    requires |answers| == |reqs|
    decreases |reqs|
  {
    if reqs == [] then (s, [])
    else
      var (t, resp) := Handle(s, reqs[0], answers[0]);
      var (u, rest) := Run(t, reqs[1..], answers[1..]);
      (u, [resp] + rest)
  }

  /** The first call on an empty cache makes one lookup and caches and returns its `names`. */
  lemma FirstCallLooksUp(s: CacheState, answer: LookupResult)
    requires s.zones.None?
    ensures Call(s, answer).0 == CacheState(Some(answer.names), s.lookups + 1)
    ensures Call(s, answer).1 == answer.names
  {
  }

  /** Once the cache is set, a call makes no lookup, changes nothing and returns the cached list. */
  lemma CachedCallIsIdempotent(s: CacheState, answer: LookupResult)
    requires s.zones.Some?
    ensures Call(s, answer) == (s, s.zones.value)
    ensures Call(Call(s, answer).0, answer) == Call(s, answer)
  {
  }

  /** Every request keeps the single-flight invariant and is answered from the cache it leaves. */
  lemma HandleKeepsSingleFlight(s: CacheState, req: Request, answer: LookupResult)
    requires SingleFlight(s)
    ensures var (t, resp) := Handle(s, req, answer);
      && SingleFlight(t) && t.zones.Some?
      && (s.zones.Some? ==> t == s)
      && resp == Served(t.zones.value, req)
  {
  }

  /**
   * Over any sequence of requests the cache makes at most one lookup: the first request on
   * an empty cache makes it, every later one is served from the list it cached, and
   * `getAvailabilityZone(i)` answers element `i` of that same list.
   */
  lemma {:induction false} RunSingleFlight(s: CacheState, reqs: seq<Request>, answers: seq<LookupResult>)
    requires SingleFlight(s) && |answers| == |reqs|
    ensures var (t, resps) := Run(s, reqs, answers);
      && SingleFlight(t)
      && |resps| == |reqs|
      && t.zones == (if s.zones.Some? || reqs == [] then s.zones else Some(answers[0].names))
      && t.lookups == (if s.zones.None? && reqs != [] then s.lookups + 1 else s.lookups)
      && forall j :: 0 <= j < |resps| ==> t.zones.Some? && resps[j] == Served(t.zones.value, reqs[j])
    decreases |reqs|
  {
    if reqs != [] {
      var (t, resp) := Handle(s, reqs[0], answers[0]);
      HandleKeepsSingleFlight(s, reqs[0], answers[0]);
      RunSingleFlight(t, reqs[1..], answers[1..]);
      var (u, rest) := Run(t, reqs[1..], answers[1..]);
      assert u == t;
      assert Run(s, reqs, answers).1 == [resp] + rest;
    }
  }

  /** From process start, a non-empty run makes exactly one lookup and every caller sees its `names`. */
  lemma FreshCacheLooksUpOnce(reqs: seq<Request>, answers: seq<LookupResult>)
    requires |answers| == |reqs| && reqs != []
    ensures Run(Initial, reqs, answers).0 == CacheState(Some(answers[0].names), 1)
    ensures |Run(Initial, reqs, answers).1| == |reqs|
    ensures forall j :: 0 <= j < |reqs| && reqs[j] == GetZones ==>
      Run(Initial, reqs, answers).1[j] == Zones(answers[0].names)
  {
    RunSingleFlight(Initial, reqs, answers);
  }

  /**
   * The process-wide cache: `zones` is unset until the first request and then holds the
   * list for good. `lookups` counts the provider calls the cache has made.
   */
  class ZoneCache {
    var zones: Option<seq<string>>
    ghost var lookups: nat
    const service: AvailabilityZoneService

    ghost function State(): CacheState
      reads this
    {
      CacheState(zones, lookups)
    }

    ghost predicate Valid()
      reads this
    {
      SingleFlight(State())
    }

    constructor (service: AvailabilityZoneService)
      ensures this.service == service
      ensures State() == Initial && Valid()
    {
      this.service := service;
      zones := None;
      lookups := 0;
    }

    /** `getAvailabilityZones`: looks the zones up on the first call only. */
    method GetAvailabilityZones() returns (azs: seq<string>)
      requires Valid()
      modifies this, service
      ensures Valid()
      ensures (State(), azs) == Call(old(State()), service.answers(old(service.requests)))
      ensures service.requests == old(service.requests) + (lookups - old(lookups))
    {
      if zones.None? {
        var result := service.GetAvailabilityZones();
        zones := Some(result.names);
        lookups := lookups + 1;
      }
      azs := zones.value;
    }

    /** `getAvailabilityZone`: element `index` of the list `getAvailabilityZones` resolves to. */
    method GetAvailabilityZone(index: int) returns (az: Option<string>)
      requires Valid()
      modifies this, service
      ensures Valid()
      ensures (State(), Zone(az)) == Handle(old(State()), GetZone(index), service.answers(old(service.requests)))
      ensures service.requests == old(service.requests) + (lookups - old(lookups))
    {
      var azs := GetAvailabilityZones();
      az := ZoneAt(azs, index);
    }
  }
}
