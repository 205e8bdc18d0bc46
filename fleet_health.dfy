/** The Auto Scaling health summary (`check_autoscaling_group`): one status record per
    group, in inventory order, failing closed to the empty list. */
module FleetHealth {
  import opened Wrappers
  import opened AwsApi

  /** The status dictionary built for one group. */
  datatype GroupStatus = GroupStatus(
    name: string,
    desiredCapacity: int,
    minSize: int,
    maxSize: int,
    instances: nat,
    healthyInstances: nat)

  predicate IsHealthy(i: InstanceRecord)
  {
    i.healthStatus == Some("Healthy")
  }

  /** The list comprehension keeping the instances whose `HealthStatus` is `'Healthy'`. */
  function HealthyInstances(xs: seq<InstanceRecord>): (r: seq<InstanceRecord>)
    ensures |r| <= |xs|
    ensures forall k :: 0 <= k < |r| ==> IsHealthy(r[k])
  {
    if xs == [] then []
    else (if IsHealthy(xs[0]) then [xs[0]] else []) + HealthyInstances(xs[1..])
  }

  /** The filter keeps exactly the healthy instances, each as often as it occurs. */
  lemma {:induction false} HealthyInstancesExact(xs: seq<InstanceRecord>)
    ensures forall x :: multiset(HealthyInstances(xs))[x] == if IsHealthy(x) then multiset(xs)[x] else 0
  {
    if xs != [] {
      HealthyInstancesExact(xs[1..]);
      assert xs == [xs[0]] + xs[1..];
      assert multiset(xs) == multiset([xs[0]]) + multiset(xs[1..]);
    }
  }

  /** Every key the status construction reads is present: no KeyError can occur. */
  predicate GroupReadable(g: GroupRecord)
  {
    && g.name.Some?
    && g.desiredCapacity.Some?
    && g.minSize.Some?
    && g.maxSize.Some?
    && g.instances.Some?
    && forall k :: 0 <= k < |g.instances.value| ==> g.instances.value[k].healthStatus.Some?
  }

  /** The positions of the healthy instances: an independent count of them. */
  ghost function HealthyIndices(xs: seq<InstanceRecord>): set<int>
  {
    set k | 0 <= k < |xs| && IsHealthy(xs[k])
  }

  /** Filtering distributes over concatenation. */
  lemma {:induction false} HealthyInstancesAppend(a: seq<InstanceRecord>, b: seq<InstanceRecord>)
    ensures HealthyInstances(a + b) == HealthyInstances(a) + HealthyInstances(b)
  {
    if a == [] {
      assert a + b == b;
    } else {
      var ab := a + b;
      assert ab[0] == a[0];
      assert ab[1..] == a[1..] + b;
      HealthyInstancesAppend(a[1..], b);
      var head := if IsHealthy(a[0]) then [a[0]] else [];
      calc {
        HealthyInstances(ab);
        head + HealthyInstances(ab[1..]);
        head + (HealthyInstances(a[1..]) + HealthyInstances(b));
        (head + HealthyInstances(a[1..])) + HealthyInstances(b);
        HealthyInstances(a) + HealthyInstances(b);
      }
    }
  }

  /** The length of the filtered list is the number of positions holding a healthy instance. */
  lemma {:induction false} HealthyCountIsIndexCount(xs: seq<InstanceRecord>)
    ensures |HealthyInstances(xs)| == |HealthyIndices(xs)|
  {
    if xs != [] {
      var n := |xs| - 1;
      var prefix := xs[..n];
      HealthyCountIsIndexCount(prefix);
      assert xs == prefix + [xs[n]];
      HealthyInstancesAppend(prefix, [xs[n]]);
      assert [xs[n]][1..] == [];
      if IsHealthy(xs[n]) {
        assert HealthyIndices(xs) == HealthyIndices(prefix) + {n};
        assert n !in HealthyIndices(prefix);
      } else {
        assert HealthyIndices(xs) == HealthyIndices(prefix);
      }
    }
  }

  /** The status dictionary of one group, or `None` when building it raises. */
  function GroupStatusOf(g: GroupRecord): (r: Option<GroupStatus>)
    ensures r.Some? <==> GroupReadable(g)
    ensures r.Some? ==>
      && r.value.name == g.name.value
      && r.value.desiredCapacity == g.desiredCapacity.value
      && r.value.minSize == g.minSize.value
      && r.value.maxSize == g.maxSize.value
      && r.value.instances == |g.instances.value|
      && r.value.healthyInstances == |HealthyIndices(g.instances.value)|
      && r.value.healthyInstances <= r.value.instances
  {
    if GroupReadable(g) then
      var healthy := HealthyInstances(g.instances.value);
      HealthyCountIsIndexCount(g.instances.value);
      Some(GroupStatus(g.name.value, g.desiredCapacity.value, g.minSize.value, g.maxSize.value,
                       |g.instances.value|, |healthy|))
    else
      None
  }

  /** The loop over `AutoScalingGroups`: all statuses in order, or `None` as soon as one
      record raises (the partially built list is then discarded). */
  function SummariseGroups(gs: seq<GroupRecord>): Option<seq<GroupStatus>>
  {
    if gs == [] then Some([])
    else
      match (GroupStatusOf(gs[0]), SummariseGroups(gs[1..]))
      case (Some(s), Some(rest)) => Some([s] + rest)
      case _ => None
  }

  lemma {:induction false} SummariseGroupsSpec(gs: seq<GroupRecord>)
    ensures SummariseGroups(gs).Some? <==> forall k :: 0 <= k < |gs| ==> GroupReadable(gs[k])
    ensures SummariseGroups(gs).Some? ==>
      && |SummariseGroups(gs).value| == |gs|
      && forall k :: 0 <= k < |gs| ==> GroupStatusOf(gs[k]) == Some(SummariseGroups(gs).value[k])
  {
    if gs != [] {
      SummariseGroupsSpec(gs[1..]);
      if SummariseGroups(gs).Some? {
        forall k | 0 <= k < |gs| ensures GroupStatusOf(gs[k]) == Some(SummariseGroups(gs).value[k]) {
          if k > 0 {
            assert gs[k] == gs[1..][k - 1];
          }
        }
      } else {
        if GroupReadable(gs[0]) {
          var k :| 0 <= k < |gs[1..]| && !GroupReadable(gs[1..][k]);
          assert !GroupReadable(gs[k + 1]);
        }
      }
    }
  }

  /** The inventory can be summarised: the call answered, `AutoScalingGroups` is
      present, and every group record is readable. */
  predicate FleetReadable(d: DescribeOutcome)
  {
    && d.Described?
    && d.groups.Some?
    && forall k :: 0 <= k < |d.groups.value| ==> GroupReadable(d.groups.value[k])
  }

  /** The list `check_autoscaling_group` returns for a given inventory answer. */
  function HealthSummary(d: DescribeOutcome): seq<GroupStatus>
  {
    match d
    case DescribeFailed(_) => []
    case Described(None) => []
    case Described(Some(gs)) =>
      match SummariseGroups(gs)
      case None => []
      case Some(statuses) => statuses
  }

  /** One status per group, in order, each with `0 <= healthy <= instances`; any
      failure yields the empty list. */
  lemma HealthSummaryShape(d: DescribeOutcome)
    ensures FleetReadable(d) ==>
      && |HealthSummary(d)| == |d.groups.value|
      && forall k :: 0 <= k < |d.groups.value| ==> GroupStatusOf(d.groups.value[k]) == Some(HealthSummary(d)[k])
    ensures !FleetReadable(d) ==> HealthSummary(d) == []
    ensures forall k :: 0 <= k < |HealthSummary(d)| ==>
      HealthSummary(d)[k].healthyInstances <= HealthSummary(d)[k].instances
  {
    if d.Described? && d.groups.Some? {
      SummariseGroupsSpec(d.groups.value);
      if FleetReadable(d) {
        forall k | 0 <= k < |HealthSummary(d)|
          ensures HealthSummary(d)[k].healthyInstances <= HealthSummary(d)[k].instances
        {
          assert GroupStatusOf(d.groups.value[k]) == Some(HealthSummary(d)[k]);
        }
      }
    }
  }

  /** `check_autoscaling_group` as the source runs it: a loop appending one status per
      group, abandoning the list and answering `[]` on the first failure. */
  method CheckAutoscalingGroup(describe: DescribeOutcome) returns (asgStatus: seq<GroupStatus>)
    ensures asgStatus == HealthSummary(describe)
  {
    if describe.DescribeFailed? || describe.groups.None? {
      return [];
    }
    var groups := describe.groups.value;
    SummariseGroupsSpec(groups);
    asgStatus := [];
    var i := 0;
    while i < |groups|
      invariant 0 <= i <= |groups|
      invariant |asgStatus| == i
      invariant forall k :: 0 <= k < i ==> GroupStatusOf(groups[k]) == Some(asgStatus[k])
    {
      var status := GroupStatusOf(groups[i]);
      if status.None? {
        return [];
      }
      asgStatus := asgStatus + [status.value];
      i := i + 1;
    }
  }
}
