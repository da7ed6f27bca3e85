/**
 The per-account listing operations and the all-accounts aggregators of
 `AwsSecurityEnumerator`. The SDK's answers come from a `Cloud` snapshot;
 which message an error carries depends on which `try` encloses the step
 that raised.
 */
module Enumerator {
  import opened Wrappers
  import opened Fanout
  import opened Records
  import opened Credentials

  /** Every region accepts the EC2 connection. */
  predicate AllConnect(regions: seq<Region>) {
    forall i :: 0 <= i < |regions| ==> regions[i].ec2Connects
  }

  /** The `region.connect` loop: the connected regions, in order, or the
      connect message at the first region that refuses. */
  function ConnectEach(regions: seq<Region>): (r: Result<seq<Region>>)
    ensures r.Ok? <==> AllConnect(regions)
    ensures r.Ok? ==> r.value == regions
    ensures r.Err? ==> r.error == Ase(ConnectMsg)
    decreases |regions|
  {
    if |regions| == 0 then
      Ok([])
    else if !regions[0].ec2Connects then
      Err(Ase(ConnectMsg))
    else
      match ConnectEach(regions[1..])
      case Err(e) => Err(e)
      case Ok(rest) =>
        assert [regions[0]] + rest == regions;
        Ok([regions[0]] + rest)
  }

  /** `__ec2_connect_all_regions`: the lookup sits before the `try`, so its
      message escapes unchanged; a failure of `connect_ec2`,
      `get_all_regions` or any `region.connect` becomes the connect message.
      All regions are connected before anything is listed in them. */
  function Ec2ConnectAllRegions(config: Config, cloud: Cloud, accountName: string): (r: Result<seq<Region>>)
    ensures GetAccountApiCreds(config, accountName).Err? ==> r == Err(Ase(CredsMsg))
    ensures GetAccountApiCreds(config, accountName).Ok? ==>
      var c := GetAccountApiCreds(config, accountName).value;
      && (r.Ok? <==> c in cloud && AllConnect(cloud[c]))
      && (r.Ok? ==> r.value == cloud[c])
      && (r.Err? ==> r.error == Ase(ConnectMsg))
  {
    match GetAccountApiCreds(config, accountName)
    case Err(e) => Err(e)
    case Ok(c) =>
      if c !in cloud then Err(Ase(ConnectMsg)) else ConnectEach(cloud[c])
  }

  /** The per-region listing calls of each kind, in region order. */
  function ReservationCalls(regions: seq<Region>): (calls: seq<Outcome<seq<Reservation>>>) {
    seq(|regions|, i requires 0 <= i < |regions| => regions[i].reservations)
  }

  function LoadBalancerCalls(regions: seq<Region>): (calls: seq<Outcome<seq<LoadBalancer>>>) {
    seq(|regions|, i requires 0 <= i < |regions| => regions[i].loadBalancers)
  }

  function SecurityGroupCalls(regions: seq<Region>): (calls: seq<Outcome<seq<SecurityGroup>>>) {
    seq(|regions|, i requires 0 <= i < |regions| => regions[i].securityGroups)
  }

  function StatusCalls(regions: seq<Region>): (calls: seq<Outcome<seq<Status>>>) {
    seq(|regions|, i requires 0 <= i < |regions| => regions[i].statuses)
  }

  /** `[i for r in res_list for i in r.instances]`: every instance of every
      reservation, and nothing else. */
  function InstancesOf(reservations: seq<Reservation>): (r: seq<Instance>)
    ensures forall i, k :: 0 <= i < |reservations| && 0 <= k < |reservations[i].instances| ==>
              reservations[i].instances[k] in r
    ensures forall p :: 0 <= p < |r| ==> exists i :: 0 <= i < |reservations| && r[p] in reservations[i].instances
  {
    var groups := seq(|reservations|, i requires 0 <= i < |reservations| => reservations[i].instances);
    assert forall i :: 0 <= i < |reservations| ==> groups[i] == reservations[i].instances;
    Flatten(groups)
  }

  /** Reservation order is kept: the instances of a list of reservations are
      those of its first part followed by those of its second part. */
  lemma InstancesOfAppend(a: seq<Reservation>, b: seq<Reservation>)
    ensures InstancesOf(a + b) == InstancesOf(a) + InstancesOf(b)
  {
    var ia := seq(|a|, i requires 0 <= i < |a| => a[i].instances);
    var ib := seq(|b|, i requires 0 <= i < |b| => b[i].instances);
    assert seq(|a + b|, i requires 0 <= i < |a + b| => (a + b)[i].instances) == ia + ib;
    FlattenAppend(ia, ib);
  }

  /** Instance order within a reservation is kept. */
  lemma InstancesOfOne(r: Reservation)
    ensures InstancesOf([r]) == r.instances
  {
    assert seq(1, i requires 0 <= i < 1 => [r][i].instances) == [r.instances];
    assert [r.instances][1..] == [];
    assert Flatten([r.instances]) == r.instances + [];
  }

  /** The region loop and the flattening of `get_instances_for_account`: every
      region's reservations in region order, then their instances; `None` if
      any region's `get_all_reservations` raised. */
  function InstancesInRegions(regions: seq<Region>): (r: Option<seq<Instance>>)
    ensures r.Some? <==> AllDone(ReservationCalls(regions))
  {
    match Gather(ReservationCalls(regions))
    case None => None
    case Some(reservations) => Some(InstancesOf(reservations))
  }

  /** Region order is kept, and a failing region in either part loses the
      instances of both. */
  lemma InstancesInRegionsAppend(a: seq<Region>, b: seq<Region>)
    ensures InstancesInRegions(a + b).Some? <==> InstancesInRegions(a).Some? && InstancesInRegions(b).Some?
    ensures InstancesInRegions(a + b).Some? ==>
              InstancesInRegions(a + b).value == InstancesInRegions(a).value + InstancesInRegions(b).value
  {
    assert ReservationCalls(a + b) == ReservationCalls(a) + ReservationCalls(b);
    GatherAppend(ReservationCalls(a), ReservationCalls(b));
    if InstancesInRegions(a + b).Some? {
      InstancesOfAppend(Gather(ReservationCalls(a)).value, Gather(ReservationCalls(b)).value);
    }
  }

  /** One region contributes the instances of its reservations in order. */
  lemma InstancesInOneRegion(region: Region)
    requires region.reservations.Done?
    ensures InstancesInRegions([region]) == Some(InstancesOf(region.reservations.value))
  {
    assert ReservationCalls([region]) == [Done(region.reservations.value)];
    GatherOne(region.reservations.value);
  }

  /** `get_instances_for_account`: the whole body sits in one `try`, so a
      lookup miss, a connect failure and a listing failure all surface as
      the instances message, and nothing partial is returned. */
  function GetInstancesForAccount(config: Config, cloud: Cloud, accountName: string): (r: Result<seq<Instance>>)
    ensures r.Err? ==> r.error == Ase(InstancesMsg)
    ensures Ec2ConnectAllRegions(config, cloud, accountName).Err? ==> r.Err?
    ensures Ec2ConnectAllRegions(config, cloud, accountName).Ok? ==>
      var regions := Ec2ConnectAllRegions(config, cloud, accountName).value;
      && (r.Ok? <==> AllDone(ReservationCalls(regions)))
      && (r.Ok? ==> Some(r.value) == InstancesInRegions(regions))
  {
    match Ec2ConnectAllRegions(config, cloud, accountName)
    case Err(_) => Err(Ase(InstancesMsg))
    case Ok(regions) =>
      match InstancesInRegions(regions)
      case None => Err(Ase(InstancesMsg))
      case Some(instances) => Ok(instances)
  }

  /** `get_elbs_for_account`: the lookup, `connect_ec2` and `get_all_regions`
      sit before the `try`. A lookup miss keeps its own message and an SDK
      failure in the other two escapes unwrapped; only the per-region
      connect-and-list loop is wrapped. EC2 region connections play no part. */
  function GetElbsForAccount(config: Config, cloud: Cloud, accountName: string): (r: Result<seq<LoadBalancer>>)
    ensures GetAccountApiCreds(config, accountName).Err? ==> r == Err(Ase(CredsMsg))
    ensures GetAccountApiCreds(config, accountName).Ok? ==>
      var c := GetAccountApiCreds(config, accountName).value;
      && (c !in cloud ==> r == Err(Sdk))
      && (c in cloud ==>
            && (r.Ok? <==> AllDone(LoadBalancerCalls(cloud[c])))
            && (r.Ok? ==> r.value == Flatten(Values(LoadBalancerCalls(cloud[c]))))
            && (r.Err? ==> r.error == Ase(ElbsMsg)))
  {
    match GetAccountApiCreds(config, accountName)
    case Err(e) => Err(e)
    case Ok(c) =>
      if c !in cloud then
        Err(Sdk)
      else
        match Gather(LoadBalancerCalls(cloud[c]))
        case None => Err(Ase(ElbsMsg))
        case Some(lbs) => Ok(lbs)
  }

  /** `get_security_groups`: connecting sits before the `try`, so a lookup
      miss or a connect failure keeps its own message; only a failing
      `get_all_security_groups` becomes the security-groups message. */
  function GetSecurityGroups(config: Config, cloud: Cloud, accountName: string): (r: Result<seq<SecurityGroup>>)
    ensures Ec2ConnectAllRegions(config, cloud, accountName).Err? ==>
      r == Err(Ec2ConnectAllRegions(config, cloud, accountName).error)
    ensures Ec2ConnectAllRegions(config, cloud, accountName).Ok? ==>
      var regions := Ec2ConnectAllRegions(config, cloud, accountName).value;
      && (r.Ok? <==> AllDone(SecurityGroupCalls(regions)))
      && (r.Ok? ==> r.value == Flatten(Values(SecurityGroupCalls(regions))))
      && (r.Err? ==> r.error == Ase(SecurityGroupsMsg))
  {
    match Ec2ConnectAllRegions(config, cloud, accountName)
    case Err(e) => Err(e)
    case Ok(regions) =>
      match Gather(SecurityGroupCalls(regions))
      case None => Err(Ase(SecurityGroupsMsg))
      case Some(groups) => Ok(groups)
  }

  /** `__get_all_instance_status`: everything, the lookup included, is in
      one `try`, so every failure becomes the status message. */
  function GetAllInstanceStatus(config: Config, cloud: Cloud, accountName: string): (r: Result<seq<Status>>)
    ensures r.Err? ==> r.error == Ase(StatusMsg)
    ensures Ec2ConnectAllRegions(config, cloud, accountName).Err? ==> r.Err?
    ensures Ec2ConnectAllRegions(config, cloud, accountName).Ok? ==>
      var regions := Ec2ConnectAllRegions(config, cloud, accountName).value;
      && (r.Ok? <==> AllDone(StatusCalls(regions)))
      && (r.Ok? ==> r.value == Flatten(Values(StatusCalls(regions))))
  {
    match Ec2ConnectAllRegions(config, cloud, accountName)
    case Err(_) => Err(Ase(StatusMsg))
    case Ok(regions) =>
      match Gather(StatusCalls(regions))
      case None => Err(Ase(StatusMsg))
      case Some(statuses) => Ok(statuses)
  }

  /** A bare `except:` keeps only the fact that something was raised. */
  function Swallow<T>(r: Result<T>): (o: Outcome<T>)
    ensures o.Done? <==> r.Ok?
    ensures o.Done? ==> o.value == r.value
  {
    match r
    case Ok(v) => Done(v)
    case Err(_) => Raised
  }

  /** Every per-account call succeeded. */
  predicate AllOk<T>(results: seq<Result<T>>) {
    forall i :: 0 <= i < |results| ==> results[i].Ok?
  }

  /** The successful per-account lists, in account order. */
  function OkValues<T>(results: seq<Result<T>>): (r: seq<T>)
    requires AllOk(results)
    ensures |r| == |results|
    ensures forall i :: 0 <= i < |results| ==> r[i] == results[i].value
  {
    seq(|results|, i requires 0 <= i < |results| => results[i].value)
  }

  /** The `try: for a in accounts: results += ...` shape shared by the three
      `get_all_*` methods: the per-account lists concatenated in account
      order, or the aggregator's own message if any account failed. */
  function Aggregate<T>(results: seq<Result<seq<T>>>, msg: string): (r: Result<seq<T>>)
    ensures r.Ok? <==> AllOk(results)
    ensures r.Ok? ==> r.value == Flatten(OkValues(results))
    ensures r.Err? ==> r.error == Ase(msg)
  {
    var outs := seq(|results|, i requires 0 <= i < |results| => Swallow(results[i]));
    match Gather(outs)
    case None => Err(Ase(msg))
    case Some(xs) =>
      assert AllDone(outs);
      assert Values(outs) == OkValues(results);
      Ok(xs)
  }

  /** The names of the configured accounts, exactly as written there. */
  function AccountNames(config: Config): (r: seq<string>)
    ensures |r| == |config.awsAccounts|
    ensures forall i :: 0 <= i < |r| ==> r[i] == config.awsAccounts[i].name
  {
    seq(|GetAllAwsAccounts(config)|, i requires 0 <= i < |GetAllAwsAccounts(config)| => GetAllAwsAccounts(config)[i].name)
  }

  /** One `get_instances_for_account` result per configured account. */
  function InstancesPerAccount(config: Config, cloud: Cloud): (r: seq<Result<seq<Instance>>>)
    ensures |r| == |config.awsAccounts|
    ensures forall i :: 0 <= i < |r| ==> r[i] == GetInstancesForAccount(config, cloud, config.awsAccounts[i].name)
  {
    var names := AccountNames(config);
    seq(|names|, i requires 0 <= i < |names| => GetInstancesForAccount(config, cloud, names[i]))
  }

  function ElbsPerAccount(config: Config, cloud: Cloud): (r: seq<Result<seq<LoadBalancer>>>)
    ensures |r| == |config.awsAccounts|
    ensures forall i :: 0 <= i < |r| ==> r[i] == GetElbsForAccount(config, cloud, config.awsAccounts[i].name)
  {
    var names := AccountNames(config);
    seq(|names|, i requires 0 <= i < |names| => GetElbsForAccount(config, cloud, names[i]))
  }

  function SecurityGroupsPerAccount(config: Config, cloud: Cloud): (r: seq<Result<seq<SecurityGroup>>>)
    ensures |r| == |config.awsAccounts|
    ensures forall i :: 0 <= i < |r| ==> r[i] == GetSecurityGroups(config, cloud, config.awsAccounts[i].name)
  {
    var names := AccountNames(config);
    seq(|names|, i requires 0 <= i < |names| => GetSecurityGroups(config, cloud, names[i]))
  }

  /** `get_all_instances`. */
  function GetAllInstances(config: Config, cloud: Cloud): (r: Result<seq<Instance>>)
    ensures r.Ok? <==> AllOk(InstancesPerAccount(config, cloud))
    ensures r.Ok? ==> r.value == Flatten(OkValues(InstancesPerAccount(config, cloud)))
    ensures r.Err? ==> r == Err(Ase(AllInstancesMsg))
  {
    Aggregate(InstancesPerAccount(config, cloud), AllInstancesMsg)
  }

  /** `get_all_elbs`. */
  function GetAllElbs(config: Config, cloud: Cloud): (r: Result<seq<LoadBalancer>>)
    ensures r.Ok? <==> AllOk(ElbsPerAccount(config, cloud))
    ensures r.Ok? ==> r.value == Flatten(OkValues(ElbsPerAccount(config, cloud)))
    ensures r.Err? ==> r == Err(Ase(AllElbsMsg))
  {
    Aggregate(ElbsPerAccount(config, cloud), AllElbsMsg)
  }

  /** `get_all_security_groups`. */
  function GetAllSecurityGroups(config: Config, cloud: Cloud): (r: Result<seq<SecurityGroup>>)
    ensures r.Ok? <==> AllOk(SecurityGroupsPerAccount(config, cloud))
    ensures r.Ok? ==> r.value == Flatten(OkValues(SecurityGroupsPerAccount(config, cloud)))
    ensures r.Err? ==> r == Err(Ase(AllSecurityGroupsMsg))
  {
    Aggregate(SecurityGroupsPerAccount(config, cloud), AllSecurityGroupsMsg)
  }
}
