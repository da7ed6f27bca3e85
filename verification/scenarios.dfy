/**
 Concrete configurations and SDK answers, and what the enumerator makes of
 them.
 */
module Scenarios {
  import opened Strings
  import opened Wrappers
  import opened Fanout
  import opened Records
  import opened Credentials
  import opened Enumerator
  import opened MaintenanceEvents

  const Reboot := Event("system-reboot", "[Completed] scheduled reboot", "t0", "t1")
  const Retire := Event("instance-retirement", "scheduled retirement", "t2", "t3")
  const Web := Instance("i-1", map["Name" := "web"], "us-east-1")

  /** A region where every call returns the given lists. */
  function Healthy(name: string, instances: seq<Instance>, statuses: seq<Status>): Region {
    Region(name, true, Done([Reservation(instances)]), Done([]), Done([]), Done(statuses))
  }

  /** One account "prod"; two regions, the first holding one instance with
      one completed reboot event. */
  const ProdConfig := Config([Account("prod", "K", "S")])
  const ProdCloud: Cloud := map[Creds("K", "S") := [
    Healthy("us-east-1", [Web], [Status("i-1", [Reboot])]),
    Healthy("us-west-2", [], [])]]

  /** Any casing of "prod" reaches both regions of the snapshot. */
  lemma ProdConnects(name: string)
    requires Lower(name) == "prod"
    ensures Ec2ConnectAllRegions(ProdConfig, ProdCloud, name) == Ok(ProdCloud[Creds("K", "S")])
  {
  }

  /** The status listing holds the one status of us-east-1. */
  lemma ProdStatuses(name: string)
    requires Lower(name) == "prod"
    ensures GetAllInstanceStatus(ProdConfig, ProdCloud, name) == Ok([Status("i-1", [Reboot])])
  {
    ProdConnects(name);
    var regions := ProdCloud[Creds("K", "S")];
    assert StatusCalls(regions) == [Done([Status("i-1", [Reboot])])] + [Done([])];
    GatherOne([Status("i-1", [Reboot])]);
    GatherOne<Status>([]);
    GatherAppend([Done([Status("i-1", [Reboot])])], [Done([])]);
  }

  /** The instance listing holds the one instance of us-east-1. */
  lemma ProdInstances(name: string)
    requires Lower(name) == "prod"
    ensures GetInstancesForAccount(ProdConfig, ProdCloud, name) == Ok([Web])
  {
    ProdConnects(name);
    var regions := ProdCloud[Creds("K", "S")];
    InstancesInOneRegion(regions[0]);
    InstancesInOneRegion(regions[1]);
    InstancesOfOne(Reservation([Web]));
    InstancesOfOne(Reservation([]));
    assert [regions[0]] + [regions[1]] == regions;
    InstancesInRegionsAppend([regions[0]], [regions[1]]);
  }

  /** The reboot event becomes one completed record for that instance. */
  lemma ProdRecords(name: string)
    ensures Synthesize([Status("i-1", [Reboot])], [Web], name) ==
            Some([EventRecord("i-1", true, "system-reboot", "[Completed] scheduled reboot",
                              "t0", "t1", map["Name" := "web"], name, "us-east-1")])
  {
    var s := Status("i-1", [Reboot]);
    LastMatchWins([Web], "i-1", 0);
    assert Contains(Reboot.description, CompletedMarker) by {
      assert OccursAt(CompletedMarker, Reboot.description, 0);
    }
    assert StatusRecords(s, Web, name) == [MakeRecord(s, Reboot, Web, name)];
    assert StatusOutcomes([s], [Web], name) == [Done(StatusRecords(s, Web, name))];
    GatherOne(StatusRecords(s, Web, name));
  }

  /** The whole `get_all_instance_events("prod")` call. */
  lemma CompletedRebootScenario()
    ensures GetAllInstanceEvents(ProdConfig, ProdCloud, "prod") ==
            Ok([EventRecord("i-1", true, "system-reboot", "[Completed] scheduled reboot",
                            "t0", "t1", map["Name" := "web"], "prod", "us-east-1")])
  {
    ProdStatuses("prod");
    ProdInstances("prod");
    ProdRecords("prod");
  }

  /** The lookup lower-cases the requested name, but the records carry the
      name exactly as passed. */
  lemma AccountFieldKeepsCase()
    ensures GetAllInstanceEvents(ProdConfig, ProdCloud, "PROD") ==
            Ok([EventRecord("i-1", true, "system-reboot", "[Completed] scheduled reboot",
                            "t0", "t1", map["Name" := "web"], "PROD", "us-east-1")])
  {
    assert Lower("PROD") == "prod";
    ProdStatuses("PROD");
    ProdInstances("PROD");
    ProdRecords("PROD");
  }

  /** Three regions, the second of which fails to list its reservations:
      nothing of the first region's instances surfaces. */
  const FlakyCloud: Cloud := map[Creds("K", "S") := [
    Healthy("us-east-1", [Web], []),
    Region("us-west-1", true, Raised, Done([]), Done([]), Done([])),
    Healthy("us-west-2", [], [])]]

  lemma FailingRegionLosesEverything()
    ensures GetInstancesForAccount(ProdConfig, FlakyCloud, "prod") == Err(Ase(InstancesMsg))
    ensures GetAllInstances(ProdConfig, FlakyCloud) == Err(Ase(AllInstancesMsg))
  {
  }

  /** Two entries sharing a name: the second entry's key is never used. */
  const TwinConfig := Config([Account("prod", "K1", "S1"), Account("prod", "K2", "S2")])

  lemma TwinEntriesResolveToFirst()
    ensures GetAccountApiCreds(TwinConfig, "Prod") == Ok(Creds("K1", "S1"))
  {
  }

  /** An entry written "Prod" is never found, not even by its own name, so
      every aggregator fails. */
  const CapitalConfig := Config([Account("Prod", "K", "S")])

  lemma CapitalEntryUnreachable(cloud: Cloud, accountName: string)
    ensures GetAccountApiCreds(CapitalConfig, accountName) == Err(Ase(CredsMsg))
    ensures GetAllInstances(CapitalConfig, cloud) == Err(Ase(AllInstancesMsg))
  {
  }

  /** Two accounts that both succeed: the aggregate lists the first
      account's instances, then the second's. */
  lemma TwoAccountsConcatenate(config: Config, cloud: Cloud)
    requires |config.awsAccounts| == 2
    requires GetInstancesForAccount(config, cloud, config.awsAccounts[0].name).Ok?
    requires GetInstancesForAccount(config, cloud, config.awsAccounts[1].name).Ok?
    ensures GetAllInstances(config, cloud) ==
            Ok(GetInstancesForAccount(config, cloud, config.awsAccounts[0].name).value +
               GetInstancesForAccount(config, cloud, config.awsAccounts[1].name).value)
  {
    var results := InstancesPerAccount(config, cloud);
    var a := GetInstancesForAccount(config, cloud, config.awsAccounts[0].name);
    var b := GetInstancesForAccount(config, cloud, config.awsAccounts[1].name);
    assert results == [a, b];
    assert OkValues(results) == [a.value, b.value];
    FlattenPair(a.value, b.value);
  }
}
