/**
 `get_all_instance_events`: one dictionary per scheduled event of every
 instance status, carrying the tags and region of the instance the status
 belongs to.
 */
module MaintenanceEvents {
  import opened Strings
  import opened Wrappers
  import opened Fanout
  import opened Records
  import opened Credentials
  import opened Enumerator

  /** Some instance has id `id`. */
  predicate HasInstance(instances: seq<Instance>, id: string) {
    exists k :: 0 <= k < |instances| && instances[k].id == id
  }

  /** Position `k` holds an instance with id `id`, and no later one does. */
  predicate IsLastWithId(instances: seq<Instance>, id: string, k: int) {
    && 0 <= k < |instances|
    && instances[k].id == id
    && forall j :: k < j < |instances| ==> instances[j].id != id
  }

  /** Whenever some instance has the id, one of them is the last. */
  lemma {:induction false} LastWithIdExists(instances: seq<Instance>, id: string)
    requires HasInstance(instances, id)
    ensures exists k :: IsLastWithId(instances, id, k)
    decreases |instances|
  {
    var n := |instances| - 1;
    if instances[n].id == id {
      assert IsLastWithId(instances, id, n);
    } else {
      var front := instances[..n];
      var k0 :| 0 <= k0 < |instances| && instances[k0].id == id;
      assert front[k0].id == id;
      LastWithIdExists(front, id);
      var k :| IsLastWithId(front, id, k);
      assert IsLastWithId(instances, id, k);
    }
  }

  /** The loop `for i in instances: if i.id == s.id: instance = i`, which has
      no `break`: `found` is overwritten at every match, so it ends holding
      the last match, or its initial value if nothing matched. */
  function ScanInstances(instances: seq<Instance>, id: string, found: Option<Instance>): (r: Option<Instance>)
    ensures (forall j :: 0 <= j < |instances| ==> instances[j].id != id) ==> r == found
    ensures forall k :: IsLastWithId(instances, id, k) ==> r == Some(instances[k])
    decreases |instances|
  {
    if |instances| == 0 then
      found
    else
      var found' := if instances[0].id == id then Some(instances[0]) else found;
      var r := ScanInstances(instances[1..], id, found');
      assert forall k :: IsLastWithId(instances, id, k) && k > 0 ==> IsLastWithId(instances[1..], id, k - 1);
      assert forall j :: 1 <= j < |instances| ==> instances[j] == instances[1..][j - 1];
      r
  }

  /** The instance whose tags and region a status's events receive: the last
      one with the status's id, or none (the loop's `''` placeholder). */
  function FindInstance(instances: seq<Instance>, id: string): (r: Option<Instance>)
    ensures r.None? <==> !HasInstance(instances, id)
    ensures r.Some? ==> exists k :: IsLastWithId(instances, id, k) && r.value == instances[k]
  {
    if HasInstance(instances, id) then
      LastWithIdExists(instances, id);
      ScanInstances(instances, id, None)
    else
      ScanInstances(instances, id, None)
  }

  /** The last instance with the id is the one used, whatever came before. */
  lemma LastMatchWins(instances: seq<Instance>, id: string, k: nat)
    requires IsLastWithId(instances, id, k)
    ensures FindInstance(instances, id) == Some(instances[k])
  {
  }

  /** The dictionary built for event `e` of status `s`: the id from the
      status; code, description and times from the event; `completed` from
      a search of the description for the marker; tags and region from the
      matched instance; the account name as passed. */
  function MakeRecord(s: Status, e: Event, instance: Instance, accountName: string): (r: EventRecord)
    ensures r.instanceId == s.id
    ensures r.completed <==> exists i :: OccursAt(CompletedMarker, e.description, i)
    ensures r.eventCode == e.code && r.descript == e.description
    ensures r.timeNb4 == e.notBefore && r.timeNafter == e.notAfter
    ensures r.tags == instance.tags && r.region == instance.region
    ensures r.account == accountName
  {
    EventRecord(
      instanceId := s.id,
      completed := Contains(e.description, CompletedMarker),
      eventCode := e.code,
      descript := e.description,
      timeNb4 := e.notBefore,
      timeNafter := e.notAfter,
      tags := instance.tags,
      account := accountName,
      region := instance.region)
  }

  /** The `for event in s.events` loop: one dictionary per event, in order. */
  function StatusRecords(s: Status, instance: Instance, accountName: string): (r: seq<EventRecord>)
    ensures |r| == |s.events|
    ensures forall j :: 0 <= j < |r| ==> r[j] == MakeRecord(s, s.events[j], instance, accountName)
  {
    seq(|s.events|, j requires 0 <= j < |s.events| => MakeRecord(s, s.events[j], instance, accountName))
  }

  /** The number of events over all statuses. */
  function EventCount(statuses: seq<Status>): (n: nat) {
    if |statuses| == 0 then 0 else |statuses[0].events| + EventCount(statuses[1..])
  }

  /** Every status that has events has an instance with its id. */
  predicate AllMatched(statuses: seq<Status>, instances: seq<Instance>) {
    forall i :: 0 <= i < |statuses| && |statuses[i].events| > 0 ==> HasInstance(instances, statuses[i].id)
  }

  /** What every synthesized dictionary satisfies: the account is the name
      as passed, `completed` says whether the description holds the marker,
      and tags and region are those of the last instance with the record's id. */
  ghost predicate RecordFits(rec: EventRecord, instances: seq<Instance>, accountName: string) {
    && rec.account == accountName
    && (rec.completed <==> exists i :: OccursAt(CompletedMarker, rec.descript, i))
    && exists k :: IsLastWithId(instances, rec.instanceId, k)
                && rec.tags == instances[k].tags
                && rec.region == instances[k].region
  }

  /** One pass of the status loop: nothing for a status without events; for
      one with events, its records, or an exception when no instance has its
      id (the `''` placeholder has no `tags`). */
  function StatusOutcome(s: Status, instances: seq<Instance>, accountName: string): (o: Outcome<seq<EventRecord>>)
    ensures o.Raised? <==> |s.events| > 0 && !HasInstance(instances, s.id)
    ensures o.Done? ==> |o.value| == |s.events|
    ensures o.Done? ==> forall rec :: rec in o.value ==> RecordFits(rec, instances, accountName)
    ensures o.Done? && HasInstance(instances, s.id) ==>
              o.value == StatusRecords(s, FindInstance(instances, s.id).value, accountName)
  {
    if |s.events| == 0 then
      Done([])
    else
      match FindInstance(instances, s.id)
      case None => Raised
      case Some(instance) => Done(StatusRecords(s, instance, accountName))
  }

  function StatusOutcomes(statuses: seq<Status>, instances: seq<Instance>, accountName: string): (outs: seq<Outcome<seq<EventRecord>>>) {
    seq(|statuses|, i requires 0 <= i < |statuses| => StatusOutcome(statuses[i], instances, accountName))
  }

  /** The records of all statuses number as many as their events. */
  lemma {:induction false} RecordCount(statuses: seq<Status>, instances: seq<Instance>, accountName: string)
    requires AllDone(StatusOutcomes(statuses, instances, accountName))
    ensures |Flatten(Values(StatusOutcomes(statuses, instances, accountName)))| == EventCount(statuses)
    decreases |statuses|
  {
    var outs := StatusOutcomes(statuses, instances, accountName);
    if |statuses| > 0 {
      var tail := StatusOutcomes(statuses[1..], instances, accountName);
      assert outs[1..] == tail;
      assert Values(outs)[1..] == Values(tail);
      assert Flatten(Values(outs)) == Values(outs)[0] + Flatten(Values(tail));
      RecordCount(statuses[1..], instances, accountName);
    }
  }

  /** Every record gathered from the statuses fits its instance. */
  lemma RecordsFit(statuses: seq<Status>, instances: seq<Instance>, accountName: string)
    requires AllDone(StatusOutcomes(statuses, instances, accountName))
    ensures forall rec :: rec in Flatten(Values(StatusOutcomes(statuses, instances, accountName))) ==>
              RecordFits(rec, instances, accountName)
  {
  }

  /** The status loop inside the `try` of `get_all_instance_events`: the
      records of every status in status order, or nothing if one status with
      events has no instance. */
  function Synthesize(statuses: seq<Status>, instances: seq<Instance>, accountName: string): (r: Option<seq<EventRecord>>)
    ensures r.Some? <==> AllMatched(statuses, instances)
    ensures r.Some? ==> |r.value| == EventCount(statuses)
    ensures r.Some? ==> forall rec :: rec in r.value ==> RecordFits(rec, instances, accountName)
  {
    var outs := StatusOutcomes(statuses, instances, accountName);
    var r := Gather(outs);
    assert AllDone(outs) <==> AllMatched(statuses, instances) by {
      assert forall i :: 0 <= i < |statuses| ==> outs[i] == StatusOutcome(statuses[i], instances, accountName);
    }
    if r.Some? then
      RecordCount(statuses, instances, accountName);
      RecordsFit(statuses, instances, accountName);
      r
    else
      r
  }

  /** Records come in status order: synthesizing two runs of statuses in turn
      is synthesizing their concatenation. */
  lemma SynthesizeAppend(a: seq<Status>, b: seq<Status>, instances: seq<Instance>, accountName: string)
    ensures Synthesize(a + b, instances, accountName).Some? <==>
              Synthesize(a, instances, accountName).Some? && Synthesize(b, instances, accountName).Some?
    ensures Synthesize(a + b, instances, accountName).Some? ==>
              Synthesize(a + b, instances, accountName).value ==
              Synthesize(a, instances, accountName).value + Synthesize(b, instances, accountName).value
  {
    assert StatusOutcomes(a + b, instances, accountName) ==
           StatusOutcomes(a, instances, accountName) + StatusOutcomes(b, instances, accountName);
    GatherAppend(StatusOutcomes(a, instances, accountName), StatusOutcomes(b, instances, accountName));
  }

  /** A status with no events yields no records and needs no instance. */
  lemma NoEventsNoRecords(s: Status, instances: seq<Instance>, accountName: string)
    requires |s.events| == 0
    ensures Synthesize([s], instances, accountName) == Some([])
  {
  }

  /** A status with events yields one record per event, in event order; all
      of them share the status id, the account and the instance's tags and
      region, and differ only in the event's own fields. */
  lemma OneStatusRecords(s: Status, instances: seq<Instance>, accountName: string)
    requires |s.events| > 0 && HasInstance(instances, s.id)
    ensures Synthesize([s], instances, accountName).Some?
    ensures var recs := Synthesize([s], instances, accountName).value;
      && |recs| == |s.events|
      && forall j :: 0 <= j < |recs| ==>
           && recs[j].instanceId == s.id
           && recs[j].eventCode == s.events[j].code
           && recs[j].descript == s.events[j].description
           && recs[j].timeNb4 == s.events[j].notBefore
           && recs[j].timeNafter == s.events[j].notAfter
           && recs[j].tags == recs[0].tags
           && recs[j].region == recs[0].region
           && recs[j].account == accountName
  {
  }

  /** `get_all_instance_events`: the status and instance lists are fetched
      before the `try`, so their own messages surface; only the loop that
      builds the dictionaries is wrapped. */
  function GetAllInstanceEvents(config: Config, cloud: Cloud, accountName: string): (r: Result<seq<EventRecord>>)
    ensures GetAllInstanceStatus(config, cloud, accountName).Err? ==> r == Err(Ase(StatusMsg))
    ensures (GetAllInstanceStatus(config, cloud, accountName).Ok? &&
             GetInstancesForAccount(config, cloud, accountName).Err?) ==> r == Err(Ase(InstancesMsg))
    ensures (GetAllInstanceStatus(config, cloud, accountName).Ok? &&
             GetInstancesForAccount(config, cloud, accountName).Ok?) ==>
      var statuses := GetAllInstanceStatus(config, cloud, accountName).value;
      var instances := GetInstancesForAccount(config, cloud, accountName).value;
      && (r.Ok? <==> AllMatched(statuses, instances))
      && (r.Err? ==> r.error == Ase(EventsMsg))
      && (r.Ok? ==> |r.value| == EventCount(statuses))
      && (r.Ok? ==> forall rec :: rec in r.value ==> RecordFits(rec, instances, accountName))
      && (r.Ok? ==> Some(r.value) == Synthesize(statuses, instances, accountName))
  {
    match GetAllInstanceStatus(config, cloud, accountName)
    case Err(e) => Err(e)
    case Ok(statuses) =>
      match GetInstancesForAccount(config, cloud, accountName)
      case Err(e) => Err(e)
      case Ok(instances) =>
        match Synthesize(statuses, instances, accountName)
        case None => Err(Ase(EventsMsg))
        case Some(records) => Ok(records)
  }

  /** An unknown account: the message each per-account operation raises.
      Only the security-group and load-balancer listings let the lookup's own
      message through; the others sit it inside a `try` of their own. */
  lemma UnknownAccountMessages(config: Config, cloud: Cloud, accountName: string)
    requires !HasNamed(config.awsAccounts, Lower(accountName))
    ensures GetAccountApiCreds(config, accountName) == Err(Ase(CredsMsg))
    ensures GetElbsForAccount(config, cloud, accountName) == Err(Ase(CredsMsg))
    ensures GetSecurityGroups(config, cloud, accountName) == Err(Ase(CredsMsg))
    ensures GetInstancesForAccount(config, cloud, accountName) == Err(Ase(InstancesMsg))
    ensures GetAllInstanceEvents(config, cloud, accountName) == Err(Ase(StatusMsg))
  {
  }

  /** An entry whose configured name is not found again by the lookup (one
      with an upper-case letter and no lower-case twin, say) makes every
      all-accounts aggregator fail with its own message. */
  lemma UnresolvableEntryFailsAggregators(config: Config, cloud: Cloud, i: nat)
    requires i < |config.awsAccounts|
    requires !HasNamed(config.awsAccounts, Lower(config.awsAccounts[i].name))
    ensures GetAllInstances(config, cloud) == Err(Ase(AllInstancesMsg))
    ensures GetAllElbs(config, cloud) == Err(Ase(AllElbsMsg))
    ensures GetAllSecurityGroups(config, cloud) == Err(Ase(AllSecurityGroupsMsg))
  {
  }
}
