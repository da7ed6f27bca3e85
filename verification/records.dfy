/**
 The values the enumerator works with: the account configuration, the
 credential pair derived from it, the cloud SDK's answers (as data rather
 than as network calls), the synthesized maintenance-event record, and the
 single exception type with its fixed messages.
 */
module Records {
  import opened Wrappers

  /** One entry of the configuration's `aws_accounts` list. */
  datatype Account = Account(name: string, key: string, secret: string)

  /** The configuration dictionary; only its `aws_accounts` list is read. */
  datatype Config = Config(awsAccounts: seq<Account>)

  /** The `{access_key, secret_key}` dictionary returned by the lookup. */
  datatype Creds = Creds(accessKey: string, secretKey: string)

  /** A resource's tag dictionary, kept as the SDK returns it. */
  type Tags = map<string, string>

  /** An EC2 instance: its id, its tags and the name of its region. */
  datatype Instance = Instance(id: string, tags: Tags, region: string)

  /** An EC2 reservation groups the instances launched together. */
  datatype Reservation = Reservation(instances: seq<Instance>)

  /** A load balancer and a security group are opaque records; a name tells
      them apart. */
  datatype LoadBalancer = LoadBalancer(name: string)
  datatype SecurityGroup = SecurityGroup(name: string)

  /** One scheduled event of an instance status. */
  datatype Event = Event(code: string, description: string, notBefore: string, notAfter: string)

  /** An instance status: the instance id and its scheduled events. The SDK's
      `None` for "no events" is the empty list. */
  datatype Status = Status(id: string, events: seq<Event>)

  /** What one region answers to one credential pair: whether `region.connect`
      for EC2 succeeds, and the outcome of each listing call made in it. For
      load balancers the outcome covers both `connect_to_region` and
      `get_all_load_balancers`, which share one handler. */
  datatype Region = Region(
    name: string,
    ec2Connects: bool,
    reservations: Outcome<seq<Reservation>>,
    loadBalancers: Outcome<seq<LoadBalancer>>,
    securityGroups: Outcome<seq<SecurityGroup>>,
    statuses: Outcome<seq<Status>>)

  /** The cloud as the SDK shows it: for each credential pair on which
      `connect_ec2` and `get_all_regions` succeed, the regions listed, in
      order. A pair missing from the map makes one of those two calls raise. */
  type Cloud = map<Creds, seq<Region>>

  /** The dictionary built for one maintenance event. */
  datatype EventRecord = EventRecord(
    instanceId: string,
    completed: bool,
    eventCode: string,
    descript: string,
    timeNb4: string,
    timeNafter: string,
    tags: Tags,
    account: string,
    region: string)

  /** An `ASEException` with its message, or an SDK exception that no
      handler wrapped. */
  datatype Error = Ase(msg: string) | Sdk

  datatype Result<+T> = Ok(value: T) | Err(error: Error)

  const CredsMsg := "Cannot obtain credentials for specified account"
  const ConnectMsg := "Cannot connect to ec2 region"
  const InstancesMsg := "Cannot get instances for named account"
  const AllInstancesMsg := "Cannot get all instances"
  const ElbsMsg := "Cannot get ELBs for named account"
  const AllElbsMsg := "Cannot get all ELBs"
  const StatusMsg := "Cannot obtain instance status"
  const EventsMsg := "Cannot get instance maintenance events"
  const SecurityGroupsMsg := "Cannot get security groups for named account"
  const AllSecurityGroupsMsg := "Cannot get all security groups"

  /** The marker whose presence in a description means the event is over. */
  const CompletedMarker := "[Completed]"
}
