# AWS security enumerator — a Dafny model

`AwsSecurityEnumerator` (in `ase.py`) is a thin wrapper over the boto SDK.
It reads a list of accounts from its configuration and resolves an account
name to a key/secret pair. It then lists instances, load balancers, security
groups and instance-status events across every region of one account, or
across all configured accounts. The wrapper adds three pieces of logic, and
this project models them as pure functions:

- **Credential lookup.** `get_account_api_creds` scans the configured
  accounts in order. It returns the key and secret of the first entry whose
  `name` equals the lower-cased requested name. A miss raises
  `ASEException("Cannot obtain credentials for specified account")`.
- **Fan-out and error wrapping.** Each operation makes one SDK call per
  region (or one per account), in order. The results are concatenated, or
  the first exception abandons everything. A bare `except:` then replaces
  the error with the operation's own fixed message. The `try` does not
  enclose the same steps in every method, so the message a caller sees
  depends on where the failure happened.
- **Maintenance-event synthesis.** `get_all_instance_events` builds one
  dictionary per scheduled event. The dictionary takes its `completed` flag
  from a substring test on the description. Its tags and region come from
  the last instance with the status's id. If no instance has that id, the
  whole call fails.

The SDK is not called. Its answers are input data:

- A `Cloud` maps each credential pair to the regions that `connect_ec2` and
  `get_all_regions` report. A pair missing from the map makes one of those
  two calls raise.
- Each `Region` records whether EC2 `region.connect` succeeds. It also holds
  the `Outcome` of each listing call: either the list returned or an
  exception.
- Errors are `Result` values. `Ase(msg)` is an `ASEException` carrying its
  message. `Sdk` is a boto exception that escaped without being wrapped.

Modules:

- `Strings`: lower-casing and substring search.
- `Wrappers`: the optional value and the outcome of one call that may raise.
- `Fanout`: flattening, and all-or-nothing gathering of a sequence of calls.
- `Records`: the data model and the ten fixed messages.
- `Credentials`: the account list and the lookup.
- `Enumerator`: the per-account operations and the `get_all_*` aggregators.
- `MaintenanceEvents`: event synthesis.
- `Scenarios`: concrete configurations.

Three behaviours of the code are easy to misread. The model follows the
code in each case:

- `get_all_instance_events` first calls `__get_all_instance_status`. That
  helper wraps everything, the credential lookup included, in its own `try`.
  An unknown account therefore surfaces as "Cannot obtain instance status",
  not as the credentials message (`MaintenanceEvents.UnknownAccountMessages`).
  Only `get_elbs_for_account` and `get_security_groups` let the credentials
  message through unchanged.
- The instance loop in `get_all_instance_events` has no `break`, so the
  *last* instance with the status's id supplies the tags and region. When
  no instance matches, the `''` placeholder has no `tags`. The whole call
  then fails with "Cannot get instance maintenance events"; no record with
  absent tags is produced.
- In `get_elbs_for_account`, `connect_ec2` and `get_all_regions` run before
  the `try`. A failure there escapes as an unwrapped SDK exception (`Sdk`),
  not as an `ASEException`. This contradicts the class docstring
  (ase.py:26), which says that all exceptions raise `ASEException`.

## Model

| member | source | states |
|---|---|---|
| `Credentials.GetAllAwsAccounts` | ase.py:37-42 | The configured account entries come back unchanged: same count, same order. |
| `Credentials.FirstNamed` | ase.py:51-55 | The scan finds the position of the first entry named exactly as asked, or reports that no entry has that name. |
| `Credentials.GetAccountApiCreds` | ase.py:44-56 | The lookup succeeds exactly when some entry is named like the lower-cased input. It then returns the key/secret of the first such entry. A miss is the credentials error. |
| `Credentials.FirstMatchWins` | ase.py:51-55 | If entry i is the first with the looked-up name, the lookup returns entry i's credentials. Later duplicates are never used. |
| `Credentials.LookupIgnoresInputCase` | ase.py:53 | Two requested names that differ only in letter case resolve to the same result. |
| `Credentials.UppercaseEntryNeverMatches` | ase.py:53 | Deleting a configured entry whose name has an upper-case letter leaves every lookup unchanged, because only the input is lower-cased. |
| `Strings.Lower` | ase.py:53 | `account_name.lower()` keeps the length and lower-cases each character. |
| `Strings.LowerHasNoUpper` | ase.py:53 | A lower-cased name contains no upper-case letter. |
| `Strings.LowerIdempotent` | ase.py:53 | Lower-casing an already lower-cased name changes nothing. |
| `Strings.NoLowerEqualsUpper` | ase.py:53 | A name containing an upper-case letter is not the lower-case form of any input. |
| `Strings.Contains` | ase.py:188 | The scan for `'[Completed]' in description` is true exactly when the marker occurs at some position of the description. |
| `Fanout.Gather` | ase.py:212-219 | The per-region loop succeeds exactly when every call returns. The result is the returned lists concatenated in call order. There are no partial results. |
| `Fanout.GatherAppend` | ase.py:160-162 | Gathering two runs of calls in turn equals gathering their concatenation. Order is kept, and a failure in either run loses both. |
| `Fanout.FlattenAppend` | ase.py:95 | Flattening distributes over concatenation of the outer list. |
| `Fanout.Flatten` | ase.py:105-108 | `results += xs` over the lists: every item of every list is in the result, and every item of the result comes from one of the lists. |
| `Enumerator.ConnectEach` | ase.py:73-78 | The region-connect loop succeeds exactly when every region connects. It then yields every region in order; otherwise it gives the connect error. |
| `Enumerator.Ec2ConnectAllRegions` | ase.py:58-79 | A lookup miss keeps its own message, because the lookup is outside the `try`. A missing account or a refused region gives the connect message. Success yields all regions of the account. |
| `Enumerator.InstancesInRegions` | ase.py:91-95 | Instances are produced exactly when every region's `get_all_reservations` returns. |
| `Enumerator.InstancesInRegionsAppend` | ase.py:89-95 | Instances come in region order. A failing region in either part loses the instances of both parts. |
| `Enumerator.InstancesInOneRegion` | ase.py:91-95 | One region contributes the instances of its reservations. |
| `Enumerator.InstancesOf` | ase.py:95 | The comprehension yields every instance of every reservation, and only those. |
| `Enumerator.InstancesOfAppend` | ase.py:95 | Instances come in reservation order. |
| `Enumerator.InstancesOfOne` | ase.py:95 | Within one reservation, instances keep their order. |
| `Enumerator.GetInstancesForAccount` | ase.py:81-97 | The only error is "Cannot get instances for named account", whether the lookup, a connect or a listing failed. Success means every region listed, and the result is the instances in region/reservation/instance order. |
| `Enumerator.GetElbsForAccount` | ase.py:113-134 | A lookup miss keeps the credentials message. A failing `connect_ec2`/`get_all_regions` escapes unwrapped. A region failure gives the ELB message. Success is the load balancers in region order. |
| `Enumerator.GetSecurityGroups` | ase.py:203-219 | Lookup and connect errors keep their own messages. A listing failure gives the security-groups message. Success is the groups in region order. |
| `Enumerator.GetAllInstanceStatus` | ase.py:150-165 | The only error is "Cannot obtain instance status", including on a lookup miss. Success is the statuses in region order. |
| `Enumerator.Swallow` | ase.py:110 | A bare `except:` keeps whether a call raised and drops what it raised. |
| `Enumerator.Aggregate` | ase.py:104-111 | Success exactly when every account succeeds. The result is the per-account lists concatenated in configuration order. Otherwise the aggregator's own message, with no partial list. |
| `Enumerator.AccountNames` | ase.py:106 | The aggregators pass each configured name as written, in configuration order. |
| `Enumerator.InstancesPerAccount` | ase.py:106-108 | One `get_instances_for_account` result per configured entry, called with that entry's name, in configuration order. |
| `Enumerator.ElbsPerAccount` | ase.py:143-145 | One `get_elbs_for_account` result per configured entry, called with that entry's name, in configuration order. |
| `Enumerator.SecurityGroupsPerAccount` | ase.py:228-230 | One `get_security_groups` result per configured entry, called with that entry's name, in configuration order. |
| `Enumerator.GetAllInstances` | ase.py:99-111 | Success exactly when `get_instances_for_account` succeeds for every configured name. The result is their concatenation in configuration order. Otherwise "Cannot get all instances". |
| `Enumerator.GetAllElbs` | ase.py:136-148 | The same all-or-nothing concatenation over `get_elbs_for_account`. Any failure, an unwrapped SDK one included, gives "Cannot get all ELBs". |
| `Enumerator.GetAllSecurityGroups` | ase.py:221-233 | The same all-or-nothing concatenation over `get_security_groups`. Any failure gives "Cannot get all security groups". |
| `MaintenanceEvents.LastWithIdExists` | ase.py:184-186 | If some instance has the id, a last one with that id exists. |
| `MaintenanceEvents.ScanInstances` | ase.py:183-186 | The no-`break` loop ends holding the last instance with the id. If none has the id, it holds its initial value. |
| `MaintenanceEvents.FindInstance` | ase.py:183-186 | There is no match exactly when no instance has the id. Otherwise the match is the last instance with the id. |
| `MaintenanceEvents.LastMatchWins` | ase.py:184-186 | If position k is the last with the id, the instance at k is the one used. |
| `MaintenanceEvents.MakeRecord` | ase.py:187-198 | The record takes its id from the status; code, description and both times from the event; tags and region from the matched instance; the account name as passed. `completed` is true exactly when `[Completed]` occurs in the description. |
| `MaintenanceEvents.StatusOutcome` | ase.py:179-198 | A status without events yields nothing. A status with events fails exactly when no instance has its id. Otherwise it yields one fitting record per event: record j is built from event j and the last instance with the status id. |
| `MaintenanceEvents.StatusRecords` | ase.py:181-198 | The event loop builds one record per event, in event order. |
| `MaintenanceEvents.RecordsFit` | ase.py:183-198 | Every record gathered from the status loop carries the account as passed, the `completed` flag of its description, and the tags and region of the last instance with its id. |
| `MaintenanceEvents.RecordCount` | ase.py:178-199 | The records of all statuses are as many as their events. |
| `MaintenanceEvents.Synthesize` | ase.py:177-201 | Succeeds exactly when every status with events has a matching instance. It then gives one record per event. In every record, the account is the name as passed and `completed` is true exactly when the description contains `[Completed]`. Tags and region come from the last instance with the record's id. |
| `MaintenanceEvents.SynthesizeAppend` | ase.py:178-199 | Records come in status order. Synthesis over a concatenation of status lists is the concatenation of the separate syntheses. |
| `MaintenanceEvents.NoEventsNoRecords` | ase.py:179 | A status without events contributes no records and needs no instance. |
| `MaintenanceEvents.OneStatusRecords` | ase.py:181-198 | A status with n events yields n records in event order. They share the instance id, account, tags and region, and carry each event's code, description and times. |
| `MaintenanceEvents.GetAllInstanceEvents` | ase.py:167-201 | A status-listing failure gives the status message. An instance-listing failure then gives the instances message. Otherwise the call succeeds exactly when every status with events has an instance. It then returns the records of the status loop, one fitting record per event in status and event order. Else "Cannot get instance maintenance events". |
| `MaintenanceEvents.UnknownAccountMessages` | ase.py:150-175 | For an unknown account, ELB and security-group listing raise the credentials message. Instance listing raises the instances message, and event listing raises the status message. |
| `MaintenanceEvents.UnresolvableEntryFailsAggregators` | ase.py:104-111 | If the lookup cannot find a configured entry by its own name, all three aggregators fail with their own messages. |
| `Scenarios.CompletedRebootScenario` | ase.py:167-201 | Account "prod" has two regions and one instance with a "[Completed] scheduled reboot" event. The call gives exactly one record: completed, region us-east-1, account "prod". |
| `Scenarios.AccountFieldKeepsCase` | ase.py:197 | Asking for "PROD" finds the "prod" entry, and the records carry "PROD". |
| `Scenarios.FailingRegionLosesEverything` | ase.py:88-97 | With three regions where the second fails to list, no instances surface, only the instances error. The aggregate fails as well. |
| `Scenarios.TwinEntriesResolveToFirst` | ase.py:51-55 | When two entries are both named "prod", the first one's key is returned. |
| `Scenarios.CapitalEntryUnreachable` | ase.py:53 | An entry written "Prod" is found by no input, and `get_all_instances` fails. |
| `Scenarios.TwoAccountsConcatenate` | ase.py:104-109 | When both accounts succeed, the aggregate is the first account's instances followed by the second's. |

## Left out

- Network I/O: boto connection setup, region discovery and the listing calls are not modelled. Their outcomes are input data (`Cloud`, `Region`, `Outcome`).
- Two fetches of the same data: `get_all_instance_events` connects twice, once for statuses and once for instances. The model reads the same snapshot both times, whereas the real SDK could answer differently between the two calls.
- Load-balancer connection: `connect_to_region` and `get_all_load_balancers` share one handler and one message, so each region has a single outcome for both.
- Internal shape of SDK objects: load balancers and security groups are opaque records. Tags are a string map, timestamps are strings, and `reservation.instances` is taken to never raise.
- `Strings.Lower`: only ASCII `A`-`Z` are folded. Python's full Unicode case mapping is not modelled.
- Event descriptions are always strings. In Python, a `None` description would raise inside the `try` and fail the call; the model does not cover this. A status's `events` of `None` is modelled as an empty list.
- Configuration shape: it is taken as well formed. A missing `aws_accounts`, `name`, `key` or `secret` key would raise a `KeyError`, and this is not modelled.
- `ASEException.__str__` (ase.py:18-19): it depends on Python's `repr`.
- setup.py: packaging metadata only.
