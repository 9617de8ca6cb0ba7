# container-monitor, modelled in Dafny

container-monitor is a one-shot health probe. It asks the Docker daemon for every
container on the host, drops the containers whose label `com.opusvl.monitor` is
`off`, and folds the rest into a single Icinga2 passive check result:

- `exit_status` is 0 (OK) or 2 (CRITICAL);
- `plugin_output` is the severity name, a space, and one descriptor
  `" " + name + " " + status + " | "` per container that is not running;
- `performance_data` is `running=R; total=T; `.

If no Docker client can be created, the probe instead reports
`CRITICAL - Error connecting to docker api` with empty performance data. The
result goes to Icinga2 as one authenticated POST to
`<endpoint>/v1/actions/process-check-result?service=<host>!<service>`.

The project has four files:

- `wrappers.dfy` (module `Wrappers`) holds `Option`. Its `GetOr` models Python's
  `dict.get(key, default)`.
- `decimal.dfy` (module `Decimal`) renders a natural number as Python formats an
  `int`, and holds the matching reader with a round-trip lemma.
- `icinga2.dfy` (module `Icinga2Api`) models `icinga2.py`. The class `Icinga2`
  keeps the credentials and the endpoint in `const` fields, so no call can change
  them. The URL is composed by `CheckResultPath` and read back by
  `SplitCheckResultPath`. The HTTP transport is a function parameter
  `post: HttpRequest<P> -> R`.
- `container_monitor.dfy` (module `ContainerMonitor`) models `container_monitor.py`.
  It holds the collector's opt-out filter and record mapping (`GetContainerStatus`,
  a loop proved against `Monitored`). It holds the aggregator (`CheckContainerStatus`,
  the source's loop, proved against the specification `Aggregate`), with lemmas
  for the properties of `Aggregate`. It also holds the error payload and one run of
  the probe (`RunCheck`).

The Docker client is modelled as an `Option<seq<InspectedContainer>>`. `None`
means `docker.from_env()` failed. Otherwise the value is every container in listing
order, with its inspection data. A missing `Config` or `Labels` section is the empty
label map: the code reads both with `.get(..., {})`, so the two give the same
result.

Two details of the code are worth stating:

- The code appends `" | "` straight after the status, so `[web running, db exited]`
  gives `CRITICAL  db exited | ` (`ExampleOneExited`).
- Only a failure of `docker.from_env()` becomes the error variant. A failing
  `containers.list` or `inspect_container` raises (see Left out).

## Model

| member | source | states |
|---|---|---|
| Decimal.NatToString | container_monitor.py:104 | the decimal text of a count is a non-empty string of digits with no leading zero unless the count is 0 |
| Decimal.ParseNatToString | container_monitor.py:104 | reading the decimal text of n back gives n, so the rendering is exact |
| ContainerMonitor.IsMonitored | container_monitor.py:52-57 | a container is monitored iff its `com.opusvl.monitor` label is absent or has a value other than `off` |
| ContainerMonitor.ToStatus | container_monitor.py:58-72 | the record copies id, short id, name, status, exit code, error and running flag verbatim, so it counts as running iff the inspected status is exactly `running` |
| ContainerMonitor.Monitored | container_monitor.py:45-73 | the collector returns at most one record per listed container |
| ContainerMonitor.MonitoredConcat | container_monitor.py:46-58 | filtering a concatenation filters each part and keeps listing order |
| ContainerMonitor.MonitoredMembers | container_monitor.py:52-72 | a record is collected iff it is the mapping of a listed container whose `com.opusvl.monitor` label is absent or not `off` |
| ContainerMonitor.MonitoredKeepsAll | container_monitor.py:52-72 | with no opt-out, every listed container gives exactly one record, at the same position |
| ContainerMonitor.MonitoredHaveStatus | container_monitor.py:59-71 | every collected record has a present name and a present status |
| ContainerMonitor.GetContainerStatus | container_monitor.py:33-73 | no client gives the error `Error connecting to docker api`; otherwise the loop's appended list is exactly the monitored records in listing order |
| ContainerMonitor.CountsAsRunning | container_monitor.py:92 | a record counts as running iff its status is absent or is exactly `running` |
| ContainerMonitor.DescriptorShape | container_monitor.py:94-99 | a descriptor is a space, the name (empty when absent), a space, the status, then space, pipe, space, each at its position, five characters more than name and status |
| ContainerMonitor.Unhealthy | container_monitor.py:91-99 | at most one descriptor per record |
| ContainerMonitor.RunningCount | container_monitor.py:89-102 | the running count never exceeds the number of records |
| ContainerMonitor.UnhealthyMembers | container_monitor.py:91-99 | every record described as unhealthy is an input record that does not count as running |
| ContainerMonitor.UnhealthyMultiplicity | container_monitor.py:91-99 | each record that does not count as running is described as often as it occurs in the input, and no running record is described |
| ContainerMonitor.UnhealthyEmpty | container_monitor.py:91-99 | no record is described iff every record counts as running |
| ContainerMonitor.AggregateStep | container_monitor.py:91-102 | one more record adds one to the running count if it counts as running, and otherwise appends its descriptor and makes the unhealthy list non-empty |
| ContainerMonitor.UnhealthyConcat | container_monitor.py:91-99 | unhealthy records are listed in input order |
| ContainerMonitor.RunningPlusUnhealthy | container_monitor.py:91-102 | every record is counted as running or described as unhealthy, never both: R + number of descriptors = T |
| ContainerMonitor.Aggregate | container_monitor.py:76-117 | the exit status is 0 or 2, never 1, and it is 2 iff some record does not count as running |
| ContainerMonitor.CheckContainerStatus | container_monitor.py:76-117 | the four-accumulator loop and the severity ladder compute exactly `Aggregate` of the input |
| ContainerMonitor.NotRunningIsCritical | container_monitor.py:92-107 | one record with an explicit status other than `running` makes the exit status 2 and the output start with `CRITICAL ` |
| ContainerMonitor.AllRunningIsOk | container_monitor.py:86-111 | when every record counts as running, or there are none, the exit status is 0 and the output is exactly `OK ` |
| ContainerMonitor.MissingStatusIsHealthy | container_monitor.py:92-101 | a record without a status, anywhere in the list, adds one to the running count and changes neither exit status nor output |
| ContainerMonitor.SeverityName | container_monitor.py:106-111 | the name is `CRITICAL` iff the code is 2, `WARNING` iff it is 1, and `OK` for every other code |
| ContainerMonitor.PluginOutputAt | container_monitor.py:94-107 | an unhealthy record at position i contributes its descriptor to the `CRITICAL ` output after the descriptors of the unhealthy records before i and before those after i |
| ContainerMonitor.RunningCountPermutation | container_monitor.py:91-102 | the running count depends only on the multiset of records |
| ContainerMonitor.AggregatePermutation | container_monitor.py:91-111 | reordering the records leaves the exit status, R, T and the performance data unchanged |
| ContainerMonitor.UnhealthyPermutation | container_monitor.py:91-99 | reordering the records only reorders the descriptors: the described records form the same multiset |
| ContainerMonitor.ParsePerformanceDataOf | container_monitor.py:104 | `PerformanceData(R, T)`, the string `running=R; total=T; `, reads back as exactly (R, T) |
| ContainerMonitor.PerformanceDataReadsBack | container_monitor.py:89-104 | the performance data reads back as (running count, list length), with R <= T and T - R the number of descriptors |
| ContainerMonitor.ErrorPayload | container_monitor.py:154-161 | a collection error e gives exit status 2, empty performance data, and output `CRITICAL - ` followed by e verbatim |
| ContainerMonitor.ErrorPayloadIsDistinct | container_monitor.py:154-163 | an error payload never equals an aggregate payload, and its performance data does not parse as counts |
| ContainerMonitor.BuildPayload | container_monitor.py:154-163 | an error result gives the error payload; a container list gives its aggregate |
| ContainerMonitor.RunCheck | container_monitor.py:147-176 | one run sends one POST to the check-result URL for host and service, with the stored credentials and the payload of the collected result, and returns the transport's answer |
| ContainerMonitor.ExampleOneExited | container_monitor.py:76-117 | `[web running, db exited]` gives exit 2, output `CRITICAL  db exited` followed by space, pipe, space, data `running=1; total=2; ` |
| ContainerMonitor.ExampleEmpty | container_monitor.py:86-111 | the empty list gives exit 0, output `OK `, data `running=0; total=0; ` |
| ContainerMonitor.ExampleConnectError | container_monitor.py:154-161 | the connection error gives exit 2, output `CRITICAL - Error connecting to docker api`, empty data |
| Icinga2Api.CheckResultPath | icinga2.py:77 | the URL is the endpoint, the action path, the host, `!` and the service, each at its position, inserted verbatim |
| Icinga2Api.SplitCheckResultPath | icinga2.py:77 | whatever host and service are read back from a URL compose to that same URL |
| Icinga2Api.CheckResultPathRoundTrip | icinga2.py:77 | for a host without `!`, host and service are recovered exactly from the URL, the host before `!` and the service after it |
| Icinga2Api.CheckResultPathAmbiguousHost | icinga2.py:77 | since nothing is escaped, a `!` in the host lets two different host and service pairs share one URL |
| Icinga2Api.Icinga2.constructor | icinga2.py:21-32 | the stored username, password and endpoint are the arguments exactly |
| Icinga2Api.Icinga2.ApiCall | icinga2.py:34-52 | one POST to the path, with Basic auth from the stored credentials, the payload unchanged as JSON body and `Accept: application/json`; the answer is returned unchanged |
| Icinga2Api.Icinga2.ProcessCheckResult | icinga2.py:76-81 | the check result is submitted to `CheckResultPath(endpoint, host, service)` with the payload unchanged, and the API call's answer is returned unchanged |

## Left out

- Docker client I/O (`docker.from_env`, `containers.list`, `inspect_container`) is not modelled; the client is a parameter. A failure of `containers.list` or `inspect_container` raises past the collector in the code and is not modelled.
- The HTTP transport (`requests.post`, `HTTPBasicAuth`, `response.json()`) is an oracle parameter. Network failures and non-JSON replies are whatever that oracle returns.
- Configuration and command line are not modelled: `ConfigParser`, `read_config`, the settings defaults, the `click` command and group. They are file I/O and framework wiring, so `RunCheck` takes the settings as parameters.
- `socket.getfqdn()` and the `print` of the response are not modelled: they depend on the environment or only produce output.
- The module-level globals of `container_monitor.py` are shadowed by locals in `main` and carry no logic.
- A `Labels` value of JSON `null` makes the code fail on `.get`; the model takes labels as a map, so it does not capture that crash.
- A record that does not count as running but whose `name` or `status` is not a string makes the concatenation on line 97 raise a type error. The model types both as strings, so it does not capture that crash. Records that count as running never reach that line.
- ContainerMonitor.BuildPayload: requires a non-empty error message. The code tests the message's truthiness, and an empty one would send it down the container branch with no list, where it crashes. The collector only produces a fixed non-empty message.
- The optional `check_source` field named in the documentation of `process_check_result` is never produced by the code, so it is not part of the payload.
- `setup.py` is packaging metadata and is not part of this model.
