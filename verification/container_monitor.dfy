/**
 * The container monitor (container_monitor.py): it lists the containers of the
 * Docker host, drops those opted out of monitoring, folds the rest into one
 * Icinga2 check result, and submits that result.
 */
module ContainerMonitor {
  import opened Wrappers
  import opened Decimal
  import opened Icinga2Api

  // Icinga2 exit codes.
  const OK := 0
  const WARNING := 1
  const CRITICAL := 2

  /** The only status counted as healthy, and the default for a record without one. */
  const RUNNING := "running"
  /** The container label that opts a container out of monitoring, and its opt-out value. */
  const MONITOR_LABEL := "com.opusvl.monitor"
  const MONITOR_OFF := "off"
  /** The error reported when no Docker client can be created. */
  const DOCKER_CONNECT_ERROR := "Error connecting to docker api"

  /**
   * A container as listed and inspected by the Docker API: the listing's ids,
   * the inspection's name and state, and its labels (an absent `Config` or
   * `Labels` section is the empty map).
   */
  datatype InspectedContainer = InspectedContainer(
    id: string, shortId: string, name: string, status: string,
    exitCode: int, error: string, running: bool, labels: map<string, string>)

  /**
   * One container record as the aggregator reads it. `name` and `status` are
   * dictionary lookups with defaults in the aggregator, so they may be absent.
   */
  datatype ContainerStatus = ContainerStatus(
    id: string, shortId: string, name: Option<string>, status: Option<string>,
    exitCode: int, error: string, running: bool)

  /** What the collector hands on: a collection-level error, or the monitored containers. */
  datatype CollectionResult = Error(msg: string) | Containers(containers: seq<ContainerStatus>)

  /** An Icinga2 passive check result. */
  datatype Payload = Payload(exitStatus: int, pluginOutput: string, performanceData: string)

  // ---------------------------------------------------------------------------
  // Collector: the monitoring opt-out filter and the record mapping
  // ---------------------------------------------------------------------------

  /** A container is monitored unless its monitor label, defaulting to "on", is "off". */
  function IsMonitored(c: InspectedContainer): (b: bool)
    ensures b <==> MONITOR_LABEL !in c.labels || c.labels[MONITOR_LABEL] != MONITOR_OFF
  {
    (if MONITOR_LABEL in c.labels then c.labels[MONITOR_LABEL] else "on") != MONITOR_OFF
  }

  /** The record the collector builds from an inspected container. */
  function ToStatus(c: InspectedContainer): (r: ContainerStatus)
    ensures r.id == c.id && r.shortId == c.shortId && r.exitCode == c.exitCode
    ensures r.error == c.error && r.running == c.running
    ensures r.name == Some(c.name) && r.status == Some(c.status)
    ensures CountsAsRunning(r) <==> c.status == RUNNING
  {
    ContainerStatus(c.id, c.shortId, Some(c.name), Some(c.status), c.exitCode, c.error, c.running)
  }

  /** The records of the monitored containers, in listing order. */
  function Monitored(listing: seq<InspectedContainer>): (r: seq<ContainerStatus>)
    ensures |r| <= |listing|
  {
    if listing == [] then []
    else (if IsMonitored(listing[0]) then [ToStatus(listing[0])] else []) + Monitored(listing[1..])
  }

  /** Filtering a concatenation filters each part and keeps their order. */
  lemma {:induction false} MonitoredConcat(a: seq<InspectedContainer>, b: seq<InspectedContainer>)
    ensures Monitored(a + b) == Monitored(a) + Monitored(b)
  {
    if a == [] {
      assert a + b == b;
    } else {
      assert (a + b)[0] == a[0];
      assert (a + b)[1..] == a[1..] + b;
      MonitoredConcat(a[1..], b);
    }
  }

  /** A record is collected iff it comes from a listed container that is not opted out. */
  lemma {:induction false} MonitoredMembers(listing: seq<InspectedContainer>, x: ContainerStatus)
    ensures x in Monitored(listing) <==>
            exists i :: 0 <= i < |listing| && IsMonitored(listing[i]) && x == ToStatus(listing[i])
  {
    if listing != [] {
      MonitoredMembers(listing[1..], x);
      if x in Monitored(listing[1..]) {
        var i :| 0 <= i < |listing[1..]| && IsMonitored(listing[1..][i]) && x == ToStatus(listing[1..][i]);
        assert listing[i + 1] == listing[1..][i];
      }
      if exists i :: 0 <= i < |listing| && IsMonitored(listing[i]) && x == ToStatus(listing[i]) {
        var i :| 0 <= i < |listing| && IsMonitored(listing[i]) && x == ToStatus(listing[i]);
        if i > 0 {
          assert listing[1..][i - 1] == listing[i];
        }
      }
    }
  }

  /** Without an opt-out the collector keeps every container, one record each, in order. */
  lemma {:induction false} MonitoredKeepsAll(listing: seq<InspectedContainer>)
    requires forall i :: 0 <= i < |listing| ==> IsMonitored(listing[i])
    ensures |Monitored(listing)| == |listing|
    ensures forall i :: 0 <= i < |listing| ==> Monitored(listing)[i] == ToStatus(listing[i])
  {
    if listing != [] {
      MonitoredKeepsAll(listing[1..]);
    }
  }

  /** Every collected record carries a name and a status. */
  lemma {:induction false} MonitoredHaveStatus(listing: seq<InspectedContainer>)
    ensures forall x :: x in Monitored(listing) ==> x.name.Some? && x.status.Some?
  {
    if listing != [] {
      MonitoredHaveStatus(listing[1..]);
    }
  }

  /**
   * The collector. `client` is the Docker client's view of the host: `None`
   * when the client cannot be created, otherwise every container in listing
   * order with its inspection data.
   */
  method GetContainerStatus(client: Option<seq<InspectedContainer>>) returns (result: CollectionResult)
    ensures client.None? ==> result == Error(DOCKER_CONNECT_ERROR)
    ensures client.Some? ==> result == Containers(Monitored(client.value))
  {
    if client.None? {
      return Error(DOCKER_CONNECT_ERROR);
    }
    var listing := client.value;
    var containers: seq<ContainerStatus> := [];
    for i := 0 to |listing|
      invariant containers == Monitored(listing[..i])
    {
      var container := listing[i];
      assert listing[..i + 1] == listing[..i] + [container];
      MonitoredConcat(listing[..i], [container]);
      if (if MONITOR_LABEL in container.labels then container.labels[MONITOR_LABEL] else "on") != MONITOR_OFF {
        containers := containers + [ContainerStatus(container.id, container.shortId, Some(container.name),
                                                    Some(container.status), container.exitCode,
                                                    container.error, container.running)];
      }
    }
    assert listing[..|listing|] == listing;
    return Containers(containers);
  }

  // ---------------------------------------------------------------------------
  // Aggregator: the specification
  // ---------------------------------------------------------------------------

  /** A record counts as running when its status, defaulting to "running", is "running". */
  function CountsAsRunning(c: ContainerStatus): (b: bool)
    ensures b <==> c.status.None? || c.status.value == RUNNING
  {
    c.status.GetOr(RUNNING) == RUNNING
  }

  /** The text an unhealthy record adds to the plugin output. */
  function Descriptor(c: ContainerStatus): (d: string) {
    " " + (c.name.GetOr("") + " " + c.status.GetOr("")) + " | "
  }

  /**
   * A descriptor is a space, the name (empty when absent), a space, the
   * status, and " | ", each at its position.
   */
  lemma DescriptorShape(c: ContainerStatus)
    ensures var d, name, status := Descriptor(c), c.name.GetOr(""), c.status.GetOr("");
      && |d| == |name| + |status| + 5
      && d[0] == ' ' && d[1..1 + |name|] == name && d[1 + |name|] == ' '
      && d[2 + |name|..2 + |name| + |status|] == status && d[|d| - 3..] == " | "
  {
  }

  /** The number of records counted as running. */
  function RunningCount(s: seq<ContainerStatus>): (n: nat)
    ensures n <= |s|
  {
    if s == [] then 0 else (if CountsAsRunning(s[0]) then 1 else 0) + RunningCount(s[1..])
  }

  /** The records not counted as running, in input order. */
  function Unhealthy(s: seq<ContainerStatus>): (u: seq<ContainerStatus>)
    ensures |u| <= |s|
  {
    if s == [] then [] else (if CountsAsRunning(s[0]) then [] else [s[0]]) + Unhealthy(s[1..])
  }

  /** Only records not counted as running are listed. */
  lemma {:induction false} UnhealthyMembers(s: seq<ContainerStatus>)
    ensures forall x :: x in Unhealthy(s) ==> x in s && !CountsAsRunning(x)
  {
    if s != [] {
      UnhealthyMembers(s[1..]);
    }
  }

  /** Each record not counted as running is listed as often as it occurs; no other record is. */
  lemma {:induction false} UnhealthyMultiplicity(s: seq<ContainerStatus>, x: ContainerStatus)
    ensures multiset(Unhealthy(s))[x] == if CountsAsRunning(x) then 0 else multiset(s)[x]
  {
    if s != [] {
      UnhealthyMultiplicity(s[1..], x);
      assert s == [s[0]] + s[1..];
      assert multiset(s) == multiset{s[0]} + multiset(s[1..]);
    }
  }

  /** The unhealthy list is empty iff every record counts as running. */
  lemma {:induction false} UnhealthyEmpty(s: seq<ContainerStatus>)
    ensures Unhealthy(s) == [] <==> forall i :: 0 <= i < |s| ==> CountsAsRunning(s[i])
  {
    if s != [] {
      UnhealthyEmpty(s[1..]);
      assert forall i :: 1 <= i < |s| ==> s[i] == s[1..][i - 1];
    }
  }

  /** The descriptors of `u`, concatenated in order. */
  function Descriptors(u: seq<ContainerStatus>): (text: string) {
    if u == [] then "" else Descriptor(u[0]) + Descriptors(u[1..])
  }

  /** The severity name the plugin output starts with. */
  function SeverityName(exitStatus: int): (name: string)
    ensures name == "CRITICAL" <==> exitStatus == CRITICAL
    ensures name == "WARNING" <==> exitStatus == WARNING
    ensures name == "OK" <==> exitStatus != CRITICAL && exitStatus != WARNING
  {
    if exitStatus == CRITICAL then "CRITICAL" else if exitStatus == WARNING then "WARNING" else "OK"
  }

  /** The performance data string. */
  function PerformanceData(running: nat, total: nat): (data: string) {
    "running=" + NatToString(running) + "; total=" + NatToString(total) + "; "
  }

  /**
   * The check result for a list of records: CRITICAL when some record is not
   * running, OK otherwise; never WARNING.
   */
  function Aggregate(s: seq<ContainerStatus>): (p: Payload)
    ensures p.exitStatus == OK || p.exitStatus == CRITICAL
    ensures p.exitStatus == CRITICAL <==> exists i :: 0 <= i < |s| && !CountsAsRunning(s[i])
  {
    UnhealthyEmpty(s);
    var exitStatus := if Unhealthy(s) == [] then OK else CRITICAL;
    Payload(exitStatus, SeverityName(exitStatus) + " " + Descriptors(Unhealthy(s)),
            PerformanceData(RunningCount(s), |s|))
  }

  // ---------------------------------------------------------------------------
  // Aggregator: the loop
  // ---------------------------------------------------------------------------

  /** Folds the records into one check result, one record at a time. */
  method CheckContainerStatus(containers: seq<ContainerStatus>) returns (payload: Payload)
    ensures payload == Aggregate(containers)
  {
    var exitStatus := OK;
    var pluginOutput := "";
    var running, total := 0, 0;
    for i := 0 to |containers|
      invariant total == i
      invariant running == RunningCount(containers[..i])
      invariant pluginOutput == Descriptors(Unhealthy(containers[..i]))
      invariant exitStatus == if Unhealthy(containers[..i]) == [] then OK else CRITICAL
    {
      var container := containers[i];
      assert containers[..i + 1] == containers[..i] + [container];
      AggregateStep(containers[..i], container);
      if container.status.GetOr(RUNNING) != RUNNING {
        exitStatus := CRITICAL;
        pluginOutput := pluginOutput + " " + (container.name.GetOr("") + " " + container.status.GetOr("")) + " | ";
      } else {
        running := running + 1;
      }
      total := total + 1;
    }
    assert containers[..|containers|] == containers;
    var performanceData := PerformanceData(running, total);
    if exitStatus == CRITICAL {
      pluginOutput := "CRITICAL " + pluginOutput;
    } else if exitStatus == WARNING {
      pluginOutput := "WARNING " + pluginOutput;
    } else {
      pluginOutput := "OK " + pluginOutput;
    }
    payload := Payload(exitStatus, pluginOutput, performanceData);
  }

  /** What one more record does to the running count and to the unhealthy descriptors. */
  lemma AggregateStep(s: seq<ContainerStatus>, c: ContainerStatus)
    ensures RunningCount(s + [c]) == RunningCount(s) + (if CountsAsRunning(c) then 1 else 0)
    ensures Descriptors(Unhealthy(s + [c]))
         == Descriptors(Unhealthy(s)) + (if CountsAsRunning(c) then "" else Descriptor(c))
    ensures (Unhealthy(s + [c]) == []) == (Unhealthy(s) == [] && CountsAsRunning(c))
  {
    RunningCountConcat(s, [c]);
    UnhealthyConcat(s, [c]);
    DescriptorsConcat(Unhealthy(s), Unhealthy([c]));
    assert Unhealthy([c]) == if CountsAsRunning(c) then [] else [c];
  }

  // ---------------------------------------------------------------------------
  // Aggregator: properties
  // ---------------------------------------------------------------------------

  lemma {:induction false} RunningCountConcat(a: seq<ContainerStatus>, b: seq<ContainerStatus>)
    ensures RunningCount(a + b) == RunningCount(a) + RunningCount(b)
  {
    if a == [] {
      assert a + b == b;
    } else {
      assert (a + b)[0] == a[0];
      assert (a + b)[1..] == a[1..] + b;
      RunningCountConcat(a[1..], b);
    }
  }

  /** The unhealthy records of a concatenation are those of each part, in order. */
  lemma {:induction false} UnhealthyConcat(a: seq<ContainerStatus>, b: seq<ContainerStatus>)
    ensures Unhealthy(a + b) == Unhealthy(a) + Unhealthy(b)
  {
    if a == [] {
      assert a + b == b;
    } else {
      assert (a + b)[0] == a[0];
      assert (a + b)[1..] == a[1..] + b;
      UnhealthyConcat(a[1..], b);
    }
  }

  lemma {:induction false} DescriptorsConcat(u: seq<ContainerStatus>, v: seq<ContainerStatus>)
    ensures Descriptors(u + v) == Descriptors(u) + Descriptors(v)
  {
    if u == [] {
      assert u + v == v;
    } else {
      assert (u + v)[0] == u[0];
      assert (u + v)[1..] == u[1..] + v;
      DescriptorsConcat(u[1..], v);
    }
  }

  /** Every record is either counted as running or listed as unhealthy, never both. */
  lemma {:induction false} RunningPlusUnhealthy(s: seq<ContainerStatus>)
    ensures RunningCount(s) + |Unhealthy(s)| == |s|
  {
    if s != [] {
      RunningPlusUnhealthy(s[1..]);
    }
  }

  /** The running count depends only on the multiset of records. */
  lemma {:induction false} RunningCountPermutation(a: seq<ContainerStatus>, b: seq<ContainerStatus>)
    requires multiset(a) == multiset(b)
    ensures RunningCount(a) == RunningCount(b)
    decreases |a|
  {
    if a == [] {
      assert |b| == |multiset(b)| == 0;
      assert b == [];
    } else {
      var x := a[0];
      assert x in multiset(b);
      var j :| 0 <= j < |b| && b[j] == x;
      var b' := b[..j] + b[j + 1..];
      assert b == b[..j] + ([x] + b[j + 1..]);
      assert a == [x] + a[1..];
      assert multiset(b') == multiset(b[..j]) + multiset(b[j + 1..]);
      assert multiset(a) == multiset([x]) + multiset(a[1..]);
      assert multiset(b) == multiset(b[..j]) + (multiset([x]) + multiset(b[j + 1..]));
      assert multiset(a[1..]) == multiset(a) - multiset{x};
      assert multiset(b') == multiset(b) - multiset{x};
      RunningCountPermutation(a[1..], b');
      RunningCountConcat(b[..j], [x] + b[j + 1..]);
      RunningCountConcat([x], b[j + 1..]);
      RunningCountConcat(b[..j], b[j + 1..]);
    }
  }

  /**
   * Reordering the records changes neither the exit status nor the running
   * and total counts, so not the performance data either.
   */
  lemma AggregatePermutation(a: seq<ContainerStatus>, b: seq<ContainerStatus>)
    requires multiset(a) == multiset(b)
    ensures Aggregate(a).exitStatus == Aggregate(b).exitStatus
    ensures RunningCount(a) == RunningCount(b) && |a| == |b|
    ensures Aggregate(a).performanceData == Aggregate(b).performanceData
  {
    assert |a| == |multiset(a)| == |multiset(b)| == |b|;
    RunningCountPermutation(a, b);
    RunningPlusUnhealthy(a);
    RunningPlusUnhealthy(b);
  }

  /** Reordering the records reorders the descriptors in the plugin output and nothing more. */
  lemma UnhealthyPermutation(a: seq<ContainerStatus>, b: seq<ContainerStatus>)
    requires multiset(a) == multiset(b)
    ensures multiset(Unhealthy(a)) == multiset(Unhealthy(b))
  {
    forall x ensures multiset(Unhealthy(a))[x] == multiset(Unhealthy(b))[x] {
      UnhealthyMultiplicity(a, x);
      UnhealthyMultiplicity(b, x);
    }
  }

  /** One record with an explicit status other than "running" makes the result CRITICAL. */
  lemma NotRunningIsCritical(s: seq<ContainerStatus>, i: nat)
    requires i < |s| && s[i].status.Some? && s[i].status.value != RUNNING
    ensures Aggregate(s).exitStatus == CRITICAL
    ensures |Aggregate(s).pluginOutput| >= 9 && Aggregate(s).pluginOutput[..9] == "CRITICAL "
  {
    assert !CountsAsRunning(s[i]);
  }

  /** When every record counts as running (or there are none) the result is exactly "OK ". */
  lemma AllRunningIsOk(s: seq<ContainerStatus>)
    requires forall i :: 0 <= i < |s| ==> CountsAsRunning(s[i])
    ensures Aggregate(s).exitStatus == OK
    ensures Aggregate(s).pluginOutput == "OK "
  {
  }

  /**
   * A record without a status counts as running and adds nothing to the
   * plugin output, wherever it stands.
   */
  lemma MissingStatusIsHealthy(a: seq<ContainerStatus>, c: ContainerStatus, b: seq<ContainerStatus>)
    requires c.status.None?
    ensures RunningCount(a + [c] + b) == RunningCount(a + b) + 1
    ensures Aggregate(a + [c] + b).exitStatus == Aggregate(a + b).exitStatus
    ensures Aggregate(a + [c] + b).pluginOutput == Aggregate(a + b).pluginOutput
  {
    RunningCountConcat(a + [c], b);
    RunningCountConcat(a, [c]);
    RunningCountConcat(a, b);
    UnhealthyConcat(a + [c], b);
    UnhealthyConcat(a, [c]);
    UnhealthyConcat(a, b);
    assert Unhealthy([c]) == [];
    assert Unhealthy(a + [c] + b) == Unhealthy(a + b);
  }

  /**
   * An unhealthy record at position i puts its descriptor into the plugin
   * output after the descriptors of the unhealthy records before it and
   * before those of the unhealthy records after it.
   */
  lemma PluginOutputAt(s: seq<ContainerStatus>, i: nat)
    requires i < |s| && !CountsAsRunning(s[i])
    ensures Aggregate(s).pluginOutput
         == "CRITICAL " + Descriptors(Unhealthy(s[..i])) + Descriptor(s[i]) + Descriptors(Unhealthy(s[i + 1..]))
  {
    UnhealthySplitAt(s, i);
    var u := Unhealthy(s);
    assert u != [];
    DescriptorsConcat(Unhealthy(s[..i]), [s[i]] + Unhealthy(s[i + 1..]));
    DescriptorsConcat([s[i]], Unhealthy(s[i + 1..]));
    assert Descriptors([s[i]]) == Descriptor(s[i]);
  }

  lemma UnhealthySplitAt(s: seq<ContainerStatus>, i: nat)
    requires i < |s| && !CountsAsRunning(s[i])
    ensures Unhealthy(s) == Unhealthy(s[..i]) + ([s[i]] + Unhealthy(s[i + 1..]))
  {
    assert s[i..][1..] == s[i + 1..];
    var before, rest := s[..i], s[i..];
    assert s == before + rest;
    UnhealthyConcat(before, rest);
    UnhealthyCons(rest);
  }

  lemma UnhealthyCons(s: seq<ContainerStatus>)
    requires s != [] && !CountsAsRunning(s[0])
    ensures Unhealthy(s) == [s[0]] + Unhealthy(s[1..])
  {
  }

  // ---------------------------------------------------------------------------
  // Reading the performance data back
  // ---------------------------------------------------------------------------

  /** Reads `<digits><sep>` off the front of `s`: the number and what follows the separator. */
  function ReadField(s: string, sep: string): (r: Option<(nat, string)>)
  {
    var k := DigitSpan(s);
    if k == 0 || |s| < k + |sep| || s[k..k + |sep|] != sep then None
    else Some((ParseNat(s[..k]), s[k + |sep|..]))
  }

  /** Parses `running=<R>; total=<T>; ` into the pair of counts. */
  function ParsePerformanceData(s: string): (counts: Option<(nat, nat)>) {
    if |s| < 8 || s[..8] != "running=" then None
    else
      match ReadField(s[8..], "; total=")
      case None => None
      case Some((running, rest)) =>
        match ReadField(rest, "; ")
        case Some((total, tail)) =>
          if tail == [] then Some((running, total)) else None
        case None => None
  }

  lemma ReadFieldOfNat(n: nat, sep: string, tail: string)
    requires |sep| > 0 && !IsDigit(sep[0])
    ensures ReadField(NatToString(n) + sep + tail, sep) == Some((n, tail))
  {
    var d := NatToString(n);
    ThreePartSlices(d, sep, tail);
    DigitSpanOfDigits(d, sep + tail);
    ParseNatToString(n);
  }

  lemma ThreePartSlices(a: string, b: string, c: string)
    ensures var s := a + b + c;
      && s == a + (b + c) && s[..|a|] == a
      && s[|a|..|a| + |b|] == b && s[|a| + |b|..] == c
  {
  }

  /**
   * The performance data is `running=<R>; total=<T>; ` with T the number of
   * records, R those counted as running, R <= T and T - R the number of
   * unhealthy descriptors; a reader recovers R and T from it exactly.
   */
  lemma PerformanceDataReadsBack(s: seq<ContainerStatus>)
    ensures ParsePerformanceData(Aggregate(s).performanceData) == Some((RunningCount(s), |s|))
    ensures RunningCount(s) <= |s| && |s| - RunningCount(s) == |Unhealthy(s)|
  {
    RunningPlusUnhealthy(s);
    ParsePerformanceDataOf(RunningCount(s), |s|);
  }

  /** `running=<R>; total=<T>; ` reads back as exactly (R, T). */
  lemma ParsePerformanceDataOf(running: nat, total: nat)
    ensures ParsePerformanceData(PerformanceData(running, total)) == Some((running, total))
  {
    var r, t := NatToString(running), NatToString(total);
    var p := PerformanceData(running, total);
    assert p == "running=" + (r + "; total=" + (t + "; "));
    assert p[..8] == "running=";
    assert p[8..] == r + "; total=" + (t + "; ");
    ReadFieldOfNat(running, "; total=", t + "; ");
    assert t + "; " == t + "; " + "";
    ReadFieldOfNat(total, "; ", "");
  }

  // ---------------------------------------------------------------------------
  // Collection errors and one run of the monitor
  // ---------------------------------------------------------------------------

  /** The check result that reports a collection error. */
  function ErrorPayload(error: string): (p: Payload)
    ensures p.exitStatus == CRITICAL && p.performanceData == ""
    ensures |p.pluginOutput| == 11 + |error| && p.pluginOutput[..11] == "CRITICAL - " && p.pluginOutput[11..] == error
  {
    Payload(CRITICAL, "CRITICAL - " + error, "")
  }

  /** An error report is never mistaken for an aggregate: its performance data is empty. */
  lemma ErrorPayloadIsDistinct(error: string, s: seq<ContainerStatus>)
    ensures ErrorPayload(error) != Aggregate(s)
    ensures ParsePerformanceData(ErrorPayload(error).performanceData).None?
  {
    assert Aggregate(s).performanceData[..8] == "running=";
  }

  /**
   * The payload for a collection result. The error branch is taken on a
   * non-empty error message, the only kind the collector produces.
   */
  method BuildPayload(result: CollectionResult) returns (payload: Payload)
    requires result.Error? ==> result.msg != ""
    ensures result.Error? ==> payload == ErrorPayload(result.msg)
    ensures result.Containers? ==> payload == Aggregate(result.containers)
  {
    if result.Error? {
      var error := result.msg;
      payload := Payload(CRITICAL, "CRITICAL - " + error, "");
    } else {
      payload := CheckContainerStatus(result.containers);
    }
  }

  /**
   * One run: collect, build the payload, and submit it for `service` on
   * `reportingHost` through a client for `endpoint`, returning the answer of
   * the transport `post`.
   */
  method RunCheck<R>(client: Option<seq<InspectedContainer>>,
                     username: string, password: string, endpoint: string,
                     reportingHost: string, service: string,
                     post: HttpRequest<Payload> -> R)
    returns (response: R)
    ensures var payload := if client.None? then ErrorPayload(DOCKER_CONNECT_ERROR)
                           else Aggregate(Monitored(client.value));
      response == post(HttpRequest(CheckResultPath(endpoint, reportingHost, service),
                                   username, password, payload, ACCEPT_JSON))
  {
    var containers := GetContainerStatus(client);
    var payload := BuildPayload(containers);
    var icinga := new Icinga2(username, password, endpoint);
    response := icinga.ProcessCheckResult(reportingHost, service, payload, post);
  }

  // ---------------------------------------------------------------------------
  // Worked examples
  // ---------------------------------------------------------------------------

  function Record(name: string, status: string): (r: ContainerStatus) {
    ContainerStatus("", "", Some(name), Some(status), 0, "", status == RUNNING)
  }

  /** One running and one exited container. */
  lemma ExampleOneExited()
    ensures Aggregate([Record("web", "running"), Record("db", "exited")])
         == Payload(2, "CRITICAL  db exited | ", "running=1; total=2; ")
  {
    var web, db := Record("web", "running"), Record("db", "exited");
    var s := [web, db];
    assert s[1..] == [db];
    assert CountsAsRunning(web) && !CountsAsRunning(db);
    assert RunningCount(s) == 1;
    assert Unhealthy(s) == [db];
    assert Descriptors([db]) == " db exited | " by {
      assert Descriptor(db) == " db exited | ";
    }
    assert "CRITICAL" + " " + " db exited | " == "CRITICAL  db exited | ";
    assert PerformanceData(1, 2) == "running=1; total=2; " by {
      assert NatToString(1) == "1" && NatToString(2) == "2";
    }
  }

  /** No containers at all. */
  lemma ExampleEmpty()
    ensures Aggregate([]) == Payload(0, "OK ", "running=0; total=0; ")
  {
  }

  /** The Docker client cannot be created. */
  lemma ExampleConnectError()
    ensures ErrorPayload(DOCKER_CONNECT_ERROR)
         == Payload(2, "CRITICAL - Error connecting to docker api", "")
  {
    var lit := "CRITICAL - Error connecting to docker api";
    assert lit == "CRITICAL - " + DOCKER_CONNECT_ERROR by {
      assert lit[..11] == "CRITICAL - ";
      assert lit[11..] == DOCKER_CONNECT_ERROR;
      assert lit == lit[..11] + lit[11..];
    }
    assert ErrorPayload(DOCKER_CONNECT_ERROR).pluginOutput == "CRITICAL - " + DOCKER_CONNECT_ERROR;
  }
}
