/** The health monitor of pkg/monitor/monitor.go: a table of component
    statuses, updated in place, with an optional callback raised when a
    component moves to a status other than "healthy". The callback's calls
    are recorded as a log; the HTTP probe's outcome comes in as a value. */
module HealthMonitor {
  import opened Model
  import opened Strings

  datatype HealthStatus = HealthStatus(component: string, status: string, lastChecked: int, message: string)

  /** One call of the alert callback. */
  datatype HealthAlert = HealthAlert(component: string, status: string, message: string)

  /** What http.Get returned: a transport error, or a response status code. */
  datatype Probe = RequestError(error: string) | Response(statusCode: nat)

  /** The callback fires on a change of status to anything but "healthy",
      when there is a callback. */
  predicate ShouldAlert(oldStatus: string, status: string, hasCallback: bool)
  {
    oldStatus != status && status != "healthy" && hasCallback
  }

  /** The entry UpdateStatus leaves: a missing component starts from an
      entry with an empty status. */
  function Updated(components: map<string, HealthStatus>, component: string, status: string, message: string, now: int)
    : (r: map<string, HealthStatus>)
    ensures r.Keys == components.Keys + {component}
    ensures r[component].status == status && r[component].message == message && r[component].component
         == (if component in components then components[component].component else component)
  {
    var entry := if component in components then components[component] else HealthStatus(component, "", 0, "");
    components[component := entry.(status := status, lastChecked := now, message := message)]
  }

  function PriorStatus(components: map<string, HealthStatus>, component: string): string
  {
    if component in components then components[component].status else ""
  }

  /** Reporting the same status twice raises at most one alert, and
      "healthy" never raises one. */
  lemma RepeatedStatusQuiet(components: map<string, HealthStatus>, component: string, status: string,
                            m1: string, m2: string, t1: int, t2: int, hasCallback: bool)
    ensures !ShouldAlert(PriorStatus(Updated(components, component, status, m1, t1), component), status, hasCallback)
    ensures !ShouldAlert(PriorStatus(components, component), "healthy", hasCallback)
  {
  }

  /** A component first seen through UpdateStatus alerts on any status but
      "" and "healthy"; a registered one alerts on anything but "unknown"
      and "healthy". */
  lemma FirstReportAlerts(components: map<string, HealthStatus>, component: string, status: string, now: int)
    ensures component !in components ==>
      (ShouldAlert(PriorStatus(components, component), status, true) <==> status != "" && status != "healthy")
    ensures var registered := components[component := HealthStatus(component, "unknown", now, "")];
      ShouldAlert(PriorStatus(registered, component), status, true) <==> status != "unknown" && status != "healthy"
  {
  }

  /** The status and message a probe outcome reports. */
  function ProbeReport(probe: Probe): (r: (string, string))
    ensures r.0 == "healthy" <==> probe.Response? && probe.statusCode == 200
    ensures r.0 == "healthy" ==> r.1 == ""
    ensures r.0 == "unhealthy" <==> probe.RequestError?
  {
    match probe
    case RequestError(err) => ("unhealthy", "HTTP请求失败: " + err)
    case Response(code) =>
      if code != 200 then ("degraded", "HTTP状态码非200: " + NatToString(code))
      else ("healthy", "")
  }

  class Monitor {
    var components: map<string, HealthStatus>
    /** Whether a callback was given (Go's non-nil alertFunc). */
    const hasCallback: bool
    /** The callback's calls, oldest first. */
    var raised: seq<HealthAlert>

    constructor (hasCallback: bool)
      ensures components == map[] && raised == [] && this.hasCallback == hasCallback
    {
      components := map[];
      raised := [];
      this.hasCallback := hasCallback;
    }

    /** RegisterComponent (re)sets the component to "unknown" with no
        message. */
    method RegisterComponent(component: string, now: int)
      modifies this`components
      ensures components == old(components)[component := HealthStatus(component, "unknown", now, "")]
    {
      components := components[component := HealthStatus(component, "unknown", now, "")];
    }

    /** UpdateStatus: creates a missing component, sets its status, time and
        message, and calls the callback on a change to a non-healthy status. */
    method UpdateStatus(component: string, status: string, message: string, now: int)
      modifies this`components, this`raised
      ensures components == Updated(old(components), component, status, message, now)
      ensures raised == old(raised) + (if ShouldAlert(PriorStatus(old(components), component), status, hasCallback)
                                       then [HealthAlert(component, status, message)] else [])
    {
      if component !in components {
        components := components[component := HealthStatus(component, "", 0, "")];
      }
      var oldStatus := components[component].status;
      components := components[component := components[component].(status := status, lastChecked := now, message := message)];
      if oldStatus != status && status != "healthy" && hasCallback {
        raised := raised + [HealthAlert(component, status, message)];
      }
    }

    /** GetStatus: the component's entry, None (nil) when unregistered. */
    method GetStatus(component: string) returns (status: Option<HealthStatus>)
      ensures status.None? <==> component !in components
      ensures status.Some? ==> status.value == components[component]
    {
      if component in components {
        return Some(components[component]);
      }
      return None;
    }

    /** GetAllStatus: one entry per known component, in the map's visiting
        order. */
    method GetAllStatus(order: seq<string>) returns (statuses: seq<HealthStatus>)
      requires IsOrderOf(order, components.Keys)
      ensures |statuses| == |components.Keys|
      ensures forall c :: c in components ==> components[c] in statuses
      ensures forall s :: s in statuses ==> s in components.Values
      ensures |statuses| == |order| && forall j :: 0 <= j < |order| ==> statuses[j] == components[order[j]]
    {
      statuses := [];
      for i := 0 to |order|
        invariant |statuses| == i
        invariant forall j :: 0 <= j < i ==> order[j] in components && statuses[j] == components[order[j]]
      {
        statuses := statuses + [components[order[i]]];
      }
      OrderLength(order, components.Keys);
      forall c | c in components
        ensures components[c] in statuses
      {
        var j :| 0 <= j < |order| && order[j] == c;
        assert statuses[j] == components[c];
      }
    }

    /** CheckHTTPEndpoint: a transport error reports "unhealthy", a status
        other than 200 "degraded", and 200 "healthy" with no message. */
    method CheckHTTPEndpoint(component: string, probe: Probe, now: int)
      modifies this`components, this`raised
      ensures var (status, message) := ProbeReport(probe);
        && components == Updated(old(components), component, status, message, now)
        && raised == old(raised) + (if ShouldAlert(PriorStatus(old(components), component), status, hasCallback)
                                    then [HealthAlert(component, status, message)] else [])
    {
      if probe.RequestError? {
        UpdateStatus(component, "unhealthy", "HTTP请求失败: " + probe.error, now);
        return;
      }
      if probe.statusCode != 200 {
        UpdateStatus(component, "degraded", "HTTP状态码非200: " + NatToString(probe.statusCode), now);
        return;
      }
      UpdateStatus(component, "healthy", "", now);
    }
  }
}
