/** The request balancer variant that always targets one fixed external endpoint: no
    server pool, the default retry rules, and monitoring under the upstream's name and
    datacenter when an upstream is given, or under the endpoint's address and a constant
    datacenter label otherwise. The balancer loop that calls these hooks is not part of
    this model; the monitoring sinks are modelled by the log of events they receive. */
module ExternalRequestors {
  import opened Wrappers
  import RetryPolicies

  const DC_FOR_EXTERNAL_REQUESTS: string := "externalRequest"

  /** A URI by its components (`ru.hh.jclient.common.Uri`). */
  datatype Uri = Uri(scheme: Option<string>, userInfo: Option<string>, host: Option<string>, port: int,
                     path: Option<string>, query: Option<string>)

  datatype Request = Request(uri: Uri)

  /** What the requestor reads of an `Upstream`: `getName` and `getDatacenter`, either possibly null. */
  datatype UpstreamInfo = UpstreamInfo(name: Option<string>, datacenter: Option<string>)

  /** A response with its time to last byte (`ResponseWrapper`). */
  datatype ResponseWrapper = ResponseWrapper(response: RetryPolicies.Response, timeToLastByteMicros: int)

  datatype RequestContext = EmptyContext

  /** `ImmediateResultOrPreparedRequest` as built by this variant: no immediate result. */
  datatype PreparedRequest = PreparedRequest(context: RequestContext, request: Request)

  /** A call received by monitoring sink `sink`. */
  datatype Event<M> =
    | CountRequest(sink: M, name: string, dc: string, serverAddress: string, statusCode: int,
                   requestTimeMicros: int, isLastAttempt: bool)
    | CountRequestTime(sink: M, name: string, dc: string, requestTimeMicros: int)
    | CountRetry(sink: M, name: string, dc: string, serverAddress: string, statusCode: int,
                 firstStatusCode: int, triesUsed: int)

  /** What is reported about one response, the same to every sink. */
  datatype Report = Report(name: string, dc: string, serverAddress: string, statusCode: int,
                           requestTimeMicros: int, triesUsed: int, willFireRetry: bool, firstStatusCode: int)

  /** The calls one sink receives for one response. */
  function SinkEvents<M>(sink: M, r: Report): (es: seq<Event<M>>)
    ensures |es| == if r.triesUsed > 1 then 3 else 2
    ensures forall i :: 0 <= i < |es| ==> es[i].sink == sink
  {
    [CountRequest(sink, r.name, r.dc, r.serverAddress, r.statusCode, r.requestTimeMicros, !r.willFireRetry),
     CountRequestTime(sink, r.name, r.dc, r.requestTimeMicros)]
    + (if r.triesUsed > 1 then [CountRetry(sink, r.name, r.dc, r.serverAddress, r.statusCode, r.firstStatusCode, r.triesUsed)]
       else [])
  }

  /** The calls all sinks receive for one response, sink by sink. */
  function ResponseEvents<M>(sinks: seq<M>, r: Report): (es: seq<Event<M>>)
    ensures |es| == |sinks| * if r.triesUsed > 1 then 3 else 2
  {
    if sinks == [] then []
    else ResponseEvents(sinks[..|sinks| - 1], r) + SinkEvents(sinks[|sinks| - 1], r)
  }

  lemma ResponseEventsStep<M>(sinks: seq<M>, i: int, r: Report)
    requires 0 <= i < |sinks|
    ensures ResponseEvents(sinks[..i + 1], r) == ResponseEvents(sinks[..i], r) + SinkEvents(sinks[i], r)
  {
    assert sinks[..i + 1][..i] == sinks[..i];
  }

  /** The events addressed to `sink`, in order. */
  function EventsFor<M(==)>(events: seq<Event<M>>, sink: M): (es: seq<Event<M>>)
    ensures |es| <= |events|
  {
    if events == [] then []
    else EventsFor(events[..|events| - 1], sink) + (if events[|events| - 1].sink == sink then [events[|events| - 1]] else [])
  }

  lemma {:induction false} EventsForConcat<M>(a: seq<Event<M>>, b: seq<Event<M>>, sink: M)
    ensures EventsFor(a + b, sink) == EventsFor(a, sink) + EventsFor(b, sink)
    decreases |b|
  {
    if b == [] {
      assert a + b == a;
    } else {
      var b' := b[..|b| - 1];
      EventsForConcat(a, b', sink);
      assert (a + b)[..|a + b| - 1] == a + b';
    }
  }

  lemma {:induction false} EventsForAll<M>(events: seq<Event<M>>, sink: M)
    requires forall i :: 0 <= i < |events| ==> events[i].sink == sink
    ensures EventsFor(events, sink) == events
  {
    if events != [] {
      EventsForAll(events[..|events| - 1], sink);
    }
  }

  lemma {:induction false} EventsForNone<M>(events: seq<Event<M>>, sink: M)
    requires forall i :: 0 <= i < |events| ==> events[i].sink != sink
    ensures EventsFor(events, sink) == []
  {
    if events != [] {
      EventsForNone(events[..|events| - 1], sink);
    }
  }

  /** The last element of a sequence without repetitions does not occur before it. */
  lemma LastNotInInit<M>(s: seq<M>)
    requires |s| > 0
    requires forall i, j :: 0 <= i < j < |s| ==> s[i] != s[j]
    ensures s[|s| - 1] !in s[..|s| - 1]
  {
  }

  /** Appending one sink's events adds exactly those events to that sink's view, and
      nothing to any other sink's. */
  lemma EventsForOneMore<M>(before: seq<Event<M>>, last: M, sink: M, r: Report)
    ensures EventsFor(before + SinkEvents(last, r), sink)
            == EventsFor(before, sink) + (if last == sink then SinkEvents(last, r) else [])
  {
    EventsForConcat(before, SinkEvents(last, r), sink);
    if last == sink {
      EventsForAll(SinkEvents(last, r), sink);
    } else {
      EventsForNone(SinkEvents(last, r), sink);
    }
  }

  /** For one response, each of a set of sinks receives exactly one `countRequest` (final
      when no retry follows), one `countRequestTime` and, only after the first try, one
      `countRetry` with the stored first status code; a sink outside the set receives nothing. */
  lemma {:induction false} EachSinkGetsItsEvents<M>(sinks: seq<M>, sink: M, r: Report)
    requires forall i, j :: 0 <= i < j < |sinks| ==> sinks[i] != sinks[j]
    ensures EventsFor(ResponseEvents(sinks, r), sink) == if sink in sinks then SinkEvents(sink, r) else []
  {
    if sinks != [] {
      var init, last := sinks[..|sinks| - 1], sinks[|sinks| - 1];
      assert forall i, j :: 0 <= i < j < |init| ==> init[i] != init[j];
      EachSinkGetsItsEvents(init, sink, r);
      EventsForOneMore(ResponseEvents(init, r), last, sink, r);
      assert sinks == init + [last];
      if last == sink {
        LastNotInInit(sinks);
      }
    }
  }

  /** The server address reported to monitoring: the request URI cut down to scheme, host
      and port, rendered by `Uri.toString` (here `render`, which is not part of this model). */
  function ServerAddress(render: Uri -> string, request: Request): (address: string)
  {
    render(Uri(request.uri.scheme, None, request.uri.host, request.uri.port, None, None))
  }

  /** Requests that differ only in user info, path or query report the same address. */
  lemma ServerAddressUsesSchemeHostPort(render: Uri -> string, a: Request, b: Request)
    requires a.uri.scheme == b.uri.scheme && a.uri.host == b.uri.host && a.uri.port == b.uri.port
    ensures ServerAddress(render, a) == ServerAddress(render, b)
  {
  }

  class ExternalUrlRequestor<M(==)> {
    const upstreamName: Option<string>
    const dc: string
    const monitorings: seq<M>
    const request: Request
    /** `Uri.toString`. */
    const render: Uri -> string
    var firstStatusCode: int
    /** Every call the monitoring sinks have received, in order. */
    var events: seq<Event<M>>

    constructor (upstream: Option<UpstreamInfo>, request: Request, monitorings: seq<M>, render: Uri -> string)
      ensures upstreamName == (if upstream.Some? then upstream.value.name else None)
      ensures dc == if upstream.Some? && upstream.value.datacenter.Some? then upstream.value.datacenter.value
                    else DC_FOR_EXTERNAL_REQUESTS
      ensures upstream.None? ==> upstreamName.None? && dc == DC_FOR_EXTERNAL_REQUESTS
      ensures this.request == request && this.monitorings == monitorings && this.render == render
      ensures firstStatusCode == 0 && events == []
    {
      upstreamName := if upstream.Some? then upstream.value.name else None;
      dc := if upstream.Some? && upstream.value.datacenter.Some? then upstream.value.datacenter.value
            else DC_FOR_EXTERNAL_REQUESTS;
      this.request := request;
      this.monitorings := monitorings;
      this.render := render;
      firstStatusCode := 0;
      events := [];
    }

    /** The name reported to monitoring: the upstream's name, or the server address. */
    function MonitoringName(): (name: string)
      ensures upstreamName.Some? ==> name == upstreamName.value
      ensures upstreamName.None? ==> name == ServerAddress(render, request)
    {
      upstreamName.GetOr(ServerAddress(render, request))
    }

    /** `getResultOrContext`: the request as it is, with the empty context. */
    function GetResultOrContext(request: Request): (r: PreparedRequest)
      ensures r.request == request && r.context == EmptyContext
    {
      PreparedRequest(EmptyContext, request)
    }

    /** `checkRetry`: the default rules of a fresh `RetryPolicy`, which retry a
        non-idempotent request only on a connect error. */
    predicate CheckRetry(response: RetryPolicies.Response, isIdempotent: bool)
      ensures CheckRetry(response, isIdempotent) && !isIdempotent ==> RetryPolicies.IsConnectError(response)
    {
      RetryPolicies.IsRetriable(RetryPolicies.DefaultRules(), response, isIdempotent)
    }

    /** The report `onResponse` hands to every sink. */
    function ReportOf(wrapper: ResponseWrapper, triesUsed: int, willFireRetry: bool): (r: Report)
      reads this`firstStatusCode
      ensures r.name == MonitoringName() && r.dc == dc && r.serverAddress == ServerAddress(render, request)
      ensures r.statusCode == wrapper.response.statusCode && r.requestTimeMicros == wrapper.timeToLastByteMicros
      ensures r.triesUsed == triesUsed && r.willFireRetry == willFireRetry && r.firstStatusCode == firstStatusCode
    {
      Report(MonitoringName(), dc, ServerAddress(render, request), wrapper.response.statusCode,
             wrapper.timeToLastByteMicros, triesUsed, willFireRetry, firstStatusCode)
    }

    method OnResponse(wrapper: ResponseWrapper, triesUsed: int, willFireRetry: bool)
      modifies this`events
      ensures events == old(events) + ResponseEvents(monitorings, ReportOf(wrapper, triesUsed, willFireRetry))
    {
      ghost var start := events;
      // nothing in the report depends on the sink, so it is built once
      var report := ReportOf(wrapper, triesUsed, willFireRetry);
      for i := 0 to |monitorings|
        invariant events == start + ResponseEvents(monitorings[..i], report)
      {
        Notify(monitorings[i], report);
        ResponseEventsStep(monitorings, i, report);
      }
      assert monitorings[..|monitorings|] == monitorings;
    }

    /** The calls `onResponse` makes on one sink. */
    method Notify(monitoring: M, r: Report)
      modifies this`events
      ensures events == old(events) + SinkEvents(monitoring, r)
    {
      events := events + [CountRequest(monitoring, r.name, r.dc, r.serverAddress, r.statusCode, r.requestTimeMicros,
                                       !r.willFireRetry)];
      events := events + [CountRequestTime(monitoring, r.name, r.dc, r.requestTimeMicros)];
      if r.triesUsed > 1 {
        events := events + [CountRetry(monitoring, r.name, r.dc, r.serverAddress, r.statusCode, r.firstStatusCode,
                                       r.triesUsed)];
      }
    }

    method OnRetry(statusCode: int, response: RetryPolicies.Response, triesUsed: int)
      modifies this`firstStatusCode
      ensures firstStatusCode == FirstStatusAfter(old(firstStatusCode), [(statusCode, triesUsed)])
      ensures triesUsed == 1 ==> firstStatusCode == statusCode
      ensures triesUsed != 1 ==> firstStatusCode == old(firstStatusCode)
    {
      if triesUsed == 1 {
        firstStatusCode := statusCode;
      }
    }
  }

  /** `firstStatusCode` after a series of `onRetry(statusCode, _, triesUsed)` calls, oldest first. */
  function FirstStatusAfter(first: int, retries: seq<(int, int)>): int
  {
    if retries == [] then first
    else
      var (statusCode, triesUsed) := retries[|retries| - 1];
      var before := FirstStatusAfter(first, retries[..|retries| - 1]);
      if triesUsed == 1 then statusCode else before
  }

  /** Once the first retry (after try 1) has stored its status code, later retries (after
      more tries) never overwrite it. */
  lemma {:induction false} FirstStatusIsKept(first: int, retries: seq<(int, int)>)
    requires |retries| > 0 && retries[0].1 == 1
    requires forall i :: 0 < i < |retries| ==> retries[i].1 > 1
    ensures FirstStatusAfter(first, retries) == retries[0].0
  {
    if |retries| > 1 {
      FirstStatusIsKept(first, retries[..|retries| - 1]);
    }
  }

  /** The fixed-endpoint variant retries exactly as the default rules say: a connect error
      always, REQUEST_TIMEOUT and SERVICE_UNAVAILABLE for idempotent requests only, and
      nothing else. */
  lemma CheckRetryUsesDefaultRules<M>(requestor: ExternalUrlRequestor<M>, response: RetryPolicies.Response,
                                      isIdempotent: bool)
    ensures requestor.CheckRetry(response, isIdempotent) <==>
      RetryPolicies.IsConnectError(response)
      || (response.statusCode in {RetryPolicies.REQUEST_TIMEOUT, RetryPolicies.SERVICE_UNAVAILABLE} && isIdempotent)
  {
  }
}
