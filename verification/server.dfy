/** The HTTP server's own state: the `activeRequests` map behind the request
    queue middleware, the server instance, and which routes are gated. */
module Server {
  import opened Base

  const MaxConcurrentRequests := 2
  const BusyMessage := "Server is busy. Please try again later."
  const UnknownIp := "unknown"

  /** `{ timestamp, ip }`: what the map records for an admitted request. */
  datatype QueueEntry = QueueEntry(timestamp: int, ip: string)

  /** The object `app.listen` returns; its identity is all the model needs. */
  datatype Instance = Instance(token: nat)

  /** `serverInstance` (`None` is `null`) and `activeRequests`. */
  datatype State = State(instance: Option<Instance>, active: map<string, QueueEntry>)

  const Initial := State(None, map[])

  /** What happens to a request on its way to a handler. */
  datatype Admission =
    | Busy(statusCode: int, error: string)   // the middleware answers `503 { error }`
    | Admitted(requestId: string)            // the middleware records it and calls `next()`
    | Passed                                 // an ungated route: straight to its handler

  /** `req.ip || 'unknown'`. */
  function IpOrUnknown(ip: Option<string>): (r: string)
    ensures r != ""
    ensures ip.Some? && ip.value != "" ==> r == ip.value
    ensures ip == None || ip == Some("") ==> r == UnknownIp
  {
    match ip
    case Some(s) => if s != "" then s else UnknownIp
    case None => UnknownIp
  }

  /** `requestQueueMiddleware`, with `requestId` drawn from uuid and `now` from
      the clock.  No `await` separates the size check from the insertion, so
      the check and the insertion form one step. */
  function Admit(s: State, requestId: string, now: int, ip: Option<string>): (r: (State, Admission))
    ensures r.1.Busy? <==> |s.active| >= MaxConcurrentRequests
    ensures r.1.Busy? ==> r.0 == s && r.1 == Busy(503, BusyMessage)
    ensures r.1.Admitted? ==>
      && r.1.requestId == requestId
      && r.0.instance == s.instance
      && requestId in r.0.active
      && r.0.active[requestId] == QueueEntry(now, IpOrUnknown(ip))
      && r.0.active - {requestId} == s.active - {requestId}
    ensures |s.active| <= MaxConcurrentRequests ==> |r.0.active| <= MaxConcurrentRequests
  {
    if |s.active| >= MaxConcurrentRequests then
      (s, Busy(503, BusyMessage))
    else
      var active := s.active[requestId := QueueEntry(now, IpOrUnknown(ip))];
      assert active.Keys == s.active.Keys + {requestId};
      (s.(active := active), Admitted(requestId))
  }

  /** The `'finish'` listener of request `requestId`: removes its entry only. */
  function Finish(s: State, requestId: string): (r: State)
    ensures requestId !in r.active
    ensures forall id :: id in s.active && id != requestId ==> id in r.active && r.active[id] == s.active[id]
    ensures r.active.Keys <= s.active.Keys
    ensures |r.active| <= |s.active|
    ensures r.instance == s.instance
  {
    var r := s.(active := s.active - {requestId});
    SubsetCardinality(r.active.Keys, s.active.Keys);
    r
  }

  lemma SubsetCardinality<T>(a: set<T>, b: set<T>)
    requires a <= b
    ensures |a| <= |b|
  {
    assert b == a + (b - a);
  }

  /** What `getServerStatus` reports; `port`, `url` and `uptime` come from the
      configuration and the process. */
  datatype ServerStatus = ServerStatus(running: bool, port: int, url: string, activeRequests: nat, uptime: int)

  function GetServerStatus(s: State, port: int, url: string, uptime: int): (st: ServerStatus)
    ensures st.running <==> s.instance.Some?
    ensures st.activeRequests == |s.active|
    ensures st.port == port && st.url == url && st.uptime == uptime
  {
    ServerStatus(s.instance.Some?, port, url, |s.active|, uptime)
  }

  /** `startServer`: a no-op while an instance exists, otherwise records the
      instance `app.listen` returned. */
  function StartServer(s: State, listening: Instance): (r: State)
    ensures s.instance.Some? ==> r == s
    ensures s.instance.None? ==> r.instance == Some(listening)
    ensures r.active == s.active
  {
    if s.instance.Some? then s else s.(instance := Some(listening))
  }

  /** `stopServer`, with `closeError` the error `server.close` reports: resolves
      without change when stopped, rejects without change when closing fails,
      and otherwise nulls the instance and clears the map. */
  function StopServer(s: State, closeError: Option<Thrown>): (r: (State, Outcome<()>))
    ensures s.instance.None? ==> r == (s, Ok(()))
    ensures s.instance.Some? && closeError.Some? ==> r == (s, Err(closeError.value))
    ensures s.instance.Some? && closeError.None? ==> r.0 == Initial && r.1.Ok?
  {
    if s.instance.None? then (s, Ok(()))
    else
      match closeError
      case Some(e) => (s, Err(e))
      case None => (Initial, Ok(()))
  }

  /** The API routes the server mounts. */
  datatype Route = Info | Summary | SummarySse | Transcript | TestSse

  function RoutePath(r: Route): string {
    match r
    case Info => "/api/info"
    case Summary => "/api/summary"
    case SummarySse => "/api/summary-sse"
    case Transcript => "/api/transcript"
    case TestSse => "/api/test-sse"
  }

  /** ASCII letters folded to lower case, as a case-insensitive regular
      expression without the `u` flag compares them; other characters stay. */
  function LowerAscii(c: char): (d: char)
    ensures 'A' <= c <= 'Z' ==> d as int == c as int + 32
    ensures !('A' <= c <= 'Z') ==> d == c
  {
    if 'A' <= c <= 'Z' then (c as int + 32) as char else c
  }

  function Lower(s: string): (r: string)
    ensures |r| == |s|
    ensures forall i :: 0 <= i < |s| ==> r[i] == LowerAscii(s[i])
  {
    seq(|s|, i requires 0 <= i < |s| => LowerAscii(s[i]))
  }

  /** Express's default matching of a request path against a mounted path:
      case-insensitive, with one optional trailing slash. */
  predicate Matches(path: string, mount: string) {
    Lower(path) == mount || Lower(path) == mount + "/"
  }

  /** The route a `GET` path reaches, if any. */
  function RouteOf(path: string): (r: Option<Route>)
    ensures r.Some? ==> Matches(path, RoutePath(r.value))
    ensures r.None? ==> forall route :: !Matches(path, RoutePath(route))
  {
    if Matches(path, "/api/info") then Some(Info)
    else if Matches(path, "/api/summary") then Some(Summary)
    else if Matches(path, "/api/summary-sse") then Some(SummarySse)
    else if Matches(path, "/api/transcript") then Some(Transcript)
    else if Matches(path, "/api/test-sse") then Some(TestSse)
    else None
  }

  /** The routes mounted behind `requestQueueMiddleware`. */
  predicate Gated(r: Route) {
    r == Summary || r == SummarySse || r == Transcript
  }

  /** A request reaching a route: gated routes pass the middleware, the others go
      straight to their handler. */
  function Dispatch(s: State, route: Route, requestId: string, now: int, ip: Option<string>)
    : (r: (State, Admission))
    ensures !Gated(route) ==> r.0 == s && r.1 == Passed
    ensures r.1.Busy? <==> Gated(route) && |s.active| >= MaxConcurrentRequests
    ensures r.1.Busy? ==> r.0 == s
    ensures r.1.Admitted? ==>
      r.1.requestId == requestId && r.0 == s.(active := s.active[requestId := QueueEntry(now, IpOrUnknown(ip))])
  {
    if Gated(route) then Admit(s, requestId, now, ip) else (s, Passed)
  }

  /** Something that happens to the server. */
  datatype Event =
    | Arrive(route: Route, requestId: string, now: int, ip: Option<string>)
    | Respond(requestId: string)            // the response emits 'finish'
    | Start(listening: Instance)
    | Stop(closeError: Option<Thrown>)

  /** One event.  Only an arrival can add a slot, and only under its own id; no
      event takes the map past capacity. */
  function Step(s: State, e: Event): (r: State)
    ensures forall id :: id in r.active ==> id in s.active || (e.Arrive? && e.requestId == id)
    ensures e.Respond? ==> e.requestId !in r.active
    ensures |s.active| <= MaxConcurrentRequests ==> |r.active| <= MaxConcurrentRequests
  {
    match e
    case Arrive(route, id, now, ip) => Dispatch(s, route, id, now, ip).0
    case Respond(id) => Finish(s, id)
    case Start(inst) => StartServer(s, inst)
    case Stop(err) => StopServer(s, err).0
  }

  /** The state after a sequence of events, applied from the first.  Every slot
      it holds was held before or belongs to a request that arrived. */
  function RunEvents(s: State, events: seq<Event>): (r: State)
    ensures forall id :: id in r.active ==>
      id in s.active || exists k :: 0 <= k < |events| && events[k].Arrive? && events[k].requestId == id
    decreases |events|
  {
    if events == [] then s
    else
      var r := RunEvents(Step(s, events[0]), events[1..]);
      assert forall k :: 0 <= k < |events| - 1 ==> events[1..][k] == events[k + 1];
      r
  }
}

/** Properties of the server state across calls. */
module ServerProperties {
  import opened Base
  import opened Server

  /** Whatever happens, at most two requests hold a slot. */
  lemma {:induction false} CapacityNeverExceeded(s: State, events: seq<Event>)
    requires |s.active| <= MaxConcurrentRequests
    ensures |RunEvents(s, events).active| <= MaxConcurrentRequests
    decreases |events|
  {
    if events != [] {
      var s1 := Step(s, events[0]);
      match events[0] {
        case Arrive(route, id, now, ip) =>
        case Respond(id) =>
        case Start(inst) =>
        case Stop(err) =>
      }
      CapacityNeverExceeded(s1, events[1..]);
    }
  }

  /** Every reachable state holds at most two slots. */
  lemma ReachableWithinCapacity(events: seq<Event>)
    ensures |RunEvents(Initial, events).active| <= MaxConcurrentRequests
  {
    CapacityNeverExceeded(Initial, events);
  }

  /** A request whose response never finishes keeps its slot until a successful
      stop clears the map. */
  lemma {:induction false} UnfinishedRequestKeepsSlot(s: State, id: string, events: seq<Event>)
    requires id in s.active
    requires forall k :: 0 <= k < |events| ==> events[k] != Respond(id)
    requires forall k :: 0 <= k < |events| ==> !(events[k].Stop? && events[k].closeError.None?)
    ensures id in RunEvents(s, events).active
    decreases |events|
  {
    if events != [] {
      var s1 := Step(s, events[0]);
      match events[0] {
        case Arrive(route, rid, now, ip) =>
        case Respond(rid) =>
          assert events[0] != Respond(id);
        case Start(inst) =>
        case Stop(err) =>
          assert !(events[0].Stop? && events[0].closeError.None?);
      }
      assert id in s1.active;
      UnfinishedRequestKeepsSlot(s1, id, events[1..]);
    }
  }

  /** A gated request admitted under a fresh id adds exactly one slot; the
      status then reports one more active request. */
  lemma AdmissionAddsOneSlot(s: State, route: Route, id: string, now: int, ip: Option<string>)
    requires Gated(route) && |s.active| < MaxConcurrentRequests && id !in s.active
    ensures var r := Dispatch(s, route, id, now, ip);
      && r.1 == Admitted(id)
      && |r.0.active| == |s.active| + 1
      && r.0.active.Keys == s.active.Keys + {id}
  {
    var r := Dispatch(s, route, id, now, ip);
    assert r.0.active.Keys == s.active.Keys + {id};
  }

  /** At capacity every gated route is refused with 503, leaving the state as it
      was, while `/api/info` and `/api/test-sse` are still served. */
  lemma AtCapacity(s: State, id: string, now: int, ip: Option<string>)
    requires |s.active| >= MaxConcurrentRequests
    ensures forall route :: Gated(route) ==> Dispatch(s, route, id, now, ip) == (s, Busy(503, BusyMessage))
    ensures Dispatch(s, Info, id, now, ip) == (s, Passed)
    ensures Dispatch(s, TestSse, id, now, ip) == (s, Passed)
  {
  }

  /** A mounted path in lower case is unchanged by folding. */
  lemma LowerOfLowercase(s: string)
    requires forall i :: 0 <= i < |s| ==> !('A' <= s[i] <= 'Z')
    ensures Lower(s) == s
  {
  }

  /** Each route is found at its own path, and only the three processing
      routes are gated. */
  lemma RoutesRoundTrip(r: Route)
    ensures RouteOf(RoutePath(r)) == Some(r)
    ensures Gated(r) <==> r != Info && r != TestSse
  {
    LowerOfLowercase(RoutePath(r));
    match r {
      case Info =>
      case Summary =>
      case SummarySse =>
        assert RoutePath(r)[6] != "/api/transcript/"[6];
      case Transcript =>
      case TestSse =>
        assert RoutePath(r)[6] != "/api/summary/"[6];
    }
  }

  /** Express also routes a trailing slash and any letter case to the same
      handler: every spelling of `/api/summary`, the example endpoint the server
      logs among them, goes through admission. */
  lemma ExampleEndpointIsGated(p: string)
    requires Lower(p) == "/api/summary" || Lower(p) == "/api/summary/"
    ensures RouteOf(p) == Some(Summary)
    ensures Gated(Summary)
  {
  }

  /** Two such spellings. */
  lemma SummarySpellings()
    ensures RouteOf("/api/summary/") == Some(Summary)
    ensures RouteOf("/API/Summary") == Some(Summary)
  {
    LowerOfLowercase("/api/summary/");
    ExampleEndpointIsGated("/api/summary/");
    assert Lower("/API/Summary") == "/api/summary";
    ExampleEndpointIsGated("/API/Summary");
  }

  /** The status of any reachable state reports at most two active requests. */
  lemma StatusWithinCapacity(events: seq<Event>, port: int, url: string, uptime: int)
    ensures GetServerStatus(RunEvents(Initial, events), port, url, uptime).activeRequests <= MaxConcurrentRequests
  {
    ReachableWithinCapacity(events);
  }

  /** Finishing twice is the same as finishing once: `res.once` fires once and
      a removed key stays removed. */
  lemma FinishIsIdempotent(s: State, id: string)
    ensures Finish(Finish(s, id), id) == Finish(s, id)
  {
  }

  /** Start then a clean stop returns to the initial state; a second stop
      changes nothing. */
  lemma StartStopCycle(s: State, inst: Instance)
    requires s.instance.None?
    ensures var stopped := StopServer(StartServer(s, inst), None).0;
      && stopped == Initial
      && StopServer(stopped, None) == (stopped, Ok(()))
      && !GetServerStatus(stopped, 0, "", 0).running
      && GetServerStatus(stopped, 0, "", 0).activeRequests == 0
  {
  }

  /** Starting twice keeps the first instance. */
  lemma StartIsIdempotent(s: State, first: Instance, second: Instance)
    ensures StartServer(StartServer(s, first), second) == StartServer(s, first)
  {
  }
}
