/** Event routing with fallbacks, and the configuration that wires it. */
module Composite {
  import opened Common

  type BackendId = nat
  type Error = nat
  type Entity = nat

  /** Backends are shared objects: the same id may stand in many routes. */
  datatype Route = Route(backend: BackendId, entities: set<Entity>, fallback: Option<BackendId>)

  datatype Event = Event(entity: Entity, payload: nat)

  datatype Operation = Persist(event: Event) | Flush | Shutdown

  datatype Call = Call(backend: BackendId, op: Operation, error: Option<Error>)

  /** What a backend answers may depend on everything that was called before. */
  type World = (seq<Call>, BackendId, Operation) -> Option<Error>

  function Invoke(world: World, log: seq<Call>, b: BackendId, op: Operation): Call {
    Call(b, op, world(log, b, op))
  }

  function CallsOf(world: World, log: seq<Call>, r: Route, e: Event): seq<Call> {
    if e.entity !in r.entities then []
    else
      var primary := Invoke(world, log, r.backend, Persist(e));
      if primary.error.None? || r.fallback.None? then [primary]
      else [primary, Invoke(world, log + [primary], r.fallback.value, Persist(e))]
  }

  /** All calls of one `persist_event`, in order. */
  function Calls(world: World, log: seq<Call>, routes: seq<Route>, e: Event): seq<Call>
    decreases |routes|
  {
    if routes == [] then []
    else
      var now := CallsOf(world, log, routes[0], e);
      now + Calls(world, log + now, routes[1..], e)
  }

  // ----------------------------------------------------- reading a trace of calls

  /** Each call is of the given operation and answered by the world as it was then. */
  ghost predicate Honest(world: World, log: seq<Call>, calls: seq<Call>, op: Operation) {
    forall i :: 0 <= i < |calls| ==> calls[i].op == op && calls[i].error == world(log + calls[..i], calls[i].backend, op)
  }

  /** The route's primary was called, answered an error, and a fallback exists. */
  ghost predicate FallsBack(r: Route, calls: seq<Call>) {
    calls != [] && calls[0].error.Some? && r.fallback.Some?
  }

  /** The calls are those of the matching routes in order: the primary, and directly
      after a primary that answered an error the route's fallback, if it has one. */
  ghost predicate Traces(routes: seq<Route>, calls: seq<Call>, e: Event)
    decreases |routes|
  {
    if routes == [] then calls == []
    else if e.entity !in routes[0].entities then Traces(routes[1..], calls, e)
    else
      && calls != [] && calls[0].backend == routes[0].backend
      && if FallsBack(routes[0], calls) then
           |calls| >= 2 && calls[1].backend == routes[0].fallback.value && Traces(routes[1..], calls[2..], e)
         else Traces(routes[1..], calls[1..], e)
  }

  /** The errors that fallbacks answered, in order. */
  ghost function SecondErrors(routes: seq<Route>, calls: seq<Call>, e: Event): seq<Error>
    requires Traces(routes, calls, e)
    decreases |routes|
  {
    if routes == [] then []
    else if e.entity !in routes[0].entities then SecondErrors(routes[1..], calls, e)
    else if FallsBack(routes[0], calls) then
      (if calls[1].error.Some? then [calls[1].error.value] else []) + SecondErrors(routes[1..], calls[2..], e)
    else SecondErrors(routes[1..], calls[1..], e)
  }

  /** Matching routes with this primary. */
  function AsPrimary(routes: seq<Route>, e: Event, b: BackendId): nat {
    if routes == [] then 0
    else (if e.entity in routes[0].entities && routes[0].backend == b then 1 else 0) + AsPrimary(routes[1..], e, b)
  }

  /** Matching routes with this fallback whose primary call in the trace failed. */
  ghost function AsFallback(routes: seq<Route>, calls: seq<Call>, e: Event, b: BackendId): nat
    requires Traces(routes, calls, e)
    decreases |routes|
  {
    if routes == [] then 0
    else if e.entity !in routes[0].entities then AsFallback(routes[1..], calls, e, b)
    else if FallsBack(routes[0], calls) then
      (if routes[0].fallback.value == b then 1 else 0) + AsFallback(routes[1..], calls[2..], e, b)
    else AsFallback(routes[1..], calls[1..], e, b)
  }

  function Count(calls: seq<Call>, b: BackendId): nat {
    if calls == [] then 0 else Count(calls[..|calls| - 1], b) + if calls[|calls| - 1].backend == b then 1 else 0
  }

  lemma {:induction false} CountAppend(a: seq<Call>, c: seq<Call>, b: BackendId)
    ensures Count(a + c, b) == Count(a, b) + Count(c, b)
    decreases |c|
  {
    if c == [] {
      assert a + c == a;
    } else {
      var n := |c| - 1;
      CountAppend(a, c[..n], b);
      assert (a + c)[..|a + c| - 1] == a + c[..n];
    }
  }

  /** What one route calls, naming the world alone. */
  lemma RouteCalls(world: World, log: seq<Call>, r: Route, e: Event)
    ensures
      var error := world(log, r.backend, Persist(e));
      var primary := Call(r.backend, Persist(e), error);
      CallsOf(world, log, r, e)
      == if e.entity !in r.entities then []
         else if error.Some? && r.fallback.Some? then
           [primary, Call(r.fallback.value, Persist(e), world(log + [primary], r.fallback.value, Persist(e)))]
         else [primary]
  {
  }

  lemma HonestAppend(world: World, log: seq<Call>, a: seq<Call>, b: seq<Call>, op: Operation)
    requires Honest(world, log, a, op) && Honest(world, log + a, b, op)
    ensures Honest(world, log, a + b, op)
  {
    forall i | 0 <= i < |a + b|
      ensures (a + b)[i].op == op && (a + b)[i].error == world(log + (a + b)[..i], (a + b)[i].backend, op)
    {
      if i < |a| {
        assert (a + b)[..i] == a[..i];
      } else {
        assert log + (a + b)[..i] == log + a + b[..i - |a|];
      }
    }
  }

  lemma RouteIsHonest(world: World, log: seq<Call>, r: Route, e: Event)
    ensures Honest(world, log, CallsOf(world, log, r, e), Persist(e))
  {
    var calls := CallsOf(world, log, r, e);
    if calls != [] {
      assert calls[..0] == [] && log + [] == log;
      assert |calls| == 2 ==> calls[..1] == [calls[0]];
    }
  }

  lemma UnfoldRoutes(world: World, log: seq<Call>, routes: seq<Route>, e: Event)
    requires routes != []
    ensures
      var now := CallsOf(world, log, routes[0], e);
      Calls(world, log, routes, e) == now + Calls(world, log + now, routes[1..], e)
  {
  }

  /** What a route adds to the second errors, and to the count of a fallback. */
  ghost function ErrorsOf(now: seq<Call>): seq<Error> {
    if |now| == 2 && now[1].error.Some? then [now[1].error.value] else []
  }

  lemma TraceStep(world: World, log: seq<Call>, routes: seq<Route>, e: Event, more: seq<Call>)
    requires routes != [] && Traces(routes[1..], more, e)
    ensures
      var now := CallsOf(world, log, routes[0], e);
      && Traces(routes, now + more, e)
      && SecondErrors(routes, now + more, e) == ErrorsOf(now) + SecondErrors(routes[1..], more, e)
      && (forall b :: AsFallback(routes, now + more, e, b)
                      == (if |now| == 2 && now[1].backend == b then 1 else 0) + AsFallback(routes[1..], more, e, b))
  {
    var now := CallsOf(world, log, routes[0], e);
    if now == [] {
      assert now + more == more;
    } else if |now| == 1 {
      assert (now + more)[1..] == more;
    } else {
      assert (now + more)[2..] == more;
    }
  }

  /** The calls of `persist_event` are an honest trace of the routes. */
  lemma {:induction false} CallsTrace(world: World, log: seq<Call>, routes: seq<Route>, e: Event)
    ensures Traces(routes, Calls(world, log, routes, e), e) && Honest(world, log, Calls(world, log, routes, e), Persist(e))
    decreases |routes|
  {
    if routes != [] {
      var now := CallsOf(world, log, routes[0], e);
      hide CallsOf, Honest, Traces;
      CallsTrace(world, log + now, routes[1..], e);
      UnfoldRoutes(world, log, routes, e);
      TraceStep(world, log, routes, e, Calls(world, log + now, routes[1..], e));
      RouteIsHonest(world, log, routes[0], e);
      HonestAppend(world, log, now, Calls(world, log + now, routes[1..], e), Persist(e));
    }
  }

  lemma CountOne(world: World, log: seq<Call>, r: Route, e: Event, b: BackendId)
    ensures
      var now := CallsOf(world, log, r, e);
      Count(now, b) == (if e.entity in r.entities && r.backend == b then 1 else 0)
                       + (if |now| == 2 && now[1].backend == b then 1 else 0)
  {
    var calls := CallsOf(world, log, r, e);
    if |calls| == 1 {
      assert calls[..0] == [];
    } else if |calls| == 2 {
      assert calls[..1] == [calls[0]] && [calls[0]][..0] == [];
      assert Count([calls[0]], b) == if calls[0].backend == b then 1 else 0;
    }
  }

  /** Whatever the backends answer and however they are shared, each receives the
      event once per matching route where it is primary, plus once per matching
      route where it is the fallback and the primary call failed. */
  lemma {:induction false} DeliveriesAreCounted(world: World, log: seq<Call>, routes: seq<Route>, e: Event, b: BackendId)
    ensures Traces(routes, Calls(world, log, routes, e), e)
    ensures Count(Calls(world, log, routes, e), b)
         == AsPrimary(routes, e, b) + AsFallback(routes, Calls(world, log, routes, e), e, b)
    decreases |routes|
  {
    CallsTrace(world, log, routes, e);
    if routes != [] {
      var now := CallsOf(world, log, routes[0], e);
      var more := Calls(world, log + now, routes[1..], e);
      UnfoldRoutes(world, log, routes, e);
      hide Calls, CallsOf, Traces, Honest;
      DeliveriesAreCounted(world, log + now, routes[1..], e, b);
      TraceStep(world, log, routes, e, more);
      CountAppend(now, more, b);
      CountOne(world, log, routes[0], e, b);
    }
  }

  // -------------------------------------------------------- flush and shutdown

  /** Every primary and every fallback is called, whatever they answer. */
  function Broadcast(world: World, log: seq<Call>, routes: seq<Route>, op: Operation): seq<Call>
    decreases |routes|
  {
    if routes == [] then []
    else
      var now := BroadcastOne(world, log, routes[0], op);
      now + Broadcast(world, log + now, routes[1..], op)
  }

  function BroadcastOne(world: World, log: seq<Call>, r: Route, op: Operation): seq<Call> {
    var primary := Invoke(world, log, r.backend, op);
    if r.fallback.None? then [primary] else [primary, Invoke(world, log + [primary], r.fallback.value, op)]
  }

  function LastError(calls: seq<Call>): (e: Option<Error>)
    ensures e.None? <==> forall c <- calls :: c.error.None?
  {
    if calls == [] then None
    else
      var n := |calls| - 1;
      if calls[n].error.Some? then calls[n].error else LastError(calls[..n])
  }

  lemma {:induction false} LastErrorAppend(a: seq<Call>, b: seq<Call>)
    ensures LastError(a + b) == if LastError(b).Some? then LastError(b) else LastError(a)
    decreases |b|
  {
    if b == [] {
      assert a + b == a;
    } else {
      var n := |b| - 1;
      LastErrorAppend(a, b[..n]);
      assert (a + b)[..|a + b| - 1] == a + b[..n];
    }
  }

  lemma LastErrorOf(calls: seq<Call>)
    ensures |calls| == 1 ==> LastError(calls) == calls[0].error
    ensures |calls| == 2 ==> LastError(calls) == if calls[1].error.Some? then calls[1].error else calls[0].error
  {
    if |calls| > 0 {
      assert calls[..|calls| - 1][..0] == [] || |calls| == 1;
    }
  }

  /** How often a backend stands in the routes, as primary or as fallback. */
  function Mentions(routes: seq<Route>, b: BackendId): nat {
    if routes == [] then 0
    else (if routes[0].backend == b then 1 else 0) + (if routes[0].fallback == Some(b) then 1 else 0) + Mentions(routes[1..], b)
  }

  /** Primaries and fallbacks in the order of the routes. */
  function Mentioned(routes: seq<Route>): seq<BackendId> {
    if routes == [] then []
    else [routes[0].backend] + (if routes[0].fallback.Some? then [routes[0].fallback.value] else []) + Mentioned(routes[1..])
  }

  function BackendsOf(calls: seq<Call>): (bs: seq<BackendId>)
    ensures |bs| == |calls| && forall i :: 0 <= i < |calls| ==> bs[i] == calls[i].backend
  {
    seq(|calls|, i requires 0 <= i < |calls| => calls[i].backend)
  }

  /** Flush and shutdown call exactly these, in this order, with their own operation. */
  lemma {:induction false} BroadcastTrace(world: World, log: seq<Call>, routes: seq<Route>, op: Operation)
    ensures BackendsOf(Broadcast(world, log, routes, op)) == Mentioned(routes)
    ensures Honest(world, log, Broadcast(world, log, routes, op), op)
    decreases |routes|
  {
    if routes != [] {
      var now := BroadcastOne(world, log, routes[0], op);
      var more := Broadcast(world, log + now, routes[1..], op);
      BroadcastTrace(world, log + now, routes[1..], op);
      assert now[..0] == [] && log + [] == log && now[..1] == [now[0]];
      assert Honest(world, log, now, op);
      HonestAppend(world, log, now, more, op);
      assert BackendsOf(now + more) == BackendsOf(now) + BackendsOf(more);
      assert BackendsOf(now) == [routes[0].backend] + if routes[0].fallback.Some? then [routes[0].fallback.value] else [];
    }
  }

  /** A shared backend is flushed, or shut down, once per mention. */
  lemma {:induction false} BroadcastIsCounted(world: World, log: seq<Call>, routes: seq<Route>, op: Operation, b: BackendId)
    ensures Count(Broadcast(world, log, routes, op), b) == Mentions(routes, b)
    decreases |routes|
  {
    if routes != [] {
      var r, now := routes[0], BroadcastOne(world, log, routes[0], op);
      BroadcastIsCounted(world, log + now, routes[1..], op, b);
      CountAppend(now, Broadcast(world, log + now, routes[1..], op), b);
      assert now[..1] == [now[0]] && [now[0]][..0] == [];
      assert Count([now[0]], b) == if r.backend == b then 1 else 0;
    }
  }

  lemma NoRoutes(world: World, log: seq<Call>, e: Event)
    ensures Calls(world, log, [], e) == [] && Traces([], [], e) && SecondErrors([], [], e) == []
  {
  }

  lemma RestOfRoutes(world: World, log: seq<Call>, routes: seq<Route>, i: nat, e: Event)
    requires i < |routes|
    ensures
      var now := CallsOf(world, log, routes[i], e);
      var more := Calls(world, log + now, routes[i + 1..], e);
      && Calls(world, log, routes[i..], e) == now + more
      && Traces(routes[i..], now + more, e) && Traces(routes[i + 1..], more, e)
      && SecondErrors(routes[i..], now + more, e) == ErrorsOf(now) + SecondErrors(routes[i + 1..], more, e)
  {
    var rest := routes[i..];
    assert rest[0] == routes[i] && rest[1..] == routes[i + 1..];
    var now := CallsOf(world, log, routes[i], e);
    UnfoldRoutes(world, log, rest, e);
    CallsTrace(world, log + now, routes[i + 1..], e);
    TraceStep(world, log, rest, e, Calls(world, log + now, routes[i + 1..], e));
  }

  // ----------------------------------------------------------------- the object

  class CompositeBackend {
    const routes: seq<Route>
    const world: World
    var log: seq<Call>      // every call made to a child backend

    constructor (routes: seq<Route>, world: World)
      ensures this.routes == routes && this.world == world && log == []
    {
      this.routes, this.world := routes, world;
      log := [];
    }

    /** One route of `persist_event`. */
    method TryRoute(route: Route, e: Event) returns (loss: Option<Error>)
      modifies this`log
      ensures log == old(log) + CallsOf(world, old(log), route, e)
      ensures ErrorsOf(CallsOf(world, old(log), route, e)) == if loss.Some? then [loss.value] else []
    {
      loss := None;
      if e.entity !in route.entities {
        return;
      }
      var primary := Invoke(world, log, route.backend, Persist(e));
      log := log + [primary];
      if primary.error.Some? && route.fallback.Some? {
        var second := Invoke(world, log, route.fallback.value, Persist(e));
        assert old(log) + [primary, second] == log + [second];
        log := log + [second];
        loss := second.error;
      }
    }

    /** Every matching route is tried, with its fallback when the primary answers an
        error; the result is an error exactly when some fallback answered one too,
        namely the last such error. */
    method PersistEvent(e: Event) returns (result: Result<(), Error>, ghost calls: seq<Call>)
      modifies this`log
      ensures log == old(log) + calls && calls == Calls(world, old(log), routes, e)
      ensures Traces(routes, calls, e) && Honest(world, old(log), calls, Persist(e))
      ensures
        var errors := SecondErrors(routes, calls, e);
        if errors == [] then result.Ok? else result == Err(errors[|errors| - 1])
    {
      hide CallsOf, Calls, SecondErrors, Traces, Honest, ErrorsOf;
      var lastError: Option<Error> := None;
      calls := Calls(world, log, routes, e);
      CallsTrace(world, log, routes, e);
      ghost var errors: seq<Error> := [];
      assert routes[0..] == routes;
      for i := 0 to |routes|
        invariant Traces(routes[i..], Calls(world, log, routes[i..], e), e)
        invariant log + Calls(world, log, routes[i..], e) == old(log) + calls
        invariant errors + SecondErrors(routes[i..], Calls(world, log, routes[i..], e), e) == SecondErrors(routes, calls, e)
        invariant if errors == [] then lastError.None? else lastError == Some(errors[|errors| - 1])
      {
        ghost var now := CallsOf(world, log, routes[i], e);
        ghost var more := Calls(world, log + now, routes[i + 1..], e);
        RestOfRoutes(world, log, routes, i, e);
        var loss := TryRoute(routes[i], e);
        if loss.Some? {
          lastError := loss;
        }
        errors := errors + ErrorsOf(now);
      }
      assert routes[|routes|..] == [];
      NoRoutes(world, log, e);
      result := if lastError.Some? then Err(lastError.value) else Ok(());
    }

    /** One route of `flush` and `shutdown`. */
    method CallRoute(route: Route, op: Operation) returns (error: Option<Error>)
      modifies this`log
      ensures log == old(log) + BroadcastOne(world, old(log), route, op)
      ensures error == LastError(BroadcastOne(world, old(log), route, op))
    {
      LastErrorOf(BroadcastOne(world, log, route, op));
      var primary := Invoke(world, log, route.backend, op);
      log := log + [primary];
      error := primary.error;
      if route.fallback.Some? {
        var second := Invoke(world, log, route.fallback.value, op);
        assert old(log) + [primary, second] == log + [second];
        log := log + [second];
        if second.error.Some? {
          error := second.error;
        }
      }
    }

    /** `flush` and `shutdown`. */
    method CallAll(op: Operation) returns (result: Result<(), Error>)
      modifies this`log
      ensures log == old(log) + Broadcast(world, old(log), routes, op)
      ensures result.Err? <==> exists c :: c in Broadcast(world, old(log), routes, op) && c.error.Some?
      ensures result.Err? ==> LastError(Broadcast(world, old(log), routes, op)) == Some(result.error)
    {
      hide BroadcastOne;
      var lastError: Option<Error> := None;
      ghost var calls: seq<Call> := [];
      for i := 0 to |routes|
        invariant log == old(log) + calls
        invariant calls + Broadcast(world, log, routes[i..], op) == Broadcast(world, old(log), routes, op)
        invariant lastError == LastError(calls)
      {
        ghost var now := BroadcastOne(world, log, routes[i], op);
        assert routes[i..][0] == routes[i] && routes[i..][1..] == routes[i + 1..];
        LastErrorAppend(calls, now);
        var error := CallRoute(routes[i], op);
        if error.Some? {
          lastError := error;
        }
        assert log == old(log) + (calls + now);
        calls := calls + now;
      }
      assert calls == Broadcast(world, old(log), routes, op);
      result := if lastError.Some? then Err(lastError.value) else Ok(());
    }
  }
}

/** How the pool's configuration becomes routes, and the filter in front of them. */
module PersistenceConfig {
  import opened Common
  import opened Composite

  datatype BackendConfig = BackendConfig(entities: seq<string>, fallback: Option<string>)

  datatype ConfigError = BackendFailed | NoBackends | FallbackNotFound

  datatype Persistence = Persistence(routes: seq<Route>, enabled: set<Entity>)

  type Parser = string -> Option<Entity>

  /** Unknown names are skipped. */
  function Parsed(parse: Parser, names: seq<string>): set<Entity> {
    set n | n in names && parse(n).Some? :: parse(n).value
  }

  /** The configured sections by name; the backend of "file" is 0, of "metrics" 1. */
  function Sections(file: Option<BackendConfig>, metrics: Option<BackendConfig>): map<string, BackendConfig> {
    (if file.Some? then map["file" := file.value] else map[])
    + (if metrics.Some? then map["metrics" := metrics.value] else map[])
  }

  function IdOf(name: string): BackendId {
    if name == "file" then 0 else 1
  }

  /** The sections that are there, each with its own backend, and the entities whose
      names parse. */
  lemma SectionsAre(file: Option<BackendConfig>, metrics: Option<BackendConfig>, parse: Parser, names: seq<string>, e: Entity)
    ensures
      var sections := Sections(file, metrics);
      && (forall n :: n in sections <==> (n == "file" && file.Some?) || (n == "metrics" && metrics.Some?))
      && (file.Some? ==> sections["file"] == file.value) && (metrics.Some? ==> sections["metrics"] == metrics.value)
      && IdOf("file") != IdOf("metrics")
      && (e in Parsed(parse, names) <==> exists n :: n in names && parse(n) == Some(e))
  {
    assert "file"[0] != "metrics"[0];
  }

  predicate FallbacksExist(sections: map<string, BackendConfig>) {
    forall n <- sections :: sections[n].fallback.Some? ==> sections[n].fallback.value in sections
  }

  ghost function RouteOf(parse: Parser, name: string, c: BackendConfig): Route {
    Route(IdOf(name), Parsed(parse, c.entities), if c.fallback.Some? then Some(IdOf(c.fallback.value)) else None)
  }

  /** One route per section, in some order of the sections. */
  ghost predicate Wired(parse: Parser, sections: map<string, BackendConfig>, names: seq<string>, routes: seq<Route>) {
    && |names| == |routes|
    && (forall i :: 0 <= i < |names| ==> names[i] in sections && routes[i] == RouteOf(parse, names[i], sections[names[i]]))
    && (forall i, j :: 0 <= i < j < |names| ==> names[i] != names[j])
  }

  /** The route loop, over the sections in whatever order the map yields them. */
  method BuildRoutes(parse: Parser, sections: map<string, BackendConfig>)
    returns (routes: Result<seq<Route>, ConfigError>, ghost names: seq<string>)
    ensures routes.Ok? <==> FallbacksExist(sections)
    ensures routes.Ok? ==> Wired(parse, sections, names, routes.value) && forall n <- sections :: n in names
    ensures routes.Err? ==> routes.error == FallbackNotFound
  {
    var built: seq<Route> := [];
    names := [];
    var todo := sections.Keys;
    while todo != {}
      invariant todo <= sections.Keys && Wired(parse, sections, names, built)
      invariant forall n <- sections :: n in names <==> n !in todo
      invariant forall n <- names :: sections[n].fallback.Some? ==> sections[n].fallback.value in sections
      decreases |todo|
    {
      var name :| name in todo;
      var c := sections[name];
      var fallback: Option<BackendId> := None;
      if c.fallback.Some? {
        if c.fallback.value !in sections {
          return Err(FallbackNotFound), names;
        }
        fallback := Some(IdOf(c.fallback.value));
      }
      built := built + [Route(IdOf(name), Parsed(parse, c.entities), fallback)];
      names := names + [name];
      todo := todo - {name};
    }
    routes := Ok(built);
  }

  /** The entities that some section names. */
  ghost predicate Named(parse: Parser, sections: map<string, BackendConfig>, e: Entity) {
    exists n :: n in sections && e in Parsed(parse, sections[n].entities)
  }

  /** One route for every section, and the named entities enabled, no others. */
  ghost predicate Configured(parse: Parser, sections: map<string, BackendConfig>, names: seq<string>, p: Persistence) {
    && Wired(parse, sections, names, p.routes)
    && (forall n <- sections :: n in names)
    && (forall e :: e in p.enabled <==> Named(parse, sections, e))
  }

  /** The exact outcome of `into_persistence`: a backend that cannot be built, no
      section at all, a fallback that names no section, or the wired routes. */
  method IntoPersistence(parse: Parser, file: Option<BackendConfig>, metrics: Option<BackendConfig>,
                         fileOk: bool, metricsOk: bool)
    returns (r: Result<Persistence, ConfigError>, ghost names: seq<string>)
    ensures
      var sections := Sections(file, metrics);
      if (file.Some? && !fileOk) || (metrics.Some? && !metricsOk) then r == Err(BackendFailed)
      else if sections == map[] then r == Err(NoBackends)
      else if !FallbacksExist(sections) then r == Err(FallbackNotFound)
      else r.Ok? && Configured(parse, sections, names, r.value)
    ensures r.Ok? ==> Routed(r.value)
  {
    names := [];
    var sections: map<string, BackendConfig> := map[];
    var all: set<Entity> := {};
    if file.Some? {
      if !fileOk {
        return Err(BackendFailed), names;
      }
      sections := sections["file" := file.value];
      all := all + Parsed(parse, file.value.entities);
    }
    if metrics.Some? {
      if !metricsOk {
        return Err(BackendFailed), names;
      }
      sections := sections["metrics" := metrics.value];
      all := all + Parsed(parse, metrics.value.entities);
    }
    assert sections == Sections(file, metrics);
    if sections == map[] {
      return Err(NoBackends), names;
    }
    var built;
    built, names := BuildRoutes(parse, sections);
    if built.Err? {
      return Err(built.error), names;
    }
    r := Ok(Persistence(built.value, all));
    forall e ensures e in all <==> Named(parse, sections, e) {
      if file.Some? && e in Parsed(parse, file.value.entities) {
        assert "file" in sections;
      } else if metrics.Some? && e in Parsed(parse, metrics.value.entities) {
        assert "metrics" in sections;
      }
    }
    ConfiguredIsRouted(parse, sections, names, r.value);
  }

  lemma ConfiguredIsRouted(parse: Parser, sections: map<string, BackendConfig>, names: seq<string>, p: Persistence)
    requires Configured(parse, sections, names, p)
    ensures Routed(p)
  {
    forall e | e in p.enabled ensures exists i :: 0 <= i < |p.routes| && e in p.routes[i].entities {
      assert Named(parse, sections, e);
      var n :| n in sections && e in Parsed(parse, sections[n].entities);
      var i :| 0 <= i < |names| && names[i] == n;
      assert e in p.routes[i].entities;
    }
  }

  /** Every enabled entity has a route. */
  ghost predicate Routed(p: Persistence) {
    forall e <- p.enabled :: exists i :: 0 <= i < |p.routes| && e in p.routes[i].entities
  }

  /** `persist`: the calls an event causes, none when its entity is not enabled. */
  function PersistCalls(p: Persistence, world: World, log: seq<Call>, e: Event): seq<Call> {
    if e.entity in p.enabled then Calls(world, log, p.routes, e) else []
  }

  lemma {:induction false} MatchingRouteCalls(world: World, log: seq<Call>, routes: seq<Route>, e: Event, i: nat)
    requires i < |routes| && e.entity in routes[i].entities
    ensures AsPrimary(routes, e, routes[i].backend) > 0
    decreases |routes|
  {
    if i > 0 {
      MatchingRouteCalls(world, log, routes[1..], e, i - 1);
    }
  }

  lemma NoCalls(b: BackendId)
    ensures Count([], b) == 0
  {
  }

  /** With routes built from a configuration, an event reaches some backend
      exactly when its entity is enabled. */
  lemma EnabledIffDelivered(p: Persistence, world: World, log: seq<Call>, e: Event)
    requires Routed(p)
    ensures PersistCalls(p, world, log, e) != [] <==> e.entity in p.enabled
  {
    if e.entity in p.enabled {
      var i :| 0 <= i < |p.routes| && e.entity in p.routes[i].entities;
      var b := p.routes[i].backend;
      MatchingRouteCalls(world, log, p.routes, e, i);
      DeliveriesAreCounted(world, log, p.routes, e, b);
      NoCalls(b);
    }
  }

  /** An event reaches some backend exactly when a section of the configuration
      names its entity. */
  lemma ConfiguredIffDelivered(parse: Parser, sections: map<string, BackendConfig>, names: seq<string>,
                               p: Persistence, world: World, log: seq<Call>, e: Event)
    requires Configured(parse, sections, names, p)
    ensures PersistCalls(p, world, log, e) != [] <==> Named(parse, sections, e.entity)
  {
    ConfiguredIsRouted(parse, sections, names, p);
    EnabledIffDelivered(p, world, log, e);
  }
}
