/** The Option type every module uses for Java's nullable references. */
module Wrappers {

  datatype Option<+T> = None | Some(value: T)
}

/**
 * The tracing runtime the instrumentation drives, reduced to what the adapters
 * need from it: immutable trace contexts, a current-context slot with scopes that
 * restore the previous context when closed, a tracer that records the state of
 * every span it knows and the order in which spans were reported, the HTTP server
 * handler, and the bean factory the lazy adapters look their collaborators up in.
 * Identifier generation is a counter; sampling, wire formats and export are left
 * to the runtime.
 */
module Tracing {

  import opened Wrappers

  /** Identifiers of one span; a context never changes once made. */
  datatype TraceContext = TraceContext(traceId: nat, spanId: nat, parentId: Option<nat>)

  /** A span as the tracer's API hands it out: a handle on its context. */
  datatype Span = Span(context: TraceContext)

  /** An exception raised by application code or by a delegate. */
  datatype Throwable = Throwable(description: string)

  /** How a one-shot call (a filter chain, a delegate's Mono) ended. */
  datatype Outcome = Completed | Threw(error: Throwable)

  /** What the tracer has recorded about one span. */
  datatype SpanState = SpanState(
    context: TraceContext,
    name: string,
    started: bool,
    ended: bool,
    events: seq<string>,
    error: Option<Throwable>,
    tags: map<string, string>)

  /** The state of a span the tracer has recorded nothing about yet. */
  function Unrecorded(c: TraceContext): SpanState {
    SpanState(c, "", false, false, [], None, map[])
  }

  /** The context of the span numbered `id`: a child of `parent`, or the root of a new trace. */
  function ChildOf(parent: Option<TraceContext>, id: nat): TraceContext {
    match parent
    case Some(p) => TraceContext(p.traceId, id, Some(p.spanId))
    case None => TraceContext(id, id, None)
  }

  /** The identifier generator after the tracer has seen span id `id`. */
  function Bump(next: nat, id: nat): (r: nat)
    ensures next <= r && id < r
    ensures r == next || r == id + 1
  {
    if id < next then next else id + 1
  }

  /** The state a span reaches when it is finished with an optional error. */
  function Finished(st: SpanState, error: Option<Throwable>): (r: SpanState)
    ensures r.ended && r.context == st.context && r.name == st.name && r.started == st.started
    ensures r.events == st.events && r.tags == st.tags
    ensures r.error == if error.Some? then error else st.error
  {
    st.(ended := true, error := if error.Some? then error else st.error)
  }

  /** The holder of the context in effect for the running execution stream. */
  class CurrentTraceContext {
    var current: Option<TraceContext>

    constructor ()
      ensures current == None
    {
      current := None;
    }

    /** Makes `c` current; the returned scope restores what was current before. */
    method NewScope(c: Option<TraceContext>) returns (s: Scope)
      modifies this
      ensures fresh(s) && s.owner == this && !s.closed && !s.noop
      ensures s.previous == old(current) && current == c
    {
      s := new Scope(this, current, false);
      current := c;
    }

    /** Like NewScope, but returns a scope that does nothing when `c` is already current. */
    method MaybeScope(c: TraceContext) returns (s: Scope)
      modifies this
      ensures fresh(s) && s.owner == this && !s.closed
      ensures s.previous == old(current) && current == Some(c)
      ensures s.noop <==> old(current) == Some(c)
    {
      s := new Scope(this, current, current == Some(c));
      current := Some(c);
    }
  }

  /** One opening of a context on a CurrentTraceContext. */
  class Scope {
    const owner: CurrentTraceContext
    const previous: Option<TraceContext>
    const noop: bool
    var closed: bool

    constructor (owner: CurrentTraceContext, previous: Option<TraceContext>, noop: bool)
      ensures this.owner == owner && this.previous == previous && this.noop == noop
      ensures !closed
    {
      this.owner := owner;
      this.previous := previous;
      this.noop := noop;
      closed := false;
    }

    /** Restores the previous context; closing a second time changes nothing. */
    method Close()
      modifies this, owner
      ensures closed
      ensures owner.current == if old(closed) || noop then old(owner.current) else previous
    {
      if !closed && !noop {
        owner.current := previous;
      }
      closed := true;
    }
  }

  /** The span-recording side of the runtime. */
  class Tracer {
    const currentTraceContext: CurrentTraceContext
    /** What is recorded about each known span, by span id. */
    var spans: map<nat, SpanState>
    /** The next span id to hand out; every known id is below it. */
    var nextId: nat
    /** Every finished span, in the order it was reported to the exporter. */
    var reported: seq<TraceContext>

    constructor (currentTraceContext: CurrentTraceContext)
      ensures Valid() && this.currentTraceContext == currentTraceContext
      ensures spans == map[] && nextId == 0 && reported == []
    {
      this.currentTraceContext := currentTraceContext;
      spans := map[];
      nextId := 0;
      reported := [];
    }

    /**
     * Ids are fresh and keyed consistently, and a span is reported exactly when it
     * has ended, and then exactly once.
     */
    ghost predicate Valid()
      reads this
    {
      && (forall id | id in spans :: id < nextId && spans[id].context.spanId == id)
      && (forall i | 0 <= i < |reported| ::
            reported[i].spanId in spans && spans[reported[i].spanId].ended
            && spans[reported[i].spanId].context == reported[i])
      && (forall i, j | 0 <= i < j < |reported| :: reported[i].spanId != reported[j].spanId)
      && (forall id | id in spans && spans[id].ended :: spans[id].context in reported)
    }

    /** What is recorded about the span with context `c`. */
    function State(c: TraceContext): SpanState
      reads this
    {
      if c.spanId in spans then spans[c.spanId] else Unrecorded(c)
    }

    /** The span of the context in effect, if any. */
    function CurrentSpan(): (r: Option<Span>)
      reads this, currentTraceContext
      ensures r.Some? <==> currentTraceContext.current.Some?
      ensures r.Some? ==> r.value.context == currentTraceContext.current.value
    {
      match currentTraceContext.current
      case Some(c) => Some(Span(c))
      case None => None
    }

    /** A new, not yet started span: a child of `parent`, or a new trace without one. */
    method NewSpan(parent: Option<TraceContext>) returns (s: Span)
      requires Valid()
      modifies this
      ensures Valid()
      ensures s.context == ChildOf(parent, old(nextId))
      ensures spans == old(spans)[old(nextId) := Unrecorded(s.context)]
      ensures nextId == old(nextId) + 1 && reported == old(reported)
    {
      s := Span(ChildOf(parent, nextId));
      spans := spans[nextId := Unrecorded(s.context)];
      nextId := nextId + 1;
    }

    method Start(s: Span)
      requires Valid()
      modifies this
      ensures Valid()
      ensures spans == old(spans)[s.context.spanId := old(State(s.context)).(started := true)]
      ensures nextId == Bump(old(nextId), s.context.spanId) && reported == old(reported)
    {
      spans := spans[s.context.spanId := State(s.context).(started := true)];
      nextId := Bump(nextId, s.context.spanId);
    }

    method SetName(s: Span, name: string)
      requires Valid()
      modifies this
      ensures Valid()
      ensures spans == old(spans)[s.context.spanId := old(State(s.context)).(name := name)]
      ensures nextId == Bump(old(nextId), s.context.spanId) && reported == old(reported)
    {
      spans := spans[s.context.spanId := State(s.context).(name := name)];
      nextId := Bump(nextId, s.context.spanId);
    }

    method Tag(s: Span, tags: map<string, string>)
      requires Valid()
      modifies this
      ensures Valid()
      ensures spans == old(spans)[s.context.spanId := old(State(s.context)).(tags := old(State(s.context)).tags + tags)]
      ensures nextId == Bump(old(nextId), s.context.spanId) && reported == old(reported)
    {
      var st := State(s.context);
      spans := spans[s.context.spanId := st.(tags := st.tags + tags)];
      nextId := Bump(nextId, s.context.spanId);
    }

    method AddEvent(s: Span, event: string)
      requires Valid()
      modifies this
      ensures Valid()
      ensures spans == old(spans)[s.context.spanId := old(State(s.context)).(events := old(State(s.context)).events + [event])]
      ensures nextId == Bump(old(nextId), s.context.spanId) && reported == old(reported)
    {
      var st := State(s.context);
      spans := spans[s.context.spanId := st.(events := st.events + [event])];
      nextId := Bump(nextId, s.context.spanId);
    }

    method SetError(s: Span, e: Throwable)
      requires Valid()
      modifies this
      ensures Valid()
      ensures spans == old(spans)[s.context.spanId := old(State(s.context)).(error := Some(e))]
      ensures nextId == Bump(old(nextId), s.context.spanId) && reported == old(reported)
    {
      spans := spans[s.context.spanId := State(s.context).(error := Some(e))];
      nextId := Bump(nextId, s.context.spanId);
    }

    /** Ends the span and reports it, unless it has already ended: finishing is idempotent. */
    method Finish(s: Span)
      requires Valid()
      modifies this
      ensures Valid()
      ensures spans == old(spans)[s.context.spanId := Finished(old(State(s.context)), None)]
      ensures reported == old(reported) + (if old(State(s.context)).ended then [] else [old(State(s.context)).context])
      ensures nextId == Bump(old(nextId), s.context.spanId)
    {
      var st := State(s.context);
      spans := spans[s.context.spanId := Finished(st, None)];
      nextId := Bump(nextId, s.context.spanId);
      if !st.ended {
        reported := reported + [st.context];
      }
    }

    /** Makes the span's context current (or clears the current context for none). */
    method WithSpan(s: Option<Span>) returns (scope: Scope)
      modifies currentTraceContext
      ensures fresh(scope) && scope.owner == currentTraceContext && !scope.closed && !scope.noop
      ensures scope.previous == old(currentTraceContext.current)
      ensures currentTraceContext.current == if s.Some? then Some(s.value.context) else None
    {
      scope := currentTraceContext.NewScope(if s.Some? then Some(s.value.context) else None);
    }
  }

  /** The server side of the HTTP instrumentation the servlet filter calls into. */
  class HttpServerHandler {
    const tracer: Tracer

    constructor (tracer: Tracer)
      ensures this.tracer == tracer
    {
      this.tracer := tracer;
    }

    /**
     * Starts the server span of a request whose headers yielded `extracted`
     * (the extraction itself belongs to the propagator).
     */
    method HandleReceive(extracted: Option<TraceContext>) returns (s: Span)
      requires tracer.Valid()
      modifies tracer
      ensures tracer.Valid()
      ensures s.context == ChildOf(extracted, old(tracer.nextId))
      ensures tracer.spans == old(tracer.spans)[s.context.spanId := Unrecorded(s.context).(started := true)]
      ensures tracer.nextId == old(tracer.nextId) + 1 && tracer.reported == old(tracer.reported)
    {
      s := tracer.NewSpan(extracted);
      tracer.Start(s);
    }

    /** Records the response's error, if any, and finishes the span. */
    method HandleSend(error: Option<Throwable>, s: Span)
      requires tracer.Valid()
      modifies tracer
      ensures tracer.Valid()
      ensures tracer.spans == old(tracer.spans)[s.context.spanId := Finished(old(tracer.State(s.context)), error)]
      ensures tracer.reported == old(tracer.reported)
                                 + (if old(tracer.State(s.context)).ended then [] else [old(tracer.State(s.context)).context])
      ensures tracer.nextId == Bump(old(tracer.nextId), s.context.spanId)
    {
      if error.Some? {
        tracer.SetError(s, error.value);
      }
      tracer.Finish(s);
    }
  }

  /** The JMS instrumentation object the lazy JMS wrappers look up. */
  datatype JmsTracing = JmsTracing(id: nat)

  /** The beans the lazy adapters look up on first use. */
  class BeanFactory {
    const tracer: Tracer
    const serverHandler: HttpServerHandler
    const jmsTracing: JmsTracing

    constructor (tracer: Tracer, serverHandler: HttpServerHandler, jmsTracing: JmsTracing)
      ensures this.tracer == tracer && this.serverHandler == serverHandler && this.jmsTracing == jmsTracing
    {
      this.tracer := tracer;
      this.serverHandler := serverHandler;
      this.jmsTracing := jmsTracing;
    }

    /** The beans agree: the server handler drives the tracer the factory hands out. */
    ghost predicate Valid()
      reads this
    {
      serverHandler.tracer == tracer
    }
  }
}
