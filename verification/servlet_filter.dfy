/**
 * The servlet filter that gives every incoming HTTP request a server span:
 * a request that already carries a trace context is only re-scoped; any other
 * request gets exactly one new span, published in three request attributes,
 * made current while the rest of the chain runs, and finished once — unless the
 * request went asynchronous, in which case finishing is deferred.
 */
module ServletFilter {

  import opened Wrappers
  import opened Tracing

  /** Request attribute names: the class names of the published types. */
  const SPAN_CUSTOMIZER_KEY := "io.micrometer.tracing.SpanCustomizer"
  const TRACE_CONTEXT_KEY := "io.micrometer.tracing.TraceContext"
  const SEND_HANDLED_KEY := "io.micrometer.tracing.instrument.web.servlet.TracingFilter$SendHandled"

  /** The exception a cast of a foreign attribute value to TraceContext raises. */
  const CLASS_CAST := Throwable("java.lang.ClassCastException")

  /** A request attribute value, by the type the filter sees it as. */
  datatype Attribute =
    | SpanCustomizerAttribute(span: Span)
    | TraceContextAttribute(context: TraceContext)
    | SendHandledAttribute(flag: SendHandled)
    | OtherAttribute(value: string)

  /** The once-flag stored on the request so that the span is handed to handleSend only once. */
  class SendHandled {
    var handled: bool

    constructor ()
      ensures !handled
    {
      handled := false;
    }

    method CompareAndSet(expected: bool, update: bool) returns (swapped: bool)
      modifies this
      ensures swapped == (old(handled) == expected)
      ensures handled == if swapped then update else old(handled)
    {
      swapped := handled == expected;
      if swapped {
        handled := update;
      }
    }
  }

  class ServletRequest {
    var attributes: map<string, Attribute>
    /** What the propagator extracts from this request's headers. */
    const extracted: Option<TraceContext>

    constructor (attributes: map<string, Attribute>, extracted: Option<TraceContext>)
      ensures this.attributes == attributes && this.extracted == extracted
    {
      this.attributes := attributes;
      this.extracted := extracted;
    }
  }

  /** What the rest of the filter chain does: how it ends and whether it started async processing. */
  datatype Chain = Chain(outcome: Outcome, startsAsync: bool)

  /** What code downstream of the filter observes while the chain runs. */
  datatype ChainView = ChainView(current: Option<TraceContext>, attributes: map<string, Attribute>)

  /** The error the chain threw, if any. */
  function ErrorOf(o: Outcome): Option<Throwable> {
    if o.Threw? then Some(o.error) else None
  }

  /** Reading the trace-context attribute and casting it to TraceContext. */
  datatype ContextLookup = Absent | Found(context: TraceContext) | NotAContext

  function StoredContext(attributes: map<string, Attribute>): (r: ContextLookup)
    ensures r.Absent? <==> TRACE_CONTEXT_KEY !in attributes
    ensures r.Found? <==> TRACE_CONTEXT_KEY in attributes && attributes[TRACE_CONTEXT_KEY].TraceContextAttribute?
    ensures r.Found? ==> r.context == attributes[TRACE_CONTEXT_KEY].context
  {
    if TRACE_CONTEXT_KEY !in attributes then Absent
    else match attributes[TRACE_CONTEXT_KEY]
      case TraceContextAttribute(c) => Found(c)
      case _ => NotAContext
  }

  /** The attributes a fresh request carries once the filter has published its span. */
  function Published(attributes: map<string, Attribute>, span: Span, flag: SendHandled): (r: map<string, Attribute>)
    ensures r.Keys == attributes.Keys + {SPAN_CUSTOMIZER_KEY, TRACE_CONTEXT_KEY, SEND_HANDLED_KEY}
    ensures r[SPAN_CUSTOMIZER_KEY] == SpanCustomizerAttribute(span) && r[SEND_HANDLED_KEY] == SendHandledAttribute(flag)
    // A forwarded or re-dispatched request finds the span's context, so it is only re-scoped.
    ensures StoredContext(r) == Found(span.context)
    ensures forall k | k in attributes && k !in {SPAN_CUSTOMIZER_KEY, TRACE_CONTEXT_KEY, SEND_HANDLED_KEY} :: r[k] == attributes[k]
  {
    attributes[SPAN_CUSTOMIZER_KEY := SpanCustomizerAttribute(span)]
              [TRACE_CONTEXT_KEY := TraceContextAttribute(span.context)]
              [SEND_HANDLED_KEY := SendHandledAttribute(flag)]
  }

  class TracingFilter {
    const currentTraceContext: CurrentTraceContext
    const handler: HttpServerHandler

    constructor (currentTraceContext: CurrentTraceContext, handler: HttpServerHandler)
      ensures this.currentTraceContext == currentTraceContext && this.handler == handler
    {
      this.currentTraceContext := currentTraceContext;
      this.handler := handler;
    }

    /** The handler's tracer is consistent and uses the filter's current-context holder. */
    ghost predicate Valid()
      reads this, handler, handler.tracer
    {
      handler.tracer.currentTraceContext == currentTraceContext && handler.tracer.Valid()
    }

    /**
     * Hands the span to handleSend unless the flag says that was already done.
     * After one call the flag is set, so every later call changes nothing.
     */
    method SendIfUnhandled(flag: SendHandled, error: Option<Throwable>, span: Span)
      requires Valid()
      modifies flag, handler.tracer
      ensures Valid() && flag.handled
      ensures old(flag.handled) ==> unchanged(handler.tracer)
      ensures !old(flag.handled) ==>
        && handler.tracer.spans == old(handler.tracer.spans)[span.context.spanId := Finished(old(handler.tracer.State(span.context)), error)]
        && handler.tracer.reported == old(handler.tracer.reported)
             + (if old(handler.tracer.State(span.context)).ended then [] else [old(handler.tracer.State(span.context)).context])
        && handler.tracer.nextId == Bump(old(handler.tracer.nextId), span.context.spanId)
    {
      var swapped := flag.CompareAndSet(false, true);
      if swapped {
        handler.HandleSend(error, span);
      }
    }

    /**
     * Filters one request. `chain` stands for the rest of the filter chain; `view`
     * is what that chain observes while it runs (none when it never runs).
     */
    method DoFilter(request: ServletRequest, chain: Chain) returns (outcome: Outcome, view: Option<ChainView>)
      requires Valid()
      modifies request, handler.tracer, currentTraceContext
      // Every path leaves the current context as it found it.
      ensures Valid() && currentTraceContext.current == old(currentTraceContext.current)
      // A foreign value under the trace-context name fails the cast before anything happens.
      ensures StoredContext(old(request.attributes)).NotAContext? ==>
        && outcome == Threw(CLASS_CAST) && view.None?
        && unchanged(handler.tracer) && unchanged(request)
      // An already traced request is only re-scoped: no new span, nothing recorded.
      ensures StoredContext(old(request.attributes)).Found? ==>
        && outcome == chain.outcome
        && view == Some(ChainView(Some(StoredContext(old(request.attributes)).context), old(request.attributes)))
        && unchanged(handler.tracer) && unchanged(request)
      // A fresh request gets exactly one new span, current and published while the chain runs.
      ensures StoredContext(old(request.attributes)).Absent? ==>
        var span := Span(ChildOf(request.extracted, old(handler.tracer.nextId)));
        var received := Unrecorded(span.context).(started := true);
        && outcome == chain.outcome
        && view.Some? && view.value.current == Some(span.context)
        && SEND_HANDLED_KEY in view.value.attributes && view.value.attributes[SEND_HANDLED_KEY].SendHandledAttribute?
        && fresh(view.value.attributes[SEND_HANDLED_KEY].flag)
        && view.value.attributes == Published(old(request.attributes), span, view.value.attributes[SEND_HANDLED_KEY].flag)
        && request.attributes == view.value.attributes
        && handler.tracer.nextId == old(handler.tracer.nextId) + 1
        // Async: the span stays open and the flag unset, even when the chain threw.
        && (chain.startsAsync ==>
              && handler.tracer.spans == old(handler.tracer.spans)[span.context.spanId := received]
              && handler.tracer.reported == old(handler.tracer.reported)
              && !view.value.attributes[SEND_HANDLED_KEY].flag.handled)
        // Synchronous: finished with the chain's error and reported exactly once.
        && (!chain.startsAsync ==>
              && handler.tracer.spans == old(handler.tracer.spans)[span.context.spanId := Finished(received, ErrorOf(chain.outcome))]
              && handler.tracer.reported == old(handler.tracer.reported) + [span.context]
              && view.value.attributes[SEND_HANDLED_KEY].flag.handled)
    {
      match StoredContext(request.attributes)
      case NotAContext =>
        outcome, view := Threw(CLASS_CAST), None;
      case Found(context) =>
        var scope := currentTraceContext.MaybeScope(context);
        view := Some(ChainView(currentTraceContext.current, request.attributes));
        outcome := chain.outcome;
        scope.Close();
      case Absent =>
        outcome, view := TraceFreshRequest(request, chain);
    }

    /**
     * The branch for a request not traced yet: a new server span is published on
     * the request and made current while the chain runs, then finished unless the
     * chain went asynchronous.
     */
    method TraceFreshRequest(request: ServletRequest, chain: Chain) returns (outcome: Outcome, view: Option<ChainView>)
      requires Valid()
      modifies request, handler.tracer, currentTraceContext
      ensures Valid() && currentTraceContext.current == old(currentTraceContext.current)
      ensures var span := Span(ChildOf(request.extracted, old(handler.tracer.nextId)));
        var received := Unrecorded(span.context).(started := true);
        && outcome == chain.outcome
        && view.Some? && view.value.current == Some(span.context)
        && SEND_HANDLED_KEY in view.value.attributes && view.value.attributes[SEND_HANDLED_KEY].SendHandledAttribute?
        && fresh(view.value.attributes[SEND_HANDLED_KEY].flag)
        && view.value.attributes == Published(old(request.attributes), span, view.value.attributes[SEND_HANDLED_KEY].flag)
        && request.attributes == view.value.attributes
        && handler.tracer.nextId == old(handler.tracer.nextId) + 1
        && (chain.startsAsync ==>
              && handler.tracer.spans == old(handler.tracer.spans)[span.context.spanId := received]
              && handler.tracer.reported == old(handler.tracer.reported)
              && !view.value.attributes[SEND_HANDLED_KEY].flag.handled)
        && (!chain.startsAsync ==>
              && handler.tracer.spans == old(handler.tracer.spans)[span.context.spanId := Finished(received, ErrorOf(chain.outcome))]
              && handler.tracer.reported == old(handler.tracer.reported) + [span.context]
              && view.value.attributes[SEND_HANDLED_KEY].flag.handled)
    {
      var span, sendHandled := ReceiveAndPublish(request);
      outcome, view := RunInScope(request, span, sendHandled, chain);
    }

    /**
     * Runs the chain with `span` current, then hands the span to handleSend unless
     * the chain went asynchronous; the previous context is current again afterwards.
     */
    method RunInScope(request: ServletRequest, span: Span, sendHandled: SendHandled, chain: Chain)
      returns (outcome: Outcome, view: Option<ChainView>)
      requires Valid() && !sendHandled.handled
      modifies sendHandled, handler.tracer, currentTraceContext
      ensures Valid() && currentTraceContext.current == old(currentTraceContext.current)
      ensures outcome == chain.outcome && view == Some(ChainView(Some(span.context), request.attributes))
      ensures chain.startsAsync ==> unchanged(handler.tracer) && !sendHandled.handled
      ensures !chain.startsAsync ==>
        && sendHandled.handled
        && handler.tracer.spans == old(handler.tracer.spans)[span.context.spanId := Finished(old(handler.tracer.State(span.context)), ErrorOf(chain.outcome))]
        && handler.tracer.reported == old(handler.tracer.reported)
             + (if old(handler.tracer.State(span.context)).ended then [] else [old(handler.tracer.State(span.context)).context])
        && handler.tracer.nextId == Bump(old(handler.tracer.nextId), span.context.spanId)
    {
      var scope := currentTraceContext.NewScope(Some(span.context));
      view := Some(ChainView(currentTraceContext.current, request.attributes));
      outcome := chain.outcome;
      if !chain.startsAsync {
        SendIfUnhandled(sendHandled, ErrorOf(outcome), span);
      }
      scope.Close();
    }

    /** handleReceive on the request, then the span and a fresh, unset once-flag published on it. */
    method ReceiveAndPublish(request: ServletRequest) returns (span: Span, sendHandled: SendHandled)
      requires Valid()
      modifies request, handler.tracer
      ensures Valid() && fresh(sendHandled) && !sendHandled.handled
      ensures span.context == ChildOf(request.extracted, old(handler.tracer.nextId))
      ensures request.attributes == Published(old(request.attributes), span, sendHandled)
      ensures handler.tracer.spans == old(handler.tracer.spans)[span.context.spanId := Unrecorded(span.context).(started := true)]
      ensures handler.tracer.nextId == old(handler.tracer.nextId) + 1 && handler.tracer.reported == old(handler.tracer.reported)
    {
      span := handler.HandleReceive(request.extracted);
      sendHandled := new SendHandled();
      request.attributes := Published(request.attributes, span, sendHandled);
    }

    method Init() {
    }

    method Destroy() {
    }
  }
}
