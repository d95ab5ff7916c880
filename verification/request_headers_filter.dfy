/**
 * The gateway's request-headers filter: it picks the parent of the outgoing call
 * (a span stored on the exchange, else the current span, else one resumed from the
 * incoming headers), creates the client span, stores it on the exchange, and
 * returns the input headers overlaid with the injected tracing headers, with any
 * single-header B3 entry removed.
 */
module RequestHeadersFilter {

  import opened Wrappers
  import opened Tracing

  /** An HTTP header map: each name to its list of values. */
  type Headers = map<string, seq<string>>

  /** Exchange attribute names looked at for a parent span, in order of precedence. */
  const TRACE_REQUEST_ATTR := "io.micrometer.tracing.TraceContext"
  const TRACE_REQUEST_ATTR_FROM_TRACE_WEB_FILTER := "io.micrometer.tracing.Span"

  /** The single-header B3 names the returned headers never carry. */
  const B3_NAMES: set<string> := {"b3", "B3"}

  /** An exchange attribute value: a span, or anything else. */
  datatype ExchangeAttribute = SpanAttribute(span: Span) | OtherAttribute(value: string)

  class ServerWebExchange {
    var attributes: map<string, ExchangeAttribute>

    constructor (attributes: map<string, ExchangeAttribute>)
      ensures this.attributes == attributes
    {
      this.attributes := attributes;
    }
  }

  /** The kinds of header filtering the gateway asks a filter about. */
  datatype FilterType = Request | Response

  /** This filter only takes part in filtering request headers. */
  function Supports(t: FilterType): (r: bool)
    ensures r <==> t == Request
  {
    t.Request?
  }

  /** The span stored under `key`, when the value stored there is a span. */
  function SpanUnder(attributes: map<string, ExchangeAttribute>, key: string): (r: Option<Span>)
    ensures r.Some? <==> key in attributes && attributes[key].SpanAttribute?
    ensures r.Some? ==> r.value == attributes[key].span
  {
    if key in attributes && attributes[key].SpanAttribute? then Some(attributes[key].span) else None
  }

  /**
   * The parent found without touching the headers: the exchange's trace-request
   * attribute, else the attribute left by the web filter, else the current span.
   */
  function ExchangeSpan(attributes: map<string, ExchangeAttribute>, current: Option<Span>): (r: Option<Span>)
    ensures SpanUnder(attributes, TRACE_REQUEST_ATTR).Some? ==> r == SpanUnder(attributes, TRACE_REQUEST_ATTR)
    ensures SpanUnder(attributes, TRACE_REQUEST_ATTR).None? && SpanUnder(attributes, TRACE_REQUEST_ATTR_FROM_TRACE_WEB_FILTER).Some? ==>
              r == SpanUnder(attributes, TRACE_REQUEST_ATTR_FROM_TRACE_WEB_FILTER)
    ensures SpanUnder(attributes, TRACE_REQUEST_ATTR).None? && SpanUnder(attributes, TRACE_REQUEST_ATTR_FROM_TRACE_WEB_FILTER).None? ==>
              r == current
    ensures r.None? <==> current.None? && SpanUnder(attributes, TRACE_REQUEST_ATTR).None?
                         && SpanUnder(attributes, TRACE_REQUEST_ATTR_FROM_TRACE_WEB_FILTER).None?
  {
    var fromTraceRequest := SpanUnder(attributes, TRACE_REQUEST_ATTR);
    var fromWebFilter := SpanUnder(attributes, TRACE_REQUEST_ATTR_FROM_TRACE_WEB_FILTER);
    if fromTraceRequest.Some? then fromTraceRequest
    else if fromWebFilter.Some? then fromWebFilter
    else current
  }

  /**
   * The parent of the client span: the exchange span when there is one, otherwise
   * a span started from what the propagator extracted from the request headers.
   */
  method ParentSpan(exchange: ServerWebExchange, tracer: Tracer, extracted: Option<TraceContext>) returns (parent: Span)
    requires tracer.Valid()
    modifies tracer
    ensures tracer.Valid()
    ensures var found := ExchangeSpan(exchange.attributes, old(tracer.CurrentSpan()));
      && (found.Some? ==> parent == found.value && unchanged(tracer))
      && (found.None? ==>
            && parent.context == ChildOf(extracted, old(tracer.nextId))
            && tracer.spans == old(tracer.spans)[parent.context.spanId := Unrecorded(parent.context).(started := true)]
            && tracer.nextId == old(tracer.nextId) + 1 && tracer.reported == old(tracer.reported))
  {
    var found := ExchangeSpan(exchange.attributes, tracer.CurrentSpan());
    if found.Some? {
      return found.value;
    }
    parent := tracer.NewSpan(extracted);
    tracer.Start(parent);
  }

  /**
   * The client handler's send: a started child of `parent` (of the current context
   * when there is no parent), and the headers the propagator injects for it.
   */
  method InjectedSpan(tracer: Tracer, parent: Option<Span>, inject: TraceContext -> Headers)
    returns (span: Span, filteredHeaders: Headers)
    requires tracer.Valid()
    modifies tracer
    ensures tracer.Valid()
    ensures span.context == ChildOf(if parent.Some? then Some(parent.value.context) else old(tracer.currentTraceContext.current),
                                    old(tracer.nextId))
    ensures filteredHeaders == inject(span.context)
    ensures tracer.spans == old(tracer.spans)[span.context.spanId := Unrecorded(span.context).(started := true)]
    ensures tracer.nextId == old(tracer.nextId) + 1 && tracer.reported == old(tracer.reported)
  {
    if parent.None? {
      span := tracer.NewSpan(tracer.currentTraceContext.current);
    } else {
      span := tracer.NewSpan(Some(parent.value.context));
    }
    filteredHeaders := inject(span.context);
    tracer.Start(span);
  }

  /** Puts every filtered header into `headersWithInput`, replacing that name's values. */
  method AddHeadersWithInput(filteredHeaders: Headers, headersWithInput: Headers) returns (r: Headers)
    ensures r.Keys == headersWithInput.Keys + filteredHeaders.Keys
    ensures forall k | k in filteredHeaders :: r[k] == filteredHeaders[k]
    ensures forall k | k in headersWithInput && k !in filteredHeaders :: r[k] == headersWithInput[k]
  {
    r := headersWithInput;
    var todo := filteredHeaders.Keys;
    while todo != {}
      invariant todo <= filteredHeaders.Keys
      invariant r.Keys == headersWithInput.Keys + (filteredHeaders.Keys - todo)
      invariant forall k | k in filteredHeaders && k !in todo :: r[k] == filteredHeaders[k]
      invariant forall k | k in headersWithInput && (k !in filteredHeaders || k in todo) :: r[k] == headersWithInput[k]
      decreases todo
    {
      var key :| key in todo;
      r := r[key := filteredHeaders[key]];
      todo := todo - {key};
    }
  }

  /**
   * Filters the headers of one proxied request. `extracted` is what the propagator
   * reads from the request headers, `inject` what it writes for a context, and
   * `spanAttribute` the exchange attribute the client span is stored under.
   */
  method Filter(input: Headers, exchange: ServerWebExchange, tracer: Tracer, extracted: Option<TraceContext>,
                inject: TraceContext -> Headers, spanAttribute: string)
    returns (result: Headers)
    requires tracer.Valid()
    modifies exchange, tracer
    ensures tracer.Valid()
    ensures var found := ExchangeSpan(old(exchange.attributes), old(tracer.CurrentSpan()));
      var parent := if found.Some? then found.value.context else ChildOf(extracted, old(tracer.nextId));
      var client := ChildOf(Some(parent), if found.Some? then old(tracer.nextId) else old(tracer.nextId) + 1);
      var injected := inject(client);
      // The client span is a started child of the chosen parent, stored on the exchange.
      && exchange.attributes == old(exchange.attributes)[spanAttribute := SpanAttribute(Span(client))]
      && (found.Some? ==>
            tracer.spans == old(tracer.spans)[client.spanId := Unrecorded(client).(started := true)])
      && (found.None? ==>
            tracer.spans == old(tracer.spans)[parent.spanId := Unrecorded(parent).(started := true)]
                                             [client.spanId := Unrecorded(client).(started := true)])
      && tracer.nextId == old(tracer.nextId) + (if found.Some? then 1 else 2)
      && tracer.reported == old(tracer.reported)
      // The injected headers win over the input, other input headers stay, B3 never leaves.
      && result.Keys == (input.Keys + injected.Keys) - B3_NAMES
      && (forall k | k in injected && k !in B3_NAMES :: result[k] == injected[k])
      && (forall k | k in input && k !in injected && k !in B3_NAMES :: result[k] == input[k])
  {
    var span, filteredHeaders := ClientSpan(exchange, tracer, extracted, inject, spanAttribute);
    result := MergedHeaders(input, filteredHeaders);
  }

  /**
   * The tracing half of the filter: the client span, a started child of the chosen
   * parent, stored on the exchange, and the headers injected for it.
   */
  method ClientSpan(exchange: ServerWebExchange, tracer: Tracer, extracted: Option<TraceContext>,
                    inject: TraceContext -> Headers, spanAttribute: string)
    returns (span: Span, filteredHeaders: Headers)
    requires tracer.Valid()
    modifies exchange, tracer
    ensures tracer.Valid()
    ensures var found := ExchangeSpan(old(exchange.attributes), old(tracer.CurrentSpan()));
      var parent := if found.Some? then found.value.context else ChildOf(extracted, old(tracer.nextId));
      && span.context == ChildOf(Some(parent), if found.Some? then old(tracer.nextId) else old(tracer.nextId) + 1)
      && filteredHeaders == inject(span.context)
      && exchange.attributes == old(exchange.attributes)[spanAttribute := SpanAttribute(span)]
      && (found.Some? ==>
            tracer.spans == old(tracer.spans)[span.context.spanId := Unrecorded(span.context).(started := true)])
      && (found.None? ==>
            tracer.spans == old(tracer.spans)[parent.spanId := Unrecorded(parent).(started := true)]
                                             [span.context.spanId := Unrecorded(span.context).(started := true)])
      && tracer.nextId == old(tracer.nextId) + (if found.Some? then 1 else 2)
      && tracer.reported == old(tracer.reported)
  {
    var parent := ParentSpan(exchange, tracer, extracted);
    span, filteredHeaders := InjectedSpan(tracer, Some(parent), inject);
    exchange.attributes := exchange.attributes[spanAttribute := SpanAttribute(span)];
  }

  /** The header half of the filter: the injected headers over the input, without any B3 entry. */
  method MergedHeaders(input: Headers, filteredHeaders: Headers) returns (result: Headers)
    ensures result.Keys == (input.Keys + filteredHeaders.Keys) - B3_NAMES
    ensures forall k | k in filteredHeaders && k !in B3_NAMES :: result[k] == filteredHeaders[k]
    ensures forall k | k in input && k !in filteredHeaders && k !in B3_NAMES :: result[k] == input[k]
  {
    var headersWithInput := input;
    headersWithInput := AddHeadersWithInput(filteredHeaders, headersWithInput);
    if "b3" in headersWithInput || "B3" in headersWithInput {
      headersWithInput := headersWithInput - B3_NAMES;
    }
    result := headersWithInput;
  }
}
