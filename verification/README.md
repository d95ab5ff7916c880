# Sleuth boundary adapters in Dafny

This project models the boundary adapters of Spring Cloud Sleuth. These adapters
connect Spring components (servlets, the gateway, reactive transactions, Spring
Security, JMS, WebClient, OAuth2 user-info clients) to a tracer. They make
tracing decisions and hold a little state; the tracer itself is an abstract
collaborator.

- `tracing.dfy` holds the collaborators the adapters drive:
  - immutable trace contexts;
  - a current-context slot whose scopes restore the previous context when closed, where a second close changes nothing;
  - a tracer that records each span's name, started/ended flags, events, error and tags, together with the order in which spans were reported. Its invariant says a span is reported exactly when it has ended, and only once;
  - the HTTP server handler;
  - the bean factory.
- `servlet_filter.dfy` covers `TracingFilter`. A request that already carries a context is only re-scoped. A new request gets exactly one span, published in three request attributes and current while the chain runs. A synchronous request's span is finished and reported exactly once, guarded by the `SendHandled` flag. An async request's span stays open.
- `request_headers_filter.dfy` covers the gateway's `TraceRequestHttpHeadersFilter`: the parent precedence, the client span, the header overlay and the removal of `b3`/`B3`.
- `reactive_transaction_manager.dfy` covers `TraceReactiveTransactionManager`:
  - how the span is resolved;
  - the choice between a new span and a continued one;
  - the forwarding transaction;
  - commit and rollback. Commit ends the span only on success; rollback always does.
- `security_listener.dfy` covers the security-context listener: the set/cleared/replaced classification, the rendering of authentications, and attaching the event only to a current span.
- `jms_post_processor.dfy` covers the JMS bean post-processor: the dispatch order, and lazy wrappers that look up JMS tracing and wrap their delegate at most once.
- `webclient_post_processor.dfy` and `userinfo_post_processor.dfy` cover the WebClient and user-info post-processors. Both make idempotent updates.
- `sampler_configuration.dfy` covers sampler selection.
- `web_servlet_configuration.dfy` covers the lazy servlet filter and its registration.

Ghost counters record how often a lazy component has looked up a bean or
wrapped its delegate. Each lazy factory's `Valid()` bounds both counts by one,
and the lazy servlet filter bounds the number of filters it builds by one. The
lazy message listener is the exception: its lookup is bounded by one, but it
wraps its delegate anew for every message, so its wrap counter grows by one per
message.

The rest of each filter chain, the delegate transaction manager's Mono and the
delegate's commit or rollback become one-shot `Outcome` parameters. Propagator
extraction becomes a parameter; injection is a function parameter.

## Model

| member | source | states |
|---|---|---|
| ServletFilter.SendHandled.CompareAndSet | spring-cloud-sleuth-instrumentation/src/main/java/io/micrometer/tracing/instrument/web/servlet/TracingFilter.java:121-123 | swaps exactly when the flag holds the expected value, and only then sets it |
| ServletFilter.StoredContext | spring-cloud-sleuth-instrumentation/src/main/java/io/micrometer/tracing/instrument/web/servlet/TracingFilter.java:62-63 | the trace-context attribute is absent, a context, or a foreign value whose cast fails; each case exactly when the attribute map says so |
| ServletFilter.Published | spring-cloud-sleuth-instrumentation/src/main/java/io/micrometer/tracing/instrument/web/servlet/TracingFilter.java:61-82 | the attributes gain exactly the span, its context and the once-flag under their three names, others are kept; the stored context then reads as Found with the span's context, so a re-dispatch is only re-scoped |
| ServletFilter.TracingFilter.SendIfUnhandled | spring-cloud-sleuth-instrumentation/src/main/java/io/micrometer/tracing/instrument/web/servlet/TracingFilter.java:101-105 | the flag is set afterwards; if it was already set nothing changes, otherwise the span is finished with the error and reported if it had not ended |
| ServletFilter.TracingFilter.DoFilter | spring-cloud-sleuth-instrumentation/src/main/java/io/micrometer/tracing/instrument/web/servlet/TracingFilter.java:56-108 | current context restored on every path; chain outcome passed through unchanged; a foreign attribute throws ClassCastException with nothing changed; a stored context is only scoped, with no span recorded; otherwise exactly one new span, published in three attributes and current for the chain, left open with the flag unset when async, finished with the chain's error and reported exactly once when synchronous |
| ServletFilter.TracingFilter.TraceFreshRequest | spring-cloud-sleuth-instrumentation/src/main/java/io/micrometer/tracing/instrument/web/servlet/TracingFilter.java:76-107 | for a request without a stored context: exactly one new span, a child of the extracted context, published in three attributes and current for the chain; left open with the flag unset when async, finished with the chain's error and reported exactly once when synchronous; current context restored |
| ServletFilter.TracingFilter.ReceiveAndPublish | spring-cloud-sleuth-instrumentation/src/main/java/io/micrometer/tracing/instrument/web/servlet/TracingFilter.java:76-82 | handleReceive starts one new span, and the request then carries that span, its context and a fresh, unset once-flag; nothing else is recorded |
| ServletFilter.TracingFilter.RunInScope | spring-cloud-sleuth-instrumentation/src/main/java/io/micrometer/tracing/instrument/web/servlet/TracingFilter.java:84-107 | the chain sees the span as current; when synchronous the flag is set and the span is finished with the chain's error, when async the tracer is untouched and the flag stays unset; the previous context is current again afterwards |
| RequestHeadersFilter.Supports | spring-cloud-sleuth-instrumentation/src/main/java/io/micrometer/tracing/instrument/web/client/TraceRequestHttpHeadersFilter.java:121-124 | true exactly for the REQUEST type |
| RequestHeadersFilter.SpanUnder | spring-cloud-sleuth-instrumentation/src/main/java/io/micrometer/tracing/instrument/web/client/TraceRequestHttpHeadersFilter.java:88-96 | a span exactly when the attribute is present and is a span, and then that span |
| RequestHeadersFilter.ExchangeSpan | spring-cloud-sleuth-instrumentation/src/main/java/io/micrometer/tracing/instrument/web/client/TraceRequestHttpHeadersFilter.java:87-104 | precedence: trace-request attribute, then the web-filter attribute, then the current span; none exactly when all three are missing |
| RequestHeadersFilter.ParentSpan | spring-cloud-sleuth-instrumentation/src/main/java/io/micrometer/tracing/instrument/web/client/TraceRequestHttpHeadersFilter.java:76-85 | the exchange span with the tracer untouched, or else a new started span resumed from the extracted context |
| RequestHeadersFilter.InjectedSpan | spring-cloud-sleuth-instrumentation/src/main/java/io/micrometer/tracing/instrument/web/client/TraceRequestHttpHeadersFilter.java:106-111 | a started client span that is a child of the parent's context, or of the current context when there is no parent; the filtered headers are the injection for that span |
| RequestHeadersFilter.AddHeadersWithInput | spring-cloud-sleuth-instrumentation/src/main/java/io/micrometer/tracing/instrument/web/client/TraceRequestHttpHeadersFilter.java:113-119 | keys are the union; every filtered key takes the filtered values; other input keys keep theirs |
| RequestHeadersFilter.Filter | spring-cloud-sleuth-instrumentation/src/main/java/io/micrometer/tracing/instrument/web/client/TraceRequestHttpHeadersFilter.java:54-74 | client span stored on the exchange as a child of the chosen parent; tracer records exactly the spans started and the id generator advances by one per started span; result keys are input plus injected minus b3/B3; injected values win; other input values are kept |
| RequestHeadersFilter.ClientSpan | spring-cloud-sleuth-instrumentation/src/main/java/io/micrometer/tracing/instrument/web/client/TraceRequestHttpHeadersFilter.java:54-65 | the client span is a started child of the exchange span, or of a span resumed from the extracted context and started first; it is stored on the exchange, its injected headers are returned, and only those one or two spans are recorded, the id generator advancing by one per span |
| RequestHeadersFilter.MergedHeaders | spring-cloud-sleuth-instrumentation/src/main/java/io/micrometer/tracing/instrument/web/client/TraceRequestHttpHeadersFilter.java:66-73 | the result holds the input and injected header names minus b3 and B3, injected values win, and other input values are kept |
| ReactiveTransactionManager.SourceOf | spring-cloud-sleuth-instrumentation/src/main/java/io/micrometer/tracing/instrument/tx/TraceReactiveTransactionManager.java:102-119 | precedence: reactor-context span, then reactor-context trace context, then the current span |
| ReactiveTransactionManager.Resolved | spring-cloud-sleuth-instrumentation/src/main/java/io/micrometer/tracing/instrument/tx/TraceReactiveTransactionManager.java:102-125 | no span exactly when both reactor entries and the current span are missing; a trace context resolves to its own span |
| ReactiveTransactionManager.Decide | spring-cloud-sleuth-instrumentation/src/main/java/io/micrometer/tracing/instrument/tx/TraceReactiveTransactionManager.java:77-92 | continue exactly when the transaction is not new and a span was resolved; a new root exactly when none was resolved; otherwise a child of the resolved span |
| ReactiveTransactionManager.StartTransactionSpan | spring-cloud-sleuth-instrumentation/src/main/java/io/micrometer/tracing/instrument/tx/TraceReactiveTransactionManager.java:81-88 | one new span under the parent, named after transactions, started, not ended, and tagged with the definition's tags |
| ReactiveTransactionManager.NamedSpan | spring-cloud-sleuth-instrumentation/src/main/java/io/micrometer/tracing/instrument/tx/TraceReactiveTransactionManager.java:82-85 | nextSpan under the parent then name: one new span with the next id, named after transactions, not yet started; nothing else recorded |
| ReactiveTransactionManager.StartTagged | spring-cloud-sleuth-instrumentation/src/main/java/io/micrometer/tracing/instrument/tx/TraceReactiveTransactionManager.java:86-88 | start then tag: the span's recorded state gains the started flag and the definition's tags; no other span changes and nothing is reported |
| ReactiveTransactionManager.SpanAndScope.Close | spring-cloud-sleuth-instrumentation/src/main/java/io/micrometer/tracing/instrument/tx/TraceReactiveTransactionManager.java:142-142 | closes the scope (restoring the previous context unless already closed) and ends the span, reporting it if not yet ended; the id generator only moves past the span's id |
| ReactiveTransactionManager.SpanAndScope.CloseWithError | spring-cloud-sleuth-instrumentation/src/main/java/io/micrometer/tracing/instrument/tx/TraceReactiveTransactionManager.java:160-160 | the rollback path: any error is recorded on the span, then scope and span are closed as by Close, with the span finished with that error |
| ReactiveTransactionManager.TraceReactiveTransaction.IsNewTransaction | spring-cloud-sleuth-instrumentation/src/main/java/io/micrometer/tracing/instrument/tx/TraceReactiveTransactionManager.java:174-177 | the delegate's answer |
| ReactiveTransactionManager.TraceReactiveTransaction.SetRollbackOnly | spring-cloud-sleuth-instrumentation/src/main/java/io/micrometer/tracing/instrument/tx/TraceReactiveTransactionManager.java:179-182 | marks the delegate rollback-only and changes nothing else |
| ReactiveTransactionManager.TraceReactiveTransaction.IsRollbackOnly | spring-cloud-sleuth-instrumentation/src/main/java/io/micrometer/tracing/instrument/tx/TraceReactiveTransactionManager.java:184-187 | the delegate's answer |
| ReactiveTransactionManager.TraceReactiveTransaction.IsCompleted | spring-cloud-sleuth-instrumentation/src/main/java/io/micrometer/tracing/instrument/tx/TraceReactiveTransactionManager.java:189-192 | the delegate's answer |
| ReactiveTransactionManager.TraceReactiveTransactionManager.LookupTracer | spring-cloud-sleuth-instrumentation/src/main/java/io/micrometer/tracing/instrument/tx/TraceReactiveTransactionManager.java:58-63 | the bean factory's tracer, looked up only when not yet cached, so at most once |
| ReactiveTransactionManager.TraceReactiveTransactionManager.LookupCurrentTraceContext | spring-cloud-sleuth-instrumentation/src/main/java/io/micrometer/tracing/instrument/tx/TraceReactiveTransactionManager.java:65-70 | the bean factory's current-context holder, looked up at most once |
| ReactiveTransactionManager.TraceReactiveTransactionManager.SpanFromContext | spring-cloud-sleuth-instrumentation/src/main/java/io/micrometer/tracing/instrument/tx/TraceReactiveTransactionManager.java:121-125 | the context's own span, started; the current context afterwards is the one before |
| ReactiveTransactionManager.TraceReactiveTransactionManager.SpanOf | spring-cloud-sleuth-instrumentation/src/main/java/io/micrometer/tracing/instrument/tx/TraceReactiveTransactionManager.java:102-119 | the span SourceOf and Resolved give; only the trace-context path starts a span; the current context is unchanged |
| ReactiveTransactionManager.TraceReactiveTransactionManager.TransactionSpan | spring-cloud-sleuth-instrumentation/src/main/java/io/micrometer/tracing/instrument/tx/TraceReactiveTransactionManager.java:77-92 | per Decide: the resolved span with the tracer untouched, or a new started, named, tagged root or child span |
| ReactiveTransactionManager.TraceReactiveTransactionManager.GetReactiveTransaction | spring-cloud-sleuth-instrumentation/src/main/java/io/micrometer/tracing/instrument/tx/TraceReactiveTransactionManager.java:72-100 | a delegate error passes through with nothing touched; otherwise a new transaction around the delegate's, whose span is current through a fresh scope remembering the previous context; that span is the continued one or a new root or child span, per Decide; the span map is the old one with only the trace-context span started (when that is the source) and, for a new span, only the transaction span added, and the id generator is stated for each case |
| ReactiveTransactionManager.TraceReactiveTransactionManager.Commit | spring-cloud-sleuth-instrumentation/src/main/java/io/micrometer/tracing/instrument/tx/TraceReactiveTransactionManager.java:127-143 | outcome of the delegate passed through; untraced transactions touch nothing; the scope is closed; an error is recorded on the span and leaves it open; success ends and reports the span; the id generator only moves past the span's id |
| ReactiveTransactionManager.TraceReactiveTransactionManager.Rollback | spring-cloud-sleuth-instrumentation/src/main/java/io/micrometer/tracing/instrument/tx/TraceReactiveTransactionManager.java:145-161 | outcome of the delegate passed through; untraced transactions touch nothing; the scope is closed; the span records any error and is ended and reported whatever the outcome; the id generator only moves past the span's id |
| SecurityListener.AuthenticationOf | spring-cloud-sleuth-instrumentation/src/main/java/io/micrometer/tracing/instrument/security/TracingSecurityContextChangedListener.java:55-56 | a null security context gives a null authentication |
| SecurityListener.CollectionText | spring-cloud-sleuth-instrumentation/src/main/java/io/micrometer/tracing/instrument/security/TracingSecurityContextChangedListener.java:77-77 | the authorities render in square brackets |
| SecurityListener.Describe | spring-cloud-sleuth-instrumentation/src/main/java/io/micrometer/tracing/instrument/security/TracingSecurityContextChangedListener.java:76-79 | "null" for no authentication and only then; otherwise the simple class name followed by the authorities' rendering |
| SecurityListener.ReplacedText | spring-cloud-sleuth-instrumentation/src/main/java/io/micrometer/tracing/instrument/security/TracingSecurityContextChangedListener.java:72-74 | the old authentication's text, " -> ", then the new one's, in that order |
| SecurityListener.ChangeOf | spring-cloud-sleuth-instrumentation/src/main/java/io/micrometer/tracing/instrument/security/TracingSecurityContextChangedListener.java:52-70 | the 2×2 table: replaced iff both present, cleared iff only the old, set iff only the new, nothing iff neither; each case gets its text |
| SecurityListener.TracingSecurityContextChangedListener.AttachEvent | spring-cloud-sleuth-instrumentation/src/main/java/io/micrometer/tracing/instrument/security/TracingSecurityContextChangedListener.java:81-90 | with no current span nothing changes; otherwise exactly one formatted event is appended to the current span |
| SecurityListener.TracingSecurityContextChangedListener.SecurityContextChanged | spring-cloud-sleuth-instrumentation/src/main/java/io/micrometer/tracing/instrument/security/TracingSecurityContextChangedListener.java:52-70 | the tracer is unchanged when ChangeOf gives nothing or there is no current span; otherwise exactly the one event ChangeOf gives is appended |
| JmsPostProcessor.LazyConnectionFactory.LookupJmsTracing | spring-cloud-sleuth-brave/src/main/java/io/micrometer/tracing/brave/instrument/messaging/TracingConnectionFactoryBeanPostProcessor.java:253-259 | the bean factory's JMS tracing, looked up once in the object's lifetime |
| JmsPostProcessor.LazyConnectionFactory.WrappedDelegate | spring-cloud-sleuth-brave/src/main/java/io/micrometer/tracing/brave/instrument/messaging/TracingConnectionFactoryBeanPostProcessor.java:261-267 | the delegate wrapped by JMS tracing; the wrap counter becomes one on the first call and stays one on every later call, which returns the cached instance |
| JmsPostProcessor.LazyConnectionFactory.CreateConnection | spring-cloud-sleuth-brave/src/main/java/io/micrometer/tracing/brave/instrument/messaging/TracingConnectionFactoryBeanPostProcessor.java:223-231 | a connection from the cached wrapped delegate (wrapped exactly once), with the given credentials |
| JmsPostProcessor.LazyConnectionFactory.CreateContext | spring-cloud-sleuth-brave/src/main/java/io/micrometer/tracing/brave/instrument/messaging/TracingConnectionFactoryBeanPostProcessor.java:233-251 | a context from the cached wrapped delegate (wrapped exactly once), with the given credentials and session mode |
| JmsPostProcessor.LazyXAConnectionFactory.LookupJmsTracing | spring-cloud-sleuth-brave/src/main/java/io/micrometer/tracing/brave/instrument/messaging/TracingConnectionFactoryBeanPostProcessor.java:124-130 | the bean factory's JMS tracing, looked up at most once |
| JmsPostProcessor.LazyXAConnectionFactory.WrappedDelegate | spring-cloud-sleuth-brave/src/main/java/io/micrometer/tracing/brave/instrument/messaging/TracingConnectionFactoryBeanPostProcessor.java:132-138 | the XA delegate wrapped by JMS tracing; the wrap counter becomes one on the first call and stays one on every later call, which returns the cached instance |
| JmsPostProcessor.LazyXAConnectionFactory.CreateXAConnection | spring-cloud-sleuth-brave/src/main/java/io/micrometer/tracing/brave/instrument/messaging/TracingConnectionFactoryBeanPostProcessor.java:104-112 | an XA connection from the cached wrapped delegate (wrapped exactly once) |
| JmsPostProcessor.LazyXAConnectionFactory.CreateXAContext | spring-cloud-sleuth-brave/src/main/java/io/micrometer/tracing/brave/instrument/messaging/TracingConnectionFactoryBeanPostProcessor.java:114-122 | an XA context from the cached wrapped delegate (wrapped exactly once) |
| JmsPostProcessor.LazyTopicConnectionFactory.constructor | spring-cloud-sleuth-brave/src/main/java/io/micrometer/tracing/brave/instrument/messaging/TracingConnectionFactoryBeanPostProcessor.java:152-156 | an inner lazy plain factory over the same delegate and bean factory |
| JmsPostProcessor.LazyTopicConnectionFactory.LookupJmsTracing | spring-cloud-sleuth-brave/src/main/java/io/micrometer/tracing/brave/instrument/messaging/TracingConnectionFactoryBeanPostProcessor.java:198-204 | the bean factory's JMS tracing, looked up at most once |
| JmsPostProcessor.LazyTopicConnectionFactory.CreateTopicConnection | spring-cloud-sleuth-brave/src/main/java/io/micrometer/tracing/brave/instrument/messaging/TracingConnectionFactoryBeanPostProcessor.java:158-166 | each topic connection of the delegate wrapped by JMS tracing; only the lookup is cached |
| JmsPostProcessor.LazyTopicConnectionFactory.CreateConnection | spring-cloud-sleuth-brave/src/main/java/io/micrometer/tracing/brave/instrument/messaging/TracingConnectionFactoryBeanPostProcessor.java:168-176 | routed to the inner lazy factory's cached wrapped delegate, wrapped exactly once |
| JmsPostProcessor.LazyTopicConnectionFactory.CreateContext | spring-cloud-sleuth-brave/src/main/java/io/micrometer/tracing/brave/instrument/messaging/TracingConnectionFactoryBeanPostProcessor.java:178-196 | routed to the inner lazy factory's cached wrapped delegate, wrapped exactly once |
| JmsPostProcessor.LazyConnectionAndXaConnectionFactory.constructor | spring-cloud-sleuth-brave/src/main/java/io/micrometer/tracing/brave/instrument/messaging/TracingConnectionFactoryBeanPostProcessor.java:277-281 | two fresh lazy wrappers, plain and XA, over the given delegates |
| JmsPostProcessor.LazyConnectionAndXaConnectionFactory.CreateConnection | spring-cloud-sleuth-brave/src/main/java/io/micrometer/tracing/brave/instrument/messaging/TracingConnectionFactoryBeanPostProcessor.java:283-291 | routed to the plain wrapper, whose delegate is wrapped exactly once |
| JmsPostProcessor.LazyConnectionAndXaConnectionFactory.CreateContext | spring-cloud-sleuth-brave/src/main/java/io/micrometer/tracing/brave/instrument/messaging/TracingConnectionFactoryBeanPostProcessor.java:293-311 | routed to the plain wrapper, whose delegate is wrapped exactly once |
| JmsPostProcessor.LazyConnectionAndXaConnectionFactory.CreateXAConnection | spring-cloud-sleuth-brave/src/main/java/io/micrometer/tracing/brave/instrument/messaging/TracingConnectionFactoryBeanPostProcessor.java:313-321 | routed to the XA wrapper, whose delegate is wrapped exactly once |
| JmsPostProcessor.LazyConnectionAndXaConnectionFactory.CreateXAContext | spring-cloud-sleuth-brave/src/main/java/io/micrometer/tracing/brave/instrument/messaging/TracingConnectionFactoryBeanPostProcessor.java:323-331 | routed to the XA wrapper, whose delegate is wrapped exactly once |
| JmsPostProcessor.LazyMessageListener.LookupJmsTracing | spring-cloud-sleuth-brave/src/main/java/io/micrometer/tracing/brave/instrument/messaging/TracingConnectionFactoryBeanPostProcessor.java:353-359 | the bean factory's JMS tracing, looked up at most once |
| JmsPostProcessor.LazyMessageListener.OnMessage | spring-cloud-sleuth-brave/src/main/java/io/micrometer/tracing/brave/instrument/messaging/TracingConnectionFactoryBeanPostProcessor.java:348-365 | delivered through a new wrapper of the delegate that adds a consumer span; one more wrapper is made per message, but the lookup stays at one |
| JmsPostProcessor.RouteOf | spring-cloud-sleuth-brave/src/main/java/io/micrometer/tracing/brave/instrument/messaging/TracingConnectionFactoryBeanPostProcessor.java:59-84 | first match wins, in order: caching factory, endpoint manager, XA and plain, XA only, topic, plain; a bean with none of these types is kept; a bean's types follow the JMS hierarchy, so a topic or caching factory is also a connection factory |
| JmsPostProcessor.TracingConnectionFactoryBeanPostProcessor.PostProcessAfterInitialization | spring-cloud-sleuth-brave/src/main/java/io/micrometer/tracing/brave/instrument/messaging/TracingConnectionFactoryBeanPostProcessor.java:53-85 | each route yields its fresh lazy wrapper over the bean; an endpoint manager is returned as itself, with its listener replaced by a fresh lazy wrapper only when it had one; other beans are returned as they are |
| WebClientPostProcessor.NoneMatchTraceExchangeFunction | spring-cloud-sleuth-instrumentation/src/main/java/io/micrometer/tracing/instrument/web/client/TraceWebClientBeanPostProcessor.java:71-78 | true exactly when no filter in the list is the tracing filter |
| WebClientPostProcessor.NoneMatchIffNoTraceCount | spring-cloud-sleuth-instrumentation/src/main/java/io/micrometer/tracing/instrument/web/client/TraceWebClientBeanPostProcessor.java:71-78 | no tracing filter matches exactly when the list holds zero of them |
| WebClientPostProcessor.WithTraceFilter | spring-cloud-sleuth-instrumentation/src/main/java/io/micrometer/tracing/instrument/web/client/TraceWebClientBeanPostProcessor.java:62-69 | the existing filters are kept as a prefix, one tracing filter is appended exactly when there was none, and afterwards the list always has a tracing filter |
| WebClientPostProcessor.WithTraceFilterShape | spring-cloud-sleuth-instrumentation/src/main/java/io/micrometer/tracing/instrument/web/client/TraceWebClientBeanPostProcessor.java:62-69 | existing filters kept in order as a prefix; the list grows by at most one; exactly one tracing filter if there were none, otherwise as many as before |
| WebClientPostProcessor.WithTraceFilterIdempotent | spring-cloud-sleuth-instrumentation/src/main/java/io/micrometer/tracing/instrument/web/client/TraceWebClientBeanPostProcessor.java:64-67 | applying the update twice gives the same list as applying it once |
| WebClientPostProcessor.WebClientBuilder.AddTraceExchangeFilterFunctionIfNotPresent | spring-cloud-sleuth-instrumentation/src/main/java/io/micrometer/tracing/instrument/web/client/TraceWebClientBeanPostProcessor.java:62-69 | the builder's filters become WithTraceFilter of the old ones |
| WebClientPostProcessor.WebClientBuilder.Build | spring-cloud-sleuth-instrumentation/src/main/java/io/micrometer/tracing/instrument/web/client/TraceWebClientBeanPostProcessor.java:50-50 | a client with the builder's settings and filters |
| WebClientPostProcessor.PostProcessBeforeInitialization | spring-cloud-sleuth-instrumentation/src/main/java/io/micrometer/tracing/instrument/web/client/TraceWebClientBeanPostProcessor.java:42-45 | every bean is returned as it is |
| WebClientPostProcessor.PostProcessAfterInitialization | spring-cloud-sleuth-instrumentation/src/main/java/io/micrometer/tracing/instrument/web/client/TraceWebClientBeanPostProcessor.java:47-60 | a WebClient is rebuilt with the same settings and WithTraceFilter of its filters; a builder is returned as itself with its filters updated; other beans are returned as they are |
| UserInfoPostProcessor.PostProcessBeforeInitialization | spring-cloud-sleuth-instrumentation/src/main/java/io/micrometer/tracing/instrument/web/client/UserInfoRestTemplateCustomizerBeanPostProcessor.java:32-35 | every bean is returned as it is |
| UserInfoPostProcessor.PostProcessAfterInitialization | spring-cloud-sleuth-instrumentation/src/main/java/io/micrometer/tracing/instrument/web/client/UserInfoRestTemplateCustomizerBeanPostProcessor.java:37-44 | the bean changes exactly when it is a plain customizer, and it is then wrapped with itself as the delegate; the result is never a plain customizer |
| UserInfoPostProcessor.PostProcessAfterInitializationIdempotent | spring-cloud-sleuth-instrumentation/src/main/java/io/micrometer/tracing/instrument/web/client/UserInfoRestTemplateCustomizerBeanPostProcessor.java:40-43 | post-processing a post-processed bean changes nothing |
| SamplerConfiguration.SleuthTraceSampler | spring-cloud-sleuth-autoconfigure/src/main/java/org/springframework/boot/actuate/autoconfigure/tracing/brave/BraveSamplerConfiguration.java:44-48 | the fallback sampler never samples |
| SamplerConfiguration.SamplerFromProps | spring-cloud-sleuth-autoconfigure/src/main/java/org/springframework/boot/actuate/autoconfigure/tracing/brave/BraveSamplerConfiguration.java:52-57 | counting sampler at the probability iff one is set; otherwise a rate-limiting sampler at the configured rate |
| SamplerConfiguration.RefreshScopedSampler | spring-cloud-sleuth-autoconfigure/src/main/java/org/springframework/boot/actuate/autoconfigure/tracing/brave/BraveSamplerConfiguration.java:79-86 | probability-based iff a probability is set, otherwise rate-limiting; both read the configuration they were given |
| SamplerConfiguration.SamePrecedence | spring-cloud-sleuth-autoconfigure/src/main/java/org/springframework/boot/actuate/autoconfigure/tracing/brave/BraveSamplerConfiguration.java:52-86 | the fixed and refresh-scoped samplers choose probability or rate in the same cases and decide by the same configured value |
| WebServletConfiguration.LazyTracingFilter.constructor | spring-cloud-sleuth-autoconfigure/src/main/java/org/springframework/boot/actuate/autoconfigure/tracing/instrument/web/TraceWebServletConfiguration.java:119-121 | no tracing filter has been built yet |
| WebServletConfiguration.LazyTracingFilter.TracingFilterInstance | spring-cloud-sleuth-autoconfigure/src/main/java/org/springframework/boot/actuate/autoconfigure/tracing/instrument/web/TraceWebServletConfiguration.java:139-145 | built once, from the bean factory's current-context holder and server handler; every later call returns the same instance |
| WebServletConfiguration.LazyTracingFilter.Init | spring-cloud-sleuth-autoconfigure/src/main/java/org/springframework/boot/actuate/autoconfigure/tracing/instrument/web/TraceWebServletConfiguration.java:123-126 | delegates to the one cached tracing filter |
| WebServletConfiguration.LazyTracingFilter.DoFilter | spring-cloud-sleuth-autoconfigure/src/main/java/org/springframework/boot/actuate/autoconfigure/tracing/instrument/web/TraceWebServletConfiguration.java:128-132 | delegates to the one cached tracing filter: current context restored, chain outcome passed through, one new span reported for a synchronous fresh request |
| WebServletConfiguration.LazyTracingFilter.Destroy | spring-cloud-sleuth-autoconfigure/src/main/java/org/springframework/boot/actuate/autoconfigure/tracing/instrument/web/TraceWebServletConfiguration.java:134-137 | delegates to the one cached tracing filter |
| WebServletConfiguration.TraceWebFilter | spring-cloud-sleuth-autoconfigure/src/main/java/org/springframework/boot/actuate/autoconfigure/tracing/instrument/web/TraceWebServletConfiguration.java:76-83 | a fresh lazy filter, registered for every dispatcher type (ASYNC, ERROR, FORWARD, INCLUDE, REQUEST) at the configured filter order |

## Left out

- The tracer, propagator and HTTP handlers (Brave and the Micrometer bridge) are not part of this model. `tracing.dfy` replaces them with a counter for ids and a record of span states; id generation, sampling, wire formats and export are not modelled.
- The HTTP client handler's `handleSend` is modelled as making a started child of the given context, or of the current one. Its request parsing and customisers are not modelled.
- Servlet async handling (`handleAsync`) is not modelled: the async path only shows that the span stays open and the flag stays unset.
- The rest of the filter chain is assumed to leave the tracer alone. It is one outcome plus an async flag.
- Concurrency is not modelled: `SendHandled`'s compare-and-set is sequential, and Reactor's `Mono` pipelines become one-shot outcomes. A `doOnError`/`doOnSuccess`/`doFinally` callback runs once the outcome is known.
- Header names are compared exactly. Spring's case-insensitive `HttpHeaders` is not modelled, so `b3` and `B3` are two distinct keys.
- The exchange attribute name `SPAN_ATTRIBUTE` is defined in `AbstractHttpHeadersFilter`, which is not part of this model; it is a parameter.
- The transaction span name is taken as "tx", because `SleuthTxSpan` is not part of this model.
- The transaction tags stand for what `TracePlatformTransactionManagerTags` adds; their content is not modelled.
- `AssertingSpan` and the documented-span `wrap` calls are treated as the identity.
- The security event templates in `SleuthSecuritySpan` are not part of this model, so filling a template is a function parameter.
- An authority's text is taken as given; a Java collection's rendering is reproduced as "[a, b]".
- Brave's own normalisation of samplers is not modelled: `CountingSampler.create` and `RateLimitingSampler.create` turning some settings into never-sample or always-sample. When a refresh-scoped sampler reads its configuration again is not modelled either.
- Bean-definition conditions (`@ConditionalOn…`, refresh-scope detection) and the choice between the refresh-scoped beans are wiring and are not modelled.
- `TraceWebServletConfiguration.traceWebAspect` and the Tomcat valve customiser only construct objects, so they are not modelled.
- `logging` calls have no observable effect and are left out.
- JMS factories, connections, contexts and listeners are opaque numbers. What the JMS tracing wrappers do with messages is not modelled, and neither is re-processing a bean that is already a lazy wrapper.
- Line 69 of `TracingConnectionFactoryBeanPostProcessor.java` binds the pattern name `factory` twice. The model reads that test as "the bean is both an XA and a plain factory" and passes the bean as both delegates.
- WebServletConfiguration.LazyTracingFilter.DoFilter: its contract keeps only the outcome, the context restore and the span count from `TracingFilter.DoFilter`; the attribute and view details are stated on `ServletFilter.TracingFilter.DoFilter`.
- `TracingFilter.init` and `destroy` are empty in the source and are modelled as empty methods.
