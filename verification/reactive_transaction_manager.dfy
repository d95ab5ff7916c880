/**
 * The tracing wrapper around a reactive transaction manager. Getting a
 * transaction resolves a span (reactor-context span, else one derived from a
 * reactor-context trace context, else the current span), then either starts a new
 * transaction span or continues the resolved one, and makes it current. Commit and
 * rollback close that scope before delegating, record a delegate error on the span,
 * and close span and scope: commit only on success, rollback on any outcome.
 * Reactor's Mono plumbing is reduced to one-shot outcomes.
 */
module ReactiveTransactionManager {

  import opened Wrappers
  import opened Tracing

  /** The name every transaction span gets. */
  const TX_SPAN_NAME := "tx"

  /** The reactor context entries the manager looks at. */
  datatype ContextView = ContextView(span: Option<Span>, traceContext: Option<TraceContext>)

  /** What the transaction's definition contributes as span tags. */
  datatype TransactionDefinition = TransactionDefinition(tags: map<string, string>)

  /** Where the span of a transaction comes from, in order of precedence. */
  datatype SpanSource =
    | FromReactorSpan(span: Span)
    | FromTraceContext(context: TraceContext)
    | FromCurrentSpan(current: Option<Span>)

  /** The precedence of span(contextView): span entry, then trace-context entry, then current span. */
  function SourceOf(contextView: ContextView, current: Option<Span>): (r: SpanSource)
    ensures contextView.span.Some? ==> r == FromReactorSpan(contextView.span.value)
    ensures contextView.span.None? && contextView.traceContext.Some? ==> r == FromTraceContext(contextView.traceContext.value)
    ensures contextView.span.None? && contextView.traceContext.None? ==> r == FromCurrentSpan(current)
  {
    if contextView.span.Some? then FromReactorSpan(contextView.span.value)
    else if contextView.traceContext.Some? then FromTraceContext(contextView.traceContext.value)
    else FromCurrentSpan(current)
  }

  /** The span a source resolves to; a trace context resolves to the span of that context. */
  function Resolved(source: SpanSource): (r: Option<Span>)
    ensures r.None? <==> source.FromCurrentSpan? && source.current.None?
    ensures source.FromTraceContext? ==> r == Some(Span(source.context))
  {
    match source
    case FromReactorSpan(s) => Some(s)
    case FromTraceContext(c) => Some(Span(c))
    case FromCurrentSpan(current) => current
  }

  /** The three ways getReactiveTransaction can treat the resolved span. */
  datatype Decision = NewRootSpan | NewChildSpan(parent: Span) | ContinueSpan(span: Span)

  /**
   * A new transaction, or no resolved span, gets a new span (a child of the resolved
   * span when there is one); otherwise the resolved span is continued.
   */
  function Decide(isNewTransaction: bool, resolved: Option<Span>): (r: Decision)
    ensures r.ContinueSpan? <==> !isNewTransaction && resolved.Some?
    ensures r.NewRootSpan? <==> resolved.None?
    ensures r.NewChildSpan? ==> resolved == Some(r.parent)
    ensures r.ContinueSpan? ==> resolved == Some(r.span)
  {
    if isNewTransaction || resolved.None? then
      if resolved.None? then NewRootSpan else NewChildSpan(resolved.value)
    else ContinueSpan(resolved.value)
  }

  /** The delegate manager's transaction. */
  class DelegateTransaction {
    var newTransaction: bool
    var rollbackOnly: bool
    var completed: bool

    constructor (newTransaction: bool)
      ensures this.newTransaction == newTransaction && !rollbackOnly && !completed
    {
      this.newTransaction := newTransaction;
      rollbackOnly := false;
      completed := false;
    }
  }

  /** A span with the scope that made it current; closing both ends the span. */
  class SpanAndScope {
    const tracer: Tracer
    const span: Span
    const scope: Scope

    constructor (tracer: Tracer, span: Span, scope: Scope)
      ensures this.tracer == tracer && this.span == span && this.scope == scope
    {
      this.tracer := tracer;
      this.span := span;
      this.scope := scope;
    }

    /** Closes the scope, then ends the span. */
    method Close()
      requires tracer.Valid()
      modifies scope, scope.owner, tracer
      ensures tracer.Valid() && scope.closed
      ensures scope.owner.current == if old(scope.closed) || scope.noop then old(scope.owner.current) else scope.previous
      ensures tracer.spans == old(tracer.spans)[span.context.spanId := Finished(old(tracer.State(span.context)), None)]
      ensures tracer.reported == old(tracer.reported)
                                 + (if old(tracer.State(span.context)).ended then [] else [old(tracer.State(span.context)).context])
      ensures tracer.nextId == Bump(old(tracer.nextId), span.context.spanId)
    {
      scope.Close();
      tracer.Finish(span);
    }

    /** Records `error` on the span, if there is one, then closes scope and span. */
    method CloseWithError(error: Option<Throwable>)
      requires tracer.Valid()
      modifies scope, scope.owner, tracer
      ensures tracer.Valid() && scope.closed
      ensures scope.owner.current == if old(scope.closed) || scope.noop then old(scope.owner.current) else scope.previous
      ensures tracer.spans == old(tracer.spans)[span.context.spanId := Finished(old(tracer.State(span.context)), error)]
      ensures tracer.reported == old(tracer.reported)
                                 + (if old(tracer.State(span.context)).ended then [] else [old(tracer.State(span.context)).context])
      ensures tracer.nextId == Bump(old(tracer.nextId), span.context.spanId)
    {
      if error.Some? {
        tracer.SetError(span, error.value);
      }
      Close();
    }
  }

  /** The transaction handed to callers: the delegate's, plus its span and scope. */
  class TraceReactiveTransaction {
    const delegate: DelegateTransaction
    const spanAndScope: SpanAndScope

    constructor (delegate: DelegateTransaction, spanAndScope: SpanAndScope)
      ensures this.delegate == delegate && this.spanAndScope == spanAndScope
    {
      this.delegate := delegate;
      this.spanAndScope := spanAndScope;
    }

    method IsNewTransaction() returns (b: bool)
      ensures b == delegate.newTransaction
    {
      b := delegate.newTransaction;
    }

    method SetRollbackOnly()
      modifies delegate
      ensures delegate.rollbackOnly
      ensures delegate.newTransaction == old(delegate.newTransaction) && delegate.completed == old(delegate.completed)
    {
      delegate.rollbackOnly := true;
    }

    method IsRollbackOnly() returns (b: bool)
      ensures b == delegate.rollbackOnly
    {
      b := delegate.rollbackOnly;
    }

    method IsCompleted() returns (b: bool)
      ensures b == delegate.completed
    {
      b := delegate.completed;
    }
  }

  /** A transaction as commit and rollback receive it: traced by this manager or not. */
  datatype Transaction = Plain(plain: DelegateTransaction) | Traced(traced: TraceReactiveTransaction)

  /** What getReactiveTransaction emits: the traced transaction, or the delegate's error. */
  datatype TransactionResult = Emitted(transaction: TraceReactiveTransaction) | Failed(error: Throwable)

  /** A new span under `parent`, named after transactions, started and tagged from `definition`. */
  method StartTransactionSpan(t: Tracer, parent: Option<TraceContext>, definition: TransactionDefinition)
    returns (span: Span)
    requires t.Valid()
    modifies t
    ensures t.Valid()
    ensures span.context == ChildOf(parent, old(t.nextId))
    ensures t.spans == old(t.spans)[old(t.nextId) := SpanState(span.context, TX_SPAN_NAME, true, false, [], None, definition.tags)]
    ensures t.nextId == old(t.nextId) + 1 && t.reported == old(t.reported)
  {
    span := NamedSpan(t, parent);
    assert t.State(span.context) == Unrecorded(span.context).(name := TX_SPAN_NAME);
    StartTagged(t, span, definition.tags);
    assert map[] + definition.tags == definition.tags;
  }

  /** Starts `span` and adds `tags` to it. */
  method StartTagged(t: Tracer, span: Span, tags: map<string, string>)
    requires t.Valid()
    modifies t
    ensures t.Valid()
    ensures t.spans == old(t.spans)[span.context.spanId := old(t.State(span.context)).(started := true, tags := old(t.State(span.context)).tags + tags)]
    ensures t.nextId == Bump(old(t.nextId), span.context.spanId) && t.reported == old(t.reported)
  {
    t.Start(span);
    t.Tag(span, tags);
  }

  /** A new span under `parent`, named after transactions and not yet started. */
  method NamedSpan(t: Tracer, parent: Option<TraceContext>) returns (span: Span)
    requires t.Valid()
    modifies t
    ensures t.Valid()
    ensures span.context == ChildOf(parent, old(t.nextId))
    ensures t.spans == old(t.spans)[old(t.nextId) := Unrecorded(span.context).(name := TX_SPAN_NAME)]
    ensures t.nextId == old(t.nextId) + 1 && t.reported == old(t.reported)
  {
    span := t.NewSpan(parent);
    assert t.State(span.context) == Unrecorded(span.context);
    t.SetName(span, TX_SPAN_NAME);
  }

  class TraceReactiveTransactionManager {
    /** The beans the lazy lookups find. */
    const beanFactory: BeanFactory
    var tracer: Tracer?
    var currentTraceContext: CurrentTraceContext?
    /** How often each bean has been looked up. */
    ghost var tracerLookups: nat
    ghost var contextLookups: nat

    constructor (beanFactory: BeanFactory)
      ensures Valid() && this.beanFactory == beanFactory && tracer == null && currentTraceContext == null
    {
      this.beanFactory := beanFactory;
      tracer := null;
      currentTraceContext := null;
      tracerLookups := 0;
      contextLookups := 0;
    }

    /** Each collaborator is looked up at most once, and is the bean factory's. */
    ghost predicate Valid()
      reads this
    {
      && (tracer == null ==> tracerLookups == 0)
      && (tracer != null ==> tracerLookups == 1 && tracer == beanFactory.tracer)
      && (currentTraceContext == null ==> contextLookups == 0)
      && (currentTraceContext != null ==> contextLookups == 1 && currentTraceContext == beanFactory.tracer.currentTraceContext)
    }

    method LookupTracer() returns (t: Tracer)
      requires Valid()
      modifies this`tracer, this`tracerLookups
      ensures Valid() && t == beanFactory.tracer && tracer == t
      ensures tracerLookups == if old(tracer) == null then old(tracerLookups) + 1 else old(tracerLookups)
    {
      if tracer == null {
        tracer := beanFactory.tracer;
        tracerLookups := tracerLookups + 1;
      }
      t := tracer;
    }

    method LookupCurrentTraceContext() returns (c: CurrentTraceContext)
      requires Valid()
      modifies this`currentTraceContext, this`contextLookups
      ensures Valid() && c == beanFactory.tracer.currentTraceContext && currentTraceContext == c
      ensures contextLookups == if old(currentTraceContext) == null then old(contextLookups) + 1 else old(contextLookups)
    {
      if currentTraceContext == null {
        currentTraceContext := beanFactory.tracer.currentTraceContext;
        contextLookups := contextLookups + 1;
      }
      c := currentTraceContext;
    }

    /** Starts the span of `context`, with that context made current only while doing so. */
    method SpanFromContext(context: TraceContext) returns (s: Span)
      requires Valid() && beanFactory.tracer.Valid()
      modifies this`tracer, this`tracerLookups, this`currentTraceContext, this`contextLookups,
               beanFactory.tracer, beanFactory.tracer.currentTraceContext
      ensures Valid() && beanFactory.tracer.Valid()
      ensures s == Span(context)
      ensures beanFactory.tracer.currentTraceContext.current == old(beanFactory.tracer.currentTraceContext.current)
      ensures beanFactory.tracer.spans == old(beanFactory.tracer.spans)[context.spanId := old(beanFactory.tracer.State(context)).(started := true)]
      ensures beanFactory.tracer.nextId == Bump(old(beanFactory.tracer.nextId), context.spanId)
      ensures beanFactory.tracer.reported == old(beanFactory.tracer.reported)
    {
      var ctc := LookupCurrentTraceContext();
      var scope := ctc.MaybeScope(context);
      var t := LookupTracer();
      var current := t.CurrentSpan();
      s := current.value;
      t.Start(s);
      scope.Close();
    }

    /** span(contextView): the reactor-context span, else the span of its trace context, else the current span. */
    method SpanOf(contextView: ContextView) returns (s: Option<Span>)
      requires Valid() && beanFactory.tracer.Valid()
      modifies this`tracer, this`tracerLookups, this`currentTraceContext, this`contextLookups,
               beanFactory.tracer, beanFactory.tracer.currentTraceContext
      ensures Valid() && beanFactory.tracer.Valid()
      ensures var source := SourceOf(contextView, old(beanFactory.tracer.CurrentSpan()));
        && s == Resolved(source)
        && beanFactory.tracer.currentTraceContext.current == old(beanFactory.tracer.currentTraceContext.current)
        && beanFactory.tracer.reported == old(beanFactory.tracer.reported)
        && (!source.FromTraceContext? ==> unchanged(beanFactory.tracer))
        && (source.FromTraceContext? ==>
              && beanFactory.tracer.spans == old(beanFactory.tracer.spans)[source.context.spanId := old(beanFactory.tracer.State(source.context)).(started := true)]
              && beanFactory.tracer.nextId == Bump(old(beanFactory.tracer.nextId), source.context.spanId))
    {
      s := contextView.span;
      if s.None? {
        if contextView.traceContext.None? {
          var t := LookupTracer();
          s := t.CurrentSpan();
        } else {
          var fromContext := SpanFromContext(contextView.traceContext.value);
          s := Some(fromContext);
        }
      }
    }

    /**
     * The transaction span for a transaction that is new or not (`isNewTransaction`)
     * and the resolved span: a new, named, tagged, started span, or the resolved one.
     */
    method TransactionSpan(definition: TransactionDefinition, isNewTransaction: bool, resolved: Option<Span>)
      returns (span: Span)
      requires Valid() && beanFactory.tracer.Valid()
      modifies this`tracer, this`tracerLookups, beanFactory.tracer
      ensures Valid() && beanFactory.tracer.Valid()
      ensures var decision := Decide(isNewTransaction, resolved);
        var id := old(beanFactory.tracer.nextId);
        && beanFactory.tracer.reported == old(beanFactory.tracer.reported)
        && (decision.ContinueSpan? ==> span == decision.span && unchanged(beanFactory.tracer))
        && (decision.NewRootSpan? ==> span.context == ChildOf(old(beanFactory.tracer.currentTraceContext.current), id))
        && (decision.NewChildSpan? ==> span.context == ChildOf(Some(decision.parent.context), id))
        && (!decision.ContinueSpan? ==>
              && beanFactory.tracer.spans == old(beanFactory.tracer.spans)[id := SpanState(span.context, TX_SPAN_NAME, true, false, [], None, definition.tags)]
              && beanFactory.tracer.nextId == id + 1)
    {
      var t := LookupTracer();
      if isNewTransaction || resolved.None? {
        if resolved.None? {
          span := StartTransactionSpan(t, t.currentTraceContext.current, definition);
        } else {
          span := StartTransactionSpan(t, Some(resolved.value.context), definition);
        }
      } else {
        span := resolved.value;
      }
    }

    /**
     * The traced transaction for a delegate transaction (or the delegate's error,
     * passed through with no span touched). The transaction span is made current
     * by a scope that the transaction keeps for commit and rollback.
     */
    method GetReactiveTransaction(definition: TransactionDefinition, contextView: ContextView,
                                  delegateResult: DelegateResult)
      returns (r: TransactionResult)
      requires Valid() && beanFactory.tracer.Valid()
      modifies this`tracer, this`tracerLookups, this`currentTraceContext, this`contextLookups,
               beanFactory.tracer, beanFactory.tracer.currentTraceContext
      ensures Valid() && beanFactory.tracer.Valid()
      ensures delegateResult.DelegateFailed? ==>
        r == Failed(delegateResult.error) && unchanged(beanFactory.tracer, beanFactory.tracer.currentTraceContext)
      ensures delegateResult.DelegateEmitted? ==> r.Emitted?
      ensures delegateResult.DelegateEmitted? && r.Emitted? ==>
        var source := SourceOf(contextView, old(beanFactory.tracer.CurrentSpan()));
        var decision := Decide(delegateResult.transaction.newTransaction, Resolved(source));
        // What resolving the span leaves behind: only a trace-context source starts a span.
        var resolvedSpans := if source.FromTraceContext? then
            old(beanFactory.tracer.spans)[source.context.spanId := old(beanFactory.tracer.State(source.context)).(started := true)]
          else old(beanFactory.tracer.spans);
        var resolvedId := if source.FromTraceContext? then Bump(old(beanFactory.tracer.nextId), source.context.spanId)
          else old(beanFactory.tracer.nextId);
        var tx := r.transaction;
        var span := tx.spanAndScope.span;
        && fresh(tx) && tx.delegate == delegateResult.transaction
        && tx.spanAndScope.tracer == beanFactory.tracer
        && fresh(tx.spanAndScope.scope) && !tx.spanAndScope.scope.closed && !tx.spanAndScope.scope.noop
        && tx.spanAndScope.scope.owner == beanFactory.tracer.currentTraceContext
        && tx.spanAndScope.scope.previous == old(beanFactory.tracer.currentTraceContext.current)
        // The transaction span is current until commit or rollback.
        && beanFactory.tracer.currentTraceContext.current == Some(span.context)
        && beanFactory.tracer.reported == old(beanFactory.tracer.reported)
        && (decision.ContinueSpan? ==>
              && span == decision.span
              && beanFactory.tracer.spans == resolvedSpans && beanFactory.tracer.nextId == resolvedId)
        && (decision.NewRootSpan? ==> span.context == ChildOf(None, resolvedId))
        && (decision.NewChildSpan? ==> span.context == ChildOf(Some(decision.parent.context), resolvedId))
        && (!decision.ContinueSpan? ==>
              && beanFactory.tracer.spans == resolvedSpans[resolvedId := SpanState(span.context, TX_SPAN_NAME, true, false, [], None, definition.tags)]
              && beanFactory.tracer.nextId == resolvedId + 1)
    {
      if delegateResult.DelegateFailed? {
        return Failed(delegateResult.error);
      }
      var delegateTx := delegateResult.transaction;
      var resolved := SpanOf(contextView);
      var span := TransactionSpan(definition, delegateTx.newTransaction, resolved);
      var t := LookupTracer();
      var withSpan := t.WithSpan(Some(span));
      var spanAndScope := new SpanAndScope(t, span, withSpan);
      var tx := new TraceReactiveTransaction(delegateTx, spanAndScope);
      r := Emitted(tx);
    }

    /**
     * Commits `transaction`; `delegateOutcome` is how the delegate's commit ends,
     * and is what the caller sees.
     */
    method Commit(transaction: Transaction, delegateOutcome: Outcome) returns (o: Outcome)
      requires transaction.Traced? ==> transaction.traced.spanAndScope.tracer.Valid()
      modifies if transaction.Traced? then {transaction.traced.spanAndScope.scope,
                                            transaction.traced.spanAndScope.scope.owner,
                                            transaction.traced.spanAndScope.tracer} else {}
      ensures o == delegateOutcome
      ensures transaction.Traced? ==>
        var sas := transaction.traced.spanAndScope;
        var before := old(sas.tracer.State(sas.span.context));
        && sas.tracer.Valid() && sas.scope.closed
        && sas.scope.owner.current == (if old(sas.scope.closed) || sas.scope.noop then old(sas.scope.owner.current) else sas.scope.previous)
        // The span records the delegate's error, and is ended only when the commit succeeded.
        && (delegateOutcome.Threw? ==>
              && sas.tracer.spans == old(sas.tracer.spans)[sas.span.context.spanId := before.(error := Some(delegateOutcome.error))]
              && sas.tracer.reported == old(sas.tracer.reported))
        && (delegateOutcome.Completed? ==>
              && sas.tracer.spans == old(sas.tracer.spans)[sas.span.context.spanId := Finished(before, None)]
              && sas.tracer.reported == old(sas.tracer.reported) + (if before.ended then [] else [before.context]))
        && sas.tracer.nextId == Bump(old(sas.tracer.nextId), sas.span.context.spanId)
    {
      if transaction.Plain? {
        return delegateOutcome;
      }
      var sas := transaction.traced.spanAndScope;
      sas.scope.Close();
      if delegateOutcome.Threw? {
        sas.tracer.SetError(sas.span, delegateOutcome.error);
      } else {
        sas.Close();
      }
      o := delegateOutcome;
    }

    /**
     * Rolls `transaction` back; `delegateOutcome` is how the delegate's rollback
     * ends, and is what the caller sees.
     */
    method Rollback(transaction: Transaction, delegateOutcome: Outcome) returns (o: Outcome)
      requires transaction.Traced? ==> transaction.traced.spanAndScope.tracer.Valid()
      modifies if transaction.Traced? then {transaction.traced.spanAndScope.scope,
                                            transaction.traced.spanAndScope.scope.owner,
                                            transaction.traced.spanAndScope.tracer} else {}
      ensures o == delegateOutcome
      ensures transaction.Traced? ==>
        var sas := transaction.traced.spanAndScope;
        var before := old(sas.tracer.State(sas.span.context));
        var error := if delegateOutcome.Threw? then Some(delegateOutcome.error) else None;
        && sas.tracer.Valid() && sas.scope.closed
        && sas.scope.owner.current == (if old(sas.scope.closed) || sas.scope.noop then old(sas.scope.owner.current) else sas.scope.previous)
        // The span records the delegate's error, and is ended whatever the outcome.
        && sas.tracer.spans == old(sas.tracer.spans)[sas.span.context.spanId := Finished(before, error)]
        && sas.tracer.reported == old(sas.tracer.reported) + (if before.ended then [] else [before.context])
        && sas.tracer.nextId == Bump(old(sas.tracer.nextId), sas.span.context.spanId)
    {
      if transaction.Plain? {
        return delegateOutcome;
      }
      var sas := transaction.traced.spanAndScope;
      sas.scope.Close();
      sas.CloseWithError(if delegateOutcome.Threw? then Some(delegateOutcome.error) else None);
      o := delegateOutcome;
    }
  }

  /** What the delegate manager's getReactiveTransaction emits. */
  datatype DelegateResult = DelegateEmitted(transaction: DelegateTransaction) | DelegateFailed(error: Throwable)
}
