/**
 * The servlet-side registration of the tracing filter: a lazy filter that builds
 * the real tracing filter from the bean factory on first use and delegates every
 * call to that one instance, registered for all dispatcher types at the
 * configured order.
 */
module WebServletConfiguration {

  import opened Wrappers
  import opened Tracing
  import opened ServletFilter

  class LazyTracingFilter {
    const beanFactory: BeanFactory
    var tracingFilter: TracingFilter?
    /** How many tracing filters this lazy filter has built. */
    ghost var creations: nat

    /**
     * At most one tracing filter is ever built, and it is built from the bean
     * factory's current-context holder and server handler.
     */
    ghost predicate Valid()
      reads this, beanFactory, beanFactory.tracer
    {
      && beanFactory.Valid() && beanFactory.tracer.Valid()
      && (tracingFilter == null ==> creations == 0)
      && (tracingFilter != null ==>
            && creations == 1
            && tracingFilter.currentTraceContext == beanFactory.tracer.currentTraceContext
            && tracingFilter.handler == beanFactory.serverHandler)
    }

    constructor (beanFactory: BeanFactory)
      requires beanFactory.Valid() && beanFactory.tracer.Valid()
      ensures Valid() && this.beanFactory == beanFactory && tracingFilter == null
    {
      this.beanFactory := beanFactory;
      tracingFilter := null;
      creations := 0;
    }

    /** The tracing filter: built on the first call, the same instance on every later one. */
    method TracingFilterInstance() returns (f: TracingFilter)
      requires Valid()
      modifies this`tracingFilter, this`creations
      ensures Valid() && tracingFilter == f && f.Valid() && creations == 1
      ensures old(tracingFilter) != null ==> f == old(tracingFilter)
      ensures old(tracingFilter) == null ==> fresh(f)
    {
      if tracingFilter == null {
        tracingFilter := new TracingFilter(beanFactory.tracer.currentTraceContext, beanFactory.serverHandler);
        creations := creations + 1;
      }
      f := tracingFilter;
    }

    method Init()
      requires Valid()
      modifies this`tracingFilter, this`creations
      ensures Valid() && tracingFilter != null && creations == 1
      ensures old(tracingFilter) != null ==> tracingFilter == old(tracingFilter)
    {
      var f := TracingFilterInstance();
      f.Init();
    }

    /** Filters through the one tracing filter; see TracingFilter.DoFilter. */
    method DoFilter(request: ServletRequest, chain: Chain) returns (outcome: Outcome, view: Option<ChainView>)
      requires Valid()
      modifies this`tracingFilter, this`creations, request, beanFactory.tracer, beanFactory.tracer.currentTraceContext
      ensures Valid() && tracingFilter != null && creations == 1
      ensures old(tracingFilter) != null ==> tracingFilter == old(tracingFilter)
      ensures beanFactory.tracer.currentTraceContext.current == old(beanFactory.tracer.currentTraceContext.current)
      ensures StoredContext(old(request.attributes)).NotAContext? ==>
        outcome == Threw(CLASS_CAST) && unchanged(beanFactory.tracer)
      ensures StoredContext(old(request.attributes)).Found? ==>
        outcome == chain.outcome && unchanged(beanFactory.tracer)
      ensures StoredContext(old(request.attributes)).Absent? ==>
        && outcome == chain.outcome
        && beanFactory.tracer.nextId == old(beanFactory.tracer.nextId) + 1
        && beanFactory.tracer.reported == old(beanFactory.tracer.reported)
             + (if chain.startsAsync then [] else [ChildOf(request.extracted, old(beanFactory.tracer.nextId))])
    {
      var f := TracingFilterInstance();
      outcome, view := f.DoFilter(request, chain);
    }

    method Destroy()
      requires Valid()
      modifies this`tracingFilter, this`creations
      ensures Valid() && tracingFilter != null && creations == 1
      ensures old(tracingFilter) != null ==> tracingFilter == old(tracingFilter)
    {
      var f := TracingFilterInstance();
      f.Destroy();
    }
  }

  /** The servlet dispatch kinds a filter can be registered for. */
  datatype DispatcherType = ASYNC | ERROR | FORWARD | INCLUDE | REQUEST

  /** The web properties the registration reads. */
  datatype SleuthWebProperties = SleuthWebProperties(filterOrder: int)

  /** A filter registration: the filter, the dispatch kinds it runs for, and its order. */
  datatype FilterRegistrationBean = FilterRegistrationBean(
    filter: LazyTracingFilter,
    dispatcherTypes: set<DispatcherType>,
    order: int)

  /** Registers a new lazy tracing filter for every dispatcher type at the configured order. */
  method TraceWebFilter(beanFactory: BeanFactory, webProperties: SleuthWebProperties) returns (r: FilterRegistrationBean)
    requires beanFactory.Valid() && beanFactory.tracer.Valid()
    ensures fresh(r.filter) && r.filter.Valid() && r.filter.beanFactory == beanFactory && r.filter.tracingFilter == null
    ensures forall d: DispatcherType :: d in r.dispatcherTypes
    ensures r.order == webProperties.filterOrder
  {
    var filter := new LazyTracingFilter(beanFactory);
    r := FilterRegistrationBean(filter, {ASYNC, ERROR, FORWARD, INCLUDE, REQUEST}, webProperties.filterOrder);
    forall d: DispatcherType ensures d in r.dispatcherTypes {
      match d
      case ASYNC =>
      case ERROR =>
      case FORWARD =>
      case INCLUDE =>
      case REQUEST =>
    }
  }
}
