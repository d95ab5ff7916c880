/**
 * The WebClient bean post-processor: every WebClient and WebClient builder bean
 * ends up with the tracing exchange filter in its filter list, appended only when
 * the list has none, so applying the update again changes nothing.
 */
module WebClientPostProcessor {

  /** An exchange filter function: the tracing one, or any other. */
  datatype FilterFunction = TraceExchangeFilterFunction | OtherFilter(id: nat)

  /** How many tracing filters a filter list holds. */
  function TraceCount(functions: seq<FilterFunction>): (n: nat)
    ensures n <= |functions|
  {
    if |functions| == 0 then 0
    else (if functions[0].TraceExchangeFilterFunction? then 1 else 0) + TraceCount(functions[1..])
  }

  /** No element of the list is a tracing filter. */
  predicate NoneMatch(functions: seq<FilterFunction>)
  {
    forall i | 0 <= i < |functions| :: !functions[i].TraceExchangeFilterFunction?
  }

  /**
   * The filter list after the update: the existing filters unchanged, followed by
   * the tracing filter exactly when there was none, so that afterwards there is one.
   */
  function WithTraceFilter(functions: seq<FilterFunction>): (r: seq<FilterFunction>)
    ensures |r| == if NoneMatch(functions) then |functions| + 1 else |functions|
    ensures r[..|functions|] == functions
    ensures !NoneMatch(r)
  {
    if NoneMatch(functions) then
      var r := functions + [TraceExchangeFilterFunction];
      assert r[|functions|].TraceExchangeFilterFunction?;
      r
    else functions
  }

  lemma {:induction false} TraceCountAppend(xs: seq<FilterFunction>, ys: seq<FilterFunction>)
    ensures TraceCount(xs + ys) == TraceCount(xs) + TraceCount(ys)
  {
    if |xs| == 0 {
      assert xs + ys == ys;
    } else {
      assert (xs + ys)[1..] == xs[1..] + ys;
      TraceCountAppend(xs[1..], ys);
    }
  }

  /** A list has no tracing filter exactly when it counts none. */
  lemma {:induction false} NoneMatchIffNoTraceCount(functions: seq<FilterFunction>)
    ensures NoneMatch(functions) <==> TraceCount(functions) == 0
  {
    if |functions| > 0 {
      NoneMatchIffNoTraceCount(functions[1..]);
      if NoneMatch(functions) {
        assert NoneMatch(functions[1..]) by {
          forall i | 0 <= i < |functions[1..]| ensures !functions[1..][i].TraceExchangeFilterFunction? {
            assert functions[1..][i] == functions[i + 1];
          }
        }
      } else if !functions[0].TraceExchangeFilterFunction? {
        var i :| 0 <= i < |functions| && functions[i].TraceExchangeFilterFunction?;
        assert functions[1..][i - 1] == functions[i];
      }
    }
  }

  /**
   * The update keeps the existing filters in order, grows the list by at most
   * one, and leaves exactly one tracing filter when there was none, otherwise as many as before.
   */
  lemma WithTraceFilterShape(functions: seq<FilterFunction>)
    ensures var r := WithTraceFilter(functions);
      && r[..|functions|] == functions
      && |functions| <= |r| <= |functions| + 1
      && TraceCount(r) == if TraceCount(functions) == 0 then 1 else TraceCount(functions)
  {
    NoneMatchIffNoTraceCount(functions);
    TraceCountAppend(functions, [TraceExchangeFilterFunction]);
    assert TraceCount([TraceExchangeFilterFunction]) == 1 by {
      assert [TraceExchangeFilterFunction][1..] == [];
    }
  }

  /** Applying the update twice gives the list applying it once gives. */
  lemma WithTraceFilterIdempotent(functions: seq<FilterFunction>)
    ensures WithTraceFilter(WithTraceFilter(functions)) == WithTraceFilter(functions)
  {
    var r := WithTraceFilter(functions);
    if NoneMatch(functions) {
      assert r[|functions|].TraceExchangeFilterFunction?;
    }
  }

  /** The check for an existing tracing filter: stops at the first one it meets. */
  method NoneMatchTraceExchangeFunction(functions: seq<FilterFunction>) returns (noneMatch: bool)
    ensures noneMatch <==> NoneMatch(functions)
  {
    var i := 0;
    while i < |functions|
      invariant 0 <= i <= |functions|
      invariant forall j | 0 <= j < i :: !functions[j].TraceExchangeFilterFunction?
    {
      if functions[i].TraceExchangeFilterFunction? {
        return false;
      }
      i := i + 1;
    }
    return true;
  }

  /** A WebClient: immutable; its builder settings other than the filters are opaque. */
  datatype WebClient = WebClient(settings: nat, filters: seq<FilterFunction>)

  class WebClientBuilder {
    const settings: nat
    var filters: seq<FilterFunction>

    constructor (settings: nat, filters: seq<FilterFunction>)
      ensures this.settings == settings && this.filters == filters
    {
      this.settings := settings;
      this.filters := filters;
    }

    /** The update handed to filters(...): appends the tracing filter if the list has none. */
    method AddTraceExchangeFilterFunctionIfNotPresent()
      modifies this
      ensures filters == WithTraceFilter(old(filters))
    {
      var noneMatch := NoneMatchTraceExchangeFunction(filters);
      if noneMatch {
        filters := filters + [TraceExchangeFilterFunction];
      }
    }

    method Build() returns (client: WebClient)
      ensures client == WebClient(settings, filters)
    {
      client := WebClient(settings, filters);
    }
  }

  /** A bean handed to the post-processor. */
  datatype WebBean = WebClientBean(client: WebClient) | BuilderBean(builder: WebClientBuilder) | OtherBean(id: nat)

  /** Before initialisation every bean is returned as it is. */
  function PostProcessBeforeInitialization(bean: WebBean, beanName: string): (r: WebBean)
    ensures r == bean
  {
    bean
  }

  /**
   * A WebClient is rebuilt from a copy of its builder with the tracing filter
   * ensured; a builder gets the filter ensured in place; other beans stay as they are.
   */
  method PostProcessAfterInitialization(bean: WebBean, beanName: string) returns (r: WebBean)
    modifies if bean.BuilderBean? then {bean.builder} else {}
    ensures bean.WebClientBean? ==>
      r == WebClientBean(WebClient(bean.client.settings, WithTraceFilter(bean.client.filters)))
    ensures bean.BuilderBean? ==>
      r == bean && bean.builder.filters == WithTraceFilter(old(bean.builder.filters))
    ensures bean.OtherBean? ==> r == bean
  {
    match bean
    case WebClientBean(client) =>
      var mutated := new WebClientBuilder(client.settings, client.filters);
      mutated.AddTraceExchangeFilterFunctionIfNotPresent();
      var rebuilt := mutated.Build();
      r := WebClientBean(rebuilt);
    case BuilderBean(builder) =>
      builder.AddTraceExchangeFilterFunctionIfNotPresent();
      r := bean;
    case OtherBean(_) =>
      r := bean;
  }
}
