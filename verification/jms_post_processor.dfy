/**
 * The JMS bean post-processor and its lazy wrappers. Connection factories are
 * replaced by wrappers that look the JMS tracing object up in the bean factory on
 * first use and wrap their delegate at most once; an endpoint manager keeps its
 * identity but gets its message listener wrapped. JMS factories, connections and
 * listeners are opaque here: a raw one is a number, a traced one records which
 * tracing object wrapped which delegate.
 */
module JmsPostProcessor {

  import opened Wrappers
  import opened Tracing

  /** The user name and password of the two-argument create calls. */
  datatype Credentials = Credentials(userName: string, password: string)

  /** How the JMS tracing object wraps what it is given. */
  datatype Wrapping = ConnectionFactoryWrapping | XAConnectionFactoryWrapping | TopicConnectionWrapping

  /** A JMS object traced by `tracing`: the raw delegate it was made from and how. */
  datatype Traced = Traced(tracing: JmsTracing, wrapping: Wrapping, delegate: nat)

  /** What a create call asks for. */
  datatype Kind = ConnectionKind | ContextKind | XAConnectionKind | XAContextKind | TopicConnectionKind

  /**
   * A connection or context from a create call: the traced object it came from,
   * and the arguments of the overload that was called.
   */
  datatype Created = Created(via: Traced, kind: Kind, credentials: Option<Credentials>, sessionMode: Option<int>)

  /** A cached lookup has happened exactly when its cache is filled, and returned the bean. */
  ghost predicate CachedOnce(cache: Option<JmsTracing>, lookups: nat, bean: JmsTracing)
  {
    (cache.None? ==> lookups == 0) && (cache.Some? ==> lookups == 1 && cache.value == bean)
  }

  class LazyConnectionFactory {
    const beanFactory: BeanFactory
    const delegate: nat
    var jmsTracing: Option<JmsTracing>
    var wrappedDelegate: Option<Traced>
    /** How often the bean factory was asked for the JMS tracing object. */
    ghost var lookups: nat
    /** How often the JMS tracing object was asked to wrap the delegate. */
    ghost var wraps: nat

    /** The tracing object is looked up at most once and the delegate wrapped at most once, by it. */
    ghost predicate Valid()
      reads this
    {
      && CachedOnce(jmsTracing, lookups, beanFactory.jmsTracing)
      && (wrappedDelegate.None? ==> wraps == 0)
      && (wrappedDelegate.Some? ==>
            && jmsTracing.Some? && wraps == 1
            && wrappedDelegate.value == Traced(beanFactory.jmsTracing, ConnectionFactoryWrapping, delegate))
    }

    constructor (beanFactory: BeanFactory, delegate: nat)
      ensures Valid() && this.beanFactory == beanFactory && this.delegate == delegate
      ensures jmsTracing.None? && wrappedDelegate.None? && lookups == 0 && wraps == 0
    {
      this.beanFactory := beanFactory;
      this.delegate := delegate;
      jmsTracing := None;
      wrappedDelegate := None;
      lookups := 0;
      wraps := 0;
    }

    method LookupJmsTracing() returns (t: JmsTracing)
      requires Valid()
      modifies this`jmsTracing, this`lookups
      ensures Valid() && t == beanFactory.jmsTracing && jmsTracing == Some(t) && lookups == 1
    {
      if jmsTracing.None? {
        jmsTracing := Some(beanFactory.jmsTracing);
        lookups := lookups + 1;
      }
      t := jmsTracing.value;
    }

    /** The wrapped delegate: made on the first call, the same instance on every later one. */
    method WrappedDelegate() returns (w: Traced)
      requires Valid()
      modifies this`jmsTracing, this`lookups, this`wrappedDelegate, this`wraps
      ensures Valid() && wrappedDelegate == Some(w) && lookups == 1 && wraps == 1
      ensures wraps == if old(wrappedDelegate).None? then old(wraps) + 1 else old(wraps)
      ensures w == Traced(beanFactory.jmsTracing, ConnectionFactoryWrapping, delegate)
      ensures old(wrappedDelegate).Some? ==> w == old(wrappedDelegate).value
    {
      if wrappedDelegate.Some? {
        return wrappedDelegate.value;
      }
      var t := LookupJmsTracing();
      w := Traced(t, ConnectionFactoryWrapping, delegate);
      wrappedDelegate := Some(w);
      wraps := wraps + 1;
    }

    method CreateConnection(credentials: Option<Credentials>) returns (c: Created)
      requires Valid()
      modifies this`jmsTracing, this`lookups, this`wrappedDelegate, this`wraps
      ensures Valid() && wrappedDelegate == Some(c.via) && lookups == 1 && wraps == 1
      ensures c == Created(Traced(beanFactory.jmsTracing, ConnectionFactoryWrapping, delegate), ConnectionKind, credentials, None)
    {
      var w := WrappedDelegate();
      c := Created(w, ConnectionKind, credentials, None);
    }

    method CreateContext(credentials: Option<Credentials>, sessionMode: Option<int>) returns (c: Created)
      requires Valid()
      modifies this`jmsTracing, this`lookups, this`wrappedDelegate, this`wraps
      ensures Valid() && wrappedDelegate == Some(c.via) && lookups == 1 && wraps == 1
      ensures c == Created(Traced(beanFactory.jmsTracing, ConnectionFactoryWrapping, delegate), ContextKind, credentials, sessionMode)
    {
      var w := WrappedDelegate();
      c := Created(w, ContextKind, credentials, sessionMode);
    }
  }

  class LazyXAConnectionFactory {
    const beanFactory: BeanFactory
    const delegate: nat
    var jmsTracing: Option<JmsTracing>
    var wrappedDelegate: Option<Traced>
    ghost var lookups: nat
    ghost var wraps: nat

    ghost predicate Valid()
      reads this
    {
      && CachedOnce(jmsTracing, lookups, beanFactory.jmsTracing)
      && (wrappedDelegate.None? ==> wraps == 0)
      && (wrappedDelegate.Some? ==>
            && jmsTracing.Some? && wraps == 1
            && wrappedDelegate.value == Traced(beanFactory.jmsTracing, XAConnectionFactoryWrapping, delegate))
    }

    constructor (beanFactory: BeanFactory, delegate: nat)
      ensures Valid() && this.beanFactory == beanFactory && this.delegate == delegate
      ensures jmsTracing.None? && wrappedDelegate.None? && lookups == 0 && wraps == 0
    {
      this.beanFactory := beanFactory;
      this.delegate := delegate;
      jmsTracing := None;
      wrappedDelegate := None;
      lookups := 0;
      wraps := 0;
    }

    method LookupJmsTracing() returns (t: JmsTracing)
      requires Valid()
      modifies this`jmsTracing, this`lookups
      ensures Valid() && t == beanFactory.jmsTracing && jmsTracing == Some(t) && lookups == 1
    {
      if jmsTracing.None? {
        jmsTracing := Some(beanFactory.jmsTracing);
        lookups := lookups + 1;
      }
      t := jmsTracing.value;
    }

    method WrappedDelegate() returns (w: Traced)
      requires Valid()
      modifies this`jmsTracing, this`lookups, this`wrappedDelegate, this`wraps
      ensures Valid() && wrappedDelegate == Some(w) && lookups == 1 && wraps == 1
      ensures wraps == if old(wrappedDelegate).None? then old(wraps) + 1 else old(wraps)
      ensures w == Traced(beanFactory.jmsTracing, XAConnectionFactoryWrapping, delegate)
      ensures old(wrappedDelegate).Some? ==> w == old(wrappedDelegate).value
    {
      if wrappedDelegate.Some? {
        return wrappedDelegate.value;
      }
      var t := LookupJmsTracing();
      w := Traced(t, XAConnectionFactoryWrapping, delegate);
      wrappedDelegate := Some(w);
      wraps := wraps + 1;
    }

    method CreateXAConnection(credentials: Option<Credentials>) returns (c: Created)
      requires Valid()
      modifies this`jmsTracing, this`lookups, this`wrappedDelegate, this`wraps
      ensures Valid() && wrappedDelegate == Some(c.via) && lookups == 1 && wraps == 1
      ensures c == Created(Traced(beanFactory.jmsTracing, XAConnectionFactoryWrapping, delegate), XAConnectionKind, credentials, None)
    {
      var w := WrappedDelegate();
      c := Created(w, XAConnectionKind, credentials, None);
    }

    method CreateXAContext(credentials: Option<Credentials>) returns (c: Created)
      requires Valid()
      modifies this`jmsTracing, this`lookups, this`wrappedDelegate, this`wraps
      ensures Valid() && wrappedDelegate == Some(c.via) && lookups == 1 && wraps == 1
      ensures c == Created(Traced(beanFactory.jmsTracing, XAConnectionFactoryWrapping, delegate), XAContextKind, credentials, None)
    {
      var w := WrappedDelegate();
      c := Created(w, XAContextKind, credentials, None);
    }
  }

  /**
   * A topic factory: each topic connection the delegate makes is wrapped on its
   * own, and plain connections and contexts go through an inner lazy factory.
   */
  class LazyTopicConnectionFactory {
    const beanFactory: BeanFactory
    const delegate: nat
    const factory: LazyConnectionFactory
    var jmsTracing: Option<JmsTracing>
    ghost var lookups: nat

    ghost predicate Valid()
      reads this, factory
    {
      && CachedOnce(jmsTracing, lookups, beanFactory.jmsTracing)
      && factory.Valid() && factory.beanFactory == beanFactory && factory.delegate == delegate
    }

    constructor (beanFactory: BeanFactory, delegate: nat)
      ensures Valid() && this.beanFactory == beanFactory && this.delegate == delegate
      ensures fresh(factory) && factory.wrappedDelegate.None? && jmsTracing.None? && lookups == 0
    {
      this.beanFactory := beanFactory;
      this.delegate := delegate;
      this.factory := new LazyConnectionFactory(beanFactory, delegate);
      jmsTracing := None;
      lookups := 0;
    }

    method LookupJmsTracing() returns (t: JmsTracing)
      requires Valid()
      modifies this`jmsTracing, this`lookups
      ensures Valid() && t == beanFactory.jmsTracing && jmsTracing == Some(t) && lookups == 1
    {
      if jmsTracing.None? {
        jmsTracing := Some(beanFactory.jmsTracing);
        lookups := lookups + 1;
      }
      t := jmsTracing.value;
    }

    /** Every topic connection is wrapped by itself; only the lookup is cached. */
    method CreateTopicConnection(credentials: Option<Credentials>) returns (c: Created)
      requires Valid()
      modifies this`jmsTracing, this`lookups
      ensures Valid() && lookups == 1
      ensures c == Created(Traced(beanFactory.jmsTracing, TopicConnectionWrapping, delegate), TopicConnectionKind, credentials, None)
    {
      var t := LookupJmsTracing();
      c := Created(Traced(t, TopicConnectionWrapping, delegate), TopicConnectionKind, credentials, None);
    }

    method CreateConnection(credentials: Option<Credentials>) returns (c: Created)
      requires Valid()
      modifies factory`jmsTracing, factory`lookups, factory`wrappedDelegate, factory`wraps
      ensures Valid() && factory.wrappedDelegate == Some(c.via) && factory.wraps == 1
      ensures c == Created(Traced(beanFactory.jmsTracing, ConnectionFactoryWrapping, delegate), ConnectionKind, credentials, None)
    {
      c := factory.CreateConnection(credentials);
    }

    method CreateContext(credentials: Option<Credentials>, sessionMode: Option<int>) returns (c: Created)
      requires Valid()
      modifies factory`jmsTracing, factory`lookups, factory`wrappedDelegate, factory`wraps
      ensures Valid() && factory.wrappedDelegate == Some(c.via) && factory.wraps == 1
      ensures c == Created(Traced(beanFactory.jmsTracing, ConnectionFactoryWrapping, delegate), ContextKind, credentials, sessionMode)
    {
      c := factory.CreateContext(credentials, sessionMode);
    }
  }

  /** A bean that is a plain and an XA factory at once: each side goes to its own lazy wrapper. */
  class LazyConnectionAndXaConnectionFactory {
    const connectionFactoryDelegate: LazyConnectionFactory
    const xaConnectionFactoryDelegate: LazyXAConnectionFactory

    ghost predicate Valid()
      reads this, connectionFactoryDelegate, xaConnectionFactoryDelegate
    {
      connectionFactoryDelegate.Valid() && xaConnectionFactoryDelegate.Valid()
    }

    constructor (beanFactory: BeanFactory, connectionFactoryDelegate: nat, xaConnectionFactoryDelegate: nat)
      ensures Valid() && fresh(this.connectionFactoryDelegate) && fresh(this.xaConnectionFactoryDelegate)
      ensures this.connectionFactoryDelegate.beanFactory == beanFactory
      ensures this.connectionFactoryDelegate.delegate == connectionFactoryDelegate
      ensures this.connectionFactoryDelegate.wrappedDelegate.None?
      ensures this.xaConnectionFactoryDelegate.beanFactory == beanFactory
      ensures this.xaConnectionFactoryDelegate.delegate == xaConnectionFactoryDelegate
      ensures this.xaConnectionFactoryDelegate.wrappedDelegate.None?
    {
      this.connectionFactoryDelegate := new LazyConnectionFactory(beanFactory, connectionFactoryDelegate);
      this.xaConnectionFactoryDelegate := new LazyXAConnectionFactory(beanFactory, xaConnectionFactoryDelegate);
    }

    method CreateConnection(credentials: Option<Credentials>) returns (c: Created)
      requires Valid()
      modifies connectionFactoryDelegate`jmsTracing, connectionFactoryDelegate`lookups, connectionFactoryDelegate`wrappedDelegate, connectionFactoryDelegate`wraps
      ensures Valid() && connectionFactoryDelegate.wrappedDelegate == Some(c.via) && connectionFactoryDelegate.wraps == 1
      ensures c == Created(Traced(connectionFactoryDelegate.beanFactory.jmsTracing, ConnectionFactoryWrapping, connectionFactoryDelegate.delegate),
                           ConnectionKind, credentials, None)
    {
      c := connectionFactoryDelegate.CreateConnection(credentials);
    }

    method CreateContext(credentials: Option<Credentials>, sessionMode: Option<int>) returns (c: Created)
      requires Valid()
      modifies connectionFactoryDelegate`jmsTracing, connectionFactoryDelegate`lookups, connectionFactoryDelegate`wrappedDelegate, connectionFactoryDelegate`wraps
      ensures Valid() && connectionFactoryDelegate.wrappedDelegate == Some(c.via) && connectionFactoryDelegate.wraps == 1
      ensures c == Created(Traced(connectionFactoryDelegate.beanFactory.jmsTracing, ConnectionFactoryWrapping, connectionFactoryDelegate.delegate),
                           ContextKind, credentials, sessionMode)
    {
      c := connectionFactoryDelegate.CreateContext(credentials, sessionMode);
    }

    method CreateXAConnection(credentials: Option<Credentials>) returns (c: Created)
      requires Valid()
      modifies xaConnectionFactoryDelegate`jmsTracing, xaConnectionFactoryDelegate`lookups, xaConnectionFactoryDelegate`wrappedDelegate, xaConnectionFactoryDelegate`wraps
      ensures Valid() && xaConnectionFactoryDelegate.wrappedDelegate == Some(c.via) && xaConnectionFactoryDelegate.wraps == 1
      ensures c == Created(Traced(xaConnectionFactoryDelegate.beanFactory.jmsTracing, XAConnectionFactoryWrapping, xaConnectionFactoryDelegate.delegate),
                           XAConnectionKind, credentials, None)
    {
      c := xaConnectionFactoryDelegate.CreateXAConnection(credentials);
    }

    method CreateXAContext(credentials: Option<Credentials>) returns (c: Created)
      requires Valid()
      modifies xaConnectionFactoryDelegate`jmsTracing, xaConnectionFactoryDelegate`lookups, xaConnectionFactoryDelegate`wrappedDelegate, xaConnectionFactoryDelegate`wraps
      ensures Valid() && xaConnectionFactoryDelegate.wrappedDelegate == Some(c.via) && xaConnectionFactoryDelegate.wraps == 1
      ensures c == Created(Traced(xaConnectionFactoryDelegate.beanFactory.jmsTracing, XAConnectionFactoryWrapping, xaConnectionFactoryDelegate.delegate),
                           XAContextKind, credentials, None)
    {
      c := xaConnectionFactoryDelegate.CreateXAContext(credentials);
    }
  }

  /** A message listener: one of the application's, or a lazy tracing wrapper around another. */
  datatype MessageListener = ApplicationListener(id: nat) | LazyListener(lazy: LazyMessageListener)

  /** A listener wrapped by the JMS tracing object, with or without a consumer span of its own. */
  datatype TracedListener = TracedListener(tracing: JmsTracing, delegate: MessageListener, addConsumerSpan: bool)

  class LazyMessageListener {
    const beanFactory: BeanFactory
    const delegate: MessageListener
    var jmsTracing: Option<JmsTracing>
    ghost var lookups: nat
    /** How many wrappers of the delegate have been made. */
    ghost var wraps: nat

    ghost predicate Valid()
      reads this
    {
      CachedOnce(jmsTracing, lookups, beanFactory.jmsTracing)
    }

    constructor (beanFactory: BeanFactory, delegate: MessageListener)
      ensures Valid() && this.beanFactory == beanFactory && this.delegate == delegate
      ensures jmsTracing.None? && lookups == 0 && wraps == 0
    {
      this.beanFactory := beanFactory;
      this.delegate := delegate;
      jmsTracing := None;
      lookups := 0;
      wraps := 0;
    }

    method LookupJmsTracing() returns (t: JmsTracing)
      requires Valid()
      modifies this`jmsTracing, this`lookups
      ensures Valid() && t == beanFactory.jmsTracing && jmsTracing == Some(t) && lookups == 1
    {
      if jmsTracing.None? {
        jmsTracing := Some(beanFactory.jmsTracing);
        lookups := lookups + 1;
      }
      t := jmsTracing.value;
    }

    /**
     * Delivers `message` through a wrapper of the delegate that adds a consumer span.
     * The wrapper is made anew on every message; only the lookup is cached.
     */
    method OnMessage(message: nat) returns (deliveredBy: TracedListener)
      requires Valid()
      modifies this`jmsTracing, this`lookups, this`wraps
      ensures Valid() && lookups == 1 && wraps == old(wraps) + 1
      ensures deliveredBy == TracedListener(beanFactory.jmsTracing, delegate, true)
    {
      var t := LookupJmsTracing();
      deliveredBy := TracedListener(t, delegate, true);
      wraps := wraps + 1;
    }
  }

  /** A JMS endpoint manager, whose message listener the post-processor may replace. */
  class JmsMessageEndpointManager {
    var messageListener: Option<MessageListener>

    constructor (messageListener: Option<MessageListener>)
      ensures this.messageListener == messageListener
    {
      this.messageListener := messageListener;
    }
  }

  /** The connection-factory interfaces a bean can implement. */
  datatype FactoryType = CachingConnectionFactoryType | XAConnectionFactoryType | TopicConnectionFactoryType | ConnectionFactoryType

  /**
   * Every factory interface a bean implements, closed under the JMS hierarchy: a
   * topic factory and Spring's caching factory are connection factories too.
   */
  type FactoryTypes = ts: set<FactoryType> |
    && (TopicConnectionFactoryType in ts ==> ConnectionFactoryType in ts)
    && (CachingConnectionFactoryType in ts ==> ConnectionFactoryType in ts)
    witness {}

  /** A bean handed to the post-processor: an endpoint manager, or any other bean with the factory types it implements. */
  datatype Bean = EndpointManagerBean(manager: JmsMessageEndpointManager) | FactoryBean(id: nat, types: FactoryTypes)

  /** What the post-processor does with a bean; the first matching test wins. */
  datatype Route = WrapCaching | WrapListener | WrapBoth | WrapXA | WrapTopic | WrapPlain | KeepBean

  function RouteOf(bean: Bean): (r: Route)
    ensures bean.EndpointManagerBean? ==> r == WrapListener
    ensures bean.FactoryBean? ==>
      var ts := bean.types;
      && (r == WrapCaching <==> CachingConnectionFactoryType in ts)
      && (r == WrapBoth <==> CachingConnectionFactoryType !in ts && XAConnectionFactoryType in ts && ConnectionFactoryType in ts)
      && (r == WrapXA <==> CachingConnectionFactoryType !in ts && XAConnectionFactoryType in ts && ConnectionFactoryType !in ts)
      && (r == WrapTopic <==> CachingConnectionFactoryType !in ts && XAConnectionFactoryType !in ts && TopicConnectionFactoryType in ts)
      && (r == WrapPlain <==> (CachingConnectionFactoryType !in ts && XAConnectionFactoryType !in ts
                               && TopicConnectionFactoryType !in ts && ConnectionFactoryType in ts))
      && (r == KeepBean <==> (CachingConnectionFactoryType !in ts && XAConnectionFactoryType !in ts
                              && TopicConnectionFactoryType !in ts && ConnectionFactoryType !in ts))
  {
    match bean
    case EndpointManagerBean(_) => WrapListener
    case FactoryBean(_, ts) =>
      if CachingConnectionFactoryType in ts then WrapCaching
      else if XAConnectionFactoryType in ts && ConnectionFactoryType in ts then WrapBoth
      else if XAConnectionFactoryType in ts then WrapXA
      else if TopicConnectionFactoryType in ts then WrapTopic
      else if ConnectionFactoryType in ts then WrapPlain
      else KeepBean
  }

  /** What post-processing returns: the same bean, or a lazy wrapper of it. */
  datatype Processed =
    | SameBean(bean: Bean)
    | LazyConnectionFactoryBean(plain: LazyConnectionFactory)
    | LazyConnectionAndXaConnectionFactoryBean(both: LazyConnectionAndXaConnectionFactory)
    | LazyXAConnectionFactoryBean(xa: LazyXAConnectionFactory)
    | LazyTopicConnectionFactoryBean(topic: LazyTopicConnectionFactory)

  class TracingConnectionFactoryBeanPostProcessor {
    const beanFactory: BeanFactory

    constructor (beanFactory: BeanFactory)
      ensures this.beanFactory == beanFactory
    {
      this.beanFactory := beanFactory;
    }

    /**
     * Wraps a JMS factory in the lazy wrapper its route calls for, wraps an
     * endpoint manager's listener when it has one, and returns other beans as they are.
     */
    method PostProcessAfterInitialization(bean: Bean, beanName: string) returns (r: Processed)
      modifies if bean.EndpointManagerBean? then {bean.manager} else {}
      ensures RouteOf(bean) == KeepBean ==> r == SameBean(bean)
      ensures RouteOf(bean) == WrapListener ==>
        && r == SameBean(bean)
        && (old(bean.manager.messageListener).None? ==> bean.manager.messageListener.None?)
        && (old(bean.manager.messageListener).Some? ==>
              && bean.manager.messageListener.Some? && bean.manager.messageListener.value.LazyListener?
              && var lazy := bean.manager.messageListener.value.lazy;
              && fresh(lazy) && lazy.Valid() && lazy.beanFactory == beanFactory
              && lazy.delegate == old(bean.manager.messageListener).value && lazy.wraps == 0)
      ensures RouteOf(bean) in {WrapCaching, WrapPlain} ==>
        && r.LazyConnectionFactoryBean? && fresh(r.plain) && r.plain.Valid()
        && r.plain.beanFactory == beanFactory && r.plain.delegate == bean.id && r.plain.wrappedDelegate.None?
      ensures RouteOf(bean) == WrapBoth ==>
        && r.LazyConnectionAndXaConnectionFactoryBean? && fresh(r.both) && r.both.Valid()
        && r.both.connectionFactoryDelegate.beanFactory == beanFactory && r.both.connectionFactoryDelegate.delegate == bean.id
        && r.both.xaConnectionFactoryDelegate.beanFactory == beanFactory && r.both.xaConnectionFactoryDelegate.delegate == bean.id
      ensures RouteOf(bean) == WrapXA ==>
        && r.LazyXAConnectionFactoryBean? && fresh(r.xa) && r.xa.Valid()
        && r.xa.beanFactory == beanFactory && r.xa.delegate == bean.id && r.xa.wrappedDelegate.None?
      ensures RouteOf(bean) == WrapTopic ==>
        && r.LazyTopicConnectionFactoryBean? && fresh(r.topic) && r.topic.Valid()
        && r.topic.beanFactory == beanFactory && r.topic.delegate == bean.id
    {
      match RouteOf(bean)
      case WrapCaching =>
        var f := new LazyConnectionFactory(beanFactory, bean.id);
        r := LazyConnectionFactoryBean(f);
      case WrapListener =>
        var listener := bean.manager.messageListener;
        if listener.Some? {
          var lazy := new LazyMessageListener(beanFactory, listener.value);
          bean.manager.messageListener := Some(LazyListener(lazy));
        }
        r := SameBean(bean);
      case WrapBoth =>
        var f := new LazyConnectionAndXaConnectionFactory(beanFactory, bean.id, bean.id);
        r := LazyConnectionAndXaConnectionFactoryBean(f);
      case WrapXA =>
        var f := new LazyXAConnectionFactory(beanFactory, bean.id);
        r := LazyXAConnectionFactoryBean(f);
      case WrapTopic =>
        var f := new LazyTopicConnectionFactory(beanFactory, bean.id);
        r := LazyTopicConnectionFactoryBean(f);
      case WrapPlain =>
        var f := new LazyConnectionFactory(beanFactory, bean.id);
        r := LazyConnectionFactoryBean(f);
      case KeepBean =>
        r := SameBean(bean);
    }
  }
}
