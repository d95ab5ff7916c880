/**
 * The post-processor that puts a tracing wrapper around OAuth2 user-info
 * RestTemplate customizers. It wraps a customizer that is not already a tracing
 * one and leaves every other bean alone, so running it twice wraps only once.
 */
module UserInfoPostProcessor {

  /** A bean: a user-info customizer, the tracing customizer around a delegate bean, or anything else. */
  datatype Bean =
    | UserInfoRestTemplateCustomizer(id: nat)
    | TraceUserInfoRestTemplateCustomizer(delegate: Bean)
    | OtherBean(id: nat)

  /** Before initialisation every bean is returned as it is. */
  function PostProcessBeforeInitialization(bean: Bean, beanName: string): (r: Bean)
    ensures r == bean
  {
    bean
  }

  /**
   * A plain customizer is wrapped, with itself as the delegate; a tracing
   * customizer and a bean that is no customizer come back unchanged.
   */
  function PostProcessAfterInitialization(bean: Bean, beanName: string): (r: Bean)
    ensures bean.UserInfoRestTemplateCustomizer? <==> r != bean
    ensures bean.UserInfoRestTemplateCustomizer? ==> r.TraceUserInfoRestTemplateCustomizer? && r.delegate == bean
    ensures !r.UserInfoRestTemplateCustomizer?
  {
    if bean.UserInfoRestTemplateCustomizer? then TraceUserInfoRestTemplateCustomizer(bean) else bean
  }

  /** Post-processing an already post-processed bean changes nothing. */
  lemma PostProcessAfterInitializationIdempotent(bean: Bean, first: string, second: string)
    ensures var once := PostProcessAfterInitialization(bean, first);
      PostProcessAfterInitialization(once, second) == once
  {
  }
}
