/**
 * The Spring Security listener that records authentication changes on the
 * current span. The old and new security contexts of a change decide, between
 * them, whether an authentication was set, cleared or replaced (or nothing
 * happened); the event text renders the authentications involved, and the event
 * is attached to the current span only when there is one.
 */
module SecurityListener {

  import opened Wrappers
  import opened Tracing

  /** An authentication as the listener renders it: its simple class name and its authorities. */
  datatype Authentication = Authentication(simpleName: string, authorities: seq<string>)

  /** A security context; its authentication may be null. */
  datatype SecurityContext = SecurityContext(authentication: Option<Authentication>)

  /** A change of security context; either side may be null. */
  datatype SecurityContextChangedEvent = SecurityContextChangedEvent(
    oldContext: Option<SecurityContext>,
    newContext: Option<SecurityContext>)

  /** The three security events the listener can attach. */
  datatype SecurityEvent = AuthenticationSet | AuthenticationCleared | AuthenticationReplaced

  /** An event to attach: which one, and the text its template is filled with. */
  datatype Change = Change(event: SecurityEvent, text: string)

  /** The elements of a collection separated by ", ", as a Java collection renders them. */
  function Joined(xs: seq<string>): string
  {
    if |xs| == 0 then ""
    else if |xs| == 1 then xs[0]
    else xs[0] + ", " + Joined(xs[1..])
  }

  /** A Java collection's rendering: its elements joined, in square brackets. */
  function CollectionText(xs: seq<string>): (r: string)
    ensures |r| >= 2 && r[0] == '[' && r[|r| - 1] == ']'
  {
    "[" + Joined(xs) + "]"
  }

  /** An authentication's rendering: "null" for none, otherwise class name then authorities. */
  function Describe(a: Option<Authentication>): (r: string)
    ensures a.None? ==> r == "null"
    ensures a.Some? ==> |r| > |a.value.simpleName| && r[..|a.value.simpleName|] == a.value.simpleName
    ensures a.Some? ==> r[|a.value.simpleName|..] == CollectionText(a.value.authorities)
    // The "null" rendering belongs to the missing authentication alone.
    ensures r == "null" <==> a.None?
  {
    match a
    case None => "null"
    case Some(auth) =>
      var tail := CollectionText(auth.authorities);
      var r := auth.simpleName + tail;
      assert r[|r| - 1] == tail[|tail| - 1] == ']';
      r
  }

  /** The text of a replacement: the old authentication, an arrow, the new one. */
  function ReplacedText(previous: Option<Authentication>, current: Option<Authentication>): (r: string)
    ensures |r| == |Describe(previous)| + 4 + |Describe(current)|
    ensures r[..|Describe(previous)|] == Describe(previous)
    ensures r[|Describe(previous)|..|Describe(previous)| + 4] == " -> "
    ensures r[|Describe(previous)| + 4..] == Describe(current)
  {
    Describe(previous) + " -> " + Describe(current)
  }

  /** A null security context counts as a null authentication. */
  function AuthenticationOf(context: Option<SecurityContext>): (r: Option<Authentication>)
    ensures context.None? ==> r.None?
    ensures context.Some? ==> r == context.value.authentication
  {
    if context.None? then None else context.value.authentication
  }

  /**
   * The event a change of security context calls for: replaced when both sides
   * are authenticated, cleared or set when only one is, none when neither is.
   */
  function ChangeOf(e: SecurityContextChangedEvent): (r: Option<Change>)
    ensures var previous, current := AuthenticationOf(e.oldContext), AuthenticationOf(e.newContext);
      && (r.None? <==> previous.None? && current.None?)
      && (r.Some? && r.value.event == AuthenticationReplaced <==> previous.Some? && current.Some?)
      && (r.Some? && r.value.event == AuthenticationCleared <==> previous.Some? && current.None?)
      && (r.Some? && r.value.event == AuthenticationSet <==> previous.None? && current.Some?)
      && (r.Some? && r.value.event == AuthenticationReplaced ==> r.value.text == ReplacedText(previous, current))
      && (r.Some? && r.value.event == AuthenticationCleared ==> r.value.text == Describe(previous))
      && (r.Some? && r.value.event == AuthenticationSet ==> r.value.text == Describe(current))
  {
    var previous := AuthenticationOf(e.oldContext);
    var current := AuthenticationOf(e.newContext);
    if previous.Some? then
      if current.Some? then Some(Change(AuthenticationReplaced, ReplacedText(previous, current)))
      else Some(Change(AuthenticationCleared, Describe(previous)))
    else if current.Some? then Some(Change(AuthenticationSet, Describe(current)))
    else None
  }

  class TracingSecurityContextChangedListener {
    const tracer: Tracer

    constructor (tracer: Tracer)
      ensures this.tracer == tracer
    {
      this.tracer := tracer;
    }

    /**
     * Adds the event, its template filled in by `format`, to the current span;
     * with no current span nothing is recorded.
     */
    method AttachEvent(event: SecurityEvent, text: string, format: (SecurityEvent, string) -> string)
      requires tracer.Valid()
      modifies tracer
      ensures tracer.Valid()
      ensures old(tracer.CurrentSpan()).None? ==> unchanged(tracer)
      ensures old(tracer.CurrentSpan()).Some? ==>
        var c := old(tracer.CurrentSpan()).value.context;
        && tracer.spans == old(tracer.spans)[c.spanId := old(tracer.State(c)).(events := old(tracer.State(c)).events + [format(event, text)])]
        && tracer.nextId == Bump(old(tracer.nextId), c.spanId) && tracer.reported == old(tracer.reported)
    {
      var span := tracer.CurrentSpan();
      if span.Some? {
        tracer.AddEvent(span.value, format(event, text));
      }
    }

    /**
     * Records one security context change: at most one event, on the current
     * span, and none at all when neither side is authenticated.
     */
    method SecurityContextChanged(e: SecurityContextChangedEvent, format: (SecurityEvent, string) -> string)
      requires tracer.Valid()
      modifies tracer
      ensures tracer.Valid()
      ensures ChangeOf(e).None? || old(tracer.CurrentSpan()).None? ==> unchanged(tracer)
      ensures ChangeOf(e).Some? && old(tracer.CurrentSpan()).Some? ==>
        var c := old(tracer.CurrentSpan()).value.context;
        var change := ChangeOf(e).value;
        && tracer.spans == old(tracer.spans)[c.spanId := old(tracer.State(c)).(events := old(tracer.State(c)).events + [format(change.event, change.text)])]
        && tracer.nextId == Bump(old(tracer.nextId), c.spanId) && tracer.reported == old(tracer.reported)
    {
      var previous := AuthenticationOf(e.oldContext);
      var current := AuthenticationOf(e.newContext);
      if previous.Some? {
        if current.Some? {
          AttachEvent(AuthenticationReplaced, ReplacedText(previous, current), format);
        } else {
          AttachEvent(AuthenticationCleared, Describe(previous), format);
        }
      } else if current.Some? {
        AttachEvent(AuthenticationSet, Describe(current), format);
      }
    }
  }
}
