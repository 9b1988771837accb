/**
 * The part of `System.Diagnostics` the instrumentation relies on: activities (spans),
 * `ActivitySource.StartActivity`, `Activity.AddEvent`, `Activity.Stop` and the
 * `Activity.Current` cell, one per execution context.  Activities are objects in the
 * modelled program; here they live in a table owned by the tracer and are referred
 * to by their index, so a reference can be copied (as the relay of service B does)
 * and both copies see the same span.
 */
module Diagnostics {
  import opened Wrappers
  import opened TraceContext

  /** An execution context (a thread or an async flow) with its own `Activity.Current`. */
  type ContextId = nat

  /** A reference to a span: its index in the tracer's table. */
  type SpanRef = nat

  datatype Kind = Internal | Server | Client | Producer | Consumer

  datatype TagValue = Text(text: string) | Number(number: int)

  datatype Tag = Tag(key: string, value: TagValue)

  datatype Span = Span(
    name: string,
    kind: Kind,
    context: SpanContext,
    /** `Activity.ParentId`: the id of the parent, local or remote, if there is one. */
    parentId: Option<string>,
    /** `Activity.Parent`: the local parent activity, if the span was started under one. */
    parent: Option<SpanRef>,
    tags: seq<Tag>,
    events: seq<string>,
    stopped: bool)

  /** A fresh trace id and span id, as the random id generator supplies them. */
  datatype FreshIds = FreshIds(traceId: seq<Nibble>, spanId: seq<Nibble>)

  predicate ValidFresh(f: FreshIds) {
    ValidTraceId(f.traceId) && ValidSpanId(f.spanId)
  }

  /** Everything about a span that is fixed when it starts. */
  predicate SameOrigin(a: Span, b: Span) {
    a.name == b.name && a.kind == b.kind && a.context == b.context &&
    a.parentId == b.parentId && a.parent == b.parent && a.tags == b.tags
  }

  /**
   * `after` is a later state of the span table `before`: no span was removed, the
   * origin of every span is kept, events are only appended and a stopped span stays
   * stopped.
   */
  ghost predicate Extends(before: seq<Span>, after: seq<Span>) {
    |before| <= |after| &&
    forall h :: 0 <= h < |before| ==>
      SameOrigin(before[h], after[h]) && before[h].events <= after[h].events &&
      (before[h].stopped ==> after[h].stopped)
  }

  lemma ExtendsTransitive(a: seq<Span>, b: seq<Span>, c: seq<Span>)
    requires Extends(a, b) && Extends(b, c)
    ensures Extends(a, c)
  {
    forall h | 0 <= h < |a|
      ensures SameOrigin(a[h], c[h]) && a[h].events <= c[h].events && (a[h].stopped ==> c[h].stopped)
    {
      assert SameOrigin(a[h], b[h]) && SameOrigin(b[h], c[h]);
    }
  }

  /** The current cells of contexts outside `mine` are the same in both states. */
  ghost predicate OthersCurrentUnchanged(before: map<ContextId, SpanRef>, after: map<ContextId, SpanRef>, mine: set<ContextId>) {
    forall x :: x !in mine ==> (x in before <==> x in after) && (x in before ==> before[x] == after[x])
  }

  /** Making `parent` current in `ctx` (or nothing, when it is absent) leaves the other contexts alone. */
  lemma ParentRestored(before: map<ContextId, SpanRef>, ctx: ContextId, parent: Option<SpanRef>)
    ensures var after := match parent case Some(p) => before[ctx := p] case None => before - {ctx};
      && OthersCurrentUnchanged(before, after, {ctx})
      && (if ctx in after then Some(after[ctx]) else None) == parent
  {
  }

  /**
   * The context and local parent of a span started with the explicit parent id
   * `parentId` while `current` is the calling context's current span:
   * - a parent id that reads as a traceparent gives a child in the parent's trace,
   *   with the parent's flags (the parent-based sampler follows the parent);
   * - a parent id that does not read gives a new root;
   * - no parent id makes the current span, if any, the local parent.
   */
  function StartContext(spans: seq<Span>, current: Option<SpanRef>, parentId: Option<string>, ids: FreshIds)
    : (r: (SpanContext, Option<SpanRef>, Option<string>))
    requires current.Some? ==> current.value < |spans|
  {
    match parentId
    case Some(p) =>
      (match Parse(p)
       case Some(pc) => (SpanContext(pc.traceId, ids.spanId, pc.flags), None, parentId)
       case None => (SpanContext(ids.traceId, ids.spanId, SampledFlags), None, parentId))
    case None =>
      (match current
       case Some(c) =>
         var pc := spans[c].context;
         (SpanContext(pc.traceId, ids.spanId, pc.flags), current, Some(Encode(pc)))
       case None => (SpanContext(ids.traceId, ids.spanId, SampledFlags), None, None))
  }

  function NewSpan(spans: seq<Span>, current: Option<SpanRef>, name: string, kind: Kind,
                   parentId: Option<string>, tags: seq<Tag>, ids: FreshIds): Span
    requires current.Some? ==> current.value < |spans|
  {
    var (ctx, parent, pid) := StartContext(spans, current, parentId, ids);
    Span(name, kind, ctx, pid, parent, tags, [], false)
  }

  /** The trace a span started by `StartContext` belongs to. */
  lemma StartContextTrace(spans: seq<Span>, current: Option<SpanRef>, parentId: Option<string>, ids: FreshIds)
    requires current.Some? ==> current.value < |spans|
    ensures var (ctx, parent, pid) := StartContext(spans, current, parentId, ids);
      && ctx.spanId == ids.spanId
      && (parentId.Some? && Parse(parentId.value).Some? ==>
            ctx.traceId == Parse(parentId.value).value.traceId && parent.None? && pid == parentId)
      && (parentId.Some? && Parse(parentId.value).None? ==> ctx.traceId == ids.traceId && parent.None?)
      && (parentId.None? && current.Some? ==>
            ctx.traceId == spans[current.value].context.traceId && parent == current)
      && (parentId.None? && current.None? ==> ctx.traceId == ids.traceId && parent.None? && pid.None?)
  {
  }

  /** Span `h` has a valid context, and its local parent was started before it. */
  ghost predicate WellFormed(spans: seq<Span>, h: nat)
    requires h < |spans|
  {
    TraceContext.Valid(spans[h].context) && (spans[h].parent.Some? ==> spans[h].parent.value < h)
  }

  class Tracer {
    /** Every span started so far, in start order. */
    var spans: seq<Span>
    /** `Activity.Current` of each execution context; a context absent from the map has none. */
    var current: map<ContextId, SpanRef>

    ghost predicate Valid()
      reads this
    {
      (forall c :: c in current ==> current[c] < |spans|) &&
      (forall h :: 0 <= h < |spans| ==> WellFormed(spans, h))
    }

    constructor ()
      ensures Valid() && spans == [] && current == map[]
    {
      spans := [];
      current := map[];
    }

    function Current(ctx: ContextId): (r: Option<SpanRef>)
      reads this
      requires Valid()
      ensures r.Some? ==> r.value < |spans|
    {
      if ctx in current then Some(current[ctx]) else None
    }

    /** `Activity.Id` in the W3C format. */
    function Id(h: SpanRef): string
      reads this
      requires h < |spans|
    {
      Encode(spans[h].context)
    }

    /**
     * `ActivitySource.StartActivity`: with no listener for the source there is no
     * span; otherwise a new span is started and becomes current in `ctx`.
     */
    method StartActivity(ctx: ContextId, name: string, kind: Kind, parentId: Option<string>,
                         tags: seq<Tag>, ids: FreshIds, listened: bool)
      returns (r: Option<SpanRef>)
      requires Valid() && ValidFresh(ids)
      modifies this
      ensures Valid() && Extends(old(spans), spans)
      ensures !listened ==> r.None? && spans == old(spans) && current == old(current)
      ensures listened ==>
        && r == Some(|old(spans)|)
        && spans == old(spans) + [NewSpan(old(spans), old(Current(ctx)), name, kind, parentId, tags, ids)]
        && current == old(current)[ctx := |old(spans)|]
    {
      if !listened {
        return None;
      }
      var s := NewSpan(spans, Current(ctx), name, kind, parentId, tags, ids);
      StartContextTrace(spans, Current(ctx), parentId, ids);
      ParseValidOption(parentId);
      if Current(ctx).Some? {
        assert WellFormed(spans, Current(ctx).value);
      }
      r := Some(|spans|);
      spans := spans + [s];
      current := current[ctx := r.value];
      assert WellFormed(spans, |spans| - 1);
      assert forall k :: 0 <= k < |old(spans)| ==> WellFormed(old(spans), k) ==> WellFormed(spans, k);
    }

    static lemma ParseValidOption(p: Option<string>)
      ensures p.Some? && Parse(p.value).Some? ==> TraceContext.Valid(Parse(p.value).value)
    {
      if p.Some? && Parse(p.value).Some? {
        ParseValid(p.value);
      }
    }

    /** `Activity.AddEvent`. */
    method AddEvent(h: SpanRef, event: string)
      requires Valid() && h < |spans|
      modifies this
      ensures Valid() && Extends(old(spans), spans)
      ensures spans == old(spans)[h := old(spans[h]).(events := old(spans[h]).events + [event])]
      ensures current == old(current)
    {
      spans := spans[h := spans[h].(events := spans[h].events + [event])];
      assert forall k :: 0 <= k < |spans| ==> WellFormed(old(spans), k) ==> WellFormed(spans, k);
    }

    /**
     * `Activity.Stop` called in `ctx`: the first stop marks the span stopped and makes
     * its local parent the current span of `ctx`; stopping it again does nothing.
     */
    method Stop(ctx: ContextId, h: SpanRef)
      requires Valid() && h < |spans|
      modifies this
      ensures Valid() && Extends(old(spans), spans)
      ensures old(spans[h].stopped) ==> spans == old(spans) && current == old(current)
      ensures !old(spans[h].stopped) ==>
        && spans == old(spans)[h := old(spans[h]).(stopped := true)]
        && current == (match old(spans[h].parent)
                       case Some(p) => old(current)[ctx := p]
                       case None => old(current) - {ctx})
    {
      if !spans[h].stopped {
        assert WellFormed(spans, h);
        var parent := spans[h].parent;
        spans := spans[h := spans[h].(stopped := true)];
        assert forall k :: 0 <= k < |spans| ==> WellFormed(old(spans), k) ==> WellFormed(spans, k);
        SetCurrent(ctx, parent);
      }
    }

    /** Assigning `Activity.Current` in `ctx`. */
    method SetCurrent(ctx: ContextId, a: Option<SpanRef>)
      requires Valid() && (a.Some? ==> a.value < |spans|)
      modifies this
      ensures Valid() && spans == old(spans) && Current(ctx) == a
      ensures current == (match a case Some(h) => old(current)[ctx := h] case None => old(current) - {ctx})
    {
      match a
      case Some(h) => current := current[ctx := h];
      case None => current := current - {ctx};
    }
  }
}
