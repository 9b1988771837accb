/**
 * The trace-context propagation layer for the Kafka client
 * (shared/OpenTelemetry.Instrumentation.Kafka.cs): a producer decorator that
 * writes the current span's id into a `traceparent` header, and a consumer
 * decorator that starts a consumer span as a child of the last such header and
 * makes it current.
 */
module Instrumentation {
  import opened Wrappers
  import Utf8
  import opened TraceContext
  import opened Diagnostics
  import opened Broker

  /** `KafkaActivitySource.HeaderName`. */
  const HeaderName: string := "traceparent"

  const ConsumerSpanName: string := "Processing Kafka Message"
  const ProducedEvent: string := "Produced"
  const ConsumedEvent: string := "Consumed"

  /** `Headers.TryGetLastBytes`: the value of the last header called `name`. */
  function LastHeader(hs: seq<Header>, name: string): Option<seq<Utf8.byte>> {
    if hs == [] then None
    else if hs[|hs| - 1].key == name then Some(hs[|hs| - 1].value)
    else LastHeader(hs[..|hs| - 1], name)
  }

  /**
   * `LastHeader` finds nothing exactly when no entry has the key, and otherwise the
   * value of an entry with the key after which no entry has it.
   */
  lemma {:induction false} LastHeaderSpec(hs: seq<Header>, name: string)
    ensures LastHeader(hs, name).None? <==> forall i :: 0 <= i < |hs| ==> hs[i].key != name
    ensures LastHeader(hs, name).Some? ==>
      exists i :: 0 <= i < |hs| && hs[i] == Header(name, LastHeader(hs, name).value) &&
                  forall j :: i < j < |hs| ==> hs[j].key != name
  {
    if hs != [] && hs[|hs| - 1].key != name {
      var init := hs[..|hs| - 1];
      LastHeaderSpec(init, name);
      assert forall i :: 0 <= i < |init| ==> init[i] == hs[i];
      if LastHeader(init, name).Some? {
        var i :| 0 <= i < |init| && init[i] == Header(name, LastHeader(init, name).value) &&
                 forall j :: i < j < |init| ==> init[j].key != name;
        assert hs[i] == Header(name, LastHeader(hs, name).value);
      }
    }
  }

  /**
   * The header list after `Headers.Add(HeaderName, UTF8(id))` on a message whose
   * headers may be missing: a missing list becomes empty first, then exactly one
   * entry is appended and the earlier ones keep their order.
   */
  function Injected(headers: Option<seq<Header>>, id: string): (r: seq<Header>)
    ensures |r| == |headers.GetOr([])| + 1
    ensures r[..|headers.GetOr([])|] == headers.GetOr([])
    ensures r[|headers.GetOr([])|] == Header(HeaderName, Utf8.Encode(id))
  {
    headers.GetOr([]) + [Header(HeaderName, Utf8.Encode(id))]
  }

  /**
   * The parent id the consumer passes to `StartActivity`: none exactly when no
   * header is called `traceparent`, and otherwise the decoding of the last one.
   */
  function ParentId(hs: seq<Header>): (r: Option<string>)
    ensures r.None? <==> forall i :: 0 <= i < |hs| ==> hs[i].key != HeaderName
    ensures r.Some? ==> exists i :: 0 <= i < |hs| && hs[i].key == HeaderName && r.value == Utf8.Decode(hs[i].value) &&
                                    forall j :: i < j < |hs| ==> hs[j].key != HeaderName
  {
    LastHeaderSpec(hs, HeaderName);
    match LastHeader(hs, HeaderName)
    case Some(b) => Some(Utf8.Decode(b))
    case None => None
  }

  /** The trace a delivered record belongs to, as read from its headers. */
  function CarriedTrace(r: Record): Option<seq<Nibble>> {
    match ParentId(r.headers)
    case Some(p) => (match Parse(p) case Some(c) => Some(c.traceId) case None => None)
    case None => None
  }

  function ConsumerTags(result: ConsumeResult): seq<Tag> {
    [Tag("topic", Text(result.topic)), Tag("partition", Number(result.partition))]
  }

  /**
   * The span `HandleResult` starts for a result with a message, after its "Consumed"
   * event: a running consumer span with the fresh span id, exactly the `topic` and
   * `partition` tags of the result, and that one event.
   */
  function ConsumerSpan(spans: seq<Span>, current: Option<SpanRef>, result: ConsumeResult, ids: FreshIds): (s: Span)
    requires current.Some? ==> current.value < |spans|
    requires result.message.Some?
    ensures s.name == ConsumerSpanName && s.kind == Kind.Consumer && s.context.spanId == ids.spanId
    ensures s.tags == [Tag("topic", Text(result.topic)), Tag("partition", Number(result.partition))]
    ensures s.events == [ConsumedEvent] && !s.stopped
  {
    var s := NewSpan(spans, current, ConsumerSpanName, Kind.Consumer,
                     ParentId(result.message.value.headers), ConsumerTags(result), ids);
    s.(events := s.events + [ConsumedEvent])
  }

  /** `s` is a consumer span for record `r`: in the trace `r` carries, if it carries one. */
  ghost predicate ConsumerOf(s: Span, r: Record) {
    s.name == ConsumerSpanName && s.kind == Kind.Consumer &&
    (CarriedTrace(r).Some? ==> s.context.traceId == CarriedTrace(r).value)
  }

  /**
   * The consumer span of any record is in the trace the record carries, when it
   * carries one, and has the consumer span's name and kind.  A `traceparent` entry
   * that does not parse is tolerated: the span is then a fresh root that still
   * records the entry as its parent id.
   */
  lemma ConsumerSpanTrace(spans: seq<Span>, current: Option<SpanRef>, result: ConsumeResult, ids: FreshIds)
    requires current.Some? ==> current.value < |spans|
    requires result.message.Some?
    ensures var s := ConsumerSpan(spans, current, result, ids);
      && s.name == ConsumerSpanName && s.kind == Kind.Consumer && s.context.spanId == ids.spanId
      && (CarriedTrace(result.message.value).Some? ==> s.context.traceId == CarriedTrace(result.message.value).value)
    ensures var s := ConsumerSpan(spans, current, result, ids);
      var r := result.message.value;
      ParentId(r.headers).Some? && CarriedTrace(r).None? ==>
        s.parent.None? && s.context.traceId == ids.traceId && s.parentId == ParentId(r.headers)
  {
    StartContextTrace(spans, current, ParentId(result.message.value.headers), ids);
  }

  /**
   * The bytes of the header injected for span context `c` are the characters of its
   * id, one byte each, so no decoder can read them differently.
   */
  lemma HeaderBytes(c: SpanContext)
    ensures |Utf8.Encode(Encode(c))| == |Encode(c)|
    ensures forall i :: 0 <= i < |Encode(c)| ==> Utf8.Encode(Encode(c))[i] == Encode(c)[i] as int
  {
    TraceContext.EncodeAscii(c);
    Utf8.EncodeAscii(Encode(c));
  }

  /** The header just injected is the one the consumer reads, and it decodes to the injected id. */
  lemma ParentIdInjected(headers: Option<seq<Header>>, id: string)
    ensures LastHeader(Injected(headers, id), HeaderName) == Some(Utf8.Encode(id))
    ensures ParentId(Injected(headers, id)) == Some(id)
  {
    Utf8.DecodeEncode(id);
  }

  /**
   * Injecting twice accumulates two entries rather than replacing the first; the
   * last one, which the consumer reads, is the most recent id.
   */
  lemma InjectTwice(headers: Option<seq<Header>>, id1: string, id2: string)
    ensures var h := Injected(Some(Injected(headers, id1)), id2);
      && h == headers.GetOr([]) + [Header(HeaderName, Utf8.Encode(id1)), Header(HeaderName, Utf8.Encode(id2))]
      && ParentId(h) == Some(id2)
  {
    ParentIdInjected(Some(Injected(headers, id1)), id2);
  }

  /** A record whose last `traceparent` header was injected from span context `c` carries `c`'s trace. */
  lemma CarriedTraceInjected(key: int, value: string, headers: Option<seq<Header>>, c: SpanContext)
    requires TraceContext.Valid(c)
    ensures CarriedTrace(Record(key, value, Injected(headers, Encode(c)))) == Some(c.traceId)
  {
    ParentIdInjected(headers, Encode(c));
    ParseEncode(c);
  }

  /**
   * The consumer span for a record injected from span context `c` is in `c`'s trace,
   * has `c`'s id as its parent id, no local parent, and the expected name, kind, tags and events.
   */
  lemma ConsumerSpanOfInjected(spans: seq<Span>, current: Option<SpanRef>, result: ConsumeResult,
                               ids: FreshIds, headers: Option<seq<Header>>, c: SpanContext)
    requires current.Some? ==> current.value < |spans|
    requires TraceContext.Valid(c)
    requires result.message.Some? && result.message.value.headers == Injected(headers, Encode(c))
    ensures var s := ConsumerSpan(spans, current, result, ids);
      && s.context.traceId == c.traceId && s.context.spanId == ids.spanId
      && s.parentId == Some(Encode(c)) && s.parent.None?
      && s.name == ConsumerSpanName && s.kind == Kind.Consumer
      && s.tags == [Tag("topic", Text(result.topic)), Tag("partition", Number(result.partition))]
      && s.events == [ConsumedEvent] && !s.stopped
  {
    ParentIdInjected(headers, Encode(c));
    ParseEncode(c);
    StartContextTrace(spans, current, Some(Encode(c)), ids);
  }

  /**
   * A record without a `traceparent` header consumed while a span is current gets that
   * span as its local parent, in that span's trace: the library falls back to the
   * ambient span when the parent id is null.
   */
  lemma ConsumerSpanWithoutHeader(spans: seq<Span>, current: Option<SpanRef>, result: ConsumeResult, ids: FreshIds)
    requires current.Some? ==> current.value < |spans|
    requires result.message.Some?
    requires forall i :: 0 <= i < |result.message.value.headers| ==> result.message.value.headers[i].key != HeaderName
    ensures var s := ConsumerSpan(spans, current, result, ids);
      && s.parent == current
      && (current.Some? ==> s.context.traceId == spans[current.value].context.traceId)
      && (current.None? ==> s.context.traceId == ids.traceId && s.parentId.None?)
  {
    LastHeaderSpec(result.message.value.headers, HeaderName);
    StartContextTrace(spans, current, None, ids);
  }

  /** `TrackableProducer<int, string>`: the instrumented producer around the plain one. */
  class TrackableProducer {
    const inner: Cluster
    const tracer: Tracer

    constructor (inner: Cluster, tracer: Tracer)
      ensures this.inner == inner && this.tracer == tracer
    {
      this.inner := inner;
      this.tracer := tracer;
    }

    /**
     * Called in execution context `ctx`.  With no current span the message is left as
     * it is; otherwise the current span's id is appended as a `traceparent` header and
     * the span gets a "Produced" event.
     */
    method InjectHeader(ctx: ContextId, msg: Message?) returns (r: Message?)
      requires tracer.Valid()
      modifies msg, tracer
      ensures r == msg
      ensures tracer.Valid() && Extends(old(tracer.spans), tracer.spans) && tracer.current == old(tracer.current)
      ensures msg == null || old(tracer.Current(ctx)).None? ==> tracer.spans == old(tracer.spans)
      ensures msg != null && old(tracer.Current(ctx)).None? ==> msg.headers == old(msg.headers)
      ensures msg != null && old(tracer.Current(ctx)).Some? ==>
        var h := old(tracer.Current(ctx)).value;
        && msg.headers == Some(Injected(old(msg.headers), old(tracer.Id(h))))
        && tracer.spans == old(tracer.spans)[h := old(tracer.spans[h]).(events := old(tracer.spans[h]).events + [ProducedEvent])]
      ensures msg != null ==> msg.key == old(msg.key) && msg.value == old(msg.value)
    {
      if msg == null {
        return null;
      }
      var cur := tracer.Current(ctx);
      if cur.None? {
        return msg;
      }
      var header := Utf8.Encode(tracer.Id(cur.value));
      msg.headers := Some(msg.headers.GetOr([]) + [Header(HeaderName, header)]);
      tracer.AddEvent(cur.value, ProducedEvent);
      r := msg;
    }

    /** `ProduceAsync(topic, message, cancellationToken)`. */
    method ProduceAsync(ctx: ContextId, topic: string, msg: Message?, cancelled: bool)
      returns (r: Result<DeliveryResult, Error>)
      requires tracer.Valid()
      modifies msg, tracer, inner
      ensures tracer.Valid() && Extends(old(tracer.spans), tracer.spans) && tracer.current == old(tracer.current)
      ensures cancelled ==> r == Failure(Cancelled) && inner.logs == old(inner.logs)
      ensures msg == null ==> tracer.spans == old(tracer.spans)
      ensures !cancelled && msg == null ==> r == Failure(NullMessage) && inner.logs == old(inner.logs)
      ensures !cancelled && msg != null ==>
        && inner.logs == old(inner.logs)[topic := old(inner.Log(topic)) + [msg.Snapshot()]]
        && r == Success(DeliveryResult(topic, Partition, |old(inner.Log(topic))|, msg.Snapshot()))
      ensures msg != null ==> Injection(old(tracer.spans), tracer.spans, old(tracer.Current(ctx)), old(msg.Snapshot()), msg.Snapshot(), old(msg.headers))
    {
      var m := InjectHeader(ctx, msg);
      r := inner.ProduceAsync(topic, m, cancelled);
    }

    /** `ProduceAsync(topicPartition, message, cancellationToken)`. */
    method ProduceAsyncTo(ctx: ContextId, tp: TopicPartition, msg: Message?, cancelled: bool)
      returns (r: Result<DeliveryResult, Error>)
      requires tracer.Valid()
      modifies msg, tracer, inner
      ensures tracer.Valid() && Extends(old(tracer.spans), tracer.spans) && tracer.current == old(tracer.current)
      ensures cancelled ==> r == Failure(Cancelled) && inner.logs == old(inner.logs)
      ensures msg == null ==> tracer.spans == old(tracer.spans)
      ensures !cancelled && msg == null ==> r == Failure(NullMessage) && inner.logs == old(inner.logs)
      ensures !cancelled && msg != null && tp.partition != Partition ==> r == Failure(UnknownPartition) && inner.logs == old(inner.logs)
      ensures !cancelled && msg != null && tp.partition == Partition ==>
        && inner.logs == old(inner.logs)[tp.topic := old(inner.Log(tp.topic)) + [msg.Snapshot()]]
        && r == Success(DeliveryResult(tp.topic, Partition, |old(inner.Log(tp.topic))|, msg.Snapshot()))
      ensures msg != null ==> Injection(old(tracer.spans), tracer.spans, old(tracer.Current(ctx)), old(msg.Snapshot()), msg.Snapshot(), old(msg.headers))
    {
      var m := InjectHeader(ctx, msg);
      r := inner.ProduceAsyncTo(tp, m, cancelled);
    }

    /** `Produce(topic, message, deliveryHandler)`; the result is the report the handler receives. */
    method Produce(ctx: ContextId, topic: string, msg: Message?) returns (r: Result<DeliveryResult, Error>)
      requires tracer.Valid()
      modifies msg, tracer, inner
      ensures tracer.Valid() && Extends(old(tracer.spans), tracer.spans) && tracer.current == old(tracer.current)
      ensures msg == null ==> r == Failure(NullMessage) && inner.logs == old(inner.logs) && tracer.spans == old(tracer.spans)
      ensures msg != null ==>
        && inner.logs == old(inner.logs)[topic := old(inner.Log(topic)) + [msg.Snapshot()]]
        && r == Success(DeliveryResult(topic, Partition, |old(inner.Log(topic))|, msg.Snapshot()))
      ensures msg != null ==> Injection(old(tracer.spans), tracer.spans, old(tracer.Current(ctx)), old(msg.Snapshot()), msg.Snapshot(), old(msg.headers))
    {
      var m := InjectHeader(ctx, msg);
      r := inner.Produce(topic, m);
    }

    /** `Produce(topicPartition, message, deliveryHandler)`. */
    method ProduceTo(ctx: ContextId, tp: TopicPartition, msg: Message?) returns (r: Result<DeliveryResult, Error>)
      requires tracer.Valid()
      modifies msg, tracer, inner
      ensures tracer.Valid() && Extends(old(tracer.spans), tracer.spans) && tracer.current == old(tracer.current)
      ensures msg == null ==> r == Failure(NullMessage) && inner.logs == old(inner.logs) && tracer.spans == old(tracer.spans)
      ensures msg != null && tp.partition != Partition ==> r == Failure(UnknownPartition) && inner.logs == old(inner.logs)
      ensures msg != null && tp.partition == Partition ==>
        && inner.logs == old(inner.logs)[tp.topic := old(inner.Log(tp.topic)) + [msg.Snapshot()]]
        && r == Success(DeliveryResult(tp.topic, Partition, |old(inner.Log(tp.topic))|, msg.Snapshot()))
      ensures msg != null ==> Injection(old(tracer.spans), tracer.spans, old(tracer.Current(ctx)), old(msg.Snapshot()), msg.Snapshot(), old(msg.headers))
    {
      var m := InjectHeader(ctx, msg);
      r := inner.ProduceTo(tp, m);
    }
  }

  /** `TrackableConsumer<int, string>`: the instrumented consumer around the plain one. */
  class TrackableConsumer {
    const inner: Consumer
    const tracer: Tracer
    /** Whether this process's tracer provider listens to the instrumentation's activity source. */
    const listened: bool

    constructor (inner: Consumer, tracer: Tracer, listened: bool)
      ensures this.inner == inner && this.tracer == tracer && this.listened == listened
    {
      this.inner := inner;
      this.tracer := tracer;
      this.listened := listened;
    }

    /**
     * Called in execution context `ctx` on what the plain consumer returned.  A null
     * result, or one without a message, is returned as it is and nothing else
     * happens.  Otherwise a consumer span is started from the last `traceparent`
     * header, gets a "Consumed" event and becomes current in `ctx`; with no listener
     * there is no span and `ctx` is left without a current span.
     */
    method HandleResult(ctx: ContextId, result: Option<ConsumeResult>, ids: FreshIds)
      returns (r: Option<ConsumeResult>)
      requires tracer.Valid() && ValidFresh(ids)
      modifies tracer
      ensures r == result
      ensures tracer.Valid() && Extends(old(tracer.spans), tracer.spans)
      ensures Handled(old(tracer.spans), old(tracer.current), tracer.spans, tracer.current, ctx, result, ids, listened)
    {
      if result.None? {
        return None;
      }
      if result.value.message.None? {
        return result;
      }
      var res := result.value;
      var parent := ParentId(res.message.value.headers);
      var tags := [Tag("topic", Text(res.topic)), Tag("partition", Number(res.partition))];
      var activity := tracer.StartActivity(ctx, ConsumerSpanName, Kind.Consumer, parent, tags, ids, listened);
      if activity.Some? {
        tracer.AddEvent(activity.value, ConsumedEvent);
      }
      tracer.SetCurrent(ctx, activity);
      r := result;
    }

    /** `Consume(millisecondsTimeout)`. */
    method ConsumeMillis(ctx: ContextId, millisecondsTimeout: int, ids: FreshIds) returns (r: Option<ConsumeResult>)
      requires tracer.Valid() && ValidFresh(ids) && inner.Valid()
      modifies tracer, inner
      ensures tracer.Valid() && Extends(old(tracer.spans), tracer.spans) && inner.Valid()
      ensures inner.subscription == old(inner.subscription)
      ensures PlainConsumed(old(inner.positions), inner.positions, old(inner.Available()), inner.cluster.logs, r)
      ensures Handled(old(tracer.spans), old(tracer.current), tracer.spans, tracer.current, ctx, r, ids, listened)
    {
      var c := inner.ConsumeWithin();
      r := HandleResult(ctx, c, ids);
    }

    /** `Consume(timeout)`. */
    method ConsumeTimeSpan(ctx: ContextId, timeout: TimeSpan, ids: FreshIds) returns (r: Option<ConsumeResult>)
      requires tracer.Valid() && ValidFresh(ids) && inner.Valid()
      modifies tracer, inner
      ensures tracer.Valid() && Extends(old(tracer.spans), tracer.spans) && inner.Valid()
      ensures inner.subscription == old(inner.subscription)
      ensures PlainConsumed(old(inner.positions), inner.positions, old(inner.Available()), inner.cluster.logs, r)
      ensures Handled(old(tracer.spans), old(tracer.current), tracer.spans, tracer.current, ctx, r, ids, listened)
    {
      var c := inner.ConsumeWithin();
      r := HandleResult(ctx, c, ids);
    }

    /**
     * `Consume(cancellationToken)`: blocks until a record is available.  A cancelled
     * token throws before any span work, so neither the position nor the spans change.
     */
    method Consume(ctx: ContextId, cancelled: bool, ids: FreshIds) returns (r: Result<Option<ConsumeResult>, Error>)
      requires tracer.Valid() && ValidFresh(ids) && inner.Valid()
      requires cancelled || inner.Available().Some?
      modifies tracer, inner
      ensures tracer.Valid() && Extends(old(tracer.spans), tracer.spans) && inner.Valid()
      ensures inner.subscription == old(inner.subscription)
      ensures cancelled ==> r == Failure(Cancelled) && inner.positions == old(inner.positions) &&
                            tracer.spans == old(tracer.spans) && tracer.current == old(tracer.current)
      ensures !cancelled ==> r.Success? && r.value.Some?
      ensures !cancelled ==>
        PlainConsumed(old(inner.positions), inner.positions, old(inner.Available()), inner.cluster.logs, r.value)
      ensures !cancelled ==>
        Handled(old(tracer.spans), old(tracer.current), tracer.spans, tracer.current, ctx, r.value, ids, listened)
    {
      var c := inner.Consume(cancelled);
      if c.Failure? {
        return Failure(c.error);
      }
      var h := HandleResult(ctx, Some(c.value), ids);
      r := Success(h);
    }

    /** `Subscribe(topic)`, delegated. */
    method Subscribe(topic: string)
      requires inner.Valid()
      modifies inner
      ensures inner.Valid() && inner.subscription == [topic]
      ensures forall t :: t in old(inner.positions) ==> t in inner.positions && inner.positions[t] == old(inner.positions)[t]
      ensures topic !in old(inner.positions) ==> inner.positions[topic] == |inner.cluster.Log(topic)|
    {
      inner.Subscribe([topic]);
    }

    /** `Subscribe(topics)`, delegated. */
    method SubscribeAll(topics: seq<string>)
      requires inner.Valid()
      modifies inner
      ensures inner.Valid() && inner.subscription == topics
      ensures forall t :: t in old(inner.positions) ==> t in inner.positions && inner.positions[t] == old(inner.positions)[t]
      ensures forall t :: t in topics && t !in old(inner.positions) ==> inner.positions[t] == |inner.cluster.Log(t)|
    {
      inner.Subscribe(topics);
    }

    /** `Unsubscribe()`, delegated. */
    method Unsubscribe()
      requires inner.Valid()
      modifies inner
      ensures inner.Valid() && inner.subscription == [] && inner.positions == old(inner.positions)
    {
      inner.Unsubscribe();
    }
  }

  /**
   * What the plain consumer did: with a record available it returned the next one
   * of the first such topic and moved past it; otherwise it returned nothing.
   */
  ghost predicate PlainConsumed(before: map<string, nat>, after: map<string, nat>, available: Option<string>,
                                logs: map<string, seq<Record>>, r: Option<ConsumeResult>)
  {
    match available
    case None => r.None? && after == before
    case Some(t) =>
      && t in before && t in logs && before[t] < |logs[t]|
      && after == before[t := before[t] + 1]
      && r == Some(ConsumeResult(t, Partition, before[t], Some(logs[t][before[t]])))
  }

  /** What `HandleResult` did to the span table and the current cells for `result`. */
  ghost predicate Handled(spans: seq<Span>, current: map<ContextId, SpanRef>,
                          spans': seq<Span>, current': map<ContextId, SpanRef>,
                          ctx: ContextId, result: Option<ConsumeResult>, ids: FreshIds, listened: bool)
  {
    var cur := if ctx in current then Some(current[ctx]) else None;
    (cur.Some? ==> cur.value < |spans|) &&
    if result.None? || result.value.message.None? then
      spans' == spans && current' == current
    else if !listened then
      spans' == spans && current' == current - {ctx}
    else
      spans' == spans + [ConsumerSpan(spans, cur, result.value, ids)] && current' == current[ctx := |spans|]
  }

  /**
   * What injection did to a message and the span table, given the current span
   * `cur` beforehand: nothing without a current span; otherwise one `traceparent`
   * header carrying the span's id and one "Produced" event on it.
   */
  ghost predicate Injection(before: seq<Span>, after: seq<Span>, cur: Option<SpanRef>,
                            sent: Record, delivered: Record, headers: Option<seq<Header>>)
  {
    && delivered.key == sent.key && delivered.value == sent.value
    && (cur.Some? ==> cur.value < |before|)
    && (cur.None? ==> after == before && delivered == sent)
    && (cur.Some? ==>
          && delivered.headers == Injected(headers, Encode(before[cur.value].context))
          && after == before[cur.value := before[cur.value].(events := before[cur.value].events + [ProducedEvent])])
  }
}
