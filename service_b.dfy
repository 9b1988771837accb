/**
 * Service B (serviceB/Program.cs): an intake loop consumes "AtoB" and writes each
 * result, paired with the span current after the instrumented consume, into a
 * bounded channel of capacity 3; a single worker reads the pairs, restores the
 * carried span as its own current span, runs a nested "heavy computation" span,
 * produces `value + "(B)"` to "BtoC" and stops the carried span.  The two loops are
 * modelled as atomic steps that may interleave in any order: `Intake` (a consume),
 * `Enqueue` (a channel write, enabled only while the channel is not full) and
 * `Work` (one pass of the worker, enabled while the channel is not empty).
 */
module ServiceB {
  import opened Wrappers
  import opened TraceContext
  import opened Diagnostics
  import opened Broker
  import opened Instrumentation

  const IntakeCtx: ContextId := 2
  const WorkerCtx: ContextId := 3
  const HeavySpanName: string := "heavy computation"
  const InTopic: string := "AtoB"
  const OutTopic: string := "BtoC"
  const Capacity: nat := 3
  const Suffix: string := "(B)"
  const EnqueuedEvent: string := "enqueued"
  const DequeuedEvent: string := "dequeued"

  /** The tracer provider adds the source "Service B" and the Kafka instrumentation. */
  const Listened: bool := true

  /** An element of the relay: a consume result and the span current when it was written. */
  datatype Pair = Pair(result: Option<ConsumeResult>, span: Option<SpanRef>)

  /** Where the intake loop is: about to consume, or holding a result to write to the channel. */
  datatype IntakeState = Receiving | Writing(msg: Option<ConsumeResult>)

  /** `Channel.CreateBounded<T>(capacity)` with one writer and one reader. */
  class Channel<T> {
    const capacity: nat
    var items: seq<T>

    constructor (capacity: nat)
      ensures this.capacity == capacity && items == []
    {
      this.capacity := capacity;
      items := [];
    }

    /** Whether `WriteAsync` completes now rather than waiting for the reader. */
    predicate CanWrite()
      reads this
    {
      |items| < capacity
    }

    /** A `WriteAsync` that completes: the item goes to the back, nothing is dropped. */
    method Write(x: T)
      requires CanWrite()
      modifies this
      ensures items == old(items) + [x]
    {
      items := items + [x];
    }

    /** The next item of `ReadAllAsync`: the oldest one. */
    method Read() returns (x: T)
      requires |items| > 0
      modifies this
      ensures x == old(items)[0] && items == old(items)[1..]
    {
      x := items[0];
      items := items[1..];
    }
  }

  /** `derived` is what the worker produces for the consumed record `source`. */
  ghost predicate Relayed(source: Record, derived: Record) {
    && derived.key == source.key && derived.value == source.value + Suffix
    && (CarriedTrace(source).Some? ==> CarriedTrace(derived) == CarriedTrace(source))
  }

  /** A consume result for record `r` at `offset` of the input topic, with the consumer span for it. */
  ghost predicate Carries(r: Record, offset: nat, result: Option<ConsumeResult>, span: Option<SpanRef>, spans: seq<Span>) {
    && result == Some(ConsumeResult(InTopic, Partition, offset, Some(r)))
    && span.Some? && span.value < |spans| && ConsumerOf(spans[span.value], r)
  }

  /**
   * The relay's bookkeeping, from the input log `atob`, the output log `btoc`, the
   * consumer's position, the channel's items and the intake's state: every record
   * consumed since `inBase` is either forwarded (in order, to `btoc` from `outBase`),
   * waiting in the channel (in order, with its consumer span), or held by the intake.
   */
  ghost predicate RelayInv(atob: seq<Record>, btoc: seq<Record>, spans: seq<Span>, position: nat,
                           items: seq<Pair>, intake: IntakeState, intakeCur: Option<SpanRef>,
                           inBase: nat, outBase: nat)
  {
    && outBase <= |btoc|
    && var done := |btoc| - outBase;
       var next := inBase + done + |items|;
       && position == next + (if intake.Writing? then 1 else 0)
       && position <= |atob|
       && (forall k :: inBase <= k < inBase + done ==> Relayed(atob[k], btoc[k - inBase + outBase]))
       && (forall k :: inBase + done <= k < next ==>
             Carries(atob[k], k, items[k - inBase - done].result, items[k - inBase - done].span, spans))
       && (intake.Writing? ==> Carries(atob[next], next, intake.msg, intakeCur, spans))
  }

  /** The bookkeeping survives appends to the input log and the growth of the span table. */
  lemma RelayInvStable(atob: seq<Record>, atob': seq<Record>, btoc: seq<Record>, spans: seq<Span>, spans': seq<Span>,
                       position: nat, items: seq<Pair>, intake: IntakeState, intakeCur: Option<SpanRef>,
                       inBase: nat, outBase: nat)
    requires RelayInv(atob, btoc, spans, position, items, intake, intakeCur, inBase, outBase)
    requires atob <= atob' && Extends(spans, spans')
    ensures RelayInv(atob', btoc, spans', position, items, intake, intakeCur, inBase, outBase)
  {
    var done := |btoc| - outBase;
    var next := inBase + done + |items|;
    forall k | inBase + done <= k < next
      ensures Carries(atob'[k], k, items[k - inBase - done].result, items[k - inBase - done].span, spans')
    {
      assert Carries(atob[k], k, items[k - inBase - done].result, items[k - inBase - done].span, spans);
      assert SameOrigin(spans[items[k - inBase - done].span.value], spans'[items[k - inBase - done].span.value]);
    }
    if intake.Writing? {
      assert SameOrigin(spans[intakeCur.value], spans'[intakeCur.value]);
    }
  }

  /** A consume by the intake: the next input record is held, with its new consumer span. */
  lemma RelayInvReceive(atob: seq<Record>, btoc: seq<Record>, spans: seq<Span>, s: Span, position: nat,
                        items: seq<Pair>, cur: Option<SpanRef>, inBase: nat, outBase: nat)
    requires RelayInv(atob, btoc, spans, position, items, Receiving, cur, inBase, outBase)
    requires position < |atob| && ConsumerOf(s, atob[position])
    ensures RelayInv(atob, btoc, spans + [s], position + 1, items,
                     Writing(Some(ConsumeResult(InTopic, Partition, position, Some(atob[position])))), Some(|spans|),
                     inBase, outBase)
  {
    var done := |btoc| - outBase;
    var next := inBase + done + |items|;
    var spans' := spans + [s];
    forall k | inBase + done <= k < next
      ensures Carries(atob[k], k, items[k - inBase - done].result, items[k - inBase - done].span, spans')
    {
      assert Carries(atob[k], k, items[k - inBase - done].result, items[k - inBase - done].span, spans);
      assert spans'[items[k - inBase - done].span.value] == spans[items[k - inBase - done].span.value];
    }
    assert spans'[|spans|] == s;
  }

  /** A channel write: the held result and the intake's current span go to the back of the channel. */
  lemma RelayInvEnqueue(atob: seq<Record>, btoc: seq<Record>, spans: seq<Span>, spans': seq<Span>, position: nat,
                        items: seq<Pair>, msg: Option<ConsumeResult>, cur: Option<SpanRef>, cur': Option<SpanRef>,
                        inBase: nat, outBase: nat)
    requires RelayInv(atob, btoc, spans, position, items, Writing(msg), cur, inBase, outBase)
    requires Extends(spans, spans')
    ensures RelayInv(atob, btoc, spans', position, items + [Pair(msg, cur)], Receiving, cur', inBase, outBase)
  {
    var done := |btoc| - outBase;
    var next := inBase + done + |items|;
    var items' := items + [Pair(msg, cur)];
    forall k | inBase + done <= k < next + 1
      ensures Carries(atob[k], k, items'[k - inBase - done].result, items'[k - inBase - done].span, spans')
    {
      if k < next {
        assert Carries(atob[k], k, items[k - inBase - done].result, items[k - inBase - done].span, spans);
      } else {
        assert Carries(atob[k], k, msg, cur, spans);
      }
      assert SameOrigin(spans[items'[k - inBase - done].span.value], spans'[items'[k - inBase - done].span.value]);
    }
  }

  /** The oldest element of the channel carries the first input record not yet forwarded. */
  lemma RelayInvHead(atob: seq<Record>, btoc: seq<Record>, spans: seq<Span>, position: nat,
                     items: seq<Pair>, intake: IntakeState, cur: Option<SpanRef>, inBase: nat, outBase: nat)
    requires RelayInv(atob, btoc, spans, position, items, intake, cur, inBase, outBase) && |items| > 0
    ensures var next := inBase + |btoc| - outBase;
      next < |atob| && Carries(atob[next], next, items[0].result, items[0].span, spans)
  {
    var next := inBase + |btoc| - outBase;
    assert items[next - inBase - (|btoc| - outBase)] == items[0];
  }

  /** The oldest element of the channel holds a consumed record and its consumer span. */
  lemma RelayInvPending(atob: seq<Record>, btoc: seq<Record>, spans: seq<Span>, position: nat,
                        items: seq<Pair>, intake: IntakeState, cur: Option<SpanRef>, inBase: nat, outBase: nat)
    requires RelayInv(atob, btoc, spans, position, items, intake, cur, inBase, outBase) && |items| > 0
    ensures items[0].result.Some? && items[0].result.value.message.Some?
    ensures items[0].span.Some? && items[0].span.value < |spans|
  {
    RelayInvHead(atob, btoc, spans, position, items, intake, cur, inBase, outBase);
  }

  /** A worker pass: the oldest element leaves the channel and its derived record is forwarded. */
  lemma RelayInvForward(atob: seq<Record>, btoc: seq<Record>, spans: seq<Span>, spans': seq<Span>, position: nat,
                        items: seq<Pair>, intake: IntakeState, cur: Option<SpanRef>, d: Record,
                        inBase: nat, outBase: nat)
    requires RelayInv(atob, btoc, spans, position, items, intake, cur, inBase, outBase) && |items| > 0
    requires inBase + |btoc| - outBase < |atob| && Relayed(atob[inBase + |btoc| - outBase], d)
    requires Extends(spans, spans')
    ensures RelayInv(atob, btoc + [d], spans', position, items[1..], intake, cur, inBase, outBase)
  {
    var done := |btoc| - outBase;
    var next := inBase + done + |items|;
    var btoc' := btoc + [d];
    forall k | inBase <= k < inBase + done + 1
      ensures Relayed(atob[k], btoc'[k - inBase + outBase])
    {
      if k < inBase + done {
        assert btoc'[k - inBase + outBase] == btoc[k - inBase + outBase];
      }
    }
    forall k | inBase + done + 1 <= k < next
      ensures Carries(atob[k], k, items[1..][k - inBase - (done + 1)].result, items[1..][k - inBase - (done + 1)].span, spans')
    {
      assert items[1..][k - inBase - (done + 1)] == items[k - inBase - done];
      assert Carries(atob[k], k, items[k - inBase - done].result, items[k - inBase - done].span, spans);
      assert SameOrigin(spans[items[k - inBase - done].span.value], spans'[items[k - inBase - done].span.value]);
    }
    if intake.Writing? {
      assert SameOrigin(spans[cur.value], spans'[cur.value]);
    }
  }

  /**
   * A worker pass that forwards, for the oldest element of the channel, a record with
   * the consumed record's key, its value with "(B)" appended, and the trace of the
   * element's consumer span, keeps the bookkeeping.
   */
  lemma RelayInvWork(atob: seq<Record>, btoc: seq<Record>, spans: seq<Span>, spans': seq<Span>, position: nat,
                     items: seq<Pair>, intake: IntakeState, cur: Option<SpanRef>, d: Record,
                     inBase: nat, outBase: nat)
    requires RelayInv(atob, btoc, spans, position, items, intake, cur, inBase, outBase) && |items| > 0
    requires items[0].span.Some? && items[0].span.value < |spans|
    requires items[0].result.Some? && items[0].result.value.message.Some?
    requires var source := items[0].result.value.message.value;
      && d.key == source.key && d.value == source.value + Suffix
      && d.headers == Injected(None, Encode(spans[items[0].span.value].context))
    requires TraceContext.Valid(spans[items[0].span.value].context)
    requires Extends(spans, spans')
    ensures RelayInv(atob, btoc + [d], spans', position, items[1..], intake, cur, inBase, outBase)
  {
    CarriedTraceInjected(d.key, d.value, None, spans[items[0].span.value].context);
    RelayInvHead(atob, btoc, spans, position, items, intake, cur, inBase, outBase);
    assert Relayed(atob[inBase + |btoc| - outBase], d);
    RelayInvForward(atob, btoc, spans, spans', position, items, intake, cur, d, inBase, outBase);
  }

  /** `s` is the "heavy computation" span a worker pass ran for record `r`: stopped, and in the trace `r` carries. */
  ghost predicate HeavyOf(s: Span, r: Record) {
    && s.name == HeavySpanName && s.kind == Kind.Internal && s.stopped
    && (CarriedTrace(r).Some? ==> s.context.traceId == CarriedTrace(r).value)
  }

  /**
   * The relay's spans for the `done` records it has forwarded: `consumers[j]` is the
   * consumer span of input record `inBase + j`, and `heavy[j]` is the heavy span the
   * worker ran as its child.
   */
  ghost predicate Traced(atob: seq<Record>, spans: seq<Span>, consumers: seq<SpanRef>, heavy: seq<SpanRef>,
                         inBase: nat, done: int)
  {
    && |consumers| == done && |heavy| == done && inBase + done <= |atob|
    && (forall j :: 0 <= j < |consumers| ==>
          consumers[j] < |spans| && ConsumerOf(spans[consumers[j]], atob[inBase + j]))
    && (forall j :: 0 <= j < |heavy| ==>
          heavy[j] < |spans| && spans[heavy[j]].parent == Some(consumers[j]) && HeavyOf(spans[heavy[j]], atob[inBase + j]))
  }

  /** The relay's spans keep their meaning while the input log grows and the span table extends. */
  lemma TracedStable(atob: seq<Record>, atob': seq<Record>, spans: seq<Span>, spans': seq<Span>,
                     consumers: seq<SpanRef>, heavy: seq<SpanRef>, inBase: nat, done: int)
    requires Traced(atob, spans, consumers, heavy, inBase, done)
    requires atob <= atob' && Extends(spans, spans')
    ensures Traced(atob', spans', consumers, heavy, inBase, done)
  {
    forall j | 0 <= j < |consumers|
      ensures consumers[j] < |spans'| && ConsumerOf(spans'[consumers[j]], atob'[inBase + j])
    {
      assert ConsumerOf(spans[consumers[j]], atob[inBase + j]);
      assert SameOrigin(spans[consumers[j]], spans'[consumers[j]]);
    }
    forall j | 0 <= j < |heavy|
      ensures heavy[j] < |spans'| && spans'[heavy[j]].parent == Some(consumers[j]) && HeavyOf(spans'[heavy[j]], atob'[inBase + j])
    {
      assert HeavyOf(spans[heavy[j]], atob[inBase + j]);
      assert SameOrigin(spans[heavy[j]], spans'[heavy[j]]);
    }
  }

  /**
   * A worker pass that forwards input record `inBase + done`, whose consumer span is
   * `c`, adds `c` and the pass's heavy span `hv`: a stopped child of `c` in `c`'s trace.
   */
  lemma TracedWork(atob: seq<Record>, spans: seq<Span>, spans': seq<Span>, consumers: seq<SpanRef>, heavy: seq<SpanRef>,
                   inBase: nat, done: int, c: SpanRef, hv: SpanRef)
    requires Traced(atob, spans, consumers, heavy, inBase, done) && inBase + done < |atob|
    requires c < |spans| && ConsumerOf(spans[c], atob[inBase + done])
    requires Extends(spans, spans') && hv < |spans'|
    requires spans'[hv].name == HeavySpanName && spans'[hv].kind == Kind.Internal && spans'[hv].stopped
    requires spans'[hv].parent == Some(c) && spans'[hv].context.traceId == spans[c].context.traceId
    ensures Traced(atob, spans', consumers + [c], heavy + [hv], inBase, done + 1)
  {
    TracedStable(atob, atob, spans, spans', consumers, heavy, inBase, done);
    assert SameOrigin(spans[c], spans'[c]);
    var consumers' := consumers + [c];
    var heavy' := heavy + [hv];
    forall j | 0 <= j < |consumers'|
      ensures consumers'[j] < |spans'| && ConsumerOf(spans'[consumers'[j]], atob[inBase + j])
    {
      if j < |consumers| {
        assert consumers'[j] == consumers[j];
      }
    }
    forall j | 0 <= j < |heavy'|
      ensures heavy'[j] < |spans'| && spans'[heavy'[j]].parent == Some(consumers'[j]) && HeavyOf(spans'[heavy'[j]], atob[inBase + j])
    {
      if j < |heavy| {
        assert heavy'[j] == heavy[j] && consumers'[j] == consumers[j];
      }
    }
  }

  /**
   * A whole worker pass over the oldest pair, seen on values: the relayed record `d`
   * goes to the back of the output log and the heavy span at `|spans|` joins the
   * relay's spans, and both the bookkeeping and the span bookkeeping are kept.
   */
  lemma RelayWork(atob: seq<Record>, btoc: seq<Record>, spans: seq<Span>, spans': seq<Span>, position: nat,
                  items: seq<Pair>, intake: IntakeState, cur: Option<SpanRef>, d: Record,
                  consumers: seq<SpanRef>, heavy: seq<SpanRef>, inBase: nat, outBase: nat)
    requires RelayInv(atob, btoc, spans, position, items, intake, cur, inBase, outBase) && |items| > 0
    requires Traced(atob, spans, consumers, heavy, inBase, |btoc| - outBase)
    requires items[0].span.Some? && items[0].span.value < |spans|
    requires items[0].result.Some? && items[0].result.value.message.Some?
    requires var source := items[0].result.value.message.value;
      && d.key == source.key && d.value == source.value + Suffix
      && d.headers == Injected(None, Encode(spans[items[0].span.value].context))
    requires TraceContext.Valid(spans[items[0].span.value].context)
    requires Extends(spans, spans') && |spans| < |spans'|
    requires var hv := spans'[|spans|];
      && hv.name == HeavySpanName && hv.kind == Kind.Internal && hv.stopped && hv.parent == items[0].span
      && hv.context.traceId == spans[items[0].span.value].context.traceId
    ensures RelayInv(atob, btoc + [d], spans', position, items[1..], intake, cur, inBase, outBase)
    ensures Traced(atob, spans', consumers + [items[0].span.value], heavy + [|spans|], inBase, |btoc + [d]| - outBase)
  {
    RelayInvHead(atob, btoc, spans, position, items, intake, cur, inBase, outBase);
    TracedWork(atob, spans, spans', consumers, heavy, inBase, |btoc| - outBase, items[0].span.value, |spans|);
    RelayInvWork(atob, btoc, spans, spans', position, items, intake, cur, d, inBase, outBase);
  }

  /**
   * The start of a worker pass (serviceB/Program.cs:48-53): the carried span becomes
   * the worker's current span and gets the "dequeued" event, then a "heavy
   * computation" span is started under it and stopped again by its `using` block.
   */
  method Restore(tracer: Tracer, span: Option<SpanRef>, ids: FreshIds)
    requires tracer.Valid() && ValidFresh(ids) && span.Some? && span.value < |tracer.spans|
    modifies tracer
    ensures tracer.Valid() && Extends(old(tracer.spans), tracer.spans)
    ensures var h := span.value;
      && tracer.current == old(tracer.current)[WorkerCtx := h]
      && |tracer.spans| == |old(tracer.spans)| + 1
      && tracer.spans[h] == old(tracer.spans[h]).(events := old(tracer.spans[h]).events + [DequeuedEvent])
      && (forall k :: 0 <= k < |old(tracer.spans)| && k != h ==> tracer.spans[k] == old(tracer.spans[k]))
    ensures var h := span.value;
      var heavy := tracer.spans[|old(tracer.spans)|];
      && heavy.name == HeavySpanName && heavy.kind == Kind.Internal && heavy.stopped
      && heavy.parent == Some(h) && heavy.context.traceId == old(tracer.spans[h].context.traceId)
  {
    var h := span.value;
    tracer.SetCurrent(WorkerCtx, span);
    var cur := tracer.Current(WorkerCtx);
    if cur.Some? {
      tracer.AddEvent(cur.value, DequeuedEvent);
    }
    ghost var spans1 := tracer.spans;
    var sub := tracer.StartActivity(WorkerCtx, HeavySpanName, Kind.Internal, None, [], ids, Listened);
    StartContextTrace(spans1, Some(h), None, ids);
    if sub.Some? {
      tracer.Stop(WorkerCtx, sub.value);
    }
  }

  /**
   * The end of a worker pass (serviceB/Program.cs:55-60): the derived message is
   * produced to "BtoC" while the carried span `h` is current, so it carries `h`'s
   * id, and then the current span is stopped.
   */
  method Forward(producer: TrackableProducer, source: Record, h: SpanRef)
    requires producer.tracer.Valid() && producer.tracer.Current(WorkerCtx) == Some(h)
    modifies producer.tracer, producer.inner
    ensures producer.tracer.Valid() && Extends(old(producer.tracer.spans), producer.tracer.spans)
    ensures producer.inner.logs == old(producer.inner.logs)[OutTopic := old(producer.inner.Log(OutTopic)) +
              [Record(source.key, source.value + Suffix, Injected(None, old(producer.tracer.Id(h))))]]
    ensures var spans := old(producer.tracer.spans);
      producer.tracer.spans == spans[h := spans[h].(events := spans[h].events + [ProducedEvent], stopped := true)]
    ensures var spans := old(producer.tracer.spans);
      var current := old(producer.tracer.current);
      producer.tracer.current ==
        if spans[h].stopped then current
        else match spans[h].parent case Some(p) => current[WorkerCtx := p] case None => current - {WorkerCtx}
  {
    var tracer := producer.tracer;
    var out := new Message(source.key, source.value + Suffix);
    var _ := producer.Produce(WorkerCtx, OutTopic, out);
    var cur := tracer.Current(WorkerCtx);
    if cur.Some? {
      tracer.Stop(WorkerCtx, cur.value);
    }
  }

  /**
   * What one worker pass does with the pair it read (serviceB/Program.cs:48-60): the
   * carried span `h` gets the "dequeued" and "Produced" events and is stopped, a
   * stopped "heavy computation" child of `h` is added, and the record with "(B)"
   * appended to its value is produced to "BtoC" carrying `h`'s id.
   */
  method Pass(producer: TrackableProducer, pair: Pair, ids: FreshIds)
    requires producer.tracer.Valid() && ValidFresh(ids)
    requires pair.span.Some? && pair.span.value < |producer.tracer.spans|
    requires pair.result.Some? && pair.result.value.message.Some?
    modifies producer.tracer, producer.inner
    ensures producer.tracer.Valid() && Extends(old(producer.tracer.spans), producer.tracer.spans)
    ensures OthersCurrentUnchanged(old(producer.tracer.current), producer.tracer.current, {WorkerCtx})
    ensures var h := pair.span.value;
      var source := pair.result.value.message.value;
      var d := Record(source.key, source.value + Suffix, Injected(None, old(producer.tracer.Id(h))));
      && producer.inner.logs == old(producer.inner.logs)[OutTopic := old(producer.inner.Log(OutTopic)) + [d]]
      && d.key == source.key && d.value == source.value + Suffix
    ensures var h := pair.span.value;
      var spans := old(producer.tracer.spans);
      && |producer.tracer.spans| == |spans| + 1
      && producer.tracer.spans[h] == spans[h].(events := spans[h].events + [DequeuedEvent, ProducedEvent], stopped := true)
      && (forall k :: 0 <= k < |spans| && k != h ==> producer.tracer.spans[k] == spans[k])
      && producer.tracer.Current(WorkerCtx) == (if spans[h].stopped then Some(h) else spans[h].parent)
    ensures var h := pair.span.value;
      var heavy := producer.tracer.spans[|old(producer.tracer.spans)|];
      && heavy.name == HeavySpanName && heavy.kind == Kind.Internal && heavy.stopped
      && heavy.parent == Some(h) && heavy.context.traceId == old(producer.tracer.spans[h].context.traceId)
  {
    var tracer := producer.tracer;
    var h := pair.span.value;
    var source := pair.result.value.message.value;
    ghost var spans0 := tracer.spans;
    Restore(tracer, pair.span, ids);
    ghost var spans1 := tracer.spans;
    Forward(producer, source, h);
    ExtendsTransitive(spans0, spans1, tracer.spans);
  }

  class Service {
    const cluster: Cluster
    const tracer: Tracer
    const consumer: TrackableConsumer
    const producer: TrackableProducer
    const channel: Channel<Pair>
    var intake: IntakeState
    /** The input topic's length and the output topic's length when the service subscribed. */
    ghost var inBase: nat
    ghost var outBase: nat
    /** The consumer span and the heavy span of each record relayed, in order. */
    ghost var consumers: seq<SpanRef>
    ghost var heavy: seq<SpanRef>

    ghost predicate Wired()
      reads this, consumer, consumer.inner, producer, channel
    {
      && consumer.tracer == tracer && producer.tracer == tracer
      && consumer.inner.cluster == cluster && producer.inner == cluster
      && consumer.listened == Listened && channel.capacity == Capacity
    }

    ghost predicate Valid()
      reads this, consumer, consumer.inner, producer, channel, tracer, cluster
    {
      && Wired() && tracer.Valid() && consumer.inner.Valid()
      && consumer.inner.subscription == [InTopic] && InTopic in consumer.inner.positions
      && |channel.items| <= Capacity
      && RelayInv(cluster.Log(InTopic), cluster.Log(OutTopic), tracer.spans, consumer.inner.positions[InTopic],
                  channel.items, intake, tracer.Current(IntakeCtx), inBase, outBase)
      && Traced(cluster.Log(InTopic), tracer.spans, consumers, heavy, inBase, |cluster.Log(OutTopic)| - outBase)
    }

    /** The set-up of serviceB/Program.cs: the clients, the channel of capacity 3 and the subscription to "AtoB". */
    constructor (cluster: Cluster, tracer: Tracer)
      requires tracer.Valid()
      ensures Valid() && this.cluster == cluster && this.tracer == tracer
      ensures fresh(consumer) && fresh(consumer.inner) && fresh(producer) && fresh(channel)
      ensures intake == Receiving && channel.items == [] && consumers == [] && heavy == []
      ensures inBase == |cluster.Log(InTopic)| && outBase == |cluster.Log(OutTopic)|
      ensures consumer.inner.positions[InTopic] == |cluster.Log(InTopic)|
    {
      this.cluster := cluster;
      this.tracer := tracer;
      var inner := new Consumer(cluster);
      producer := new TrackableProducer(cluster, tracer);
      consumer := new TrackableConsumer(inner, tracer, Listened);
      channel := new Channel<Pair>(Capacity);
      intake := Receiving;
      inBase := |cluster.Log(InTopic)|;
      outBase := |cluster.Log(OutTopic)|;
      consumers := [];
      heavy := [];
      new;
      consumer.Subscribe(InTopic);
    }

    /**
     * The relay's state is kept by what the other services do: they append to the
     * input topic, leave the output topic and the intake's current span alone, and
     * only extend the span table.
     */
    twostate lemma ValidStable()
      requires old(Valid()) && unchanged(this, consumer, consumer.inner, producer, channel)
      requires tracer.Valid() && Extends(old(tracer.spans), tracer.spans)
      requires tracer.Current(IntakeCtx) == old(tracer.Current(IntakeCtx))
      requires forall t :: LogOf(old(cluster.logs), t) <= LogOf(cluster.logs, t)
      requires cluster.Log(OutTopic) == old(cluster.Log(OutTopic))
      ensures Valid()
    {
      RelayInvStable(old(cluster.Log(InTopic)), cluster.Log(InTopic), cluster.Log(OutTopic), old(tracer.spans), tracer.spans,
                     consumer.inner.positions[InTopic], channel.items, intake, tracer.Current(IntakeCtx), inBase, outBase);
      TracedStable(old(cluster.Log(InTopic)), cluster.Log(InTopic), old(tracer.spans), tracer.spans, consumers, heavy,
                   inBase, |cluster.Log(OutTopic)| - outBase);
      assert consumer.inner.Valid() by {
        forall t | t in consumer.inner.positions
          ensures consumer.inner.positions[t] <= |cluster.Log(t)|
        {
          assert LogOf(old(cluster.logs), t) <= LogOf(cluster.logs, t);
        }
      }
    }

    /** Whether the intake's blocking consume can return: a record of "AtoB" is unread. */
    predicate HasInput()
      reads this, consumer, consumer.inner, cluster
    {
      InTopic in consumer.inner.positions && consumer.inner.positions[InTopic] < |cluster.Log(InTopic)|
    }

    /**
     * The intake's `consumer.Consume()` (serviceB/Program.cs:67): the next record of
     * "AtoB" is consumed in the intake context, whose current span becomes the new
     * consumer span; the result is held until the channel takes it.
     */
    method Intake(ids: FreshIds)
      requires Valid() && ValidFresh(ids) && intake == Receiving && HasInput()
      modifies this, tracer, consumer.inner
      ensures Valid() && Extends(old(tracer.spans), tracer.spans)
      ensures inBase == old(inBase) && outBase == old(outBase)
      ensures cluster.logs == old(cluster.logs) && channel.items == old(channel.items)
      ensures OthersCurrentUnchanged(old(tracer.current), tracer.current, {IntakeCtx})
      ensures consumer.inner.positions[InTopic] == old(consumer.inner.positions[InTopic]) + 1
      ensures intake == Writing(Some(ConsumeResult(InTopic, Partition, old(consumer.inner.positions[InTopic]),
                                                   Some(cluster.Log(InTopic)[old(consumer.inner.positions[InTopic])]))))
      ensures tracer.spans == old(tracer.spans) + [ConsumerSpan(old(tracer.spans), old(tracer.Current(IntakeCtx)), intake.msg.value, ids)]
      ensures tracer.Current(IntakeCtx) == Some(|old(tracer.spans)|)
      ensures consumers == old(consumers) && heavy == old(heavy)
    {
      ghost var position := consumer.inner.positions[InTopic];
      ghost var cur := tracer.Current(IntakeCtx);
      ghost var spans := tracer.spans;
      assert consumer.inner.Available() == Some(InTopic);
      var r := consumer.Consume(IntakeCtx, false, ids);
      intake := Writing(r.value);
      ConsumerSpanTrace(spans, cur, r.value.value, ids);
      IntakeKeeps();
    }

    /** What a consume by the intake leaves behind keeps the relay's bookkeeping. */
    twostate lemma IntakeKeeps()
      requires old(Valid()) && old(intake) == Receiving && old(HasInput())
      requires unchanged(consumer, producer, channel)
      requires inBase == old(inBase) && outBase == old(outBase)
      requires tracer.Valid() && consumer.inner.Valid() && consumer.inner.subscription == old(consumer.inner.subscription)
      requires consumer.inner.positions == old(consumer.inner.positions)[InTopic := old(consumer.inner.positions[InTopic]) + 1]
      requires cluster.logs == old(cluster.logs)
      requires |tracer.spans| == |old(tracer.spans)| + 1 && tracer.spans[..|old(tracer.spans)|] == old(tracer.spans)
      requires ConsumerOf(tracer.spans[|old(tracer.spans)|], old(cluster.Log(InTopic))[old(consumer.inner.positions[InTopic])])
      requires tracer.Current(IntakeCtx) == Some(|old(tracer.spans)|)
      requires intake == Writing(Some(ConsumeResult(InTopic, Partition, old(consumer.inner.positions[InTopic]),
                                                    Some(old(cluster.Log(InTopic))[old(consumer.inner.positions[InTopic])]))))
      requires consumers == old(consumers) && heavy == old(heavy)
      ensures Valid()
    {
      ghost var atob := old(cluster.Log(InTopic));
      ghost var btoc := old(cluster.Log(OutTopic));
      ghost var spans0 := old(tracer.spans);
      ghost var s := tracer.spans[|spans0|];
      assert cluster.Log(InTopic) == atob && cluster.Log(OutTopic) == btoc;
      assert tracer.spans == spans0 + [s];
      RelayInvReceive(atob, btoc, spans0, s, old(consumer.inner.positions[InTopic]),
                      channel.items, old(tracer.Current(IntakeCtx)), inBase, outBase);
      assert Extends(spans0, tracer.spans);
      TracedStable(atob, atob, spans0, tracer.spans, consumers, heavy, inBase, |btoc| - outBase);
    }

    /**
     * The intake's `channel.Writer.WriteAsync((msg, Activity.Current))` once it
     * completes, then the "enqueued" event on the intake's current span
     * (serviceB/Program.cs:69-70).  While the channel is full the step is not enabled:
     * the intake waits and nothing is dropped.
     */
    method Enqueue()
      requires Valid() && intake.Writing? && channel.CanWrite()
      modifies this, channel, tracer
      ensures Valid() && Extends(old(tracer.spans), tracer.spans)
      ensures inBase == old(inBase) && outBase == old(outBase)
      ensures intake == Receiving && consumers == old(consumers) && heavy == old(heavy)
      ensures channel.items == old(channel.items) + [Pair(old(intake.msg), old(tracer.Current(IntakeCtx)))]
      ensures cluster.logs == old(cluster.logs) && tracer.current == old(tracer.current)
      ensures old(tracer.Current(IntakeCtx)).Some?
      ensures var h := old(tracer.Current(IntakeCtx)).value;
        tracer.spans == old(tracer.spans)[h := old(tracer.spans[h]).(events := old(tracer.spans[h]).events + [EnqueuedEvent])]
    {
      ghost var spans := tracer.spans;
      var pair := Pair(intake.msg, tracer.Current(IntakeCtx));
      channel.Write(pair);
      intake := Receiving;
      var cur := tracer.Current(IntakeCtx);
      if cur.Some? {
        tracer.AddEvent(cur.value, EnqueuedEvent);
      }
      EnqueueKeeps();
    }

    /** What a channel write leaves behind keeps the relay's bookkeeping. */
    twostate lemma EnqueueKeeps()
      requires old(Valid()) && old(intake).Writing?
      requires unchanged(consumer, consumer.inner, producer, cluster)
      requires inBase == old(inBase) && outBase == old(outBase) && consumers == old(consumers) && heavy == old(heavy)
      requires intake == Receiving
      requires channel.items == old(channel.items) + [Pair(old(intake).msg, old(tracer.Current(IntakeCtx)))]
      requires tracer.Valid() && Extends(old(tracer.spans), tracer.spans) && tracer.current == old(tracer.current)
      requires |channel.items| <= Capacity
      ensures Valid()
    {
      ghost var atob := old(cluster.Log(InTopic));
      ghost var btoc := old(cluster.Log(OutTopic));
      ghost var position := old(consumer.inner.positions[InTopic]);
      ghost var spans0 := old(tracer.spans);
      ghost var items0 := old(channel.items);
      ghost var msg := old(intake).msg;
      ghost var cur := old(tracer.Current(IntakeCtx));
      assert RelayInv(atob, btoc, spans0, position, items0, Writing(msg), cur, inBase, outBase);
      assert Extends(spans0, tracer.spans);
      TracedStable(atob, atob, spans0, tracer.spans, consumers, heavy, inBase, |btoc| - outBase);
      RelayInvEnqueue(atob, btoc, spans0, tracer.spans, position, items0, msg, cur, cur, inBase, outBase);
      assert cluster.Log(InTopic) == atob && cluster.Log(OutTopic) == btoc;
      assert consumer.inner.positions[InTopic] == position && tracer.Current(IntakeCtx) == cur;
    }

    /**
     * One pass of the worker loop (serviceB/Program.cs:46-61): the oldest pair leaves
     * the channel and `Pass` relays it; the record it produces to "BtoC" is the
     * relayed form of the next unforwarded "AtoB" record.
     */
    method Work(ids: FreshIds)
      requires Valid() && ValidFresh(ids) && |channel.items| > 0
      modifies this, channel, tracer, cluster
      ensures Valid() && Extends(old(tracer.spans), tracer.spans)
      ensures inBase == old(inBase) && outBase == old(outBase) && intake == old(intake)
      ensures old(channel.items)[0].span.Some? && consumers == old(consumers) + [old(channel.items)[0].span.value]
      ensures heavy == old(heavy) + [|old(tracer.spans)|]
      ensures channel.items == old(channel.items)[1..]
      ensures OthersUnchanged(old(cluster.logs), cluster.logs, OutTopic)
      ensures OthersCurrentUnchanged(old(tracer.current), tracer.current, {WorkerCtx})
      ensures |cluster.Log(OutTopic)| == |old(cluster.Log(OutTopic))| + 1
      ensures cluster.Log(OutTopic)[..|old(cluster.Log(OutTopic))|] == old(cluster.Log(OutTopic))
    {
      RelayInvPending(cluster.Log(InTopic), cluster.Log(OutTopic), tracer.spans, consumer.inner.positions[InTopic],
                      channel.items, intake, tracer.Current(IntakeCtx), inBase, outBase);
      var pair := channel.Read();
      ghost var h := pair.span.value;
      ghost var source := pair.result.value.message.value;
      ghost var d := Record(source.key, source.value + Suffix, Injected(None, tracer.Id(h)));
      ghost var hv := |tracer.spans|;
      Pass(producer, pair, ids);
      consumers := consumers + [h];
      heavy := heavy + [hv];
      WorkKeeps(d);
    }

    /** What a worker pass leaves behind keeps the relay's bookkeeping. */
    twostate lemma WorkKeeps(d: Record)
      requires old(Valid()) && |old(channel.items)| > 0
      requires unchanged(consumer, consumer.inner, producer)
      requires intake == old(intake) && inBase == old(inBase) && outBase == old(outBase)
      requires channel.items == old(channel.items)[1..]
      requires tracer.Valid() && Extends(old(tracer.spans), tracer.spans)
      requires tracer.Current(IntakeCtx) == old(tracer.Current(IntakeCtx))
      requires cluster.logs == old(cluster.logs)[OutTopic := old(cluster.Log(OutTopic)) + [d]]
      requires old(channel.items)[0].span.Some? && old(channel.items)[0].span.value < |old(tracer.spans)|
      requires consumers == old(consumers) + [old(channel.items)[0].span.value] && heavy == old(heavy) + [|old(tracer.spans)|]
      requires old(channel.items)[0].result.Some? && old(channel.items)[0].result.value.message.Some?
      requires d.key == old(channel.items)[0].result.value.message.value.key
      requires d.value == old(channel.items)[0].result.value.message.value.value + Suffix
      requires d.headers == Injected(None, Encode(old(tracer.spans)[old(channel.items)[0].span.value].context))
      requires |old(tracer.spans)| < |tracer.spans|
      requires var hv := tracer.spans[|old(tracer.spans)|];
        && hv.name == HeavySpanName && hv.kind == Kind.Internal && hv.stopped && hv.parent == old(channel.items)[0].span
        && hv.context.traceId == old(tracer.spans)[old(channel.items)[0].span.value].context.traceId
      ensures Valid()
    {
      ghost var atob := old(cluster.Log(InTopic));
      ghost var btoc0 := old(cluster.Log(OutTopic));
      assert cluster.Log(InTopic) == atob;
      assert cluster.Log(OutTopic) == btoc0 + [d];
      ghost var spans0 := old(tracer.spans);
      ghost var items0 := old(channel.items);
      ghost var cur := tracer.Current(IntakeCtx);
      ghost var position := consumer.inner.positions[InTopic];
      assert WellFormed(spans0, items0[0].span.value);
      RelayWork(atob, btoc0, spans0, tracer.spans, position, items0, intake, cur, d, old(consumers), old(heavy),
                inBase, outBase);
      AppendOnly(old(cluster.logs), cluster.logs, OutTopic);
      assert consumer.inner.Valid();
    }
  }
}
