/**
 * Service C (serviceC/Program.cs): subscribed to "BtoC", each pass of its loop
 * consumes one record (the instrumented consume makes the consumer span current),
 * produces `value + "(C)"` with the same key to "CtoD" while that span is current,
 * and stops the current span.
 */
module ServiceC {
  import opened Wrappers
  import opened TraceContext
  import opened Diagnostics
  import opened Broker
  import opened Instrumentation
  import opened Collections

  /** The execution context of the main loop. */
  const Ctx: ContextId := 4
  const InTopic: string := "BtoC"
  const OutTopic: string := "CtoD"
  const Suffix: string := "(C)"

  /** The Kafka instrumentation is added to the tracer provider, so consumer spans are listened to. */
  const Listened: bool := true

  /**
   * `derived` is what one pass produced for the consumed record `source`, and `s` is
   * the pass's consumer span: stopped, in the trace `source` carries, and the span
   * whose id `derived` carries as its only header.
   */
  ghost predicate Served(source: Record, derived: Record, s: Span) {
    && derived.key == source.key && derived.value == source.value + Suffix
    && ConsumerOf(s, source) && s.stopped
    && derived.headers == Injected(None, Encode(s.context))
  }

  /**
   * The loop's bookkeeping: the records of `btoc` from `inBase` up to the consumer's
   * position were each served, in order, by the pass whose consumer span is
   * `handled[j]`, producing the records of `ctod` from `outBase`.
   */
  ghost predicate Handles(btoc: seq<Record>, ctod: seq<Record>, spans: seq<Span>, handled: seq<SpanRef>,
                          position: nat, inBase: nat, outBase: nat)
  {
    && position == inBase + |handled| && position <= |btoc| && |ctod| == outBase + |handled|
    && forall j :: 0 <= j < |handled| ==>
         handled[j] < |spans| && Served(btoc[inBase + j], ctod[outBase + j], spans[handled[j]])
  }

  /** The bookkeeping survives appends to both logs' ends and the growth of the span table. */
  lemma HandlesStable(btoc: seq<Record>, btoc': seq<Record>, ctod: seq<Record>, spans: seq<Span>, spans': seq<Span>,
                      handled: seq<SpanRef>, position: nat, inBase: nat, outBase: nat)
    requires Handles(btoc, ctod, spans, handled, position, inBase, outBase)
    requires btoc <= btoc' && Extends(spans, spans')
    ensures Handles(btoc', ctod, spans', handled, position, inBase, outBase)
  {
    forall j | 0 <= j < |handled|
      ensures handled[j] < |spans'| && Served(btoc'[inBase + j], ctod[outBase + j], spans'[handled[j]])
    {
      assert Served(btoc[inBase + j], ctod[outBase + j], spans[handled[j]]);
      assert SameOrigin(spans[handled[j]], spans'[handled[j]]);
    }
  }

  /** One more pass: the record at the consumer's position is served by span `h`. */
  lemma HandlesStep(btoc: seq<Record>, ctod: seq<Record>, spans: seq<Span>, spans': seq<Span>,
                    handled: seq<SpanRef>, position: nat, inBase: nat, outBase: nat, d: Record, h: SpanRef)
    requires Handles(btoc, ctod, spans, handled, position, inBase, outBase)
    requires position < |btoc| && Extends(spans, spans') && h < |spans'|
    requires Served(btoc[position], d, spans'[h])
    ensures Handles(btoc, ctod + [d], spans', handled + [h], position + 1, inBase, outBase)
  {
    var handled' := handled + [h];
    var ctod' := ctod + [d];
    forall j | 0 <= j < |handled'|
      ensures handled'[j] < |spans'| && Served(btoc[inBase + j], ctod'[outBase + j], spans'[handled'[j]])
    {
      if j < |handled| {
        assert Served(btoc[inBase + j], ctod[outBase + j], spans[handled[j]]);
        assert SameOrigin(spans[handled[j]], spans'[handled[j]]);
        assert ctod'[outBase + j] == ctod[outBase + j];
      }
    }
  }

  /**
   * The rest of a pass after the consume (serviceC/Program.cs:48-53): the derived
   * message is produced to "CtoD" while the consumer span `h` is current, so it
   * carries `h`'s id, and then the current span is stopped.
   */
  method Forward(producer: TrackableProducer, source: Record, ghost h: SpanRef, ghost reader: Consumer)
    requires producer.tracer.Valid() && producer.tracer.Current(Ctx) == Some(h)
    requires reader.cluster == producer.inner && reader.Valid()
    modifies producer.tracer, producer.inner
    ensures producer.tracer.Valid() && Extends(old(producer.tracer.spans), producer.tracer.spans)
    ensures reader.Valid()
    ensures producer.inner.logs == old(producer.inner.logs)[OutTopic := old(producer.inner.Log(OutTopic)) +
              [Record(source.key, source.value + Suffix, Injected(None, old(producer.tracer.Id(h))))]]
    ensures var spans := old(producer.tracer.spans);
      producer.tracer.spans == spans[h := spans[h].(events := spans[h].events + [ProducedEvent], stopped := true)]
    ensures var spans := old(producer.tracer.spans);
      var current := old(producer.tracer.current);
      producer.tracer.current ==
        if spans[h].stopped then current
        else match spans[h].parent case Some(p) => current[Ctx := p] case None => current - {Ctx}
  {
    var tracer := producer.tracer;
    var out := new Message(source.key, source.value + Suffix);
    var _ := producer.Produce(Ctx, OutTopic, out);
    var cur := tracer.Current(Ctx);
    if cur.Some? {
      tracer.Stop(Ctx, cur.value);
    }
    assert reader.Valid() by {
      forall t | t in reader.positions
        ensures reader.positions[t] <= |producer.inner.Log(t)|
      {
        assert |old(producer.inner.Log(t))| <= |producer.inner.Log(t)|;
      }
    }
  }

  /**
   * The body of one pass (serviceC/Program.cs:44-53) on the clients: the record at the
   * consumer's position of "BtoC" is consumed, and the span `h` started for it
   * serves it.
   */
  method Pass(consumer: TrackableConsumer, producer: TrackableProducer, ids: FreshIds)
    requires consumer.tracer == producer.tracer && consumer.inner.cluster == producer.inner
    requires consumer.listened && ValidFresh(ids)
    requires consumer.tracer.Valid() && consumer.inner.Valid() && consumer.inner.Available() == Some(InTopic)
    modifies consumer.tracer, consumer.inner, producer.inner
    ensures consumer.tracer.Valid() && Extends(old(consumer.tracer.spans), consumer.tracer.spans)
    ensures consumer.inner.Valid() && consumer.inner.subscription == old(consumer.inner.subscription)
    ensures consumer.inner.positions == old(consumer.inner.positions)[InTopic := old(consumer.inner.positions[InTopic]) + 1]
    ensures var h := |old(consumer.tracer.spans)|;
      var spans := consumer.tracer.spans;
      && |spans| == h + 1 && spans[..h] == old(consumer.tracer.spans)
    ensures var h := |old(consumer.tracer.spans)|;
      var source := old(producer.inner.Log(InTopic))[old(consumer.inner.positions[InTopic])];
      var d := Record(source.key, source.value + Suffix, Injected(None, Encode(consumer.tracer.spans[h].context)));
      && producer.inner.logs == old(producer.inner.logs)[OutTopic := old(producer.inner.Log(OutTopic)) + [d]]
      && Served(source, d, consumer.tracer.spans[h])
    ensures OthersUnchanged(old(producer.inner.logs), producer.inner.logs, OutTopic)
    ensures OthersCurrentUnchanged(old(consumer.tracer.current), consumer.tracer.current, {Ctx})
    ensures consumer.tracer.Current(Ctx) == consumer.tracer.spans[|old(consumer.tracer.spans)|].parent
  {
    var tracer := consumer.tracer;
    ghost var spans0 := tracer.spans;
    var source := Receive(consumer, ids);
    ghost var h := |spans0|;
    ghost var spans1 := tracer.spans;
    Forward(producer, source, h, consumer.inner);
    ExtendsTransitive(spans0, spans1, tracer.spans);
    assert tracer.spans[..h] == spans1[..h];
    assert producer.inner.Log(InTopic) == old(producer.inner.Log(InTopic));
    assert Served(source, Record(source.key, source.value + Suffix, Injected(None, Encode(tracer.spans[h].context))),
                  tracer.spans[h]);
    assert tracer.spans[h].parent == spans1[h].parent;
    match spans1[h].parent {
      case Some(p) => UpdateTwice(old(tracer.current), Ctx, h, p);
      case None => UpdateRemove(old(tracer.current), Ctx, h);
    }
    ParentRestored(old(tracer.current), Ctx, spans1[h].parent);
    AppendFrame(old(producer.inner.logs), OutTopic, producer.inner.Log(OutTopic)[|old(producer.inner.Log(OutTopic))|]);
  }

  /**
   * The instrumented consume of one pass (serviceC/Program.cs:44): the record at the
   * consumer's position of "BtoC" is read and the consumer span `h` started for it
   * becomes current.
   */
  method Receive(consumer: TrackableConsumer, ids: FreshIds) returns (source: Record)
    requires consumer.listened && ValidFresh(ids)
    requires consumer.tracer.Valid() && consumer.inner.Valid() && consumer.inner.Available() == Some(InTopic)
    modifies consumer.tracer, consumer.inner
    ensures consumer.tracer.Valid() && Extends(old(consumer.tracer.spans), consumer.tracer.spans)
    ensures consumer.inner.Valid() && consumer.inner.subscription == old(consumer.inner.subscription)
    ensures consumer.inner.positions == old(consumer.inner.positions)[InTopic := old(consumer.inner.positions[InTopic]) + 1]
    ensures source == consumer.inner.cluster.Log(InTopic)[old(consumer.inner.positions[InTopic])]
    ensures var h := |old(consumer.tracer.spans)|;
      var spans := consumer.tracer.spans;
      && |spans| == h + 1 && spans[..h] == old(consumer.tracer.spans)
      && consumer.tracer.current == old(consumer.tracer.current)[Ctx := h]
      && ConsumerOf(spans[h], source) && !spans[h].stopped && TraceContext.Valid(spans[h].context)
    ensures consumer.tracer.spans[|old(consumer.tracer.spans)|] ==
      ConsumerSpan(old(consumer.tracer.spans), old(consumer.tracer.Current(Ctx)),
                   ConsumeResult(InTopic, Partition, old(consumer.inner.positions[InTopic]), Some(source)), ids)
  {
    var tracer := consumer.tracer;
    ghost var spans0 := tracer.spans;
    ghost var cur := tracer.Current(Ctx);
    var r := consumer.Consume(Ctx, false, ids);
    var msg := r.value.value;
    source := msg.message.value;
    ConsumerSpanTrace(spans0, cur, msg, ids);
    assert WellFormed(tracer.spans, |spans0|);
  }

  class Service {
    const cluster: Cluster
    const tracer: Tracer
    const consumer: TrackableConsumer
    const producer: TrackableProducer
    /** The consumer span of each pass so far, in order. */
    ghost var handled: seq<SpanRef>
    /** The input topic's length and the output topic's length when the service subscribed. */
    ghost var inBase: nat
    ghost var outBase: nat

    ghost predicate Wired()
      reads this, consumer, consumer.inner, producer
    {
      && consumer.tracer == tracer && producer.tracer == tracer
      && consumer.inner.cluster == cluster && producer.inner == cluster
      && consumer.listened == Listened
    }

    ghost predicate Valid()
      reads this, consumer, consumer.inner, producer, tracer, cluster
    {
      && Wired() && tracer.Valid() && consumer.inner.Valid()
      && consumer.inner.subscription == [InTopic] && InTopic in consumer.inner.positions
      && Handles(cluster.Log(InTopic), cluster.Log(OutTopic), tracer.spans, handled,
                 consumer.inner.positions[InTopic], inBase, outBase)
    }

    /** The set-up of serviceC/Program.cs:30-40: the clients and the subscription to "BtoC". */
    constructor (cluster: Cluster, tracer: Tracer)
      requires tracer.Valid()
      ensures Valid() && this.cluster == cluster && this.tracer == tracer
      ensures fresh(consumer) && fresh(consumer.inner) && fresh(producer)
      ensures handled == [] && inBase == |cluster.Log(InTopic)| && outBase == |cluster.Log(OutTopic)|
      ensures consumer.inner.positions[InTopic] == |cluster.Log(InTopic)|
    {
      this.cluster := cluster;
      this.tracer := tracer;
      var inner := new Consumer(cluster);
      producer := new TrackableProducer(cluster, tracer);
      consumer := new TrackableConsumer(inner, tracer, Listened);
      handled := [];
      inBase := |cluster.Log(InTopic)|;
      outBase := |cluster.Log(OutTopic)|;
      new;
      consumer.Subscribe(InTopic);
    }

    /**
     * The loop's state is kept by what the other services do: they append to the
     * input topic, leave the output topic alone and only extend the span table.
     */
    twostate lemma ValidStable()
      requires old(Valid()) && unchanged(this, consumer, consumer.inner, producer)
      requires tracer.Valid() && Extends(old(tracer.spans), tracer.spans)
      requires forall t :: LogOf(old(cluster.logs), t) <= LogOf(cluster.logs, t)
      requires cluster.Log(OutTopic) == old(cluster.Log(OutTopic))
      ensures Valid()
    {
      HandlesStable(old(cluster.Log(InTopic)), cluster.Log(InTopic), cluster.Log(OutTopic), old(tracer.spans), tracer.spans,
                    handled, consumer.inner.positions[InTopic], inBase, outBase);
      assert consumer.inner.Valid() by {
        forall t | t in consumer.inner.positions
          ensures consumer.inner.positions[t] <= |cluster.Log(t)|
        {
          assert LogOf(old(cluster.logs), t) <= LogOf(cluster.logs, t);
        }
      }
    }

    /** Whether the blocking consume can return: a record of "BtoC" is unread. */
    predicate HasInput()
      reads this, consumer, consumer.inner, cluster
    {
      InTopic in consumer.inner.positions && consumer.inner.positions[InTopic] < |cluster.Log(InTopic)|
    }

    /**
     * One pass of the loop (serviceC/Program.cs:44-53): the next "BtoC" record is
     * consumed, its consumer span becomes current, the derived record is produced to
     * "CtoD" in that span's trace and the span is stopped, leaving its local parent
     * (if any) current.
     */
    method Step(ids: FreshIds)
      requires Valid() && ValidFresh(ids) && HasInput()
      modifies this, tracer, consumer.inner, cluster
      ensures Valid() && Extends(old(tracer.spans), tracer.spans)
      ensures inBase == old(inBase) && outBase == old(outBase)
      ensures handled == old(handled) + [|old(tracer.spans)|]
      ensures consumer.inner.positions[InTopic] == old(consumer.inner.positions[InTopic]) + 1
      ensures OthersUnchanged(old(cluster.logs), cluster.logs, OutTopic)
      ensures OthersCurrentUnchanged(old(tracer.current), tracer.current, {Ctx})
      ensures |cluster.Log(OutTopic)| == |old(cluster.Log(OutTopic))| + 1
      ensures cluster.Log(OutTopic)[..|old(cluster.Log(OutTopic))|] == old(cluster.Log(OutTopic))
      ensures |tracer.spans| == |old(tracer.spans)| + 1
      ensures tracer.spans[..|old(tracer.spans)|] == old(tracer.spans)
      ensures tracer.Current(Ctx) == tracer.spans[|old(tracer.spans)|].parent
    {
      assert consumer.inner.Available() == Some(InTopic);
      Pass(consumer, producer, ids);
      handled := handled + [|old(tracer.spans)|];
      ghost var source := old(cluster.Log(InTopic))[old(consumer.inner.positions[InTopic])];
      StepKeeps(Record(source.key, source.value + Suffix, Injected(None, Encode(tracer.spans[|old(tracer.spans)|].context))));
    }

    /** What one pass leaves behind keeps the loop's bookkeeping. */
    twostate lemma StepKeeps(d: Record)
      requires old(Valid()) && old(HasInput())
      requires inBase == old(inBase) && outBase == old(outBase) && handled == old(handled) + [|old(tracer.spans)|]
      requires tracer.Valid() && Extends(old(tracer.spans), tracer.spans) && |tracer.spans| == |old(tracer.spans)| + 1
      requires consumer.inner.Valid() && consumer.inner.subscription == old(consumer.inner.subscription)
      requires consumer.inner.positions == old(consumer.inner.positions)[InTopic := old(consumer.inner.positions[InTopic]) + 1]
      requires cluster.logs == old(cluster.logs)[OutTopic := old(cluster.Log(OutTopic)) + [d]]
      requires Served(old(cluster.Log(InTopic))[old(consumer.inner.positions[InTopic])], d, tracer.spans[|old(tracer.spans)|])
      ensures Valid()
    {
      ghost var btoc := old(cluster.Log(InTopic));
      ghost var ctod0 := old(cluster.Log(OutTopic));
      assert cluster.Log(InTopic) == btoc;
      assert cluster.Log(OutTopic) == ctod0 + [d];
      HandlesStep(btoc, ctod0, old(tracer.spans), tracer.spans, old(handled), old(consumer.inner.positions[InTopic]),
                  inBase, outBase, d, |old(tracer.spans)|);
      assert Wired();
    }
  }
}
