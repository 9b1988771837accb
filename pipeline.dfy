/**
 * The three services run against one broker and one span table: A produces to
 * "AtoB", B relays "AtoB" to "BtoC", C consumes "BtoC" and produces to "CtoD".
 * B and C subscribe before A's first record, and every step of any service may
 * follow any other: A's iterations, B's consumes, channel writes and worker passes,
 * and C's passes interleave freely.  The invariant carries the link from each of A's
 * records to its root span, so that the record C consumes for iteration `k`, and
 * C's consumer span for it, are in the trace of A's root span `k`.
 */
module Pipeline {
  import opened Wrappers
  import opened TraceContext
  import opened Diagnostics
  import opened Broker
  import opened Instrumentation
  import ServiceA
  import ServiceB
  import ServiceC

  /** `r` is the record of iteration `i` of A, carrying the id of A's root span `s`. */
  ghost predicate Rooted(r: Record, i: nat, s: Span) {
    && r.key == i && r.value == ServiceA.MessageValue(i)
    && s.name == ServiceA.SpanName && s.parent.None? && s.parentId.None?
    && r.headers == Injected(None, Encode(s.context))
  }

  /** A's records so far, each linked to its root span in `roots`. */
  ghost predicate Links(atob: seq<Record>, spans: seq<Span>, roots: seq<SpanRef>) {
    && |roots| == |atob|
    && forall i :: 0 <= i < |roots| ==> roots[i] < |spans| && Rooted(atob[i], i, spans[roots[i]])
  }

  /** The links survive the growth of the span table. */
  lemma LinksStable(atob: seq<Record>, spans: seq<Span>, spans': seq<Span>, roots: seq<SpanRef>)
    requires Links(atob, spans, roots) && Extends(spans, spans')
    ensures Links(atob, spans', roots)
  {
    forall i | 0 <= i < |roots|
      ensures roots[i] < |spans'| && Rooted(atob[i], i, spans'[roots[i]])
    {
      assert Rooted(atob[i], i, spans[roots[i]]);
      assert SameOrigin(spans[roots[i]], spans'[roots[i]]);
    }
  }

  /** A's next iteration adds the link from its record to its root span. */
  lemma LinksGrow(atob: seq<Record>, atob': seq<Record>, spans: seq<Span>, spans': seq<Span>,
                  roots: seq<SpanRef>, ids: FreshIds)
    requires Links(atob, spans, roots) && ValidFresh(ids)
    requires |atob'| == |atob| + 1 && atob'[..|atob|] == atob
    requires |spans'| == |spans| + 1 && spans'[..|spans|] == spans
    requires ServiceA.ScheduledSpan(spans'[|spans|], ids)
    requires ServiceA.ScheduledRecord(atob'[|atob|], |atob|, spans'[|spans|])
    ensures Links(atob', spans', roots + [|spans|])
  {
    var roots' := roots + [|spans|];
    forall i | 0 <= i < |roots'|
      ensures roots'[i] < |spans'| && Rooted(atob'[i], i, spans'[roots'[i]])
    {
      if i < |roots| {
        assert Rooted(atob[i], i, spans[roots[i]]);
        assert atob'[i] == atob[i] && spans'[roots[i]] == spans[roots[i]];
      }
    }
  }

  class System {
    const cluster: Cluster
    const tracer: Tracer
    const a: ServiceA.Service
    const b: ServiceB.Service
    const c: ServiceC.Service
    /** A's next loop index. */
    var next: nat
    /** A's root span of each iteration so far. */
    ghost var roots: seq<SpanRef>

    ghost predicate Wired()
      reads this, a, a.producer, b, b.consumer, c, c.consumer
    {
      && a.tracer == tracer && a.producer.tracer == tracer && a.producer.inner == cluster
      && b.cluster == cluster && b.tracer == tracer
      && c.cluster == cluster && c.tracer == tracer
      && b.consumer.inner != c.consumer.inner
    }

    ghost predicate Valid()
      reads this, cluster, tracer, a, a.producer, b, b.consumer, b.consumer.inner, b.producer, b.channel,
            c, c.consumer, c.consumer.inner, c.producer
    {
      && Wired() && b.Valid() && c.Valid()
      && tracer.Current(ServiceA.Ctx).None?
      && b.inBase == 0 && b.outBase == 0 && c.inBase == 0 && c.outBase == 0
      && next <= ServiceA.Iterations && |roots| == next
      && Links(cluster.Log(ServiceA.Topic), tracer.spans, roots)
    }

    /** A fresh broker and span table, with B and C subscribed and A not yet started. */
    constructor ()
      ensures Valid() && next == 0 && roots == []
      ensures fresh(cluster) && fresh(tracer) && fresh(a) && fresh(a.producer)
      ensures fresh(b) && fresh(b.consumer) && fresh(b.consumer.inner) && fresh(b.producer) && fresh(b.channel)
      ensures fresh(c) && fresh(c.consumer) && fresh(c.consumer.inner) && fresh(c.producer)
      ensures cluster.logs == map[] && tracer.spans == [] && tracer.current == map[]
      ensures b.intake == ServiceB.Receiving && b.channel.items == [] && b.consumers == [] && b.heavy == []
      ensures b.consumer.inner.positions[ServiceB.InTopic] == 0
      ensures c.handled == [] && c.consumer.inner.positions[ServiceC.InTopic] == 0
    {
      var cluster := new Cluster();
      var tracer := new Tracer();
      this.cluster := cluster;
      this.tracer := tracer;
      b := new ServiceB.Service(cluster, tracer);
      c := new ServiceC.Service(cluster, tracer);
      a := new ServiceA.Service(cluster, tracer);
      next := 0;
      roots := [];
    }

    /** One iteration of A's loop, for the next index. */
    method ProduceNext(ids: FreshIds)
      requires Valid() && ValidFresh(ids) && next < ServiceA.Iterations
      modifies this, tracer, cluster
      ensures Valid() && next == old(next) + 1 && roots == old(roots) + [|old(tracer.spans)|]
      ensures |cluster.Log(ServiceA.Topic)| == |old(cluster.Log(ServiceA.Topic))| + 1
      ensures cluster.Log(ServiceA.Topic)[..|old(cluster.Log(ServiceA.Topic))|] == old(cluster.Log(ServiceA.Topic))
      ensures OthersUnchanged(old(cluster.logs), cluster.logs, ServiceA.Topic)
    {
      var i := next;
      roots := roots + [|tracer.spans|];
      next := next + 1;
      a.Iteration(i, ids);
      ProduceKeeps(ids);
    }

    /** What an iteration of A leaves behind keeps the whole system's invariant. */
    twostate lemma ProduceKeeps(ids: FreshIds)
      requires old(Valid()) && ValidFresh(ids) && old(next) < ServiceA.Iterations
      requires unchanged(a, a.producer, b, b.consumer, b.consumer.inner, b.producer, b.channel)
      requires unchanged(c, c.consumer, c.consumer.inner, c.producer)
      requires next == old(next) + 1 && roots == old(roots) + [|old(tracer.spans)|]
      requires tracer.Valid() && Extends(old(tracer.spans), tracer.spans) && tracer.current == old(tracer.current)
      requires |tracer.spans| == |old(tracer.spans)| + 1 && tracer.spans[..|old(tracer.spans)|] == old(tracer.spans)
      requires ServiceA.ScheduledSpan(tracer.spans[|old(tracer.spans)|], ids)
      requires |cluster.Log(ServiceA.Topic)| == |old(cluster.Log(ServiceA.Topic))| + 1
      requires cluster.Log(ServiceA.Topic)[..|old(cluster.Log(ServiceA.Topic))|] == old(cluster.Log(ServiceA.Topic))
      requires OthersUnchanged(old(cluster.logs), cluster.logs, ServiceA.Topic)
      requires ServiceA.ScheduledRecord(cluster.Log(ServiceA.Topic)[|old(cluster.Log(ServiceA.Topic))|], old(next),
                                        tracer.spans[|old(tracer.spans)|])
      ensures Valid()
    {
      AppendOnly(old(cluster.logs), cluster.logs, ServiceA.Topic);
      b.ValidStable();
      c.ValidStable();
      LinksGrow(old(cluster.Log(ServiceA.Topic)), cluster.Log(ServiceA.Topic), old(tracer.spans), tracer.spans,
                old(roots), ids);
      assert Wired();
    }

    /**
     * What a step of B leaves behind keeps the whole system's invariant: B's own
     * bookkeeping holds, A's and C's state is untouched, only B's contexts changed
     * their current spans, and the logs only grew, except "AtoB" and "CtoD".
     */
    twostate lemma RelayKeeps()
      requires old(Valid())
      requires unchanged(this, a, a.producer, c, c.consumer, c.consumer.inner, c.producer)
      requires b.Valid() && b.inBase == old(b.inBase) && b.outBase == old(b.outBase)
      requires tracer.Valid() && Extends(old(tracer.spans), tracer.spans)
      requires OthersCurrentUnchanged(old(tracer.current), tracer.current, {ServiceB.IntakeCtx, ServiceB.WorkerCtx})
      requires forall t :: LogOf(old(cluster.logs), t) <= LogOf(cluster.logs, t)
      requires cluster.Log(ServiceA.Topic) == old(cluster.Log(ServiceA.Topic))
      requires cluster.Log(ServiceC.OutTopic) == old(cluster.Log(ServiceC.OutTopic))
      ensures Valid()
    {
      assert ServiceA.Ctx !in tracer.current by {
        assert ServiceA.Ctx !in {ServiceB.IntakeCtx, ServiceB.WorkerCtx};
      }
      c.ValidStable();
      LinksStable(cluster.Log(ServiceA.Topic), old(tracer.spans), tracer.spans, roots);
      assert Wired();
    }

    /** B's intake consumes the next record of "AtoB". */
    method Intake(ids: FreshIds)
      requires Valid() && ValidFresh(ids) && b.intake == ServiceB.Receiving && b.HasInput()
      modifies b, tracer, b.consumer.inner
      ensures Valid()
      ensures b.consumer.inner.positions[ServiceB.InTopic] == old(b.consumer.inner.positions[ServiceB.InTopic]) + 1
      ensures b.intake == ServiceB.Writing(Some(ConsumeResult(ServiceB.InTopic, Partition,
                                                              old(b.consumer.inner.positions[ServiceB.InTopic]),
                                                              Some(cluster.Log(ServiceB.InTopic)[old(b.consumer.inner.positions[ServiceB.InTopic])]))))
    {
      b.Intake(ids);
      RelayKeeps();
    }

    /** B's intake writes the result it holds to the channel; not enabled while the channel is full. */
    method Enqueue()
      requires Valid() && b.intake.Writing? && b.channel.CanWrite()
      modifies b, b.channel, tracer
      ensures Valid() && b.intake == ServiceB.Receiving
      ensures b.channel.items == old(b.channel.items) + [ServiceB.Pair(old(b.intake.msg), old(tracer.Current(ServiceB.IntakeCtx)))]
    {
      b.Enqueue();
      RelayKeeps();
    }

    /** B's worker relays the oldest pair of the channel to "BtoC". */
    method Work(ids: FreshIds)
      requires Valid() && ValidFresh(ids) && |b.channel.items| > 0
      modifies b, b.channel, tracer, cluster
      ensures Valid() && b.intake == old(b.intake) && b.channel.items == old(b.channel.items)[1..]
      ensures |cluster.Log(ServiceB.OutTopic)| == |old(cluster.Log(ServiceB.OutTopic))| + 1
      ensures cluster.Log(ServiceB.OutTopic)[..|old(cluster.Log(ServiceB.OutTopic))|] == old(cluster.Log(ServiceB.OutTopic))
      ensures OthersUnchanged(old(cluster.logs), cluster.logs, ServiceB.OutTopic)
    {
      ghost var logs0 := cluster.logs;
      b.Work(ids);
      AppendOnly(logs0, cluster.logs, ServiceB.OutTopic);
      RelayKeeps();
    }

    /** One pass of C's loop over the next record of "BtoC". */
    method Serve(ids: FreshIds)
      requires Valid() && ValidFresh(ids) && c.HasInput()
      modifies c, tracer, c.consumer.inner, cluster
      ensures Valid() && c.handled == old(c.handled) + [|old(tracer.spans)|]
      ensures c.consumer.inner.positions[ServiceC.InTopic] == old(c.consumer.inner.positions[ServiceC.InTopic]) + 1
      ensures |cluster.Log(ServiceC.OutTopic)| == |old(cluster.Log(ServiceC.OutTopic))| + 1
      ensures cluster.Log(ServiceC.OutTopic)[..|old(cluster.Log(ServiceC.OutTopic))|] == old(cluster.Log(ServiceC.OutTopic))
      ensures OthersUnchanged(old(cluster.logs), cluster.logs, ServiceC.OutTopic)
    {
      ghost var logs0 := cluster.logs;
      c.Step(ids);
      assert ServiceA.Ctx !in tracer.current && tracer.Current(ServiceB.IntakeCtx) == old(tracer.Current(ServiceB.IntakeCtx)) by {
        assert ServiceA.Ctx !in {ServiceC.Ctx} && ServiceB.IntakeCtx !in {ServiceC.Ctx};
      }
      AppendOnly(logs0, cluster.logs, ServiceC.OutTopic);
      b.ValidStable();
      LinksStable(cluster.Log(ServiceA.Topic), old(tracer.spans), tracer.spans, roots);
      assert Wired();
    }

    /** B's intake consumes the next record of "AtoB" and writes it to an empty channel. */
    method Accept(ids: FreshIds)
      requires Valid() && ValidFresh(ids) && b.intake == ServiceB.Receiving && b.HasInput() && b.channel.items == []
      modifies b, b.channel, tracer, b.consumer.inner
      ensures Valid() && b.intake == ServiceB.Receiving && |b.channel.items| == 1
    {
      Intake(ids);
      Enqueue();
    }

    /**
     * With a pair in the channel and nothing yet on "BtoC": B's worker relays it and C
     * serves the relayed record, so C has handled one record, the one of A's first
     * iteration, in that iteration's trace.
     */
    method Deliver(ids2: FreshIds, ids3: FreshIds)
      requires Valid() && ValidFresh(ids2) && ValidFresh(ids3) && |b.channel.items| > 0
      requires cluster.Log(ServiceB.OutTopic) == [] && c.handled == [] && c.consumer.inner.positions[ServiceC.InTopic] == 0
      modifies b, b.channel, tracer, cluster, c, c.consumer.inner
      ensures Valid() && |c.handled| == 1 && roots == old(roots) && 0 < |roots| && roots[0] < |tracer.spans|
      ensures 0 < |cluster.Log(ServiceC.OutTopic)|
      ensures cluster.Log(ServiceC.OutTopic)[0].value == ServiceA.MessageValue(0) + ServiceB.Suffix + ServiceC.Suffix
      ensures CarriedTrace(cluster.Log(ServiceC.OutTopic)[0]) == Some(tracer.spans[roots[0]].context.traceId)
      ensures c.handled[0] < |tracer.spans|
      ensures tracer.spans[c.handled[0]].context.traceId == tracer.spans[roots[0]].context.traceId
    {
      Work(ids2);
      Serve(ids3);
      EndToEnd(0);
    }

    /**
     * End to end: the `k`-th record C consumed is B's relay of A's record `k`, so it
     * has key `k` and value "message k(B)" and carries the trace of A's root span `k`.
     * B's consumer span for A's record, the heavy span B ran under it, C's consumer
     * span and the record C produced are all in that trace, and the record C
     * produced has value "message k(B)(C)".
     */
    lemma EndToEnd(k: nat)
      requires Valid() && k < |c.handled|
      ensures k < next && k < |cluster.Log(ServiceB.OutTopic)| && k < |cluster.Log(ServiceC.OutTopic)|
      ensures c.handled[k] < |tracer.spans|
      ensures tracer.spans[c.handled[k]].context.traceId == tracer.spans[roots[k]].context.traceId
      ensures cluster.Log(ServiceB.OutTopic)[k].key == k
      ensures cluster.Log(ServiceB.OutTopic)[k].value == ServiceA.MessageValue(k) + ServiceB.Suffix
      ensures CarriedTrace(cluster.Log(ServiceB.OutTopic)[k]) == Some(tracer.spans[roots[k]].context.traceId)
      ensures k < |b.consumers| && b.consumers[k] < |tracer.spans|
      ensures tracer.spans[b.consumers[k]].name == ConsumerSpanName
      ensures tracer.spans[b.consumers[k]].context.traceId == tracer.spans[roots[k]].context.traceId
      ensures k < |b.heavy| && b.heavy[k] < |tracer.spans|
      ensures var hv := tracer.spans[b.heavy[k]];
        && hv.name == ServiceB.HeavySpanName && hv.stopped && hv.parent == Some(b.consumers[k])
        && hv.context.traceId == tracer.spans[roots[k]].context.traceId
      ensures CarriedTrace(cluster.Log(ServiceC.OutTopic)[k]) == Some(tracer.spans[roots[k]].context.traceId)
      ensures cluster.Log(ServiceC.OutTopic)[k].key == k
      ensures cluster.Log(ServiceC.OutTopic)[k].value == ServiceA.MessageValue(k) + ServiceB.Suffix + ServiceC.Suffix
    {
      var atob := cluster.Log(ServiceA.Topic);
      var btoc := cluster.Log(ServiceB.OutTopic);
      var ctod := cluster.Log(ServiceC.OutTopic);
      var spans := tracer.spans;
      assert ServiceC.Served(btoc[k], ctod[k], spans[c.handled[k]]);
      assert WellFormed(spans, c.handled[k]);
      CarriedTraceInjected(ctod[k].key, ctod[k].value, None, spans[c.handled[k]].context);
      assert ServiceB.Relayed(atob[k], btoc[k]);
      assert Rooted(atob[k], k, spans[roots[k]]);
      assert WellFormed(spans, roots[k]);
      CarriedTraceInjected(atob[k].key, atob[k].value, None, spans[roots[k]].context);
      assert ConsumerOf(spans[b.consumers[k]], atob[k]);
      assert ServiceB.HeavyOf(spans[b.heavy[k]], atob[k]);
    }
  }

  /**
   * The path of A's first record through the whole system: A's iteration 0, then
   * `Accept` and `Deliver`, after which the end-to-end properties
   * hold for that record.
   */
  method FirstRecord(ids0: FreshIds, ids1: FreshIds, ids2: FreshIds, ids3: FreshIds) returns (s: System)
    requires ValidFresh(ids0) && ValidFresh(ids1) && ValidFresh(ids2) && ValidFresh(ids3)
    ensures s.Valid() && |s.c.handled| == 1 && |s.roots| == 1 && s.roots[0] < |s.tracer.spans|
    ensures s.cluster.Log(ServiceC.OutTopic)[0].value == ServiceA.MessageValue(0) + ServiceB.Suffix + ServiceC.Suffix
    ensures CarriedTrace(s.cluster.Log(ServiceC.OutTopic)[0]) == Some(s.tracer.spans[s.roots[0]].context.traceId)
    ensures s.c.handled[0] < |s.tracer.spans|
    ensures s.tracer.spans[s.c.handled[0]].context.traceId == s.tracer.spans[s.roots[0]].context.traceId
  {
    s := new System();
    s.ProduceNext(ids0);
    s.Accept(ids1);
    s.Deliver(ids2, ids3);
  }
}
