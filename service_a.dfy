/**
 * Service A (serviceA/Program.cs): a loop of 100 iterations, each starting a root
 * span "scheduled computation", making it current, producing `(i, "message " + i)`
 * to topic "AtoB" and stopping the span.
 */
module ServiceA {
  import opened Wrappers
  import opened TraceContext
  import opened Diagnostics
  import opened Broker
  import opened Instrumentation
  import opened Numerals
  import opened Collections

  /** The execution context of the main loop. */
  const Ctx: ContextId := 1
  const SpanName: string := "scheduled computation"
  const Topic: string := "AtoB"
  const Iterations: nat := 100
  const Prefix: string := "message "

  /** The tracer provider adds the source "Service A", so its activities are always listened to. */
  const Listened: bool := true

  /** `"message " + i`: the prefix followed by decimal digits that read back as `i`. */
  function MessageValue(i: nat): (r: string)
    ensures |r| > |Prefix| && r[..|Prefix|] == Prefix
    ensures forall k :: |Prefix| <= k < |r| ==> '0' <= r[k] <= '9'
    ensures DecimalValue(r[|Prefix|..]) == i
  {
    DecimalValueString(i);
    var r := Prefix + DecimalString(i);
    assert r[|Prefix|..] == DecimalString(i);
    r
  }

  /** The span of iteration `i` once the iteration is over. */
  predicate ScheduledSpan(s: Span, ids: FreshIds) {
    s == Span(SpanName, Kind.Internal, SpanContext(ids.traceId, ids.spanId, SampledFlags),
              None, None, [], [ProducedEvent], true)
  }

  /** The record iteration `i` produces, carrying the id of its span. */
  predicate ScheduledRecord(r: Record, i: nat, s: Span) {
    r == Record(i, MessageValue(i), Injected(None, Encode(s.context)))
  }

  /** The record of iteration `i` is in the trace of its own root span. */
  lemma ScheduledRecordTrace(r: Record, i: nat, s: Span, ids: FreshIds)
    requires ValidFresh(ids) && ScheduledSpan(s, ids) && ScheduledRecord(r, i, s)
    ensures CarriedTrace(r) == Some(ids.traceId)
    ensures r.key == i && r.value == MessageValue(i)
  {
    CarriedTraceInjected(i, MessageValue(i), None, s.context);
  }

  /**
   * The first `n` iterations of the loop: iteration `j` left span `roots[j]`,
   * started with `ids[j]`, and record `produced[j]`.
   */
  predicate Ran(roots: seq<Span>, produced: seq<Record>, ids: seq<FreshIds>, n: nat) {
    |roots| == n && |produced| == n && n <= |ids| &&
    forall j :: 0 <= j < n ==> ScheduledSpan(roots[j], ids[j]) && ScheduledRecord(produced[j], j, roots[j])
  }

  /** One more iteration extends what the loop has done by its span and its record. */
  lemma RanStep(roots: seq<Span>, produced: seq<Record>, ids: seq<FreshIds>, n: nat, s: Span, r: Record)
    requires Ran(roots, produced, ids, n) && n < |ids|
    requires ScheduledSpan(s, ids[n]) && ScheduledRecord(r, n, s)
    ensures Ran(roots + [s], produced + [r], ids, n + 1)
  {
    forall j | 0 <= j < n + 1
      ensures ScheduledSpan((roots + [s])[j], ids[j]) && ScheduledRecord((produced + [r])[j], j, (roots + [s])[j])
    {
      if j < n {
        assert (roots + [s])[j] == roots[j] && (produced + [r])[j] == produced[j];
      }
    }
  }

  class Service {
    const producer: TrackableProducer
    const tracer: Tracer

    constructor (cluster: Cluster, tracer: Tracer)
      ensures fresh(producer) && producer.inner == cluster && producer.tracer == tracer && this.tracer == tracer
    {
      producer := new TrackableProducer(cluster, tracer);
      this.tracer := tracer;
    }

    /** One pass of the loop body for `i`. */
    method Iteration(i: nat, ids: FreshIds)
      requires tracer == producer.tracer && tracer.Valid() && ValidFresh(ids)
      requires tracer.Current(Ctx).None?
      modifies tracer, producer.inner
      ensures tracer.Valid() && Extends(old(tracer.spans), tracer.spans)
      ensures |tracer.spans| == |old(tracer.spans)| + 1
      ensures tracer.spans[..|old(tracer.spans)|] == old(tracer.spans)
      ensures ScheduledSpan(tracer.spans[|old(tracer.spans)|], ids)
      ensures tracer.current == old(tracer.current)
      ensures |producer.inner.Log(Topic)| == |old(producer.inner.Log(Topic))| + 1
      ensures producer.inner.Log(Topic)[..|old(producer.inner.Log(Topic))|] == old(producer.inner.Log(Topic))
      ensures OthersUnchanged(old(producer.inner.logs), producer.inner.logs, Topic)
      ensures ScheduledRecord(producer.inner.Log(Topic)[|old(producer.inner.Log(Topic))|], i, tracer.spans[|old(tracer.spans)|])
    {
      var act := tracer.StartActivity(Ctx, SpanName, Kind.Internal, None, [], ids, Listened);
      tracer.SetCurrent(Ctx, act);
      var msg := new Message(i, MessageValue(i));
      var _ := producer.Produce(Ctx, Topic, msg);
      var cur := tracer.Current(Ctx);
      if cur.Some? {
        tracer.Stop(Ctx, cur.value);
      }
    }

    /**
     * The whole loop: the log of "AtoB" grows by one record per iteration, in order,
     * and iteration `i` leaves behind a stopped root span whose id the record carries.
     * No span is current afterwards, as before.
     */
    method Run(ids: seq<FreshIds>)
      requires tracer == producer.tracer && tracer.Valid()
      requires |ids| == Iterations && forall i :: 0 <= i < |ids| ==> ValidFresh(ids[i])
      requires tracer.Current(Ctx).None?
      modifies tracer, producer.inner
      ensures tracer.Valid() && Extends(old(tracer.spans), tracer.spans)
      ensures tracer.current == old(tracer.current)
      ensures |tracer.spans| == |old(tracer.spans)| + Iterations
      ensures |producer.inner.Log(Topic)| == |old(producer.inner.Log(Topic))| + Iterations
      ensures OthersUnchanged(old(producer.inner.logs), producer.inner.logs, Topic)
      ensures producer.inner.Log(Topic)[..|old(producer.inner.Log(Topic))|] == old(producer.inner.Log(Topic))
      ensures Ran(tracer.spans[|old(tracer.spans)|..], producer.inner.Log(Topic)[|old(producer.inner.Log(Topic))|..], ids, Iterations)
    {
      ghost var spans0 := tracer.spans;
      ghost var log0 := producer.inner.Log(Topic);
      ghost var logs0 := producer.inner.logs;
      for i := 0 to Iterations
        invariant tracer.Valid() && Extends(spans0, tracer.spans)
        invariant tracer.current == old(tracer.current)
        invariant |tracer.spans| == |spans0| + i
        invariant |producer.inner.Log(Topic)| == |log0| + i
        invariant OthersUnchanged(logs0, producer.inner.logs, Topic)
        invariant producer.inner.Log(Topic)[..|log0|] == log0
        invariant Ran(tracer.spans[|spans0|..], producer.inner.Log(Topic)[|log0|..], ids, i)
      {
        ghost var spansBefore := tracer.spans;
        ghost var logBefore := producer.inner.Log(Topic);
        Iteration(i, ids[i]);
        ExtendsTransitive(spans0, spansBefore, tracer.spans);
        ghost var s := tracer.spans[|spansBefore|];
        ghost var r := producer.inner.Log(Topic)[|logBefore|];
        Snoc(spansBefore, tracer.spans);
        Snoc(logBefore, producer.inner.Log(Topic));
        SnocSuffix(spansBefore, s, |spans0|);
        SnocSuffix(logBefore, r, |log0|);
        RanStep(spansBefore[|spans0|..], logBefore[|log0|..], ids, i, s, r);
      }
    }
  }
}
