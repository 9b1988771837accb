# Trace-context propagation over Kafka, modelled in Dafny

The system is a three-hop Kafka pipeline that is instrumented with OpenTelemetry.
- **Service A** runs 100 iterations. Each iteration starts a root span "scheduled computation" and produces `(i, "message " + i)` to topic "AtoB".
- **Service B** consumes "AtoB" in an intake loop. It hands each result, together with the span current after the consume, to a worker through a bounded channel of capacity 3. The worker restores that span as its own current span, runs a nested "heavy computation" span and produces `(key, value + "(B)")` to "BtoC". It then stops the carried span.
- **Service C** consumes "BtoC", produces `(key, value + "(C)")` to "CtoD" and stops its current span.

The only trace state that crosses the broker is one `traceparent` header. The shared instrumentation adds it and reads it back:
- a producer decorator appends the current span's W3C id as the header;
- a consumer decorator starts a "Processing Kafka Message" consumer span from the last such header and makes that span current.

Modules:
- `Wrappers`: `Option` and `Result`.
- `Utf8`: `Encoding.UTF8.GetBytes` and `GetString`.
- `TraceContext`: the `traceparent` value of the W3C Trace Context recommendation, section 3.2.
- `Numerals`: the decimal text of `"message " + i`.
- `Collections`: small sequence and map identities.
- `Diagnostics`: what the code relies on from `System.Diagnostics`:
  - spans live in a table owned by a `Tracer` and are referred to by index, so the relay can copy a span reference;
  - there is one `Activity.Current` cell per execution context (A = 1, B's intake = 2, B's worker = 3, C = 4);
  - `StartActivity`, `AddEvent`, `Stop` and assignment to `Current`.
- `Broker`: the topic logs (one partition each) and the plain Confluent client that the decorators delegate to.
- `Instrumentation`: the shared decorators.
- `ServiceA`, `ServiceB`, `ServiceC`: the three programs.
- `Pipeline`: the three services on one broker and one span table. Their steps interleave in any order. It proves the end-to-end property: the `k`-th record C consumes is B's relay of A's record `k`. It has key `k` and value "message k(B)" and carries the trace of A's root span `k`. B's consumer span for A's record, the heavy span B ran under it, C's consumer span and C's output record are all in that trace.

Two behaviours of the instrumentation are easy to miss. The model states both as the code has them.
- **The header is appended, not replaced.** `InjectHeader` calls `Headers.Add` (shared/OpenTelemetry.Instrumentation.Kafka.cs:121). So a message injected twice carries two `traceparent` entries, and the consumer reads the last one. `InjectTwice` states this.
- **A header-less message does not start a new trace.** For a message without a `traceparent` header, `HandleResult` passes a null parent id to `StartActivity` (shared/OpenTelemetry.Instrumentation.Kafka.cs:42-53). `StartActivity` then takes the calling context's `Activity.Current` as the local parent, so the consumer span joins that span's trace. Only when no span is current does it start a root span. `ConsumerSpanWithoutHeader` states this.

## Model

| member | source | states |
|---|---|---|
| TraceContext.ParseEncode | shared/OpenTelemetry.Instrumentation.Kafka.cs:52-53 | the parent id a consumer hands to `StartActivity` reads back as exactly the span context it was written from, for every valid context |
| TraceContext.ParseCanonical | serviceA/Program.cs:17-18 | a version-00 `traceparent` value reads as context `c` if and only if `c` is valid and the value is `c`'s encoding |
| TraceContext.ParseValid | shared/OpenTelemetry.Instrumentation.Kafka.cs:52-53 | whatever parses has a 32-digit non-zero trace id, a 16-digit non-zero span id and 2 flag digits |
| TraceContext.EncodeFields | serviceA/Program.cs:17-18 | a W3C id is 55 characters: version "00", dashes at 2, 35 and 52, then the hex trace id, span id and flags |
| Utf8.DecodeEncode | shared/OpenTelemetry.Instrumentation.Kafka.cs:42-44 | `GetString(GetBytes(s)) == s` for every string of Unicode scalar values, so the consumer decodes exactly the id the producer wrote |
| Numerals.DecimalValueString | serviceA/Program.cs:47 | the decimal text of `i` reads back as `i` |
| Numerals.DecimalStringInjective | serviceA/Program.cs:47 | distinct iteration numbers give distinct decimal texts |
| ServiceA.MessageValue | serviceA/Program.cs:47 | the value of iteration `i` is "message " followed by decimal digits only, and those digits read back as `i` |
| Diagnostics.StartContextTrace | shared/OpenTelemetry.Instrumentation.Kafka.cs:52-53 | a span started from a parseable parent id is in that trace with no local parent; an unparseable one gives a fresh root; without a parent id the current span, if any, is the local parent and gives the trace |
| Diagnostics.Tracer.StartActivity | shared/OpenTelemetry.Instrumentation.Kafka.cs:52-53 | with no listener there is no span and nothing changes; otherwise exactly one new span is appended and becomes current in the calling context |
| Diagnostics.Tracer.AddEvent | shared/OpenTelemetry.Instrumentation.Kafka.cs:54 | exactly that span gets the event appended; the current cells are unchanged |
| Diagnostics.Tracer.Stop | serviceA/Program.cs:49 | the first stop marks the span stopped and makes its local parent (or nothing) current in the calling context; a second stop changes nothing |
| Diagnostics.Tracer.SetCurrent | shared/OpenTelemetry.Instrumentation.Kafka.cs:56 | only the calling context's cell changes, to the given span or to none |
| Broker.Cluster.Produce | shared/OpenTelemetry.Instrumentation.Kafka.cs:132-133 | the plain producer refuses a null message; otherwise it appends the message to the topic's log and reports its offset |
| Broker.Cluster.ProduceTo | shared/OpenTelemetry.Instrumentation.Kafka.cs:135-136 | as `Produce`, and a partition other than 0 is refused |
| Broker.Cluster.ProduceAsync | shared/OpenTelemetry.Instrumentation.Kafka.cs:126-127 | a cancelled token refuses the send; otherwise as `Produce` |
| Broker.Cluster.ProduceAsyncTo | shared/OpenTelemetry.Instrumentation.Kafka.cs:129-130 | a cancelled token refuses the send; otherwise as `ProduceTo` |
| Broker.Consumer.ConsumeWithin | shared/OpenTelemetry.Instrumentation.Kafka.cs:60-61 | the next unread record of the first subscribed topic that has one, moving past it; nothing when no record is unread |
| Broker.Consumer.Consume | shared/OpenTelemetry.Instrumentation.Kafka.cs:63-64 | a cancelled token fails and moves nothing; otherwise the next unread record, moving past it |
| Broker.Consumer.Subscribe | shared/OpenTelemetry.Instrumentation.Kafka.cs:75-76 | the subscription becomes the topics; known positions are kept and a new topic starts at the end of its log |
| Instrumentation.LastHeaderSpec | shared/OpenTelemetry.Instrumentation.Kafka.cs:42 | `TryGetLastBytes` finds nothing exactly when no entry has the key, and otherwise the value of an entry with the key that no later entry shares |
| Instrumentation.Injected | shared/OpenTelemetry.Instrumentation.Kafka.cs:119-121 | injection adds exactly one entry `("traceparent", UTF8(id))` at the end, creating the list when it was missing, and keeps the earlier entries in order |
| Instrumentation.HeaderBytes | shared/OpenTelemetry.Instrumentation.Kafka.cs:120 | the bytes of an injected W3C id are its characters, one byte each |
| Instrumentation.ParentId | shared/OpenTelemetry.Instrumentation.Kafka.cs:42-44 | there is no parent id exactly when no header has the key `traceparent`; otherwise it is the UTF-8 decoding of an entry with that key that no later entry shares |
| Instrumentation.ConsumerSpan | shared/OpenTelemetry.Instrumentation.Kafka.cs:46-54 | the consumer span is named "Processing Kafka Message", has kind Consumer and the fresh span id, carries exactly the `topic` and `partition` tags of the result and the one "Consumed" event, and is not stopped |
| Instrumentation.ParentIdInjected | shared/OpenTelemetry.Instrumentation.Kafka.cs:42-44 | the header just injected is the last `traceparent` entry, and it decodes to the injected id |
| Instrumentation.InjectTwice | shared/OpenTelemetry.Instrumentation.Kafka.cs:119-121 | injecting twice accumulates two entries, and the consumer reads the more recent id |
| Instrumentation.CarriedTraceInjected | shared/OpenTelemetry.Instrumentation.Kafka.cs:119-121 | a record injected from a valid span context carries that context's trace id |
| Instrumentation.ConsumerSpanTrace | shared/OpenTelemetry.Instrumentation.Kafka.cs:46-54 | the consumer span of any record is named "Processing Kafka Message", has kind Consumer, and is in the trace the record carries, if it carries one; a `traceparent` entry that does not parse gives a fresh root that keeps the entry as its parent id |
| Instrumentation.ConsumerSpanOfInjected | shared/OpenTelemetry.Instrumentation.Kafka.cs:42-54 | for an injected record the consumer span is in the producer span's trace and has the producer span's id as its parent id; it has no local parent, exactly the `topic` and `partition` tags and the one "Consumed" event |
| Instrumentation.ConsumerSpanWithoutHeader | shared/OpenTelemetry.Instrumentation.Kafka.cs:42-53 | without a `traceparent` header the consumer span's local parent is the calling context's current span, and its trace is that span's trace, or a fresh one |
| Instrumentation.TrackableProducer.constructor | shared/OpenTelemetry.Instrumentation.Kafka.cs:109 | the decorator wraps the given inner producer |
| Instrumentation.TrackableProducer.InjectHeader | shared/OpenTelemetry.Instrumentation.Kafka.cs:111-124 | it returns the same message; a null message or no current span changes nothing; otherwise the headers become the injected list carrying the current span's id, and only that span gains one "Produced" event; the key, the value and the current cells are unchanged |
| Instrumentation.TrackableProducer.ProduceAsync | shared/OpenTelemetry.Instrumentation.Kafka.cs:126-127 | the plain send of the injected message: its result and the log change are the plain client's; the record stored is the sent message with the injection applied |
| Instrumentation.TrackableProducer.ProduceAsyncTo | shared/OpenTelemetry.Instrumentation.Kafka.cs:129-130 | as `ProduceAsync`, for an explicit partition |
| Instrumentation.TrackableProducer.Produce | shared/OpenTelemetry.Instrumentation.Kafka.cs:132-133 | the plain `Produce` of the injected message; the delivery report is its result |
| Instrumentation.TrackableProducer.ProduceTo | shared/OpenTelemetry.Instrumentation.Kafka.cs:135-136 | as `Produce`, for an explicit partition |
| Instrumentation.TrackableConsumer.constructor | shared/OpenTelemetry.Instrumentation.Kafka.cs:35 | the decorator wraps the given inner consumer |
| Instrumentation.TrackableConsumer.HandleResult | shared/OpenTelemetry.Instrumentation.Kafka.cs:37-58 | it returns the result unchanged; a null result or one without a message changes nothing; otherwise one consumer span is appended and becomes current in the calling context, or, with no listener, that context is left with no current span |
| Instrumentation.TrackableConsumer.ConsumeMillis | shared/OpenTelemetry.Instrumentation.Kafka.cs:60-61 | the plain consume with a timeout, followed by `HandleResult` on what it returned |
| Instrumentation.TrackableConsumer.Consume | shared/OpenTelemetry.Instrumentation.Kafka.cs:63-64 | a cancelled token fails, with no position or span change; otherwise the plain blocking consume followed by `HandleResult` |
| Instrumentation.TrackableConsumer.ConsumeTimeSpan | shared/OpenTelemetry.Instrumentation.Kafka.cs:66-67 | the plain consume with a time span, followed by `HandleResult` |
| Instrumentation.TrackableConsumer.Subscribe | shared/OpenTelemetry.Instrumentation.Kafka.cs:76 | pure delegation of `Subscribe(topic)` |
| Instrumentation.TrackableConsumer.SubscribeAll | shared/OpenTelemetry.Instrumentation.Kafka.cs:75 | pure delegation of `Subscribe(topics)` |
| Instrumentation.TrackableConsumer.Unsubscribe | shared/OpenTelemetry.Instrumentation.Kafka.cs:77 | pure delegation of `Unsubscribe()` |
| ServiceA.ScheduledRecordTrace | serviceA/Program.cs:41-48 | the record of iteration `i` has key `i`, value "message i" and carries the trace of its own root span |
| ServiceA.RanStep | serviceA/Program.cs:39-50 | one more iteration extends the loop's history by its span and its record |
| ServiceA.Service.constructor | serviceA/Program.cs:16-37 | a fresh instrumented producer on the given broker and span table |
| ServiceA.Service.Iteration | serviceA/Program.cs:41-49 | one new span is added: a stopped root "scheduled computation" span with a fresh trace and one "Produced" event. One record is appended to "AtoB": `(i, "message i")`, carrying that span's id. No other log changes, and no span is current afterwards |
| ServiceA.Service.Run | serviceA/Program.cs:39-50 | exactly 100 spans and 100 records are added, in order; record `i` has key `i`, value "message i" and the id of root span `i`; no other log changes and the current cells end as they began |
| ServiceB.Channel.constructor | serviceB/Program.cs:43 | an empty channel of the given capacity |
| ServiceB.Channel.Write | serviceB/Program.cs:69 | a write, enabled only below capacity, puts the item at the back and drops nothing |
| ServiceB.Channel.Read | serviceB/Program.cs:46 | the single reader takes the oldest item |
| ServiceB.RelayInvStable | serviceB/Program.cs:43-71 | the relay's bookkeeping survives appends to "AtoB" and the growth of the span table |
| ServiceB.RelayInvReceive | serviceB/Program.cs:67 | a consume moves the next "AtoB" record, with its new consumer span, into the intake |
| ServiceB.RelayInvEnqueue | serviceB/Program.cs:69 | a write moves the held result and the intake's current span to the back of the channel |
| ServiceB.RelayInvHead | serviceB/Program.cs:46 | the oldest pair in the channel carries the first "AtoB" record not yet forwarded, with its consumer span |
| ServiceB.RelayInvPending | serviceB/Program.cs:46 | the oldest pair holds a result with a message and a span reference |
| ServiceB.RelayInvForward | serviceB/Program.cs:55-59 | forwarding the relayed form of the next record removes the oldest pair and extends "BtoC" in order |
| ServiceB.RelayInvWork | serviceB/Program.cs:46-60 | a record with the consumed key, the value with "(B)" appended and the carried span's id as its header is that relayed form |
| ServiceB.TracedStable | serviceB/Program.cs:43-71 | the consumer span and the heavy span recorded for each forwarded record keep their meaning while "AtoB" and the span table grow |
| ServiceB.TracedWork | serviceB/Program.cs:46-53 | a worker pass records the forwarded record's consumer span and its new heavy span, a stopped child of it in its trace |
| ServiceB.RelayWork | serviceB/Program.cs:46-60 | a whole worker pass keeps both the relay's bookkeeping and the record of each forwarded record's spans |
| ServiceB.Restore | serviceB/Program.cs:48-53 | the carried span becomes the worker's current span and gets "dequeued"; one stopped "heavy computation" child of it, in its trace, is added; the carried span is current again afterwards |
| ServiceB.Forward | serviceB/Program.cs:55-60 | `(key, value + "(B)")` carrying the carried span's id is appended to "BtoC"; the span gets "Produced" and is stopped, and its local parent (or nothing) becomes current |
| ServiceB.Pass | serviceB/Program.cs:48-60 | the whole worker pass: the record produced to "BtoC", the carried span's "dequeued" and "Produced" events and stop, the heavy span, and only the worker's current cell changing |
| ServiceB.Service.constructor | serviceB/Program.cs:33-64 | fresh clients, the empty channel of capacity 3 and the subscription to "AtoB", reading from its end; no record has been relayed |
| ServiceB.Service.ValidStable | serviceB/Program.cs:43-71 | the relay invariant holds whatever the other services do |
| ServiceB.Service.Intake | serviceB/Program.cs:67 | the next "AtoB" record is consumed; its consumer span becomes the intake's current span; the result is held; no log and no other context changes |
| ServiceB.Service.IntakeKeeps | serviceB/Program.cs:67 | a consume by the intake keeps the relay invariant |
| ServiceB.Service.Enqueue | serviceB/Program.cs:69-70 | the held result and the intake's current span go to the back of the channel, then that span gets "enqueued" |
| ServiceB.Service.EnqueueKeeps | serviceB/Program.cs:69-70 | a channel write keeps the relay invariant |
| ServiceB.Service.Work | serviceB/Program.cs:46-61 | the oldest pair leaves the channel, "BtoC" grows by one record, the pair's consumer span and the new heavy span are recorded for it, and only the worker's current cell changes, keeping the relay invariant |
| ServiceB.Service.WorkKeeps | serviceB/Program.cs:46-61 | a worker pass keeps the relay invariant |
| ServiceC.HandlesStable | serviceC/Program.cs:42-54 | the loop's bookkeeping survives appends to "BtoC" and the growth of the span table |
| ServiceC.HandlesStep | serviceC/Program.cs:44-53 | serving the record at the position extends the bookkeeping by one pass |
| ServiceC.Receive | serviceC/Program.cs:44 | the record at the position of "BtoC" is consumed; the span added is exactly the consumer span of that result, in the record's trace, and it becomes current |
| ServiceC.Forward | serviceC/Program.cs:48-53 | `(key, value + "(C)")` carrying the consumer span's id is appended to "CtoD"; the span gets "Produced" and is stopped, and its local parent (or nothing) becomes current |
| ServiceC.Pass | serviceC/Program.cs:44-53 | one pass serves the consumed record: the derived record is appended to "CtoD", the consumer span is stopped, in the record's trace and is the span whose id the output carries; only C's current cell changes |
| ServiceC.Service.constructor | serviceC/Program.cs:30-40 | the clients and the subscription to "BtoC", reading from its end |
| ServiceC.Service.ValidStable | serviceC/Program.cs:42-54 | the loop invariant holds whatever the other services do |
| ServiceC.Service.Step | serviceC/Program.cs:44-53 | one pass: exactly one record consumed, one record produced and one span added, in consume → produce → stop order, keeping the invariant |
| ServiceC.Service.StepKeeps | serviceC/Program.cs:44-53 | a pass keeps the loop invariant |
| Pipeline.LinksStable | serviceA/Program.cs:39-50 | the link from each "AtoB" record to its root span survives the growth of the span table |
| Pipeline.LinksGrow | serviceA/Program.cs:41-48 | A's next iteration adds the link from its record to its root span |
| Pipeline.System.constructor | serviceB/Program.cs:64 | fresh broker, span table, services and clients; every log, the span table, the channel and the current cells are empty; B and C are subscribed at position 0 before A's first record, and the whole system's invariant holds |
| Pipeline.System.ProduceNext | serviceA/Program.cs:41-49 | one iteration of A appends one record to "AtoB", changes no other log, records its root span and keeps the system invariant |
| Pipeline.System.ProduceKeeps | serviceA/Program.cs:41-49 | what an iteration of A leaves behind keeps the system invariant |
| Pipeline.System.RelayKeeps | serviceB/Program.cs:46-71 | any step of B keeps the system invariant |
| Pipeline.System.Intake | serviceB/Program.cs:67 | B consumes the next "AtoB" record and holds it, keeping the system invariant |
| Pipeline.System.Enqueue | serviceB/Program.cs:69-70 | B's held result goes to the back of the channel, keeping the system invariant |
| Pipeline.System.Work | serviceB/Program.cs:46-61 | the oldest pair leaves the channel and "BtoC" grows by one record, no other log changing, keeping the system invariant |
| Pipeline.System.Serve | serviceC/Program.cs:44-53 | C consumes one record and appends one to "CtoD", no other log changing, keeping the system invariant |
| Pipeline.System.Accept | serviceB/Program.cs:67-70 | B's consume followed by its channel write puts one pair in an empty channel |
| Pipeline.System.Deliver | serviceB/Program.cs:46-61 | with a pair in the channel and "BtoC" empty, B's worker pass and C's pass leave C with one handled record, "message 0(B)(C)" in the trace of A's first root span |
| Pipeline.System.EndToEnd | serviceC/Program.cs:44-52 | C's `k`-th record is B's relay of A's `k`-th record, with key `k`, value "message k(B)" and the trace of A's root span `k`; B's consumer span for it and the stopped heavy span under that consumer span have the same trace id; so do C's consumer span and C's output, whose value is "message k(B)(C)" |
| Pipeline.FirstRecord | serviceA/Program.cs:39-50 | from a fresh system, A's first iteration, B's consume, channel write and worker pass and C's pass deliver "message 0(B)(C)" to "CtoD" in the trace of A's first root span |

## Left out

- Broker internals are not modelled: partitioning, replication, delivery guarantees, offsets commits and transactions. Each topic is a single log in partition 0, and a new consumer group starts at the end of a log.
- The simple-delegation members are not modelled, except `Subscribe` and `Unsubscribe`. They have no logic of their own: `Dispose`, `AddBrokers`, `Handle`, `Name`, the `Assign`, `StoreOffset`, `Commit`, `Seek`, `Pause`, `Resume`, `Committed`, `Position`, `OffsetsForTimes`, the watermark members, `Close`, `MemberId`, `Assignment`, `Subscription` and `ConsumerGroupMetadata`, and the producer's `Poll`, `Flush` and transaction members.
- Generic `K` and `V` are not modelled. Messages are `Message<int, string>`, the only instance the services use.
- The delivery handler of `Produce` is not modelled. The delivery report is returned as the method result instead.
- Timeouts and the clock are left out. A consume with a timeout returns a record or nothing, depending only on whether one is unread, and timestamps and durations are absent.
- `Task.Delay`, `Task.Run`, `async` scheduling and C's `HttpClient.GetAsync` are left out. The HTTP client span it would add is not modelled.
- Concurrency is not modelled. B's intake and worker are atomic steps that interleave in any order, and so are A's iterations and C's passes. The race between the intake's "enqueued" event and the worker stopping the same span is not modelled.
- The tracer provider, its exporters and the sampler are not modelled. Whether a source is listened to is a constant of each service, and a child span takes its parent's flags.
- Fresh trace and span ids are random in the source. Here they are parameters.
- The parsing inside `ActivitySource.StartActivity` is library code. It is modelled as the W3C `traceparent` reader of section 3.2 of the W3C Trace Context recommendation, including the rules for later versions.
- `ProduceAsync` and `ProduceAsyncTo` refusing the send on a cancelled token is an assumption about the Confluent client. Its code is not part of this model.
- `ProduceTo` and `ProduceAsyncTo` refusing a partition other than 0 follows from modelling every topic with one partition. It is an assumption about the Confluent client, not its documented behaviour.
- Diagnostics.Tracer.SetCurrent: accepts any span. The .NET `Activity.Current` setter ignores a stopped activity, and the model does not capture that refusal. In the pipeline no stopped span is ever made current again, so the difference does not arise there.
- `Activity.Stop` making the local parent current is an assumption about `System.Diagnostics`, and so is the parent-id behaviour of `StartActivity`.
- `Activity.Id == null` is not modelled. A started span always has an id, so that branch of `InjectHeader` is the no-current-span branch.
- The W3C id format is forced only in service A. The model uses it in all three services. `Activity.DefaultIdFormat` is process-wide in .NET, and B and C do not set it.
- Utf8.DecodeEncode: holds for strings of Unicode scalar values, which is what a Dafny `char` is. .NET strings are UTF-16, and `GetBytes` turns a lone surrogate into the bytes of U+FFFD, so the round trip fails for such a string. A W3C id is ASCII, so this does not affect the header.
- Invalid UTF-8 is not modelled exactly. `Utf8.Decode` replaces each malformed byte with U+FFFD, while .NET groups some malformed sequences differently. Only the round trip of well-formed text matters here.
- ServiceB.Pass, ServiceB.Restore, ServiceB.Forward: require that the pair has a consume result with a message and a span. The relay invariant guarantees both in the pipeline, because B's intake source is listened to. Without a message the source throws a null reference on `msg.Message.Key`. Without a span it does not throw (serviceB/Program.cs:48-60): `Activity.Current` becomes null, the null-safe `?.AddEvent` and `?.Stop()` do nothing, the "heavy computation" span starts as a fresh root, and the record produced to "BtoC" gets no `traceparent` header, because `InjectHeader` finds no current span. The model leaves that path out.
- `Pipeline.System.constructor` fixes one start-up order: B and C subscribe before A produces its first record. Records that A produces before a consumer group subscribes are never read by that group.
