/**
 * The broker and the plain Confluent.Kafka client, the collaborators the
 * instrumentation wraps.  Every topic has one partition, partition 0, holding a log
 * of records; a consumer reads each subscribed topic from its own position.
 */
module Broker {
  import opened Wrappers
  import opened Utf8

  datatype Header = Header(key: string, value: seq<byte>)

  /** A message as the broker stores and delivers it (the consumer side's `Message<int, string>`). */
  datatype Record = Record(key: int, value: string, headers: seq<Header>)

  datatype TopicPartition = TopicPartition(topic: string, partition: int)

  datatype DeliveryResult = DeliveryResult(topic: string, partition: int, offset: nat, message: Record)

  datatype ConsumeResult = ConsumeResult(topic: string, partition: int, offset: nat, message: Option<Record>)

  /** A timeout of the `TimeSpan` overloads. */
  datatype TimeSpan = TimeSpan(ticks: int)

  datatype Error = NullMessage | UnknownPartition | Cancelled

  /** The only partition of every topic. */
  const Partition: int := 0

  /**
   * A `Message<int, string>` being produced.  `headers` is `None` while the message
   * has no `Headers` object.
   */
  class Message {
    var key: int
    var value: string
    var headers: Option<seq<Header>>

    constructor (key: int, value: string)
      ensures this.key == key && this.value == value && headers.None?
    {
      this.key := key;
      this.value := value;
      this.headers := None;
    }

    /** The record the broker stores for this message; a missing `Headers` is delivered empty. */
    function Snapshot(): Record
      reads this
    {
      Record(key, value, headers.GetOr([]))
    }
  }

  /** The topic logs only grow. */
  ghost predicate LogsExtend(before: map<string, seq<Record>>, after: map<string, seq<Record>>) {
    forall t :: t in before ==> t in after && before[t] <= after[t]
  }

  function LogOf(logs: map<string, seq<Record>>, topic: string): seq<Record> {
    if topic in logs then logs[topic] else []
  }

  /** Only the log of `topic` may differ between the two states. */
  ghost predicate OthersUnchanged(before: map<string, seq<Record>>, after: map<string, seq<Record>>, topic: string) {
    forall t :: t != topic ==> LogOf(after, t) == LogOf(before, t)
  }

  /** Appending `x` to the log of `topic` leaves the other logs alone. */
  lemma AppendFrame(before: map<string, seq<Record>>, topic: string, x: Record)
    ensures var after := before[topic := LogOf(before, topic) + [x]];
      && OthersUnchanged(before, after, topic) && LogOf(after, topic) == LogOf(before, topic) + [x]
  {
  }

  /** An append to the log of `topic` that leaves the other logs alone only extends each log. */
  lemma AppendOnly(before: map<string, seq<Record>>, after: map<string, seq<Record>>, topic: string)
    requires OthersUnchanged(before, after, topic)
    requires |LogOf(before, topic)| <= |LogOf(after, topic)|
    requires LogOf(after, topic)[..|LogOf(before, topic)|] == LogOf(before, topic)
    ensures forall t :: LogOf(before, t) <= LogOf(after, t)
  {
    forall t
      ensures LogOf(before, t) <= LogOf(after, t)
    {
      if t != topic {
        assert LogOf(after, t) == LogOf(before, t);
      }
    }
  }

  /** The broker, together with the plain producer that appends to it. */
  class Cluster {
    var logs: map<string, seq<Record>>

    constructor ()
      ensures logs == map[]
    {
      logs := map[];
    }

    function Log(topic: string): seq<Record>
      reads this
    {
      LogOf(logs, topic)
    }

    /**
     * What the plain producer does with a message for a partition: a null message or
     * a partition other than partition 0 is refused, otherwise the message is appended
     * to the topic's log and the report says where it went.
     */
    method Send(tp: TopicPartition, msg: Message?) returns (r: Result<DeliveryResult, Error>)
      modifies this
      ensures msg == null ==> r == Failure(NullMessage) && logs == old(logs)
      ensures msg != null && tp.partition != Partition ==> r == Failure(UnknownPartition) && logs == old(logs)
      ensures msg != null && tp.partition == Partition ==>
        && logs == old(logs)[tp.topic := old(Log(tp.topic)) + [msg.Snapshot()]]
        && r == Success(DeliveryResult(tp.topic, Partition, |old(Log(tp.topic))|, msg.Snapshot()))
    {
      if msg == null {
        return Failure(NullMessage);
      }
      if tp.partition != Partition {
        return Failure(UnknownPartition);
      }
      r := Success(DeliveryResult(tp.topic, Partition, |Log(tp.topic)|, msg.Snapshot()));
      logs := logs[tp.topic := Log(tp.topic) + [msg.Snapshot()]];
    }

    /** `IProducer.Produce(topic, message, deliveryHandler)`; the result is the report the handler receives. */
    method Produce(topic: string, msg: Message?) returns (r: Result<DeliveryResult, Error>)
      modifies this
      ensures msg == null ==> r == Failure(NullMessage) && logs == old(logs)
      ensures msg != null ==>
        && logs == old(logs)[topic := old(Log(topic)) + [msg.Snapshot()]]
        && r == Success(DeliveryResult(topic, Partition, |old(Log(topic))|, msg.Snapshot()))
    {
      r := Send(TopicPartition(topic, Partition), msg);
    }

    /** `IProducer.Produce(topicPartition, message, deliveryHandler)`. */
    method ProduceTo(tp: TopicPartition, msg: Message?) returns (r: Result<DeliveryResult, Error>)
      modifies this
      ensures msg == null ==> r == Failure(NullMessage) && logs == old(logs)
      ensures msg != null && tp.partition != Partition ==> r == Failure(UnknownPartition) && logs == old(logs)
      ensures msg != null && tp.partition == Partition ==>
        && logs == old(logs)[tp.topic := old(Log(tp.topic)) + [msg.Snapshot()]]
        && r == Success(DeliveryResult(tp.topic, Partition, |old(Log(tp.topic))|, msg.Snapshot()))
    {
      r := Send(tp, msg);
    }

    /** `IProducer.ProduceAsync(topic, message, cancellationToken)`; a cancelled token refuses the send. */
    method ProduceAsync(topic: string, msg: Message?, cancelled: bool) returns (r: Result<DeliveryResult, Error>)
      modifies this
      ensures cancelled ==> r == Failure(Cancelled) && logs == old(logs)
      ensures !cancelled && msg == null ==> r == Failure(NullMessage) && logs == old(logs)
      ensures !cancelled && msg != null ==>
        && logs == old(logs)[topic := old(Log(topic)) + [msg.Snapshot()]]
        && r == Success(DeliveryResult(topic, Partition, |old(Log(topic))|, msg.Snapshot()))
    {
      if cancelled {
        return Failure(Cancelled);
      }
      r := Send(TopicPartition(topic, Partition), msg);
    }

    /** `IProducer.ProduceAsync(topicPartition, message, cancellationToken)`. */
    method ProduceAsyncTo(tp: TopicPartition, msg: Message?, cancelled: bool) returns (r: Result<DeliveryResult, Error>)
      modifies this
      ensures cancelled ==> r == Failure(Cancelled) && logs == old(logs)
      ensures !cancelled && msg == null ==> r == Failure(NullMessage) && logs == old(logs)
      ensures !cancelled && msg != null && tp.partition != Partition ==> r == Failure(UnknownPartition) && logs == old(logs)
      ensures !cancelled && msg != null && tp.partition == Partition ==>
        && logs == old(logs)[tp.topic := old(Log(tp.topic)) + [msg.Snapshot()]]
        && r == Success(DeliveryResult(tp.topic, Partition, |old(Log(tp.topic))|, msg.Snapshot()))
    {
      if cancelled {
        return Failure(Cancelled);
      }
      r := Send(tp, msg);
    }
  }

  /** The plain consumer of one consumer group: its subscription and its read position in each topic. */
  class Consumer {
    const cluster: Cluster
    var subscription: seq<string>
    var positions: map<string, nat>

    ghost predicate Valid()
      reads this, cluster
    {
      (forall t :: t in subscription ==> t in positions) &&
      (forall t :: t in positions ==> positions[t] <= |cluster.Log(t)|)
    }

    constructor (cluster: Cluster)
      ensures this.cluster == cluster && subscription == [] && positions == map[] && Valid()
    {
      this.cluster := cluster;
      subscription := [];
      positions := map[];
    }

    /** The first subscribed topic that has a record this consumer has not read yet. */
    function Available(): (r: Option<string>)
      reads this, cluster
      requires Valid()
      ensures r.Some? ==> r.value in subscription && positions[r.value] < |cluster.Log(r.value)|
      ensures r.None? ==> forall t :: t in subscription ==> positions[t] == |cluster.Log(t)|
    {
      FirstAvailable(subscription)
    }

    function FirstAvailable(topics: seq<string>): (r: Option<string>)
      reads this, cluster
      requires forall t :: t in topics ==> t in positions && positions[t] <= |cluster.Log(t)|
      ensures r.Some? ==> r.value in topics && positions[r.value] < |cluster.Log(r.value)|
      ensures r.None? ==> forall t :: t in topics ==> positions[t] == |cluster.Log(t)|
    {
      if topics == [] then None
      else if positions[topics[0]] < |cluster.Log(topics[0])| then Some(topics[0])
      else FirstAvailable(topics[1..])
    }

    /**
     * `IConsumer.Subscribe(topics)`.  A group without a committed position starts
     * at the end of a topic's log (the client's default `auto.offset.reset`); a
     * topic read before keeps its position.
     */
    method Subscribe(topics: seq<string>)
      requires Valid()
      modifies this
      ensures Valid() && subscription == topics
      ensures forall t :: t in old(positions) ==> t in positions && positions[t] == old(positions)[t]
      ensures forall t :: t in topics && t !in old(positions) ==> positions[t] == |cluster.Log(t)|
    {
      subscription := topics;
      positions := positions + map t | t in topics && t !in positions :: |cluster.Log(t)|;
    }

    /** `IConsumer.Unsubscribe()`. */
    method Unsubscribe()
      requires Valid()
      modifies this
      ensures Valid() && subscription == [] && positions == old(positions)
    {
      subscription := [];
    }

    /** Reads the next record of `topic` and moves past it. */
    method Take(topic: string) returns (r: ConsumeResult)
      requires Valid() && topic in subscription && positions[topic] < |cluster.Log(topic)|
      modifies this
      ensures Valid() && subscription == old(subscription)
      ensures positions == old(positions)[topic := old(positions[topic]) + 1]
      ensures r == ConsumeResult(topic, Partition, old(positions[topic]), Some(cluster.Log(topic)[old(positions[topic])]))
    {
      var p := positions[topic];
      r := ConsumeResult(topic, Partition, p, Some(cluster.Log(topic)[p]));
      positions := positions[topic := p + 1];
    }

    /**
     * `IConsumer.Consume(millisecondsTimeout)` and `IConsumer.Consume(timeout)`: the next
     * unread record, or nothing once the timeout has passed without one.
     */
    method ConsumeWithin() returns (r: Option<ConsumeResult>)
      requires Valid()
      modifies this
      ensures Valid() && subscription == old(subscription)
      ensures old(Available()).None? ==> r.None? && positions == old(positions)
      ensures old(Available()).Some? ==>
        var t := old(Available()).value;
        && positions == old(positions)[t := old(positions[t]) + 1]
        && r == Some(ConsumeResult(t, Partition, old(positions[t]), Some(cluster.Log(t)[old(positions[t])])))
    {
      var t := Available();
      if t.None? {
        return None;
      }
      var c := Take(t.value);
      r := Some(c);
    }

    /**
     * `IConsumer.Consume(cancellationToken)`: blocks until a record is available, so
     * the step is enabled only then or when the token is cancelled, which throws.
     */
    method Consume(cancelled: bool) returns (r: Result<ConsumeResult, Error>)
      requires Valid() && (cancelled || Available().Some?)
      modifies this
      ensures Valid() && subscription == old(subscription)
      ensures cancelled ==> r == Failure(Cancelled) && positions == old(positions)
      ensures !cancelled ==>
        var t := old(Available()).value;
        && positions == old(positions)[t := old(positions[t]) + 1]
        && r == Success(ConsumeResult(t, Partition, old(positions[t]), Some(cluster.Log(t)[old(positions[t])])))
    {
      if cancelled {
        return Failure(Cancelled);
      }
      var t := Available();
      var c := Take(t.value);
      r := Success(c);
    }
  }
}
