/** The streaming message bus: the publish result record, the in-process bus
    used in development and tests, and the Kafka-backed bus as far as its
    configuration and lifecycle go. */
module MessageBus {
  import opened Basics
  import opened JsonValues

  /** What a publish reports back. */
  datatype PublishResult = PublishResult(
    topic: string,
    partition: Option<int>,
    offset: Option<int>,
    headers: Option<map<string, string>>)

  /** One logged message of the in-process bus. */
  datatype Message = Message(key: Option<string>, value: map<string, Json>)

  /** A subscriber: an identity and whether it raises on a given value. */
  datatype Handler = Handler(id: nat, raises: map<string, Json> -> bool)

  /** One call of a subscriber with a published value. */
  datatype Delivery = Delivery(handler: nat, value: map<string, Json>)

  /** Every handler is called once with the value, in subscription order. */
  function FanOut(handlers: seq<Handler>, value: map<string, Json>): (r: seq<Delivery>)
    ensures |r| == |handlers|
    ensures forall i :: 0 <= i < |r| ==> r[i] == Delivery(handlers[i].id, value)
  {
    seq(|handlers|, i requires 0 <= i < |handlers| => Delivery(handlers[i].id, value))
  }

  /** Some handler raises on the value. */
  predicate AnyRaises(handlers: seq<Handler>, value: map<string, Json>)
  {
    exists i :: 0 <= i < |handlers| && handlers[i].raises(value)
  }

  /** The development bus: per-topic message logs and subscriber lists. */
  class InMemoryMessageBus {
    var topics: map<string, seq<Message>>
    var subscribers: map<string, seq<Handler>>
    var started: bool
    /** Every handler call made so far, in order. */
    var delivered: seq<Delivery>

    /** A topic's log; a topic never published to has an empty one. */
    function Log(topic: string): seq<Message>
      reads this
    {
      if topic in topics then topics[topic] else []
    }

    /** A topic's subscribers; none for a topic never subscribed to. */
    function Handlers(topic: string): seq<Handler>
      reads this
    {
      if topic in subscribers then subscribers[topic] else []
    }

    constructor ()
      ensures topics == map[] && subscribers == map[] && !started && delivered == []
    {
      topics, subscribers, started, delivered := map[], map[], false, [];
    }

    method Start()
      modifies this
      ensures started
      ensures topics == old(topics) && subscribers == old(subscribers) && delivered == old(delivered)
    {
      started := true;
    }

    /** `stop` forgets every log and every subscriber. */
    method Stop()
      modifies this
      ensures topics == map[] && subscribers == map[] && !started
      ensures delivered == old(delivered)
    {
      topics, subscribers, started := map[], map[], false;
    }

    /** `publish`: append to the topic's log (offset = its old length,
        partition 0), then call every subscriber of the topic with the value.
        The message stays logged and every subscriber is called even when one
        raises; the publish then fails with that error. */
    method Publish(topic: string, key: Option<string>, value: map<string, Json>)
      returns (r: Result<PublishResult>)
      modifies this
      ensures started
      ensures topics == old(topics)[topic := old(Log(topic)) + [Message(key, value)]]
      ensures subscribers == old(subscribers)
      ensures delivered == old(delivered) + FanOut(old(Handlers(topic)), value)
      ensures r.Failure? <==> AnyRaises(old(Handlers(topic)), value)
      ensures r.Ok? ==> r.value == PublishResult(topic, Some(0), Some(|old(Log(topic))|), None)
    {
      if !started {
        Start();
      }
      var messages := Log(topic) + [Message(key, value)];
      topics := topics[topic := messages];
      var offset := |messages| - 1;

      var handlers := Handlers(topic);
      var raised := false;
      var i := 0;
      while i < |handlers|
        invariant 0 <= i <= |handlers|
        invariant delivered == old(delivered) + FanOut(handlers[..i], value)
        invariant raised <==> AnyRaises(handlers[..i], value)
        invariant topics == old(topics)[topic := old(Log(topic)) + [Message(key, value)]]
        invariant subscribers == old(subscribers) && started
      {
        delivered := delivered + [Delivery(handlers[i].id, value)];
        if handlers[i].raises(value) {
          raised := true;
        }
        assert handlers[..i + 1] == handlers[..i] + [handlers[i]];
        assert raised <==> AnyRaises(handlers[..i + 1], value) by {
          if AnyRaises(handlers[..i + 1], value) && !handlers[i].raises(value) {
            var j :| 0 <= j < i + 1 && handlers[..i + 1][j].raises(value);
            assert j < i && handlers[..i][j] == handlers[j];
          }
        }
        i := i + 1;
      }
      assert handlers[..i] == handlers;
      if raised {
        return Failure("subscriber raised");
      }
      return Ok(PublishResult(topic, Some(0), Some(offset), None));
    }

    /** `subscribe`: the handler joins the end of the topic's list. */
    method Subscribe(topic: string, handler: Handler, groupId: Option<string>)
      modifies this
      ensures started
      ensures subscribers == old(subscribers)[topic := old(Handlers(topic)) + [handler]]
      ensures topics == old(topics) && delivered == old(delivered)
    {
      if !started {
        Start();
      }
      subscribers := subscribers[topic := Handlers(topic) + [handler]];
    }
  }

  /** The default consumer group of the Kafka bus. */
  const DefaultGroupId := "catalog-consumer"

  /** A producer built with a configuration; `started` records whether its
      connection attempt succeeded. */
  datatype Producer = Producer(config: map<string, Json>, started: bool)

  /** A background consumer loop for one topic. */
  datatype ConsumerTask = ConsumerTask(topic: string, config: map<string, Json>, handler: nat)

  /** One record sent by the Kafka producer: the key is dropped when empty. */
  datatype SentRecord = SentRecord(topic: string, key: Option<string>, value: map<string, Json>)

  /** The Kafka-backed bus. Connection outcomes and the partition and offset
      the broker assigns are parameters of the methods. */
  class KafkaMessageBus {
    const bootstrapServers: string
    const securityProtocol: Option<string>
    const saslMechanism: Option<string>
    const saslUsername: Option<string>
    const saslPassword: Option<string>
    var producer: Option<Producer>
    var consumerTasks: seq<ConsumerTask>
    var cancelled: seq<ConsumerTask>
    var sent: seq<SentRecord>

    constructor (bootstrapServers: string, securityProtocol: Option<string>, saslMechanism: Option<string>,
                 saslUsername: Option<string>, saslPassword: Option<string>)
      ensures this.bootstrapServers == bootstrapServers && this.securityProtocol == securityProtocol
      ensures this.saslMechanism == saslMechanism && this.saslUsername == saslUsername
      ensures this.saslPassword == saslPassword
      ensures producer == None && consumerTasks == [] && cancelled == [] && sent == []
    {
      this.bootstrapServers := bootstrapServers;
      this.securityProtocol := securityProtocol;
      this.saslMechanism := saslMechanism;
      this.saslUsername := saslUsername;
      this.saslPassword := saslPassword;
      producer, consumerTasks, cancelled, sent := None, [], [], [];
    }

    /** `config` with the security settings added: each one only when it is
        set and non-empty. */
    function WithSecurity(config: map<string, Json>): (c: map<string, Json>)
      ensures forall k :: k in config && k !in SecurityKeys ==> k in c && c[k] == config[k]
      ensures forall k :: k in c ==> k in config || k in SecurityKeys
      ensures NonEmpty(securityProtocol) ==> "security_protocol" in c && c["security_protocol"] == JStr(securityProtocol.value)
      ensures NonEmpty(saslMechanism) ==> "sasl_mechanism" in c && c["sasl_mechanism"] == JStr(saslMechanism.value)
      ensures NonEmpty(saslUsername) ==> "sasl_plain_username" in c && c["sasl_plain_username"] == JStr(saslUsername.value)
      ensures NonEmpty(saslPassword) ==> "sasl_plain_password" in c && c["sasl_plain_password"] == JStr(saslPassword.value)
      ensures !NonEmpty(securityProtocol) ==> ("security_protocol" in c <==> "security_protocol" in config)
      ensures !NonEmpty(saslMechanism) ==> ("sasl_mechanism" in c <==> "sasl_mechanism" in config)
      ensures !NonEmpty(saslUsername) ==> ("sasl_plain_username" in c <==> "sasl_plain_username" in config)
      ensures !NonEmpty(saslPassword) ==> ("sasl_plain_password" in c <==> "sasl_plain_password" in config)
    {
      var c1 := if NonEmpty(securityProtocol) then config["security_protocol" := JStr(securityProtocol.value)] else config;
      var c2 := if NonEmpty(saslMechanism) then c1["sasl_mechanism" := JStr(saslMechanism.value)] else c1;
      var c3 := if NonEmpty(saslUsername) then c2["sasl_plain_username" := JStr(saslUsername.value)] else c2;
      if NonEmpty(saslPassword) then c3["sasl_plain_password" := JStr(saslPassword.value)] else c3
    }

    /** The producer configuration: the brokers plus the security settings. */
    function ProducerConfig(): (c: map<string, Json>)
      ensures c.Keys <= {"bootstrap_servers"} + SecurityKeys
      ensures "bootstrap_servers" in c && c["bootstrap_servers"] == JStr(bootstrapServers)
      ensures "security_protocol" in c <==> NonEmpty(securityProtocol)
      ensures "sasl_mechanism" in c <==> NonEmpty(saslMechanism)
      ensures "sasl_plain_username" in c <==> NonEmpty(saslUsername)
      ensures "sasl_plain_password" in c <==> NonEmpty(saslPassword)
      ensures "security_protocol" in c ==> c["security_protocol"] == JStr(securityProtocol.value)
      ensures "sasl_mechanism" in c ==> c["sasl_mechanism"] == JStr(saslMechanism.value)
      ensures "sasl_plain_username" in c ==> c["sasl_plain_username"] == JStr(saslUsername.value)
      ensures "sasl_plain_password" in c ==> c["sasl_plain_password"] == JStr(saslPassword.value)
    {
      WithSecurity(map["bootstrap_servers" := JStr(bootstrapServers)])
    }

    /** The consumer configuration: the brokers, the group (the default one
        when none or an empty one is given), manual commits, starting from
        the latest offset, plus the security settings. */
    function ConsumerConfig(groupId: Option<string>): (c: map<string, Json>)
      ensures c.Keys <= ConsumerKeys + SecurityKeys
      ensures ConsumerKeys <= c.Keys
      ensures c["bootstrap_servers"] == JStr(bootstrapServers)
      ensures c["group_id"] == JStr(if NonEmpty(groupId) then groupId.value else DefaultGroupId)
      ensures c["enable_auto_commit"] == JBool(false)
      ensures c["auto_offset_reset"] == JStr("latest")
      ensures "security_protocol" in c <==> NonEmpty(securityProtocol)
      ensures "sasl_mechanism" in c <==> NonEmpty(saslMechanism)
      ensures "sasl_plain_username" in c <==> NonEmpty(saslUsername)
      ensures "sasl_plain_password" in c <==> NonEmpty(saslPassword)
      ensures "security_protocol" in c ==> c["security_protocol"] == JStr(securityProtocol.value)
      ensures "sasl_mechanism" in c ==> c["sasl_mechanism"] == JStr(saslMechanism.value)
      ensures "sasl_plain_username" in c ==> c["sasl_plain_username"] == JStr(saslUsername.value)
      ensures "sasl_plain_password" in c ==> c["sasl_plain_password"] == JStr(saslPassword.value)
    {
      WithSecurity(map[
        "bootstrap_servers" := JStr(bootstrapServers),
        "group_id" := JStr(if NonEmpty(groupId) then groupId.value else DefaultGroupId),
        "enable_auto_commit" := JBool(false),
        "auto_offset_reset" := JStr("latest")])
    }

    /** `start`: nothing when a producer exists. Otherwise the producer is
        built and kept before it connects, so after a failed connection a
        later `start` does not try again. */
    method Start(connects: bool) returns (r: Result<()>)
      modifies this
      ensures old(producer).Some? ==> producer == old(producer) && r.Ok?
      ensures old(producer).None? ==> producer == Some(Producer(ProducerConfig(), connects))
      ensures old(producer).None? ==> (r.Ok? <==> connects)
      ensures consumerTasks == old(consumerTasks) && cancelled == old(cancelled) && sent == old(sent)
    {
      if producer.Some? {
        return Ok(());
      }
      var config := map["bootstrap_servers" := JStr(bootstrapServers)];
      if NonEmpty(securityProtocol) {
        config := config["security_protocol" := JStr(securityProtocol.value)];
      }
      if NonEmpty(saslMechanism) {
        config := config["sasl_mechanism" := JStr(saslMechanism.value)];
      }
      if NonEmpty(saslUsername) {
        config := config["sasl_plain_username" := JStr(saslUsername.value)];
      }
      if NonEmpty(saslPassword) {
        config := config["sasl_plain_password" := JStr(saslPassword.value)];
      }
      producer := Some(Producer(config, connects));
      if !connects {
        return Failure("producer could not connect");
      }
      return Ok(());
    }

    /** `stop`: drop the producer and cancel every consumer task. */
    method Stop()
      modifies this
      ensures producer == None && consumerTasks == []
      ensures cancelled == old(cancelled) + old(consumerTasks)
      ensures sent == old(sent)
    {
      producer := None;
      cancelled := cancelled + consumerTasks;
      consumerTasks := [];
    }

    /** `publish`: start the producer if there is none, then send the value
        with the key (an empty key is sent as no key) and report where the
        broker put it. Sending through a producer that never connected fails. */
    method Publish(topic: string, key: Option<string>, value: map<string, Json>,
                   connects: bool, partition: int, offset: int)
      returns (r: Result<PublishResult>)
      modifies this
      ensures producer.Some?
      ensures old(producer).Some? ==> producer == old(producer)
      ensures old(producer).None? ==> producer == Some(Producer(ProducerConfig(), connects))
      ensures r.Ok? <==> producer.value.started
      ensures r.Ok? ==> sent == old(sent) + [SentRecord(topic, if NonEmpty(key) then key else None, value)]
      ensures r.Failure? ==> sent == old(sent)
      ensures r.Ok? ==> r.value == PublishResult(topic, Some(partition), Some(offset), None)
      ensures consumerTasks == old(consumerTasks) && cancelled == old(cancelled)
    {
      if producer.None? {
        var started := Start(connects);
        if started.Failure? {
          return Failure(started.error);
        }
      }
      if !producer.value.started {
        return Failure("producer is not started");
      }
      sent := sent + [SentRecord(topic, if NonEmpty(key) then key else None, value)];
      return Ok(PublishResult(topic, Some(partition), Some(offset), None));
    }

    /** `subscribe`: build and start a consumer for the topic and keep its
        consume loop as a task; nothing is kept when the consumer cannot connect. */
    method Subscribe(topic: string, handler: Handler, groupId: Option<string>, connects: bool)
      returns (r: Result<()>)
      modifies this
      ensures r.Ok? <==> connects
      ensures connects ==> consumerTasks == old(consumerTasks) + [ConsumerTask(topic, ConsumerConfig(groupId), handler.id)]
      ensures !connects ==> consumerTasks == old(consumerTasks)
      ensures producer == old(producer) && cancelled == old(cancelled) && sent == old(sent)
    {
      var config := map[
        "bootstrap_servers" := JStr(bootstrapServers),
        "group_id" := JStr(if NonEmpty(groupId) then groupId.value else DefaultGroupId),
        "enable_auto_commit" := JBool(false),
        "auto_offset_reset" := JStr("latest")];
      if NonEmpty(securityProtocol) {
        config := config["security_protocol" := JStr(securityProtocol.value)];
      }
      if NonEmpty(saslMechanism) {
        config := config["sasl_mechanism" := JStr(saslMechanism.value)];
      }
      if NonEmpty(saslUsername) {
        config := config["sasl_plain_username" := JStr(saslUsername.value)];
      }
      if NonEmpty(saslPassword) {
        config := config["sasl_plain_password" := JStr(saslPassword.value)];
      }
      if !connects {
        return Failure("consumer could not connect");
      }
      consumerTasks := consumerTasks + [ConsumerTask(topic, config, handler.id)];
      return Ok(());
    }
  }

  /** The configuration keys the consumer always carries. */
  const ConsumerKeys: set<string> := {"bootstrap_servers", "group_id", "enable_auto_commit", "auto_offset_reset"}

  /** The optional security keys. */
  const SecurityKeys: set<string> := {"security_protocol", "sasl_mechanism", "sasl_plain_username", "sasl_plain_password"}
}
