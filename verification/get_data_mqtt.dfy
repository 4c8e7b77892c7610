/**
  The MQTT data module: at start-up it announces every catalogued sensor with a
  retained discovery record; on each run it reads tables 23 and 28 from the
  meter, decodes them and publishes every reading to its data topic.
 */
module GetDataMqtt {
  import opened Wrappers
  import opened Int32Codec
  import opened BufferDecoder
  import opened SensorCatalogue
  import opened Mqtt
  import opened TableSource

  // ---------------------------------------------------------------------------
  // What the publishers send

  /** The discovery message for one key: one retained message, or none for an unknown key. */
  function ConfigMessage(s: Settings, key: string): seq<Message> {
    match GetOrCreateConfig(s, key)
    case Some(config) => [Message(ConfigTopic(s, key), Config(config), 0, true)]
    case None => []
  }

  /** The messages publish_initial_configurations sends for keys, in order. */
  function ConfigMessages(s: Settings, keys: seq<string>): seq<Message>
    decreases |keys|
  {
    if keys == [] then []
    else ConfigMessages(s, keys[..|keys| - 1]) + ConfigMessage(s, keys[|keys| - 1])
  }

  /** The elements of xs that satisfy keep, in order. */
  function Select<T>(xs: seq<T>, keep: T -> bool): seq<T>
    decreases |xs|
  {
    if xs == [] then []
    else Select(xs[..|xs| - 1], keep) + (if keep(xs[|xs| - 1]) then [xs[|xs| - 1]] else [])
  }

  /** Selecting by a predicate every element satisfies keeps everything. */
  lemma {:induction false} SelectAll<T>(xs: seq<T>, keep: T -> bool)
    requires forall i :: 0 <= i < |xs| ==> keep(xs[i])
    ensures Select(xs, keep) == xs
    decreases |xs|
  {
    if xs != [] {
      SelectAll(xs[..|xs| - 1], keep);
      assert xs[..|xs| - 1] + [xs[|xs| - 1]] == xs;
    }
  }

  predicate HasConfig(key: string) {
    key in SensorTypes
  }

  /** The keys that have a catalogue entry, in input order. */
  function Configured(keys: seq<string>): seq<string> {
    Select(keys, HasConfig)
  }

  /** The messages publish_data sends for a decoded dictionary, in its order. */
  function DataMessages(s: Settings, samples: seq<Sample>): seq<Message>
    decreases |samples|
  {
    if samples == [] then []
    else
      var last := samples[|samples| - 1];
      DataMessages(s, samples[..|samples| - 1]) + [Message(StateTopic(s, last.key), Reading(last.value), 0, false)]
  }

  // ---------------------------------------------------------------------------
  // What one read does, and what a run does

  /** How read_and_process_data ends: normally, or with an exception escaping it. */
  datatype Status = Handled | Raised(error: ParseError)

  datatype Step = Step(status: Status, messages: seq<Message>)

  /** read_and_process_data after the read: a read error is caught, a parse error escapes. */
  function ProcessReply(s: Settings, reply: ReadReply, tableId: int): Step {
    match reply
    case ReadTableError(_) => Step(Handled, [])
    case Bytes(data) =>
      match ParseInputBuffer(data, tableId)
      case Failure(e) => Step(Raised(e), [])
      case Success(samples) => Step(Handled, if samples != [] then DataMessages(s, samples) else [])
  }

  const Table23Request: Request := Request(23, 8, 0)
  const Table28Request: Request := Request(28, 40, 0)

  datatype Trace = Trace(requests: seq<Request>, messages: seq<Message>, status: Status)

  /** run: table 23, then table 28 unless table 23 raised. */
  function RunTrace(s: Settings, respond: Request -> ReadReply): Trace {
    RunSteps(ProcessReply(s, respond(Table23Request), 23), ProcessReply(s, respond(Table28Request), 28))
  }

  /** How the two steps of run combine: an exception in the first ends the run before the second read. */
  function RunSteps(first: Step, second: Step): Trace {
    if first.status.Raised? then Trace([Table23Request], first.messages, first.status)
    else Trace([Table23Request, Table28Request], first.messages + second.messages, second.status)
  }

  // ---------------------------------------------------------------------------
  // The module object

  class MqttModule {
    /** The configuration module's topic prefix, meter name and meter id. */
    const settings: Settings
    /** The MQTT client created at start-up. */
    const client: Broker
    const sensorTypes: seq<string>

    /** Create the client, then announce every catalogued sensor. */
    constructor (settings: Settings)
      ensures this.settings == settings && sensorTypes == SensorTypes
      ensures fresh(client) && client.log == ConfigMessages(settings, SensorTypes)
    {
      this.settings := settings;
      client := new Broker();
      sensorTypes := SensorTypes;
      new;
      PublishInitialConfigurations(sensorTypes);
    }

    method Publish(topic: string, payload: Payload, qos: QoS, retain: bool)
      modifies client
      ensures client.log == old(client.log) + [Message(topic, payload, qos, retain)]
    {
      client.Publish(topic, payload, qos, retain);
    }

    /** One retained discovery message per key that has a config, in key order. */
    method PublishInitialConfigurations(keys: seq<string>)
      modifies client
      ensures client.log == old(client.log) + ConfigMessages(settings, keys)
    {
      for i := 0 to |keys|
        invariant client.log == old(client.log) + ConfigMessages(settings, keys[..i])
      {
        var payload := GetOrCreateConfig(settings, keys[i]);
        if payload.Some? {
          var topic := ConfigTopic(settings, keys[i]);
          Publish(topic, Config(payload.value), 0, true);
        }
        assert keys[..i + 1][..i] == keys[..i];
      }
      assert keys[..|keys|] == keys;
    }

    /** One unretained QoS 0 message per decoded entry, in dictionary order. */
    method PublishData(samples: seq<Sample>)
      modifies client
      ensures client.log == old(client.log) + DataMessages(settings, samples)
    {
      for i := 0 to |samples|
        invariant client.log == old(client.log) + DataMessages(settings, samples[..i])
      {
        var topic := StateTopic(settings, samples[i].key);
        Publish(topic, Reading(samples[i].value), 0, false);
        assert samples[..i + 1][..i] == samples[..i];
      }
      assert samples[..|samples|] == samples;
    }

    /** Read (tableId, octet, 0), decode it, and publish the readings if there are any. */
    method ReadAndProcessData(conn: Connection, tableId: int, octet: int) returns (status: Status)
      modifies client, conn
      ensures conn.requests == old(conn.requests) + [Request(tableId, octet, 0)]
      ensures var step := ProcessReply(settings, conn.respond(Request(tableId, octet, 0)), tableId);
              status == step.status && client.log == old(client.log) + step.messages
    {
      var reply := conn.GetTablePart(tableId, octet, 0);
      match reply {
        case ReadTableError(_) =>
          status := Handled;
        case Bytes(data) =>
          var parsed := ParseInputBuffer(data, tableId);
          match parsed {
            case Failure(e) =>
              status := Raised(e);
            case Success(samples) =>
              if samples != [] {
                PublishData(samples);
              }
              status := Handled;
          }
      }
    }

    /** One poll: table 23 (8 bytes), then table 28 (40 bytes); a parse exception ends it. */
    method Run(conn: Connection) returns (status: Status)
      modifies client, conn
      ensures var t := RunTrace(settings, conn.respond);
              && conn.requests == old(conn.requests) + t.requests
              && client.log == old(client.log) + t.messages
              && status == t.status
    {
      ghost var first := ProcessReply(settings, conn.respond(Table23Request), 23);
      ghost var second := ProcessReply(settings, conn.respond(Table28Request), 28);
      ghost var t := RunSteps(first, second);
      assert t == RunTrace(settings, conn.respond);
      status := ReadAndProcessData(conn, 23, 8);
      if status.Handled? {
        ghost var mid := client.log;
        status := ReadAndProcessData(conn, 28, 40);
        assert conn.requests == old(conn.requests) + [Table23Request] + [Table28Request];
        assert conn.requests == old(conn.requests) + t.requests;
        assert client.log == mid + second.messages;
        assert client.log == old(client.log) + t.messages;
      }
    }
  }

  // ---------------------------------------------------------------------------
  // Properties of the discovery announcements

  /**
    publish_initial_configurations sends exactly one message per key with a
    config, in input order: retained, QoS 0, to that key's discovery topic,
    carrying that key's record. Keys without a config send nothing.
   */
  lemma {:induction false} ConfigMessagesOnePerConfiguredKey(s: Settings, keys: seq<string>)
    ensures var msgs, conf := ConfigMessages(s, keys), Configured(keys);
            && |msgs| == |conf|
            && forall i :: 0 <= i < |msgs| ==>
                 && GetOrCreateConfig(s, conf[i]).Some?
                 && msgs[i] == Message(ConfigTopic(s, conf[i]), Config(GetOrCreateConfig(s, conf[i]).value), 0, true)
    decreases |keys|
  {
    if keys != [] {
      ConfigMessagesOnePerConfiguredKey(s, keys[..|keys| - 1]);
    }
  }

  /** Keys without a catalogue entry are dropped. */
  lemma {:induction false} ConfiguredDropsUnknown(s: Settings, keys: seq<string>)
    requires forall i :: 0 <= i < |keys| ==> keys[i] !in SensorTypes
    ensures ConfigMessages(s, keys) == [] && Configured(keys) == []
    decreases |keys|
  {
    if keys != [] {
      ConfiguredDropsUnknown(s, keys[..|keys| - 1]);
    }
  }

  /** At start-up the module announces all ten sensors, one retained message each, in catalogue order. */
  lemma StartupAnnouncesEverySensor(s: Settings)
    ensures var msgs := ConfigMessages(s, SensorTypes);
            && |msgs| == 10
            && forall i :: 0 <= i < 10 ==>
                 msgs[i].topic == ConfigTopic(s, SensorTypes[i]) && msgs[i].retain && msgs[i].qos == 0
  {
    SelectAll(SensorTypes, HasConfig);
    ConfigMessagesOnePerConfiguredKey(s, SensorTypes);
  }

  // ---------------------------------------------------------------------------
  // Properties of the data publisher

  /** publish_data sends one unretained QoS 0 message per entry, in order, to prefix/meter/key. */
  lemma {:induction false} DataMessagesOnePerSample(s: Settings, samples: seq<Sample>)
    ensures |DataMessages(s, samples)| == |samples|
    ensures forall i :: 0 <= i < |samples| ==>
              DataMessages(s, samples)[i] == Message(StateTopic(s, samples[i].key), Reading(samples[i].value), 0, false)
    decreases |samples|
  {
    if samples != [] {
      DataMessagesOnePerSample(s, samples[..|samples| - 1]);
    }
  }

  /** The config dictionary has an entry for exactly the sensor types. */
  lemma CatalogueCoversSensorTypes()
    ensures ConfigDetails.Keys == set k | k in SensorTypes
  {
  }

  /** The keys the two table layouts produce are exactly the catalogued keys. */
  lemma DecoderAndCatalogueAgree()
    ensures (set k | k in SensorTypes) == (set f | f in Table23Fields + Table28Fields :: f.key)
  {
    PollOrderCoversCatalogue();
    PollOrderFollowsLayouts();
    PermutedKeys(SensorTypes, PollIndex, Table23Fields + Table28Fields);
  }

  /** When the field keys are keys permuted by index, both name the same set of keys. */
  lemma PermutedKeys(keys: seq<string>, index: seq<nat>, fields: seq<Field>)
    requires |index| == |keys| == |fields|
    requires forall i :: 0 <= i < |index| ==> index[i] < |keys| && FieldKeys(fields)[i] == keys[index[i]]
    requires forall j :: 0 <= j < |keys| ==> j in index
    ensures (set k | k in keys) == (set f | f in fields :: f.key)
  {
    forall f | f in fields ensures f.key in keys {
      var i :| 0 <= i < |fields| && fields[i] == f;
      assert f.key == FieldKeys(fields)[i];
    }
    forall k | k in keys ensures k in (set f | f in fields :: f.key) {
      var j :| 0 <= j < |keys| && keys[j] == k;
      assert j in index;
      var i :| 0 <= i < |index| && index[i] == j;
      assert fields[i].key == FieldKeys(fields)[i] == k;
      assert fields[i] in fields;
    }
  }

  /**
    Every reading published for a decoded table goes to the state topic that the
    discovery record of its key announces.
   */
  lemma ReadingsGoWhereDiscoveryPoints(s: Settings, bs: seq<Byte>, tableId: int)
    requires ParseInputBuffer(bs, tableId).Success?
    ensures var samples := ParseInputBuffer(bs, tableId).value;
            var msgs := DataMessages(s, samples);
            |msgs| == |samples| &&
            forall i :: 0 <= i < |samples| ==>
              && GetOrCreateConfig(s, samples[i].key).Some?
              && GetOrCreateConfig(s, samples[i].key).value.stateTopic == msgs[i].topic
  {
    var samples := ParseInputBuffer(bs, tableId).value;
    DecodedKeys(bs, tableId);
    DataMessagesOnePerSample(s, samples);
    forall i | 0 <= i < |samples| ensures samples[i].key in SensorTypes {
      assert samples[i].key in Keys(samples);
    }
  }

  // ---------------------------------------------------------------------------
  // Properties of read_and_process_data and run

  /** A C1218ReadTableError is caught: nothing is published and nothing escapes. */
  lemma ReadErrorPublishesNothing(s: Settings, message: string, tableId: int)
    ensures ProcessReply(s, ReadTableError(message), tableId) == Step(Handled, [])
  {
  }

  /** An unknown table id raises UnboundLocalError whenever the buffer unpacks, and publishes nothing. */
  lemma UnknownTableRaises(s: Settings, data: seq<Byte>, tableId: int)
    requires tableId != 23 && tableId != 28
    requires |data| < MinLength || |data| % 4 == 0
    ensures ProcessReply(s, Bytes(data), tableId) == Step(Raised(UnboundLocalError), [])
  {
  }

  /** A successful decode is never empty, so every decoded entry is published, in order. */
  lemma DecodedTablesArePublished(s: Settings, data: seq<Byte>, tableId: int)
    requires ParseInputBuffer(data, tableId).Success?
    ensures ParseInputBuffer(data, tableId).value != []
    ensures ProcessReply(s, Bytes(data), tableId) == Step(Handled, DataMessages(s, ParseInputBuffer(data, tableId).value))
  {
    DecodedKeysDistinct(data, tableId);
  }

  /** A read error on table 23 does not stop table 28 from being read and published. */
  lemma ReadErrorDoesNotStopTable28(s: Settings, respond: Request -> ReadReply)
    requires respond(Table23Request).ReadTableError?
    ensures var t := RunTrace(s, respond);
            && t.requests == [Request(23, 8, 0), Request(28, 40, 0)]
            && t.messages == ProcessReply(s, respond(Table28Request), 28).messages
            && t.status == ProcessReply(s, respond(Table28Request), 28).status
  {
  }

  /** A table 23 buffer that does not unpack raises out of run, and table 28 is never requested. */
  lemma Table23StructErrorAbortsRun(s: Settings, respond: Request -> ReadReply)
    requires respond(Table23Request).Bytes?
    requires |respond(Table23Request).data| >= MinLength && |respond(Table23Request).data| % 4 != 0
    ensures RunTrace(s, respond) == Trace([Request(23, 8, 0)], [], Raised(StructError))
  {
  }

  /** Once table 23 is handled, a table 28 reply shorter than 40 bytes raises out of run after table 23's readings went out. */
  lemma ShortTable28Raises(s: Settings, respond: Request -> ReadReply)
    requires !ProcessReply(s, respond(Table23Request), 23).status.Raised?
    requires respond(Table28Request).Bytes? && |respond(Table28Request).data| < 40
    ensures RunTrace(s, respond).requests == [Request(23, 8, 0), Request(28, 40, 0)]
    ensures RunTrace(s, respond).status.Raised?
    ensures RunTrace(s, respond).messages == ProcessReply(s, respond(Table23Request), 23).messages
  {
  }

  /** The order in which a normal poll publishes the ten readings. */
  const PollOrder: seq<string> :=
    ["Fwd_kWh", "Rev_kWh", "fwd_Now", "rev_Now", "L1_A", "L2_A", "L3_A", "L1_V", "L2_V", "L3_V"]

  /** PollOrder is the keys of the table 23 layout followed by those of the table 28 layout. */
  lemma PollOrderFollowsLayouts()
    ensures PollOrder == FieldKeys(Table23Fields + Table28Fields)
  {
  }

  /** The reading published i-th in a normal poll, taken straight from the two raw buffers. */
  function PollValue(d23: seq<Byte>, d28: seq<Byte>, i: nat): Value {
    if i < 2 then Thousandths(WordAt(d23, i))
    else if i < 4 then Count(WordAt(d28, i - 2))
    else Thousandths(WordAt(d28, i))
  }

  /** Where each PollOrder entry sits in SensorTypes. */
  const PollIndex: seq<nat> := [0, 1, 2, 3, 4, 6, 8, 5, 7, 9]

  /** A normal poll covers every catalogued sensor exactly once: PollOrder is SensorTypes permuted. */
  lemma PollOrderCoversCatalogue()
    ensures |PollOrder| == |PollIndex| == |SensorTypes|
    ensures forall i :: 0 <= i < |PollIndex| ==> PollIndex[i] < |SensorTypes| && PollOrder[i] == SensorTypes[PollIndex[i]]
    ensures forall i, j :: 0 <= i < j < |PollIndex| ==> PollIndex[i] != PollIndex[j]
    ensures forall j :: 0 <= j < |SensorTypes| ==> j in PollIndex
  {
  }

  /** The two decoded dictionaries of a normal poll, one after the other, entry by entry. */
  lemma NormalPollSamples(d23: seq<Byte>, d28: seq<Byte>)
    requires |d23| == 8 && |d28| == 40
    ensures ParseInputBuffer(d23, 23).Success? && ParseInputBuffer(d28, 28).Success?
    ensures var samples := ParseInputBuffer(d23, 23).value + ParseInputBuffer(d28, 28).value;
            && |samples| == 10
            && forall i :: 0 <= i < 10 ==> samples[i] == Sample(PollOrder[i], PollValue(d23, d28, i))
  {
    Table23Layout(d23);
    Table28Layout(d28);
    var a, b := ParseInputBuffer(d23, 23).value, ParseInputBuffer(d28, 28).value;
    forall i | 0 <= i < 10 ensures (a + b)[i] == Sample(PollOrder[i], PollValue(d23, d28, i)) {
      if i < 2 {
        assert (a + b)[i] == a[i];
      } else {
        assert (a + b)[i] == b[i - 2];
      }
    }
  }

  /** Publishing a, then b, sends the messages for a + b. */
  lemma {:induction false} DataMessagesAppend(s: Settings, a: seq<Sample>, b: seq<Sample>)
    ensures DataMessages(s, a) + DataMessages(s, b) == DataMessages(s, a + b)
  {
    DataMessagesOnePerSample(s, a);
    DataMessagesOnePerSample(s, b);
    DataMessagesOnePerSample(s, a + b);
  }

  /**
    A poll whose reads return 8 and 40 bytes publishes ten unretained QoS 0
    readings, in PollOrder, with the decoded field values, and ends normally.
   */
  lemma NormalPollPublishesEverySensor(s: Settings, respond: Request -> ReadReply)
    requires respond(Table23Request).Bytes? && |respond(Table23Request).data| == 8
    requires respond(Table28Request).Bytes? && |respond(Table28Request).data| == 40
    ensures var t := RunTrace(s, respond);
            var d23, d28 := respond(Table23Request).data, respond(Table28Request).data;
            && t.status == Handled
            && t.requests == [Request(23, 8, 0), Request(28, 40, 0)]
            && |t.messages| == 10
            && forall i :: 0 <= i < 10 ==>
                 t.messages[i] == Message(StateTopic(s, PollOrder[i]), Reading(PollValue(d23, d28, i)), 0, false)
  {
    var d23, d28 := respond(Table23Request).data, respond(Table28Request).data;
    NormalPollSamples(d23, d28);
    var samples23, samples28 := ParseInputBuffer(d23, 23).value, ParseInputBuffer(d28, 28).value;
    DecodedKeysDistinct(d23, 23);
    DecodedKeysDistinct(d28, 28);
    DataMessagesAppend(s, samples23, samples28);
    DataMessagesOnePerSample(s, samples23 + samples28);
  }
}
