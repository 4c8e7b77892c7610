# termineter MQTT data module — a Dafny model

This project models the termineter module that bridges a smart meter to Home Assistant over MQTT:
`lib/termineter/modules/get_data_mqtt.py`.

- **Start-up.** The module creates its MQTT client. It then announces each of the ten catalogued sensors with a retained Home Assistant discovery record, sent to `homeassistant/sensor/<meter_name>_<key>/config`.
- **Each run.** It reads 8 bytes of table 23 and then 40 bytes of table 28 over the C12.18 optical link. It decodes each buffer as little-endian signed 32-bit integers and names the fields. It publishes every reading, unretained at QoS 0, to `<prefix>/<meter_name>/<key>`.

The modules follow the program's parts:

| module | models |
|---|---|
| `Int32Codec` (int32_codec.dfy) | the `"<i"` struct format: decoding, encoding, whole-buffer unpack and pack |
| `BufferDecoder` (buffer_decoder.dfy) | `parse_input_buffer`: padding, unpacking, the table 23 and table 28 layouts, and the exceptions it lets escape |
| `SensorCatalogue` (sensor_catalogue.dfy) | `sensor_types`, the `config_details` table and `get_or_create_config` |
| `Mqtt` (broker.dfy) | the MQTT client's `publish`, as a class whose outbound log grows by one message per call |
| `TableSource` (table_source.dfy) | the C12.18 connection's `get_table_part`, as a class that records each request and answers with a fixed function of the request |
| `GetDataMqtt` (get_data_mqtt.dfy) | the module object: `publish`, `publish_initial_configurations`, `publish_data`, `read_and_process_data` and `run`, with the functions that specify them and the lemmas about them |

The imperative parts keep their form:
- The module object is a class.
- Its publishers are `for` loops proved against the functions `ConfigMessages` and `DataMessages`.
- `Run` is proved against `RunTrace`.

Every lemma about a whole run is stated in terms of `RunTrace`.

Exceptions are values:
- `parse_input_buffer` returns a `Result`. Its failure is `StructError`, `IndexError` or `UnboundLocalError`.
- `read_and_process_data` and `run` return a `Status`. `Raised(e)` means the exception escaped.

### Where the code does not do what it evidently intends

The source itself shows what it means to do:
- The zero padding at lines 159-160 is there so that a short read still decodes.
- The `except ValueError: return {}` at lines 182-184 is there to turn a decode failure into an empty result.
- `run` at lines 201-202 reads both tables.

The code falls short of each of these, and the model states what the code does:
- **Short table 28 reads fail.** Padding stops at 36 bytes, which is nine integers. Table 28 reads a tenth (`int32_values[9]`), so any table 28 buffer of 36 bytes or fewer raises `IndexError` (`ShortTable28Raises`).
- **Some long buffers fail.** A buffer of 36 bytes or more whose length is not a multiple of four makes `struct.unpack` raise `struct.error`.
- **Unknown tables fail.** An unknown table id leaves `data` unbound, which raises `UnboundLocalError` (`UnknownTableRaises`).
- **The decoder's handler is dead.** None of these three exceptions is a `ValueError`, so the handler at line 182 never runs.
- **A decode error ends the poll.** `read_and_process_data` catches only `C1218ReadTableError`. A decode exception therefore escapes `run`, and table 28 is never requested (`Table23StructErrorAbortsRun`). A read error, by contrast, is caught, and the run goes on (`ReadErrorDoesNotStopTable28`).

### Decoded values

A decoded dictionary is an ordered sequence of `Sample(key, value)`, because insertion order decides the order of publication. The value is either:
- `Count(n)`, a raw integer field (a Python `int`), or
- `Thousandths(n)`, the field divided by 1000. `AsReal` gives it as an exact rational.

## Model

| member | source | states |
|---|---|---|
| Int32Codec.Unsigned | lib/termineter/modules/get_data_mqtt.py:161 | four bytes read least significant first lie in [0, 2^32) |
| Int32Codec.DecodeInt32 | lib/termineter/modules/get_data_mqtt.py:161 | a `"<i"` field is a signed 32-bit value, negative exactly when the top bit of the last byte is set, and congruent to the unsigned reading mod 2^32 |
| Int32Codec.EncodeInt32 | lib/termineter/modules/get_data_mqtt.py:161 | every 32-bit value has a four-byte encoding that decodes back to it |
| Int32Codec.EncodeDecodeInt32 | lib/termineter/modules/get_data_mqtt.py:161 | decoding is injective: re-encoding a decoded value gives back the four bytes |
| Int32Codec.Unpack | lib/termineter/modules/get_data_mqtt.py:161 | unpacking gives length/4 integers, the k-th decoded from bytes 4k..4k+3, all within 32 bits |
| Int32Codec.Pack | lib/termineter/modules/get_data_mqtt.py:161 | packing n integers gives 4n bytes |
| Int32Codec.UnpackPack | lib/termineter/modules/get_data_mqtt.py:161 | unpack inverts pack |
| Int32Codec.PackUnpack | lib/termineter/modules/get_data_mqtt.py:161 | pack inverts unpack, so no buffer of whole words loses information |
| BufferDecoder.Pad | lib/termineter/modules/get_data_mqtt.py:159-160 | a buffer shorter than 36 bytes is extended to exactly 36 with zero bytes after its own bytes; a longer one is left unchanged |
| BufferDecoder.ParseInputBuffer | lib/termineter/modules/get_data_mqtt.py:156-184 | the decoder raises struct.error exactly for buffers of 36+ bytes not a multiple of 4, IndexError exactly for table 28 with at most 36 bytes, UnboundLocalError exactly for other tables whose buffer unpacks, and succeeds exactly otherwise for tables 23 and 28 |
| BufferDecoder.UnpackPadded | lib/termineter/modules/get_data_mqtt.py:159-161 | the k-th unpacked integer of the padded buffer is the k-th word of the raw buffer with missing bytes read as zero |
| BufferDecoder.Table23Layout | lib/termineter/modules/get_data_mqtt.py:163-167 | table 23 decodes to exactly Fwd_kWh = word 0 / 1000 and Rev_kWh = word 1 / 1000, in that order |
| BufferDecoder.Table23ReadsEightBytes | lib/termineter/modules/get_data_mqtt.py:163-167 | the table 23 result depends only on the first eight bytes |
| BufferDecoder.Table28Layout | lib/termineter/modules/get_data_mqtt.py:168-178 | table 28 decodes to exactly fwd_Now, rev_Now (words 0, 1 raw), L1_A..L3_A (words 4-6 / 1000), L1_V..L3_V (words 7-9 / 1000), in that order |
| BufferDecoder.Table28SkipsFieldsTwoAndThree | lib/termineter/modules/get_data_mqtt.py:168-178 | table 28 ignores bytes 8-15 and everything past byte 40 |
| BufferDecoder.Table23Example | lib/termineter/modules/get_data_mqtt.py:163-167 | a table 23 holding 1000 and 2000 decodes to 1.0 and 2.0 kWh |
| BufferDecoder.Table28Example | lib/termineter/modules/get_data_mqtt.py:168-178 | a table 28 holding sample integers decodes to each key with its value: the raw powers (including a negative one) and the currents and voltages in thousandths (5.0 A to 122.0 V) |
| BufferDecoder.DecodedKeysDistinct | lib/termineter/modules/get_data_mqtt.py:163-178 | a successful decode is a non-empty dictionary without repeated keys |
| BufferDecoder.DecodedKeys | lib/termineter/modules/get_data_mqtt.py:163-178 | table 23 yields keys {Fwd_kWh, Rev_kWh}, table 28 the eight power, current and voltage keys |
| SensorCatalogue.GetOrCreateConfig | lib/termineter/modules/get_data_mqtt.py:66-138 | a record exists exactly for the ten catalogued keys; it carries the name, unit, state class, icon and device class of the key's catalogue row, the fixed device block naming the meter id, the key's state topic, unique id meter_id_key and platform mqtt, and has a device class exactly for keys other than the three current sensors |
| SensorCatalogue.DeviceBlockShared | lib/termineter/modules/get_data_mqtt.py:118-124 | every record of one meter carries the same device block identifying the meter id |
| SensorCatalogue.ConfigIdsDetermineKey | lib/termineter/modules/get_data_mqtt.py:127-128 | distinct keys get distinct unique ids and distinct state topics |
| SensorCatalogue.ConfigTopicDeterminesKey | lib/termineter/modules/get_data_mqtt.py:145 | distinct keys get distinct discovery topics |
| Mqtt.Broker.constructor | lib/termineter/modules/get_data_mqtt.py:43 | a new client has published nothing |
| Mqtt.Broker.Publish | lib/termineter/modules/get_data_mqtt.py:64 | a publish appends exactly its message to the client's log |
| TableSource.Connection.constructor | lib/termineter/modules/get_data_mqtt.py:200 | a connection starts with no requests made |
| TableSource.Connection.GetTablePart | lib/termineter/modules/get_data_mqtt.py:189 | a read records its request and returns the meter's answer to it |
| GetDataMqtt.MqttModule.constructor | lib/termineter/modules/get_data_mqtt.py:20-40 | construction stores sensor_types and leaves a fresh client whose log is the announcements for sensor_types |
| GetDataMqtt.MqttModule.Publish | lib/termineter/modules/get_data_mqtt.py:63-64 | the module's publish forwards exactly one message to its client |
| GetDataMqtt.MqttModule.PublishInitialConfigurations | lib/termineter/modules/get_data_mqtt.py:140-147 | the loop appends ConfigMessages(keys) to the log and nothing else |
| GetDataMqtt.MqttModule.PublishData | lib/termineter/modules/get_data_mqtt.py:149-154 | the loop appends DataMessages(samples) to the log and nothing else |
| GetDataMqtt.MqttModule.ReadAndProcessData | lib/termineter/modules/get_data_mqtt.py:186-197 | one read request (table, octet, 0) is made; the status and the published messages are those of ProcessReply on the meter's answer |
| GetDataMqtt.MqttModule.Run | lib/termineter/modules/get_data_mqtt.py:199-202 | the requests, the published messages and the outcome are those of RunTrace |
| GetDataMqtt.SelectAll | lib/termineter/modules/get_data_mqtt.py:142-144 | filtering by a test every key passes keeps every key in order |
| GetDataMqtt.ConfigMessagesOnePerConfiguredKey | lib/termineter/modules/get_data_mqtt.py:140-147 | start-up announcements are exactly one retained QoS 0 message per key with a config, in input order, to its discovery topic, carrying its record |
| GetDataMqtt.ConfiguredDropsUnknown | lib/termineter/modules/get_data_mqtt.py:137-144 | keys without a catalogue entry are announced with nothing |
| GetDataMqtt.StartupAnnouncesEverySensor | lib/termineter/modules/get_data_mqtt.py:27-40 | start-up sends ten retained QoS 0 announcements, the i-th to the discovery topic of the i-th sensor type |
| GetDataMqtt.DataMessagesOnePerSample | lib/termineter/modules/get_data_mqtt.py:149-154 | publish_data sends one unretained QoS 0 message per entry, in order, to the entry's state topic carrying its value |
| GetDataMqtt.DataMessagesAppend | lib/termineter/modules/get_data_mqtt.py:149-154 | publishing two dictionaries one after the other sends the messages for their concatenation |
| GetDataMqtt.CatalogueCoversSensorTypes | lib/termineter/modules/get_data_mqtt.py:27-38 | the config dictionary has an entry for exactly the sensor types |
| GetDataMqtt.DecoderAndCatalogueAgree | lib/termineter/modules/get_data_mqtt.py:163-178 | the keys of the table 23 and table 28 field layouts are exactly the sensor types |
| GetDataMqtt.PermutedKeys | lib/termineter/modules/get_data_mqtt.py:163-178 | field keys that are a re-indexing of a key list, onto every position, name the same set of keys |
| GetDataMqtt.ReadingsGoWhereDiscoveryPoints | lib/termineter/modules/get_data_mqtt.py:152 | every published reading goes to the state topic that its key's discovery record announces |
| GetDataMqtt.ReadErrorPublishesNothing | lib/termineter/modules/get_data_mqtt.py:196-197 | a C1218ReadTableError is caught: nothing is published and nothing escapes |
| GetDataMqtt.UnknownTableRaises | lib/termineter/modules/get_data_mqtt.py:163-181 | an unknown table id whose buffer unpacks raises UnboundLocalError out of read_and_process_data and publishes nothing |
| GetDataMqtt.DecodedTablesArePublished | lib/termineter/modules/get_data_mqtt.py:192-194 | a successful decode is non-empty, so read_and_process_data ends normally having published exactly DataMessages of the decoded entries |
| GetDataMqtt.ReadErrorDoesNotStopTable28 | lib/termineter/modules/get_data_mqtt.py:199-202 | after a read error on table 23 the run still requests table 28 and its outcome is table 28's |
| GetDataMqtt.Table23StructErrorAbortsRun | lib/termineter/modules/get_data_mqtt.py:199-202 | a table 23 buffer that does not unpack raises out of run with nothing published and table 28 never requested |
| GetDataMqtt.ShortTable28Raises | lib/termineter/modules/get_data_mqtt.py:186-202 | whenever table 23 did not raise (a read error or any reply that decodes), a table 28 reply shorter than 40 bytes raises out of run after both requests, with exactly table 23's readings published |
| GetDataMqtt.PollOrderCoversCatalogue | lib/termineter/modules/get_data_mqtt.py:27-38 | the publication order of a normal poll is a permutation of the sensor types: PollIndex is injective and onto |
| GetDataMqtt.PollOrderFollowsLayouts | lib/termineter/modules/get_data_mqtt.py:163-178 | the publication order of a normal poll is the table 23 layout's keys followed by the table 28 layout's keys |
| GetDataMqtt.NormalPollSamples | lib/termineter/modules/get_data_mqtt.py:163-178 | the two decoded dictionaries of a normal poll are the ten readings in poll order, taken from the raw words |
| GetDataMqtt.NormalPollPublishesEverySensor | lib/termineter/modules/get_data_mqtt.py:186-202 | a poll whose reads return 8 and 40 bytes ends normally and publishes ten readings, the i-th to the state topic of the i-th key in poll order, carrying that key's decoded value |

## Left out

- MQTT connection handling (`setup_mqtt`, `disconnect`, `__del__`, lines 42-61) is left out: connecting, logging in and the network loop are I/O. The client is modelled from the point where it accepts `publish` calls.
- The broker address, the credentials, the topic prefix, the meter name and the meter id come from the `mqtt_config` module, which is not part of this model. The last three are the `Settings` parameter.
- GetOrCreateConfig: returns the discovery record as a value and does not model its `json.dumps` text. The model relies on that text never being empty, which is what `if config_payload:` tests.
- BufferDecoder.Value: keeps `n / 1000` as the exact rational `n/1000` rather than the rounded Python float.
- Status messages, hex dumps and logging warnings (`print_status`, `print_error`, `print_hexdump`, `logging.warning`) are output only and are left out.
- The C12.18 transport is a fixed function from request to reply. Only `C1218ReadTableError` is modelled as a transport failure. Other exceptions that the serial link or the MQTT client may raise are not modelled.
- The termineter framework (`TermineterModuleOptical`, the `frmwk` object, how `run` is scheduled) and the sibling module `get_data.py` are not part of this model.
- MqttModule.Publish: the client's own queueing, delivery and retained-message store are not modelled. The model records only the sequence of calls made on the client.
