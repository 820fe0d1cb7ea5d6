# ha-vginv in Dafny

ha-vginv connects a V-Guard SOLSMART UPS to Home Assistant. The UPS speaks
a small request/notification protocol over Bluetooth Low Energy:

- each request is a 6-byte opcode prefix followed by `FF FF`;
- the UPS answers with a notification whose first six bytes repeat the
  prefix and whose last two bytes carry a little-endian reading.

`vginverter.py` polls the UPS every 20 s and publishes each reading over
MQTT. Beforehand it publishes Home Assistant discovery records and an
availability topic (`home/ups/status`, "online"/"offline").
`read-all.py` is a one-shot diagnostic. It sends the 25 opcodes known so far
and prints every answer.

This project models both programs.

- `frames.dfy` (`Frames`): the table of opcode prefixes (an
  insertion-ordered dictionary as a sequence of entries), request framing,
  the prefix and value slices of a notification, little-endian decoding and
  dictionary lookup.
- `scaling.dfy` (`Scaling`): rounding an exact ratio to the nearest
  integer, ties to even. This is how `round(x, 2)` is modelled, on an
  integer count of hundredths.
- `registry.dfy` (`Registry`): the six-sensor table of `vginverter.py`.
- `readings.dfy` (`Readings`): the decode step of `notification_handler`.
- `accumulator.dfy` (`Accumulator`): the global `received_data`. It is a
  class `ReceivedData` with an ordered key list and a map, updated in place
  by `Handle`, `HandleAll` and `Clear`. It is specified by the value
  `Received` and the functions `Put`, `Absorb` and `AbsorbAll`.
- `topics.dfy` (`Topics`): key normalisation, state and discovery topics,
  and the retained discovery messages. `publish_discovery_configs` and
  `on_connect` are methods that build the messages in a loop.
- `transport.dfy` (`Transport`): the scripted Bluetooth client. A `Script`
  says which call raises (if any), what `is_connected` reports after
  connect and at cleanup, whether `disconnect` raises, and which
  notifications arrive at each await point. Every call the program issues
  is an `Event` in a trace, and so is every publish and every sleep. Sleeps
  are in tenths of a second.
- `poll_cycle.dfy` (`PollCycle`): one iteration of the `poll_ups` loop.
  - The methods `PollOnce`, `Guarded`, `Collect`, `RequestAll` and
    `PublishValues` mutate a `ReceivedData` object and return the trace.
  - They are proved equal to the functions `Cycle` and `GuardedBlock`.
  - Lemmas about those functions give the availability, cleanup, ordering
    and publishing guarantees.
  - `PollUps` runs one cycle per script, standing in for `while True`.
- `readall.dfy` (`ReadAll`): the 25-probe table, the diagnostic handler as
  printed lines, and `main` as `RunSession`. `RunSession` returns the
  trace, the printed lines and how the script exits.

Where a comment in the source and the code disagree, the model follows the
code. At `ha-vginv/vginverter.py:84` the comment on the battery divisor says
300, but the divisor is 297, so a raw 30000 reads as 101.01
(`Readings.BatteryChargeExample`).

The model keeps these behaviours of the code:

- "online" is published right after the connection check, before
  `start_notify`. A cycle that fails later therefore publishes both
  "online" and "offline".
- Notifications heard before `received_data.clear()` are lost.
- A cycle that fails before the clear keeps the old snapshot.
- `stop_notify` is inside the `try`, not the `finally`. If it raises, no
  values are published, the cleanup still runs, and "offline" follows.
- A write that raises ends the cycle's writes. It is the last write in the
  trace, and no values are published.
- The `finally` disconnects only when `is_connected` is still true. If that
  `disconnect` raises, the cycle takes the failure path ("offline" and
  10 s back-off).

## Model

| member | source | states |
|---|---|---|
| Frames.RequestFrame | ha-vginv/vginverter.py:92 | the request is the prefix followed by exactly the two bytes FF FF |
| Frames.RequestRoundTrip | ha-vginv/vginverter.py:92 | dropping the last two bytes of a request gives back the prefix; a 6-byte prefix gives an 8-byte request |
| Frames.FullRequestsOnePerEntry | ha-vginv/vginverter.py:92 | there is one request per table entry; in a well-formed table each is 8 bytes and strips back to its own entry's prefix, and no two requests are equal |
| Frames.FullRequestsSnoc | ha-vginv/vginverter.py:179-182 | the first k+1 requests are the first k followed by the request for entry k |
| Frames.FramePrefix | ha-vginv/vginverter.py:144 | the prefix slice is the first six bytes, or the whole frame when it is shorter |
| Frames.ValueBytes | ha-vginv/vginverter.py:145 | the value slice is the last two bytes of the frame, or the whole frame when it is shorter than two bytes |
| Frames.LittleEndianBound | ha-vginv/vginverter.py:151 | a little-endian number of k bytes is below 256^k |
| Frames.RawValueBytes | ha-vginv/vginverter.py:145-151 | the raw reading is below 65536 and, for frames of two bytes or more, equals the second-last byte plus 256 times the last |
| Frames.Find | ha-vginv/vginverter.py:147-148 | a hit is an index with that prefix and no earlier index with that prefix; a miss means no entry has that prefix |
| Frames.Lookup | ha-vginv/vginverter.py:147-148 | the dictionary lookup finds something exactly when some entry has that prefix |
| Frames.LookupEntry | ha-vginv/vginverter.py:147-148 | in a table with distinct prefixes, looking up entry i's prefix finds entry i |
| Frames.RegisteredFrameLength | ha-vginv/vginverter.py:144-147 | a frame whose prefix slice is a registered 6-byte prefix has at least six bytes, so the slice is exactly its first six |
| Frames.Pow256 | ha-vginv/vginverter.py:151 | powers of 256 are positive |
| Scaling.RoundRatio | ha-vginv/vginverter.py:152 | the result is the nearest integer to num/den, an exact tie going to the even neighbour |
| Scaling.RoundRatioUnique | ha-vginv/vginverter.py:152 | at most one integer is the nearest-even rounding of num/den, and RoundRatio computes it |
| Scaling.RoundRatioByOne | ha-vginv/read-all.py:52-53 | dividing by 1 and rounding leaves the number unchanged |
| Registry.SensorsWellFormed | ha-vginv/vginverter.py:51-88 | six entries with distinct 6-byte prefixes and distinct names, and the divisors 10, 100, 10, 10, 1, 297 in table order |
| Registry.Divisors | ha-vginv/vginverter.py:51-88 | one divisor per entry |
| Readings.Hundredths | ha-vginv/vginverter.py:151-152 | the stored value is raw/divisor rounded to two decimals (as hundredths), ties to even |
| Readings.Decode | ha-vginv/vginverter.py:143-155 | a frame is decoded exactly when its prefix slice is registered; it then carries that entry's name, the raw value of its last two bytes (below 65536) and the rounded hundredths; otherwise it is reported as unknown unchanged |
| Readings.DecodeResponse | ha-vginv/vginverter.py:143-152 | a frame made of entry i's prefix, any middle bytes, then lo and hi decodes to entry i's name, lo + 256*hi and its rounding |
| Readings.DecodeRegisteredFrame | ha-vginv/vginverter.py:144-151 | a decoded frame has six bytes or more and its raw value is its last two bytes, little-endian |
| Readings.MainsVoltageExample | ha-vginv/vginverter.py:52-57 | FF FF FF 08 0C 01 64 00 reads as Mains Voltage, raw 100, 10.00 |
| Readings.BatteryChargeExample | ha-vginv/vginverter.py:82-87 | FF FF FF 3C 0C 01 30 75 reads as Battery Charge Level, raw 30000, 101.01 |
| Readings.FullChargeScaling | ha-vginv/vginverter.py:84 | 30000 raw with divisor 297 is stored as 101.01 |
| Readings.UnregisteredExample | ha-vginv/vginverter.py:154-155 | an opcode that only the diagnostic table knows is unknown to the sensor table |
| Accumulator.Put | ha-vginv/vginverter.py:152 | the snapshot maps the name to the new value and every other name keeps its value; the old key order stays a prefix of the new one, an existing name keeps its place, and the keys still list exactly the stored names |
| Accumulator.AbsorbAllAppend | ha-vginv/vginverter.py:143-155 | handling two batches one after the other is handling their concatenation |
| Accumulator.AbsorbUnknown | ha-vginv/vginverter.py:154-155 | a frame with an unregistered prefix leaves the snapshot unchanged |
| Accumulator.AbsorbKnown | ha-vginv/vginverter.py:147-152 | a registered frame sets its own name to the rounded reading, keeps every other name and value, and keeps the key order as a prefix |
| Accumulator.AbsorbKeys | ha-vginv/vginverter.py:147-155 | after one notification a name is present exactly when it was before or the notification reports it |
| Accumulator.LastWriteWins | ha-vginv/vginverter.py:152 | after a batch, a name holds the value of the last frame in the batch that reports it |
| Accumulator.SecondResponseOverwrites | ha-vginv/vginverter.py:152 | of two responses with the same prefix, the second one's value is kept |
| Accumulator.AbsorbAllKeys | ha-vginv/vginverter.py:147-152 | after a batch a name is present exactly when it was before or some frame of the batch reports it |
| Accumulator.ReceivedData.constructor | ha-vginv/vginverter.py:95 | the dictionary starts empty |
| Accumulator.ReceivedData.Clear | ha-vginv/vginverter.py:177 | the dictionary is empty afterwards |
| Accumulator.ReceivedData.Handle | ha-vginv/vginverter.py:143-155 | the dictionary is updated in place as Absorb says for one notification |
| Accumulator.ReceivedData.HandleAll | ha-vginv/vginverter.py:143-155 | the dictionary is updated in place as AbsorbAll says for a batch of notifications, in order |
| Topics.KeyNormal | ha-vginv/vginverter.py:113 | a key is as long as the name, has no space and no capital, keeps every character that is neither a space nor an ASCII capital, and normalising it again changes nothing |
| Topics.SensorKeys | ha-vginv/vginverter.py:113 | the six names normalise to mains_voltage, battery_voltage, charge_current, discharge_current, load_percentage, battery_charge_level |
| Topics.KeyOf | ha-vginv/vginverter.py:113 | a string that maps each character of the name as the key does is the name's key |
| Topics.MainsVoltageTopic | ha-vginv/vginverter.py:114 | the mains voltage state topic is home/ups/mains_voltage |
| Topics.SensorKeysDistinct | ha-vginv/vginverter.py:113-115 | the six keys are distinct, and so are the six state topics and the six discovery topics |
| Topics.TopicsFollowKeys | ha-vginv/vginverter.py:114-115 | names with different keys get different state and discovery topics; no sensor discovery topic is the availability record's topic (line 140) |
| Topics.PublishDiscoveryConfigs | ha-vginv/vginverter.py:98-140 | one message per entry in table order, each that entry's sensor record, then the availability record |
| Topics.OnConnect | ha-vginv/vginverter.py:213-218 | the discovery messages are sent when rc is 0 and nothing is sent otherwise |
| Topics.DiscoveryShape | ha-vginv/vginverter.py:108-140 | one more message than entries, all retained; entry i's message goes to its discovery topic with its state topic and unique id; the last announces home/ups/status |
| Transport.WritesCompleted | ha-vginv/vginverter.py:179-183 | the writes that complete are those before the first raising write, and when not all complete the next write is the one that raises |
| Transport.WriteEventsAt | ha-vginv/vginverter.py:179-183 | the write loop issues entry i's request at step 2i and a 0.5 s pause at step 2i+1 |
| Transport.WriteEventsOnlyWrites | ha-vginv/vginverter.py:179-183 | the write loop issues only writes and 0.5 s pauses |
| Transport.WritesAppend | ha-vginv/vginverter.py:179-183 | the frames written by two traces in a row are the frames of each, concatenated |
| Transport.WritesNone | ha-vginv/vginverter.py:166-175 | a trace without writes writes no frame |
| Transport.WritesOfWriteEvents | ha-vginv/vginverter.py:179-183 | the first n loop steps write exactly the first n requests in table order |
| Transport.WritesOfAllRequests | ha-vginv/vginverter.py:179-183 | the whole loop writes exactly all requests, in table order |
| PollCycle.ValueEvents | ha-vginv/vginverter.py:190-193 | one value publish per name in the snapshot |
| PollCycle.ValueEventsAreValues | ha-vginv/vginverter.py:190-192 | value publishes carry numbers and are not retained |
| PollCycle.GuardedBlock | ha-vginv/vginverter.py:164-193 | the inner try leaves a snapshot whose key order lists exactly its stored names; its traces are stated by the Guarded... lemmas |
| PollCycle.Cycle | ha-vginv/vginverter.py:159-207 | a cycle leaves a snapshot whose key order lists exactly its stored names; its traces are stated by the ...Cycle lemmas |
| PollCycle.PollOnce | ha-vginv/vginverter.py:159-207 | one iteration returns the trace of Cycle, leaves the dictionary as Cycle says, and reports failure exactly when the cycle takes the except branch |
| PollCycle.Guarded | ha-vginv/vginverter.py:164-193 | the body of the inner try returns the trace and dictionary of GuardedBlock: notifications heard before clear() are dropped, and it raises exactly when BodyRaises |
| PollCycle.Collect | ha-vginv/vginverter.py:177-193 | after clear(), the dictionary holds the notifications of the completed writes (and of the settle wait when all writes complete), and the trace is the completed writes followed by what Finish says |
| PollCycle.RequestAll | ha-vginv/vginverter.py:179-183 | the write loop stops at the first raising write, issues the completed writes with their pauses and then that write, and absorbs the notifications heard up to then |
| PollCycle.PublishValues | ha-vginv/vginverter.py:190-193 | the value publishes follow the dictionary's insertion order, one per name |
| PollCycle.Run | ha-vginv/vginverter.py:158-207 | repeated cycles leave a snapshot whose key order lists exactly its stored names |
| PollCycle.PollUps | ha-vginv/vginverter.py:157-207 | the loop returns the trace of Run and leaves the dictionary as Run says |
| PollCycle.QuietMiddle | ha-vginv/vginverter.py:179-193 | the write loop and the value publishes never publish availability and never disconnect |
| PollCycle.AvailabilityPublished | ha-vginv/vginverter.py:166-205 | "online" is published once exactly when the client connected, "offline" once exactly when the cycle failed, and disconnect is called once exactly when is_connected holds at cleanup |
| PollCycle.GuardedBlockQuiet | ha-vginv/vginverter.py:164-193 | the inner try publishes "online" only when connected, never "offline", and never disconnects |
| PollCycle.OpeningCounts | ha-vginv/vginverter.py:166-175 | the opening steps publish "online" once and neither publish "offline" nor disconnect |
| PollCycle.FinishQuiet | ha-vginv/vginverter.py:182-193 | the steps after the writes never publish availability and never disconnect |
| PollCycle.GuardedWriteFailure | ha-vginv/vginverter.py:177-183 | when write k raises, the inner try issues the opening steps, the first k writes with pauses and write k, and keeps only the notifications heard until then |
| PollCycle.GuardedSuccess | ha-vginv/vginverter.py:164-193 | when nothing in the inner try raises, it issues the opening, every write, the 2 s wait, stop_notify and the value publishes of what was heard after clear() |
| PollCycle.GuardedStopFailure | ha-vginv/vginverter.py:185-187 | when stop_notify raises, the inner try ends with it and publishes no value |
| PollCycle.ConnectFailureCycle | ha-vginv/vginverter.py:166-207 | a failed connect or check publishes no "online", writes nothing, publishes "offline" once, waits 10 s then 20 s, and keeps the old snapshot |
| PollCycle.WriteFailureCycle | ha-vginv/vginverter.py:172-205 | when write k raises, "online" and "offline" are each published once, exactly the first k+1 requests are written, no value is published, and the snapshot holds what was heard before the failure |
| PollCycle.CycleWrites | ha-vginv/vginverter.py:195-207 | the cleanup and the except branch write nothing |
| PollCycle.WritesUpToFailure | ha-vginv/vginverter.py:179-183 | a failure at write k has written the first k+1 requests |
| PollCycle.SuccessfulCycle | ha-vginv/vginverter.py:164-207 | a cycle that does not fail is: connect, "online", subscribe, every write with its pause, 2 s wait, stop_notify, the values heard after clear() in dictionary order, cleanup, 20 s; it writes every request in order and publishes no "offline" |
| PollCycle.ClosingAfterSuccess | ha-vginv/vginverter.py:195-207 | a cycle that does not fail ends with the cleanup and the 20 s wait only |
| PollCycle.WritesOfCompleteBlock | ha-vginv/vginverter.py:166-193 | a complete inner try writes exactly all requests in order |
| PollCycle.EventsIgnorePriorSnapshot | ha-vginv/vginverter.py:177 | the trace never depends on the previous snapshot, and once the clear runs neither does the new one |
| PollCycle.ValueTopicsAnnounced | ha-vginv/vginverter.py:191 | every number published goes to a state topic that the discovery records announce (built the same way at line 114) |
| PollCycle.NumbersOnlyInValues | ha-vginv/vginverter.py:185-193 | numbers are published only when the whole inner try succeeds, and then only the snapshot's values |
| PollCycle.ValuesFromRegistry | ha-vginv/vginverter.py:190-192 | every value publish goes to the state topic of some table entry |
| PollCycle.NameFromTable | ha-vginv/vginverter.py:147-152 | every name stored in a snapshot built from empty is the name of some table entry |
| PollCycle.MainsVoltagePublished | ha-vginv/vginverter.py:190-192 | a lone mains-voltage reply 64 00 is published as 10.00 on home/ups/mains_voltage, not retained |
| PollCycle.MainsVoltageSnapshot | ha-vginv/vginverter.py:147-152 | a lone mains-voltage reply 64 00 leaves the snapshot holding only Mains Voltage at 10.00 |
| PollCycle.AnsweredSensorsPublished | ha-vginv/vginverter.py:190-192 | in a cycle whose inner try succeeds, every sensor that answered after clear() has its value published on its state topic |
| PollCycle.FailedCycles | ha-vginv/vginverter.py:200-205 | at most one failure per cycle |
| PollCycle.ConnectedCycles | ha-vginv/vginverter.py:166-172 | at most one connection per cycle |
| PollCycle.RunAvailability | ha-vginv/vginverter.py:158-207 | over many cycles "online" is published once per connected cycle and "offline" once per failed cycle |
| PollCycle.OutageCounts | ha-vginv/vginverter.py:166-170 | cycles that do not connect all fail and none connects |
| PollCycle.ReconnectsAfterOutage | ha-vginv/vginverter.py:158-207 | after a run of failed connects and one good cycle, "offline" is published once per failed cycle, "online" once, and the snapshot holds only the good cycle's readings |
| PollCycle.OutageAvailability | ha-vginv/vginverter.py:166-205 | the availability counts of an outage followed by one good cycle |
| PollCycle.OutageSnapshot | ha-vginv/vginverter.py:177 | after a good cycle the snapshot holds only that cycle's readings, whatever came before |
| PollCycle.Appended | ha-vginv/vginverter.py:158-207 | one more cycle changes the snapshot as that cycle does and adds its own failure and connection to the counts |
| ReadAll.ProbesWellFormed | ha-vginv/read-all.py:12-38 | 25 entries with distinct 6-byte prefixes, every divisor 1 |
| ReadAll.ProbeRequests | ha-vginv/read-all.py:41 | 25 requests, each 8 bytes, equal to its prefix followed by FF FF, stripping back to it, all distinct |
| ReadAll.Handle | ha-vginv/read-all.py:43-55 | every notification prints two lines, the first its hex dump |
| ReadAll.HandleReports | ha-vginv/read-all.py:46-55 | the second line is a value exactly when the prefix is registered, from the first matching entry and rounded raw/divisor; otherwise it reports the frame as unknown |
| ReadAll.ShownIsRaw | ha-vginv/read-all.py:46-53 | with divisor 1 the printed value is the little-endian number in the last two bytes |
| ReadAll.MainsProbeExample | ha-vginv/read-all.py:43-53 | FF FF FF 08 0C 01 E6 00 prints its hex dump then 230 |
| ReadAll.UnknownProbeExample | ha-vginv/read-all.py:54-55 | an opcode missing from the table is reported as an unknown response |
| ReadAll.NotAProbe | ha-vginv/read-all.py:12-38 | no entry of the diagnostic table has the opcode FFFFFF0A0C01 |
| ReadAll.TranscriptAppend | ha-vginv/read-all.py:43-55 | the lines printed for two batches are the lines of each, concatenated |
| ReadAll.TranscriptAt | ha-vginv/read-all.py:43-55 | notification k prints lines 2k and 2k+1, its hex dump and its decoding |
| ReadAll.RunSession | ha-vginv/read-all.py:57-73 | the trace, printed lines and exit of `main` are those Expected gives for the script |
| ReadAll.Communicate | ha-vginv/read-all.py:64-73 | after subscribing, the trace and lines are those Exchange gives |
| ReadAll.WriteRequests | ha-vginv/read-all.py:66-70 | the write loop stops at the first raising write and issues the completed writes with pauses (then the raising write and the disconnect on leaving the context manager), collecting the notifications heard up to then |
| ReadAll.AlwaysDisconnects | ha-vginv/read-all.py:58-73 | the session always starts with connect and ends with disconnect unless connect itself raised |
| ReadAll.NotConnectedReturns | ha-vginv/read-all.py:59-61 | when not connected the session neither subscribes nor writes, prints only the notice, and returns normally unless disconnect raises |
| ReadAll.FullSession | ha-vginv/read-all.py:57-73 | a session without errors subscribes, writes every request once in order with 0.5 s pauses, waits 2 s, unsubscribes and disconnects, and prints two lines per notification heard |
| ReadAll.WritesOfCompleteSession | ha-vginv/read-all.py:64-73 | a complete session writes exactly all requests in order |
| ReadAll.WriteFailureSession | ha-vginv/read-all.py:66-70 | when write k raises, exactly the first k+1 requests are written, the session ends raised with a disconnect and never unsubscribes |
| ReadAll.NoStopNotifyAfterFailure | ha-vginv/read-all.py:66-73 | a session whose write k raises never unsubscribes and ends with the disconnect |

## Left out

- Bluetooth: `BleakClient` is replaced by the `Script` of outcomes in
  `Transport`. Its connection, GATT writes and notification threads are not
  modelled.
- Notification timing: notifications arrive only at the await points the
  model provides. These are before `clear()`, after each write's pause and
  during the 2 s wait. Arrival in the middle of a call, and a notification
  racing with `clear()`, are not modelled.
- MQTT:
  - `paho` is reduced to a `Publish` event in the trace, or to the message
    list of `on_connect`. A publish that raises is not modelled.
  - The broker connection in `main` (`ha-vginv/vginverter.py:210-239`), the
    background network loop, and the `on_disconnect` reconnect after
    `time.sleep(5)` are left out. They belong to the network layer.
- Time: `asyncio.sleep` and `time.sleep` are `Sleep` events counted in
  tenths of a second. `time.strftime` is left out.
- `while True`: `PollUps` runs one cycle per given script, so the model
  covers every finite prefix of the infinite loop, not the loop itself.
- Readings.Hundredths: the division and `round(..., 2)` are exact rational
  arithmetic with ties to even. The source uses floating point, where a
  decimal tie is usually not exact, so a float result can differ from the
  model in the last digit.
- ReadAll.HandleReports: `:.0f` is modelled on the exact quotient with ties
  to even. With divisor 1 this is the raw value itself (`ShownIsRaw`).
- Topics.Lower: only ASCII capitals are lowered. Python's `str.lower` also
  covers non-ASCII letters, but every name in the tables is ASCII.
- JSON: the discovery payloads are records (`Payload.SensorConfig`,
  `Payload.Text`). `json.dumps` is out.
- A published value is modelled as its integer count of hundredths. The
  model does not render a Python float to text.
- Configuration: the environment variables at `ha-vginv/vginverter.py:38-45`
  are not modelled. The Bluetooth address and the UUIDs take no part in any
  modelled step.
- `ha-vginv/read-all.py:4` calls `os.getenv` without importing `os`, so the
  script stops with a `NameError` before `main` runs. The model describes
  `main` as if `os` were imported.
- Logging: every `print` of `vginverter.py` is left out. The lines that
  `read-all.py` prints are modelled as `Line`s, because they are that
  program's output. Their interleaving with the transport calls is not
  modelled: `RunSession` returns the lines as a separate sequence.
- The `name` field of the diagnostic table (`read-all.py:67`) is never shown,
  so it takes no part in any statement.
- ReadAll.AlwaysDisconnects: assumes that the `async with` block disconnects
  on every exit except a failed connect. That is the behaviour of Bleak's
  context manager, whose code is not part of this model.
