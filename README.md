# SunSpec Modbus inverter hubs

This project models two copies of `ABBSunSpecModbusHub`, a SunSpec-over-Modbus/TCP
polling hub for photovoltaic inverters, and proves properties of the model.

- `custom_components/abb_sunspec_modbus/__init__.py` is the ABB three-phase, dual-MPPT
  copy. It reads 184 holding registers from unit 2 starting at register 72. On a successful
  read it decodes registers 72 to 163 and stores 22 keys.
- `custom_components/solaredge_modbus/__init__.py` is the SolarEdge copy. It reads
  38 registers starting at register 72. On a successful read it decodes all of them
  and stores three keys.

Each hub has two parts.

1. **Subscription lifecycle.** The hub keeps a list of update callbacks. The first
   subscriber connects the client and starts the poll timer. Removing the last one
   stops the timer and closes the client. A poll does nothing when nobody is
   subscribed. Otherwise it reads the block, decodes it, and calls every callback
   once, in subscription order, only when the read succeeded. The hub is a Dafny
   `class`. Its fields are the callback list, a `timerActive` flag, counters of
   `connect` and `close` calls, the requests sent, and the `data` dictionary. The
   invariant `Valid()` says the timer runs exactly while the list is non-empty, and
   that the client is connected exactly then.
2. **Register decoder.** The block is a `seq<Word>` of 16-bit words (index 0 is
   register 72). A cursor moves through it using four primitives: unsigned 16-bit,
   two's-complement 16-bit, 32-bit with the high word first, and skip `n` bytes
   (`n / 2` registers). The decoder writes into `data` one key at a time, as the
   source does. Each decoder that returns True is proved equal to
   `old(data) + InverterSnapshot(regs)`. When the ABB energy conversion raises, the
   result is `old(data) + AcMeasurementSnapshot(regs)` (see below).
   `InverterSnapshot` is an independent reference written by register address.

A scaled value `v` with scale factor `sf` is stored exactly as the pair
`Scaled(v, sf)`, which stands for `v * 10^sf`. Status registers are stored as
`Code(n)`. Lemmas show that the pair stands exactly for what the source stores:
`round(calculate_value(v, sf), abs(sf))`, with Python's round-half-even applied to
exact reals. The energy counter is stored as `round(x * 0.001, 3)`, in
kilowatt-hours. In exact arithmetic these roundings lose nothing.

The keys of `data` are the enumeration `Key`. `Name()` gives the source's string for
each key, and `KeyNamed` is its inverse. This means `data` can hold only keys the
decoder writes. That matches the source, where the decoder is the only writer.

The Modbus client is not modelled. Each poll takes the client's answer as a
parameter: either `ErrorResponse` or `RegisterBlock(words)`. The hub records each
request it would send in `requests`.

Some behaviour of the code is easy to miss, and the model follows it:

- `async_remove_abb_sunspec_sensor` calls `list.remove`, which raises `ValueError`
  for a callback that is not subscribed. The model returns `ok == false` in that
  case and changes nothing.
- `async_add_abb_sunspec_sensor` appends without checking. A callback added twice
  is in the list twice and is notified twice per poll.
- The decoder writes `data` key by key into the dictionary it already has, so keys
  from earlier polls stay. The SolarEdge copy writes only three keys.
- The model requires the block to be as long as the layout consumes.
  `BinaryPayloadDecoder` fails on a shorter payload.
- Line 316 of the ABB copy has a comment saying registers 128 to 133 are skipped.
  The code skips 26 bytes, which is registers 128 to 140. The model follows the code.
- In the ABB copy, `calculate_value(acenergy, acenergysf)` at line 276 is the exact
  Python integer `e * 10 ** sf`, because the scale factor is read unsigned. Line 277
  multiplies it by the float `0.001`. That converts the integer to a double, which
  raises `OverflowError` once it reaches 2^1024 - 2^970. For a 32-bit counter this
  never happens while sf is at most 298. It always happens once sf is 309 or more
  and the counter is non-zero. By then lines 231 to 268 have already written the
  twelve AC values. No value from the counter on is written, the read returns
  nothing, and the exception ends the poll before any callback runs. The ABB
  methods report this as `raised`, or as the `RaisedOverflow` outcome.

The SolarEdge copy has two defects:

- Line 207 calls `read_holding_registers(address=72, count=38)` without `unit`.
  The helper's signature at line 163 gives `unit` no default, so the call raises
  `TypeError` before any request is sent. As written, every poll with a subscriber
  raises, `data` never changes and no callback is invoked.
  `AsyncRefreshModbusDataAsWritten` and the two read methods it calls model that
  behaviour. The other methods model the evidently intended call, addressed to the
  hub's configured unit (see "## Findings").
- The constructor at lines 95-103 takes `unitid`, but `async_setup_entry` (lines
  62-64) passes only five arguments. The model's constructor takes the unit id.

## Model

| member | source | states |
|---|---|---|
| Registers.S16 | custom_components/abb_sunspec_modbus/__init__.py:226 | a two's-complement register read is in [-32768, 32768), is congruent to the word mod 65536, and is negative exactly when the word is at least 32768 |
| Registers.S16RoundTrip | custom_components/abb_sunspec_modbus/__init__.py:259 | S16 and its encoding are inverse in both directions |
| Registers.U32 | custom_components/abb_sunspec_modbus/__init__.py:274 | the 32-bit read is below 2^32, and its high and low halves are the first and second words |
| Registers.DecodeU16 | custom_components/abb_sunspec_modbus/__init__.py:222 | reads the word at the cursor as an unsigned value and advances the cursor by one |
| Registers.DecodeS16 | custom_components/abb_sunspec_modbus/__init__.py:226 | reads the word at the cursor as two's complement and advances the cursor by one |
| Registers.DecodeU32 | custom_components/abb_sunspec_modbus/__init__.py:274 | reads two words high-first as an unsigned 32-bit value and advances the cursor by two |
| Registers.SkipBytes | custom_components/abb_sunspec_modbus/__init__.py:271 | skipping n bytes advances the cursor by n / 2 registers |
| Scaling.CalculateValue | custom_components/abb_sunspec_modbus/__init__.py:173-174 | value * 10^sf: undoing the scaling gives the raw value back, and a non-negative sf gives the whole number value * 10^sf |
| Scaling.Pow10 | custom_components/abb_sunspec_modbus/__init__.py:174 | 10 ** sf is positive, and for a non-negative sf it is the whole number 10^sf |
| Scaling.FloatOverflows | custom_components/abb_sunspec_modbus/__init__.py:277 | an integer used in float arithmetic raises OverflowError exactly when its magnitude is at least 2^1024 - 2^970, the midpoint above the largest double; OverflowBoundBetween places that bound in [2^1023, 2^1024) |
| Scaling.FitsInDouble | custom_components/abb_sunspec_modbus/__init__.py:276-277 | for a 32-bit counter e and a scale factor sf of at most 298, e * 10^sf stays below the least integer a double cannot hold, 2^1024 - 2^970 |
| Scaling.OverflowsDouble | custom_components/abb_sunspec_modbus/__init__.py:276-277 | for a non-zero counter e and a scale factor sf of at least 309, e * 10^sf is at least 2^1024 - 2^970, so its conversion to a double raises |
| Scaling.OverflowBoundBetween | custom_components/abb_sunspec_modbus/__init__.py:277 | the overflow threshold 2^1024 - 2^970 lies between 2^1023 and 2^1024 |
| Scaling.RoundHalfEven | custom_components/abb_sunspec_modbus/__init__.py:231 | Python's round to an integer is within one half of its argument, breaks a tie towards the even neighbour, and is the identity on whole numbers |
| Scaling.Round | custom_components/abb_sunspec_modbus/__init__.py:231 | round(x, d) has at most d decimals, moves x by at most half a unit in the d-th decimal, and leaves a value with at most d decimals unchanged |
| Scaling.ScaledIsDecimal | custom_components/abb_sunspec_modbus/__init__.py:227-231 | v * 10^sf never has more than abs(sf) decimals |
| Scaling.RoundedValue | custom_components/abb_sunspec_modbus/__init__.py:227-234 | round(calculate_value(v, sf), abs(sf)) equals calculate_value(v, sf) exactly |
| Scaling.RoundedKilo | custom_components/abb_sunspec_modbus/__init__.py:277 | round(x * 0.001, 3) of a whole number of watt-hours is exactly x / 1000 |
| Scaling.Pow10Kilo | custom_components/abb_sunspec_modbus/__init__.py:276-277 | 10^(sf - 3) * 1000 = 10^sf for every unsigned scale factor |
| Scaling.StoredScaled | custom_components/abb_sunspec_modbus/__init__.py:227-234 | the stored pair (v, sf) stands for exactly round(calculate_value(v, sf), abs(sf)) |
| Scaling.StoredKilo | custom_components/abb_sunspec_modbus/__init__.py:274-277 | the stored pair (e, sf - 3) stands for exactly round(calculate_value(e, sf) * 0.001, 3) |
| Modbus.ReadHoldingRegisters | custom_components/abb_sunspec_modbus/__init__.py:167-171 | the unit keyword is sent exactly when the unit id is truthy (non-zero), and the address and count are passed through |
| Modbus.CallReadHoldingRegisters | custom_components/solaredge_modbus/__init__.py:163-166 | a call that leaves out unit sends no request (TypeError, since the three parameters have no defaults); a call with a unit sends exactly the helper's request |
| Subscriptions.IndexOf | custom_components/abb_sunspec_modbus/__init__.py:133 | the position list.remove deletes: the first occurrence of the callback |
| Subscriptions.RemoveFirst | custom_components/abb_sunspec_modbus/__init__.py:133 | list.remove drops exactly one occurrence: the length falls by one and the multiset loses one copy |
| Subscriptions.RemoveFirstSlices | custom_components/abb_sunspec_modbus/__init__.py:133 | list.remove keeps everything before and after the first occurrence, in order |
| Subscriptions.RemoveAfterAppend | custom_components/abb_sunspec_modbus/__init__.py:128-133 | subscribing a new callback and then unsubscribing it restores the list |
| Subscriptions.RemoveBeforeAppend | custom_components/abb_sunspec_modbus/__init__.py:128-133 | removing an earlier callback after an append is the same as removing it first and then appending |
| AbbSunSpecModbus.NameRoundTrip | custom_components/abb_sunspec_modbus/__init__.py:231-342 | every key's dictionary string names that key back, so the 22 keys have distinct strings |
| AbbSunSpecModbus.KeyNamedRoundTrip | custom_components/abb_sunspec_modbus/__init__.py:231-342 | a string that names a key is that key's dictionary string |
| AbbSunSpecModbus.TempcabHasNoKey | custom_components/abb_sunspec_modbus/__init__.py:289-296 | the cabinet temperature is decoded but has no key in data |
| AbbSunSpecModbus.InverterRequest | custom_components/abb_sunspec_modbus/__init__.py:215 | the request goes to unit 2 from register 72 for 184 registers, enough to cover the 92 the layout consumes |
| AbbSunSpecModbus.InverterSnapshot | custom_components/abb_sunspec_modbus/__init__.py:221-342 | the reference decode by register address that every decoder contract names; it has no contract of its own, and its key set is stated by SnapshotKeySet and SnapshotKeyCount and its values by the four value lemmas |
| AbbSunSpecModbus.AcMeasurementSnapshot | custom_components/abb_sunspec_modbus/__init__.py:221-268 | the twelve AC values, by address 72..87: exactly the keys accurrent to acfreq |
| AbbSunSpecModbus.AcAgrees | custom_components/abb_sunspec_modbus/__init__.py:221-268 | each of the twelve AC values written before the energy counter is the value the full snapshot holds for that key, so the value lemmas also describe what stays in data when the energy conversion raises |
| AbbSunSpecModbus.FrontWritesMakeSnapshot | custom_components/abb_sunspec_modbus/__init__.py:221-268 | the first twelve writes, by cursor in the decoder's order, equal the old data merged with the twelve AC values by address |
| AbbSunSpecModbus.EnergyOverflows | custom_components/abb_sunspec_modbus/__init__.py:274-277 | the energy conversion raises exactly when U32(94, 95) * 10^u16(96) is at least the double overflow bound; where that happens is stated by EnergyOverflowThresholds, and every RaisedOverflow contract of the hub is written with it |
| AbbSunSpecModbus.EnergyOverflowThresholds | custom_components/abb_sunspec_modbus/__init__.py:273-277 | the energy conversion never raises for a scale factor up to 298 and always raises for a non-zero counter once the scale factor is 309 or more |
| AbbSunSpecModbus.SnapshotKeySet | custom_components/abb_sunspec_modbus/__init__.py:221-342 | a successful decode writes every one of the 22 keys and no others |
| AbbSunSpecModbus.SnapshotKeyCount | custom_components/abb_sunspec_modbus/__init__.py:231-342 | the decoder stores 22 distinct keys |
| AbbSunSpecModbus.KeysPartition | custom_components/abb_sunspec_modbus/__init__.py:231-342 | the keys written before the energy counter and those written from it on are disjoint and together are all 22 |
| AbbSunSpecModbus.AcMeasurementKeyCount | custom_components/abb_sunspec_modbus/__init__.py:231-268 | 12 keys are written before the energy counter |
| AbbSunSpecModbus.LaterKeyCount | custom_components/abb_sunspec_modbus/__init__.py:277-342 | 10 keys are written from the energy counter on |
| AbbSunSpecModbus.WritesMerge | custom_components/abb_sunspec_modbus/__init__.py:231-342 | the 23 writes in the decoder's order, with the first mppt1curr overwritten, merge the 22 values into the old dictionary |
| AbbSunSpecModbus.WritesMakeSnapshot | custom_components/abb_sunspec_modbus/__init__.py:221-342 | the writes made by the cursor walk equal the old data merged with the snapshot by register address, so every field is read at the register the layout names |
| AbbSunSpecModbus.CurrentAndVoltageValues | custom_components/abb_sunspec_modbus/__init__.py:221-256 | the four currents are u16 of 72..75 scaled by s16 of 76, and the six voltages are u16 of 77..82 scaled by s16 of 83, as the source rounds them |
| AbbSunSpecModbus.PowerFrequencyAndStatusValues | custom_components/abb_sunspec_modbus/__init__.py:258-306 | acpower is s16(84) * 10^s16(85), acfreq is u16(86) * 10^s16(87), dcpower is s16(101) * 10^s16(102), and status and statusvendor are the raw s16 of 108 and 109 |
| AbbSunSpecModbus.EnergyValue | custom_components/abb_sunspec_modbus/__init__.py:273-277 | acenergy is round(calculate_value(reg94 * 65536 + reg95, u16(reg96)) * 0.001, 3), with the scale factor read unsigned |
| AbbSunSpecModbus.MpptValues | custom_components/abb_sunspec_modbus/__init__.py:292-342 | mppt1 comes from 141..143 and mppt2 from 161..163, scaled by the factors at 125..127; the final mppt1curr is reg 141 scaled by dcasf, not the earlier write from 106 |
| AbbSunSpecModbus.DecodeIdempotent | custom_components/abb_sunspec_modbus/__init__.py:214-346 | decoding the same block twice leaves data as decoding it once, whatever data held before, since a decode only overwrites its own keys with values of the block |
| AbbSunSpecModbus.CurrentExample | custom_components/abb_sunspec_modbus/__init__.py:221-234 | raw current 100 with scale factor -1 is stored as 10.0 |
| AbbSunSpecModbus.ABBSunSpecModbusHub.constructor | custom_components/abb_sunspec_modbus/__init__.py:99-116 | a new hub has no subscribers, no timer, an unconnected client and empty data |
| AbbSunSpecModbus.ABBSunSpecModbusHub.Connect | custom_components/abb_sunspec_modbus/__init__.py:162-165 | one client connect |
| AbbSunSpecModbus.ABBSunSpecModbusHub.Close | custom_components/abb_sunspec_modbus/__init__.py:157-160 | one client close |
| AbbSunSpecModbus.ABBSunSpecModbusHub.AsyncAddAbbSunspecSensor | custom_components/abb_sunspec_modbus/__init__.py:118-128 | the callback is appended last (the length grows by one); the first subscriber connects once and starts the timer, later ones only append; Valid is kept |
| AbbSunSpecModbus.ABBSunSpecModbusHub.AsyncRemoveAbbSunspecSensor | custom_components/abb_sunspec_modbus/__init__.py:130-139 | one occurrence is removed; the timer stops and the client closes exactly when the list becomes empty; an absent callback is the ValueError case (ok is false, nothing changes); Valid is kept |
| AbbSunSpecModbus.ABBSunSpecModbusHub.AsyncRefreshModbusData | custom_components/abb_sunspec_modbus/__init__.py:141-150 | with no subscribers nothing is read; otherwise one request is sent. `raised` holds exactly when a block came back whose energy conversion overflows; then the twelve AC values are merged into data and nobody is notified. Otherwise every callback is notified once in list order exactly when the read succeeded, with the full snapshot merged then and data unchanged after an error response |
| AbbSunSpecModbus.ABBSunSpecModbusHub.ReadModbusData | custom_components/abb_sunspec_modbus/__init__.py:181-184 | the read step reads only the inverter block: False for an error response, the overflow when the energy conversion raises, True otherwise, with the matching data |
| AbbSunSpecModbus.ABBSunSpecModbusHub.ReadModbusDataInverter | custom_components/abb_sunspec_modbus/__init__.py:214-346 | sends read(unit 2, address 72, count 184); an error response returns False with data unchanged; an overflowing energy conversion raises after merging the twelve AC values; otherwise returns True, ends the cursor at 92 <= 184 and merges the full snapshot |
| AbbSunSpecModbus.ABBSunSpecModbusHub.DecodeInverterRegisters | custom_components/abb_sunspec_modbus/__init__.py:219-342 | reports an overflow exactly when the energy conversion raises, leaving the old data merged with the twelve AC values; otherwise the walk ends at 92 and the old data is merged with the snapshot by address |
| AbbSunSpecModbus.ABBSunSpecModbusHub.DecodeAcRegisters | custom_components/abb_sunspec_modbus/__init__.py:221-306 | the walk over registers 72..109 makes the decoder's writes for them, in order, and ends at cursor 38; when the energy conversion raises only the first twelve writes are made |
| AbbSunSpecModbus.ABBSunSpecModbusHub.DecodeMpptRegisters | custom_components/abb_sunspec_modbus/__init__.py:308-342 | the walk over registers 110..163 makes the MPPT writes, in order, and ends at cursor 92 |
| AbbSunSpecModbus.ABBSunSpecModbusHub.DecodeAcMeasurements | custom_components/abb_sunspec_modbus/__init__.py:221-268 | the walk over 72..87 makes the twelve AC writes in order and ends at cursor 16 |
| AbbSunSpecModbus.ABBSunSpecModbusHub.DecodeEnergyToStatus | custom_components/abb_sunspec_modbus/__init__.py:270-306 | after skipping 88..93, reports an overflow exactly when the energy conversion raises and then writes nothing; otherwise makes the writes for 94..109 in order and ends at cursor 38 |
| AbbSunSpecModbus.ABBSunSpecModbusHub.DecodeDcAndStatus | custom_components/abb_sunspec_modbus/__init__.py:279-306 | thirteen registers are consumed: dcpower, the value at 106 stored as mppt1curr, status and statusvendor are written |
| AbbSunSpecModbus.ABBSunSpecModbusHub.DecodeAcCurrents | custom_components/abb_sunspec_modbus/__init__.py:221-234 | five registers are read and the four currents are written with the shared scale factor |
| AbbSunSpecModbus.ABBSunSpecModbusHub.DecodeAcVoltages | custom_components/abb_sunspec_modbus/__init__.py:237-256 | seven registers are read and the six voltages are written with the shared scale factor |
| AbbSunSpecModbus.ABBSunSpecModbusHub.DecodeAcPowerAndFrequency | custom_components/abb_sunspec_modbus/__init__.py:258-268 | signed acpower and unsigned acfreq are written, each with its own scale factor |
| AbbSunSpecModbus.ABBSunSpecModbusHub.DecodeAcEnergy | custom_components/abb_sunspec_modbus/__init__.py:273-277 | the 32-bit counter is written with its unsigned scale factor, moved three decimals for kilowatt-hours; when counter * 10^sf is too large for a double the conversion raises and nothing is written |
| AbbSunSpecModbus.ABBSunSpecModbusHub.DecodeDcPower | custom_components/abb_sunspec_modbus/__init__.py:282-286 | signed dcpower is written with its scale factor |
| AbbSunSpecModbus.ABBSunSpecModbusHub.DecodeTemperatureBlock | custom_components/abb_sunspec_modbus/__init__.py:288-298 | five registers are consumed; tempcab is dropped and mppt1curr is written from s16(106) with the scale factor at 107 |
| AbbSunSpecModbus.ABBSunSpecModbusHub.DecodeStatus | custom_components/abb_sunspec_modbus/__init__.py:300-306 | status and statusvendor are written raw |
| AbbSunSpecModbus.ABBSunSpecModbusHub.DecodeMppt | custom_components/abb_sunspec_modbus/__init__.py:319-342 | one MPPT channel's current, voltage and power are written with the shared DC scale factors |
| SolarEdgeModbus.EnergyValue | custom_components/solaredge_modbus/__init__.py:263-265 | acenergy is round((reg94 * 65536 + reg95) * 0.001, 3); no scale-factor register is applied |
| SolarEdgeModbus.EnergyExample | custom_components/solaredge_modbus/__init__.py:263-265 | a counter of 123456 is stored as 123.456 |
| SolarEdgeModbus.InverterRequest | custom_components/solaredge_modbus/__init__.py:207 | the intended request goes from register 72 for exactly the 38 registers the layout consumes, with the unit keyword exactly when the hub's unit id is non-zero |
| SolarEdgeModbus.InverterRequestAsWritten | custom_components/solaredge_modbus/__init__.py:207 | the call exactly as written, with address and count but without the unit argument; AsWrittenCallRaises states that it yields no request (TypeError) |
| SolarEdgeModbus.AsWrittenCallRaises | custom_components/solaredge_modbus/__init__.py:207 | the call as written, without unit, sends no request |
| SolarEdgeModbus.InverterSnapshot | custom_components/solaredge_modbus/__init__.py:263-296 | the reference decode has exactly the keys acenergy, status and statusvendor |
| SolarEdgeModbus.DecodeIdempotent | custom_components/solaredge_modbus/__init__.py:206-300 | decoding the same block twice leaves data as decoding it once, whatever data held before, since a decode only overwrites its own keys with values of the block |
| SolarEdgeModbus.SnapshotKeySet | custom_components/solaredge_modbus/__init__.py:265-296 | a successful decode writes exactly acenergy, status and statusvendor |
| SolarEdgeModbus.WritesMakeSnapshot | custom_components/solaredge_modbus/__init__.py:263-296 | the three writes at cursor positions 22, 36 and 37 equal the old data merged with the snapshot by address (94-95, 108, 109) |
| SolarEdgeModbus.DecodeAcMeasurements | custom_components/solaredge_modbus/__init__.py:213-262 | the AC fields of 72..93 are decoded and dropped, and the cursor ends at 22 |
| SolarEdgeModbus.DecodeDcMeasurements | custom_components/solaredge_modbus/__init__.py:267-291 | DC current, voltage and power and the heat-sink temperature are decoded and dropped; the cursor advances by 11 registers, from 97 to 108 |
| SolarEdgeModbus.ABBSunSpecModbusHub.constructor | custom_components/solaredge_modbus/__init__.py:95-112 | a new hub records its unit id and has no subscribers, no timer and empty data |
| SolarEdgeModbus.ABBSunSpecModbusHub.Connect | custom_components/solaredge_modbus/__init__.py:158-161 | one client connect |
| SolarEdgeModbus.ABBSunSpecModbusHub.Close | custom_components/solaredge_modbus/__init__.py:153-156 | one client close |
| SolarEdgeModbus.ABBSunSpecModbusHub.AsyncAddAbbSunspecSensor | custom_components/solaredge_modbus/__init__.py:114-124 | the first subscriber connects and starts the timer, later ones only append; Valid is kept |
| SolarEdgeModbus.ABBSunSpecModbusHub.AsyncRemoveAbbSunspecSensor | custom_components/solaredge_modbus/__init__.py:126-135 | removing the last callback stops the timer and closes; removing any other leaves the timer and connection alone; an absent callback changes nothing |
| SolarEdgeModbus.ABBSunSpecModbusHub.AsyncRefreshModbusData | custom_components/solaredge_modbus/__init__.py:137-146 | nothing happens with no subscribers; otherwise callbacks are notified in order exactly when the read succeeded |
| SolarEdgeModbus.ABBSunSpecModbusHub.ReadModbusData | custom_components/solaredge_modbus/__init__.py:174-177 | the read step reads only the inverter block and returns its result |
| SolarEdgeModbus.ABBSunSpecModbusHub.ReadModbusDataInverter | custom_components/solaredge_modbus/__init__.py:206-300 | sends read(unit id, address 72, count 38); an error response returns False with data unchanged; success returns True with the cursor at exactly 38, the requested count |
| SolarEdgeModbus.ABBSunSpecModbusHub.AsyncRefreshModbusDataAsWritten | custom_components/solaredge_modbus/__init__.py:137-146 | as written at line 207, a poll raises exactly when someone is subscribed, notifies nobody, and changes nothing (it modifies no field) |
| SolarEdgeModbus.ABBSunSpecModbusHub.ReadModbusDataAsWritten | custom_components/solaredge_modbus/__init__.py:174-177 | as written, the read step always raises |
| SolarEdgeModbus.ABBSunSpecModbusHub.ReadModbusDataInverterAsWritten | custom_components/solaredge_modbus/__init__.py:206-207 | as written, the call without unit raises before a request is sent or a response decoded |
| SolarEdgeModbus.ABBSunSpecModbusHub.DecodeInverterRegisters | custom_components/solaredge_modbus/__init__.py:213-296 | the walk consumes exactly 38 registers and leaves data equal to the old data merged with acenergy, status and statusvendor; status is read after skipping 105..107 |

## Left out

- The Modbus/TCP client is not modelled: its connect, close and read are socket I/O, and the read's result is a parameter of each poll.
- The `threading.Lock` around client calls and the asyncio timer from `async_track_time_interval` are not modelled, because their point is concurrency and scheduling. The timer is the `timerActive` flag, and a poll is a method call.
- `BinaryPayloadDecoder` is a foreign library and its behaviour on short payloads is not modelled. The decoders require the block to be at least as long as the layout consumes (92 registers for ABB, 38 for SolarEdge).
- Registers.SkipBytes: requires an even byte count, because both layouts skip only whole registers.
- Python floating point is modelled only where it raises: the ABB energy conversion at line 277. Elsewhere `10 ** sf`, `* 0.001` and `round` are exact real arithmetic, so float representation error is outside the model. This includes the underflow of `10 ** sf` to 0.0 for a scale factor below -323.
- `async_setup`, `async_setup_entry`, `async_unload_entry`, the voluptuous schemas and the `hass.data` registry are host-framework glue and are not modelled.
- `read_modbus_data_stub` and `read_modbus_data_inverter_stub` only fill constants and are never called.
- The `name` property is the hub's `name` constant.
- `custom_components/abb_powerone_pvi_sunspec/sensor.py` and `custom_components/abb_sunspec_modbus/const.py` are the presentation layer and display metadata, and they are not part of this model.
- SolarEdgeModbus.ABBSunSpecModbusHub.constructor: takes the unit id as its signature does. The five-argument call in `async_setup_entry` is glue and is not modelled.
- The decoded values that the code never stores are read only to move the cursor: `tempcab` in the ABB copy, and all fields except energy and status in the SolarEdge copy.

## Findings

| source | as written | input that shows it | evidently intended | confidence | as-written member | corrected member |
|---|---|---|---|---|---|---|
| custom_components/solaredge_modbus/__init__.py:207 | `read_holding_registers(address=72, count=38)` leaves out `unit`, which the helper at line 163 requires, so the call raises `TypeError` | any poll while one callback is subscribed | the request goes to the hub's unit id, from register 72 for 38 registers, so the three keys are decoded and the callbacks run. The unit here is a reconstruction: the configuration schema validates the unit id as a string (line 32), and the constructor never stores it on the hub but only passes `unit_id=unitid` to the client (line 106); the model stores it as an integer and sends the unit keyword exactly when it is non-zero, as the helper at line 166 would for a number | not executed; high | SolarEdgeModbus.ABBSunSpecModbusHub.AsyncRefreshModbusDataAsWritten | SolarEdgeModbus.ABBSunSpecModbusHub.AsyncRefreshModbusData |
