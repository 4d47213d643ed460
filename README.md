# Voltcraft PPS protocol engine in Dafny

A model of the protocol engine of the Python driver for Voltcraft PPS/DPPS
bench power supplies (`voltcraft/pps.py`). It covers four parts:

- The transport exchange `_query`. It writes a command and a carriage
  return, then reads the reply one byte at a time until "OK\r". A read that
  yields nothing or a NUL byte is a timeout, and a byte that cannot be
  decoded on its own raises.
- Identification of the supply in `PPS.__init__`. This is the GMAX query,
  the `PPS_MODELS` and `PPS_MIN_VOLTAGE` tables, and the optional reset and
  preset selection that follow.
- The command encoders SOUT, VOLT, CURR, SOVP, SOCP, PROM and RUNM, each
  with its saturation rule.
- The reply decoders GETD, GETM, GETS, GOVP and GOCP.

The serial port is a `SerialLine` object. It holds the bytes the device
will send, in order, and every line the host has written. Each driver
operation is a method of the `PPS` class. Each method states the lines it
writes and the bytes it consumes, and ties its result to a function of the
bytes the device sends. Those functions are the reference definitions:

- `Reply` and `Rest`: one exchange.
- `Converse`: a run of exchanges that stops at the first failure.
- `Handshake` and `Start`: construction.
- The encoders and decoders of `Codec`.

Lemmas about these functions state what the driver promises:

- round trips (`StoreThenLoad`, `PresetReadBack`, `ReadingRoundTrip`,
  `IdentifyRecognises`);
- saturation (`VoltageSaturates`, `CurrentSaturates`);
- the framing rules (`FirstStopDecides`, `FramedReply`, `NulTimesOut`,
  `GarbledByteFails`);
- the reset sequence (`SwitchOffCommands`, `StartRecognises`).

Quantities are kept in the device's own fixed-point units. Voltages are
tenths of a volt. A current field is hundredths of an amp on the supply
that answers GMAX with "362700" (`imult` = 100), and tenths on every other
supply (`imult` = 10). `Identity` records the supply's `vmax`, `vmin`,
`imult` and model. Its `imax` is in hundredths of an amp, so the current
limit in field units is `CurrentLimit(id)`. Every identified supply
satisfies `Supported`, which `IdentifiedBounds` proves. `Supported` says the
current multiplier is 10 or 100, and that every voltage and current field
fits three digits. The encoders are stated for such identities. A `PPS`
object exists only for an identified supply, so this costs nothing at any
call site.

Python exceptions become `Error` values:

| Python exception | Error value |
|---|---|
| `SerialTimeoutException` | `Timeout` |
| `UnicodeDecodeError` | `Undecodable` |
| `ValueError` from `int()` | `BadNumber` |
| `IndexError` | `ShortReply` |
| the three construction `RuntimeError`s | `NoDevice`, `UnknownModel`, `UnknownMinVoltage` |

The model follows the code where its behaviour is easy to misread:

- The docstring of `PPS.__init__` (pps.py:68) says a reset sets the voltage
  and current limit to 0. The code calls `voltage(0)`, which saturates at
  the supply's minimum, so a reset sends `VOLT` with the minimum voltage
  (for example `VOLT008`), not `VOLT000` (`SwitchOffCommands`).
- The GETD mode is `int(getd[8])`: CC when that character reads as a
  non-zero number, CV when it reads as 0 (`DecodeReadingOf`).
- The GMAX current field is always `gmax[3:6]`, and only the exact reply
  "362700" selects `imult` = 100 (`Identify`).
- A GMAX reply whose fields `int()` refuses raises from the `else` clause of
  the `try`. The port therefore stays open, while every other
  identification failure closes it (`HandshakeBadNumber`).
- Each byte is decoded as it is read, for the debug trace. This happens
  even when tracing is off. A byte of 128 or more therefore fails the
  exchange at once, before the NUL and "OK\r" checks (`GarbledByteFails`).
  The reply as a whole is then always ASCII.
- A carriage return on its own does not end a reply: only the three bytes
  "OK\r" do, so a payload may hold carriage returns (`FramedReply`).
- An unknown minimum voltage is an error path of its own in the code. The
  tables never reach it, because every model in `PPS_MODELS` has an entry
  in `PPS_MIN_VOLTAGE` (`MinVoltageOf`).

## Model

| member | source | states |
|---|---|---|
| Framing.Payload | voltcraft/pps.py:152 | the reply is everything read except the last four bytes, and is empty when fewer than four were read |
| Framing.ReadFromStopsFirst | voltcraft/pps.py:144-150 | the reader reads on past every byte before the first one that is NUL, not ASCII, or completes "OK\r" |
| Framing.ReadFromEnds | voltcraft/pps.py:144-150 | how a read ends: delivered right after an "OK\r" with the bytes read less four; failed on a byte of 128 or more; or timed out on a NUL or when the stream runs dry |
| Framing.ReadFromAscii | voltcraft/pps.py:145-146 | every byte a delivered reply was read from is ASCII |
| Framing.ReadFrom | voltcraft/pps.py:143-150 | the read loop after k bytes: it consumes at least those k bytes and no more than the stream holds |
| Framing.ReadFrame | voltcraft/pps.py:143-150 | the read loop from the first byte consumes no more than the stream holds |
| Framing.ReceivedAscii | voltcraft/pps.py:146-152 | a delivered reply is ASCII |
| Framing.Decode | voltcraft/pps.py:152 | decoding succeeds exactly when every byte is ASCII, and keeps each byte's code; otherwise it is Undecodable |
| Framing.Encode | voltcraft/pps.py:141 | str.encode() of ASCII text is ASCII bytes of the same length, each with its character's code |
| Framing.DecodeEncode | voltcraft/pps.py:141 | decoding the encoding of ASCII text gives back the text |
| Framing.Reply | voltcraft/pps.py:138-152 | an exchange fails only with Timeout, exactly when the read timed out, or with Undecodable, exactly when a byte could not be decoded |
| Framing.Rest | voltcraft/pps.py:143-150 | what an exchange leaves of the stream is a suffix of it |
| Framing.ReadStep | voltcraft/pps.py:144-150 | one pass of the read loop: end of stream or NUL times out; a non-ASCII byte fails; a byte completing "OK\r" delivers the decoded reply; any other byte reads on |
| Framing.FirstStopDecides | voltcraft/pps.py:144-150 | the first stopping byte alone decides the outcome and how much of the stream is consumed |
| Framing.ReadUntilStop | voltcraft/pps.py:144-150 | reading on from any byte before the first stop ends at that stop |
| Framing.FramedReply | voltcraft/pps.py:144-152 | a payload, one padding byte and "OK\r", with no NUL, no non-ASCII byte and no earlier "OK\r" (bare carriage returns allowed), are read up to the terminator and no further, and yield exactly the payload |
| Framing.NulTimesOut | voltcraft/pps.py:147-148 | a NUL before any terminator times the exchange out at that byte |
| Framing.GarbledByteFails | voltcraft/pps.py:146 | a non-ASCII byte before any terminator fails the exchange at that byte, consuming it |
| Framing.SilenceTimesOut | voltcraft/pps.py:144-148 | an ASCII stream with no NUL and no "OK\r" anywhere, carriage returns or not, is drained, and then the read times out |
| Framing.ReplyOfText | voltcraft/pps.py:141-152 | ASCII text, carriage returns included, sent with a padding byte and "OK\r" and holding no earlier "OK\r", is what the exchange returns, and only what follows is left |
| Framing.AckReply | voltcraft/pps.py:149-152 | a bare "OK\r" is the empty reply and consumes just three bytes |
| Framing.SerialLine.constructor | voltcraft/pps.py:74 | a freshly opened port: nothing written yet, and all of the device's bytes still to come |
| Framing.SerialLine.Write | voltcraft/pps.py:141 | writing appends one line and leaves the incoming bytes alone |
| Framing.SerialLine.Read1 | voltcraft/pps.py:145 | read(1) takes the next byte, or nothing once the device has stopped sending |
| Framing.SerialLine.Close | voltcraft/pps.py:82 | closing the port changes nothing else |
| Driver.Exchange | voltcraft/pps.py:138-152 | _query writes cmd + CR, consumes exactly the bytes the read loop reads, and returns Reply of the incoming stream |
| Identification.ModelOf | voltcraft/pps.py:14-26 | PPS_MODELS: every key has a maximum voltage of at most 99.9 V and a maximum current that is a multiple of 0.1 A |
| Identification.MinVoltageOf | voltcraft/pps.py:29-40 | PPS_MIN_VOLTAGE: every model has an entry, between 0 and 1.0 V |
| Identification.TableInvariants | voltcraft/pps.py:14-40 | every model in PPS_MODELS has a minimum voltage no higher than its maximum, and no entry has a 70 A limit |
| Identification.IdentifiedBounds | voltcraft/pps.py:14-40 | an identified supply has 0 <= vmin <= vmax <= 999 and a current limit in 0..999 equal to imax times imult / 100; a supply with imult 10 never has limit 700 |
| Identification.Reads3 | voltcraft/pps.py:86-87 | int(gmax[0:3]) and int(gmax[3:6]) of six digits are the two three-digit numbers |
| Identification.Read3 | voltcraft/pps.py:86-87 | int() of three digits is their value |
| Identification.WideReplyFields | voltcraft/pps.py:85-87 | the fields of "362700" read as 362 and 700 |
| Identification.Lookup | voltcraft/pps.py:89-103 | the supply is found exactly when (vmax, imax) is a key of PPS_MODELS; the model and minimum voltage then come from the tables, and UnknownModel is returned otherwise |
| Identification.Identify | voltcraft/pps.py:85-103 | imult is 100 exactly when the reply is "362700"; vmax and the current limit are int() of gmax[0:3] and gmax[3:6]; a result is an identified supply; failure is BadNumber, exactly when a field does not read as a number, or UnknownModel |
| Identification.IdentifyOfFields | voltcraft/pps.py:85-90 | once both fields read as numbers, identification is the table lookup with the multiplier the reply selects |
| Identification.WideReplyDigits | voltcraft/pps.py:85 | "362700" is six digits whose halves spell 362 and 700 |
| Identification.GmaxReply | voltcraft/pps.py:85-87 | the GMAX reply a supply sends: six digits, the first three spelling vmax and the last three its current limit |
| Identification.GmaxReplyFields | voltcraft/pps.py:85-87 | the fields of a supply's own GMAX reply read through int() as its vmax and current limit |
| Identification.GmaxReplyWide | voltcraft/pps.py:85 | a supply's own GMAX reply is "362700" exactly when its multiplier is 100 |
| Identification.IdentifyRecognises | voltcraft/pps.py:79-103 | round trip: every supply in the tables is identified from its own GMAX reply |
| Identification.LookupFinds | voltcraft/pps.py:89-103 | every supply in the tables is found from its own vmax and current limit |
| Identification.LookupExamples | voltcraft/pps.py:14-40 | 36.2 V / 7.0 A with imult 100 is a PPS11360 with minimum 0.8 V; 36.2 V / 12.0 A is a PPS16005; 99.9 V / 99.9 A is unknown |
| Identification.IdentifyWideExample | voltcraft/pps.py:85-103 | the reply "362700" identifies a PPS11360 with imult 100 |
| Identification.IdentifyNarrowExample | voltcraft/pps.py:85-103 | the reply "362120" identifies a PPS16005 with imult 10 |
| Identification.IdentifyUnknownExample | voltcraft/pps.py:89-97 | the reply "999999" is an unknown model |
| Numeric.Trunc | voltcraft/pps.py:166 | int() of a float truncates toward zero |
| Numeric.Clamp | voltcraft/pps.py:165-167 | min(max(lo, x), hi) lies within the bounds and is x when x is inside them, lo below them, hi above them |
| Numeric.ClampReal | voltcraft/pps.py:240 | the same clamp over reals |
| Numeric.TruncOfInt | voltcraft/pps.py:166 | int() of a whole number is that number |
| Numeric.ClampOrdersAgree | voltcraft/pps.py:240-241 | clamping to integer bounds then truncating equals truncating then clamping |
| Numeric.ScaleClamp | voltcraft/pps.py:196-197 | clamping then scaling by 10 or 100 equals scaling then clamping to the scaled bounds |
| PyText.DigitChar | voltcraft/pps.py:168 | the character of a digit is a digit of that value |
| PyText.Decimal | voltcraft/pps.py:161 | '%d' of a natural number is a digit string of that value |
| PyText.DecimalWidth | voltcraft/pps.py:168 | a number below 10^w has at most w digits |
| PyText.Zeros | voltcraft/pps.py:168 | the zero padding is k zero digits |
| PyText.LeadingZeros | voltcraft/pps.py:168 | leading zeros do not change the value of a digit string |
| PyText.Fixed | voltcraft/pps.py:178-179 | a fixed-width digit field spells its number and has exactly its width when the number fits |
| PyText.Spell | voltcraft/pps.py:168 | spelling a number in w digits gives w digits |
| PyText.SpellValue | voltcraft/pps.py:168 | a number below 10^w spelled in w digits has that value |
| PyText.Digits3 | voltcraft/pps.py:168 | three digits spelling a number below 1000 |
| PyText.Format03 | voltcraft/pps.py:168 | '%03d' of 0..999 is three digits spelling it, and of a negative number starts with '-' |
| PyText.FormatD | voltcraft/pps.py:216 | '%d' of a single digit is that digit |
| PyText.Slice | voltcraft/pps.py:86 | Python slicing: its length, and that it agrees with the sequence slice when in range |
| PyText.DropUnderscores | voltcraft/pps.py:86 | int() ignores underscores, and a plain digit string has none |
| PyText.GroupedDigits | voltcraft/pps.py:86 | a well-grouped digit string is a nonempty digit string once its underscores are dropped |
| PyText.DigitsGrouped | voltcraft/pps.py:86 | every nonempty digit string is well grouped |
| PyText.PyIntOfDigits | voltcraft/pps.py:86-87 | int() of a nonempty digit string is its value |
| PyText.PyInt | voltcraft/pps.py:86-87 | int() of a str: blank text raises, and a negative result needs a leading minus sign |
| PyText.ThreeDigits | voltcraft/pps.py:86 | the value of three digits is 100a + 10b + c |
| PyText.ThreeDigitsUnique | voltcraft/pps.py:168 | two three-digit fields with the same value are the same text |
| PyText.Format03RoundTrip | voltcraft/pps.py:168 | int('%03d' % n) == n for 0..999 |
| PyText.FixedRoundTrip | voltcraft/pps.py:178-179 | int() of a fixed-width field is its number |
| Codec.FieldCommand | voltcraft/pps.py:168 | code + '%03d' % n is seven characters whose last three are digits spelling n |
| Codec.OutputCommand | voltcraft/pps.py:158-161 | output(state) sends SOUT1 exactly when state is 0 and SOUT0 otherwise: the flag is inverted |
| Codec.VoltageSetting | voltcraft/pps.py:163-167 | the VOLT field lies within [vmin, vmax] |
| Codec.VoltageSaturates | voltcraft/pps.py:163-167 | a request within range is honoured to the tenth of a volt; one below the minimum sends the minimum, and one above the maximum sends the maximum |
| Codec.VoltageCommandSaturates | voltcraft/pps.py:163-168 | every request at or above vmax sends the command of vmax itself, and every request at or below vmin that of vmin |
| Codec.VoltageCommand | voltcraft/pps.py:163-168 | voltage(v) sends VOLT followed by three digits spelling the saturated setting |
| Codec.CurrentSetting | voltcraft/pps.py:170-172 | the CURR field lies within [0, current limit] |
| Codec.CurrentSaturates | voltcraft/pps.py:170-172 | a request within range is honoured to the step of the field; a negative one sends 0, and one above the limit sends the limit |
| Codec.CurrentCommand | voltcraft/pps.py:170-173 | current(i) sends CURR followed by three digits spelling the saturated setting |
| Codec.CurrentLimitScaled | voltcraft/pps.py:172 | imax times imult is the current limit in field units |
| Codec.PresetVoltageSetting | voltcraft/pps.py:238-241 | the preset_voltage setter clamps before scaling and truncating, yet writes the same field voltage() would |
| Codec.PresetCurrentSetting | voltcraft/pps.py:250-253 | the preset_current setter clamps in amps before scaling, yet writes the same field current() would |
| Codec.PresetVoltageCommand | voltcraft/pps.py:238-241 | the SOVP command carries the voltage() field |
| Codec.PresetCurrentCommand | voltcraft/pps.py:250-253 | the SOCP command carries the current() field |
| Codec.PresetField | voltcraft/pps.py:193-200 | one preset occupies six digits in PROM: its voltage field, then its current field |
| Codec.FormatPairIsPresetField | voltcraft/pps.py:196-200 | '%03d%03d' of the clamped and scaled pair is that preset's six-digit field |
| Codec.ScaledPresets | voltcraft/pps.py:192-199 | the loop yields one scaled pair per preset, in slot order |
| Codec.JoinPairs | voltcraft/pps.py:200 | "".join of '%03d%03d' over pairs that fit three digits is six digits per pair |
| Codec.StoreCommand | voltcraft/pps.py:183-200 | store_presets sends PROM followed by six digits per preset |
| Codec.JoinThree | voltcraft/pps.py:200 | joining three formatted pairs concatenates them in order |
| Codec.StoreCommandFields | voltcraft/pps.py:183-200 | store_presets sends PROM followed by the three six-digit preset fields, in slot order |
| Codec.Quantize | voltcraft/pps.py:196-197 | a stored preset reads back within [vmin, vmax] volts and [0, imax] amps |
| Codec.QuantizeIdempotent | voltcraft/pps.py:183-211 | storing a preset that was read back stores the same digits again |
| Codec.UsePresetCommand | voltcraft/pps.py:213-216 | use_preset(n) sends RUNM followed by one digit: n clamped to 0..2 |
| Codec.FieldAt | voltcraft/pps.py:178-179 | a run of digits at an offset reads as the number it spells |
| Codec.Field | voltcraft/pps.py:205 | int(s[i:j]): an empty slice raises |
| Codec.FieldsSetting | voltcraft/pps.py:205-206 | a voltage and a current field decode exactly when both read as numbers, and fail with BadNumber otherwise |
| Codec.DecodeReading | voltcraft/pps.py:175-181 | reading() fails only with BadNumber or ShortReply; it succeeds only on nine or more characters whose two fields are numbers |
| Codec.DecodeReadingOf | voltcraft/pps.py:175-181 | characters 0-3 are the voltage and 4-7 the current in hundredths, and the mode is CC exactly when character 8 reads as a non-zero number |
| Codec.ReadingRoundTrip | voltcraft/pps.py:175-181 | a reply of two four-digit fields and a mode digit reads back as those numbers, with mode CV exactly for digit 0 |
| Codec.ShortReadingOfDigits | voltcraft/pps.py:180 | a reply that stops after the two fields raises IndexError |
| Codec.ReadingTooShort | voltcraft/pps.py:180 | an eight-digit GETD reply has no mode character and raises IndexError |
| Codec.FieldsSettingIs | voltcraft/pps.py:205-206 | a voltage field and a current field that read as numbers decode to volts and amps |
| Codec.FieldIs | voltcraft/pps.py:205 | text found at an offset that int() reads as n makes that field read as n |
| Codec.PairReads | voltcraft/pps.py:222-223 | two three-digit fields at the start of a reply read back as a setting |
| Codec.SettingReads | voltcraft/pps.py:222-223 | text that starts with a preset's fields reads back as that preset, quantised |
| Codec.SpellsSettingPrefix | voltcraft/pps.py:222-223 | whatever follows a preset's fields does not change them |
| Codec.FieldsSettingShift | voltcraft/pps.py:207-210 | six characters found at an offset decode as they would on their own |
| Codec.PresetFieldReads | voltcraft/pps.py:205-206 | a preset's six digits read back as the preset, quantised |
| Codec.DecodePresets | voltcraft/pps.py:202-211 | load_presets yields exactly three settings, or fails with BadNumber |
| Codec.ThreeFieldsAt | voltcraft/pps.py:205-210 | slots 0, 1 and 2 of a GETM reply are read at offsets 0, 7 and 14, past one separator each |
| Codec.StoreThenLoad | voltcraft/pps.py:183-211 | round trip: a GETM reply that holds the PROM fields with one separator between slots loads as the three presets, clamped and truncated, in slot order |
| Codec.StoreThenLoadOf | voltcraft/pps.py:202-211 | any fields spelling the three presets, separated by one character each, load as those presets quantised |
| Codec.DecodePreset | voltcraft/pps.py:218-224 | the preset getter fails only with BadNumber |
| Codec.SetterWritesField | voltcraft/pps.py:226-229 | the preset setter writes the same two fields that PROM stores for that preset |
| Codec.FieldCommandIs | voltcraft/pps.py:241 | a field command is its code followed by the one three-digit field that spells its number |
| Codec.PresetReadBack | voltcraft/pps.py:218-229 | round trip: a GETS reply that holds what the preset setter wrote reads back as the preset, quantised |
| Codec.LeadingField | voltcraft/pps.py:235 | a three-digit field followed by anything reads as its number |
| Codec.DecodePresetVoltage | voltcraft/pps.py:231-236 | the preset_voltage getter fails only with BadNumber |
| Codec.VoltageFieldReads | voltcraft/pps.py:231-241 | the field of a command that writes n reads back through GOVP as n tenths of a volt |
| Codec.PresetVoltageReadBack | voltcraft/pps.py:231-241 | round trip: what SOVP wrote reads back through GOVP as the requested voltage, truncated to tenths and saturated |
| Codec.DecodePresetCurrent | voltcraft/pps.py:243-248 | the preset_current getter fails only with BadNumber |
| Codec.CurrentFieldReads | voltcraft/pps.py:243-253 | the field of a command that writes n reads back through GOCP as n steps of 1/imult A |
| Codec.PresetCurrentReadBack | voltcraft/pps.py:243-253 | round trip: what SOCP wrote reads back through GOCP as the requested current, truncated and saturated |
| Driver.Discard | voltcraft/pps.py:161 | a setter whose reply is ignored succeeds exactly when its exchange does, and fails with the same error |
| Driver.Lines | voltcraft/pps.py:141 | each command is written followed by a carriage return |
| Driver.Converse | voltcraft/pps.py:105-111 | a run of exchanges sends at most its commands, sends all of them when it succeeds, and otherwise stops after the one that failed with Timeout or Undecodable |
| Driver.ConverseSent | voltcraft/pps.py:105-111 | what a run wrote is a prefix of its commands, in order, each followed by CR |
| Driver.Advance | voltcraft/pps.py:105-108 | a run is its first exchange followed by the run of the remaining commands, unless that exchange fails |
| Driver.Single | voltcraft/pps.py:111 | a run of one command is one exchange |
| Driver.ConverseAppend | voltcraft/pps.py:105-111 | a run of a + b is the run of a, then, only if it succeeds, the run of b on what is left |
| Driver.Decoded | voltcraft/pps.py:177-181 | a failed exchange raises before the decoder runs; otherwise the decoder's result is returned |
| Driver.Acks | voltcraft/pps.py:149-150 | n bare acknowledgements are 3n bytes |
| Driver.ConverseAcks | voltcraft/pps.py:105-111 | a device that acknowledges every command lets the whole run through and leaves what follows |
| Driver.SwitchOffCommands | voltcraft/pps.py:105-108 | a reset sends SOUT1, then VOLT with the minimum voltage, then CURR000 |
| Driver.PresetCommands | voltcraft/pps.py:110-111 | a preset sends one RUNM command with the number clamped to 0..2, and no preset sends nothing |
| Driver.ResetCommands | voltcraft/pps.py:105-111 | three reset commands if asked, starting with SOUT1, then the RUNM command if a preset is given, last |
| Driver.Handshake | voltcraft/pps.py:79-103 | construction sends GMAX; a failed GMAX exchange gives NoDevice; a reply is identified by Identify; a success is an identified supply; the port is closed exactly on NoDevice, UnknownModel or UnknownMinVoltage |
| Driver.HandshakeNoDevice | voltcraft/pps.py:79-82 | a GMAX exchange that times out or fails to decode reports no device and closes the port |
| Driver.HandshakeBadNumber | voltcraft/pps.py:84-87 | a GMAX reply with a field int() refuses raises BadNumber and leaves the port open |
| Driver.HandshakeUnknownModel | voltcraft/pps.py:89-97 | a GMAX reply whose fields read as a pair missing from PPS_MODELS closes the port and reports an unknown model |
| Driver.Start | voltcraft/pps.py:54-112 | construction starts with GMAX; a success is an identified supply; the port is closed exactly on the three identification failures |
| Driver.StartSteps | voltcraft/pps.py:54-112 | construction is the handshake, then, once the supply is identified, the run of reset and preset commands |
| Driver.StartRecognises | voltcraft/pps.py:54-112 | a supply that answers GMAX with its own limits and any ASCII padding byte but NUL, and acknowledges everything, is identified and sent exactly GMAX, then the reset and preset commands in order |
| Driver.PPS.constructor | voltcraft/pps.py:54-103 | a driver object holds its port and the supply identification established |
| Driver.PPS.Identification | voltcraft/pps.py:79-103 | the identification part of construction writes and consumes what Handshake says, and closes the port exactly when Handshake does |
| Driver.PPS.Open | voltcraft/pps.py:54-112 | construction writes, consumes and closes exactly as Start says, and yields a driver for the identified supply exactly when Start succeeds |
| Driver.PPS.Establish | voltcraft/pps.py:105-111 | after identification, the reset and preset commands run as Converse says, and the driver is returned only if all succeed |
| Driver.PPS.Reset | voltcraft/pps.py:105-111 | the reset and preset commands run as one Converse of ResetCommands |
| Driver.PPS.SwitchOff | voltcraft/pps.py:105-108 | output(0), voltage(0) and current(0) run in order, stopping at the first failure |
| Driver.PPS.Limits | voltcraft/pps.py:154-156 | limits() is a key of PPS_MODELS for the supply's model; passed to voltage() and current(), it sends vmax and the current limit |
| Driver.PPS.Output | voltcraft/pps.py:158-161 | output(state) is one exchange of the inverted SOUT command |
| Driver.PPS.Voltage | voltcraft/pps.py:163-168 | voltage(v) is one exchange of the saturated VOLT command |
| Driver.PPS.Current | voltcraft/pps.py:170-173 | current(i) is one exchange of the saturated CURR command |
| Driver.PPS.Reading | voltcraft/pps.py:175-181 | reading() is one GETD exchange whose reply is decoded by DecodeReading |
| Driver.PPS.StorePresets | voltcraft/pps.py:183-200 | store_presets is one exchange of PROM followed by the three preset fields in slot order |
| Driver.PPS.LoadPresets | voltcraft/pps.py:202-211 | load_presets is one GETM exchange whose reply is decoded by DecodePresets |
| Driver.PPS.UsePreset | voltcraft/pps.py:213-216 | use_preset(n) is one exchange of RUNM with n clamped to 0..2 |
| Driver.PPS.Preset | voltcraft/pps.py:218-224 | the preset getter is one GETS exchange whose reply is decoded by DecodePreset |
| Driver.PPS.SetPreset | voltcraft/pps.py:226-229 | the preset setter sends SOVP, then SOCP only if SOVP succeeded |
| Driver.PPS.PresetVoltage | voltcraft/pps.py:231-236 | the preset_voltage getter is one GOVP exchange whose reply is decoded by DecodePresetVoltage |
| Driver.PPS.SetPresetVoltage | voltcraft/pps.py:238-241 | the preset_voltage setter is one exchange of the saturated SOVP command |
| Driver.PPS.PresetCurrent | voltcraft/pps.py:243-248 | the preset_current getter is one GOCP exchange whose reply is decoded by DecodePresetCurrent |
| Driver.PPS.SetPresetCurrent | voltcraft/pps.py:250-253 | the preset_current setter is one exchange of the saturated SOCP command |

## Left out

- The command-line tool `voltcraft/__main__.py` is not part of this model.
  It only calls the driver.
- Opening, flushing and configuring the serial port (pps.py:74-76) is not
  modelled, and neither is the per-byte timeout `PPS_TIMEOUT` (pps.py:42).
  The port is the sequence of bytes the device will send. A read past its
  end is a read that timed out, and time itself is not modelled.
- Debug tracing (`_pps_debug`, pps.py:45-49, and the trace calls in
  `_query`) produces no output in the model. Its one effect on behaviour is
  modelled: each byte is decoded at pps.py:146.
- `power_dissipation` (pps.py:255-258) is left out. It multiplies the two
  floats `reading()` returns, and does no protocol work of its own.
- The properties `VMAX`, `IMAX`, `VMIN`, `MODEL` and `IMULT` (pps.py:113-136)
  have no members of their own. Each returns a field of the `Identity` a
  `PPS` object holds.
- Floating point is not modelled: requests, readings and presets are
  Dafny reals.
  - The model takes `int(vmax * 10)`, `int(vmin * 10)` and
    `int(imax * imult)` to give back the table's integer fields. This holds
    for every entry of the two tables.
  - Binary rounding is not modelled. Python's float product `v * 10` (or
    `i * imult`) may land just below a whole number where the exact product
    reaches it, or round up to a whole number the exact product falls just
    short of (the float nearest 0.7, times 10, is exactly 7.0). The source
    may therefore send one less or one more than the model does.
- Error message texts (the port name and limits in the `RuntimeError`
  messages) are left out. Errors are kinds only.
- Arguments of other Python types are left out. `output` takes an integer,
  so Python truthiness of `None` or strings is not modelled, and `use_preset`
  takes an integer, so `int()` of a float or string argument is not modelled.
- Framing.Decode: decodes ASCII only, where `bytes.decode()` is UTF-8. The
  difference cannot be reached, because every delivered payload is ASCII
  (`ReceivedAscii`).
- `PyText.PyInt` reads ASCII text only: digits, a sign, underscores between
  digits, and ASCII whitespace around them. Python's `int()` also accepts
  other Unicode digits and spaces, but a reply can only hold ASCII, because
  any other byte fails the exchange.
