# HuPulser instrument drivers in Dafny

HuPulser drives a DC power supply and a pulse generator from a desktop GUI. This project models the logic inside the instrument drivers that keeps state and computes values, and proves properties of that model. Python's `int()`, `float()`, `round()`, `math.ceil` and `str()` are modelled explicitly. Every exception becomes a `Result`/`Outcome` value, and each instrument answer becomes a parameter.

- `py_base.dfy` (module `PyBase`): the exceptions, `PyValue` (an int, a float or entry-field text as a setter receives it), `int()`/`float()` of such values, half-to-even `round`, `ceil`, and `str()` of an integer.
- `data_buffer.dfy` (module `Buffers`): `DataBuffer`, the zero-filled fixed-length FIFO with a trailing average. Its class holds the deque as a `seq<real>`, and `clear` and the average keep their loops.
- `itech.dfy` (module `Itech`): the ITECH IT6726V supply. It covers:
  - the validated mode, setpoint and PID-gain stores;
  - `mode_determination`, the regime selector;
  - `pid_control_one_cycle`, the clamped PID step, which records every `VOLT` value in a ghost log;
  - one iteration of the `pid_control` loop and the loop over a finite run of samples, both specified by the pure functions `Cycle` and `Run`;
  - the five-buffer helpers.
- `rigol.dfy` (module `Rigol`): the DG4102 pulser. It covers:
  - the pulse-shape token parser, as a loop and as a specification function;
  - the in-place fill of the two 16384-point waveform arrays;
  - the pulse-shape, frequency, output and ch2 setters;
  - `get_period` and the trace-data command text.
- `bytes.dfy` (module `Bytes`): the int-to-byte conversion fact the ADL codec uses.
- `adl.dfy` (module `Adl`): the ADL supply's binary protocol and driver. It covers:
  - CRC-16/MODBUS, as section 6.2.2 of the MODBUS over Serial Line Specification V1.02 defines it, with a front-to-back reference form;
  - request packing and framing, response framing and checking, and status-byte decoding;
  - the mode and setpoint setters, `set_setpoints`, the output setter and `update_pui`.
- `plots.dfy` (module `Plots`): the y-axis limits of the three-axes plot and `set_y_max_values`.

Mode numbers follow the drivers:
- ITECH: 0 = voltage, 1 = power, 2 = current.
- ADL: 0 = P, 1 = U, 2 = I.

## Model

| member | source | states |
|---|---|---|
| PyBase.RoundHalfEven | ITECH_IT6726V_power_supply.py:271-276 | round() gives an integer within 0.5 of its argument, and the even one on a tie |
| PyBase.Ceil | rigol_4102.py:159 | ceil(x) is the least integer not below x |
| PyBase.RoundToTenth | ITECH_IT6726V_power_supply.py:228 | round(u, 1) is within 0.05 of u and a whole number of tenths |
| PyBase.Trunc | ITECH_IT6726V_power_supply.py:79 | int() of a float truncates toward zero |
| PyBase.ParseIntOfDecimal | ITECH_IT6726V_power_supply.py:106 | int(str(n)) == n for every integer n |
| PyBase.ParseFloatExtendsParseInt | matplotlib_plots.py:65-74 | text that int() accepts is accepted by float() with the same value |
| Buffers.Zeros | data_buffer.py:8 | np.zeros(n) has n entries, each 0 |
| Buffers.Shift | data_buffer.py:18-20 | one update keeps the length, puts the new value last and moves entries 1..n-1 to 0..n-2 |
| Buffers.DataBuffer.constructor | data_buffer.py:6-8 | a new buffer has exactly `size` entries, all zero |
| Buffers.DataBuffer.Update | data_buffer.py:18-20 | popleft then append; a size-0 buffer raises IndexError and is left unchanged |
| Buffers.DataBuffer.Clear | data_buffer.py:22-25 | the size-fold rotation leaves the length unchanged and every entry 0 |
| Buffers.DataBuffer.AverageOfLast | data_buffer.py:27-32 | the loop computes LastAverage and changes nothing: the mean of the newest n for 1 <= n <= size, IndexError above size, ZeroDivisionError at 0 |
| Buffers.ShiftAllWindow | data_buffer.py:18-20 | after updates with xs, the buffer is the last |b| values of b followed by xs |
| Buffers.ShiftAllFills | data_buffer.py:18-20 | after `size` updates, the buffer is exactly the pushed values in push order |
| Buffers.AverageOfCleared | data_buffer.py:22-32 | a cleared buffer averages to 0 over every window 1..size |
| Buffers.AverageOfRefilled | data_buffer.py:18-32 | after `size` updates, the full-window average is the mean of the pushed values |
| Itech.ModeDetermination | ITECH_IT6726V_power_supply.py:270-300 | the cascade equals the priority ladder: strict excess wins in the order V, P, I; then reaching a setpoint wins in the same order; otherwise mode_prev; the result is in 0..2 |
| Itech.SelectorExamples | ITECH_IT6726V_power_supply.py:279-299 | with setpoints (100, 50, 200): averages (100, 40, 150) select voltage after current, and (90, 55, 150) select power after voltage |
| Itech.Clamp | ITECH_IT6726V_power_supply.py:229-232 | the result never exceeds OVP, is at least UVP when UVP <= OVP, and is u itself inside the bounds |
| Itech.PidCycle | ITECH_IT6726V_power_supply.py:220-232 | time_prev = time_act, e_prev = desired - actual, e_sum += e*dt, u is the rounded PID law clamped into the bounds; dt = 0 raises ZeroDivisionError |
| Itech.ProportionalStep | ITECH_IT6726V_power_supply.py:220-232 | unit proportional gain against a measured 0 with setpoint 50 commands Clamp(50) |
| Itech.ReseedOnModeChange | ITECH_IT6726V_power_supply.py:194-195 | on a mode change the step's integral starts from the previous output |
| Itech.PowerSupply.constructor | ITECH_IT6726V_power_supply.py:12-50 | mode 1 (power), zero setpoints and gains; each of the five buffers (time, calculated voltage, measured voltage, power, current) zero-filled at the configured size |
| Itech.PowerSupply.SetMode | ITECH_IT6726V_power_supply.py:76-84 | accepts exactly integers 0..2; anything else raises ValueError and leaves the mode unchanged |
| Itech.PowerSupply.SetSetpointForMode | ITECH_IT6726V_power_supply.py:93-108 | accepts exactly mode 0..2 with an integer in [0, (3000, 1200, 5000)[mode]]; only that slot changes; a failure changes nothing |
| Itech.PowerSupply.GetPidValues | ITECH_IT6726V_power_supply.py:138-147 | mode 0 gives the voltage gains, 1 the power gains, 2 the current gains (an equal float counts); any other mode raises the PID-mode ValueError |
| Itech.PowerSupply.SetPidValues | ITECH_IT6726V_power_supply.py:149-167 | only entry `index` of the selected triple changes; a bad index, value or mode raises ValueError, and a non-int index that int() accepts raises TypeError; a failure changes no triple; after success, get_pid_values of the same mode reads the new value at `index` |
| Itech.PowerSupply.AddValuesToBuffers | ITECH_IT6726V_power_supply.py:250-255 | each buffer receives its value by one update |
| Itech.PowerSupply.ClearBuffers | ITECH_IT6726V_power_supply.py:257-262 | all five buffers are zero-filled |
| Itech.PowerSupply.CalculateAverages | ITECH_IT6726V_power_supply.py:264-268 | the three trailing averages of the measured-value buffers, or the first exception |
| Itech.PowerSupply.PidControlOneCycle | ITECH_IT6726V_power_supply.py:219-235 | returns PidCycle and logs the same clamped u as the one VOLT write |
| Itech.PowerSupply.ControlCycle | ITECH_IT6726V_power_supply.py:191-216 | one iteration: the mode from the previous averages, the reseeded integral on a change, the step of that mode, the five pushes, and the next averages |
| Itech.Cycle | ITECH_IT6726V_power_supply.py:191-216 | one loop iteration as a value: at most one VOLT value, none when the step raises; a zero buffer size raises; a completed cycle shifts the three measured histories and keeps the mode in 0..2 |
| Itech.PowerSupply.LoopCycle | ITECH_IT6726V_power_supply.py:191-216 | an iteration of the loop sends exactly Cycle's voltages and ends in Cycle's exception or its next state and histories; the setpoints are untouched |
| Itech.RunLength | ITECH_IT6726V_power_supply.py:191-216 | a run sends at most one VOLT value per sample, and exactly one per sample when no cycle raises |
| Itech.RunBounded | ITECH_IT6726V_power_supply.py:191-232 | every VOLT value of a run is at most OVP, and at least UVP when UVP <= OVP |
| Itech.RunWindowFails | ITECH_IT6726V_power_supply.py:213-215 | a zero buffer size, a zero averaging window or one wider than the buffers stops the loop at its first cycle, after at most one VOLT write |
| Itech.PowerSupply.PidControl | ITECH_IT6726V_power_supply.py:169-216 | the VOLT values sent and the outcome are those of Run from the start state (zero averages, integral and output, e_prev the setpoint of the starting mode) over the buffers' histories: cycle k sends the clamped u of its step, and the loop fails exactly when a cycle raises, with that exception; every write lies within the protection bounds |
| Rigol.SplitToken | rigol_4102.py:141-149 | '-' is a negative pulse, '+' a positive one, anything else a delay; the token is its kind and length text; an empty token raises IndexError |
| Rigol.SampleStep | rigol_4102.py:137 | dt * frequency * 16384 = 1e6; frequency 0 raises ZeroDivisionError |
| Rigol.PointCount | rigol_4102.py:154-161 | the point count is round(value/dt) when that many points span 5 us, and ceil(value/dt) otherwise; it lies within [value/dt - 0.5, value/dt + 1) |
| Rigol.StepCount | rigol_4102.py:154-161 | a length under dt raises the shorter-than-step ValueError; otherwise the token is accepted exactly when PointCount points span at least 5 us, with count PointCount, and refused with the shorter-than-minimum ValueError |
| Rigol.StepCountAccepts | rigol_4102.py:154-161 | for positive dt and a length of at least dt, the token is accepted exactly when ceil(value/dt) points span 5 us |
| Rigol.TokenStep | rigol_4102.py:140-161 | an empty token raises IndexError; a length float() refuses raises the invalid-length ValueError naming the token; otherwise the token is accepted exactly when StepCount accepts its length, with its kind and StepCount's count, and raises StepCount's exception otherwise |
| Rigol.Chain | rigol_4102.py:138-162 | the lists start at [0] and grow by one entry per token |
| Rigol.ChainFollows | rigol_4102.py:138-162 | the lists are built exactly when every token parses, and then interval k is token k's count and kind |
| Rigol.ChainError | rigol_4102.py:140-162 | a failed parse raises the exception of one of its tokens |
| Rigol.ChainErrorPersists | rigol_4102.py:140-162 | the first failing token decides the outcome, whatever tokens follow |
| Rigol.ChainFirstError | rigol_4102.py:140-162 | when token k fails and every earlier one parses, the run raises token k's exception |
| Rigol.ChainFirstErrors | rigol_4102.py:140-162 | the same for every k at once |
| Rigol.ChainTotal | rigol_4102.py:162-164 | the last index of the built lists is the sum of the token counts |
| Rigol.PlanOf | rigol_4102.py:138-164 | accepted exactly when every token parses and the counts sum below 16384; all tokens parsing with a larger sum raises the longer-than-period ValueError; otherwise the first failing token's exception; an accepted plan follows its tokens and increases strictly |
| Rigol.PlanPulseShape | rigol_4102.py:135-164 | ZeroDivisionError exactly at frequency 0; at any other frequency the shape is accepted exactly when every token parses at that dt and the counts sum below 16384 (Accepted); an accepted plan follows the tokens and, at a positive frequency, starts at 0, increases and ends below 16384 |
| Rigol.StepsAreTokens | rigol_4102.py:140-161 | the per-token outcomes the parser consumes are TokenStep of each token at that dt |
| Rigol.PlanErrors | rigol_4102.py:140-164 | a refused shape raises the exception of its first failing token, or the longer-than-period ValueError when every token parses |
| Rigol.PlanInterval | rigol_4102.py:154-162 | interval k of an accepted plan lasts at least 5 us and has token k's kind |
| Rigol.CollectTokens | rigol_4102.py:138-162 | the token loop computes Chain of the token outcomes |
| Rigol.CollectSteps | rigol_4102.py:137-164 | the parse loop computes PlanPulseShape |
| Rigol.LevelCovers | rigol_4102.py:166-172 | a point's level is 1 exactly when an interval of the wanted kind covers it |
| Rigol.LevelsDisjoint | rigol_4102.py:166-172 | in an increasing plan, the two channels are never both 1 |
| Rigol.Period | rigol_4102.py:195-196 | period * frequency = 1e6; frequency 0 raises ZeroDivisionError |
| Rigol.PlanWithinPeriod | rigol_4102.py:137-164 | every index of an accepted plan, in microseconds, lies inside the period |
| Rigol.JoinRoundTrip | rigol_4102.py:244 | the ", "-joined text of 0/1 values reads back as those values |
| Rigol.ParseJoinRoundTrip | rigol_4102.py:244 | text the strict reader accepts (digits 0/1 separated by ", ", nothing else) is exactly the joined text of the values it reads |
| Rigol.TraceDataCommand | rigol_4102.py:242-250 | channels 1 and 2 give ':SOURce<ch>:TRACE:DATA VOLATILE,' followed by text the strict ', '-list reader reads back as that channel's 0/1 values (by ParseJoinRoundTrip, exactly their joined text); other channels give nothing |
| Rigol.DefaultPlan | rigol_4102.py:17-22 | ["100-"] at 10 Hz is one negative pulse over points 0..15 |
| Rigol.ParseOutcome | rigol_4102.py:135-164 | frequency 0 raises ZeroDivisionError; otherwise the parse passes exactly when Accepted holds (every token parses, the counts sum below 16384), and a failure carries the plan's exception |
| Rigol.FrequencyUpdateAsWritten | rigol_4102.py:101-111 | as written: a value int() refuses or above 10000 is refused and the frequency kept; any other integer, 0 and negatives included, is stored, and a changed frequency re-parses the shape |
| Rigol.FrequencyZeroAsWritten | rigol_4102.py:106-111 | frequency 0 passes the guard, is stored, and the re-parse, every later parse and get_period divide by zero |
| Rigol.NegativeFrequencyAsWritten | rigol_4102.py:106-111 | -10 Hz passes the guard and the default shape parses to indices that run backwards |
| Rigol.FrequencyUpdate | rigol_4102.py:101-111 | with the corrected guard, the frequency stays in 1..10000 and never divides by zero; a changed frequency is the new value; a changed and accepted one has a well-formed plan |
| Rigol.FrequencyUpdateAgrees | rigol_4102.py:101-111 | the corrected setter agrees with the written one on every value of at least 1 and on every non-integer |
| Rigol.Pulser.constructor | rigol_4102.py:9-22 | 10 Hz, channel 2 disabled, not connected, shape ["100-"] shown on the waveforms |
| Rigol.Pulser.FillWaveforms | rigol_4102.py:166-172 | the arrays hold exactly the plan's negative (ch1) and positive (ch2) intervals, all else 0, never both 1 |
| Rigol.Pulser.ParsePulseShape | rigol_4102.py:135-172 | every check precedes the fill; a failure leaves both arrays unchanged |
| Rigol.Pulser.SetPulseShape | rigol_4102.py:174-177 | the shape is stored only after it parses; a failure changes neither the shape nor the arrays |
| Rigol.Pulser.SetOutput | rigol_4102.py:67-78 | the output is off while disconnected, otherwise the requested state |
| Rigol.Pulser.SetCh2Enabled | rigol_4102.py:84-86 | the channel-2 flag follows the value |
| Rigol.Pulser.RestartOutput | rigol_4102.py:113-127 | a pulsing output is switched off and on again, so the output state is kept |
| Rigol.Pulser.SetFrequency | rigol_4102.py:100-127 | the corrected setter (FrequencyUpdate); the new frequency is stored before the re-parse; an equal value or a failure leaves the arrays as they were; the output state is restored |
| Rigol.Pulser.Connect | instrument.py:10-16 | connect leaves the pulser connected |
| Rigol.Pulser.Initialization | rigol_4102.py:32-55 | connected with the output off |
| Rigol.Pulser.Disconnect | rigol_4102.py:57-61 | output off and disconnected |
| Adl.CrcSplit | adl_power_supply.py:113-118 | the checksum of a + b is the front-to-back fold over b started from the checksum of a |
| Adl.CrcFrontToBack | adl_power_supply.py:113-118 | Crc16Modbus equals the byte-at-a-time procedure started at 0xFFFF |
| Adl.LittleEndianRoundTrip | adl_power_supply.py:113-117 | '<H' unpacking inverts '<H' packing |
| Adl.FromLittleEndianRoundTrip | adl_power_supply.py:117 | '<H' packing inverts '<H' unpacking |
| Adl.WordRoundTrip | adl_power_supply.py:112-120 | a 16-bit value survives '>H' packing and unpacking |
| Adl.WordsRoundTrip | adl_power_supply.py:112-120 | four 16-bit values survive packing and unpacking wherever they sit in a message |
| Adl.DecodeStatus | adl_power_supply.py:123-140 | the decoded commandErrorCode is always below 32 |
| Adl.DecodeEncodeStatus | adl_power_supply.py:123-140 | every status dictionary with a 5-bit error code survives encoding into three bytes and decoding |
| Adl.EncodeDecodeStatus | adl_power_supply.py:123-140 | decoding loses exactly bit 6 of byte 2 and bit 3 of byte 3 |
| Adl.PackCommand | adl_power_supply.py:112 | '>BBHHHH' packs 10 bytes exactly when every field fits, and raises struct.error otherwise |
| Adl.EncodeCommandAsWritten | adl_power_supply.py:112-114 | the request as written reads par[4], so every 4-tuple raises IndexError (see Findings) |
| Adl.CommandAsWrittenFails | adl_power_supply.py:111-112 | every request with a 4-tuple of parameters, as each caller passes, fails as written |
| Adl.EncodeCommand | adl_power_supply.py:112-114 | the corrected request is 13 bytes ending in 59 exactly when every field fits |
| Adl.DecodeEncodeCommand | adl_power_supply.py:112-114 | every encoded request decodes to its address, function code and parameters |
| Adl.EncodeDecodeCommand | adl_power_supply.py:112-114 | every well-formed request is the encoding of what it decodes to |
| Adl.ParseResponse | adl_power_supply.py:116-145 | fewer than 15 bytes raise struct.error; exactly a checksum mismatch raises ValueError; otherwise four 16-bit words and a status with a 5-bit code |
| Adl.ParseEncodeResponse | adl_power_supply.py:116-142 | a response followed by anything decodes to its address, function, status and data |
| Adl.AcceptedResponseIsEncoded | adl_power_supply.py:116-142 | every accepted response is the encoding of the fields it decodes to |
| Adl.SampleResponse | adl_power_supply.py:24 | the sample message in the driver decodes to function 11, flags 0x1D 0x01 0x00 and data (15000, 0, 0, 0) |
| Adl.Exchange | adl_power_supply.py:111-145 | a struct error in the request comes first; otherwise the decoded reply |
| Adl.PowerSupply.constructor | adl_power_supply.py:8-23 | mode 0, zero setpoints and readings, disconnected, the initial status dictionary |
| Adl.PowerSupply.SendCommandAndRead | adl_power_supply.py:111-145 | the data words of an accepted reply and its status stored; on an exception the status is unchanged |
| Adl.PowerSupply.SetMode | adl_power_supply.py:30-45 | integers 0..2 only, otherwise ValueError; disconnected, the mode is stored; connected, the mode is stored exactly when the exchange (function code of the mode, its setpoint, 0, 0, 0) succeeds and the reply's status confirms the mode; the status becomes the reply's, unchanged on an exchange exception; a failed readback raises the readback ValueError; a failure leaves the mode unchanged |
| Adl.PowerSupply.Setpoint | adl_power_supply.py:47-49 | the slot of the current mode, one of the three setpoints |
| Adl.PowerSupply.SetSetpoint | adl_power_supply.py:51-63 | succeeds exactly for an integer in [0, 1000] that the instrument echoes in data[0] when connected; only the current mode's slot changes; connected, the status becomes the reply's (also on a readback mismatch) and stays unchanged on an exchange exception or a refused value |
| Adl.PowerSupply.SetSetpoints | adl_power_supply.py:68-69 | the three setpoints are replaced without checks |
| Adl.PowerSupply.Output | adl_power_supply.py:71-73 | the outputON flag of the last decoded status |
| Adl.PowerSupply.SetOutput | adl_power_supply.py:75-81 | command 1 or 2 when connected, nothing otherwise; passes exactly when the exchange succeeds; the status becomes the reply's, or stays unchanged with the exchange's exception |
| Adl.PowerSupply.UpdatePui | adl_power_supply.py:88-94 | when connected, (power, voltage, current) = (data[2], data[0], data[1]) and the status becomes the reply's, both unchanged on an exception; the stored triple is returned |
| Plots.AxisLimit | matplotlib_plots.py:64-76 | the checks in order (int axis, 0..2, float value, [0, 2000]) with their messages; an accepted call gives the slot and value |
| Plots.Plot3Axes.constructor | matplotlib_plots.py:48 | the limits start as [0.0, 0.0, 0.0] |
| Plots.Plot3Axes.YMaxValues | matplotlib_plots.py:60-62 | three limits, each within [0, 2000] |
| Plots.Plot3Axes.SetYMaxValues | matplotlib_plots.py:64-78 | an accepted call changes only slot ax_number; a refused one changes nothing; every limit stays within [0, 2000] |

## Left out

- Transport and I/O are not modelled: pyvisa connections, every `write`/`query`, `time.sleep`, `time.time` and the message boxes. Instrument answers and clock readings are parameters. Commands that only go to the instrument are not modelled, except the VOLT values, which go to a ghost log.
- Concurrency is not modelled: the thread the ITECH output setter starts and the GUI polling. `pid_control` runs over a given finite sequence of samples, standing for the cycles during which the output stays on.
- Configuration loading is left out of every constructor: buffer size, averaging window, gains, sleep time, protection bounds, y-axis limits. The values the ITECH configuration supplies are constructor parameters.
- IEEE-754 floating point is left out. Floats are reals, `round` is exact half-to-even, and `round(u, 1)` is half-to-even on tenths. `float()` and `int()` of text accept the plain decimal grammar: an optional sign, digits, an optional point. They do not accept whitespace, underscores, exponents, `inf` or `nan`. For example, a NaN limit, which passes the range check in `set_y_max_values`, is not representable.
- The text of the Rigol "shorter than minimal step" message omits the step length that the source prints into it.
- Rigol.Pulser.SetFrequency: when the re-parse at a new frequency fails, the new frequency stays stored, as in the source. The waveforms then keep the plan of the old frequency. Valid() does not tie the waveforms to the stored shape.
- `get_waveforms`, `__cmd_frequency`, `__cmd_channel_state`, the modulation and synchronisation command sequences, and `DataBuffer.__str__` are formatting or I/O only.
- The ITECH output setter and `disconnect` are I/O and thread start-up only.
- `Instrument.connect` is pure I/O, and ADL `connect` never sets `_connected` (adl_power_supply.py:100-104). `connected` is kept as a field of the ADL model that only the constructor sets.
- ADL `update_status` and the `status`/`get_setpoints` getters are left out. Each is one exchange or a field read.
- Adl.PowerSupply.SendCommandAndRead uses the corrected request encoding (see Findings). It takes the reply as bytes: the text-versus-bytes conversion of `query` is not modelled.
- Adl.SampleResponse states the sample under its own computed checksum. It does not evaluate the checksum to the 0x3B42 the sample carries: the literal CRC evaluation is not part of this model.
- Itech.PowerSupply.SetMode: the contract states that a failure is a ValueError, not which message it carries. The body uses the source's messages.
- Itech.PowerSupply.SetSetpointForMode: the contract states that a failure is a ValueError, not which message it carries. The body uses the source's messages.

Behaviours of the code a reader may not expect:
- The PID step has no guard for a cycle of zero length. It raises ZeroDivisionError, and the loop stops.
- A DataBuffer update on a zero-size buffer raises IndexError.
- `average_value_from_last_n_values` raises ZeroDivisionError for n = 0 and IndexError for n above the size. For a negative n it returns 0, since its loop is empty.
- `pid_control` does not clear the buffers when it starts.
- `set_pid_values` also checks the index range, and raises TypeError for a non-int index that `int()` accepts.

## Findings

| source | as written | input that shows it | evidently intended | confidence | as-written member | corrected member |
|---|---|---|---|---|---|---|
| adl_power_supply.py:112 | packs `par[0], par[1], par[3], par[4]` from the 4-tuples every caller passes | any call, e.g. mode setter with par = (0, 0, 0, 0) | pack `par[0..3]` in order, as the comment at lines 107-108 describes | high (not executed) | Adl.EncodeCommandAsWritten, Adl.CommandAsWrittenFails | Adl.EncodeCommand, Adl.DecodeEncodeCommand |
| rigol_4102.py:106 | the frequency guard has only an upper bound | frequency 0 (then ZeroDivisionError with 0 stored) or -10 (indices 0, -16) | accept 1..10000 Hz only | medium (not executed) | Rigol.FrequencyUpdateAsWritten, Rigol.FrequencyZeroAsWritten, Rigol.NegativeFrequencyAsWritten | Rigol.FrequencyUpdate, Rigol.Pulser.SetFrequency |
