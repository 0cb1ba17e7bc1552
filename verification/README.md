# HyperRAM controller and SoC configuration, modelled in Dafny

This project models the HyperBus/HyperRAM memory controller of a small
RISC-V SoC generator. It also models the SoC's build-configuration record.

The controller turns one bus request into a fixed, cycle-exact sequence of
actions on the device pins. It runs at four times the device clock. A 2-bit
phase counter generates the device clock: the clock follows chip-select at
phase 1 and drops at phase 3. A 48-bit shift register carries the 48-bit
command-address (CA) word out to the device and the data in and out. An
access table of (delay, actions) entries is converted to absolute offsets by
prefix sums. A request seen at phase 1 starts a replay of that table. The
replay drives chip-select, the output enables, the strobe (RWDS) mask lines
and a one-cycle acknowledgment.

The modules follow the structure of the controller:

- `Bits` and `Wrappers`: bit sequences (least significant bit first, as the
  hardware description concatenates them) and result/option types.
- `CommandAddress`: the CA word, its decoder and the round trips between them.
- `DataPath`: the sample register, the shift, and the pins and read data taken
  from the register. It also gives the order in which words leave and enter.
- `Sequencer`: the delta table, its conversion to offsets, and the replay
  semantics of the timeline.
- `HyperRam`: construction (the width check), the register state, one system
  clock cycle (`Tick`) and the pad outputs.
- `Protocol`: the cycle described stage by stage, and the invariant of every
  reachable state.
- `Runs` and `Transfers`: runs of many cycles. They cover when an access
  starts and how long it lasts, acknowledgment spacing, the CA bytes on the
  lines, write bursts with their masks, and the word a read returns.
- `SocConfig`: the firmware-target enumeration, the configuration record with
  its defaults, the post-construction adjustment and the output path.

Signals are modelled as `seq<bool>` with index 0 the least significant bit.
So a hardware slice `x[a:b]` is the Dafny slice `x[a..b]`, and a
concatenation `Cat(a, b)` is `a + b`. All data widths are explicit: a 48-bit
value assigned to the 32-bit bus read data keeps its low 32 bits, and the
sample register of a width-8 device reads 0 on its upper lines.

## Model

| member | source | states |
|---|---|---|
| HyperRam.New | hyperbus.py:42-59 | Construction succeeds exactly when the pads have 8 or 16 data lines. The width and latency (6 when not given) are then fixed. Any other width is an `UnsupportedWidth` error carrying that width. |
| HyperRam.Tick | hyperbus.py:96-114 | Each cycle the phase advances by one modulo 4. The device clock copies chip-select at phase 1, drops at phase 3 and otherwise holds. The sample register takes the data lines every cycle. The replay counter advances by the timeline rule. |
| HyperRam.Outputs | hyperbus.py:79-94 | The first chip-select pin is the complement of `cs`. A second chip-select is always high (inactive). Reset, when wired, is always high. The clock pin is the clock register. The strobe outputs are the two mask bits fitted to the board's strobe width. The data lines carry the register's top byte in the command phase and its top `dw` bits otherwise, and both output enables are the enable registers. |
| HyperRam.Apply | hyperbus.py:220-289 | The table's actions never touch the phase, the device clock, the sample register or the replay counter. |
| CommandAddress.Encode | hyperbus.py:142-172 | Bit 47 is the complement of write-enable. Bit 45 is 1, and bit 46 and bits 15:3 are 0. At width 8: bits 44:16 are address bits 29:2 with a zero top bit, bits 2:1 are address bits 1:0, and bit 0 is 0. At width 16: bits 44:16 are address bits 29:3 zero-extended, bits 2:1 are address bits 2:1, and bit 0 is address bit 0. |
| CommandAddress.DecodeEncode | hyperbus.py:159-172 | Decoding an encoded word, by the width's layout, gives back the direction and the whole 30-bit address. The encoder only produces well-formed words. |
| CommandAddress.EncodeDecode | hyperbus.py:154-172 | Every well-formed word is the encoding of the request it decodes to. So the encoder's image is exactly the well-formed words. |
| CommandAddress.AddressValue | hyperbus.py:159-172 | As numbers, the address is (bits 44:16 << 2) \| bits 2:1 at width 8. At width 16 it is (bits 44:16 << 3) \| (bits 2:1 << 1) \| bit 0. |
| DataPath.ShiftAllShape | hyperbus.py:117-129 | After a run of shifts, the register holds the samples at the bottom, the latest lowest. Above them are the former contents, moved up by 8 bits per shift in the CA phase and `dw` bits per shift otherwise. |
| DataPath.CommandByteOrder | hyperbus.py:117-140 | In the CA phase the data lines show the register's top byte. After `n` shifts (n ≤ 5) they carry byte `5 - n` of the loaded word, so the word leaves most significant byte first. |
| DataPath.WriteDataOrder | hyperbus.py:117-140 | The payload is loaded above 16 zero bits. After `n` data shifts the lines carry its part `n` from the top: a byte at width 8, a half-word at width 16. |
| DataPath.ReadCapture | hyperbus.py:117-133 | Once 32 bits have been shifted in, the read data is exactly the captured samples, the first one most significant. This holds whatever the register held before. |
| DataPath.ReadCaptureAfter | hyperbus.py:117-133 | Shift in one sample more than the word holds: the first sample has left the read data, and the read data is exactly the later samples. |
| Sequencer.ToAbsolute | hyperbus.py:199-204 | The converted table keeps the length and the actions. The first offset is the start. Each offset is the previous one plus the previous entry's delay. |
| Sequencer.TimelineShape | hyperbus.py:192-289 | The converted table entry by entry. Idle gap at 0. CA phase at 3. Latency step at 15. Data sub-steps two cycles apart from `15 + 8·latency - 4`, four at width 8 and two at width 16, each with its mask actions. Then teardown, acknowledgment rise, acknowledgment fall one cycle later, and the end marker two cycles after the rise. |
| Sequencer.AccessOffsets | hyperbus.py:192-289 | The data phase lasts 8 cycles at width 8 and 4 at width 16. The acknowledgment action sits at offset `25 + lat_cycles` (width 8) or `21 + lat_cycles` (width 16). The table ends two cycles later: at offset 71 for width 8 and latency 6. |
| Sequencer.TimelineIncreasing | hyperbus.py:192-204 | With a latency of at least one, the offsets start at 0 and strictly increase. |
| Sequencer.ZeroLatencyOutOfOrder | hyperbus.py:192-237 | With latency 0 the latency delay is -4, so the first data step's offset comes before the latency step's offset. |
| Sequencer.TimelineLast | hyperbus.py:276-289 | The replay stops at the end marker's offset. |
| Sequencer.NextCounter | hyperbus.py:207-211 | The replay counter, under the timeline semantics below. It returns to 0 at the last offset. While running it advances by one, ignoring further triggers. At rest it leaves 0 exactly on a trigger, and then to 1. |
| Sequencer.FiredIsScheduled | hyperbus.py:200-211 | For every counter value, replaying the converted table fires exactly the actions that the stage schedule (`Scheduled`) lists for that offset, in table order. |
| Protocol.TickCycle | hyperbus.py:96-289 | One cycle of the controller built from the table does what the stage description (`Cycle`) says. Chip-select rises at 3 and falls at teardown. The CA phase runs from 3 to 15. The lines are driven during the CA phase and, for a write, from data start to teardown. The register loads the CA word at 3 and the payload at data start, otherwise shifts on phases 0 and 2. The masks change at the start of each data sub-step. The acknowledgment rises at `AckAt` and falls one cycle later. |
| Protocol.TeardownPhase | hyperbus.py:192-289 | The data start, the teardown and the end of the table all fall on offsets equal to 3 modulo 4, so those cycles are on phase 0, where the load overrides that cycle's shift. |
| Protocol.ResetInv | hyperbus.py:47-52 | The all-zero reset state satisfies the invariant of reachable states. |
| Protocol.CycleCounter | hyperbus.py:207-211 | A running access advances the counter by one per cycle and the end marker returns it to 0. At rest it moves only on a trigger. While running, the counter stays locked to the phase. |
| Protocol.TickInv | hyperbus.py:96-289 | Every cycle keeps the invariant, whatever the bus and the device do. Chip-select is active exactly from offset 4 to the teardown, and the CA flag from 4 to 15. The device clock runs only inside chip-select. The strobe lines are driven only in the data phase. The data lines are driven exactly in the CA phase or while the strobes are. The acknowledgment is high exactly at offset `AckAt + 1`. |
| Runs.StartsOnRequestAtPhase1 | hyperbus.py:207-211 | An access starts only in a cycle where the bus shows `cyc` and `stb` and the phase is 1. |
| Runs.Access | hyperbus.py:276-289 | Once started, the counter equals the number of elapsed cycles up to the end of the table, then returns to 0, whatever the bus does. The acknowledgment is high in exactly one cycle of the access, `AckAt + 1` cycles after the start. |
| Runs.AckSpacing | hyperbus.py:207-289 | However often the bus requests, two acknowledgments are at least one full access (`EndAt + 1` cycles) apart. |
| Runs.AckHasRequest | hyperbus.py:207-289 | No spurious acknowledgment: in a run that starts at rest, every acknowledgment answers a request the controller accepted (counter at rest, `cyc`, `stb`, phase 1) exactly `AckAt + 1` cycles earlier. With `Runs.Access`, each accepted request gets exactly one acknowledgment. |
| Transfers.HoldsOnOddPhases | hyperbus.py:117-129 | In a reachable state the register holds on phases 1 and 3. The table loads it only at offsets that fall on phase 0. |
| Transfers.CommandLoaded | hyperbus.py:225-230 | At offset 3 the register takes the CA word built from the request the bus presents in that cycle. |
| Transfers.CommandBytes | hyperbus.py:117-140 | In cycles `4 + 2n` and `5 + 2n` of an access (n < 6), the data lines carry byte `5 - n` of the CA word with the lines driven: all six bytes, most significant first. |
| Transfers.DataLoaded | hyperbus.py:243-247 | At the data start the register takes the write payload above 16 zero bits. |
| Transfers.WriteEnableHeld | hyperbus.py:240-282 | From the data start to the teardown, both output enables equal the write-enable seen at the data start. |
| Transfers.WriteBurst | hyperbus.py:240-273 | In data sub-step `n` of an access, the data lines carry part `n` of the payload from the most significant end. The strobe line(s) carry the complement of that part's byte-selects, and the lines are driven exactly when the request is a write. |
| Transfers.MaskAt | hyperbus.py:240-273 | The mask lines in both cycles of data sub-step `n`: at width 8, the complement of byte-select `3 - n`; at width 16, the complements of selects `3 - 2n` and `2 - 2n`. |
| Transfers.ReadBurst | hyperbus.py:109-140 | In the cycle the acknowledgment is high, the read data holds the device samples taken every second cycle from `DataAt + 3`, the first one most significant. The acknowledgment cycle is on phase 3, whose clock edge does not shift, so the read data is the same in the cycle after. |
| Transfers.LastReadSampleDeselected | hyperbus.py:276-281 | The last sample of a read word is taken at `TeardownAt + 1`, when chip-select is already inactive and the device clock is low. |
| SocConfig.TargetNamed | soc/config.py:8-13 | A name looks up a firmware target only when it is that target's value. |
| SocConfig.TargetNames | soc/config.py:8-13 | Every target is found under its own value ("bios", "barebone", "freertos", "linux"). |
| SocConfig.PostInit | soc/config.py:60-68 | A Linux target gets the "linux" CPU variant and no integrated ROM. A FreeRTOS target gets the "standard" variant and keeps its ROM size. BIOS and bare-metal targets are left unchanged. |
| SocConfig.PostInitFrame | soc/config.py:25-68 | The adjustment changes no field other than the CPU variant and the integrated ROM size. The ROM size either stays or becomes 0. |
| SocConfig.PostInitIdempotent | soc/config.py:60-68 | Adjusting an adjusted record changes nothing. |
| SocConfig.DefaultsSettled | soc/config.py:26-58 | The default record targets the BIOS, so it needs no adjustment. Its ROM is 128 KiB, its SRAM 8 KiB and its external RAM 4 MiB. Its output path is "build/tang_nano_9k". |
| SocConfig.OutputPath | soc/config.py:70-73 | The output path is the output directory, one "/", then the board name. |
| SocConfig.BoardFromOutputPath | soc/config.py:70-73 | A board name without "/" is the last component of the output path. |

### Timeline semantics

The timeline's replay belongs to the hardware description library. It is not
part of this model, so its behaviour is a stated assumption, in
`Sequencer.NextCounter`, `Sequencer.Fires` and `HyperRam.Tick`:

- A counter rests at 0.
- A trigger seen at counter 0 starts it at 1. While it is not 0 it advances
  by one per cycle, ignoring triggers. At the table's last offset it returns
  to 0.
- An entry at offset `t > 0` fires in the cycle the counter equals `t`. The
  entry at offset 0 fires in the cycle of the trigger.
- Fired actions take effect at the end of the cycle, after the data path's
  own update. A later assignment to a register overrides an earlier one.

### Behaviour of the code worth noting

- **Sampling.** The sample register takes the data lines in every cycle
  (hyperbus.py:114), although the comment above it (hyperbus.py:113) names
  only the 90° and 270° phases. A shift on phase 0 or 2 therefore takes the
  sample of the cycle before (hyperbus.py:117-128).
- **Read data.** The 48-bit register is assigned to the 32-bit read data
  (hyperbus.py:133), so the read data is the register's low 32 bits.
- **Acknowledgment timing.** With width 8 and latency 6 the acknowledgment
  action sits at offset 69 and the end marker at offset 71
  (hyperbus.py:276-289). The acknowledgment register is high in the 70th
  cycle after the trigger cycle, and the next access can start 72 cycles
  after the previous one.
- **Read data after acknowledgment.** The register goes on shifting on
  phases 0 and 2 (hyperbus.py:117-128) after the acknowledgment. The read
  data is the read word in the acknowledgment cycle and the cycle after,
  then changes at the next shift.
- **Last read sample.** The last sample shifted into a read word is taken
  in the cycle after the teardown (hyperbus.py:276-281) has cleared
  chip-select, with the device clock low. So the least significant part of
  every read word comes from the lines of a deselected device
  (`Transfers.LastReadSampleDeselected`).
- **Live request.** The CA word (hyperbus.py:154-172), the write payload,
  the masks and the output enables (hyperbus.py:241-273) are read from the
  bus in the cycle they are used. A bus master must hold its request for the
  whole access.
- **Latency 0.** The latency delay is `latency * 8 - 4` cycles
  (hyperbus.py:192), which is negative for latency 0. The table's offsets
  are then out of order (`Sequencer.ZeroLatencyOutOfOrder`).

## Left out

- The timeline replay, the tristate buffers and the differential clock
  output belong to the hardware description library, and the bus interface
  is an external record. The replay is the stated assumption above; the
  others are pins carried as values.
- Behaviour of the physical device: the data lines are an arbitrary input in
  every cycle.
- HyperRam.New: the latency is a natural number, so the negative latencies
  that the constructor would accept are not modelled.
- Latency 0: every member of Protocol, Runs and Transfers, and
  Sequencer.TimelineIncreasing, TimelineLast and FiredIsScheduled, assume a
  latency of at least 1. With latency 0 the table is out of order, and the
  model states only that fact (`Sequencer.ZeroLatencyOutOfOrder`).
- HyperRam.Outputs: the board's data-line width is the controller's width.
  Chip-select counts other than one or two are not modelled. The 30-bit
  address, 32-bit data and 4-bit select widths are the bus interface's
  defaults.
- The clock-frequency field of the configuration is a floating-point number
  and is not modelled.
- The rest of the repository is not part of this model: SoC assembly, the
  build and flash driver, the clocking, the pin tables, the board files, the
  peripheral instantiation and the board registry. They are wiring and
  tool invocation without logic of their own.
