# AD9959 DDS driver, modelled in Dafny

This project models the STM32 driver for the Analog Devices AD9959, a
four-channel direct digital synthesiser (`Core/Src/myad9959.c`). The driver
talks to the chip over a serial port made of control lines. CS is chip
select, CLK the serial clock, SD0 the serial data line, UD the I/O update
strobe and RST the reset line. The model follows the driver's four layers,
one Dafny module per layer, on top of two shared modules:

- `Bytes`: bytes and 16/32-bit words as integer subtypes, big-endian
  reassembly (`Be16`, `Be32`), and the bitwise OR the ACR encoder needs.
- `Wire`: the chip side of the lines. The driver's only effect is a log of
  events: a line set to a level, a busy-wait, or a block handed to the SPI
  peripheral. The module says which bits the chip samples from such a log
  (SD0 at each rising CLK edge, and every bit of a block transfer, high bit
  first), whether chip select was low at each sample, and the levels driven
  on each line.
- `Encoders`: the register encoders for CFTW0 (frequency), CPOW0 (phase),
  ACR (amplitude) and the sweep amplitude word. Each is a pure function
  giving the bytes. A method stores them into the caller's buffer, as the
  driver does.
- `Transport`: one register write, as the exact events of the bit-banged
  port and of the SPI peripheral. Both are proved to deliver the address
  byte and then the payload, most significant bit first, under chip select.
- `Control`: the register map, the one-hot channel select code, the update
  pulse and the power-on sequence with the reset pulse.
- `Sequencer`: each mode function of the driver as a plan. A plan is the
  ordered list of register writes and the latch that the call performs.
  Rendering a plan gives its events. The module proves the shape every
  mode call has, what each register receives, and that the chip receives
  the plan's byte stream and latches exactly once.
- `Driver`: the class `Ad9959`. Its state is the event log. Every driver
  function is a method that appends to the log. Each is proved to append
  exactly the rendering of its plan, so every property of the plans holds
  of the driver.

## Model

| member | source | states |
|---|---|---|
| Encoders.FrequencyWord | Core/Src/myad9959.c:207-215 | the tuning word is the largest whose frequency does not exceed fre: w * SystemClock <= fre * 2^32 < (w + 1) * SystemClock |
| Encoders.CftwBytes | Core/Src/myad9959.c:216-221 | four bytes, high byte first, whose big-endian reading is the tuning word |
| Encoders.CftwWithinOneStep | Core/Src/myad9959.c:22 | reading back the CFTW0 bytes gives a word within one least significant step below fre, with the 500 MHz system clock |
| Encoders.CftwHundredMegahertz | Core/Src/myad9959.c:207-222 | 100 MHz encodes as {0x33, 0x33, 0x33, 0x33} |
| Encoders.GetCftw0Data | Core/Src/myad9959.c:207-222 | the first four buffer bytes become the CFTW0 bytes; the rest of the buffer is unchanged |
| Encoders.PhaseWord | Core/Src/myad9959.c:237-240 | the phase word is the number of whole 2^-14 turns in phase degrees, truncated |
| Encoders.U16PhaseConvertible | Core/Src/myad9959.c:240 | every 16-bit phase yields a word that fits the uint32_t conversion |
| Encoders.CpowBytes | Core/Src/myad9959.c:242-244 | two bytes whose big-endian reading is the phase word modulo 2^16 |
| Encoders.CpowWithinOneTurn | Core/Src/myad9959.c:229-244 | below 360 degrees the word has 14 bits: the top two bits of byte 0 are clear, and the bytes read back the word exactly |
| Encoders.CpowHalfTurn | Core/Src/myad9959.c:232-245 | 180 degrees encodes as {0x20, 0x00} |
| Encoders.CpowFullTurnNotWrapped | Core/Src/myad9959.c:237-244 | 360 degrees encodes as {0x40, 0x00}, not as 0 degrees does ({0x00, 0x00}): there is no reduction modulo a turn |
| Encoders.GetCpow0Data | Core/Src/myad9959.c:232-245 | the first two buffer bytes become the CPOW0 bytes; the rest of the buffer is unchanged |
| Encoders.AcrBytes | Core/Src/myad9959.c:255-265 | byte 0 is kept; byte 1 keeps its upper six bits and ORs the amplitude's bits 9..8 into its low two; byte 2 is amp & 0xFF |
| Encoders.AcrFromZeroBaseline | Core/Src/myad9959.c:255-265 | over {0, 0, 0}, byte 1 is below 4 and ((b1 & 3) << 8) + b2 == amp & 0x3FF |
| Encoders.AcrKeepsFlags | Core/Src/myad9959.c:263 | over a baseline whose byte 1 has clear low bits, byte 1 is the baseline plus the amplitude's bits 9..8, and the low ten bits read back amp & 0x3FF |
| Encoders.AcrFullScale | Core/Src/myad9959.c:294 | amplitude 1023 over the baseline {0x00, 0x10, 0x00} gives {0x00, 0x13, 0xFF} |
| Encoders.GetAcrData | Core/Src/myad9959.c:255-265 | the buffer's first three bytes become the ACR bytes over their own old values; the rest is unchanged |
| Encoders.AmpSweepBytes | Core/Src/myad9959.c:453-464 | (b0 << 2) + (b1 >> 6) == amp & 0x3FF, the low six bits of byte 1 are clear, and bytes 2 and 3 are zero |
| Encoders.GetAmpData | Core/Src/myad9959.c:453-464 | the first four buffer bytes become the sweep amplitude bytes; the rest is unchanged |
| Wire.PackByteOfBits | Core/Src/myad9959.c:118-127 | assembling the eight most-significant-first bits of a byte gives the byte back |
| Wire.PackBitsOf | Core/Src/myad9959.c:106 | assembling the bits of a byte string eight at a time gives the byte string back |
| Wire.RunAppend | Core/Src/myad9959.c:108-149 | running two logs one after the other composes their line states, concatenates their samples, and keeps chip select low at every sample exactly when each part does |
| Wire.TraceAppend | Core/Src/myad9959.c:108-149 | the levels driven on a line along a log split over its concatenated parts |
| Transport.TopBit | Core/Src/myad9959.c:121 | defines the bit tested before each clock pulse: the byte is at least 0x80 |
| Transport.ShiftLeft | Core/Src/myad9959.c:126 | `<<= 1` on a uint8_t: the result is even, and half of it is the byte without its top bit |
| Transport.BitBangFrame | Core/Src/myad9959.c:108-149 | defines the events of the bit-banged write: CLK low, CS low, the address byte's frame, each data byte's frame (eight clock pulses with the bit on SD0, then CLK low), CS high |
| Transport.SpiFrame | Core/Src/myad9959.c:160-176 | the events of the SPI write: CS low, the address as a one-byte block, the payload as one block only when it is not empty, CS high; only blocks lie between the two CS events |
| Transport.WriteFrame | Core/Src/myad9959.c:188-197 | defines the write of the backend the build selects: the SPI frame when `AD9959_USE_HARDWARE_SPI` is defined, the bit-banged frame otherwise |
| Transport.ShiftLeftBits | Core/Src/myad9959.c:121-126 | the tested bit is the byte's top bit, and after `<<= 1` the remaining bits move up one place |
| Transport.BitEventsEffect | Core/Src/myad9959.c:120-125 | one bit's events make the chip sample exactly the byte's top bit, while chip select keeps its level |
| Transport.ByteFrameSamples | Core/Src/myad9959.c:118-128 | with chip select low, one byte's frame makes the chip sample its eight bits, most significant first, under chip select, ending with CLK low |
| Transport.DataFramesSamples | Core/Src/myad9959.c:131-145 | with chip select and CLK low, the payload frames make the chip sample the payload's bits in order, and leave both low |
| Transport.BitBangFrameReceives | Core/Src/myad9959.c:108-149 | whatever the lines' state before, the chip samples exactly 8 * (N + 1) bits: the bits of reg and then of the N data bytes, each under chip select; CS ends high and CLK low |
| Transport.BitBangFrameLines | Core/Src/myad9959.c:114-115 | chip select is driven low once and high once, in that order; no line other than CS, CLK and SD0 is driven |
| Transport.SpiFrameReceives | Core/Src/myad9959.c:160-176 | the SPI backend delivers the same bits, each under chip select, and leaves chip select high |
| Transport.SpiFrameLines | Core/Src/myad9959.c:163-175 | the SPI backend drives only chip select: low, then high |
| Transport.BackendsAgree | Core/Src/myad9959.c:188-197 | both backends make the chip sample the same bits, whatever the line states before |
| Transport.WriteFrameReceives | Core/Src/myad9959.c:188-197 | whichever backend the build selects, the chip assembles exactly [reg] + data under chip select, which goes low then high; only CS, CLK and SD0 move |
| Control.ChannelCode | Core/Src/myad9959.c:276 | the entry of the table {0x10, 0x20, 0x40, 0x80} for channel ch, which is 0x10 * 2^ch |
| Control.UpdatePulse | Core/Src/myad9959.c:90-97 | the five events of the update pulse, each a wait or a level on UD |
| Control.InitSequence | Core/Src/myad9959.c:59-81 | the thirteen events of initialisation: line levels and waits only, no transfer, ending with RST low |
| Control.ChannelCodeOneHot | Core/Src/myad9959.c:276 | the code of channel ch is 0x10 << ch, and exactly one of its bits is set |
| Control.ChannelCodeInjective | Core/Src/myad9959.c:276 | distinct channels have distinct codes |
| Control.UpdatePulseLines | Core/Src/myad9959.c:90-97 | the update pulse drives UD low, high, low, and no other line |
| Control.UpdatePulseLatchesOnce | Core/Src/myad9959.c:90-97 | the pulse gives exactly one rising edge on UD whatever UD's level before, and clocks no bit into the chip |
| Control.InitSequenceLines | Core/Src/myad9959.c:59-81 | initialisation drives CS high, CLK, UD, SD0..SD3 and PDC low once each, and RST low, high, low |
| Control.InitSequenceResetsOnce | Core/Src/myad9959.c:76-80 | the reset line sees exactly one rising edge, whatever its level before initialisation |
| Sequencer.SelectChannel | Core/Src/myad9959.c:274-278 | channel selection is one write to CSR of one byte equal to 0x10 << ch |
| Sequencer.FixedTonePlan | Core/Src/myad9959.c:290-319 | a single-tone call selects the channel, writes FR1 {0xD0, 0x00, 0x00}, then CFR {0x00, 0x23, 0x35}, then well-sized register writes, and ends with its only latch |
| Sequencer.FixedToneCarries | Core/Src/myad9959.c:305-315 | the body writes ACR, then CPOW0, then CFTW0; ACR has byte 0 zero, keeps the multiplier-enable flag and carries amp & 0x3FF, CPOW0 the phase word, CFTW0 the frequency word |
| Sequencer.FrequencySweepPlan | Core/Src/myad9959.c:334-381 | a frequency sweep has the mode-call shape with CFR {0x82, 0x43, 0x30} and eleven operations |
| Sequencer.FrequencySweepCarries | Core/Src/myad9959.c:352-377 | start word to CFTW0, end word to 0x0A, both steps as frequency words to RDW and FDW, {0xFF, 0xFF} to SRR, then the amplitude (byte 0 zero, multiplier enabled), then the phase |
| Sequencer.PhaseSweepPlan | Core/Src/myad9959.c:396-443 | a phase sweep, as written, has the mode-call shape with CFR {0xC0, 0xC3, 0x30} and eleven operations |
| Sequencer.PhaseSweepCarries | Core/Src/myad9959.c:414-439 | as written, CPOW0 receives the first two bytes of the frequency word and 0x0A all four; the steps go to the top halves of RDW and FDW, whose bottom halves are zero; ACR has byte 0 zero, the multiplier enabled and amp & 0x3FF |
| Sequencer.PhaseSweepIgnoresPhases | Core/Src/myad9959.c:418-424 | as written, the call does not depend on its start and end phases |
| Sequencer.PhaseSweepDropsStartPhase | Core/Src/myad9959.c:419-424 | at 0 Hz with phases 180 and 90, CPOW0 receives {0x00, 0x00} and 0x0A receives zero, where the encoder gives {0x20, 0x00} and {0x10, 0x00} |
| Sequencer.PhaseSweepPlanIntended | Core/Src/myad9959.c:418-424 | the corrected phase sweep keeps the mode-call shape |
| Sequencer.PhaseSweepIntendedCarries | Core/Src/myad9959.c:418-424 | corrected, CPOW0 reads back the start phase word and 0x0A carries the end phase word in its top half; every other operation is as written |
| Sequencer.PhaseSweepIntendedSeesStartPhase | Core/Src/myad9959.c:418-420 | corrected, distinct start phases below a turn give distinct CPOW0 writes |
| Sequencer.PhaseWordDistinct | Core/Src/myad9959.c:237-240 | the phase word is strictly increasing in whole degrees |
| Sequencer.AmplitudeSweepPlan | Core/Src/myad9959.c:479-527 | an amplitude sweep, as written, has the mode-call shape with CFR {0x40, 0x43, 0x20} and eleven operations, whatever the uninitialised buffer held |
| Sequencer.AmplitudeSweepCarries | Core/Src/myad9959.c:498-523 | ACR has byte 0 zero and the multiplier bits clear (cleared baseline) and carries amp1 & 0x3FF; 0x0A, RDW and FDW carry amp2, rdw and fdw in the top ten bits, with the low six bits of byte 1 and bytes 2 and 3 zero; CPOW0 receives two stale bytes; CFTW0, written last, gets the frequency word |
| Sequencer.AmplitudeSweepStaleOnlyAtCpow | Core/Src/myad9959.c:484 | two calls with the same arguments differ only in the CPOW0 write, and are equal exactly when the stale bytes agree |
| Sequencer.AmplitudeSweepDropsPhase | Core/Src/myad9959.c:517-519 | as written, the CPOW0 write is the same for 0 and 180 degrees, so it is wrong for at least one of them, whatever the stale bytes |
| Sequencer.AmplitudeSweepPlanIntended | Core/Src/myad9959.c:517-519 | the corrected amplitude sweep keeps the mode-call shape |
| Sequencer.AmplitudeSweepIntendedCarries | Core/Src/myad9959.c:517-519 | corrected, CPOW0 reads back the phase word; every other operation is as written |
| Sequencer.RenderOp | Core/Src/myad9959.c:90-97 | defines the events of one operation: a register write is the selected backend's WriteFrame, as AD9959_WriteData_Unified (:188-197) performs it, and a latch is the update pulse of IO_update |
| Sequencer.Render | Core/Src/myad9959.c:299-318 | defines the events of a plan: its operations' events, one after the other in plan order, as each mode function issues its writes and latch sequentially; the driver's log invariant is stated through it |
| Sequencer.RenderAppend | Core/Src/myad9959.c:299-318 | the events of a sequence of operations are those of its parts, in order |
| Sequencer.ChipReceivesStream | Core/Src/myad9959.c:188-197 | over any plan and either backend, the chip samples the plan's byte stream (each address followed by its payload) and assembles exactly that stream |
| Sequencer.RenderReceives | Core/Src/myad9959.c:188-197 | whatever the backend and the line state before, the chip samples exactly the bits of the plan's byte stream, each with chip select low |
| Sequencer.RenderUpdateLine | Core/Src/myad9959.c:90-97 | UD moves only at the latches: one low-high-low pulse per latch |
| Sequencer.ModeCallLatchesOnce | Core/Src/myad9959.c:317-318 | a mode call latches once: its events end with the update pulse, which is UD's only rising edge whatever UD's level before |
| Sequencer.ModeCallStreamStart | Core/Src/myad9959.c:299-303 | every mode call's byte stream starts with CSR and the channel code, then FR1 and its bytes, then CFR and the mode's bytes |
| Driver.Ad9959.constructor | Core/Src/myad9959.c:188-197 | fixes the backend the build selects for the object's lifetime; the driver starts with an empty log and no operations issued |
| Driver.Ad9959.Init | Core/Src/myad9959.c:59-81 | appends exactly the initialisation sequence to the log and starts the record of operations afresh |
| Driver.Ad9959.IoUpdate | Core/Src/myad9959.c:90-97 | appends exactly the update pulse, recorded as one latch |
| Driver.Ad9959.WriteData | Core/Src/myad9959.c:108-149 | the address loop and the data loop append exactly the bit-banged frame of reg and data |
| Driver.Ad9959.WriteDataSpi | Core/Src/myad9959.c:160-176 | appends chip select low, the address block, the payload block if the payload is not empty, and chip select high |
| Driver.Ad9959.WriteDataUnified | Core/Src/myad9959.c:188-197 | appends the frame of the selected backend and records one register write |
| Driver.Ad9959.ChannelSelEnable | Core/Src/myad9959.c:274-278 | records the channel-select write taken from the code table |
| Driver.Ad9959.SetSignalOut | Core/Src/myad9959.c:290-319 | records exactly the single-tone plan |
| Driver.Ad9959.SweepFrequency | Core/Src/myad9959.c:334-381 | records exactly the frequency-sweep plan |
| Driver.Ad9959.SweepPhase | Core/Src/myad9959.c:396-443 | records exactly the phase-sweep plan as written |
| Driver.Ad9959.SweepAmplitude | Core/Src/myad9959.c:479-527 | records exactly the amplitude-sweep plan as written, for some four bytes of uninitialised buffer |

## Left out

- `ad9959_delay` is a counting busy-wait (Core/Src/myad9959.c:40-51). Only its argument is recorded, as a `Delay` event; its timing is not modelled.
- `HAL_GPIO_WritePin` and `HAL_SPI_Transmit` are STM32 HAL calls. They are modelled only as the log events `Set` and `Transmit`. The HAL timeout and status are not modelled.
- The pin and port mapping of `Core/Inc/main.h` and `Core/Inc/myad9959.h` is board configuration. The lines are an abstract `Pin` datatype.
- `AD9959_USE_HARDWARE_SPI` is a compile-time switch. It becomes the constructor argument `hardwareSpi`, fixed for the object's lifetime. Both backends are proved to deliver the same bits.
- The `double` arithmetic of the frequency and phase encoders is modelled as exact integer arithmetic. Frequency is a whole number of Hz, and the truncating `uint32_t` cast is floor division. Last-bit rounding differences of floating point are not captured.
- Negative frequencies, frequencies of 500 MHz or more (which overflow the `uint32_t` cast), and channel numbers of 4 or more are C undefined behaviour. They are preconditions instead of behaviours.
- Encoders.PhaseWord: the phase encoder takes an `int`. Negative phases (undefined in the cast) are not modelled. Large ones are admitted only while the word fits in 32 bits.
- The SPI peripheral's configuration (`AD9959_SPI_HANDLE`: bit order, clock polarity and phase, frame size) is not part of this model. A `Transmit` block is taken to reach the chip most significant bit first, every bit sampled, under the chip select the driver holds. Transport.SpiFrameReceives and Transport.BackendsAgree rest on that assumption.
- `AD9959_WriteData_SPI` skips the payload when `Data` is NULL (Core/Src/myad9959.c:169). Payloads are values here, so a null pointer is not modelled.
- `DataNumber` is a `uint8_t`. The transport methods therefore require fewer than 256 payload bytes.
- FR2 (Core/Inc/myad9959.h:19) is declared but never written; it appears only as a constant.
- The mode methods keep their local buffers as sequence values, not as stack arrays. The in-place array encoders are modelled and proved separately in `Encoders`. Aliasing between a mode function's buffers, which all are distinct locals, is not modelled.
- Wire.Pack assembles whole bytes only. A trailing partial byte is dropped; the driver never sends one.
- Driver.Ad9959.SetSignalOut: the contract states the operations recorded and `Valid()`, not the log directly. The log follows through `Valid()` and `Sequencer.RenderExtends`. The same holds for SweepFrequency, SweepPhase, SweepAmplitude, ChannelSelEnable and WriteDataUnified.
- Driver.Ad9959.SweepAmplitude: the uninitialised `CFTW0_Data` contents are a ghost result `stale`. The contract only says that some four bytes were sent; C gives them no value at all.
- The phase encoder's header comment describes a 14-bit word, but the code reduces nothing, so 360 degrees sets bit 14. The model follows the code (see Encoders.CpowFullTurnNotWrapped).

## Findings

The driver methods record the plans as written, since that is what the code does. The corrected plans sit beside them, with the intended properties proved about them.

| source | as written | input that shows it | evidently intended | confidence | as-written member | corrected member |
|---|---|---|---|---|---|---|
| Core/Src/myad9959.c:419-424 | the start-phase write to CPOW0 sends `CFTW0_Data` (the frequency word's first two bytes); the end-phase write to 0x0A sends all four frequency bytes; the computed phase words are never sent | `ad9959_sweep_phase(ch, 0, 180, 90, …)`: CPOW0 gets {0x00, 0x00} and 0x0A gets {0, 0, 0, 0}, where the phases encode as {0x20, 0x00} and {0x10, 0x00} | send `CPOW0_Data` in both writes: the start phase to CPOW0 and the end phase, in the zeroed 4-byte buffer, to 0x0A | not executed | Sequencer.PhaseSweepDropsStartPhase | Sequencer.PhaseSweepIntendedCarries |
| Core/Src/myad9959.c:519 | the CPOW0 write sends `CFTW0_Data`, which is uninitialised at that point (declared at :484, first filled at :522); the computed `CPOW0_Data` is never sent | `ad9959_sweep_amplitude(0, 0, 0, 1023, 0, 1, 1)` and the same call with phase 180 send the same CPOW0 bytes, yet the phases encode as {0x00, 0x00} and {0x20, 0x00} | send `CPOW0_Data` to CPOW0 | not executed | Sequencer.AmplitudeSweepDropsPhase | Sequencer.AmplitudeSweepIntendedCarries |
