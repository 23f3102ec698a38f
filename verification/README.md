# Awinic haptic driver: a verified model

This project models the LRA haptic driver under `fairphone/misc/haptic_hv`: one driver
instance and the chip it talks to, seen through its registers, its waveform RAM, its RTP
FIFO and its trim field. The build configuration is the one in `haptic_hv.h` lines 89-117:
RAM check, input framework and default F0 on; dual motor, TikTap, multi-pass oscillator
calibration and RTP F0 calibration off.

## How the project is laid out

- `RtpStream`, `RtpRuns`, `RtpDriver`: the RTP streaming protocol. `RtpStream` is the
  machine of work item, interrupt handler, other lock holders and chip; `RtpRuns` has the
  theorems over its runs and over the locking disciplines that would make all of them safe; `RtpDriver` is the code, section by section, tied to it.
- `RamImage`, `FifoThreshold`: loading the waveform image, and the thresholds that go with it.
- `Calibration`, `OscTrim`, `CaliDriver`: F0 and oscillator trim arithmetic, and the entry
  points that use it.
- `Aw869x`, `Aw8693xs`, `WavLoop`, `Voltage`, `Regs`: registers that follow the driver's
  fields through masked writes.
- `Playback`: the stop timer and the work queue. `AudioQueue`: the haptic-audio commands.
- `CInt`: C integer arithmetic.

`dafny verify dfyconfig.toml` checks the whole project.

## What is assumed about the chip

- Register access always succeeds.
- A stop flushes the FIFO. The almost-full flag is set whenever the FIFO holds at least the
  threshold; it may also read set below it.
- ALMOST_EMPTY is reported only while its interrupt is unmasked.
- The waveform RAM has 65536 cells behind a 16-bit auto-incrementing address. A cell may be
  stuck at a value; any other cell keeps what is written.
- In `RtpStream` a stop may fall between any two passes of the refill loop, and the chip
  may drain at any time.

## Where the code does not do what one might expect

Each of these is a theorem with its exact condition, or a concrete run, in the table below.

- The interrupt handler reads ALMOST_EMPTY and tests `rtp_init` before it takes `rtp_lock`.
  A handler that waited through a work item's reload refills from the old cursor.
  `RtpRuns.JoinSafeIff` says exactly when taking the lock is safe. Moving the test alone
  under the lock does not help: a flag read earlier meets the next stream's `rtp_init`. The
  flag has to be read, tested and served in one section: of the six disciplines that
  `RtpRuns.SoundIff` compares only that one, with orderly calibrations, is safe.
- A calibration that takes `rtp_lock` between two sections of a streaming work item, and
  times out, leaves bytes in the FIFO that the work item does not expect
  (`RtpRuns.CalibrationCanOverrunIff`).
- The calibration clears `rtp_cnt` before it takes any stream lock, and returns right then
  if its file is missing: a stream that is playing starts again from its first byte
  (`RtpRuns.ResetSafeIff`).
- With a base address below 4 the refill loop never ends; above 5460 the almost-full
  threshold does not fit its register.
- The slow branch of the oscillator calibration multiplies in 32 bits; above a gap of
  42949 microseconds, well inside the accepted 2 percent of the 5 s reference stream, the
  trim is wrong.
- An F0 percentage above 100 wraps the lower limit and rejects everything.
- The comments "recover auto break config" and "restore standby work mode" promise more than
  the code does: the brake put back is the one the measurement's own mode switch set, and a
  rejected F0 measurement returns before the standby.
- The checksum cannot see two bytes exchanged. The waveform count is kept in a byte.
- A request to play is lost when the previous playback's timer fires before it is run.
- Haptic-audio counts that jump can make one work item discard every queued command.

## Model

| member | source | states |
|---|---|---|
| `RtpRuns.ConservedOverRuns` | fairphone/misc/haptic_hv/haptic_hv.c:1138-1197 | after every orderly interleaving of worker, handler, chip, stops and calibrations: a playing stream has played + fifo == data[..rtp_cnt], a completed one has sent exactly its data, a suspended one a prefix, no chunk left the buffer or was sent outside a stream, and the FIFO never held more than base_addr bytes |
| `RtpStream.NextInv` | fairphone/misc/haptic_hv/haptic_hv.c:1480-1604 | every step (the sections under each lock, one pass of the refill loop, the handler's flag, test and join, drains, stops, calibration) keeps the streaming invariant, provided a joining handler and a calibration come where they are orderly; SoundIff, JoinSafeIff, CalibrationCanOverrunIff and ResetSafeIff are about the others |
| `RtpStream.LivePass` | fairphone/misc/haptic_hv/haptic_hv.c:1155-1182 | a pass happens only while a stream is live with rtp_init set; its chunk lies inside the buffer, extends what was sent, fits the FIFO, and leaves the cursor at 0 or past base_addr |
| `RtpRuns.BurstSizes` | fairphone/misc/haptic_hv/haptic_hv.c:1155-1164 | the full-size burst goes only to an empty FIFO at rtp_cnt == 0; any other is at most base_addr >> 2 and starts below the almost-full threshold |
| `RtpRuns.MidStreamProgressIff` | fairphone/misc/haptic_hv/haptic_hv.c:1160-1164 | in mid-stream a pass sends something exactly when base_addr >= 4; below that it changes nothing and the loop turns for ever |
| `RtpRuns.SilentUntilRearmed` | fairphone/misc/haptic_hv/haptic_hv.c:1183-1193 | once rtp_init is clear, or the mode has left RTP, no byte of a stream is sent in any orderly run until a work item fills again; a calibration in between plays its own tone only |
| `RtpRuns.EndIsSilent` | fairphone/misc/haptic_hv/haptic_hv.c:1185-1193 | the pass that completes or suspends a stream reaches such a state |
| `RtpRuns.StandbyEndsStream` | fairphone/misc/haptic_hv/haptic_hv.c:1183-1193 | a pass that sees the chip in standby ends the section with rtp_init clear and the cursor at the start, completed exactly if everything had been sent |
| `RtpRuns.StopsAreQuiet` | fairphone/misc/haptic_hv/haptic_hv.c:1493-1504 | every stop empties the FIFO and keeps both refill loops from sending; a work item with state zero ends there, interrupt masked and stream silent |
| `RtpRuns.SectionsSetMask` | fairphone/misc/haptic_hv/haptic_hv.c:1577-1600 | the handler's last lines mask the interrupt outside RTP mode, the worker's unmask it inside, and neither touches it otherwise |
| `RtpRuns.WorkItemStarts` | fairphone/misc/haptic_hv/haptic_hv.c:1493-1580 | from a quiet driver the sections of a work item get min(base_addr, length) bytes of its file out, and a file that fits the FIFO is complete with them |
| `RtpRuns.PlaysTheFile` | fairphone/misc/haptic_hv/haptic_hv.c:1506-1580 | over any orderly run after a load, until something replaces the buffer, a completed stream has sent that file and a playing chip has consumed or holds what the cursor says of it |
| `RtpRuns.PlayingStreamIsServed` | fairphone/misc/haptic_hv/haptic_hv.c:1577-1595 | a stream that plays after its work item is gone has its interrupt unmasked and rtp_init set, so flag, test and join are possible and a FIFO below the threshold gets its next chunk |
| `RtpRuns.SoundIff` | fairphone/misc/haptic_hv/haptic_hv.c:1588-1595 | of the six disciplines (what the handler does inside rtp_lock: the refill, the rtp_init test too, the flag too; calibrations anywhere or only where orderly) exactly one makes every run from boot keep all promises: flag, test and refill in one section, calibrations orderly |
| `RtpRuns.AllRunsAsWritten` | fairphone/misc/haptic_hv/haptic_hv.c:1583-1601 | the machine's runs are exactly those of the weakest discipline, the one in the code |
| `RtpRuns.StrictIsOrderly` | fairphone/misc/haptic_hv/haptic_hv.c:1493-1500 | under the strongest one every run is orderly: the masked interrupt and the lock keep a work item from getting past its first section while the handler is in its own |
| `RtpRuns.JoinSafeIff` | fairphone/misc/haptic_hv/haptic_hv.c:1590-1593 | for the test made before the lock, as written: joining the lock can never write outside a live stream exactly when the work item is idle and rtp_init (or a non-RTP mode) still holds, or it is in its first section, or it is ready in a non-RTP mode |
| `RtpRuns.LateRefillLeavesBuffer` | fairphone/misc/haptic_hv/haptic_hv.c:1589-1593 | a concrete run from boot, possible even with the rtp_init test under rtp_lock, in which a handler that read its flag before a work item's reload reads past the new buffer |
| `RtpRuns.LateRefillOverruns` | fairphone/misc/haptic_hv/haptic_hv.c:1571-1576 | a concrete run, under the same discipline, in which the same late refill is followed by a burst that overruns the FIFO |
| `RtpRuns.StaleFlagStrays` | fairphone/misc/haptic_hv/haptic_hv.c:1577-1591 | a concrete run, under the same discipline, in which the interrupt unmasked after a completed stream is read with rtp_init clear, tested after the next arming, and a chunk goes out while no stream is live |
| `RtpRuns.CalibrationOverruns` | fairphone/misc/haptic_hv/haptic_hv.c:713-752 | a concrete run, possible whatever the handler does under rtp_lock, in which a timed-out calibration between two sections of a work item makes the next burst overrun the FIFO |
| `RtpRuns.CalibrationCanOverrunIff` | fairphone/misc/haptic_hv/haptic_hv.c:691-752 | a calibration's lock sections, made now, and an orderly continuation can overrun the FIFO exactly when a work item is between two of its sections and the almost-full threshold exceeds one |
| `RtpRuns.ResetSafeIff` | fairphone/misc/haptic_hv/haptic_hv.c:679 | clearing the cursor without a lock keeps every promise in every orderly continuation exactly when no stream that has sent something is playing |
| `RtpRuns.ResetOverruns` | fairphone/misc/haptic_hv/haptic_hv.c:679-687 | a concrete run in which a calibration that found no file makes the playing stream burst again and overrun the FIFO |
| `RtpDriver.Haptic.RtpPlay` | fairphone/misc/haptic_hv/haptic_hv.c:1138-1197 | the refill loop, for any drains, stops and readings between polls and any FIFO, does an orderly run that keeps the invariant; with a base address of at least four it is over once it has polled more often than the stream has bytes; if flag, mode and chip never stand in its way the whole stream has then been sent; a flag that always reads set sends nothing |
| `RtpDriver.ClearTurnSends` | fairphone/misc/haptic_hv/haptic_hv.c:1143-1182 | a turn with the flag clear and the chip playing sends exactly the next chunk: min(base, length) first, then quarters, and ends with the last |
| `RtpDriver.FullTurnSendsNothing` | fairphone/misc/haptic_hv/haptic_hv.c:1143-1144 | a turn whose almost-full flag reads set sends nothing and ends the section |
| `RtpDriver.StopTurnSendsNothing` | fairphone/misc/haptic_hv/haptic_hv.c:1143-1144 | so does one before which another lock holder stopped the chip |
| `RtpDriver.StandbyTurnEnds` | fairphone/misc/haptic_hv/haptic_hv.c:1183-1193 | a turn that finds the chip in standby is the last; if it wrote a chunk first, rtp_init and cursor are cleared |
| `RtpDriver.Haptic.Turn` | fairphone/misc/haptic_hv/haptic_hv.c:1143-1193 | guard and body of one trip are that turn |
| `RtpDriver.Haptic.PlayOnce` | fairphone/misc/haptic_hv/haptic_hv.c:1155-1193 | one trip round the loop body is the machine's pass; a standby reading, like the last chunk, ends the stream with rtp_init clear and the cursor at the start |
| `RtpDriver.Haptic.IrqHandle` | fairphone/misc/haptic_hv/haptic_hv.c:1583-1604 | flag, test and refill with nothing in between: an orderly run that keeps the invariant, over within the same number of polls |
| `RtpDriver.Haptic.IrqState` | fairphone/misc/haptic_hv/haptic_hv.c:1589-1600 | reading the flag, or another interrupt, is the machine's step; the interrupt is masked again outside RTP mode |
| `RtpDriver.Haptic.IrqTest` | fairphone/misc/haptic_hv/haptic_hv.c:1590-1600 | the test of rtp_init, made later, is the machine's step for either outcome |
| `RtpDriver.Haptic.IrqRefill` | fairphone/misc/haptic_hv/haptic_hv.c:1592-1594 | the section under rtp_lock, however late the handler gets it, is an orderly run keeping the invariant wherever joining is orderly |
| `RtpDriver.Haptic.WorkQuiet` | fairphone/misc/haptic_hv/haptic_hv.c:1493-1505 | first section: stop, flush, mask; the machine's step with and without state set |
| `RtpDriver.Haptic.WorkLoad` | fairphone/misc/haptic_hv/haptic_hv.c:1506-1555 | the rtp_lock section: missing file, failed allocation, and reload are the machine's three steps |
| `RtpDriver.Haptic.WorkArm` | fairphone/misc/haptic_hv/haptic_hv.c:1558-1569 | arming and the wait for RTP_GO, success and failure, are the machine's step |
| `RtpDriver.Haptic.WorkFill` | fairphone/misc/haptic_hv/haptic_hv.c:1571-1580 | cursor reset and refill from the ready state are an orderly run keeping the invariant, over within as many polls as the file has bytes, and one |
| `RtpDriver.Haptic.RtpOscCali` | fairphone/misc/haptic_hv/haptic_hv.c:673-758 | missing file and failed allocation are the machine's steps; otherwise the loop keeps the FIFO within base_addr, its state is the machine's calibration step, and if the flag always reads clear the FIFO runs empty only once the whole tone has been sent |
| `RtpDriver.Haptic.CaliPoll` | fairphone/misc/haptic_hv/haptic_hv.c:717-736 | a poll whose flag reads clear below the threshold sends min(rest, base_addr >> 2) bytes of the tone, one whose flag reads set sends none |
| `RtpDriver.Haptic.constructor` | fairphone/misc/haptic_hv/aw8693xs.c:1628-1639 | for every 16-bit base address the thresholds in the registers make a valid initial state |
| `FifoThreshold.RoundTripIff` | fairphone/misc/haptic_hv/haptic_hv.h:357-360 | the almost-empty threshold survives encode and decode exactly when base_addr <= 8191, the almost-full one exactly when base_addr <= 5460, and then AE < AF < base exactly when base_addr >= 4 |
| `FifoThreshold.DecodeEncode` | fairphone/misc/haptic_hv/aw8693xs.c:1634-1648 | for every 16-bit base address both decoded thresholds are the true ones modulo 4096 |
| `FifoThreshold.DecodersAgree` | fairphone/misc/haptic_hv/aw8671x.c:1567-1571 | the packed 32-bit decode and the nibble decode give the same two thresholds for every register content |
| `FifoThreshold.WrappedThresholdIsLower` | fairphone/misc/haptic_hv/aw8693xs.c:1634-1638 | a threshold that does not fit is lower, never higher; at base_addr 5461 it is zero |
| `FifoThreshold.RegisterLayout` | fairphone/misc/haptic_hv/haptic_hv.h:357-360 | which nibble of which threshold goes where, on the largest FIFO that fits and on one of 4096 bytes |
| `RamImage.Haptic.RamLoad` | fairphone/misc/haptic_hv/haptic_hv.c:1632-1697 | a bad checksum changes nothing; an accepted image is written from base_addr on, thresholds included, and is taken into use exactly when no stuck cell disagrees and it does not overwrite itself; then RAM, length and waveform count are the image's |
| `RamImage.Haptic.WriteImage` | fairphone/misc/haptic_hv/aw8693xs.c:1651-1661 | the 2048-byte chunks leave the same RAM as one write of data[4..] at base_addr |
| `RamImage.Haptic.CheckImage` | fairphone/misc/haptic_hv/aw8693xs.c:1664-1681 | for any RAM contents the 1024-byte comparisons return 0 exactly when the RAM reads back as data[4..] |
| `RamImage.Haptic.CheckRamData` | fairphone/misc/haptic_hv/aw8693xs.c:1587-1601 | 0 exactly when the two buffers are equal, else -ERANGE |
| `RamImage.Haptic.ContainerUpdate` | fairphone/misc/haptic_hv/aw8693xs.c:1604-1688 | base address, thresholds, RAM contents and return value together |
| `RamImage.Haptic.GetRamData` | fairphone/misc/haptic_hv/aw8693xs.c:1001-1016 | the chunked reads return ram.len bytes from base_addr |
| `RamImage.Haptic.RamUpdateShow` | fairphone/misc/haptic_hv/haptic_hv.c:2370-2375 | after a successful load the dump is exactly the payload |
| `RamImage.Haptic.GetRamNum` | fairphone/misc/haptic_hv/haptic_hv.c:485-509 | the count comes from bytes 1 and 2 at base_addr, and only once the RAM is loaded |
| `RamImage.Haptic.SumImage` | fairphone/misc/haptic_hv/haptic_hv.c:1660-1661 | the loop computes the byte sum from index 2 modulo 65536 |
| `RamImage.ReadBackIff` | fairphone/misc/haptic_hv/aw8693xs.c:1650-1681 | written RAM reads back as the payload exactly when stuck cells agree with it and every byte that wraps the RAM repeats |
| `RamImage.PutConcat` | fairphone/misc/haptic_hv/aw8693xs.c:1653-1661 | consecutive bursts at the auto-incremented address are one burst |
| `RamImage.OneByteChangeCaught` | fairphone/misc/haptic_hv/haptic_hv.c:1659-1665 | changing any one byte of an accepted image makes the checksum reject it |
| `RamImage.SwapNotCaught` | fairphone/misc/haptic_hv/haptic_hv.c:1659-1665 | exchanging any two bytes after the header is never noticed |
| `RamImage.AcceptsIff` | fairphone/misc/haptic_hv/haptic_hv.c:1660-1665 | accepted exactly when the two header bytes are the high and low byte of the sum |
| `RamImage.WaveCountIff` | fairphone/misc/haptic_hv/haptic_hv.c:499-500 | a first waveform behind n table entries is counted as n exactly when n <= 255 |
| `RamImage.WaveCountRange` | fairphone/misc/haptic_hv/haptic_hv.c:499-500 | for any first address up to 1024 above the base, the count is the number of four-byte entries that end below it |
| `Calibration.F0TrimSafeIff` | fairphone/misc/haptic_hv/haptic_hv.c:568-608 | no accepted, representable measurement can wrap the F0 trim field exactly when f0_cali_percent is at most 7 (6-bit field) or 15 (7-bit field), or above 100, where nothing is accepted |
| `Calibration.FieldHoldsStep` | fairphone/misc/haptic_hv/haptic_hv.c:549-565 | the uploaded field reads back as the rounded step exactly when the step is in the field's signed range, for signed and unsigned char |
| `Calibration.F0StepNearExact` | fairphone/misc/haptic_hv/haptic_hv.c:544-558 | the rounded step is within six tenths of 100000(f0-f0_pre)/(24 f0_pre) |
| `Calibration.F0StepMonotone` | fairphone/misc/haptic_hv/haptic_hv.c:544-558 | a higher measured frequency never gives a smaller step |
| `Calibration.XsFitsIff` | fairphone/misc/haptic_hv/haptic_hv.h:361-363 | on the 8693XS family the step fits eight bits exactly between two linear limits on the measured value |
| `Calibration.XsTrimSafeIff` | fairphone/misc/haptic_hv/haptic_hv.h:361-363 | with a 10 percent window no accepted, representable measurement can wrap the 8693XS F0 trim, at any nominal frequency, exactly for the factory trims in [-95, 68] |
| `Calibration.XsWindowFitsIff` | fairphone/misc/haptic_hv/haptic_hv.c:568-608 | for any nominal frequency and percentage, all accepted measurements fit exactly when the two ends of the window do |
| `OscTrim.OscStepRange` | fairphone/misc/haptic_hv/haptic_hv.c:784-814 | every duration that passes the guards gives a step in [-17, 8], so no field wraps, even where the 32-bit product does |
| `OscTrim.OscStepRangeTight` | fairphone/misc/haptic_hv/haptic_hv.c:784-814 | both ends of that range are reached |
| `OscTrim.SlowExactIff` | fairphone/misc/haptic_hv/haptic_hv.c:797-798 | the slow branch computes floor(100000 gap/(24 theory)) exactly when the gap is at most 42949 |
| `OscTrim.SlowWrapLosesTrim` | fairphone/misc/haptic_hv/haptic_hv.c:786-800 | inside the accepted 2 percent: a 5 s stream 43 ms slow needs four steps and gets none |
| `OscTrim.SidesAgree` | fairphone/misc/haptic_hv/haptic_hv.c:797-814 | for a theoretical time that is a multiple of 100 ms, equal gaps give opposite steps up to that limit |
| `OscTrim.XsOscTrimSafeIff` | fairphone/misc/haptic_hv/haptic_hv.c:817-835 | on the 8693XS family every accepted measurement is encoded without wrap exactly when the factory trim is in [-121, 115] |
| `OscTrim.XsStepNearFactory` | fairphone/misc/haptic_hv/haptic_hv.c:817-831 | there the step is less than 13 away from the factory trim |
| `OscTrim.FuseTrimIsSignedIff` | fairphone/misc/haptic_hv/aw8693xs.c:1273-1276 | the fuse byte is decoded as two's complement for every value but 0x80 |
| `OscTrim.CalibratableIff` | fairphone/misc/haptic_hv/haptic_hv.c:786-812 | the two guards as products: the gap is at least a thousandth of the theoretical time, rounded down, and at most a fiftieth |
| `OscTrim.SlowStepNearExact` | fairphone/misc/haptic_hv/haptic_hv.c:797-799 | up to a gap of 42949 the slow step is within six tenths of 100000 gap/(24 theory) |
| `OscTrim.FastTenthsNearExact` | fairphone/misc/haptic_hv/haptic_hv.c:812 | the fast tenths are the exact quotient rounded down plus an excess of at most gap (theory mod 100000)/(theory / 100000), none for multiples of 100 ms |
| `OscTrim.XsStepNearExact` | fairphone/misc/haptic_hv/haptic_hv.c:817-831 | the 8693XS step is within six tenths of the exact quotient of its formula |
| `CaliDriver.Trimmer.F0Cali` | fairphone/misc/haptic_hv/haptic_hv.c:610-628 | an accepted measurement leaves a field that reads back as the rounded step; a rejected one returns -ERANGE with the field cleared and without the standby of the other outcomes |
| `CaliDriver.Trimmer.CalculateCaliData` | fairphone/misc/haptic_hv/haptic_hv.c:535-566 | stores the encoding of the rounded step of the chip family's formula |
| `CaliDriver.Trimmer.JudgeCaliRange` | fairphone/misc/haptic_hv/haptic_hv.c:568-608 | 0 exactly when the measurement lies in the configured window, in unsigned arithmetic |
| `CaliDriver.Trimmer.RtpTrimLraCali` | fairphone/misc/haptic_hv/haptic_hv.c:777-840 | inside the guards the chip reads back the signed step, on every family; outside them the stored trim is kept and the chip untrimmed |
| `CaliDriver.Trimmer.UploadLra` | fairphone/misc/haptic_hv/aw8671x.c:707-741 | the masked upload changes the field only, per flag; the 8693XS family switches its trim source instead of writing zero |
| `Aw869x.RtpGoingIff` | fairphone/misc/haptic_hv/aw869x.c:384-397 | from the initial standby on, after any run of mode, stop, RAM-init, boost and auto-boost operations, the going test holds exactly in RTP mode |
| `Aw869x.StepAgrees` | fairphone/misc/haptic_hv/aw869x.c:207-382 | every operation keeps standby bit, mode bits and undervoltage mask in step with play_mode |
| `Aw869x.ModeKeepsOtherBits` | fairphone/misc/haptic_hv/aw869x.c:207-355 | mode switches keep the upper nibble of SYSCTRL, and boost follows the mode, not the auto-boost setting |
| `Aw869x.BoostFitsOverRuns` | fairphone/misc/haptic_hv/aw869x.c:198-355 | over every run without direct boost writes RAM, RTP and trigger modes are boosted, loop and continuous modes bypass the boost, and only the continuous one leaves battery compensation to the hardware |
| `Aw869x.AutoBitsFollowMode` | fairphone/misc/haptic_hv/aw869x.c:219-350 | under auto-boost RTP sets bit 1 of BST_AUTO and leaves bit 0, RAM and trigger set bit 0 and leave bit 1, loop and continuous clear bit 0; otherwise nothing moves |
| `Aw869x.ActivatesInBypass` | fairphone/misc/haptic_hv/aw869x.c:207-355 | every boosted mode is first activated in bypass; with auto-boost the automatic boost is off during that activation and on in a second, boosted one |
| `Aw869x.BoostTailIs` | fairphone/misc/haptic_hv/aw869x.c:228-248 | the auto-boost detour through standby and the direct switch end in the same register |
| `Aw869x.Haptic.PlayMode` | fairphone/misc/haptic_hv/aw869x.c:207-355 | the write sequences of all modes, with auto-boost on and off, have the stated net effect and make the stated activations in order |
| `Aw869x.Haptic.Stop` | fairphone/misc/haptic_hv/aw869x.c:376-382 | stop clears the go bit and ends in the standby state |
| `Aw869x.Haptic.JudgeRtpGoing` | fairphone/misc/haptic_hv/aw869x.c:384-397 | the test reads play mode bit and standby bit |
| `Aw8693xs.ModeBitsAgree` | fairphone/misc/haptic_hv/aw8693xs.c:564-664 | after initialisation and any run of driver operations, PLAYCFG3 holds the playing mode's bits and the auto-boost bit equals the flag |
| `Aw8693xs.WritesKeepForeignBits` | fairphone/misc/haptic_hv/aw8693xs.c:436-447 | mode, brake and auto-boost writes leave each other's and the unrelated bits of PLAYCFG3 alone |
| `Aw8693xs.SettingsFitOverRuns` | fairphone/misc/haptic_hv/aw8693xs.c:564-629 | over every run without direct boost or battery writes RAM and RTP modes are boosted with compensation in software, loop and continuous modes bypass the boost with compensation in hardware, and RTP, loop and continuous modes brake, RAM mode not |
| `Aw8693xs.StopLeaves` | fairphone/misc/haptic_hv/aw8693xs.c:645-664 | a stop selects the stop mode with RAM-init off, a forced one leaves the standby bit off, and neither touches boost or battery settings |
| `Aw8693xs.Haptic.PlayMode` | fairphone/misc/haptic_hv/aw8693xs.c:564-629 | the write sequences of all modes have the stated net effect, and standby pulses its bit |
| `Aw8693xs.Haptic.Stop` | fairphone/misc/haptic_hv/aw8693xs.c:645-664 | stop with and without the forced standby: every value SYSCTRL3 takes, and the go that makes the stop mode effective |
| `Aw8693xs.Haptic.AutoBstEnable` | fairphone/misc/haptic_hv/aw8693xs.c:948-961 | flag and bit are set together |
| `Aw8693xs.Haptic.GetF0` | fairphone/misc/haptic_hv/aw8693xs.c:1188-1330 | the mode and brake writes of both F0 measurements; the brake put back is the one the measurement's own mode switch set, so the earlier setting survives exactly when it was that one |
| `Regs.WriteBits` | fairphone/misc/haptic_hv/haptic_hv.c:89-109 | the mask keeps, its complement takes the data |
| `WavLoop.SlotsAreCells` | fairphone/misc/haptic_hv/aw8693xs.c:1069-1085 | after any sequence of masked nibble writes to the packed registers each slot reads the count last written to it modulo 16, or its initial nibble |
| `WavLoop.PackedIsCells` | fairphone/misc/haptic_hv/aw8693xs.c:383-394 | any sequence of writes to the packed registers, unpacked, is the same sequence of writes to eight cells |
| `WavLoop.OtherRegsKept` | fairphone/misc/haptic_hv/aw8693xs.c:383-394 | writes to slots leave every register outside the table alone |
| `WavLoop.Haptic.SetWavLoop` | fairphone/misc/haptic_hv/aw8693xs.c:383-394 | one nibble of one register changes: the slot takes the count modulo 16 and no other slot moves; an index above 7 leaves the table alone and changes one other register |
| `WavLoop.Haptic.GetWavLoop` | fairphone/misc/haptic_hv/aw8693xs.c:1069-1085 | the driver's copy becomes the eight slots: high nibbles at even places, low ones at odd places |
| `Playback.LoopBoundedOverRuns` | fairphone/misc/haptic_hv/haptic_hv.c:873-921 | in every reachable state, RAM loop mode implies that the stop timer is armed or vibrator_work is queued |
| `Playback.LoopEnds` | fairphone/misc/haptic_hv/haptic_hv.c:1060-1068 | once the timer has fired and nothing asks to play again, the loop is over when the queue as it stood is worked off, and stays over |
| `Playback.EndsInStandby` | fairphone/misc/haptic_hv/haptic_hv.c:1108-1112 | vibrator_work with state zero ends in standby with the timer off |
| `Playback.PlayingWorkPlays` | fairphone/misc/haptic_hv/haptic_hv.c:884-921 | either playing item ends in the mode to be activated, continuous for vibrator_work only, or in standby, and the timer runs exactly for loop and continuous modes |
| `Playback.StopWorkStops` | fairphone/misc/haptic_hv/haptic_hv.c:873-882 | stop_work ends in standby with the timer off, whatever state asks for |
| `Playback.RtpWorkStreams` | fairphone/misc/haptic_hv/haptic_hv.c:1489-1569 | rtp_work without a base address does nothing; with one it stops what plays and streams exactly when state asks for it and the stream gets going |
| `Playback.RequestHonouredIff` | fairphone/misc/haptic_hv/haptic_hv.c:1060-1068 | a request stored through activate, the input framework or rtp, before its work item runs, is honoured exactly when the previous playback's timer does not fire in between |
| `Playback.RequestIsQueued` | fairphone/misc/haptic_hv/haptic_hv.c:970-1000 | each of them queues the item named |
| `Playback.StopHonoured` | fairphone/misc/haptic_hv/haptic_hv.c:974-982 | a stop asked for through the input framework with a RAM image in use is honoured when its turn comes, whatever fires in between |
| `Playback.RtpStoreStops` | fairphone/misc/haptic_hv/haptic_hv.c:2339-2351 | a store that names no stream ends what plays once its item's turn has come |
| `Playback.RenewedLoopLost` | fairphone/misc/haptic_hv/haptic_hv.c:1060-1068 | a renewed loop is lost that way |
| `Playback.Haptic.VibratorWorkRoutine` | fairphone/misc/haptic_hv/haptic_hv.c:1104-1136 | the work item's effect on mode and timer |
| `Playback.Haptic.InputVibWorkRoutine` | fairphone/misc/haptic_hv/haptic_hv.c:893-921 | the same for the input framework's item, which has no continuous mode |
| `Playback.Haptic.VibratorTimerFunc` | fairphone/misc/haptic_hv/haptic_hv.c:1060-1068 | the timer clears state and queues vibrator_work unless it is pending |
| `Playback.Haptic.InputPlayback` | fairphone/misc/haptic_hv/haptic_hv.c:970-1000 | what each activate mode queues, and the refusal with -ERANGE while no RAM image is in use |
| `Playback.Haptic.ActivateStore` | fairphone/misc/haptic_hv/haptic_hv.c:2080-2088 | a store is taken only with a RAM image in use |
| `Playback.RefusedWithoutImage` | fairphone/misc/haptic_hv/haptic_hv.c:974-986 | a request changes nothing exactly when no RAM image is in use, a stop included, or it asks for what is already pending |
| `AudioQueue.NoPlayLost` | fairphone/misc/haptic_hv/haptic_hv.c:1815-1865 | over every run the playing commands taken, followed by those queued, are the playing commands stored |
| `AudioQueue.RunKeepsOrder` | fairphone/misc/haptic_hv/haptic_hv.c:1815-1865 | taken followed by queued is what was stored with only idle commands left out, in order |
| `AudioQueue.CountingNeverStarves` | fairphone/misc/haptic_hv/haptic_hv.c:1824-1852 | a producer that counts modulo 32 is never starved: over any run, a work item that finds a command takes one |
| `AudioQueue.TakesNothingIff` | fairphone/misc/haptic_hv/haptic_hv.c:1835-1852 | thinning throws everything away exactly when the difference exceeds 2 and all of at most that many entries have play 0 and low command nibble 1 |
| `AudioQueue.JumpingCountsLoseAll` | fairphone/misc/haptic_hv/haptic_hv.c:1835-1852 | two idle commands ten counts apart are both lost |
| `AudioQueue.ThinDropsOnlyIdle` | fairphone/misc/haptic_hv/haptic_hv.c:1841-1851 | thinning drops the oldest idle entries and as many as the difference allows, nothing else |
| `AudioQueue.OthersSurvive` | fairphone/misc/haptic_hv/haptic_hv.c:1841-1851 | an entry that plays, or whose low command nibble is not 1, is never thinned away |
| `AudioQueue.DiffOfForeignCounts` | fairphone/misc/haptic_hv/haptic_hv.c:1835-1839 | a newest count more than 32 below the oldest wraps to a difference no queue is long enough for |
| `AudioQueue.DiffOfConsecutive` | fairphone/misc/haptic_hv/haptic_hv.c:1824-1839 | with consecutive counts the difference is length - 1 modulo 32 |
| `AudioQueue.HapticAudio.WorkRoutine` | fairphone/misc/haptic_hv/haptic_hv.c:1815-1943 | the command acted on is the oldest survivor and the rest stays queued; with command 1, in range and no stream going, play 1 plays its sequence, loop and gain, 2 stops, 8 sets its gain, and nothing else does |
| `AudioQueue.HapticAudio.ThinQueue` | fairphone/misc/haptic_hv/haptic_hv.c:1841-1851 | the deletion loop with its early exit |
| `AudioQueue.HapticAudio.Insert` | fairphone/misc/haptic_hv/haptic_hv.c:1727-1747 | a stored command becomes the newest entry |
| `Voltage.LadderIsQuotient` | fairphone/misc/haptic_hv/aw8672x.c:345-374 | the ladder is (v-6000)/250 clamped to [0, 14] for every request |
| `Voltage.XsQuantised` | fairphone/misc/haptic_hv/haptic_hv.h:347 | the clamped request fits five bits and decodes to at most one step below itself |
| `Voltage.X869Quantised` | fairphone/misc/haptic_hv/haptic_hv.h:222 | the AW869X code fits bits 5..1 and decodes to at most one step below the clamped request |
| `Voltage.CompensationHolds` | fairphone/misc/haptic_hv/haptic_hv.c:511-533 | the compensated gain is at most 179, is that for every negative or too large gain, and otherwise keeps gain times battery within one battery reading of gain times 4.2 V; up to 128 it is never limited |
| `Voltage.Chip.SetBstVolXs` | fairphone/misc/haptic_hv/aw8693xs.c:365-376 | the masked write keeps the other bits, and the field decodes to at most one step below the clamped request |
| `Voltage.Chip.SetVbatProtect` | fairphone/misc/haptic_hv/aw8693xs.c:1815-1835 | both nibbles decode to at most one step below their clamped requests, in the register selected |
| `Voltage.Chip.SetBstVol8672` | fairphone/misc/haptic_hv/aw8672x.c:341-380 | the code lands in the unlocked register, other bits kept, and the register is locked again |
| `Voltage.Vbat8671` | fairphone/misc/haptic_hv/aw8671x.c:1447-1457 | the reading is 6050 code/4095 rounded down between 3000 and 4500, and the nearer limit elsewhere |

## Left out

- I2C transfers and their errors, GPIO, interrupt registration, sysfs parsing, device tree, logging, firmware lookup: no property beyond plumbing.
- Dual motor, TikTap, multi-pass oscillator calibration, RTP F0 calibration, ASoC and I2S: not built in this configuration.
- aw869xx.c, aw8692x.c, aw8693x.c: near copies of the chips modelled.
- Raw register writes through `reg` and `awrw`: they break register agreement by design.
- A stop between one pass's guard and its chunk: one pass of the refill loop is one step, because what a stopped chip does with RTPDATA is not known.
- `ram_update` during a stream: it clears `rtp_init` and later changes `base_addr`; in the streaming machine both keep their values while the driver runs.
- RtpDriver.Haptic.RtpOscCali: `play_stop` and the clearing of `rtp_init` before `rtp_lock` are one step with the lock sections that follow; the first line is a step of its own.
- Images shorter than four bytes: `ram_load` and `container_update` index the first four bytes without a length check, so the model requires them.
- RtpDriver.Haptic.RtpPlay: followed for a given number of polls, because below a base address of 4 the loop need not end.
- RtpDriver.Haptic.IrqHandle: models the handler between whose lines nothing else comes; any other one is IrqState, IrqTest and IrqRefill at their own times.
- RtpDriver.Haptic.IrqRefill: requires the join to be orderly; from the other states the machine's runs show what goes wrong.
- OscTrim.OscStepRange: requires a theoretical time of at least 100000 with 24 times it below 2^32, since the code divides by `theory_time / 100000` and by the 32-bit product.
- Calibration.F0TrimSafeIff: for `f0_pre` from 1000 to 130000 (100 Hz to 13 kHz), so that the window products fit 32 bits.
- CaliDriver.Trimmer.CalculateCaliData: requires the signed step formula to be defined (non-zero divisor, no signed overflow).
- CaliDriver.Trimmer.UploadLra: the 8693XS unlock and lock writes around the trim registers are not modelled.
- Continuous mode in the timer theorem: `cont_store` and F0 measurement enter it without a timer, so the theorem speaks of RAM loop mode only.
- Aw8693xs.Haptic.GetF0: the mode and brake writes only; the drive settings written in between do not touch them.
- `aw8672x_get_theory_time` and the rate it reads: it reads another register than `set_pwm` writes, so there is no rate agreement to prove.
- `aw8693xs_get_bemf_peak`: debug reads without a caller.
- The `ram_init` guard and the field parsing of the haptic-audio store: the model starts with the list insertion.
- The kernel's linked list: the audio queue is a sequence field, so aliasing of list nodes is not captured.
