# Visio scan-and-actuate core, modelled in Dafny

Visio is firmware for an RP2040 board that turns a VL53L1X time-of-flight sensor and a
PCA9685 PWM controller into a haptic obstacle display. The sensor's region of interest
(ROI) is moved over a 4 x 4 grid of SPAD centres. One distance is taken per grid cell,
and each of sixteen vibration motors is driven from its cell's distance: between 9 and
1300 mm, the closer the obstacle, the stronger the vibration. At 8 mm or less the motor is
switched off. This project models the core of that loop from `src/visio/visio.rs`:

- `vibration.dfy`: the distance-to-strength mapper `vibration_strength_from`.
  - All arithmetic is explicit `u16` (`ints.dfy`). Subtraction and multiplication wrap as in a release build.
  - The debug-build panic is a separate function, `CheckedStrength`.
- `channels.dfy`: `channel_from`, which maps a motor index to a PWM channel.
- `sensor.dfy`: the sensor as the sampler sees it.
  - It is a class with a ranging flag, the ROI centre, and a ghost log of the commands it received.
  - Its range-status replies and distance readings come from scripts fixed when the object is created.
- `sampler.dfy`: the `TOF_CENTERS` table and `update_distances`, which fills the `[u16; 16]` array in place.
  - A method per ROI slot contains the busy-wait.
  - The specification functions `ScanCommands` and `Unread` give the command log and the replies left after any number of slots.
- `actuation.dfy`: the PCA9685 as a class holding sixteen on-tick and sixteen off-tick registers, plus a ghost write log.
  - `update_vibration_strength` is modelled with its sixteen writes.
- `grid.dfy`: `stringify_distances`, the 4 x 4 decimal grid shown on the display.
  - It has a reader that recovers the distances from that text (a left inverse of the formatter).
- `scan_loop.dfy`: one iteration of the main `loop` in `app`.

The wrap-around in `vibration_strength_from` matters. It is natural to read
`max(1300 - d, 0)` as "zero from 1300 mm on". On `u16`, however, the `max` does
nothing, and `1300 - d` wraps for d > 1300.

- Under wrapping arithmetic the strength is 0 beyond 1300 mm only up to 32776 mm.
- For every reading from 32777 to 34066 mm it is nonzero: (68136 - 2d) / 3, so 32777 mm gives 860.
- From 34067 mm on it is 0 again.

The model follows the code, so `BeyondRampStrength` states exactly this window. A debug
build instead panics on every reading above 1300 mm (`CheckedStrength`), and agrees with the release build everywhere else (`CheckedAgreesWithWrapping`).

At the near end, readings of 8 mm or less give a ramp value of 861..866. The clamp to 860 turns
these into 0, not 860, so a touching obstacle silences its motor (`TooCloseIsOff`).

## Model

| member | source | states |
|---|---|---|
| Vibration.VibrationStrengthFrom | src/visio/visio.rs:250-256 | For every u16 reading the strength is at most 860, and it is either 0 or the wrapped ramp value (the clamp only ever zeroes). |
| Vibration.MaxWithZeroIsIdentity | src/visio/visio.rs:251 | `max(x, 0)` on an unsigned value returns x: the guard against negative values does nothing. |
| Vibration.RampStrength | src/visio/visio.rs:251-255 | For 9 <= d <= 1300 the strength is exactly (1300 - d) * 2 / 3 with truncating division. |
| Vibration.TooCloseIsOff | src/visio/visio.rs:251-254 | For d <= 8 the ramp gives 861..866 and the clamp turns it into 0. |
| Vibration.RampMonotone | src/visio/visio.rs:251-255 | On the ramp a closer obstacle never gives a weaker strength. |
| Vibration.BeyondRampStrength | src/visio/visio.rs:251-255 | For d >= 1300 the strength is nonzero exactly when 32777 <= d <= 34066, and there it is (68136 - 2d) / 3. |
| Vibration.KnownStrengths | src/visio/visio.rs:250-256 | 500 -> 533, 1000 -> 200, 1300 -> 0, 9 -> 860, 8 -> 0, 32777 -> 860, 34067 -> 0. |
| Vibration.CheckedStrength | src/visio/visio.rs:251 | In a debug build the mapper panics exactly for d > 1300, when `1300 - d` underflows; otherwise its strength is at most 860. |
| Vibration.CheckedAgreesWithWrapping | src/visio/visio.rs:251 | Wherever the checked (debug-build) mapper does not panic, that is for d <= 1300, it gives the same strength as the wrapping version. |
| Channels.ChannelFrom | src/visio/visio.rs:258-278 | An index resolves to a single channel exactly when it is below 16; every other index resolves to `All`. |
| Channels.ChannelNumber | src/visio/visio.rs:258-278 | Every single channel has a number below 16. |
| Channels.ChannelFromMotor | src/visio/visio.rs:260-275 | Indices 0..15 resolve to a single channel, and its number is the index. |
| Channels.ChannelFromNumber | src/visio/visio.rs:260-275 | Every single channel Cn is reached from index n: channel resolution is onto the sixteen channels. |
| Channels.ChannelFromOutOfRange | src/visio/visio.rs:276 | Every index from 16 up resolves to `All`. |
| Channels.ChannelFromInjective | src/visio/visio.rs:260-275 | Distinct indices below 16 resolve to distinct channels. |
| Sampler.TofCentersTable | src/visio/visio.rs:64-70 | The centre table has exactly 16 entries, one per motor, and they are pairwise distinct. |
| Sampler.FirstAcceptedIsFirst | src/visio/visio.rs:214-223 | The busy-wait stops at the first reply satisfying `Sensor.Accepted` (Valid, SignalFailure or MinRangeFail, the arms at lines 215-217). Every earlier reply, bus errors included, only led to another poll. |
| Sampler.AfterSlotCount | src/visio/visio.rs:213-224 | If a script holds an accepted reply, one busy-wait ends inside it and uses up exactly one accepted reply. |
| Sampler.UnreadCount | src/visio/visio.rs:207-225 | Filling n slots uses up exactly n accepted replies. |
| Sampler.SampleSlot | src/visio/visio.rs:208-224 | One slot sends stop, set-ROI-centre(`TOF_CENTERS[idx]`), start, one poll per reply up to and including the first accepted one, then clear-interrupt and get-distance. It returns the next reading and leaves the replies after the accepted one unread. |
| Sampler.NextDistance | src/visio/visio.rs:207-225 | Slot idx of the sampler moves the sensor from "idx slots done" to "idx + 1 slots done" and yields the idx-th reading. |
| Sampler.UpdateDistances | src/visio/visio.rs:206-226 | The array ends up holding the next sixteen readings, in slot order. The sensor's log grows by exactly the sixteen slots' commands, and the unread replies are those left after sixteen busy-waits. |
| Sampler.PollsHaveNoMilestones | src/visio/visio.rs:213-224 | A busy-wait neither re-aims the sensor nor reads a distance. |
| Sampler.SlotMilestones | src/visio/visio.rs:208-220 | Whatever the busy-wait does, a slot aims at its own centre once and then reads one distance. |
| Sampler.MilestonesAfterSlot | src/visio/visio.rs:207-225 | Appending a slot appends exactly its aim and its read to the milestones. |
| Sampler.AimThenReadShape | src/visio/visio.rs:207-220 | In the aim/read sequence, entry 2i aims at `TOF_CENTERS[i]` and entry 2i + 1 reads. |
| Sampler.ScanMilestones | src/visio/visio.rs:207-225 | For any status script, the sensor is re-aimed before every read and each motor's centre is read exactly once, in motor order. |
| Sampler.PollCountPolls | src/visio/visio.rs:214 | A busy-wait of n polls contains n polls. |
| Sampler.SlotPollCount | src/visio/visio.rs:208-224 | The only polls of a slot are those of its busy-wait. |
| Sampler.ScanPollCount | src/visio/visio.rs:207-225 | Every status reply consumed answers exactly one poll: none is skipped and none is read twice. |
| Actuation.Store | src/visio/visio.rs:245-246 | A write to a single channel sets that channel's register and no other. A write to `All` sets all sixteen. |
| Actuation.Pca9685.SetChannelOnOff | src/visio/visio.rs:245-246 | The addressed on and off registers take the given ticks. The write is logged. Ticks must fit the 12-bit counter. |
| Actuation.MotorStrengths | src/visio/visio.rs:243-244 | The strength each motor is driven at is at most 860. |
| Actuation.ActuationWrites | src/visio/visio.rs:241-247 | One pass makes 16 writes. Write i goes to the single channel numbered i, with on = 0 and off <= 860. |
| Actuation.ActuationWritesDistinct | src/visio/visio.rs:241-247 | No channel is written twice in one pass, and the broadcast channel `All` is never written. |
| Actuation.UpdateVibrationStrength | src/visio/visio.rs:232-248 | The log grows by exactly the sixteen writes (`channel_from(idx)`, 0, strength of `distances[idx]`), in index order. Afterwards every motor rises at tick 0 and falls at the strength of its own distance, whatever the registers held before. |
| Actuation.FarReadingsAreSilent | src/visio/visio.rs:250-256 | Readings from 1300 to 32776 mm in every cell leave every motor still. |
| Actuation.UniformObstacle | src/visio/visio.rs:241-256 | An obstacle at 500 mm in every cell drives every motor at 533. |
| Actuation.CloserObstacleStrengthens | src/visio/visio.rs:241-256 | On the ramp, bringing one cell's obstacle closer never weakens that motor and leaves every other motor unchanged. |
| Grid.Dec | src/visio/visio.rs:308-309 | `{}` of an unsigned number is a non-empty run of decimal digits with no leading zero. |
| Grid.LeadingDigitsOfRun | src/visio/visio.rs:308-309 | A formatted number followed by a separator or the end of the text is read up to exactly that point. |
| Grid.ValueOfDec | src/visio/visio.rs:308-309 | Reading the decimal text of n gives n. |
| Grid.ParseCellOfDec | src/visio/visio.rs:308-326 | A formatted cell followed by a non-digit reads back as that value. |
| Grid.ParseCellsFromRoundTrip | src/visio/visio.rs:306-327 | Reading cells i..15 of the grid text recovers distances i..15. |
| Grid.StringifyDistances | src/visio/visio.rs:306-327 | The grid text (each cell in decimal, two spaces between cells, a line break between rows, nothing trailing) reads back as exactly the sixteen distances. |
| Grid.StringifyInjective | src/visio/visio.rs:306-327 | Different distance arrays never show the same text. |
| ScanLoop.ScanStep | src/visio/visio.rs:196-201 | One loop pass refreshes the array from the sensor, leaving it ranging and aimed at the last centre. It shows text that reads back as exactly those distances. It then drives every motor from exactly those distances. |

## Left out

- Peripheral bring-up in `app`, the heap set-up in `init_heap`, and the display drivers behind `display_text` and `show_err`. They are one-shot hardware configuration or foreign drawing code. `ScanStep` returns the text it would display instead of drawing it.
- The internals of the VL53L1X and PCA9685 driver crates and of the shared I2C bus. The sensor answers from scripts given at construction. The PWM controller is sixteen pairs of tick registers. I2C traffic and register encodings are not modelled.
- `.unwrap()` on driver calls: every call other than the status poll is modelled as succeeding. A failed status poll (`Err`) is modelled as `BusError`, which, as in the code, only leads to another poll.
- Actuation.UpdateVibrationStrength and ScanLoop.ScanStep use the release build's wrapping arithmetic only. In a debug build the first reading above 1300 mm panics inside the actuation pass and halts the device; that build is captured only per reading, by `CheckedStrength`.
- Actuation.Pca9685.SetChannelOnOff: the driver's rejection of ticks above 4095, which would end in a panic through `unwrap`, is stated as a precondition. `UpdateVibrationStrength` meets it, because every strength is at most 860.
- Termination of the busy-wait: the code does not bound it. The model ends it by requiring at least sixteen accepted replies in the status script. A sensor that never reports an accepted status would hang the firmware, and that is not modelled.
- The outer `loop` of `app` never ends; `ScanStep` models one iteration of it.
- The sensor's full range-status enumeration is folded into `Pending` and `OtherFailure`. Only Valid, SignalFailure and MinRangeFail matter to the code.
- Timing and configuration constants: timing budget, inter-measurement period, PWM prescale, and ROI size.
- Sampler.UpdateDistances: the order of the array writes is not logged. The final array contents and the order of the distance reads in the sensor log (`ScanMilestones`) are stated instead.
