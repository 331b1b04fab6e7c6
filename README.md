# Raspberry Pi GPIO demos: a verified model of their control logic

This project models, in Dafny, the control logic of five demos for a
Raspberry Pi's GPIO pins and PCF8591 analog converter. It proves
properties of that model.

- **Laser intrusion alarm** (`laser-security-system-demo`). A button thread,
  a light-sensor poller and a main loop share one FIFO event bus.
  - The bus is the class `EventBus`. Its `pending` sequence is what the next
    receive sees. The ghost histories `sent == delivered + pending` state the
    FIFO promise as an invariant.
  - The poller's latch `laser_light_is_blocking` is the class `AlarmChecker`.
    Its step is the pure `PollStep`. A run over a finite sample stream is
    described by `LatchAfter`, `Fires` and `Alarms`.
  - The main loop's armed flag and its four output pins (laser, status
    indicator, alarm trigger, alarm buzzer) are the class `SecuritySystem`.
    Its `Snapshot()` is the datatype `Controls`. Each tick is specified by the
    pure `Dispatch`, and a run of ticks by `Replay`.
- **PS2 joystick** (`ps2-joystick-with-8591`): the status text built from the
  three bytes, and the rule that a line is reported only if the text is not
  empty. `Parse` reads a status text back into the reading's classification,
  which shows the text encodes that classification exactly.
- **Rain detector** (`raining-detector-with-8591`): the change filter over
  `last_raining_flag` and `last_raining_analog_value`. `Changes` describes the
  reports of a whole run.
- **Button-controlled laser** (`button-control-laser`) and **servo gate**
  (`sg90-motor-with-pwm`): a flag flipped on every press (`Toggle.Toggled`),
  the laser level written, and the alternating servo commands.

The poller is **not** a rising-edge detector. The comment above it
(laser-security-system-demo/src/main.rs:82-84) says that blocking the beam
drives the analog value to 255 and then fires an alarm. A rising-edge filter
on the `> 20` threshold would raise one alarm on the stream
`[5, 25, 30, 25, 254]`. The code at
laser-security-system-demo/src/main.rs:99-104 behaves differently:

- its `else if analog_value < 255` clears a set latch on any sample below 255;
- so that stream raises two alarms (proved in `SampleStreams`);
- and any run of samples in 21..254 raises an alarm on every other sample:
  at the even positions from a clear latch (`IntermediateRunAlternates`) and
  at the odd positions from a set one (`IntermediateRunAlternatesFromSet`).

The model follows the code.

Sensor readings, pin levels, the number of completed button presses and
whether motor initialisation succeeded are all inputs. Each loop is run over
a finite prefix of its input. Hardware writes become field or local-variable
updates, or entries in a returned trace.

## Model

| member | source | states |
|---|---|---|
| LaserSecurity.EventBus.constructor | laser-security-system-demo/src/main.rs:140 | the bus starts empty with no event sent or delivered; the FIFO invariant holds |
| LaserSecurity.EventBus.Send | laser-security-system-demo/src/main.rs:75 | a producer's send never blocks and appends the event at the back of the queue; the FIFO invariant is kept |
| LaserSecurity.EventBus.TryRecv | laser-security-system-demo/src/main.rs:166 | the non-blocking receive returns the oldest event and removes only it, or returns none on an empty queue; delivered events stay a prefix of sent ones |
| LaserSecurity.AlarmChecker.constructor | laser-security-system-demo/src/main.rs:92 | the latch starts clear |
| LaserSecurity.AlarmChecker.Sample | laser-security-system-demo/src/main.rs:97-104 | one poller iteration updates the latch as `PollStep` says and sends exactly one `AlarmHappened` when it fires, nothing otherwise |
| LaserSecurity.AlarmChecker.Poll | laser-security-system-demo/src/main.rs:94-111 | the poller loop over a sample stream ends with latch `LatchAfter` and appends exactly `Alarms` to the bus, nothing else on the bus changing |
| LaserSecurity.PollStepFacts | laser-security-system-demo/src/main.rs:99-104 | a sample fires iff the latch was clear and the value exceeds 20; firing sets the latch; a non-firing sample below 255 clears it; a set latch and 255 hold it without firing |
| LaserSecurity.AlarmsFollowFires | laser-security-system-demo/src/main.rs:99-101 | the events sent over a run are all `AlarmHappened`, one per firing sample |
| LaserSecurity.FiresAt | laser-security-system-demo/src/main.rs:99-104 | sample i fires exactly when the latch left by the samples before it is clear and sample i exceeds 20 |
| LaserSecurity.LowSamplesNeverFire | laser-security-system-demo/src/main.rs:99 | a sample of 20 or less never raises an alarm, whatever came before |
| LaserSecurity.NoTwoConsecutiveFires | laser-security-system-demo/src/main.rs:99-104 | no two consecutive samples both raise an alarm |
| LaserSecurity.AlarmBound | laser-security-system-demo/src/main.rs:99-104 | for any starting latch, n samples sending k alarms satisfy 2k + 1 <= n + (1 if the latch started clear) + (1 if it ends set) |
| LaserSecurity.AlarmBoundFromClear | laser-security-system-demo/src/main.rs:92-104 | from the clear latch the poller starts with, n samples send at most (n + 1) / 2 alarms |
| LaserSecurity.PollConcat | laser-security-system-demo/src/main.rs:94-111 | polling s then t is polling t from the latch s left, with the alarms of both concatenated |
| LaserSecurity.FullScaleHoldsLatch | laser-security-system-demo/src/main.rs:102 | while the sensor reads 255 a set latch stays set and nothing is sent |
| LaserSecurity.OneAlarmPerFullScaleRun | laser-security-system-demo/src/main.rs:99-104 | from a clear latch, a sample above 20 followed by any run of 255s sends exactly one alarm and leaves the latch set |
| LaserSecurity.IntermediateRunAlternates | laser-security-system-demo/src/main.rs:99-104 | from a clear latch, samples in 21..254 fire exactly at the even positions, and the latch ends set iff the run is odd in length |
| LaserSecurity.IntermediateRunAlternatesFromSet | laser-security-system-demo/src/main.rs:99-104 | from a set latch, samples in 21..254 fire exactly at the odd positions, and the latch ends set iff the run is even in length |
| LaserSecurity.SampleStreams | laser-security-system-demo/src/main.rs:99-104 | [5, 25, 30, 25, 254] sends two alarms; [5, 25, 255, 25] sends one |
| LaserSecurity.Startup | laser-security-system-demo/src/main.rs:149-159 | after startup the system is disarmed with laser and indicator Low, consistent, and the alarm pins keep their power-up levels |
| LaserSecurity.SecuritySystem.constructor | laser-security-system-demo/src/main.rs:143-159 | creating the pins at any levels and calling the toggle with `true` yields the `Startup` state |
| LaserSecurity.SecuritySystem.ToggleSecuritySystem | laser-security-system-demo/src/main.rs:115-134 | drives laser and indicator to the same level, High iff the system was not already enabled, and touches nothing else |
| LaserSecurity.Dispatch | laser-security-system-demo/src/main.rs:166-185 | a button tick flips `armed`, keeps the alarm pins and leaves laser == indicator == level of the new `armed` whatever held before; an alarm tick sets trigger High and buzzer Low whether armed or not, changing nothing else; an empty tick sets trigger Low and buzzer High; every tick keeps the invariant |
| LaserSecurity.Drained | laser-security-system-demo/src/main.rs:165-166 | after k ticks exactly the first k events (or all, if fewer) have left the queue |
| LaserSecurity.SecuritySystem.Tick | laser-security-system-demo/src/main.rs:166-185 | one main-loop pass removes at most the oldest event and moves the pins and flag as `Dispatch` says |
| LaserSecurity.SecuritySystem.Run | laser-security-system-demo/src/main.rs:165-188 | k passes deliver the queue's first k events in order and leave the state `Replay` gives |
| LaserSecurity.ReplayKeepsConsistent | laser-security-system-demo/src/main.rs:165-185 | whatever the queue, every tick keeps laser == indicator == level of `armed` |
| LaserSecurity.InvariantAfterEveryTick | laser-security-system-demo/src/main.rs:149-185 | from startup, the invariant holds after any number of ticks |
| LaserSecurity.DoubleToggleRestores | laser-security-system-demo/src/main.rs:167-175 | two button ticks in a row restore `armed`, the laser and the indicator |
| LaserSecurity.ReplayAppliesInOrder | laser-security-system-demo/src/main.rs:165-185 | the first k ticks apply the first k queued events one by one, oldest first |
| LaserSecurity.IdleAfterDrain | laser-security-system-demo/src/main.rs:181-184 | once the queue is empty, each further tick leaves trigger Low and buzzer High, the rest as the queued events left it |
| LaserSecurity.ArmedFollowsPresses | laser-security-system-demo/src/main.rs:167-180 | after handling a sequence of events `armed` has flipped iff it held an odd number of button presses; alarms never change it |
| LaserSecurity.EndToEndScenario | laser-security-system-demo/src/main.rs:149-185 | startup, a press, then an alarm: the system arms with laser and indicator High, the alarm sets trigger High and buzzer Low, and the next idle tick resets them |
| Joystick.BuildStatus | ps2-joystick-with-8591/src/main.rs:36-44 | the status text is the x part, then the y part, then the z part, built from empty, and it reads back as the reading's classification |
| Joystick.Iteration | ps2-joystick-with-8591/src/main.rs:36-46 | a line is reported iff x is 0 or 255, y is 0 or 255, or z is 0, and the reported text is the nonempty status |
| Joystick.StatusEmptyIff | ps2-joystick-with-8591/src/main.rs:38-46 | the status is empty exactly when both axes are strictly inside 1..254 and z is not 0 |
| Joystick.ParseStatus | ps2-joystick-with-8591/src/main.rs:36-44 | the status text reads back as "Left"/"Right"/neither from x, "Up"/"Down"/neither from y and "pressed" from z == 0, so at most one of each pair appears |
| Joystick.StatusDeterminesReading | ps2-joystick-with-8591/src/main.rs:38-44 | two readings give the same text exactly when they classify the same |
| RainDetector.Monitor | raining-detector-with-8591/src/main.rs:31-57 | the loop reports exactly `Changes` of the readings (flag true iff the pin reads Low) from the initial (false, 255), and ends with the last pair equal to the latest reading |
| RainDetector.ChangesNoRepeats | raining-detector-with-8591/src/main.rs:44-57 | the first report differs from the initial pair and no report equals the one before it |
| RainDetector.ChangesOfNoRepeats | raining-detector-with-8591/src/main.rs:44-57 | a stream that never repeats a pair is reported in full |
| RainDetector.ChangesIdempotent | raining-detector-with-8591/src/main.rs:44-57 | filtering the reports a second time changes nothing |
| RainDetector.ChangesAreReadings | raining-detector-with-8591/src/main.rs:48-54 | every report is one of the readings |
| RainDetector.LastReportIsLatest | raining-detector-with-8591/src/main.rs:44-50 | the last pair reported (or the initial one) is always the latest reading |
| RainDetector.SilentIffSteady | raining-detector-with-8591/src/main.rs:44-48 | nothing is reported iff every reading equals the last pair |
| RainDetector.DryFullScaleFirstIsSilent | raining-detector-with-8591/src/main.rs:32-45 | a first reading of not-raining with value 255 produces no report |
| Toggle.ToggledParity | button-control-laser/src/main.rs:37-43 | after n presses the flag has flipped iff n is odd |
| ButtonLaser.Run | button-control-laser/src/main.rs:35-50 | the pin is first driven Low with the flag false; after n presses the flag is true iff n is odd, the pin is High iff the flag is, and the k-th write is High iff k is odd |
| ButtonLaser.TwoPressesRestore | button-control-laser/src/main.rs:41-47 | two more presses restore the flag and the pin level |
| ServoGate.Run | sg90-motor-with-pwm/src/main.rs:39-62 | if motor initialisation fails the program exits before creating the button pin, issuing no command; otherwise n presses issue `Commands(n)` and leave `open_gate` true iff n is odd |
| ServoGate.CommandAt | sg90-motor-with-pwm/src/main.rs:55-61 | press i rotates to the positive position iff `open_gate` was false before it |
| ServoGate.CommandsAlternate | sg90-motor-with-pwm/src/main.rs:53-62 | the k-th press (counting from 1) rotates to the positive position iff k is odd, so commands alternate starting with positive |

## Left out

- The button debouncer `GpioUtil::block_until_button_pressed` is not part of this model. Its definition is not in the gpio_util source. A completed press is an abstract input: a `Send(ButtonPressed)` call, or one count of `presses`.
- Threads, `thread::sleep` and the timing periods (10, 50 and 100 ms) are not modelled. Time and the channel's thread safety cannot be stated on sequential calls. The bus's contracts hold for any interleaving of `Send`, `Sample` and `Tick` calls. `SecuritySystem.Run` runs the main loop with no producer sending meanwhile.
- A disconnected channel is not a separate receive result. The `_` arm treats it like an empty queue, and `main` keeps a sender alive, so the model never produces it.
- Hardware access is not modelled: rppal pin creation and writes, the PCF8591 I2C reads, and the `unwrap()` panics on their failure. Readings and levels are inputs, and pins are fields or locals.
- The console text (`println!`) and the formatted rain status string are left out. A rain report is the (flag, value) pair. A joystick report is the status text without its "Joystick status:" prefix.
- servo_motor_util's PWM duty cycles are left out, and so are the ignored results of the rotate calls. Only the command chosen is modelled.
- button-control-laser's 100 ms pause after the initial Low write is left out, as timing.
- The other demos are left out because they have no control logic: the dimming LED (a float passed from read to write), the blinking LED, and the wasm/Node stubs.
