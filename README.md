# Sonu voice controller and H-bridge driver in Dafny

This project models the deterministic core of the Sonu robot's voice controller
(`src/sonu_voice.py`) and of its motor driver (`src/motor_drive.py`), and proves
properties of that model.

- **Text** (`text.dfy`): the Python string operations the controller uses.
  These are `str.lower`, `str.strip`, the substring test `p in t`, and `any(p in t for p in ps)`.
- **VoiceIntent** (`voice_intent.dfy`): the pure decision logic.
  - `is_wake`, `is_sleep` and `classify_intent` over the phrase lists WAKE_PHRASES,
    SLEEP_PHRASES, MOVE_WORDS and CONTINUE_WORDS.
  - The branch `handle_move_command` selects, as the value `MoveCommand(t)`: a drive
    `Go(direction, Step|Long)`, `Halt` or `NotUnderstood`.
- **MotorDrive** (`motor_drive.dfy`): the H-bridge as a class `HBridge` with its
  four pins AIN1/AIN2/BIN1/BIN2.
  - Every single `on()`/`off()` write is recorded in a ghost trace.
  - Every `sleep(t)` is recorded as a hold of the current pins.
  - `forward`/`backward`/`left`/`right`/`stop` are methods over these pins.
- **SonuVoice** (`sonu_voice.dfy`): one iteration of the `main` loop.
  - As a specification function, `MainStep`: a step over the state
    `Mode(awake, continuous)` that produces a log of effects.
  - An effect is a spoken line, a motor stop, a timed drive or a request to the
    language model.
  - `RunTurns` is the loop over a sequence of turns.
  - A class `Controller` holds the `awake` flag, the global `continuous_state`
    label, the effect log and an `HBridge`. Its methods `Speak`, `StopAll`,
    `HandleMove`, `HandleChat`, `Iterate` and `Run` are proved against
    `MainStep`/`RunTurns`.
  - The controller's invariant ties the bridge's holds to the drives in the log.

The outside world enters through each `Turn(heard, pick, brain)`:

- the recognised text;
- the index `random.choice` picks, reduced modulo the list length;
- what the language model answered (`Answered(reply)` or `Failed`).

The drive durations are a `Timing` parameter.

## Model

| member | source | states |
|---|---|---|
| Text.Lower | src/sonu_voice.py:137 | `str.lower` keeps the length, maps every upper-case letter to its lower-case partner (code point plus 32), and leaves every other character as it is |
| Text.LowerIdempotent | src/sonu_voice.py:147-148 | lower-casing twice equals lower-casing once, so `is_sleep(t)` on the already-lowered `t` sees the same text |
| Text.TrimStartSpec | src/sonu_voice.py:97 | the left strip drops only whitespace, keeps a suffix of the text, and that suffix starts with a non-space |
| Text.TrimEndSpec | src/sonu_voice.py:97 | the right strip drops only whitespace, keeps a prefix of the text, and that prefix ends with a non-space |
| Text.Strip | src/sonu_voice.py:97 | `text.strip()` is the piece of the text with only whitespace before and after it, starting and ending with a non-space; it is empty exactly when the text is all whitespace |
| Text.StripUnique | src/sonu_voice.py:97 | any non-empty piece of the text with only whitespace around it and none at its ends is `text.strip()`, so the strip is unique |
| Text.Contains | src/sonu_voice.py:138 | `p in t`, defined as an occurrence of `p` at some position of `t`; `Text.ContainsTrans` and `Text.NotContains` give its meaning for substrings and missing characters |
| Text.ContainsAny | src/sonu_voice.py:138 | `any(p in t for p in ps)`: some listed pattern occurs in the text; `Text.FirstMatch` returns None exactly when it is false, and otherwise the first pattern that occurs |
| Text.FirstMatch | src/sonu_voice.py:224-265 | the index of the first listed pattern that occurs: every earlier pattern is absent, and None exactly when no pattern occurs |
| VoiceIntent.IsWake | src/sonu_voice.py:136-138 | true exactly when the lower-cased text contains some wake phrase |
| VoiceIntent.IsSleep | src/sonu_voice.py:141-143 | true exactly when the lower-cased text contains some sleep phrase |
| VoiceIntent.WakeSimplified | src/sonu_voice.py:51-56 | waking depends only on "hey son" and "hey soonu", because "hey sonu" and "hey sono" contain "hey son" |
| VoiceIntent.ContinueWordsHaveMoveWord | src/sonu_voice.py:67-75 | every CONTINUE_WORDS phrase contains some MOVE_WORDS entry |
| VoiceIntent.ContinueImpliesMove | src/sonu_voice.py:150 | a continuous phrase in the text brings a move word with it, so the second disjunct of the move test is redundant |
| VoiceIntent.ClassifyIntentMeaning | src/sonu_voice.py:146-152 | sleep iff a sleep phrase occurs; move iff no sleep phrase and some move word (including "stop"); chat iff no sleep phrase and no move word |
| VoiceIntent.ClassifyIntent | src/sonu_voice.py:146-152 | `classify_intent`, whose meaning `VoiceIntent.ClassifyIntentMeaning` states as three iff's over the phrase lists |
| VoiceIntent.SleepPreemptsMove | src/sonu_voice.py:146-149 | any text with a sleep phrase classifies as sleep, whatever move words it also has |
| VoiceIntent.SonuSleepForwardIsSleep | src/sonu_voice.py:146-149 | "sonu sleep forward" classifies as sleep |
| VoiceIntent.StepCommand | src/sonu_voice.py:245-265 | a single-step branch never produces a long (continuous) drive |
| VoiceIntent.MoveCommandMeaning | src/sonu_voice.py:224-265 | the handler picks a continuous drive iff some continuous phrase occurs, and "not understood" iff no move word occurs |
| VoiceIntent.ContinuePhrasesListed | src/sonu_voice.py:224-243 | the four continuous tests of the handler succeed exactly when some CONTINUE_WORDS phrase occurs |
| VoiceIntent.MoveWordsListed | src/sonu_voice.py:248-262 | the single-step tests of the handler succeed exactly when some MOVE_WORDS entry occurs |
| VoiceIntent.MoveCommandFollowsPhraseLists | src/sonu_voice.py:224-265 | continuous phrases win over single steps, and each group goes by list order (forward > backward/back > left > right > stop > not understood) |
| VoiceIntent.MoveCommand | src/sonu_voice.py:224-265 | the branch `handle_move_command` takes, proved equal to the list-driven first-match reading by `VoiceIntent.MoveCommandFollowsPhraseLists` |
| VoiceIntent.ForwardLacksPhrases | src/sonu_voice.py:51-75 | "forward" contains no wake phrase, no sleep phrase and no continuous phrase |
| VoiceIntent.ForwardIsSingleStep | src/sonu_voice.py:146-152 | "forward" is not a wake phrase, classifies as move, and the handler takes a single forward step |
| VoiceIntent.MoveIntentUnderstood | src/sonu_voice.py:150 | text classified as move never reaches the handler's "not understood" branch |
| MotorDrive.Set | src/motor_drive.py:11-14 | one `on()`/`off()` sets that pin and leaves the other three untouched |
| MotorDrive.Pattern | src/motor_drive.py:10-38 | each direction's pattern drives each motor in exactly one polarity, so neither motor has both inputs on |
| MotorDrive.PatternInjective | src/motor_drive.py:10-38 | the four directions have four different pin patterns |
| MotorDrive.PatternSymmetry | src/motor_drive.py:10-38 | backward is forward with both motors reversed, each direction is its opposite reversed, and left/right are mirror images of each other |
| MotorDrive.TransitionsSafe | src/motor_drive.py:10-46 | writing a safe pattern pin by pin from all-off, and clearing it pin by pin, never passes through a shorted state |
| MotorDrive.StopIdempotent | src/motor_drive.py:42-46 | from any outputs `stop()` ends with every pin off, and a second `stop()` writes only all-off states |
| MotorDrive.HBridge.constructor | src/motor_drive.py:5-8 | the pins start off, with one all-off state in the trace and no holds |
| MotorDrive.HBridge.Write | src/motor_drive.py:11 | a pin write changes only that pin and appends the new state to the trace |
| MotorDrive.HBridge.Sleep | src/motor_drive.py:15 | `sleep(t)` leaves the pins alone and records a hold of the current pins for `t` |
| MotorDrive.HBridge.Stop | src/motor_drive.py:42-46 | `stop()` writes AIN1, AIN2, BIN1, BIN2 off in that order, through safe states only, and leaves all pins off |
| MotorDrive.HBridge.Run | src/motor_drive.py:10-16 | sets a safe pattern pin by pin, holds it for `t`, then stops; the trace stays safe and the pins end off |
| MotorDrive.HBridge.Forward | src/motor_drive.py:10-16 | `forward(t)` holds (on,off,on,off) for `t` and returns with all pins off |
| MotorDrive.HBridge.Backward | src/motor_drive.py:18-24 | `backward(t)` holds (off,on,off,on) for `t` and returns with all pins off |
| MotorDrive.HBridge.Left | src/motor_drive.py:26-32 | `left(t)` holds (off,on,on,off) for `t` and returns with all pins off |
| MotorDrive.HBridge.Right | src/motor_drive.py:34-40 | `right(t)` holds (on,off,off,on) for `t` and returns with all pins off |
| SonuVoice.Seconds | src/sonu_voice.py:227-259 | continuous moves last LONG_MOVE_SEC, forward and backward steps STEP_FORWARD_SEC, left and right steps STEP_TURN_SEC, and every duration is non-negative |
| SonuVoice.Choose | src/sonu_voice.py:226 | `random.choice` returns an element of the list |
| SonuVoice.Responses | src/sonu_voice.py:226-259 | forward is acknowledged from RESP_FORWARD, backward from RESP_BACKWARD, left from RESP_LEFT and right from RESP_RIGHT |
| SonuVoice.Speech | src/sonu_voice.py:96-101 | `speak` says at most one line, and nothing exactly when the text is blank |
| SonuVoice.SpeechMeaning | src/sonu_voice.py:96-101 | blank text says nothing; otherwise exactly one line is said, the text without its surrounding whitespace, the only piece with whitespace alone around it and at neither end |
| SonuVoice.TidySpoken | src/sonu_voice.py:96-101 | text without surrounding whitespace is said word for word |
| SonuVoice.ResponsesTidy | src/sonu_voice.py:77-90 | every response line is non-empty with no surrounding whitespace |
| SonuVoice.FixedLinesTidy | src/sonu_voice.py:282-318 | the apology (:282), the greeting (:294) and "Yes?" (:318) are non-empty with no surrounding whitespace |
| SonuVoice.ChoiceSpoken | src/sonu_voice.py:226 | a response picked from a list of such lines is said word for word |
| SonuVoice.AcknowledgementTidy | src/sonu_voice.py:226-265 | every acknowledgement the move handler picks is said word for word |
| SonuVoice.AcknowledgedShape | src/sonu_voice.py:221-265 | stopping, saying one line from the command's list and following up gives the move handler's whole log shape |
| SonuVoice.MoveEffectsShaped | src/sonu_voice.py:221-265 | the move handler's log is exactly: a stop, one acknowledgement from the command's own list (RESP_FORWARD, RESP_BACKWARD, RESP_LEFT, RESP_RIGHT, RESP_STOP or RESP_NO_COMMAND) said word for word, then the drive with the command's direction and span, a second stop for "stop", or nothing when not understood |
| SonuVoice.MoveEffects | src/sonu_voice.py:221-265 | `handle_move_command`'s effects for a command, whose shape `SonuVoice.MoveEffectsShaped` states |
| SonuVoice.ChatEffects | src/sonu_voice.py:271-285 | `handle_chat`'s effects, whose content `SonuVoice.ChatEffectsShape` states |
| SonuVoice.ChatEffectsShape | src/sonu_voice.py:271-285 | chat sends one request, the persona followed by the user's text; then it says the reply stripped of surrounding whitespace, nothing for a blank reply, and exactly "I had a problem thinking." when the call failed |
| SonuVoice.RunTurnsSnoc | src/sonu_voice.py:296-337 | running one more turn is one more main-loop step after the earlier ones |
| SonuVoice.MainStep | src/sonu_voice.py:296-337 | one iteration of `main`'s loop; `SonuVoice.AsleepStep` through `SonuVoice.StepSafety` state what it does in each branch |
| SonuVoice.RunTurns | src/sonu_voice.py:296-337 | the loop over finitely many turns; `SonuVoice.RunTurnsSnoc`, `SonuVoice.RunSafety` and `SonuVoice.AsleepUntilWoken` state its meaning |
| SonuVoice.EmptyTextIgnored | src/sonu_voice.py:301-302 | empty text changes neither the mode nor anything else, asleep or awake |
| SonuVoice.AsleepStep | src/sonu_voice.py:297-308 | asleep, a wake phrase wakes the robot with one RESP_WAKE line; any other text changes nothing |
| SonuVoice.AwakeWakeOnlyAnswers | src/sonu_voice.py:317-319 | awake, a wake phrase only gets "Yes?", even with sleep or move words present |
| SonuVoice.SleepStep | src/sonu_voice.py:324-330 | the sleep branch says a RESP_SLEEP line, then stops the motors, clears the label and sleeps |
| SonuVoice.MoveAndChatStayAwake | src/sonu_voice.py:332-335 | move and chat keep the robot awake; a move leaves its command's label and is never "not understood"; chat leaves the mode as it was |
| SonuVoice.ChatFailureApologises | src/sonu_voice.py:271-283 | when the language model fails, the only effects are the request and one apology |
| SonuVoice.StepSafety | src/sonu_voice.py:296-337 | every step keeps a sleeping robot unlabelled, drives at most once, gives each drive a stop of its own before it, and never drives while asleep |
| SonuVoice.SpeechNoDrive | src/sonu_voice.py:96-101 | speaking never drives |
| SonuVoice.EachDriveStoppedAppend | src/sonu_voice.py:296-337 | joining two logs in which every drive has its own earlier stop keeps that so |
| SonuVoice.EachDriveStoppedMeaning | src/sonu_voice.py:296-337 | a stop of its own for every drive gives a stop before the first drive and a stop between any two drives |
| SonuVoice.ShapedDriveStopped | src/sonu_voice.py:221-265 | the move handler's drive has the handler's opening stop as its own |
| SonuVoice.RunSafety | src/sonu_voice.py:296-337 | over any run of the loop a sleeping robot stays unlabelled, a stop comes before the first drive, and between any two drives the motors are stopped |
| SonuVoice.AsleepUntilWoken | src/sonu_voice.py:297-308 | a sleeping robot that hears no wake phrase stays asleep and does nothing, for any number of turns |
| SonuVoice.WakeTurn | src/sonu_voice.py:305-307 | from sleep, "hey sonu" wakes the robot with one RESP_WAKE line |
| SonuVoice.ForwardTurn | src/sonu_voice.py:221-250 | awake, "forward" stops the motors, says a RESP_FORWARD line and takes one forward step |
| SonuVoice.SleepTurn | src/sonu_voice.py:324-330 | awake, "sleep now" says a RESP_SLEEP line, stops the motors and puts the robot to sleep |
| SonuVoice.RunThreeTurns | src/sonu_voice.py:296-337 | three loop iterations compose their modes and effect logs in order |
| SonuVoice.WakeStepSleepScenario | src/sonu_voice.py:296-337 | "hey sonu", "forward", "sleep now" from sleep give exactly: wake line; stop, forward line, forward step; sleep line, stop; ending asleep |
| SonuVoice.HoldsOfSnoc | src/sonu_voice.py:227-259 | appending an effect adds a bridge hold exactly when the effect is a drive, with that drive's pattern and duration |
| SonuVoice.Controller.constructor | src/sonu_voice.py:291-294 | `main` starts asleep with no label and the motors off, having said the greeting |
| SonuVoice.Controller.Speak | src/sonu_voice.py:96-101 | the log grows by exactly what `speak` says; the mode and motors are unchanged |
| SonuVoice.Controller.StopAll | src/sonu_voice.py:221 | `stop_all` logs one stop and leaves the motors off |
| SonuVoice.Controller.DriveFor | src/sonu_voice.py:227 | one timed drive on the bridge, logged, with the bridge's hold matching the drive |
| SonuVoice.Controller.HandleMove | src/sonu_voice.py:216-265 | the log grows by the move handler's effects for `MoveCommand(lower(text))`, and `continuous_state` becomes that command's label |
| SonuVoice.Controller.SingleStep | src/sonu_voice.py:245-265 | the single-step chain logs the acknowledgement and follow-up of `StepCommand(t)`, with the label left cleared |
| SonuVoice.Controller.Respond | src/sonu_voice.py:226-265 | one branch of the handler: say the acknowledgement, then drive, stop again or do nothing |
| SonuVoice.Controller.HandleChat | src/sonu_voice.py:271-285 | the log grows by exactly the chat effects; the mode and motors are unchanged |
| SonuVoice.Controller.Iterate | src/sonu_voice.py:296-335 | one loop iteration does exactly what `MainStep` says to the mode and the log, and leaves the motors off |
| SonuVoice.Controller.Run | src/sonu_voice.py:296-337 | the loop over a sequence of turns does exactly what `RunTurns` says |

## Left out

- Audio capture is not modelled: `setup_audio`, `listen_once` with its sounddevice stream, Vosk recogniser, callback and wall-clock timeout.
  Recognised text arrives as the `heard` field of each turn.
- `build_grammar` is not modelled: it only JSON-encodes the wake phrases for the recogniser.
- The idle-sound thread (`play_idle_sound`, `start_idle_sound`, `stop_idle_sound`) is not modelled: it is concurrency plus a subprocess.
- espeak and the console prints are not modelled: speaking is a `Say` entry in the log.
- The KeyboardInterrupt cleanup is left out: it is signal handling outside the loop.
- `time.sleep(0.2)` after the move and chat branches is left out: it has no observable effect besides time. The "Yes?" and sleep branches `continue` before reaching it.
- `ask_brain` (`src/llm_brain.py`) is an oracle: each turn says whether it returned a reply or raised.
  The HTTP request and the reply's JSON are not part of this model.
- Which element `random.choice` returns is the turn's `pick` index, taken modulo the list length.
- `config.py` is not part of this model beyond its durations.
  - The drive durations are the `Timing` parameter: STEP_FORWARD_SEC, STEP_TURN_SEC and LONG_MOVE_SEC.
  - `config.py` does not define LONG_MOVE_SEC or STEP_TURN_SEC. As written, the first continuous move or turn would raise AttributeError.
  - The model assumes the values exist and are non-negative.
- `sonu_voice.py` imports `stop_all`, but `motor_drive.py` only defines `stop`. As written, the import would fail at start-up.
  The model reads `stop_all` as the bridge's `stop()`.
- Continuous moves end on their own. A "continuous" move is `forward(LONG_MOVE_SEC)` (or the backward, left or right call), a blocking timed call that ends in `stop()` (src/sonu_voice.py:227, src/motor_drive.py:15-16). `continuous_state` is only a label.
- Text.Lower: only ASCII upper-case letters are folded, whereas Python's `str.lower` is Unicode-aware.
- Text.IsSpace covers only the ASCII whitespace of `str.isspace` (space, \t to \r, \x1c to \x1f). Other Unicode spaces are not stripped.
- MotorDrive.HBridge.Sleep: it requires a non-negative duration, because `time.sleep` raises on a negative one.
  GPIO timing and real time are not modelled.
- The default `t=0.5` of `forward`, `backward`, `left` and `right` is not modelled: every call in `sonu_voice.py` passes an explicit duration, so `MotorDrive.HBridge.Forward` and its siblings take `t` as a plain parameter.
- The durations are reals, not floating-point numbers; no rounding is modelled.
