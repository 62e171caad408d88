/**
 * The voice controller of sonu_voice.py: speech, the move handler, the chat handler
 * and one iteration of the main loop, with their effects written to a log.
 *
 * Recognised text arrives already captured (one `Turn` per loop iteration); the
 * outside world also supplies which entry `random.choice` picks and what the
 * language-model call returned. The motors are the H-bridge of motor_drive.py.
 */
module SonuVoice {
  import opened Wrappers
  import opened Text
  import opened MotorDrive
  import opened VoiceIntent

  const RESP_WAKE: seq<string> := ["Standing by.", "Yes, I'm here.", "Ready.", "Listening."]
  const RESP_FORWARD: seq<string> := ["Moving forward.", "Advancing."]
  const RESP_BACKWARD: seq<string> := ["Moving back.", "Retreating."]
  const RESP_LEFT: seq<string> := ["Turning left."]
  const RESP_RIGHT: seq<string> := ["Turning right."]
  const RESP_STOP: seq<string> := ["Stopping.", "Hold position."]
  const RESP_NO_COMMAND: seq<string> := ["I didn't understand.", "Please repeat."]
  const RESP_SLEEP: seq<string> := ["Going to sleep.", "Okay, sleeping."]

  const GREETING := "Voice control online. " + "Say Hey Sonu to wake me."
  const YES := "Yes?"
  const APOLOGY := "I had a problem thinking."
  const PERSONA :=
    "You are Sonu, a small cute cat-like exploration robot. " +
    "Answer briefly in one or two short sentences. " +
    "User said: "

  /** One observable action: a line spoken, the motors stopped, a timed drive, a request to the language model. */
  datatype Effect = Say(line: string) | StopMotors | Drive(dir: Direction, span: Span) | AskBrain(prompt: string)

  /** What the language-model call did: returned a reply or raised. */
  datatype BrainAnswer = Answered(reply: string) | Failed

  /** What one main-loop iteration gets from outside: the recognised text, the random pick, the model's answer. */
  datatype Turn = Turn(heard: string, pick: nat, brain: BrainAnswer)

  /** The main loop's `awake` flag and the `continuous_state` label. */
  datatype Mode = Mode(awake: bool, continuous: Option<Direction>)

  datatype Outcome = Outcome(mode: Mode, effects: seq<Effect>)

  /** The durations the move handler passes to the drive calls. */
  datatype Timing = Timing(stepForwardSec: real, stepTurnSec: real, longMoveSec: real)

  predicate TimingOk(t: Timing)
  {
    t.stepForwardSec >= 0.0 && t.stepTurnSec >= 0.0 && t.longMoveSec >= 0.0
  }

  /** Seconds of a drive: the long move for continuous phrases, the forward step for forward and backward steps, the turn step otherwise. */
  function Seconds(t: Timing, d: Direction, span: Span): (r: real)
    ensures TimingOk(t) ==> r >= 0.0
    ensures span == Step && (d == Forward || d == Backward) ==> r == t.stepForwardSec
    ensures span == Step && (d == Left || d == Right) ==> r == t.stepTurnSec
    ensures span == Long ==> r == t.longMoveSec
  {
    match span
    case Long => t.longMoveSec
    case Step => if d == Forward || d == Backward then t.stepForwardSec else t.stepTurnSec
  }

  /** `random.choice(options)` with the choice supplied from outside. */
  function Choose(options: seq<string>, pick: nat): (r: string)
    requires options != []
    ensures r in options
  {
    options[pick % |options|]
  }

  /** The acknowledgements of each direction: each direction has its own list. */
  function Responses(d: Direction): (r: seq<string>)
    ensures d == Forward ==> r == RESP_FORWARD
    ensures d == Backward ==> r == RESP_BACKWARD
    ensures d == Left ==> r == RESP_LEFT
    ensures d == Right ==> r == RESP_RIGHT
  {
    match d
    case Forward => RESP_FORWARD
    case Backward => RESP_BACKWARD
    case Left => RESP_LEFT
    case Right => RESP_RIGHT
  }

  // ---------------------------------------------------------------------------
  // speak
  // ---------------------------------------------------------------------------

  /** `speak(text)`: at most one line is said, and nothing exactly when the text is blank. */
  function Speech(text: string): (r: seq<Effect>)
    ensures |r| <= 1 && (r != [] ==> r[0].Say?)
    ensures r == [] <==> forall i :: 0 <= i < |text| ==> IsSpace(text[i])
  {
    var s := Strip(text);
    if s == [] then [] else [Say(s)]
  }

  /**
   * Blank text says nothing. Otherwise exactly one line is said: the text without
   * its surrounding whitespace, which is the only piece of the text with whitespace
   * alone around it and at neither of its ends.
   */
  lemma SpeechMeaning(text: string)
    ensures Speech(text) == [] <==> forall i :: 0 <= i < |text| ==> IsSpace(text[i])
    ensures Speech(text) != [] ==>
      && Speech(text) == [Say(Strip(text))]
      && Tidy(Strip(text))
      && exists i :: Surrounded(text, Strip(text), i)
    ensures forall q, i :: Surrounded(text, q, i) && Tidy(q) ==> Speech(text) == [Say(q)]
  {
    forall q, i | Surrounded(text, q, i) && Tidy(q) ensures Speech(text) == [Say(q)] {
      StripUnique(text, q, i);
    }
  }

  /** Non-empty text with no surrounding whitespace. */
  predicate Tidy(s: string) { s != [] && !IsSpace(s[0]) && !IsSpace(s[|s| - 1]) }

  predicate AllTidy(lines: seq<string>) { forall i :: 0 <= i < |lines| ==> Tidy(lines[i]) }

  /** Tidy text is said word for word. */
  lemma TidySpoken(line: string)
    requires Tidy(line)
    ensures Speech(line) == [Say(line)]
  {
    StripUnchanged(line);
  }

  /** Every response list holds tidy lines only, so `speak` says each response word for word. */
  lemma ResponsesTidy()
    ensures AllTidy(RESP_WAKE) && AllTidy(RESP_FORWARD) && AllTidy(RESP_BACKWARD)
    ensures AllTidy(RESP_LEFT) && AllTidy(RESP_RIGHT) && AllTidy(RESP_STOP)
    ensures AllTidy(RESP_NO_COMMAND) && AllTidy(RESP_SLEEP)
  {
  }

  /** The greeting, "Yes?" and the apology are tidy as well. */
  lemma FixedLinesTidy()
    ensures Tidy(GREETING) && Tidy(YES) && Tidy(APOLOGY)
  {
  }

  /** A response chosen from a tidy list is said word for word. */
  lemma ChoiceSpoken(options: seq<string>, pick: nat)
    requires options != [] && AllTidy(options)
    ensures Speech(Choose(options, pick)) == [Say(Choose(options, pick))]
  {
    TidySpoken(Choose(options, pick));
  }

  lemma WakeReplySpoken(pick: nat)
    ensures Speech(Choose(RESP_WAKE, pick)) == [Say(Choose(RESP_WAKE, pick))]
  {
    ResponsesTidy();
    ChoiceSpoken(RESP_WAKE, pick);
  }

  lemma SleepReplySpoken(pick: nat)
    ensures Speech(Choose(RESP_SLEEP, pick)) == [Say(Choose(RESP_SLEEP, pick))]
  {
    ResponsesTidy();
    ChoiceSpoken(RESP_SLEEP, pick);
  }

  lemma YesSpoken()
    ensures Speech(YES) == [Say(YES)]
  {
    FixedLinesTidy();
    TidySpoken(YES);
  }

  lemma ApologySpoken()
    ensures Speech(APOLOGY) == [Say(APOLOGY)]
  {
    FixedLinesTidy();
    TidySpoken(APOLOGY);
  }

  // ---------------------------------------------------------------------------
  // The move and chat handlers
  // ---------------------------------------------------------------------------

  /** The `continuous_state` a move command leaves behind: its direction for a continuous phrase, None otherwise. */
  function Label(c: Command): Option<Direction>
  {
    if c.Go? && c.span == Long then Some(c.dir) else None
  }

  /** The list `handle_move_command` answers a command from. */
  function Replies(c: Command): seq<string>
  {
    match c
    case Go(d, _) => Responses(d)
    case Halt => RESP_STOP
    case NotUnderstood => RESP_NO_COMMAND
  }

  /** The acknowledgement `handle_move_command` picks for a command. */
  function Acknowledgement(c: Command, pick: nat): string
  {
    Choose(Replies(c), pick)
  }

  /** Every acknowledgement is said word for word. */
  lemma AcknowledgementTidy(c: Command, pick: nat)
    ensures Tidy(Acknowledgement(c, pick))
  {
    ResponsesTidy();
    assert Acknowledgement(c, pick) in Replies(c);
  }

  /** What the handler does after acknowledging: the drive, a second stop, or nothing. */
  function FollowUp(c: Command): seq<Effect>
  {
    match c
    case Go(d, span) => [Drive(d, span)]
    case Halt => [StopMotors]
    case NotUnderstood => []
  }

  /**
   * The shape of a move handler's effects: the motors are stopped first, then one
   * line is said from the list that belongs to the command, and then comes only the
   * follow-up: the drive for a move command, a second stop for a stop command,
   * nothing otherwise. So further stops come only from a stop command, and a drive
   * can only be the last effect, present exactly for a move command and in its
   * direction and span.
   */
  predicate MoveShaped(c: Command, r: seq<Effect>)
  {
    && |r| >= 2 && r[0] == StopMotors && r[1].Say?
    && r == [StopMotors, r[1]] + FollowUp(c)
    && (c.Go? && c.dir == Forward ==> r[1].line in RESP_FORWARD)
    && (c.Go? && c.dir == Backward ==> r[1].line in RESP_BACKWARD)
    && (c.Go? && c.dir == Left ==> r[1].line in RESP_LEFT)
    && (c.Go? && c.dir == Right ==> r[1].line in RESP_RIGHT)
    && (c == Halt ==> r[1].line in RESP_STOP)
    && (c == NotUnderstood ==> r[1].line in RESP_NO_COMMAND)
    && (forall i :: 1 <= i < |r| ==> r[i] != StopMotors || c == Halt)
    && (forall i :: 0 <= i < |r| - 1 ==> !r[i].Drive?)
    && (r[|r| - 1].Drive? <==> c.Go?)
    && (c.Go? ==> r[|r| - 1] == Drive(c.dir, c.span))
  }

  /** Stopping, saying a tidy line of the command's list and following up has the shape of a move handler. */
  lemma AcknowledgedShape(c: Command, line: string)
    requires Tidy(line) && line in Replies(c)
    ensures MoveShaped(c, [StopMotors] + Speech(line) + FollowUp(c))
  {
    TidySpoken(line);
    assert [StopMotors] + Speech(line) + FollowUp(c) == [StopMotors, Say(line)] + FollowUp(c);
  }

  /** `handle_move_command`'s effects: stop, acknowledge, then follow up. */
  function MoveEffects(c: Command, pick: nat): seq<Effect>
  {
    [StopMotors] + Speech(Acknowledgement(c, pick)) + FollowUp(c)
  }

  /**
   * Whatever the command and the choice of reply, the handler's effects have the move
   * shape: exactly the stop, the acknowledgement said word for word, and the follow-up.
   */
  lemma MoveEffectsShaped(c: Command, pick: nat)
    ensures MoveShaped(c, MoveEffects(c, pick))
    ensures MoveEffects(c, pick) == [StopMotors, Say(Acknowledgement(c, pick))] + FollowUp(c)
  {
    AcknowledgementTidy(c, pick);
    TidySpoken(Acknowledgement(c, pick));
    assert Acknowledgement(c, pick) in Replies(c);
    AcknowledgedShape(c, Acknowledgement(c, pick));
  }

  /** `handle_chat`'s effects: the request to the language model, then its reply or the apology said. */
  function ChatEffects(text: string, answer: BrainAnswer): seq<Effect>
  {
    [AskBrain(PERSONA + text)] +
    match answer
    case Failed => Speech(APOLOGY)
    case Answered(reply) => Speech(reply)
  }

  /**
   * The chat handler makes one request whose prompt is the persona followed by the
   * user's text. Then it says the reply without its surrounding whitespace, nothing
   * for a blank reply, or, when the call failed, exactly the apology.
   */
  lemma ChatEffectsShape(text: string, answer: BrainAnswer)
    ensures var r := ChatEffects(text, answer);
      && |r| >= 1 && r[0].AskBrain? && |r[0].prompt| == |PERSONA| + |text|
      && r[0].prompt[..|PERSONA|] == PERSONA && r[0].prompt[|PERSONA|..] == text
      && (answer.Failed? ==> r == [r[0], Say(APOLOGY)])
      && (answer.Answered? && Speech(answer.reply) == [] ==> r == [r[0]])
      && (answer.Answered? && Speech(answer.reply) != [] ==> r == [r[0], Say(Strip(answer.reply))])
  {
    var prompt := PERSONA + text;
    assert prompt[..|PERSONA|] == PERSONA && prompt[|PERSONA|..] == text;
    match answer
    case Failed => ApologySpoken();
    case Answered(reply) => SpeechMeaning(reply);
  }

  // ---------------------------------------------------------------------------
  // One iteration of the main loop
  // ---------------------------------------------------------------------------

  /**
   * One pass of `while True` in `main`. Asleep, only a wake phrase matters. Awake, a
   * wake phrase only gets "Yes?"; otherwise the text is classified and goes to the
   * sleep branch, the move handler or the chat handler. Empty text changes nothing.
   */
  function MainStep(m: Mode, turn: Turn): Outcome
  {
    var text := turn.heard;
    if !m.awake then
      if text == "" then Outcome(m, [])
      else if IsWake(text) then Outcome(m.(awake := true), Speech(Choose(RESP_WAKE, turn.pick)))
      else Outcome(m, [])
    else if text == "" then Outcome(m, [])
    else if IsWake(text) then Outcome(m, Speech(YES))
    else match ClassifyIntent(text)
      case Sleep => Outcome(Mode(false, None), Speech(Choose(RESP_SLEEP, turn.pick)) + [StopMotors])
      case Move =>
        var c := MoveCommand(Lower(text));
        Outcome(Mode(true, Label(c)), MoveEffects(c, turn.pick))
      case Chat => Outcome(m, ChatEffects(text, turn.brain))
  }

  /** The main loop run over a finite prefix of its input. */
  function RunTurns(m: Mode, turns: seq<Turn>): Outcome
  {
    if turns == [] then Outcome(m, [])
    else
      var before := RunTurns(m, turns[..|turns| - 1]);
      var last := MainStep(before.mode, turns[|turns| - 1]);
      Outcome(last.mode, before.effects + last.effects)
  }


  /** Running one more turn is one more step of the loop. */
  lemma RunTurnsSnoc(m: Mode, turns: seq<Turn>, k: nat)
    requires k < |turns|
    ensures RunTurns(m, turns[..k + 1]).mode == MainStep(RunTurns(m, turns[..k]).mode, turns[k]).mode
    ensures RunTurns(m, turns[..k + 1]).effects
      == RunTurns(m, turns[..k]).effects + MainStep(RunTurns(m, turns[..k]).mode, turns[k]).effects
  {
    assert turns[..k + 1][..k] == turns[..k];
  }

  /** A sleeping robot carries no continuous-move label. */
  predicate Resting(m: Mode) { !m.awake ==> m.continuous == None }

  /** No drive without an earlier stop. */
  predicate StopsBeforeDriving(effects: seq<Effect>)
  {
    forall i :: 0 <= i < |effects| && effects[i].Drive? ==> exists j :: 0 <= j < i && effects[j] == StopMotors
  }

  /** Between any two drives the motors are stopped. */
  predicate StopBetweenDrives(effects: seq<Effect>)
  {
    forall i, j :: 0 <= i < j < |effects| && effects[i].Drive? && effects[j].Drive? ==>
      exists k :: i < k < j && effects[k] == StopMotors
  }

  /** No drive strictly between positions `k` and `j`. */
  predicate NoDriveBetween(effects: seq<Effect>, k: int, j: int)
  {
    forall i :: k < i < j && 0 <= i < |effects| ==> !effects[i].Drive?
  }

  /** Every drive has a stop of its own: an earlier stop with no other drive after it. */
  predicate EachDriveStopped(effects: seq<Effect>)
  {
    forall j :: 0 <= j < |effects| && effects[j].Drive? ==>
      exists k :: 0 <= k < j && effects[k] == StopMotors && NoDriveBetween(effects, k, j)
  }

  /** A stop of its own for every drive means a stop before the first drive and between any two. */
  lemma EachDriveStoppedMeaning(effects: seq<Effect>)
    requires EachDriveStopped(effects)
    ensures StopsBeforeDriving(effects) && StopBetweenDrives(effects)
  {
    forall i, j | 0 <= i < j < |effects| && effects[i].Drive? && effects[j].Drive?
      ensures exists k :: i < k < j && effects[k] == StopMotors
    {
      var k :| 0 <= k < j && effects[k] == StopMotors && NoDriveBetween(effects, k, j);
      assert i < k;
    }
  }

  /** Joining two logs whose drives each have their own stop keeps that so. */
  lemma EachDriveStoppedAppend(a: seq<Effect>, b: seq<Effect>)
    requires EachDriveStopped(a) && EachDriveStopped(b)
    ensures EachDriveStopped(a + b)
  {
    var e := a + b;
    forall j | 0 <= j < |e| && e[j].Drive?
      ensures exists k :: 0 <= k < j && e[k] == StopMotors && NoDriveBetween(e, k, j)
    {
      if j < |a| {
        assert a[j].Drive?;
        var k :| 0 <= k < j && a[k] == StopMotors && NoDriveBetween(a, k, j);
        assert e[k] == StopMotors && NoDriveBetween(e, k, j);
      } else {
        assert b[j - |a|].Drive?;
        var k :| 0 <= k < j - |a| && b[k] == StopMotors && NoDriveBetween(b, k, j - |a|);
        assert e[k + |a|] == StopMotors;
        forall i | k + |a| < i < j && 0 <= i < |e| ensures !e[i].Drive? {
          assert e[i] == b[i - |a|];
        }
      }
    }
  }

  /** A move handler's only drive comes after its opening stop with nothing driving in between. */
  lemma ShapedDriveStopped(c: Command, r: seq<Effect>)
    requires MoveShaped(c, r)
    ensures EachDriveStopped(r)
  {
    forall j | 0 <= j < |r| && r[j].Drive?
      ensures exists k :: 0 <= k < j && r[k] == StopMotors && NoDriveBetween(r, k, j)
    {
      assert NoDriveBetween(r, 0, j);
    }
  }

  /** At most one drive. */
  predicate AtMostOneDrive(effects: seq<Effect>)
  {
    forall i, j :: 0 <= i < j < |effects| && effects[i].Drive? ==> !effects[j].Drive?
  }

  predicate NoDrive(effects: seq<Effect>)
  {
    forall i :: 0 <= i < |effects| ==> !effects[i].Drive?
  }

  /** Empty text changes nothing, asleep or awake. */
  lemma EmptyTextIgnored(m: Mode, turn: Turn)
    requires turn.heard == ""
    ensures MainStep(m, turn) == Outcome(m, [])
  {
  }

  /** Asleep, a wake phrase wakes the robot with one wake response; anything else changes nothing. */
  lemma AsleepStep(m: Mode, turn: Turn)
    requires !m.awake && turn.heard != ""
    ensures IsWake(turn.heard) ==>
      MainStep(m, turn) == Outcome(m.(awake := true), [Say(Choose(RESP_WAKE, turn.pick))]) &&
      Choose(RESP_WAKE, turn.pick) in RESP_WAKE
    ensures !IsWake(turn.heard) ==> MainStep(m, turn) == Outcome(m, [])
  {
    if IsWake(turn.heard) {
      assert MainStep(m, turn) == Outcome(m.(awake := true), Speech(Choose(RESP_WAKE, turn.pick)));
      WakeReplySpoken(turn.pick);
    }
  }

  /** Awake, a wake phrase only gets "Yes?", whatever sleep or move words come with it. */
  lemma AwakeWakeOnlyAnswers(m: Mode, turn: Turn)
    requires m.awake && turn.heard != "" && IsWake(turn.heard)
    ensures MainStep(m, turn) == Outcome(m, [Say(YES)])
  {
    assert MainStep(m, turn) == Outcome(m, Speech(YES));
    YesSpoken();
  }

  /** The sleep branch says a sleep response, then stops the motors, clears the label and sleeps. */
  lemma SleepStep(m: Mode, turn: Turn)
    requires m.awake && turn.heard != "" && !IsWake(turn.heard) && IsSleep(turn.heard)
    ensures MainStep(m, turn) == Outcome(Mode(false, None), [Say(Choose(RESP_SLEEP, turn.pick)), StopMotors])
    ensures Choose(RESP_SLEEP, turn.pick) in RESP_SLEEP
  {
    assert MainStep(m, turn) == Outcome(Mode(false, None), Speech(Choose(RESP_SLEEP, turn.pick)) + [StopMotors]) by {
      ClassifyIntentMeaning(turn.heard);
    }
    SleepReplySpoken(turn.pick);
  }

  /**
   * Move and chat keep the robot awake. A move leaves the label of its command
   * (set by a continuous phrase, cleared by every single step); chat leaves the mode
   * as it was, label included.
   */
  lemma MoveAndChatStayAwake(m: Mode, turn: Turn)
    requires m.awake && turn.heard != "" && !IsWake(turn.heard) && !IsSleep(turn.heard)
    ensures MainStep(m, turn).mode.awake
    ensures ClassifyIntent(turn.heard) == Move ==>
      MoveCommand(Lower(turn.heard)) != NotUnderstood &&
      MainStep(m, turn).mode.continuous == Label(MoveCommand(Lower(turn.heard)))
    ensures ClassifyIntent(turn.heard) == Chat ==> MainStep(m, turn).mode == m
  {
    ClassifyIntentMeaning(turn.heard);
    if ClassifyIntent(turn.heard) == Move {
      MoveIntentUnderstood(turn.heard);
    }
  }

  /** A failing language model gets the request and exactly one apology, and nothing else is said. */
  lemma ChatFailureApologises(m: Mode, turn: Turn)
    requires m.awake && turn.heard != "" && !IsWake(turn.heard) && ClassifyIntent(turn.heard) == Chat
    requires turn.brain == Failed
    ensures MainStep(m, turn) == Outcome(m, [AskBrain(PERSONA + turn.heard), Say(APOLOGY)])
  {
    assert MainStep(m, turn) == Outcome(m, [AskBrain(PERSONA + turn.heard)] + Speech(APOLOGY));
    ApologySpoken();
  }

  /**
   * Every main-loop step keeps a sleeping robot unlabelled, drives at most once and
   * only after a stop, and never drives while asleep.
   */
  lemma {:induction false} StepSafety(m: Mode, turn: Turn)
    ensures Resting(m) ==> Resting(MainStep(m, turn).mode)
    ensures EachDriveStopped(MainStep(m, turn).effects)
    ensures AtMostOneDrive(MainStep(m, turn).effects)
    ensures !m.awake ==> NoDrive(MainStep(m, turn).effects)
  {
    var text := turn.heard;
    var o := MainStep(m, turn);
    if !m.awake || text == "" {
      if text != "" && IsWake(text) {
        SpeechNoDrive(Choose(RESP_WAKE, turn.pick));
      }
    } else if IsWake(text) {
      SpeechNoDrive(YES);
    } else {
      match ClassifyIntent(text)
      case Sleep =>
        SpeechNoDrive(Choose(RESP_SLEEP, turn.pick));
        assert NoDrive(o.effects);
      case Move =>
        assert o.effects == MoveEffects(MoveCommand(Lower(text)), turn.pick);
        MoveEffectsShaped(MoveCommand(Lower(text)), turn.pick);
        ShapedDriveStopped(MoveCommand(Lower(text)), o.effects);
      case Chat =>
        ChatEffectsShape(text, turn.brain);
        assert NoDrive(o.effects);
    }
  }

  /** Speech never drives. */
  lemma SpeechNoDrive(text: string)
    ensures NoDrive(Speech(text))
  {
  }

  /**
   * Over any run of the main loop a sleeping robot stays unlabelled, and every drive
   * has a stop of its own: one before the first drive and one between any two drives.
   */
  lemma {:induction false} RunSafety(m: Mode, turns: seq<Turn>)
    requires Resting(m)
    ensures Resting(RunTurns(m, turns).mode)
    ensures EachDriveStopped(RunTurns(m, turns).effects)
    ensures StopsBeforeDriving(RunTurns(m, turns).effects)
    ensures StopBetweenDrives(RunTurns(m, turns).effects)
    decreases |turns|
  {
    if turns != [] {
      var prefix := turns[..|turns| - 1];
      RunSafety(m, prefix);
      var before := RunTurns(m, prefix);
      StepSafety(before.mode, turns[|turns| - 1]);
      EachDriveStoppedAppend(before.effects, MainStep(before.mode, turns[|turns| - 1]).effects);
    }
    EachDriveStoppedMeaning(RunTurns(m, turns).effects);
  }

  /** A sleeping robot that hears no wake phrase stays asleep and does nothing at all. */
  lemma {:induction false} AsleepUntilWoken(m: Mode, turns: seq<Turn>)
    requires !m.awake
    requires forall k :: 0 <= k < |turns| ==> !IsWake(turns[k].heard)
    ensures RunTurns(m, turns) == Outcome(m, [])
    decreases |turns|
  {
    if turns != [] {
      var prefix := turns[..|turns| - 1];
      AsleepUntilWoken(m, prefix);
      assert MainStep(m, turns[|turns| - 1]) == Outcome(m, []);
    }
  }

  /**
   * "hey sonu", "forward", "sleep now" from sleep: woken with one wake response, one
   * forward step after a stop, then the sleep response and a stop, asleep again.
   */
  lemma WakeStepSleepScenario(p0: nat, p1: nat, p2: nat, b: BrainAnswer)
    ensures RunTurns(Mode(false, None), [Turn("hey sonu", p0, b), Turn("forward", p1, b), Turn("sleep now", p2, b)])
         == Outcome(Mode(false, None),
                    [ Say(Choose(RESP_WAKE, p0)),
                      StopMotors, Say(Choose(RESP_FORWARD, p1)), Drive(Forward, Step),
                      Say(Choose(RESP_SLEEP, p2)), StopMotors ])
  {
    var t0, t1, t2 := Turn("hey sonu", p0, b), Turn("forward", p1, b), Turn("sleep now", p2, b);
    var e0 := [Say(Choose(RESP_WAKE, p0))];
    var e1 := [StopMotors, Say(Choose(RESP_FORWARD, p1)), Drive(Forward, Step)];
    var e2 := [Say(Choose(RESP_SLEEP, p2)), StopMotors];
    RunThreeTurns(Mode(false, None), t0, t1, t2);
    var o0 := MainStep(Mode(false, None), t0);
    assert o0 == Outcome(Mode(true, None), e0) by { WakeTurn(p0, b); }
    var o1 := MainStep(o0.mode, t1);
    assert o1 == Outcome(Mode(true, None), e1) by { ForwardTurn(p1, b); }
    var o2 := MainStep(o1.mode, t2);
    assert o2 == Outcome(Mode(false, None), e2) by { SleepTurn(p2, b); }
    JoinOneThreeTwo(e0[0], e1[0], e1[1], e1[2], e2[0], e2[1]);
  }

  /** Three turns of the loop, one after the other. */
  lemma RunThreeTurns(m: Mode, t0: Turn, t1: Turn, t2: Turn)
    ensures var o0 := MainStep(m, t0);
            var o1 := MainStep(o0.mode, t1);
            var o2 := MainStep(o1.mode, t2);
            RunTurns(m, [t0, t1, t2]) == Outcome(o2.mode, o0.effects + o1.effects + o2.effects)
  {
    var turns := [t0, t1, t2];
    var o0 := MainStep(m, t0);
    var o1 := MainStep(o0.mode, t1);
    var o2 := MainStep(o1.mode, t2);
    assert turns[..0] == [];
    RunTurnsSnoc(m, turns, 0);
    assert [] + o0.effects == o0.effects;
    assert RunTurns(m, turns[..1]) == o0;
    RunTurnsSnoc(m, turns, 1);
    assert RunTurns(m, turns[..2]) == Outcome(o1.mode, o0.effects + o1.effects);
    RunTurnsSnoc(m, turns, 2);
    assert turns[..3] == turns;
  }

  /** From sleep, "hey sonu" wakes the robot with one wake response. */
  lemma WakeTurn(pick: nat, b: BrainAnswer)
    ensures MainStep(Mode(false, None), Turn("hey sonu", pick, b))
         == Outcome(Mode(true, None), [Say(Choose(RESP_WAKE, pick))])
  {
    LowerIdempotent("hey sonu");
    ContainsAt("hey sonu", "hey sonu", 0);
    assert IsWake("hey sonu") by { assert WAKE_PHRASES[0] == "hey sonu"; }
    WakeReplySpoken(pick);
  }

  /** Awake, "forward" stops, acknowledges and takes one forward step. */
  lemma ForwardTurn(pick: nat, b: BrainAnswer)
    ensures MainStep(Mode(true, None), Turn("forward", pick, b))
         == Outcome(Mode(true, None), [StopMotors, Say(Choose(RESP_FORWARD, pick)), Drive(Forward, Step)])
  {
    var t := "forward";
    var c := Go(Forward, Step);
    ForwardIsSingleStep();
    var line := Choose(RESP_FORWARD, pick);
    assert MainStep(Mode(true, None), Turn(t, pick, b))
        == Outcome(Mode(true, None), [StopMotors] + Speech(line) + [Drive(Forward, Step)]);
    assert Speech(line) == [Say(line)] by {
      AcknowledgementTidy(c, pick);
      TidySpoken(Acknowledgement(c, pick));
    }
    JoinThreeSingletons(StopMotors, Say(line), Drive(Forward, Step));
  }

  /** Awake, "sleep now" says a sleep response, stops the motors and falls asleep. */
  lemma SleepTurn(pick: nat, b: BrainAnswer)
    ensures MainStep(Mode(true, None), Turn("sleep now", pick, b))
         == Outcome(Mode(false, None), [Say(Choose(RESP_SLEEP, pick)), StopMotors])
  {
    var t := "sleep now";
    var line := Choose(RESP_SLEEP, pick);
    assert Lower(t) == t by { LowerIdempotent(t); }
    assert !IsWake(t) by {
      forall p | p in WAKE_PHRASES ensures !Contains(t, p) { NotContains(t, p, 'h'); }
    }
    assert ClassifyIntent(t) == Sleep by {
      ContainsAt(t, "sleep now", 0);
      assert SLEEP_PHRASES[1] == "sleep now";
      ClassifyIntentMeaning(t);
    }
    assert MainStep(Mode(true, None), Turn(t, pick, b)) == Outcome(Mode(false, None), Speech(line) + [StopMotors]);
    SleepReplySpoken(pick);
    JoinTwoSingletons(Say(line), StopMotors);
  }


  // ---------------------------------------------------------------------------
  // Sequence bookkeeping: generic facts about concatenation, stated apart so that
  // callers meet them without the rest of the model in view
  // ---------------------------------------------------------------------------

  /** Concatenation regroups to the left. */
  lemma AppendAssoc<T>(a: seq<T>, b: seq<T>, c: seq<T>)
    ensures a + (b + c) == (a + b) + c
  {
  }

  /** A log followed by a three-part tail is the log followed by each part in turn. */
  lemma AppendGroupedTail<T>(a: seq<T>, b: seq<T>, c: seq<T>, d: seq<T>)
    ensures a + (b + c + d) == a + b + c + d
  {
  }

  /** Two one-element sequences joined make the two-element sequence. */
  lemma JoinTwoSingletons<T>(a: T, b: T)
    ensures [a] + [b] == [a, b]
  {
  }

  /** Three one-element sequences joined make the three-element sequence. */
  lemma JoinThreeSingletons<T>(a: T, b: T, c: T)
    ensures [a] + [b] + [c] == [a, b, c]
  {
  }

  /** Sequences of one, three and two elements joined make the six-element sequence. */
  lemma JoinOneThreeTwo<T>(a: T, b: T, c: T, d: T, e: T, f: T)
    ensures [a] + [b, c, d] + [e, f] == [a, b, c, d, e, f]
  {
  }

  // ---------------------------------------------------------------------------
  // The controller
  // ---------------------------------------------------------------------------

  /** The drives of a log, as the holds they make the bridge perform. */
  function HoldsOf(log: seq<Effect>, timing: Timing): seq<Hold>
  {
    if log == [] then []
    else
      var e := log[|log| - 1];
      HoldsOf(log[..|log| - 1], timing) +
      if e.Drive? then [Hold(Pattern(e.dir), Seconds(timing, e.dir, e.span))] else []
  }

  /** Appending one effect adds a hold exactly when that effect is a drive. */
  lemma HoldsOfSnoc(log: seq<Effect>, e: Effect, timing: Timing)
    ensures HoldsOf(log + [e], timing)
         == HoldsOf(log, timing) + if e.Drive? then [Hold(Pattern(e.dir), Seconds(timing, e.dir, e.span))] else []
  {
    assert (log + [e])[..|log|] == log;
  }

  /** The running program: the loop's flag, the global label, the effect log and the motors. */
  class Controller {
    var awake: bool
    var continuous: Option<Direction>
    /** Everything the program has done, oldest first. */
    var log: seq<Effect>
    const bridge: HBridge
    const timing: Timing

    /** The motors are at rest and have performed exactly the drives of the log. */
    ghost predicate Valid()
      reads this, bridge
    {
      TimingOk(timing) && bridge.Valid() && bridge.holds == HoldsOf(log, timing)
    }

    function State(): Mode
      reads this
    {
      Mode(awake, continuous)
    }

    /** The start of `main`: asleep, no label, motors off, the greeting said. */
    constructor (timing: Timing)
      requires TimingOk(timing)
      ensures Valid() && fresh(bridge)
      ensures State() == Mode(false, None) && this.timing == timing
      ensures log == [Say(GREETING)]
    {
      this.timing := timing;
      bridge := new HBridge();
      awake := false;
      continuous := None;
      log := [];
      new;
      FixedLinesTidy();
      TidySpoken(GREETING);
      Speak(GREETING);
    }

    /** `speak`. */
    method Speak(text: string)
      requires Valid()
      modifies this
      ensures Valid() && State() == old(State())
      ensures log == old(log) + Speech(text)
    {
      var s := Strip(text);
      if s == [] {
        return;
      }
      HoldsOfSnoc(log, Say(s), timing);
      log := log + [Say(s)];
      assert Speech(text) == [Say(s)];
    }

    /** `stop_all`: the bridge's `stop()`. */
    method StopAll()
      requires Valid()
      modifies this, bridge
      ensures Valid() && State() == old(State())
      ensures log == old(log) + [StopMotors]
    {
      HoldsOfSnoc(log, StopMotors, timing);
      bridge.Stop();
      log := log + [StopMotors];
    }

    /** One directional call of the bridge, for the duration the span and direction call for. */
    method DriveFor(d: Direction, span: Span)
      requires Valid()
      modifies this, bridge
      ensures Valid() && State() == old(State())
      ensures log == old(log) + [Drive(d, span)]
    {
      var t := Seconds(timing, d, span);
      HoldsOfSnoc(log, Drive(d, span), timing);
      match d {
        case Forward => bridge.Forward(t);
        case Backward => bridge.Backward(t);
        case Left => bridge.Left(t);
        case Right => bridge.Right(t);
      }
      log := log + [Drive(d, span)];
    }

    /** `handle_move_command`: stop, then the continuous phrases, then the single steps. */
    method HandleMove(text: string, pick: nat)
      requires Valid()
      modifies this, bridge
      ensures Valid()
      ensures awake == old(awake) && continuous == Label(MoveCommand(Lower(text)))
      ensures log == old(log) + MoveEffects(MoveCommand(Lower(text)), pick)
    {
      var t := Lower(text);
      AppendGroupedTail(log, [StopMotors], Speech(Acknowledgement(MoveCommand(t), pick)), FollowUp(MoveCommand(t)));
      StopAll();

      // Continuous moves
      if Contains(t, "continue moving forward") || Contains(t, "continue forward") {
        continuous := Some(Forward);
        Respond(Go(Forward, Long), pick);
        return;
      }
      if Contains(t, "continue moving back") || Contains(t, "continue backward") {
        continuous := Some(Backward);
        Respond(Go(Backward, Long), pick);
        return;
      }
      if Contains(t, "continue left") {
        continuous := Some(Left);
        Respond(Go(Left, Long), pick);
        return;
      }
      if Contains(t, "continue right") {
        continuous := Some(Right);
        Respond(Go(Right, Long), pick);
        return;
      }

      // Single steps
      assert MoveCommand(t) == StepCommand(t);
      continuous := None;
      SingleStep(t, pick);
    }

    /** The single-step half of `handle_move_command`, reached with the label already cleared. */
    method SingleStep(t: string, pick: nat)
      requires Valid() && continuous == None
      modifies this, bridge
      ensures Valid() && State() == old(State())
      ensures log == old(log) + Speech(Acknowledgement(StepCommand(t), pick)) + FollowUp(StepCommand(t))
    {
      if Contains(t, "forward") {
        Respond(Go(Forward, Step), pick);
      } else if Contains(t, "backward") || Contains(t, "back") {
        Respond(Go(Backward, Step), pick);
      } else if Contains(t, "left") {
        Respond(Go(Left, Step), pick);
      } else if Contains(t, "right") {
        Respond(Go(Right, Step), pick);
      } else if Contains(t, "stop") {
        Respond(Halt, pick);
        continuous := None;
      } else {
        Respond(NotUnderstood, pick);
      }
    }

    /**
     * One branch of `handle_move_command` after the stop: say the acknowledgement, then
     * drive, stop again or do nothing.
     */
    method Respond(c: Command, pick: nat)
      requires Valid()
      modifies this, bridge
      ensures Valid() && State() == old(State())
      ensures log == old(log) + Speech(Acknowledgement(c, pick)) + FollowUp(c)
    {
      match c {
        case Go(d, span) =>
          Speak(Choose(Responses(d), pick));
          DriveFor(d, span);
        case Halt =>
          Speak(Choose(RESP_STOP, pick));
          StopAll();
        case NotUnderstood =>
          Speak(Choose(RESP_NO_COMMAND, pick));
      }
    }

    /** `handle_chat`. */
    method HandleChat(text: string, answer: BrainAnswer)
      requires Valid()
      modifies this
      ensures Valid() && State() == old(State())
      ensures log == old(log) + ChatEffects(text, answer)
    {
      HoldsOfSnoc(log, AskBrain(PERSONA + text), timing);
      log := log + [AskBrain(PERSONA + text)];
      match answer {
        case Failed =>
          AppendAssoc(old(log), [AskBrain(PERSONA + text)], Speech(APOLOGY));
          Speak(APOLOGY);
        case Answered(reply) =>
          AppendAssoc(old(log), [AskBrain(PERSONA + text)], Speech(reply));
          Speak(reply);
      }
    }

    /** One iteration of the main loop; the motors are at rest when it returns. */
    method Iterate(turn: Turn)
      requires Valid()
      modifies this, bridge
      ensures Valid() && bridge.Outputs() == Off
      ensures State() == MainStep(old(State()), turn).mode
      ensures log == old(log) + MainStep(old(State()), turn).effects
    {
      var text := turn.heard;
      if !awake {
        if text == "" {
          return;
        }
        if IsWake(text) {
          awake := true;
          Speak(Choose(RESP_WAKE, turn.pick));
        }
        return;
      }

      if text == "" {
        return;
      }
      if IsWake(text) {
        Speak(YES);
        return;
      }

      var intent := ClassifyIntent(text);
      if intent == Sleep {
        AppendAssoc(log, Speech(Choose(RESP_SLEEP, turn.pick)), [StopMotors]);
        Speak(Choose(RESP_SLEEP, turn.pick));
        StopAll();
        continuous := None;
        awake := false;
        return;
      }

      if intent == Move {
        HandleMove(text, turn.pick);
      } else {
        HandleChat(text, turn.brain);
      }
    }

    /** The main loop over the turns it is given. */
    method Run(turns: seq<Turn>)
      requires Valid()
      modifies this, bridge
      ensures Valid()
      ensures State() == RunTurns(old(State()), turns).mode
      ensures log == old(log) + RunTurns(old(State()), turns).effects
    {
      ghost var start, log0 := State(), log;
      var k := 0;
      while k < |turns|
        invariant 0 <= k <= |turns|
        invariant Valid()
        invariant State() == RunTurns(start, turns[..k]).mode
        invariant log == log0 + RunTurns(start, turns[..k]).effects
      {
        ghost var done := RunTurns(start, turns[..k]).effects;
        Iterate(turns[k]);
        RunTurnsSnoc(start, turns, k);
        ghost var step := MainStep(RunTurns(start, turns[..k]).mode, turns[k]).effects;
        AppendAssoc(log0, done, step);
        k := k + 1;
      }
      assert turns[..k] == turns;
    }
  }
}
