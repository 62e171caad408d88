/**
 * The pure decision logic of sonu_voice.py: the wake and sleep detectors, the
 * three-way intent classifier, and which branch of the move handler a text selects.
 * All matching is Python's substring test on lower-cased text.
 */
module VoiceIntent {
  import opened Wrappers
  import opened Text
  import opened MotorDrive

  const WAKE_PHRASES: seq<string> := ["hey sonu", "hey son", "hey soonu", "hey sono"]

  const SLEEP_PHRASES: seq<string> :=
    ["you can sleep now", "sleep now", "go to sleep", "go sleep", "take rest", "sonu sleep"]

  const MOVE_WORDS: seq<string> := ["forward", "backward", "back", "left", "right", "stop"]

  const CONTINUE_WORDS: seq<string> :=
    [ "continue moving forward", "continue forward", "continue moving back",
      "continue backward", "continue left", "continue right" ]

  /** `is_wake`: the lower-cased text contains some wake phrase. */
  function IsWake(text: string): (r: bool)
    ensures r <==> exists p :: p in WAKE_PHRASES && Contains(Lower(text), p)
  {
    ContainsAny(Lower(text), WAKE_PHRASES)
  }

  /** `is_sleep`: the lower-cased text contains some sleep phrase. */
  function IsSleep(text: string): (r: bool)
    ensures r <==> exists p :: p in SLEEP_PHRASES && Contains(Lower(text), p)
  {
    ContainsAny(Lower(text), SLEEP_PHRASES)
  }

  /**
   * "hey sonu" and "hey sono" both contain "hey son", so waking only ever depends on
   * "hey son" and "hey soonu".
   */
  lemma WakeSimplified(text: string)
    ensures IsWake(text) <==> Contains(Lower(text), "hey son") || Contains(Lower(text), "hey soonu")
  {
    var t := Lower(text);
    ContainsAt("hey sonu", "hey son", 0);
    ContainsAt("hey sono", "hey son", 0);
    if Contains(t, "hey sonu") { ContainsTrans(t, "hey sonu", "hey son"); }
    if Contains(t, "hey sono") { ContainsTrans(t, "hey sono", "hey son"); }
    assert WAKE_PHRASES[1] == "hey son" && WAKE_PHRASES[2] == "hey soonu";
  }

  /** Every continuous-move phrase contains one of the move words. */
  lemma ContinueWordsHaveMoveWord()
    ensures forall c :: c in CONTINUE_WORDS ==> exists w :: w in MOVE_WORDS && Contains(c, w)
  {
    forall c | c in CONTINUE_WORDS ensures exists w :: w in MOVE_WORDS && Contains(c, w) {
      ListedPhrases();
      var prefix, w;
      if c == "continue moving forward" { prefix, w := "continue moving ", MOVE_WORDS[0]; }
      else if c == "continue forward" { prefix, w := "continue ", MOVE_WORDS[0]; }
      else if c == "continue moving back" { prefix, w := "continue moving ", MOVE_WORDS[2]; }
      else if c == "continue backward" { prefix, w := "continue ", MOVE_WORDS[1]; }
      else if c == "continue left" { prefix, w := "continue ", MOVE_WORDS[3]; }
      else { prefix, w := "continue ", MOVE_WORDS[4]; }
      assert c == prefix + w;
      ContainsSuffix(prefix, w);
    }
  }

  /** Hence a continuous-move phrase in the text always brings a move word with it. */
  lemma ContinueImpliesMove(t: string)
    ensures ContainsAny(t, CONTINUE_WORDS) ==> ContainsAny(t, MOVE_WORDS)
  {
    if ContainsAny(t, CONTINUE_WORDS) {
      var c :| c in CONTINUE_WORDS && Contains(t, c);
      ContinueWordsHaveMoveWord();
      var w :| w in MOVE_WORDS && Contains(c, w);
      ContainsTrans(t, c, w);
    }
  }

  /** The three answers of `classify_intent`. */
  datatype Intent = Sleep | Move | Chat

  /** `classify_intent`: sleep is checked first, then the move words and continuous phrases. */
  function ClassifyIntent(text: string): Intent
  {
    var t := Lower(text);
    if IsSleep(t) then Sleep
    else if ContainsAny(t, MOVE_WORDS) || ContainsAny(t, CONTINUE_WORDS) then Move
    else Chat
  }

  /**
   * The classification means: sleep exactly when a sleep phrase occurs; otherwise a
   * move exactly when a move word occurs (the continuous phrases add nothing, as each
   * contains a move word), and chat for everything else.
   */
  lemma ClassifyIntentMeaning(text: string)
    ensures ClassifyIntent(text) == Sleep <==> IsSleep(text)
    ensures ClassifyIntent(text) == Move <==> !IsSleep(text) && exists w :: w in MOVE_WORDS && Contains(Lower(text), w)
    ensures ClassifyIntent(text) == Chat <==> !IsSleep(text) && forall w :: w in MOVE_WORDS ==> !Contains(Lower(text), w)
  {
    LowerIdempotent(text);
    ContinueImpliesMove(Lower(text));
  }

  /** A sleep phrase wins over any move words in the same utterance. */
  lemma SleepPreemptsMove(text: string, p: string)
    requires p in SLEEP_PHRASES && Contains(Lower(text), p)
    ensures ClassifyIntent(text) == Sleep
  {
    ClassifyIntentMeaning(text);
  }

  /** "sonu sleep forward" is a sleep command, not a move. */
  lemma SonuSleepForwardIsSleep()
    ensures ClassifyIntent("sonu sleep forward") == Sleep
  {
    var text := "sonu sleep forward";
    LowerIdempotent(text);
    assert Lower(text) == text;
    ContainsAt(text, "sonu sleep", 0);
    assert SLEEP_PHRASES[5] == "sonu sleep";
    SleepPreemptsMove(text, "sonu sleep");
  }

  /** How long a drive lasts: a single step or the long "continuous" move. */
  datatype Span = Step | Long

  /** The branch `handle_move_command` takes. */
  datatype Command = Go(dir: Direction, span: Span) | Halt | NotUnderstood

  /**
   * The branch chosen for the lower-cased text `t`: the continuous phrases first
   * (forward, backward, left, right), then the single steps.
   */
  function MoveCommand(t: string): Command
  {
    if Contains(t, "continue moving forward") || Contains(t, "continue forward") then Go(Forward, Long)
    else if Contains(t, "continue moving back") || Contains(t, "continue backward") then Go(Backward, Long)
    else if Contains(t, "continue left") then Go(Left, Long)
    else if Contains(t, "continue right") then Go(Right, Long)
    else StepCommand(t)
  }

  /** The single steps, in the order forward, backward/back, left, right, stop, and "not understood" last. */
  function StepCommand(t: string): (r: Command)
    ensures r.Go? ==> r.span == Step
  {
    if Contains(t, "forward") then Go(Forward, Step)
    else if Contains(t, "backward") || Contains(t, "back") then Go(Backward, Step)
    else if Contains(t, "left") then Go(Left, Step)
    else if Contains(t, "right") then Go(Right, Step)
    else if Contains(t, "stop") then Halt
    else NotUnderstood
  }

  /**
   * A continuous move is chosen exactly when some continuous phrase occurs, and
   * "not understood" exactly when no move word occurs.
   */
  lemma MoveCommandMeaning(t: string)
    ensures (MoveCommand(t).Go? && MoveCommand(t).span == Long) <==> ContainsAny(t, CONTINUE_WORDS)
    ensures MoveCommand(t) == NotUnderstood <==> !ContainsAny(t, MOVE_WORDS)
  {
    ContinueImpliesMove(t);
    ContinuePhrasesListed(t);
    MoveWordsListed(t);
  }

  /** Some continuous phrase occurs exactly when one of the handler's first four tests succeeds. */
  lemma ContinuePhrasesListed(t: string)
    ensures ContainsAny(t, CONTINUE_WORDS) <==>
      Contains(t, "continue moving forward") || Contains(t, "continue forward") ||
      Contains(t, "continue moving back") || Contains(t, "continue backward") ||
      Contains(t, "continue left") || Contains(t, "continue right")
  {
    ListedPhrases();
  }

  /** Some move word occurs exactly when one of the handler's single-step tests succeeds. */
  lemma MoveWordsListed(t: string)
    ensures ContainsAny(t, MOVE_WORDS) <==>
      Contains(t, "forward") || Contains(t, "backward") || Contains(t, "back") ||
      Contains(t, "left") || Contains(t, "right") || Contains(t, "stop")
  {
    ListedPhrases();
  }

  lemma ListedPhrases()
    ensures CONTINUE_WORDS[0] == "continue moving forward" && CONTINUE_WORDS[1] == "continue forward"
    ensures CONTINUE_WORDS[2] == "continue moving back" && CONTINUE_WORDS[3] == "continue backward"
    ensures CONTINUE_WORDS[4] == "continue left" && CONTINUE_WORDS[5] == "continue right"
    ensures MOVE_WORDS[0] == "forward" && MOVE_WORDS[1] == "backward" && MOVE_WORDS[2] == "back"
    ensures MOVE_WORDS[3] == "left" && MOVE_WORDS[4] == "right" && MOVE_WORDS[5] == "stop"
  {}

  /** The direction named by each entry of CONTINUE_WORDS. */
  const CONTINUE_DIRECTIONS: seq<Direction> := [Forward, Forward, Backward, Backward, Left, Right]

  /** The single-step branch named by each entry of MOVE_WORDS. */
  const STEP_COMMANDS: seq<Command> :=
    [Go(Forward, Step), Go(Backward, Step), Go(Backward, Step), Go(Left, Step), Go(Right, Step), Halt]

  /**
   * A reference reading of the move handler: act on the first phrase of CONTINUE_WORDS
   * that occurs, else on the first word of MOVE_WORDS that occurs, else not understood.
   */
  function ListedCommand(t: string): Command
  {
    match FirstMatch(t, CONTINUE_WORDS)
    case Some(i) => Go(CONTINUE_DIRECTIONS[i], Long)
    case None =>
      match FirstMatch(t, MOVE_WORDS)
      case Some(i) => STEP_COMMANDS[i]
      case None => NotUnderstood
  }

  /** The handler's `if`/`elif` chain takes the phrase lists in their listed order. */
  lemma MoveCommandFollowsPhraseLists(t: string)
    ensures MoveCommand(t) == ListedCommand(t)
  {
    ListedPhrases();
    ContinuePhrasesListed(t);
    if !ContainsAny(t, CONTINUE_WORDS) {
      assert FirstMatch(t, CONTINUE_WORDS) == None;
      MoveWordsListed(t);
    }
  }

  /** Said while awake, "forward" is a move, and the handler takes a single forward step. */
  lemma ForwardIsSingleStep()
    ensures Lower("forward") == "forward" && !IsWake("forward")
    ensures ClassifyIntent("forward") == Move && MoveCommand("forward") == Go(Forward, Step)
  {
    var t := "forward";
    ForwardLacksPhrases();
    ContainsAt(t, "forward", 0);
    assert ClassifyIntent(t) == Move by {
      ClassifyIntentMeaning(t);
      assert MOVE_WORDS[0] == "forward";
    }
    assert MoveCommand(t) == Go(Forward, Step) by {
      ListedPhrases();
    }
  }

  /** "forward" holds no wake phrase, no sleep phrase and no continuous phrase. */
  lemma ForwardLacksPhrases()
    ensures Lower("forward") == "forward"
    ensures forall p :: p in WAKE_PHRASES ==> !Contains("forward", p)
    ensures forall p :: p in SLEEP_PHRASES ==> !Contains("forward", p)
    ensures forall p :: p in CONTINUE_WORDS ==> !Contains("forward", p)
  {
    var t := "forward";
    LowerIdempotent(t);
    forall p | p in WAKE_PHRASES ensures !Contains(t, p) { NotContains(t, p, 'h'); }
    forall p | p in SLEEP_PHRASES ensures !Contains(t, p) { NotContains(t, p, 's'); }
    forall p | p in CONTINUE_WORDS ensures !Contains(t, p) { NotContains(t, p, 'c'); }
  }

  /** Text the classifier calls a move never reaches the handler's "not understood" branch. */
  lemma MoveIntentUnderstood(text: string)
    requires ClassifyIntent(text) == Move
    ensures MoveCommand(Lower(text)) != NotUnderstood
  {
    ClassifyIntentMeaning(text);
    LowerIdempotent(text);
    MoveCommandMeaning(Lower(text));
  }
}
